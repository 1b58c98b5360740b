/**
 The CPU list parser: the "List format" of the FORMATS section of cpuset(7), as comma
 separated numbers and ranges, with blanks around numbers and empty items allowed.
 */
module CpuList {
  import opened Options

  /** `u16::MAX` */
  const MAX := 65535

  datatype Result =
    | Ok(cpus: seq<nat>)
    | BadNumber(text: string)
    | BadRange(start: nat, end: nat)

  // ----- Strings, as the standard library of the source treats them

  /** Unicode white space. */
  predicate IsBlank(c: char) {
    var i := c as int;
    || 9 <= i <= 13 || i == 32 || i == 0x85 || i == 0xA0 || i == 0x1680 || 0x2000 <= i <= 0x200A
    || i == 0x2028 || i == 0x2029 || i == 0x202F || i == 0x205F || i == 0x3000
  }

  predicate AllBlank(s: string) {
    forall i :: 0 <= i < |s| ==> IsBlank(s[i])
  }

  function TrimLeft(s: string): string {
    if s != "" && IsBlank(s[0]) then TrimLeft(s[1..]) else s
  }

  function TrimRight(s: string): string {
    if s != "" && IsBlank(s[|s| - 1]) then TrimRight(s[..|s| - 1]) else s
  }

  function Trim(s: string): string {
    TrimRight(TrimLeft(s))
  }

  /** The pieces between separators; there is always at least one. */
  function Split(s: string, sep: char): (r: seq<string>)
    ensures r != []
  {
    if s == "" then [""]
    else
      var rest := Split(s[1..], sep);
      if s[0] == sep then [""] + rest else [[s[0]] + rest[0]] + rest[1..]
  }

  /** Like `Split`, but a trailing empty piece is dropped. */
  function SplitTerminator(s: string, sep: char): seq<string> {
    var r := Split(s, sep);
    if r[|r| - 1] == "" then r[..|r| - 1] else r
  }

  predicate IsDigit(c: char) {
    '0' <= c <= '9'
  }

  predicate AllDigits(s: string) {
    forall i :: 0 <= i < |s| ==> IsDigit(s[i])
  }

  function DigitValue(c: char): nat
    requires IsDigit(c)
  {
    c as int - '0' as int
  }

  function Value(s: string): nat
    requires AllDigits(s)
  {
    if s == "" then 0 else 10 * Value(s[..|s| - 1]) + DigitValue(s[|s| - 1])
  }

  /** `str::parse::<u16>`: an optional plus sign, then digits, without overflow. */
  function ParseU16(s: string): Option<nat> {
    var digits := if |s| > 1 && s[0] == '+' then s[1..] else s;
    if digits == "" || !AllDigits(digits) then None
    else if Value(digits) > MAX then None
    else Some(Value(digits))
  }

  // ----- The parser

  /** The numbers of `start .. end`, the end excluded. */
  function Numbers(start: nat, end: nat): seq<nat>
    decreases end - start
  {
    if start >= end then [] else [start] + Numbers(start + 1, end)
  }

  /** A range up to and including `end`. The successor of `end` is a 16-bit sum, which wraps. */
  function Span(start: nat, end: nat): seq<nat> {
    Numbers(start, (end + 1) % (MAX + 1))
  }

  function ReadNumber(text: string): Result {
    match ParseU16(text)
    case Some(n) => Ok([n])
    case None => BadNumber(text)
  }

  function ReadRange(first: string, second: string): Result {
    match (ParseU16(first), ParseU16(second))
    case (None, _) => BadNumber(first)
    case (_, None) => BadNumber(second)
    case (Some(a), Some(b)) => if a > b then BadRange(a, b) else Ok(Span(a, b))
  }

  /** One item of the list. Only the first two parts between dashes are looked at. */
  function ParseItem(text: string): Result {
    var item := Trim(text);
    if item == "" then Ok([])
    else
      var parts := Split(item, '-');
      if |parts| == 1 then ReadNumber(Trim(parts[0])) else ReadRange(Trim(parts[0]), Trim(parts[1]))
  }

  /** All items in order, up to the first that does not parse. */
  function ParseItems(items: seq<string>): Result {
    if items == [] then Ok([])
    else
      match ParseItem(items[0])
      case Ok(cpus) =>
        (match ParseItems(items[1..])
         case Ok(more) => Ok(cpus + more)
         case err => err)
      case err => err
  }

  function Parse(s: string): Result {
    ParseItems(SplitTerminator(s, ','))
  }

  lemma {:induction false} ParseItemsAppend(a: seq<string>, x: string)
    ensures ParseItems(a + [x]) ==
            match ParseItems(a)
            case Ok(cpus) => (match ParseItem(x) case Ok(more) => Ok(cpus + more) case err => err)
            case err => err
  {
    if a != [] {
      assert (a + [x])[1..] == a[1..] + [x];
      ParseItemsAppend(a[1..], x);
      match (ParseItem(a[0]), ParseItems(a[1..]), ParseItem(x))
      case (Ok(p), Ok(q), Ok(r)) => assert p + (q + r) == (p + q) + r;
      case _ =>
    } else {
      assert a + [x] == [x];
      match ParseItem(x)
      case Ok(r) => assert r + [] == r && [] + r == r;
      case _ =>
    }
  }

  lemma {:induction false} ParseItemsStop(items: seq<string>, k: nat)
    requires k <= |items| && !ParseItems(items[..k]).Ok?
    ensures ParseItems(items) == ParseItems(items[..k])
    decreases |items| - k
  {
    if k == |items| {
      assert items[..k] == items;
    } else {
      assert items[..k + 1] == items[..k] + [items[k]];
      ParseItemsAppend(items[..k], items[k]);
      ParseItemsStop(items, k + 1);
    }
  }

  /** A list is refused exactly when an item is, and with the error of the first such item. */
  lemma {:induction false} FirstError(items: seq<string>) returns (k: nat)
    ensures k <= |items| && forall i :: 0 <= i < k ==> ParseItem(items[i]).Ok?
    ensures if k == |items| then ParseItems(items).Ok?
            else !ParseItem(items[k]).Ok? && ParseItems(items) == ParseItem(items[k])
  {
    hide ParseItem;
    k := 0;
    if items != [] && ParseItem(items[0]).Ok? {
      k := FirstError(items[1..]);
      assert forall i :: 0 < i < |items| ==> items[i] == items[1..][i - 1];
      k := k + 1;
    }
  }

  /** The parser as a loop that pushes onto its result and stops at the first error. */
  method ParseCpuset(cpusets: string) returns (r: Result)
    ensures r == Parse(cpusets)
  {
    hide ParseItem, SplitTerminator;
    var items := SplitTerminator(cpusets, ',');
    var ret: seq<nat> := [];
    for i := 0 to |items|
      invariant ParseItems(items[..i]) == Ok(ret)
    {
      assert items[..i + 1] == items[..i] + [items[i]];
      ParseItemsAppend(items[..i], items[i]);
      var one := ParseItem(items[i]);
      if !one.Ok? {
        ParseItemsStop(items, i + 1);
        return one;
      }
      ret := ret + one.cpus;
    }
    assert items[..|items|] == items;
    return Ok(ret);
  }

  // ----- Every number read is a CPU number

  predicate InRange(cpus: seq<nat>) {
    forall i :: 0 <= i < |cpus| ==> cpus[i] <= MAX
  }

  lemma {:induction false} NumbersInRange(start: nat, end: nat)
    requires end <= MAX + 1
    ensures InRange(Numbers(start, end))
    decreases end - start
  {
    if start < end {
      NumbersInRange(start + 1, end);
    }
  }

  lemma ItemInRange(text: string)
    ensures ParseItem(text).Ok? ==> InRange(ParseItem(text).cpus)
  {
    hide Trim, Split, Value, Numbers, AllDigits;
    forall a: nat, b: nat ensures InRange(Span(a, b)) {
      NumbersInRange(a, (b + 1) % (MAX + 1));
    }
  }

  lemma {:induction false} ItemsInRange(items: seq<string>)
    ensures ParseItems(items).Ok? ==> InRange(ParseItems(items).cpus)
  {
    hide ParseItem;
    if items != [] {
      ItemInRange(items[0]);
      ItemsInRange(items[1..]);
    }
  }

  lemma ParseInRange(s: string)
    ensures Parse(s).Ok? ==> InRange(Parse(s).cpus)
  {
    ItemsInRange(SplitTerminator(s, ','));
  }

  // ----- Trimming

  lemma {:induction false} TrimLeftBlanks(l: string, core: string)
    requires AllBlank(l) && (core == "" || !IsBlank(core[0]))
    ensures TrimLeft(l + core) == core
  {
    if l != "" {
      assert (l + core)[1..] == l[1..] + core;
      TrimLeftBlanks(l[1..], core);
    } else {
      assert l + core == core;
    }
  }

  lemma {:induction false} TrimRightBlanks(core: string, r: string)
    requires AllBlank(r) && (core == "" || !IsBlank(core[|core| - 1]))
    ensures TrimRight(core + r) == core
  {
    if r != "" {
      var s := core + r;
      assert s[..|s| - 1] == core + r[..|r| - 1];
      TrimRightBlanks(core, r[..|r| - 1]);
    } else {
      assert core + r == core;
    }
  }

  lemma TrimBlanks(l: string, core: string, r: string)
    requires AllBlank(l) && AllBlank(r)
    requires core != "" && !IsBlank(core[0]) && !IsBlank(core[|core| - 1])
    ensures Trim(l + core + r) == core
  {
    assert l + core + r == l + (core + r);
    TrimLeftBlanks(l, core + r);
    TrimRightBlanks(core, r);
  }

  lemma TrimAllBlank(b: string)
    requires AllBlank(b)
    ensures Trim(b) == ""
  {
    assert b + "" == b;
    TrimLeftBlanks(b, "");
  }

  lemma {:induction false} TrimLeftCut(s: string) returns (l: string)
    ensures AllBlank(l) && s == l + TrimLeft(s)
    ensures TrimLeft(s) == "" || !IsBlank(TrimLeft(s)[0])
  {
    l := "";
    if s != "" && IsBlank(s[0]) {
      l := TrimLeftCut(s[1..]);
      l := [s[0]] + l;
    }
  }

  lemma {:induction false} TrimRightCut(s: string) returns (r: string)
    ensures AllBlank(r) && s == TrimRight(s) + r
    ensures var c := TrimRight(s); c == "" || !IsBlank(c[|c| - 1])
  {
    r := "";
    if s != "" && IsBlank(s[|s| - 1]) {
      r := TrimRightCut(s[..|s| - 1]);
      r := r + [s[|s| - 1]];
    }
  }

  /** Trimming cuts blanks off both ends, as many as there are. */
  lemma TrimCut(s: string) returns (l: string, r: string)
    ensures AllBlank(l) && AllBlank(r) && s == l + Trim(s) + r
    ensures var c := Trim(s); c == "" || (!IsBlank(c[0]) && !IsBlank(c[|c| - 1]))
  {
    l := TrimLeftCut(s);
    r := TrimRightCut(TrimLeft(s));
  }

  lemma TrimInside(l: string, s: string, r: string)
    requires AllBlank(l) && AllBlank(r)
    ensures Trim(l + s + r) == Trim(s)
  {
    hide Trim, AllBlank;
    var l', r' := TrimCut(s);
    BlankConcat(l, l');
    BlankConcat(r', r);
    if Trim(s) != "" {
      assert l + s + r == (l + l') + Trim(s) + (r' + r);
      TrimBlanks(l + l', Trim(s), r' + r);
    } else {
      assert l + s + r == (l + l') + (r' + r);
      BlankConcat(l + l', r' + r);
      TrimAllBlank((l + l') + (r' + r));
    }
  }

  lemma BlankConcat(a: string, b: string)
    requires AllBlank(a) && AllBlank(b)
    ensures AllBlank(a + b)
  {
  }

  /** Trimming again, or first on one side only, changes nothing. */
  lemma TrimTwice(s: string)
    ensures Trim(TrimLeft(s)) == Trim(TrimRight(s)) == Trim(Trim(s)) == Trim(s)
  {
    hide Trim, TrimLeft, TrimRight;
    var l := TrimLeftCut(s);
    assert l + TrimLeft(s) + "" == s;
    TrimInside(l, TrimLeft(s), "");
    var r := TrimRightCut(s);
    assert "" + TrimRight(s) + r == s;
    TrimInside("", TrimRight(s), r);
    var l', r' := TrimCut(s);
    TrimInside(l', Trim(s), r');
  }

  // ----- Splitting

  predicate Free(s: string, sep: char) {
    forall i :: 0 <= i < |s| ==> s[i] != sep
  }

  function Join(pieces: seq<string>, sep: char): string {
    if pieces == [] then ""
    else if |pieces| == 1 then pieces[0]
    else pieces[0] + [sep] + Join(pieces[1..], sep)
  }

  lemma {:induction false} SplitFree(s: string, sep: char)
    requires Free(s, sep)
    ensures Split(s, sep) == [s]
  {
    if s != "" {
      SplitFree(s[1..], sep);
      assert [s[0]] + s[1..] == s;
    }
  }

  lemma {:induction false} SplitOnce(a: string, sep: char, b: string)
    requires Free(a, sep)
    ensures Split(a + [sep] + b, sep) == [a] + Split(b, sep)
  {
    var s := a + [sep] + b;
    if a == "" {
      assert s[1..] == b;
    } else {
      assert s[1..] == a[1..] + [sep] + b;
      SplitOnce(a[1..], sep, b);
      assert [a[0]] + a[1..] == a;
      assert Split(s, sep) == [[s[0]] + a[1..]] + Split(b, sep);
    }
  }

  lemma {:induction false} SplitJoin(pieces: seq<string>, sep: char)
    requires pieces != [] && forall i :: 0 <= i < |pieces| ==> Free(pieces[i], sep)
    ensures Split(Join(pieces, sep), sep) == pieces
  {
    if |pieces| == 1 {
      SplitFree(pieces[0], sep);
      assert pieces == [pieces[0]];
    } else {
      SplitJoin(pieces[1..], sep);
      SplitOnce(pieces[0], sep, Join(pieces[1..], sep));
      assert pieces == [pieces[0]] + pieces[1..];
    }
  }

  /** The pieces hold no separator, and joining them restores the text. */
  lemma {:induction false} JoinSplit(s: string, sep: char)
    ensures Join(Split(s, sep), sep) == s
    ensures forall i :: 0 <= i < |Split(s, sep)| ==> Free(Split(s, sep)[i], sep)
  {
    if s != "" {
      JoinSplit(s[1..], sep);
      var rest := Split(s[1..], sep);
      assert Split(s, sep)[1..] == if s[0] == sep then rest else rest[1..];
    }
  }

  // ----- Dashes

  /** What may follow a second dash. */
  function TailText(tail: Option<string>): string {
    match tail
    case None => ""
    case Some(t) => ['-'] + t
  }

  lemma TrimDash(a: string, c: string)
    ensures Trim(a + ['-'] + c) == TrimLeft(a) + ['-'] + TrimRight(c)
  {
    hide Trim, TrimLeft, TrimRight, AllBlank;
    var l := TrimLeftCut(a);
    var r := TrimRightCut(c);
    var core := TrimLeft(a) + ['-'] + TrimRight(c);
    assert a + ['-'] + c == l + core + r;
    TrimBlanks(l, core, r);
  }

  lemma TrimRightDash(b: string, t: string)
    ensures TrimRight(b + ['-'] + t) == b + ['-'] + TrimRight(t)
  {
    hide TrimRight, AllBlank;
    var r := TrimRightCut(t);
    var core := b + ['-'] + TrimRight(t);
    assert b + ['-'] + t == core + r;
    TrimRightBlanks(core, r);
  }

  lemma TrimKeepsFree(s: string, c: char)
    requires Free(s, c)
    ensures Free(Trim(s), c) && Free(TrimLeft(s), c) && Free(TrimRight(s), c)
  {
    hide Trim, TrimLeft, TrimRight, AllBlank;
    var l, r := TrimCut(s);
    assert forall i :: 0 <= i < |Trim(s)| ==> Trim(s)[i] == s[|l| + i];
    var l' := TrimLeftCut(s);
    assert forall i :: 0 <= i < |TrimLeft(s)| ==> TrimLeft(s)[i] == s[|l'| + i];
    var r' := TrimRightCut(s);
    assert forall i :: 0 <= i < |TrimRight(s)| ==> TrimRight(s)[i] == s[i];
  }

  /** An item without a dash is a number, or nothing. */
  lemma ParseAlone(text: string)
    requires Free(text, '-')
    ensures ParseItem(text) == if Trim(text) == "" then Ok([]) else ReadNumber(Trim(text))
  {
    hide Trim, ReadNumber, Split;
    TrimKeepsFree(text, '-');
    SplitFree(Trim(text), '-');
    TrimTwice(text);
  }

  /** The first part between the dashes of what is left after trimming on the right. */
  lemma SecondPart(b: string, tail: Option<string>)
    requires Free(b, '-')
    ensures var parts := Split(TrimRight(b + TailText(tail)), '-');
            Trim(parts[0]) == Trim(b)
  {
    hide Trim, TrimRight, Split;
    match tail
    case None =>
      assert b + "" == b;
      TrimKeepsFree(b, '-');
      SplitFree(TrimRight(b), '-');
      TrimTwice(b);
    case Some(t) =>
      assert b + (['-'] + t) == b + ['-'] + t;
      TrimRightDash(b, t);
      SplitOnce(b, '-', TrimRight(t));
  }

  /** An item with a dash is read by what stands before its second dash, if it has one. */
  lemma ParsePair(a: string, b: string, tail: Option<string>)
    requires Free(a, '-') && Free(b, '-')
    ensures ParseItem(a + ['-'] + (b + TailText(tail))) == ReadRange(Trim(a), Trim(b))
  {
    hide Trim, TrimLeft, TrimRight, Split, ReadRange, TailText;
    var c := b + TailText(tail);
    TrimDash(a, c);
    TrimKeepsFree(a, '-');
    SplitOnce(TrimLeft(a), '-', TrimRight(c));
    SecondPart(b, tail);
    TrimTwice(a);
  }

  /** An item without a dash that is no number is named in the error, trimmed. */
  lemma NumberErrors(text: string)
    requires Free(text, '-') && Trim(text) != ""
    ensures ParseItem(text) ==
            if ParseU16(Trim(text)).Some? then Ok([ParseU16(Trim(text)).value]) else BadNumber(Trim(text))
  {
    hide ParseItem, Trim, ParseU16;
    ParseAlone(text);
  }

  /**
   Of a range, the first part that is no number is named in the error; two numbers in the wrong
   order are both named, the start first.
   */
  lemma RangeErrors(a: string, b: string, tail: Option<string>)
    requires Free(a, '-') && Free(b, '-')
    ensures var r, x, y := ParseItem(a + ['-'] + (b + TailText(tail))), ParseU16(Trim(a)), ParseU16(Trim(b));
            && (x.None? ==> r == BadNumber(Trim(a)))
            && (x.Some? && y.None? ==> r == BadNumber(Trim(b)))
            && (x.Some? && y.Some? && x.value > y.value ==> r == BadRange(x.value, y.value))
            && (x.Some? && y.Some? && x.value <= y.value ==> r == Ok(Span(x.value, y.value)))
  {
    hide ParseItem, Trim, ParseU16;
    ParsePair(a, b, tail);
  }

  /** The largest number of 16 bits is read, and the next one is not. */
  lemma LargestNumber()
    ensures ParseU16("65535") == Some(65535) && ParseU16("65536") == None
  {
    assert "6553"[..3] == "655" && "655"[..2] == "65" && "65"[..1] == "6" && "6"[..0] == "";
    assert Value("6") == 6;
    assert Value("65") == 65;
    assert Value("655") == 655;
    assert Value("6553") == 6553;
    assert "65535"[..4] == "6553" && "65536"[..4] == "6553";
  }

  /** Spaces and tabs may stand around the numbers of a range. */
  lemma BlanksAreSkipped()
    ensures ParseItem(" 1 -\t2 ") == Ok([1, 2])
  {
    hide ParseItem, Trim, ReadRange;
    ParsePair(" 1 ", "\t2 ", None);
    assert " 1 " + ['-'] + ("\t2 " + TailText(None)) == " 1 -\t2 ";
    TrimBlanks(" ", "1", " ");
    TrimBlanks("\t", "2", " ");
    assert " " + "1" + " " == " 1 " && "\t" + "2" + " " == "\t2 ";
    OneAndTwo();
  }

  lemma OneAndTwo()
    ensures ReadRange("1", "2") == Ok([1, 2])
  {
    assert "1"[..0] == "" && "2"[..0] == "";
    assert Value("1") == 1 && Value("2") == 2;
    assert Numbers(2, 3) == [2] + Numbers(3, 3);
    assert Span(1, 2) == [1] + Numbers(2, 3);
  }

  /** Text after a second dash changes nothing: neither the CPUs read nor the error. */
  lemma SecondDashIsIgnored(a: string, b: string, rest: string)
    requires Free(a, '-') && Free(b, '-')
    ensures ParseItem(a + ['-'] + b + ['-'] + rest) == ParseItem(a + ['-'] + b)
  {
    hide ParseItem;
    ParsePair(a, b, Some(rest));
    ParsePair(a, b, None);
    assert a + ['-'] + (b + TailText(Some(rest))) == a + ['-'] + b + ['-'] + rest;
    assert a + ['-'] + (b + TailText(None)) == a + ['-'] + b;
  }

  /** The parts of a text with a dash, as the parser sees them. */
  lemma CutAtDashes(text: string) returns (a: string, b: string, tail: Option<string>)
    requires |Split(text, '-')| > 1
    ensures Free(a, '-') && Free(b, '-') && text == a + ['-'] + (b + TailText(tail))
    ensures tail.Some? <==> |Split(text, '-')| > 2
    ensures |Split(a + ['-'] + b, '-')| == 2
  {
    var parts := Split(text, '-');
    JoinSplit(text, '-');
    a, b, tail := parts[0], parts[1], None;
    if |parts| > 2 {
      tail := Some(Join(parts[2..], '-'));
      assert parts[1..][1..] == parts[2..];
      assert Join(parts[1..], '-') == b + ['-'] + Join(parts[2..], '-');
    } else {
      assert parts[1..] == [b];
    }
    SplitOnce(a, '-', b);
    SplitFree(b, '-');
  }

  /** Every item with two dashes or more is read exactly as the text before its second dash. */
  lemma ExtraDashes(text: string) returns (head: string, rest: string)
    requires |Split(text, '-')| > 2
    ensures text == head + ['-'] + rest && |Split(head, '-')| == 2
    ensures ParseItem(text) == ParseItem(head)
  {
    hide ParseItem, Split;
    var a, b, tail := CutAtDashes(text);
    head, rest := a + ['-'] + b, tail.value;
    assert text == a + ['-'] + b + ['-'] + rest;
    SecondDashIsIgnored(a, b, rest);
  }

  /** Three numbers with dashes between them are no range of the list format, but are read as one. */
  lemma ThreeNumbersAreRead()
    ensures ParseItem("1-2-3") == Ok([1, 2])
  {
    hide ParseItem, Trim, ReadRange;
    ParsePair("1", "2", Some("3"));
    assert "1" + ['-'] + ("2" + TailText(Some("3"))) == "1-2-3";
    TrimBlanks("", "1", "");
    TrimBlanks("", "2", "");
    assert "" + "1" + "" == "1" && "" + "2" + "" == "2";
    OneAndTwo();
  }

  lemma {:induction false} NumbersLength(lo: nat, hi: nat)
    requires lo <= hi
    ensures |Numbers(lo, hi)| == hi - lo
    ensures forall i :: 0 <= i < hi - lo ==> Numbers(lo, hi)[i] == lo + i
    decreases hi - lo
  {
    if lo < hi {
      NumbersLength(lo + 1, hi);
    }
  }
}
