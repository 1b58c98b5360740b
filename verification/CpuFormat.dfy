/**
 Which texts the CPU list parser accepts, and what it reads in them: the prints of lists of
 items, and nothing else. Items may be written more freely than the list format allows, with
 plus signs and with text after a second dash.
 */
module CpuFormat {
  import opened Options
  import opened CpuList

  /** A number as it may be written. */
  datatype Numeral = Numeral(plus: bool, zeros: nat, n: nat)

  /** One item of a list, with the blanks that may stand around its numbers. */
  datatype Item =
    | Single(num: Numeral, left: string, right: string)
    | Range(lo: Numeral, hi: Numeral, left: string, beforeDash: string, afterDash: string, right: string,
            tail: Option<string>)
    | Empty(blanks: string)

  /** The items that the parser takes. */
  predicate Readable(x: Item) {
    match x
    case Single(n, l, r) => n.n <= MAX && AllBlank(l) && AllBlank(r)
    case Range(lo, hi, l, a, b, r, tail) =>
      && lo.n <= hi.n <= MAX && AllBlank(l) && AllBlank(a) && AllBlank(b) && AllBlank(r)
      && (tail.Some? ==> Free(tail.value, ','))
    case Empty(b) => AllBlank(b)
  }

  /** The items of the list format proper. */
  predicate InFormat(x: Item) {
    match x
    case Single(n, _, _) => !n.plus
    case Range(lo, hi, _, _, _, _, tail) => !lo.plus && !hi.plus && tail.None?
    case Empty(_) => true
  }

  // ----- Printing

  function Digit(d: nat): char
    requires d < 10
  {
    ('0' as int + d) as char
  }

  function Decimal(n: nat): string {
    if n < 10 then [Digit(n)] else Decimal(n / 10) + [Digit(n % 10)]
  }

  function Zeros(k: nat): string {
    if k == 0 then "" else Zeros(k - 1) + ['0']
  }

  function Digits(x: Numeral): string {
    Zeros(x.zeros) + Decimal(x.n)
  }

  function Write(x: Numeral): string {
    if x.plus then ['+'] + Digits(x) else Digits(x)
  }

  function Text(x: Item): string {
    match x
    case Single(n, l, r) => l + Write(n) + r
    case Range(lo, hi, l, a, b, r, tail) => (l + Write(lo) + a) + ['-'] + ((b + Write(hi) + r) + TailText(tail))
    case Empty(b) => b
  }

  function Texts(xs: seq<Item>): seq<string> {
    seq(|xs|, i requires 0 <= i < |xs| => Text(xs[i]))
  }

  function Print(xs: seq<Item>): string {
    Join(Texts(xs), ',')
  }

  /** What the parser reads in an item; the successor of a range's end wraps. */
  function Reading(x: Item): seq<nat> {
    match x
    case Single(n, _, _) => [n.n]
    case Range(lo, hi, _, _, _, _, _) => Span(lo.n, hi.n)
    case Empty(_) => []
  }

  function Readings(xs: seq<Item>): seq<nat> {
    if xs == [] then [] else Reading(xs[0]) + Readings(xs[1..])
  }

  /** What an item stands for. */
  function Expansion(x: Item): seq<nat> {
    match x
    case Single(n, _, _) => [n.n]
    case Range(lo, hi, _, _, _, _, _) => Numbers(lo.n, hi.n + 1)
    case Empty(_) => []
  }

  function Expand(xs: seq<Item>): seq<nat> {
    if xs == [] then [] else Expansion(xs[0]) + Expand(xs[1..])
  }

  ghost predicate AllReadable(xs: seq<Item>) {
    forall i :: 0 <= i < |xs| ==> Readable(xs[i])
  }

  // ----- Numbers

  lemma {:induction false} DecimalDigits(n: nat)
    ensures Decimal(n) != "" && AllDigits(Decimal(n))
  {
    if n >= 10 {
      DecimalDigits(n / 10);
    }
  }

  lemma {:induction false} ZerosAreDigits(k: nat)
    ensures AllDigits(Zeros(k)) && Value(Zeros(k)) == 0
  {
    if k > 0 {
      ZerosAreDigits(k - 1);
      assert Zeros(k)[..|Zeros(k)| - 1] == Zeros(k - 1);
    }
  }

  lemma ValueAppend(d: string, c: char)
    requires AllDigits(d) && IsDigit(c)
    ensures AllDigits(d + [c]) && Value(d + [c]) == 10 * Value(d) + DigitValue(c)
  {
    assert (d + [c])[..|d|] == d;
  }

  lemma {:induction false} DigitsValue(k: nat, n: nat)
    ensures var d := Zeros(k) + Decimal(n);
            d != "" && AllDigits(d) && Value(d) == n
  {
    var z := Zeros(k);
    ZerosAreDigits(k);
    DecimalDigits(n);
    if n < 10 {
      ValueAppend(z, Digit(n));
    } else {
      DigitsValue(k, n / 10);
      ValueAppend(z + Decimal(n / 10), Digit(n % 10));
      assert z + Decimal(n) == z + Decimal(n / 10) + [Digit(n % 10)];
    }
  }

  lemma ParseNumeral(x: Numeral)
    requires x.n <= MAX
    ensures ParseU16(Write(x)) == Some(x.n)
  {
    DigitsValue(x.zeros, x.n);
    assert IsDigit(Digits(x)[0]);
    if x.plus {
      assert Write(x)[1..] == Digits(x);
    }
  }

  lemma DigitOfValue(c: char)
    requires IsDigit(c)
    ensures DigitValue(c) < 10 && Digit(DigitValue(c)) == c
  {
  }

  /** Every string of digits is a decimal behind some zeros. */
  lemma {:induction false} FindDigits(d: string) returns (k: nat)
    requires d != "" && AllDigits(d)
    ensures d == Zeros(k) + Decimal(Value(d))
  {
    var init, c := d[..|d| - 1], d[|d| - 1];
    assert d == init + [c];
    DigitOfValue(c);
    k := 0;
    if init == "" {
      assert Value(init) == 0;
    } else {
      k := FindDigits(init);
      if Value(init) == 0 {
        assert Zeros(k + 1) == Zeros(k) + Decimal(0);
        k := k + 1;
      } else {
        assert Zeros(k) + Decimal(Value(d)) == (Zeros(k) + Decimal(Value(init))) + [c];
      }
    }
  }

  /** What parses as a number is a numeral. */
  lemma FindNumeral(s: string) returns (x: Numeral)
    requires ParseU16(s).Some?
    ensures Write(x) == s && x.n == ParseU16(s).value <= MAX
  {
    var plus := |s| > 1 && s[0] == '+';
    var digits := if plus then s[1..] else s;
    var k := FindDigits(digits);
    x := Numeral(plus, k, Value(digits));
    assert plus ==> s == ['+'] + s[1..];
  }

  /** A text is a number exactly when it is a numeral for one of 16 bits, which it then denotes. */
  lemma NumberIff(s: string)
    ensures ParseU16(s).Some? <==> exists x: Numeral :: x.n <= MAX && Write(x) == s
    ensures forall x: Numeral :: x.n <= MAX && Write(x) == s ==> ParseU16(s) == Some(x.n)
  {
    hide ParseU16, Write;
    if ParseU16(s).Some? {
      var x := FindNumeral(s);
    }
    forall x: Numeral | x.n <= MAX && Write(x) == s ensures ParseU16(s) == Some(x.n) {
      ParseNumeral(x);
    }
  }

  // ----- The characters of an item

  /** Nothing that an item or a list is cut at. */
  predicate Plain(s: string) {
    Free(s, ',') && Free(s, '-')
  }

  lemma WriteIsSolid(x: Numeral)
    ensures var s := Write(x); s != "" && !IsBlank(s[0]) && !IsBlank(s[|s| - 1]) && Plain(s)
    ensures Free(Write(x), '+') <==> !x.plus
  {
    hide Decimal, Zeros;
    DigitsValue(x.zeros, x.n);
    var s, d := Write(x), Digits(x);
    assert forall i :: 0 <= i < |d| ==> IsDigit(d[i]);
    assert s[|s| - 1] == d[|d| - 1];
    assert x.plus ==> s[0] == '+';
  }

  lemma BlanksArePlain(s: string)
    requires AllBlank(s)
    ensures Plain(s) && Free(s, '+')
  {
  }

  lemma FreeConcat(a: string, b: string, c: char)
    ensures Free(a + b, c) <==> Free(a, c) && Free(b, c)
  {
    assert forall i :: 0 <= i < |a| ==> (a + b)[i] == a[i];
    assert forall i :: 0 <= i < |b| ==> (a + b)[|a| + i] == b[i];
  }

  /** A number with blanks around it. */
  lemma PaddedNumeral(l: string, x: Numeral, r: string)
    requires AllBlank(l) && AllBlank(r)
    ensures var s := l + Write(x) + r;
            && Plain(s) && Trim(s) == Write(x) && (Free(s, '+') <==> !x.plus)
  {
    hide AllBlank, Trim, Write, IsBlank, Free;
    WriteIsSolid(x);
    BlanksArePlain(l);
    BlanksArePlain(r);
    TrimBlanks(l, Write(x), r);
    forall c ensures Free(l + Write(x) + r, c) <==> Free(l, c) && Free(Write(x), c) && Free(r, c) {
      FreeConcat(l, Write(x), c);
      FreeConcat(l + Write(x), r, c);
    }
  }

  // ----- One item

  lemma ReadItem(x: Item)
    requires Readable(x)
    ensures ParseItem(Text(x)) == Ok(Reading(x))
  {
    hide ParseItem, AllBlank, Trim, Write, Span, TailText, ParseU16;
    match x
    case Single(n, l, r) =>
      PaddedNumeral(l, n, r);
      ParseAlone(Text(x));
      ParseNumeral(n);
      WriteIsSolid(n);
    case Range(lo, hi, l, a, b, r, tail) =>
      PaddedNumeral(l, lo, a);
      PaddedNumeral(b, hi, r);
      ParsePair(l + Write(lo) + a, b + Write(hi) + r, tail);
      ParseNumeral(lo);
      ParseNumeral(hi);
    case Empty(b) =>
      BlanksArePlain(b);
      ParseAlone(b);
      TrimAllBlank(b);
  }

  lemma FindSingle(text: string) returns (x: Item)
    requires Free(text, '-') && ParseItem(text).Ok?
    ensures Readable(x) && Text(x) == text
  {
    hide ParseItem, AllBlank, Trim, Write, ParseU16;
    ParseAlone(text);
    var l, r := TrimCut(text);
    if Trim(text) == "" {
      BlankConcat(l, r);
      assert text == l + r;
      x := Empty(text);
    } else {
      var n := FindNumeral(Trim(text));
      x := Single(n, l, r);
    }
  }

  lemma FindRange(text: string) returns (x: Item)
    requires Free(text, ',') && |Split(text, '-')| > 1 && ParseItem(text).Ok?
    ensures Readable(x) && Text(x) == text
  {
    hide ParseItem, AllBlank, Trim, Write, ParseU16, Split, Span;
    var p, q, tail := CutAtDashes(text);
    ParsePair(p, q, tail);
    var l, a := TrimCut(p);
    var b, r := TrimCut(q);
    var lo := FindNumeral(Trim(p));
    var hi := FindNumeral(Trim(q));
    x := Range(lo, hi, l, a, b, r, tail);
    assert tail.Some? ==> forall i :: 0 <= i < |tail.value| ==> tail.value[i] == text[|p| + 1 + |q| + 1 + i];
  }

  /** What is accepted as an item is the text of a readable item. */
  lemma FindItem(text: string) returns (x: Item)
    requires Free(text, ',') && ParseItem(text).Ok?
    ensures Readable(x) && Text(x) == text
  {
    hide ParseItem, Split;
    if |Split(text, '-')| == 1 {
      JoinSplit(text, '-');
      x := FindSingle(text);
    } else {
      x := FindRange(text);
    }
  }

  lemma TextIsFree(x: Item)
    requires Readable(x)
    ensures Free(Text(x), ',')
  {
    hide AllBlank, Write, Trim;
    match x
    case Single(n, l, r) => PaddedNumeral(l, n, r);
    case Range(lo, hi, l, a, b, r, tail) =>
      PaddedNumeral(l, lo, a);
      PaddedNumeral(b, hi, r);
    case Empty(b) => BlanksArePlain(b);
  }

  /** An item that is read is in the format exactly when it has no plus sign and at most one dash. */
  lemma InFormatIff(x: Item)
    requires Readable(x)
    ensures InFormat(x) <==> Free(Text(x), '+') && |Split(Text(x), '-')| <= 2
  {
    hide AllBlank, Write, Trim, Free, Split;
    match x
    case Single(n, l, r) =>
      PaddedNumeral(l, n, r);
      SplitFree(Text(x), '-');
    case Range(lo, hi, l, a, b, r, tail) => RangeInFormatIff(lo, hi, l, a, b, r, tail);
    case Empty(b) =>
      BlanksArePlain(b);
      SplitFree(b, '-');
  }

  lemma RangeInFormatIff(lo: Numeral, hi: Numeral, l: string, a: string, b: string, r: string, tail: Option<string>)
    requires AllBlank(l) && AllBlank(a) && AllBlank(b) && AllBlank(r)
    ensures var text := Text(Range(lo, hi, l, a, b, r, tail));
            !lo.plus && !hi.plus && tail.None? <==> Free(text, '+') && |Split(text, '-')| <= 2
  {
    hide AllBlank, Write, Trim, Free, Split;
    var p, q := l + Write(lo) + a, b + Write(hi) + r;
    PaddedNumeral(l, lo, a);
    PaddedNumeral(b, hi, r);
    SplitOnce(p, '-', q + TailText(tail));
    FreeConcat(p + ['-'], q + TailText(tail), '+');
    FreeConcat(p, ['-'], '+');
    FreeConcat(q, TailText(tail), '+');
    DashIsNoPlus();
    match tail
    case None =>
      assert q + "" == q;
      SplitFree(q, '-');
    case Some(t) =>
      assert q + (['-'] + t) == q + ['-'] + t;
      SplitOnce(q, '-', t);
  }

  lemma DashIsNoPlus()
    ensures Free(['-'], '+') && Free("", '+')
  {
  }

  // ----- The whole list

  lemma {:induction false} ReadItems(xs: seq<Item>)
    requires AllReadable(xs)
    ensures ParseItems(Texts(xs)) == Ok(Readings(xs))
  {
    hide ParseItem, Text, Reading, Readable;
    if xs != [] {
      ReadItem(xs[0]);
      ReadItems(xs[1..]);
      assert Texts(xs)[1..] == Texts(xs[1..]);
    }
  }

  /** A trailing empty item says nothing, so dropping it changes nothing. */
  lemma DropTrailingEmpty(items: seq<string>)
    requires items != [] && items[|items| - 1] == ""
    ensures ParseItems(items) == ParseItems(items[..|items| - 1])
  {
    var init := items[..|items| - 1];
    assert items == init + [""];
    ParseItemsAppend(init, "");
    match ParseItems(init)
    case Ok(cpus) => assert cpus + [] == cpus;
    case _ =>
  }

  lemma ParseIsSplit(s: string)
    ensures Parse(s) == ParseItems(Split(s, ','))
  {
    hide ParseItems, Split;
    var items := Split(s, ',');
    if items[|items| - 1] == "" {
      DropTrailingEmpty(items);
    }
  }

  /** Parsing the print of readable items returns what each of them is read as, in order. */
  lemma ReadBack(xs: seq<Item>)
    requires AllReadable(xs)
    ensures Parse(Print(xs)) == Ok(Readings(xs))
  {
    hide ParseItem, Text, Readable, Parse;
    ParseIsSplit(Print(xs));
    ReadItems(xs);
    if xs != [] {
      PrintSplits(xs);
    } else {
      NothingIsRead();
    }
  }

  lemma NothingIsRead()
    ensures Parse("") == Ok([])
  {
  }

  lemma PrintSplits(xs: seq<Item>)
    requires AllReadable(xs) && xs != []
    ensures Split(Print(xs), ',') == Texts(xs)
  {
    hide Text, Readable, Split, Free;
    forall i | 0 <= i < |xs| ensures Free(Texts(xs)[i], ',') {
      TextIsFree(xs[i]);
    }
    SplitJoin(Texts(xs), ',');
  }

  lemma {:induction false} FindItems(pieces: seq<string>) returns (xs: seq<Item>)
    requires forall i :: 0 <= i < |pieces| ==> Free(pieces[i], ',') && ParseItem(pieces[i]).Ok?
    ensures AllReadable(xs) && Texts(xs) == pieces
  {
    hide ParseItem, Text, Readable, Free;
    xs := [];
    if pieces != [] {
      var x := FindItem(pieces[0]);
      var rest := FindItems(pieces[1..]);
      xs := [x] + rest;
      assert Texts(xs) == [Text(x)] + Texts(rest);
    }
  }

  lemma FindList(s: string) returns (xs: seq<Item>)
    requires Parse(s).Ok?
    ensures AllReadable(xs) && Print(xs) == s && Texts(xs) == Split(s, ',')
  {
    hide ParseItem, ParseItems, Parse, Text, Split, Free;
    var pieces := Split(s, ',');
    ParseIsSplit(s);
    JoinSplit(s, ',');
    var k := FirstError(pieces);
    xs := FindItems(pieces);
  }

  /**
   A text is accepted exactly when it is the print of readable items, and then those items,
   whichever they are, say what is read in it.
   */
  lemma AcceptedIff(s: string)
    ensures Parse(s).Ok? <==> exists xs :: AllReadable(xs) && Print(xs) == s
    ensures forall xs :: AllReadable(xs) && Print(xs) == s ==> Parse(s) == Ok(Readings(xs))
  {
    hide Parse, Print, AllReadable, Readings;
    if Parse(s).Ok? {
      var xs := FindList(s);
    }
    forall xs | AllReadable(xs) && Print(xs) == s ensures Parse(s) == Ok(Readings(xs)) {
      ReadBack(xs);
    }
  }

  ghost predicate AllInFormat(xs: seq<Item>) {
    AllReadable(xs) && forall i :: 0 <= i < |xs| ==> InFormat(xs[i])
  }

  predicate StrictText(text: string) {
    Free(text, '+') && |Split(text, '-')| <= 2
  }

  /**
   An accepted text is a list of the format exactly when no piece between its commas has a plus
   sign or two dashes; all other accepted texts are accepted although they should not be.
   */
  lemma FormatIff(s: string)
    requires Parse(s).Ok?
    ensures (exists xs :: AllInFormat(xs) && Print(xs) == s) <==>
            (forall i :: 0 <= i < |Split(s, ',')| ==> StrictText(Split(s, ',')[i]))
  {
    hide Parse, Print, Text, StrictText, Split, Readable, InFormat;
    if forall i :: 0 <= i < |Split(s, ',')| ==> StrictText(Split(s, ',')[i]) {
      var xs := FindList(s);
      forall i | 0 <= i < |xs| ensures InFormat(xs[i]) {
        assert Texts(xs)[i] == Text(xs[i]);
        StrictIff(xs[i]);
      }
      assert AllInFormat(xs);
    }
    forall xs | AllInFormat(xs) && Print(xs) == s
      ensures forall i :: 0 <= i < |Split(s, ',')| ==> StrictText(Split(s, ',')[i])
    {
      if xs == [] {
        EmptyIsStrict(xs);
      } else {
        PrintSplits(xs);
        forall i | 0 <= i < |xs| ensures StrictText(Texts(xs)[i]) {
          StrictIff(xs[i]);
        }
      }
    }
  }

  lemma StrictIff(x: Item)
    requires Readable(x)
    ensures InFormat(x) <==> StrictText(Text(x))
  {
    hide Readable, InFormat, Text, Free, Split;
    InFormatIff(x);
  }

  lemma EmptyIsStrict(xs: seq<Item>)
    requires xs == []
    ensures Split(Print(xs), ',') == [""] && StrictText("")
  {
  }

  /** A number of the format has no sign, but a plus sign is accepted. */
  lemma PlusIsRead()
    ensures ParseItem("+1") == Ok([1]) && !StrictText("+1")
  {
    var x := Single(Numeral(true, 0, 1), "", "");
    ReadItem(x);
    assert Text(x) == "+1";
  }

  // ----- The round trip

  /** A readable item that does not end at the largest 16-bit number. */
  predicate WellFormed(x: Item) {
    Readable(x) && (x.Range? ==> x.hi.n < MAX)
  }

  lemma {:induction false} ReadAsWritten(xs: seq<Item>)
    requires forall i :: 0 <= i < |xs| ==> WellFormed(xs[i])
    ensures Readings(xs) == Expand(xs)
  {
    hide Numbers, Readable;
    if xs != [] {
      ReadAsWritten(xs[1..]);
      assert WellFormed(xs[0]);
    }
  }

  /** Parsing what was printed returns the expansion of every item, in order. */
  lemma RoundTrip(xs: seq<Item>)
    requires forall i :: 0 <= i < |xs| ==> WellFormed(xs[i])
    ensures Parse(Print(xs)) == Ok(Expand(xs))
  {
    hide Parse, Print, Readable;
    ReadBack(xs);
    ReadAsWritten(xs);
  }

  /**
   A range is read in full exactly when its end is below the largest 16-bit number; one that
   ends there is read as no CPU at all.
   */
  lemma RangeIsReadIff(x: Item)
    requires Readable(x) && x.Range?
    ensures ParseItem(Text(x)) == Ok(Expansion(x)) <==> x.hi.n < MAX
    ensures x.hi.n == MAX ==> ParseItem(Text(x)) == Ok([])
  {
    hide ParseItem, AllBlank, Write, Text;
    ReadItem(x);
    NumbersLength(x.lo.n, x.hi.n + 1);
  }

  // ----- Sorted lists

  ghost predicate Increasing(q: seq<nat>) {
    forall i, j :: 0 <= i < j < |q| ==> q[i] < q[j]
  }

  ghost predicate Above(q: seq<nat>, m: nat) {
    forall i :: 0 <= i < |q| ==> m <= q[i]
  }

  /** The items are in order and do not overlap; the first starts no lower than `m`. */
  predicate Ascending(xs: seq<Item>, m: nat) {
    xs == [] ||
    match xs[0]
    case Single(n, _, _) => m <= n.n && Ascending(xs[1..], n.n + 1)
    case Range(lo, hi, _, _, _, _, _) => m <= lo.n <= hi.n && Ascending(xs[1..], hi.n + 1)
    case Empty(_) => Ascending(xs[1..], m)
  }

  lemma {:induction false} AscendingIncreases(xs: seq<Item>, m: nat)
    requires Ascending(xs, m)
    ensures Increasing(Expand(xs)) && Above(Expand(xs), m)
  {
    hide Increasing, Above, Numbers, Within;
    if xs == [] {
      NothingIncreases(m);
    } else {
      var rest := Expand(xs[1..]);
      match xs[0]
      case Single(n, _, _) =>
        AscendingIncreases(xs[1..], n.n + 1);
        OneIncreases(n.n, m);
        IncreasingConcat([n.n], rest, m, n.n + 1);
      case Range(lo, hi, _, _, _, _, _) =>
        AscendingIncreases(xs[1..], hi.n + 1);
        NumbersIncrease(lo.n, hi.n + 1, m);
        IncreasingConcat(Numbers(lo.n, hi.n + 1), rest, m, hi.n + 1);
      case Empty(_) =>
        AscendingIncreases(xs[1..], m);
        assert [] + rest == rest;
    }
  }

  lemma NothingIncreases(m: nat)
    ensures Increasing([]) && Above([], m)
  {
  }

  lemma OneIncreases(n: nat, m: nat)
    requires m <= n
    ensures Increasing([n]) && Within([n], m, n + 1)
  {
  }

  ghost predicate Within(q: seq<nat>, lo: nat, hi: nat) {
    forall i :: 0 <= i < |q| ==> lo <= q[i] < hi
  }

  lemma NumbersIncrease(lo: nat, hi: nat, m: nat)
    requires m <= lo <= hi
    ensures Increasing(Numbers(lo, hi)) && Within(Numbers(lo, hi), m, hi)
  {
    hide Numbers;
    NumbersLength(lo, hi);
  }

  lemma IncreasingConcat(a: seq<nat>, b: seq<nat>, m: nat, k: nat)
    requires m <= k && Increasing(a) && Within(a, m, k) && Increasing(b) && Above(b, k)
    ensures Increasing(a + b) && Above(a + b, m)
  {
    var l := a + b;
    assert forall i :: 0 <= i < |a| ==> l[i] == a[i] && l[i] < k;
    assert forall i :: |a| <= i < |l| ==> l[i] == b[i - |a|] && k <= l[i];
  }

  /** For items in order without overlap, the parsed CPUs are strictly increasing. */
  lemma SortedRoundTrip(xs: seq<Item>)
    requires (forall i :: 0 <= i < |xs| ==> WellFormed(xs[i])) && Ascending(xs, 0)
    ensures Parse(Print(xs)).Ok? && Increasing(Parse(Print(xs)).cpus)
  {
    RoundTrip(xs);
    AscendingIncreases(xs, 0);
  }
}
