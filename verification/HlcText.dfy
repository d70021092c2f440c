/** The text form of a stamp, the comparison that avoids parsing it, and the change file
    names built from it. */
module HlcText {
  import opened Options
  import opened Hlc
  import opened Digits

  const DECIMAL := "0123456789"
  const HEX := "0123456789abcdef"

  lemma Alphabets()
    ensures |DECIMAL| == 10 && Ascending(DECIMAL) && '-' !in DECIMAL
    ensures |HEX| == 16 && Ascending(HEX) && '-' !in HEX
  {
    DecimalOk();
    HexOk();
  }

  lemma DecimalOk()
    ensures |DECIMAL| == 10 && Ascending(DECIMAL) && '-' !in DECIMAL
  {}

  lemma HexOk()
    ensures |HEX| == 16 && Ascending(HEX) && '-' !in HEX
  {}

  // ---- Format --------------------------------------------------------------------------

  /** The digits `toString` prints: a single zero for zero. */
  function Printed(n: nat, b: nat): seq<nat>
    requires b >= 2
  {
    if n == 0 then [0] else ToDigits(n, b)
  }

  /** Left-padded with zeros to at least `width` digits. */
  function Padded(n: nat, b: nat, width: nat): (ds: seq<nat>)
    requires b >= 2
    ensures |ds| >= width
  {
    var ds := Printed(n, b);
    if |ds| < width then Zeros(width - |ds|) + ds else ds
  }

  lemma PaddedValue(n: nat, b: nat, width: nat)
    requires b >= 2 && width >= 1
    ensures Value(Padded(n, b, width), b) == n && AllBelow(Padded(n, b, width), b)
    ensures |Padded(n, b, width)| == width <==> n < Pow(b, width)
  {
    PrintedValue(n, b, width);
    hide Printed, Value, Pow;
    var ds := Printed(n, b);
    if |ds| < width { LeadingZeros(width - |ds|, ds, b); }
  }

  lemma PrintedValue(n: nat, b: nat, width: nat)
    requires b >= 2 && width >= 1
    ensures Value(Printed(n, b), b) == n && AllBelow(Printed(n, b), b)
    ensures |Printed(n, b)| <= width <==> n < Pow(b, width)
  {
    if n == 0 {
      assert [0][..0] == [] && Value([], b) == 0;
      PowPositive(b, width);
    } else {
      ToDigitsValue(n, b);
      DigitCount(n, b, width);
      hide ToDigits, Value, Pow;
    }
  }

  function Number(n: nat, alphabet: string, width: nat): string
    requires |alphabet| >= 2 && width >= 1
  {
    PaddedValue(n, |alphabet|, width);
    Text(Padded(n, |alphabet|, width), alphabet)
  }

  function Format(x: Hlc): string {
    Number(x.ts, DECIMAL, 15) + "-" + Number(x.counter, HEX, 4) + "-" + x.node
  }

  // ---- Parse -----------------------------------------------------------------------------

  function IndexOf(s: string, c: char, start: nat): (i: Option<nat>)
    requires start <= |s|
    ensures i.Some? ==> start <= i.value < |s| && s[i.value] == c
    decreases |s| - start
  {
    if start == |s| then None else if s[start] == c then Some(start) else IndexOf(s, c, start + 1)
  }

  lemma {:induction false} IndexOfFirst(s: string, c: char, start: nat, i: nat)
    requires start <= i < |s| && s[i] == c && forall k :: start <= k < i ==> s[k] != c
    ensures IndexOf(s, c, start) == Some(i)
    decreases i - start
  {
    if start < i { IndexOfFirst(s, c, start + 1, i); }
  }

  function ParseNumber(s: string, alphabet: string): Option<nat> {
    if s == [] then Some(0)
    else
      match (ParseNumber(s[..|s| - 1], alphabet), IndexOf(alphabet, s[|s| - 1], 0))
      case (Some(front), Some(digit)) => Some(front * |alphabet| + digit)
      case _ => None
  }

  lemma {:induction false} ParseText(ds: seq<nat>, alphabet: string)
    requires AllBelow(ds, |alphabet|) && Ascending(alphabet)
    ensures ParseNumber(Text(ds, alphabet), alphabet) == Some(Value(ds, |alphabet|))
  {
    if ds != [] {
      var n := |ds| - 1;
      ParseText(ds[..n], alphabet);
      assert Text(ds, alphabet)[..n] == Text(ds[..n], alphabet);
      IndexOfFirst(alphabet, alphabet[ds[n]], 0, ds[n]);
    }
  }

  /** Split at the first two dashes; everything after the second is the node id. */
  function Parse(s: string): Option<Hlc> {
    match IndexOf(s, '-', 0)
    case None => None
    case Some(first) =>
      match IndexOf(s, '-', first + 1)
      case None => None
      case Some(second) =>
        match (ParseNumber(s[..first], DECIMAL), ParseNumber(s[first + 1..second], HEX))
        case (Some(ts), Some(counter)) => Some(Hlc(ts, counter, s[second + 1..]))
        case _ => None
  }

  lemma NumberRoundTrip(n: nat, alphabet: string, width: nat)
    requires |alphabet| >= 2 && width >= 1 && Ascending(alphabet) && '-' !in alphabet
    ensures ParseNumber(Number(n, alphabet, width), alphabet) == Some(n) && '-' !in Number(n, alphabet, width)
    ensures |Number(n, alphabet, width)| >= width
    ensures |Number(n, alphabet, width)| == width <==> n < Pow(|alphabet|, width)
  {
    PaddedValue(n, |alphabet|, width);
    ParseText(Padded(n, |alphabet|, width), alphabet);
  }

  /** The parts of a formatted stamp and where its two dashes are. */
  lemma Anatomy(x: Hlc) returns (t: string, c: string)
    ensures t == Number(x.ts, DECIMAL, 15) && c == Number(x.counter, HEX, 4)
    ensures Format(x) == t + "-" + c + "-" + x.node && |t| >= 15 && |c| >= 4
    ensures |t| == 15 <==> x.ts < Pow(10, 15)
    ensures |c| == 4 <==> x.counter < Pow(16, 4)
    ensures '-' !in t && '-' !in c
    ensures ParseNumber(t, DECIMAL) == Some(x.ts) && ParseNumber(c, HEX) == Some(x.counter)
  {
    Alphabets();
    t, c := Number(x.ts, DECIMAL, 15), Number(x.counter, HEX, 4);
    NumberRoundTrip(x.ts, DECIMAL, 15);
    NumberRoundTrip(x.counter, HEX, 4);
  }

  // ---- What the text says --------------------------------------------------------------------

  /** The digit a character stands for, up to fifteen. */
  function DigitOf(c: char): nat {
    if '0' <= c <= '9' then c as int - '0' as int else if 'a' <= c <= 'f' then c as int - 'a' as int + 10 else 16
  }

  function Reading(s: string, b: nat): nat {
    if s == [] then 0 else Reading(s[..|s| - 1], b) * b + DigitOf(s[|s| - 1])
  }

  lemma {:induction false} TextReads(ds: seq<nat>, alphabet: string)
    requires AllBelow(ds, |alphabet|) && forall i :: 0 <= i < |alphabet| ==> DigitOf(alphabet[i]) == i
    ensures Reading(Text(ds, alphabet), |alphabet|) == Value(ds, |alphabet|)
    ensures forall i :: 0 <= i < |ds| ==> DigitOf(Text(ds, alphabet)[i]) < |alphabet|
  {
    if ds != [] {
      var n := |ds| - 1;
      TextReads(ds[..n], alphabet);
      assert Text(ds, alphabet)[..n] == Text(ds[..n], alphabet);
    }
  }

  lemma NumberReads(n: nat, alphabet: string, width: nat)
    requires |alphabet| >= 2 && width >= 1 && forall i :: 0 <= i < |alphabet| ==> DigitOf(alphabet[i]) == i
    ensures var t := Number(n, alphabet, width);
      Reading(t, |alphabet|) == n && forall i :: 0 <= i < |t| ==> DigitOf(t[i]) < |alphabet|
  {
    PaddedValue(n, |alphabet|, width);
    TextReads(Padded(n, |alphabet|, width), alphabet);
  }

  /** What a stamp is written as: the timestamp in at least fifteen decimal digits, the counter in at
      least four hexadecimal ones, exactly so many while they fit, and the node id. */
  lemma FormatMeans(x: Hlc) returns (t: string, c: string)
    ensures Format(x) == t + "-" + c + "-" + x.node
    ensures Reading(t, 10) == x.ts && (forall i :: 0 <= i < |t| ==> '0' <= t[i] <= '9')
    ensures Reading(c, 16) == x.counter && (forall i :: 0 <= i < |c| ==> '0' <= c[i] <= '9' || 'a' <= c[i] <= 'f')
    ensures |t| >= 15 && |c| >= 4 && (|t| == 15 <==> x.ts < Pow(10, 15)) && (|c| == 4 <==> x.counter < Pow(16, 4))
  {
    Alphabets();
    t, c := Anatomy(x);
    hide Number, Reading;
    NumberReads(x.ts, DECIMAL, 15);
    NumberReads(x.counter, HEX, 4);
  }

  /** Parsing undoes formatting, whatever dashes the node id contains. */
  lemma ParseFormat(x: Hlc)
    ensures Parse(Format(x)) == Some(x)
  {
    var t, c := Anatomy(x);
    hide Format, Number, ParseNumber;
    var s := Format(x);
    var first, second := |t|, |t| + 1 + |c|;
    IndexOfFirst(s, '-', 0, first);
    assert forall k :: first + 1 <= k < second ==> s[k] == c[k - first - 1];
    IndexOfFirst(s, '-', first + 1, second);
    assert s[..first] == t && s[first + 1..second] == c && s[second + 1..] == x.node;
  }

  // ---- Compare ---------------------------------------------------------------------------

  predicate DashAt(s: string, i: nat) { i < |s| && s[i] == '-' }

  function LexCompare(a: string, b: string): int {
    if LexLess(a, b) then -1 else if LexLess(b, a) then 1 else 0
  }

  /** Compare as text when both stamps have the standard widths, by parsing otherwise. */
  function FastCompare(a: string, b: string): int {
    if DashAt(a, 15) && DashAt(a, 20) && DashAt(b, 15) && DashAt(b, 20) then LexCompare(a, b)
    else
      match (Parse(a), Parse(b))
      case (Some(x), Some(y)) => Compare(x, y)
      case _ => 0
  }

  /** Timestamp and counter fit their standard widths. */
  predicate Narrow(x: Hlc) { x.ts < Pow(10, 15) && x.counter < Pow(16, 4) }

  function Sign(n: int): int { if n < 0 then -1 else if n > 0 then 1 else 0 }

  lemma DashesIffNarrow(x: Hlc)
    ensures DashAt(Format(x), 15) && DashAt(Format(x), 20) <==> Narrow(x)
  {
    var t, c := Anatomy(x);
    hide Format, Number, ParseNumber, Pow;
    var s := Format(x);
    assert s[|t|] == '-' && s[|t| + 1 + |c|] == '-';
    assert forall k :: 0 <= k < |t| ==> s[k] == t[k];
    assert forall k :: |t| < k < |t| + 1 + |c| ==> s[k] == c[k - |t| - 1];
  }

  lemma NumberOrder(m: nat, n: nat, alphabet: string, width: nat)
    requires |alphabet| >= 2 && width >= 1 && Ascending(alphabet) && m < Pow(|alphabet|, width) && n < Pow(|alphabet|, width)
    ensures |Number(m, alphabet, width)| == |Number(n, alphabet, width)| == width
    ensures LexLess(Number(m, alphabet, width), Number(n, alphabet, width)) <==> m < n
    ensures Number(m, alphabet, width) == Number(n, alphabet, width) <==> m == n
  {
    PaddedValue(m, |alphabet|, width);
    PaddedValue(n, |alphabet|, width);
    TextOrderIsValueOrder(Padded(m, |alphabet|, width), Padded(n, |alphabet|, width), alphabet);
  }

  lemma DashedOrder(p: string, q: string, s: string, t: string)
    requires |p| == |q|
    ensures LexLess(p + "-" + s, q + "-" + t) <==> LexLess(p, q) || (p == q && LexLess(s, t))
  {
    assert p + "-" + s == p + ("-" + s) && q + "-" + t == q + ("-" + t);
    LexConcat(p, q, "-" + s, "-" + t);
    LexConcat("-", "-", s, t);
    LexTrichotomy("-", "-");
  }

  /** Standard-width stamps sort as raw text exactly as they sort as clocks. */
  lemma PartsOrder(x: Hlc, y: Hlc, t: string, c: string, t': string, c': string)
    requires |t| == |t'| && |c| == |c'|
    requires (LexLess(t, t') <==> x.ts < y.ts) && (t == t' <==> x.ts == y.ts)
    requires (LexLess(c, c') <==> x.counter < y.counter) && (c == c' <==> x.counter == y.counter)
    ensures LexLess(t + "-" + (c + "-" + x.node), t' + "-" + (c' + "-" + y.node)) <==> Less(x, y)
  {
    hide LexLess;
    DashedOrder(t, t', c + "-" + x.node, c' + "-" + y.node);
    DashedOrder(c, c', x.node, y.node);
    LexTrichotomy(x.node, y.node);
  }

  lemma NarrowParts(x: Hlc)
    requires Narrow(x)
    ensures |DECIMAL| == 10 && |HEX| == 16 && x.ts < Pow(|DECIMAL|, 15) && x.counter < Pow(|HEX|, 4)
    ensures Format(x) == Number(x.ts, DECIMAL, 15) + "-" + (Number(x.counter, HEX, 4) + "-" + x.node)
  {
    Alphabets();
    hide Pow, Number;
  }

  /** Within the standard widths, text order is clock order. */
  lemma TextOrderIsClockOrder(x: Hlc, y: Hlc)
    requires Narrow(x) && Narrow(y)
    ensures LexLess(Format(x), Format(y)) <==> Less(x, y)
  {
    hide *;
    Alphabets();
    NarrowParts(x);
    NarrowParts(y);
    NumberOrder(x.ts, y.ts, DECIMAL, 15);
    NumberOrder(x.counter, y.counter, HEX, 4);
    var t, c, t', c' := Number(x.ts, DECIMAL, 15), Number(x.counter, HEX, 4), Number(y.ts, DECIMAL, 15), Number(y.counter, HEX, 4);
    PartsOrder(x, y, t, c, t', c');
  }

  /** The fast comparison has the sign of the structured one, for all stamps. */
  lemma FastCompareRefines(x: Hlc, y: Hlc)
    ensures Sign(FastCompare(Format(x), Format(y))) == Sign(Compare(x, y))
  {
    DashesIffNarrow(x);
    DashesIffNarrow(y);
    ParseFormat(x);
    ParseFormat(y);
    if Narrow(x) && Narrow(y) {
      TextOrderIsClockOrder(x, y);
      TextOrderIsClockOrder(y, x);
      Trichotomy(x, y);
    }
    hide Format, Parse, Narrow, LexLess;
  }

  lemma FourDigits()
    ensures Number(0xffff, HEX, 4) == "ffff"
  {
    assert ToDigits(15, 16) == [15] by { assert ToDigits(0, 16) == []; }
    assert ToDigits(255, 16) == [15, 15];
    assert ToDigits(4095, 16) == [15, 15, 15];
    assert ToDigits(0xffff, 16) == [15, 15, 15, 15];
    hide ToDigits, Value;
    assert Padded(0xffff, 16, 4) == [15, 15, 15, 15];
  }

  lemma FiveDigits()
    ensures Number(0x10000, HEX, 4) == "10000"
  {
    assert ToDigits(1, 16) == [1] by { assert ToDigits(0, 16) == []; }
    assert ToDigits(16, 16) == [1, 0];
    assert ToDigits(256, 16) == [1, 0, 0];
    assert ToDigits(4096, 16) == [1, 0, 0, 0];
    assert ToDigits(0x10000, 16) == [1, 0, 0, 0, 0];
    hide ToDigits, Value;
    assert Padded(0x10000, 16, 4) == [1, 0, 0, 0, 0];
  }

  lemma FourHexDigits()
    ensures Pow(16, 4) == 0x10000
  {
    assert Pow(16, 2) == 256;
  }

  /** Raw text comparison is wrong as soon as the counter outgrows four digits. */
  lemma RawCompareFailsWhenWide()
    ensures var x, y := Hlc(0, 0xffff, "n"), Hlc(0, 0x10000, "n");
            Less(x, y) && !Narrow(y) && LexLess(Format(y), Format(x))
  {
    FourDigits();
    FiveDigits();
    FourHexDigits();
    hide Number, Pow;
    var t := Number(0, DECIMAL, 15);
    LexTrichotomy(t, t);
    DashedOrder(t, t, "10000-n", "ffff-n");
    var x, y := Hlc(0, 0xffff, "n"), Hlc(0, 0x10000, "n");
    assert Format(x) == t + "-" + "ffff-n" && Format(y) == t + "-" + "10000-n";
    assert LexLess("10000-n", "ffff-n");
  }

  // ---- Change file names --------------------------------------------------------------------

  const MARK := "-chg_"

  predicate MarkAt(s: string, i: nat) { i + |MARK| <= |s| && s[i..i + |MARK|] == MARK }

  /** `lastIndexOf` of the mark at or before `i`. */
  function LastMark(s: string, i: nat): (m: Option<nat>)
    ensures m.Some? ==> MarkAt(s, m.value)
  {
    if MarkAt(s, i) then Some(i) else if i == 0 then None else LastMark(s, i - 1)
  }

  lemma {:induction false} LastMarkFound(s: string, i: nat, j: nat)
    requires j <= i && MarkAt(s, j) && forall k :: j < k <= i ==> !MarkAt(s, k)
    ensures LastMark(s, i) == Some(j)
  {
    if j < i { LastMarkFound(s, i - 1, j); }
  }

  function FileText(hlc: string, id: string): string { hlc + "-" + id + ".json" }

  /** The stamp text of a change file name; none for any other name. */
  function StampText(name: string): Option<string> {
    match LastMark(name, |name|)
    case None => None
    case Some(i) => Some(name[..i])
  }

  /** The random part of a change id: lower-case hexadecimal and dashes. */
  predicate Uuid(u: string) { forall i :: 0 <= i < |u| ==> u[i] in HEX || u[i] == '-' }

  lemma NoLaterMark(hlc: string, u: string, k: nat)
    requires Uuid(u) && k > |hlc|
    ensures !MarkAt(FileText(hlc, "chg_" + u), k)
  {
    var s := FileText(hlc, "chg_" + u);
    var tail := MARK + u + ".json";
    assert s == hlc + tail;
    if k + |MARK| <= |s| {
      var j, found := k - |hlc|, s[k..k + |MARK|];
      assert found[0] == tail[j] && found[2] == tail[j + 2];
      if j < |MARK| {
        assert tail[j] == MARK[j];
      } else if j + 2 < |MARK| + |u| {
        assert tail[j + 2] == u[j + 2 - |MARK|];
      } else {
        assert tail[j + 2] == ".json"[j + 2 - |MARK| - |u|];
      }
      assert found[0] != MARK[0] || found[2] != MARK[2];
    }
  }

  /** A change file's name gives its stamp back, even if the node id contains the mark itself. */
  lemma FileNameRoundTrip(x: Hlc, u: string)
    requires Uuid(u)
    ensures StampText(FileText(Format(x), "chg_" + u)) == Some(Format(x))
  {
    var h := Format(x);
    hide Format;
    var s := FileText(h, "chg_" + u);
    assert s == h + MARK + u + ".json" && s[|h|..|h| + |MARK|] == MARK;
    forall k | |h| < k <= |s| ensures !MarkAt(s, k) { NoLaterMark(h, u, k); }
    LastMarkFound(s, |s|, |h|);
    assert s[..|h|] == h;
  }

  /** The order a pull sorts change files in: by stamp, then by name. */
  function CompareNames(a: string, b: string): int {
    match (StampText(a), StampText(b))
    case (Some(x), Some(y)) => if FastCompare(x, y) != 0 then FastCompare(x, y) else LexCompare(a, b)
    case _ => LexCompare(a, b)
  }

  /** Sorting change files follows the clocks of the changes. */
  lemma SortFollowsClock(x: Hlc, u: string, y: Hlc, v: string)
    requires Uuid(u) && Uuid(v)
    ensures var a, b := FileText(Format(x), "chg_" + u), FileText(Format(y), "chg_" + v);
            && (Less(x, y) ==> CompareNames(a, b) < 0)
            && (Less(y, x) ==> CompareNames(a, b) > 0)
            && (x == y ==> CompareNames(a, b) == LexCompare(a, b))
  {
    FileNameRoundTrip(x, u);
    FileNameRoundTrip(y, v);
    FastCompareRefines(x, y);
    Trichotomy(x, y);
    hide Format, FastCompare, StampText;
  }

  lemma {:induction false} LexPrefix(p: string, a: string, b: string)
    ensures LexLess(p + a, p + b) <==> LexLess(a, b)
  {
    if p == [] {
      assert p + a == a && p + b == b;
    } else {
      assert (p + a)[1..] == p[1..] + a && (p + b)[1..] == p[1..] + b;
      LexPrefix(p[1..], a, b);
    }
  }

  /** Change files of one stamp are ordered by the rest of their names. */
  lemma SameStampOrder(x: Hlc, u: string, v: string)
    requires Uuid(u) && Uuid(v)
    ensures var a, b := FileText(Format(x), "chg_" + u), FileText(Format(x), "chg_" + v);
            CompareNames(a, b) < 0 <==> LexLess("chg_" + u + ".json", "chg_" + v + ".json")
  {
    SortFollowsClock(x, u, x, v);
    hide Format, CompareNames;
    var p, a, b := Format(x) + "-", "chg_" + u + ".json", "chg_" + v + ".json";
    assert FileText(Format(x), "chg_" + u) == p + a && FileText(Format(x), "chg_" + v) == p + b;
    LexPrefix(p, a, b);
  }
}
