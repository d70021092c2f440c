/** Positional notation in any base, most significant digit first. */
module Digits {
  import opened Hlc

  ghost predicate AllBelow(ds: seq<nat>, b: nat) { forall i :: 0 <= i < |ds| ==> ds[i] < b }

  function Value(ds: seq<nat>, b: nat): nat {
    if ds == [] then 0 else Value(ds[..|ds| - 1], b) * b + ds[|ds| - 1]
  }

  /** The digits of `n` without leading zeros; none for zero. */
  function ToDigits(n: nat, b: nat): seq<nat>
    requires b >= 2
  {
    if n == 0 then [] else ToDigits(n / b, b) + [n % b]
  }

  function Zeros(k: nat): seq<nat> { seq(k, _ => 0) }

  function Pow(b: nat, k: nat): nat { if k == 0 then 1 else Pow(b, k - 1) * b }

  lemma {:induction false} ToDigitsValue(n: nat, b: nat)
    requires b >= 2
    ensures Value(ToDigits(n, b), b) == n && AllBelow(ToDigits(n, b), b)
    ensures n > 0 ==> ToDigits(n, b) != [] && ToDigits(n, b)[0] != 0
  {
    hide Value;
    if n > 0 {
      Shrinks(n, b);
      ToDigitsValue(n / b, b);
      ValueLast(ToDigits(n / b, b), n % b, b);
      assert (n / b) * b + n % b == n;
    } else {
      NoValue(b);
    }
  }

  lemma NoValue(b: nat)
    ensures Value([], b) == 0
  {}

  lemma {:induction false} LeadingZeros(k: nat, ds: seq<nat>, b: nat)
    ensures Value(Zeros(k) + ds, b) == Value(ds, b)
    decreases |ds|, k
  {
    if ds != [] {
      LeadingZeros(k, ds[..|ds| - 1], b);
      assert (Zeros(k) + ds)[..k + |ds| - 1] == Zeros(k) + ds[..|ds| - 1];
    } else if k > 0 {
      LeadingZeros(k - 1, [], b);
      assert Zeros(k) + [] == Zeros(k) && Zeros(k - 1) + [] == Zeros(k - 1);
      assert Zeros(k)[..k - 1] == Zeros(k - 1);
    }
  }

  lemma MulStep(x: nat, y: nat, c: nat, d: nat, b: nat)
    requires c < b && d < b
    ensures x * b + c < y * b + d <==> x < y || (x == y && c < d)
    ensures x * b + c == y * b + d <==> x == y && c == d
  {
    if x < y {
      assert (x + 1) * b <= y * b;
    } else if y < x {
      assert (y + 1) * b <= x * b;
    }
  }

  lemma {:induction false} ValueBound(ds: seq<nat>, b: nat)
    requires AllBelow(ds, b)
    ensures Value(ds, b) < Pow(b, |ds|)
  {
    if ds != [] {
      var front := ds[..|ds| - 1];
      ValueBound(front, b);
      MulStep(Value(front, b), Pow(b, |front|), ds[|ds| - 1], 0, b);
    }
  }

  /** Digits of equal length and equal value are equal. */
  lemma {:induction false} SameValueSameDigits(xs: seq<nat>, ys: seq<nat>, b: nat)
    requires |xs| == |ys| && AllBelow(xs, b) && AllBelow(ys, b) && Value(xs, b) == Value(ys, b)
    ensures xs == ys
  {
    if xs != [] {
      var n := |xs| - 1;
      MulStep(Value(xs[..n], b), Value(ys[..n], b), xs[n], ys[n], b);
      SameValueSameDigits(xs[..n], ys[..n], b);
      assert xs == xs[..n] + [xs[n]] && ys == ys[..n] + [ys[n]];
    }
  }

  lemma {:induction false} DigitCount(n: nat, b: nat, w: nat)
    requires b >= 2
    ensures |ToDigits(n, b)| <= w <==> n < Pow(b, w)
    decreases n, w
  {
    hide *;
    if n == 0 || w == 0 {
      FewDigits(n, b, w);
    } else {
      Shrinks(n, b);
      DigitCount(n / b, b, w - 1);
      DropDigit(n, w, b);
      OneMoreDigit(n, b);
    }
  }

  lemma FewDigits(n: nat, b: nat, w: nat)
    requires b >= 2 && (n == 0 || w == 0)
    ensures |ToDigits(n, b)| <= w <==> n < Pow(b, w)
  {
    PowPositive(b, w);
  }

  lemma Shrinks(n: nat, b: nat)
    requires b >= 2 && n > 0
    ensures n / b < n
  {}

  lemma OneMoreDigit(n: nat, b: nat)
    requires b >= 2 && n > 0
    ensures |ToDigits(n, b)| == |ToDigits(n / b, b)| + 1
  {}

  lemma {:induction false} PowPositive(b: nat, w: nat)
    requires b >= 1
    ensures Pow(b, w) >= 1
  {
    if w > 0 { PowPositive(b, w - 1); }
  }

  /** The low `w` digits of `n`. */
  function Fixed(n: nat, w: nat, b: nat): (ds: seq<nat>)
    requires b >= 1
    ensures |ds| == w
  {
    if w == 0 then [] else Fixed(n / b, w - 1, b) + [n % b]
  }

  lemma {:induction false} FixedBelow(n: nat, w: nat, b: nat)
    requires b >= 1
    ensures AllBelow(Fixed(n, w, b), b)
  {
    if w > 0 { FixedBelow(n / b, w - 1, b); }
  }

  lemma {:induction false} FixedValue(n: nat, w: nat, b: nat)
    requires b >= 1 && n < Pow(b, w)
    ensures Value(Fixed(n, w, b), b) == n
  {
    hide *;
    if w == 0 {
      FixedNone(n, b);
    } else {
      DropDigit(n, w, b);
      FixedValue(n / b, w - 1, b);
      FixedStep(n, w, b);
    }
  }

  lemma FixedNone(n: nat, b: nat)
    requires b >= 1 && n < Pow(b, 0)
    ensures Value(Fixed(n, 0, b), b) == n
  {}

  lemma FixedStep(n: nat, w: nat, b: nat)
    requires b >= 1 && w >= 1 && Value(Fixed(n / b, w - 1, b), b) == n / b
    ensures Value(Fixed(n, w, b), b) == n
  {
    ValueLast(Fixed(n / b, w - 1, b), n % b, b);
    hide Value;
    DivMod(n, b);
  }

  lemma DivMod(n: nat, b: nat)
    requires b >= 1
    ensures n == (n / b) * b + n % b
  {}

  lemma ValueLast(front: seq<nat>, d: nat, b: nat)
    ensures Value(front + [d], b) == Value(front, b) * b + d
  {
    assert (front + [d])[..|front|] == front;
  }

  lemma DropDigit(n: nat, w: nat, b: nat)
    requires b >= 1 && w >= 1
    ensures n / b < Pow(b, w - 1) <==> n < Pow(b, w)
  {
    MulStep(n / b, Pow(b, w - 1), n % b, 0, b);
    DivMod(n, b);
  }

  // ---- Digits as text ---------------------------------------------------------------

  /** A text of consecutive characters holds exactly the characters of that range. */
  lemma RangeIff(s: string, first: char, c: char)
    requires forall i :: 0 <= i < |s| ==> s[i] as int == first as int + i
    ensures c in s <==> first as int <= c as int < first as int + |s|
  {
    var i := c as int - first as int;
    if 0 <= i < |s| { assert s[i] == c; }
  }

  /** A digit alphabet that is in ascending character order. */
  ghost predicate Ascending(alphabet: string) {
    forall i, j :: 0 <= i < j < |alphabet| ==> alphabet[i] < alphabet[j]
  }

  function Text(ds: seq<nat>, alphabet: string): (s: string)
    requires forall i :: 0 <= i < |ds| ==> ds[i] < |alphabet|
    ensures |s| == |ds|
  {
    seq(|ds|, i requires 0 <= i < |ds| => alphabet[ds[i]])
  }

  lemma {:induction false} LexLast(p: string, q: string, c: char, d: char)
    requires |p| == |q|
    ensures LexLess(p + [c], q + [d]) <==> LexLess(p, q) || (p == q && c < d)
  {
    if p == [] {
      assert p + [c] == [c] && q + [d] == [d];
    } else {
      assert (p + [c])[1..] == p[1..] + [c] && (q + [d])[1..] == q[1..] + [d];
      assert p == [p[0]] + p[1..] && q == [q[0]] + q[1..];
      LexLast(p[1..], q[1..], c, d);
    }
  }

  lemma {:induction false} LexConcat(p: string, q: string, s: string, t: string)
    requires |p| == |q|
    ensures LexLess(p + s, q + t) <==> LexLess(p, q) || (p == q && LexLess(s, t))
  {
    LexTrichotomy(p, q);
    if p == [] {
      assert p + s == s && q + t == t;
    } else {
      assert (p + s)[1..] == p[1..] + s && (q + t)[1..] == q[1..] + t;
      assert p == [p[0]] + p[1..] && q == [q[0]] + q[1..];
      LexConcat(p[1..], q[1..], s, t);
    }
  }

  /** Fixed-width numbers in an ascending alphabet sort as text exactly as they sort as numbers. */
  lemma {:induction false} TextOrderIsValueOrder(xs: seq<nat>, ys: seq<nat>, alphabet: string)
    requires |xs| == |ys| && AllBelow(xs, |alphabet|) && AllBelow(ys, |alphabet|) && Ascending(alphabet)
    ensures LexLess(Text(xs, alphabet), Text(ys, alphabet)) <==> Value(xs, |alphabet|) < Value(ys, |alphabet|)
    ensures Text(xs, alphabet) == Text(ys, alphabet) <==> Value(xs, |alphabet|) == Value(ys, |alphabet|)
  {
    if xs != [] {
      var n := |xs| - 1;
      var xf, yf, b := xs[..n], ys[..n], |alphabet|;
      TextOrderIsValueOrder(xf, yf, alphabet);
      MulStep(Value(xf, b), Value(yf, b), xs[n], ys[n], b);
      var s, t, c, d := Text(xf, alphabet), Text(yf, alphabet), alphabet[xs[n]], alphabet[ys[n]];
      assert Text(xs, alphabet) == s + [c] && Text(ys, alphabet) == t + [d];
      LexLast(s, t, c, d);
      assert c < d <==> xs[n] < ys[n];
      assert s + [c] == t + [d] <==> s == t && c == d by {
        assert (s + [c])[..n] == s && (t + [d])[..n] == t && (s + [c])[n] == c && (t + [d])[n] == d;
      }
    }
  }
}
