/** The exact decimal readers of the browser (frontend/state.js:12-32, 858-868). A token is given by the
    groups that its pattern captures. */
module Decimals {
  import opened Text

  const MAX_TOKEN := 16384
  const MAX_CONTEXT := 4294967295

  type Figure = d: nat | d < 10

  datatype Sign = Unsigned | Plus | Minus

  datatype Exponent = Exponent(sign: Sign, figures: seq<Figure>)

  /** -?whole(.fraction)?(e[+-]?exponent)? */
  datatype Token = Token(negative: bool, whole: seq<Figure>, fraction: Option<seq<Figure>>, exponent: Option<Exponent>) {
    function Fraction(): seq<Figure> { if fraction.None? then [] else fraction.value }

    function Width(): nat {
      (if negative then 1 else 0) + |whole|
      + (if fraction.None? then 0 else 1 + |fraction.value|)
      + (if exponent.None? then 0 else 1 + SignWidth(exponent.value.sign) + |exponent.value.figures|)
    }

    function Power(): int {
      if exponent.None? then 0
      else if exponent.value.sign == Minus then -(Value(exponent.value.figures) as int)
      else Value(exponent.value.figures)
    }

    function Scale(): int { Power() - |Fraction()| }
  }

  function SignWidth(s: Sign): nat { if s == Unsigned then 0 else 1 }

  function Ten(n: nat): (r: nat)
    ensures r > 0
  {
    if n == 0 then 1 else 10 * Ten(n - 1)
  }

  function Value(figures: seq<Figure>): nat {
    if figures == [] then 0 else Value(figures[..|figures| - 1]) * 10 + figures[|figures| - 1]
  }

  /** The rational that a token spells is the integer n. */
  ghost predicate Spells(token: Token, n: int) {
    var figures := Value(token.whole + token.Fraction());
    var signed := if token.negative then -(figures as int) else figures;
    if token.Scale() >= 0 then n == signed * Ten(token.Scale()) else n * Ten(-token.Scale()) == signed
  }

  function Strip(figures: seq<Figure>): seq<Figure> {
    if figures != [] && figures[0] == 0 then Strip(figures[1..]) else figures
  }

  function StripEnd(figures: seq<Figure>): seq<Figure> {
    if figures != [] && figures[|figures| - 1] == 0 then StripEnd(figures[..|figures| - 1]) else figures
  }

  predicate AllZero(figures: seq<Figure>) { forall i :: 0 <= i < |figures| ==> figures[i] == 0 }

  function Zeros(n: nat): seq<Figure> { seq(n, i => 0) }

  // ----- Values of figure lists -----

  lemma MulMonotone(a: nat, b: nat, k: nat)
    requires a <= b
    ensures a * k <= b * k
  {
  }

  lemma {:induction false} TenAdd(a: nat, b: nat)
    ensures Ten(a + b) == Ten(a) * Ten(b)
  {
    if a > 0 {
      TenAdd(a - 1, b);
    }
  }

  lemma TenMonotone(a: nat, b: nat)
    requires a <= b
    ensures Ten(a) <= Ten(b)
  {
    TenAdd(a, b - a);
    MulMonotone(1, Ten(b - a), Ten(a));
  }

  lemma {:induction false} ValueAppend(a: seq<Figure>, b: seq<Figure>)
    ensures Value(a + b) == Value(a) * Ten(|b|) + Value(b)
  {
    if b == [] {
      assert a + b == a;
    } else {
      ValueAppend(a, b[..|b| - 1]);
      assert (a + b)[..|a + b| - 1] == a + b[..|b| - 1];
      Regroup(Value(a), Ten(|b| - 1), Value(b[..|b| - 1]), b[|b| - 1]);
    }
  }

  lemma Regroup(a: nat, t: nat, b: nat, d: nat)
    ensures (a * t + b) * 10 + d == a * (10 * t) + (b * 10 + d)
  {
  }

  lemma {:induction false} ValueBelow(figures: seq<Figure>)
    ensures Value(figures) < Ten(|figures|)
  {
    if figures != [] {
      ValueBelow(figures[..|figures| - 1]);
    }
  }

  lemma {:induction false} ValueZero(figures: seq<Figure>)
    ensures Value(figures) == 0 <==> AllZero(figures)
  {
    if figures != [] {
      ValueZero(figures[..|figures| - 1]);
    }
  }

  lemma {:induction false} StripValue(figures: seq<Figure>)
    ensures Value(Strip(figures)) == Value(figures) && |Strip(figures)| <= |figures|
    ensures Strip(figures) != [] ==> Strip(figures)[0] != 0
  {
    if figures != [] && figures[0] == 0 {
      StripValue(figures[1..]);
      assert figures == [figures[0]] + figures[1..];
      ValueAppend([figures[0]], figures[1..]);
    }
  }

  lemma LeadingValue(figures: seq<Figure>)
    requires figures != [] && figures[0] != 0
    ensures Value(figures) >= Ten(|figures| - 1)
  {
    assert figures == [figures[0]] + figures[1..];
    ValueAppend([figures[0]], figures[1..]);
    assert Value([figures[0]]) == figures[0];
    MulMonotone(1, figures[0], Ten(|figures| - 1));
  }

  lemma {:induction false} StripEndValue(figures: seq<Figure>)
    ensures |StripEnd(figures)| <= |figures|
    ensures Value(figures) == Value(StripEnd(figures)) * Ten(|figures| - |StripEnd(figures)|)
    ensures StripEnd(figures) != [] ==> Value(StripEnd(figures)) % 10 != 0
    ensures StripEnd(figures) == figures[..|StripEnd(figures)|]
  {
    if figures != [] && figures[|figures| - 1] == 0 {
      var front := figures[..|figures| - 1];
      StripEndValue(front);
      TenStep(Value(StripEnd(front)), |front| - |StripEnd(front)|);
    }
  }

  lemma TenStep(v: nat, k: nat)
    ensures v * Ten(k) * 10 == v * Ten(k + 1)
  {
  }

  // ----- contextNumber -----

  function ContextNumber(token: Token): Option<nat> {
    var digits := Strip(token.whole + token.Fraction());
    if digits == [] then Some(0)
    else if token.negative then None
    else if token.exponent.Some? && SignWidth(token.exponent.value.sign) + |Strip(token.exponent.value.figures)| > 6 then None
    else AtScale(digits, token.Scale())
  }

  /** Figures with a leading figure at one scale: the tail of contextNumber. */
  function AtScale(digits: seq<Figure>, scale: int): Option<nat> {
    if scale < 0 then
      if -scale < |digits| && AllZero(digits[|digits| + scale..]) then Accept(digits[..|digits| + scale]) else None
    else if |digits| + scale > 10 then None
    else Accept(digits + Zeros(scale))
  }

  function Accept(digits: seq<Figure>): Option<nat> {
    if |digits| <= 10 && Value(digits) <= MAX_CONTEXT then Some(Value(digits)) else None
  }

  /** An exponent that is too wide to read is too large or too small for any accepted value. */
  lemma WideExponent(token: Token)
    requires token.exponent.Some? && SignWidth(token.exponent.value.sign) + |Strip(token.exponent.value.figures)| > 6
    ensures token.exponent.value.sign == Minus ==> token.Power() <= -100000
    ensures token.exponent.value.sign != Minus ==> token.Power() >= 100000
  {
    var figures := token.exponent.value.figures;
    StripValue(figures);
    LeadingValue(Strip(figures));
    TenMonotone(5, |Strip(figures)| - 1);
    assert Ten(5) == 100000;
  }

  /** A value below one unit of its scale is no integer. */
  lemma TooSmall(figures: nat, k: nat, n: nat)
    requires 0 < figures < Ten(k)
    ensures n * Ten(k) != figures
  {
    if n >= 1 {
      MulMonotone(1, n, Ten(k));
    }
  }

  lemma TooLarge(digits: seq<Figure>, scale: nat)
    requires digits != [] && digits[0] != 0 && |digits| + scale > 10
    ensures Value(digits) * Ten(scale) > MAX_CONTEXT
  {
    LeadingValue(digits);
    MulMonotone(Ten(|digits| - 1), Value(digits), Ten(scale));
    TenAdd(|digits| - 1, scale);
    TenMonotone(10, |digits| - 1 + scale);
    assert Ten(5) == 100000 && Ten(10) == 10000000000;
  }

  lemma WholePart(h: nat, n: nat, t: nat, r: nat)
    requires r < t
    ensures n * t == h * t + r <==> r == 0 && n == h
  {
    if n > h {
      MulMonotone(h + 1, n, t);
      assert (h + 1) * t == h * t + t;
    } else if n < h {
      MulMonotone(n + 1, h, t);
      assert (n + 1) * t == n * t + t;
    }
  }

  /** Splitting off k figures leaves an integer exactly when they are zeros. */
  lemma SplitValue(digits: seq<Figure>, k: nat, n: nat)
    requires k < |digits|
    ensures n * Ten(k) == Value(digits) <==> AllZero(digits[|digits| - k..]) && n == Value(digits[..|digits| - k])
  {
    var head, tail := digits[..|digits| - k], digits[|digits| - k..];
    assert digits == head + tail;
    ValueAppend(head, tail);
    ValueBelow(tail);
    ValueZero(tail);
    WholePart(Value(head), n, Ten(k), Value(tail));
  }

  lemma Padded(digits: seq<Figure>, scale: nat)
    ensures Value(digits + Zeros(scale)) == Value(digits) * Ten(scale)
  {
    ValueAppend(digits, Zeros(scale));
    ValueZero(Zeros(scale));
  }

  /** A long list of figures with a leading figure exceeds the bound. */
  lemma AcceptsExactly(digits: seq<Figure>, n: nat)
    requires digits != [] && digits[0] != 0
    ensures Accept(digits) == Some(n) <==> n == Value(digits) && n <= MAX_CONTEXT
  {
    if |digits| > 10 {
      TooLarge(digits, 0);
      assert Ten(0) == 1;
    }
  }

  lemma AtScaleExact(digits: seq<Figure>, scale: int, n: nat)
    requires digits != [] && digits[0] != 0
    ensures AtScale(digits, scale) == Some(n) <==>
            n <= MAX_CONTEXT && if scale >= 0 then n == Value(digits) * Ten(scale) else n * Ten(-scale) == Value(digits)
  {
    if scale >= 0 {
      if |digits| + scale > 10 {
        TooLarge(digits, scale);
      } else {
        Padded(digits, scale);
        AcceptsExactly(digits + Zeros(scale), n);
      }
    } else if -scale < |digits| {
      SplitValue(digits, -scale, n);
      AcceptsExactly(digits[..|digits| + scale], n);
    } else {
      LeadingValue(digits);
      ValueBelow(digits);
      TenMonotone(|digits|, -scale);
      TooSmall(Value(digits), -scale, n);
    }
  }

  lemma ZeroSpells(token: Token, n: nat)
    requires Value(token.whole + token.Fraction()) == 0
    ensures Spells(token, n) <==> n == 0
  {
    var scale := token.Scale();
    if scale >= 0 {
      assert 0 * Ten(scale) == 0;
    } else if n > 0 {
      MulMonotone(1, n, Ten(-scale));
    } else {
      assert 0 * Ten(-scale) == 0;
    }
  }

  lemma NegatedProduct(a: nat, b: nat)
    ensures -(a as int) * b == -(a * b) && (a > 0 && b > 0 ==> -(a as int) * b < 0)
  {
    if a > 0 {
      MulMonotone(1, a, b);
    }
  }

  lemma Product(a: nat, b: nat)
    ensures a * b >= 0
  {
  }

  lemma NegativeSpells(token: Token, n: nat)
    requires token.negative && Value(token.whole + token.Fraction()) > 0
    ensures !Spells(token, n)
  {
    var figures, scale := Value(token.whole + token.Fraction()), token.Scale();
    if scale >= 0 {
      NegatedProduct(figures, Ten(scale));
    } else {
      Product(n, Ten(-scale));
    }
  }

  /** The reader returns n exactly for the tokens whose value is the integer n, at most 4294967295. */
  lemma ContextNumberExact(token: Token, n: nat)
    requires token.Width() <= MAX_TOKEN
    ensures ContextNumber(token) == Some(n) <==> Spells(token, n) && n <= MAX_CONTEXT
  {
    var figures := token.whole + token.Fraction();
    var digits := Strip(figures);
    StripValue(figures);
    if digits == [] {
      ZeroSpells(token, n);
    } else {
      LeadingValue(digits);
      if token.negative {
        NegativeSpells(token, n);
      } else {
        AtScaleExact(digits, token.Scale(), n);
        if token.exponent.Some? && SignWidth(token.exponent.value.sign) + |Strip(token.exponent.value.figures)| > 6 {
          WideExponent(token);
        }
      }
    }
  }

  // ----- exactGeoCount -----

  /** `got` stands for the exact sum as the browser's doubles give it: exact up to 2^52 in magnitude, else
      infinite (no value) or still far from zero on the same side. */
  predicate Rounds(exact: int, got: Option<int>) {
    if exact > 0x10_0000_0000_0000 then got.None? || got.value > 0x8_0000_0000_0000
    else if exact < -0x10_0000_0000_0000 then got.None? || got.value < -0x8_0000_0000_0000
    else got == Some(exact)
  }

  function Shift(token: Token): int {
    var digits := Strip(token.whole + token.Fraction());
    token.Scale() + |digits| - |StripEnd(digits)|
  }

  /** `shift` is what the browser's number arithmetic gave for Shift(token). */
  function ExactGeoCount(token: Token, maximum: nat, shift: Option<int>): bool {
    var digits := Strip(token.whole + token.Fraction());
    var significant := StripEnd(digits);
    if digits == [] then true
    else if token.negative || shift.None? || !(-0x1f_ffff_ffff_ffff <= shift.value <= 0x1f_ffff_ffff_ffff) then false
    else if shift.value < 0 || |significant| + shift.value > 4 then false
    else Value(significant) * Ten(shift.value) <= maximum
  }

  lemma ZerosUp(v: nat, zeros: nat, scale: nat)
    ensures v * Ten(zeros) * Ten(scale) == v * Ten(zeros + scale)
  {
    TenAdd(zeros, scale);
    Associate(v, Ten(zeros), Ten(scale));
  }

  lemma ZerosCancel(n: nat, v: nat, zeros: nat, k: nat)
    requires k <= zeros
    ensures n * Ten(k) == v * Ten(zeros) <==> n == v * Ten(zeros - k)
  {
    ZerosUp(v, zeros - k, k);
    CancelTen(n, v * Ten(zeros - k), k);
  }

  lemma NoZerosLeft(n: nat, v: nat, zeros: nat, k: nat)
    requires k > zeros && v % 10 != 0
    ensures n * Ten(k) != v * Ten(zeros)
  {
    ZerosUp(n, k - zeros, zeros);
    CancelTen(n * Ten(k - zeros), v, zeros);
    ZerosUp(n, k - zeros - 1, 1);
    assert Ten(1) == 10;
    var m := n * Ten(k - zeros - 1);
    assert n * Ten(k - zeros) == m * 10;
  }

  /** Trailing zeros move into the scale. */
  lemma SignificantSpells(digits: seq<Figure>, scale: int, n: nat)
    requires digits != [] && digits[0] != 0
    ensures var significant := StripEnd(digits); var shift := scale + |digits| - |significant|;
            (if scale >= 0 then n == Value(digits) * Ten(scale) else n * Ten(-scale) == Value(digits))
            <==> shift >= 0 && n == Value(significant) * Ten(shift)
  {
    var significant := StripEnd(digits);
    var zeros := |digits| - |significant|;
    StripEndValue(digits);
    LeadingValue(digits);
    if significant == [] {
      assert false;
    }
    if scale >= 0 {
      ZerosUp(Value(significant), zeros, scale);
    } else if -scale <= zeros {
      ZerosCancel(n, Value(significant), zeros, -scale);
    } else {
      NoZerosLeft(n, Value(significant), zeros, -scale);
    }
  }

  lemma Associate(a: nat, b: nat, c: nat)
    ensures a * (b * c) == a * b * c
  {
  }

  lemma CancelTen(a: nat, b: nat, k: nat)
    ensures a * Ten(k) == b * Ten(k) <==> a == b
  {
    if a < b {
      MulMonotone(a + 1, b, Ten(k));
      assert (a + 1) * Ten(k) == a * Ten(k) + Ten(k);
    } else if b < a {
      MulMonotone(b + 1, a, Ten(k));
      assert (b + 1) * Ten(k) == b * Ten(k) + Ten(k);
    }
  }

  ghost predicate SpellsCount(token: Token, maximum: nat) { exists n: nat :: n <= maximum && Spells(token, n) }

  /** The check holds exactly for the tokens whose value is an integer in 0..maximum. */
  lemma ExactGeoCountExact(token: Token, maximum: nat, shift: Option<int>)
    requires token.Width() <= MAX_TOKEN && maximum <= 9999 && Rounds(Shift(token), shift)
    ensures ExactGeoCount(token, maximum, shift) <==> SpellsCount(token, maximum)
  {
    var figures := token.whole + token.Fraction();
    var digits := Strip(figures);
    StripValue(figures);
    if digits == [] {
      ZeroSpells(token, 0);
      assert Spells(token, 0);
    } else {
      LeadingValue(digits);
      if token.negative {
        forall n: nat ensures !Spells(token, n) {
          NegativeSpells(token, n);
        }
      } else {
        CountAtShift(token, digits, maximum, shift);
      }
    }
  }

  lemma CountAtShift(token: Token, digits: seq<Figure>, maximum: nat, shift: Option<int>)
    requires token.Width() <= MAX_TOKEN && maximum <= 9999 && Rounds(Shift(token), shift)
    requires digits == Strip(token.whole + token.Fraction()) != [] && digits[0] != 0 && !token.negative
    requires Value(digits) == Value(token.whole + token.Fraction())
    ensures ExactGeoCount(token, maximum, shift) <==> SpellsCount(token, maximum)
  {
    hide Spells, Strip, StripEnd, Ten, Value;
    var significant := StripEnd(digits);
    StripEndValue(digits);
    LeadingValue(digits);
    EndNotEmpty(digits);
    forall n: nat ensures Spells(token, n) <==> Shift(token) >= 0 && n == Value(significant) * Ten(Shift(token)) {
      SpellsAtShift(token, digits, n);
    }
    if Shift(token) >= 0 {
      var n := Value(significant) * Ten(Shift(token));
      assert Spells(token, n);
      if |significant| + Shift(token) > 4 {
        TooManyFigures(significant, Shift(token));
      }
    }
  }

  lemma EndNotEmpty(digits: seq<Figure>)
    requires digits != [] && digits[0] != 0
    ensures StripEnd(digits) != [] && StripEnd(digits)[0] == digits[0]
  {
    StripEndValue(digits);
    LeadingValue(digits);
    if StripEnd(digits) == [] {
      assert false;
    }
  }

  lemma SpellsAtShift(token: Token, digits: seq<Figure>, n: nat)
    requires digits == Strip(token.whole + token.Fraction()) != [] && digits[0] != 0 && !token.negative
    requires Value(digits) == Value(token.whole + token.Fraction())
    ensures Spells(token, n) <==> Shift(token) >= 0 && n == Value(StripEnd(digits)) * Ten(Shift(token))
  {
    SignificantSpells(digits, token.Scale(), n);
  }

  lemma TooManyFigures(significant: seq<Figure>, shift: nat)
    requires significant != [] && significant[0] != 0 && |significant| + shift > 4
    ensures Value(significant) * Ten(shift) > 9999
  {
    LeadingValue(significant);
    TenAdd(|significant| - 1, shift);
    MulMonotone(Ten(|significant| - 1), Value(significant), Ten(shift));
    TenMonotone(4, |significant| - 1 + shift);
    assert Ten(4) == 10000;
  }
}
