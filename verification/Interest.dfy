/** Channel interest: floor-compounded growth of an amount held as mantissa and decimal unit. */
module Interest {
  import opened Options

  const U64_MAX: nat := 0xFFFF_FFFF_FFFF_FFFF
  const PARTS: nat := 10000
  const PRECISION: nat := 100000000

  /** `mantissa * 10^unit`, possibly negative. */
  datatype Amount = Amount(mantissa: nat, unit: nat, negative: bool)

  const ZERO: Amount := Amount(0, 0, false)

  predicate UnitOk(a: Amount) { a.unit <= 255 }

  predicate Negative(a: Amount) { a.negative && a.mantissa != 0 }

  function Pow10(k: nat): (r: nat)
    ensures r > 0
  {
    if k == 0 then 1 else 10 * Pow10(k - 1)
  }

  function Value(a: Amount): nat { a.mantissa * Pow10(a.unit) }

  lemma Pow10Add(a: nat, b: nat)
    ensures Pow10(a + b) == Pow10(a) * Pow10(b)
  {
    if a > 0 {
      Pow10Add(a - 1, b);
    }
  }

  // ------------------------------------------------------------ trailing zeros

  /** Move decimal zeros of the mantissa into the unit, as far as the unit goes. */
  function Stripped(coin: nat, unit: nat): (nat, nat)
    decreases 255 - unit
  {
    if unit >= 255 || coin % 10 != 0 then (coin, unit) else Stripped(coin / 10, unit + 1)
  }

  lemma {:induction false} StrippedValue(coin: nat, unit: nat)
    requires unit <= 255
    ensures var (c, u) := Stripped(coin, unit);
            c * Pow10(u) == coin * Pow10(unit) && unit <= u <= 255 && (u == 255 || c % 10 != 0)
    decreases 255 - unit
  {
    if unit < 255 && coin % 10 == 0 {
      StrippedValue(coin / 10, unit + 1);
      TenTimes(coin / 10, Pow10(unit));
    }
  }

  lemma TenTimes(c: nat, p: nat)
    ensures c * (10 * p) == (10 * c) * p
  {
  }

  /** The trailing-zero loop: it terminates and preserves the value. */
  method StripZeros(coin: nat, unit: nat) returns (c: nat, u: nat)
    requires unit <= 255
    ensures (c, u) == Stripped(coin, unit)
    ensures c * Pow10(u) == coin * Pow10(unit) && unit <= u <= 255 && (u == 255 || c % 10 != 0)
  {
    c, u := coin, unit;
    while true
      invariant u <= 255 && Stripped(c, u) == Stripped(coin, unit)
      decreases 255 - u
    {
      var quotient, remainder := c / 10, c % 10;
      if u >= 255 || remainder != 0 {
        break;
      }
      c, u := quotient, u + 1;
    }
    StrippedValue(coin, unit);
  }

  // ------------------------------------------------------------ adding and subtracting

  /** `coin_u128`. */
  function Coin(v: nat, unit: nat): Amount {
    if v == 0 then ZERO
    else
      var (c, u) := Stripped(v, unit);
      Amount(c, u, false)
  }

  lemma CoinValue(v: nat, unit: nat)
    requires unit <= 255
    ensures Value(Coin(v, unit)) == v * Pow10(unit) && UnitOk(Coin(v, unit)) && !Negative(Coin(v, unit))
  {
    StrippedValue(v, unit);
  }

  function Min(a: nat, b: nat): nat { if a < b then a else b }

  /** The mantissa of `a` at a lower unit. */
  function Scaled(a: Amount, unit: nat): nat
    requires unit <= a.unit
  {
    a.mantissa * Pow10(a.unit - unit)
  }

  lemma ScaledValue(a: Amount, unit: nat)
    requires unit <= a.unit
    ensures Scaled(a, unit) * Pow10(unit) == Value(a)
  {
    Pow10Add(a.unit - unit, unit);
    MulAssoc(a.mantissa, Pow10(a.unit - unit), Pow10(unit));
  }

  lemma MulAssoc(a: nat, b: nat, c: nat)
    ensures (a * b) * c == a * (b * c)
  {
  }

  /** `add_mode_u64` and `sub_mode_u64`: exact, within 64 bits at the lower of the two units. */
  function Compute(a: Amount, b: Amount, add: bool): Option<Amount> {
    if Negative(a) || Negative(b) then None
    else if a.mantissa == 0 then if add || b.mantissa == 0 then Some(b) else None
    else if b.mantissa == 0 then Some(a)
    else
      var unit := Min(a.unit, b.unit);
      var l, r := Scaled(a, unit), Scaled(b, unit);
      if a.mantissa > U64_MAX || b.mantissa > U64_MAX || l > U64_MAX || r > U64_MAX then None
      else if add then if l + r > U64_MAX then None else Some(Coin(l + r, unit))
      else if l < r then None else Some(Coin(l - r, unit))
  }

  lemma ComputeValue(a: Amount, b: Amount, add: bool)
    requires UnitOk(a) && UnitOk(b)
    ensures var r := Compute(a, b, add);
            r.Some? ==>
              && UnitOk(r.value) && !Negative(r.value)
              && Value(r.value) == if add then Value(a) + Value(b) else Value(a) - Value(b)
  {
    if !Negative(a) && !Negative(b) {
      if a.mantissa == 0 {
        PositiveValue(a);
        PositiveValue(b);
      } else if b.mantissa == 0 {
        PositiveValue(b);
      } else {
        SumValue(a, b, Min(a.unit, b.unit));
      }
    }
  }

  /** At a common unit, mantissas add and subtract like values. */
  lemma SumValue(a: Amount, b: Amount, unit: nat)
    requires unit <= a.unit && unit <= b.unit && unit <= 255
    ensures var l, r := Scaled(a, unit), Scaled(b, unit);
            && Value(Coin(l + r, unit)) == Value(a) + Value(b)
            && UnitOk(Coin(l + r, unit)) && !Negative(Coin(l + r, unit))
            && (l >= r ==> && Value(Coin(l - r, unit)) == Value(a) - Value(b)
                           && UnitOk(Coin(l - r, unit)) && !Negative(Coin(l - r, unit)))
  {
    var l, r := Scaled(a, unit), Scaled(b, unit);
    ScaledValue(a, unit);
    ScaledValue(b, unit);
    Distribute(l, r, Pow10(unit));
    CoinValue(l + r, unit);
    if l >= r {
      CoinValue(l - r, unit);
    }
  }

  lemma Distribute(l: nat, r: nat, p: nat)
    ensures (l + r) * p == l * p + r * p
    ensures l >= r ==> (l - r) * p == l * p - r * p
  {
  }

  lemma PositiveValue(a: Amount)
    ensures Value(a) == 0 <==> a.mantissa == 0
  {
    if a.mantissa != 0 {
      MulLe(1, a.mantissa, Pow10(a.unit));
    }
  }

  // ------------------------------------------------------------ compounding

  /** The mantissa after `n` periods at `rate` ten-thousandths, floored each period. */
  function Compounded(start: nat, n: nat, rate: nat): nat {
    if n == 0 then start else OnePeriod(Compounded(start, n - 1, rate), rate)
  }

  function OnePeriod(c: nat, rate: nat): nat { c * (PARTS + rate) / PARTS }

  /** A period never shrinks the mantissa. */
  lemma OnePeriodGrows(c: nat, rate: nat)
    ensures c <= OnePeriod(c, rate)
  {
    assert c * (PARTS + rate) == c * PARTS + c * rate;
    assert c * rate >= 0;
    DivMono(c * PARTS, c * (PARTS + rate));
  }

  lemma DivMono(a: nat, b: nat)
    requires a <= b
    ensures a / PARTS <= b / PARTS
  {
  }

  /** Interest is monotone in the number of periods, so never negative. */
  lemma {:induction false} CompoundedGrows(start: nat, m: nat, n: nat, rate: nat)
    requires m <= n
    ensures start <= Compounded(start, m, rate) <= Compounded(start, n, rate)
    decreases n
  {
    if m < n {
      CompoundedGrows(start, m, n - 1, rate);
      OnePeriodGrows(Compounded(start, n - 1, rate), rate);
    } else if n > 0 {
      CompoundedGrows(start, n - 1, n - 1, rate);
      OnePeriodGrows(Compounded(start, n - 1, rate), rate);
    }
  }

  /** At the rate of channels a period adds a thousandth, floored. */
  lemma PeriodAddsThousandth(c: nat)
    ensures OnePeriod(c, 10) == c + c / 1000
  {
    assert c * (PARTS + 10) == c * PARTS + 10 * c;
    assert (c * PARTS + 10 * c) / PARTS == c + 10 * c / PARTS;
  }

  function Growth(rate: nat): real { (PARTS + rate) as real / PARTS as real }

  /** Exact compounding, and the geometric sum of one unit per period. */
  function Exact(start: real, n: nat, growth: real): real {
    if n == 0 then start else Exact(start, n - 1, growth) * growth
  }

  function GeometricSum(n: nat, growth: real): real {
    if n == 0 then 0.0 else GeometricSum(n - 1, growth) * growth + 1.0
  }

  /** `b` is `a` grown exactly, less a loss of under one unit. */
  predicate Loses(a: real, b: real, growth: real) { b <= a * growth < b + 1.0 }

  /** Flooring one period loses less than one unit. */
  lemma FloorLoses(c: nat, rate: nat)
    ensures Loses(c as real, OnePeriod(c, rate) as real, Growth(rate))
  {
    var p := c * (PARTS + rate);
    var f := p / PARTS;
    assert f * PARTS <= p < f * PARTS + PARTS;
    assert c as real * Growth(rate) == p as real / PARTS as real by {
      assert p as real == c as real * (PARTS + rate) as real;
    }
  }

  predicate LosesLessThanOne(c: seq<real>, growth: real) {
    forall i, j :: 0 <= i < |c| - 1 && j == i + 1 ==> Loses(c[i], c[j], growth)
  }

  lemma LosesAppend(c: seq<real>, x: real, growth: real)
    requires LosesLessThanOne(c, growth) && c != [] && Loses(c[|c| - 1], x, growth)
    ensures LosesLessThanOne(c + [x], growth)
  {
  }

  lemma {:induction false} BoundsFromSteps(c: seq<real>, growth: real, n: nat)
    requires growth >= 0.0 && n < |c| && LosesLessThanOne(c, growth)
    ensures c[n] <= Exact(c[0], n, growth) && Exact(c[0], n, growth) - c[n] <= GeometricSum(n, growth)
    ensures n > 0 ==> Exact(c[0], n, growth) - c[n] < GeometricSum(n, growth)
  {
    if n > 0 {
      BoundsFromSteps(c, growth, n - 1);
      BoundStep(c[n - 1], Exact(c[0], n - 1, growth), GeometricSum(n - 1, growth), c[n], growth);
    }
  }

  /** The compounded mantissas of the first `n` periods. */
  function Periods(start: nat, n: nat, rate: nat): (r: seq<real>)
    ensures |r| == n + 1 && r[n] == Compounded(start, n, rate) as real && r[0] == start as real
  {
    (if n == 0 then [] else Periods(start, n - 1, rate)) + [Compounded(start, n, rate) as real]
  }

  lemma PeriodLoses(start: nat, n: nat, rate: nat)
    requires n > 0
    ensures Loses(Compounded(start, n - 1, rate) as real, Compounded(start, n, rate) as real, Growth(rate))
  {
    FloorLoses(Compounded(start, n - 1, rate), rate);
  }

  lemma {:induction false} PeriodsLose(start: nat, n: nat, rate: nat, growth: real)
    requires growth == Growth(rate)
    ensures LosesLessThanOne(Periods(start, n, rate), growth)
  {
    if n > 0 {
      PeriodsLose(start, n - 1, rate, growth);
      PeriodLoses(start, n, rate);
      LosesAppend(Periods(start, n - 1, rate), Compounded(start, n, rate) as real, growth);
    }
  }

  /** Floor compounding never exceeds exact compounding and falls short of it by less than the
      geometric sum of one unit per period. */
  lemma {:induction false} FloorBounds(start: nat, n: nat, rate: nat)
    ensures Compounded(start, n, rate) as real <= Exact(start as real, n, Growth(rate))
    ensures n > 0 ==>
              Exact(start as real, n, Growth(rate)) - Compounded(start, n, rate) as real < GeometricSum(n, Growth(rate))
    ensures n == 0 ==> Exact(start as real, n, Growth(rate)) == Compounded(start, n, rate) as real
  {
    PeriodsLose(start, n, rate, Growth(rate));
    BoundsFromSteps(Periods(start, n, rate), Growth(rate), n);
  }

  /** One period: the old shortfall grows with the rate, the floor adds less than one. */
  lemma BoundStep(c: real, e: real, s: real, f: real, g: real)
    requires c <= e && e - c <= s && g >= 0.0 && f <= c * g < f + 1.0
    ensures f <= e * g && e * g - f < s * g + 1.0
  {
    Scale(c, e, g);
    Scale(e - c, s, g);
    assert (e - c) * g == e * g - c * g;
  }

  lemma Scale(a: real, b: real, g: real)
    requires a <= b && g >= 0.0
    ensures a * g <= b * g
  {
  }

  // ------------------------------------------------------------ interest on an amount

  /** The grown base, zeros stripped. */
  function Grown(base: Amount, n: nat, rate: nat): Amount
    requires base.unit >= 8
  {
    var (c, u) := Stripped(Compounded(base.mantissa * PRECISION, n, rate), base.unit - 8);
    if c == 0 then ZERO else Amount(c, u, false)
  }

  function InterestOn(user: Amount, base: Amount, n: nat, rate: nat): Option<Amount> {
    if base.unit < 8 then Some(user)
    else match Compute(Grown(base, n, rate), base, false)
      case None => None
      case Some(gain) => Compute(gain, user, true)
  }

  /** `calculate_interest`. */
  method CalculateInterest(user: Amount, base: Amount, n: nat, rate: nat) returns (r: Option<Amount>)
    requires UnitOk(user) && UnitOk(base)
    ensures r == InterestOn(user, base, n, rate)
  {
    if base.unit < 8 {
      return Some(user);
    }
    var coin := base.mantissa * PRECISION;
    for i := 0 to n
      invariant coin == Compounded(base.mantissa * PRECISION, i, rate)
    {
      coin := coin * (PARTS + rate);
      coin := coin / PARTS;
    }
    var c, u := StripZeros(coin, base.unit - 8);
    var grown := if c == 0 then ZERO else Amount(c, u, false);
    var gain := Compute(grown, base, false);
    if gain.None? {
      return None;
    }
    r := Compute(gain.value, user, true);
  }

  lemma EightZeros()
    ensures Pow10(8) == PRECISION
  {
    assert Pow10(2) == 100;
    assert Pow10(4) == 100 * Pow10(2);
    assert Pow10(6) == 100 * Pow10(4);
    assert Pow10(8) == 100 * Pow10(6);
  }

  /** The base at the scaled unit is the base. */
  lemma ScaledBase(base: Amount)
    requires base.unit >= 8
    ensures base.mantissa * PRECISION * Pow10(base.unit - 8) == Value(base)
  {
    EightZeros();
    Pow10Add(8, base.unit - 8);
    MulAssoc(base.mantissa, PRECISION, Pow10(base.unit - 8));
  }

  lemma GrownValue(base: Amount, n: nat, rate: nat)
    requires UnitOk(base) && base.unit >= 8
    ensures var g := Grown(base, n, rate);
            && UnitOk(g) && !Negative(g)
            && Value(g) == Compounded(base.mantissa * PRECISION, n, rate) * Pow10(base.unit - 8)
    ensures Value(base) <= Value(Grown(base, n, rate))
  {
    var start, unit := base.mantissa * PRECISION, base.unit - 8;
    var coin := Compounded(start, n, rate);
    StrippedValue(coin, unit);
    CompoundedGrows(start, n, n, rate);
    ScaledBase(base);
    MulLe(start, coin, Pow10(unit));
    if Stripped(coin, unit).0 == 0 {
      assert 0 * Pow10(Stripped(coin, unit).1) == 0;
    }
  }

  lemma MulLe(a: nat, b: nat, c: nat)
    requires a <= b
    ensures a * c <= b * c
  {
  }

  /** A granted interest is exactly the floor-compounded growth of the base at the scaled unit,
      added to the user's share; the share never falls. An amount whose unit has no room for
      the eight extra digits earns nothing. */
  lemma InterestMeaning(user: Amount, base: Amount, n: nat, rate: nat)
    requires UnitOk(user) && UnitOk(base)
    requires InterestOn(user, base, n, rate).Some? && !Negative(user)
    ensures var r := InterestOn(user, base, n, rate).value;
            && UnitOk(r) && Value(user) <= Value(r)
            && (base.unit < 8 ==> r == user)
            && (base.unit >= 8 ==>
                  Value(r) == Value(user)
                              + Compounded(base.mantissa * PRECISION, n, rate) * Pow10(base.unit - 8) - Value(base))
  {
    if base.unit >= 8 {
      var g := Grown(base, n, rate);
      GrownValue(base, n, rate);
      ComputeValue(g, base, false);
      ComputeValue(Compute(g, base, false).value, user, true);
    }
  }

  /** More periods never earn less. */
  lemma MorePeriodsEarnMore(user: Amount, base: Amount, m: nat, n: nat, rate: nat)
    requires UnitOk(user) && UnitOk(base) && !Negative(user) && m <= n
    requires InterestOn(user, base, m, rate).Some? && InterestOn(user, base, n, rate).Some?
    ensures Value(InterestOn(user, base, m, rate).value) <= Value(InterestOn(user, base, n, rate).value)
  {
    InterestMeaning(user, base, m, rate);
    InterestMeaning(user, base, n, rate);
    if base.unit >= 8 {
      var start := base.mantissa * PRECISION;
      CompoundedGrows(start, m, n, rate);
      MulLe(Compounded(start, m, rate), Compounded(start, n, rate), Pow10(base.unit - 8));
    }
  }

  /** Interest is refused only for a negative amount or one out of 64-bit range: never because
      the floor fell below the base. */
  lemma RefusedOnlyOutOfRange(user: Amount, base: Amount, n: nat, rate: nat)
    requires UnitOk(user) && UnitOk(base) && !Negative(user) && !Negative(base) && base.unit >= 8
    requires Compute(Grown(base, n, rate), base, false).None?
    ensures var g := Grown(base, n, rate); var unit := Min(g.unit, base.unit);
            g.mantissa > U64_MAX || base.mantissa > U64_MAX || Scaled(g, unit) > U64_MAX || Scaled(base, unit) > U64_MAX
  {
    var g := Grown(base, n, rate);
    GrownValue(base, n, rate);
    if g.mantissa == 0 {
      PositiveValue(base);
    } else {
      var unit := Min(g.unit, base.unit);
      ScaledValue(g, unit);
      ScaledValue(base, unit);
      if Scaled(g, unit) < Scaled(base, unit) {
        MulLt(Scaled(g, unit), Scaled(base, unit), Pow10(unit));
      }
    }
  }

  lemma MulLt(a: nat, b: nat, c: nat)
    requires a < b && c > 0
    ensures a * c < b * c
  {
  }

  // ------------------------------------------------------------ both sides of a channel

  datatype Share = Both | AllLeft | AllRight | Other

  function BothInterest(share: Share, left: Amount, right: Amount, n: nat, rate: nat): Option<(Amount, Amount)> {
    if share.Both? then
      if InterestOn(left, left, n, rate).None? || InterestOn(right, right, n, rate).None? then None
      else Some((InterestOn(left, left, n, rate).value, InterestOn(right, right, n, rate).value))
    else match Compute(left, right, true)
      case None => None
      case Some(total) =>
        var l := if share.AllLeft? then InterestOn(left, total, n, rate) else Some(left);
        var r := if share.AllRight? then InterestOn(right, total, n, rate) else Some(right);
        if l.None? || r.None? then None else Some((l.value, r.value))
  }

  /** `calculate_interest_of_height`: one period per ten thousand blocks, at ten parts. */
  function InterestOfHeight(now: nat, openedAt: nat, share: Share, left: Amount, right: Amount)
    : Option<(Amount, Amount)>
  {
    if now < openedAt then None
    else if (now - openedAt) / 10000 == 0 then Some((left, right))
    else BothInterest(share, left, right, (now - openedAt) / 10000, 10)
  }

  /** Closing a channel never pays a side less than its share, and gives the interest to the
      side the share names. */
  lemma ClosingNeverPaysLess(now: nat, openedAt: nat, share: Share, left: Amount, right: Amount)
    requires UnitOk(left) && UnitOk(right) && !Negative(left) && !Negative(right)
    requires InterestOfHeight(now, openedAt, share, left, right).Some?
    ensures var (l, r) := InterestOfHeight(now, openedAt, share, left, right).value;
            && Value(left) <= Value(l) && Value(right) <= Value(r)
            && (share.AllLeft? ==> r == right) && (share.AllRight? ==> l == left)
            && (share.Other? ==> l == left && r == right)
  {
    var n := (now - openedAt) / 10000;
    if n > 0 {
      if share.Both? {
        InterestMeaning(left, left, n, 10);
        InterestMeaning(right, right, n, 10);
      } else {
        var total := Compute(left, right, true).value;
        ComputeValue(left, right, true);
        if share.AllLeft? {
          InterestMeaning(left, total, n, 10);
        } else if share.AllRight? {
          InterestMeaning(right, total, n, 10);
        }
      }
    }
  }

  /** When each side earns on its own amount it is paid exactly that amount floor-compounded,
      one period at a thousandth per ten thousand blocks, and nothing extra before the first. */
  lemma BothArePaidCompounded(now: nat, openedAt: nat, left: Amount, right: Amount)
    requires UnitOk(left) && UnitOk(right) && !Negative(left) && !Negative(right) && left.unit >= 8 && right.unit >= 8
    requires InterestOfHeight(now, openedAt, Both, left, right).Some?
    ensures openedAt <= now
    ensures var (l, r) := InterestOfHeight(now, openedAt, Both, left, right).value; var n := (now - openedAt) / 10000;
            && Value(l) == Compounded(left.mantissa * PRECISION, n, 10) * Pow10(left.unit - 8)
            && Value(r) == Compounded(right.mantissa * PRECISION, n, 10) * Pow10(right.unit - 8)
  {
    var n := (now - openedAt) / 10000;
    ScaledBase(left);
    ScaledBase(right);
    if n > 0 {
      InterestMeaning(left, left, n, 10);
      InterestMeaning(right, right, n, 10);
    }
  }

  // ------------------------------------------------------------ what the named side is paid

  /** No decimal zero is left in the mantissa that the unit could take. */
  predicate Compact(a: Amount) {
    a.mantissa == 0 || a.unit == 255 || a.mantissa % 10 != 0
  }

  /** The sum of two amounts as one: the other if one is zero, else the exact sum, compact. */
  predicate SumOf(a: Amount, b: Amount, total: Amount) {
    && UnitOk(total) && !Negative(total) && Value(total) == Value(a) + Value(b)
    && (a.mantissa == 0 ==> total == b) && (a.mantissa != 0 && b.mantissa == 0 ==> total == a)
    && (a.mantissa != 0 && b.mantissa != 0 ==> Compact(total))
  }

  lemma SumIs(a: Amount, b: Amount)
    requires UnitOk(a) && UnitOk(b) && !Negative(a) && !Negative(b) && Compute(a, b, true).Some?
    ensures SumOf(a, b, Compute(a, b, true).value)
  {
    ComputeValue(a, b, true);
    if a.mantissa != 0 && b.mantissa != 0 {
      var unit := Min(a.unit, b.unit);
      StrippedValue(Scaled(a, unit) + Scaled(b, unit), unit);
    }
  }

  /** What a share becomes when the growth of `total` over `n` periods is added to it: growth is
      floor-compounded at a thousandth a period, eight digits below the unit of `total`. */
  predicate PaidGrowth(share: Amount, total: Amount, n: nat, paid: Amount) {
    if total.unit < 8 then paid == share
    else
      var grown := Compounded(total.mantissa * 100000000, n, 10) * Pow10(total.unit - 8);
      Value(paid) + Value(total) == Value(share) + grown
  }

  /** All interest to one side: after at least one period that side is paid its share and the
      growth of both amounts' sum, the other side its share alone. */
  lemma NamedSideIsPaidGrowth(now: nat, openedAt: nat, share: Share, left: Amount, right: Amount)
    requires UnitOk(left) && UnitOk(right) && !Negative(left) && !Negative(right) && (share.AllLeft? || share.AllRight?)
    requires InterestOfHeight(now, openedAt, share, left, right).Some?
    ensures openedAt <= now
    ensures var (l, r) := InterestOfHeight(now, openedAt, share, left, right).value; var n := (now - openedAt) / 10000;
            if n == 0 then l == left && r == right
            else exists total :: && SumOf(left, right, total)
                                 && (share.AllLeft? ==> PaidGrowth(left, total, n, l) && r == right)
                                 && (share.AllRight? ==> PaidGrowth(right, total, n, r) && l == left)
  {
    var n := (now - openedAt) / 10000;
    if n > 0 {
      var total := Compute(left, right, true).value;
      SumIs(left, right);
      InterestMeaning(if share.AllLeft? then left else right, total, n, 10);
      assert SumOf(left, right, total);
    }
  }

  // ------------------------------------------------------------ when a closing is refused

  /** `v` is out of 64 bits at the lower unit of two amounts; a zero amount is never scaled. */
  predicate TooWide(v: nat, a: Amount, b: Amount) {
    a.mantissa != 0 && b.mantissa != 0 && v > 0xFFFF_FFFF_FFFF_FFFF * Pow10(Min(a.unit, b.unit))
  }

  lemma FitsIff(l: nat, p: nat)
    requires p > 0
    ensures l <= U64_MAX <==> l * p <= U64_MAX * p
  {
    if l <= U64_MAX { MulLe(l, U64_MAX, p); } else { MulLt(U64_MAX, l, p); }
  }

  /** A scaled mantissa is no smaller than the mantissa. */
  lemma ScaledGrows(a: Amount, unit: nat)
    requires unit <= a.unit
    ensures a.mantissa <= Scaled(a, unit)
  {
    MulLe(1, Pow10(a.unit - unit), a.mantissa);
  }

  /** An addition is refused exactly when the sum is out of 64 bits at the lower unit. */
  lemma SumRefusedIff(a: Amount, b: Amount)
    requires !Negative(a) && !Negative(b)
    ensures Compute(a, b, true).None? <==> TooWide(Value(a) + Value(b), a, b)
  {
    if a.mantissa != 0 && b.mantissa != 0 {
      var unit := Min(a.unit, b.unit);
      var l, r := Scaled(a, unit), Scaled(b, unit);
      ScaledValue(a, unit);
      ScaledValue(b, unit);
      ScaledGrows(a, unit);
      ScaledGrows(b, unit);
      Distribute(l, r, Pow10(unit));
      FitsIff(l + r, Pow10(unit));
    }
  }

  /** A subtraction is refused exactly when the result would be negative or the first amount is
      out of 64 bits at the lower unit. */
  lemma DifferenceRefusedIff(a: Amount, b: Amount)
    requires !Negative(a) && !Negative(b)
    ensures Compute(a, b, false).None? <==> Value(a) < Value(b) || TooWide(Value(a), a, b)
  {
    PositiveValue(a);
    PositiveValue(b);
    if a.mantissa != 0 && b.mantissa != 0 {
      var unit := Min(a.unit, b.unit);
      var l, r := Scaled(a, unit), Scaled(b, unit);
      ScaledValue(a, unit);
      ScaledValue(b, unit);
      ScaledGrows(a, unit);
      ScaledGrows(b, unit);
      FitsIff(l, Pow10(unit));
      FitsIff(r, Pow10(unit));
      if l < r { MulLt(l, r, Pow10(unit)); } else { MulLe(r, l, Pow10(unit)); }
    }
  }

  /** Growth of `base` over `n` periods cannot be paid to `user`: the grown amount is out of 64
      bits beside the base, or the gain is beside the share. */
  predicate EarnsTooMuch(user: Amount, base: Amount, n: nat) {
    base.unit >= 8 &&
    (var grown := Grown(base, n, 10);
     || TooWide(Value(grown), grown, base)
     || (var gain := Compute(grown, base, false);
         gain.Some? && TooWide(Value(gain.value) + Value(user), gain.value, user)))
  }

  lemma InterestRefusedIff(user: Amount, base: Amount, n: nat)
    requires UnitOk(user) && UnitOk(base) && !Negative(user) && !Negative(base)
    ensures InterestOn(user, base, n, 10).None? <==> EarnsTooMuch(user, base, n)
  {
    if base.unit >= 8 {
      var grown := Grown(base, n, 10);
      GrownValue(base, n, 10);
      DifferenceRefusedIff(grown, base);
      if Compute(grown, base, false).Some? {
        ComputeValue(grown, base, false);
        SumRefusedIff(Compute(grown, base, false).value, user);
      }
    }
  }

  /** A closing is refused exactly before the channel was opened, or after a period when the
      two amounts or what they earn do not fit 64 bits. */
  lemma ClosingRefusedIff(now: nat, openedAt: nat, share: Share, left: Amount, right: Amount)
    requires UnitOk(left) && UnitOk(right) && !Negative(left) && !Negative(right)
    ensures var n := (now - openedAt) / 10000; var sum := Value(left) + Value(right);
            InterestOfHeight(now, openedAt, share, left, right).None? <==>
              || now < openedAt
              || (n > 0 && match share
                           case Both => EarnsTooMuch(left, left, n) || EarnsTooMuch(right, right, n)
                           case Other => TooWide(sum, left, right)
                           case AllLeft => TooWide(sum, left, right)
                                           || exists t :: SumOf(left, right, t) && EarnsTooMuch(left, t, n)
                           case AllRight => TooWide(sum, left, right)
                                            || exists t :: SumOf(left, right, t) && EarnsTooMuch(right, t, n))
  {
    var n := (now - openedAt) / 10000;
    if now >= openedAt && n > 0 {
      InterestRefusedIff(left, left, n);
      InterestRefusedIff(right, right, n);
      SumRefusedIff(left, right);
      if Compute(left, right, true).Some? {
        var total := Compute(left, right, true).value;
        SumIs(left, right);
        InterestRefusedIff(left, total, n);
        InterestRefusedIff(right, total, n);
        forall t | SumOf(left, right, t) ensures t == total {
          SumUnique(left, right, t, total);
        }
      }
    }
  }

  /** A sum has one form. */
  lemma SumUnique(a: Amount, b: Amount, s: Amount, t: Amount)
    requires SumOf(a, b, s) && SumOf(a, b, t)
    ensures s == t
  {
    if a.mantissa != 0 && b.mantissa != 0 {
      PositiveValue(a);
      PositiveValue(s);
      PositiveValue(t);
      CompactUnit(s, t);
      CompactUnit(t, s);
      SameMantissa(s.mantissa, t.mantissa, Pow10(s.unit));
    }
  }

  /** The form of a value at a lower unit ends in a zero. */
  lemma LowerEndsInZero(s: Amount, t: Amount)
    requires s.unit < t.unit && Value(s) == Value(t)
    ensures s.mantissa % 10 == 0
  {
    var k := t.unit - s.unit;
    ScaledValue(t, s.unit);
    SameMantissa(s.mantissa, Scaled(t, s.unit), Pow10(s.unit));
    TenTimes(t.mantissa, Pow10(k - 1));
    MulAssoc(10, t.mantissa, Pow10(k - 1));
  }

  /** Of two compact forms of one value neither has the lower unit. */
  lemma CompactUnit(s: Amount, t: Amount)
    requires Compact(s) && s.mantissa != 0 && t.unit <= 255 && Value(s) == Value(t)
    ensures s.unit >= t.unit
  {
    if s.unit < t.unit {
      LowerEndsInZero(s, t);
      assert false;
    }
  }

  lemma SameMantissa(l: nat, r: nat, p: nat)
    requires p > 0 && l * p == r * p
    ensures l == r
  {
    if l < r { MulLt(l, r, p); } else if r < l { MulLt(r, l, p); }
  }
}
