/**
 * The compounding engine: a list of annual percentage rates becomes a
 * growth-factor series that starts at 1.0, and every element of the finished
 * series is rounded to four decimal places.
 */
module Growth {

  /** What every facade returns: calendar years and compounded growth factors. */
  datatype GrowthSeries = GrowthSeries(dates: seq<int>, values: seq<real>)

  /** The multiplier for one year whose rate is `rate` percent. */
  function Factor(rate: real): real {
    1.0 + rate / 100.0
  }

  /** One compounding step: `value` grown by one year at `rate` percent. */
  function Grow(value: real, rate: real): real {
    value * Factor(rate)
  }

  /** The product of the factors of all rates, taken from the first to the last. */
  function Product(rates: seq<real>): real
    decreases |rates|
  {
    if rates == [] then 1.0 else Product(rates[..|rates| - 1]) * Factor(rates[|rates| - 1])
  }

  /**
   * The unrounded chain the compounding loop builds: it starts at 1.0 and
   * appends the previous element times the next factor, once per rate.
   */
  function Chain(rates: seq<real>): (c: seq<real>)
    ensures |c| == |rates| + 1
    ensures c[0] == 1.0
    decreases |rates|
  {
    if rates == [] then [1.0]
    else
      var prev := Chain(rates[..|rates| - 1]);
      prev + [Grow(prev[|prev| - 1], rates[|rates| - 1])]
  }

  /** Compounding a prefix of the rates gives the matching prefix of the chain. */
  lemma {:induction false} ChainPrefix(rates: seq<real>, k: nat)
    requires k <= |rates|
    ensures Chain(rates[..k]) == Chain(rates)[..k + 1]
    decreases |rates|
  {
    if k < |rates| {
      var init := rates[..|rates| - 1];
      ChainPrefix(init, k);
      assert init[..k] == rates[..k];
    } else {
      assert rates[..k] == rates;
    }
  }

  /** Each element is the one before it times the factor of the matching rate. */
  lemma ChainStep(rates: seq<real>, i: nat)
    requires 1 <= i <= |rates|
    ensures Chain(rates)[i] == Grow(Chain(rates)[i - 1], rates[i - 1])
  {
    var p := rates[..i];
    assert p[..i - 1] == rates[..i - 1];
    var prev := Chain(rates[..i - 1]);
    assert Chain(p) == prev + [Grow(prev[i - 1], rates[i - 1])];
    ChainPrefix(rates, i);
    assert Chain(rates)[i] == Chain(p)[i];
    ChainPrefix(rates, i - 1);
    assert prev[i - 1] == Chain(rates)[i - 1];
  }

  /** Element `i` of the chain is the product of the first `i` factors. */
  lemma {:induction false} ChainIsProduct(rates: seq<real>, i: nat)
    requires i <= |rates|
    ensures Chain(rates)[i] == Product(rates[..i])
  {
    if i == 0 {
      assert rates[..0] == [];
    } else {
      ChainIsProduct(rates, i - 1);
      ChainStep(rates, i);
      assert rates[..i][..i - 1] == rates[..i - 1];
    }
  }

  /** The integer nearest to `x`; a tie goes to the even neighbour. */
  function RoundHalfEven(x: real): (n: int)
    ensures x - 0.5 <= n as real <= x + 0.5
    ensures (x - n as real == 0.5 || n as real - x == 0.5) ==> n % 2 == 0
  {
    var f := x.Floor;
    var frac := x - f as real;
    if frac < 0.5 then f
    else if frac > 0.5 then f + 1
    else if f % 2 == 0 then f
    else f + 1
  }

  /** `round(v, 4)` on the exact value: the nearest multiple of 1/10000, ties to even. */
  function Round4(v: real): (r: real)
    ensures -0.00005 <= r - v <= 0.00005
    ensures (r * 10000.0).Floor as real == r * 10000.0
  {
    RoundHalfEven(v * 10000.0) as real / 10000.0
  }

  /** The anchor value 1.0 survives rounding. */
  lemma Round4One()
    ensures Round4(1.0) == 1.0
  {
    assert (10000.0).Floor == 10000;
  }

  /** The rounding pass: one elementwise map over a finished chain. */
  function RoundAll(values: seq<real>): seq<real> {
    seq(|values|, i requires 0 <= i < |values| => Round4(values[i]))
  }

  /**
   * The compounding loop: start from [1.0] and append the last element times
   * the next factor, once per rate, without any rounding.
   */
  method Compound(rates: seq<real>) returns (values: seq<real>)
    ensures |values| == |rates| + 1 && values[0] == 1.0
    ensures forall i :: 1 <= i <= |rates| ==> values[i] == Grow(values[i - 1], rates[i - 1])
    ensures forall i :: 0 <= i <= |rates| ==> values[i] == Product(rates[..i])
    ensures values == Chain(rates)
  {
    values := [1.0];
    var k := 0;
    while k < |rates|
      invariant 0 <= k <= |rates|
      invariant values == Chain(rates[..k])
    {
      assert rates[..k + 1][..k] == rates[..k];
      values := values + [Grow(values[|values| - 1], rates[k])];
      k := k + 1;
    }
    assert rates[..|rates|] == rates;
    forall i | 1 <= i <= |rates|
      ensures values[i] == Grow(values[i - 1], rates[i - 1])
    {
      ChainStep(rates, i);
    }
    forall i | 0 <= i <= |rates|
      ensures values[i] == Product(rates[..i])
    {
      ChainIsProduct(rates, i);
    }
  }

  /**
   * Compounding followed by the rounding pass: every element is the rounded
   * product of its prefix of factors, so no rounded value is ever multiplied again.
   */
  method CompoundRounded(rates: seq<real>) returns (values: seq<real>)
    ensures |values| == |rates| + 1 && values[0] == 1.0
    ensures forall i :: 0 <= i <= |rates| ==> values[i] == Round4(Product(rates[..i]))
    ensures values == RoundAll(Chain(rates))
  {
    var chain := Compound(rates);
    values := RoundAll(chain);
    Round4One();
  }

  /** Rounding after every multiplication, which the source does NOT do; kept for contrast. */
  function PerStepRounded(rates: seq<real>): (c: seq<real>)
    ensures |c| == |rates| + 1
    decreases |rates|
  {
    if rates == [] then [1.0]
    else
      var prev := PerStepRounded(rates[..|rates| - 1]);
      prev + [Round4(Grow(prev[|prev| - 1], rates[|rates| - 1]))]
  }

  /**
   * Where the rounding happens is observable: two years at 0.003% compound to
   * 1.0000600009, which rounds to 1.0001, while rounding each step keeps 1.0
   * (1.00003 rounds down to 1.0000, and so does 1.0 grown once more).
   */
  lemma RoundingOnceDiffersFromPerStep()
    ensures RoundAll(Chain([0.003, 0.003]))[2] == 1.0001
    ensures PerStepRounded([0.003, 0.003])[2] == 1.0
  {
    var rates := [0.003, 0.003];
    assert rates[..1] == [0.003];
    assert [0.003][..0] == [];
    assert Chain([0.003]) == [1.0, 1.00003];
    assert Chain(rates) == [1.0, 1.00003, 1.0000600009];
    assert (10000.600009).Floor == 10000;
    assert Round4(1.0000600009) == 1.0001;
    assert (10000.3).Floor == 10000;
    assert Round4(1.00003) == 1.0;
    Round4One();
    assert PerStepRounded([0.003]) == [1.0, 1.0];
  }
}
