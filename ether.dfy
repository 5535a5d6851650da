/**
 * Ether amounts as the front end sees them: the contract speaks in wei (base units), the
 * page shows and re-parses decimal ether with a fixed 18-decimal scale (`formatEther`,
 * `parseEther`). A decimal amount is kept as its whole part and its fractional digits,
 * most significant first, which is what the rendered string spells out.
 */
module Ether {
  import opened Wrappers
  import opened Arith

  type Digit = d: nat | d < 10

  /** Number of fractional digits of one ether in wei. */
  const Decimals: nat := 18
  const WeiPerEther: nat := 1_000_000_000_000_000_000

  /** A non-negative decimal amount of ether: `whole.frac`. */
  datatype Decimal = Decimal(whole: nat, frac: seq<Digit>)

  function Pow10(k: nat): (r: nat)
    ensures r >= 1
  {
    if k == 0 then 1 else 10 * Pow10(k - 1)
  }

  lemma WeiPerEtherIsScale()
    ensures Pow10(Decimals) == WeiPerEther
  {
    assert Pow10(3) == 1000;
    assert Pow10(6) == 1000 * Pow10(3);
    assert Pow10(9) == 1000 * Pow10(6);
    assert Pow10(12) == 1000 * Pow10(9);
    assert Pow10(15) == 1000 * Pow10(12);
    assert Pow10(18) == 1000 * Pow10(15);
  }

  /** Value of a digit string read most significant first. */
  function DigitsValue(ds: seq<Digit>): nat {
    if ds == [] then 0 else 10 * DigitsValue(ds[..|ds| - 1]) + ds[|ds| - 1]
  }

  /** The `k`-digit zero-padded rendering of `n`. */
  function ToDigits(n: nat, k: nat): (ds: seq<Digit>)
    requires n < Pow10(k)
    ensures |ds| == k && DigitsValue(ds) == n
  {
    if k == 0 then []
    else
      var ds := ToDigits(n / 10, k - 1) + [n % 10];
      assert ds[..k - 1] == ToDigits(n / 10, k - 1);
      ds
  }

  /** Strips trailing zero digits but keeps at least one digit, as the rendered amount
      shows "1.0" and "0.5", never "1." or "0.50". */
  function TrimZeros(ds: seq<Digit>): (r: seq<Digit>)
    ensures |r| <= |ds| && r == ds[..|r|]
    ensures ds != [] ==> r != []
    ensures |r| > 1 ==> r[|r| - 1] != 0
  {
    if |ds| > 1 && ds[|ds| - 1] == 0 then
      var r := TrimZeros(ds[..|ds| - 1]);
      assert ds[..|ds| - 1][..|r|] == ds[..|r|];
      r
    else ds
  }

  /** Stripping trailing zeros keeps the value once the digits are padded back to their
      original length. */
  lemma {:induction false} TrimZerosValue(ds: seq<Digit>)
    ensures DigitsValue(TrimZeros(ds)) * Pow10(|ds| - |TrimZeros(ds)|) == DigitsValue(ds)
  {
    if |ds| > 1 && ds[|ds| - 1] == 0 {
      var init := ds[..|ds| - 1];
      var r := TrimZeros(init);
      TrimZerosValue(init);
      assert TrimZeros(ds) == r;
      var v, k := DigitsValue(r), |init| - |r|;
      assert |ds| - |r| == k + 1;
      assert Pow10(k + 1) == 10 * Pow10(k);
      ShiftByTen(v, Pow10(k));
      assert DigitsValue(ds) == 10 * DigitsValue(init) + ds[|ds| - 1];
    }
  }

  lemma ShiftByTen(v: nat, p: nat)
    ensures v * (10 * p) == 10 * (v * p)
  {
  }

  /** `formatEther(wei)`: the whole ethers and the significant fractional digits. */
  function FormatEther(wei: nat): (d: Decimal)
    ensures 1 <= |d.frac| <= Decimals
    ensures d.whole == wei / WeiPerEther
  {
    WeiPerEtherIsScale();
    Decimal(wei / WeiPerEther, TrimZeros(ToDigits(wei % WeiPerEther, Decimals)))
  }

  /** `parseEther(d)`: scales the decimal amount by 10^18. An amount with more fractional
      digits than the scale cannot be represented and is refused. */
  function ParseEther(d: Decimal): (r: Option<nat>)
    ensures r.Some? <==> |d.frac| <= Decimals
    ensures r.Some? ==> r.value / WeiPerEther == d.whole
  {
    if |d.frac| > Decimals then None
    else
      var fracWei := DigitsValue(d.frac) * Pow10(Decimals - |d.frac|);
      FracBelowScale(d.frac);
      QuotientIs(d.whole * WeiPerEther + fracWei, WeiPerEther, d.whole);
      Some(d.whole * WeiPerEther + fracWei)
  }

  lemma FracBelowScale(ds: seq<Digit>)
    requires |ds| <= Decimals
    ensures DigitsValue(ds) * Pow10(Decimals - |ds|) < WeiPerEther
  {
    var v, p := DigitsValue(ds), Pow10(Decimals - |ds|);
    DigitsBelow(ds);
    WeiPerEtherIsScale();
    PowSplit(|ds|, Decimals - |ds|);
    MulBelow(v, Pow10(|ds|), p);
  }

  lemma {:induction false} DigitsBelow(ds: seq<Digit>)
    ensures DigitsValue(ds) < Pow10(|ds|)
  {
    if ds != [] {
      DigitsBelow(ds[..|ds| - 1]);
    }
  }

  lemma {:induction false} PowSplit(a: nat, b: nat)
    ensures Pow10(a) * Pow10(b) == Pow10(a + b)
  {
    if b > 0 {
      PowSplit(a, b - 1);
    }
  }

  /** The amount the marketplace attaches to a mint: re-parsing a rendered wei amount gives
      back exactly that amount. */
  lemma FormatThenParse(wei: nat)
    ensures ParseEther(FormatEther(wei)) == Some(wei)
  {
    WeiPerEtherIsScale();
    var ds := ToDigits(wei % WeiPerEther, Decimals);
    var d := FormatEther(wei);
    assert d.frac == TrimZeros(ds);
    TrimZerosValue(ds);
    assert DigitsValue(d.frac) * Pow10(Decimals - |d.frac|) == wei % WeiPerEther;
  }

  /** Different wei amounts never render the same. */
  lemma FormatEtherInjective(a: nat, b: nat)
    requires FormatEther(a) == FormatEther(b)
    ensures a == b
  {
    FormatThenParse(a);
    FormatThenParse(b);
  }
}
