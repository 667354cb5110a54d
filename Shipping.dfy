/**
  The shipping fee (src/Service/Shipping.java): a fixed base fee plus a
  rate per kilogram of shipped weight.
 */
module Shipping {
  import opened Products
  import opened Carts

  const BASE_FEE: real := 30.0
  const RATE_PER_KG: real := 50.0

  /** The weight a line adds to the shipment: its product's weight times its quantity, if shipped. */
  function LineWeight(l: LineItem): real
  {
    if l.product.IsShippable() then l.product.weight * l.quantity as real else 0.0
  }

  /** The total shipped weight of the lines, accumulated in list order. */
  function ShippableWeight(lines: seq<LineItem>): real
  {
    if lines == [] then 0.0
    else ShippableWeight(lines[..|lines| - 1]) + LineWeight(lines[|lines| - 1])
  }

  function ShippingCost(lines: seq<LineItem>): real
  {
    BASE_FEE + ShippableWeight(lines) * RATE_PER_KG
  }

  /** The lines that are shipped, in order. */
  function ShippableLines(lines: seq<LineItem>): (s: seq<LineItem>)
    ensures forall l | l in s :: l in lines && l.product.IsShippable()
    ensures forall l | l in lines && l.product.IsShippable() :: l in s
  {
    if lines == [] then []
    else
      var init := ShippableLines(lines[..|lines| - 1]);
      var last := lines[|lines| - 1];
      if last.product.IsShippable() then init + [last] else init
  }

  /**
    Computes the fee with a single accumulating pass; it only reads the
    lines and their products.
   */
  method Cost(lines: seq<LineItem>) returns (fee: real)
    ensures fee == ShippingCost(lines)
    ensures fee == 30.0 + 50.0 * ShippableWeight(lines)
  {
    var totalKg := 0.0;
    for i := 0 to |lines|
      invariant totalKg == ShippableWeight(lines[..i])
    {
      assert lines[..i + 1][..i] == lines[..i];
      var li := lines[i];
      if li.product.IsShippable() {
        totalKg := totalKg + li.product.weight * li.quantity as real;
      }
    }
    assert lines[..|lines|] == lines;
    fee := BASE_FEE + (totalKg * RATE_PER_KG);
  }

  lemma {:induction false} ShippableWeightAppend(a: seq<LineItem>, b: seq<LineItem>)
    ensures ShippableWeight(a + b) == ShippableWeight(a) + ShippableWeight(b)
    decreases |b|
  {
    if b == [] {
      assert a + b == a;
    } else {
      var b' := b[..|b| - 1];
      assert (a + b)[..|a + b| - 1] == a + b';
      ShippableWeightAppend(a, b');
    }
  }

  /** Lines that are not shipped contribute nothing, whatever weight they store. */
  lemma {:induction false} NonShippableLinesWeighNothing(lines: seq<LineItem>)
    ensures ShippableWeight(lines) == ShippableWeight(ShippableLines(lines))
  {
    if lines != [] {
      var init := lines[..|lines| - 1];
      var last := lines[|lines| - 1];
      NonShippableLinesWeighNothing(init);
      if last.product.IsShippable() {
        ShippableWeightAppend(ShippableLines(init), [last]);
        assert [last][..0] == [];
      }
    }
  }

  /** Without any shipped line, the fee is exactly the base fee. */
  lemma {:induction false} NothingShippedCostsBaseFee(lines: seq<LineItem>)
    requires forall l | l in lines :: !l.product.IsShippable()
    ensures ShippingCost(lines) == 30.0
  {
    if lines != [] {
      var init := lines[..|lines| - 1];
      assert forall l | l in init :: l in lines;
      NothingShippedCostsBaseFee(init);
      assert lines[|lines| - 1] in lines;
    }
  }

  lemma {:induction false} ShippableWeightNonNegative(lines: seq<LineItem>)
    requires forall l | l in lines :: l.product.weight >= 0.0 && l.quantity >= 0
    ensures ShippableWeight(lines) >= 0.0
  {
    if lines != [] {
      var init := lines[..|lines| - 1];
      assert forall l | l in init :: l in lines;
      ShippableWeightNonNegative(init);
      var last := lines[|lines| - 1];
      assert last in lines;
      assert last.product.weight * last.quantity as real >= 0.0;
    }
  }

  /** With non-negative weights and quantities the fee is at least the base fee. */
  lemma CostAtLeastBaseFee(lines: seq<LineItem>)
    requires forall l | l in lines :: l.product.weight >= 0.0 && l.quantity >= 0
    ensures ShippingCost(lines) >= 30.0
  {
    ShippableWeightNonNegative(lines);
  }
}
