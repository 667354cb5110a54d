/**
  The shopper's cart (src/Cart/Cart.java) and its line items
  (src/Cart/Items.java).
 */
module Carts {
  import opened Products

  /**
    One cart line: a shared, non-owned product reference and the requested
    quantity. Being a datatype, a line never changes once built; its total
    follows the product's price through the reference.
   */
  datatype LineItem = LineItem(product: Product, quantity: int) {
    function LineTotal(): (r: real)
      ensures r == product.TotalPrice(quantity)
      ensures product.price >= 0.0 && quantity >= 0 ==> r >= 0.0
    {
      product.price * quantity as real
    }
  }

  /** The products the lines refer to. */
  function ProductsOf(lines: seq<LineItem>): set<Product>
  {
    set l | l in lines :: l.product
  }

  /** The name of the product on line `i`. */
  function NameAt(lines: seq<LineItem>, i: int): string
    requires 0 <= i < |lines|
  {
    lines[i].product.name
  }

  /** No two lines carry products of the same name. */
  predicate DistinctNames(lines: seq<LineItem>)
  {
    forall i, j | 0 <= i < j < |lines| :: NameAt(lines, i) != NameAt(lines, j)
  }

  /** The sum of the line totals, accumulated in list order. */
  function SumOfLineTotals(lines: seq<LineItem>): real
  {
    if lines == [] then 0.0
    else SumOfLineTotals(lines[..|lines| - 1]) + lines[|lines| - 1].LineTotal()
  }

  lemma {:induction false} SumOfLineTotalsAppend(a: seq<LineItem>, b: seq<LineItem>)
    ensures SumOfLineTotals(a + b) == SumOfLineTotals(a) + SumOfLineTotals(b)
    decreases |b|
  {
    if b == [] {
      assert a + b == a;
    } else {
      var b' := b[..|b| - 1];
      assert (a + b)[..|a + b| - 1] == a + b';
      SumOfLineTotalsAppend(a, b');
    }
  }

  /** With non-negative prices and quantities the subtotal is never negative. */
  lemma {:induction false} SumOfLineTotalsNonNegative(lines: seq<LineItem>)
    requires forall l | l in lines :: l.product.price >= 0.0 && l.quantity >= 0
    ensures SumOfLineTotals(lines) >= 0.0
  {
    if lines != [] {
      var init := lines[..|lines| - 1];
      assert forall l | l in init :: l in lines;
      SumOfLineTotalsNonNegative(init);
      var last := lines[|lines| - 1];
      assert last in lines;
      assert last.LineTotal() >= 0.0;
    }
  }

  /** Two different positions hold different names. */
  lemma DistinctNamesAt(lines: seq<LineItem>, i: int, j: int)
    requires DistinctNames(lines)
    requires 0 <= i < |lines| && 0 <= j < |lines| && i != j
    ensures lines[i].product.name != lines[j].product.name
  {
    if i < j {
      assert NameAt(lines, i) != NameAt(lines, j);
    } else {
      assert NameAt(lines, j) != NameAt(lines, i);
    }
  }

  /** Two distinct positions never share a product, since a name never changes. */
  lemma DistinctNamesDistinctProducts(lines: seq<LineItem>, i: int, j: int)
    requires DistinctNames(lines)
    requires 0 <= i < |lines| && 0 <= j < |lines| && i != j
    ensures lines[i].product != lines[j].product
  {
    DistinctNamesAt(lines, i, j);
  }

  /** Dropping one line keeps the remaining names distinct. */
  lemma DistinctNamesRemove(lines: seq<LineItem>, k: int)
    requires DistinctNames(lines) && 0 <= k < |lines|
    ensures DistinctNames(lines[..k] + lines[k + 1..])
  {
    var rest := lines[..k] + lines[k + 1..];
    forall a, b | 0 <= a < b < |rest|
      ensures NameAt(rest, a) != NameAt(rest, b)
    {
      var a' := if a < k then a else a + 1;
      var b' := if b < k then b else b + 1;
      assert rest[a] == lines[a'] && rest[b] == lines[b'];
      DistinctNamesAt(lines, a', b');
    }
  }

  /** A slice of a list with distinct names has distinct names. */
  lemma SliceKeepsDistinctNames(lines: seq<LineItem>, i: int, j: int)
    requires 0 <= i <= j <= |lines| && DistinctNames(lines)
    ensures DistinctNames(lines[i..j])
  {
    var part := lines[i..j];
    forall a, b | 0 <= a < b < |part|
      ensures NameAt(part, a) != NameAt(part, b)
    {
      assert part[a] == lines[i + a] && part[b] == lines[i + b];
      DistinctNamesAt(lines, i + a, i + b);
    }
  }

  /** Joining two name-disjoint lists with distinct names keeps names distinct. */
  lemma DistinctNamesConcat(a: seq<LineItem>, b: seq<LineItem>)
    requires DistinctNames(a) && DistinctNames(b)
    requires forall x, y | x in a && y in b :: x.product.name != y.product.name
    ensures DistinctNames(a + b)
  {
    var c := a + b;
    forall i, j | 0 <= i < j < |c|
      ensures NameAt(c, i) != NameAt(c, j)
    {
      if j < |a| {
        assert NameAt(a, i) != NameAt(a, j);
      } else if i >= |a| {
        assert c[i] == b[i - |a|] && c[j] == b[j - |a|];
        assert NameAt(b, i - |a|) != NameAt(b, j - |a|);
      } else {
        assert c[i] in a && c[j] == b[j - |a|] && c[j] in b;
      }
    }
  }

  /**
    Merging two positive quantities against the stock, in unbounded
    arithmetic: accepted exactly when the sum does not exceed the stock.
   */
  function MergedQuantity(existing: int, qty: int, stock: int): (r: Option<int>)
    ensures r.Some? <==> existing + qty <= stock
    ensures r.Some? ==> r.value == existing + qty
    ensures 0 < existing && 0 < qty && r.Some? ==> existing < r.value <= stock && qty < r.value
  {
    var newQty := existing + qty;
    if newQty > stock then None else Some(newQty)
  }

  /** The Java `int` range. */
  predicate IsInt32(x: int)
  {
    -0x8000_0000 <= x < 0x8000_0000
  }

  /** Two's-complement wrap-around of a Java `int` result. */
  function Wrap32(x: int): (r: int)
    ensures IsInt32(r)
    ensures (r - x) % 0x1_0000_0000 == 0
    ensures IsInt32(x) ==> r == x
  {
    (x + 0x8000_0000) % 0x1_0000_0000 - 0x8000_0000
  }

  /** The merge guard as the source writes it, with the sum computed in 32 bits. */
  function MergedQuantityAsWritten(existing: int, qty: int, stock: int): (r: Option<int>)
    requires IsInt32(existing) && IsInt32(qty) && IsInt32(stock)
    ensures r.Some? ==> IsInt32(r.value) && r.value <= stock
    ensures IsInt32(existing + qty) ==> r == MergedQuantity(existing, qty, stock)
  {
    var newQty := Wrap32(existing + qty);
    if newQty > stock then None else Some(newQty)
  }

  /**
    With the largest stock a Java `int` holds, a line already holding all of
    it and a further add of one unit pass the merge guard and leave a line
    with a negative quantity; the unbounded merge rejects the same add.
   */
  lemma MergeOverflowAdmitsNegativeLine()
    ensures var stock := 0x7FFF_FFFF;
            MergedQuantityAsWritten(stock, 1, stock) == Some(-0x8000_0000) &&
            MergedQuantity(stock, 1, stock) == None
  {
  }

  /** Appending a positive line whose name is new keeps the cart's invariant. */
  lemma AppendKeepsValid(lines: seq<LineItem>, line: LineItem)
    requires DistinctNames(lines) && forall l | l in lines :: l.quantity > 0
    requires forall l | l in lines :: l.product.name != line.product.name
    requires line.quantity > 0
    ensures DistinctNames(lines + [line]) && forall l | l in lines + [line] :: l.quantity > 0
  {
    DistinctNamesConcat(lines, [line]);
  }

  /**
    Line `i` is the only one named like `p`, and replacing it by a positive
    line for `p` at the end of the list keeps the cart's invariant.
   */
  lemma MergeTarget(lines: seq<LineItem>, i: int, p: Product, qty: int)
    requires DistinctNames(lines) && forall l | l in lines :: l.quantity > 0
    requires 0 <= i < |lines| && lines[i].product.name == p.name && qty > 0
    ensures forall k | 0 <= k < |lines| && k != i :: lines[k].product.name != p.name
    ensures var rest := lines[..i] + lines[i + 1..];
            forall q | q > 0 ::
              DistinctNames(rest + [LineItem(p, q)]) && forall l | l in rest + [LineItem(p, q)] :: l.quantity > 0
  {
    forall k | 0 <= k < |lines| && k != i
      ensures lines[k].product.name != p.name
    {
      DistinctNamesAt(lines, k, i);
    }
    var rest := lines[..i] + lines[i + 1..];
    assert forall m | 0 <= m < |rest| :: rest[m] == if m < i then lines[m] else lines[m + 1];
    DistinctNamesRemove(lines, i);
    forall q | q > 0
      ensures DistinctNames(rest + [LineItem(p, q)]) && forall l | l in rest + [LineItem(p, q)] :: l.quantity > 0
    {
      AppendKeepsValid(rest, LineItem(p, q));
    }
  }

  datatype AddResult = Added | InvalidQuantity | ExceedsStock

  class Cart {
    var lines: seq<LineItem>

    /** Names are unique among the lines and every requested quantity is positive. */
    ghost predicate Valid()
      reads this
    {
      DistinctNames(lines) && forall l | l in lines :: l.quantity > 0
    }

    constructor ()
      ensures Valid() && lines == []
    {
      lines := [];
    }

    /**
      Adds `qty` units of `p`, merging with the line of the same product
      name, which then moves to the end of the list. A rejected add leaves
      the cart as it was; no product is changed either way.
     */
    method Add(p: Product, qty: int) returns (res: AddResult)
      requires Valid()
      modifies this`lines
      ensures Valid()
      ensures qty <= 0 ==> res == InvalidQuantity && lines == old(lines)
      ensures 0 < qty && qty > p.quantity ==> res == ExceedsStock && lines == old(lines)
      ensures 0 < qty <= p.quantity && (forall l | l in old(lines) :: l.product.name != p.name) ==>
                res == Added && lines == old(lines) + [LineItem(p, qty)]
      ensures forall k | 0 <= k < |old(lines)| && old(lines)[k].product.name == p.name && 0 < qty <= p.quantity ::
                if old(lines)[k].quantity + qty > p.quantity then
                  res == ExceedsStock && lines == old(lines)
                else
                  res == Added &&
                  lines == old(lines)[..k] + old(lines)[k + 1..] + [LineItem(p, old(lines)[k].quantity + qty)]
      ensures res == Added ==> lines[|lines| - 1].product == p && lines[|lines| - 1].quantity <= p.quantity
    {
      if qty <= 0 {
        return InvalidQuantity;
      }
      if qty > p.quantity {
        return ExceedsStock;
      }
      var i := 0;
      while i < |lines|
        invariant 0 <= i <= |lines| && lines == old(lines)
        invariant forall m | 0 <= m < i :: lines[m].product.name != p.name
      {
        var li := lines[i];
        if li.product.name == p.name {
          var merged := MergedQuantity(li.quantity, qty, p.quantity);
          MergeTarget(lines, i, p, qty);
          if merged.None? {
            return ExceedsStock;
          }
          lines := lines[..i] + lines[i + 1..] + [LineItem(p, merged.value)];
          return Added;
        }
        i := i + 1;
      }
      AppendKeepsValid(lines, LineItem(p, qty));
      lines := lines + [LineItem(p, qty)];
      return Added;
    }

    /** The sum of the line totals; 0 for an empty cart. */
    method SubTotal() returns (total: real)
      ensures total == SumOfLineTotals(lines)
    {
      total := 0.0;
      for i := 0 to |lines|
        invariant total == SumOfLineTotals(lines[..i])
      {
        assert lines[..i + 1][..i] == lines[..i];
        total := total + lines[i].LineTotal();
      }
      assert lines[..|lines|] == lines;
    }
  }
}
