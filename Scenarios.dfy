/**
  Whole checkouts on small concrete carts, derived from the contracts of
  the cart and the checkout alone.
 */
module Scenarios {
  import opened Products
  import opened Carts
  import opened Shipping
  import opened Customers
  import opened Checkout

  /** The figures of a one-line cart whose product is in date and covers the line. */
  lemma OneLineInStock(line: LineItem, today: int)
    requires !line.product.HasExpired(today) && line.quantity <= line.product.quantity
    ensures FirstShort([line], today) == 1
    ensures ExpiredProducts([line], today) == {}
    ensures Survivors([line], {}, 1) == [line]
    ensures SumOfLineTotals([line]) == line.LineTotal()
    ensures ShippableWeight([line]) == LineWeight(line)
  {
  }

  /** The figures of a one-line cart whose product has expired. */
  lemma OneLineExpired(line: LineItem, today: int)
    requires line.product.HasExpired(today)
    ensures FirstShort([line], today) == 1
    ensures ExpiredProducts([line], today) == {line.product}
    ensures Survivors([line], {line.product}, 1) == []
    ensures ExpiredNames([line], {line.product}, 1) == [line.product.name]
  {
  }

  /**
    Three units of a shipped 2 kg product at 10.00 out of a stock of five,
    paid from a balance of 1000.00: subtotal 30, weight 6 kg, shipping
    30 + 6 * 50 = 330, total 360, and two units left in stock.
   */
  method ShippedOrder() returns (res: Outcome, left: int)
    ensures res == Completed(Receipt(30.0, 6.0, 330.0, 360.0, 640.0))
    ensures left == 2
  {
    var p := new Product("Cheese", 10.0, 5, MayExpire, NeedsShipping, 2.0);
    var cart := new Cart();
    var added := cart.Add(p, 3);
    var line := LineItem(p, 3);
    assert cart.lines == [line];
    var cust := new Customer("Ann", 1000.0);
    OneLineInStock(line, 10);
    assert OrderTotal([line]) == 360.0 by {
      assert line.LineTotal() == 30.0 && LineWeight(line) == 6.0;
      assert ShippingCost([line]) == 330.0;
    }
    ghost var before := cart.lines;
    var notice;
    res, notice := Process(cust, cart, 10);
    assert line in before;
    left := p.quantity;
  }

  /**
    A cart whose only line has expired: the pass removes it, the notice
    names it, and the checkout fails with an empty cart and no stock taken.
   */
  method ExpiredOnlyOrder() returns (res: Outcome, notice: seq<string>, left: int)
    ensures res == Failed(EmptyAfterExpiry) && notice == ["Milk"] && left == 4
  {
    var p := new Product("Milk", 1.5, 4, MayExpire, DoesNotNeedShipping, 1.0);
    p.SetProductionDate(Some(100));
    p.SetExpirationDays(Some(7));
    var cart := new Cart();
    var added := cart.Add(p, 2);
    var line := LineItem(p, 2);
    assert cart.lines == [line];
    var cust := new Customer("Bo", 50.0);
    assert p.HasExpired(108);
    OneLineExpired(line, 108);
    ghost var before := cart.lines;
    res, notice := Process(cust, cart, 108);
    assert line in before;
    left := p.quantity;
  }

  /**
    Adding a product whose name is already in the cart merges the two
    quantities into one line, which moves to the end of the list.
   */
  method MergeMovesLineToEnd() returns (a: Product, b: Product, lines: seq<LineItem>)
    ensures lines == [LineItem(b, 1), LineItem(a, 3)]
  {
    a := new Product("Apple", 0.5, 10, MayNotExpire, NeedsShipping, 0.2);
    b := new Product("Bread", 2.0, 10, MayExpire, DoesNotNeedShipping, 0.0);
    var cart := new Cart();
    var r := cart.Add(a, 1);
    r := cart.Add(b, 1);
    var before := cart.lines;
    assert before == [LineItem(a, 1), LineItem(b, 1)];
    assert before[..0] + before[1..] == [LineItem(b, 1)];
    r := cart.Add(a, 2);
    lines := cart.lines;
  }
}
