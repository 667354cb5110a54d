/**
  The checkout transaction (src/Service/Checkout.java): guards, a pass that
  strips expired lines and re-checks stock, pricing, a funds guard, and a
  single commit that lowers stock and debits the customer.
 */
module Checkout {
  import opened Products
  import opened Carts
  import opened Shipping
  import opened Customers

  datatype CheckoutError =
    | EmptyCart
    | InsufficientStock(productName: string)
    | EmptyAfterExpiry
    | InsufficientFunds

  /** The figures the receipt reports. */
  datatype Receipt = Receipt(subtotal: real, totalWeight: real, shipping: real, total: real, balanceLeft: real)

  datatype Outcome = Completed(receipt: Receipt) | Failed(error: CheckoutError)

  /** The products among the lines that have expired by `today`. */
  function ExpiredProducts(lines: seq<LineItem>, today: int): (gone: set<Product>)
    reads ProductsOf(lines)
    ensures gone <= ProductsOf(lines)
    ensures forall l | l in lines :: l.product in gone <==> l.product.HasExpired(today)
  {
    set l | l in lines && l.product.HasExpired(today) :: l.product
  }

  /** The lines among the first `n` whose products are not in `gone`, in cart order. */
  function Survivors(lines: seq<LineItem>, gone: set<Product>, n: nat): seq<LineItem>
    requires n <= |lines|
  {
    if n == 0 then []
    else if lines[n - 1].product in gone then Survivors(lines, gone, n - 1)
    else Survivors(lines, gone, n - 1) + [lines[n - 1]]
  }

  /** The product names of the lines among the first `n` whose products are in `gone`, in cart order. */
  function ExpiredNames(lines: seq<LineItem>, gone: set<Product>, n: nat): seq<string>
    requires n <= |lines|
  {
    if n == 0 then []
    else if lines[n - 1].product in gone then ExpiredNames(lines, gone, n - 1) + [lines[n - 1].product.name]
    else ExpiredNames(lines, gone, n - 1)
  }

  /** A line that survives the expiry filter but asks for more than its product's stock. */
  predicate Short(l: LineItem, today: int)
    reads l.product
  {
    !l.product.HasExpired(today) && l.quantity > l.product.quantity
  }

  /** Line `m` of the list is short. */
  predicate ShortAt(lines: seq<LineItem>, m: int, today: int)
    requires 0 <= m < |lines|
    reads lines[m].product
  {
    Short(lines[m], today)
  }

  /** The position of the first short line, or the length of the list if there is none. */
  function FirstShort(lines: seq<LineItem>, today: int): (k: nat)
    reads ProductsOf(lines)
    ensures k <= |lines|
    ensures forall m | 0 <= m < k :: !ShortAt(lines, m, today)
    ensures k < |lines| ==> ShortAt(lines, k, today)
  {
    FirstShortFrom(lines, 0, today)
  }

  /** The position of the first short line at or after `from`. */
  function FirstShortFrom(lines: seq<LineItem>, from: nat, today: int): (k: nat)
    requires from <= |lines|
    reads ProductsOf(lines)
    ensures from <= k <= |lines|
    ensures forall m | from <= m < k :: !ShortAt(lines, m, today)
    ensures k < |lines| ==> ShortAt(lines, k, today)
    decreases |lines| - from
  {
    if from == |lines| then from
    else
      assert lines[from] in lines;
      if Short(lines[from], today) then from
      else FirstShortFrom(lines, from + 1, today)
  }

  /** What the customer is charged: the subtotal plus the shipping fee. */
  function OrderTotal(lines: seq<LineItem>): real
  {
    SumOfLineTotals(lines) + ShippingCost(lines)
  }

  /** The survivors are exactly the visited lines whose products are not in `gone`. */
  lemma {:induction false} SurvivorsMembership(lines: seq<LineItem>, gone: set<Product>, n: nat)
    requires n <= |lines|
    ensures forall l | l in Survivors(lines, gone, n) :: l.product !in gone && l in lines[..n]
    ensures forall m | 0 <= m < n && lines[m].product !in gone :: lines[m] in Survivors(lines, gone, n)
  {
    if n > 0 {
      SurvivorsMembership(lines, gone, n - 1);
      assert lines[..n] == lines[..n - 1] + [lines[n - 1]];
    }
  }

  /** Each visited line is either kept or has its name recorded, never both. */
  lemma {:induction false} SurvivorsPartition(lines: seq<LineItem>, gone: set<Product>, n: nat)
    requires n <= |lines|
    ensures |Survivors(lines, gone, n)| + |ExpiredNames(lines, gone, n)| == n
  {
    if n > 0 {
      SurvivorsPartition(lines, gone, n - 1);
    }
  }

  /** The notice names exactly the visited lines whose products are in `gone`. */
  lemma {:induction false} ExpiredNamesMembership(lines: seq<LineItem>, gone: set<Product>, n: nat)
    requires n <= |lines|
    ensures forall m | 0 <= m < n && lines[m].product in gone :: NameAt(lines, m) in ExpiredNames(lines, gone, n)
    ensures forall s | s in ExpiredNames(lines, gone, n) ::
              exists m | 0 <= m < n :: lines[m].product in gone && NameAt(lines, m) == s
  {
    if n > 0 {
      ExpiredNamesMembership(lines, gone, n - 1);
    }
  }

  /** The expiry filter drops every line exactly when every product has expired. */
  lemma AllExpiredLeavesNoSurvivors(lines: seq<LineItem>, today: int)
    ensures Survivors(lines, ExpiredProducts(lines, today), |lines|) == [] <==>
            forall l | l in lines :: l.product.HasExpired(today)
  {
    var gone := ExpiredProducts(lines, today);
    SurvivorsMembership(lines, gone, |lines|);
    assert lines[..|lines|] == lines;
    if Survivors(lines, gone, |lines|) != [] {
      assert Survivors(lines, gone, |lines|)[0] in Survivors(lines, gone, |lines|);
    }
  }

  /** Dropping lines cannot make two names collide. */
  lemma {:induction false} SurvivorsKeepValid(lines: seq<LineItem>, gone: set<Product>, n: nat)
    requires n <= |lines|
    requires DistinctNames(lines) && forall l | l in lines :: l.quantity > 0
    ensures DistinctNames(Survivors(lines, gone, n))
    ensures forall l | l in Survivors(lines, gone, n) :: l.quantity > 0
  {
    if n > 0 {
      SurvivorsKeepValid(lines, gone, n - 1);
      SurvivorsMembership(lines, gone, n - 1);
      var last := lines[n - 1];
      assert last in lines;
      if last.product !in gone {
        forall x, y | x in Survivors(lines, gone, n - 1) && y in [last]
          ensures x.product.name != y.product.name
        {
          var a :| 0 <= a < n - 1 && lines[..n - 1][a] == x;
          DistinctNamesAt(lines, a, n - 1);
        }
        DistinctNamesConcat(Survivors(lines, gone, n - 1), [last]);
      }
    }
  }

  /**
    The cart part-way through the expiry pass: the survivors of the lines
    already visited, then the lines not yet visited, keeps distinct names.
   */
  lemma PartialFilterKeepsValid(lines: seq<LineItem>, i: int, gone: set<Product>)
    requires 0 <= i <= |lines|
    requires DistinctNames(lines) && forall l | l in lines :: l.quantity > 0
    ensures DistinctNames(Survivors(lines, gone, i) + lines[i..])
    ensures forall l | l in Survivors(lines, gone, i) + lines[i..] :: l.quantity > 0
  {
    var rest := lines[i..];
    var kept := Survivors(lines, gone, i);
    SurvivorsKeepValid(lines, gone, i);
    SurvivorsMembership(lines, gone, i);
    SliceKeepsDistinctNames(lines, i, |lines|);
    assert lines[i..|lines|] == rest;
    forall x, y | x in kept && y in rest
      ensures x.product.name != y.product.name
    {
      var a :| 0 <= a < i && lines[..i][a] == x;
      var b :| 0 <= b < |rest| && rest[b] == y;
      assert lines[a] == x && lines[i + b] == y;
      DistinctNamesAt(lines, a, i + b);
    }
    DistinctNamesConcat(kept, rest);
    assert forall l | l in rest :: l in lines;
  }

  /**
    The list part-way through the expiry pass, with `j` the number of lines
    kept so far: position `j` holds the next unvisited line, and dropping it
    (when its product is in `gone`) or stepping over it (otherwise) gives the
    list one step further on.
   */
  lemma FilterAdvance(lines: seq<LineItem>, i: int, gone: set<Product>, cur: seq<LineItem>, j: int)
    requires 0 <= i < |lines|
    requires cur == Survivors(lines, gone, i) + lines[i..]
    requires j == |Survivors(lines, gone, i)|
    ensures j < |cur| && cur[j] == lines[i]
    ensures lines[i].product in gone ==>
              cur[..j] + cur[j + 1..] == Survivors(lines, gone, i + 1) + lines[i + 1..] &&
              j == |Survivors(lines, gone, i + 1)|
    ensures lines[i].product !in gone ==>
              cur == Survivors(lines, gone, i + 1) + lines[i + 1..] &&
              j + 1 == |Survivors(lines, gone, i + 1)|
  {
  }

  /**
    The state of pass 1 after visiting the first `i` lines of the list
    `lines` it started from, with `j` the number of lines kept so far and
    `k` the position of the first short line: the cart holds the survivors
    followed by the unvisited lines, the names of the dropped lines are
    recorded in order, and no short line has been passed.
   */
  ghost predicate Progress(cart: Cart, j: int, expired: seq<string>, lines: seq<LineItem>,
                           gone: set<Product>, i: int, k: int, today: int)
    reads cart, ProductsOf(lines)
  {
    && 0 <= i <= k <= |lines|
    && cart.lines == Survivors(lines, gone, i) + lines[i..]
    && j == |Survivors(lines, gone, i)|
    && expired == ExpiredNames(lines, gone, i)
    && (forall m | i <= m < k :: !ShortAt(lines, m, today))
    && (k < |lines| ==> ShortAt(lines, k, today))
    && (forall m | 0 <= m < |lines| :: lines[m].product in gone <==> lines[m].product.HasExpired(today))
  }

  lemma ProgressStart(cart: Cart, lines: seq<LineItem>, gone: set<Product>, today: int)
    requires cart.lines == lines
    requires forall m | 0 <= m < |lines| :: lines[m].product in gone <==> lines[m].product.HasExpired(today)
    ensures Progress(cart, 0, [], lines, gone, 0, FirstShort(lines, today), today)
  {
  }

  lemma ProgressDone(cart: Cart, j: int, expired: seq<string>, lines: seq<LineItem>,
                     gone: set<Product>, i: int, k: int, today: int)
    requires Progress(cart, j, expired, lines, gone, i, k, today) && j >= |cart.lines|
    ensures i == k == |lines|
    ensures cart.lines == Survivors(lines, gone, |lines|) && expired == ExpiredNames(lines, gone, |lines|)
  {
  }

  /**
    The body of pass 1 for the line at position `j` of the cart, which is
    line `i` of the list the pass started from: an expired line is removed
    in place and its name recorded, any other line is checked against its
    product's stock.
   */
  method VisitLine(cart: Cart, j: int, expired: seq<string>, today: int,
                   ghost lines: seq<LineItem>, ghost gone: set<Product>, ghost i: int, ghost k: int)
    returns (short: Option<string>, j': int, expired': seq<string>)
    requires Progress(cart, j, expired, lines, gone, i, k, today) && j < |cart.lines|
    modifies cart`lines
    ensures short.Some? ==> i == k < |lines| && short.value == lines[k].product.name
    ensures short.Some? ==> cart.lines == Survivors(lines, gone, k) + lines[k..] && expired' == ExpiredNames(lines, gone, k)
    ensures short.None? ==> Progress(cart, j', expired', lines, gone, i + 1, k, today)
  {
    assert i < |lines|;
    FilterAdvance(lines, i, gone, cart.lines, j);
    var line := cart.lines[j];
    var p := line.product;
    assert lines[i] in lines;
    if p.HasExpired(today) {
      cart.lines := cart.lines[..j] + cart.lines[j + 1..];
      return None, j, expired + [p.name];
    }
    if line.quantity > p.quantity {
      assert ShortAt(lines, i, today);
      return Some(p.name), j, expired;
    }
    return None, j + 1, expired;
  }

  /** The expiry filter only ever keeps products the cart already held. */
  lemma SurvivorProductsWereInCart(lines: seq<LineItem>, gone: set<Product>)
    ensures ProductsOf(Survivors(lines, gone, |lines|)) <= ProductsOf(lines) - gone
  {
    SurvivorsMembership(lines, gone, |lines|);
    assert lines[..|lines|] == lines;
  }

  /** When no line is short, every line that survives the expiry filter is covered by its product's stock. */
  lemma SurvivorsCovered(lines: seq<LineItem>, gone: set<Product>, today: int)
    requires FirstShort(lines, today) == |lines| && gone == ExpiredProducts(lines, today)
    ensures forall l | l in Survivors(lines, gone, |lines|) :: l.quantity <= l.product.quantity
  {
    SurvivorsMembership(lines, gone, |lines|);
    assert lines[..|lines|] == lines;
    forall l | l in Survivors(lines, gone, |lines|)
      ensures l.quantity <= l.product.quantity
    {
      var m :| 0 <= m < |lines| && lines[m] == l;
      assert !ShortAt(lines, m, today);
    }
  }

  /**
    Pass 1: walks the cart's own list once, removing every expired line in
    place and recording its name; a surviving line asking for more than its
    product's current stock stops the pass. Products are only read.
   */
  method RemoveExpired(cart: Cart, today: int, ghost gone: set<Product>) returns (failure: Option<CheckoutError>, expired: seq<string>)
    requires forall m | 0 <= m < |cart.lines| :: cart.lines[m].product in gone <==> cart.lines[m].product.HasExpired(today)
    modifies cart`lines
    ensures var lines, k := old(cart.lines), old(FirstShort(cart.lines, today));
            if k < |lines| then
              failure == Some(InsufficientStock(lines[k].product.name)) &&
              cart.lines == Survivors(lines, gone, k) + lines[k..] &&
              expired == ExpiredNames(lines, gone, k)
            else
              failure == None &&
              cart.lines == Survivors(lines, gone, |lines|) &&
              expired == ExpiredNames(lines, gone, |lines|)
  {
    ghost var lines := cart.lines;
    ghost var k := FirstShort(lines, today);
    ghost var i := 0;
    var j := 0;
    expired := [];
    ProgressStart(cart, lines, gone, today);
    while j < |cart.lines|
      invariant Progress(cart, j, expired, lines, gone, i, k, today)
      decreases |lines| - i
    {
      var short;
      short, j, expired := VisitLine(cart, j, expired, today, lines, gone, i, k);
      if short.Some? {
        return Some(InsufficientStock(short.value)), expired;
      }
      i := i + 1;
    }
    ProgressDone(cart, j, expired, lines, gone, i, k, today);
    failure := None;
  }

  /**
    The commit loop: every line's product loses exactly that line's
    quantity, so stock that covered each line stays non-negative.
   */
  method CommitStock(lines: seq<LineItem>)
    requires DistinctNames(lines)
    modifies ProductsOf(lines)`quantity
    ensures forall m | 0 <= m < |lines| :: lines[m].product.quantity == old(lines[m].product.quantity) - lines[m].quantity
    ensures (forall l | l in lines :: l.quantity <= old(l.product.quantity)) ==>
              forall l | l in lines :: l.product.quantity >= 0
  {
    for k := 0 to |lines|
      invariant forall m | 0 <= m < k :: lines[m].product.quantity == old(lines[m].product.quantity) - lines[m].quantity
      invariant forall m | k <= m < |lines| :: lines[m].product.quantity == old(lines[m].product.quantity)
    {
      var p := lines[k].product;
      forall m | 0 <= m < |lines| && m != k
        ensures lines[m].product != p
      {
        DistinctNamesDistinctProducts(lines, m, k);
      }
      p.SetQuantity(p.quantity - lines[k].quantity);
    }
  }

  /** The total weight the receipt reports, accumulated over the lines once more. */
  method ReceiptWeight(lines: seq<LineItem>) returns (totalKg: real)
    ensures totalKg == ShippableWeight(lines)
  {
    totalKg := 0.0;
    for i := 0 to |lines|
      invariant totalKg == ShippableWeight(lines[..i])
    {
      assert lines[..i + 1][..i] == lines[..i];
      var li := lines[i];
      if li.product.IsShippable() {
        totalKg := totalKg + li.product.weight * li.quantity as real;
      }
    }
    assert lines[..|lines|] == lines;
  }

  /**
    The commit over the survivors of the expiry pass, seen from the list
    `lines` the pass started from: every kept line's product loses that
    line's quantity and a dropped line's product is left as it was.
   */
  method CommitSurvivors(kept: seq<LineItem>, ghost lines: seq<LineItem>, ghost gone: set<Product>)
    requires kept == Survivors(lines, gone, |lines|) && DistinctNames(kept)
    modifies ProductsOf(kept)`quantity
    ensures forall l | l in lines ::
              l.product.quantity == old(l.product.quantity) - (if l.product in gone then 0 else l.quantity)
    ensures (forall l | l in kept :: l.quantity <= old(l.product.quantity)) ==>
              forall l | l in kept :: l.product.quantity >= 0
  {
    CommitStock(kept);
    SurvivorsMembership(lines, gone, |lines|);
    assert lines[..|lines|] == lines;
    forall l | l in lines
      ensures l.product.quantity == old(l.product.quantity) - (if l.product in gone then 0 else l.quantity)
    {
      if l.product !in gone {
        var m :| 0 <= m < |kept| && kept[m] == l;
      } else {
        assert l.product !in ProductsOf(kept);
      }
    }
  }

  /**
    Pricing and commit, once the cart holds the lines of `lines` whose
    products are not in `gone`, each in date and covered by stock: the
    subtotal, the shipping fee and their sum; a funds guard; then the stock
    commit, the debit and the receipt figures. A dropped line's product is
    never touched.
   */
  method Settle(cust: Customer, cart: Cart, ghost lines: seq<LineItem>, ghost gone: set<Product>) returns (res: Outcome)
    requires cart.lines == Survivors(lines, gone, |lines|)
    requires DistinctNames(cart.lines) && cart.lines != []
    requires forall l | l in cart.lines :: l.quantity <= l.product.quantity
    modifies cust`balance, ProductsOf(cart.lines)`quantity
    ensures old(cust.balance) < OrderTotal(cart.lines) ==> res == Failed(InsufficientFunds)
    ensures old(cust.balance) >= OrderTotal(cart.lines) ==>
              res == Completed(Receipt(SumOfLineTotals(cart.lines), ShippableWeight(cart.lines),
                                       ShippingCost(cart.lines), OrderTotal(cart.lines), cust.balance))
    ensures res.Failed? ==> cust.balance == old(cust.balance)
    ensures res.Failed? ==> forall l | l in lines :: l.product.quantity == old(l.product.quantity)
    ensures res.Completed? ==> cust.balance == old(cust.balance) - OrderTotal(cart.lines)
    ensures res.Completed? ==>
              forall l | l in lines ::
                l.product.quantity == old(l.product.quantity) - (if l.product in gone then 0 else l.quantity)
    ensures res.Completed? ==> forall l | l in cart.lines :: l.product.quantity >= 0
  {
    var sub := cart.SubTotal();
    var ship := Shipping.Cost(cart.lines);
    var total := sub + ship;
    if cust.balance < total {
      return Failed(InsufficientFunds);
    }
    CommitSurvivors(cart.lines, lines, gone);
    cust.Debit(total);
    var totalKg := ReceiptWeight(cart.lines);
    res := Completed(Receipt(sub, totalKg, ship, total, cust.balance));
  }

  /**
    Checks out the cart for the customer on day `today`. Returns the outcome
    and the expiry notice (the names of the expired lines removed, printed
    only when the pass over the cart completes).
   */
  method Process(cust: Customer, cart: Cart, today: int) returns (res: Outcome, notice: seq<string>)
    requires cart.Valid()
    modifies cart`lines, cust`balance, ProductsOf(cart.lines)`quantity
    ensures cart.Valid()
    // The empty-cart guard.
    ensures old(cart.lines) == [] ==> res == Failed(EmptyCart) && cart.lines == [] && notice == []
    // The stock re-check: expired lines met before the short line are already gone.
    ensures var lines, gone, k := old(cart.lines), old(ExpiredProducts(cart.lines, today)), old(FirstShort(cart.lines, today));
            k < |lines| ==>
              res == Failed(InsufficientStock(lines[k].product.name)) && notice == [] &&
              cart.lines == Survivors(lines, gone, k) + lines[k..]
    // After a complete pass the cart holds the survivors and the notice names the rest.
    ensures var lines, gone := old(cart.lines), old(ExpiredProducts(cart.lines, today));
            lines != [] && old(FirstShort(cart.lines, today)) == |lines| ==>
              cart.lines == Survivors(lines, gone, |lines|) &&
              notice == ExpiredNames(lines, gone, |lines|)
    ensures old(cart.lines) != [] && old(FirstShort(cart.lines, today)) == |old(cart.lines)| && cart.lines == [] ==>
              res == Failed(EmptyAfterExpiry)
    ensures old(cart.lines) != [] && old(FirstShort(cart.lines, today)) == |old(cart.lines)| && cart.lines != [] ==>
              if old(cust.balance) < OrderTotal(cart.lines) then
                res == Failed(InsufficientFunds)
              else
                res == Completed(Receipt(SumOfLineTotals(cart.lines), ShippableWeight(cart.lines),
                                         ShippingCost(cart.lines), OrderTotal(cart.lines), cust.balance))
    // All or nothing: a failed checkout changes no stock and no balance.
    ensures res.Failed? ==> cust.balance == old(cust.balance)
    ensures res.Failed? ==> forall l | l in old(cart.lines) :: l.product.quantity == old(l.product.quantity)
    // The commit.
    ensures res.Completed? ==> cust.balance == old(cust.balance) - OrderTotal(cart.lines)
    ensures var gone := old(ExpiredProducts(cart.lines, today));
            res.Completed? ==>
              forall l | l in old(cart.lines) ::
                l.product.quantity == old(l.product.quantity) - (if l.product in gone then 0 else l.quantity)
    ensures res.Completed? ==> forall l | l in cart.lines :: l.product.quantity >= 0
  {
    notice := [];
    if cart.lines == [] {
      return Failed(EmptyCart), notice;
    }
    ghost var lines := cart.lines;
    ghost var gone := ExpiredProducts(lines, today);
    ghost var k := FirstShort(lines, today);

    var failure, expired := RemoveExpired(cart, today, gone);
    if failure.Some? {
      PartialFilterKeepsValid(lines, k, gone);
      return Failed(failure.value), notice;
    }
    assert k == |lines|;
    PartialFilterKeepsValid(lines, k, gone);
    assert cart.lines == Survivors(lines, gone, k) + lines[k..];
    notice := expired;
    if cart.lines == [] {
      return Failed(EmptyAfterExpiry), notice;
    }

    SurvivorProductsWereInCart(lines, gone);
    SurvivorsCovered(lines, gone, today);
    res := Settle(cust, cart, lines, gone);
  }
}
