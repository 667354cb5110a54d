# Retail checkout engine in Dafny

This project models the checkout core of a small retail simulator and proves
properties of it. In the simulator, a shopper fills a cart with line items.
Each add is validated against the product's stock, and a line for a product
name already in the cart is merged. A checkout then does these steps in order:

1. Strips expired lines from the cart in place.
2. Re-checks stock on the lines that remain.
3. Prices the order: subtotal plus a weight-based shipping fee.
4. Checks the customer's funds.
5. Commits: every remaining product loses the quantity bought and the
   customer is debited.

The modules follow the source files:

- `Products` (`Products.dfy`): the product stock record
  (`src/Product/Product.java`). It is a class. Its name, price, kind flags
  and weight are constants. Its quantity and two optional date fields are
  mutable. Expiry takes the current day as a parameter.
- `Carts` (`Carts.dfy`):
  - the line item (`src/Cart/Items.java`), an immutable datatype holding a
    shared product reference and a quantity;
  - the cart (`src/Cart/Cart.java`), a class whose `lines` field is the
    list that `add` and the checkout mutate.

  The cart's invariant `Cart.Valid` says two things: names are pairwise
  distinct and every quantity is positive. Names never change, so distinct
  names imply distinct product objects, which is what lets the commit loop
  touch each product once.
- `Shipping` (`Shipping.dfy`): the fee 30 + 50 × shipped kilograms
  (`src/Service/Shipping.java`). It is an accumulating loop proved against a
  recursive specification function.
- `Customers` (`Customers.dfy`): the customer account. Only its balance and
  its debit are modelled, since the checkout uses nothing else.
- `Checkout` (`Checkout.dfy`): the checkout itself
  (`src/Service/Checkout.java`). `Process` keeps the source's step order and
  calls these helpers:
  - `RemoveExpired`: the iterator pass. Each step is `VisitLine`.
  - `Settle`: pricing, the funds guard, the commit and the receipt figures.
    It uses `CommitStock`, `CommitSurvivors` and `ReceiptWeight`.

  Failures are values (`Outcome.Failed`), not exceptions. The expiry notice
  is returned as a value instead of printed.
- `Scenarios` (`Scenarios.dfy`): small whole checkouts on concrete carts,
  verified from the contracts alone.

Amounts of money and weights are exact `real`s. Dates are integer day
numbers.

How the code behaves, and how the model follows it:

- `Cart.add` matches lines by product name, not by product object.
- On a merge it removes the old line and appends a new line at the end of
  the list. That new line refers to the product passed to `add`, which may
  be a different object with the same name. `Carts.Cart.Add` states exactly
  this.
- Nothing keeps a line's quantity within its product's current stock
  between adds, so the checkout checks stock again, and the model does the
  same.

## Model

| member | source | states |
|---|---|---|
| Products.StoredWeight | src/Product/Product.java:31-35 | The stored weight is the given one for products that need shipping and 0 otherwise; a non-zero stored weight implies the product is shipped. |
| Products.Product.constructor | src/Product/Product.java:18-36 | Every argument is stored as given except the weight, which follows `StoredWeight`; a product that is not shippable weighs 0; both date fields start absent. |
| Products.Product.IsShippable | src/Product/Product.java:45 | Shippable exactly when the product needs shipping. |
| Products.Product.SetProductionDate | src/Product/Product.java:48-50 | An absent date leaves the production date as it was; a present one replaces it. |
| Products.Product.SetExpirationDays | src/Product/Product.java:51 | The shelf life becomes exactly the given value, absence included. |
| Products.Product.HasExpired | src/Product/Product.java:53-58 | Never expired for a product that may not expire or lacks either date; otherwise expired exactly when production date plus shelf life lies strictly before today. |
| Products.ExpiryIsPermanent | src/Product/Product.java:53-58 | Once expired on a day, a product is expired on every later day. |
| Products.NotExpiredOnLastGoodDay | src/Product/Product.java:56-57 | A product whose last good day is today has not expired (the comparison is strict). |
| Products.Product.SetQuantity | src/Product/Product.java:61 | The stock becomes exactly the given value and no other field changes. |
| Products.Product.TotalPrice | src/Product/Product.java:64 | Price times quantity; zero units cost nothing; non-negative for a non-negative price and quantity. |
| Carts.LineItem.LineTotal | src/Cart/Items.java:16 | The line total is the product's `TotalPrice` of the line's quantity, read through the shared product reference, and non-negative for a non-negative price and quantity. |
| Carts.SumOfLineTotalsAppend | src/Cart/Cart.java:44-48 | The subtotal of two lists joined is the sum of their subtotals. |
| Carts.SumOfLineTotalsNonNegative | src/Cart/Cart.java:44-48 | With non-negative prices and quantities the subtotal is non-negative. |
| Carts.DistinctNamesDistinctProducts | src/Cart/Cart.java:27-29 | In a list whose names are distinct, two different positions never share a product object. |
| Carts.MergedQuantity | src/Cart/Cart.java:30-33 | The merge is accepted exactly when existing plus requested does not exceed the stock, and an accepted merge is exactly that sum; an accepted merge of positive parts exceeds both parts and stays within stock. |
| Carts.Wrap32 | src/Cart/Cart.java:30 | The two's-complement result is always a Java `int`, differs from its argument by a multiple of 2^32, and equals its argument whenever that fits. |
| Carts.MergedQuantityAsWritten | src/Cart/Cart.java:30-33 | The merge guard with the 32-bit sum: anything it accepts is an `int` within stock, and it agrees with `MergedQuantity` whenever the sum fits in 32 bits. |
| Carts.MergeOverflowAdmitsNegativeLine | src/Cart/Cart.java:30-35 | With stock 2147483647 and a line already holding all of it, adding one unit passes the 32-bit guard with quantity -2147483648, while the unbounded merge rejects it. |
| Carts.AppendKeepsValid | src/Cart/Cart.java:39 | Appending a positive line whose name is new keeps names distinct and quantities positive. |
| Carts.MergeTarget | src/Cart/Cart.java:27-36 | The matched line is the only one carrying that name, and removing it and appending a positive line for the product keeps the cart's invariant. |
| Carts.Cart.constructor | src/Cart/Cart.java:14 | A new cart is empty and satisfies the invariant. |
| Carts.Cart.Add | src/Cart/Cart.java:17-40 | A non-positive quantity is rejected, and so is one above the product's stock; each rejection leaves the lines unchanged. A new name is appended after the unchanged earlier lines. A name already present is merged: over stock the add is rejected with the lines unchanged; otherwise the old line is removed and a line for the given product with the summed quantity goes at the end. The invariant is kept, and no product is modified. |
| Carts.Cart.SubTotal | src/Cart/Cart.java:44-48 | The accumulated total equals the sum of the line totals in list order, which is 0 for an empty cart. |
| Shipping.ShippableLines | src/Service/Shipping.java:14-18 | A line is selected exactly when it is in the input and shippable. |
| Shipping.Cost | src/Service/Shipping.java:11-20 | The fee is 30 + 50 × the sum of weight × quantity over shippable lines; it only reads lines and products. |
| Shipping.ShippableWeightAppend | src/Service/Shipping.java:14-18 | The shipped weight of two lists joined is the sum of their shipped weights. |
| Shipping.NonShippableLinesWeighNothing | src/Service/Shipping.java:15-17 | The shipped weight of a list equals that of its shippable lines alone. |
| Shipping.NothingShippedCostsBaseFee | src/Service/Shipping.java:13-19 | With no shippable line (in particular for an empty list) the fee is exactly 30. |
| Shipping.ShippableWeightNonNegative | src/Service/Shipping.java:14-18 | With non-negative weights and quantities the shipped weight is non-negative. |
| Shipping.CostAtLeastBaseFee | src/Service/Shipping.java:13-19 | With non-negative weights and quantities the fee is at least 30. |
| Customers.Customer.Debit | src/Service/Checkout.java:66 | The balance drops by exactly the amount debited. |
| Checkout.ExpiredProducts | src/Service/Checkout.java:34 | A line's product belongs to the set exactly when it has expired, and the set holds only products of the lines. |
| Checkout.FirstShort | src/Service/Checkout.java:30-43 | The position of the first line that is in date but asks for more than its stock; no earlier line is such a line; the list length when there is none. |
| Checkout.FirstShortFrom | src/Service/Checkout.java:30-43 | The same search started from a given position. |
| Checkout.SurvivorsMembership | src/Service/Checkout.java:30-38 | The kept lines are exactly the visited lines whose products have not expired. |
| Checkout.ExpiredNamesMembership | src/Service/Checkout.java:34-36 | The recorded names are exactly the names of the visited lines whose products have expired. |
| Checkout.SurvivorsPartition | src/Service/Checkout.java:30-38 | Each visited line is either kept or has its name recorded, never both. |
| Checkout.AllExpiredLeavesNoSurvivors | src/Service/Checkout.java:48-50 | The filter leaves no line exactly when every line's product has expired. |
| Checkout.SurvivorsKeepValid | src/Service/Checkout.java:30-38 | Dropping lines keeps names distinct and quantities positive. |
| Checkout.PartialFilterKeepsValid | src/Service/Checkout.java:34-42 | The cart left by a pass stopped part-way (survivors so far, then the unvisited lines) still satisfies the cart's invariant. |
| Checkout.FilterAdvance | src/Service/Checkout.java:31-37 | One step of the pass: the cursor's line is the next unvisited one, and removing it (expired) or stepping over it (otherwise) gives the list one step further on. |
| Checkout.VisitLine | src/Service/Checkout.java:31-42 | An expired line is removed in place and its name appended; an in-date line asking for more than its stock stops the pass at the first short position, with the cart holding the survivors so far and then the unvisited lines; any other line is stepped over. |
| Checkout.SurvivorProductsWereInCart | src/Service/Checkout.java:30-38 | The filter only keeps products the cart already held and that have not expired. |
| Checkout.SurvivorsCovered | src/Service/Checkout.java:40-42 | When no line is short, every surviving line is covered by its product's stock. |
| Checkout.RemoveExpired | src/Service/Checkout.java:28-43 | If some line is short, the pass reports insufficient stock for the first short line; the cart then holds the survivors before it followed by the rest of the list, and the names recorded so far are those of the expired lines before it. Otherwise the pass reports no failure, the cart holds exactly the survivors, and all expired names are recorded in cart order. Products are not modified. |
| Checkout.CommitStock | src/Service/Checkout.java:62-65 | Each line's product loses exactly that line's quantity, and stock that covered each line stays non-negative. |
| Checkout.CommitSurvivors | src/Service/Checkout.java:62-65 | Seen from the list before the pass, each kept line's product loses its quantity and each dropped line's product keeps its stock. |
| Checkout.ReceiptWeight | src/Service/Checkout.java:73-81 | The receipt's weight is the same shipped weight the shipping fee is computed from. |
| Checkout.Settle | src/Service/Checkout.java:53-66 | Fails with insufficient funds exactly when the balance is below subtotal plus shipping, changing nothing; a balance equal to the total is accepted. Otherwise it debits exactly the total, lowers each surviving product's stock by its line's quantity (never below 0), and returns the receipt figures. |
| Checkout.Process | src/Service/Checkout.java:20-66 | An empty cart fails with the cart unchanged. A short line fails with insufficient stock; expired lines before it are already removed and no notice is given. After a complete pass the cart holds the survivors and the notice names the expired lines in order. If no line survives, the checkout fails with an empty cart. Otherwise the outcome is the funds guard's. A failure changes no stock and no balance. A success debits the total and lowers exactly the surviving products' stock. The cart's invariant is kept. |
| Scenarios.ShippedOrder | src/Service/Checkout.java:53-66 | Three units at 10.00 of a shipped 2 kg product with stock 5, paid from 1000.00, give subtotal 30, weight 6, shipping 330, total 360, balance 640 and stock 2. |
| Scenarios.ExpiredOnlyOrder | src/Service/Checkout.java:30-50 | A cart whose only line has expired fails as empty after expiry, with that line's name in the notice and its stock untouched. |
| Scenarios.MergeMovesLineToEnd | src/Cart/Cart.java:27-36 | Adding 1 Apple, 1 Bread, then 2 Apple leaves the lines Bread × 1, Apple × 3. |

## Left out

- Console output is not modelled: the receipt lines, the notice print and `DecimalFormat` rounding (src/Service/Checkout.java:45-47,70-101). The notice and the receipt's figures are returned as values instead.
- Exceptions and their message texts become error values (`AddResult`, `CheckoutError`) that only tell the kinds apart.
- Prices, weights and balances are exact reals, so IEEE double rounding is not modelled. Sums still accumulate in list order.
- The clock is a parameter: `LocalDate.now()` becomes `today`, and dates are day numbers. `plusDays` is integer addition, and `java.sql.Date` is an optional day number.
- `Customer` source is not part of this model. It is modelled as a balance with `Debit`, and no other behaviour is assumed.
- Getters are not modelled as operations (for example `getItems`, `getProduct`, `getQuantity`); the model reads the fields directly. The checkout works on the cart's own `lines` field, which stands for the list alias `getItems` returns.
- Quantities are unbounded integers. The one place where 32-bit wrap-around changes behaviour, the merge sum in `Cart.add`, is modelled and reported under Findings.
- Checkout.CommitStock: the stock subtraction is unbounded rather than 32-bit. It cannot leave the `int` range because each line is covered by its stock.
- Checkout.Process: requires the cart's invariant `Cart.Valid`. The constructor and the modelled `Add` keep that invariant, because `Add` uses the corrected merge `MergedQuantity`. The source's 32-bit merge can build a cart with a negative line quantity (see Findings), which this precondition excludes; what the source's checkout does with such a cart is not modelled. The commit relies on the invariant: two lines never share a product.
- Carts.Cart.Add: follows the corrected, unbounded merge (`MergedQuantity`), so it rejects as exceeding stock the add that the source's 32-bit sum wraps and accepts (see Findings).
- `Process` is split into helper methods (`RemoveExpired`, `VisitLine`, `Settle`, `CommitSurvivors`, `CommitStock`, `ReceiptWeight`). This changes the structure, not the behaviour. The ghost parameters (`lines`, `gone`, `i`, `k`) exist only for the proofs.
- `src/Main.java`, `src/Service/ProductLoader.java`, `src/Service/Inventory.java` and `src/Product/Shippable.java` are not modelled. They hold console I/O, file parsing, display, list lookup by number, and an interface with no behaviour.
- Replacing the cart after a successful checkout happens outside the core, so it is not modelled.

## Findings

| source | as written | input that shows it | evidently intended | confidence | as-written member | corrected member |
|---|---|---|---|---|---|---|
| src/Cart/Cart.java:30-35 | The merged quantity is computed as a 32-bit `int` sum, so it wraps past 2147483647. | Stock 2147483647, a line already holding 2147483647 units, then an add of 1 unit: the sum wraps to -2147483648, passes the `newQty > stock` guard, and the line is replaced by one with quantity -2147483648. | The add is rejected as exceeding stock. | not executed | Carts.MergedQuantityAsWritten (the input is exhibited by Carts.MergeOverflowAdmitsNegativeLine) | Carts.MergedQuantity |
