/**
  The stock-keeping record of the simulator (src/Product/Product.java).

  Prices and weights are exact reals (the source uses doubles), weights are
  in kilograms, and calendar dates are day numbers so that "today" can be
  passed in instead of read from the clock.
 */
module Products {

  datatype Option<T> = None | Some(value: T)

  /** Whether a product can go out of date at all. */
  datatype IsExpire = MayExpire | MayNotExpire

  /** Whether a product is physically shipped to the customer. */
  datatype RequireShipping = NeedsShipping | DoesNotNeedShipping

  /** The weight the constructor stores: the given one for shipped goods, zero otherwise. */
  function StoredWeight(requireShipping: RequireShipping, weightKg: real): (w: real)
    ensures requireShipping == NeedsShipping ==> w == weightKg
    ensures requireShipping == DoesNotNeedShipping ==> w == 0.0
    ensures w != 0.0 ==> requireShipping == NeedsShipping
  {
    if requireShipping == NeedsShipping then weightKg else 0.0
  }

  class Product {
    const name: string
    const price: real
    var quantity: int
    const isExpire: IsExpire
    const requireShipping: RequireShipping
    const weight: real
    var productionDate: Option<int>
    var expirationDays: Option<int>

    constructor (name: string, price: real, quantity: int,
                 isExpire: IsExpire, requireShipping: RequireShipping, weightKg: real)
      ensures this.name == name && this.price == price && this.quantity == quantity
      ensures this.isExpire == isExpire && this.requireShipping == requireShipping
      ensures weight == StoredWeight(requireShipping, weightKg)
      ensures !IsShippable() ==> weight == 0.0
      ensures productionDate == None && expirationDays == None
    {
      this.name := name;
      this.price := price;
      this.quantity := quantity;
      this.isExpire := isExpire;
      this.requireShipping := requireShipping;
      this.weight := StoredWeight(requireShipping, weightKg);
      this.productionDate := None;
      this.expirationDays := None;
    }

    predicate IsShippable()
      ensures IsShippable() <==> requireShipping == NeedsShipping
    {
      requireShipping == NeedsShipping
    }

    /** Absent dates leave the stored production date as it was. */
    method SetProductionDate(date: Option<int>)
      modifies this`productionDate
      ensures productionDate == if date.Some? then date else old(productionDate)
    {
      if date.Some? {
        productionDate := date;
      }
    }

    method SetExpirationDays(days: Option<int>)
      modifies this`expirationDays
      ensures expirationDays == days
    {
      expirationDays := days;
    }

    /**
      Expired means the last good day (production date plus shelf life) lies
      strictly before today; products that may not expire, or that lack
      either date field, never expire.
     */
    predicate HasExpired(today: int)
      reads this
      ensures isExpire == MayNotExpire || productionDate.None? || expirationDays.None? ==> !HasExpired(today)
      ensures isExpire == MayExpire && productionDate.Some? && expirationDays.Some? ==>
                (HasExpired(today) <==> productionDate.value + expirationDays.value < today)
    {
      if isExpire == MayNotExpire || productionDate.None? || expirationDays.None? then
        false
      else
        var expiryDate := productionDate.value + expirationDays.value;
        expiryDate < today
    }

    /** The only stock mutator. */
    method SetQuantity(newQty: int)
      modifies this`quantity
      ensures quantity == newQty
    {
      quantity := newQty;
    }

    function TotalPrice(qty: int): (r: real)
      ensures qty == 0 ==> r == 0.0
      ensures price >= 0.0 && qty >= 0 ==> r >= 0.0
      ensures r == price * qty as real
    {
      price * qty as real
    }
  }

  /** Once expired, a product stays expired on every later day. */
  lemma ExpiryIsPermanent(p: Product, day: int, later: int)
    requires day <= later && p.HasExpired(day)
    ensures p.HasExpired(later)
  {
  }

  /** A product whose last good day is today has not expired yet. */
  lemma NotExpiredOnLastGoodDay(p: Product, today: int)
    requires p.productionDate.Some? && p.expirationDays.Some?
    requires p.productionDate.value + p.expirationDays.value == today
    ensures !p.HasExpired(today)
  {
  }
}
