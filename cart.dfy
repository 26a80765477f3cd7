/**
 * The cart engine. The cart lives in browser storage under one key and the
 * applied discount code under another; every operation reads the stored cart,
 * changes it and writes the recalculated cart back. Prices are whole rupees,
 * as in the service catalogue.
 */
module CartService {
  import opened Common

  datatype CartItem = CartItem(id: string, serviceId: string, serviceName: string, quantity: int,
                               unitPrice: int, totalPrice: int, billingCycle: string)

  datatype Cart = Cart(items: seq<CartItem>, subtotal: int, discount: int, discountCode: Option<string>,
                       total: int, currency: string)

  /** The cart handed out when nothing usable is stored, and written by `clearCart`. */
  const EmptyCart: Cart := Cart([], 0, 0, None, 0, "INR")

  // ---------------------------------------------------------------------------
  // Catalogue and discount codes

  datatype Service = Service(name: string, price: int, billingCycle: string)

  const Catalogue: map<string, Service> := map[
    "starter" := Service("Starter Plan", 499, "monthly"),
    "business" := Service("Business Plan", 999, "monthly"),
    "enterprise" := Service("Enterprise Plan", 2499, "monthly"),
    "domain-com" := Service(".com Domain", 999, "yearly"),
    "domain-in" := Service(".in Domain", 599, "yearly"),
    "ssl-basic" := Service("Basic SSL", 1999, "yearly"),
    "ssl-wildcard" := Service("Wildcard SSL", 4999, "yearly"),
    "shared-monthly" := Service("Shared Hosting - Monthly", 499, "monthly"),
    "shared-annual" := Service("Shared Hosting - Annual", 4999, "yearly"),
    "vps-monthly" := Service("VPS - Monthly", 1999, "monthly"),
    "vps-annual" := Service("VPS - Annual", 19999, "yearly"),
    "cloud-monthly" := Service("Cloud - Monthly", 9999, "monthly"),
    "cloud-annual" := Service("Cloud - Annual", 99999, "yearly"),
    "wordpress-monthly" := Service("WordPress - Monthly", 999, "monthly"),
    "wordpress-annual" := Service("WordPress - Annual", 9999, "yearly")]

  /** The catalogue entry for a service id: only the catalogue's own entries are services. */
  function ServiceFor(serviceId: string): (r: Option<Service>)
    ensures r.Some? <==> serviceId in Catalogue
    ensures r.Some? ==> r.value.price > 0 && r.value.billingCycle in {"monthly", "yearly"}
  {
    if serviceId in Catalogue then Some(Catalogue[serviceId]) else None
  }

  datatype CodeKind = Percentage | Fixed

  /** A discount code; `expiresAt` is a time in milliseconds since the epoch. */
  datatype DiscountCode = DiscountCode(code: string, kind: CodeKind, value: int, minimumOrder: Option<int>,
                                       expiresAt: Option<int>)

  const DiscountCodes: seq<DiscountCode> := [
    DiscountCode("WELCOME10", Percentage, 10, Some(500), None),
    DiscountCode("FLAT100", Fixed, 100, Some(1000), None),
    DiscountCode("SAVE20", Percentage, 20, Some(2000), None)]

  /** The first code equal to `code` once both are upper-cased. */
  function FindCode(codes: seq<DiscountCode>, code: string): (r: Option<DiscountCode>)
    ensures r.Some? ==> r.value in codes && Upper(r.value.code) == Upper(code)
    ensures r.None? ==> forall k :: 0 <= k < |codes| ==> Upper(codes[k].code) != Upper(code)
  {
    if codes == [] then None
    else if Upper(codes[0].code) == Upper(code) then Some(codes[0])
    else FindCode(codes[1..], code)
  }

  // ---------------------------------------------------------------------------
  // Sums over the items

  /** The two per-item amounts the service adds up. */
  datatype Measure = TotalPrice | Quantity

  function Amount(item: CartItem, m: Measure): int {
    match m
    case TotalPrice => item.totalPrice
    case Quantity => item.quantity
  }

  function Sum(items: seq<CartItem>, m: Measure): int {
    if items == [] then 0 else Amount(items[0], m) + Sum(items[1..], m)
  }

  lemma {:induction false} SumAppend(a: seq<CartItem>, b: seq<CartItem>, m: Measure)
    ensures Sum(a + b, m) == Sum(a, m) + Sum(b, m)
  {
    if a != [] {
      assert (a + b)[1..] == a[1..] + b;
      SumAppend(a[1..], b, m);
    } else {
      assert a + b == b;
    }
  }

  /** Replacing one item changes the sum by the difference of the two amounts. */
  lemma {:induction false} SumUpdate(items: seq<CartItem>, i: nat, x: CartItem, m: Measure)
    requires i < |items|
    ensures Sum(items[i := x], m) == Sum(items, m) - Amount(items[i], m) + Amount(x, m)
  {
    if i > 0 {
      assert items[i := x][1..] == items[1..][i - 1 := x];
      SumUpdate(items[1..], i - 1, x, m);
    } else {
      assert items[i := x][1..] == items[1..];
    }
  }

  lemma {:induction false} SumNonNegative(items: seq<CartItem>, m: Measure)
    requires forall k :: 0 <= k < |items| ==> Amount(items[k], m) >= 0
    ensures Sum(items, m) >= 0
  {
    if items != [] {
      SumNonNegative(items[1..], m);
    }
  }

  /** `recalculateCart`: subtotal from the items, total clamped at zero, everything else kept. */
  function Recalculate(c: Cart): (r: Cart)
    ensures r.items == c.items && r.discount == c.discount && r.discountCode == c.discountCode
    ensures r.currency == c.currency
    ensures r.subtotal == Sum(c.items, TotalPrice)
    ensures r.total >= 0 && r.total >= r.subtotal - r.discount
    ensures r.total == 0 || r.total == r.subtotal - r.discount
  {
    var subtotal := Sum(c.items, TotalPrice);
    c.(subtotal := subtotal, total := Max(0, subtotal - c.discount))
  }

  // ---------------------------------------------------------------------------
  // Item operations as functions of the stored cart

  /** What a search over the items compares: the service id (`addToCart`) or the item id. */
  datatype Key = ServiceKey(serviceId: string) | ItemKey(id: string)

  predicate Matches(item: CartItem, key: Key) {
    match key
    case ServiceKey(s) => item.serviceId == s
    case ItemKey(id) => item.id == id
  }

  /** `findIndex`: the first matching position, or -1. */
  function FirstMatch(items: seq<CartItem>, key: Key): (r: int)
    ensures -1 <= r < |items|
    ensures r >= 0 ==> Matches(items[r], key)
    ensures forall j :: 0 <= j < |items| && (r < 0 || j < r) ==> !Matches(items[j], key)
  {
    if items == [] then -1
    else if Matches(items[0], key) then 0
    else
      var k := FirstMatch(items[1..], key);
      if k < 0 then -1 else k + 1
  }

  /** The line added for a service not yet in the cart, priced from its catalogue entry. */
  function NewItem(id: string, serviceId: string, s: Service, quantity: int): CartItem {
    CartItem(id, serviceId, s.name, quantity, s.price, s.price * quantity, s.billingCycle)
  }

  function WithQuantity(item: CartItem, quantity: int): CartItem {
    item.(quantity := quantity, totalPrice := item.unitPrice * quantity)
  }

  /** `addToCart` for a catalogue service: merge into its existing line, or append a new line. */
  function Added(c: Cart, serviceId: string, quantity: int, s: Service, newId: string): (r: Cart)
    ensures (forall k :: 0 <= k < |c.items| ==> c.items[k].serviceId != serviceId) <==> |r.items| == |c.items| + 1
    ensures |r.items| == |c.items| || |r.items| == |c.items| + 1
    ensures r.discount == c.discount && r.discountCode == c.discountCode && r.currency == c.currency
  {
    var i := FirstMatch(c.items, ServiceKey(serviceId));
    var items := if i >= 0 then c.items[i := WithQuantity(c.items[i], c.items[i].quantity + quantity)]
                 else c.items + [NewItem(newId, serviceId, s, quantity)];
    Recalculate(c.(items := items))
  }

  /** The items whose id differs from `id`, in their original order. */
  function Without(items: seq<CartItem>, id: string): (r: seq<CartItem>)
    ensures |r| <= |items|
    ensures forall x :: x in r <==> x in items && x.id != id
  {
    if items == [] then []
    else if items[0].id == id then Without(items[1..], id)
    else [items[0]] + Without(items[1..], id)
  }

  /** `removeFromCart`. */
  function Removed(c: Cart, id: string): Cart {
    Recalculate(c.(items := Without(c.items, id)))
  }

  /** `updateCartItemQuantity`: a non-positive quantity on a present item removes it. */
  function QuantityUpdated(c: Cart, id: string, quantity: int): Cart {
    var i := FirstMatch(c.items, ItemKey(id));
    if i >= 0 && quantity <= 0 then Removed(c, id)
    else Recalculate(c.(items := if i >= 0 then c.items[i := WithQuantity(c.items[i], quantity)] else c.items))
  }

  /** `removeDiscountCode`. */
  function DiscountRemoved(c: Cart): Cart {
    Recalculate(c.(discount := 0, discountCode := None))
  }

  /** `getCartItemCount`. */
  function ItemCount(c: Cart): (n: int)
    ensures c.items == [] ==> n == 0
    ensures (forall k :: 0 <= k < |c.items| ==> c.items[k].quantity >= 0) ==> n >= 0
  {
    if forall k :: 0 <= k < |c.items| ==> Amount(c.items[k], Quantity) >= 0 then
      SumNonNegative(c.items, Quantity);
      Sum(c.items, Quantity)
    else
      Sum(c.items, Quantity)
  }

  // ---------------------------------------------------------------------------
  // Discount codes

  /** The discount a code is worth on a subtotal; a percentage is rounded half up. */
  function DiscountAmount(dc: DiscountCode, subtotal: int): (d: int)
    ensures dc.kind == Fixed ==> d == dc.value
    ensures dc.kind == Percentage ==> 2 * (subtotal * dc.value) - 100 < 200 * d <= 2 * (subtotal * dc.value) + 100
  {
    match dc.kind
    case Percentage => RoundDiv(subtotal * dc.value, 100)
    case Fixed => dc.value
  }

  /** `discountCode.minimumOrder && cart.subtotal < discountCode.minimumOrder`: 0 means no minimum. */
  predicate BelowMinimum(dc: DiscountCode, subtotal: int) {
    dc.minimumOrder.Some? && dc.minimumOrder.value != 0 && subtotal < dc.minimumOrder.value
  }

  predicate Expired(dc: DiscountCode, now: int) {
    dc.expiresAt.Some? && dc.expiresAt.value < now
  }

  datatype DiscountResult = DiscountResult(success: bool, cart: Cart, message: string)

  /** `applyDiscountCode` at time `now`, on the stored cart. */
  function CodeApplied(c: Cart, code: string, now: int): (r: DiscountResult)
    ensures FindCode(DiscountCodes, code).None? ==> !r.success
    ensures !r.success ==> r.cart == c
    ensures r.success ==> r.cart.items == c.items && r.cart.currency == c.currency && r.cart.discountCode.Some?
  {
    match FindCode(DiscountCodes, code)
    case None => DiscountResult(false, c, "Invalid discount code")
    case Some(dc) =>
      if BelowMinimum(dc, c.subtotal) then
        DiscountResult(false, c, "Minimum order of \U{20B9}" + IntToString(dc.minimumOrder.value) + " required")
      else if Expired(dc, now) then DiscountResult(false, c, "Discount code has expired")
      else
        var d := DiscountAmount(dc, c.subtotal);
        DiscountResult(true, Recalculate(c.(discount := d, discountCode := Some(dc.code))),
                       "Discount of \U{20B9}" + IntToString(d) + " applied!")
  }

  datatype Totals = Totals(subtotal: int, discount: int, total: int)

  // ---------------------------------------------------------------------------
  // The stored cart

  /** What the cart key of browser storage holds: nothing, text that is not a cart, or a saved cart. */
  datatype Slot = Vacant | Unparsable | Saved(cart: Cart)

  /** `getCartFromStorage`: the saved cart, or the empty INR cart. */
  function Load(slot: Slot): (c: Cart)
    ensures !slot.Saved? ==> c == EmptyCart
  {
    if slot.Saved? then slot.cart else EmptyCart
  }

  class CartStore {
    /** The cart key of browser storage. */
    var cartSlot: Slot
    /** The discount key of browser storage. */
    var discountSlot: Option<string>

    constructor (cartSlot: Slot, discountSlot: Option<string>)
      ensures this.cartSlot == cartSlot && this.discountSlot == discountSlot
    {
      this.cartSlot := cartSlot;
      this.discountSlot := discountSlot;
    }

    /** `getCart`. */
    function Current(): Cart
      reads this
    {
      Load(cartSlot)
    }

    /** `addToCart`; `newId` is the generated line id. An unknown service throws and saves nothing. */
    method AddToCart(serviceId: string, quantity: int, newId: string) returns (r: Result<Cart, string>)
      modifies this
      ensures serviceId !in Catalogue ==> r == Err("Service not found: " + serviceId) && cartSlot == old(cartSlot)
      ensures serviceId in Catalogue ==>
        r == Ok(Added(old(Current()), serviceId, quantity, Catalogue[serviceId], newId)) && cartSlot == Saved(r.value)
      ensures discountSlot == old(discountSlot)
    {
      var cart := Current();
      var service := ServiceFor(serviceId);
      if service.None? {
        return Err("Service not found: " + serviceId);
      }
      var i := FirstMatch(cart.items, ServiceKey(serviceId));
      if i >= 0 {
        var item := cart.items[i];
        cart := cart.(items := cart.items[i := WithQuantity(item, item.quantity + quantity)]);
      } else {
        cart := cart.(items := cart.items + [NewItem(newId, serviceId, service.value, quantity)]);
      }
      var updated := Recalculate(cart);
      cartSlot := Saved(updated);
      r := Ok(updated);
    }

    /** `removeFromCart`. */
    method RemoveFromCart(id: string) returns (c: Cart)
      modifies this
      ensures c == Removed(old(Current()), id) && cartSlot == Saved(c)
      ensures discountSlot == old(discountSlot)
    {
      var cart := Current();
      cart := cart.(items := Without(cart.items, id));
      c := Recalculate(cart);
      cartSlot := Saved(c);
    }

    /** `updateCartItemQuantity`. */
    method UpdateCartItemQuantity(id: string, quantity: int) returns (c: Cart)
      modifies this
      ensures c == QuantityUpdated(old(Current()), id, quantity) && cartSlot == Saved(c)
      ensures discountSlot == old(discountSlot)
    {
      var cart := Current();
      var i := FirstMatch(cart.items, ItemKey(id));
      if i >= 0 {
        if quantity <= 0 {
          c := RemoveFromCart(id);
          return;
        }
        cart := cart.(items := cart.items[i := WithQuantity(cart.items[i], quantity)]);
      }
      c := Recalculate(cart);
      cartSlot := Saved(c);
    }

    /** `clearCart`: saves the empty cart and forgets the discount code. */
    method ClearCart() returns (c: Cart)
      modifies this
      ensures c == EmptyCart && cartSlot == Saved(EmptyCart) && discountSlot == None
    {
      c := EmptyCart;
      cartSlot := Saved(c);
      discountSlot := None;
    }

    /** `applyDiscountCode`; a refused code saves nothing. */
    method ApplyDiscountCode(code: string, now: int) returns (r: DiscountResult)
      modifies this
      ensures r == CodeApplied(old(Current()), code, now)
      ensures r.success ==> cartSlot == Saved(r.cart) && discountSlot == r.cart.discountCode
      ensures !r.success ==> cartSlot == old(cartSlot) && discountSlot == old(discountSlot)
    {
      var cart := Current();
      var found := FindCode(DiscountCodes, code);
      if found.None? {
        return DiscountResult(false, cart, "Invalid discount code");
      }
      var dc := found.value;
      if BelowMinimum(dc, cart.subtotal) {
        return DiscountResult(false, cart, "Minimum order of \U{20B9}" + IntToString(dc.minimumOrder.value) + " required");
      }
      if Expired(dc, now) {
        return DiscountResult(false, cart, "Discount code has expired");
      }
      var discount := DiscountAmount(dc, cart.subtotal);
      cart := cart.(discount := discount, discountCode := Some(dc.code));
      var updated := Recalculate(cart);
      cartSlot := Saved(updated);
      discountSlot := Some(dc.code);
      r := DiscountResult(true, updated, "Discount of \U{20B9}" + IntToString(discount) + " applied!");
    }

    /** `removeDiscountCode`. */
    method RemoveDiscountCode() returns (c: Cart)
      modifies this
      ensures c == DiscountRemoved(old(Current())) && cartSlot == Saved(c) && discountSlot == None
    {
      var cart := Current();
      cart := cart.(discount := 0, discountCode := None);
      c := Recalculate(cart);
      cartSlot := Saved(c);
      discountSlot := None;
    }

    /** `getCartItemCount`: reads only. */
    method GetCartItemCount() returns (n: int)
      ensures n == ItemCount(Current())
    {
      var cart := Current();
      n := Sum(cart.items, Quantity);
    }

    /**
     * `calculateCartTotal`: a coupon is tried only when the stored cart has no code yet; the
     * amounts are then read back from storage.
     */
    method CalculateCartTotal(coupon: Option<string>, now: int) returns (t: Totals)
      modifies this
      ensures var c := old(Current());
        var after := if Truthy(coupon) && !Truthy(c.discountCode) && CodeApplied(c, coupon.value, now).success
                     then CodeApplied(c, coupon.value, now).cart else c;
        t == Totals(after.subtotal, after.discount, after.total) && Current() == after
    ensures var c := old(Current());
      var applied := Truthy(coupon) && !Truthy(c.discountCode) && CodeApplied(c, coupon.value, now).success;
      && (applied ==> cartSlot == Saved(CodeApplied(c, coupon.value, now).cart)
                      && discountSlot == CodeApplied(c, coupon.value, now).cart.discountCode)
      && (!applied ==> cartSlot == old(cartSlot) && discountSlot == old(discountSlot))
    {
      var cart := Current();
      if Truthy(coupon) && !Truthy(cart.discountCode) {
        var _ := ApplyDiscountCode(coupon.value, now);
        var updated := Current();
        return Totals(updated.subtotal, updated.discount, updated.total);
      }
      t := Totals(cart.subtotal, cart.discount, cart.total);
    }
  }

  // ---------------------------------------------------------------------------
  // Properties

  /** Every line's total is its unit price times its quantity. */
  predicate PricesConsistent(items: seq<CartItem>) {
    forall k :: 0 <= k < |items| ==> items[k].totalPrice == items[k].unitPrice * items[k].quantity
  }

  /** No two lines are for the same service. */
  predicate ServicesUnique(items: seq<CartItem>) {
    forall i, j :: 0 <= i < j < |items| ==> items[i].serviceId != items[j].serviceId
  }

  /**
   * Adding a service already in the cart grows that line and keeps the number of lines;
   * adding a new one appends exactly one line priced from the catalogue.
   * The discount, the code and the currency are never touched.
   */
  lemma AddMergesOrAppends(c: Cart, serviceId: string, quantity: int, newId: string)
    requires serviceId in Catalogue
    ensures var s := Catalogue[serviceId];
      var r := Added(c, serviceId, quantity, s, newId);
      var i := FirstMatch(c.items, ServiceKey(serviceId));
      && r.discount == c.discount && r.discountCode == c.discountCode && r.currency == c.currency
      && (i >= 0 ==>
            && |r.items| == |c.items|
            && r.items[i].quantity == c.items[i].quantity + quantity
            && r.items[i].totalPrice == r.items[i].unitPrice * r.items[i].quantity
            && r.items[i].unitPrice == c.items[i].unitPrice
            && (forall j :: 0 <= j < |c.items| && j != i ==> r.items[j] == c.items[j]))
      && (i < 0 ==>
            && r.items[..|c.items|] == c.items
            && r.items == c.items + [CartItem(newId, serviceId, s.name, quantity, s.price, s.price * quantity, s.billingCycle)])
  {
    var r := Added(c, serviceId, quantity, Catalogue[serviceId], newId);
    if FirstMatch(c.items, ServiceKey(serviceId)) < 0 {
      assert r.items[..|c.items|] == c.items;
    }
  }

  /** Adding never creates a second line for a service. */
  lemma AddKeepsServicesUnique(c: Cart, serviceId: string, quantity: int, s: Service, newId: string)
    requires ServicesUnique(c.items)
    ensures ServicesUnique(Added(c, serviceId, quantity, s, newId).items)
  {
    var i := FirstMatch(c.items, ServiceKey(serviceId));
    var items := Added(c, serviceId, quantity, s, newId).items;
    if i < 0 {
      forall a, b | 0 <= a < b < |items|
        ensures items[a].serviceId != items[b].serviceId
      {
        if b == |c.items| {
          assert !Matches(c.items[a], ServiceKey(serviceId));
        }
      }
    }
  }

  /** Adding `quantity` of a service raises the item count by exactly `quantity`. */
  lemma AddCountsQuantity(c: Cart, serviceId: string, quantity: int, s: Service, newId: string)
    ensures ItemCount(Added(c, serviceId, quantity, s, newId)) == ItemCount(c) + quantity
  {
    var i := FirstMatch(c.items, ServiceKey(serviceId));
    if i >= 0 {
      SumUpdate(c.items, i, WithQuantity(c.items[i], c.items[i].quantity + quantity), Quantity);
    } else {
      var x := NewItem(newId, serviceId, s, quantity);
      SumAppend(c.items, [x], Quantity);
      assert Sum([x], Quantity) == quantity;
    }
  }

  /**
   * When every line is priced consistently, adding raises the subtotal by the line's unit price
   * (the catalogue price for a new line) times the quantity added, and keeps the prices consistent.
   */
  lemma AddRaisesSubtotal(c: Cart, serviceId: string, quantity: int, s: Service, newId: string)
    requires PricesConsistent(c.items)
    ensures var r := Added(c, serviceId, quantity, s, newId);
      var i := FirstMatch(c.items, ServiceKey(serviceId));
      var unit := if i >= 0 then c.items[i].unitPrice else s.price;
      && r.subtotal == Sum(c.items, TotalPrice) + unit * quantity
      && PricesConsistent(r.items)
  {
    var i := FirstMatch(c.items, ServiceKey(serviceId));
    if i >= 0 {
      var it := c.items[i];
      var x := WithQuantity(it, it.quantity + quantity);
      SumUpdate(c.items, i, x, TotalPrice);
      assert x.totalPrice - it.totalPrice == it.unitPrice * quantity by {
        assert it.unitPrice * (it.quantity + quantity) == it.unitPrice * it.quantity + it.unitPrice * quantity;
      }
    } else {
      var x := NewItem(newId, serviceId, s, quantity);
      SumAppend(c.items, [x], TotalPrice);
      assert Sum([x], TotalPrice) == s.price * quantity;
    }
  }

  /** Removal is a filter: it distributes over concatenation, so the kept lines keep their order. */
  lemma {:induction false} WithoutAppend(a: seq<CartItem>, b: seq<CartItem>, id: string)
    ensures Without(a + b, id) == Without(a, id) + Without(b, id)
  {
    if a != [] {
      assert (a + b)[1..] == a[1..] + b;
      WithoutAppend(a[1..], b, id);
    } else {
      assert a + b == b;
    }
  }

  /** Removing an id that no line carries leaves the lines as they were. */
  lemma {:induction false} WithoutAbsent(items: seq<CartItem>, id: string)
    requires forall k :: 0 <= k < |items| ==> items[k].id != id
    ensures Without(items, id) == items
  {
    if items != [] {
      WithoutAbsent(items[1..], id);
      assert [items[0]] + items[1..] == items;
    }
  }

  /** Removing lines keeps each remaining line's price consistent and never adds a service twice. */
  lemma {:induction false} WithoutKeepsInvariants(items: seq<CartItem>, id: string)
    requires PricesConsistent(items) && ServicesUnique(items)
    ensures PricesConsistent(Without(items, id)) && ServicesUnique(Without(items, id))
  {
    if items != [] {
      WithoutKeepsInvariants(items[1..], id);
      var rest := Without(items[1..], id);
      if items[0].id != id {
        var r := [items[0]] + rest;
        forall a, b | 0 <= a < b < |r|
          ensures r[a].serviceId != r[b].serviceId
        {
          if a == 0 {
            assert r[b] in items[1..];
          }
        }
      }
    }
  }

  /** Removal keeps the discount, the code and the currency, and recomputes the total. */
  lemma RemoveKeepsDiscount(c: Cart, id: string)
    ensures var r := Removed(c, id);
      && r.discount == c.discount && r.discountCode == c.discountCode && r.currency == c.currency
      && (forall k :: 0 <= k < |r.items| ==> r.items[k].id != id)
      && r.total == Max(0, Sum(r.items, TotalPrice) - c.discount)
  {
  }

  /** Setting a quantity of zero or less is exactly `removeFromCart`, whether or not the id is present. */
  lemma UpdateNonPositiveRemoves(c: Cart, id: string, quantity: int)
    requires quantity <= 0
    ensures QuantityUpdated(c, id, quantity) == Removed(c, id)
  {
    if FirstMatch(c.items, ItemKey(id)) < 0 {
      WithoutAbsent(c.items, id);
    }
  }

  /**
   * A positive quantity replaces the first line with that id's quantity and total and keeps the
   * others; an unknown id leaves the lines unchanged.
   */
  lemma UpdateSetsQuantity(c: Cart, id: string, quantity: int)
    requires quantity > 0
    ensures var r := QuantityUpdated(c, id, quantity);
      var i := FirstMatch(c.items, ItemKey(id));
      && |r.items| == |c.items|
      && r.discount == c.discount && r.discountCode == c.discountCode
      && (i < 0 ==> r.items == c.items)
      && (i >= 0 ==> r.items[i].quantity == quantity && r.items[i].totalPrice == c.items[i].unitPrice * quantity
                     && (forall j :: 0 <= j < |c.items| && j != i ==> r.items[j] == c.items[j]))
      && (PricesConsistent(c.items) ==> PricesConsistent(r.items))
      && (ServicesUnique(c.items) ==> ServicesUnique(r.items))
  {
  }

  /** Codes match without regard to letter case; a refused code leaves the cart as it was. */
  lemma CodeMatchIgnoresCase(c: Cart, code: string, now: int)
    ensures CodeApplied(c, Upper(code), now) == CodeApplied(c, code, now)
    ensures CodeApplied(c, Lower(code), now) == CodeApplied(c, code, now)
    ensures !CodeApplied(c, code, now).success ==> CodeApplied(c, code, now).cart == c
  {
    UpperIdempotent(code);
    UpperLower(code);
    FindCodeCongruent(DiscountCodes, Upper(code), code);
    FindCodeCongruent(DiscountCodes, Lower(code), code);
  }

  lemma {:induction false} FindCodeCongruent(codes: seq<DiscountCode>, a: string, b: string)
    requires Upper(a) == Upper(b)
    ensures FindCode(codes, a) == FindCode(codes, b)
  {
    if codes != [] {
      FindCodeCongruent(codes[1..], a, b);
    }
  }

  /**
   * A code is accepted exactly when it is known, the stored subtotal meets its minimum and it has
   * not expired; the cart then carries the code's canonical spelling and its discount, and keeps
   * its lines, subtotal bookkeeping and non-negative total.
   */
  lemma ApplyAcceptsExactly(c: Cart, code: string, now: int)
    ensures var r := CodeApplied(c, code, now);
      var f := FindCode(DiscountCodes, code);
      && (r.success <==> f.Some? && !BelowMinimum(f.value, c.subtotal) && !Expired(f.value, now))
      && (r.success ==>
            && r.cart.items == c.items && r.cart.currency == c.currency
            && r.cart.discountCode == Some(f.value.code)
            && r.cart.discount == DiscountAmount(f.value, c.subtotal)
            && r.cart.subtotal == Sum(c.items, TotalPrice)
            && r.cart.total >= 0)
  {
  }

  /** A percentage of at most 100 off a non-negative subtotal is between zero and the subtotal. */
  lemma PercentageWithinSubtotal(dc: DiscountCode, subtotal: int)
    requires dc.kind == Percentage && 0 <= dc.value <= 100 && subtotal >= 0
    ensures 0 <= DiscountAmount(dc, subtotal) <= subtotal
  {
    var r := DiscountAmount(dc, subtotal);
    var p := subtotal * dc.value;
    ProductBounds(subtotal, dc.value);
    RoundedWithin(p, r, subtotal);
  }

  lemma ProductBounds(s: int, v: int)
    requires s >= 0 && 0 <= v <= 100
    ensures 0 <= s * v <= s * 100
  {
  }

  /** Linear step: a half-up rounding of p / 100 with 0 <= p <= 100 * s lies in [0, s]. */
  lemma RoundedWithin(p: int, r: int, s: int)
    requires 0 <= p <= s * 100
    requires 2 * p - 100 < 200 * r <= 2 * p + 100
    ensures 0 <= r <= s
  {
  }

  /** Every shipped code is a percentage of at most 100 or a positive fixed amount, and none expires. */
  lemma ShippedCodesWellFormed(now: int)
    ensures forall k :: 0 <= k < |DiscountCodes| ==>
      && 0 < DiscountCodes[k].value
      && (DiscountCodes[k].kind == Percentage ==> DiscountCodes[k].value <= 100)
      && !Expired(DiscountCodes[k], now)
  {
  }

  /** Removing the discount makes the total the subtotal when no line total is negative. */
  lemma RemoveDiscountRestoresSubtotal(c: Cart)
    requires forall k :: 0 <= k < |c.items| ==> c.items[k].totalPrice >= 0
    ensures var r := DiscountRemoved(c);
      r.discount == 0 && r.discountCode == None && r.total == r.subtotal && r.items == c.items
  {
    SumNonNegative(c.items, TotalPrice);
  }

  /** The empty cart has no lines and every amount zero; nothing stored reads as that cart. */
  lemma EmptyCartIsEmpty()
    ensures EmptyCart.items == [] && ItemCount(EmptyCart) == 0 && Recalculate(EmptyCart) == EmptyCart
    ensures Load(Vacant) == EmptyCart && Load(Unparsable) == EmptyCart
  {
  }

  // ---------------------------------------------------------------------------
  // The catalogue lookup as written: `mockServices[serviceId]` on a plain object

  /** The names every plain JavaScript object inherits from `Object.prototype`. */
  const InheritedKeys: set<string> := {
    "constructor", "__proto__", "toString", "toLocaleString", "valueOf", "hasOwnProperty",
    "isPrototypeOf", "propertyIsEnumerable", "__defineGetter__", "__defineSetter__",
    "__lookupGetter__", "__lookupSetter__"}

  /** What a property read on the catalogue object yields. */
  datatype Lookup = Own(service: Service) | InheritedMember(name: string) | Undefined

  /** The lookup as written: inherited members are found too. */
  function CatalogueLookupAsWritten(serviceId: string): (r: Lookup)
    ensures r.Own? <==> serviceId in Catalogue
  {
    if serviceId in Catalogue then Own(Catalogue[serviceId])
    else if serviceId in InheritedKeys then InheritedMember(serviceId)
    else Undefined
  }

  /** `if (!service)`: only `undefined` is refused; a function or an object is truthy. */
  predicate PassesServiceGuard(r: Lookup) {
    !r.Undefined?
  }

  /** "constructor" is not a service, yet the guard as written lets it through. */
  lemma InheritedKeyPassesGuard()
    ensures "constructor" !in Catalogue
    ensures PassesServiceGuard(CatalogueLookupAsWritten("constructor"))
    ensures ServiceFor("constructor") == None
  {
  }

  /** With the own-entry lookup the guard admits a service id exactly when it is catalogued. */
  lemma OwnLookupGuardExact(serviceId: string)
    ensures ServiceFor(serviceId).Some? <==> PassesServiceGuard(CatalogueLookupAsWritten(serviceId)) && serviceId !in InheritedKeys
  {
    assert forall k :: k in InheritedKeys ==> k !in Catalogue;
  }
}
