/** The browser side of the cart: the provider's `cart` and `cartCount` state, the copy of a
    signed-out visitor's cart kept in local storage, and the signed-out branches of add,
    remove, update and clear, which follow the server's line-matching rules without stock
    checks and with a captured price of 0. */
module CartContext {
  import opened Wrappers
  import opened ItemSchema
  import opened CartLines

  /** The cart object held in state and in local storage. */
  datatype CartDoc = CartDoc(items: seq<Line>, totalAmount: int)

  /** `{ items: [], totalAmount: 0 }`: the initial state, the reset state, and what a missing
      local cart parses as. */
  const EmptyCart: CartDoc := CartDoc([], 0)

  /** The signed-out add: an item already held grows by `q` and keeps its price; a new item
      is pushed with price 0. Nothing is checked. */
  function LocalAdd(items: seq<Line>, id: ItemId, q: int): (r: seq<Line>)
    ensures |r| == if Contains(items, id) then |items| else |items| + 1
  {
    var i := IndexOf(items, id);
    if i > -1 then items[i := items[i].(quantity := items[i].quantity + q)]
    else items + [Line(id, q, 0)]
  }

  /** The signed-out update: the quantity of a held item becomes `q`; otherwise nothing. */
  function LocalUpdate(items: seq<Line>, id: ItemId, q: int): (r: seq<Line>)
    ensures |r| == |items|
  {
    var i := IndexOf(items, id);
    if i > -1 then items[i := items[i].(quantity := q)] else items
  }

  /** A local add leaves one line for the item: the held line with `q` more and its price
      untouched, or a new line `(id, q, 0)` at the end; other lines keep their place, the
      count grows by `q`, and distinct item ids stay distinct. */
  lemma {:induction false} LocalAddEffect(items: seq<Line>, id: ItemId, q: int)
    ensures var r := LocalAdd(items, id, q);
      && (Contains(items, id) ==>
            LineFor(r, id) == Some(Line(id, QuantityOf(items, id) + q, LineFor(items, id).value.price)))
      && (!Contains(items, id) ==> r == items + [Line(id, q, 0)] && LineFor(r, id) == Some(Line(id, q, 0)))
      && (forall o :: o != id ==> LineFor(r, o) == LineFor(items, o))
      && (forall k :: 0 <= k < |items| && k != IndexOf(items, id) ==> r[k] == items[k])
      && SumQuantities(r) == SumQuantities(items) + q
      && (DistinctIds(items) ==> DistinctIds(r))
  {
    var i := IndexOf(items, id);
    if i > -1 {
      var l := items[i].(quantity := items[i].quantity + q);
      assert LocalAdd(items, id, q) == items[i := l];
      ReplaceFound(items, l);
    } else {
      var l := Line(id, q, 0);
      assert LocalAdd(items, id, q) == items + [l];
      AppendNew(items, l);
    }
  }

  /** A local update sets the held line's quantity to `q`, price untouched, and leaves an
      unheld item's cart exactly as it was; other lines are unchanged and the count moves by
      the difference. */
  lemma {:induction false} LocalUpdateEffect(items: seq<Line>, id: ItemId, q: int)
    ensures var r := LocalUpdate(items, id, q);
      && (Contains(items, id) ==>
            LineFor(r, id) == Some(Line(id, q, LineFor(items, id).value.price)))
      && (!Contains(items, id) ==> r == items)
      && (forall o :: o != id ==> LineFor(r, o) == LineFor(items, o))
      && SumQuantities(r) == SumQuantities(items) - QuantityOf(items, id) + (if Contains(items, id) then q else 0)
      && (DistinctIds(items) ==> DistinctIds(r))
  {
    var i := IndexOf(items, id);
    if i > -1 {
      ReplaceFound(items, items[i].(quantity := q));
    }
  }

  /** A local remove drops every line of the item, keeps the others in order, and lowers the
      count by what the item held when item ids are distinct. */
  lemma {:induction false} LocalRemoveEffect(items: seq<Line>, id: ItemId)
    requires DistinctIds(items)
    ensures var r := RemoveAll(items, id);
      && LineFor(r, id) == None
      && (forall o :: o != id ==> LineFor(r, o) == LineFor(items, o))
      && (!Contains(items, id) ==> r == items)
      && SumQuantities(r) == SumQuantities(items) - QuantityOf(items, id)
      && DistinctIds(r)
  {
    RemoveAllLookup(items, id);
    RemoveAllSum(items, id);
    RemoveAllDistinct(items, id);
    if !Contains(items, id) {
      RemoveAllAbsent(items, id);
    }
  }

  class CartProvider {
    /** The `localCart` entry of local storage, None when the key is absent. */
    var stored: Option<CartDoc>
    /** The `cart` state shown to the pages. */
    var cart: CartDoc
    /** The `cartCount` state shown in the navigation bar. */
    var cartCount: int

    /** The badge count always equals the sum of the quantities of the cart in state, and the
        stored local cart holds at most one line per item. */
    ghost predicate Valid()
      reads this
    {
      && cartCount == SumQuantities(cart.items)
      && (stored.Some? ==> DistinctIds(stored.value.items))
    }

    /** The parsed local cart, or the empty one when the key is absent. */
    function LocalCart(): CartDoc
      reads this
    {
      stored.GetOr(EmptyCart)
    }

    /** The provider mounts with an empty cart and a count of 0, over a local cart that
        earlier visits wrote through the operations below. */
    constructor (storage: Option<CartDoc>)
      requires storage.Some? ==> DistinctIds(storage.value.items)
      ensures Valid()
      ensures stored == storage && cart == EmptyCart && cartCount == 0
    {
      stored := storage;
      cart := EmptyCart;
      cartCount := 0;
    }

    /** The signed-out mount effect: a stored cart, if any, becomes the state. */
    method LoadLocal()
      requires Valid()
      modifies this
      ensures Valid()
      ensures stored == old(stored)
      ensures old(stored).Some? ==> cart == old(stored).value
      ensures old(stored).None? ==> cart == old(cart) && cartCount == old(cartCount)
    {
      if stored.Some? {
        cart := stored.value;
        cartCount := SumQuantities(cart.items);
      }
    }

    /** The signed-in branches of load, add, remove and update: the server's reply, if the
        request succeeded, becomes the state and the count is recomputed; a failed request
        changes nothing. */
    method ApplyServerCart(reply: Option<CartDoc>)
      requires Valid()
      modifies this
      ensures Valid()
      ensures stored == old(stored)
      ensures reply.Some? ==> cart == reply.value && cartCount == SumQuantities(reply.value.items)
      ensures reply.None? ==> cart == old(cart) && cartCount == old(cartCount)
    {
      if reply.Some? {
        cart := reply.value;
        cartCount := SumQuantities(cart.items);
      }
    }

    /** `addToCart(itemId, quantity = 1)` signed out. */
    method AddToCart(itemId: ItemId, quantity: int := 1)
      requires Valid()
      modifies this
      ensures Valid()
      ensures cart.items == LocalAdd(old(LocalCart()).items, itemId, quantity)
      ensures cart.totalAmount == old(LocalCart()).totalAmount
      ensures stored == Some(cart)
      ensures cartCount == old(SumQuantities(LocalCart().items)) + quantity
    {
      var local := LocalCart();
      var items := local.items;
      var i := FindIndex(items, itemId);
      if i > -1 {
        items := items[i := items[i].(quantity := items[i].quantity + quantity)];
      } else {
        items := items + [Line(itemId, quantity, 0)];
      }
      LocalAddEffect(local.items, itemId, quantity);
      local := local.(items := items);
      stored := Some(local);
      cart := local;
      cartCount := SumQuantities(local.items);
    }

    /** `removeFromCart(itemId)` signed out. */
    method RemoveFromCart(itemId: ItemId)
      requires Valid()
      modifies this
      ensures Valid()
      ensures cart.items == RemoveAll(old(LocalCart()).items, itemId)
      ensures cart.totalAmount == old(LocalCart()).totalAmount
      ensures stored == Some(cart)
      ensures cartCount == old(SumQuantities(LocalCart().items) - QuantityOf(LocalCart().items, itemId))
    {
      var local := LocalCart();
      LocalRemoveEffect(local.items, itemId);
      local := local.(items := RemoveAll(local.items, itemId));
      stored := Some(local);
      cart := local;
      cartCount := SumQuantities(local.items);
    }

    /** `updateQuantity(itemId, quantity)` signed out. */
    method UpdateQuantity(itemId: ItemId, quantity: int)
      requires Valid()
      modifies this
      ensures Valid()
      ensures cart.items == LocalUpdate(old(LocalCart()).items, itemId, quantity)
      ensures cart.totalAmount == old(LocalCart()).totalAmount
      ensures stored == Some(cart)
      ensures cartCount == old(SumQuantities(LocalCart().items) - QuantityOf(LocalCart().items, itemId))
                           + (if old(Contains(LocalCart().items, itemId)) then quantity else 0)
    {
      var local := LocalCart();
      var items := local.items;
      var i := FindIndex(items, itemId);
      if i > -1 {
        items := items[i := items[i].(quantity := quantity)];
      }
      LocalUpdateEffect(local.items, itemId, quantity);
      local := local.(items := items);
      stored := Some(local);
      cart := local;
      cartCount := SumQuantities(local.items);
    }

    /** `clearCart()`: signed out, the stored cart is removed; signed in, the server clear must
        succeed. Either way the state resets to the empty cart with a count of 0. */
    method ClearCart(signedIn: bool, requestSucceeded: bool)
      requires Valid()
      modifies this
      ensures Valid()
      ensures !signedIn ==> stored == None && cart == EmptyCart && cartCount == 0
      ensures signedIn && requestSucceeded ==>
        stored == old(stored) && cart == EmptyCart && cartCount == 0
      ensures signedIn && !requestSucceeded ==>
        stored == old(stored) && cart == old(cart) && cartCount == old(cartCount)
    {
      if !signedIn {
        stored := None;
        cart := EmptyCart;
        cartCount := 0;
      } else if requestSucceeded {
        cart := EmptyCart;
        cartCount := 0;
      }
    }
  }
}
