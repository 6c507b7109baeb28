/** The server cart: one line list per user, changed by the add, update, remove and clear
    handlers and read by get and count; add and update also check the request against a
    read-only catalog of items. */
module CartRoutes {
  import opened Wrappers
  import opened RequestBody
  import opened ItemSchema
  import opened CartLines

  type UserId = string

  /** The catalog as the cart handlers see it: `Item.findById`. */
  type Catalog = map<ItemId, Item>

  /** The error outcomes of the cart handlers. */
  datatype CartError =
    | ValidationFailed(fields: seq<string>)  // 400 with the express-validator error array
    | ItemNotFound                           // 404 "Item not found"
    | InsufficientStock                      // 400 "Insufficient stock"
    | CartNotFound                           // 404 "Cart not found"
    | NotInCart                              // 404 "Item not found in cart"

  /** Every line of a stored cart has a positive quantity, and no item has two lines. */
  predicate WellFormed(lines: seq<Line>) {
    DistinctIds(lines) && forall k :: 0 <= k < |lines| ==> lines[k].quantity >= 1
  }

  // ---------------------------------------------------------------------------
  // The checks that run before a cart is read

  /** The validation chain of POST /add: the fields whose check failed, in declaration order. */
  function AddValidationErrors(itemId: Option<ItemId>, quantity: Param): (r: seq<string>)
    ensures "itemId" in r <==> !NotEmpty(itemId)
    ensures "quantity" in r <==> !IsIntAtLeast(quantity, 1)
    ensures r == [] <==> NotEmpty(itemId) && IsIntAtLeast(quantity, 1)
  {
    Report(NotEmpty(itemId), "itemId") + Report(IsIntAtLeast(quantity, 1), "quantity")
  }

  /** POST /add up to the stock check: validation, then the item lookup, then the stock
      test, which compares the requested quantity alone with the stock. On success it
      yields the catalog item. */
  function CheckAdd(itemId: Option<ItemId>, quantity: Param, catalog: Catalog): (r: Result<Item, CartError>)
    ensures r.Ok? <==>
      NotEmpty(itemId) && IsIntAtLeast(quantity, 1) && itemId.value in catalog
      && catalog[itemId.value].stock >= quantity.n
    ensures r.Ok? ==> r.value == catalog[itemId.value]
    ensures (r.Err? && r.error.ValidationFailed?) <==> !(NotEmpty(itemId) && IsIntAtLeast(quantity, 1))
    ensures r.Err? && r.error.ValidationFailed? ==> r.error.fields == AddValidationErrors(itemId, quantity)
    ensures r == Err(ItemNotFound) <==>
      NotEmpty(itemId) && IsIntAtLeast(quantity, 1) && itemId.value !in catalog
    ensures r == Err(InsufficientStock) <==>
      NotEmpty(itemId) && IsIntAtLeast(quantity, 1) && itemId.value in catalog
      && catalog[itemId.value].stock < quantity.n
    ensures r.Err? ==> r.error.ValidationFailed? || r.error == ItemNotFound || r.error == InsufficientStock
  {
    var errors := AddValidationErrors(itemId, quantity);
    if errors != [] then Err(ValidationFailed(errors))
    else if itemId.value !in catalog then Err(ItemNotFound)
    else if catalog[itemId.value].stock < quantity.n then Err(InsufficientStock)
    else Ok(catalog[itemId.value])
  }

  /** PUT /update/:itemId up to the stock check (the item id comes from the path). */
  function CheckUpdate(itemId: ItemId, quantity: Param, catalog: Catalog): (r: Result<Item, CartError>)
    ensures r.Ok? <==>
      IsIntAtLeast(quantity, 1) && itemId in catalog && catalog[itemId].stock >= quantity.n
    ensures r.Ok? ==> r.value == catalog[itemId]
    ensures r == Err(ValidationFailed(["quantity"])) <==> !IsIntAtLeast(quantity, 1)
    ensures r == Err(ItemNotFound) <==> IsIntAtLeast(quantity, 1) && itemId !in catalog
    ensures r == Err(InsufficientStock) <==>
      IsIntAtLeast(quantity, 1) && itemId in catalog && catalog[itemId].stock < quantity.n
  {
    if !IsIntAtLeast(quantity, 1) then Err(ValidationFailed(["quantity"]))
    else if itemId !in catalog then Err(ItemNotFound)
    else if catalog[itemId].stock < quantity.n then Err(InsufficientStock)
    else Ok(catalog[itemId])
  }

  // ---------------------------------------------------------------------------
  // What a successful handler does to the user's line list

  /** POST /add once the checks passed: the line of the item, if any, grows by `q` and
      takes the current catalog price; otherwise a new line is pushed at the end. */
  function MergeAdd(lines: seq<Line>, id: ItemId, q: int, price: int): (r: seq<Line>)
    ensures |r| == if Contains(lines, id) then |lines| else |lines| + 1
  {
    var i := IndexOf(lines, id);
    if i > -1 then lines[i := lines[i].(quantity := lines[i].quantity + q, price := price)]
    else lines + [Line(id, q, price)]
  }

  /** The merge step of POST /add as the handler runs it: search for the item's line, then
      raise and re-price it in place, or push a new one. */
  method MergeLine(lines: seq<Line>, id: ItemId, q: int, price: int) returns (r: seq<Line>)
    ensures r == MergeAdd(lines, id, q, price)
  {
    r := lines;
    var i := FindIndex(r, id);
    if i > -1 {
      r := r[i := r[i].(quantity := r[i].quantity + q, price := price)];
    } else {
      r := r + [Line(id, q, price)];
    }
  }

  /** PUT /update once the checks passed and the line exists: its quantity becomes `q`
      and its price the current catalog price. */
  function Refresh(lines: seq<Line>, id: ItemId, q: int, price: int): (r: seq<Line>)
    requires Contains(lines, id)
    ensures |r| == |lines|
  {
    var i := IndexOf(lines, id);
    lines[i := lines[i].(quantity := q, price := price)]
  }

  /** Adding keeps one line for the item, holding the old quantity plus `q` at the new price;
      an item that was absent gets its line appended at the end; every other line stays
      where it was, and the count grows by exactly `q`. */
  lemma {:induction false} MergeAddEffect(lines: seq<Line>, id: ItemId, q: int, price: int)
    ensures var r := MergeAdd(lines, id, q, price);
      && LineFor(r, id) == Some(Line(id, QuantityOf(lines, id) + q, price))
      && (forall o :: o != id ==> LineFor(r, o) == LineFor(lines, o))
      && (!Contains(lines, id) ==> r == lines + [Line(id, q, price)])
      && (forall k :: 0 <= k < |lines| && k != IndexOf(lines, id) ==> r[k] == lines[k])
      && SumQuantities(r) == SumQuantities(lines) + q
  {
    var i := IndexOf(lines, id);
    if i > -1 {
      var l := Line(id, lines[i].quantity + q, price);
      assert MergeAdd(lines, id, q, price) == lines[i := l];
      ReplaceFound(lines, l);
    } else {
      var l := Line(id, q, price);
      assert MergeAdd(lines, id, q, price) == lines + [l];
      AppendNew(lines, l);
    }
  }

  /** Adding a positive quantity keeps a stored cart well formed: at most one line per item. */
  lemma {:induction false} MergeAddWellFormed(lines: seq<Line>, id: ItemId, q: int, price: int)
    requires WellFormed(lines) && q >= 1
    ensures WellFormed(MergeAdd(lines, id, q, price))
  {
    var i := IndexOf(lines, id);
    if i > -1 {
      ReplaceFound(lines, Line(id, lines[i].quantity + q, price));
    } else {
      AppendNew(lines, Line(id, q, price));
    }
  }

  /** Updating leaves exactly one line for the item, holding `q` at the new price; every
      other line is unchanged, the count moves by the difference, and a stored cart stays
      well formed. */
  lemma {:induction false} RefreshEffect(lines: seq<Line>, id: ItemId, q: int, price: int)
    requires Contains(lines, id)
    ensures var r := Refresh(lines, id, q, price);
      && LineFor(r, id) == Some(Line(id, q, price))
      && (forall o :: o != id ==> LineFor(r, o) == LineFor(lines, o))
      && (forall k :: 0 <= k < |lines| && k != IndexOf(lines, id) ==> r[k] == lines[k])
      && SumQuantities(r) == SumQuantities(lines) - QuantityOf(lines, id) + q
      && (WellFormed(lines) && q >= 1 ==> WellFormed(r))
  {
    ReplaceFound(lines, Line(id, q, price));
  }

  /** Removing drops every line of the item and keeps the others, in order; the count falls
      by the item's quantity, and a stored cart stays well formed. */
  lemma {:induction false} RemoveEffect(lines: seq<Line>, id: ItemId)
    requires WellFormed(lines)
    ensures var r := RemoveAll(lines, id);
      && LineFor(r, id) == None
      && (forall o :: o != id ==> LineFor(r, o) == LineFor(lines, o))
      && SumQuantities(r) == SumQuantities(lines) - QuantityOf(lines, id)
      && WellFormed(r)
  {
    RemoveAllLookup(lines, id);
    RemoveAllSum(lines, id);
    RemoveAllDistinct(lines, id);
    var r := RemoveAll(lines, id);
    forall k | 0 <= k < |r| ensures r[k].quantity >= 1 {
      assert r[k] in lines;
    }
  }

  /** The stock check looks at the requested quantity only: a cart already holding 3 of an
      item with stock 4 passes the check for 2 more and ends up holding 5. */
  lemma MergedQuantityMayExceedStock()
    ensures var item := Item("Lamp", "A desk lamp", 2500, "Home & Garden", PlaceholderImage, 4, 0, 0);
      var catalog := map["lamp" := item];
      var lines := [Line("lamp", 3, 2500)];
      && CheckAdd(Some("lamp"), Given(2), catalog) == Ok(item)
      && QuantityOf(MergeAdd(lines, "lamp", 2, item.price), "lamp") == 5 > item.stock
  {
    var lines := [Line("lamp", 3, 2500)];
    MergeAddEffect(lines, "lamp", 2, 2500);
    assert IndexOf(lines, "lamp") == 0;
  }

  /** Adding the same item twice to an empty cart gives one line with the summed quantity,
      priced at the second add. */
  lemma {:induction false} AddTwiceMerges(id: ItemId, q1: int, q2: int, p1: int, p2: int)
    ensures MergeAdd(MergeAdd([], id, q1, p1), id, q2, p2) == [Line(id, q1 + q2, p2)]
  {
    var once := MergeAdd([], id, q1, p1);
    assert once == [Line(id, q1, p1)];
    assert IndexOf(once, id) == 0;
  }

  // ---------------------------------------------------------------------------
  // The store

  class CartStore {
    /** The Cart collection: each user's line list, in insertion order. */
    var carts: map<UserId, seq<Line>>

    ghost predicate Valid()
      reads this
    {
      forall u :: u in carts ==> WellFormed(carts[u])
    }

    /** The user's lines, or none when the user has no cart yet. */
    function LinesOf(user: UserId): seq<Line>
      reads this
    {
      if user in carts then carts[user] else []
    }

    constructor ()
      ensures Valid() && carts == map[]
    {
      carts := map[];
    }

    /** GET /: the user's cart, created empty on first access. */
    method GetCart(user: UserId) returns (lines: seq<Line>)
      requires Valid()
      modifies this
      ensures Valid()
      ensures user in old(carts) ==> carts == old(carts)
      ensures user !in old(carts) ==> carts == old(carts)[user := []]
      ensures lines == carts[user] == old(LinesOf(user))
    {
      if user !in carts {
        carts := carts[user := []];
      }
      lines := carts[user];
    }

    /** POST /add. A failed check changes nothing and creates no cart; otherwise the cart is
        found or created and the item merged into it. */
    method Add(user: UserId, itemId: Option<ItemId>, quantity: Param, catalog: Catalog)
      returns (r: Result<seq<Line>, CartError>)
      requires Valid()
      modifies this
      ensures Valid()
      ensures CheckAdd(itemId, quantity, catalog).Err? ==>
        r == Err(CheckAdd(itemId, quantity, catalog).error) && carts == old(carts)
      ensures CheckAdd(itemId, quantity, catalog).Ok? ==>
        && carts == old(carts)[user := MergeAdd(old(LinesOf(user)), itemId.value, quantity.n,
                                                catalog[itemId.value].price)]
        && r == Ok(carts[user])
    {
      var check := CheckAdd(itemId, quantity, catalog);
      if check.Err? {
        return Err(check.error);
      }
      var item := check.value;
      var id, q := itemId.value, quantity.n;
      if user !in carts {
        carts := carts[user := []];
      }
      var before := carts[user];
      assert before == old(LinesOf(user));
      var lines := MergeLine(before, id, q, item.price);
      MergeAddWellFormed(before, id, q, item.price);
      carts := carts[user := lines];
      r := Ok(lines);
    }

    /** PUT /update/:itemId. Checks run in order: validation, item, stock, cart, line;
        a failure changes nothing. */
    method Update(user: UserId, itemId: ItemId, quantity: Param, catalog: Catalog)
      returns (r: Result<seq<Line>, CartError>)
      requires Valid()
      modifies this
      ensures Valid()
      ensures r.Err? ==> carts == old(carts)
      ensures CheckUpdate(itemId, quantity, catalog).Err? ==>
        r == Err(CheckUpdate(itemId, quantity, catalog).error)
      ensures CheckUpdate(itemId, quantity, catalog).Ok? && user !in old(carts) ==>
        r == Err(CartNotFound)
      ensures (CheckUpdate(itemId, quantity, catalog).Ok? && user in old(carts)
               && !Contains(old(carts)[user], itemId)) ==> r == Err(NotInCart)
      ensures (CheckUpdate(itemId, quantity, catalog).Ok? && user in old(carts)
               && Contains(old(carts)[user], itemId)) ==>
        && carts == old(carts)[user := Refresh(old(carts)[user], itemId, quantity.n,
                                               catalog[itemId].price)]
        && r == Ok(carts[user])
    {
      var check := CheckUpdate(itemId, quantity, catalog);
      if check.Err? {
        return Err(check.error);
      }
      var item := check.value;
      if user !in carts {
        return Err(CartNotFound);
      }
      var lines := carts[user];
      var i := FindIndex(lines, itemId);
      if i == -1 {
        return Err(NotInCart);
      }
      lines := lines[i := lines[i].(quantity := quantity.n, price := item.price)];
      RefreshEffect(carts[user], itemId, quantity.n, item.price);
      carts := carts[user := lines];
      r := Ok(lines);
    }

    /** DELETE /remove/:itemId: every line of the item goes, the rest keep their order;
        an item not in the cart is no error, a missing cart is. */
    method Remove(user: UserId, itemId: ItemId) returns (r: Result<seq<Line>, CartError>)
      requires Valid()
      modifies this
      ensures Valid()
      ensures user !in old(carts) ==> r == Err(CartNotFound) && carts == old(carts)
      ensures user in old(carts) ==>
        && carts == old(carts)[user := RemoveAll(old(carts)[user], itemId)]
        && r == Ok(carts[user])
    {
      if user !in carts {
        return Err(CartNotFound);
      }
      RemoveEffect(carts[user], itemId);
      carts := carts[user := RemoveAll(carts[user], itemId)];
      r := Ok(carts[user]);
    }

    /** DELETE /clear: the line list is emptied; a missing cart is an error. */
    method Clear(user: UserId) returns (r: Result<seq<Line>, CartError>)
      requires Valid()
      modifies this
      ensures Valid()
      ensures user !in old(carts) ==> r == Err(CartNotFound) && carts == old(carts)
      ensures user in old(carts) ==> r == Ok([]) && carts == old(carts)[user := []]
    {
      if user !in carts {
        return Err(CartNotFound);
      }
      carts := carts[user := []];
      r := Ok([]);
    }

    /** GET /count: the sum of the line quantities, 0 without a cart; it creates nothing. */
    method Count(user: UserId) returns (n: int)
      requires Valid()
      ensures n == SumQuantities(LinesOf(user))
      ensures n >= |LinesOf(user)|
      ensures user !in carts ==> n == 0
    {
      if user !in carts {
        return 0;
      }
      CountAtLeastLines(carts[user]);
      n := SumQuantities(carts[user]);
    }
  }

  /** With every quantity at least 1, the count is at least the number of lines. */
  lemma {:induction false} CountAtLeastLines(lines: seq<Line>)
    requires WellFormed(lines)
    ensures SumQuantities(lines) >= |lines|
  {
    if |lines| > 0 {
      var t := lines[1..];
      assert WellFormed(t) by {
        forall i, j | 0 <= i < j < |t| ensures t[i].itemId != t[j].itemId {
          assert t[i] == lines[i + 1] && t[j] == lines[j + 1];
        }
        forall k | 0 <= k < |t| ensures t[k].quantity >= 1 {
          assert t[k] == lines[k + 1];
        }
      }
      CountAtLeastLines(t);
    }
  }
}
