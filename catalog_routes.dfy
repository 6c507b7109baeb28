/** The catalog handlers: the listing query (filter, sort key, pagination) and the item
    create, read, update and delete routes over the Item collection. */
module CatalogRoutes {
  import opened Wrappers
  import opened RequestBody
  import opened ItemSchema

  // ---------------------------------------------------------------------------
  // GET /: the listing query

  /** The query string. `category`, `minPrice`, `maxPrice`, `search` and `sort` are None
      when absent or empty, which the handler treats alike; `page` and `limit` are None only
      when absent, the case their defaults cover. Numbers arrive already parsed (prices in
      cents). */
  datatype ItemQuery = ItemQuery(
    category: Option<string>,
    minPrice: Option<int>,
    maxPrice: Option<int>,
    search: Option<string>,
    sort: Option<string>,
    page: Option<int>,
    limit: Option<int>)

  const DefaultPage: int := 1
  const DefaultLimit: int := 10

  /** The `price` condition: `$gte` and `$lte`, each only when set. */
  datatype PriceBounds = PriceBounds(gte: Option<int>, lte: Option<int>)

  /** The filter object handed to `Item.find` and `Item.countDocuments`; `search` stands for
      the `$or` of two case-insensitive patterns over name and description. */
  datatype Filter = Filter(category: Option<string>, price: Option<PriceBounds>, search: Option<string>)

  /** How the query engine reads a filter's category and price conditions. */
  predicate Matches(f: Filter, it: Item) {
    && (f.category.Some? ==> it.category == f.category.value)
    && (f.price.Some? ==>
          && (f.price.value.gte.Some? ==> it.price >= f.price.value.gte.value)
          && (f.price.value.lte.Some? ==> it.price <= f.price.value.lte.value))
  }

  /** What the listing promises about category and price: the chosen category unless none
      or 'all' was chosen, and a price within whichever bounds were given. */
  predicate Selects(q: ItemQuery, it: Item) {
    && (NotEmpty(q.category) && q.category.value != "all" ==> it.category == q.category.value)
    && (q.minPrice.Some? ==> it.price >= q.minPrice.value)
    && (q.maxPrice.Some? ==> it.price <= q.maxPrice.value)
  }

  /** The filter is built by conditional assignment of its fields. */
  method BuildFilter(q: ItemQuery) returns (f: Filter)
    ensures forall it :: Matches(f, it) <==> Selects(q, it)
    ensures f.category.Some? <==> NotEmpty(q.category) && q.category.value != "all"
    ensures f.category.Some? ==> f.category == q.category
    ensures f.price.None? <==> q.minPrice.None? && q.maxPrice.None?
    ensures f.price.Some? ==> f.price.value == PriceBounds(q.minPrice, q.maxPrice)
    ensures f.search == if NotEmpty(q.search) then q.search else None
  {
    f := Filter(None, None, None);
    if NotEmpty(q.category) && q.category.value != "all" {
      f := f.(category := q.category);
    }
    if q.minPrice.Some? || q.maxPrice.Some? {
      var bounds := PriceBounds(None, None);
      if q.minPrice.Some? {
        bounds := bounds.(gte := q.minPrice);
      }
      if q.maxPrice.Some? {
        bounds := bounds.(lte := q.maxPrice);
      }
      f := f.(price := Some(bounds));
    }
    if NotEmpty(q.search) {
      f := f.(search := q.search);
    }
  }

  datatype SortField = ByPrice | ByName | ByRating | ByCreatedAt
  datatype Direction = Ascending | Descending
  datatype SortSpec = SortSpec(field: SortField, direction: Direction)

  /** The sort object, reassigned in a switch over the `sort` parameter. */
  method BuildSort(sort: Option<string>) returns (s: SortSpec)
    ensures sort == Some("price-low") ==> s == SortSpec(ByPrice, Ascending)
    ensures sort == Some("price-high") ==> s == SortSpec(ByPrice, Descending)
    ensures sort == Some("name") ==> s == SortSpec(ByName, Ascending)
    ensures sort == Some("rating") ==> s == SortSpec(ByRating, Descending)
    ensures s == SortSpec(ByCreatedAt, Descending) <==>
      sort !in {Some("price-low"), Some("price-high"), Some("name"), Some("rating")}
  {
    if NotEmpty(sort) {
      match sort.value
      case "price-low" => s := SortSpec(ByPrice, Ascending);
      case "price-high" => s := SortSpec(ByPrice, Descending);
      case "name" => s := SortSpec(ByName, Ascending);
      case "rating" => s := SortSpec(ByRating, Descending);
      case _ => s := SortSpec(ByCreatedAt, Descending);
    } else {
      s := SortSpec(ByCreatedAt, Descending);
    }
  }

  /** The rounded-up quotient for a non-zero divisor: the least integer not below `a / b`. */
  function CeilDiv(a: nat, b: int): (r: int)
    requires b != 0
    ensures b > 0 ==> (r - 1) * b < a <= r * b
    ensures b < 0 ==> r * b <= a < (r - 1) * b
  {
    if b > 0 then (a + b - 1) / b else -(a / -b)
  }

  /** The paging numbers of the response: `totalPages` is null (JSON for the infinite or
      undefined quotient) when the limit is 0. */
  datatype Page = Page(skip: int, limit: int, totalPages: Option<int>, currentPage: int)

  /** Paging for `total` matching items. */
  function Paginate(q: ItemQuery, total: nat): (p: Page)
    ensures p.currentPage == q.page.GetOr(DefaultPage) && p.limit == q.limit.GetOr(DefaultLimit)
    ensures p.skip == (p.currentPage - 1) * p.limit
    ensures p.totalPages.None? <==> p.limit == 0
    ensures p.limit != 0 ==> p.totalPages == Some(CeilDiv(total, p.limit))
  {
    var page, limit := q.page.GetOr(DefaultPage), q.limit.GetOr(DefaultLimit);
    Page((page - 1) * limit, limit, if limit == 0 then None else Some(CeilDiv(total, limit)), page)
  }

  /** With the default page and limit the listing starts at the first item, ten per page. */
  lemma {:induction false} DefaultPaging(q: ItemQuery, total: nat)
    requires q.page.None? && q.limit.None?
    ensures var p := Paginate(q, total);
      p.skip == 0 && p.limit == 10 && p.currentPage == 1
      && p.totalPages == Some(CeilDiv(total, 10))
  {
  }

  /** For a positive page and limit, the requested page holds items exactly when its number
      is at most `totalPages`; and the last page holds between 1 and `limit` of them. */
  lemma {:induction false} PageWithinTotal(q: ItemQuery, total: nat)
    requires q.page.GetOr(DefaultPage) >= 1 && q.limit.GetOr(DefaultLimit) >= 1
    ensures var p := Paginate(q, total);
      && (p.skip < total <==> p.currentPage <= p.totalPages.value)
      && (total > 0 && p.currentPage == p.totalPages.value ==> 0 < total - p.skip <= p.limit)
  {
    var p := Paginate(q, total);
    var n, l, t := p.currentPage, p.limit, p.totalPages.value;
    assert (t - 1) * l < total <= t * l;
    if n <= t {
      MulMonotone(n - 1, t - 1, l);
    } else {
      MulMonotone(t, n - 1, l);
    }
  }

  lemma {:induction false} MulMonotone(a: int, b: int, l: int)
    requires a <= b && l >= 0
    ensures a * l <= b * l
  {
    assert b * l - a * l == (b - a) * l;
  }

  // ---------------------------------------------------------------------------
  // Item routes

  /** The error outcomes of the item routes. */
  datatype ItemError =
    | Invalid(fields: seq<string>)  // 400 with the express-validator error array
    | NotFound                      // 404 "Item not found"
    | ServerError                   // 500 "Server error": the document failed to cast or validate

  const DeletedMessage: string := "Item deleted successfully"

  /** The body of POST /. */
  datatype CreateBody = CreateBody(
    name: Option<string>,
    description: Option<string>,
    price: Param,
    category: Option<string>,
    image: Option<string>,
    stock: Param)

  /** The validation chain of POST /: the fields whose check failed, in declaration order. */
  function CreateValidationErrors(b: CreateBody): (r: seq<string>)
    ensures "name" in r <==> !NotEmpty(b.name)
    ensures "description" in r <==> !NotEmpty(b.description)
    ensures "price" in r <==> !IsNumeric(b.price)
    ensures "category" in r <==> !NotEmpty(b.category)
    ensures "stock" in r <==> !IsIntAtLeast(b.stock, 0)
    ensures r == [] <==>
      NotEmpty(b.name) && NotEmpty(b.description) && IsNumeric(b.price)
      && NotEmpty(b.category) && IsIntAtLeast(b.stock, 0)
  {
    Report(NotEmpty(b.name), "name")
    + Report(NotEmpty(b.description), "description")
    + Report(IsNumeric(b.price), "price")
    + Report(NotEmpty(b.category), "category")
    + Report(IsIntAtLeast(b.stock, 0), "stock")
  }

  /** `image || placeholder`: an absent or empty image becomes the placeholder. */
  function ImageOrPlaceholder(image: Option<string>): (r: string)
    ensures r != ""
    ensures NotEmpty(image) ==> r == image.value
    ensures !NotEmpty(image) ==> r == PlaceholderImage
  {
    if NotEmpty(image) then image.value else PlaceholderImage
  }

  /** The item POST / would store for a body that passed the route checks. */
  function Candidate(b: CreateBody): Item
    requires CreateValidationErrors(b) == []
  {
    Item(b.name.value, b.description.value, b.price.n, b.category.value,
         ImageOrPlaceholder(b.image), b.stock.n, 0, 0)
  }

  /** POST / without the store: route validation (400), then the schema, whose rejection
      surfaces as a server error (500), then the created item. */
  function CreateOutcome(b: CreateBody): (r: Result<Item, ItemError>)
    ensures (r.Err? && r.error.Invalid?) <==> CreateValidationErrors(b) != []
    ensures r.Err? && r.error.Invalid? ==> r.error.fields == CreateValidationErrors(b)
    ensures r == Err(ServerError) <==> CreateValidationErrors(b) == [] && !Valid(Candidate(b))
    ensures r.Ok? ==> CreateValidationErrors(b) == [] && r.value == Candidate(b) && Valid(r.value)
    ensures r.Ok? ==> r.value.image == ImageOrPlaceholder(b.image) && r.value.rating == 0 && r.value.reviews == 0
  {
    var errors := CreateValidationErrors(b);
    if errors != [] then Err(Invalid(errors))
    else
      var built := Build(Draft(b.name, b.description, Some(b.price.n), b.category,
                               Some(ImageOrPlaceholder(b.image)), Some(b.stock.n), None, None));
      if built.Err? then
        assert !Valid(Candidate(b)) by {
          var p :| p in built.error;
          assert !PathAccepts(Draft(b.name, b.description, Some(b.price.n), b.category,
                               Some(ImageOrPlaceholder(b.image)), Some(b.stock.n), None, None), p);
        }
        Err(ServerError)
      else
        Ok(built.value)
  }

  /** The route checks accept any number as a price, so a negative price passes them and is
      then refused by the schema: the client gets a server error, not a validation error. */
  lemma NegativePriceIsServerError(b: CreateBody)
    requires CreateValidationErrors(b) == [] && b.price.n < 0
    ensures CreateOutcome(b) == Err(ServerError)
  {
  }

  /** The body of PUT /:id: every field optional. */
  datatype UpdateBody = UpdateBody(
    name: Option<string>,
    description: Option<string>,
    price: Param,
    category: Option<string>,
    image: Option<string>,
    stock: Param,
    rating: Param,
    reviews: Param)

  /** The validation chain of PUT /:id: the fields whose check failed, in declaration order. */
  function UpdateValidationErrors(b: UpdateBody): (r: seq<string>)
    ensures "name" in r <==> !OptionalNotEmpty(b.name)
    ensures "description" in r <==> !OptionalNotEmpty(b.description)
    ensures "price" in r <==> !OptionalNumeric(b.price)
    ensures "stock" in r <==> !OptionalIntAtLeast(b.stock, 0)
    ensures r == [] <==>
      OptionalNotEmpty(b.name) && OptionalNotEmpty(b.description)
      && OptionalNumeric(b.price) && OptionalIntAtLeast(b.stock, 0)
  {
    Report(OptionalNotEmpty(b.name), "name")
    + Report(OptionalNotEmpty(b.description), "description")
    + Report(OptionalNumeric(b.price), "price")
    + Report(OptionalIntAtLeast(b.stock, 0), "stock")
  }

  function ParamOr(p: Param, default: int): int {
    if p.Given? then p.n else default
  }

  /** The stored item with the body's fields written over it. */
  function Merged(stored: Item, b: UpdateBody): Item {
    Item(b.name.GetOr(stored.name), b.description.GetOr(stored.description), ParamOr(b.price, stored.price),
         b.category.GetOr(stored.category), b.image.GetOr(stored.image), ParamOr(b.stock, stored.stock),
         ParamOr(b.rating, stored.rating), ParamOr(b.reviews, stored.reviews))
  }

  /** `findByIdAndUpdate` with validators on: a field that does not cast, or a merged
      document the schema refuses, is a server error; fields absent from the body keep
      their stored value. */
  function UpdateOutcome(stored: Item, b: UpdateBody): (r: Result<Item, ItemError>)
    ensures r.Ok? || r == Err(ServerError)
    ensures r.Ok? <==>
      !b.price.Malformed? && !b.stock.Malformed? && !b.rating.Malformed? && !b.reviews.Malformed?
      && Valid(Merged(stored, b))
    ensures r.Ok? ==> Valid(r.value) && r.value == Merged(stored, b)
    ensures r.Ok? ==>
      && (b.name.None? ==> r.value.name == stored.name)
      && (b.name.Some? ==> r.value.name == b.name.value)
      && (b.description.None? ==> r.value.description == stored.description)
      && (b.description.Some? ==> r.value.description == b.description.value)
      && (b.category.None? ==> r.value.category == stored.category)
      && (b.category.Some? ==> r.value.category == b.category.value)
      && (b.image.None? ==> r.value.image == stored.image)
      && (b.image.Some? ==> r.value.image == b.image.value)
      && (b.price.Missing? ==> r.value.price == stored.price)
      && (b.price.Given? ==> r.value.price == b.price.n)
      && (b.stock.Missing? ==> r.value.stock == stored.stock)
      && (b.stock.Given? ==> r.value.stock == b.stock.n)
      && (b.rating.Missing? ==> r.value.rating == stored.rating)
      && (b.rating.Given? ==> r.value.rating == b.rating.n)
      && (b.reviews.Missing? ==> r.value.reviews == stored.reviews)
      && (b.reviews.Given? ==> r.value.reviews == b.reviews.n)
  {
    if b.price.Malformed? || b.stock.Malformed? || b.rating.Malformed? || b.reviews.Malformed? then
      Err(ServerError)
    else if Valid(Merged(stored, b)) then
      Ok(Merged(stored, b))
    else
      Err(ServerError)
  }

  /** Changing only the stock of a valid item to a non-negative number succeeds and touches
      nothing else. */
  lemma {:induction false} RestockKeepsItem(stored: Item, n: int)
    requires Valid(stored) && n >= 0
    ensures UpdateValidationErrors(UpdateBody(None, None, Missing, None, None, Given(n), Missing, Missing)) == []
    ensures UpdateOutcome(stored, UpdateBody(None, None, Missing, None, None, Given(n), Missing, Missing))
            == Ok(stored.(stock := n))
  {
    assert Merged(stored, UpdateBody(None, None, Missing, None, None, Given(n), Missing, Missing))
           == stored.(stock := n);
  }

  class ItemStore {
    /** The Item collection by document id. */
    var items: map<ItemId, Item>

    ghost predicate Valid()
      reads this
    {
      forall id :: id in items ==> ItemSchema.Valid(items[id])
    }

    constructor ()
      ensures Valid() && items == map[]
    {
      items := map[];
    }

    /** GET /:id. */
    method Get(id: ItemId) returns (r: Result<Item, ItemError>)
      requires Valid()
      ensures id in items ==> r == Ok(items[id]) && ItemSchema.Valid(r.value)
      ensures id !in items ==> r == Err(NotFound)
    {
      if id !in items {
        return Err(NotFound);
      }
      r := Ok(items[id]);
    }

    /** POST /: `newId` is the id the database assigns. */
    method Create(b: CreateBody, newId: ItemId) returns (r: Result<Item, ItemError>)
      requires Valid() && newId !in items
      modifies this
      ensures Valid()
      ensures r == CreateOutcome(b)
      ensures r.Ok? ==> items == old(items)[newId := r.value]
      ensures r.Err? ==> items == old(items)
    {
      r := CreateOutcome(b);
      if r.Ok? {
        items := items[newId := r.value];
      }
    }

    /** PUT /:id: validation first, then the 404 check, then the update. */
    method Update(id: ItemId, b: UpdateBody) returns (r: Result<Item, ItemError>)
      requires Valid()
      modifies this
      ensures Valid()
      ensures UpdateValidationErrors(b) != [] ==> r == Err(Invalid(UpdateValidationErrors(b)))
      ensures UpdateValidationErrors(b) == [] && id !in old(items) ==> r == Err(NotFound)
      ensures UpdateValidationErrors(b) == [] && id in old(items) ==> r == UpdateOutcome(old(items)[id], b)
      ensures r.Ok? ==> items == old(items)[id := r.value]
      ensures r.Err? ==> items == old(items)
    {
      var errors := UpdateValidationErrors(b);
      if errors != [] {
        return Err(Invalid(errors));
      }
      if id !in items {
        return Err(NotFound);
      }
      r := UpdateOutcome(items[id], b);
      if r.Ok? {
        items := items[id := r.value];
      }
    }

    /** DELETE /:id. */
    method Delete(id: ItemId) returns (r: Result<string, ItemError>)
      requires Valid()
      modifies this
      ensures Valid()
      ensures id !in old(items) ==> r == Err(NotFound) && items == old(items)
      ensures id in old(items) ==> r == Ok(DeletedMessage) && items == old(items) - {id}
    {
      if id !in items {
        return Err(NotFound);
      }
      items := items - {id};
      r := Ok(DeletedMessage);
    }
  }
}
