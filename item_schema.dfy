/** The Item document of the catalog: its fields, the constraints the schema enforces
    on every save, and the defaults it fills in. Prices are integer cents. */
module ItemSchema {
  import opened Wrappers

  const PlaceholderImage: string := "https://via.placeholder.com/300x300?text=No+Image"
  const MaxNameLength: nat := 100
  const MaxDescriptionLength: nat := 500
  const MaxRating: int := 5
  const Categories: seq<string> :=
    ["Electronics", "Clothing", "Books", "Home & Garden", "Sports", "Beauty", "Toys", "Other"]

  /** The document id of an item, as the routes receive it. */
  type ItemId = string

  datatype Item = Item(
    name: string,
    description: string,
    price: int,
    category: string,
    image: string,
    stock: int,
    rating: int,
    reviews: int)

  /** The length of a string as JavaScript measures it, in UTF-16 code units: a character
      outside the Basic Multilingual Plane (U+10000 and above) is a surrogate pair and counts
      twice. This is the length the schema's `maxlength` bounds. */
  function Utf16Length(s: string): (n: nat)
    ensures |s| <= n <= 2 * |s|
  {
    if |s| == 0 then 0
    else (if s[0] as int >= 0x1_0000 then 2 else 1) + Utf16Length(s[1..])
  }

  /** A string of characters from the Basic Multilingual Plane is as long in code units as
      in characters. */
  lemma {:induction false} Utf16LengthOfBmp(s: string)
    requires forall i :: 0 <= i < |s| ==> s[i] as int < 0x1_0000
    ensures Utf16Length(s) == |s|
  {
    if |s| > 0 {
      assert forall i :: 0 <= i < |s[1..]| ==> s[1..][i] == s[i + 1];
      Utf16LengthOfBmp(s[1..]);
    }
  }

  /** A string of characters outside the Basic Multilingual Plane takes two code units per
      character. */
  lemma {:induction false} Utf16LengthOfAstral(s: string)
    requires forall i :: 0 <= i < |s| ==> s[i] as int >= 0x1_0000
    ensures Utf16Length(s) == 2 * |s|
  {
    if |s| > 0 {
      assert forall i :: 0 <= i < |s[1..]| ==> s[1..][i] == s[i + 1];
      Utf16LengthOfAstral(s[1..]);
    }
  }

  /** The schema paths that carry a validator. */
  datatype Path = Name | Description | Price | Category | Stock | Rating

  /** Every constraint of the schema holds of a stored item. */
  predicate Valid(it: Item) {
    && 0 < Utf16Length(it.name) <= MaxNameLength
    && 0 < Utf16Length(it.description) <= MaxDescriptionLength
    && it.price >= 0
    && it.category in Categories
    && it.stock >= 0
    && 0 <= it.rating <= MaxRating
  }

  /** A document handed to `Item.create`: a field is None when it is undefined. */
  datatype Draft = Draft(
    name: Option<string>,
    description: Option<string>,
    price: Option<int>,
    category: Option<string>,
    image: Option<string>,
    stock: Option<int>,
    rating: Option<int>,
    reviews: Option<int>)

  /** Whether the validator of path `p` accepts the draft once defaults are filled in;
      a required string rejects the empty string. */
  predicate PathAccepts(d: Draft, p: Path) {
    match p
    case Name => d.name.Some? && 0 < Utf16Length(d.name.value) <= MaxNameLength
    case Description => d.description.Some? && 0 < Utf16Length(d.description.value) <= MaxDescriptionLength
    case Price => d.price.Some? && d.price.value >= 0
    case Category => d.category.Some? && d.category.value in Categories
    case Stock => d.stock.GetOr(0) >= 0
    case Rating => 0 <= d.rating.GetOr(0) <= MaxRating
  }

  /** The paths whose validators reject the draft, in schema order. */
  function Rejected(d: Draft): (r: seq<Path>)
    ensures forall p :: p in r <==> !PathAccepts(d, p)
  {
    (if PathAccepts(d, Name) then [] else [Name])
    + (if PathAccepts(d, Description) then [] else [Description])
    + (if PathAccepts(d, Price) then [] else [Price])
    + (if PathAccepts(d, Category) then [] else [Category])
    + (if PathAccepts(d, Stock) then [] else [Stock])
    + (if PathAccepts(d, Rating) then [] else [Rating])
  }

  /** Casting a draft into a document: defaults for image, stock, rating and reviews,
      then validation; the error lists every rejected path. */
  function Build(d: Draft): (r: Result<Item, seq<Path>>)
    ensures r.Err? ==> r.error != [] && forall p :: p in r.error <==> !PathAccepts(d, p)
    ensures r.Ok? ==> Valid(r.value)
    ensures r.Ok? <==> forall p :: PathAccepts(d, p)
    ensures r.Ok? ==>
      && Some(r.value.name) == d.name
      && Some(r.value.description) == d.description
      && Some(r.value.price) == d.price
      && Some(r.value.category) == d.category
      && r.value.image == d.image.GetOr(PlaceholderImage)
      && r.value.stock == d.stock.GetOr(0)
      && r.value.rating == d.rating.GetOr(0)
      && r.value.reviews == d.reviews.GetOr(0)
  {
    var rejected := Rejected(d);
    if rejected != [] then
      Err(rejected)
    else
      assert PathAccepts(d, Name) && PathAccepts(d, Description);
      assert PathAccepts(d, Price) && PathAccepts(d, Category);
      assert PathAccepts(d, Stock) && PathAccepts(d, Rating);
      Ok(Item(d.name.value, d.description.value, d.price.value, d.category.value,
              d.image.GetOr(PlaceholderImage), d.stock.GetOr(0), d.rating.GetOr(0),
              d.reviews.GetOr(0)))
  }

  /** The draft that spells out every field of an item. */
  function DraftOf(it: Item): Draft {
    Draft(Some(it.name), Some(it.description), Some(it.price), Some(it.category),
          Some(it.image), Some(it.stock), Some(it.rating), Some(it.reviews))
  }

  /** A valid item passes the schema unchanged, and only a valid one does. */
  lemma {:induction false} BuildAcceptsExactlyValid(it: Item)
    ensures Build(DraftOf(it)) == Ok(it) <==> Valid(it)
  {
    var d := DraftOf(it);
    if Valid(it) {
      assert forall p :: PathAccepts(d, p) by {
        forall p ensures PathAccepts(d, p) {
          match p
          case Name =>
          case Description =>
          case Price =>
          case Category =>
          case Stock =>
          case Rating =>
        }
      }
    }
  }

  /** A draft that leaves stock, rating, reviews and image out gets the schema defaults. */
  lemma {:induction false} DefaultsApplied(name: string, description: string, price: int, category: string)
    requires Valid(Item(name, description, price, category, PlaceholderImage, 0, 0, 0))
    ensures Build(Draft(Some(name), Some(description), Some(price), Some(category), None, None, None, None))
            == Ok(Item(name, description, price, category, PlaceholderImage, 0, 0, 0))
  {
    BuildAcceptsExactlyValid(Item(name, description, price, category, PlaceholderImage, 0, 0, 0));
  }

  /** The name limit counts code units: sixty emoji are 120 units, so an otherwise valid
      item with such a name is refused, while sixty letters pass. */
  lemma EmojiNameTooLong(it: Item)
    requires Valid(it)
    ensures !Valid(it.(name := seq(60, _ => '\U{1F600}')))
    ensures Valid(it.(name := seq(60, _ => 'a')))
  {
    Utf16LengthOfAstral(seq(60, _ => '\U{1F600}'));
    Utf16LengthOfBmp(seq(60, _ => 'a'));
  }
}
