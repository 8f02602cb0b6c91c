/** The records the marketplace keeps in memory: users, products, purchases,
    and the partial updates ("patches") that its spread-merges apply to them. */
module Records {

  datatype Option<T> = None | Some(value: T)

  /** Placeholder image for every product that has none (App.js:16). */
  const DEFAULT_PRODUCT_IMAGE: string := "/images/chair.jpg"

  /** A registered account. `profile` holds the fields other than the four named
      ones that a seed record or a profile update may carry; a well-formed
      profile has none of the named keys (see `NamedKeysFree`). */
  datatype User = User(
    id: int,
    email: string,
    password: string,
    username: string,
    profile: map<string, string>)

  /** A catalog entry; `sellerId` is the id of the user who listed it. */
  datatype Product = Product(
    id: int,
    title: string,
    description: string,
    price: int,
    category: string,
    image: string,
    sellerId: int)

  /** The form fields of a new listing; an empty `image` stands for a missing one. */
  datatype ProductData = ProductData(
    title: string,
    description: string,
    price: int,
    category: string,
    image: string)

  /** The keys an edit spreads over an existing product; `None` is an absent key. */
  datatype ProductPatch = ProductPatch(
    id: Option<int>,
    title: Option<string>,
    description: Option<string>,
    price: Option<int>,
    category: Option<string>,
    image: Option<string>,
    sellerId: Option<int>)

  /** The keys a profile update spreads over a user; `None` is an absent key. */
  datatype UserPatch = UserPatch(
    id: Option<int>,
    email: Option<string>,
    password: Option<string>,
    username: Option<string>,
    profile: map<string, string>)

  /** The user keys that have their own fields. */
  const NAMED_USER_KEYS: set<string> := {"id", "email", "password", "username"}

  /** A profile map holds none of the keys that have their own fields, so each
      JavaScript key of a user lives in exactly one place of the record. */
  ghost predicate NamedKeysFree(profile: map<string, string>) {
    forall k :: k in profile ==> k !in NAMED_USER_KEYS
  }

  /** A product as it was bought, stamped with the checkout time. */
  datatype Purchase = Purchase(item: Product, purchaseDate: int)

  /** JavaScript's logical or on two strings: the empty string counts as absent. */
  function Or(a: string, b: string): string {
    if a != "" then a else b
  }

  /** The value of an object after spreading a key that may be absent. */
  function Spread<T>(was: T, key: Option<T>): T {
    match key
    case Some(v) => v
    case None => was
  }

  /** True when `now` is what a field holds after a spread of `key` over `was`:
      the key's value when present, the old value otherwise. */
  ghost predicate Takes<T>(now: T, was: T, key: Option<T>) {
    (key.Some? ==> now == key.value) && (key.None? ==> now == was)
  }

  /** The image string a patch supplies; an absent key reads as empty, as
      `undefined` is falsy. */
  function SuppliedImage(patch: ProductPatch): string {
    match patch.image
    case Some(s) => s
    case None => ""
  }

  /** The product `addProduct` builds (App.js:55-60): the form fields, the given
      id, the current user as seller, and the supplied image or the placeholder. */
  function NewProduct(data: ProductData, id: int, sellerId: int): (p: Product)
    ensures p.id == id && p.sellerId == sellerId
    ensures p.title == data.title && p.description == data.description
    ensures p.price == data.price && p.category == data.category
    ensures p.image != ""
    ensures data.image != "" ==> p.image == data.image
    ensures data.image == "" ==> p.image == DEFAULT_PRODUCT_IMAGE
  {
    Product(id, data.title, data.description, data.price, data.category,
            Or(data.image, DEFAULT_PRODUCT_IMAGE), sellerId)
  }

  /** The merged product of App.js:67: every present key overrides, and the
      image falls back from the supplied one to the old one to the
      placeholder, so it is never empty. */
  function MergeProduct(p: Product, patch: ProductPatch): (r: Product)
    ensures Takes(r.id, p.id, patch.id) && Takes(r.sellerId, p.sellerId, patch.sellerId)
    ensures Takes(r.title, p.title, patch.title)
    ensures Takes(r.description, p.description, patch.description)
    ensures Takes(r.price, p.price, patch.price)
    ensures Takes(r.category, p.category, patch.category)
    ensures r.image != ""
    ensures SuppliedImage(patch) != "" ==> r.image == SuppliedImage(patch)
    ensures SuppliedImage(patch) == "" && p.image != "" ==> r.image == p.image
    ensures SuppliedImage(patch) == "" && p.image == "" ==> r.image == DEFAULT_PRODUCT_IMAGE
  {
    Product(
      Spread(p.id, patch.id),
      Spread(p.title, patch.title),
      Spread(p.description, patch.description),
      Spread(p.price, patch.price),
      Spread(p.category, patch.category),
      Or(Or(SuppliedImage(patch), p.image), DEFAULT_PRODUCT_IMAGE),
      Spread(p.sellerId, patch.sellerId))
  }

  /** The merged user of App.js:96 and 99: present keys override, absent ones
      keep their value, and extra profile keys of the patch win; a profile
      free of the four named keys stays free of them. */
  function MergeUser(u: User, patch: UserPatch): (r: User)
    ensures Takes(r.id, u.id, patch.id) && Takes(r.email, u.email, patch.email)
    ensures Takes(r.password, u.password, patch.password)
    ensures Takes(r.username, u.username, patch.username)
    ensures r.profile.Keys == u.profile.Keys + patch.profile.Keys
    ensures forall k :: k in patch.profile ==> r.profile[k] == patch.profile[k]
    ensures forall k :: k in u.profile && k !in patch.profile ==> r.profile[k] == u.profile[k]
    ensures NamedKeysFree(u.profile) && NamedKeysFree(patch.profile) ==> NamedKeysFree(r.profile)
  {
    User(
      Spread(u.id, patch.id),
      Spread(u.email, patch.email),
      Spread(u.password, patch.password),
      Spread(u.username, patch.username),
      u.profile + patch.profile)
  }

  /** An empty patch changes nothing: spreading `{}` is the identity. */
  lemma MergeUserEmptyPatch(u: User)
    ensures MergeUser(u, UserPatch(None, None, None, None, map[])) == u
  {
    assert u.profile + map[] == u.profile;
  }
}
