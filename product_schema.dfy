/**
 * The product document: required `name` and `price`, defaulted `image` and
 * `type`, and the `createdAt`/`updatedAt` timestamps. Values are kept as sent;
 * see README for the casts that are not modelled.
 */
module ProductSchema {
  import opened Wrappers
  import opened JsValues

  const PlaceholderImage: string := "https://via.placeholder.com/150"
  const DefaultType: string := "General"

  /** A stored product; `kind` is the schema path named `type`. Times are in milliseconds. */
  datatype Product = Product(
    id: string,
    name: JsValue,
    price: JsValue,
    image: JsValue,
    kind: JsValue,
    createdAt: int,
    updatedAt: int)

  /** The four settable paths as a request supplies them (`Undefined` when absent). */
  datatype Fields = Fields(name: JsValue, price: JsValue, image: JsValue, kind: JsValue)

  /** A rejected document: a `required` path without a value, or a value the path type cannot hold. */
  datatype SchemaError = Required(path: string) | Cast(path: string)

  /**
   * The String path `name` with `required: true` accepts the value: not
   * null/undefined, not the empty string, and not an object or array (which
   * cannot be cast to a string).
   */
  predicate NameAccepted(v: JsValue) {
    match v
    case Str(s) => s != ""
    case Num(_) => true
    case Bool(_) => true
    case _ => false
  }

  /**
   * The Number path `price` with `required: true` accepts the value: not
   * null/undefined, not `""` (which casts to null) and not an object or array.
   */
  predicate PriceAccepted(v: JsValue) {
    !(v.Undefined? || v.Null? || v == Str("") || v.Composite?)
  }

  /** An optional String path holds the value (objects and arrays fail the cast). */
  predicate OptionalAccepted(v: JsValue) {
    !v.Composite?
  }

  /** What every stored product satisfies. */
  predicate Valid(p: Product) {
    && NameAccepted(p.name)
    && PriceAccepted(p.price)
    && OptionalAccepted(p.image) && !p.image.Undefined?
    && OptionalAccepted(p.kind) && !p.kind.Undefined?
  }

  /** A default applies only when the path is undefined; `null` is kept. */
  function WithDefault(v: JsValue, default: string): JsValue {
    if v.Undefined? then Str(default) else v
  }

  /** The first failing path of a new document, in schema order. */
  function CreateError(f: Fields): Option<SchemaError> {
    if !NameAccepted(f.name) then
      Some(if f.name.Composite? then Cast("name") else Required("name"))
    else if !PriceAccepted(f.price) then
      Some(if f.price.Composite? then Cast("price") else Required("price"))
    else if !OptionalAccepted(f.image) then Some(Cast("image"))
    else if !OptionalAccepted(f.kind) then Some(Cast("type"))
    else None
  }

  /** `new Product({ name, price, image, type })` validated at time `now`. */
  function Create(id: string, f: Fields, now: int): (r: Result<Product, SchemaError>)
    ensures r.Success? <==>
      NameAccepted(f.name) && PriceAccepted(f.price) && OptionalAccepted(f.image) && OptionalAccepted(f.kind)
    ensures r.Success? ==> Valid(r.value)
    ensures r.Success? ==> r.value.id == id && r.value.name == f.name && r.value.price == f.price
    ensures r.Success? ==> r.value.image == (if f.image.Undefined? then Str(PlaceholderImage) else f.image)
    ensures r.Success? ==> r.value.kind == (if f.kind.Undefined? then Str(DefaultType) else f.kind)
    ensures r.Success? ==> r.value.createdAt == now && r.value.updatedAt == now
    ensures !NameAccepted(f.name) && !f.name.Composite? ==> r == Failure(Required("name"))
  {
    match CreateError(f)
    case Some(e) => Failure(e)
    case None =>
      Success(Product(id, f.name, f.price, WithDefault(f.image, PlaceholderImage),
                      WithDefault(f.kind, DefaultType), now, now))
  }

  /** The first path of an update that fails its validator; undefined paths are not validated. */
  function UpdateError(f: Fields): Option<SchemaError> {
    if !f.name.Undefined? && !NameAccepted(f.name) then
      Some(if f.name.Composite? then Cast("name") else Required("name"))
    else if !f.price.Undefined? && !PriceAccepted(f.price) then
      Some(if f.price.Composite? then Cast("price") else Required("price"))
    else if !OptionalAccepted(f.image) then Some(Cast("image"))
    else if !OptionalAccepted(f.kind) then Some(Cast("type"))
    else None
  }

  /** A path of an update: an undefined value leaves the stored one in place. */
  function Assign(stored: JsValue, v: JsValue): JsValue {
    if v.Undefined? then stored else v
  }

  /**
   * `findByIdAndUpdate(id, { name, price, image, type }, { runValidators: true })`
   * applied to the stored document `p` at time `now`.
   */
  function Update(p: Product, f: Fields, now: int): (r: Result<Product, SchemaError>)
    ensures r.Success? <==>
      && (f.name.Undefined? || NameAccepted(f.name))
      && (f.price.Undefined? || PriceAccepted(f.price))
      && OptionalAccepted(f.image) && OptionalAccepted(f.kind)
    ensures r.Success? ==> r.value.id == p.id && r.value.createdAt == p.createdAt && r.value.updatedAt == now
    ensures r.Success? ==>
      && r.value.name == (if f.name.Undefined? then p.name else f.name)
      && r.value.price == (if f.price.Undefined? then p.price else f.price)
      && r.value.image == (if f.image.Undefined? then p.image else f.image)
      && r.value.kind == (if f.kind.Undefined? then p.kind else f.kind)
  {
    match UpdateError(f)
    case Some(e) => Failure(e)
    case None =>
      Success(p.(name := Assign(p.name, f.name), price := Assign(p.price, f.price),
                 image := Assign(p.image, f.image), kind := Assign(p.kind, f.kind),
                 updatedAt := now))
  }

  /** An accepted update keeps a stored product valid. */
  lemma UpdateKeepsValid(p: Product, f: Fields, now: int)
    requires Valid(p)
    requires Update(p, f, now).Success?
    ensures Valid(Update(p, f, now).value)
  {
  }

  /** Defaults are not re-applied by an update: an absent `image` or `type` keeps the stored value. */
  lemma UpdateKeepsAbsentPaths(p: Product, now: int)
    ensures Update(p, Fields(Undefined, Undefined, Undefined, Undefined), now)
         == Success(p.(updatedAt := now))
  {
  }
}
