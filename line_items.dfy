/**
 * The entities of the cart: a stored line item, the partial product a caller
 * hands to addToCart, the merge key, and the fixed defaults of the store's
 * single product (script.js, lines 26-43).
 */
module LineItems {
  import opened Wrappers

  /** One product configuration in the cart. `price` is a whole amount (euros or cents). */
  datatype LineItem = LineItem(
    id: string,
    name: string,
    price: nat,
    color: string,
    image: string,
    size: string,
    quantity: int)

  /**
   * The argument of addToCart. `None` is a missing property; the empty string
   * and zero are JavaScript-falsy and are treated exactly like `None`.
   */
  datatype Product = Product(
    id: Option<string>,
    name: Option<string>,
    price: Option<nat>,
    color: Option<string>,
    image: Option<string>,
    size: Option<string>,
    quantity: Option<nat>)

  /** The configuration entries are merged on. */
  datatype Key = Key(id: string, color: string, size: string)

  const DefaultId: string := "collier-led-1"
  const DefaultName: string := "Collier LED pour Chiens"
  const DefaultPrice: nat := 29
  const DefaultColor: string := "rouge"
  const DefaultImage: string := "https://via.placeholder.com/100x100/1a1a2e/FFD700?text=Collier+LED"
  const DefaultSize: string := "M"
  const DefaultQuantity: nat := 1

  /** The empty object `{}`. */
  const NoFields: Product := Product(None, None, None, None, None, None, None)

  /** The entry that `addToCart({})` appends. */
  const DefaultItem: LineItem :=
    LineItem(DefaultId, DefaultName, DefaultPrice, DefaultColor, DefaultImage, DefaultSize, DefaultQuantity)

  /** `field || default` for a string-valued property. */
  function OrText(field: Option<string>, default: string): (s: string)
    ensures field.Some? && field.value != "" ==> s == field.value
    ensures field.None? || field.value == "" ==> s == default
  {
    if field.Some? && field.value != "" then field.value else default
  }

  /** `field || default` for a number-valued property. */
  function OrNumber(field: Option<nat>, default: nat): (n: nat)
    ensures field.Some? && field.value != 0 ==> n == field.value
    ensures field.None? || field.value == 0 ==> n == default
  {
    if field.Some? && field.value != 0 then field.value else default
  }

  /** The quantity addToCart adds: `product.quantity || 1`. */
  function ResolvedQuantity(p: Product): (q: nat)
    ensures q >= 1
    ensures p.quantity.Some? && p.quantity.value >= 1 ==> q == p.quantity.value
    ensures p.quantity.None? ==> q == DefaultQuantity
    ensures p.quantity == Some(0) ==> q == DefaultQuantity
  {
    OrNumber(p.quantity, DefaultQuantity)
  }

  /** The key addToCart searches for, built from the default-filled id, color and size. */
  function ProductKey(p: Product): (k: Key)
    ensures p.id.Some? && p.id.value != "" ==> k.id == p.id.value
    ensures p.id.None? || p.id.value == "" ==> k.id == DefaultId
    ensures p.color.Some? && p.color.value != "" ==> k.color == p.color.value
    ensures p.color.None? || p.color.value == "" ==> k.color == DefaultColor
    ensures p.size.Some? && p.size.value != "" ==> k.size == p.size.value
    ensures p.size.None? || p.size.value == "" ==> k.size == DefaultSize
  {
    Key(OrText(p.id, DefaultId), OrText(p.color, DefaultColor), OrText(p.size, DefaultSize))
  }

  function KeyOf(item: LineItem): Key
  {
    Key(item.id, item.color, item.size)
  }

  /** The entry addToCart appends when nothing matches. */
  function Resolve(p: Product): (item: LineItem)
    ensures KeyOf(item) == ProductKey(p)
    ensures item.quantity == ResolvedQuantity(p)
    ensures item.price >= 1
  {
    LineItem(
      OrText(p.id, DefaultId),
      OrText(p.name, DefaultName),
      OrNumber(p.price, DefaultPrice),
      OrText(p.color, DefaultColor),
      OrText(p.image, DefaultImage),
      OrText(p.size, DefaultSize),
      ResolvedQuantity(p))
  }

  /** A property the caller supplies with a truthy value is kept; every other one takes its default. */
  lemma ResolveKeepsSuppliedFields(p: Product)
    ensures p.id.Some? && p.id.value != "" ==> Resolve(p).id == p.id.value
    ensures p.name.Some? && p.name.value != "" ==> Resolve(p).name == p.name.value
    ensures p.price.Some? && p.price.value != 0 ==> Resolve(p).price == p.price.value
    ensures p.color.Some? && p.color.value != "" ==> Resolve(p).color == p.color.value
    ensures p.image.Some? && p.image.value != "" ==> Resolve(p).image == p.image.value
    ensures p.size.Some? && p.size.value != "" ==> Resolve(p).size == p.size.value
    ensures p.quantity.Some? && p.quantity.value != 0 ==> Resolve(p).quantity == p.quantity.value
    ensures Resolve(p.(id := None)).id == Resolve(p.(id := Some(""))).id == DefaultId
    ensures Resolve(p.(price := None)).price == Resolve(p.(price := Some(0))).price == DefaultPrice
    ensures Resolve(p.(quantity := None)).quantity == Resolve(p.(quantity := Some(0))).quantity == 1
  {
  }

  lemma ResolveNoFields()
    ensures Resolve(NoFields) == DefaultItem
    ensures ProductKey(NoFields) == Key("collier-led-1", "rouge", "M")
  {
  }
}
