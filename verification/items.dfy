/** The item variants of the marketplace: the `Item` trait with its default
    `make_sound`, and the closed set of implementers Car, Fox and Dog. */
module Items {
  import opened Wrappers

  /** Rust's `i32`: prices are signed 32-bit integers. */
  type i32 = x: int | -0x8000_0000 <= x < 0x8000_0000

  /** Rust's `u32`: a dog's length. */
  type u32 = x: int | 0 <= x < 0x1_0000_0000

  /** The three kinds of item; `Tag` gives the string that names each one in
      the create command and in stored records. */
  datatype Kind = CarKind | FoxKind | DogKind

  /** A sellable item. Every variant carries a price; Car has a motor
      description and Dog a length. */
  datatype Item =
    | Car(price: i32, motor: string)
    | Fox(price: i32)
    | Dog(price: i32, length: u32)

  /** The behaviour of Dog that the Item trait leaves to its implementation:
      its display name, and its own sound if it overrides `make_sound`
      (None when it keeps the trait's default). */
  datatype DogImpl = DogImpl(name: string, sound: Option<string>)

  /** The trait's default answer of `make_sound`. */
  const DefaultSound: string := "Detta föremål gör inget ljud!"

  function KindOf(item: Item): Kind {
    match item
    case Car(_, _) => CarKind
    case Fox(_) => FoxKind
    case Dog(_, _) => DogKind
  }

  function Tag(kind: Kind): string {
    match kind
    case CarKind => "Car"
    case FoxKind => "Fox"
    case DogKind => "Dog"
  }

  /** Dispatch on a type string by exact match; any other string is unknown. */
  function KindOfTag(tag: string): (r: Option<Kind>)
    ensures r.Some? <==> (tag == "Car" || tag == "Fox" || tag == "Dog")
    ensures r.Some? ==> Tag(r.value) == tag
  {
    if tag == "Car" then Some(CarKind)
    else if tag == "Fox" then Some(FoxKind)
    else if tag == "Dog" then Some(DogKind)
    else None
  }

  /** Each kind's tag dispatches back to that kind, so no two kinds share a tag. */
  lemma TagRoundTrip(kind: Kind)
    ensures KindOfTag(Tag(kind)) == Some(kind)
  {
  }

  /** The display label: fixed per variant, independent of price and fields. */
  function Name(item: Item, dog: DogImpl): (r: string)
    ensures item.Car? ==> r == "Bil"
    ensures item.Fox? ==> r == "Räv"
    ensures item.Dog? ==> r == dog.name
  {
    match item
    case Car(_, _) => "Bil"
    case Fox(_) => "Räv"
    case Dog(_, _) => dog.name
  }

  /** The variant's own `make_sound`, if it overrides the trait's default:
      Car does, Fox does not, Dog as `dog` says. */
  function SoundOverride(item: Item, dog: DogImpl): Option<string> {
    match item
    case Car(_, _) => Some("Vroom vroom!")
    case Fox(_) => None
    case Dog(_, _) => dog.sound
  }

  /** `make_sound` as dispatched through the trait: the override if there is
      one, otherwise the default. */
  function MakeSound(item: Item, dog: DogImpl): (r: string)
    ensures item.Car? ==> r == "Vroom vroom!"
    ensures item.Fox? ==> r == DefaultSound
    ensures item.Dog? && dog.sound.None? ==> r == DefaultSound
    ensures item.Dog? && dog.sound.Some? ==> r == dog.sound.value
  {
    match SoundOverride(item, dog)
    case Some(sound) => sound
    case None => DefaultSound
  }

  /** `set_price`: any i32 is accepted, zero and negative included. */
  function SetPrice(item: Item, price: i32): (r: Item)
    ensures r.price == price
    ensures KindOf(r) == KindOf(item)
    ensures r.Car? ==> r.motor == item.motor
    ensures r.Dog? ==> r.length == item.length
  {
    item.(price := price)
  }

  /** Name and sound depend on the variant only, so a price change never
      alters them. */
  lemma SetPriceKeepsPresentation(item: Item, price: i32, dog: DogImpl)
    ensures Name(SetPrice(item, price), dog) == Name(item, dog)
    ensures MakeSound(SetPrice(item, price), dog) == MakeSound(item, dog)
  {
  }

  /** Setting the price an item already has changes nothing, and a second
      `set_price` undoes the first: the price is the only thing it touches. */
  lemma SetPriceOnlyTouchesPrice(item: Item, p: i32, q: i32)
    ensures SetPrice(item, item.price) == item
    ensures SetPrice(SetPrice(item, p), q) == SetPrice(item, q)
    ensures SetPrice(SetPrice(item, p), item.price) == item
  {
  }
}
