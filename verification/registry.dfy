/** The marketplace: an ordered collection of items addressed by position.
    Positions are not stable identifiers; removing an item shifts every later
    item down by one. */
module Registry {
  import opened Wrappers
  import opened Items

  datatype MarketPlace = MarketPlace(items: seq<Item>)

  /** One line of the item listing: position, display name, price and sound. */
  datatype Listing = Listing(index: nat, name: string, price: i32, sound: string)

  /** The already-parsed answers to the prompts of the create command. A
      numeric answer is None when it did not parse; the motor answer is free
      text. Only the answers the chosen kind asks for are consulted. */
  datatype Answers = Answers(price: Option<i32>, motor: string, length: Option<i32>)

  /** How a create command ended: an item was appended, the type string named
      no kind, or an answer the kind needed did not parse. */
  datatype CreateOutcome = Added | UnknownType | BadInput

  /** `list_items`: one listing per item, in position order. */
  method ListItems(m: MarketPlace, dog: DogImpl) returns (lines: seq<Listing>)
    ensures |lines| == |m.items|
    ensures forall k :: 0 <= k < |lines| ==>
              lines[k] == Listing(k, Name(m.items[k], dog), m.items[k].price, MakeSound(m.items[k], dog))
  {
    lines := [];
    var index := 0;
    while index < |m.items|
      invariant index <= |m.items|
      invariant |lines| == index
      invariant forall k :: 0 <= k < index ==>
                  lines[k] == Listing(k, Name(m.items[k], dog), m.items[k].price, MakeSound(m.items[k], dog))
    {
      var item := m.items[index];
      lines := lines + [Listing(index, Name(item, dog), item.price, MakeSound(item, dog))];
      index := index + 1;
    }
  }

  /** Rust's `as u32` on an i32: the same 32 bits read as unsigned, so a
      negative input comes out 2^32 higher. */
  function WrapU32(x: i32): (r: u32)
    ensures 0 <= x ==> r == x
    ensures x < 0 ==> r == x + 0x1_0000_0000
  {
    x % 0x1_0000_0000
  }

  /** The item a create command of the given kind builds from the answers,
      or None when an answer it needs is missing. */
  function NewItem(kind: Kind, answers: Answers): (r: Option<Item>)
    ensures r.Some? <==> answers.price.Some? && (kind == DogKind ==> answers.length.Some?)
    ensures r.Some? ==> KindOf(r.value) == kind && r.value.price == answers.price.value
    ensures r.Some? && kind == CarKind ==> r.value.motor == answers.motor
    ensures r.Some? && kind == DogKind ==> r.value.length == WrapU32(answers.length.value)
  {
    match kind
    case CarKind =>
      if answers.price.None? then None
      else Some(Car(answers.price.value, answers.motor))
    case FoxKind =>
      if answers.price.None? then None
      else Some(Fox(answers.price.value))
    case DogKind =>
      if answers.price.None? || answers.length.None? then None
      else Some(Dog(answers.price.value, WrapU32(answers.length.value)))
  }

  /** `create_item`: dispatch on the type string, build the item from the
      answers and append it. Nothing changes unless an item is added. */
  function CreateItem(m: MarketPlace, itemType: string, answers: Answers): (r: (MarketPlace, CreateOutcome))
    ensures r.1 == UnknownType <==> !(itemType == "Car" || itemType == "Fox" || itemType == "Dog")
    ensures r.1 == Added <==>
              && (itemType == "Car" || itemType == "Fox" || itemType == "Dog")
              && answers.price.Some?
              && (itemType == "Dog" ==> answers.length.Some?)
    ensures r.1 != Added ==> r.0 == m
    ensures r.1 == Added ==>
              && |r.0.items| == |m.items| + 1
              && r.0.items[..|m.items|] == m.items
              && Tag(KindOf(r.0.items[|m.items|])) == itemType
              && r.0.items[|m.items|].price == answers.price.value
    ensures r.1 == Added && itemType == "Car" ==> r.0.items[|m.items|].motor == answers.motor
    ensures r.1 == Added && itemType == "Dog" ==> r.0.items[|m.items|].length == WrapU32(answers.length.value)
  {
    match KindOfTag(itemType)
    case None => (m, UnknownType)
    case Some(kind) =>
      match NewItem(kind, answers)
      case None => (m, BadInput)
      case Some(item) => (MarketPlace(m.items + [item]), Added)
  }

  /** `change_price`: reports success exactly when the position exists, and
      then reprices that item alone. */
  function ChangePrice(m: MarketPlace, index: nat, price: i32): (r: (MarketPlace, bool))
    ensures r.1 <==> index < |m.items|
    ensures !r.1 ==> r.0 == m
    ensures r.1 ==> |r.0.items| == |m.items| && r.0.items[index] == SetPrice(m.items[index], price)
    ensures r.1 ==> forall k :: 0 <= k < |m.items| && k != index ==> r.0.items[k] == m.items[k]
  {
    if index < |m.items| then
      (MarketPlace(m.items[index := SetPrice(m.items[index], price)]), true)
    else
      (m, false)
  }

  /** `remove_item`: hands back the item at the position, if any; the items
      after it move down one place and the rest stay where they were. */
  function RemoveItem(m: MarketPlace, index: nat): (r: (MarketPlace, Option<Item>))
    ensures r.1.None? <==> index >= |m.items|
    ensures r.1.None? ==> r.0 == m
    ensures r.1.Some? ==>
              && r.1.value == m.items[index]
              && |r.0.items| == |m.items| - 1
              && (forall k :: 0 <= k < index ==> r.0.items[k] == m.items[k])
              && (forall k :: index <= k < |r.0.items| ==> r.0.items[k] == m.items[k + 1])
  {
    if index >= |m.items| then
      (m, None)
    else
      (MarketPlace(m.items[..index] + m.items[index + 1..]), Some(m.items[index]))
  }

  /** Putting a removed item back where it was restores the marketplace, and
      nothing is lost or duplicated. */
  lemma RemoveThenReinsert(m: MarketPlace, index: nat)
    requires index < |m.items|
    ensures var (rest, removed) := RemoveItem(m, index);
            && rest.items[..index] + [removed.value] + rest.items[index..] == m.items
            && multiset(rest.items) + multiset{removed.value} == multiset(m.items)
  {
    var (rest, removed) := RemoveItem(m, index);
    var rebuilt := rest.items[..index] + [removed.value] + rest.items[index..];
    assert |rebuilt| == |m.items|;
    forall k | 0 <= k < |m.items|
      ensures rebuilt[k] == m.items[k]
    {
      if k > index {
        assert rebuilt[k] == rest.items[k - 1];
      }
    }
    assert rebuilt == m.items;
    assert rest.items == rest.items[..index] + rest.items[index..];
  }

  /** Restoring the old price of a repriced item restores the marketplace. */
  lemma ChangePriceUndo(m: MarketPlace, index: nat, price: i32)
    requires index < |m.items|
    ensures ChangePrice(ChangePrice(m, index, price).0, index, m.items[index].price).0 == m
  {
    var once := ChangePrice(m, index, price).0;
    var twice := ChangePrice(once, index, m.items[index].price).0;
    SetPriceOnlyTouchesPrice(m.items[index], price, m.items[index].price);
    assert twice.items == m.items;
  }

  /** A freshly added item sits at the end, so removing the last position
      right after a successful create gives the item back and the old
      marketplace with it. */
  lemma CreateThenRemove(m: MarketPlace, itemType: string, answers: Answers)
    requires CreateItem(m, itemType, answers).1 == Added
    ensures var grown := CreateItem(m, itemType, answers).0;
            RemoveItem(grown, |m.items|) == (m, Some(grown.items[|m.items|]))
  {
    var grown := CreateItem(m, itemType, answers).0;
    assert grown.items[..|m.items|] + grown.items[|m.items| + 1..] == m.items;
  }
}
