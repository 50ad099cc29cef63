/** The persistence adapter: each item becomes a JSON record tagged with its
    kind and carrying its price, and a list of such records is turned back
    into a marketplace by dispatching on the tag. */
module Store {
  import opened Wrappers
  import opened Json
  import opened Items
  import opened Registry

  /** The behaviour this adapter relies on but does not define: each item's
      own `serialize()` record, and the field decoders of the three variants,
      which fail (None) on a record they cannot read. A decoder produces the
      fields of its own variant only. */
  datatype Codec = Codec(
    serialize: Item -> Record,
    decodeCar: Json -> Option<(i32, string)>,
    decodeFox: Json -> Option<i32>,
    decodeDog: Json -> Option<(i32, u32)>)

  /** The stored form of a whole marketplace. */
  datatype MarketPlaceStore = MarketPlaceStore(items: seq<Json>)

  /** Why a load aborts: a record without a string "type", or a record with
      a known tag that its variant's decoder rejects. */
  datatype LoadError = MissingTag | Malformed(kind: Kind)

  /** `val["type"].as_str()`: the type tag, if the value is an object whose
      "type" entry is a string. */
  function TypeTag(val: Json): Option<string> {
    if val.Object? && "type" in val.fields && val.fields["type"].Str? then
      Some(val.fields["type"].s)
    else
      None
  }

  /** Runs the decoder of one kind on a record: it fails exactly when that
      kind's decoder rejects the record, and otherwise builds the item from
      the fields the decoder read. */
  function Decode(codec: Codec, kind: Kind, val: Json): (r: Option<Item>)
    ensures r.Some? ==> KindOf(r.value) == kind
    ensures kind == CarKind ==> (r.None? <==> codec.decodeCar(val).None?)
    ensures kind == FoxKind ==> (r.None? <==> codec.decodeFox(val).None?)
    ensures kind == DogKind ==> (r.None? <==> codec.decodeDog(val).None?)
    ensures r.Some? && r.value.Car? ==> codec.decodeCar(val) == Some((r.value.price, r.value.motor))
    ensures r.Some? && r.value.Fox? ==> codec.decodeFox(val) == Some(r.value.price)
    ensures r.Some? && r.value.Dog? ==> codec.decodeDog(val) == Some((r.value.price, r.value.length))
  {
    match kind
    case CarKind =>
      (match codec.decodeCar(val)
       case Some((price, motor)) => Some(Car(price, motor))
       case None => None)
    case FoxKind =>
      (match codec.decodeFox(val)
       case Some(price) => Some(Fox(price))
       case None => None)
    case DogKind =>
      (match codec.decodeDog(val)
       case Some((price, length)) => Some(Dog(price, length))
       case None => None)
  }

  /** `construct_item_type`: decode a record as the given kind; a record
      the decoder rejects aborts the load, as the unwrap there panics. */
  function ConstructItemType(codec: Codec, kind: Kind, val: Json): (r: Result<Option<Item>, LoadError>)
    ensures r.Failure? <==> Decode(codec, kind, val).None?
    ensures r.Failure? ==> r.error == Malformed(kind)
    ensures r.Success? ==> r.value.Some? && KindOf(r.value.value) == kind
    ensures r.Success? ==> r.value == Decode(codec, kind, val)
  {
    match Decode(codec, kind, val)
    case Some(item) => Success(Some(item))
    case None => Failure(Malformed(kind))
  }

  /** `construct_item`: dispatch on the record's tag. An unknown tag gives
      no item; a missing or non-string tag aborts; a known tag decodes as
      that kind. */
  function ConstructItem(codec: Codec, val: Json): (r: Result<Option<Item>, LoadError>)
    ensures r == Failure(MissingTag) <==> TypeTag(val).None?
    ensures r == Success(None) <==>
              TypeTag(val).Some? && KindOfTag(TypeTag(val).value).None?
    ensures r.Success? && r.value.Some? ==> TypeTag(val) == Some(Tag(KindOf(r.value.value)))
    ensures r.Success? && r.value.Some? ==> Decode(codec, KindOf(r.value.value), val) == r.value
    ensures r.Failure? && r.error.Malformed? ==>
              TypeTag(val) == Some(Tag(r.error.kind)) && Decode(codec, r.error.kind, val).None?
  {
    match TypeTag(val)
    case None => Failure(MissingTag)
    case Some(tag) =>
      match KindOfTag(tag)
      case None => Success(None)
      case Some(kind) => ConstructItemType(codec, kind, val)
  }

  /** `construct_value`: the item's own record with "price" set to the
      item's price. The price is written after `serialize()` ran, so it
      replaces any "price" the record already had; every other entry is
      kept as it was. */
  function ConstructValue(codec: Codec, item: Item): (r: Json)
    ensures r.Object?
    ensures r.fields.Keys == codec.serialize(item).Keys + {"price"}
    ensures r.fields["price"] == Number(item.price)
    ensures forall key :: key in codec.serialize(item) && key != "price" ==>
              r.fields[key] == codec.serialize(item)[key]
  {
    Object(codec.serialize(item)["price" := Number(item.price)])
  }

  /** The records of a sequence of items, one per item and in the same order. */
  function ConstructValues(codec: Codec, items: seq<Item>): (r: seq<Json>)
    ensures |r| == |items|
    ensures forall k :: 0 <= k < |items| ==> r[k] == ConstructValue(codec, items[k])
  {
    if |items| == 0 then []
    else [ConstructValue(codec, items[0])] + ConstructValues(codec, items[1..])
  }

  /** `MarketPlaceStore::from_market_place`: a snapshot of the marketplace,
      one record per item in position order, each carrying that item's price. */
  function FromMarketPlace(codec: Codec, m: MarketPlace): (r: MarketPlaceStore)
    ensures |r.items| == |m.items|
    ensures forall k :: 0 <= k < |m.items| ==> r.items[k] == ConstructValue(codec, m.items[k])
    ensures forall k :: 0 <= k < |m.items| ==>
              r.items[k].Object? && "price" in r.items[k].fields && r.items[k].fields["price"] == Number(m.items[k].price)
  {
    MarketPlaceStore(ConstructValues(codec, m.items))
  }

  /** A record whose tag names one of the three kinds. */
  predicate HasKnownTag(val: Json) {
    TypeTag(val).Some? && KindOfTag(TypeTag(val).value).Some?
  }

  /** The items the records decode to, in record order, skipping records with
      an unknown tag; the first record that cannot be loaded aborts all. */
  function GenerateItems(codec: Codec, vals: seq<Json>): Result<seq<Item>, LoadError> {
    if |vals| == 0 then Success([])
    else
      match ConstructItem(codec, vals[0])
      case Failure(e) => Failure(e)
      case Success(first) =>
        match GenerateItems(codec, vals[1..])
        case Failure(e) => Failure(e)
        case Success(rest) =>
          Success(if first.Some? then [first.value] + rest else rest)
  }

  /** The load succeeds exactly when every record loads; it yields at most
      one item per record, and exactly one when every tag is known. */
  lemma {:induction false} GenerateItemsSpec(codec: Codec, vals: seq<Json>)
    ensures GenerateItems(codec, vals).Success? <==>
              forall k :: 0 <= k < |vals| ==> ConstructItem(codec, vals[k]).Success?
    ensures GenerateItems(codec, vals).Success? ==> |GenerateItems(codec, vals).value| <= |vals|
    ensures GenerateItems(codec, vals).Success? && (forall k :: 0 <= k < |vals| ==> HasKnownTag(vals[k])) ==>
              |GenerateItems(codec, vals).value| == |vals|
  {
    if |vals| > 0 {
      GenerateItemsSpec(codec, vals[1..]);
      assert forall k :: 1 <= k < |vals| ==> vals[k] == vals[1..][k - 1];
      assert forall k :: 0 <= k < |vals| - 1 ==> vals[1..][k] == vals[k + 1];
    }
  }

  /** `generate_market_place`: rebuild a marketplace from its stored form. */
  function GenerateMarketPlace(codec: Codec, store: MarketPlaceStore): (r: Result<MarketPlace, LoadError>)
    ensures r.Success? <==> forall k :: 0 <= k < |store.items| ==> ConstructItem(codec, store.items[k]).Success?
    ensures r.Success? ==> |r.value.items| <= |store.items|
    ensures r.Success? && (forall k :: 0 <= k < |store.items| ==> HasKnownTag(store.items[k])) ==>
              |r.value.items| == |store.items|
    ensures r.Success? ==> GenerateItems(codec, store.items) == Success(r.value.items)
    ensures r.Failure? ==> GenerateItems(codec, store.items) == Failure(r.error)
  {
    GenerateItemsSpec(codec, store.items);
    match GenerateItems(codec, store.items)
    case Success(items) => Success(MarketPlace(items))
    case Failure(e) => Failure(e)
  }

  /** Strictly increasing positions. */
  ghost predicate Increasing(ks: seq<nat>) {
    forall i, j :: 0 <= i < j < |ks| ==> ks[i] < ks[j]
  }

  /** Positions into `vals[1..]` as positions into `vals`. */
  ghost function Shift(ks: seq<nat>): seq<nat> {
    seq(|ks|, j requires 0 <= j < |ks| => ks[j] + 1)
  }

  lemma ShiftKeepsIncreasing(ks: seq<nat>)
    requires Increasing(ks)
    ensures Increasing(Shift(ks)) && Increasing([0] + Shift(ks))
    ensures 0 !in Shift(ks)
    ensures forall k :: 0 < k && k - 1 in ks ==> k in Shift(ks)
  {
    var r := Shift(ks);
    var z := [0] + r;
    forall i, j | 0 <= i < j < |z|
      ensures z[i] < z[j]
    {
      assert z[j] == r[j - 1];
      if 0 < i {
        assert z[i] == r[i - 1];
      }
    }
    forall k | 0 < k && k - 1 in ks
      ensures k in r
    {
      var j :| 0 <= j < |ks| && ks[j] == k - 1;
      assert r[j] == k;
    }
  }

  /** What `construct_item` makes of each record, position by position. */
  ghost function Outcomes(codec: Codec, vals: seq<Json>): seq<Result<Option<Item>, LoadError>> {
    seq(|vals|, k requires 0 <= k < |vals| => ConstructItem(codec, vals[k]))
  }

  /** `ks` picks out, in increasing order, the positions whose outcome was
      one of `items`; every position it leaves out had an unknown tag. */
  ghost predicate KeptInOrder(outs: seq<Result<Option<Item>, LoadError>>, items: seq<Item>, ks: seq<nat>) {
    && |ks| == |items|
    && (forall j :: 0 <= j < |ks| ==> ks[j] < |outs| && outs[ks[j]] == Success(Some(items[j])))
    && Increasing(ks)
    && (forall k :: 0 <= k < |outs| && k !in ks ==> outs[k] == Success(None))
  }

  /** The loaded marketplace keeps the relative order of the records it came
      from and drops exactly the records with an unknown tag. */
  lemma {:induction false} GenerateKeepsOrder(codec: Codec, vals: seq<Json>) returns (ks: seq<nat>)
    requires GenerateItems(codec, vals).Success?
    ensures KeptInOrder(Outcomes(codec, vals), GenerateItems(codec, vals).value, ks)
  {
    if |vals| == 0 {
      ks := [];
    } else {
      var outs := Outcomes(codec, vals);
      assert outs[1..] == Outcomes(codec, vals[1..]);
      var tail := GenerateKeepsOrder(codec, vals[1..]);
      ks := KeptCons(outs, GenerateItems(codec, vals[1..]).value, tail);
    }
  }

  /** One step of `GenerateKeepsOrder`: the tail's positions move up by one,
      and position 0 joins them when the first outcome was an item. */
  lemma KeptCons(outs: seq<Result<Option<Item>, LoadError>>, rest: seq<Item>, tail: seq<nat>)
    returns (ks: seq<nat>)
    requires |outs| > 0 && outs[0].Success?
    requires KeptInOrder(outs[1..], rest, tail)
    ensures KeptInOrder(outs, if outs[0].value.Some? then [outs[0].value.value] + rest else rest, ks)
  {
    if outs[0].value.Some? {
      KeptConsItem(outs, rest, tail);
      ks := [0] + Shift(tail);
    } else {
      ShiftedPicks(outs, rest, tail);
      ShiftedDrops(outs, rest, tail);
      ShiftKeepsIncreasing(tail);
      ks := Shift(tail);
    }
  }

  /** `KeptCons` when the first outcome was an item: position 0 comes first. */
  lemma KeptConsItem(outs: seq<Result<Option<Item>, LoadError>>, rest: seq<Item>, tail: seq<nat>)
    requires |outs| > 0 && outs[0].Success? && outs[0].value.Some?
    requires KeptInOrder(outs[1..], rest, tail)
    ensures KeptInOrder(outs, [outs[0].value.value] + rest, [0] + Shift(tail))
  {
    ConsPicks(outs, rest, tail);
    ConsDrops(outs, rest, tail);
    ShiftKeepsIncreasing(tail);
  }

  /** With position 0 in front, each picked position still holds its item. */
  lemma ConsPicks(outs: seq<Result<Option<Item>, LoadError>>, rest: seq<Item>, tail: seq<nat>)
    requires |outs| > 0 && outs[0].Success? && outs[0].value.Some?
    requires KeptInOrder(outs[1..], rest, tail)
    ensures var ks, items := [0] + Shift(tail), [outs[0].value.value] + rest;
            forall j :: 0 <= j < |ks| ==> ks[j] < |outs| && outs[ks[j]] == Success(Some(items[j]))
  {
    var shifted := Shift(tail);
    ShiftedPicks(outs, rest, tail);
    var ks, items := [0] + shifted, [outs[0].value.value] + rest;
    forall j | 0 < j < |ks|
      ensures ks[j] < |outs| && outs[ks[j]] == Success(Some(items[j]))
    {
      assert ks[j] == shifted[j - 1] && items[j] == rest[j - 1];
    }
  }

  /** With position 0 in front, every position left out had an unknown tag. */
  lemma ConsDrops(outs: seq<Result<Option<Item>, LoadError>>, rest: seq<Item>, tail: seq<nat>)
    requires |outs| > 0
    requires KeptInOrder(outs[1..], rest, tail)
    ensures forall k :: 0 <= k < |outs| && k !in [0] + Shift(tail) ==> outs[k] == Success(None)
  {
    var ks := [0] + Shift(tail);
    ShiftedDrops(outs, rest, tail);
    forall k | 0 <= k < |outs| && k !in ks
      ensures outs[k] == Success(None)
    {
      assert ks[0] == 0;
      assert k != 0 && k !in Shift(tail);
    }
  }

  /** The tail's picked positions, moved up by one, pick the same items
      out of `outs`. */
  lemma ShiftedPicks(outs: seq<Result<Option<Item>, LoadError>>, rest: seq<Item>, tail: seq<nat>)
    requires |outs| > 0
    requires KeptInOrder(outs[1..], rest, tail)
    ensures forall j :: 0 <= j < |tail| ==>
              Shift(tail)[j] < |outs| && outs[Shift(tail)[j]] == Success(Some(rest[j]))
  {
    var shifted := Shift(tail);
    forall j | 0 <= j < |tail|
      ensures shifted[j] < |outs| && outs[shifted[j]] == Success(Some(rest[j]))
    {
      assert outs[shifted[j]] == outs[1..][tail[j]];
    }
  }

  /** Past position 0, a position the shifted tail leaves out had an
      unknown tag. */
  lemma ShiftedDrops(outs: seq<Result<Option<Item>, LoadError>>, rest: seq<Item>, tail: seq<nat>)
    requires |outs| > 0
    requires KeptInOrder(outs[1..], rest, tail)
    ensures forall k :: 0 < k < |outs| && k !in Shift(tail) ==> outs[k] == Success(None)
  {
    var shifted := Shift(tail);
    ShiftKeepsIncreasing(tail);
    forall k | 0 < k < |outs| && k !in shifted
      ensures outs[k] == Success(None)
    {
      assert k - 1 !in tail;
      assert outs[k] == outs[1..][k - 1];
    }
  }

  /** Loading two runs of records one after the other is loading the first
      run, then the second, and joining the items in that order; a failure in
      the first run wins over one in the second. */
  lemma {:induction false} GenerateAppend(codec: Codec, front: seq<Json>, back: seq<Json>)
    ensures GenerateItems(codec, front + back) ==
              match GenerateItems(codec, front)
              case Failure(e) => Failure(e)
              case Success(xs) =>
                match GenerateItems(codec, back)
                case Failure(e) => Failure(e)
                case Success(ys) => Success(xs + ys)
  {
    if |front| == 0 {
      assert front + back == back;
      if GenerateItems(codec, back).Success? {
        assert [] + GenerateItems(codec, back).value == GenerateItems(codec, back).value;
      }
    } else {
      var joined := front + back;
      assert joined[0] == front[0];
      assert joined[1..] == front[1..] + back;
      GenerateAppend(codec, front[1..], back);
      if GenerateItems(codec, front).Success? && GenerateItems(codec, back).Success? {
        var rest := GenerateItems(codec, front[1..]).value;
        var ys := GenerateItems(codec, back).value;
        var first := ConstructItem(codec, front[0]).value;
        if first.Some? {
          assert [first.value] + (rest + ys) == ([first.value] + rest) + ys;
        }
      }
    }
  }

  /** A record with an unknown tag, wherever it sits, leaves the load as it
      would have been without it. */
  lemma {:induction false} GenerateSkipsUnknown(codec: Codec, vals: seq<Json>, at: nat, val: Json)
    requires at <= |vals|
    requires TypeTag(val).Some? && !HasKnownTag(val)
    ensures GenerateItems(codec, vals[..at] + [val] + vals[at..]) == GenerateItems(codec, vals)
  {
    var grown := vals[..at] + [val] + vals[at..];
    if at == 0 {
      assert grown[0] == val && grown[1..] == vals;
      assert ConstructItem(codec, val) == Success(None);
    } else {
      assert grown[0] == vals[0];
      assert grown[1..] == vals[1..][..at - 1] + [val] + vals[1..][at - 1..];
      GenerateSkipsUnknown(codec, vals[1..], at - 1, val);
      assert GenerateItems(codec, grown[1..]) == GenerateItems(codec, vals[1..]);
    }
  }

  /** The load stops at the first record it cannot load and reports that
      record's error, whatever follows it. */
  lemma {:induction false} GenerateFailsFast(codec: Codec, vals: seq<Json>, at: nat)
    requires at < |vals| && ConstructItem(codec, vals[at]).Failure?
    requires forall k :: 0 <= k < at ==> ConstructItem(codec, vals[k]).Success?
    ensures GenerateItems(codec, vals) == Failure(ConstructItem(codec, vals[at]).error)
  {
    if at > 0 {
      assert vals[1..][at - 1] == vals[at];
      assert forall k :: 0 <= k < at - 1 ==> vals[1..][k] == vals[k + 1];
      GenerateFailsFast(codec, vals[1..], at - 1);
    }
  }

  /** An item survives save and load when its `serialize()` tags it with its
      kind and its kind's decoder reads back the saved record as the item. */
  ghost predicate RoundTrips(codec: Codec, item: Item) {
    && "type" in codec.serialize(item)
    && codec.serialize(item)["type"] == Str(Tag(KindOf(item)))
    && Decode(codec, KindOf(item), ConstructValue(codec, item)) == Some(item)
  }

  lemma ConstructValueRoundTrip(codec: Codec, item: Item)
    requires RoundTrips(codec, item)
    ensures ConstructItem(codec, ConstructValue(codec, item)) == Success(Some(item))
  {
    assert TypeTag(ConstructValue(codec, item)) == Some(Tag(KindOf(item)));
    TagRoundTrip(KindOf(item));
  }

  /** Saving a marketplace and loading it again gives back the same items in
      the same positions, provided each item round-trips on its own. */
  lemma {:induction false} StoreRoundTrip(codec: Codec, m: MarketPlace)
    requires forall k :: 0 <= k < |m.items| ==> RoundTrips(codec, m.items[k])
    ensures GenerateMarketPlace(codec, FromMarketPlace(codec, m)) == Success(m)
  {
    ItemsRoundTrip(codec, m.items);
  }

  lemma {:induction false} ItemsRoundTrip(codec: Codec, items: seq<Item>)
    requires forall k :: 0 <= k < |items| ==> RoundTrips(codec, items[k])
    ensures GenerateItems(codec, ConstructValues(codec, items)) == Success(items)
  {
    if |items| > 0 {
      assert [items[0]] + items[1..] == items;
      var vals := ConstructValues(codec, items);
      assert vals[1..] == ConstructValues(codec, items[1..]);
      ConstructValueRoundTrip(codec, items[0]);
      ItemsRoundTrip(codec, items[1..]);
      assert GenerateItems(codec, vals) == Success([items[0]] + items[1..]);
    }
  }
}
