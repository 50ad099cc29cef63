# Marketplace model

A Dafny model of a small command-line flea market ("Bosses loppis"). The
program keeps an ordered list of items for sale: cars, foxes and dogs. It can
list them, add one, change an item's price and remove an item by position. It
saves the list to a JSON file and loads it back, choosing each item's variant
from the record's `"type"` tag.

The model has five modules:

- `Wrappers` (`wrappers.dfy`): `Option` and `Result`. A `Failure` result
  stands for a panic of the program. It aborts the whole operation.
- `Json` (`json.dfy`): JSON values. A record is a `map<string, Json>`.
- `Items` (`items.dfy`): the `Item` trait and its variants as one closed
  datatype `Car(price, motor) | Fox(price) | Dog(price, length)`. It also holds
  the display names, the sounds (with the trait's default) and `set_price`.
  Prices are `i32` and the dog's length is `u32`, both as subset types of `int`.
- `Registry` (`registry.dfy`): `MarketPlace`, a `seq<Item>` addressed by
  position, with `list_items`, `create_item`, `change_price` and `remove_item`.
- `Store` (`store.dfy`): the persistence adapter. Each item becomes a record
  with its price injected. The records are later dispatched back to items by tag.

Dog's own behaviour, each variant's `serialize()` and the serde decoders are
taken as given rather than derived, so they are parameters:

- Dog's display name and sound are a `DogImpl` value. Its `sound` is `None`
  when Dog keeps the trait's default.
- Every item's `serialize()` and the three serde decoders are the fields of a
  `Codec` value. A decoder returns the fields of its own variant, or `None` for
  a record it cannot read.

The create command's prompts appear as already-parsed `Answers`. A numeric
answer that did not parse is `None`.

Error paths follow the code:

- `change_price` and `remove_item` report an out-of-range position and leave
  the marketplace unchanged.
- `create_item` returns `UnknownType` or `BadInput` and adds nothing.
- On load, a record whose tag is unknown is skipped.
- On load, a record without a string `"type"` aborts the load with
  `MissingTag`, modelling the `unwrap` panic.
- On load, a known-tag record that its decoder rejects aborts the load with
  `Malformed`, also modelling the `unwrap` panic.

## Model

| member | source | states |
|---|---|---|
| Items.KindOfTag | src/store.rs:20-25 | a type string selects a kind exactly when it is "Car", "Fox" or "Dog", and the selected kind's tag is that string |
| Items.TagRoundTrip | src/store.rs:21-23 | every kind's tag dispatches back to the same kind, so no two kinds share a tag |
| Items.Name | src/items.rs:7-31 | Car is always labelled "Bil" and Fox "Räv" whatever their price or fields; Dog's label is its implementation's |
| Items.MakeSound | src/items.rs:19-51 | Car says "Vroom vroom!"; Fox has no override and so gives the trait default "Detta föremål gör inget ljud!"; Dog gives its override or else that default |
| Items.SetPrice | src/items.rs:15-35 | after `set_price(p)` the price is `p` for every variant and every i32, and the variant, motor and length are untouched (for Dog as assumed under Left out) |
| Items.SetPriceKeepsPresentation | src/items.rs:6-40 | a price change never alters an item's name or sound |
| Items.SetPriceOnlyTouchesPrice | src/items.rs:15-17 | setting the current price is a no-op, a later `set_price` overrides an earlier one, and restoring the old price restores the item |
| Registry.ListItems | src/main.rs:22-32 | the listing has one entry per item, in position order, each carrying that position, the item's name, price and sound |
| Registry.WrapU32 | src/main.rs:68-73 | `length as u32` keeps non-negative lengths and maps a negative one to itself plus 2^32 |
| Registry.NewItem | src/main.rs:36-74 | an item is built exactly when the price parsed and, for a dog, the length parsed; it has the requested kind and the entered price, a car carries the entered motor and a dog the length wrapped by `as u32` |
| Registry.CreateItem | src/main.rs:35-83 | an unknown type string adds nothing; a known one with usable answers appends exactly one item of that kind at the end, carrying the entered price, motor or wrapped length, and keeps every earlier item; otherwise nothing changes |
| Registry.ChangePrice | src/main.rs:85-92 | success exactly when the position is in range; then only that item's price changes and the length and order stay; on failure the marketplace is unchanged |
| Registry.RemoveItem | src/main.rs:94-100 | out-of-range positions, including on an empty marketplace, give None and change nothing; otherwise the removed item is returned, earlier items keep their positions and later ones move down one |
| Registry.RemoveThenReinsert | src/main.rs:94-100 | reinserting the removed item at its old position restores the marketplace, and the multiset of items loses exactly that item |
| Registry.ChangePriceUndo | src/main.rs:85-92 | repricing an item and then restoring its old price gives back the original marketplace |
| Registry.CreateThenRemove | src/main.rs:35-100 | after a successful create, removing the last position returns the new item and the marketplace as it was before |
| Store.Decode | src/store.rs:14-15 | decoding as a kind fails exactly when that kind's decoder rejects the record; otherwise the item is of that kind and its price, motor or length are the ones the decoder read |
| Store.ConstructItemType | src/store.rs:14-17 | a record the kind's decoder rejects aborts with `Malformed(kind)`; otherwise the result is the decoded item, of that kind |
| Store.ConstructItem | src/store.rs:19-26 | a missing or non-string tag aborts; an unknown tag gives no item; a loaded item is what the decoder of the kind its tag names read from the record; a rejected known-tag record aborts as that kind |
| Store.ConstructValue | src/store.rs:28-34 | the record has exactly the keys of `serialize()` plus "price"; "price" holds the item's price even if `serialize()` set one; every other key keeps its value |
| Store.ConstructValues | src/store.rs:39 | one record per item, in the same order, each the item's constructed value |
| Store.FromMarketPlace | src/store.rs:37-41 | the store has as many records as the marketplace has items; record k is item k's value and carries item k's price |
| Store.GenerateItemsSpec | src/store.rs:48-52 | the load succeeds exactly when every record loads; it yields at most one item per record, and exactly one when every tag is known |
| Store.GenerateMarketPlace | src/store.rs:43-55 | the same success condition and the same size bounds for the rebuilt marketplace; its items are exactly the record-by-record load (so the order, skip, fail-fast and append lemmas apply to it), and a failure is that load's error |
| Store.GenerateKeepsOrder | src/store.rs:48-52 | the loaded items are the decoded records at strictly increasing positions, in record order; every record left out had an unknown tag |
| Store.GenerateAppend | src/store.rs:48-52 | loading two runs of records back to back gives the first run's items followed by the second run's; a failure in the first run takes precedence |
| Store.GenerateSkipsUnknown | src/store.rs:24 | inserting a record with an unknown tag anywhere leaves the load result unchanged |
| Store.GenerateFailsFast | src/store.rs:15-20 | when every earlier record loads, the first record that cannot load makes the whole load fail with that record's error |
| Store.ConstructValueRoundTrip | src/store.rs:19-34 | a saved item loads back as itself when its own record is tagged with its kind and its decoder reads the saved record back |
| Store.ItemsRoundTrip | src/store.rs:37-52 | saving a sequence of such items and loading the records gives back the same items in the same order |
| Store.StoreRoundTrip | src/store.rs:36-55 | `generate_market_place(from_market_place(m))` succeeds with `m` itself when every item round-trips |

## Left out

- The interactive loop, command splitting and help text (src/main.rs:152-242) are user-interface glue.
- `prompt`, `parse` and `parse_prompt` (src/main.rs:104-126) read stdin and parse with the standard library. Their results are the `Answers` parameter. The order in which prompts are asked is not modelled.
- `read_marketplace` (src/main.rs:128-150) and the save command (src/main.rs:224-236) are file I/O. This includes the `"[]"` file written on first run and the serde text format of `MarketPlaceStore`.
- serde and serde_json internals are left out. Each variant's decoder (`from_value`) is an uninterpreted partial function in `Codec`. JSON numbers are integers only, and floating-point numbers are not modelled.
- Dog is modelled as `Dog(price: i32, length: u32)` on three assumptions. First, `Dog::new(price, length as u32)` (src/main.rs:73) stores both values as given. Second, Dog's name and sound are fixed for the variant (one `DogImpl` for every dog), so they depend on neither price nor length. Third, Dog's `price()` returns the stored price and its `set_price` replaces that price alone, keeping the length, as Car's and Fox's do; `Items.SetPrice`, `Registry.ChangePrice`, `Registry.ListItems` and `Store.ConstructValue` rest on this.
- Every variant's exact serialized fields (the concrete `serialize()` output) are not modelled. `Codec.serialize` stands for them.
- Store.ConstructValue: `serialize()` is typed as returning a record, so the `as_object_mut().unwrap()` panic for a non-object value cannot arise.
- The `println!` output is left out. This covers the listing header, the per-line format, and the messages after create, change and remove. Listing is a returned sequence of `Listing` tuples, and `create_item` returns an outcome.
- Registry.ChangePrice and Registry.RemoveItem: positions are `nat`, so the `usize` upper bound is not modelled. No position at or above the item count is accepted either way.
