# Kit expander

A model of the kit item of a Pathfinder 2e content package for a virtual
tabletop host. A kit is an item that bundles other items: its stored record
lists entries, each naming an item by uuid, a quantity, and (for a
container) further entries to place inside it. Granting a kit to an actor
runs `createGrantedItems`, which turns that entry tree into a flat, ordered
list of physical item clones:

1. the requested size is normalised (medium by default, small collapsed to
   medium);
2. the entries are the override entries of a recursive call, or else the
   values of the kit's stored record in stored order;
3. all entry uuids are resolved in one batch;
4. a result count different from the entry count throws
   "Some items from <kit name> were not found";
5. any result that is not an item makes the call return nothing;
6. otherwise every result is cloned, in entry order, under a fresh id and
   with the normalised size; a physical clone is stamped with the entry's
   quantity and the caller's container id; then
   - a container whose entry has nested entries is emitted, followed at
     once by the expansion of the nested entries, parented to the clone's
     new id;
   - a nested kit is replaced by its own expansion, parented to the
     caller's container id (its own clone, and its entry's quantity, play
     no part);
   - a plain physical item is emitted;
   - anything else is dropped.

Modules, one per concern:

- `Wrappers` (`wrappers.dfy`): `Option`, with `GetOr` for the `??` operator.
- `ActorSize` (`actor_size.dfy`): the six size categories and the
  normalisation rule the expander relies on.
- `KitData` (`kit_data.dfy`): entries, kits, templates (what a uuid resolves
  to), clones, the `entries` and `price` getters, and the size measure on
  entry trees under which container nesting terminates.
- `KitExpansion` (`kit_expansion.dfy`): the expansion as pure functions.
  `ExpandKit` is one call; `ExpandFrom` walks the entries from an index on;
  `Contribution` is what one entry adds. They thread the id counter and
  return its final value with the outcome.
- `KitDocument` (`kit_document.dfy`): the expansion as `createGrantedItems` runs it.
  `IdGenerator` is a class whose counter stands for the host's random ids;
  `CreateGrantedItems` is a recursive method with a loop over the entries, a
  `prepared` accumulator, early exits for the two error paths and for a
  failing recursive call; its postcondition equates its outcome and the
  generator's new counter with `ExpandKit`.
- `KitProperties` (`kit_properties.dfy`): the guarantees, proved about
  `ExpandKit`.

The item lookup of the host is a parameter `resolve: seq<Uuid> ->
seq<Template>` of every call. A template is `Physical(name, isContainer)`,
`NestedKit(kit)`, `OtherItem(name)` (an item that is neither physical nor a
kit) or `NotAnItem` (a document that is not an item). The output type
`Item` has only physical clones, so a kit can never appear in the output.

Nested containers recurse on the entry's own `items`, which is structural.
Nested kits recurse on the entries of the *resolved* kit, and nothing stops
a kit from containing itself, in which case `createGrantedItems` never returns. The
model bounds the depth of nested kits by `fuel` and returns `TooDeep` when a
nested kit is reached with no fuel left; `FuelIsOnlyABound` proves that
every other result is the same for any larger bound.

Where the code is easy to misread, the model follows the code:

- the size is always overwritten on every clone; there is no per-entry
  opt-out from scaling;
- the count comparison is "different from", not "fewer than";
- the soft failure fires when *any* result is not an item, not only when
  none is;
- a quantity is copied from the entry as is; no default is applied;
- both failures are local to one call: a "not found" error in a nested call
  aborts the whole expansion, while a nested call that finds a non-item
  only contributes nothing at that place.

## Model

| member | source | states |
|---|---|---|
| `ActorSize.SmallIsMedium` | src/module/item/kit/document.ts:28 | small becomes medium, every other size is kept, and the result is never small |
| `ActorSize.NormalizeSize` | src/module/item/kit/document.ts:28 | no request gives medium, small gives medium, any other request is kept; the result is never small |
| `ActorSize.NormalizeIsIdempotent` | src/module/item/kit/document.ts:47-54 | normalising an already normalised size changes nothing, so recursive calls that receive the caller's size use that same size |
| `KitData.Values` | src/module/item/kit/document.ts:48 | the values of an entry record, one per stored key, in stored order |
| `KitData.Entries` | src/module/item/kit/document.ts:13-15 | the kit's entries are the values of its stored record, in stored order |
| `KitData.PriceOf` | src/module/item/kit/document.ts:17-22 | the price keeps the stored coin value; "per" is the stored count, or 1 only when it is absent |
| `KitData.Uuids` | src/module/item/kit/document.ts:30 | one uuid per entry, position by position |
| `KitExpansion.NotFoundMessage` | src/module/item/kit/document.ts:32 | the error text holds the kit's name whole, between the fixed words "Some items from " and " were not found" |
| `KitExpansion.NotFoundMessageNamesKit` | src/module/item/kit/document.ts:32 | two kits get the same error text only when they have the same name |
| `KitExpansion.ExpandKit` | src/module/item/kit/document.ts:25-62 | one call: normalise the size, take the override or own entries, resolve them in one batch, fail on a count mismatch, grant nothing on a non-item, else walk the entries; the id counter never goes back and every granted clone has drawn its own id |
| `KitExpansion.ExpandFrom` | src/module/item/kit/document.ts:35-61 | the fold over the resolved entries from an index on, each entry's contribution followed by the rest and a failure ending the fold; the counter never goes back and every granted clone has drawn its own id |
| `KitExpansion.Contribution` | src/module/item/kit/document.ts:36-60 | one entry: fresh id, size, and for a physical clone quantity and container id; container with nested entries then its contents under the clone's id, nested kit replaced by its expansion under the caller's container id, plain item alone, anything else nothing; it always draws at least one id, and at least as many as clones it grants |
| `KitExpansion.RootEntries` | src/module/item/kit/document.ts:29 | the override entries when given, else the kit's own entries |
| `KitDocument.IdGenerator.RandomId` | src/module/item/kit/document.ts:37 | each clone id is the counter's value, and the counter moves on, so no id is handed out twice |
| `KitDocument.GrantEntry` | src/module/item/kit/document.ts:36-60 | the body of the fold, run imperatively with the id generator and recursive calls, yields exactly the contribution and the id counter of `Contribution` |
| `KitDocument.CreateGrantedItems` | src/module/item/kit/document.ts:25-62 | the loop over the resolved entries, with its accumulator and recursive calls, yields exactly the outcome and the id counter of `ExpandKit` |
| `KitProperties.MismatchIsNotFound` | src/module/item/kit/document.ts:32 | a result count different from the entry count throws the kit's "not found" error, grants nothing and draws no id |
| `KitProperties.UnusableBatchIsEmpty` | src/module/item/kit/document.ts:33 | with a complete lookup, one non-item result anywhere makes the call grant nothing, without an error and without drawing an id |
| `KitProperties.CompactingLookup` | src/module/item/kit/document.ts:30-31 | a batch lookup that drops unknown uuids is as long as its input exactly when all are known, and then keeps their positions |
| `KitProperties.MissingReferenceIsNotFound` | src/module/item/kit/document.ts:30-32 | with such a lookup, one unknown uuid among the entries makes the call throw the kit's "not found" error |
| `KitProperties.PlainKitOneClonePerEntry` | src/module/item/kit/document.ts:35-57 | entries that all resolve to physical items not expanded as containers give exactly one clone per entry, in entry order, with the next fresh id, the template's data, the normalised size, the entry's quantity and the caller's container id |
| `KitProperties.PlainEntriesFrom` | src/module/item/kit/document.ts:35-61 | the same, for the entries from any index on |
| `KitProperties.ExpandKitWellFormed` | src/module/item/kit/document.ts:35-61 | every clone of a call, at any depth, has the normalised size, ids strictly increase and are fresh from the counter, and every container id is either the caller's or that of an earlier container clone |
| `KitProperties.ExpandFromWellFormed` | src/module/item/kit/document.ts:35-61 | the same for the clones of the entries from an index on |
| `KitProperties.ContributionWellFormed` | src/module/item/kit/document.ts:37-58 | the same for the clones one entry contributes, which always draws at least one id |
| `KitProperties.UniformSize` | src/module/item/kit/document.ts:28-54 | every clone of an expansion, nested contents and inflated kits included, carries the normalised requested size; with no size or small requested it is medium |
| `KitProperties.ContainerPrecedesContents` | src/module/item/kit/document.ts:46-52 | a container entry with nested entries yields its clone, then at once the contents expanded under the clone's id, then the siblings; a failing nested call fails the whole; the contents' clones sit in the container or in earlier clones of the contents |
| `KitProperties.PlainEntryStep` | src/module/item/kit/document.ts:37-57 | a plain physical entry anywhere among the entries yields one clone with the next id, its own entry's quantity, the caller's container id and the size, followed by the rest of the entries |
| `KitProperties.NestedKitSplicedInPlace` | src/module/item/kit/document.ts:53-55 | a nested kit yields only its own expansion, under the caller's container id and with the same size, followed by the siblings; a failing nested call fails the whole |
| `KitProperties.NestedKitIgnoresEntry` | src/module/item/kit/document.ts:39-55 | what a nested kit contributes does not depend on its entry, so the entry's quantity is never applied |
| `KitProperties.NestedKitAtBound` | src/module/item/kit/document.ts:53-54 | a nested kit met with no depth left ends the expansion with `TooDeep` |
| `KitProperties.OtherItemDropped` | src/module/item/kit/document.ts:53-58 | an item that is neither physical nor a kit uses up an id and contributes nothing |
| `KitProperties.ExpandKitFuel` | src/module/item/kit/document.ts:53-55 | one more level of allowed nesting changes no result that was not cut off |
| `KitProperties.ExpandFromFuel` | src/module/item/kit/document.ts:53-55 | the same for the entries from an index on |
| `KitProperties.ContributionFuel` | src/module/item/kit/document.ts:53-55 | the same for one entry |
| `KitProperties.FuelIsOnlyABound` | src/module/item/kit/document.ts:53-55 | any larger bound gives the same result as one that already lets the expansion finish |

## Left out

- The `_preUpdate` hook (src/module/item/kit/document.ts:64-82), which clears zero price denominations before delegating to the host: it is host glue. As written it sets the literal key `"-=denomination"` rather than one built from the denomination.
- src/scripts/register-keybindings.ts: key bindings over host globals, with no logic of its own.
- Asynchrony: the lookup and the recursive calls are awaited one after another, so the model is a plain sequential walk.
- The host's batch lookup is not part of this model: it is the `resolve` parameter. `CompactingLookup` is one lookup with the behaviour the count comparison assumes, not the host's.
- The host's random ids are not part of this model: a counter replaces them, which makes every id fresh by construction.
- The host's size class is not part of this model: `NormalizeSize` states the one rule used (small is medium, everything else kept, medium by default).
- The host's coin class is not part of this model: the price getter passes the stored coin value through unchanged.
- Cloning keeps all stored data of a template; the model keeps only its name and whether it is a container. Writing an absent container id is modelled as clearing the link.
- The error's text is the interpolated message; any prefix the host's error helper adds is not modelled.
- The record of nested entries is a list of key/entry pairs in stored order; the host's rule that integer-like keys enumerate first is not modelled.
- A kit that contains itself makes `createGrantedItems` recurse without end; the model cuts such nesting off at the `fuel` bound with `TooDeep`.
