/**
 * The kit expander as `createGrantedItems` runs it: a method that resolves the
 * entries in one batch, then walks them in order, drawing a fresh id for
 * every clone from an id generator and pushing clones and the results of
 * recursive calls onto an accumulator.
 */
module KitDocument {
  import opened Wrappers
  import opened ActorSize
  import opened KitData
  import opened KitExpansion

  /** The source of fresh document ids: a counter. */
  class IdGenerator {
    var counter: nat

    constructor (start: nat)
      ensures counter == start
    {
      counter := start;
    }

    /** A fresh id; no id is handed out twice. */
    method RandomId() returns (id: Id)
      modifies this
      ensures id == old(counter) && counter == old(counter) + 1
    {
      id := counter;
      counter := counter + 1;
    }
  }

  /** Expands the override entries, or the kit's own, into physical clones.
      The outcome and the generator's new state are those of ExpandKit. */
  method CreateGrantedItems(gen: IdGenerator, resolve: Resolver, kit: Kit, entries: Option<seq<Entry>>,
                            containerId: Option<Id>, size: Option<Size>, fuel: nat) returns (r: Outcome)
    modifies gen
    ensures (r, gen.counter) == ExpandKit(resolve, kit, entries, containerId, size, fuel, old(gen.counter))
    decreases fuel, EntriesSize(RootEntries(kit, entries)), 1
  {
    var s := NormalizeSize(size);
    var es := RootEntries(kit, entries);
    var found := resolve(Uuids(es));
    if |es| != |found| {
      return NotFound(NotFoundMessage(kit.name));
    }
    if !AllItems(found) {
      return Granted([]);
    }
    ghost var total := ExpandFrom(resolve, kit, es, found, 0, containerId, s, fuel, gen.counter);
    var prepared: seq<Item> := [];
    var i := 0;
    PrependNothing(total.0);
    while i < |es|
      invariant 0 <= i <= |es|
      invariant total.0 == Prepend(prepared, ExpandFrom(resolve, kit, es, found, i, containerId, s, fuel, gen.counter).0)
      invariant total.1 == ExpandFrom(resolve, kit, es, found, i, containerId, s, fuel, gen.counter).1
      decreases |es| - i
    {
      EntrySmaller(es, i);
      SuffixSize(es, i);
      var piece := GrantEntry(gen, resolve, kit, es[i], found[i], containerId, s, fuel);
      if !piece.Granted? {
        return piece;
      }
      PrependTwice(prepared, piece.items, ExpandFrom(resolve, kit, es, found, i + 1, containerId, s, fuel, gen.counter).0);
      prepared := prepared + piece.items;
      i := i + 1;
    }
    assert prepared + [] == prepared;
    return Granted(prepared);
  }

  /** The body of the fold over the resolved entries: clones one template
      under a fresh id and returns what it adds to the accumulator. */
  method GrantEntry(gen: IdGenerator, resolve: Resolver, kit: Kit, entry: Entry, template: Template,
                    containerId: Option<Id>, size: Size, fuel: nat) returns (piece: Outcome)
    requires !template.NotAnItem?
    modifies gen
    ensures (piece, gen.counter) == Contribution(resolve, kit, entry, template, containerId, size, fuel, old(gen.counter))
    decreases fuel, EntrySize(entry), 2
  {
    var id := gen.RandomId();
    match template {
      case Physical(name, isContainer) =>
        var clone := Item(id, name, isContainer, size, entry.quantity, containerId);
        if isContainer && entry.items.Items? {
          NestedSmaller(entry);
          var contents := CreateGrantedItems(gen, resolve, kit, Some(Values(entry.items.record)), Some(id), Some(size), fuel);
          piece := Prepend([clone], contents);
        } else {
          piece := Granted([clone]);
        }
      case NestedKit(nested) =>
        if fuel == 0 {
          piece := TooDeep;
        } else {
          piece := CreateGrantedItems(gen, resolve, nested, None, containerId, Some(size), fuel - 1);
        }
      case OtherItem(_) =>
        piece := Granted([]);
    }
  }
}
