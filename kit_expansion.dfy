/**
 * The expansion of a kit's entry tree into a flat list of physical clones,
 * as a pure definition, and what it guarantees.
 *
 * A call is given the resolver (the host's batch lookup of references), the
 * kit whose entries are expanded, the optional override entries, the
 * container the produced top-level clones belong to, the requested size,
 * a bound on the depth of nested kits, and the next value of the id
 * counter. It returns the outcome and the counter after the call.
 */
module KitExpansion {
  import opened Wrappers
  import opened ActorSize
  import opened KitData

  /** The batch lookup: the templates found for a list of references. */
  type Resolver = seq<Uuid> -> seq<Template>

  /** The outcome of an expansion: the clones to grant, the error thrown when
      a lookup came back short, or (where `createGrantedItems` would recurse without
      end) the nested-kit depth bound was reached. */
  datatype Outcome = Granted(items: seq<Item>) | NotFound(message: string) | TooDeep

  /** The message of the error raised for a kit whose lookup came back short. */
  function NotFoundMessage(kitName: string): (m: string)
    ensures |m| == |kitName| + 31
    ensures m[..16] == "Some items from " && m[16 + |kitName|..] == " were not found"
    ensures m[16..16 + |kitName|] == kitName
  {
    "Some items from " + kitName + " were not found"
  }

  /** The message tells kits apart: two kits get the same message only when
      they have the same name. */
  lemma NotFoundMessageNamesKit(a: string, b: string)
    ensures NotFoundMessage(a) == NotFoundMessage(b) ==> a == b
  {
    if NotFoundMessage(a) == NotFoundMessage(b) {
      assert |a| == |b|;
      assert a == NotFoundMessage(a)[16..16 + |a|];
    }
  }

  /** The entries a call works on: the override, or else the kit's own. */
  function RootEntries(kit: Kit, entries: Option<seq<Entry>>): (es: seq<Entry>)
    ensures entries.Some? ==> es == entries.value
    ensures entries.None? ==> es == Entries(kit)
  {
    entries.GetOr(Entries(kit))
  }

  /** Every resolved result is an item document. */
  predicate AllItems(found: seq<Template>)
  {
    forall i :: 0 <= i < |found| ==> !found[i].NotAnItem?
  }

  /** `prefix` followed by the clones of `rest`; an error passes through and
      discards the prefix. */
  function Prepend(prefix: seq<Item>, rest: Outcome): (r: Outcome)
    ensures r.Granted? <==> rest.Granted?
    ensures r.Granted? ==> r.items == prefix + rest.items
    ensures !rest.Granted? ==> r == rest
  {
    if rest.Granted? then Granted(prefix + rest.items) else rest
  }

  lemma PrependNothing(r: Outcome)
    ensures Prepend([], r) == r
  {
    if r.Granted? {
      assert [] + r.items == r.items;
    }
  }

  lemma PrependTwice(a: seq<Item>, b: seq<Item>, r: Outcome)
    ensures Prepend(a, Prepend(b, r)) == Prepend(a + b, r)
  {
    if r.Granted? {
      assert a + (b + r.items) == (a + b) + r.items;
    }
  }

  /** One call of the expander. */
  function ExpandKit(resolve: Resolver, kit: Kit, entries: Option<seq<Entry>>, containerId: Option<Id>,
                     size: Option<Size>, fuel: nat, next: Id): (r: (Outcome, Id))
    ensures next <= r.1
    ensures r.0.Granted? ==> |r.0.items| <= r.1 - next
    decreases fuel, EntriesSize(RootEntries(kit, entries)), 1
  {
    var s := NormalizeSize(size);
    var es := RootEntries(kit, entries);
    var found := resolve(Uuids(es));
    if |es| != |found| then (NotFound(NotFoundMessage(kit.name)), next)
    else if !AllItems(found) then (Granted([]), next)
    else ExpandFrom(resolve, kit, es, found, 0, containerId, s, fuel, next)
  }

  /** The clones produced by the entries from index `i` on, in entry order. */
  function ExpandFrom(resolve: Resolver, kit: Kit, es: seq<Entry>, found: seq<Template>, i: nat,
                      containerId: Option<Id>, size: Size, fuel: nat, next: Id): (r: (Outcome, Id))
    requires |found| == |es| && AllItems(found) && i <= |es|
    ensures next <= r.1
    ensures r.0.Granted? ==> |r.0.items| <= r.1 - next
    decreases fuel, EntriesSize(es[i..]), 0
  {
    if i == |es| then (Granted([]), next)
    else
      SuffixSize(es, i);
      var (piece, mid) := Contribution(resolve, kit, es[i], found[i], containerId, size, fuel, next);
      if !piece.Granted? then (piece, mid)
      else
        var (rest, last) := ExpandFrom(resolve, kit, es, found, i + 1, containerId, size, fuel, mid);
        (Prepend(piece.items, rest), last)
  }

  /** What one entry contributes: its template is cloned under a fresh id,
      stamped with the size and, when physical, with the entry's quantity
      and the enclosing container; then a container with nested entries
      comes first and its expanded contents after it, a nested kit is
      replaced by its own expansion, a plain physical item is emitted alone,
      and any other item contributes nothing. */
  function Contribution(resolve: Resolver, kit: Kit, entry: Entry, template: Template,
                        containerId: Option<Id>, size: Size, fuel: nat, next: Id): (r: (Outcome, Id))
    requires !template.NotAnItem?
    ensures next < r.1
    ensures r.0.Granted? ==> |r.0.items| <= r.1 - next
    decreases fuel, EntrySize(entry), 2
  {
    var id := next;
    match template
    case Physical(name, isContainer) =>
      var clone := Item(id, name, isContainer, size, entry.quantity, containerId);
      if isContainer && entry.items.Items? then
        NestedSmaller(entry);
        var (contents, last) := ExpandKit(resolve, kit, Some(Values(entry.items.record)), Some(id), Some(size), fuel, id + 1);
        (Prepend([clone], contents), last)
      else
        (Granted([clone]), id + 1)
    case NestedKit(nested) =>
      if fuel == 0 then (TooDeep, id + 1)
      else ExpandKit(resolve, nested, None, containerId, Some(size), fuel - 1, id + 1)
    case OtherItem(_) =>
      (Granted([]), id + 1)
  }
}
