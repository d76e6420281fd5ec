/**
 * What the expander guarantees: its two error paths, one clone per entry
 * for a flat kit, a container directly followed by its contents, nested
 * kits spliced in place, one size on every clone, fresh increasing ids,
 * container links that only point at earlier containers, and that the
 * nested-kit depth bound never changes a result it lets through.
 */
module KitProperties {
  import opened Wrappers
  import opened ActorSize
  import opened KitData
  import opened KitExpansion

  // ---------------------------------------------------------------------
  // Shape of an expansion's output

  /** Every clone carries size `s`. */
  predicate SizedAs(items: seq<Item>, s: Size)
  {
    forall k :: 0 <= k < |items| ==> items[k].size == s
  }

  /** Ids are strictly increasing and drawn from [lo, hi). */
  predicate FreshIds(items: seq<Item>, lo: Id, hi: Id)
  {
    && lo <= hi
    && (forall k :: 0 <= k < |items| ==> lo <= items[k].id < hi)
    && (forall j, k :: 0 <= j < k < |items| ==> items[j].id < items[k].id)
  }

  /** Clone `k` sits in a container clone that comes before it. */
  predicate ParentBefore(items: seq<Item>, k: nat)
    requires k < |items|
  {
    exists j :: 0 <= j < k && items[j].isContainer && items[k].containerId == Some(items[j].id)
  }

  /** Every clone sits either in `containerId` or in an earlier container clone. */
  predicate Linked(items: seq<Item>, containerId: Option<Id>)
  {
    forall k :: 0 <= k < |items| ==> items[k].containerId == containerId || ParentBefore(items, k)
  }

  predicate WellFormed(items: seq<Item>, s: Size, containerId: Option<Id>, lo: Id, hi: Id)
  {
    SizedAs(items, s) && FreshIds(items, lo, hi) && Linked(items, containerId)
  }

  lemma ConcatWellFormed(a: seq<Item>, b: seq<Item>, s: Size, c: Option<Id>, lo: Id, mid: Id, hi: Id)
    requires WellFormed(a, s, c, lo, mid) && WellFormed(b, s, c, mid, hi)
    ensures WellFormed(a + b, s, c, lo, hi)
  {
    var ab := a + b;
    forall k | |a| <= k < |ab| && ab[k].containerId != c
      ensures ParentBefore(ab, k)
    {
      assert ab[k] == b[k - |a|];
      assert ParentBefore(b, k - |a|);
      var j :| 0 <= j < k - |a| && b[j].isContainer && b[k - |a|].containerId == Some(b[j].id);
      assert ab[j + |a|] == b[j];
    }
    forall k | 0 <= k < |a| && ab[k].containerId != c
      ensures ParentBefore(ab, k)
    {
      assert ParentBefore(a, k);
      var j :| 0 <= j < k && a[j].isContainer && a[k].containerId == Some(a[j].id);
      assert ab[j] == a[j];
    }
  }

  lemma ContainerWellFormed(clone: Item, contents: seq<Item>, s: Size, c: Option<Id>, lo: Id, hi: Id)
    requires clone.id == lo && clone.isContainer && clone.size == s && clone.containerId == c
    requires WellFormed(contents, s, Some(lo), lo + 1, hi)
    ensures WellFormed([clone] + contents, s, c, lo, hi)
  {
    var all := [clone] + contents;
    forall k | 1 <= k < |all| && all[k].containerId != c
      ensures ParentBefore(all, k)
    {
      assert all[k] == contents[k - 1];
      if all[k].containerId != Some(lo) {
        assert ParentBefore(contents, k - 1);
        var j :| 0 <= j < k - 1 && contents[j].isContainer && contents[k - 1].containerId == Some(contents[j].id);
        assert all[j + 1] == contents[j];
      } else {
        assert all[0] == clone;
      }
    }
  }

  // ---------------------------------------------------------------------
  // Sizes, ids and container links (mutual induction over the expander)

  /** Every clone of an expansion has the normalised size, fresh increasing
      ids drawn from the counter, and a container link that is the caller's
      container or an earlier container clone. */
  lemma {:induction false} ExpandKitWellFormed(resolve: Resolver, kit: Kit, entries: Option<seq<Entry>>,
                                               containerId: Option<Id>, size: Option<Size>, fuel: nat, next: Id)
    ensures next <= ExpandKit(resolve, kit, entries, containerId, size, fuel, next).1
    ensures ExpandKit(resolve, kit, entries, containerId, size, fuel, next).0.Granted? ==>
              WellFormed(ExpandKit(resolve, kit, entries, containerId, size, fuel, next).0.items,
                         NormalizeSize(size), containerId, next,
                         ExpandKit(resolve, kit, entries, containerId, size, fuel, next).1)
    decreases fuel, EntriesSize(RootEntries(kit, entries)), 1
  {
    var es := RootEntries(kit, entries);
    var found := resolve(Uuids(es));
    if |es| == |found| && AllItems(found) {
      ExpandFromWellFormed(resolve, kit, es, found, 0, containerId, NormalizeSize(size), fuel, next);
    }
  }

  lemma {:induction false} ExpandFromWellFormed(resolve: Resolver, kit: Kit, es: seq<Entry>, found: seq<Template>, i: nat,
                                                containerId: Option<Id>, size: Size, fuel: nat, next: Id)
    requires |found| == |es| && AllItems(found) && i <= |es|
    requires size != Sm
    ensures next <= ExpandFrom(resolve, kit, es, found, i, containerId, size, fuel, next).1
    ensures ExpandFrom(resolve, kit, es, found, i, containerId, size, fuel, next).0.Granted? ==>
              WellFormed(ExpandFrom(resolve, kit, es, found, i, containerId, size, fuel, next).0.items,
                         size, containerId, next,
                         ExpandFrom(resolve, kit, es, found, i, containerId, size, fuel, next).1)
    decreases fuel, EntriesSize(es[i..]), 0
  {
    if i < |es| {
      SuffixSize(es, i);
      var (piece, mid) := Contribution(resolve, kit, es[i], found[i], containerId, size, fuel, next);
      ContributionWellFormed(resolve, kit, es[i], found[i], containerId, size, fuel, next);
      if piece.Granted? {
        var (rest, last) := ExpandFrom(resolve, kit, es, found, i + 1, containerId, size, fuel, mid);
        ExpandFromWellFormed(resolve, kit, es, found, i + 1, containerId, size, fuel, mid);
        if rest.Granted? {
          ConcatWellFormed(piece.items, rest.items, size, containerId, next, mid, last);
        }
      }
    }
  }

  lemma {:induction false} ContributionWellFormed(resolve: Resolver, kit: Kit, entry: Entry, template: Template,
                                                  containerId: Option<Id>, size: Size, fuel: nat, next: Id)
    requires !template.NotAnItem?
    requires size != Sm
    ensures next < Contribution(resolve, kit, entry, template, containerId, size, fuel, next).1
    ensures Contribution(resolve, kit, entry, template, containerId, size, fuel, next).0.Granted? ==>
              WellFormed(Contribution(resolve, kit, entry, template, containerId, size, fuel, next).0.items,
                         size, containerId, next,
                         Contribution(resolve, kit, entry, template, containerId, size, fuel, next).1)
    decreases fuel, EntrySize(entry), 2
  {
    match template
    case Physical(name, isContainer) =>
      if isContainer && entry.items.Items? {
        ContainerContributionWellFormed(resolve, kit, entry, name, containerId, size, fuel, next);
      }
    case NestedKit(k) =>
      if fuel > 0 {
        ExpandKitWellFormed(resolve, k, None, containerId, Some(size), fuel - 1, next + 1);
      }
    case OtherItem(_) =>
  }

  lemma {:induction false} ContainerContributionWellFormed(resolve: Resolver, kit: Kit, entry: Entry, name: string,
                                                           containerId: Option<Id>, size: Size, fuel: nat, next: Id)
    requires entry.items.Items? && size != Sm
    ensures Contribution(resolve, kit, entry, Physical(name, true), containerId, size, fuel, next).0.Granted? ==>
              WellFormed(Contribution(resolve, kit, entry, Physical(name, true), containerId, size, fuel, next).0.items,
                         size, containerId, next,
                         Contribution(resolve, kit, entry, Physical(name, true), containerId, size, fuel, next).1)
    decreases fuel, EntrySize(entry), 1
  {
    NestedSmaller(entry);
    var clone := Item(next, name, true, size, entry.quantity, containerId);
    var nested := Some(Values(entry.items.record));
    ExpandKitWellFormed(resolve, kit, nested, Some(next), Some(size), fuel, next + 1);
    var (contents, last) := ExpandKit(resolve, kit, nested, Some(next), Some(size), fuel, next + 1);
    assert Contribution(resolve, kit, entry, Physical(name, true), containerId, size, fuel, next)
        == (Prepend([clone], contents), last);
    if contents.Granted? {
      ContainerWellFormed(clone, contents.items, size, containerId, next, last);
    }
  }

  /** Size propagation: every clone of one expansion, nested contents and
      inflated kits included, has the requested size after normalisation
      (medium by default, small collapsed to medium). */
  lemma UniformSize(resolve: Resolver, kit: Kit, entries: Option<seq<Entry>>,
                    containerId: Option<Id>, size: Option<Size>, fuel: nat, next: Id, k: nat)
    requires ExpandKit(resolve, kit, entries, containerId, size, fuel, next).0.Granted?
    requires k < |ExpandKit(resolve, kit, entries, containerId, size, fuel, next).0.items|
    ensures ExpandKit(resolve, kit, entries, containerId, size, fuel, next).0.items[k].size == NormalizeSize(size)
    ensures size.None? || size == Some(Sm) ==>
              ExpandKit(resolve, kit, entries, containerId, size, fuel, next).0.items[k].size == Med
  {
    ExpandKitWellFormed(resolve, kit, entries, containerId, size, fuel, next);
  }

  // ---------------------------------------------------------------------
  // The two error paths

  /** A lookup that returns a different number of results than references
      raises the kit's "not found" error and grants nothing. */
  lemma MismatchIsNotFound(resolve: Resolver, kit: Kit, entries: Option<seq<Entry>>,
                           containerId: Option<Id>, size: Option<Size>, fuel: nat, next: Id)
    requires |resolve(Uuids(RootEntries(kit, entries)))| != |RootEntries(kit, entries)|
    ensures ExpandKit(resolve, kit, entries, containerId, size, fuel, next)
         == (NotFound("Some items from " + kit.name + " were not found"), next)
  {
  }

  /** A complete lookup with some result that is not an item grants nothing
      and raises nothing. */
  lemma UnusableBatchIsEmpty(resolve: Resolver, kit: Kit, entries: Option<seq<Entry>>,
                             containerId: Option<Id>, size: Option<Size>, fuel: nat, next: Id, i: nat)
    requires |resolve(Uuids(RootEntries(kit, entries)))| == |RootEntries(kit, entries)|
    requires i < |RootEntries(kit, entries)| && resolve(Uuids(RootEntries(kit, entries)))[i].NotAnItem?
    ensures ExpandKit(resolve, kit, entries, containerId, size, fuel, next) == (Granted([]), next)
  {
  }

  /** A lookup that drops the references it cannot find: the results it does
      find keep the order of their references. */
  function CompactingLookup(index: map<Uuid, Template>, uuids: seq<Uuid>): (found: seq<Template>)
    ensures |found| <= |uuids|
    ensures |found| == |uuids| <==> forall i :: 0 <= i < |uuids| ==> uuids[i] in index
    ensures (forall i :: 0 <= i < |uuids| ==> uuids[i] in index) ==>
              forall i :: 0 <= i < |uuids| ==> found[i] == index[uuids[i]]
  {
    if uuids == [] then []
    else (if uuids[0] in index then [index[uuids[0]]] else []) + CompactingLookup(index, uuids[1..])
  }

  /** With such a lookup, one unknown reference anywhere among the entries is
      enough for the "not found" error. */
  lemma MissingReferenceIsNotFound(index: map<Uuid, Template>, kit: Kit, entries: Option<seq<Entry>>,
                                   containerId: Option<Id>, size: Option<Size>, fuel: nat, next: Id, i: nat)
    requires i < |RootEntries(kit, entries)| && RootEntries(kit, entries)[i].uuid !in index
    ensures ExpandKit(us => CompactingLookup(index, us), kit, entries, containerId, size, fuel, next).0
         == NotFound(NotFoundMessage(kit.name))
  {
    var us := Uuids(RootEntries(kit, entries));
    assert us[i] !in index;
  }

  // ---------------------------------------------------------------------
  // Flat kits

  /** The template for an entry is emitted as a single clone. */
  predicate PlainEntry(e: Entry, t: Template)
  {
    t.Physical? && !(t.isContainer && e.items.Items?)
  }

  /** `items` are the single clones of the plain entries from `i` on, with
      ids counted up from `next`. */
  predicate PlainClones(items: seq<Item>, es: seq<Entry>, found: seq<Template>, i: nat,
                        containerId: Option<Id>, size: Size, next: Id)
    requires |found| == |es| && i <= |es|
  {
    && |items| == |es| - i
    && forall k :: i <= k < |es| ==>
         found[k].Physical? &&
         items[k - i] == Item(next + (k - i), found[k].name, found[k].isContainer, size, es[k].quantity, containerId)
  }

  lemma ConsPlainClones(rest: seq<Item>, es: seq<Entry>, found: seq<Template>, i: nat,
                        containerId: Option<Id>, size: Size, next: Id)
    requires |found| == |es| && i < |es| && found[i].Physical?
    requires PlainClones(rest, es, found, i + 1, containerId, size, next + 1)
    ensures PlainClones([Item(next, found[i].name, found[i].isContainer, size, es[i].quantity, containerId)] + rest,
                        es, found, i, containerId, size, next)
  {
    var all := [Item(next, found[i].name, found[i].isContainer, size, es[i].quantity, containerId)] + rest;
    forall k | i < k < |es|
      ensures all[k - i] == Item(next + (k - i), found[k].name, found[k].isContainer, size, es[k].quantity, containerId)
    {
      assert all[k - i] == rest[k - i - 1];
    }
  }

  lemma {:induction false} PlainEntriesFrom(resolve: Resolver, kit: Kit, es: seq<Entry>, found: seq<Template>, i: nat,
                                            containerId: Option<Id>, size: Size, fuel: nat, next: Id)
    requires |found| == |es| && AllItems(found) && i <= |es|
    requires forall k :: i <= k < |es| ==> PlainEntry(es[k], found[k])
    ensures ExpandFrom(resolve, kit, es, found, i, containerId, size, fuel, next).0.Granted?
    ensures ExpandFrom(resolve, kit, es, found, i, containerId, size, fuel, next).1 == next + (|es| - i)
    ensures PlainClones(ExpandFrom(resolve, kit, es, found, i, containerId, size, fuel, next).0.items,
                        es, found, i, containerId, size, next)
    decreases |es| - i
  {
    if i < |es| {
      PlainEntryStep(resolve, kit, es, found, i, containerId, size, fuel, next);
      PlainEntriesFrom(resolve, kit, es, found, i + 1, containerId, size, fuel, next + 1);
      var rest := ExpandFrom(resolve, kit, es, found, i + 1, containerId, size, fuel, next + 1);
      ConsPlainClones(rest.0.items, es, found, i, containerId, size, next);
    }
  }

  /** A kit whose entries all resolve to physical items that are not
      expanded as containers grants exactly one clone per entry, in entry
      order, each with the entry's quantity, the caller's container, the
      normalised size and the next fresh id. */
  lemma PlainKitOneClonePerEntry(resolve: Resolver, kit: Kit, entries: Option<seq<Entry>>,
                                 containerId: Option<Id>, size: Option<Size>, fuel: nat, next: Id)
    requires |resolve(Uuids(RootEntries(kit, entries)))| == |RootEntries(kit, entries)|
    requires forall k :: 0 <= k < |RootEntries(kit, entries)| ==>
               PlainEntry(RootEntries(kit, entries)[k], resolve(Uuids(RootEntries(kit, entries)))[k])
    ensures ExpandKit(resolve, kit, entries, containerId, size, fuel, next).0.Granted?
    ensures ExpandKit(resolve, kit, entries, containerId, size, fuel, next).1 == next + |RootEntries(kit, entries)|
    ensures |ExpandKit(resolve, kit, entries, containerId, size, fuel, next).0.items| == |RootEntries(kit, entries)|
    ensures forall k :: 0 <= k < |RootEntries(kit, entries)| ==>
              resolve(Uuids(RootEntries(kit, entries)))[k].Physical? &&
              ExpandKit(resolve, kit, entries, containerId, size, fuel, next).0.items[k]
              == Item(next + k, resolve(Uuids(RootEntries(kit, entries)))[k].name,
                      resolve(Uuids(RootEntries(kit, entries)))[k].isContainer,
                      NormalizeSize(size), RootEntries(kit, entries)[k].quantity, containerId)
  {
    var es := RootEntries(kit, entries);
    var found := resolve(Uuids(es));
    PlainEntriesFrom(resolve, kit, es, found, 0, containerId, NormalizeSize(size), fuel, next);
    assert PlainClones(ExpandKit(resolve, kit, entries, containerId, size, fuel, next).0.items,
                       es, found, 0, containerId, NormalizeSize(size), next);
  }

  // ---------------------------------------------------------------------
  // Containers, nested kits and dropped items

  /** A container entry with nested entries contributes its clone and then,
      with nothing in between, the expansion of its nested entries under the
      clone's id; the rest of the entries follow. The contents' top-level
      clones sit in the container clone, deeper ones in earlier clones of
      the contents. */
  lemma ContainerPrecedesContents(resolve: Resolver, kit: Kit, es: seq<Entry>, found: seq<Template>, i: nat,
                                  containerId: Option<Id>, size: Size, fuel: nat, next: Id)
    requires |found| == |es| && AllItems(found) && i < |es|
    requires size != Sm
    requires found[i].Physical? && found[i].isContainer && es[i].items.Items?
    ensures var (contents, mid) := ExpandKit(resolve, kit, Some(Values(es[i].items.record)), Some(next), Some(size), fuel, next + 1);
            var (rest, last) := ExpandFrom(resolve, kit, es, found, i + 1, containerId, size, fuel, mid);
            var clone := Item(next, found[i].name, true, size, es[i].quantity, containerId);
            && (contents.Granted? && rest.Granted? ==>
                  ExpandFrom(resolve, kit, es, found, i, containerId, size, fuel, next)
                  == (Granted([clone] + contents.items + rest.items), last))
            && (!contents.Granted? ==> ExpandFrom(resolve, kit, es, found, i, containerId, size, fuel, next) == (contents, mid))
            && (contents.Granted? ==> Linked(contents.items, Some(next)) && FreshIds(contents.items, next + 1, mid))
  {
    var nested := Some(Values(es[i].items.record));
    ExpandKitWellFormed(resolve, kit, nested, Some(next), Some(size), fuel, next + 1);
    var (contents, mid) := ExpandKit(resolve, kit, nested, Some(next), Some(size), fuel, next + 1);
    var clone := Item(next, found[i].name, true, size, es[i].quantity, containerId);
    if contents.Granted? {
      var rest := ExpandFrom(resolve, kit, es, found, i + 1, containerId, size, fuel, mid).0;
      if rest.Granted? {
        assert [clone] + contents.items + rest.items == ([clone] + contents.items) + rest.items;
      }
    }
  }

  /** A plain physical entry anywhere among the entries contributes one
      clone, with the next id, the template's data, the size, its own
      entry's quantity and the caller's container id; the rest of the
      entries follow under the next id. */
  lemma PlainEntryStep(resolve: Resolver, kit: Kit, es: seq<Entry>, found: seq<Template>, i: nat,
                       containerId: Option<Id>, size: Size, fuel: nat, next: Id)
    requires |found| == |es| && AllItems(found) && i < |es|
    requires PlainEntry(es[i], found[i])
    ensures var rest := ExpandFrom(resolve, kit, es, found, i + 1, containerId, size, fuel, next + 1);
            ExpandFrom(resolve, kit, es, found, i, containerId, size, fuel, next)
            == (Prepend([Item(next, found[i].name, found[i].isContainer, size, es[i].quantity, containerId)], rest.0), rest.1)
  {
  }

  /** A nested kit contributes only its own expansion, under the enclosing
      container and with the same size; its clone is not granted. */
  lemma NestedKitSplicedInPlace(resolve: Resolver, kit: Kit, es: seq<Entry>, found: seq<Template>, i: nat,
                                containerId: Option<Id>, size: Size, fuel: nat, next: Id)
    requires |found| == |es| && AllItems(found) && i < |es|
    requires size != Sm
    requires found[i].NestedKit? && fuel > 0
    ensures var (inflated, mid) := ExpandKit(resolve, found[i].kit, None, containerId, Some(size), fuel - 1, next + 1);
            var (rest, last) := ExpandFrom(resolve, kit, es, found, i + 1, containerId, size, fuel, mid);
            && (inflated.Granted? && rest.Granted? ==>
                  ExpandFrom(resolve, kit, es, found, i, containerId, size, fuel, next)
                  == (Granted(inflated.items + rest.items), last))
            && (!inflated.Granted? ==> ExpandFrom(resolve, kit, es, found, i, containerId, size, fuel, next) == (inflated, mid))
            && (inflated.Granted? ==> Linked(inflated.items, containerId) && SizedAs(inflated.items, size))
  {
    ExpandKitWellFormed(resolve, found[i].kit, None, containerId, Some(size), fuel - 1, next + 1);
  }

  /** The entry of a nested kit (its quantity, its nested entries) plays no
      part in what the kit contributes. */
  lemma NestedKitIgnoresEntry(resolve: Resolver, kit: Kit, e1: Entry, e2: Entry, nested: Kit,
                              containerId: Option<Id>, size: Size, fuel: nat, next: Id)
    ensures Contribution(resolve, kit, e1, NestedKit(nested), containerId, size, fuel, next)
         == Contribution(resolve, kit, e2, NestedKit(nested), containerId, size, fuel, next)
  {
  }

  /** A nested kit met with the depth bound used up stops the expansion. */
  lemma NestedKitAtBound(resolve: Resolver, kit: Kit, es: seq<Entry>, found: seq<Template>, i: nat,
                         containerId: Option<Id>, size: Size, next: Id)
    requires |found| == |es| && AllItems(found) && i < |es|
    requires found[i].NestedKit?
    ensures ExpandFrom(resolve, kit, es, found, i, containerId, size, 0, next) == (TooDeep, next + 1)
  {
  }

  /** An item that is neither physical nor a kit uses up an id and
      contributes nothing. */
  lemma OtherItemDropped(resolve: Resolver, kit: Kit, es: seq<Entry>, found: seq<Template>, i: nat,
                         containerId: Option<Id>, size: Size, fuel: nat, next: Id)
    requires |found| == |es| && AllItems(found) && i < |es|
    requires found[i].OtherItem?
    ensures ExpandFrom(resolve, kit, es, found, i, containerId, size, fuel, next)
         == ExpandFrom(resolve, kit, es, found, i + 1, containerId, size, fuel, next + 1)
  {
    var rest := ExpandFrom(resolve, kit, es, found, i + 1, containerId, size, fuel, next + 1);
    PrependNothing(rest.0);
  }

  // ---------------------------------------------------------------------
  // The nested-kit depth bound

  /** One more level of nesting allowed changes no result that was not cut
      off by the bound. */
  lemma {:induction false} ExpandKitFuel(resolve: Resolver, kit: Kit, entries: Option<seq<Entry>>,
                                         containerId: Option<Id>, size: Option<Size>, fuel: nat, next: Id)
    ensures !ExpandKit(resolve, kit, entries, containerId, size, fuel, next).0.TooDeep? ==>
              ExpandKit(resolve, kit, entries, containerId, size, fuel + 1, next)
              == ExpandKit(resolve, kit, entries, containerId, size, fuel, next)
    decreases fuel, EntriesSize(RootEntries(kit, entries)), 1
  {
    var es := RootEntries(kit, entries);
    var found := resolve(Uuids(es));
    if |es| == |found| && AllItems(found) {
      ExpandFromFuel(resolve, kit, es, found, 0, containerId, NormalizeSize(size), fuel, next);
    }
  }

  lemma {:induction false} ExpandFromFuel(resolve: Resolver, kit: Kit, es: seq<Entry>, found: seq<Template>, i: nat,
                                          containerId: Option<Id>, size: Size, fuel: nat, next: Id)
    requires |found| == |es| && AllItems(found) && i <= |es|
    ensures !ExpandFrom(resolve, kit, es, found, i, containerId, size, fuel, next).0.TooDeep? ==>
              ExpandFrom(resolve, kit, es, found, i, containerId, size, fuel + 1, next)
              == ExpandFrom(resolve, kit, es, found, i, containerId, size, fuel, next)
    decreases fuel, EntriesSize(es[i..]), 0
  {
    if i < |es| {
      SuffixSize(es, i);
      ContributionFuel(resolve, kit, es[i], found[i], containerId, size, fuel, next);
      var (piece, mid) := Contribution(resolve, kit, es[i], found[i], containerId, size, fuel, next);
      if piece.Granted? {
        ExpandFromFuel(resolve, kit, es, found, i + 1, containerId, size, fuel, mid);
      }
    }
  }

  lemma {:induction false} ContributionFuel(resolve: Resolver, kit: Kit, entry: Entry, template: Template,
                                            containerId: Option<Id>, size: Size, fuel: nat, next: Id)
    requires !template.NotAnItem?
    ensures !Contribution(resolve, kit, entry, template, containerId, size, fuel, next).0.TooDeep? ==>
              Contribution(resolve, kit, entry, template, containerId, size, fuel + 1, next)
              == Contribution(resolve, kit, entry, template, containerId, size, fuel, next)
    decreases fuel, EntrySize(entry), 2
  {
    match template
    case Physical(name, isContainer) =>
      if isContainer && entry.items.Items? {
        NestedSmaller(entry);
        ExpandKitFuel(resolve, kit, Some(Values(entry.items.record)), Some(next), Some(size), fuel, next + 1);
      }
    case NestedKit(k) =>
      if fuel > 0 {
        ExpandKitFuel(resolve, k, None, containerId, Some(size), fuel - 1, next + 1);
      }
    case OtherItem(_) =>
  }

  /** Any larger bound gives the same result, once a result is not cut off. */
  lemma {:induction false} FuelIsOnlyABound(resolve: Resolver, kit: Kit, entries: Option<seq<Entry>>,
                                            containerId: Option<Id>, size: Option<Size>, fuel: nat, more: nat, next: Id)
    requires !ExpandKit(resolve, kit, entries, containerId, size, fuel, next).0.TooDeep?
    ensures ExpandKit(resolve, kit, entries, containerId, size, fuel + more, next)
         == ExpandKit(resolve, kit, entries, containerId, size, fuel, next)
    decreases more
  {
    ExpandKitFuel(resolve, kit, entries, containerId, size, fuel, next);
    if more > 0 {
      FuelIsOnlyABound(resolve, kit, entries, containerId, size, fuel + 1, more - 1, next);
    }
  }
}
