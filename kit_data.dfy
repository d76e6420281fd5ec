/**
 * The data a kit works on: its entry tree, the templates entry references
 * resolve to, the clones the expander produces, and the kit's two getters
 * (`entries` and `price`).
 */
module KitData {
  import opened Wrappers
  import opened ActorSize

  /** An item reference, resolved by the host's content index. */
  type Uuid = string

  /** A document identity; the host's random ids are drawn from a counter here. */
  type Id = nat

  /** A kit's stored record of entries: local key and entry, in stored order. */
  type EntryRecord = seq<(string, Entry)>

  /** One line of a kit: what to grant, how many, and (for a container)
      the entries to grant inside it. */
  datatype Entry = Entry(uuid: Uuid, quantity: int, items: NestedEntries)

  /** The optional `items` record of an entry. */
  datatype NestedEntries = NoItems | Items(record: EntryRecord)

  /** A coin amount, passed through the price getter as stored. */
  datatype Coins = Coins(pp: int, gp: int, sp: int, cp: int)

  /** The stored price: a value and an optional "per" count. */
  datatype PriceSource = PriceSource(value: Coins, per: Option<int>)

  /** The price the getter reports. */
  datatype Price = Price(value: Coins, per: int)

  /** A kit item: its display name, its stored entry record and its price. */
  datatype Kit = Kit(name: string, items: EntryRecord, price: PriceSource)

  /** What a reference resolves to: a physical item (possibly a container),
      another kit, an item that is neither physical nor a kit, or a document
      that is not an item at all. */
  datatype Template =
    | Physical(name: string, isContainer: bool)
    | NestedKit(kit: Kit)
    | OtherItem(name: string)
    | NotAnItem

  /** A physical clone ready to be granted: fresh id, the template's stored
      data (its name), and the stamped size, quantity and container link. */
  datatype Item = Item(id: Id, name: string, isContainer: bool, size: Size, quantity: int, containerId: Option<Id>)

  /** The entries of a record in stored order. */
  function Values(r: EntryRecord): (es: seq<Entry>)
    ensures |es| == |r|
    ensures forall i :: 0 <= i < |r| ==> es[i] == r[i].1
  {
    if r == [] then [] else [r[0].1] + Values(r[1..])
  }

  /** The `entries` getter: the values of the kit's stored record. */
  function Entries(kit: Kit): (es: seq<Entry>)
    ensures |es| == |kit.items|
    ensures forall i :: 0 <= i < |es| ==> es[i] == kit.items[i].1
  {
    Values(kit.items)
  }

  /** The `price` getter: the stored value, and "per" defaulting to 1 only
      when it is absent (a stored 0 is kept). */
  function PriceOf(kit: Kit): (p: Price)
    ensures p.value == kit.price.value
    ensures kit.price.per.None? ==> p.per == 1
    ensures kit.price.per.Some? ==> p.per == kit.price.per.value
  {
    Price(kit.price.value, kit.price.per.GetOr(1))
  }

  /** The references of a list of entries, position by position. */
  function Uuids(es: seq<Entry>): (us: seq<Uuid>)
    ensures |us| == |es|
    ensures forall i :: 0 <= i < |es| ==> us[i] == es[i].uuid
  {
    if es == [] then [] else [es[0].uuid] + Uuids(es[1..])
  }

  // Sizes of entry trees, the measure under which expansion of nested
  // containers terminates.

  function EntrySize(e: Entry): nat
    decreases e, if e.items.Items? then |e.items.record| + 1 else 0
  {
    2 + if e.items.Items? then NestedSize(e, |e.items.record|) else 0
  }

  /** The sizes of the first `n` nested entries of `e`. */
  function NestedSize(e: Entry, n: nat): nat
    requires e.items.Items? && n <= |e.items.record|
    decreases e, n
  {
    if n == 0 then 0 else NestedSize(e, n - 1) + EntrySize(e.items.record[n - 1].1)
  }

  function EntriesSize(es: seq<Entry>): nat
  {
    if es == [] then 1 else EntrySize(es[0]) + EntriesSize(es[1..])
  }

  /** Appending an entry adds its size. */
  lemma {:induction false} AppendSize(es: seq<Entry>, e: Entry)
    ensures EntriesSize(es + [e]) == EntriesSize(es) + EntrySize(e)
  {
    if es != [] {
      assert (es + [e])[1..] == es[1..] + [e];
      AppendSize(es[1..], e);
    }
  }

  lemma PrefixStep(es: seq<Entry>, n: nat)
    requires 0 < n <= |es|
    ensures EntriesSize(es[..n]) == EntriesSize(es[..n - 1]) + EntrySize(es[n - 1])
  {
    assert es[..n] == es[..n - 1] + [es[n - 1]];
    AppendSize(es[..n - 1], es[n - 1]);
  }

  lemma {:induction false} NestedPrefixSize(e: Entry, n: nat)
    requires e.items.Items? && n <= |e.items.record|
    ensures EntriesSize(Values(e.items.record)[..n]) == NestedSize(e, n) + 1
  {
    var es := Values(e.items.record);
    if n > 0 {
      NestedPrefixSize(e, n - 1);
      PrefixStep(es, n);
    } else {
      assert es[..n] == [];
    }
  }

  /** The nested entries of a container entry are smaller than the entry. */
  lemma NestedSmaller(e: Entry)
    requires e.items.Items?
    ensures EntriesSize(Values(e.items.record)) < EntrySize(e)
  {
    var es := Values(e.items.record);
    NestedPrefixSize(e, |es|);
    assert es[..|es|] == es;
  }

  /** Splitting a suffix of entries into its first entry and the rest. */
  lemma SuffixSize(es: seq<Entry>, i: nat)
    requires i < |es|
    ensures EntriesSize(es[i..]) == EntrySize(es[i]) + EntriesSize(es[i + 1..])
  {
    assert es[i..][1..] == es[i + 1..];
  }

  /** Every entry of a list is smaller than the whole list. */
  lemma {:induction false} EntrySmaller(es: seq<Entry>, i: nat)
    requires i < |es|
    ensures EntrySize(es[i]) < EntriesSize(es)
  {
    if i > 0 {
      EntrySmaller(es[1..], i - 1);
    }
  }
}
