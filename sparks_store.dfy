/** The sparks store: a module-level list of ideas. Converting a spark adds
    an item through the items store's `addItem` and then removes the spark;
    archiving only removes it. The later revision adds `convertMany`. */
module Sparks {
  import opened Wrappers
  import opened Seqs
  import opened Notify
  import opened Items

  datatype Spark = Spark(id: string, title: string, note: Option<string>, category: Option<string>)

  /** The sparks the store starts with. */
  const SeedSparks: seq<Spark> := [
    Spark("s1", "Deep-dive on habit loops", None, Some("Learning")),
    Spark("s2", "Try 20–20–20 study cadence", Some("Focus blocks"), Some("Study")),
    Spark("s3", "Sketch logo variants", None, Some("Project")),
    Spark("s4", "Meal prep Sundays", None, Some("Lifestyle")),
    Spark("s5", "Run 5k Saturday", None, Some("Fitness")),
    Spark("s6", "Pitch deck revision", None, Some("Project")),
    Spark("s7", "Inbox zero sprint", None, Some("Workflow")),
    Spark("s8", "Mentor check-in email", None, Some("Networking"))
  ]

  predicate UniqueSparkIds(sparks: seq<Spark>) {
    forall i, j :: 0 <= i < j < |sparks| ==> sparks[i].id != sparks[j].id
  }

  /** `sparks.findIndex(s => s.id === id)`: the first position holding `id`,
      or -1. */
  function FindIndex(sparks: seq<Spark>, id: string): (k: int)
    ensures -1 <= k < |sparks|
    ensures k >= 0 ==> sparks[k].id == id
    ensures forall j :: 0 <= j < |sparks| && (k < 0 || j < k) ==> sparks[j].id != id
  {
    if sparks == [] then -1
    else if sparks[0].id == id then 0
    else
      var k := FindIndex(sparks[1..], id);
      if k < 0 then -1 else k + 1
  }

  /** The `meta` a conversion hands to `addItem`. */
  function ConvertMeta(sp: Spark): ItemPatch {
    EmptyPatch.(subtitle := Some(sp.note.GetOr("")), itemType := Some(Action))
  }

  /** The item converting `sp` creates. */
  function ItemFromSpark(sp: Spark, newId: string): Item {
    NewItem(sp.title, ConvertMeta(sp), newId)
  }

  function OtherSpark(id: string): Spark -> bool {
    (s: Spark) => s.id != id
  }

  function SameSpark(id: string): Spark -> bool {
    (s: Spark) => s.id == id
  }

  function Listed(ids: seq<string>): Spark -> bool {
    (s: Spark) => s.id in ids
  }

  function Unlisted(ids: seq<string>): Spark -> bool {
    (s: Spark) => s.id !in ids
  }

  /** `sparks.filter(s => s.id !== id)`. */
  function WithoutSpark(sparks: seq<Spark>, id: string): seq<Spark> {
    Filter(sparks, OtherSpark(id))
  }

  /** `convertMany`'s `batch`: the listed sparks, in store order. */
  function Batch(sparks: seq<Spark>, ids: seq<string>): seq<Spark> {
    Filter(sparks, Listed(ids))
  }

  /** What is left after `convertMany`: the unlisted sparks, in store order. */
  function Remaining(sparks: seq<Spark>, ids: seq<string>): seq<Spark> {
    Filter(sparks, Unlisted(ids))
  }

  /** The items list after `addItem` has run for each spark of `batch` in
      turn, starting from `items`; `newIds[i]` is the id drawn for
      `batch[i]`. */
  function AddedAll(batch: seq<Spark>, newIds: seq<string>, items: seq<Item>): seq<Item>
    requires |newIds| == |batch|
  {
    if batch == [] then items
    else AddedAll(batch[1..], newIds[1..], [ItemFromSpark(batch[0], newIds[0])] + items)
  }

  // ----- properties -----

  /** A converted spark becomes an action item whose title is the spark's
      title (trimmed by `addItem`) and whose subtitle is its note, or "". */
  lemma ConvertedItemFields(sp: Spark, newId: string)
    ensures ItemFromSpark(sp, newId).id == newId
    ensures ItemFromSpark(sp, newId).title == Text.Trim(sp.title)
    ensures ItemFromSpark(sp, newId).subtitle == Some(sp.note.GetOr(""))
    ensures ItemFromSpark(sp, newId).itemType == Some(Action)
    ensures ItemFromSpark(sp, newId).completed == Some(false)
    ensures ItemFromSpark(sp, newId).datetime == None
  {
  }

  /** Because each `addItem` prepends, a converted batch lands at the
      front of the items list in reverse store order (position `k` holds the
      item made from `batch[|batch| - 1 - k]`), above the old items in their
      old order. */
  lemma {:induction false} AddedAllShape(batch: seq<Spark>, newIds: seq<string>, items: seq<Item>)
    requires |newIds| == |batch|
    ensures |AddedAll(batch, newIds, items)| == |batch| + |items|
    ensures AddedAll(batch, newIds, items)[|batch|..] == items
    ensures forall k :: 0 <= k < |batch| ==>
      AddedAll(batch, newIds, items)[k] == ItemFromSpark(batch[|batch| - 1 - k], newIds[|batch| - 1 - k])
  {
    if batch != [] {
      var n := |batch| - 1;
      var first := ItemFromSpark(batch[0], newIds[0]);
      AddedAllShape(batch[1..], newIds[1..], [first] + items);
      var r := AddedAll(batch, newIds, items);
      assert r == AddedAll(batch[1..], newIds[1..], [first] + items);
      assert r[n..] == [first] + items;
      assert r[n] == first;
      assert r[n + 1..] == (r[n..])[1..];
      forall k | 0 <= k < |batch|
        ensures r[k] == ItemFromSpark(batch[|batch| - 1 - k], newIds[|batch| - 1 - k])
      {
        if k < n {
          assert batch[1..][n - 1 - k] == batch[n - k];
          assert newIds[1..][n - 1 - k] == newIds[n - k];
        }
      }
    }
  }

  /** Only which ids are listed matters to `convertMany`: argument order,
      repeated ids and ids no spark has change neither the batch nor what
      remains. */
  lemma BatchDependsOnlyOnListedIds(sparks: seq<Spark>, ids: seq<string>, ids': seq<string>)
    requires forall i :: 0 <= i < |sparks| ==> (sparks[i].id in ids <==> sparks[i].id in ids')
    ensures Batch(sparks, ids) == Batch(sparks, ids')
    ensures Remaining(sparks, ids) == Remaining(sparks, ids')
  {
    FilterCongruent(sparks, Listed(ids), Listed(ids'));
    FilterCongruent(sparks, Unlisted(ids), Unlisted(ids'));
  }

  /** The batch and the remainder split the store: every spark is converted
      or kept, none both, and none is lost or duplicated. */
  lemma BatchAndRemainingPartition(sparks: seq<Spark>, ids: seq<string>)
    ensures multiset(Batch(sparks, ids)) + multiset(Remaining(sparks, ids)) == multiset(sparks)
    ensures |Batch(sparks, ids)| + |Remaining(sparks, ids)| == |sparks|
  {
    FilterPartition(sparks, Listed(ids), Unlisted(ids));
  }

  /** With unique ids, a present id belongs to exactly one spark. */
  lemma {:induction false} OneSparkWithId(sparks: seq<Spark>, id: string)
    requires UniqueSparkIds(sparks) && FindIndex(sparks, id) >= 0
    ensures |Filter(sparks, SameSpark(id))| == 1
  {
    var rest := sparks[1..];
    assert UniqueSparkIds(rest) by {
      forall i, j | 0 <= i < j < |rest| ensures rest[i].id != rest[j].id {
        assert rest[i] == sparks[i + 1] && rest[j] == sparks[j + 1];
      }
    }
    if sparks[0].id == id {
      forall i | 0 <= i < |rest| ensures rest[i].id != id {
        assert rest[i] == sparks[i + 1];
      }
      FilterKeepsNone(rest, SameSpark(id));
    } else {
      OneSparkWithId(rest, id);
    }
  }

  /** With unique ids, removing a present id removes exactly one spark. */
  lemma RemoveOneOfUnique(sparks: seq<Spark>, id: string)
    requires UniqueSparkIds(sparks) && FindIndex(sparks, id) >= 0
    ensures |WithoutSpark(sparks, id)| + 1 == |sparks|
  {
    OneSparkWithId(sparks, id);
    FilterPartition(sparks, OtherSpark(id), SameSpark(id));
  }

  /** The seeded sparks have distinct ids. */
  lemma SeedSparkIdsUnique()
    ensures UniqueSparkIds(SeedSparks)
  {
  }

  /** The store. `itemStore` is the items store `addItem` writes to; both
      stores emit into the same log. */
  class SparksStore {
    var sparks: seq<Spark>
    const itemStore: ItemsStore

    constructor(initial: seq<Spark>, itemStore: ItemsStore)
      ensures sparks == initial && this.itemStore == itemStore
    {
      sparks := initial;
      this.itemStore := itemStore;
    }

    /** `convertSpark(id)`: a no-op, without emit, for an id no spark has;
        otherwise one item is added (with its own items emit) before the
        spark is removed and the spark store emits. */
    method ConvertSpark(id: string, newId: string)
      modifies this, itemStore, itemStore.log
      ensures FindIndex(old(sparks), id) < 0 ==>
        sparks == old(sparks) && itemStore.items == old(itemStore.items)
        && itemStore.log.events == old(itemStore.log.events)
      ensures FindIndex(old(sparks), id) >= 0 ==>
        itemStore.items == [ItemFromSpark(old(sparks)[FindIndex(old(sparks), id)], newId)] + old(itemStore.items)
        && sparks == WithoutSpark(old(sparks), id)
        && itemStore.log.events == old(itemStore.log.events) + [ItemsEmit, SparksEmit]
      ensures FindIndex(sparks, id) < 0
      ensures UniqueSparkIds(old(sparks)) ==>
        |sparks| + |itemStore.items| == |old(sparks)| + |old(itemStore.items)|
    {
      var k := FindIndex(sparks, id);
      if k < 0 {
        return;
      }
      var sp := sparks[k];
      var _ := itemStore.AddItem(sp.title, ConvertMeta(sp), newId);
      if UniqueSparkIds(sparks) {
        RemoveOneOfUnique(sparks, id);
      }
      sparks := WithoutSpark(sparks, id);
      itemStore.log.Record(SparksEmit);
    }

    /** `convertMany(ids)`: nothing at all for an empty list; otherwise every
        listed spark, in store order, is added as an item (one items emit
        each), then all listed sparks are removed with one spark-store emit.
        `newIds[i]` is the id drawn for the i-th converted spark. */
    method ConvertMany(ids: seq<string>, newIds: seq<string>)
      requires |newIds| == |Batch(sparks, ids)|
      modifies this, itemStore, itemStore.log
      ensures |ids| == 0 ==>
        sparks == old(sparks) && itemStore.items == old(itemStore.items)
        && itemStore.log.events == old(itemStore.log.events)
      ensures |ids| > 0 ==>
        itemStore.items == AddedAll(Batch(old(sparks), ids), newIds, old(itemStore.items))
        && sparks == Remaining(old(sparks), ids)
        && itemStore.log.events ==
             old(itemStore.log.events) + ItemsEmits(|newIds|) + [SparksEmit]
    {
      if |ids| == 0 {
        return;
      }
      AddConverted(Batch(sparks, ids), newIds);
      sparks := Remaining(sparks, ids);
      itemStore.log.Record(SparksEmit);
    }

    /** The loop of `convertMany`: one `addItem` per spark of `batch`, in
        order. */
    method AddConverted(batch: seq<Spark>, newIds: seq<string>)
      requires |newIds| == |batch|
      modifies itemStore, itemStore.log
      ensures itemStore.items == AddedAll(batch, newIds, old(itemStore.items))
      ensures itemStore.log.events == old(itemStore.log.events) + ItemsEmits(|batch|)
    {
      var store := itemStore;
      ghost var goal := AddedAll(batch, newIds, store.items);
      ghost var before := store.log.events;
      var i := 0;
      while i < |batch|
        invariant 0 <= i <= |batch|
        invariant AddedAll(batch[i..], newIds[i..], store.items) == goal
        invariant store.log.events == before + ItemsEmits(i)
      {
        var sp := batch[i];
        assert batch[i..][1..] == batch[i + 1..] && newIds[i..][1..] == newIds[i + 1..];
        var _ := store.AddItem(sp.title, ConvertMeta(sp), newIds[i]);
        i := i + 1;
      }
    }

    /** `archiveSpark(id)`: removes the matching sparks, creates no item, and
        emits even when nothing matched. */
    method ArchiveSpark(id: string)
      modifies this, itemStore.log
      ensures sparks == WithoutSpark(old(sparks), id)
      ensures FindIndex(sparks, id) < 0
      ensures itemStore.items == old(itemStore.items)
      ensures itemStore.log.events == old(itemStore.log.events) + [SparksEmit]
    {
      sparks := WithoutSpark(sparks, id);
      itemStore.log.Record(SparksEmit);
    }

    /** Converting the same id twice in a row: the second call finds nothing
        and does nothing, so the pair adds at most one item. */
    method ConvertTwice(id: string, newId: string, secondId: string)
      modifies this, itemStore, itemStore.log
      ensures FindIndex(old(sparks), id) < 0 ==>
        sparks == old(sparks) && itemStore.items == old(itemStore.items)
        && itemStore.log.events == old(itemStore.log.events)
      ensures FindIndex(old(sparks), id) >= 0 ==>
        itemStore.items == [ItemFromSpark(old(sparks)[FindIndex(old(sparks), id)], newId)] + old(itemStore.items)
        && sparks == WithoutSpark(old(sparks), id)
        && itemStore.log.events == old(itemStore.log.events) + [ItemsEmit, SparksEmit]
    {
      ConvertSpark(id, newId);
      ConvertSpark(id, secondId);
    }
  }
}
