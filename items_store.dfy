/** The items store: a module-level list of tasks that `addItem`,
    `updateItem` and `deleteItem` replace with a new list, each followed by
    one `emit`. */
module Items {
  import opened Wrappers
  import opened Text
  import opened Seqs
  import opened Notify

  datatype ItemType = Action | Time | Anchor | Memory

  datatype ItemStatus = Honored | Missed | Rescheduled

  /** A task or reminder. An optional property is an `Option` (None: the key
      is absent). For `datetime`, None stands for both an absent key and
      `null`; every reader treats the two alike. */
  datatype Item = Item(
    id: string,
    title: string,
    subtitle: Option<string>,
    datetime: Option<string>,
    completed: Option<bool>,
    itemType: Option<ItemType>,
    status: Option<ItemStatus>)

  /** A `Partial<Item>`: Some(v) for each key the object literal has.
      `datetime := Some(None)` is an explicit `null`. */
  datatype ItemPatch = ItemPatch(
    id: Option<string>,
    title: Option<string>,
    subtitle: Option<string>,
    datetime: Option<Option<string>>,
    completed: Option<bool>,
    itemType: Option<ItemType>,
    status: Option<ItemStatus>)

  const EmptyPatch := ItemPatch(None, None, None, None, None, None, None)

  /** The value a spread gives an optional key: the patch's when it has it. */
  function Override<T>(patched: Option<T>, current: Option<T>): Option<T> {
    if patched.Some? then patched else current
  }

  /** The item `addItem(title, meta)` builds: the title trimmed, a subtitle
      defaulting to "", a datetime defaulting to null, `completed` only when
      `meta.completed` is truthy, type defaulting to "action", and the status
      passed through. */
  function NewItem(title: string, meta: ItemPatch, id: string): Item {
    Item(
      id,
      Trim(title),
      Some(meta.subtitle.GetOr("")),
      meta.datetime.GetOr(None),
      Some(meta.completed == Some(true)),
      Some(meta.itemType.GetOr(Action)),
      meta.status)
  }

  /** `{ ...it, ...patch }`. */
  function ApplyPatch(it: Item, p: ItemPatch): Item {
    Item(
      p.id.GetOr(it.id),
      p.title.GetOr(it.title),
      Override(p.subtitle, it.subtitle),
      p.datetime.GetOr(it.datetime),
      Override(p.completed, it.completed),
      Override(p.itemType, it.itemType),
      Override(p.status, it.status))
  }

  /** `items.map(it => it.id === id ? { ...it, ...patch } : it)`. */
  function Updated(items: seq<Item>, id: string, p: ItemPatch): (r: seq<Item>)
    ensures |r| == |items|
    ensures forall k :: 0 <= k < |items| && items[k].id != id ==> r[k] == items[k]
    ensures forall k :: 0 <= k < |items| && items[k].id == id ==> r[k] == ApplyPatch(items[k], p)
  {
    seq(|items|, k requires 0 <= k < |items| =>
      if items[k].id == id then ApplyPatch(items[k], p) else items[k])
  }

  function OtherThan(id: string): Item -> bool {
    (it: Item) => it.id != id
  }

  /** `items.filter(it => it.id !== id)`. */
  function Without(items: seq<Item>, id: string): seq<Item> {
    Filter(items, OtherThan(id))
  }

  predicate HasId(items: seq<Item>, id: string) {
    exists k :: 0 <= k < |items| && items[k].id == id
  }

  predicate UniqueIds(items: seq<Item>) {
    forall i, j :: 0 <= i < j < |items| ==> items[i].id != items[j].id
  }

  // ----- properties of the operations -----

  /** `addItem` has no blank-title guard: a blank title still makes an
      item, whose title is then "". A converted or captured title keeps its
      inner text and loses its surrounding whitespace. */
  lemma NewItemTitle(title: string, meta: ItemPatch, id: string)
    ensures IsBlank(title) ==> NewItem(title, meta, id).title == ""
    ensures IsTrimmed(NewItem(title, meta, id).title)
    ensures IsTrimmed(title) ==> NewItem(title, meta, id).title == title
  {
    TrimTrims(title);
    if IsTrimmed(title) {
      TrimOfTrimmed(title);
    }
  }

  /** An item is complete at creation exactly when `meta.completed` was
      given as true, and a created item always has a subtitle, a type and a
      `completed` flag. */
  lemma NewItemDefaults(title: string, meta: ItemPatch, id: string)
    ensures NewItem(title, meta, id).completed == Some(meta.completed == Some(true))
    ensures meta == EmptyPatch ==>
      NewItem(title, meta, id) == Item(id, Trim(title), Some(""), None, Some(false), Some(Action), None)
  {
  }

  /** A patch applied twice is applied once. */
  lemma ApplyPatchIdempotent(it: Item, p: ItemPatch)
    ensures ApplyPatch(ApplyPatch(it, p), p) == ApplyPatch(it, p)
  {
  }

  /** `updateItem` with an id nobody has leaves the list as it was. */
  lemma UpdateUnknownId(items: seq<Item>, id: string, p: ItemPatch)
    requires !HasId(items, id)
    ensures Updated(items, id, p) == items
  {
  }

  /** Updating twice with the same id and patch is updating once, even when
      the patch changes the id. */
  lemma UpdateTwice(items: seq<Item>, id: string, p: ItemPatch)
    ensures Updated(Updated(items, id, p), id, p) == Updated(items, id, p)
  {
    var once := Updated(items, id, p);
    forall k | 0 <= k < |items|
      ensures Updated(once, id, p)[k] == once[k]
    {
      if items[k].id == id {
        ApplyPatchIdempotent(items[k], p);
      }
    }
  }

  /** `deleteItem` keeps exactly the items with other ids, in their order:
      filtering a concatenation is concatenating the filters. */
  lemma DeleteKeepsOthersInOrder(items: seq<Item>, id: string)
    ensures forall k :: 0 <= k < |Without(items, id)| ==>
      Without(items, id)[k].id != id && Without(items, id)[k] in items
    ensures forall k :: 0 <= k < |items| && items[k].id != id ==> items[k] in Without(items, id)
    ensures forall a, b :: items == a + b ==> Without(items, id) == Without(a, id) + Without(b, id)
  {
    forall a, b | items == a + b
      ensures Without(items, id) == Without(a, id) + Without(b, id)
    {
      FilterAppend(a, b, OtherThan(id));
    }
  }

  /** Deleting twice is deleting once. */
  lemma DeleteTwice(items: seq<Item>, id: string)
    ensures Without(Without(items, id), id) == Without(items, id)
  {
    FilterIdempotent(items, OtherThan(id));
  }

  /** `deleteItem` with an id nobody has leaves the list as it was. */
  lemma DeleteUnknownId(items: seq<Item>, id: string)
    requires !HasId(items, id)
    ensures Without(items, id) == items
  {
    FilterKeepsAll(items, OtherThan(id));
  }

  /** With a fresh id, adding keeps the ids unique; the code does not check
      freshness itself (the id is random). */
  lemma AddFreshKeepsIdsUnique(items: seq<Item>, title: string, meta: ItemPatch, id: string)
    requires UniqueIds(items) && !HasId(items, id)
    ensures UniqueIds([NewItem(title, meta, id)] + items)
  {
    var r := [NewItem(title, meta, id)] + items;
    forall i, j | 0 <= i < j < |r| ensures r[i].id != r[j].id {
      if i == 0 {
        assert r[j] == items[j - 1];
      } else {
        assert r[i] == items[i - 1] && r[j] == items[j - 1];
      }
    }
  }

  /** Deleting keeps the ids unique. */
  lemma DeleteKeepsIdsUnique(items: seq<Item>, id: string)
    requires UniqueIds(items)
    ensures UniqueIds(Without(items, id))
  {
    FilterKeepsDistinct(items, OtherThan(id), (it: Item) => it.id);
  }

  /** The store. `items` is the module-level `_items`; `log` receives one
      entry per `emit()`. */
  class ItemsStore {
    var items: seq<Item>
    const log: EmitLog

    constructor(initial: seq<Item>, log: EmitLog)
      ensures items == initial && this.log == log
    {
      items := initial;
      this.log := log;
    }

    /** `addItem(title, meta)`. `newId` stands for the random id the source
        draws; it is returned and names the item now at the front. */
    method AddItem(title: string, meta: ItemPatch, newId: string) returns (id: string)
      modifies this, log
      ensures items == [NewItem(title, meta, newId)] + old(items)
      ensures id == newId && items[0].id == id
      ensures |items| == |old(items)| + 1
      ensures log.events == old(log.events) + [ItemsEmit]
    {
      id := newId;
      var it := NewItem(title, meta, id);
      items := [it] + items;
      log.Record(ItemsEmit);
    }

    /** `updateItem(id, patch)`: emits even when no item matched. */
    method UpdateItem(id: string, patch: ItemPatch)
      modifies this, log
      ensures items == Updated(old(items), id, patch)
      ensures !HasId(old(items), id) ==> items == old(items)
      ensures log.events == old(log.events) + [ItemsEmit]
    {
      if !HasId(items, id) {
        UpdateUnknownId(items, id, patch);
      }
      items := Updated(items, id, patch);
      log.Record(ItemsEmit);
    }

    /** `deleteItem(id)`: emits even when no item matched. */
    method DeleteItem(id: string)
      modifies this, log
      ensures items == Without(old(items), id)
      ensures !HasId(items, id)
      ensures !HasId(old(items), id) ==> items == old(items)
      ensures log.events == old(log.events) + [ItemsEmit]
    {
      if !HasId(items, id) {
        DeleteUnknownId(items, id);
      }
      items := Without(items, id);
      log.Record(ItemsEmit);
    }
  }
}
