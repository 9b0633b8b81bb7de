/** The listener side of the three stores. Each store keeps a set of
    subscriber callbacks and its `emit` calls every one of them once; the
    model keeps one entry per emit, tagged with the store that emitted, in
    a log the stores share, so the order of notifications across stores is
    visible. Which callbacks are subscribed is not modelled. */
module Notify {

  datatype Emit = ItemsEmit | SparksEmit | SettingsEmit

  /** `n` emits of the items store in a row. */
  function ItemsEmits(n: nat): (r: seq<Emit>)
    ensures |r| == n
    ensures forall i :: 0 <= i < n ==> r[i] == ItemsEmit
  {
    if n == 0 then [] else ItemsEmits(n - 1) + [ItemsEmit]
  }

  class EmitLog {
    var events: seq<Emit>

    constructor()
      ensures events == []
    {
      events := [];
    }

    /** One `emit()`: every registered listener runs once. */
    method Record(e: Emit)
      modifies this
      ensures events == old(events) + [e]
    {
      events := events + [e];
    }
  }
}
