/** In-memory storage: the durable term and vote, and the log. */
module MemoryStorage {
  import opened Types
  import LogSpec

  class MemoryStorage {
    var hardState: HardState
    var entries: Log

    /** The entry in slot i has index i + 1. */
    ghost predicate Valid()
      reads this
    {
      LogSpec.WellIndexed(entries)
    }

    constructor ()
      ensures Valid() && hardState == HardState(0, None) && entries == []
    {
      hardState := HardState(0, None);
      entries := [];
    }

    /** The entry whose index is `index`. */
    function Entry(index: Index): (e: Option<LogEntry>)
      requires Valid()
      reads this
      ensures e == LogSpec.EntryAt(entries, index)
      ensures e.Some? ==> e.value.index == index && e.value in entries
    {
      if index == 0 then None
      else if index - 1 < |entries| then Some(entries[index - 1])
      else None
    }

    function LastIndexTerm(): (last: (Index, Term))
      requires Valid()
      reads this
      ensures last == (|entries|, LogSpec.LastTerm(entries))
    {
      if entries != [] then (entries[|entries| - 1].index, entries[|entries| - 1].term) else (0, 0)
    }

    method TruncateFrom(index: Index)
      requires Valid()
      modifies this
      ensures Valid() && hardState == old(hardState)
      ensures entries <= old(entries)
      ensures |entries| == if index == 0 then 0 else if index - 1 < |old(entries)| then index - 1 else |old(entries)|
    {
      if index == 0 {
        entries := [];
        return;
      }
      var keep := index - 1;
      if keep < |entries| {
        entries := entries[..keep];
      }
    }

    /** Persists entry by entry; an index that is zero or leaves a gap stops the batch, keeping what came before it. */
    method Persist(hard: Option<HardState>, batch: Log) returns (error: Option<LogSpec.StorageError>)
      requires Valid()
      modifies this
      ensures Valid() && hardState == hard.GetOr(old(hardState))
      ensures LogSpec.Persisted(entries, error) == LogSpec.Persist(old(entries), batch)
    {
      if hard.Some? {
        hardState := hard.value;
      }
      var i := 0;
      assert batch[0..] == batch;
      while i < |batch|
        invariant i <= |batch| && Valid() && hardState == hard.GetOr(old(hardState))
        invariant LogSpec.Persist(entries, batch[i..]) == LogSpec.Persist(old(entries), batch)
      {
        var entry := batch[i];
        assert batch[i..][0] == entry && batch[i..][1..] == batch[i + 1..];
        var idx := entry.index;
        if idx == 0 {
          return Some(LogSpec.ZeroIndex);
        }
        var slot := idx - 1;
        if slot == |entries| {
          assert entries[..slot] == entries;
          entries := entries + [entry];
        } else if slot < |entries| {
          ghost var before := entries;
          entries := entries[slot := entry];
          entries := entries[..idx];
          assert entries == before[..slot] + [entry];
        } else {
          return Some(LogSpec.NonContiguous(entry.index));
        }
        i := i + 1;
      }
      error := None;
    }
  }
}
