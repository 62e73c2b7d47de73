/** Pure facts about logs: lookup, the "up to date" comparison, persisting a batch and merging a leader's batch. */
module LogSpec {
  import opened Types

  /** Slot i holds index i + 1. */
  ghost predicate WellIndexed(log: Log) {
    forall i :: 0 <= i < |log| ==> log[i].index == i + 1
  }

  function EntryAt(log: Log, index: Index): Option<LogEntry> {
    if 1 <= index <= |log| then Some(log[index - 1]) else None
  }

  function LastTerm(log: Log): Term {
    if log == [] then 0 else log[|log| - 1].term
  }

  function TermAt(log: Log, index: Index): Term
    requires index <= |log|
  {
    if index == 0 then 0 else log[index - 1].term
  }

  /** The election restriction: (index, term) is at least as recent as the end of `log`. */
  predicate UpToDate(log: Log, lastIndex: Index, lastTerm: Term) {
    lastTerm > LastTerm(log) || (lastTerm == LastTerm(log) && lastIndex >= |log|)
  }

  /** Entries carry consecutive indices, the first being `first`. */
  ghost predicate Contiguous(entries: Log, first: Index) {
    forall i :: 0 <= i < |entries| ==> entries[i].index == first + i
  }

  // ---------------------------------------------------------------- persist

  datatype StorageError = ZeroIndex | NonContiguous(index: Index)

  datatype Persisted = Persisted(log: Log, error: Option<StorageError>)

  /** The log after persisting `entries` one by one; the first bad index stops the batch half way. */
  function Persist(log: Log, entries: Log): Persisted
    decreases |entries|
  {
    if entries == [] then Persisted(log, None)
    else
      var e := entries[0];
      if e.index == 0 then Persisted(log, Some(ZeroIndex))
      else if e.index <= |log| + 1 then Persist(log[..e.index - 1] + [e], entries[1..])
      else Persisted(log, Some(NonContiguous(e.index)))
  }

  lemma {:induction false} PersistKeepsIndices(log: Log, entries: Log)
    requires WellIndexed(log)
    ensures WellIndexed(Persist(log, entries).log)
    decreases |entries|
  {
    if entries != [] && 1 <= entries[0].index <= |log| + 1 {
      PersistKeepsIndices(log[..entries[0].index - 1] + [entries[0]], entries[1..]);
    }
  }

  /** A contiguous batch that starts at most one past the end replaces everything from its start. */
  lemma {:induction false} PersistIsKeepThenAppend(log: Log, entries: Log, first: Index)
    requires entries != [] && Contiguous(entries, first) && 1 <= first <= |log| + 1
    ensures Persist(log, entries) == Persisted(log[..first - 1] + entries, None)
    decreases |entries|
  {
    var log1 := log[..first - 1] + [entries[0]];
    assert Persist(log, entries) == Persist(log1, entries[1..]);
    if |entries| == 1 {
      assert entries == [entries[0]];
    } else {
      assert Contiguous(entries[1..], first + 1);
      PersistIsKeepThenAppend(log1, entries[1..], first + 1);
      assert log1[..first] + entries[1..] == log[..first - 1] + entries;
    }
  }

  /** A contiguous batch is persisted whole or not at all, and it is persisted exactly when it leaves no gap. */
  lemma ContiguousPersistIsAtomic(log: Log, entries: Log, first: Index)
    requires Contiguous(entries, first)
    ensures Persist(log, entries).error == None <==> entries == [] || 1 <= first <= |log| + 1
    ensures Persist(log, entries).error.Some? ==> Persist(log, entries).log == log
  {
    if entries != [] && 1 <= first <= |log| + 1 {
      PersistIsKeepThenAppend(log, entries, first);
    }
  }

  /** Persisting is not atomic in general: a batch with a gap is kept as far as the gap. */
  lemma PersistStopsHalfWay()
    ensures var e, far := LogEntry(1, 1, []), LogEntry(3, 1, []);
            Persist([], [e, far]) == Persisted([e], Some(NonContiguous(3)))
  {
    var e, far := LogEntry(1, 1, []), LogEntry(3, 1, []);
    var log: Log := [];
    assert log[..0] + [e] == [e] && [e, far][1..] == [far];
    assert Persist([e], [far]) == Persisted([e], Some(NonContiguous(3)));
  }

  // ---------------------------------------------------------------- when persisting is all or nothing

  /** Entry `i` of the batch can be persisted after those before it: it leaves no gap. */
  predicate Fits(log: Log, entries: Log, i: nat)
    requires i < |entries|
  {
    1 <= entries[i].index <= (if i == 0 then |log| else entries[i - 1].index) + 1
  }

  ghost predicate AllFit(log: Log, entries: Log) {
    forall i :: 0 <= i < |entries| ==> Fits(log, entries, i)
  }

  lemma FitAfterFirst(log: Log, entries: Log)
    requires entries != [] && Fits(log, entries, 0)
    ensures AllFit(log[..entries[0].index - 1] + [entries[0]], entries[1..]) <==> AllFit(log, entries)
  {
    var log1, rest := log[..entries[0].index - 1] + [entries[0]], entries[1..];
    forall i | 0 <= i < |rest|
      ensures Fits(log1, rest, i) <==> Fits(log, entries, i + 1)
    {
    }
    if AllFit(log1, rest) {
      forall i | 0 <= i < |entries|
        ensures Fits(log, entries, i)
      {
        assert i > 0 ==> Fits(log1, rest, i - 1);
      }
    }
  }

  /** Persisting a batch succeeds exactly when every entry fits. */
  lemma {:induction false} PersistSucceedsIff(log: Log, entries: Log)
    ensures Persist(log, entries).error == None <==> AllFit(log, entries)
    decreases |entries|
  {
    if entries != [] {
      if Fits(log, entries, 0) {
        PersistSucceedsIff(log[..entries[0].index - 1] + [entries[0]], entries[1..]);
        FitAfterFirst(log, entries);
      }
    }
  }

  /** The first entry that does not fit stops the batch: what came before it is kept, and the error names it. */
  lemma {:induction false} PersistStopsAt(log: Log, entries: Log, stop: nat)
    requires stop < |entries| && AllFit(log, entries[..stop]) && !Fits(log, entries, stop)
    ensures var e := entries[stop];
            Persist(log, entries) ==
            Persisted(Persist(log, entries[..stop]).log,
                      Some(if e.index == 0 then ZeroIndex else NonContiguous(e.index)))
    decreases |entries|
  {
    if stop == 0 {
      assert entries[..0] == [];
    } else {
      var head := entries[..stop];
      assert Fits(log, head, 0) && head[0] == entries[0];
      var log1 := log[..entries[0].index - 1] + [entries[0]];
      FitAfterFirst(log, head);
      assert head[1..] == entries[1..][..stop - 1];
      PersistStopsAt(log1, entries[1..], stop - 1);
    }
  }

  /** No later entry of the batch has the same index or a lower one, so entry `i` is still there in the end. */
  ghost predicate Survives(batch: Log, i: nat)
    requires i < |batch|
  {
    forall k :: i < k < |batch| ==> batch[k].index > batch[i].index
  }

  /** Everything the batch leaves behind is in the log already, at its place, and the batch ends where the log does. */
  ghost predicate Replays(log: Log, batch: Log) {
    batch != [] ==>
      && batch[|batch| - 1].index == |log|
      && forall i :: 0 <= i < |batch| && Survives(batch, i) ==> EntryAt(log, batch[i].index) == Some(batch[i])
  }

  /** What a batch that fits leaves behind: its surviving entries, over what lay before all of them. */
  lemma {:induction false} PersistLeaves(log: Log, batch: Log)
    requires batch != [] && AllFit(log, batch)
    ensures var r := Persist(log, batch).log;
            && |r| == batch[|batch| - 1].index
            && (forall i :: 0 <= i < |batch| && Survives(batch, i) ==> EntryAt(r, batch[i].index) == Some(batch[i]))
            && (forall j :: 0 <= j < |r| && (forall i :: 0 <= i < |batch| ==> batch[i].index > j + 1) ==>
                  j < |log| && r[j] == log[j])
    decreases |batch|
  {
    assert Fits(log, batch, 0);
    var log1, rest := log[..batch[0].index - 1] + [batch[0]], batch[1..];
    var r := Persist(log, batch).log;
    assert Persist(log, batch) == Persist(log1, rest);
    if rest == [] {
      assert r == log1;
    } else {
      FitAfterFirst(log, batch);
      PersistLeaves(log1, rest);
      forall i | 0 <= i < |batch| && Survives(batch, i)
        ensures EntryAt(r, batch[i].index) == Some(batch[i])
      {
        if i == 0 {
          FirstSurvives(log1, batch, r);
        } else {
          RestSurvives(batch, i);
        }
      }
      forall j | 0 <= j < |r| && (forall i :: 0 <= i < |batch| ==> batch[i].index > j + 1)
        ensures j < |log| && r[j] == log[j]
      {
        assert forall i :: 0 <= i < |rest| ==> rest[i] == batch[i + 1];
        assert r[j] == log1[j];
      }
    }
  }

  lemma FirstSurvives(log1: Log, batch: Log, r: Log)
    requires |batch| > 1 && Survives(batch, 0) && 1 <= batch[0].index == |log1| && log1[|log1| - 1] == batch[0]
    requires |r| == batch[|batch| - 1].index
    requires forall j :: 0 <= j < |r| && (forall i :: 0 <= i < |batch[1..]| ==> batch[1..][i].index > j + 1) ==>
               j < |log1| && r[j] == log1[j]
    ensures EntryAt(r, batch[0].index) == Some(batch[0])
  {
    var j := batch[0].index - 1;
    assert batch[|batch| - 1].index > batch[0].index;
    assert forall i :: 0 <= i < |batch[1..]| ==> batch[1..][i].index > j + 1;
  }

  lemma RestSurvives(batch: Log, i: nat)
    requires 0 < i < |batch| && Survives(batch, i)
    ensures Survives(batch[1..], i - 1) && batch[1..][i - 1] == batch[i]
  {
  }

  /** Some surviving entry sits at every index from the lowest one of the batch on. */
  lemma {:induction false} SurvivorAt(log: Log, batch: Log, index: Index, i: nat) returns (k: nat)
    requires i < |batch| && AllFit(log, batch) && batch[i].index <= index <= batch[|batch| - 1].index
    ensures k < |batch| && Survives(batch, k) && batch[k].index == index
    decreases |batch| - i
  {
    if j :| i < j < |batch| && batch[j].index <= index {
      k := SurvivorAt(log, batch, index, j);
    } else {
      k := i;
      assert i + 1 < |batch| ==> Fits(log, batch, i + 1);
    }
  }

  /** A failed batch leaves the log as it was exactly when the part before the failure replays the log's own entries;
      in particular when the first entry is the one that fails. */
  lemma FailedPersistUnchangedIff(log: Log, entries: Log, stop: nat)
    requires stop < |entries| && AllFit(log, entries[..stop]) && !Fits(log, entries, stop)
    ensures Persist(log, entries).error.Some?
    ensures Persist(log, entries).log == log <==> Replays(log, entries[..stop])
  {
    var batch := entries[..stop];
    PersistStopsAt(log, entries, stop);
    if batch == [] {
      assert Persist(log, batch).log == log;
    } else {
      LeavesLogIff(log, batch);
    }
    hide Persist, AllFit, Replays;
  }

  lemma LeavesLogIff(log: Log, batch: Log)
    requires batch != [] && AllFit(log, batch)
    ensures Persist(log, batch).log == log <==> Replays(log, batch)
  {
    PersistLeaves(log, batch);
    var r := Persist(log, batch).log;
    hide Persist, AllFit, Survives;
    if Replays(log, batch) {
      forall j | 0 <= j < |r|
        ensures r[j] == log[j]
      {
        ReplayedAt(log, batch, r, j);
      }
      assert r == log;
    }
  }

  lemma ReplayedAt(log: Log, batch: Log, r: Log, j: nat)
    requires batch != [] && AllFit(log, batch) && Replays(log, batch) && |r| == batch[|batch| - 1].index && j < |r|
    requires forall i :: 0 <= i < |batch| && Survives(batch, i) ==> EntryAt(r, batch[i].index) == Some(batch[i])
    requires (forall i :: 0 <= i < |batch| ==> batch[i].index > j + 1) ==> j < |log| && r[j] == log[j]
    ensures j < |log| && r[j] == log[j]
  {
    hide AllFit, Survives;
    if i :| 0 <= i < |batch| && batch[i].index <= j + 1 {
      var k := SurvivorAt(log, batch, j + 1, i);
      assert EntryAt(r, j + 1) == Some(batch[k]) && EntryAt(log, j + 1) == Some(batch[k]);
    }
  }

  // ------------------------------------------------------- the follower merge

  /** The consistency check on the entry just before the batch. */
  predicate PrevMatches(log: Log, prevIndex: Index, prevTerm: Term) {
    if prevIndex == 0 then prevTerm == 0
    else EntryAt(log, prevIndex).Some? && EntryAt(log, prevIndex).value.term == prevTerm
  }

  /** How many leading entries of the batch are already in the log, comparing terms only. */
  function Agreeing(log: Log, prev: Index, entries: Log): (k: nat)
    ensures k <= |entries|
    ensures prev <= |log| ==> prev + k <= |log|
    ensures forall i :: 0 <= i < k ==> prev + i < |log| && log[prev + i].term == entries[i].term
    ensures k < |entries| && prev + k < |log| ==> log[prev + k].term != entries[k].term
    decreases |entries|
  {
    if entries == [] || prev >= |log| || log[prev].term != entries[0].term then 0
    else 1 + Agreeing(log, prev + 1, entries[1..])
  }

  lemma AgreeingNothing(log: Log, prev: Index)
    ensures Agreeing(log, prev, []) == 0
  {
  }

  /** The comparison goes on entry by entry. */
  lemma AgreeingStep(log: Log, prev: Index, entries: Log, i: nat)
    requires i < |entries|
    ensures Agreeing(log, prev + i, entries[i..]) ==
            if prev + i < |log| && log[prev + i].term == entries[i].term
            then 1 + Agreeing(log, prev + i + 1, entries[i + 1..])
            else 0
  {
    assert entries[i..][0] == entries[i] && entries[i..][1..] == entries[i + 1..];
  }

  /** The follower's log after a batch passed the consistency check. */
  function Merge(log: Log, prev: Index, entries: Log): Log
    requires prev <= |log|
  {
    var k := Agreeing(log, prev, entries);
    if k == |entries| then log else Persist(log[..prev + k], entries[k..]).log
  }

  /** The index the merge would truncate from, if it meets a conflict. */
  function ConflictAt(log: Log, prev: Index, entries: Log): Option<Index> {
    var k := Agreeing(log, prev, entries);
    if k < |entries| && prev + k < |log| then Some(prev + k + 1) else None
  }

  /** The batch agrees with the log term by term. */
  ghost predicate Agrees(log: Log, prev: Index, entries: Log) {
    prev + |entries| <= |log| &&
    forall i :: 0 <= i < |entries| ==> log[prev + i].term == entries[i].term
  }

  lemma AgreeingIsAgrees(log: Log, prev: Index, entries: Log)
    ensures prev <= |log| ==> (Agreeing(log, prev, entries) == |entries| <==> Agrees(log, prev, entries))
  {
  }

  lemma MergeByAgreement(log: Log, prev: Index, entries: Log)
    requires prev <= |log| && Contiguous(entries, prev + 1)
    ensures var k := Agreeing(log, prev, entries);
            Merge(log, prev, entries) == if k == |entries| then log else log[..prev + k] + entries[k..]
  {
    hide Agreeing;
    var k := Agreeing(log, prev, entries);
    if k < |entries| {
      assert Contiguous(entries[k..], prev + k + 1);
      PersistIsKeepThenAppend(log[..prev + k], entries[k..], prev + k + 1);
      assert log[..prev + k][..prev + k] == log[..prev + k];
    }
  }

  /** Merging leaves an agreeing log alone; otherwise it keeps the agreeing part and appends the rest. */
  lemma MergeSpec(log: Log, prev: Index, entries: Log)
    requires prev <= |log| && Contiguous(entries, prev + 1)
    ensures Agrees(log, prev, entries) ==> Merge(log, prev, entries) == log
    ensures !Agrees(log, prev, entries) ==>
              var k := Agreeing(log, prev, entries);
              Merge(log, prev, entries) == log[..prev + k] + entries[k..] &&
              |Merge(log, prev, entries)| == prev + |entries|
  {
    MergeByAgreement(log, prev, entries);
    AgreeingIsAgrees(log, prev, entries);
  }

  /** Replaying the same batch changes nothing. */
  lemma MergeIsIdempotent(log: Log, prev: Index, entries: Log)
    requires prev <= |log| && Contiguous(entries, prev + 1)
    ensures prev <= |Merge(log, prev, entries)|
    ensures Merge(Merge(log, prev, entries), prev, entries) == Merge(log, prev, entries)
  {
    MergeSpec(log, prev, entries);
    var merged := Merge(log, prev, entries);
    if !Agrees(log, prev, entries) {
      var k := Agreeing(log, prev, entries);
      forall i | 0 <= i < |entries|
        ensures merged[prev + i].term == entries[i].term
      {
        if i >= k {
          assert merged[prev + i] == entries[k..][i - k];
        }
      }
      assert Agrees(merged, prev, entries);
    }
    MergeSpec(merged, prev, entries);
  }

  /** Two logs that agree through `prev` and share contents wherever they share terms: the merge against a
      batch cut from `source` adopts the source's prefix unless the log already contains it. */
  lemma MergeAdoptsSource(log: Log, source: Log, prev: Index, upTo: Index)
    requires prev <= upTo <= |source| && prev <= |log| && log[..prev] == source[..prev]
    requires WellIndexed(source)
    requires forall i :: 0 <= i < |log| && i < |source| && log[i].term == source[i].term ==>
               log[..i + 1] == source[..i + 1]
    ensures Merge(log, prev, source[prev..upTo]) == if source[..upTo] <= log then log else source[..upTo]
  {
    hide Merge, Persist, Agreeing;
    var batch := source[prev..upTo];
    var k := Agreeing(log, prev, batch);
    AgreementIsEquality(log, source, prev, upTo);
    MergeByAgreement(log, prev, batch);
    if k < |batch| {
      assert log[..prev + k] + batch[k..] == source[..upTo];
      if source[..upTo] <= log {
        assert false;
      }
    } else {
      assert log[..upTo] == source[..upTo];
    }
  }

  /** Where contents follow terms, the part of a batch that agrees in terms agrees outright. */
  lemma AgreementIsEquality(log: Log, source: Log, prev: Index, upTo: Index)
    requires prev <= upTo <= |source| && prev <= |log| && log[..prev] == source[..prev]
    requires forall i :: 0 <= i < |log| && i < |source| && log[i].term == source[i].term ==>
               log[..i + 1] == source[..i + 1]
    ensures var k := Agreeing(log, prev, source[prev..upTo]);
            && log[..prev + k] == source[..prev + k]
            && (prev + k < |log| && prev + k < upTo ==> log[prev + k] != source[prev + k])
  {
    var batch := source[prev..upTo];
    var k := Agreeing(log, prev, batch);
    hide Agreeing;
    if k > 0 {
      assert log[prev + (k - 1)].term == batch[k - 1].term;
    }
  }
}
