/** The engine as it runs: fields updated in place, over a storage it owns. Every operation is proved to do, state and
    actions alike, what the corresponding function of EngineSpec says. */
module RaftEngine {
  import opened Types
  import LogSpec
  import Spec = EngineSpec
  import M = Membership
  import Storage = MemoryStorage

  class RaftEngine {
    const config: Config
    const storage: Storage.MemoryStorage
    const membership: M.Membership
    var role: Role
    var leader: Option<NodeId>
    var votes: set<NodeId>
    var electionDeadline: Instant
    var heartbeatDeadline: Instant
    var nextIndex: map<NodeId, Index>
    var matchIndex: map<NodeId, Index>
    var lastAe: map<NodeId, (Index, nat)>
    var inflight: set<NodeId>
    var commitIndex: Index
    var lastApplied: Index

    ghost predicate Valid()
      reads this, storage
    {
      storage.Valid()
    }

    /** The state the specification talks about. */
    ghost function View(): Spec.Engine
      reads this, storage
    {
      Spec.Engine(config, membership, storage.hardState, storage.entries, role, leader, votes,
                  electionDeadline, heartbeatDeadline, nextIndex, matchIndex, lastAe, inflight, commitIndex,
                  lastApplied)
    }

    /** Takes over a storage that may hold the state of an earlier life. */
    constructor (config: Config, storage: Storage.MemoryStorage, now: Instant)
      requires storage.Valid()
      ensures Valid() && this.storage == storage
      ensures View() == Spec.New(config, storage.hardState, storage.entries, now)
    {
      this.config := config;
      this.storage := storage;
      membership := M.New(config.voters);
      role := Follower;
      leader := None;
      votes := {};
      electionDeadline := now + config.electionTimeout + config.electionJitter;
      heartbeatDeadline := now + config.heartbeatInterval;
      nextIndex := map[];
      matchIndex := map[];
      lastAe := map[];
      inflight := {};
      commitIndex := 0;
      lastApplied := 0;
    }

    function CurrentTerm(): Term
      reads this, storage
    {
      storage.hardState.currentTerm
    }

    function OtherVoters(): seq<NodeId> {
      membership.OtherVoters(config.nodeId)
    }

    function NextDeadline(): (deadline: Instant)
      reads this, storage
      ensures deadline == View().NextDeadline()
    {
      match role
      case Leader => if heartbeatDeadline < electionDeadline then heartbeatDeadline else electionDeadline
      case Follower => electionDeadline
      case Candidate => electionDeadline
    }

    // -------------------------------------------------------------- inputs

    /** Appends a command on the leader and replicates it; anyone else refuses. */
    method Propose(data: Command) returns (index: Option<Index>, actions: seq<Action>)
      requires Valid()
      modifies this, storage
      ensures Valid()
      ensures match Spec.Propose(old(View()), data)
              case NotLeader => index == None && actions == [] && View() == old(View())
              case Proposed(i, r) => index == Some(i) && actions == r.actions && View() == r.engine
    {
      if role != Leader {
        return None, [];
      }
      var (last, _) := storage.LastIndexTerm();
      var entry := LogEntry(last + 1, CurrentTerm(), data);
      LogSpec.PersistIsKeepThenAppend(storage.entries, [entry], last + 1);
      assert storage.entries[..last] == storage.entries;
      var _ := storage.Persist(None, [entry]);
      assert View() == old(View()).(log := old(storage.entries) + [entry]);
      actions := ReplicateActions();
      index := Some(last + 1);
    }

    method Tick(now: Instant) returns (actions: seq<Action>, nextDeadline: Instant)
      requires Valid()
      modifies this, storage
      ensures Valid() && Spec.Tick(old(View()), now) == Spec.Outcome(View(), actions)
      ensures nextDeadline == View().NextDeadline()
    {
      actions := [];
      if now < NextDeadline() {
        nextDeadline := NextDeadline();
        return;
      }
      if role != Leader && now >= electionDeadline {
        actions := StartElection(now);
      } else if role == Leader && now >= heartbeatDeadline {
        actions := ReplicateActions();
        heartbeatDeadline := now + config.heartbeatInterval;
      }
      nextDeadline := NextDeadline();
    }

    method HandleRpc(from: NodeId, msg: Message, now: Instant) returns (actions: seq<Action>)
      requires Valid()
      modifies this, storage
      ensures Valid() && Spec.HandleRpc(old(View()), from, msg, now) == Spec.Outcome(View(), actions)
    {
      match msg {
        case RequestVote(term, candidate, lastIndex, lastTerm) =>
          actions := HandleRequestVote(from, term, candidate, lastIndex, lastTerm, now);
        case RequestVoteResp(term, granted) =>
          actions := HandleRequestVoteResp(from, term, granted, now);
        case AppendEntries(term, leaderId, prevIndex, prevTerm, entries, commit) =>
          actions := HandleAppendEntries(from, term, leaderId, prevIndex, prevTerm, entries, commit, now);
        case AppendEntriesResp(term, success, _) =>
          actions := HandleAppendEntriesResp(from, term, success);
        case InstallSnapshot(_) =>
          actions := [];
        case InstallSnapshotResp(_) =>
          actions := [];
      }
    }

    method HandleRpcFailure(to: NodeId, kind: RpcKind)
      modifies this
      ensures View() == Spec.HandleRpcFailure(old(View()), to, kind)
    {
      if kind == AppendRpc {
        inflight := inflight - {to};
      }
    }

    // -------------------------------------------------------------- roles

    method StartElection(now: Instant) returns (actions: seq<Action>)
      requires Valid()
      modifies this, storage
      ensures Valid() && Spec.StartElection(old(View()), now) == Spec.Outcome(View(), actions)
    {
      var term := CurrentTerm() + 1;
      actions := BecomeCandidate(term);
      ResetElectionDeadline(now);
      var (lastIndex, lastTerm) := storage.LastIndexTerm();
      actions := actions + [Broadcast(RequestVote(term, config.nodeId, lastIndex, lastTerm))];
    }

    method BecomeCandidate(term: Term) returns (actions: seq<Action>)
      requires Valid()
      modifies this, storage
      ensures Valid() && actions == [BecameCandidate(term)]
      ensures View() == old(View()).(hard := HardState(term, Some(config.nodeId)), role := Candidate, leader := None,
                                     votes := {config.nodeId})
    {
      role := Candidate;
      leader := None;
      votes := {};
      votes := votes + {config.nodeId};
      var _ := storage.Persist(Some(HardState(term, Some(config.nodeId))), []);
      actions := [BecameCandidate(term)];
    }

    method BecomeFollower(term: Term, leader: Option<NodeId>) returns (actions: seq<Action>)
      requires Valid()
      modifies this, storage
      ensures Valid() && actions == [BecameFollower(term, leader)]
      ensures View() == Spec.BecomeFollower(old(View()), term, leader)
    {
      if term > CurrentTerm() {
        var _ := storage.Persist(Some(HardState(term, None)), []);
      }
      role := Follower;
      this.leader := leader;
      votes := {};
      nextIndex := map[];
      matchIndex := map[];
      lastAe := map[];
      inflight := {};
      actions := [BecameFollower(term, leader)];
    }

    method BecomeLeader(term: Term, now: Instant) returns (actions: seq<Action>)
      requires Valid()
      modifies this
      ensures Valid() && actions == [BecameLeader(term)]
      ensures View() == Spec.BecomeLeader(old(View()), now)
    {
      hide Spec.EveryPeer, LogSpec.WellIndexed, LogSpec.LastTerm;
      role := Leader;
      leader := Some(config.nodeId);
      votes := {};
      var (lastIndex, _) := storage.LastIndexTerm();
      lastAe := map[];
      inflight := {};
      ResetBooks(lastIndex);
      heartbeatDeadline := now + config.heartbeatInterval;
      ResetElectionDeadline(now);
      actions := [BecameLeader(term)];
    }

    /** Every other voter is to be sent what follows the log, and is known to hold nothing. */
    method ResetBooks(lastIndex: Index)
      modifies this`nextIndex, this`matchIndex
      ensures nextIndex == Spec.EveryPeer(membership, config.nodeId, lastIndex + 1)
      ensures matchIndex == Spec.EveryPeer(membership, config.nodeId, 0)
    {
      nextIndex := map[];
      matchIndex := map[];
      var voters := membership.order;
      for i := 0 to |voters|
        invariant forall p :: p in nextIndex <==> p in voters[..i] && p != config.nodeId
        invariant forall p :: p in matchIndex <==> p in voters[..i] && p != config.nodeId
        invariant forall p :: p in nextIndex ==> nextIndex[p] == lastIndex + 1
        invariant forall p :: p in matchIndex ==> matchIndex[p] == 0
      {
        if voters[i] != config.nodeId {
          nextIndex := nextIndex[voters[i] := lastIndex + 1];
          matchIndex := matchIndex[voters[i] := 0];
        }
        assert voters[..i + 1] == voters[..i] + [voters[i]];
      }
      assert voters[..|voters|] == voters;
    }

    method ResetElectionDeadline(now: Instant)
      modifies this`electionDeadline
      ensures electionDeadline == now + config.electionTimeout + config.electionJitter
    {
      electionDeadline := now + config.electionTimeout + config.electionJitter;
    }

    // -------------------------------------------------------------- votes

    method HandleRequestVote(from: NodeId, term: Term, candidate: NodeId, lastIndex: Index, lastTerm: Term,
                             now: Instant)
      returns (actions: seq<Action>)
      requires Valid()
      modifies this, storage
      ensures Valid()
      ensures Spec.HandleRequestVote(old(View()), from, term, candidate, lastIndex, lastTerm, now) ==
                Spec.Outcome(View(), actions)
    {
      actions := [];
      var currentTerm := CurrentTerm();
      if term < currentTerm {
        return [Send(from, RequestVoteResp(currentTerm, false))];
      }
      if term > currentTerm {
        actions := BecomeFollower(term, None);
      }
      var hard := storage.hardState;
      var granted := false;
      var canVote := hard.votedFor == None || hard.votedFor == Some(candidate);
      if canVote && LogIsUpToDate(lastIndex, lastTerm) {
        var _ := storage.Persist(Some(HardState(Spec.Max(term, CurrentTerm()), Some(candidate))), []);
        granted := true;
        role := Follower;
        leader := None;
        votes := {};
        ResetElectionDeadline(now);
      }
      actions := actions + [Send(from, RequestVoteResp(CurrentTerm(), granted))];
    }

    /** Is a candidate whose log ends in (lastIndex, lastTerm) at least as up to date as this node? */
    function LogIsUpToDate(lastIndex: Index, lastTerm: Term): (ok: bool)
      requires Valid()
      reads this, storage
      ensures ok == LogSpec.UpToDate(storage.entries, lastIndex, lastTerm)
    {
      var (ownIndex, ownTerm) := storage.LastIndexTerm();
      lastTerm > ownTerm || (lastTerm == ownTerm && lastIndex >= ownIndex)
    }

    method HandleRequestVoteResp(from: NodeId, term: Term, granted: bool, now: Instant) returns (actions: seq<Action>)
      requires Valid()
      modifies this, storage
      ensures Valid()
      ensures Spec.HandleRequestVoteResp(old(View()), from, term, granted, now) == Spec.Outcome(View(), actions)
    {
      actions := [];
      var currentTerm := CurrentTerm();
      if term < currentTerm {
        return;
      }
      if term > currentTerm {
        actions := BecomeFollower(term, None);
        return;
      }
      if role != Candidate || !granted {
        return;
      }
      votes := votes + {from};
      if |votes| >= membership.Quorum() {
        actions := BecomeLeader(term, now);
      }
    }

    // -------------------------------------------------------------- follower side of replication

    method HandleAppendEntries(from: NodeId, term: Term, leaderId: NodeId, prevIndex: Index, prevTerm: Term,
                               entries: Log, leaderCommit: Index, now: Instant)
      returns (actions: seq<Action>)
      requires Valid()
      modifies this, storage
      ensures Valid()
      ensures Spec.HandleAppendEntries(old(View()), from, term, leaderId, prevIndex, prevTerm, entries, leaderCommit,
                                       now)
              == Spec.Outcome(View(), actions)
    {
      actions := [];
      var currentTerm := CurrentTerm();
      var (lastIndex, _) := storage.LastIndexTerm();
      if term < currentTerm {
        return [Send(from, AppendEntriesResp(currentTerm, false, lastIndex))];
      }
      if term > currentTerm {
        actions := BecomeFollower(term, Some(leaderId));
      } else if role != Follower {
        actions := BecomeFollower(term, Some(leaderId));
      } else {
        leader := Some(leaderId);
      }
      ResetElectionDeadline(now);
      assert Spec.FollowLeader(old(View()), term, leaderId, now) == Spec.Outcome(View(), actions);

      var prevOk := if prevIndex == 0 then prevTerm == 0
                    else storage.Entry(prevIndex).Some? && storage.Entry(prevIndex).value.term == prevTerm;
      if !prevOk {
        var (last, _) := storage.LastIndexTerm();
        actions := actions + [Send(from, AppendEntriesResp(CurrentTerm(), false, last))];
        return;
      }
      label Followed:
      MergeEntries(prevIndex, entries);
      var lastNew := prevIndex + |entries|;
      var applied := AdvanceCommitAndApply(leaderCommit, lastNew);
      actions := actions + applied + [Send(from, AppendEntriesResp(CurrentTerm(), true, lastNew))];
    }

    /** Skips what the log already has, truncates at the first conflict, and persists the rest. */
    method MergeEntries(prevIndex: Index, entries: Log)
      requires Valid() && prevIndex <= |storage.entries|
      modifies storage
      ensures Valid() && View() == old(View()).(log := LogSpec.Merge(old(storage.entries), prevIndex, entries))
    {
      var appendFrom := TruncateConflict(prevIndex, entries);
      if appendFrom < |entries| {
        var _ := storage.Persist(None, entries[appendFrom..]);
      }
    }

    /** The position in the batch from which on it has to be persisted. */
    method TruncateConflict(prevIndex: Index, entries: Log) returns (appendFrom: nat)
      requires Valid() && prevIndex <= |storage.entries|
      modifies storage
      ensures Valid() && storage.hardState == old(storage.hardState)
      ensures appendFrom == LogSpec.Agreeing(old(storage.entries), prevIndex, entries)
      ensures storage.entries == if appendFrom < |entries| then old(storage.entries)[..prevIndex + appendFrom]
              else old(storage.entries)
    {
      hide LogSpec.Agreeing;
      appendFrom := 0;
      var i := 0;
      assert entries[0..] == entries && entries[|entries|..] == [];
      ghost var log := storage.entries;
      LogSpec.AgreeingNothing(log, prevIndex + |entries|);
      while i < |entries|
        invariant i <= |entries| && appendFrom == i && Valid() && storage.entries == log
                  && storage.hardState == old(storage.hardState)
        invariant prevIndex + i <= |log|
        invariant LogSpec.Agreeing(log, prevIndex, entries) == i + LogSpec.Agreeing(log, prevIndex + i, entries[i..])
      {
        var entry := entries[i];
        LogSpec.AgreeingStep(log, prevIndex, entries, i);
        var idx := prevIndex + 1 + i;
        var existing := storage.Entry(idx);
        if existing.Some? && existing.value.term == entry.term {
          appendFrom := i + 1;
        } else if existing.Some? {
          storage.TruncateFrom(idx);
          appendFrom := i;
          return;
        } else {
          assert log[..prevIndex + i] == log;
          appendFrom := i;
          return;
        }
        i := i + 1;
      }
    }

    method AdvanceCommitAndApply(leaderCommit: Index, lastNew: Index) returns (actions: seq<Action>)
      requires Valid()
      modifies this
      ensures Valid() && Spec.AdvanceCommit(old(View()), leaderCommit, lastNew) == Spec.Outcome(View(), actions)
    {
      actions := [];
      var newCommit := if leaderCommit < lastNew then leaderCommit else lastNew;
      if newCommit > commitIndex {
        commitIndex := newCommit;
      }
      if commitIndex <= lastApplied {
        return;
      }
      var entries := Applicable();
      lastApplied := commitIndex;
      if entries != [] {
        actions := [Apply(entries)];
      }
    }

    /** The entries after the last applied one, through the commit index, as far as the log has them. */
    method Applicable() returns (entries: Log)
      requires Valid() && lastApplied <= commitIndex
      ensures entries == Spec.Slice(storage.entries, lastApplied, commitIndex)
    {
      hide Spec.Slice;
      entries := [];
      var i := lastApplied + 1;
      Spec.SliceGrows(storage.entries, lastApplied, lastApplied);
      while i <= commitIndex
        invariant lastApplied + 1 <= i <= commitIndex + 1
        invariant entries == Spec.Slice(storage.entries, lastApplied, i - 1)
      {
        Spec.SliceGrows(storage.entries, lastApplied, i - 1);
        var e := storage.Entry(i);
        if e.Some? {
          entries := entries + [e.value];
        }
        i := i + 1;
      }
    }

    // -------------------------------------------------------------- leader side of replication

    method HandleAppendEntriesResp(from: NodeId, term: Term, success: bool) returns (actions: seq<Action>)
      requires Valid()
      modifies this, storage
      ensures Valid() && Spec.HandleAppendEntriesResp(old(View()), from, term, success) == Spec.Outcome(View(), actions)
    {
      actions := [];
      var currentTerm := CurrentTerm();
      if term > currentTerm {
        actions := BecomeFollower(term, None);
        return;
      }
      if role != Leader || term != currentTerm || from !in lastAe {
        return;
      }
      var (reqPrev, reqLen) := lastAe[from];
      inflight := inflight - {from};
      if success {
        var matched := reqPrev + reqLen;
        var cur := if from in matchIndex then matchIndex[from] else 0;
        matchIndex := matchIndex[from := Spec.Max(cur, matched)];
        nextIndex := nextIndex[from := matched + 1];
        assert View() == Spec.Credit(old(View()), from);
        actions := MaybeCommit();
        var next := if from in nextIndex then nextIndex[from] else 1;
        var (last, _) := storage.LastIndexTerm();
        if next <= last {
          var sent := SendAppendEntriesTo(from);
          actions := actions + sent;
        }
      } else {
        var next := if from in nextIndex then nextIndex[from] else 1;
        if next != reqPrev + 1 {
          return;
        }
        var matched := if from in matchIndex then matchIndex[from] else 0;
        var newNext := Spec.Max(Spec.Max(if next == 0 then 0 else next - 1, matched + 1), 1);
        nextIndex := nextIndex[from := newNext];
        actions := SendAppendEntriesTo(from);
      }
    }

    method ReplicateActions() returns (actions: seq<Action>)
      requires Valid()
      modifies this
      ensures Valid() && Spec.Replicate(old(View())) == Spec.Outcome(View(), actions)
    {
      hide Spec.SendAppendEntriesTo;
      actions := [];
      var peers := OtherVoters();
      assert peers[0..] == peers;
      for i := 0 to |peers|
        invariant Spec.ReplicateTo(old(View()), peers) ==
                  var rest := Spec.ReplicateTo(View(), peers[i..]); Spec.Outcome(rest.engine, actions + rest.actions)
      {
        assert peers[i..][0] == peers[i] && peers[i..][1..] == peers[i + 1..];
        var sent := SendAppendEntriesTo(peers[i]);
        actions := actions + sent;
      }
    }

    /** At most one append to a peer is unanswered at any time. */
    method SendAppendEntriesTo(to: NodeId) returns (actions: seq<Action>)
      requires Valid()
      modifies this
      ensures Valid() && Spec.SendAppendEntriesTo(old(View()), to) == Spec.Outcome(View(), actions)
    {
      if to in inflight {
        return [];
      }
      var built := BuildAppendEntries(to);
      if built.None? {
        return [];
      }
      var (msg, prev, len) := built.value;
      lastAe := lastAe[to := (prev, len)];
      inflight := inflight + {to};
      actions := [Send(to, msg)];
    }

    method BuildAppendEntries(to: NodeId) returns (built: Option<(Message, Index, nat)>)
      requires Valid()
      ensures match Spec.BuildAppendEntries(View(), to)
              case None => built == None
              case Some(msg) => built == Some((msg, msg.prevLogIndex, |msg.entries|))
    {
      if to !in nextIndex {
        return None;
      }
      var next := nextIndex[to];
      var prevIndex := if next == 0 then 0 else next - 1;
      var prevTerm := 0;
      if prevIndex > 0 {
        var e := storage.Entry(prevIndex);
        if e.None? {
          return None;
        }
        prevTerm := e.value.term;
      }
      var (lastIndex, _) := storage.LastIndexTerm();
      var entries: Log := [];
      var idx := next;
      while idx <= lastIndex
        invariant next <= idx && prevIndex <= |storage.entries| && (next > 0 ==> idx <= lastIndex + 1)
        invariant next == 0 ==> idx == 0
        invariant next > 0 ==> entries == storage.entries[prevIndex..idx - 1]
      {
        var e := storage.Entry(idx);
        if e.None? {
          return None;
        }
        entries := entries + [e.value];
        idx := idx + 1;
      }
      var len := |entries|;
      assert entries == storage.entries[prevIndex..];
      built := Some((AppendEntries(CurrentTerm(), config.nodeId, prevIndex, prevTerm, entries, commitIndex), prevIndex,
                     len));
    }

    /** Scans from the end of the log down to the first index of the current term that a majority holds. */
    method MaybeCommit() returns (actions: seq<Action>)
      requires Valid()
      modifies this
      ensures Valid() && Spec.MaybeCommit(old(View())) == Spec.Outcome(View(), actions)
    {
      actions := [];
      var (lastIndex, _) := storage.LastIndexTerm();
      var term := CurrentTerm();
      var quorum := membership.Quorum();
      var newCommit := commitIndex;
      var start := commitIndex + 1;
      if start > lastIndex {
        return;
      }
      var n := lastIndex;
      while n >= start
        invariant start - 1 <= n <= lastIndex && newCommit == commitIndex && View() == old(View())
        invariant Spec.CommitTarget(View(), lastIndex) == Spec.CommitTarget(View(), n)
      {
        var e := storage.Entry(n);
        if e.Some? && e.value.term == term {
          var count := CountHolders(n);
          if count >= quorum {
            newCommit := n;
            break;
          }
        }
        n := n - 1;
      }
      assert newCommit == Spec.CommitTarget(View(), lastIndex);
      if newCommit > commitIndex {
        actions := AdvanceCommitAndApply(newCommit, newCommit);
      }
    }

    /** The leader itself and every other voter known to hold index `n`. */
    method CountHolders(n: Index) returns (count: nat)
      requires Valid()
      ensures n > 0 ==> count == 1 + M.Count(OtherVoters(), Spec.Holders(View(), n))
    {
      count := 1;
      var peers := OtherVoters();
      ghost var holders := Spec.Holders(View(), n);
      assert peers[0..] == peers;
      for j := 0 to |peers|
        invariant n > 0 ==> count + M.Count(peers[j..], holders) == 1 + M.Count(peers, holders)
      {
        assert peers[j..][0] == peers[j] && peers[j..][1..] == peers[j + 1..];
        var known := if peers[j] in matchIndex then matchIndex[peers[j]] else 0;
        if known >= n {
          count := count + 1;
        }
      }
    }
  }
}
