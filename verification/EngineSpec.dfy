/** The consensus engine as functions on values: one step per event, with the actions it asks for. */
module EngineSpec {
  import opened Types
  import opened LogSpec
  import M = Membership

  datatype Engine = Engine(
    config: Config, members: M.Membership,
    hard: HardState, log: Log,
    role: Role, leader: Option<NodeId>, votes: set<NodeId>,
    electionDeadline: Instant, heartbeatDeadline: Instant,
    nextIndex: map<NodeId, Index>, matchIndex: map<NodeId, Index>,
    lastAe: map<NodeId, (Index, nat)>,      // previous index and length of the last append sent to a peer
    inflight: set<NodeId>,                  // peers with an unanswered append
    commitIndex: Index, lastApplied: Index)
  {
    function Id(): NodeId { config.nodeId }

    function Term(): Term { hard.currentTerm }

    function Others(): seq<NodeId> { members.OtherVoters(Id()) }

    function NextDeadline(): Instant {
      match role
      case Leader => if heartbeatDeadline < electionDeadline then heartbeatDeadline else electionDeadline
      case Follower => electionDeadline
      case Candidate => electionDeadline
    }

    function FreshElectionDeadline(now: Instant): Instant {
      now + config.electionTimeout + config.electionJitter
    }
  }

  datatype Outcome = Outcome(engine: Engine, actions: seq<Action>)

  function New(config: Config, hard: HardState, log: Log, now: Instant): Engine {
    Engine(config, M.New(config.voters), hard, log, Follower, None, {},
           now + config.electionTimeout + config.electionJitter, now + config.heartbeatInterval,
           map[], map[], map[], {}, 0, 0)
  }

  // ---------------------------------------------------------------- roles

  function BecomeFollower(s: Engine, term: Term, leader: Option<NodeId>): Engine {
    s.(hard := if term > s.Term() then HardState(term, None) else s.hard,
       role := Follower, leader := leader, votes := {},
       nextIndex := map[], matchIndex := map[], lastAe := map[], inflight := {})
  }

  function EveryPeer(members: M.Membership, self: NodeId, index: Index): map<NodeId, Index> {
    var peers := members.Voters() - {self};
    map p | p in peers :: index
  }

  function BecomeLeader(s: Engine, now: Instant): Engine {
    s.(role := Leader, leader := Some(s.Id()), votes := {},
       nextIndex := EveryPeer(s.members, s.Id(), |s.log| + 1), matchIndex := EveryPeer(s.members, s.Id(), 0),
       lastAe := map[], inflight := {},
       heartbeatDeadline := now + s.config.heartbeatInterval, electionDeadline := s.FreshElectionDeadline(now))
  }

  function StartElection(s: Engine, now: Instant): Outcome {
    var term := s.Term() + 1;
    Outcome(s.(hard := HardState(term, Some(s.Id())), role := Candidate, leader := None, votes := {s.Id()},
               electionDeadline := s.FreshElectionDeadline(now)),
            [BecameCandidate(term), Broadcast(RequestVote(term, s.Id(), |s.log|, LastTerm(s.log)))])
  }

  function Tick(s: Engine, now: Instant): Outcome {
    if now < s.NextDeadline() then Outcome(s, [])
    else if s.role != Leader then StartElection(s, now)
    else if now >= s.heartbeatDeadline then
      var r := Replicate(s);
      r.(engine := r.engine.(heartbeatDeadline := now + s.config.heartbeatInterval))
    else Outcome(s, [])
  }

  // ---------------------------------------------------------------- votes

  function HandleRequestVote(s: Engine, from: NodeId, term: Term, candidate: NodeId,
                             lastIndex: Index, lastTerm: Term, now: Instant): Outcome {
    if term < s.Term() then Outcome(s, [Send(from, RequestVoteResp(s.Term(), false))])
    else
      var s1 := if term > s.Term() then BecomeFollower(s, term, None) else s;
      var before := if term > s.Term() then [BecameFollower(term, None)] else [];
      if (s1.hard.votedFor == None || s1.hard.votedFor == Some(candidate)) && UpToDate(s.log, lastIndex, lastTerm) then
        Outcome(s1.(hard := HardState(term, Some(candidate)), role := Follower, leader := None, votes := {},
                    electionDeadline := s.FreshElectionDeadline(now)),
                before + [Send(from, RequestVoteResp(term, true))])
      else
        Outcome(s1, before + [Send(from, RequestVoteResp(term, false))])
  }

  function HandleRequestVoteResp(s: Engine, from: NodeId, term: Term, granted: bool, now: Instant): Outcome {
    if term < s.Term() then Outcome(s, [])
    else if term > s.Term() then Outcome(BecomeFollower(s, term, None), [BecameFollower(term, None)])
    else if s.role != Candidate || !granted then Outcome(s, [])
    else
      var s1 := s.(votes := s.votes + {from});
      if |s1.votes| >= s.members.Quorum() then Outcome(BecomeLeader(s1, now), [BecameLeader(term)])
      else Outcome(s1, [])
  }

  // ---------------------------------------------------------------- follower side of replication

  function Slice(log: Log, from: nat, to: nat): Log {
    var hi := if to < |log| then to else |log|;
    if from < hi then log[from..hi] else []
  }

  lemma SliceGrows(log: Log, from: nat, to: nat)
    requires from <= to
    ensures Slice(log, from, to + 1) == Slice(log, from, to) + if to < |log| then [log[to]] else []
    ensures Slice(log, from, from) == []
  {
  }

  function Min(a: nat, b: nat): nat { if a < b then a else b }

  function Max(a: nat, b: nat): nat { if a < b then b else a }

  /** Raise the commit index to min(leaderCommit, lastNew) and hand out what is now applicable. */
  function AdvanceCommit(s: Engine, leaderCommit: Index, lastNew: Index): Outcome {
    var commit := Max(s.commitIndex, Min(leaderCommit, lastNew));
    if commit <= s.lastApplied then Outcome(s.(commitIndex := commit), [])
    else
      var entries := Slice(s.log, s.lastApplied, commit);
      Outcome(s.(commitIndex := commit, lastApplied := commit), if entries == [] then [] else [Apply(entries)])
  }

  /** The role change on contact from the leader of a term that is not stale. */
  function FollowLeader(s: Engine, term: Term, leader: NodeId, now: Instant): Outcome {
    if term > s.Term() || s.role != Follower then
      Outcome(BecomeFollower(s, term, Some(leader)).(electionDeadline := s.FreshElectionDeadline(now)),
              [BecameFollower(term, Some(leader))])
    else
      Outcome(s.(leader := Some(leader), electionDeadline := s.FreshElectionDeadline(now)), [])
  }

  function HandleAppendEntries(s: Engine, from: NodeId, term: Term, leader: NodeId, prevIndex: Index, prevTerm: Term,
                               entries: Log, leaderCommit: Index, now: Instant): Outcome {
    if term < s.Term() then Outcome(s, [Send(from, AppendEntriesResp(s.Term(), false, |s.log|))])
    else
      var r1 := FollowLeader(s, term, leader, now);
      if !PrevMatches(s.log, prevIndex, prevTerm) then
        Outcome(r1.engine, r1.actions + [Send(from, AppendEntriesResp(term, false, |s.log|))])
      else
        var lastNew := prevIndex + |entries|;
        var r2 := AdvanceCommit(r1.engine.(log := Merge(s.log, prevIndex, entries)), leaderCommit, lastNew);
        Outcome(r2.engine, r1.actions + r2.actions + [Send(from, AppendEntriesResp(term, true, lastNew))])
  }

  // ---------------------------------------------------------------- leader side of replication

  /** Everything from the peer's next index on; None if the next index points past the log. */
  function BuildAppendEntries(s: Engine, to: NodeId): Option<Message> {
    if to in s.nextIndex && 1 <= s.nextIndex[to] <= |s.log| + 1 then
      var prev := s.nextIndex[to] - 1;
      Some(AppendEntries(s.Term(), s.Id(), prev, TermAt(s.log, prev), s.log[prev..], s.commitIndex))
    else None
  }

  /** Send to a peer unless an append to it is unanswered. */
  function SendAppendEntriesTo(s: Engine, to: NodeId): Outcome {
    if to in s.inflight || BuildAppendEntries(s, to).None? then Outcome(s, [])
    else
      var msg := BuildAppendEntries(s, to).value;
      Outcome(s.(lastAe := s.lastAe[to := (msg.prevLogIndex, |msg.entries|)], inflight := s.inflight + {to}),
              [Send(to, msg)])
  }

  /** What is built depends on neither the marks nor the last appends. */
  lemma SameBuild(s: Engine, s': Engine, q: NodeId)
    requires s' == s.(lastAe := s'.lastAe, inflight := s'.inflight)
    ensures BuildAppendEntries(s', q) == BuildAppendEntries(s, q)
  {
  }

  function ReplicateTo(s: Engine, peers: seq<NodeId>): Outcome
    decreases |peers|
  {
    if peers == [] then Outcome(s, [])
    else
      var r := SendAppendEntriesTo(s, peers[0]);
      var rest := ReplicateTo(r.engine, peers[1..]);
      Outcome(rest.engine, r.actions + rest.actions)
  }

  function Replicate(s: Engine): Outcome {
    ReplicateTo(s, s.Others())
  }

  datatype Proposal = NotLeader | Proposed(index: Index, outcome: Outcome)

  function Propose(s: Engine, data: Command): Proposal {
    if s.role != Leader then NotLeader
    else
      var e := LogEntry(|s.log| + 1, s.Term(), data);
      Proposed(|s.log| + 1, Replicate(s.(log := s.log + [e])))
  }

  /** Peers whose recorded match index reaches `n`. */
  function Holders(s: Engine, n: Index): set<NodeId> {
    set p | p in s.matchIndex && s.matchIndex[p] >= n
  }

  /** Index `n` is of the current term and, counting the leader itself, on a majority. */
  predicate Committable(s: Engine, n: Index)
    requires n <= |s.log|
  {
    TermAt(s.log, n) == s.Term() && 1 + M.Count(s.Others(), Holders(s, n)) >= s.members.Quorum()
  }

  /** The highest committable index in (commitIndex, n], or commitIndex. */
  function CommitTarget(s: Engine, n: Index): (target: Index)
    requires n <= |s.log|
    ensures target == s.commitIndex || (s.commitIndex < target <= n && Committable(s, target))
    ensures forall i :: s.commitIndex < i <= n && Committable(s, i) ==> i <= target
  {
    if n <= s.commitIndex then s.commitIndex
    else if Committable(s, n) then n
    else CommitTarget(s, n - 1)
  }

  function MaybeCommit(s: Engine): Outcome {
    var target := CommitTarget(s, |s.log|);
    if target > s.commitIndex then AdvanceCommit(s, target, target) else Outcome(s, [])
  }

  function MatchOf(s: Engine, p: NodeId): Index {
    if p in s.matchIndex then s.matchIndex[p] else 0
  }

  function NextOf(s: Engine, p: NodeId): Index {
    if p in s.nextIndex then s.nextIndex[p] else 1
  }

  /** A success credits the peer with what the last append to it covered. */
  function Credit(s: Engine, from: NodeId): Engine
    requires from in s.lastAe
  {
    var matched := s.lastAe[from].0 + s.lastAe[from].1;
    s.(inflight := s.inflight - {from},
       matchIndex := s.matchIndex[from := Max(MatchOf(s, from), matched)],
       nextIndex := s.nextIndex[from := matched + 1])
  }

  function HandleSuccess(s: Engine, from: NodeId): Outcome
    requires from in s.lastAe
  {
    var r1 := MaybeCommit(Credit(s, from));
    if NextOf(r1.engine, from) <= |r1.engine.log| then
      var r2 := SendAppendEntriesTo(r1.engine, from);
      Outcome(r2.engine, r1.actions + r2.actions)
    else r1
  }

  /** A rejection moves the next index back by one, never to or below what is known to match. */
  function HandleReject(s: Engine, from: NodeId): Outcome
    requires from in s.lastAe
  {
    var s1 := s.(inflight := s.inflight - {from});
    var next := NextOf(s, from);
    if next != s.lastAe[from].0 + 1 then Outcome(s1, [])
    else
      SendAppendEntriesTo(s1.(nextIndex := s1.nextIndex[from := Max(Max(next - 1, MatchOf(s, from) + 1), 1)]), from)
  }

  function HandleAppendEntriesResp(s: Engine, from: NodeId, term: Term, success: bool): Outcome {
    if term > s.Term() then Outcome(BecomeFollower(s, term, None), [BecameFollower(term, None)])
    else if s.role != Leader || term != s.Term() || from !in s.lastAe then Outcome(s, [])
    else if success then HandleSuccess(s, from)
    else HandleReject(s, from)
  }

  // ---------------------------------------------------------------- dispatch

  function HandleRpc(s: Engine, from: NodeId, msg: Message, now: Instant): Outcome {
    match msg
    case RequestVote(term, candidate, lastIndex, lastTerm) =>
      HandleRequestVote(s, from, term, candidate, lastIndex, lastTerm, now)
    case RequestVoteResp(term, granted) => HandleRequestVoteResp(s, from, term, granted, now)
    case AppendEntries(term, leader, prevIndex, prevTerm, entries, commit) =>
      HandleAppendEntries(s, from, term, leader, prevIndex, prevTerm, entries, commit, now)
    case AppendEntriesResp(term, success, _) => HandleAppendEntriesResp(s, from, term, success)
    case InstallSnapshot(_) => Outcome(s, [])
    case InstallSnapshotResp(_) => Outcome(s, [])
  }

  function HandleRpcFailure(s: Engine, to: NodeId, kind: RpcKind): Engine {
    if kind == AppendRpc then s.(inflight := s.inflight - {to}) else s
  }
}
