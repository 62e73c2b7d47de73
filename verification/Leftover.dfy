/** Why safety needs leaderships to begin without leftovers: a run of three nodes in which an append left over from
    an earlier leadership lets a peer be credited with an entry it never received. Two nodes then apply different
    commands at the same index. */
module Leftover {
  import opened Types
  import opened LogSpec
  import opened EngineSpec
  import opened NodeSpec
  import opened Cluster
  import opened Reachability
  import opened Safety
  import opened Guarantees
  import M = Membership

  function ConfigOf(n: NodeId): Config {
    Config(n, [0, 1, 2], 10, 0, 3, 20)
  }

  function Trio(): M.Membership {
    M.Membership([0, 1, 2])
  }

  const Y: LogEntry := LogEntry(1, 3, [1])
  const Z: LogEntry := LogEntry(2, 3, [2])
  const W: LogEntry := LogEntry(2, 4, [3])

  function Idle(n: NodeId, hard: HardState, log: Log, leader: Option<NodeId>, deadline: Instant): Engine {
    Engine(ConfigOf(n), Trio(), hard, log, Follower, leader, {}, deadline, 3, map[], map[], map[], {}, 0, 0)
  }

  function Running(n: NodeId, term: Term, log: Log, deadline: Instant): Engine {
    Idle(n, HardState(term, Some(n)), log, None, deadline).(role := Candidate, votes := {n})
  }

  function Leading(n: NodeId, term: Term, log: Log, now: Instant): Engine {
    BecomeLeader(Running(n, term, log, 0), now)
  }

  function Ask(n: NodeId, term: Term, log: Log): Message {
    RequestVote(term, n, |log|, LastTerm(log))
  }

  function Asking(n: NodeId, to: NodeId, term: Term, log: Log): Pending {
    Pending(to, VoteRpc, Ask(n, term, log))
  }

  const Beat: Message := AppendEntries(1, 0, 0, 0, [], 0)
  const SendY: Message := AppendEntries(3, 0, 0, 0, [Y], 0)
  const SendYZ: Message := AppendEntries(3, 0, 0, 0, [Y, Z], 0)
  const SendW: Message := AppendEntries(4, 1, 1, 3, [W], 0)

  // ---------------------------------------------------------------- the voters

  lemma NewAppends(ids: seq<NodeId>, v: NodeId)
    requires v !in ids
    ensures M.New(ids + [v]) == M.Membership(M.New(ids).order + [v])
  {
    assert (ids + [v])[..|ids|] == ids;
  }

  lemma TrioIsMembership()
    ensures M.New([0, 1, 2]) == Trio()
  {
    NewAppends([], 0);
    NewAppends([0], 1);
    NewAppends([0, 1], 2);
    assert [] + [0] == [0] && [0] + [1] == [0, 1] && [0, 1] + [2] == [0, 1, 2];
  }

  lemma TrioOthers()
    ensures Trio().OtherVoters(0) == [1, 2] && Trio().OtherVoters(1) == [0, 2] && Trio().OtherVoters(2) == [0, 1]
  {
    assert [0, 1, 2][1..] == [1, 2] && [1, 2][1..] == [2];
  }

  /** A leader of two entries, whose last append to `p` covered both. */
  predicate AboutToCommit(s: Engine, p: NodeId, other: NodeId) {
    && s.role == Leader && s.members == Trio() && (s.Others() == [p, other] || s.Others() == [other, p])
    && |s.log| == 2 && s.log[1].term == s.Term() && s.commitIndex == 0 && s.lastApplied == 0
    && p in s.lastAe && s.lastAe[p].0 + s.lastAe[p].1 == 2 && p in s.matchIndex && s.matchIndex[p] == 0
  }

  function Committing(s: Engine, p: NodeId): Engine {
    s.(inflight := s.inflight - {p}, matchIndex := s.matchIndex[p := 2], nextIndex := s.nextIndex[p := 3],
       commitIndex := 2, lastApplied := 2)
  }

  // ---------------------------------------------------------------- node 0

  function A0(): Node { Node(Idle(0, HardState(0, None), [], None, 10), {}, map[], 1) }
  function A1(): Node { Node(Running(0, 1, [], 20), {1}, map[1 := Asking(0, 1, 1, [])], 2) }
  function A2(): Node { Node(Leading(0, 1, [], 11), {1}, map[], 2) }
  /** A heartbeat is on its way to node 1; it will never be answered. */
  function A3(): Node {
    Node(A2().engine.(heartbeatDeadline := 17, lastAe := A2().engine.lastAe[1 := (0, 0)][2 := (0, 0)], inflight := {1}),
         {1}, map[2 := Pending(1, AppendRpc, Beat)], 3)
  }
  function A4(): Node { A3().(engine := Idle(0, HardState(2, Some(1)), [], None, 32).(heartbeatDeadline := 17)) }
  function A5(): Node {
    Node(Running(0, 3, [], 42).(heartbeatDeadline := 17), {1}, A3().pending[3 := Asking(0, 1, 3, [])], 4)
  }
  /** Leader again, with the old heartbeat still pending. */
  function A6(): Node { Node(Leading(0, 3, [], 34), {1}, A3().pending, 4) }
  function A7(): Node {
    Node(A6().engine.(log := [Y], lastAe := A6().engine.lastAe[1 := (0, 1)][2 := (0, 1)], inflight := {1}),
         {1}, A6().pending[4 := Pending(1, AppendRpc, SendY)], 5)
  }
  /** The heartbeat timed out, which clears the mark of the append that is really in flight. */
  function A8(): Node { Node(A7().engine.(inflight := {}), {1}, map[4 := Pending(1, AppendRpc, SendY)], 5) }
  function A9(): Node {
    Node(A8().engine.(log := [Y, Z], lastAe := A8().engine.lastAe[1 := (0, 2)][2 := (0, 2)], inflight := {1}),
         {1}, A8().pending[5 := Pending(1, AppendRpc, SendYZ)], 6)
  }
  /** The answer to the first append is taken for the second: node 1 is credited with two entries. */
  function A10(): Node { Node(Committing(A9().engine, 1), {1}, map[5 := Pending(1, AppendRpc, SendYZ)], 6) }

  function A11(): Node {
    var s := Idle(0, HardState(4, None), [Y, W], Some(1), 58);
    A10().(engine := s.(heartbeatDeadline := 37, commitIndex := 2, lastApplied := 2))
  }

  // ---------------------------------------------------------------- node 1

  function B0(): Node { Node(Idle(1, HardState(0, None), [], None, 10), {}, map[], 1) }
  function B1(): Node { Node(Idle(1, HardState(1, Some(0)), [], None, 21), {}, map[], 1) }
  function B2(): Node { Node(Running(1, 2, [], 31), {0}, map[1 := Asking(1, 0, 2, [])], 2) }
  function B3(): Node { B2().(engine := Idle(1, HardState(3, Some(0)), [], None, 43)) }
  function B4(): Node { B2().(engine := Idle(1, HardState(3, Some(0)), [Y], Some(0), 45)) }
  function B5(): Node {
    Node(Running(1, 4, [Y], 55), {0, 2}, B2().pending[2 := Asking(1, 0, 4, [Y])][3 := Asking(1, 2, 4, [Y])], 4)
  }
  function B6(): Node {
    Node(Leading(1, 4, [Y], 47), {0, 2}, B2().pending[2 := Asking(1, 0, 4, [Y])], 4)
  }
  function B7(): Node {
    Node(B6().engine.(log := [Y, W], lastAe := B6().engine.lastAe[0 := (1, 1)][2 := (1, 1)], inflight := {0, 2}),
         {0, 2},
         B6().pending[4 := Pending(0, AppendRpc, SendW)][5 := Pending(2, AppendRpc, SendW)], 6)
  }
  function B8(): Node {
    Node(Committing(B7().engine, 0), {0, 2}, B6().pending[5 := Pending(2, AppendRpc, SendW)], 6)
  }

  // ---------------------------------------------------------------- node 2

  function D0(): Node { Node(Idle(2, HardState(0, None), [], None, 10), {}, map[], 1) }
  function D1(): Node { Node(Idle(2, HardState(4, Some(1)), [], None, 56), {}, map[], 1) }

  // ---------------------------------------------------------------- sending to both peers

  lemma SendRequests(n: Node, p: NodeId, q: NodeId, msg: Message)
    requires p in n.connected && msg.RequestVote?
    ensures SendToAll(n, [p, q], msg) ==
            if q in n.connected then
              Effect(n.(pending := n.pending[n.nextCorrelation := Pending(p, VoteRpc, msg)]
                                            [n.nextCorrelation + 1 := Pending(q, VoteRpc, msg)],
                        nextCorrelation := n.nextCorrelation + 2),
                     [SendRequest(p, n.nextCorrelation, msg), SendRequest(q, n.nextCorrelation + 1, msg)])
            else SendRpc(n, p, msg)
  {
    var n1 := SendRpc(n, p, msg).node;
    assert [p, q][1..] == [q] && [q][1..] == [];
    assert SendToAll(n1, [q], msg) == SendRpc(n1, q, msg);
  }

  lemma QueueAppends(s: Engine, p: NodeId, q: NodeId, mp: Message, mq: Message)
    requires s.Others() == [p, q] && p != q && s.inflight == {}
    requires BuildAppendEntries(s, p) == Some(mp) && BuildAppendEntries(s, q) == Some(mq)
    ensures Replicate(s) ==
            Outcome(s.(lastAe := s.lastAe[p := (mp.prevLogIndex, |mp.entries|)]
                                         [q := (mq.prevLogIndex, |mq.entries|)],
                       inflight := {p, q}),
                    [Send(p, mp), Send(q, mq)])
  {
    hide BuildAppendEntries;
    assert [p, q][1..] == [q] && [q][1..] == [];
    var r := SendAppendEntriesTo(s, p);
    assert BuildAppendEntries(r.engine, q) == BuildAppendEntries(s, q) by { SameBuild(s, r.engine, q); }
    assert ReplicateTo(r.engine, [q]) == SendAppendEntriesTo(r.engine, q);
  }

  lemma SendAppends(n: Node, p: NodeId, q: NodeId, mp: Message, mq: Message)
    requires p in n.connected && mp.AppendEntries? && mq.AppendEntries? && p != q
    ensures var n1 := n.(pending := n.pending[n.nextCorrelation := Pending(p, AppendRpc, mp)],
                         nextCorrelation := n.nextCorrelation + 1);
            var first := SendRequest(p, n.nextCorrelation, mp);
            Execute(n, [Send(p, mp), Send(q, mq)], None) ==
            if q in n.connected then
              Effect(n1.(pending := n1.pending[n1.nextCorrelation := Pending(q, AppendRpc, mq)],
                         nextCorrelation := n1.nextCorrelation + 1),
                     [first, SendRequest(q, n1.nextCorrelation, mq)])
            else Effect(n1.(engine := n.engine.(inflight := n.engine.inflight - {q})), [first])
  {
    assert [Send(p, mp), Send(q, mq)][1..] == [Send(q, mq)] && [Send(q, mq)][1..] == [];
    var n1 := SendRpc(n, p, mp).node;
    assert Execute(n1, [Send(q, mq)], None) == SendRpc(n1, q, mq);
  }

  // ---------------------------------------------------------------- winning, proposing, committing

  lemma Single(n: Node, a: Action, inbound: Option<NodeId>)
    ensures Execute(n, [a], inbound) == ExecuteOne(n, a, inbound)
  {
    hide ExecuteOne;
    assert [a][1..] == [];
  }

  lemma Pair(n: Node, a: Action, b: Action, inbound: Option<NodeId>)
    requires !a.Send? && !a.Broadcast?
    ensures var r := ExecuteOne(n, a, inbound); var rest := ExecuteOne(n, b, inbound);
            Execute(n, [a, b], inbound) == Effect(rest.node, r.outputs + rest.outputs)
  {
    assert [a, b][1..] == [b];
    Single(n, b, inbound);
  }

  /** A reply whose handling leads to a single report. */
  lemma Answered(n: Node, id: nat, msg: Message, now: Instant, s: Engine, a: Action)
    requires id in n.pending && HandleRpc(n.engine, n.pending[id].to, msg, now) == Outcome(s, [a])
    ensures OnResponse(n, id, msg, now) == ExecuteOne(n.(engine := s, pending := n.pending - {id}), a, None)
  {
    hide HandleRpc, ExecuteOne, Execute;
    Single(n.(engine := s, pending := n.pending - {id}), a, None);
  }

  /** The second of three votes decides. */
  lemma Wins(n: Node, id: nat, self: NodeId, term: Term, log: Log, deadline: Instant, beat: Instant, now: Instant)
    requires n.engine == Running(self, term, log, deadline).(heartbeatDeadline := beat)
    requires id in n.pending && n.pending[id].to != self
    ensures OnResponse(n, id, RequestVoteResp(term, true), now) ==
            Effect(n.(engine := Leading(self, term, log, now), pending := n.pending - {id}),
                   [RoleChanged(Leader, term, Some(self))])
  {
    WinsEngine(n.engine, n.pending[id].to, self, term, log, deadline, beat, now);
    hide HandleRpc, OnResponse;
    Answered(n, id, RequestVoteResp(term, true), now, Leading(self, term, log, now), BecameLeader(term));
  }

  lemma WinsEngine(s: Engine, from: NodeId, self: NodeId, term: Term, log: Log, deadline: Instant, beat: Instant,
                   now: Instant)
    requires s == Running(self, term, log, deadline).(heartbeatDeadline := beat) && from != self
    ensures HandleRpc(s, from, RequestVoteResp(term, true), now) ==
              Outcome(Leading(self, term, log, now), [BecameLeader(term)])
  {
    var s1 := s.(votes := {self} + {from});
    assert |s1.votes| == 2;
    assert BecomeLeader(s1, now) == Leading(self, term, log, now);
    hide BecomeLeader, Leading;
  }

  lemma LeaderBooksOf(n: NodeId, term: Term, log: Log, now: Instant, p: NodeId)
    requires p in {0, 1, 2} && p != n
    ensures var s := Leading(n, term, log, now);
            && p in s.nextIndex && s.nextIndex[p] == |log| + 1 && p in s.matchIndex && s.matchIndex[p] == 0
            && s.config == ConfigOf(n) && s.members == Trio() && s.hard == HardState(term, Some(n)) && s.log == log
            && s.role == Leader
            && s.lastAe == map[] && s.inflight == {} && s.commitIndex == 0 && s.lastApplied == 0
            && s.electionDeadline == now + 10 && s.heartbeatDeadline == now + 3
  {
    VotersOf(p);
    WinnerBooks(Running(n, term, log, 0), now, p);
    hide M.Membership.Voters;
  }

  /** What a winner sends once its log is `grown`. */
  lemma LeadingBuilds(n: NodeId, term: Term, log: Log, now: Instant, grown: Log, p: NodeId, msg: Message)
    requires p in {0, 1, 2} && p != n && |log| <= |grown|
    requires msg == AppendEntries(term, n, |log|, TermAt(grown, |log|), grown[|log|..], 0)
    ensures BuildAppendEntries(Leading(n, term, log, now).(log := grown), p) == Some(msg)
  {
    LeaderBooksOf(n, term, log, now, p);
    hide Leading, TermAt;
  }

  lemma VotersOf(p: NodeId)
    requires p in {0, 1, 2}
    ensures p in Trio().Voters()
  {
  }

  lemma WinnerBooks(s: Engine, now: Instant, p: NodeId)
    requires p in s.members.Voters() && p != s.Id()
    ensures var s' := BecomeLeader(s, now);
            p in s'.nextIndex && s'.nextIndex[p] == |s.log| + 1 && p in s'.matchIndex && s'.matchIndex[p] == 0
  {
    hide M.Membership.Voters;
  }

  lemma Campaigns(n: Node, now: Instant, s: Engine, msg: Message, p: NodeId, q: NodeId)
    requires n.engine.role != Leader && now >= n.engine.electionDeadline && s.Others() == [p, q]
    requires StartElection(n.engine, now) == Outcome(s, [BecameCandidate(s.Term()), Broadcast(msg)])
    ensures var r := SendToAll(n.(engine := s), [p, q], msg);
            NodeSpec.Tick(n, now) == Effect(r.node, [RoleChanged(Candidate, s.Term(), None)] + r.outputs)
  {
    hide StartElection, SendToAll, Execute;
    Pair(n.(engine := s), BecameCandidate(s.Term()), Broadcast(msg), None);
  }

  lemma Stands(n: NodeId, s: Engine, now: Instant, p: NodeId, q: NodeId)
    requires s.config == ConfigOf(n) && s.members == Trio() && s.commitIndex == 0 && s.lastApplied == 0
    requires s.nextIndex == map[] && s.matchIndex == map[] && s.lastAe == map[] && s.inflight == {}
    requires n in {0, 1} && p == 1 - n && q == 2
    ensures var s' := Running(n, s.Term() + 1, s.log, now + 10).(heartbeatDeadline := s.heartbeatDeadline);
            && s'.Others() == [p, q]
            && StartElection(s, now) ==
              Outcome(s', [BecameCandidate(s.Term() + 1), Broadcast(Ask(n, s.Term() + 1, s.log))])
  {
    TrioOthers();
    hide M.Membership.OtherVoters, M.Membership.Voters, LastTerm;
  }

  lemma Beats(n: Node, now: Instant, p: NodeId, q: NodeId, msg: Message)
    requires n.engine.role == Leader && now >= n.engine.heartbeatDeadline && n.engine.Others() == [p, q] && p != q
    requires msg.AppendEntries?
    requires n.engine.inflight == {} && BuildAppendEntries(n.engine, p) == Some(msg)
    requires BuildAppendEntries(n.engine, q) == Some(msg)
    requires p in n.connected && q !in n.connected
    ensures var s := n.engine; var book := (msg.prevLogIndex, |msg.entries|);
            NodeSpec.Tick(n, now) ==
            Effect(Node(s.(lastAe := s.lastAe[p := book][q := book], inflight := {p},
                           heartbeatDeadline := now + s.config.heartbeatInterval),
                        n.connected, n.pending[n.nextCorrelation := Pending(p, AppendRpc, msg)], n.nextCorrelation + 1),
                   [SendRequest(p, n.nextCorrelation, msg)])
  {
    QueueAppends(n.engine, p, q, msg, msg);
    hide Replicate, BuildAppendEntries, Execute;
    var n1 := n.(engine := EngineSpec.Tick(n.engine, now).engine);
    assert NodeSpec.Tick(n, now) == Execute(n1, [Send(p, msg), Send(q, msg)], None);
    SendAppends(n1, p, q, msg, msg);
    assert {p, q} - {q} == {p};
  }

  /** A proposal goes out to both peers; to the one that is not connected it fails at once. */
  lemma Proposes(n: Node, log: Log, data: Command, p: NodeId, q: NodeId, msg: Message)
    requires n.engine.role == Leader && log == n.engine.log + [LogEntry(|n.engine.log| + 1, n.engine.Term(), data)]
    requires p in n.connected && p != q && msg.AppendEntries?
    requires var s := n.engine.(log := log);
             s.Others() == [p, q] && s.inflight == {} && BuildAppendEntries(s, p) == Some(msg)
             && BuildAppendEntries(s, q) == Some(msg)
    ensures var s := n.engine; var book := (msg.prevLogIndex, |msg.entries|);
            var sent := n.pending[n.nextCorrelation := Pending(p, AppendRpc, msg)];
            var first := SendRequest(p, n.nextCorrelation, msg);
            NodeSpec.Propose(n, data) ==
            if q in n.connected then
              Effect(Node(s.(log := log, lastAe := s.lastAe[p := book][q := book], inflight := {p, q}), n.connected,
                          sent[n.nextCorrelation + 1 := Pending(q, AppendRpc, msg)], n.nextCorrelation + 2),
                     [first, SendRequest(q, n.nextCorrelation + 1, msg)])
            else
              Effect(Node(s.(log := log, lastAe := s.lastAe[p := book][q := book], inflight := {p}), n.connected, sent,
                          n.nextCorrelation + 1),
                     [first])
  {
    var s := n.engine.(log := log);
    QueueAppends(s, p, q, msg, msg);
    hide Replicate, BuildAppendEntries, Execute;
    var n1 := n.(engine := Replicate(s).engine);
    assert NodeSpec.Propose(n, data) == Execute(n1, [Send(p, msg), Send(q, msg)], None);
    SendAppends(n1, p, q, msg, msg);
    assert {p, q} - {q} == {p};
  }

  lemma LastCoversBoth(n: NodeId, term: Term, log: Log, now: Instant, s: Engine, p: NodeId, other: NodeId)
    requires n in {0, 1} && p == 1 - n && other == 2 && |s.log| == 2 && s.log[1].term == term
    requires s == Leading(n, term, log, now).(log := s.log, lastAe := s.lastAe, inflight := s.inflight)
    requires p in s.lastAe && s.lastAe[p].0 + s.lastAe[p].1 == 2
    ensures AboutToCommit(s, p, other)
  {
    assert Trio().OtherVoters(n) == [p, other] by { TrioOthers(); }
    LeaderBooksOf(n, term, log, now, p);
    hide Leading, M.Membership.OtherVoters, M.Membership.Voters, ConfigOf;
    assert s.Id() == n by { IdOf(n); }
  }

  lemma IdOf(n: NodeId)
    ensures ConfigOf(n).nodeId == n
  {
  }

  /** Both entries are committed and applied, and nothing more is sent. */
  lemma Commits(s: Engine, p: NodeId, other: NodeId, matched: Index, now: Instant)
    requires AboutToCommit(s, p, other)
    ensures HandleRpc(s, p, AppendEntriesResp(s.Term(), true, matched), now) ==
              Outcome(Committing(s, p), [Apply(s.log)])
  {
    var s1 := Credit(s, p);
    Majority(s1, p, other);
    hide Committable;
    assert CommitTarget(s1, 2) == 2;
    hide CommitTarget;
    assert s1.log[0..2] == s1.log;
    assert MaybeCommit(s1) == Outcome(Committing(s, p), [Apply(s1.log)]);
    hide MaybeCommit;
  }

  lemma Majority(s: Engine, p: NodeId, other: NodeId)
    requires s.members == Trio() && (s.Others() == [p, other] || s.Others() == [other, p]) && |s.log| == 2
    requires s.log[1].term == s.Term()
    requires p in s.matchIndex && s.matchIndex[p] == 2
    ensures Committable(s, 2)
  {
    SomeoneCounts(s.Others(), Holders(s, 2), p);
  }

  lemma {:induction false} SomeoneCounts(ids: seq<NodeId>, marked: set<NodeId>, p: NodeId)
    requires p in ids && p in marked
    ensures M.Count(ids, marked) >= 1
  {
    if ids[0] != p {
      SomeoneCounts(ids[1..], marked, p);
    }
  }

  // ---------------------------------------------------------------- what node 0 does

  lemma A1Campaigns()
    ensures NodeSpec.Tick(OnConnect(A0(), 1), 10) ==
            Effect(A1(), [RoleChanged(Candidate, 1, None), SendRequest(1, 1, Ask(0, 1, []))])
  {
    var n := OnConnect(A0(), 1);
    Stands(0, n.engine, 10, 1, 2);
    var s := Running(0, 1, [], 20);
    hide StartElection, SendToAll, NodeSpec.Tick, M.Membership.OtherVoters;
    Campaigns(n, 10, s, Ask(0, 1, []), 1, 2);
    SendRequests(n.(engine := s), 1, 2, Ask(0, 1, []));
  }

  lemma A2Wins()
    ensures OnResponse(A1(), 1, RequestVoteResp(1, true), 11) == Effect(A2(), [RoleChanged(Leader, 1, Some(0))])
  {
    Wins(A1(), 1, 0, 1, [], 20, 3, 11);
  }

  lemma A3Builds()
    ensures var s := A2().engine;
            && s.Others() == [1, 2] && s.inflight == {} && s.role == Leader && s.heartbeatDeadline == 14
            && s.config == ConfigOf(0)
            && BuildAppendEntries(s, 1) == Some(Beat) && BuildAppendEntries(s, 2) == Some(Beat)
  {
    TrioOthers();
    LeaderBooksOf(0, 1, [], 11, 1);
    LeadingBuilds(0, 1, [], 11, [], 1, Beat);
    LeadingBuilds(0, 1, [], 11, [], 2, Beat);
    hide Leading, BuildAppendEntries, M.Membership.OtherVoters, M.Membership.Voters;
    assert A2().engine.(log := []) == A2().engine;
  }

  lemma A3Beats()
    ensures NodeSpec.Tick(A2(), 14) == Effect(A3(), [SendRequest(1, 2, Beat)])
  {
    A3Builds();
    hide NodeSpec.Tick, BuildAppendEntries, Leading, M.Membership.OtherVoters;
    Beats(A2(), 14, 1, 2, Beat);
  }

  lemma A4StepsDown()
    ensures OnRequest(A3(), 1, Ask(1, 2, []), 22) ==
            Effect(A4(), [RoleChanged(Follower, 2, None), SendResponse(1, RequestVoteResp(2, true))])
  {
  }

  lemma A5Campaigns()
    ensures NodeSpec.Tick(A4(), 32) == Effect(A5(), [RoleChanged(Candidate, 3, None), SendRequest(1, 3, Ask(0, 3, []))])
  {
    var n := A4();
    Stands(0, n.engine, 32, 1, 2);
    var s := Running(0, 3, [], 42).(heartbeatDeadline := 17);
    hide StartElection, SendToAll, NodeSpec.Tick, M.Membership.OtherVoters;
    Campaigns(n, 32, s, Ask(0, 3, []), 1, 2);
    SendRequests(n.(engine := s), 1, 2, Ask(0, 3, []));
  }

  lemma A6WinsAgain()
    ensures OnResponse(A5(), 3, RequestVoteResp(3, true), 34) == Effect(A6(), [RoleChanged(Leader, 3, Some(0))])
  {
    Wins(A5(), 3, 0, 3, [], 42, 17, 34);
  }

  lemma A7Builds()
    ensures var s := A6().engine.(log := [Y]);
            s.Others() == [1, 2] && s.inflight == {} && BuildAppendEntries(s, 1) == Some(SendY)
            && BuildAppendEntries(s, 2) == Some(SendY)
    ensures A6().engine.role == Leader && A6().engine.log == [] && A6().engine.Term() == 3
  {
    TrioOthers();
    LeaderBooksOf(0, 3, [], 34, 1);
    LeadingBuilds(0, 3, [], 34, [Y], 1, SendY);
    LeadingBuilds(0, 3, [], 34, [Y], 2, SendY);
    hide Leading, BuildAppendEntries, M.Membership.OtherVoters, M.Membership.Voters;
  }

  lemma A7Proposes()
    ensures NodeSpec.Propose(A6(), [1]) == Effect(A7(), [SendRequest(1, 4, SendY)])
  {
    A7Builds();
    hide NodeSpec.Propose, BuildAppendEntries, Leading;
    Proposes(A6(), [Y], [1], 1, 2, SendY);
  }

  lemma A8LosesMark()
    ensures FailPending(A7(), 2, false) == Effect(A8(), [])
  {
  }

  lemma A9Proposes()
    ensures NodeSpec.Propose(A8(), [2]) == Effect(A9(), [SendRequest(1, 5, SendYZ)])
  {
    A9Builds();
    hide NodeSpec.Propose, BuildAppendEntries, Leading;
    Proposes(A8(), [Y, Z], [2], 1, 2, SendYZ);
  }

  lemma A9Builds()
    ensures var s := A8().engine.(log := [Y, Z]);
            s.Others() == [1, 2] && s.inflight == {} && BuildAppendEntries(s, 1) == Some(SendYZ)
            && BuildAppendEntries(s, 2) == Some(SendYZ)
    ensures A8().engine.role == Leader && A8().engine.log == [Y] && A8().engine.Term() == 3
  {
    TrioOthers();
    LeaderBooksOf(0, 3, [], 34, 1);
    LeadingBuilds(0, 3, [], 34, [Y, Z], 1, SendYZ);
    LeadingBuilds(0, 3, [], 34, [Y, Z], 2, SendYZ);
    var s := Leading(0, 3, [], 34).(log := [Y, Z]);
    SameBuild(s, A8().engine.(log := [Y, Z]), 1);
    SameBuild(s, A8().engine.(log := [Y, Z]), 2);
    hide Leading, BuildAppendEntries, M.Membership.OtherVoters, M.Membership.Voters;
  }

  lemma A9IsAboutToCommit()
    ensures AboutToCommit(A9().engine, 1, 2) && A9().engine.Term() == 3 && A9().engine.log == [Y, Z]
    ensures 4 in A9().pending && A9().pending[4].to == 1
  {
    LeaderBooksOf(0, 3, [], 34, 1);
    LastCoversBoth(0, 3, [], 34, A9().engine, 1, 2);
    hide Leading, AboutToCommit;
  }

  lemma A10FromA9()
    ensures A10() == A9().(engine := Committing(A9().engine, 1), pending := A9().pending - {4})
  {
    hide Leading, Committing, Ask;
    assert A9().pending - {4} == A10().pending;
  }

  lemma A10Commits()
    ensures OnResponse(A9(), 4, AppendEntriesResp(3, true, 1), 36) == Effect(A10(), [Committed([Y, Z])])
  {
    A9IsAboutToCommit();
    A10FromA9();
    hide HandleRpc, OnResponse, A9, A10, AboutToCommit, Committing;
    Commits(A9().engine, 1, 2, 1, 36);
    Answered(A9(), 4, AppendEntriesResp(3, true, 1), 36, A10().engine, Apply([Y, Z]));
  }

  lemma A11Overwrites()
    ensures OnRequest(A10(), 1, SendW, 48) ==
            Effect(A11(), [RoleChanged(Follower, 4, Some(1)), SendResponse(1, AppendEntriesResp(4, true, 2))])
  {
    assert Agreeing([Y, Z], 1, [W]) == 0;
    assert [Y, Z][..1] == [Y] && [W][0..] == [W] && [W][1..] == [];
    assert Persist([Y], [W]).log == [Y, W];
    assert Merge([Y, Z], 1, [W]) == [Y, W];
    hide Merge;
    var answer := Send(1, AppendEntriesResp(4, true, 2));
    assert HandleRpc(A10().engine, 1, SendW, 48) == Outcome(A11().engine, [BecameFollower(4, Some(1)), answer]);
    hide HandleRpc, Execute;
    Pair(A11(), BecameFollower(4, Some(1)), answer, Some(1));
  }

  // ---------------------------------------------------------------- what nodes 1 and 2 do

  lemma B1Votes()
    ensures OnRequest(B0(), 0, Ask(0, 1, []), 11) ==
            Effect(B1(), [RoleChanged(Follower, 1, None), SendResponse(0, RequestVoteResp(1, true))])
  {
  }

  lemma B2Campaigns()
    ensures NodeSpec.Tick(OnConnect(B1(), 0), 21) ==
            Effect(B2(), [RoleChanged(Candidate, 2, None), SendRequest(0, 1, Ask(1, 2, []))])
  {
    var n := OnConnect(B1(), 0);
    Stands(1, n.engine, 21, 0, 2);
    var s := Running(1, 2, [], 31);
    hide StartElection, SendToAll, NodeSpec.Tick, M.Membership.OtherVoters;
    Campaigns(n, 21, s, Ask(1, 2, []), 0, 2);
    SendRequests(n.(engine := s), 0, 2, Ask(1, 2, []));
  }

  lemma B3Votes()
    ensures OnRequest(B2(), 0, Ask(0, 3, []), 33) ==
            Effect(B3(), [RoleChanged(Follower, 3, None), SendResponse(0, RequestVoteResp(3, true))])
  {
  }

  lemma B4Accepts()
    ensures OnRequest(B3(), 0, SendY, 35) == Effect(B4(), [SendResponse(0, AppendEntriesResp(3, true, 1))])
  {
    assert Merge([], 0, [Y]) == [Y] by {
      assert [Y][0..] == [Y] && [Y][1..] == [];
      assert Agreeing([], 0, [Y]) == 0;
      assert Persist([], [Y]).log == [Y];
    }
    hide Merge;
    var answer := Send(0, AppendEntriesResp(3, true, 1));
    assert HandleRpc(B3().engine, 0, SendY, 35) == Outcome(B4().engine, [answer]);
    hide HandleRpc, Execute;
    Single(B4(), answer, Some(0));
  }

  lemma B5Campaigns()
    ensures NodeSpec.Tick(OnConnect(B4(), 2), 45) ==
            Effect(B5(),
                   [RoleChanged(Candidate, 4, None), SendRequest(0, 2, Ask(1, 4, [Y])),
                    SendRequest(2, 3, Ask(1, 4, [Y]))])
  {
    var n := OnConnect(B4(), 2);
    Stands(1, n.engine, 45, 0, 2);
    var s := Running(1, 4, [Y], 55);
    hide StartElection, SendToAll, NodeSpec.Tick, M.Membership.OtherVoters;
    Campaigns(n, 45, s, Ask(1, 4, [Y]), 0, 2);
    SendRequests(n.(engine := s), 0, 2, Ask(1, 4, [Y]));
  }

  lemma B6Wins()
    ensures OnResponse(B5(), 3, RequestVoteResp(4, true), 47) == Effect(B6(), [RoleChanged(Leader, 4, Some(1))])
  {
    Wins(B5(), 3, 1, 4, [Y], 55, 3, 47);
  }

  lemma B7Builds()
    ensures var s := B6().engine.(log := [Y, W]);
            s.Others() == [0, 2] && s.inflight == {} && BuildAppendEntries(s, 0) == Some(SendW)
            && BuildAppendEntries(s, 2) == Some(SendW)
    ensures B6().engine.role == Leader && B6().engine.log == [Y] && B6().engine.Term() == 4
  {
    TrioOthers();
    LeaderBooksOf(1, 4, [Y], 47, 0);
    LeadingBuilds(1, 4, [Y], 47, [Y, W], 0, SendW);
    LeadingBuilds(1, 4, [Y], 47, [Y, W], 2, SendW);
    hide Leading, BuildAppendEntries, M.Membership.OtherVoters, M.Membership.Voters;
  }

  lemma B7Proposes()
    ensures NodeSpec.Propose(B6(), [3]) == Effect(B7(), [SendRequest(0, 4, SendW), SendRequest(2, 5, SendW)])
  {
    B7Builds();
    hide NodeSpec.Propose, BuildAppendEntries, Leading;
    Proposes(B6(), [Y, W], [3], 0, 2, SendW);
  }

  lemma B7IsAboutToCommit()
    ensures AboutToCommit(B7().engine, 0, 2) && B7().engine.Term() == 4 && B7().engine.log == [Y, W]
    ensures 4 in B7().pending && B7().pending[4].to == 0
  {
    LeaderBooksOf(1, 4, [Y], 47, 0);
    LastCoversBoth(1, 4, [Y], 47, B7().engine, 0, 2);
    hide Leading, AboutToCommit;
  }

  lemma B8FromB7()
    ensures B8() == B7().(engine := Committing(B7().engine, 0), pending := B7().pending - {4})
  {
    hide Leading, Committing, Ask;
    assert B7().pending - {4} == B8().pending;
  }

  lemma B8Commits()
    ensures OnResponse(B7(), 4, AppendEntriesResp(4, true, 2), 49) == Effect(B8(), [Committed([Y, W])])
  {
    B7IsAboutToCommit();
    B8FromB7();
    hide HandleRpc, OnResponse, B7, B8, AboutToCommit, Committing;
    Commits(B7().engine, 0, 2, 2, 49);
    Answered(B7(), 4, AppendEntriesResp(4, true, 2), 49, B8().engine, Apply([Y, W]));
  }

  lemma D1Votes()
    ensures OnRequest(D0(), 1, Ask(1, 4, [Y]), 46) ==
            Effect(D1(), [RoleChanged(Follower, 4, None), SendResponse(1, RequestVoteResp(4, true))])
  {
  }

  // ---------------------------------------------------------------- the run

  /** A reached state of the three nodes, none of them restarted. */
  ghost predicate Stage(c: Cluster, a: Node, b: Node, d: Node) {
    && Reached(c, Anything) && c.nodes == map[0 := a, 1 := b, 2 := d]
    && c.incarnation == map[0 := 0, 1 := 0, 2 := 0] && c.applied.Keys == {0, 1, 2}
  }

  /** What has been sent and said so far stays. */
  ghost predicate Onwards(c: Cluster, c': Cluster) {
    c.requests <= c'.requests && c.replies <= c'.replies && c.emitted <= c'.emitted
  }

  /** What an event's outputs leave behind. */
  ghost predicate Heard(c: Cluster, n: NodeId, outputs: seq<Output>) {
    && (forall to, id, msg :: SendRequest(to, id, msg) in outputs ==> Envelope(n, to, 0, id, msg) in c.requests)
    && (forall o :: o in outputs ==> (n, o) in c.emitted)
  }

  function Choose(n: NodeId, a: Node, b: Node, d: Node): Node {
    if n == 0 then a else if n == 1 then b else d
  }

  /** The stage after node `n` has become `x`. */
  ghost predicate Next(c: Cluster, c': Cluster, n: NodeId, r: Effect, a: Node, b: Node, d: Node) {
    && Stage(c', if n == 0 then r.node else a, if n == 1 then r.node else b, if n == 2 then r.node else d)
    && Onwards(c, c') && Heard(c', n, r.outputs)
  }

  lemma Play(c: Cluster, e: Event, r: Effect, a: Node, b: Node, d: Node)
    requires Stage(c, a, b, d) && Enabled(c, e) && !e.Restart? && React(c, e) == r
    ensures Next(c, Step(c, e), Actor(e), r, a, b, d)
    ensures forall to, msg :: e.DeliverRequest? && SendResponse(to, msg) in r.outputs ==>
              Reply(e.request, msg) in Step(c, e).replies
  {
    hide Reached, React, Heard, AppliedBy, Onwards;
    StepIsReached(c, e, Anything);
    PlayHeard(c, e, r);
    PlayNodes(c, e, r, a, b, d);
    hide Step;
  }

  lemma PlayNodes(c: Cluster, e: Event, r: Effect, a: Node, b: Node, d: Node)
    requires Enabled(c, e) && !e.Restart? && React(c, e) == r && c.nodes == map[0 := a, 1 := b, 2 := d]
    ensures var m := Actor(e);
            Step(c, e).nodes == map[0 := if m == 0 then r.node else a,
                                    1 := if m == 1 then r.node else b,
                                    2 := if m == 2 then r.node else d]
    ensures Step(c, e).incarnation == c.incarnation && Step(c, e).applied.Keys == c.applied.Keys
  {
    hide React, AppliedBy;
  }

  lemma PlayHeard(c: Cluster, e: Event, r: Effect)
    requires Enabled(c, e) && c.incarnation[Actor(e)] == 0 && !e.Restart? && React(c, e) == r
    ensures Onwards(c, Step(c, e)) && Heard(Step(c, e), Actor(e), r.outputs)
    ensures forall to, msg :: e.DeliverRequest? && SendResponse(to, msg) in r.outputs ==>
              Reply(e.request, msg) in Step(c, e).replies
  {
    hide React, AppliedBy;
    var c' := Step(c, e);
    forall to, id, msg | SendRequest(to, id, msg) in r.outputs
      ensures Envelope(Actor(e), to, 0, id, msg) in c'.requests
    {
      assert SendRequest(to, id, msg).SendRequest?;
    }
  }

  const CONFIGS: map<NodeId, Config> := map[0 := ConfigOf(0), 1 := ConfigOf(1), 2 := ConfigOf(2)]

  lemma OpeningStage() returns (c: Cluster)
    ensures Stage(c, A0(), B0(), D0())
  {
    hide A0, B0, D0, ConfigsOk, Start, Reached;
    c := Start(CONFIGS, 0);
    ConfigsAgree();
    StartIsReached(CONFIGS, 0, Anything);
    OpeningNodes();
  }

  lemma ConfigsAgree()
    ensures ConfigsOk(CONFIGS)
  {
    assert CONFIGS.Keys == {0, 1, 2} == (set v | v in [0, 1, 2]);
  }

  lemma OpeningNodes()
    ensures Start(CONFIGS, 0).nodes == map[0 := A0(), 1 := B0(), 2 := D0()]
    ensures Start(CONFIGS, 0).incarnation == map[0 := 0, 1 := 0, 2 := 0] && Start(CONFIGS, 0).applied.Keys == {0, 1, 2}
  {
    assert CONFIGS.Keys == {0, 1, 2};
    StartOfThree(CONFIGS);
    NewNode(0);
    NewNode(1);
    NewNode(2);
    hide NodeSpec.New, Start, ConfigOf;
  }

  lemma StartOfThree(configs: map<NodeId, Config>)
    requires configs.Keys == {0, 1, 2}
    ensures Start(configs, 0).nodes == map[0 := NodeSpec.New(configs[0], HardState(0, None), [], 0),
                                           1 := NodeSpec.New(configs[1], HardState(0, None), [], 0),
                                           2 := NodeSpec.New(configs[2], HardState(0, None), [], 0)]
    ensures Start(configs, 0).incarnation == map[0 := 0, 1 := 0, 2 := 0] && Start(configs, 0).applied.Keys == {0, 1, 2}
  {
    hide NodeSpec.New;
  }

  lemma NewNode(n: NodeId)
    ensures NodeSpec.New(ConfigOf(n), HardState(0, None), [], 0) ==
              Node(Idle(n, HardState(0, None), [], None, 10), {}, map[], 1)
  {
    TrioIsMembership();
  }

  lemma PlayLocal(c: Cluster, e: Event, r: Effect, a: Node, b: Node, d: Node) returns (c': Cluster)
    requires Actor(e) in {0, 1, 2} && Stage(c, a, b, d)
    requires match e
             case Tick(n, now) => NodeSpec.Tick(Choose(n, a, b, d), now) == r
             case Propose(n, data) => NodeSpec.Propose(Choose(n, a, b, d), data) == r
             case Fail(n, id, emit) => FailPending(Choose(n, a, b, d), id, emit) == r
             case Connect(n, peer) => Effect(OnConnect(Choose(n, a, b, d), peer), []) == r
             case DeliverRequest(_, _) => false
             case DeliverReply(_, _) => false
             case Disconnect(_, _, _) => false
             case Restart(_, _) => false
    ensures Next(c, c', Actor(e), r, a, b, d)
  {
    hide Reached, NodeSpec.Tick, NodeSpec.Propose, FailPending, OnConnect, Step;
    assert Enabled(c, e);
    assert React(c, e) == r;
    Play(c, e, r, a, b, d);
    c' := Step(c, e);
  }

  lemma PlayRequest(c: Cluster, q: Envelope, now: Instant, r: Effect, answer: Message, a: Node, b: Node, d: Node)
    returns (c': Cluster)
    requires q.dst in {0, 1, 2} && Stage(c, a, b, d) && q in c.requests
    requires OnRequest(Choose(q.dst, a, b, d), q.src, q.msg, now) == r && SendResponse(q.src, answer) in r.outputs
    ensures Next(c, c', q.dst, r, a, b, d) && Reply(q, answer) in c'.replies
  {
    hide Reached, OnRequest, Step;
    var e := DeliverRequest(q, now);
    assert Enabled(c, e);
    assert React(c, e) == r;
    Play(c, e, r, a, b, d);
    c' := Step(c, e);
  }

  lemma PlayReply(c: Cluster, p: Reply, now: Instant, r: Effect, a: Node, b: Node, d: Node) returns (c': Cluster)
    requires p.request.src in {0, 1, 2} && Stage(c, a, b, d) && p in c.replies && p.request.incarnation == 0
    requires OnResponse(Choose(p.request.src, a, b, d), p.request.correlation, p.msg, now) == r
    ensures Next(c, c', p.request.src, r, a, b, d)
  {
    hide Reached, OnResponse, Step;
    var e := DeliverReply(p, now);
    assert Enabled(c, e);
    assert React(c, e) == r;
    Play(c, e, r, a, b, d);
    c' := Step(c, e);
  }

  /** Node 0 wins term 1 and sends a heartbeat. */
  lemma FirstAct() returns (c: Cluster)
    ensures Stage(c, A3(), B1(), D0())
  {
    hide Stage, NodeSpec.Tick, OnConnect, OnRequest, OnResponse, Ask, A0, A1, A2, A3, B0, B1, D0;
    c := OpeningStage();
    c := PlayLocal(c, Connect(0, 1), Effect(OnConnect(A0(), 1), []), A0(), B0(), D0());
    A1Campaigns();
    c := PlayLocal(c, Tick(0, 10), NodeSpec.Tick(OnConnect(A0(), 1), 10), OnConnect(A0(), 1), B0(), D0());
    B1Votes();
    c := PlayRequest(c, Envelope(0, 1, 0, 1, Ask(0, 1, [])), 11, OnRequest(B0(), 0, Ask(0, 1, []), 11),
                     RequestVoteResp(1, true), A1(), B0(), D0());
    A2Wins();
    c := PlayReply(c, Reply(Envelope(0, 1, 0, 1, Ask(0, 1, [])), RequestVoteResp(1, true)), 11,
                   OnResponse(A1(), 1, RequestVoteResp(1, true), 11), A1(), B1(), D0());
    A3Beats();
    c := PlayLocal(c, Tick(0, 14), NodeSpec.Tick(A2(), 14), A2(), B1(), D0());
  }

  /** Node 0 is deposed and wins term 3, with the heartbeat of term 1 still pending. */
  lemma SecondAct() returns (c: Cluster)
    ensures Stage(c, A6(), B3(), D0())
  {
    hide Stage, NodeSpec.Tick, OnConnect, OnRequest, OnResponse, Ask, A3, A4, A5, A6, B1, B2, B3, D0;
    c := FirstAct();
    c := PlayLocal(c, Connect(1, 0), Effect(OnConnect(B1(), 0), []), A3(), B1(), D0());
    B2Campaigns();
    c := PlayLocal(c, Tick(1, 21), NodeSpec.Tick(OnConnect(B1(), 0), 21), A3(), OnConnect(B1(), 0), D0());
    A4StepsDown();
    c := PlayRequest(c, Envelope(1, 0, 0, 1, Ask(1, 2, [])), 22, OnRequest(A3(), 1, Ask(1, 2, []), 22),
                     RequestVoteResp(2, true), A3(), B2(), D0());
    A5Campaigns();
    c := PlayLocal(c, Tick(0, 32), NodeSpec.Tick(A4(), 32), A4(), B2(), D0());
    B3Votes();
    c := PlayRequest(c, Envelope(0, 1, 0, 3, Ask(0, 3, [])), 33, OnRequest(B2(), 0, Ask(0, 3, []), 33),
                     RequestVoteResp(3, true), A5(), B2(), D0());
    A6WinsAgain();
    c := PlayReply(c, Reply(Envelope(0, 1, 0, 3, Ask(0, 3, [])), RequestVoteResp(3, true)), 34,
                   OnResponse(A5(), 3, RequestVoteResp(3, true), 34), A5(), B3(), D0());
  }

  /** The heartbeat times out, a second append overtakes the first, and node 0 commits what node 1 never got. */
  lemma ThirdAct() returns (c: Cluster)
    ensures Stage(c, A10(), B4(), D0()) && (0, Committed([Y, Z])) in c.emitted
  {
    hide Stage, NodeSpec.Propose, OnRequest, OnResponse, FailPending, A6, A7, A8, A9, A10, B3, B4, D0;
    c := SecondAct();
    A7Proposes();
    c := PlayLocal(c, Propose(0, [1]), NodeSpec.Propose(A6(), [1]), A6(), B3(), D0());
    B4Accepts();
    c := PlayRequest(c, Envelope(0, 1, 0, 4, SendY), 35, OnRequest(B3(), 0, SendY, 35), AppendEntriesResp(3, true, 1),
                     A7(), B3(), D0());
    A8LosesMark();
    c := PlayLocal(c, Fail(0, 2, false), FailPending(A7(), 2, false), A7(), B4(), D0());
    A9Proposes();
    c := PlayLocal(c, Propose(0, [2]), NodeSpec.Propose(A8(), [2]), A8(), B4(), D0());
    A10Commits();
    c := PlayReply(c, Reply(Envelope(0, 1, 0, 4, SendY), AppendEntriesResp(3, true, 1)), 36,
                   OnResponse(A9(), 4, AppendEntriesResp(3, true, 1), 36), A9(), B4(), D0());
  }

  /** Node 1, which never received the second entry, wins term 4 by node 2's vote. */
  lemma FourthAct() returns (c: Cluster)
    ensures Stage(c, A10(), B6(), D1()) && (0, Committed([Y, Z])) in c.emitted
  {
    hide Stage, NodeSpec.Tick, OnConnect, OnRequest, OnResponse, Ask, A10, B4, B5, B6, D0, D1;
    c := ThirdAct();
    c := PlayLocal(c, Connect(1, 2), Effect(OnConnect(B4(), 2), []), A10(), B4(), D0());
    B5Campaigns();
    c := PlayLocal(c, Tick(1, 45), NodeSpec.Tick(OnConnect(B4(), 2), 45), A10(), OnConnect(B4(), 2), D0());
    D1Votes();
    c := PlayRequest(c, Envelope(1, 2, 0, 3, Ask(1, 4, [Y])), 46, OnRequest(D0(), 1, Ask(1, 4, [Y]), 46),
                     RequestVoteResp(4, true), A10(), B5(), D0());
    B6Wins();
    c := PlayReply(c, Reply(Envelope(1, 2, 0, 3, Ask(1, 4, [Y])), RequestVoteResp(4, true)), 47,
                   OnResponse(B5(), 3, RequestVoteResp(4, true), 47), A10(), B5(), D1());
  }

  /** Node 1 proposes, and its append is on its way to node 0. */
  lemma FifthAct() returns (c: Cluster)
    ensures Stage(c, A10(), B7(), D1()) && (0, Committed([Y, Z])) in c.emitted
    ensures Envelope(1, 0, 0, 4, SendW) in c.requests
  {
    hide Stage, NodeSpec.Propose, A10, B6, B7, D1;
    c := FourthAct();
    B7Proposes();
    c := PlayLocal(c, Propose(1, [3]), NodeSpec.Propose(B6(), [3]), A10(), B6(), D1());
  }

  /** Node 0 overwrites its committed entry, and node 1 commits another one in its place. */
  lemma LastAct() returns (c: Cluster)
    ensures Stage(c, A11(), B8(), D1()) && (0, Committed([Y, Z])) in c.emitted && (1, Committed([Y, W])) in c.emitted
  {
    hide Stage, OnRequest, OnResponse, A10, A11, B7, B8, D1;
    c := FifthAct();
    var q := Envelope(1, 0, 0, 4, SendW);
    A11Overwrites();
    c := PlayRequest(c, q, 48, OnRequest(A10(), 1, SendW, 48), AppendEntriesResp(4, true, 2), A10(), B7(), D1());
    B8Commits();
    c := PlayReply(c, Reply(q, AppendEntriesResp(4, true, 2)), 49,
                   OnResponse(B7(), 4, AppendEntriesResp(4, true, 2), 49), A11(), B7(), D1());
  }

  /** Without the guard state machine safety fails: some run makes two nodes apply different entries at one index. */
  lemma UnguardedSafetyFails() returns (c: Cluster, a: LogEntry, b: LogEntry)
    ensures Reached(c, Anything) && Reported(c, 0, a) && Reported(c, 1, b) && a.index == b.index && a != b
  {
    c := LastAct();
    hide Reached;
    a, b := Z, W;
    assert (0, Committed([Y, Z])) in c.emitted && Z in [Y, Z];
    assert (1, Committed([Y, W])) in c.emitted && W in [Y, W];
  }

  /** Match indices are not sound without the guard: a peer is credited with an entry it does not have. */
  lemma UnguardedMatchFails() returns (c: Cluster)
    ensures Reached(c, Anything) && Tracks(c, 0, 1) && TermOf(c, 1) == TermOf(c, 0)
    ensures MatchOf(EngineOf(c, 0), 1) > |LogOf(c, 1)|
  {
    c := ThirdAct();
    hide Reached, Leading;
    LeaderBooksOf(0, 3, [], 34, 1);
  }

  /** Nor are committed entries safe from truncation: the assertion in the merge fails. */
  lemma UnguardedTruncationHappens() returns (c: Cluster, q: Envelope)
    ensures Reached(c, Anything) && Acceptable(c, q)
    ensures ConflictAt(LogOf(c, q.dst), q.msg.prevLogIndex, q.msg.entries) == Some(CommitOf(c, q.dst))
  {
    hide *;
    c := FifthAct();
    q := Envelope(1, 0, 0, 4, SendW);
    NodeZero(c, A10(), B7(), D1());
    HoldsYZ(c);
    Truncates(c, q);
  }

  lemma Truncates(c: Cluster, q: Envelope)
    requires q == Envelope(1, 0, 0, 4, SendW) && q in c.requests && 0 in c.nodes
    requires LogOf(c, 0) == [Y, Z] && CommitOf(c, 0) == 2 && TermOf(c, 0) == 3
    ensures Acceptable(c, q)
    ensures ConflictAt(LogOf(c, q.dst), q.msg.prevLogIndex, q.msg.entries) == Some(CommitOf(c, q.dst))
  {
    hide LogOf, CommitOf, TermOf;
    assert Agreeing([Y, Z], 1, [W]) == 0;
  }

  lemma NodeZero(c: Cluster, a: Node, b: Node, d: Node)
    requires Stage(c, a, b, d)
    ensures Reached(c, Anything) && 0 in c.nodes && c.nodes[0] == a
  {
    hide Reached;
  }

  lemma HoldsYZ(c: Cluster)
    requires 0 in c.nodes && c.nodes[0] == A10()
    ensures LogOf(c, 0) == [Y, Z] && CommitOf(c, 0) == 2 && TermOf(c, 0) == 3
  {
    LeaderBooksOf(0, 3, [], 34, 1);
    hide Leading;
  }
}
