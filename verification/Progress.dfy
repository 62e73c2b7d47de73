/** What never goes backwards at a node, whatever messages arrive: terms, votes, leaderships and, between restarts,
    the commit index. Nothing here depends on how the state was reached. */
module Progress {
  import opened Types
  import opened LogSpec
  import opened EngineSpec
  import opened NodeSpec
  import opened Cluster
  import Membership

  /** From one moment to a later one of a node's life, restarts included. */
  ghost predicate Onward(s: Engine, s': Engine) {
    && s'.config == s.config && s.Term() <= s'.Term()
    && (s'.Term() == s.Term() ==>
          && (s.hard.votedFor.Some? ==> s'.hard.votedFor == s.hard.votedFor)
          && (s.role == Follower ==> s'.role == Follower)
          && (s.role == Leader ==> s'.role != Candidate)
          && (s.role == Leader && s'.role == Leader ==> Grown(s, s')))
  }

  /** What one leadership does to its log and its books. */
  ghost predicate Grown(s: Engine, s': Engine) {
    s.log <= s'.log && forall p :: MatchOf(s, p) <= MatchOf(s', p)
  }

  /** Between restarts. */
  ghost predicate Ahead(s: Engine, s': Engine) {
    s.commitIndex <= s'.commitIndex && s.lastApplied <= s'.lastApplied && s'.members == s.members
  }

  lemma OnwardTransitive(a: Engine, b: Engine, c: Engine)
    requires Onward(a, b) && Onward(b, c)
    ensures Onward(a, c)
  {
    if a.role == Leader && c.role == Leader && c.Term() == a.Term() {
      assert b.role == Leader;
      forall p
        ensures MatchOf(a, p) <= MatchOf(c, p)
      {
        assert MatchOf(a, p) <= MatchOf(b, p) <= MatchOf(c, p);
      }
    }
  }

  // ---------------------------------------------------------------- engine steps

  lemma {:induction false} ReplicateTouches(s: Engine, peers: seq<NodeId>)
    ensures var s' := ReplicateTo(s, peers).engine; s' == s.(lastAe := s'.lastAe, inflight := s'.inflight)
    ensures forall a :: a in ReplicateTo(s, peers).actions ==> a.Send?
    decreases |peers|
  {
    if peers != [] {
      ReplicateTouches(SendAppendEntriesTo(s, peers[0]).engine, peers[1..]);
    }
  }

  lemma TickOnward(s: Engine, now: Instant)
    ensures Onward(s, EngineSpec.Tick(s, now).engine) && Ahead(s, EngineSpec.Tick(s, now).engine)
    ensures s.role != Leader ==> EngineSpec.Tick(s, now).engine.role != Leader
  {
    hide ReplicateTo;
    ReplicateTouches(s, s.Others());
  }

  /** After a leader's tick its next deadline lies ahead exactly when its election deadline does: heartbeats never
      push that one back. */
  lemma LeaderDeadlineAfterTick(s: Engine, now: Instant)
    requires s.role == Leader && s.config.heartbeatInterval > 0
    ensures EngineSpec.Tick(s, now).engine.NextDeadline() > now <==> s.electionDeadline > now
  {
    hide ReplicateTo;
    ReplicateTouches(s, s.Others());
  }

  lemma ProposeOnward(s: Engine, data: Command)
    ensures match EngineSpec.Propose(s, data)
            case NotLeader => s.role != Leader
            case Proposed(index, r) =>
              s.role == Leader && index == |s.log| + 1 && Onward(s, r.engine) && Ahead(s, r.engine)
                                       && r.engine.log == s.log + [LogEntry(index, s.Term(), data)]
  {
    hide ReplicateTo;
    if s.role == Leader {
      ReplicateTouches(s.(log := s.log + [LogEntry(|s.log| + 1, s.Term(), data)]), s.Others());
    }
  }

  lemma AdvanceTouches(s: Engine, leaderCommit: Index, lastNew: Index)
    ensures var s' := AdvanceCommit(s, leaderCommit, lastNew).engine;
            s' == s.(commitIndex := s'.commitIndex, lastApplied := s'.lastApplied) && Ahead(s, s')
  {
  }

  lemma CommitTouches(s: Engine)
    ensures var s' := MaybeCommit(s).engine;
            s' == s.(commitIndex := s'.commitIndex, lastApplied := s'.lastApplied) && Ahead(s, s')
  {
    hide CommitTarget, AdvanceCommit;
    AdvanceTouches(s, CommitTarget(s, |s.log|), CommitTarget(s, |s.log|));
  }

  lemma CommitOnlyApplies(s: Engine)
    ensures var r := MaybeCommit(s);
            r.engine == s.(commitIndex := r.engine.commitIndex, lastApplied := r.engine.lastApplied)
    ensures forall a :: a in MaybeCommit(s).actions ==> a.Apply?
  {
    hide CommitTarget, Slice;
  }

  lemma AppendOnward(s: Engine, from: NodeId, msg: Message, now: Instant)
    requires msg.AppendEntries?
    ensures var s' := HandleRpc(s, from, msg, now).engine;
            Onward(s, s') && Ahead(s, s') && (s'.role == Leader ==> s.role == Leader)
  {
    hide Merge, Agreeing, AdvanceCommit;
    if msg.term >= s.Term() && PrevMatches(s.log, msg.prevLogIndex, msg.prevLogTerm) {
      var s1 := FollowLeader(s, msg.term, msg.leader, now).engine;
      AdvanceTouches(s1.(log := Merge(s.log, msg.prevLogIndex, msg.entries)), msg.leaderCommit,
                     msg.prevLogIndex + |msg.entries|);
    }
  }

  lemma AppendRespOnward(s: Engine, from: NodeId, msg: Message, now: Instant)
    requires msg.AppendEntriesResp?
    ensures var s' := HandleRpc(s, from, msg, now).engine;
            Onward(s, s') && Ahead(s, s') && (s'.role == Leader ==> s.role == Leader)
  {
    if msg.term <= s.Term() && s.role == Leader && msg.term == s.Term() && from in s.lastAe && msg.success {
      CommitTouches(Credit(s, from));
    }
    hide MaybeCommit;
  }

  lemma VoteOnward(s: Engine, from: NodeId, msg: Message, now: Instant)
    requires msg.RequestVote? || msg.RequestVoteResp?
    ensures var s' := HandleRpc(s, from, msg, now).engine; Onward(s, s') && Ahead(s, s')
  {
  }

  /** Handling any message keeps a node moving forward. */
  lemma HandleOnward(s: Engine, from: NodeId, msg: Message, now: Instant)
    ensures Onward(s, HandleRpc(s, from, msg, now).engine) && Ahead(s, HandleRpc(s, from, msg, now).engine)
  {
    hide HandleAppendEntries, HandleAppendEntriesResp, HandleRequestVote, HandleRequestVoteResp;
    match msg
    case AppendEntries(_, _, _, _, _, _) => AppendOnward(s, from, msg, now);
    case AppendEntriesResp(_, _, _) => AppendRespOnward(s, from, msg, now);
    case RequestVote(_, _, _, _) => VoteOnward(s, from, msg, now);
    case RequestVoteResp(_, _) => VoteOnward(s, from, msg, now);
    case InstallSnapshot(_) =>
    case InstallSnapshotResp(_) =>
  }

  /** The only message that makes a leader is a granted vote, and the new leader has nothing in flight. */
  lemma OnlyVotesElect(s: Engine, from: NodeId, msg: Message, now: Instant)
    requires s.role != Leader && HandleRpc(s, from, msg, now).engine.role == Leader
    ensures msg.RequestVoteResp? && msg.voteGranted && s.role == Candidate && msg.term == s.Term()
    ensures |s.votes + {from}| >= s.members.Quorum()
    ensures HandleRpc(s, from, msg, now) ==
              Outcome(BecomeLeader(s.(votes := s.votes + {from}), now), [BecameLeader(s.Term())])
  {
    hide HandleAppendEntries, HandleAppendEntriesResp;
    if msg.AppendEntries? {
      AppendOnward(s, from, msg, now);
    } else if msg.AppendEntriesResp? {
      AppendRespOnward(s, from, msg, now);
    }
  }

  // ---------------------------------------------------------------- what a tick does

  /** Replicating sends exactly one append to every listed peer that is idle, and nothing else. */
  lemma {:induction false} ReplicationReaches(s: Engine, peers: seq<NodeId>, p: NodeId, msg: Message)
    requires forall i, j :: 0 <= i < j < |peers| ==> peers[i] != peers[j]
    ensures Send(p, msg) in ReplicateTo(s, peers).actions <==>
              p in peers && p !in s.inflight && BuildAppendEntries(s, p) == Some(msg)
    decreases |peers|
  {
    if peers != [] {
      var r := SendAppendEntriesTo(s, peers[0]);
      assert peers == [peers[0]] + peers[1..];
      ReplicationReaches(r.engine, peers[1..], p, msg);
      SameBuild(s, r.engine, p);
      assert peers[0] !in peers[1..];
    }
  }

  /** A tick stands for election exactly when a node that does not lead has reached its election deadline; a leader's
      tick sends an append exactly to the idle voters, exactly when the heartbeat is due. */
  lemma TickActsWhenDue(s: Engine, now: Instant, p: NodeId, msg: Message)
    requires s.members.Valid()
    ensures var r := EngineSpec.Tick(s, now);
            && (r.engine.role == Candidate && r.engine.Term() == s.Term() + 1 <==>
                  s.role != Leader && now >= s.electionDeadline)
            && (Broadcast(RequestVote(s.Term() + 1, s.Id(), |s.log|, LastTerm(s.log))) in r.actions
                <==> s.role != Leader && now >= s.electionDeadline)
            && (Send(p, msg) in r.actions <==>
                  && s.role == Leader && now >= s.heartbeatDeadline
                  && p in s.members.Voters() && p != s.Id() && p !in s.inflight
                  && BuildAppendEntries(s, p) == Some(msg))
  {
    Membership.WithoutIsDistinct(s.members.order, s.Id());
    ReplicationReaches(s, s.Others(), p, msg);
    ReplicateTouches(s, s.Others());
    hide ReplicateTo, BuildAppendEntries;
  }

  // ---------------------------------------------------------------- node steps

  /** Carrying out actions only ever clears in-flight marks. */
  lemma {:induction false} SendToAllTouches(n: Node, peers: seq<NodeId>, msg: Message)
    ensures var n' := SendToAll(n, peers, msg).node;
            n'.engine == n.engine.(inflight := n'.engine.inflight) && n'.engine.inflight <= n.engine.inflight
    decreases |peers|
  {
    if peers != [] {
      SendToAllTouches(SendRpc(n, peers[0], msg).node, peers[1..], msg);
    }
  }

  lemma {:induction false} ExecuteTouches(n: Node, actions: seq<Action>, inbound: Option<NodeId>)
    ensures var n' := Execute(n, actions, inbound).node;
            n'.engine == n.engine.(inflight := n'.engine.inflight) && n'.engine.inflight <= n.engine.inflight
    decreases |actions|
  {
    if actions != [] {
      if actions[0].Broadcast? {
        SendToAllTouches(n, n.engine.Others(), actions[0].msg);
      }
      ExecuteTouches(ExecuteOne(n, actions[0], inbound).node, actions[1..], InboundAfter(actions[0], inbound));
    }
  }

  lemma {:induction false} FailAllTouches(n: Node, ids: seq<nat>, emit: bool)
    ensures var n' := FailAll(n, ids, emit).node;
            n'.engine == n.engine.(inflight := n'.engine.inflight) && n'.engine.inflight <= n.engine.inflight
    decreases |ids|
  {
    if ids != [] {
      FailAllTouches(FailPending(n, ids[0], emit).node, ids[1..], emit);
    }
  }

  /** Failing requests without a report drops exactly those requests and says nothing. */
  lemma {:induction false} FailAllQuiet(n: Node, ids: seq<nat>)
    ensures var r := FailAll(n, ids, false);
            && r.outputs == [] && r.node.connected == n.connected
            && forall id :: id in r.node.pending <==> id in n.pending && id !in ids
    ensures var r := FailAll(n, ids, false); forall id :: id in r.node.pending ==> r.node.pending[id] == n.pending[id]
    decreases |ids|
  {
    if ids != [] {
      FailAllQuiet(FailPending(n, ids[0], false).node, ids[1..]);
      assert ids == [ids[0]] + ids[1..];
    }
  }

  lemma MarksAside(s: Engine, s1: Engine, s': Engine)
    requires Onward(s, s1) && Ahead(s, s1) && s' == s1.(inflight := s'.inflight)
    ensures Onward(s, s') && Ahead(s, s')
  {
    if s.role == Leader && s'.role == Leader && s'.Term() == s.Term() {
      forall p
        ensures MatchOf(s, p) <= MatchOf(s', p)
      {
        assert MatchOf(s1, p) == MatchOf(s', p);
      }
    }
  }

  lemma ReactOnward(c: Cluster, e: Event)
    requires Enabled(c, e)
    ensures Onward(c.nodes[Actor(e)].engine, React(c, e).node.engine)
    ensures !e.Restart? ==> Ahead(c.nodes[Actor(e)].engine, React(c, e).node.engine)
  {
    hide Execute, FailAll, HandleRpc, EngineSpec.Tick, EngineSpec.Propose;
    var node := c.nodes[Actor(e)];
    var s, s' := node.engine, React(c, e).node.engine;
    match e
    case Tick(_, now) =>
      var r := EngineSpec.Tick(s, now);
      TickOnward(s, now);
      ExecuteTouches(node.(engine := r.engine), r.actions, None);
      MarksAside(s, r.engine, s');
    case Propose(_, data) =>
      ProposeOnward(s, data);
      if s.role == Leader {
        var r := EngineSpec.Propose(s, data).outcome;
        ExecuteTouches(node.(engine := r.engine), r.actions, None);
        MarksAside(s, r.engine, s');
      }
    case DeliverRequest(q, now) =>
      var r := HandleRpc(s, q.src, q.msg, now);
      HandleOnward(s, q.src, q.msg, now);
      ExecuteTouches(node.(engine := r.engine), r.actions, Some(q.src));
      MarksAside(s, r.engine, s');
    case DeliverReply(p, now) =>
      if p.request.incarnation == c.incarnation[Actor(e)] && p.request.correlation in node.pending {
        var from := node.pending[p.request.correlation].to;
        var r := HandleRpc(s, from, p.msg, now);
        HandleOnward(s, from, p.msg, now);
        ExecuteTouches(node.(engine := r.engine, pending := node.pending - {p.request.correlation}), r.actions, None);
        MarksAside(s, r.engine, s');
      }
    case Fail(_, id, emit) => MarksAside(s, s, s');
    case Connect(_, _) =>
    case Disconnect(_, peer, ids) =>
      FailAllTouches(node.(connected := node.connected - {peer}), ids, false);
      MarksAside(s, s, s');
    case Restart(_, _) =>
  }

  /** Neither a tick nor a failure makes a leader, credits anybody or commits anything, so every guard permits them. */
  lemma QuietEvent(c: Cluster, e: Event, g: Guard)
    requires Enabled(c, e) && (e.Tick? || e.Fail?)
    ensures Permits(g, c, e)
  {
    hide EngineSpec.Tick, Execute, Ackers;
    if e.Tick? {
      var node := c.nodes[Actor(e)];
      var r := EngineSpec.Tick(node.engine, e.now);
      TickOnward(node.engine, e.now);
      TickCommits(node.engine, e.now);
      ExecuteTouches(node.(engine := r.engine), r.actions, None);
    }
  }

  lemma TickCommits(s: Engine, now: Instant)
    ensures EngineSpec.Tick(s, now).engine.commitIndex == s.commitIndex
  {
    hide ReplicateTo;
    ReplicateTouches(s, s.Others());
  }

  // ---------------------------------------------------------------- whole runs

  ghost predicate Restarts(events: seq<Event>, n: NodeId) {
    exists i :: 0 <= i < |events| && events[i].Restart? && Actor(events[i]) == n
  }

  /** Over any run, whatever is delivered: a node's term never falls, its vote in a term is never taken back, and a
      leadership only appends to its log and only raises its match indices. Between restarts the commit index and
      the apply index never fall. */
  lemma {:induction false} RunGoesOnward(c: Cluster, events: seq<Event>, n: NodeId)
    requires n in c.nodes && Allowed(c, events)
    ensures n in Run(c, events).nodes && Onward(c.nodes[n].engine, Run(c, events).nodes[n].engine)
    ensures !Restarts(events, n) ==> Ahead(c.nodes[n].engine, Run(c, events).nodes[n].engine)
    decreases |events|
  {
    hide Onward, Ahead, React, Enabled;
    if events == [] {
      assert Onward(c.nodes[n].engine, c.nodes[n].engine) && Ahead(c.nodes[n].engine, c.nodes[n].engine) by {
        OnwardReflexive(c.nodes[n].engine);
      }
    } else {
      var c1 := Step(c, events[0]);
      StepOnward(c, events[0], n);
      RunGoesOnward(c1, events[1..], n);
      OnwardTransitive(c.nodes[n].engine, c1.nodes[n].engine, Run(c1, events[1..]).nodes[n].engine);
      if !Restarts(events, n) {
        NoRestarts(events, n);
        AheadTransitive(c.nodes[n].engine, c1.nodes[n].engine, Run(c1, events[1..]).nodes[n].engine);
      }
    }
  }

  lemma NoRestarts(events: seq<Event>, n: NodeId)
    requires events != [] && !Restarts(events, n)
    ensures !Restarts(events[1..], n) && !(events[0].Restart? && Actor(events[0]) == n)
  {
    forall i | 0 <= i < |events[1..]|
      ensures !(events[1..][i].Restart? && Actor(events[1..][i]) == n)
    {
      assert events[i + 1] == events[1..][i];
    }
  }

  lemma OnwardReflexive(s: Engine)
    ensures Onward(s, s) && Ahead(s, s)
  {
  }

  lemma AheadTransitive(a: Engine, b: Engine, c: Engine)
    requires Ahead(a, b) && Ahead(b, c)
    ensures Ahead(a, c)
  {
  }

  lemma StepOnward(c: Cluster, e: Event, n: NodeId)
    requires Enabled(c, e) && n in c.nodes
    ensures n in Step(c, e).nodes && Onward(c.nodes[n].engine, Step(c, e).nodes[n].engine)
    ensures !(e.Restart? && Actor(e) == n) ==> Ahead(c.nodes[n].engine, Step(c, e).nodes[n].engine)
  {
    hide Onward, Ahead, React;
    if n == Actor(e) {
      ReactOnward(c, e);
    } else {
      OnwardReflexive(c.nodes[n].engine);
    }
  }
}
