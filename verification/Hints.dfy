/** Whoever a node takes for the leader has won the election of that node's term and has said so. */
module Hints {
  import opened Types
  import opened LogSpec
  import opened EngineSpec
  import opened NodeSpec
  import opened Cluster
  import opened Progress
  import opened Coupling
  import opened EngineSteps
  import opened Events
  import opened Reachability
  import opened Safety
  import Protocol
  import Membership

  /** Every leader, every leader hint and every append names a winner that announced itself. */
  ghost predicate Announced(c: Cluster) {
    && (forall n :: n in c.nodes ==> NodeAnnounced(c, n))
    && (forall q :: q in c.requests && q.msg.AppendEntries? ==> Won(c, q.msg.leader, q.msg.term))
  }

  ghost predicate NodeAnnounced(c: Cluster, n: NodeId)
    requires n in c.nodes
  {
    var s := c.nodes[n].engine;
    && s.Id() == n
    && (s.role == Leader ==> Won(c, n, s.Term()))
    && (s.leader.Some? ==> Won(c, s.leader.value, s.Term()))
  }

  // ---------------------------------------------------------------- where hints and appends come from

  /** The outcome names a leader only if the engine or the message already did, or by announcing itself. */
  ghost predicate Grounded(s: Engine, r: Outcome, named: Option<(NodeId, Term)>) {
    && (r.engine.role == Leader ==>
          (s.role == Leader && r.engine.Term() == s.Term()) || BecameLeader(r.engine.Term()) in r.actions)
    && (r.engine.leader.Some? ==>
          || (r.engine.leader == s.leader && r.engine.Term() == s.Term())
          || named == Some((r.engine.leader.value, r.engine.Term()))
          || (BecameLeader(r.engine.Term()) in r.actions && r.engine.leader == Some(s.Id())))
    && (forall a: Action :: a in r.actions && SendsAppend(a) ==>
          s.role == Leader && a.msg.leader == s.Id() && a.msg.term == s.Term())
  }

  predicate SendsAppend(a: Action) {
    (a.Send? || a.Broadcast?) && a.msg.AppendEntries?
  }

  function NamedBy(msg: Message): Option<(NodeId, Term)> {
    if msg.AppendEntries? then Some((msg.leader, msg.term)) else None
  }

  lemma {:induction false} ReplicatedAppends(s: Engine, peers: seq<NodeId>)
    ensures forall a :: a in ReplicateTo(s, peers).actions ==>
              a.Send? && a.msg.AppendEntries? && a.msg.leader == s.Id() && a.msg.term == s.Term()
    decreases |peers|
  {
    if peers != [] {
      ReplicatedAppends(SendAppendEntriesTo(s, peers[0]).engine, peers[1..]);
    }
  }

  lemma TickGrounded(s: Engine, now: Instant)
    ensures Grounded(s, EngineSpec.Tick(s, now), None)
  {
    hide ReplicateTo;
    ReplicateTouches(s, s.Others());
    ReplicatedAppends(s, s.Others());
  }

  lemma ProposeGrounded(s: Engine, data: Command)
    requires s.role == Leader
    ensures Grounded(s, EngineSpec.Propose(s, data).outcome, None)
  {
    hide ReplicateTo;
    var s1 := s.(log := s.log + [LogEntry(|s.log| + 1, s.Term(), data)]);
    ReplicateTouches(s1, s1.Others());
    ReplicatedAppends(s1, s1.Others());
  }

  lemma AppendGrounded(s: Engine, from: NodeId, msg: Message, now: Instant)
    requires msg.AppendEntries?
    ensures Grounded(s, HandleRpc(s, from, msg, now), NamedBy(msg))
  {
    hide Merge, Agreeing, Slice;
  }

  lemma AppendRespGrounded(s: Engine, from: NodeId, msg: Message, now: Instant)
    requires msg.AppendEntriesResp?
    ensures Grounded(s, HandleRpc(s, from, msg, now), None)
  {
    if s.role == Leader && msg.term == s.Term() && from in s.lastAe && msg.success {
      CommitOnlyApplies(Credit(s, from));
    }
    hide MaybeCommit;
  }

  lemma HandleGrounded(s: Engine, from: NodeId, msg: Message, now: Instant)
    ensures Grounded(s, HandleRpc(s, from, msg, now), NamedBy(msg))
  {
    if msg.AppendEntries? {
      AppendGrounded(s, from, msg, now);
    } else if msg.AppendEntriesResp? {
      AppendRespGrounded(s, from, msg, now);
    }
  }

  // ---------------------------------------------------------------- what reaches the outside

  lemma {:induction false} SendToAllOutputs(n: Node, peers: seq<NodeId>, msg: Message)
    ensures forall o :: o in SendToAll(n, peers, msg).outputs ==> o.SendRequest? && o.msg == msg
    decreases |peers|
  {
    if peers != [] {
      SendToAllOutputs(SendRpc(n, peers[0], msg).node, peers[1..], msg);
    }
  }

  ghost predicate Asked(actions: seq<Action>, msg: Message) {
    exists a :: a in actions && (a.Send? || a.Broadcast?) && a.msg == msg
  }

  /** Only messages the engine asked for are sent, and every election won is announced. */
  lemma {:induction false} ExecuteOutputs(n: Node, actions: seq<Action>, inbound: Option<NodeId>)
    ensures forall o :: o in Execute(n, actions, inbound).outputs && o.SendRequest? ==> Asked(actions, o.msg)
    ensures forall t: Term :: BecameLeader(t) in actions ==>
              RoleChanged(Leader, t, Some(n.engine.Id())) in Execute(n, actions, inbound).outputs
    decreases |actions|
  {
    if actions != [] {
      var r := ExecuteOne(n, actions[0], inbound);
      var rest := Execute(r.node, actions[1..], InboundAfter(actions[0], inbound));
      if actions[0].Broadcast? {
        SendToAllOutputs(n, n.engine.Others(), actions[0].msg);
        SendToAllTouches(n, n.engine.Others(), actions[0].msg);
      }
      ExecuteOutputs(r.node, actions[1..], InboundAfter(actions[0], inbound));
      forall o | o in r.outputs + rest.outputs && o.SendRequest?
        ensures Asked(actions, o.msg)
      {
        if o in r.outputs {
          assert actions[0] in actions && actions[0].msg == o.msg;
        } else {
          var a :| a in actions[1..] && (a.Send? || a.Broadcast?) && a.msg == o.msg;
          assert a in actions;
        }
      }
      forall t: Term | BecameLeader(t) in actions
        ensures RoleChanged(Leader, t, Some(n.engine.Id())) in r.outputs + rest.outputs
      {
        if actions[0] != BecameLeader(t) {
          assert BecameLeader(t) in actions[1..];
        }
      }
    }
  }

  // ---------------------------------------------------------------- every step

  lemma WonStays(c: Cluster, c': Cluster, n: NodeId, t: Term)
    requires Won(c, n, t) && c.emitted <= c'.emitted
    ensures Won(c', n, t)
  {
    var leader :| (n, RoleChanged(Leader, t, leader)) in c.emitted;
    assert (n, RoleChanged(Leader, t, leader)) in c'.emitted;
  }

  /** The engine did `r` on its node's behalf, and its actions were carried out. */
  lemma GroundedLands(c: Cluster, e: Event, s: Engine, r: Outcome, mid: Node, inbound: Option<NodeId>,
                      named: Option<(NodeId, Term)>)
    requires Enabled(c, e) && Announced(c) && c.nodes[Actor(e)].engine == s && !e.Restart?
    requires Grounded(s, r, named) && r.engine.config == s.config && mid.engine == r.engine
    requires React(c, e) == Execute(mid, r.actions, inbound)
    requires named.Some? ==> Won(c, named.value.0, named.value.1)
    ensures Announced(Step(c, e))
  {
    hide React, Won, Execute, Enabled;
    var c', n := Step(c, e), Actor(e);
    ActorExists(c, e);
    assert NodeAnnounced(c, n);
    ExecuteTouches(mid, r.actions, inbound);
    ExecuteOutputs(mid, r.actions, inbound);
    OthersAnnounced(c, e);
    if BecameLeader(r.engine.Term()) in r.actions {
      NowWon(c, e, n, r.engine.Term());
    }
    if s.role == Leader { WonStays(c, c', n, s.Term()); }
    if s.leader.Some? { WonStays(c, c', s.leader.value, s.Term()); }
    if named.Some? { WonStays(c, c', named.value.0, named.value.1); }
    assert NodeAnnounced(c', n);
    forall q | q in c'.requests && q.msg.AppendEntries? && q !in c.requests
      ensures Won(c', q.msg.leader, q.msg.term)
    {
      assert Asked(r.actions, q.msg);
    }
  }

  lemma NowWon(c: Cluster, e: Event, n: NodeId, t: Term)
    requires Enabled(c, e) && n == Actor(e) && RoleChanged(Leader, t, Some(n)) in React(c, e).outputs
    ensures Won(Step(c, e), n, t)
  {
    hide React;
    assert (n, RoleChanged(Leader, t, Some(n))) in Step(c, e).emitted;
  }

  lemma OthersAnnounced(c: Cluster, e: Event)
    requires Enabled(c, e) && Announced(c)
    ensures forall n :: n in c.nodes && n != Actor(e) ==> NodeAnnounced(Step(c, e), n)
    ensures forall q :: q in c.requests && q.msg.AppendEntries? ==> Won(Step(c, e), q.msg.leader, q.msg.term)
  {
    hide React, Won, Enabled;
    var c' := Step(c, e);
    forall n | n in c.nodes && n != Actor(e)
      ensures NodeAnnounced(c', n)
    {
      var s := c.nodes[n].engine;
      assert NodeAnnounced(c, n);
      if s.role == Leader { WonStays(c, c', n, s.Term()); }
      if s.leader.Some? { WonStays(c, c', s.leader.value, s.Term()); }
    }
    forall q | q in c.requests && q.msg.AppendEntries?
      ensures Won(c', q.msg.leader, q.msg.term)
    {
      WonStays(c, c', q.msg.leader, q.msg.term);
    }
  }

  /** The engine's role, term and hint stayed as they were, and nothing was sent. */
  lemma QuietLands(c: Cluster, e: Event)
    requires Enabled(c, e) && Announced(c)
    requires var s, s' := c.nodes[Actor(e)].engine, React(c, e).node.engine;
             s'.Id() == s.Id() && s'.Term() == s.Term() && (s'.role == s.role || s'.role == Follower)
             && (s'.leader == s.leader || s'.leader == None)
    requires forall o :: o in React(c, e).outputs ==> !o.SendRequest?
    ensures Announced(Step(c, e))
  {
    hide React, Won, Enabled;
    var c', n := Step(c, e), Actor(e);
    ActorExists(c, e);
    var s := c.nodes[n].engine;
    OthersAnnounced(c, e);
    assert NodeAnnounced(c, n);
    if s.role == Leader { WonStays(c, c', n, s.Term()); }
    if s.leader.Some? { WonStays(c, c', s.leader.value, s.Term()); }
    assert NodeAnnounced(c', n);
  }

  lemma {:induction false} FailAllSilent(n: Node, ids: seq<nat>, emit: bool)
    ensures forall o :: o in FailAll(n, ids, emit).outputs ==> o.RpcFailed?
    decreases |ids|
  {
    if ids != [] {
      FailAllSilent(FailPending(n, ids[0], emit).node, ids[1..], emit);
    }
  }

  lemma StepAnnounced(c: Cluster, e: Event)
    requires Enabled(c, e) && Announced(c) && (e.DeliverReply? ==> !e.reply.msg.AppendEntries?)
    ensures Announced(Step(c, e))
  {
    hide Execute, FailAll, HandleRpc, EngineSpec.Tick, EngineSpec.Propose, Announced, Grounded, Step, Onward;
    var node := c.nodes[Actor(e)];
    var s := node.engine;
    match e
    case Tick(_, now) =>
      var r := EngineSpec.Tick(s, now);
      TickGrounded(s, now);
      assert r.engine.config == s.config by { TickOnward(s, now); SameConfig(s, r.engine); }
      GroundedLands(c, e, s, r, node.(engine := r.engine), None, None);
    case Propose(_, data) =>
      assert s.role == Leader <==> EngineSpec.Propose(s, data).Proposed? by { ProposeOnward(s, data); }
      if s.role == Leader {
        var r := EngineSpec.Propose(s, data).outcome;
        ProposeGrounded(s, data);
        assert r.engine.config == s.config by { ProposeOnward(s, data); SameConfig(s, r.engine); }
        GroundedLands(c, e, s, r, node.(engine := r.engine), None, None);
      } else {
        QuietLands(c, e);
      }
    case DeliverRequest(q, now) =>
      var r := HandleRpc(s, q.src, q.msg, now);
      HandleGrounded(s, q.src, q.msg, now);
      assert r.engine.config == s.config by { HandleOnward(s, q.src, q.msg, now); SameConfig(s, r.engine); }
      NamedHasWon(c, e);
      GroundedLands(c, e, s, r, node.(engine := r.engine), Some(q.src), NamedBy(q.msg));
    case DeliverReply(p, now) =>
      var id := p.request.correlation;
      if p.request.incarnation == c.incarnation[Actor(e)] && id in node.pending {
        var r := HandleRpc(s, node.pending[id].to, p.msg, now);
        HandleGrounded(s, node.pending[id].to, p.msg, now);
        assert r.engine.config == s.config by {
          HandleOnward(s, node.pending[id].to, p.msg, now);
          SameConfig(s, r.engine);
        }
        GroundedLands(c, e, s, r, node.(engine := r.engine, pending := node.pending - {id}), None, None);
      } else {
        QuietLands(c, e);
      }
    case Fail(_, id, emit) => QuietLands(c, e);
    case Connect(_, _) => QuietLands(c, e);
    case Disconnect(_, peer, ids) =>
      FailAllTouches(node.(connected := node.connected - {peer}), ids, false);
      FailAllSilent(node.(connected := node.connected - {peer}), ids, false);
      QuietLands(c, e);
    case Restart(_, _) => QuietLands(c, e);
  }

  lemma SameConfig(s: Engine, s': Engine)
    requires Onward(s, s')
    ensures s'.config == s.config
  {
  }

  lemma NamedHasWon(c: Cluster, e: Event)
    requires Enabled(c, e) && Announced(c) && e.DeliverRequest?
    ensures var named := NamedBy(e.request.msg); named.Some? ==> Won(c, named.value.0, named.value.1)
  {
    hide Won, NodeAnnounced;
  }

  // ---------------------------------------------------------------- every run

  ghost predicate AnnouncedAlong(c: Cluster) {
    Announced(c) && HasHistory(c, false)
  }

  lemma AnnouncementsGoOn()
    ensures Preserved((c: Cluster) => AnnouncedAlong(c), Anything)
  {
    hide Coupled, Step, React, Enabled, Continues, Announced;
    var p := (c: Cluster) => AnnouncedAlong(c);
    forall c, e | p(c) && Enabled(c, e)
      ensures p(Step(c, e))
    {
      var h: Protocol.History :| Coupled(c, h, false);
      if e.DeliverReply? {
        ActorExists(c, e);
        ReplyIsAnswer(c, h, e.reply, false);
      }
      StepAnnounced(c, e);
      var h1 := StepKeeps(c, h, e, false);
    }
  }

  lemma ReplyIsAnswer(c: Cluster, h: Protocol.History, r: Reply, acked: bool)
    requires r in c.replies && Coupled(c, h, acked)
    ensures r.msg.RequestVoteResp? || r.msg.AppendEntriesResp?
  {
    hide Protocol.Inv, NodeOk;
    assert ReplyOk(c, h, r);
  }

  lemma ReachedAnnounced(c: Cluster)
    requires Reached(c, Anything)
    ensures Announced(c)
  {
    hide Coupled, Start, ConfigsOk, Announced, Preserved;
    var p := (x: Cluster) => AnnouncedAlong(x);
    forall configs, now | ConfigsOk(configs)
      ensures p(Start(configs, now))
    {
      StartCoupled(configs, now, false);
      StartAnnounced(configs, now);
    }
    AnnouncementsGoOn();
    assert p(c);
  }

  lemma StartAnnounced(configs: map<NodeId, Config>, now: Instant)
    requires ConfigsOk(configs)
    ensures Announced(Start(configs, now))
  {
    hide Won, Membership.New;
  }

  /** Leader hints are right: a node that names a leader names one that won its very term, and it is the only winner. */
  lemma HintedLeaderWon(c: Cluster, n: NodeId, l: NodeId)
    requires Names(c, n, l) && Reached(c, Anything)
    ensures forall w :: Won(c, w, TermOf(c, n)) <==> w == l
  {
    hide Reached, Won;
    ReachedAnnounced(c);
    assert NodeAnnounced(c, n);
    forall w | Won(c, w, TermOf(c, n))
      ensures w == l
    {
      ElectionSafety(c, w, l, TermOf(c, n));
    }
  }

  /** Two nodes in the same term never name different leaders. */
  lemma HintsAgree(c: Cluster, m: NodeId, n: NodeId, a: NodeId, b: NodeId)
    requires Names(c, m, a) && Names(c, n, b) && TermOf(c, m) == TermOf(c, n) && Reached(c, Anything)
    ensures a == b
  {
    hide Reached, Won;
    HintedLeaderWon(c, m, a);
    HintedLeaderWon(c, n, b);
    assert Won(c, b, TermOf(c, n));
  }

  /** Every leader announced its victory, so no two nodes ever lead the same term. */
  lemma LeadersHaveWon(c: Cluster, l: NodeId)
    requires Leads(c, l) && Reached(c, Anything)
    ensures forall w :: Won(c, w, TermOf(c, l)) <==> w == l
  {
    hide Reached, Won;
    ReachedAnnounced(c);
    assert NodeAnnounced(c, l);
    forall w | Won(c, w, TermOf(c, l))
      ensures w == l
    {
      ElectionSafety(c, w, l, TermOf(c, l));
    }
  }
}
