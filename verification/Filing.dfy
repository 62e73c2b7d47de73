/** How a leader comes to have an append pending to a peer: proposals and due ticks file one for every connected peer
    that is idle. */
module Filing {
  import opened Types
  import opened LogSpec
  import opened EngineSpec
  import opened NodeSpec
  import opened Cluster
  import opened Reachability
  import opened Progress
  import opened Coupling
  import opened Execution
  import opened Replication
  import opened Events
  import opened Safety
  import opened Tenure
  import opened Guarantees
  import opened CatchUp
  import Protocol
  import Commitment
  import Membership

  /** Everything the leader was waiting for besides `id` it is still waiting for. */
  ghost predicate OthersPending(node: Node, node': Node, id: nat) {
    && node'.connected == node.connected && node.nextCorrelation <= node'.nextCorrelation
    && forall j :: j in node.pending && j < node.nextCorrelation && j != id ==>
         j in node'.pending && node'.pending[j] == node.pending[j]
  }

  // ---------------------------------------------------------------- a proposal reaches a connected peer

  lemma {:induction false} StaysFiled(n: Node, todo: seq<Action>, p: NodeId, id: nat)
    requires Outgoing(n.engine, todo) && id in n.pending && id < n.nextCorrelation
    requires forall i :: 0 <= i < |todo| ==> todo[i].Send? && todo[i].to != p
    ensures var n' := Execute(n, todo, None).node;
            id in n'.pending && n'.pending[id] == n.pending[id] && (p in n.engine.inflight ==> p in n'.engine.inflight)
    decreases |todo|
  {
    if todo != [] {
      SendOneOutgoing(n, todo);
      hide Outgoing;
      StaysFiled(SendRpc(n, todo[0].to, todo[0].msg).node, todo[1..], p, id);
    }
  }

  /** The append to a connected peer is filed, and the peer stays marked. */
  lemma {:induction false} FiledTo(n: Node, todo: seq<Action>, p: NodeId, msg: Message) returns (id: nat)
    requires Outgoing(n.engine, todo) && Send(p, msg) in todo && p in n.connected
    ensures var n' := Execute(n, todo, None).node;
            && n.nextCorrelation <= id && id in n'.pending && n'.pending[id] == Pending(p, KindOf(msg), msg)
            && p in n'.engine.inflight
    decreases |todo|
  {
    assert OutgoingOne(n.engine, todo[0]);
    var n1 := SendRpc(n, todo[0].to, todo[0].msg).node;
    SendOneOutgoing(n, todo);
    if todo[0] == Send(p, msg) {
      id := n.nextCorrelation;
      forall i | 0 <= i < |todo[1..]|
        ensures todo[1..][i].Send? && todo[1..][i].to != p
      {
        assert todo[1..][i] == todo[i + 1] && OutgoingOne(n.engine, todo[i + 1]);
      }
      StaysFiled(n1, todo[1..], p, id);
    } else {
      assert Send(p, msg) in todo[1..];
      id := FiledTo(n1, todo[1..], p, msg);
    }
  }

  /** What a proposal does to the leader's node, as far as `p` is concerned. */
  ghost predicate ProposedTo(node: Node, node': Node, data: Command, p: NodeId, id: nat) {
    var s, s' := node.engine, node'.engine;
    && p in s.nextIndex && 1 <= s.nextIndex[p] <= |s.log| + 1
    && s' == s.(log := s.log + [LogEntry(|s.log| + 1, s.Term(), data)], lastAe := s'.lastAe, inflight := s'.inflight)
    && OthersPending(node, node', id) && node.nextCorrelation <= id < node'.nextCorrelation && id in node'.pending
    && node'.pending[id].to == p && Current(s', p, node'.pending[id].msg)
    && node'.pending[id].msg.prevLogIndex + |node'.pending[id].msg.entries| == |s'.log|
    && node'.pending[id].msg.leaderCommit == s.commitIndex
  }

  lemma ProposeTo(h: Protocol.History, l: NodeId, node: Node, data: Command, p: NodeId) returns (id: nat)
    requires node.engine.role == Leader && p in node.connected && p !in node.engine.inflight && IdsBelow(node)
    requires p in node.engine.members.Voters() && p != node.engine.Id()
    requires p in node.engine.nextIndex && 1 <= node.engine.nextIndex[p] <= |node.engine.log| + 1
    requires EngineOk(h, l, node.engine, false)
    ensures ProposedTo(node, NodeSpec.Propose(node, data).node, data, p, id)
  {
    hide EngineOk, IdsBelow, Execute, Replicate, Outgoing, Current, Membership.Membership.Voters;
    var s := node.engine;
    var s0 := s.(log := s.log + [LogEntry(|s.log| + 1, s.Term(), data)]);
    var r := Replicate(s0);
    var mid := node.(engine := r.engine);
    OthersDistinct(h, l, s, false);
    var msg := ReplicatesTo(s0, p);
    id := FiledTo(mid, r.actions, p, msg);
    var after := Execute(mid, r.actions, None);
    ExecuteTouches(mid, r.actions, None);
    ExecuteFiles(mid, r.actions, None) by { SameIds(node, r.engine); }
    FiledKeeps(mid, after, r.actions, id);
    MarkedIsCurrent(r.engine, after.node.engine, p, msg);
    assert NodeSpec.Propose(node, data).node == after.node;
  }

  /** Replicating to an idle peer queues an append cut at its next index. */
  lemma ReplicatesTo(s: Engine, p: NodeId) returns (msg: Message)
    requires Membership.Membership(s.Others()).Valid() && p !in s.inflight
    requires p in s.members.Voters() && p != s.Id() && p in s.nextIndex && 1 <= s.nextIndex[p] <= |s.log| + 1
    ensures var r := Replicate(s);
            && r.engine == s.(lastAe := r.engine.lastAe, inflight := r.engine.inflight)
            && Outgoing(r.engine, r.actions) && Send(p, msg) in r.actions && Current(r.engine, p, msg)
    ensures msg.prevLogIndex + |msg.entries| == |s.log| && msg.leaderCommit == s.commitIndex
  {
    hide ReplicateTo, Membership.Membership.Voters;
    var r := Replicate(s);
    ReplicateIsSending(s, s.Others());
    ReplicateTouches(s, s.Others());
    SendingIsOutgoing(s, r.engine, r.actions);
    msg := BuildAppendEntries(s, p).value;
    OtherVoter(s, p);
    ReplicationReaches(s, s.Others(), p, msg);
    hide Sending;
    SentIsLast(r.engine, r.actions, p, msg);
  }

  lemma MarkedIsCurrent(s: Engine, s': Engine, p: NodeId, msg: Message)
    requires Current(s, p, msg) && s' == s.(inflight := s'.inflight) && p in s'.inflight
    ensures Current(s', p, msg) && msg.AppendEntries?
  {
  }

  lemma OtherVoter(s: Engine, p: NodeId)
    requires p in s.members.Voters() && p != s.Id()
    ensures p in s.Others()
  {
  }

  lemma SameIds(node: Node, s: Engine)
    requires IdsBelow(node)
    ensures IdsBelow(node.(engine := s))
  {
  }

  lemma FiledKeeps(n: Node, r: Effect, actions: seq<Action>, id: nat)
    requires Filed(n, r, actions) && id in r.node.pending
    ensures OthersPending(n, r.node, id) && id < r.node.nextCorrelation
  {
  }

  lemma SentIsLast(s: Engine, actions: seq<Action>, p: NodeId, msg: Message)
    requires Outgoing(s, actions) && Send(p, msg) in actions && msg.AppendEntries?
    ensures p in s.lastAe && s.lastAe[p] == (msg.prevLogIndex, |msg.entries|) && p in s.inflight
  {
    var i :| 0 <= i < |actions| && actions[i] == Send(p, msg);
    assert OutgoingOne(s, actions[i]);
  }

  /** The leader takes a step by itself; nobody else moves and nothing said is lost. */
  ghost predicate SteppedAlone(c: Cluster, c': Cluster, l: NodeId, node: Node) {
    && l in c.nodes && c'.nodes == c.nodes[l := node] && c'.incarnation == c.incarnation
    && c.requests <= c'.requests && c.replies <= c'.replies
    && (forall n :: n in c.applied && n != l ==> n in c'.applied && c'.applied[n] == c.applied[n])
  }

  lemma StepAlone(b: Cluster, c: Cluster, e: Event)
    requires Enabled(c, e) && !e.Restart? && Follows(b, c, Anything)
    ensures SteppedAlone(c, Step(c, e), Actor(e), React(c, e).node) && Follows(b, Step(c, e), Anything)
  {
    FollowsNext(b, c, e, Anything);
    hide React, Follows;
  }

  lemma ProposeEvent(b: Cluster, c: Cluster, l: NodeId, data: Command, p: NodeId) returns (c': Cluster, id: nat)
    requires Tracks(c, l, p) && p in c.nodes[l].connected && p !in EngineOf(c, l).inflight
    requires Reached(b, Anything) && Follows(b, c, Anything)
    ensures Follows(b, c', Anything) && l in c'.nodes && SteppedAlone(c, c', l, c'.nodes[l])
    ensures ProposedTo(c.nodes[l], c'.nodes[l], data, p, id)
  {
    hide Coupled, Reached, Follows, NodeSpec.Propose, NodeOk, EngineOk, NotStuck, IdsBelow, Protocol.Inv;
    FutureIsReached(b, c, Anything);
    var h := ReachedCoupled(c, Anything);
    NodeIsOk(c, h, l, false);
    NodeListed(c, h, l);
    BooksAreOrdered(c, l, p);
    PeerIsVoter(c, h, l, p);
    id := ProposeTo(h, l, c.nodes[l], data, p);
    var e := Propose(l, data);
    assert Enabled(c, e);
    StepAlone(b, c, e);
    c' := Step(c, e);
    assert React(c, e) == NodeSpec.Propose(c.nodes[l], data);
    hide React, ProposedTo;
  }

  lemma PeerIsVoter(c: Cluster, h: Protocol.History, l: NodeId, p: NodeId)
    requires Tracks(c, l, p) && Coupled(c, h, false)
    ensures p in EngineOf(c, l).members.Voters() && EngineOf(c, l).Id() == l
  {
    hide Coupled, NodeOk, EngineOk, NotStuck, Protocol.Inv;
    NodeIsOk(c, h, l, false);
    NodeListed(c, h, p);
    VotersKnown(h, l, EngineOf(c, l), p);
  }

  lemma VotersKnown(h: Protocol.History, l: NodeId, s: Engine, p: NodeId)
    requires EngineOk(h, l, s, false) && p in h.voters
    ensures p in s.members.Voters() && s.Id() == l
  {
    hide DurableOk, RoleOk, BooksOk, Commitment.Secure;
    assert p in (set v | v in s.config.voters);
  }

  // ---------------------------------------------------------------- a due tick reaches a connected peer

  /** What a heartbeat does to the leader's node, as far as `p` is concerned. */
  ghost predicate BeatenTo(node: Node, node': Node, p: NodeId, id: nat) {
    var s, s' := node.engine, node'.engine;
    && s' == s.(heartbeatDeadline := s'.heartbeatDeadline, lastAe := s'.lastAe, inflight := s'.inflight)
    && OthersPending(node, node', id) && node.nextCorrelation <= id < node'.nextCorrelation && id in node'.pending
    && node'.pending[id].to == p && Current(s', p, node'.pending[id].msg)
    && node'.pending[id].msg.leaderCommit == s.commitIndex
  }

  lemma BeatTo(h: Protocol.History, l: NodeId, node: Node, now: Instant, p: NodeId) returns (id: nat)
    requires node.engine.role == Leader && p in node.connected && p !in node.engine.inflight && IdsBelow(node)
    requires now >= node.engine.heartbeatDeadline && now >= node.engine.NextDeadline()
    requires p in node.engine.members.Voters() && p != node.engine.Id()
    requires p in node.engine.nextIndex && 1 <= node.engine.nextIndex[p] <= |node.engine.log| + 1
    requires EngineOk(h, l, node.engine, false)
    ensures BeatenTo(node, NodeSpec.Tick(node, now).node, p, id)
  {
    hide EngineOk, IdsBelow, Execute, Replicate, Outgoing, Current, Membership.Membership.Voters;
    var s := node.engine;
    var r := Replicate(s);
    var s1 := r.engine.(heartbeatDeadline := now + s.config.heartbeatInterval);
    var mid := node.(engine := s1);
    OthersDistinct(h, l, s, false);
    var msg := ReplicatesTo(s, p);
    BeatenIsOutgoing(r.engine, s1, r.actions);
    id := FiledTo(mid, r.actions, p, msg);
    var after := Execute(mid, r.actions, None);
    ExecuteTouches(mid, r.actions, None);
    ExecuteFiles(mid, r.actions, None) by { SameIds(node, s1); }
    FiledKeeps(mid, after, r.actions, id);
    CurrentAfterBeat(r.engine, s1, p, msg);
    MarkedIsCurrent(s1, after.node.engine, p, msg);
    assert NodeSpec.Tick(node, now).node == after.node;
  }

  lemma BeatenIsOutgoing(s: Engine, s': Engine, actions: seq<Action>)
    requires Outgoing(s, actions) && s' == s.(heartbeatDeadline := s'.heartbeatDeadline)
    ensures Outgoing(s', actions)
  {
    forall i | 0 <= i < |actions|
      ensures OutgoingOne(s', actions[i])
    {
      assert OutgoingOne(s, actions[i]);
    }
  }

  lemma CurrentAfterBeat(s: Engine, s': Engine, p: NodeId, msg: Message)
    requires Current(s, p, msg) && s' == s.(heartbeatDeadline := s'.heartbeatDeadline)
    ensures Current(s', p, msg)
  {
  }

  /** A heartbeat is always possible, and every guard permits it. */
  lemma BeatEvent(c: Cluster, l: NodeId, p: NodeId, g: Guard) returns (c': Cluster, id: nat)
    requires Tracks(c, l, p) && p in c.nodes[l].connected && p !in EngineOf(c, l).inflight && Reached(c, Anything)
    ensures Follows(c, c', g) && l in c'.nodes && SteppedAlone(c, c', l, c'.nodes[l])
    ensures BeatenTo(c.nodes[l], c'.nodes[l], p, id)
  {
    hide Coupled, Reached, Follows, NodeSpec.Tick, NodeOk, EngineOk, NotStuck, IdsBelow, Protocol.Inv, Permits;
    var h := ReachedCoupled(c, Anything);
    NodeIsOk(c, h, l, false);
    NodeListed(c, h, l);
    BooksAreOrdered(c, l, p);
    PeerIsVoter(c, h, l, p);
    var now := EngineOf(c, l).heartbeatDeadline;
    id := BeatTo(h, l, c.nodes[l], now, p);
    var e := Event.Tick(l, now);
    assert Enabled(c, e);
    QuietEvent(c, e, g);
    StaysPut(c, g);
    FollowsNext(c, c, e, g);
    StaysPut(c, Anything);
    StepAlone(c, c, e);
    c' := Step(c, e);
    assert React(c, e) == NodeSpec.Tick(c.nodes[l], now);
    hide React, BeatenTo;
  }

  // ---------------------------------------------------------------- all idle peers at once

  predicate Idle(c: Cluster, l: NodeId, p: NodeId) {
    Tracks(c, l, p) && p in c.nodes[l].connected && p !in EngineOf(c, l).inflight
  }

  lemma PeerFacts(c: Cluster, h: Protocol.History, l: NodeId, p: NodeId)
    requires Tracks(c, l, p) && Reached(c, Anything) && Coupled(c, h, false)
    ensures var s := EngineOf(c, l);
            && p in s.members.Voters() && s.Id() == l && EngineOk(h, l, s, false) && IdsBelow(c.nodes[l])
            && p in s.nextIndex && 1 <= s.nextIndex[p] <= |s.log| + 1
  {
    hide Coupled, Reached, NodeOk, EngineOk, NotStuck, IdsBelow, Protocol.Inv;
    NodeIsOk(c, h, l, false);
    BooksAreOrdered(c, l, p);
    PeerIsVoter(c, h, l, p);
  }

  lemma BeatAll(c: Cluster, l: NodeId) returns (c': Cluster)
    requires Leads(c, l) && Reached(c, Anything)
    ensures Follows(c, c', Anything) && l in c'.nodes && SteppedAlone(c, c', l, c'.nodes[l])
    ensures c'.nodes[l].connected == c.nodes[l].connected
    ensures var s, s' := EngineOf(c, l), EngineOf(c', l);
            s' == s.(heartbeatDeadline := s'.heartbeatDeadline, lastAe := s'.lastAe, inflight := s'.inflight)
    ensures forall p :: Idle(c, l, p) ==> exists id :: BeatenTo(c.nodes[l], c'.nodes[l], p, id)
  {
    hide Coupled, Reached, Follows, NodeOk, EngineOk, NotStuck, IdsBelow, Protocol.Inv, BeatenTo, ReplicateTo, Execute;
    var h := ReachedCoupled(c, Anything);
    NodeIsOk(c, h, l, false);
    NodeListed(c, h, l);
    var node, now := c.nodes[l], EngineOf(c, l).heartbeatDeadline;
    forall p | Idle(c, l, p)
      ensures exists id :: BeatenTo(node, NodeSpec.Tick(node, now).node, p, id)
    {
      PeerFacts(c, h, l, p);
      var id := BeatTo(h, l, node, now, p);
    }
    ReplicateTouches(node.engine, node.engine.Others());
    var r := EngineSpec.Tick(node.engine, now);
    ExecuteTouches(node.(engine := r.engine), r.actions, None);
    ExecuteFiles(node.(engine := r.engine), r.actions, None) by { SameIds(node, r.engine); }
    var e := Event.Tick(l, now);
    StaysPut(c, Anything);
    StepAlone(c, c, e);
    c' := Step(c, e);
  }

  lemma ProposeAll(c: Cluster, l: NodeId, data: Command) returns (c': Cluster)
    requires Leads(c, l) && Reached(c, Anything)
    ensures Follows(c, c', Anything) && l in c'.nodes && SteppedAlone(c, c', l, c'.nodes[l])
    ensures c'.nodes[l].connected == c.nodes[l].connected
    ensures var s, s' := EngineOf(c, l), EngineOf(c', l);
            s' ==
              s.(log := s.log + [LogEntry(|s.log| + 1, s.Term(), data)], lastAe := s'.lastAe, inflight := s'.inflight)
    ensures forall p :: Idle(c, l, p) ==> exists id :: ProposedTo(c.nodes[l], c'.nodes[l], data, p, id)
  {
    hide Coupled, Reached, Follows, NodeOk, EngineOk, NotStuck, IdsBelow, Protocol.Inv, ProposedTo, ReplicateTo,
         Execute;
    var h := ReachedCoupled(c, Anything);
    NodeIsOk(c, h, l, false);
    NodeListed(c, h, l);
    var node := c.nodes[l];
    forall p | Idle(c, l, p)
      ensures exists id :: ProposedTo(node, NodeSpec.Propose(node, data).node, data, p, id)
    {
      PeerFacts(c, h, l, p);
      var id := ProposeTo(h, l, node, data, p);
    }
    var s0 := node.engine.(log := LogOf(c, l) + [LogEntry(|LogOf(c, l)| + 1, TermOf(c, l), data)]);
    ReplicateTouches(s0, s0.Others());
    var r := Replicate(s0);
    ExecuteTouches(node.(engine := r.engine), r.actions, None);
    ExecuteFiles(node.(engine := r.engine), r.actions, None) by { SameIds(node, r.engine); }
    var e := Event.Propose(l, data);
    StaysPut(c, Anything);
    StepAlone(c, c, e);
    c' := Step(c, e);
  }
}
