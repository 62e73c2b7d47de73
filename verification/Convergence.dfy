/** Catching up as events of the cluster: an append is delivered, its answer is delivered, and so on, until the peer
    holds the leader's whole log and the leader knows it. */
module Convergence {
  import opened Types
  import opened LogSpec
  import opened EngineSpec
  import opened NodeSpec
  import opened Cluster
  import opened Reachability
  import opened Progress
  import opened Coupling
  import opened Execution
  import opened Events
  import opened Safety
  import opened Tenure
  import opened Guarantees
  import opened CatchUp
  import opened Filing
  import Applying
  import Protocol
  import Commitment

  /** Append `id` of leader `l` to the connected peer `p` is outstanding, and the pair can go on from there. */
  ghost predicate Linked(c: Cluster, l: NodeId, p: NodeId, id: nat) {
    && Reached(c, Anything) && Replicating(c, l, id) && c.nodes[l].pending[id].to == p && p in c.nodes[l].connected
    && Ready(LinkOf(c, l, id), p)
  }

  // ---------------------------------------------------------------- the peer's half

  lemma PeerShape(f: Engine, from: NodeId, msg: Message, now: Instant) returns (before: seq<Action>, answer: Message)
    requires msg.AppendEntries? && msg.term >= f.Term()
    ensures var r := HandleRpc(f, from, msg, now);
            r.actions == before + [Send(from, answer)] && AnswerOf(r) == Some(answer) && r.engine.role == Follower
    ensures forall a :: a in before ==> !a.Send? && !a.Broadcast?
  {
    hide Merge, Slice;
    var r := HandleRpc(f, from, msg, now);
    var last := |r.actions| - 1;
    before, answer := r.actions[..last], r.actions[last].msg;
    assert r.actions == before + [r.actions[last]];
  }

  /** The append reaches the peer, and the answer is on its way. */
  lemma DeliverAppend(c: Cluster, h: Protocol.History, q: Envelope, now: Instant, g: Guard)
    returns (c': Cluster, answer: Message)
    requires q in c.requests && q.msg.AppendEntries? && q.dst in c.nodes && q.src != q.dst
    requires q.msg.term >= TermOf(c, q.dst) && Coupled(c, h, false)
    ensures Follows(c, c', g)
    ensures var r := HandleRpc(EngineOf(c, q.dst), q.src, q.msg, now);
            && AnswerOf(r) == Some(answer) && c'.incarnation == c.incarnation
            && c'.nodes == c.nodes[q.dst := c.nodes[q.dst].(engine := r.engine)]
    ensures Reply(q, answer) in c'.replies && c.replies <= c'.replies && q.dst in c.applied
    ensures var r := HandleRpc(EngineOf(c, q.dst), q.src, q.msg, now);
            c'.applied == c.applied[q.dst := c.applied[q.dst] + AppliesOf(r.actions)]
  {
    hide Coupled, HandleRpc, Execute, Follows, IdsBelow, NodeOk, EngineOk, NotStuck, Protocol.Inv, AppliedBy, AppliesOf;
    var e := DeliverRequest(q, now);
    NodeListed(c, h, q.dst);
    NodeIsOk(c, h, q.dst, false);
    assert Enabled(c, e);
    var node := c.nodes[q.dst];
    var r := HandleRpc(node.engine, q.src, q.msg, now);
    var before;
    before, answer := PeerShape(node.engine, q.src, q.msg, now);
    ExecuteAnswer(node.(engine := r.engine), before, q.src, answer);
    ExecuteFiles(node.(engine := r.engine), r.actions, Some(q.src)) by { SameIds(node, r.engine); }
    assert SendResponse(q.src, answer).SendResponse?;
    assert React(c, e).node == node.(engine := r.engine);
    assert SendResponse(q.src, answer) in React(c, e).outputs;
    hide React;
    c' := Step(c, e);
    StaysPut(c, g);
    FollowsNext(c, c, e, g);
  }

  // ---------------------------------------------------------------- the leader's half

  /** The node with the next append, if there is one, filed. */
  function Sent(n: Node, p: NodeId, next: Option<Message>): Node {
    if next.None? then n
    else n.(pending := n.pending[n.nextCorrelation := Pending(p, KindOf(next.value), next.value)],
            nextCorrelation := n.nextCorrelation + 1)
  }

  lemma {:induction false} ExecuteSent(n: Node, pre: seq<Action>, sends: seq<Action>, p: NodeId)
    requires forall a :: a in pre ==> a.Apply?
    requires sends == [] || (|sends| == 1 && sends[0].Send? && sends[0].to == p && p in n.connected)
    ensures Execute(n, pre + sends, None).node == Sent(n, p, NextAppend(pre + sends))
  {
    ExecuteAfterApplies(n, pre, sends);
    if sends == [] {
      assert pre + sends == pre;
      assert pre != [] ==> pre[|pre| - 1] in pre;
    } else {
      assert sends == [Send(p, sends[0].msg)] && sends[1..] == [];
      assert (pre + sends)[|pre + sends| - 1] == sends[0];
    }
  }

  /** A leader's response to an answer: it may apply something, and then sends at most one append to that peer. */
  lemma AnswerShape(s: Engine, p: NodeId, msg: Message, now: Instant) returns (pre: seq<Action>, sends: seq<Action>)
    requires s.role == Leader && msg.AppendEntriesResp? && msg.term == s.Term() && p in s.lastAe
    ensures HandleRpc(s, p, msg, now).actions == pre + sends && forall a :: a in pre ==> a.Apply?
    ensures sends == [] || (|sends| == 1 && sends[0].Send? && sends[0].to == p)
  {
    if msg.success {
      var r1 := MaybeCommit(Credit(s, p));
      CommitOnlyApplied(Credit(s, p));
      hide MaybeCommit, BuildAppendEntries;
      pre := r1.actions;
      sends := if NextOf(r1.engine, p) <= |r1.engine.log| then SendAppendEntriesTo(r1.engine, p).actions else [];
      assert r1.actions + [] == r1.actions;
    } else {
      hide BuildAppendEntries;
      pre, sends := [], HandleRpc(s, p, msg, now).actions;
      assert [] + sends == sends;
    }
  }

  /** A success is credited with what the last append covered, whatever append it answers. */
  lemma SuccessCredits(s: Engine, p: NodeId, answer: Message, now: Instant)
    requires s.role == Leader && answer.AppendEntriesResp? && answer.success && answer.term == s.Term() && p in s.lastAe
    ensures var s' := HandleRpc(s, p, answer, now).engine;
            s'.role == Leader && s'.Term() == s.Term() && MatchOf(s', p) >= s.lastAe[p].0 + s.lastAe[p].1
  {
    CommitTouches(Credit(s, p));
    hide MaybeCommit, BuildAppendEntries;
  }

  /** The answer reaches the leader, which sends what follows from it. */
  lemma DeliverAnswer(c: Cluster, h: Protocol.History, q: Envelope, answer: Message, now: Instant, g: Guard)
    returns (c': Cluster)
    requires Leads(c, q.src) && q.src in c.incarnation && q.incarnation == c.incarnation[q.src]
    requires Reply(q, answer) in c.replies
    requires q.correlation in c.nodes[q.src].pending && c.nodes[q.src].pending[q.correlation].to == q.dst
    requires var s := EngineOf(c, q.src);
             && answer.AppendEntriesResp? && answer.term == s.Term() && q.dst in s.lastAe
             && q.dst in c.nodes[q.src].connected
             && (g == Earned ==> Remembered(s, c.nodes[q.src].pending[q.correlation]))
    requires g != Acked && Coupled(c, h, false)
    ensures Follows(c, c', g)
    ensures var node := c.nodes[q.src]; var r := HandleRpc(node.engine, q.dst, answer, now);
            var mid := node.(engine := r.engine, pending := node.pending - {q.correlation});
            c'.nodes == c.nodes[q.src := Sent(mid, q.dst, NextAppend(r.actions))] && c'.incarnation == c.incarnation
    ensures c.replies <= c'.replies
  {
    hide Coupled, HandleRpc, Execute, Follows, NextAppend;
    var e := DeliverReply(Reply(q, answer), now);
    NodeListed(c, h, q.src);
    assert Enabled(c, e);
    var node := c.nodes[q.src];
    var r := HandleRpc(node.engine, q.dst, answer, now);
    var mid := node.(engine := r.engine, pending := node.pending - {q.correlation});
    var pre, sends := AnswerShape(node.engine, q.dst, answer, now);
    ExecuteSent(mid, pre, sends, q.dst);
    assert React(c, e).node == Sent(mid, q.dst, NextAppend(r.actions));
    hide React, Sent;
    c' := Step(c, e);
    StaysPut(c, g);
    FollowsNext(c, c, e, g);
  }

  // ---------------------------------------------------------------- one exchange

  /** Nobody but `l` and `p` has moved, and of `p` only the engine; no connection has changed. */
  ghost predicate PairOnly(c: Cluster, c': Cluster, l: NodeId, p: NodeId) {
    && l in c.nodes && p in c.nodes && c'.nodes.Keys == c.nodes.Keys && c'.incarnation == c.incarnation
    && (forall n :: n in c.nodes && n != l && n != p ==> c'.nodes[n] == c.nodes[n])
    && c'.nodes[l].connected == c.nodes[l].connected && c'.nodes[p] == c.nodes[p].(engine := c'.nodes[p].engine)
  }

  lemma PairStill(a: Cluster, b: Cluster, c: Cluster, l: NodeId, p: NodeId)
    requires PairOnly(a, b, l, p) && PairOnly(b, c, l, p)
    ensures PairOnly(a, c, l, p)
  {
  }

  /** `c'` is `c` after an exchange on the link of `id`; `next` is the append that is outstanding now, if one is. */
  ghost predicate Exchanged(c: Cluster, c': Cluster, l: NodeId, p: NodeId, id: nat, next: nat, k: Link) {
    && PairOnly(c, c', l, p) && p != l && EngineOf(c', l) == k.leader && EngineOf(c', p) == k.peer
    && OthersPending(c.nodes[l], c'.nodes[l], id) && c.nodes[l].nextCorrelation <= next
    && (k.outstanding.Some? ==>
          next in c'.nodes[l].pending
          && c'.nodes[l].pending[next] == Pending(p, KindOf(k.outstanding.value), k.outstanding.value))
  }

  lemma LinkFacts(c: Cluster, l: NodeId, p: NodeId, id: nat)
    requires Linked(c, l, p, id)
    ensures p != l && p in c.nodes && Leads(c, l) && TermOf(c, p) <= TermOf(c, l) && p in EngineOf(c, l).lastAe
    ensures var msg := c.nodes[l].pending[id].msg; msg.AppendEntries? && msg.term == TermOf(c, l)
    ensures Remembered(EngineOf(c, l), c.nodes[l].pending[id])
  {
    hide Reached, Matching;
  }

  lemma OneExchange(c: Cluster, l: NodeId, p: NodeId, id: nat, now: Instant, g: Guard)
    returns (c': Cluster, next: nat)
    requires Linked(c, l, p, id) && g != Acked
    ensures Follows(c, c', g) && Exchanged(c, c', l, p, id, next, Exchange(LinkOf(c, l, id), p, now))
  {
    hide Coupled, Reached, Ready, HandleRpc, Follows, NodeOk, EngineOk, NotStuck, Protocol.Inv, RequestOk;
    hide MsgOk, IdsBelow, AnswerOf, NextAppend;
    LinkFacts(c, l, p, id);
    var h := ReachedCoupled(c, Anything);
    NodeIsOk(c, h, l, false);
    LeaderIs(h, l, EngineOf(c, l));
    NodeListed(c, h, l);
    var q := PendingRequest(c, h, l, id);
    var c1, answer := DeliverAppend(c, h, q, now, g);
    FollowsUnguarded(c, c1, g);
    FutureIsReached(c, c1, Anything);
    var h1 := ReachedCoupled(c1, Anything);
    PeerAnswers(EngineOf(c, p), l, q.msg, now);
    c' := DeliverAnswer(c1, h1, q, answer, now, g);
    FollowsOn(c, c1, c', g);
    next := c.nodes[l].nextCorrelation;
    var r := HandleRpc(EngineOf(c, l), p, answer, now);
    SentKeeps(c.nodes[l], r.engine, id, p, NextAppend(r.actions));
  }

  lemma SentKeeps(node: Node, s: Engine, id: nat, p: NodeId, next: Option<Message>)
    requires IdsBelow(node)
    ensures var node' := Sent(node.(engine := s, pending := node.pending - {id}), p, next);
            && OthersPending(node, node', id) && node'.engine == s
            && (next.Some? ==> var n := node.nextCorrelation;
                               n in node'.pending && node'.pending[n] == Pending(p, KindOf(next.value), next.value))
  {
  }

  // ---------------------------------------------------------------- until the peer has caught up

  /** `p` holds all of `l`'s log and nothing is on its way to it; `l` still leads the term and has the log it had. */
  ghost predicate Converged(c: Cluster, c': Cluster, l: NodeId, p: NodeId) {
    && Leads(c, l) && Leads(c', l) && p in c'.nodes && p != l
    && TermOf(c', l) == TermOf(c, l) && LogOf(c', l) == LogOf(c, l)
    && CaughtUp(Link(EngineOf(c', l), EngineOf(c', p), None), p)
  }

  lemma NextLinked(c: Cluster, c': Cluster, l: NodeId, p: NodeId, id: nat, next: nat, k: Link)
    requires Linked(c, l, p, id) && Exchanged(c, c', l, p, id, next, k) && Ready(k, p) && Reached(c', Anything)
    ensures Linked(c', l, p, next) && LinkOf(c', l, next) == k
  {
    hide Reached, Matching;
  }

  lemma {:induction false} ExchangesConverge(c: Cluster, l: NodeId, p: NodeId, id: nat, now: Instant, g: Guard)
    returns (c': Cluster)
    requires Linked(c, l, p, id) && g != Acked
    ensures Follows(c, c', g) && Converged(c, c', l, p)
    ensures OthersPending(c.nodes[l], c'.nodes[l], id) && PairOnly(c, c', l, p)
    decreases Budget(LinkOf(c, l, id), p)
  {
    hide Reached, Follows, Ready, Exchange, Accepts, CaughtUp, Linked, HandleRpc;
    LinkFacts(c, l, p, id);
    assert Replicating(c, l, id) && c.nodes[l].pending[id].to == p
           && Ready(LinkOf(c, l, id), p) && Reached(c, Anything) by {
      LinkParts(c, l, p, id);
    }
    var k := LinkOf(c, l, id);
    var k' := Exchange(k, p, now);
    GapIsPositive(k, p);
    var c1, next := OneExchange(c, l, p, id, now, g);
    FollowsUnguarded(c, c1, g);
    FutureIsReached(c, c1, Anything);
    if Accepts(k.peer, k.outstanding.value) {
      SuccessMovesOn(k, p, now);
    } else {
      RejectionStepsBack(k, p, now);
    }
    if Accepts(k.peer, k.outstanding.value) && ReachesEnd(k) {
      c' := c1;
      CaughtUpLeads(k', p);
      return;
    }
    NextLinked(c, c1, l, p, id, next, k');
    c' := ExchangesConverge(c1, l, p, next, now, g);
    FollowsOn(c, c1, c', g);
    OthersStill(c.nodes[l], c1.nodes[l], c'.nodes[l], id, next);
    PairStill(c, c1, c', l, p);
  }

  lemma LinkParts(c: Cluster, l: NodeId, p: NodeId, id: nat)
    requires Linked(c, l, p, id)
    ensures Replicating(c, l, id) && c.nodes[l].pending[id].to == p && Ready(LinkOf(c, l, id), p)
    ensures Reached(c, Anything)
  {
    hide Reached, Ready;
  }

  lemma CaughtUpLeads(k: Link, p: NodeId)
    requires CaughtUp(k, p)
    ensures k.leader.role == Leader && k.outstanding == None
  {
  }

  lemma OthersStill(a: Node, b: Node, c: Node, id: nat, next: nat)
    requires OthersPending(a, b, id) && OthersPending(b, c, next) && a.nextCorrelation <= next
    ensures OthersPending(a, c, id)
  {
  }

  /** In a leadership that began clear of a connected peer that is not in a later term, a heartbeat, if the peer is
      idle, and deliveries alone leave the peer with the leader's whole log and the leader knowing it. */
  lemma PairConverges(c: Cluster, l: NodeId, p: NodeId, g: Guard) returns (c': Cluster)
    requires Tracks(c, l, p) && p in c.nodes[l].connected && TermOf(c, p) <= TermOf(c, l) && BeganClear(c, l, p)
    requires g != Acked
    ensures Follows(c, c', g) && Converged(c, c', l, p) && PairOnly(c, c', l, p)
  {
    hide Reached, Follows, BeganClear, Converged, PairOnly, Linked, BeatenTo, SteppedAlone;
    BeganClearReached(c, l, p);
    if p in EngineOf(c, l).inflight {
      NoPeerIsStuck(c, l, p);
      var id :| AwaitsAppend(c.nodes[l], p, id);
      ClearIsLinked(c, l, p, id);
      c' := ExchangesConverge(c, l, p, id, 0, g);
    } else {
      var c1, id := BeatEvent(c, l, p, g);
      FollowsUnguarded(c, c1, g);
      FutureIsReached(c, c1, Anything);
      BeatenLeads(c, c1, l, p, id);
      assert BeganClear(c1, l, p) by { BeganClearOn(c, c1, l, p); }
      ClearIsLinked(c1, l, p, id);
      c' := ExchangesConverge(c1, l, p, id, 0, g);
      FollowsOn(c, c1, c', g);
      ConvergedFrom(c, c1, c', l, p);
      PairStill(c, c1, c', l, p);
    }
  }

  lemma BeganClearReached(c: Cluster, l: NodeId, p: NodeId)
    requires BeganClear(c, l, p)
    ensures Reached(c, Anything) && Leads(c, l)
  {
    hide Reached, Follows;
    var b :| Reached(b, Anything) && SameLeadership(b, c, l) && NothingPending(b.nodes[l], p)
             && MatchOf(EngineOf(b, l), p) == 0;
    FutureIsReached(b, c, Anything);
  }

  lemma ClearIsLinked(c: Cluster, l: NodeId, p: NodeId, id: nat)
    requires Tracks(c, l, p) && p in c.nodes[l].connected && TermOf(c, p) <= TermOf(c, l) && BeganClear(c, l, p)
    requires id in c.nodes[l].pending && c.nodes[l].pending[id].to == p && c.nodes[l].pending[id].msg.AppendEntries?
    ensures Linked(c, l, p, id)
  {
    hide Reached, BeganClear, Ready;
    BeganClearReached(c, l, p);
    ReachedIsReady(c, l, p, id);
  }

  lemma BeatenLeads(c: Cluster, c': Cluster, l: NodeId, p: NodeId, id: nat)
    requires Tracks(c, l, p) && TermOf(c, p) <= TermOf(c, l)
    requires l in c'.nodes && SteppedAlone(c, c', l, c'.nodes[l]) && BeatenTo(c.nodes[l], c'.nodes[l], p, id)
    ensures Tracks(c', l, p) && TermOf(c', p) <= TermOf(c', l) && TermOf(c', l) == TermOf(c, l)
    ensures LogOf(c', l) == LogOf(c, l) && c'.nodes[l].connected == c.nodes[l].connected && PairOnly(c, c', l, p)
    ensures id in c'.nodes[l].pending && c'.nodes[l].pending[id].to == p
    ensures c'.nodes[l].pending[id].msg.AppendEntries?
  {
  }

  lemma ConvergedFrom(a: Cluster, b: Cluster, c: Cluster, l: NodeId, p: NodeId)
    requires Converged(b, c, l, p) && Leads(a, l) && TermOf(b, l) == TermOf(a, l) && LogOf(b, l) == LogOf(a, l)
    ensures Converged(a, c, l, p)
  {
    hide CaughtUp;
  }

  // ---------------------------------------------------------------- the commit index reaches the peer

  lemma EmptyAppendApplies(f: Engine, from: NodeId, msg: Message, now: Instant)
    requires msg.AppendEntries? && msg.entries == [] && msg.term >= f.Term() && Accepts(f, msg)
    requires f.lastApplied == f.commitIndex
    ensures var r := HandleRpc(f, from, msg, now);
            var commit := Max(f.commitIndex, Min(msg.leaderCommit, msg.prevLogIndex));
            && r.engine.log == f.log && r.engine.commitIndex == commit == r.engine.lastApplied
            && (commit <= |f.log| ==> AppliesOf(r.actions) == f.log[f.commitIndex..commit])
  {
    EmptyAppend(f, from, msg, now);
    var commit := Max(f.commitIndex, Min(msg.leaderCommit, msg.prevLogIndex));
    var r1 := FollowLeader(f, msg.term, msg.leader, now);
    assert Merge(f.log, msg.prevLogIndex, []) == f.log;
    hide Merge;
    var r2 := AdvanceCommit(r1.engine.(log := f.log), msg.leaderCommit, msg.prevLogIndex);
    var answer := Send(from, AppendEntriesResp(msg.term, true, msg.prevLogIndex));
    assert HandleRpc(f, from, msg, now).actions == r1.actions + r2.actions + [answer];
    assert AppliesOf(r1.actions) == [];
    assert commit <= |f.log| ==> AppliesOf(r2.actions) == f.log[f.commitIndex..commit];
    AppliesOfAnswer(r1.actions + r2.actions, answer);
    AppliesOfConcat(r1.actions, r2.actions);
  }

  /** The peer is connected, idle and up to date. */
  ghost predicate UpToDateWith(c: Cluster, l: NodeId, p: NodeId) {
    && Tracks(c, l, p) && p in c.nodes[l].connected && Reached(c, Anything)
    && CaughtUp(Link(EngineOf(c, l), EngineOf(c, p), None), p)
  }

  lemma CaughtUpFacts(c: Cluster, l: NodeId, p: NodeId)
    requires UpToDateWith(c, l, p)
    ensures TermOf(c, p) <= TermOf(c, l) && p !in EngineOf(c, l).inflight && LogOf(c, l) <= LogOf(c, p)
    ensures var s := EngineOf(c, l); p in s.nextIndex && s.nextIndex[p] == |s.log| + 1
  {
    hide Reached;
  }

  lemma BeatenSaysCommit(c: Cluster, c': Cluster, l: NodeId, p: NodeId, id: nat)
    requires l in c.nodes && p in c.nodes && l in c'.nodes && BeatenTo(c.nodes[l], c'.nodes[l], p, id)
    requires LogOf(c, l) <= LogOf(c, p)
    requires var s := EngineOf(c, l); p in s.nextIndex && s.nextIndex[p] == |s.log| + 1
    ensures var msg := c'.nodes[l].pending[id].msg;
            && msg.AppendEntries? && msg.entries == [] && msg.term == TermOf(c, l)
            && msg.prevLogIndex == |LogOf(c, l)| && msg.leaderCommit == CommitOf(c, l) && Accepts(EngineOf(c, p), msg)
  {
    var log := LogOf(c, l);
    if |log| > 0 {
      assert LogOf(c, p)[|log| - 1] == log[|log| - 1];
    }
  }

  /** One heartbeat brings a peer that is up to date the leader's commit index, and it applies exactly the entries up to
      there that it had not applied. */
  lemma CommitReachesPeer(c: Cluster, l: NodeId, p: NodeId, g: Guard) returns (c': Cluster)
    requires UpToDateWith(c, l, p) && CommitOf(c, l) <= |LogOf(c, l)| && p in c.applied
    ensures Follows(c, c', g) && p in c'.nodes && p in c'.applied && LogOf(c', p) == LogOf(c, p)
    ensures var commit := Max(CommitOf(c, p), CommitOf(c, l));
            && CommitOf(c', p) == commit == EngineOf(c', p).lastApplied
            && (CommitOf(c, p) < commit ==>
                  c'.applied[p] == c.applied[p] + LogOf(c, l)[CommitOf(c, p)..commit])
  {
    hide Reached, Follows, CaughtUp, BeatenTo, HandleRpc, AppliesOf, Coupled, Protocol.Inv, RequestOk;
    CaughtUpFacts(c, l, p);
    var c1, id := BeatEvent(c, l, p, g);
    FollowsUnguarded(c, c1, g);
    FutureIsReached(c, c1, Anything);
    BeatenLeads(c, c1, l, p, id);
    BeatenSaysCommit(c, c1, l, p, id);
    var h := ReachedCoupled(c1, Anything);
    NodeListed(c1, h, l);
    var q := PendingRequest(c1, h, l, id);
    Applying.AppliedInOrder(c1, p) by { NodeListed(c1, h, p); }
    var answer;
    EmptyAppendApplies(EngineOf(c, p), l, q.msg, 0);
    c', answer := DeliverAppend(c1, h, q, 0, g);
    FollowsOn(c, c1, c', g);
  }

  // ---------------------------------------------------------------- any number of peers

  /** The leader can reach `p`, and nothing stands in the way. */
  ghost predicate Open(c: Cluster, l: NodeId, p: NodeId) {
    Tracks(c, l, p) && p in c.nodes[l].connected && TermOf(c, p) <= TermOf(c, l) && BeganClear(c, l, p)
  }

  /** `p` holds all of the leader's log, and the leader knows it. */
  ghost predicate InSync(c: Cluster, l: NodeId, p: NodeId) {
    Tracks(c, l, p) && MatchOf(EngineOf(c, l), p) == |LogOf(c, l)| && LogOf(c, l) <= LogOf(c, p)
  }

  /** `l` still leads the term with the log it had, and of the other nodes only those of `ps` have moved. */
  ghost predicate Steady(c: Cluster, c': Cluster, l: NodeId, ps: set<NodeId>) {
    && Leads(c, l) && Leads(c', l) && TermOf(c', l) == TermOf(c, l) && LogOf(c', l) == LogOf(c, l)
    && c'.nodes.Keys == c.nodes.Keys && c'.nodes[l].connected == c.nodes[l].connected
    && forall n :: n in c.nodes && n != l && n !in ps ==> c'.nodes[n] == c.nodes[n]
  }

  /** One peer after the other is brought up to date, without anybody else losing ground. */
  lemma {:induction false} AllConverge(c: Cluster, l: NodeId, ps: set<NodeId>, g: Guard) returns (c': Cluster)
    requires Leads(c, l) && Reached(c, Anything) && g != Acked && forall p :: p in ps ==> Open(c, l, p)
    ensures Follows(c, c', g) && Steady(c, c', l, ps) && forall p :: p in ps ==> InSync(c', l, p)
    decreases |ps|
  {
    hide Reached, Follows, Open, InSync, Steady, Converged, PairOnly;
    if ps == {} {
      c' := c;
      StaysPut(c, g);
      SteadyAlone(c, l);
    } else {
      var p :| p in ps;
      assert Open(c, l, p);
      OpenPeer(c, l, p);
      var c1 := PairConverges(c, l, p, g);
      FollowsUnguarded(c, c1, g);
      FutureIsReached(c, c1, Anything);
      PairIsSteady(c, c1, l, p);
      forall q | q in ps - {p}
        ensures Open(c1, l, q)
      {
        assert Open(c, l, q);
        StaysOpen(c, c1, l, p, q);
      }
      c' := AllConverge(c1, l, ps - {p}, g);
      FollowsOn(c, c1, c', g);
      FollowsUnguarded(c1, c', g);
      FutureIsReached(c1, c', Anything);
      StaysInSync(c1, c', l, ps - {p}, p);
      SteadyOn(c, c1, c', l, p, ps);
    }
  }

  lemma SteadyAlone(c: Cluster, l: NodeId)
    requires Leads(c, l)
    ensures Steady(c, c, l, {})
  {
  }

  lemma OpenPeer(c: Cluster, l: NodeId, p: NodeId)
    requires Open(c, l, p)
    ensures Tracks(c, l, p) && p in c.nodes[l].connected && TermOf(c, p) <= TermOf(c, l) && BeganClear(c, l, p)
  {
    hide BeganClear;
  }

  lemma PairIsSteady(c: Cluster, c': Cluster, l: NodeId, p: NodeId)
    requires Converged(c, c', l, p) && PairOnly(c, c', l, p)
    ensures Steady(c, c', l, {p}) && InSync(c', l, p) && Leads(c', l)
  {
  }

  lemma StaysOpen(c: Cluster, c': Cluster, l: NodeId, p: NodeId, q: NodeId)
    requires Open(c, l, q) && q != p && Steady(c, c', l, {p}) && Follows(c, c', Anything)
    ensures Open(c', l, q)
  {
    hide BeganClear, Follows;
    BeganClearOn(c, c', l, q);
  }

  lemma StaysInSync(c: Cluster, c': Cluster, l: NodeId, ps: set<NodeId>, p: NodeId)
    requires InSync(c, l, p) && p !in ps && Steady(c, c', l, ps) && Follows(c, c', Anything) && Reached(c', Anything)
    ensures InSync(c', l, p)
  {
    hide Follows, Reached;
    FutureOnward(c, c', l);
    BooksAreOrdered(c', l, p);
  }

  lemma SteadyOn(a: Cluster, b: Cluster, c: Cluster, l: NodeId, p: NodeId, ps: set<NodeId>)
    requires Steady(a, b, l, {p}) && Steady(b, c, l, ps - {p}) && p in ps
    ensures Steady(a, c, l, ps)
  {
  }

  // ---------------------------------------------------------------- an answer frees the peer

  /** `p` is free for the next append, or an append filed only now carries its mark. */
  ghost predicate FreedOrResent(node: Node, node': Node, p: NodeId) {
    p in node'.engine.inflight ==> exists id :: node.nextCorrelation <= id && AwaitsAppend(node', p, id)
  }

  lemma AnswerMarks(s: Engine, p: NodeId, msg: Message, now: Instant, pre: seq<Action>, sends: seq<Action>)
    requires s.role == Leader && msg.AppendEntriesResp? && msg.term == s.Term() && p in s.lastAe
    requires HandleRpc(s, p, msg, now).actions == pre + sends && forall a :: a in pre ==> a.Apply?
    requires sends == [] || (|sends| == 1 && sends[0].Send? && sends[0].to == p)
    ensures sends == [] ==> p !in HandleRpc(s, p, msg, now).engine.inflight
    ensures HandleRpc(s, p, msg, now).engine.Term() == s.Term()
    ensures sends != [] ==> sends[0].msg.AppendEntries? && sends[0].msg.term == s.Term()
  {
    var r := HandleRpc(s, p, msg, now);
    if msg.success {
      var s1 := Credit(s, p);
      CommitTouches(s1);
      CommitOnlyApplied(s1);
      hide MaybeCommit;
    }
    assert sends != [] ==> sends[0] in r.actions;
    assert forall a :: a in r.actions && a.Send? ==> a.msg.AppendEntries? && a.msg.term == s.Term();
    assert p in r.engine.inflight ==> r.actions[|r.actions| - 1].Send?;
    assert sends == [] ==> pre + sends == pre;
    assert sends == [] && r.actions != [] ==> r.actions[|r.actions| - 1] in pre;
  }

  lemma AnswerFrees(node: Node, p: NodeId, id: nat, msg: Message, now: Instant)
    requires node.engine.role == Leader && AwaitsAppend(node, p, id) && IdsBelow(node)
    requires msg.AppendEntriesResp? && msg.term >= node.engine.Term() && node.engine.inflight <= node.engine.lastAe.Keys
    ensures FreedOrResent(node, OnResponse(node, id, msg, now).node, p)
  {
    hide Execute, HandleRpc;
    var s := node.engine;
    var r := HandleRpc(s, p, msg, now);
    var mid := node.(engine := r.engine, pending := node.pending - {id});
    ExecuteTouches(mid, r.actions, None);
    if msg.term > s.Term() {
      SteppingShape(s, p, msg, now);
    } else if p !in s.lastAe {
      IgnoredShape(s, p, msg, now);
    } else {
      var pre, sends := AnswerShape(s, p, msg, now);
      AnswerMarks(s, p, msg, now, pre, sends);
      ExecuteAfterApplies(mid, pre, sends);
      if sends == [] {
        assert pre + sends == pre;
      } else {
        assert sends == [Send(p, sends[0].msg)];
        SentOrFreed(mid, p, sends[0].msg);
      }
    }
  }

  lemma SentOrFreed(mid: Node, p: NodeId, msg: Message)
    requires msg.AppendEntries? && msg.term == mid.engine.Term()
    ensures FreedOrResent(mid, Execute(mid, [Send(p, msg)], None).node, p)
  {
    assert [Send(p, msg)][1..] == [];
    var sent := SendRpc(mid, p, msg);
    NothingExecuted(sent.node);
    var node' := Execute(mid, [Send(p, msg)], None).node;
    assert node' == sent.node;
    if p in mid.connected {
      assert AwaitsAppend(node', p, mid.nextCorrelation);
    }
  }

  /** The answer to a pending append of the current term frees the peer or leads to a newly filed append: together with
      failures and time-outs, every way a request can end lets replication to the peer go on. */
  lemma AnswerClearsMark(c: Cluster, r: Reply, now: Instant)
    requires Leads(c, r.request.src) && Enabled(c, DeliverReply(r, now))
    requires r.request.incarnation == c.incarnation[r.request.src]
    requires AwaitsAppend(c.nodes[r.request.src], r.request.dst, r.request.correlation) && Reached(c, Anything)
    ensures var l := r.request.src;
            l in Step(c, DeliverReply(r, now)).nodes &&
            FreedOrResent(c.nodes[l], Step(c, DeliverReply(r, now)).nodes[l], r.request.dst)
  {
    hide Coupled, Reached, OnResponse, NodeOk, EngineOk, NotStuck, IdsBelow, Protocol.Inv, MsgOk,
         FreedOrResent;
    var l, e := r.request.src, DeliverReply(r, now);
    var h := ReachedCoupled(c, Anything);
    NodeIsOk(c, h, l, false);
    PendingMatches(c, h, r, false);
    MarkedWereSent(h, l, EngineOf(c, l));
    AnswerFrees(c.nodes[l], r.request.dst, r.request.correlation, r.msg, now);
    ActorAfter(c, e);
  }

  /** However an append of the current term stops being pending while its sender goes on leading, whether it is
      answered, fails, times out or loses its connection, the peer is freed or has been sent another. */
  lemma EveryEndFrees(c: Cluster, e: Event, l: NodeId, p: NodeId, id: nat)
    requires Leads(c, l) && Enabled(c, e) && AwaitsAppend(c.nodes[l], p, id)
    requires l in Step(c, e).nodes && Leads(Step(c, e), l) && id !in Step(c, e).nodes[l].pending && Reached(c, Anything)
    ensures FreedOrResent(c.nodes[l], Step(c, e).nodes[l], p)
  {
    hide Coupled, Reached, NodeSpec.Tick, NodeSpec.Propose, OnResponse, FailPending, OnDisconnect, Step, NodeOk,
         EngineOk, NotStuck, IdsBelow, Protocol.Inv, FreedOrResent;
    var h := ReachedCoupled(c, Anything);
    NodeIsOk(c, h, l, false);
    if l != Actor(e) {
      BystanderAfter(c, e, l);
      assert false;
    }
    ActorAfter(c, e);
    var node := c.nodes[l];
    KindIsAppend(node, p, id);
    match e
    case Tick(_, now) =>
      TickKeepsPending(node, id, now);
      assert false;
    case Propose(_, data) =>
      ProposeKeepsPending(node, id, data);
      assert false;
    case DeliverRequest(_, _) =>
      RequestInStep(c, h, e);
      assert false;
    case DeliverReply(r, now) =>
      if r.request.incarnation == c.incarnation[l] {
        if r.request.correlation == id {
          PendingMatches(c, h, r, false);
          AnswerClearsMark(c, r, now);
        } else {
          ResponseKeepsPending(node, id, r.request.correlation, r.msg, now);
          assert false;
        }
      }
    case Fail(_, other, emit) =>
      if other != id {
        FailKeepsPending(node, id, other, emit);
        assert false;
      }
      FailureClearsMark(node, p, id, emit);
      FreedNode(node, React(c, e).node, p);
    case Connect(_, _) =>
    case Disconnect(_, peer, ids) =>
      DisconnectFrees(node, p, id, peer, ids);
      FreedNode(node, React(c, e).node, p);
    case Restart(_, _) =>
  }

  lemma FreedNode(node: Node, node': Node, p: NodeId)
    requires p !in node'.engine.inflight
    ensures FreedOrResent(node, node', p)
  {
  }

  lemma KindIsAppend(node: Node, p: NodeId, id: nat)
    requires AwaitsAppend(node, p, id) && IdsBelow(node)
    ensures node.pending[id].kind == AppendRpc
  {
  }

  lemma ExecuteKeepsPending(node: Node, mid: Node, actions: seq<Action>, id: nat, dropped: set<nat>)
    requires mid == node.(engine := mid.engine, pending := node.pending - dropped)
    requires id in node.pending && id !in dropped && IdsBelow(node)
    ensures id in Execute(mid, actions, None).node.pending
  {
    hide Execute;
    ExecuteFiles(mid, actions, None);
  }

  lemma TickKeepsPending(node: Node, id: nat, now: Instant)
    requires id in node.pending && IdsBelow(node)
    ensures id in NodeSpec.Tick(node, now).node.pending
  {
    hide Execute, EngineSpec.Tick, IdsBelow;
    var r := EngineSpec.Tick(node.engine, now);
    assert node.pending - {} == node.pending;
    ExecuteKeepsPending(node, node.(engine := r.engine), r.actions, id, {});
  }

  lemma ProposeKeepsPending(node: Node, id: nat, data: Command)
    requires id in node.pending && IdsBelow(node)
    ensures id in NodeSpec.Propose(node, data).node.pending
  {
    hide Execute, EngineSpec.Propose, IdsBelow;
    assert node.pending - {} == node.pending;
    match EngineSpec.Propose(node.engine, data)
    case NotLeader =>
    case Proposed(_, r) => ExecuteKeepsPending(node, node.(engine := r.engine), r.actions, id, {});
  }

  lemma ResponseKeepsPending(node: Node, id: nat, other: nat, msg: Message, now: Instant)
    requires id in node.pending && id != other && IdsBelow(node)
    ensures id in OnResponse(node, other, msg, now).node.pending
  {
    hide Execute, HandleRpc, IdsBelow;
    if other in node.pending {
      var r := HandleRpc(node.engine, node.pending[other].to, msg, now);
      var mid := node.(engine := r.engine, pending := node.pending - {other});
      ExecuteKeepsPending(node, mid, r.actions, id, {other});
    }
  }

  lemma FailKeepsPending(node: Node, id: nat, other: nat, emit: bool)
    requires id in node.pending && id != other
    ensures id in FailPending(node, other, emit).node.pending
    ensures FailPending(node, other, emit).node.pending[id] == node.pending[id]
  {
  }

  lemma DisconnectFrees(node: Node, p: NodeId, id: nat, peer: NodeId, ids: seq<nat>)
    requires AwaitsAppend(node, p, id) && node.pending[id].kind == AppendRpc
    requires id !in OnDisconnect(node, peer, ids).node.pending
    ensures p !in OnDisconnect(node, peer, ids).node.engine.inflight
  {
    hide FailAll;
    FailAllFrees(node.(connected := node.connected - {peer}), p, id, ids, false);
  }

  lemma {:induction false} FailAllFrees(node: Node, p: NodeId, id: nat, ids: seq<nat>, emit: bool)
    requires AwaitsAppend(node, p, id) && node.pending[id].kind == AppendRpc
    requires id !in FailAll(node, ids, emit).node.pending
    ensures p !in FailAll(node, ids, emit).node.engine.inflight
    decreases |ids|
  {
    if ids != [] {
      var node1 := FailPending(node, ids[0], emit).node;
      if ids[0] == id {
        FailureClearsMark(node, p, id, emit);
        FailAllTouches(node1, ids[1..], emit);
      } else {
        FailKeepsPending(node, id, ids[0], emit);
        FailAllFrees(node1, p, id, ids[1..], emit);
      }
    }
  }

  lemma MarkedWereSent(h: Protocol.History, l: NodeId, s: Engine)
    requires s.role == Leader && EngineOk(h, l, s, false)
    ensures s.inflight <= s.lastAe.Keys
  {
    hide IdentityOk, DurableOk, RoleOk, Commitment.Secure;
  }
}
