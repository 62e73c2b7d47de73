/** How a node's effect lands in the cluster, and the protocol steps common to several events. */
module Landing {
  import opened Types
  import opened LogSpec
  import opened Protocol
  import opened Moves
  import opened Commitment
  import opened EngineSpec
  import opened NodeSpec
  import opened Cluster
  import opened Coupling
  import opened Execution
  import M = Membership

  // ---------------------------------------------------------------- committed prefixes survive

  ghost predicate SecureKept(h: History, h': History) {
    forall n: NodeId, k: nat :: Secure(h, n, k) ==> Secure(h', n, k) && h'.log[n][..k] == h.log[n][..k]
  }

  lemma SecureKeptTransitive(a: History, b: History, c: History)
    requires SecureKept(a, b) && SecureKept(b, c)
    ensures SecureKept(a, c)
  {
    forall n: NodeId, k: nat | Secure(a, n, k)
      ensures Secure(c, n, k) && c.log[n][..k] == a.log[n][..k]
    {
      assert Secure(b, n, k);
    }
  }

  lemma GrowthKeepsSecure(h: History, h': History, m: NodeId)
    requires NodesOk(h) && Extends(h, h', m) && h.log[m] <= h'.log[m]
    ensures SecureKept(h, h')
  {
    hide Sourced, TermsBelow;
    forall n: NodeId, k: nat | Secure(h, n, k)
      ensures Secure(h', n, k) && h'.log[n][..k] == h.log[n][..k]
    {
      assert h'.log[n][..k] == h.log[n][..k];
      BackedExtends(h, h', m, h.log[n][..k], h.term[n], h'.term[n]);
    }
  }

  lemma AcceptKeepsSecure(h: History, v: NodeId, k: nat)
    requires Inv(h) && v in h.voters && h.term[v] in h.reigns && k <= |h.reigns[h.term[v]].log|
    requires Extends(h, Accept(h, v, k), v)
    ensures SecureKept(h, Accept(h, v, k))
  {
    hide CampaignsOk, ReignsOk, AckBounds, AcksKept, BallotsOk, CommitsOk, Sourced;
    var h' := Accept(h, v, k);
    forall n: NodeId, i: nat | Secure(h, n, i)
      ensures Secure(h', n, i) && h'.log[n][..i] == h.log[n][..i]
    {
      if n == v {
        AdoptKeepsCommitted(h, v, k, i);
      }
      BackedExtends(h, h', v, h.log[n][..i], h.term[n], h'.term[n]);
    }
  }

  // ---------------------------------------------------------------- landing

  /** `mid` is the actor before it carries out its actions: some requests may have been answered. */
  ghost predicate Spent(node: Node, mid: Node) {
    && mid.nextCorrelation == node.nextCorrelation
    && forall id :: id in mid.pending ==> id in node.pending && mid.pending[id] == node.pending[id]
  }

  ghost predicate NewMsgsOk(h: History, n: NodeId, mid: Node, after: Node, acked: bool) {
    forall id :: id in after.pending && id !in mid.pending ==>
      MsgOk(h, n, after.pending[id].to, after.pending[id].msg, acked)
  }

  ghost predicate AnswersOk(c: Cluster, h: History, e: Event, actions: seq<Action>, inbound: Option<NodeId>) {
    e.DeliverRequest? ==>
      forall to: NodeId, msg :: Send(to, msg) in actions && inbound == Some(to) ==> ReplyOk(c, h, Reply(e.request, msg))
  }

  ghost predicate ReportsOk(h: History, n: NodeId, actions: seq<Action>, acked: bool) {
    && (forall t: Term :: BecameLeader(t) in actions ==> t in h.reigns && h.reigns[t].leader == n)
    && (acked ==> forall es, x :: Apply(es) in actions && x in es ==> Chosen(h, x))
  }

  /** The engine and its bookkeeping after the event. */
  ghost predicate AfterOk(h: History, n: NodeId, node: Node, acked: bool) {
    EngineOk(h, n, node.engine, acked) && NotStuck(node)
  }

  function CommittedPrefix(s: Engine): Log {
    s.log[..Min(s.commitIndex, |s.log|)]
  }

  lemma Lands(c: Cluster, h: History, h': History, e: Event, mid: Node, actions: seq<Action>, inbound: Option<NodeId>,
              acked: bool)
    requires Coupled(c, h, acked) && Inv(h') && Enabled(c, e) && !e.Restart? && Extends(h, h', Actor(e))
    requires Spent(c.nodes[Actor(e)], mid)
    requires Filed(mid, React(c, e), actions) && Reported(mid, React(c, e), actions, inbound)
    requires AppliedBy(React(c, e).outputs) == AppliesOf(actions)
    requires AfterOk(h', Actor(e), React(c, e).node, acked) && NewMsgsOk(h', Actor(e), mid, React(c, e).node, acked)
    requires AnswersOk(c, h', e, actions, inbound) && ReportsOk(h', Actor(e), actions, acked)
    requires acked ==> c.applied[Actor(e)] + AppliesOf(actions) == CommittedPrefix(React(c, e).node.engine)
    ensures Coupled(Step(c, e), h', acked)
  {
    hide Inv, NewMsgsOk, AnswersOk, ReportsOk, Extends, NetworkOk, RequestOk, React, Reported, Filed, NodeOk,
         PendingOk, CommittedPrefix;
    var c', n := Step(c, e), Actor(e);
    assert NodeOk(c, h, n, acked);
    LandedNode(c, h', e, acked) by { LandedPending(c, e, mid, actions, h, acked); }
    LandedRequests(c, h, h', e, mid, actions, acked);
    LandedReports(c, h', e, mid, actions, inbound, acked);
    LandedAlone(c, e, mid, actions);
    CoupledExtends(c, c', h, h', n, acked);
  }

  lemma LandedAlone(c: Cluster, e: Event, mid: Node, actions: seq<Action>)
    requires Enabled(c, e) && !e.Restart? && Spent(c.nodes[Actor(e)], mid) && Filed(mid, React(c, e), actions)
    ensures ActedAlone(c, Step(c, e), Actor(e))
  {
    hide React;
  }

  lemma LandedNode(c: Cluster, h': History, e: Event, acked: bool)
    requires Enabled(c, e) && !e.Restart? && AfterOk(h', Actor(e), React(c, e).node, acked)
    requires PendingOk(Step(c, e), Actor(e))
    requires acked ==> c.applied[Actor(e)] + AppliedBy(React(c, e).outputs) == CommittedPrefix(React(c, e).node.engine)
    ensures NodeOk(Step(c, e), h', Actor(e), acked)
  {
    hide React, EngineOk, NotStuck, PendingOk;
  }

  lemma LandedPending(c: Cluster, e: Event, mid: Node, actions: seq<Action>, h: History, acked: bool)
    requires Enabled(c, e) && !e.Restart? && NodeOk(c, h, Actor(e), acked)
    requires Spent(c.nodes[Actor(e)], mid) && Filed(mid, React(c, e), actions)
    ensures PendingOk(Step(c, e), Actor(e))
  {
    hide EngineOk, NotStuck;
    var c', n, r := Step(c, e), Actor(e), React(c, e);
    assert PendingOk(c, n);
    hide React;
    forall id | id in r.node.pending
      ensures Envelope(n, r.node.pending[id].to, c'.incarnation[n], id, r.node.pending[id].msg) in c'.requests
    {
      if id !in mid.pending {
        assert SendRequest(r.node.pending[id].to, id, r.node.pending[id].msg) in r.outputs;
      }
    }
  }

  lemma LandedRequests(c: Cluster, h: History, h': History, e: Event, mid: Node, actions: seq<Action>, acked: bool)
    requires Enabled(c, e) && !e.Restart? && NodeOk(c, h, Actor(e), acked)
    requires Spent(c.nodes[Actor(e)], mid) && Filed(mid, React(c, e), actions)
    requires NewMsgsOk(h', Actor(e), mid, React(c, e).node, acked)
    ensures var c', m := Step(c, e), Actor(e);
            forall q :: q in c'.requests && q !in c.requests ==>
              q.src == m && q.incarnation == c'.incarnation[m] && RequestOk(c', h', q, acked)
              && c.nodes[m].nextCorrelation <= q.correlation
    ensures var c' := Step(c, e);
            forall p, q :: p in c'.requests && p !in c.requests && q in c'.requests && q !in c.requests && SameKey(p, q)
              ==> p == q
  {
    hide EngineOk, NotStuck, MsgOk;
    var c', n, r := Step(c, e), Actor(e), React(c, e);
    assert PendingOk(c, n);
    hide React;
    forall q | q in c'.requests && q !in c.requests
      ensures q.src == n && q.incarnation == c'.incarnation[n] && RequestOk(c', h', q, acked)
      ensures c.nodes[n].nextCorrelation <= q.correlation
      ensures q.correlation in r.node.pending && r.node.pending[q.correlation] == Pending(q.dst, KindOf(q.msg), q.msg)
    {
      var o :| o in r.outputs && o.SendRequest? && q == Envelope(n, o.to, c.incarnation[n], o.correlation, o.msg);
      assert o.correlation !in mid.pending;
    }
  }

  lemma LandedReports(c: Cluster, h': History, e: Event, mid: Node, actions: seq<Action>, inbound: Option<NodeId>,
                      acked: bool)
    requires Enabled(c, e) && Reported(mid, React(c, e), actions, inbound)
    requires AnswersOk(c, h', e, actions, inbound) && ReportsOk(h', Actor(e), actions, acked)
    ensures var c' := Step(c, e); forall r :: r in c'.replies && r !in c.replies ==> ReplyOk(c', h', r)
    ensures var c' := Step(c, e); forall x :: x in c'.emitted && x !in c.emitted ==> EmittedOk(h', x.0, x.1, acked)
  {
    hide React, Chosen;
    var c', n, r := Step(c, e), Actor(e), React(c, e);
    forall p | p in c'.replies && p !in c.replies
      ensures ReplyOk(c', h', p)
    {
      var o :| o in r.outputs && o.SendResponse? && p == Reply(e.request, o.msg);
      assert ReplyOk(c, h', p);
    }
    forall x | x in c'.emitted && x !in c.emitted
      ensures EmittedOk(h', x.0, x.1, acked)
    {
      assert x.1 in r.outputs;
    }
  }
}
