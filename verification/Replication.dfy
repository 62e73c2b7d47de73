/** The appends a leader sends: legitimate messages, one per peer, remembered by the engine. */
module Replication {
  import opened Types
  import opened LogSpec
  import opened Protocol
  import opened Commitment
  import opened EngineSpec
  import opened NodeSpec
  import opened Coupling
  import opened Execution
  import M = Membership

  ghost predicate SendsOne(s: Engine, s': Engine, a: Action) {
    && a.Send? && a.to !in s.inflight && a.to in s'.inflight
    && BuildAppendEntries(s, a.to) == Some(a.msg)
    && a.to in s'.lastAe && s'.lastAe[a.to] == (a.msg.prevLogIndex, |a.msg.entries|)
  }

  /** `s'` is `s` after queueing `actions`, one append to each of some idle peers. */
  ghost predicate Sending(s: Engine, s': Engine, actions: seq<Action>) {
    && s' == s.(lastAe := s'.lastAe, inflight := s'.inflight) && s.inflight <= s'.inflight
    && (forall i :: 0 <= i < |actions| ==> SendsOne(s, s', actions[i]))
    && (forall i, j :: 0 <= i < j < |actions| ==> actions[i].to != actions[j].to)
    && (forall q :: q in s'.inflight && q !in s.inflight ==>
          exists i :: 0 <= i < |actions| && actions[i].Send? && actions[i].to == q)
    && (forall q :: q in s.inflight ==>
          (q in s.lastAe <==> q in s'.lastAe) && (q in s.lastAe ==> s'.lastAe[q] == s.lastAe[q]))
    && (forall q :: q in s'.lastAe && q !in s.lastAe ==> q in s'.inflight)
    && (forall q :: q in s'.lastAe && q in s.lastAe && s'.lastAe[q] != s.lastAe[q] ==>
          q in s'.inflight && q !in s.inflight)
    && (forall q :: q in s.lastAe ==> q in s'.lastAe)
  }

  lemma SendToIsSending(s: Engine, to: NodeId)
    ensures Sending(s, SendAppendEntriesTo(s, to).engine, SendAppendEntriesTo(s, to).actions)
    ensures forall a :: a in SendAppendEntriesTo(s, to).actions ==> a.Send? && a.to == to
  {
    var r := SendAppendEntriesTo(s, to);
    if r.actions != [] {
      assert r.actions[0].to == to;
    }
  }

  lemma {:induction false} ReplicateIsSending(s: Engine, peers: seq<NodeId>)
    requires M.Membership(peers).Valid()
    ensures Sending(s, ReplicateTo(s, peers).engine, ReplicateTo(s, peers).actions)
    ensures forall a :: a in ReplicateTo(s, peers).actions ==> a.Send? && a.to in peers
    decreases |peers|
  {
    if peers != [] {
      var r := SendAppendEntriesTo(s, peers[0]);
      var rest := ReplicateTo(r.engine, peers[1..]);
      SendToIsSending(s, peers[0]);
      ReplicateIsSending(r.engine, peers[1..]);
      assert peers[0] !in peers[1..];
      SendingChain(s, r.engine, rest.engine, r.actions, rest.actions, peers[0], peers[1..]);
    }
  }

  lemma SendingChain(a: Engine, b: Engine, c: Engine, x: seq<Action>, y: seq<Action>, first: NodeId, later: seq<NodeId>)
    requires Sending(a, b, x) && Sending(b, c, y) && first !in later
    requires forall e :: e in x ==> e.Send? && e.to == first
    requires forall e :: e in y ==> e.Send? && e.to in later
    ensures Sending(a, c, x + y)
  {
    hide BuildAppendEntries;
    forall i | 0 <= i < |x + y|
      ensures SendsOne(a, c, (x + y)[i])
    {
      if i < |x| {
        assert SendsOne(a, b, x[i]) && x[i] in x;
      } else {
        assert SendsOne(b, c, y[i - |x|]) && y[i - |x|] in y;
        SameBuild(a, b, y[i - |x|].to);
      }
    }
    forall q | q in c.inflight && q !in a.inflight
      ensures exists i :: 0 <= i < |x + y| && (x + y)[i].Send? && (x + y)[i].to == q
    {
      if q in b.inflight {
        var i :| 0 <= i < |x| && x[i].Send? && x[i].to == q;
        assert (x + y)[i] == x[i];
      } else {
        var i :| 0 <= i < |y| && y[i].Send? && y[i].to == q;
        assert (x + y)[|x| + i] == y[i];
      }
    }
  }

  lemma KnowsItself(h: History, n: NodeId, s: Engine)
    requires IdentityOk(h, n, s)
    ensures n in h.voters && s.Id() == n
  {
  }

  /** What the leader builds for a peer is a legitimate append, and it is always able to build one. */
  lemma BuiltMsgOk(h: History, n: NodeId, s: Engine, q: NodeId, acked: bool)
    requires NodesOk(h) && EngineOk(h, n, s, acked) && s.role == Leader && q in s.nextIndex
    ensures BuildAppendEntries(s, q).Some? && MsgOk(h, n, q, BuildAppendEntries(s, q).value, acked)
  {
    hide NodesOk, Sourced, Backed, CandidateOk, IdentityOk;
    KnowsItself(h, n, s);
    assert PeerOk(s, q);
    var prev := s.nextIndex[q] - 1;
    var msg := BuildAppendEntries(s, q).value;
    assert prev + |msg.entries| == |s.log|;
    assert q in h.voters - {n};
    assert acked ==> Backed(h, s.log[..s.commitIndex], s.Term());
  }

  lemma SendingKeepsEngine(h: History, n: NodeId, s: Engine, s': Engine, actions: seq<Action>, acked: bool)
    requires NodesOk(h) && EngineOk(h, n, s, acked) && s.role == Leader && Sending(s, s', actions)
    ensures EngineOk(h, n, s', acked)
  {
    hide Secure, IdentityOk, DurableOk, RoleOk;
    SendingKeepsBooks(h, n, s, s', actions, acked);
    hide BooksOk;
    BooksChanged(h, n, s, s', acked);
  }

  lemma SendingKeepsBooks(h: History, n: NodeId, s: Engine, s': Engine, actions: seq<Action>, acked: bool)
    requires BooksOk(h, n, s) && s.role == Leader && Sending(s, s', actions)
    ensures BooksOk(h, n, s')
  {
    forall q | q in s'.lastAe
      ensures q in h.voters - {n} && s'.lastAe[q].0 + s'.lastAe[q].1 <= |s'.log|
    {
      if q !in s.lastAe || s'.lastAe[q] != s.lastAe[q] {
        var i :| 0 <= i < |actions| && actions[i].Send? && actions[i].to == q;
        assert SendsOne(s, s', actions[i]);
        assert q in s.nextIndex.Keys;
      }
    }
    forall q | q in s'.inflight
      ensures q in s'.lastAe
    {
      if q !in s.inflight {
        var i :| 0 <= i < |actions| && actions[i].Send? && actions[i].to == q;
        assert SendsOne(s, s', actions[i]);
      }
    }
    forall q | q in s'.nextIndex
      ensures PeerOk(s', q)
    {
      assert PeerOk(s, q);
      SendingCovers(s, s', actions, q);
    }
  }

  /** A new append reaches the end of the log. */
  lemma SendingCovers(s: Engine, s': Engine, actions: seq<Action>, q: NodeId)
    requires Sending(s, s', actions)
    ensures Covered(s', q) == Covered(s, q) || Covered(s', q) == |s.log|
  {
    if q in s'.lastAe && (q !in s.lastAe || s'.lastAe[q] != s.lastAe[q]) {
      var i :| 0 <= i < |actions| && actions[i].Send? && actions[i].to == q;
      assert SendsOne(s, s', actions[i]);
    }
  }

  lemma SendingIsOutgoing(s: Engine, s': Engine, actions: seq<Action>)
    requires Sending(s, s', actions)
    ensures Outgoing(s', actions)
  {
    forall i | 0 <= i < |actions|
      ensures OutgoingOne(s', actions[i])
    {
      assert SendsOne(s, s', actions[i]);
    }
  }

  lemma SendingIsUnderway(node: Node, s': Engine, actions: seq<Action>)
    requires Sending(node.engine, s', actions) && NotStuck(node)
    ensures Underway(node.(engine := s'), actions)
  {
    forall q | q in s'.inflight
      ensures (exists id :: Awaits(node.pending, id, q, s'.Term()))
              || (exists i :: 0 <= i < |actions| && actions[i].Send? && actions[i].to == q)
    {
      if q in node.engine.inflight {
        var id :| Awaits(node.pending, id, q, node.engine.Term());
        assert Awaits(node.pending, id, q, s'.Term());
      }
    }
  }

  /** A leader that queues appends and has them carried out stays in order, whatever the connectivity. */
  lemma SendingExecutes(h: History, n: NodeId, node: Node, s': Engine, actions: seq<Action>, acked: bool)
    requires NodesOk(h) && EngineOk(h, n, node.engine, acked) && node.engine.role == Leader
    requires IdsBelow(node) && NotStuck(node) && Sending(node.engine, s', actions)
    ensures var r := Execute(node.(engine := s'), actions, None);
            EngineOk(h, n, r.node.engine, acked) && NotStuck(r.node)
    ensures forall to, msg :: Wanted(node.(engine := s'), actions, to, msg) ==> MsgOk(h, n, to, msg, acked)
  {
    var mid := node.(engine := s');
    var r := Execute(mid, actions, None);
    SendingKeepsEngine(h, n, node.engine, s', actions, acked);
    SendingIsOutgoing(node.engine, s', actions);
    SendingIsUnderway(node, s', actions);
    SendsKeep(mid, actions);
    ExecuteFiles(mid, actions, None);
    FewerInflight(h, n, s', r.node.engine, acked);
    forall to, msg | Wanted(mid, actions, to, msg)
      ensures MsgOk(h, n, to, msg, acked)
    {
      WantedIsBuilt(h, n, node.engine, s', actions, mid, to, msg, acked);
    }
  }

  lemma WantedIsBuilt(h: History, n: NodeId, s: Engine, s': Engine, actions: seq<Action>, mid: Node, to: NodeId,
                      msg: Message, acked: bool)
    requires NodesOk(h) && EngineOk(h, n, s, acked) && s.role == Leader && Sending(s, s', actions)
    requires mid.engine == s' && Wanted(mid, actions, to, msg)
    ensures MsgOk(h, n, to, msg, acked)
  {
    hide EngineOk;
    var i :| 0 <= i < |actions| && (actions[i] == Send(to, msg) || actions[i] == Broadcast(msg));
    assert SendsOne(s, s', actions[i]);
    BuiltMsgOk(h, n, s, to, acked);
  }

  /** Clearing in-flight marks never hurts the engine. */
  lemma FewerInflight(h: History, n: NodeId, s: Engine, s': Engine, acked: bool)
    requires EngineOk(h, n, s, acked) && s' == s.(inflight := s'.inflight) && s'.inflight <= s.inflight
    ensures EngineOk(h, n, s', acked)
  {
    if s.role == Leader {
      forall q | q in s'.nextIndex
        ensures PeerOk(s', q)
      {
        assert PeerOk(s, q);
      }
    }
  }
}
