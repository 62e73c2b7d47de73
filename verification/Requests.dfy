/** The life of a request, in every run: who is sent what, which requests are pending, and when one ends. */
module Requests {
  import opened Types
  import opened LogSpec
  import opened EngineSpec
  import opened NodeSpec
  import opened Cluster
  import opened Progress
  import opened Reachability
  import opened Coupling
  import opened Execution
  import opened Events
  import opened Safety
  import opened Conduct
  import Handling
  import Protocol
  import EngineSteps
  import Guarantees
  import Membership

  // ---------------------------------------------------------------- going out

  /** `msg` went out to `to` and is filed. */
  ghost predicate WentOut(n: Node, r: Effect, to: NodeId, msg: Message) {
    exists id :: id in r.node.pending && id !in n.pending
                 && r.node.pending[id] == Pending(to, KindOf(msg), msg) && SendRequest(to, id, msg) in r.outputs
  }

  /** Nothing goes out to a peer that is not connected. Whatever is wanted for another peer than the one whose request
      is being answered goes out if the peer is connected; if it is not, an append's mark is taken back. */
  ghost predicate Dispatched(n: Node, r: Effect, actions: seq<Action>, inbound: Option<NodeId>) {
    && (forall id :: id in r.node.pending && id !in n.pending ==> r.node.pending[id].to in n.connected)
    && (forall to: NodeId, msg :: Wanted(n, actions, to, msg) && inbound != Some(to) ==>
          if to in n.connected then WentOut(n, r, to, msg)
          else msg.AppendEntries? ==> to !in r.node.engine.inflight)
  }

  lemma DispatchedChain(n: Node, r1: Effect, r2: Effect, now: seq<Action>, later: seq<Action>,
                        inbound: Option<NodeId>, next: Option<NodeId>)
    requires Filed(n, r1, now) && Filed(r1.node, r2, later) && (next == inbound || next == None)
    requires Dispatched(n, r1, now, inbound) && Dispatched(r1.node, r2, later, next)
    ensures Dispatched(n, Effect(r2.node, r1.outputs + r2.outputs), now + later, inbound)
  {
    var r := Effect(r2.node, r1.outputs + r2.outputs);
    forall to: NodeId, msg | Wanted(n, now + later, to, msg) && inbound != Some(to)
      ensures if to in n.connected then WentOut(n, r, to, msg)
              else msg.AppendEntries? ==> to !in r.node.engine.inflight
    {
      if Wanted(n, now, to, msg) {
        if to in n.connected {
          var id :| id in r1.node.pending && id !in n.pending
                    && r1.node.pending[id] == Pending(to, KindOf(msg), msg) && SendRequest(to, id, msg) in r1.outputs;
          assert id in r.node.pending && r.node.pending[id] == Pending(to, KindOf(msg), msg);
        }
      } else {
        assert Wanted(r1.node, later, to, msg);
        if to in n.connected {
          var id :| id in r2.node.pending && id !in r1.node.pending
                    && r2.node.pending[id] == Pending(to, KindOf(msg), msg) && SendRequest(to, id, msg) in r2.outputs;
          assert id !in n.pending;
        }
      }
    }
  }

  lemma SendRpcDispatches(n: Node, to: NodeId, msg: Message)
    requires IdsBelow(n)
    ensures Dispatched(n, SendRpc(n, to, msg), [Send(to, msg)], None)
  {
    var r := SendRpc(n, to, msg);
    if to in n.connected {
      assert n.nextCorrelation in r.node.pending && n.nextCorrelation !in n.pending;
      assert WentOut(n, r, to, msg);
    }
  }

  lemma {:induction false} SendToAllDispatches(n: Node, peers: seq<NodeId>, msg: Message)
    requires IdsBelow(n)
    ensures Dispatched(n, SendToAll(n, peers, msg), seq(|peers|, i requires 0 <= i < |peers| => Send(peers[i], msg)),
                       None)
    decreases |peers|
  {
    hide Filed, Dispatched, SendRpc;
    var actions := seq(|peers|, i requires 0 <= i < |peers| => Send(peers[i], msg));
    if peers == [] {
      NothingDispatched(n);
      assert actions == [];
    } else {
      var r := SendRpc(n, peers[0], msg);
      var rest := seq(|peers| - 1, i requires 0 <= i < |peers| - 1 => Send(peers[1..][i], msg));
      assert actions == [Send(peers[0], msg)] + rest;
      SendRpcFiles(n, peers[0], msg);
      SendRpcDispatches(n, peers[0], msg);
      assert IdsBelow(r.node) by { FiledIds(n, r, [Send(peers[0], msg)]); }
      SendToAllFiles(r.node, peers[1..], msg);
      SendToAllDispatches(r.node, peers[1..], msg);
      DispatchedChain(n, r, SendToAll(r.node, peers[1..], msg), [Send(peers[0], msg)], rest, None, None);
    }
  }

  lemma FiledIds(n: Node, r: Effect, actions: seq<Action>)
    requires Filed(n, r, actions)
    ensures IdsBelow(r.node)
  {
  }

  lemma NothingDispatched(n: Node)
    ensures forall inbound: Option<NodeId> :: Dispatched(n, Effect(n, []), [], inbound)
  {
  }

  lemma ExecuteOneDispatches(n: Node, action: Action, inbound: Option<NodeId>)
    requires IdsBelow(n)
    ensures Dispatched(n, ExecuteOne(n, action, inbound), [action], inbound)
  {
    if action.Send? {
      if inbound != Some(action.to) {
        SendRpcDispatches(n, action.to, action.msg);
      }
      hide SendRpc;
    } else if action.Broadcast? {
      hide SendRpc, SendToAll;
      var peers := n.engine.Others();
      var sends := seq(|peers|, i requires 0 <= i < |peers| => Send(peers[i], action.msg));
      SendToAllDispatches(n, peers, action.msg);
      forall to: NodeId, msg | Wanted(n, [action], to, msg)
        ensures Wanted(n, sends, to, msg)
      {
        var i :| 0 <= i < |peers| && peers[i] == to;
        assert sends[i] == Send(to, msg);
      }
    }
  }

  lemma {:induction false} ExecuteDispatches(n: Node, actions: seq<Action>, inbound: Option<NodeId>)
    requires IdsBelow(n)
    ensures Dispatched(n, Execute(n, actions, inbound), actions, inbound)
    decreases |actions|
  {
    hide Filed, Dispatched, ExecuteOne, Execution.Reported, IdsBelow;
    if actions == [] {
      NothingDispatched(n);
    } else {
      var r := ExecuteOne(n, actions[0], inbound);
      var next := InboundAfter(actions[0], inbound);
      ExecuteOneFiles(n, actions[0], inbound);
      ExecuteOneDispatches(n, actions[0], inbound);
      FiledIds(n, r, [actions[0]]);
      ExecuteFiles(r.node, actions[1..], next);
      ExecuteDispatches(r.node, actions[1..], next);
      assert actions == [actions[0]] + actions[1..];
      DispatchedChain(n, r, Execute(r.node, actions[1..], next), [actions[0]], actions[1..], inbound, next);
    }
  }

  /** What goes out in an event is what the engine asks for to connected peers; answering a request sends no other. */
  lemma RequestsGoOutIff(c: Cluster, e: Event, to: NodeId, msg: Message)
    requires Enabled(c, e) && Reaction(c, e).Some? && Reached(c, Anything)
    ensures WentOut(c.nodes[Actor(e)], React(c, e), to, msg) <==>
              !e.DeliverRequest? && to in c.nodes[Actor(e)].connected
              && Wanted(Acting(c, e), Reaction(c, e).value.actions, to, msg)
  {
    hide *;
    ActorExists(c, e);
    var n := Actor(e);
    var h := ReachedCoupled(c, Anything);
    NodeIsOk(c, h, n, false);
    ReactExecutes(c, e);
    ActingKeeps(c, e);
    var actions := Reaction(c, e).value.actions;
    ExecuteFiles(Acting(c, e), actions, Inbound(e));
    ExecuteDispatches(Acting(c, e), actions, Inbound(e));
    if e.DeliverRequest? {
      AnsweringFilesNothing(c, h, e);
      NothingWentOut(c.nodes[n], React(c, e), to, msg);
    } else {
      NoInbound(e);
      OutIffWanted(c.nodes[n], Acting(c, e), React(c, e), actions, to, msg);
    }
  }

  lemma NoInbound(e: Event)
    requires !e.DeliverRequest?
    ensures Inbound(e) == None
  {
  }

  lemma ActingKeeps(c: Cluster, e: Event)
    requires Enabled(c, e) && Reaction(c, e).Some? && IdsBelow(c.nodes[Actor(e)])
    ensures var node, mid := c.nodes[Actor(e)], Acting(c, e);
            && IdsBelow(mid) && mid.connected == node.connected && mid.nextCorrelation == node.nextCorrelation
            && (forall id :: id in mid.pending <==> id in node.pending && !Answers(c, e, id))
            && (forall id :: id in mid.pending ==> mid.pending[id] == node.pending[id])
  {
    hide HandleRpc, EngineSpec.Tick, EngineSpec.Propose;
  }

  lemma NothingWentOut(n: Node, r: Effect, to: NodeId, msg: Message)
    requires r.node.pending == n.pending
    ensures !WentOut(n, r, to, msg)
  {
  }

  lemma AnsweringFilesNothing(c: Cluster, h: Protocol.History, e: Event)
    requires Enabled(c, e) && e.DeliverRequest? && Coupled(c, h, false)
    ensures React(c, e).node.pending == c.nodes[Actor(e)].pending
  {
    hide Coupled, HandleRpc, Handling.EndsInAnswer, Execute;
    var q := e.request;
    NobodyAsksItself(c, h, q);
    var before, answer := Handling.RequestsAreAnswered(c.nodes[q.dst].engine, q.src, q.msg, e.now);
    EndsIn(HandleRpc(c.nodes[q.dst].engine, q.src, q.msg, e.now), before, q.src, answer);
    ExecuteAnswer(c.nodes[q.dst].(engine := HandleRpc(c.nodes[q.dst].engine, q.src, q.msg, e.now).engine), before,
                  q.src, answer);
  }

  lemma EndsIn(r: Outcome, before: seq<Action>, from: NodeId, answer: Message)
    requires Handling.EndsInAnswer(r, before, from, answer)
    ensures r.actions == before + [Send(from, answer)] && forall a :: a in before ==> !a.Send? && !a.Broadcast?
  {
  }

  lemma OutIffWanted(node: Node, mid: Node, r: Effect, actions: seq<Action>, to: NodeId, msg: Message)
    requires IdsBelow(node) && mid.connected == node.connected && mid.nextCorrelation == node.nextCorrelation
    requires forall id :: id in mid.pending ==> id in node.pending
    requires Filed(mid, r, actions) && Dispatched(mid, r, actions, None)
    ensures WentOut(node, r, to, msg) <==> to in node.connected && Wanted(mid, actions, to, msg)
  {
    if WentOut(node, r, to, msg) {
      var id :| id in r.node.pending && id !in node.pending
                && r.node.pending[id] == Pending(to, KindOf(msg), msg) && SendRequest(to, id, msg) in r.outputs;
      assert id !in mid.pending;
    }
    if to in node.connected && Wanted(mid, actions, to, msg) {
      var id :| id in r.node.pending && id !in mid.pending
                && r.node.pending[id] == Pending(to, KindOf(msg), msg) && SendRequest(to, id, msg) in r.outputs;
      assert mid.nextCorrelation <= id;
    }
  }

  /** What a tick sends: when its time has come, a node that does not lead asks every connected voter for its vote,
      and a leader sends every connected voter that is idle what it lacks. At other times nothing goes out. */
  lemma TicksSendIff(c: Cluster, n: NodeId, now: Instant, p: NodeId, msg: Message)
    requires Enabled(c, Tick(n, now)) && Reached(c, Anything)
    ensures var s := c.nodes[n].engine;
            WentOut(c.nodes[n], React(c, Tick(n, now)), p, msg) <==>
              && p in c.nodes && p != n && p in c.nodes[n].connected
              && if s.role == Leader then now >= s.heartbeatDeadline && p !in s.inflight
                                          && BuildAppendEntries(s, p) == Some(msg)
                 else now >= s.electionDeadline && msg == RequestVote(s.Term() + 1, n, |s.log|, LastTerm(s.log))
  {
    hide *;
    ActorExists(c, Tick(n, now));
    TickReacts(c, n, now);
    var h := ReachedNode(c, n, Anything);
    OthersAreNodes(c, h, n);
    RequestsGoOutIff(c, Tick(n, now), p, msg);
    TickWants(c.nodes[n], now, p, msg);
  }

  lemma TickReacts(c: Cluster, n: NodeId, now: Instant)
    requires Enabled(c, Tick(n, now))
    ensures var e := Tick(n, now); var r := EngineSpec.Tick(c.nodes[n].engine, now);
            Actor(e) == n && Reaction(c, e) == Some(r) && Acting(c, e) == c.nodes[n].(engine := r.engine)
            && !e.DeliverRequest?
  {
    hide EngineSpec.Tick;
  }

  lemma OthersAreNodes(c: Cluster, h: Protocol.History, n: NodeId)
    requires Coupled(c, h, false) && n in c.nodes
    ensures var s := c.nodes[n].engine;
            s.Id() == n && s.members.Valid() && forall p :: p in s.Others() <==> p in c.nodes && p != n
  {
    hide *;
    NodeIsOk(c, h, n, false);
    CoupledInv(c, h, false);
    OthersDistinct(h, n, c.nodes[n].engine, false);
    KnowsVoters(h, n, c.nodes[n].engine);
  }

  lemma KnowsVoters(h: Protocol.History, n: NodeId, s: Engine)
    requires EngineOk(h, n, s, false)
    ensures s.Id() == n && s.members.Valid()
  {
    hide DurableOk, RoleOk, BooksOk;
  }

  lemma TickWants(node: Node, now: Instant, p: NodeId, msg: Message)
    requires node.engine.members.Valid()
    ensures var s := node.engine; var r := EngineSpec.Tick(s, now);
            Wanted(node.(engine := r.engine), r.actions, p, msg) <==>
              && p in s.Others()
              && if s.role == Leader then now >= s.heartbeatDeadline && p !in s.inflight
                                          && BuildAppendEntries(s, p) == Some(msg)
                 else now >= s.electionDeadline && msg == RequestVote(s.Term() + 1, s.Id(), |s.log|, LastTerm(s.log))
  {
    var s := node.engine;
    Membership.WithoutIsDistinct(s.members.order, s.Id());
    ReplicationReaches(s, s.Others(), p, msg);
    ReplicateTouches(s, s.Others());
    hide ReplicateTo, BuildAppendEntries;
  }

  /** What a proposal sends: every connected voter that is idle gets the command, with everything before it that the
      leader does not know the voter to have been sent. */
  lemma ProposalsSendIff(c: Cluster, n: NodeId, data: Command, p: NodeId, msg: Message)
    requires Enabled(c, Propose(n, data)) && Reached(c, Anything)
    ensures var s, r := c.nodes[n].engine, React(c, Propose(n, data));
            var s1 := s.(log := s.log + [LogEntry(|s.log| + 1, s.Term(), data)]);
            && r.node.engine.log == (if s.role == Leader then s1.log else s.log)
            && (WentOut(c.nodes[n], r, p, msg) <==>
                  && s.role == Leader && p in c.nodes && p != n && p in c.nodes[n].connected && p !in s.inflight
                  && BuildAppendEntries(s1, p) == Some(msg))
  {
    hide *;
    var e := Propose(n, data);
    ActorExists(c, e);
    ProposeReacts(c, n, data);
    var node := c.nodes[n];
    if node.engine.role == Leader {
      var h := ReachedNode(c, n, Anything);
      OthersAreNodes(c, h, n);
      RequestsGoOutIff(c, e, p, msg);
      ProposalWants(node, data, p, msg);
      ReactExecutes(c, e);
      ExecuteTouches(Acting(c, e), Reaction(c, e).value.actions, Inbound(e));
      ProposeOnward(node.engine, data);
      AppendedAtEnd(node.engine, data, Acting(c, e).engine, React(c, e).node.engine);
    } else {
      NothingWentOut(node, React(c, e), p, msg);
    }
  }

  lemma ProposeReacts(c: Cluster, n: NodeId, data: Command)
    requires Enabled(c, Propose(n, data))
    ensures var e := Propose(n, data); var s := c.nodes[n].engine;
            && Actor(e) == n && !e.DeliverRequest?
            && if s.role == Leader then
                 Reaction(c, e) == Some(EngineSpec.Propose(s, data).outcome)
                 && Acting(c, e) == c.nodes[n].(engine := EngineSpec.Propose(s, data).outcome.engine)
               else React(c, e) == Effect(c.nodes[n], [])
  {
    hide ReplicateTo;
  }

  lemma AppendedAtEnd(s: Engine, data: Command, mid: Engine, s': Engine)
    requires EngineSpec.Propose(s, data).Proposed? && mid == EngineSpec.Propose(s, data).outcome.engine
    requires mid.log == s.log + [LogEntry(|s.log| + 1, s.Term(), data)] && s' == mid.(inflight := s'.inflight)
    ensures s'.log == s.log + [LogEntry(|s.log| + 1, s.Term(), data)]
  {
  }

  lemma ProposalWants(node: Node, data: Command, p: NodeId, msg: Message)
    requires node.engine.members.Valid() && node.engine.role == Leader
    ensures var s := node.engine; var r := EngineSpec.Propose(s, data).outcome;
            var s1 := s.(log := s.log + [LogEntry(|s.log| + 1, s.Term(), data)]);
            Wanted(node.(engine := r.engine), r.actions, p, msg) <==>
              p in s.Others() && p !in s.inflight && BuildAppendEntries(s1, p) == Some(msg)
  {
    var s := node.engine;
    var s1 := s.(log := s.log + [LogEntry(|s.log| + 1, s.Term(), data)]);
    Membership.WithoutIsDistinct(s.members.order, s.Id());
    ReplicationReaches(s1, s1.Others(), p, msg);
    ReplicateTouches(s1, s1.Others());
    hide ReplicateTo, BuildAppendEntries;
  }

  // ---------------------------------------------------------------- pending

  /** The event ends request `id` of node `n`, to peer `to`: an answer, a failure, the loss of the connection, a
      restart. */
  predicate Ends(c: Cluster, e: Event, n: NodeId, id: nat, to: NodeId)
    requires Enabled(c, e)
  {
    && Actor(e) == n
    && (Answers(c, e, id) || (e.Fail? && e.correlation == id) || (e.Disconnect? && e.peer == to) || e.Restart?)
  }

  /** A request stays pending, unchanged, until an event ends it, and then it is gone. */
  lemma PendingUntilEnded(c: Cluster, e: Event, n: NodeId, id: nat)
    requires Enabled(c, e) && n in c.nodes && id in c.nodes[n].pending && Reached(c, Anything)
    ensures var c' := Step(c, e); var p := c.nodes[n].pending[id];
            && n in c'.nodes && (id in c'.nodes[n].pending <==> !Ends(c, e, n, id, p.to))
            && (id in c'.nodes[n].pending ==> c'.nodes[n].pending[id] == p)
  {
    hide React, Coupled, Reached, IdsBelow;
    if n == Actor(e) {
      var h := ReachedCoupled(c, Anything);
      NodeIsOk(c, h, n, false);
      if Reaction(c, e).Some? {
        ReactionKeepsPending(c, e, id);
      } else {
        OtherwisePending(c, e, id);
      }
    }
  }

  lemma ReactionKeepsPending(c: Cluster, e: Event, id: nat)
    requires Enabled(c, e) && Reaction(c, e).Some? && IdsBelow(c.nodes[Actor(e)]) && id in c.nodes[Actor(e)].pending
    ensures var pending, pending' := c.nodes[Actor(e)].pending, React(c, e).node.pending;
            && (id in pending' <==> !Answers(c, e, id)) && (id in pending' ==> pending'[id] == pending[id])
            && !e.Fail? && !e.Disconnect? && !e.Restart?
  {
    ReactExecutes(c, e);
    ActingKeeps(c, e);
    hide React, Acting, HandleRpc, EngineSpec.Tick, EngineSpec.Propose;
    ExecuteFiles(Acting(c, e), Reaction(c, e).value.actions, Inbound(e));
    hide Execute, Reaction;
  }

  lemma OtherwisePending(c: Cluster, e: Event, id: nat)
    requires Enabled(c, e) && Reaction(c, e).None? && id in c.nodes[Actor(e)].pending
    ensures var pending, pending' := c.nodes[Actor(e)].pending, React(c, e).node.pending;
            && (id in pending' <==> !Ends(c, e, Actor(e), id, pending[id].to))
            && (id in pending' ==> pending'[id] == pending[id])
  {
    hide FailAll, HandleRpc, EngineSpec.Tick;
    var node := c.nodes[Actor(e)];
    if e.Disconnect? {
      FailAllQuiet(node.(connected := node.connected - {e.peer}), e.correlations);
    }
    if e.Propose? {
      ProposeOnward(node.engine, e.data);
    }
  }

  /** The event ends, unanswered, an append that was pending to `q`. */
  ghost predicate LosesAppend(c: Cluster, e: Event, q: NodeId)
    requires Enabled(c, e)
  {
    var pending := c.nodes[Actor(e)].pending;
    exists id :: id in pending && pending[id].to == q && pending[id].msg.AppendEntries? && Ends(c, e, Actor(e), id, q)
  }

  /** An event that does not reach the engine's handlers frees exactly the peers that it loses an append to, and does
      nothing else to the engine. */
  lemma LossesFreeIff(c: Cluster, e: Event, q: NodeId)
    requires Enabled(c, e) && Reaction(c, e).None? && !e.Restart? && Reached(c, Anything)
    ensures var s, s' := c.nodes[Actor(e)].engine, React(c, e).node.engine;
            s' == s.(inflight := s'.inflight) && (q in s'.inflight <==> q in s.inflight && !LosesAppend(c, e, q))
  {
    hide *;
    ActorExists(c, e);
    var h := ReachedCoupled(c, Anything);
    NodeIsOk(c, h, Actor(e), false);
    PendingAreRequests(c, h, Actor(e), false);
    ReactRelaxes(c, e);
    FreesLost(c, e, q);
  }

  lemma FreesLost(c: Cluster, e: Event, q: NodeId)
    requires Enabled(c, e) && Reaction(c, e).None? && !e.Restart?
    requires IdsBelow(c.nodes[Actor(e)]) && OnlyRequests(c.nodes[Actor(e)])
    ensures var s, s' := c.nodes[Actor(e)].engine, React(c, e).node.engine;
            q in s'.inflight <==> q in s.inflight && !LosesAppend(c, e, q)
  {
    hide FailAll, HandleRpc, EngineSpec.Tick, LosesAppend;
    var node := c.nodes[Actor(e)];
    LosesIff(c, e, q);
    if e.Disconnect? {
      FailAllFrees(node.(connected := node.connected - {e.peer}), e.correlations, q);
    }
    if e.Propose? {
      ProposeOnward(node.engine, e.data);
    }
  }

  /** Which requests an event can end without an answer. */
  lemma LosesIff(c: Cluster, e: Event, q: NodeId)
    requires Enabled(c, e) && Reaction(c, e).None? && !e.Restart?
    ensures var pending := c.nodes[Actor(e)].pending;
            LosesAppend(c, e, q) <==>
              || (e.Fail? && e.correlation in pending && FreedBy(pending[e.correlation], q))
              || (e.Disconnect? && exists id :: id in e.correlations && id in pending && FreedBy(pending[id], q))
  {
    hide HandleRpc, EngineSpec.Tick;
  }

  predicate FreedBy(p: Pending, q: NodeId) {
    p.to == q && p.msg.AppendEntries?
  }

  lemma {:induction false} FailAllFrees(n: Node, ids: seq<nat>, q: NodeId)
    requires IdsBelow(n) && OnlyRequests(n)
    ensures q in FailAll(n, ids, false).node.engine.inflight <==>
              q in n.engine.inflight && !exists id :: id in ids && id in n.pending && FreedBy(n.pending[id], q)
    decreases |ids|
  {
    if ids != [] {
      var n1 := FailPending(n, ids[0], false).node;
      FailAllFrees(n1, ids[1..], q);
      assert ids == [ids[0]] + ids[1..];
      forall id | id in ids && id in n.pending && FreedBy(n.pending[id], q)
        ensures id == ids[0] || (id in ids[1..] && id in n1.pending && FreedBy(n1.pending[id], q))
      {
      }
    }
  }

  /** Failures are reported when, and only when, the host is told to report them: once for a request that was pending.
      */
  lemma FailuresAreReported(c: Cluster, e: Event, p: NodeId)
    requires Enabled(c, e)
    ensures RpcFailed(p) in React(c, e).outputs <==>
              && e.Fail? && e.emit && e.correlation in c.nodes[Actor(e)].pending
              && c.nodes[Actor(e)].pending[e.correlation].to == p
  {
    if e.Restart? || e.Fail? {
    } else if Reaction(c, e).Some? {
      ReactExecutes(c, e);
      hide React, Acting, Reaction;
      ExecuteTells(Acting(c, e), Reaction(c, e).value.actions, Inbound(e));
    } else {
      hide React;
      ReactRelaxes(c, e);
    }
  }

  // ---------------------------------------------------------------- connections

  /** Requests are pending to connected peers only. */
  ghost predicate Linked(node: Node) {
    forall id :: id in node.pending ==> node.pending[id].to in node.connected
  }

  lemma ReactLinked(c: Cluster, e: Event)
    requires Enabled(c, e) && Linked(c.nodes[Actor(e)]) && IdsBelow(c.nodes[Actor(e)])
    ensures Linked(React(c, e).node)
  {
    if Reaction(c, e).Some? {
      ReactExecutes(c, e);
      ActingKeeps(c, e);
      hide React, Acting, HandleRpc, EngineSpec.Tick, EngineSpec.Propose;
      var actions := Reaction(c, e).value.actions;
      ExecuteFiles(Acting(c, e), actions, Inbound(e));
      ExecuteDispatches(Acting(c, e), actions, Inbound(e));
      hide Execute, Reaction;
    } else {
      OtherwiseLinked(c, e);
    }
  }

  lemma OtherwiseLinked(c: Cluster, e: Event)
    requires Enabled(c, e) && Reaction(c, e).None? && Linked(c.nodes[Actor(e)])
    ensures Linked(React(c, e).node)
  {
    hide FailAll, HandleRpc, EngineSpec.Tick;
    var node := c.nodes[Actor(e)];
    if e.Disconnect? {
      FailAllQuiet(node.(connected := node.connected - {e.peer}), e.correlations);
    }
    if e.Propose? {
      ProposeOnward(node.engine, e.data);
    }
  }

  ghost predicate AllLinked(c: Cluster) {
    forall n :: n in c.nodes ==> Linked(c.nodes[n])
  }

  ghost predicate LinkedAlong(c: Cluster) {
    AllLinked(c) && HasHistory(c, false)
  }

  lemma StepLinked(c: Cluster, h: Protocol.History, e: Event)
    requires Enabled(c, e) && AllLinked(c) && Coupled(c, h, false)
    ensures AllLinked(Step(c, e))
  {
    hide *;
    ActorExists(c, e);
    NodeIsOk(c, h, Actor(e), false);
    EachLinked(c, Actor(e));
    ReactLinked(c, e);
    StepLinks(c, e);
  }

  lemma EachLinked(c: Cluster, n: NodeId)
    requires AllLinked(c) && n in c.nodes
    ensures Linked(c.nodes[n])
  {
  }

  lemma StepLinks(c: Cluster, e: Event)
    requires Enabled(c, e) && AllLinked(c) && Linked(React(c, e).node)
    ensures AllLinked(Step(c, e))
  {
    hide React, Linked, Enabled;
  }

  lemma LinksGoOn()
    ensures Preserved((c: Cluster) => LinkedAlong(c), Anything)
  {
    hide Coupled, Step, React, Enabled, EngineSteps.Continues, Linked;
    var p := (c: Cluster) => LinkedAlong(c);
    forall c, e | p(c) && Enabled(c, e)
      ensures p(Step(c, e))
    {
      var h: Protocol.History :| Coupled(c, h, false);
      StepLinked(c, h, e);
      var h1 := StepKeeps(c, h, e, false);
    }
  }

  /** In every run, whatever peer a request is pending to is connected, and so is whoever is marked in flight: with
      the last connection everything that waits for the peer has failed. */
  lemma WaitsForConnected(c: Cluster, n: NodeId)
    requires n in c.nodes && Reached(c, Anything)
    ensures forall id :: id in c.nodes[n].pending ==> c.nodes[n].pending[id].to in c.nodes[n].connected
    ensures c.nodes[n].engine.inflight <= c.nodes[n].connected
  {
    hide Coupled, Start, ConfigsOk, Linked, Preserved, Guarantees.AwaitsAppend;
    var p := (x: Cluster) => LinkedAlong(x);
    forall configs, now | ConfigsOk(configs)
      ensures p(Start(configs, now))
    {
      StartCoupled(configs, now, false);
      StartLinked(configs, now);
    }
    LinksGoOn();
    assert p(c);
    LinkedTo(c.nodes[n]);
    forall q | q in c.nodes[n].engine.inflight
      ensures q in c.nodes[n].connected
    {
      Guarantees.NoPeerIsStuck(c, n, q);
      AwaitedIsLinked(c.nodes[n], q);
    }
  }

  lemma LinkedTo(node: Node)
    requires Linked(node)
    ensures forall id :: id in node.pending ==> node.pending[id].to in node.connected
  {
  }

  lemma AwaitedIsLinked(node: Node, q: NodeId)
    requires Linked(node) && exists id :: Guarantees.AwaitsAppend(node, q, id)
    ensures q in node.connected
  {
  }

  lemma StartLinked(configs: map<NodeId, Config>, now: Instant)
    ensures AllLinked(Start(configs, now))
  {
  }
}
