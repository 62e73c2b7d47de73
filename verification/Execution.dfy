/** What carrying out the engine's actions does to the request bookkeeping. */
module Execution {
  import opened Types
  import opened EngineSpec
  import opened NodeSpec
  import opened Cluster
  import opened Coupling
  import M = Membership

  ghost predicate IdsBelow(n: Node) {
    forall id :: id in n.pending ==> id < n.nextCorrelation && n.pending[id].kind == KindOf(n.pending[id].msg)
  }

  /** Some action asks for `msg` to be sent to `to`. */
  ghost predicate Wanted(n: Node, actions: seq<Action>, to: NodeId, msg: Message) {
    Send(to, msg) in actions || (Broadcast(msg) in actions && to in n.engine.Others())
  }

  /** Execution only files new requests, each wanted and each emitted, and may clear in-flight marks. */
  ghost predicate Filed(n: Node, r: Effect, actions: seq<Action>) {
    && r.node.engine == n.engine.(inflight := r.node.engine.inflight) && r.node.engine.inflight <= n.engine.inflight
    && r.node.connected == n.connected && n.nextCorrelation <= r.node.nextCorrelation && IdsBelow(r.node)
    && (forall id :: id in n.pending ==> id in r.node.pending && r.node.pending[id] == n.pending[id])
    && (forall id :: id in r.node.pending && id !in n.pending ==>
          && n.nextCorrelation <= id && Wanted(n, actions, r.node.pending[id].to, r.node.pending[id].msg)
          && SendRequest(r.node.pending[id].to, id, r.node.pending[id].msg) in r.outputs)
    && (forall o :: o in r.outputs && o.SendRequest? ==>
          && n.nextCorrelation <= o.correlation && o.correlation in r.node.pending
          && r.node.pending[o.correlation] == Pending(o.to, KindOf(o.msg), o.msg))
  }

  /** Everything else that comes out is the image of an action. */
  ghost predicate Reported(n: Node, r: Effect, actions: seq<Action>, inbound: Option<NodeId>) {
    forall o :: o in r.outputs ==>
      match o
      case SendRequest(_, _, _) => true
      case SendResponse(to, msg) => inbound == Some(to) && Send(to, msg) in actions
      case RoleChanged(role, t, leader) => role == Leader ==> BecameLeader(t) in actions
      case Committed(entries) => Apply(entries) in actions
      case RpcFailed(_) => true
  }

  lemma FiledChain(n: Node, r1: Effect, r2: Effect, now: seq<Action>, later: seq<Action>)
    requires Filed(n, r1, now) && Filed(r1.node, r2, later)
    ensures Filed(n, Effect(r2.node, r1.outputs + r2.outputs), now + later)
  {
    forall id | id in r2.node.pending && id !in n.pending
      ensures Wanted(n, now + later, r2.node.pending[id].to, r2.node.pending[id].msg)
    {
      if id in r1.node.pending {
        assert Wanted(n, now, r2.node.pending[id].to, r2.node.pending[id].msg);
      } else {
        assert Wanted(r1.node, later, r2.node.pending[id].to, r2.node.pending[id].msg);
      }
    }
  }

  lemma {:induction false} SendToAllFiles(n: Node, peers: seq<NodeId>, msg: Message)
    requires IdsBelow(n)
    ensures Filed(n, SendToAll(n, peers, msg), seq(|peers|, i requires 0 <= i < |peers| => Send(peers[i], msg)))
    ensures forall o :: o in SendToAll(n, peers, msg).outputs ==> o.SendRequest?
    decreases |peers|
  {
    var actions := seq(|peers|, i requires 0 <= i < |peers| => Send(peers[i], msg));
    if peers != [] {
      var r := SendRpc(n, peers[0], msg);
      var rest := seq(|peers| - 1, i requires 0 <= i < |peers| - 1 => Send(peers[1..][i], msg));
      assert actions == [Send(peers[0], msg)] + rest;
      SendRpcFiles(n, peers[0], msg);
      SendToAllFiles(r.node, peers[1..], msg);
      FiledChain(n, r, SendToAll(r.node, peers[1..], msg), [Send(peers[0], msg)], rest);
    }
  }

  lemma SendRpcFiles(n: Node, to: NodeId, msg: Message)
    requires IdsBelow(n)
    ensures Filed(n, SendRpc(n, to, msg), [Send(to, msg)])
    ensures forall o :: o in SendRpc(n, to, msg).outputs ==> o.SendRequest?
  {
    assert Send(to, msg) in [Send(to, msg)];
  }

  lemma ExecuteOneFiles(n: Node, action: Action, inbound: Option<NodeId>)
    requires IdsBelow(n)
    ensures Filed(n, ExecuteOne(n, action, inbound), [action])
    ensures Reported(n, ExecuteOne(n, action, inbound), [action], inbound)
    ensures AppliedBy(ExecuteOne(n, action, inbound).outputs) == if action.Apply? then action.entries else []
  {
    assert action in [action];
    if action.Send? {
      if inbound != Some(action.to) {
        SendRpcFiles(n, action.to, action.msg);
        NothingApplied(SendRpc(n, action.to, action.msg).outputs);
      }
    } else if action.Broadcast? {
      var peers := n.engine.Others();
      SendToAllFiles(n, peers, action.msg);
      var sends := seq(|peers|, i requires 0 <= i < |peers| => Send(peers[i], action.msg));
      var r := SendToAll(n, peers, action.msg);
      forall id | id in r.node.pending && id !in n.pending
        ensures Wanted(n, [action], r.node.pending[id].to, r.node.pending[id].msg)
      {
        assert Wanted(n, sends, r.node.pending[id].to, r.node.pending[id].msg);
      }
      NothingApplied(r.outputs);
    }
  }

  lemma {:induction false} NothingApplied(outputs: seq<Output>)
    requires forall o :: o in outputs ==> !o.Committed?
    ensures AppliedBy(outputs) == []
  {
    if outputs != [] {
      NothingApplied(outputs[1..]);
    }
  }

  lemma {:induction false} AppliedByConcat(a: seq<Output>, b: seq<Output>)
    ensures AppliedBy(a + b) == AppliedBy(a) + AppliedBy(b)
  {
    if a == [] {
      assert a + b == b;
    } else {
      var x := if a[0].Committed? then a[0].entries else [];
      var u, v := AppliedBy(a[1..]), AppliedBy(b);
      assert AppliedBy(a[1..] + b) == u + v by { AppliedByConcat(a[1..], b); }
      assert AppliedBy(a + b) == x + (u + v) by { assert (a + b)[0] == a[0] && (a + b)[1..] == a[1..] + b; }
      assert AppliedBy(a) == x + u;
      hide AppliedBy;
      assert x + (u + v) == (x + u) + v;
    }
  }

  function AppliesOf(actions: seq<Action>): Log {
    if actions == [] then []
    else (if actions[0].Apply? then actions[0].entries else []) + AppliesOf(actions[1..])
  }

  lemma {:induction false} ExecuteFiles(n: Node, actions: seq<Action>, inbound: Option<NodeId>)
    requires IdsBelow(n)
    ensures Filed(n, Execute(n, actions, inbound), actions)
    ensures Reported(n, Execute(n, actions, inbound), actions, inbound)
    ensures AppliedBy(Execute(n, actions, inbound).outputs) == AppliesOf(actions)
    decreases |actions|
  {
    if actions != [] {
      var r := ExecuteOne(n, actions[0], inbound);
      var rest := Execute(r.node, actions[1..], InboundAfter(actions[0], inbound));
      ExecuteOneFiles(n, actions[0], inbound);
      ExecuteFiles(r.node, actions[1..], InboundAfter(actions[0], inbound));
      assert actions == [actions[0]] + actions[1..];
      FiledChain(n, r, rest, [actions[0]], actions[1..]);
      AppliedByConcat(r.outputs, rest.outputs);
    }
  }

  /** Answering a request files nothing: the only message goes out on the inbound channel. */
  lemma {:induction false} ExecuteAnswer(n: Node, before: seq<Action>, to: NodeId, msg: Message)
    requires forall a :: a in before ==> !a.Send? && !a.Broadcast?
    ensures Execute(n, before + [Send(to, msg)], Some(to)).node == n
    ensures SendResponse(to, msg) in Execute(n, before + [Send(to, msg)], Some(to)).outputs
    decreases |before|
  {
    var actions := before + [Send(to, msg)];
    if before == [] {
      assert actions[1..] == [];
    } else {
      ExecuteAnswer(n, before[1..], to, msg);
      assert actions[1..] == before[1..] + [Send(to, msg)];
    }
  }

  /** Actions that send nothing leave the node alone. */
  lemma {:induction false} ExecuteQuiet(n: Node, actions: seq<Action>, inbound: Option<NodeId>)
    requires forall a :: a in actions ==> !a.Send? && !a.Broadcast?
    ensures Execute(n, actions, inbound).node == n
    decreases |actions|
  {
    if actions != [] {
      ExecuteQuiet(n, actions[1..], inbound);
    }
  }

  // ------------------------------------------------------- appends on their way out

  /** Appends the engine has marked in flight and that still have to be filed. */
  ghost predicate OutgoingOne(s: Engine, a: Action) {
    && a.Send? && a.msg.AppendEntries? && a.msg.term == s.Term()
    && a.to in s.inflight && a.to in s.lastAe && s.lastAe[a.to] == (a.msg.prevLogIndex, |a.msg.entries|)
    && a.to in s.nextIndex && s.nextIndex[a.to] == a.msg.prevLogIndex + 1
  }

  ghost predicate Outgoing(s: Engine, todo: seq<Action>) {
    && (forall i :: 0 <= i < |todo| ==> OutgoingOne(s, todo[i]))
    && (forall i, j :: 0 <= i < j < |todo| ==> todo[i].to != todo[j].to)
  }

  /** Every in-flight peer has a pending append or one in `todo`. */
  ghost predicate Underway(n: Node, todo: seq<Action>) {
    forall q :: q in n.engine.inflight ==>
      (exists id :: Awaits(n.pending, id, q, n.engine.Term()))
      || (exists i :: 0 <= i < |todo| && todo[i].Send? && todo[i].to == q)
  }

  lemma SendOneUnderway(n: Node, todo: seq<Action>)
    requires todo != [] && Outgoing(n.engine, todo) && Underway(n, todo) && IdsBelow(n)
    ensures var n' := SendRpc(n, todo[0].to, todo[0].msg).node; Underway(n', todo[1..]) && IdsBelow(n')
  {
    var q, msg := todo[0].to, todo[0].msg;
    var n' := SendRpc(n, q, msg).node;
    hide Remembered;
    forall p | p in n'.engine.inflight
      ensures (exists id :: Awaits(n'.pending, id, p, n'.engine.Term()))
              || (exists i :: 0 <= i < |todo[1..]| && todo[1..][i].Send? && todo[1..][i].to == p)
    {
      if p == q {
        assert Awaits(n'.pending, n.nextCorrelation, q, n'.engine.Term());
      } else if id :| Awaits(n.pending, id, p, n.engine.Term()) {
        assert Awaits(n'.pending, id, p, n'.engine.Term());
      } else {
        var i :| 0 <= i < |todo| && todo[i].Send? && todo[i].to == p;
        assert todo[1..][i - 1].to == p;
      }
    }
  }

  lemma SendOneOutgoing(n: Node, todo: seq<Action>)
    requires todo != [] && Outgoing(n.engine, todo)
    ensures Outgoing(SendRpc(n, todo[0].to, todo[0].msg).node.engine, todo[1..])
  {
    var s' := SendRpc(n, todo[0].to, todo[0].msg).node.engine;
    forall i | 0 <= i < |todo[1..]|
      ensures OutgoingOne(s', todo[1..][i])
    {
      assert todo[1..][i] == todo[i + 1] && todo[i + 1].to != todo[0].to;
    }
  }

  lemma SendOneKeeps(n: Node, todo: seq<Action>)
    requires todo != [] && Outgoing(n.engine, todo) && Underway(n, todo) && IdsBelow(n)
    ensures var n' := SendRpc(n, todo[0].to, todo[0].msg).node;
            Outgoing(n'.engine, todo[1..]) && Underway(n', todo[1..]) && IdsBelow(n')
  {
    hide Underway, Outgoing, SendRpc;
    SendOneUnderway(n, todo);
    SendOneOutgoing(n, todo);
  }

  lemma {:induction false} SendsKeep(n: Node, todo: seq<Action>)
    requires Outgoing(n.engine, todo) && Underway(n, todo) && IdsBelow(n)
    ensures NotStuck(Execute(n, todo, None).node)
    decreases |todo|
  {
    if todo != [] {
      hide Underway, Outgoing;
      SendOneKeeps(n, todo);
      assert todo[0].Send? by { FirstIsSend(n.engine, todo); }
      SendsKeep(SendRpc(n, todo[0].to, todo[0].msg).node, todo[1..]);
    }
  }

  lemma FirstIsSend(s: Engine, todo: seq<Action>)
    requires todo != [] && Outgoing(s, todo)
    ensures todo[0].Send?
  {
  }
}
