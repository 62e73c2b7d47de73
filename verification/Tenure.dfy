/** One leadership and one peer: as long as no append of an earlier leadership was in the way when the first append to
    the peer went out, the leader's books on that peer and its requests to it stay in step. */
module Tenure {
  import opened Types
  import opened LogSpec
  import opened Protocol
  import opened Moves
  import opened EngineSpec
  import opened NodeSpec
  import opened Cluster
  import opened Reachability
  import opened Progress
  import opened Coupling
  import opened Execution
  import opened Replication
  import opened EngineSteps
  import Landing
  import opened Events
  import opened Safety

  /** Request `id` is an append to `p`. */
  ghost predicate AppendTo(node: Node, id: nat, p: NodeId) {
    id in node.pending && node.pending[id].to == p && node.pending[id].msg.AppendEntries?
  }

  /** No append to `p` is pending, whatever leadership it may come from. */
  ghost predicate NothingPending(node: Node, p: NodeId) {
    forall id :: !AppendTo(node, id, p)
  }

  /** At most one append to `p` is pending, and it is what the engine remembers as the last one. */
  ghost predicate Tidy(node: Node, p: NodeId) {
    && (forall id :: AppendTo(node, id, p) ==> Remembered(node.engine, node.pending[id]))
    && (forall i, j :: AppendTo(node, i, p) && AppendTo(node, j, p) ==> i == j)
  }

  /** What `p` is credited with it has acknowledged. */
  ghost predicate Credited(h: History, s: Engine, p: NodeId) {
    p in s.matchIndex ==> s.matchIndex[p] <= h.Ack(p, s.Term())
  }

  // ---------------------------------------------------------------- sending

  /** No append to `p` goes out while one is pending. */
  ghost predicate NotInTheWay(n: Node, todo: seq<Action>, p: NodeId) {
    forall i :: 0 <= i < |todo| && todo[i].Send? && todo[i].to == p ==> NothingPending(n, p)
  }

  lemma SendOneTidy(n: Node, todo: seq<Action>, p: NodeId)
    requires todo != [] && Outgoing(n.engine, todo) && IdsBelow(n) && Tidy(n, p) && NotInTheWay(n, todo, p)
    ensures var n' := SendRpc(n, todo[0].to, todo[0].msg).node;
            Tidy(n', p) && NotInTheWay(n', todo[1..], p) && IdsBelow(n')
  {
    var to, msg := todo[0].to, todo[0].msg;
    var n' := SendRpc(n, to, msg).node;
    assert OutgoingOne(n.engine, todo[0]);
    forall id | AppendTo(n', id, p)
      ensures Remembered(n'.engine, n'.pending[id])
    {
      if id in n.pending {
        assert AppendTo(n, id, p) && Remembered(n.engine, n.pending[id]);
      }
    }
    forall i, j | AppendTo(n', i, p) && AppendTo(n', j, p)
      ensures i == j
    {
      if i in n.pending && j in n.pending {
        assert AppendTo(n, i, p) && AppendTo(n, j, p);
      } else {
        assert to == p && NothingPending(n, p);
        assert !AppendTo(n, i, p) && !AppendTo(n, j, p);
      }
    }
    forall i | 0 <= i < |todo[1..]| && todo[1..][i].Send? && todo[1..][i].to == p
      ensures NothingPending(n', p)
    {
      assert todo[1..][i] == todo[i + 1] && NothingPending(n, p);
      forall id
        ensures !AppendTo(n', id, p)
      {
        assert !AppendTo(n, id, p);
      }
    }
  }

  lemma {:induction false} SendsTidy(n: Node, todo: seq<Action>, p: NodeId)
    requires Outgoing(n.engine, todo) && IdsBelow(n) && Tidy(n, p) && NotInTheWay(n, todo, p)
    ensures Tidy(Execute(n, todo, None).node, p)
    decreases |todo|
  {
    if todo != [] {
      hide Tidy, Outgoing, NotInTheWay, IdsBelow;
      SendOneTidy(n, todo, p);
      SendOneOutgoing(n, todo);
      assert todo[0].Send? by { FirstIsSend(n.engine, todo); }
      SendsTidy(SendRpc(n, todo[0].to, todo[0].msg).node, todo[1..], p);
    }
  }

  lemma SendingTidy(node: Node, s': Engine, actions: seq<Action>, p: NodeId)
    requires Sending(node.engine, s', actions) && Tidy(node, p)
    ensures Tidy(node.(engine := s'), p) && NotInTheWay(node.(engine := s'), actions, p)
  {
    var mid := node.(engine := s');
    forall id | AppendTo(mid, id, p)
      ensures Remembered(s', mid.pending[id])
    {
      assert AppendTo(node, id, p) && Remembered(node.engine, node.pending[id]);
    }
    forall i, j | AppendTo(mid, i, p) && AppendTo(mid, j, p)
      ensures i == j
    {
      assert AppendTo(node, i, p) && AppendTo(node, j, p);
    }
    forall i | 0 <= i < |actions| && actions[i].Send? && actions[i].to == p
      ensures NothingPending(mid, p)
    {
      assert SendsOne(node.engine, s', actions[i]);
      forall id
        ensures !AppendTo(mid, id, p)
      {
        assert AppendTo(mid, id, p) ==> AppendTo(node, id, p) && Remembered(node.engine, node.pending[id]);
      }
    }
  }

  /** A leader that queues appends and has them carried out leaves the peer's books in step. */
  lemma SendingStaysTidy(node: Node, s': Engine, actions: seq<Action>, p: NodeId)
    requires Sending(node.engine, s', actions) && Tidy(node, p) && IdsBelow(node)
    ensures Tidy(Execute(node.(engine := s'), actions, None).node, p)
  {
    hide Tidy, NotInTheWay, Outgoing, Sending;
    SendingTidy(node, s', actions, p);
    SendingIsOutgoing(node.engine, s', actions);
    SendsTidy(node.(engine := s'), actions, p);
  }

  /** Tidiness looks at the term, the marks, the last appends and the next indices only. */
  lemma RebookedTidy(node: Node, s: Engine, p: NodeId)
    requires Tidy(node, p) && s.Term() == node.engine.Term() && s.inflight == node.engine.inflight
    requires s.lastAe == node.engine.lastAe && s.nextIndex == node.engine.nextIndex
    ensures Tidy(node.(engine := s), p)
  {
    var mid := node.(engine := s);
    forall id | AppendTo(mid, id, p)
      ensures Remembered(s, mid.pending[id])
    {
      assert AppendTo(node, id, p) && Remembered(node.engine, node.pending[id]);
    }
    forall i, j | AppendTo(mid, i, p) && AppendTo(mid, j, p)
      ensures i == j
    {
      assert AppendTo(node, i, p) && AppendTo(node, j, p);
    }
  }

  // ---------------------------------------------------------------- answers and failures

  lemma AnswerTidy(node: Node, id: nat, s1: Engine, q: NodeId, p: NodeId)
    requires id in node.pending && node.pending[id].to == q && node.pending[id].msg.AppendEntries?
    requires TookAnswer(node.engine, s1, q) && Tidy(node, p)
    ensures Tidy(node.(engine := s1, pending := node.pending - {id}), p)
  {
    var node1 := node.(engine := s1, pending := node.pending - {id});
    forall i | AppendTo(node1, i, p)
      ensures Remembered(s1, node1.pending[i])
    {
      assert AppendTo(node, i, p) && Remembered(node.engine, node.pending[i]);
      if p == q {
        assert AppendTo(node, id, p);
      }
    }
    forall i, j | AppendTo(node1, i, p) && AppendTo(node1, j, p)
      ensures i == j
    {
      assert AppendTo(node, i, p) && AppendTo(node, j, p);
    }
  }

  lemma DropTidy(node: Node, id: nat, p: NodeId)
    requires Tidy(node, p)
    ensures Tidy(node.(pending := node.pending - {id}), p)
  {
    var node1 := node.(pending := node.pending - {id});
    forall i | AppendTo(node1, i, p)
      ensures Remembered(node1.engine, node1.pending[i])
    {
      assert AppendTo(node, i, p);
    }
    forall i, j | AppendTo(node1, i, p) && AppendTo(node1, j, p)
      ensures i == j
    {
      assert AppendTo(node, i, p) && AppendTo(node, j, p);
    }
  }

  lemma FailTidy(node: Node, id: nat, emit: bool, p: NodeId)
    requires IdsBelow(node) && OnlyRequests(node) && Tidy(node, p)
    ensures var node' := FailPending(node, id, emit).node; Tidy(node', p) && IdsBelow(node') && OnlyRequests(node')
  {
    var node' := FailPending(node, id, emit).node;
    assert id in node.pending && node.pending[id].to == p && node.pending[id].kind == AppendRpc ==>
             AppendTo(node, id, p);
    forall i | AppendTo(node', i, p)
      ensures Remembered(node'.engine, node'.pending[i])
    {
      assert AppendTo(node, i, p) && Remembered(node.engine, node.pending[i]);
    }
    forall i, j | AppendTo(node', i, p) && AppendTo(node', j, p)
      ensures i == j
    {
      assert AppendTo(node, i, p) && AppendTo(node, j, p);
    }
  }

  lemma {:induction false} FailAllTidy(node: Node, ids: seq<nat>, emit: bool, p: NodeId)
    requires IdsBelow(node) && OnlyRequests(node) && Tidy(node, p)
    ensures Tidy(FailAll(node, ids, emit).node, p)
    decreases |ids|
  {
    if ids != [] {
      hide Tidy, IdsBelow, OnlyRequests, FailPending;
      FailTidy(node, ids[0], emit, p);
      FailAllTidy(FailPending(node, ids[0], emit).node, ids[1..], emit, p);
    }
  }

  // ---------------------------------------------------------------- one event of the leader

  /** The leader's requests to `p` are in step with its books, and with `credit` so is what `p` is credited with. */
  ghost predicate InStep(h: History, node: Node, p: NodeId, credit: bool) {
    Tidy(node, p) && (credit ==> Credited(h, node.engine, p))
  }

  /** Of requests, a leader survives only those it merely turns down. */
  lemma LeaderTurnsDown(s: Engine, from: NodeId, msg: Message, now: Instant) returns (answer: Message)
    requires s.role == Leader && (msg.RequestVote? || msg.AppendEntries?)
    requires HandleRpc(s, from, msg, now).engine.role == Leader
    ensures HandleRpc(s, from, msg, now) == Outcome(s, [Send(from, answer)])
  {
    hide Merge, Slice;
    var r := HandleRpc(s, from, msg, now);
    if msg.AppendEntries? {
      answer := AppendEntriesResp(s.Term(), false, |s.log|);
    } else {
      answer := RequestVoteResp(s.Term(), false);
      assert [] + [Send(from, answer)] == [Send(from, answer)];
    }
  }

  lemma RequestInStep(c: Cluster, h: History, e: Event)
    requires Enabled(c, e) && e.DeliverRequest? && Leads(c, Actor(e)) && React(c, e).node.engine.role == Leader
    requires Coupled(c, h, false)
    ensures React(c, e).node == c.nodes[Actor(e)]
  {
    hide Coupled, HandleRpc, Execute;
    var node, q := c.nodes[Actor(e)], e.request;
    RequestKind(c, h, q, false);
    var r := HandleRpc(node.engine, q.src, q.msg, e.now);
    ExecuteTouches(node.(engine := r.engine), r.actions, Some(q.src));
    var answer := LeaderTurnsDown(node.engine, q.src, q.msg, e.now);
    ExecuteAnswer(node, [], q.src, answer);
    assert [] + [Send(q.src, answer)] == [Send(q.src, answer)];
  }

  lemma TickInStep(h: History, n: NodeId, node: Node, now: Instant, p: NodeId, credit: bool)
    requires node.engine.role == Leader && EngineOk(h, n, node.engine, false) && IdsBelow(node)
    requires InStep(h, node, p, credit)
    ensures InStep(h, NodeSpec.Tick(node, now).node, p, credit)
  {
    hide EngineOk, Tidy, Execute, Sending, ReplicateTo;
    var s := node.engine;
    if now >= s.NextDeadline() && now >= s.heartbeatDeadline {
      var r := Replicate(s);
      var beat := now + s.config.heartbeatInterval;
      OthersDistinct(h, n, s, false);
      ReplicateIsSending(s, s.Others());
      ReplicateTouches(s, s.Others());
      var s0, s1 := s.(heartbeatDeadline := beat), r.engine.(heartbeatDeadline := beat);
      RetimedSending(s, r.engine, r.actions, beat);
      RebookedTidy(node, s0, p);
      SendingStaysTidy(node.(engine := s0), s1, r.actions, p);
      ExecuteTouches(node.(engine := s1), r.actions, None);
    } else {
      NothingExecuted(node);
    }
  }

  lemma NothingExecuted(node: Node)
    ensures Execute(node, [], None) == Effect(node, [])
  {
  }

  lemma ProposeInStep(h: History, n: NodeId, node: Node, data: Command, p: NodeId, credit: bool)
    requires node.engine.role == Leader && EngineOk(h, n, node.engine, false) && IdsBelow(node)
    requires InStep(h, node, p, credit)
    ensures InStep(h, NodeSpec.Propose(node, data).node, p, credit)
  {
    hide EngineOk, Tidy, Execute, Sending, ReplicateTo;
    var s := node.engine;
    var s0 := s.(log := s.log + [LogEntry(|s.log| + 1, s.Term(), data)]);
    OthersDistinct(h, n, s, false);
    ReplicateIsSending(s0, s0.Others());
    ReplicateTouches(s0, s0.Others());
    RebookedTidy(node, s0, p);
    var r := Replicate(s0);
    SendingStaysTidy(node.(engine := s0), r.engine, r.actions, p);
    ExecuteTouches(node.(engine := r.engine), r.actions, None);
  }

  /** The leader took an answer in, and sends on what follows from it. */
  lemma AnswerInStep(h: History, node: Node, id: nat, s1: Engine, s': Engine, pre: seq<Action>, sends: seq<Action>,
                     p: NodeId, credit: bool)
    requires id in node.pending && node.pending[id].msg.AppendEntries?
    requires TookAnswer(node.engine, s1, node.pending[id].to)
    requires IdsBelow(node) && Tidy(node, p) && (credit ==> Credited(h, s1, p)) && Sending(s1, s', sends)
    requires forall a :: a in pre ==> a.Apply?
    ensures InStep(h, Execute(node.(engine := s', pending := node.pending - {id}), pre + sends, None).node, p, credit)
  {
    var node1 := node.(engine := s1, pending := node.pending - {id});
    var mid := node.(engine := s', pending := node.pending - {id});
    AnswerTidy(node, id, s1, node.pending[id].to, p);
    SpentOne(node, s1, id);
    hide Tidy, IdsBelow, TookAnswer;
    SendingStaysTidy(node1, s', sends, p);
    ExecuteAfterApplies(mid, pre, sends);
    ExecuteTouches(mid, pre + sends, None);
    hide Execute;
  }

  lemma SuccessInStep(c: Cluster, h: History, n: NodeId, node: Node, id: nat, r: Reply, now: Instant, p: NodeId,
                      credit: bool)
    requires node.engine.role == Leader && IdsBelow(node) && InStep(h, node, p, credit)
    requires id in node.pending && node.pending[id].msg == r.request.msg && node.pending[id].to == r.request.dst
    requires r.request.msg.AppendEntries? && r.msg.AppendEntriesResp? && r.msg.success
    requires r.msg.term == node.engine.Term()
    requires r.request.dst in node.engine.lastAe && ReplyOk(c, h, r)
    ensures var o := HandleRpc(node.engine, node.pending[id].to, r.msg, now);
            InStep(h, Execute(node.(engine := o.engine, pending := node.pending - {id}), o.actions, None).node, p,
                   credit)
  {
    var s, q := node.engine, node.pending[id].to;
    if p == q {
      assert AppendTo(node, id, p);
      CreditIsAcked(c, h, r, s, node.pending[id]);
    }
    var r1 := MaybeCommit(Credit(s, q));
    CommitTouches(Credit(s, q));
    assert credit ==> Credited(h, r1.engine, p);
    CommitOnlyApplied(Credit(s, q));
    CreditTook(s, q, false);
    hide *;
    var sends, s' := SuccessShape(s, q, r.msg, now);
    AnswerInStep(h, node, id, r1.engine, s', r1.actions, sends, p, credit) by { TidyOf(h, node, p, credit); }
  }

  lemma TidyOf(h: History, node: Node, p: NodeId, credit: bool)
    requires InStep(h, node, p, credit)
    ensures Tidy(node, p)
  {
  }

  lemma CommitOnlyApplied(s: Engine)
    ensures forall a :: a in MaybeCommit(s).actions ==> a.Apply?
  {
    hide CommitTarget, Slice;
  }

  lemma RejectInStep(h: History, n: NodeId, node: Node, id: nat, msg: Message, now: Instant, p: NodeId, credit: bool)
    requires node.engine.role == Leader && IdsBelow(node) && InStep(h, node, p, credit)
    requires EngineOk(h, n, node.engine, false)
    requires id in node.pending && node.pending[id].msg.AppendEntries? && node.pending[id].to in node.engine.lastAe
    requires msg.AppendEntriesResp? && !msg.success && msg.term == node.engine.Term()
    ensures var o := HandleRpc(node.engine, node.pending[id].to, msg, now);
            InStep(h, Execute(node.(engine := o.engine, pending := node.pending - {id}), o.actions, None).node, p,
                   credit)
  {
    hide *;
    var s, q := node.engine, node.pending[id].to;
    AnsweredPeer(h, n, s, q, false);
    var s1, sends, s' := RejectShape(h, n, s, q, msg, now, false);
    TidyOf(h, node, p, credit);
    SameCredit(h, node, s1, q, p, credit);
    AnswerInStep(h, node, id, s1, s', [], sends, p, credit) by { NoneApplied(); }
  }

  lemma SameCredit(h: History, node: Node, s1: Engine, q: NodeId, p: NodeId, credit: bool)
    requires InStep(h, node, p, credit) && TookAnswer(node.engine, s1, q) && s1.matchIndex == node.engine.matchIndex
    ensures credit ==> Credited(h, s1, p)
  {
  }

  lemma NoneApplied()
    ensures forall a: Action :: a in [] ==> a.Apply?
  {
  }

  /** An answer that a leader of that term has no use for. */
  lemma IgnoredInStep(h: History, node: Node, id: nat, p: NodeId, credit: bool)
    requires id in node.pending && InStep(h, node, p, credit)
    ensures InStep(h, Execute(node.(pending := node.pending - {id}), [], None).node, p, credit)
  {
    hide Tidy, Execute;
    DropTidy(node, id, p);
    NothingExecuted(node.(pending := node.pending - {id}));
  }

  lemma VoteIgnored(s: Engine, from: NodeId, msg: Message, now: Instant)
    requires s.role == Leader && msg.RequestVoteResp? && HandleRpc(s, from, msg, now).engine.role == Leader
    ensures HandleRpc(s, from, msg, now) == Outcome(s, [])
  {
  }

  lemma LaterAnswerDeposes(s: Engine, from: NodeId, msg: Message, now: Instant)
    requires s.role == Leader && msg.AppendEntriesResp? && HandleRpc(s, from, msg, now).engine.role == Leader
    ensures msg.term <= s.Term()
  {
  }

  /** The answer to a pending request. */
  lemma AnsweredInStep(c: Cluster, h: History, n: NodeId, node: Node, id: nat, r: Reply, now: Instant, p: NodeId,
                       credit: bool)
    requires node.engine.role == Leader && IdsBelow(node) && InStep(h, node, p, credit)
    requires EngineOk(h, n, node.engine, false)
    requires id in node.pending && node.pending[id].msg == r.request.msg && node.pending[id].to == r.request.dst
    requires ReplyOk(c, h, r) && HandleRpc(node.engine, node.pending[id].to, r.msg, now).engine.role == Leader
    ensures var o := HandleRpc(node.engine, node.pending[id].to, r.msg, now);
            InStep(h, Execute(node.(engine := o.engine, pending := node.pending - {id}), o.actions, None).node, p,
                   credit)
  {
    var s, q := node.engine, node.pending[id].to;
    ReplyKinds(c, h, r);
    hide EngineOk, InStep, IdsBelow, ReplyOk, Execute, HandleRpc;
    if r.msg.RequestVoteResp? {
      VoteIgnored(s, q, r.msg, now);
      IgnoredInStep(h, node, id, p, credit);
    } else {
      LaterAnswerDeposes(s, q, r.msg, now);
      if r.msg.term != s.Term() || q !in s.lastAe {
        IgnoredShape(s, q, r.msg, now);
        IgnoredInStep(h, node, id, p, credit);
      } else if r.msg.success {
        SuccessInStep(c, h, n, node, id, r, now, p, credit);
      } else {
        RejectInStep(h, n, node, id, r.msg, now, p, credit);
      }
    }
  }

  lemma ReplyKinds(c: Cluster, h: History, r: Reply)
    requires ReplyOk(c, h, r)
    ensures r.msg.RequestVoteResp? || (r.msg.AppendEntriesResp? && r.request.msg.AppendEntries?)
  {
  }

  lemma ReplyInStep(c: Cluster, h: History, e: Event, p: NodeId, credit: bool)
    requires Enabled(c, e) && e.DeliverReply? && Leads(c, Actor(e)) && React(c, e).node.engine.role == Leader
    requires InStep(h, c.nodes[Actor(e)], p, credit) && Coupled(c, h, false)
    ensures InStep(h, React(c, e).node, p, credit)
  {
    hide Coupled, HandleRpc, Execute, InStep, EngineOk, NodeOk, NotStuck, IdsBelow, ReplyOk, MsgOk, Inv;
    var node, id := c.nodes[Actor(e)], e.reply.request.correlation;
    NodeIsOk(c, h, Actor(e), false);
    if e.reply.request.incarnation == c.incarnation[Actor(e)] && id in node.pending {
      PendingMatches(c, h, e.reply, false);
      var r := HandleRpc(node.engine, node.pending[id].to, e.reply.msg, e.now);
      ExecuteTouches(node.(engine := r.engine, pending := node.pending - {id}), r.actions, None);
      AnsweredInStep(c, h, Actor(e), node, id, e.reply, e.now, p, credit);
    }
  }

  lemma FailureInStep(c: Cluster, h: History, e: Event, p: NodeId, credit: bool)
    requires Enabled(c, e) && (e.Fail? || e.Connect? || e.Disconnect?) && Leads(c, Actor(e))
    requires InStep(h, c.nodes[Actor(e)], p, credit) && Coupled(c, h, false)
    ensures InStep(h, React(c, e).node, p, credit)
  {
    hide Coupled, Tidy, FailAll, EngineOk, NodeOk, NotStuck, IdsBelow, OnlyRequests, Inv;
    var node := c.nodes[Actor(e)];
    NodeIsOk(c, h, Actor(e), false);
    PendingAreRequests(c, h, Actor(e), false);
    match e
    case Fail(_, id, emit) => FailTidy(node, id, emit, p);
    case Connect(_, peer) => ReconnectedTidy(node, node.connected + {peer}, p);
    case Disconnect(_, peer, ids) =>
      var cut := node.(connected := node.connected - {peer});
      ReconnectedTidy(node, cut.connected, p);
      FailAllTidy(cut, ids, false, p);
      FailAllTouches(cut, ids, false);
    case Tick(_, _) =>
    case Propose(_, _) =>
    case DeliverRequest(_, _) =>
    case DeliverReply(_, _) =>
    case Restart(_, _) =>
  }

  lemma ReconnectedTidy(node: Node, connected: set<NodeId>, p: NodeId)
    requires IdsBelow(node) && OnlyRequests(node) && Tidy(node, p)
    ensures var node' := node.(connected := connected); IdsBelow(node') && OnlyRequests(node') && Tidy(node', p)
  {
    var node' := node.(connected := connected);
    forall i | AppendTo(node', i, p)
      ensures Remembered(node'.engine, node'.pending[i])
    {
      assert AppendTo(node, i, p);
    }
    forall i, j | AppendTo(node', i, p) && AppendTo(node', j, p)
      ensures i == j
    {
      assert AppendTo(node, i, p) && AppendTo(node, j, p);
    }
  }

  /** Whatever happens to a leader that stays one, its books on `p` stay in step. */
  lemma LeaderInStep(c: Cluster, h: History, e: Event, p: NodeId, credit: bool)
    requires Enabled(c, e) && Leads(c, Actor(e)) && React(c, e).node.engine.role == Leader
    requires InStep(h, c.nodes[Actor(e)], p, credit) && Coupled(c, h, false)
    ensures InStep(h, React(c, e).node, p, credit)
  {
    hide Coupled, InStep, NodeSpec.Tick, NodeSpec.Propose, EngineOk, NodeOk, NotStuck, IdsBelow, Inv;
    hide HandleRpc, Execute;
    var n := Actor(e);
    NodeIsOk(c, h, n, false);
    match e
    case Tick(_, now) => TickInStep(h, n, c.nodes[n], now, p, credit);
    case Propose(_, data) => ProposeInStep(h, n, c.nodes[n], data, p, credit);
    case DeliverRequest(_, _) => RequestInStep(c, h, e);
    case DeliverReply(_, _) => ReplyInStep(c, h, e, p, credit);
    case Fail(_, _, _) => FailureInStep(c, h, e, p, credit);
    case Connect(_, _) => FailureInStep(c, h, e, p, credit);
    case Disconnect(_, _, _) => FailureInStep(c, h, e, p, credit);
    case Restart(_, _) =>
  }

  // ---------------------------------------------------------------- a whole leadership

  lemma CreditGrows(h: History, h': History, m: NodeId, node: Node, p: NodeId, credit: bool)
    requires InStep(h, node, p, credit) && Extends(h, h', m)
    ensures InStep(h', node, p, credit)
  {
    hide Tidy;
    assert h.Ack(p, node.engine.Term()) <= h'.Ack(p, node.engine.Term());
  }

  /** `c` has a history in which `l`, if it still leads the term it led with engine `s`, is in step with `p`. */
  ghost predicate StillInStep(s: Engine, c: Cluster, l: NodeId, p: NodeId, credit: bool) {
    && l in c.nodes && Onward(s, c.nodes[l].engine)
    && exists h: History :: Coupled(c, h, false) && LeadsInStep(s, c, h, l, p, credit)
  }

  ghost predicate LeadsInStep(s: Engine, c: Cluster, h: History, l: NodeId, p: NodeId, credit: bool)
    requires l in c.nodes
  {
    Leads(c, l) && TermOf(c, l) == s.Term() ==> InStep(h, c.nodes[l], p, credit)
  }

  lemma OneStepOn(s: Engine, c: Cluster, e: Event, l: NodeId, p: NodeId, credit: bool)
    requires s.role == Leader && Enabled(c, e) && StillInStep(s, c, l, p, credit)
    ensures StillInStep(s, Step(c, e), l, p, credit)
  {
    hide Coupled, InStep, Step, React, Onward, Continues, Enabled;
    var h: History :| Coupled(c, h, false) && LeadsInStep(s, c, h, l, p, credit);
    var h' := StepKeeps(c, h, e, false);
    StepOnward(c, e, l);
    OnwardTransitive(s, c.nodes[l].engine, Step(c, e).nodes[l].engine);
    var c' := Step(c, e);
    if Leads(c', l) && TermOf(c', l) == s.Term() {
      LedBefore(s, c.nodes[l].engine, c'.nodes[l].engine);
      if Actor(e) == l {
        ActorAfter(c, e);
        LeaderInStep(c, h, e, p, credit);
      } else {
        BystanderAfter(c, e, l);
      }
      CreditGrows(h, h', Actor(e), c'.nodes[l], p, credit) by { StepExtends(h, h', Actor(e)); }
    }
    assert LeadsInStep(s, c', h', l, p, credit);
  }

  lemma LedBefore(s: Engine, s1: Engine, s2: Engine)
    requires Onward(s, s1) && Onward(s1, s2) && s.role == Leader && s2.role == Leader && s2.Term() == s.Term()
    ensures s1.role == Leader && s1.Term() == s.Term()
  {
  }

  lemma ActorAfter(c: Cluster, e: Event)
    requires Enabled(c, e)
    ensures Actor(e) in Step(c, e).nodes && Step(c, e).nodes[Actor(e)] == React(c, e).node
  {
    hide React;
  }

  lemma BystanderAfter(c: Cluster, e: Event, n: NodeId)
    requires Enabled(c, e) && n in c.nodes && n != Actor(e)
    ensures n in Step(c, e).nodes && Step(c, e).nodes[n] == c.nodes[n]
  {
    hide React;
  }

  lemma StepExtends(h: History, h': History, m: NodeId)
    requires Continues(h, h', m)
    ensures Extends(h, h', m)
  {
    hide Inv, Extends, Landing.SecureKept;
  }

  lemma InStepGoesOn(s: Engine, l: NodeId, p: NodeId, credit: bool)
    requires s.role == Leader
    ensures Preserved((c: Cluster) => StillInStep(s, c, l, p, credit), Anything)
  {
    hide Enabled, Step, StillInStep, WinsWithLeftovers;
    var q := (c: Cluster) => StillInStep(s, c, l, p, credit);
    forall c, e | q(c) && Enabled(c, e)
      ensures q(Step(c, e))
    {
      OneStepOn(s, c, e, l, p, credit);
    }
  }

  /** A leader that is in step with `p` is so in every future in which it still leads that term. */
  lemma FutureInStep(b: Cluster, h: History, c: Cluster, l: NodeId, p: NodeId, credit: bool) returns (h': History)
    requires Leads(b, l) && InStep(h, b.nodes[l], p, credit) && Follows(b, c, Anything)
    requires Leads(c, l) && TermOf(c, l) == TermOf(b, l) && Coupled(b, h, false)
    ensures Coupled(c, h', false) && InStep(h', c.nodes[l], p, credit)
  {
    hide Coupled, InStep, Preserved, Onward;
    var s := b.nodes[l].engine;
    var q := (x: Cluster) => StillInStep(s, x, l, p, credit);
    OnwardReflexive(s);
    assert LeadsInStep(s, b, h, l, p, credit);
    assert q(b);
    InStepGoesOn(s, l, p, credit);
    assert q(c);
    h' :| Coupled(c, h', false) && LeadsInStep(s, c, h', l, p, credit);
  }

  /** Whatever comes, a node's term and a leader's log and match indices only move forward. */
  lemma FutureOnward(b: Cluster, c: Cluster, n: NodeId)
    requires n in b.nodes && Follows(b, c, Anything)
    ensures n in c.nodes && Onward(b.nodes[n].engine, c.nodes[n].engine)
  {
    hide Onward, Enabled, Step;
    var s := b.nodes[n].engine;
    var q := (x: Cluster) => n in x.nodes && Onward(s, x.nodes[n].engine);
    OnwardReflexive(s);
    forall x, e | q(x) && Enabled(x, e)
      ensures q(Step(x, e))
    {
      StepOnward(x, e, n);
      OnwardTransitive(s, x.nodes[n].engine, Step(x, e).nodes[n].engine);
    }
    assert Preserved(q, Anything);
    assert q(b);
    assert q(c);
  }
}
