/** The behaviour that hosts an engine: it files requests, matches answers to them, times them out, and keeps a timer
    armed. Every operation is proved to do what NodeSpec says, and never to leave the timer set too late. */
module RaftBehaviour {
  import opened Types
  import Spec = NodeSpec
  import EngineSpec
  import Progress
  import RaftEngine

  /** A clock that never runs backwards. */
  class Clock {
    var time: Instant

    constructor (start: Instant)
      ensures time == start
    {
      time := start;
    }

    method Now() returns (now: Instant)
      modifies this
      ensures old(time) <= time == now
    {
      var elapsed: nat :| elapsed >= 0;
      time := time + elapsed;
      now := time;
    }
  }

  /** The peers with at least one open connection. */
  ghost function Connected(connections: map<NodeId, set<nat>>): set<NodeId> {
    set p | p in connections && connections[p] != {}
  }

  predicate IsConnected(connections: map<NodeId, set<nat>>, peer: NodeId) {
    peer in connections && connections[peer] != {}
  }

  predicate IsOpen(connections: map<NodeId, set<nat>>, peer: NodeId, connection: nat) {
    peer in connections && connection in connections[peer]
  }

  function Opened(connections: map<NodeId, set<nat>>, peer: NodeId, connection: nat): (r: map<NodeId, set<nat>>)
    ensures forall q, k :: IsOpen(r, q, k) <==> IsOpen(connections, q, k) || (q == peer && k == connection)
  {
    connections[peer := (if peer in connections then connections[peer] else {}) + {connection}]
  }

  /** A peer is forgotten together with its last connection. */
  function Closed(connections: map<NodeId, set<nat>>, peer: NodeId, connection: nat): (r: map<NodeId, set<nat>>)
    ensures forall q, k :: IsOpen(r, q, k) <==> IsOpen(connections, q, k) && !(q == peer && k == connection)
  {
    if peer !in connections then connections
    else if connections[peer] - {connection} == {} then
      assert forall k :: k in connections[peer] && k != connection ==> k in connections[peer] - {connection};
      connections - {peer}
    else connections[peer := connections[peer] - {connection}]
  }

  lemma OpenedConnects(connections: map<NodeId, set<nat>>, peer: NodeId, connection: nat)
    ensures Connected(Opened(connections, peer, connection)) == Connected(connections) + {peer}
  {
    assert connection in Opened(connections, peer, connection)[peer];
  }

  /** Closing a connection that is not the last leaves the peer connected. */
  lemma ClosedDisconnects(connections: map<NodeId, set<nat>>, peer: NodeId, connection: nat)
    ensures var left := Closed(connections, peer, connection);
            Connected(left) == if IsConnected(left, peer) then Connected(connections)
                               else Connected(connections) - {peer}
  {
  }

  /** Some connection to the peer is open besides the one given. */
  ghost predicate HasAnother(connections: map<NodeId, set<nat>>, peer: NodeId, connection: nat) {
    exists k: nat :: k != connection && IsOpen(connections, peer, k)
  }

  lemma ClosedLeaves(connections: map<NodeId, set<nat>>, peer: NodeId, connection: nat)
    ensures IsConnected(Closed(connections, peer, connection), peer) <==> HasAnother(connections, peer, connection)
  {
    var left := Closed(connections, peer, connection);
    if IsConnected(left, peer) {
      var k :| k in left[peer];
      assert IsOpen(left, peer, k);
    }
    if k: nat :| k != connection && IsOpen(connections, peer, k) {
      assert IsOpen(left, peer, k);
    }
  }

  datatype PendingRequest = PendingRequest(to: NodeId, kind: RpcKind, sentAt: Instant, msg: Message) {
    function Forgetful(): Spec.Pending {
      Spec.Pending(to, kind, msg)
    }
  }

  /** The requests without the times they were sent at. */
  function Untimed(pending: map<nat, PendingRequest>): map<nat, Spec.Pending> {
    map id | id in pending :: pending[id].Forgetful()
  }

  lemma UntimedInsert(pending: map<nat, PendingRequest>, id: nat, p: PendingRequest)
    ensures Untimed(pending[id := p]) == Untimed(pending)[id := p.Forgetful()]
  {
  }

  lemma UntimedRemove(pending: map<nat, PendingRequest>, id: nat)
    ensures Untimed(pending - {id}) == Untimed(pending) - {id}
  {
  }

  // ---------------------------------------------------------------- how requests come and go

  /** The requests on file, the id of the next one, and the time. */
  datatype Ledger = Ledger(pending: map<nat, PendingRequest>, next: nat, time: Instant)

  /** Requests that are still on file are as they were, and new ones carry the time at which they were filed. */
  ghost predicate GoesOn(a: Ledger, b: Ledger) {
    && a.next <= b.next && a.time <= b.time
    && forall id :: id in b.pending ==>
         if id < a.next then id in a.pending && b.pending[id] == a.pending[id]
         else id < b.next && a.time <= b.pending[id].sentAt <= b.time
  }

  lemma RearmedLater(a: Ledger, b: Ledger, c: Ledger)
    requires GoesOn(a, b) && c == b.(time := c.time) && b.time <= c.time
    ensures GoesOn(a, c)
  {
  }

  lemma GoesOnFurther(a: Ledger, b: Ledger, c: Ledger)
    requires GoesOn(a, b) && GoesOn(b, c)
    ensures GoesOn(a, c)
  {
  }

  /** What is left when the requests `ids` are gone. */
  ghost predicate Dropped(before: map<nat, PendingRequest>, ids: seq<nat>, after: map<nat, PendingRequest>) {
    && (forall id :: id in after <==> id in before && id !in ids)
    && forall id :: id in after ==> after[id] == before[id]
  }

  /** `ids` are the requests that have waited for the whole time-out by `now`; one of no length is always over. */
  ghost predicate AreOverdue(pending: map<nat, PendingRequest>, timeout: nat, now: Instant, ids: seq<nat>) {
    forall id :: id in ids <==> id in pending && (pending[id].sentAt + timeout <= now || timeout == 0)
  }

  /** Everything that was due at `since` is gone. */
  ghost predicate CaughtUp(before: map<nat, PendingRequest>, timeout: nat, since: Instant,
                           after: map<nat, PendingRequest>) {
    forall id :: id in before && before[id].sentAt + timeout <= since ==> id !in after
  }

  lemma ExpiredIsGone(a: Ledger, timeout: nat, now: Instant, ids: seq<nat>, mid: Ledger)
    requires AreOverdue(a.pending, timeout, now, ids) && Dropped(a.pending, ids, mid.pending)
    requires a.next == mid.next && a.time <= now == mid.time && GoesOn(a, a)
    ensures GoesOn(a, mid) && CaughtUp(a.pending, timeout, a.time, mid.pending)
  {
  }

  lemma GoneForGood(a: Ledger, mid: Ledger, b: Ledger, timeout: nat)
    requires GoesOn(a, mid) && GoesOn(mid, b) && GoesOn(a, a) && CaughtUp(a.pending, timeout, a.time, mid.pending)
    ensures GoesOn(a, b) && CaughtUp(a.pending, timeout, a.time, b.pending)
  {
  }

  // ---------------------------------------------------------------- what a poll does to the node

  datatype Round = Expired(correlations: seq<nat>) | Ticked(now: Instant)

  function Play(n: Spec.Node, round: Round): Spec.Effect {
    match round
    case Expired(ids) => Spec.FailAll(n, ids, false)
    case Ticked(now) => Spec.Tick(n, now)
  }

  /** The rounds one after the other. */
  function PlayAll(n: Spec.Node, rounds: seq<Round>): Spec.Effect
    decreases |rounds|
  {
    if rounds == [] then Spec.Effect(n, [])
    else
      var r := PlayAll(n, rounds[..|rounds| - 1]);
      var last := Play(r.node, rounds[|rounds| - 1]);
      Spec.Effect(last.node, r.outputs + last.outputs)
  }

  lemma PlayOneMore(n: Spec.Node, rounds: seq<Round>, round: Round)
    ensures var r := PlayAll(n, rounds); var last := Play(r.node, round);
            PlayAll(n, rounds + [round]) == Spec.Effect(last.node, r.outputs + last.outputs)
  {
    hide Play;
    assert (rounds + [round])[..|rounds|] == rounds;
  }

  /** From `before` and its queue, the rounds lead to `after`; `events` is what the queue has become. */
  ghost predicate Accounts(before: Spec.Node, queue: seq<Spec.Output>, rounds: seq<Round>, after: Spec.Node,
                           events: seq<Spec.Output>) {
    var r := PlayAll(before, rounds);
    after == r.node && events == queue + r.outputs
  }

  lemma AccountsNothing(n: Spec.Node, queue: seq<Spec.Output>)
    ensures Accounts(n, queue, [], n, queue)
  {
  }

  lemma AccountsMore(before: Spec.Node, queue: seq<Spec.Output>, rounds: seq<Round>, mid: Spec.Node,
                     events: seq<Spec.Output>, round: Round)
    requires Accounts(before, queue, rounds, mid, events)
    ensures var r := Play(mid, round); Accounts(before, queue, rounds + [round], r.node, events + r.outputs)
  {
    hide PlayAll, Play;
    PlayOneMore(before, rounds, round);
  }

  lemma AccountsExpired(before: Spec.Node, queue: seq<Spec.Output>, rounds: seq<Round>, mid: Spec.Node,
                        events: seq<Spec.Output>, ids: seq<nat>)
    requires Accounts(before, queue, rounds, mid, events)
    ensures var r := Spec.FailAll(mid, ids, false);
            Accounts(before, queue, rounds + [Expired(ids)], r.node, events + r.outputs)
  {
    hide Accounts, Spec.FailAll;
    AccountsMore(before, queue, rounds, mid, events, Expired(ids));
  }

  lemma AccountsTicked(before: Spec.Node, queue: seq<Spec.Output>, rounds: seq<Round>, mid: Spec.Node,
                       events: seq<Spec.Output>, now: Instant)
    requires Accounts(before, queue, rounds, mid, events)
    ensures var r := Spec.Tick(mid, now);
            Accounts(before, queue, rounds + [Ticked(now)], r.node, events + r.outputs)
  {
    hide Accounts, Spec.Tick;
    AccountsMore(before, queue, rounds, mid, events, Ticked(now));
  }

  lemma AccountsJoin(a: Spec.Node, queue: seq<Spec.Output>, first: seq<Round>, b: Spec.Node, mid: seq<Spec.Output>,
                     second: seq<Round>, c: Spec.Node, events: seq<Spec.Output>)
    requires Accounts(a, queue, first, b, mid) && Accounts(b, mid, second, c, events)
    ensures Accounts(a, queue, first + second, c, events)
  {
    hide PlayAll;
    PlayJoin(a, first, second);
  }

  lemma {:induction false} PlayJoin(n: Spec.Node, first: seq<Round>, second: seq<Round>)
    ensures var r := PlayAll(n, first); var more := PlayAll(r.node, second);
            PlayAll(n, first + second) == Spec.Effect(more.node, r.outputs + more.outputs)
    decreases |second|
  {
    hide Play;
    if second == [] {
      assert first + second == first;
    } else {
      var init, last := second[..|second| - 1], second[|second| - 1];
      PlayJoin(n, first, init);
      assert (first + second)[..|first + second| - 1] == first + init;
    }
  }

  /** Nothing a poll does ends a leadership or moves a leader's election deadline. */
  lemma {:induction false} PollKeepsLeader(n: Spec.Node, rounds: seq<Round>)
    requires n.engine.role == Leader
    ensures var s := PlayAll(n, rounds).node.engine; s.role == Leader && s.electionDeadline == n.engine.electionDeadline
    decreases |rounds|
  {
    if rounds != [] {
      var r := PlayAll(n, rounds[..|rounds| - 1]);
      PollKeepsLeader(n, rounds[..|rounds| - 1]);
      RoundKeepsLeader(r.node, rounds[|rounds| - 1]);
      hide Play;
    }
  }

  lemma RoundKeepsLeader(n: Spec.Node, round: Round)
    requires n.engine.role == Leader
    ensures var s := Play(n, round).node.engine; s.role == Leader && s.electionDeadline == n.engine.electionDeadline
  {
    hide Spec.FailAll, Spec.Execute, EngineSpec.ReplicateTo;
    match round
    case Expired(ids) => Progress.FailAllTouches(n, ids, false);
    case Ticked(now) =>
      var r := EngineSpec.Tick(n.engine, now);
      Progress.ReplicateTouches(n.engine, n.engine.Others());
      Progress.ExecuteTouches(n.(engine := r.engine), r.actions, None);
  }

  /** A pass of the loop that finds nothing queued: it expires what is due at `now`, and ticks if the engine is due.
      */
  ghost predicate IsPass(pending: map<nat, PendingRequest>, timeout: nat, deadline: Instant, now: Instant,
                         rounds: seq<Round>) {
    && rounds != [] && rounds[0].Expired?
    && AreOverdue(pending, timeout, now, rounds[0].correlations)
    && rounds[1..] == if now >= deadline then [Ticked(now)] else []
  }

  /** The first rounds are a pass, made between `from` and `to`. */
  ghost predicate BeginsWithPass(pending: map<nat, PendingRequest>, timeout: nat, deadline: Instant,
                                 from: Instant, to: Instant, rounds: seq<Round>) {
    exists now: Instant, k: nat ::
      from <= now <= to && k <= |rounds| && IsPass(pending, timeout, deadline, now, rounds[..k])
  }

  lemma BeginsStill(pending: map<nat, PendingRequest>, timeout: nat, deadline: Instant, from: Instant, to: Instant,
                    rounds: seq<Round>, later: Instant, more: seq<Round>)
    requires BeginsWithPass(pending, timeout, deadline, from, to, rounds) && to <= later
    ensures BeginsWithPass(pending, timeout, deadline, from, later, rounds + more)
  {
    var now: Instant, k: nat :|
      from <= now <= to && k <= |rounds| && IsPass(pending, timeout, deadline, now, rounds[..k]);
    assert (rounds + more)[..k] == rounds[..k];
  }

  /** Such a pass, as long as nothing comes out of the expiry. */
  ghost predicate Passes(n: Spec.Node, pending: map<nat, PendingRequest>, timeout: nat, now: Instant,
                         rounds: seq<Round>) {
    && rounds != [] && rounds[0].Expired?
    && (Spec.FailAll(n, rounds[0].correlations, false).outputs == [] ==>
          IsPass(pending, timeout, n.engine.NextDeadline(), now, rounds))
  }

  /** Nothing does: requests expire silently. */
  lemma ExpiryIsSilent(n: Spec.Node, pending: map<nat, PendingRequest>, timeout: nat, from: Instant, to: Instant,
                       rounds: seq<Round>)
    requires exists now: Instant :: from <= now <= to && Passes(n, pending, timeout, now, rounds)
    ensures BeginsWithPass(pending, timeout, n.engine.NextDeadline(), from, to, rounds)
  {
    hide Spec.FailAll;
    var now: Instant :| from <= now <= to && Passes(n, pending, timeout, now, rounds);
    Progress.FailAllQuiet(n, rounds[0].correlations);
    assert rounds[..|rounds|] == rounds;
  }

  lemma PassesOnce(n: Spec.Node, pending: map<nat, PendingRequest>, timeout: nat, now: Instant, ids: seq<nat>,
                   rounds: seq<Round>)
    requires AreOverdue(pending, timeout, now, ids)
    requires rounds == [Expired(ids)] + (if now >= n.engine.NextDeadline() then [Ticked(now)] else [])
             || (rounds == [Expired(ids)] && Spec.FailAll(n, ids, false).outputs != [])
    ensures Passes(n, pending, timeout, now, rounds)
  {
    hide Spec.FailAll;
  }

  lemma FailNothing(n: Spec.Node, emitEvent: bool)
    ensures Spec.FailAll(n, [], emitEvent) == Spec.Effect(n, [])
  {
  }

  lemma FailNext(n: Spec.Node, ids: seq<nat>, i: nat, emitEvent: bool)
    requires i < |ids|
    ensures var r := Spec.FailPending(n, ids[i], emitEvent); var rest := Spec.FailAll(r.node, ids[i + 1..], emitEvent);
            Spec.FailAll(n, ids[i..], emitEvent) == Spec.Effect(rest.node, r.outputs + rest.outputs)
  {
    hide Spec.FailPending;
    assert ids[i..][0] == ids[i] && ids[i..][1..] == ids[i + 1..];
  }

  lemma SendToNobody(n: Spec.Node, msg: Message)
    ensures Spec.SendToAll(n, [], msg) == Spec.Effect(n, [])
  {
  }

  lemma SendToNext(n: Spec.Node, peers: seq<NodeId>, i: nat, msg: Message)
    requires i < |peers|
    ensures var r := Spec.SendRpc(n, peers[i], msg); var rest := Spec.SendToAll(r.node, peers[i + 1..], msg);
            Spec.SendToAll(n, peers[i..], msg) == Spec.Effect(rest.node, r.outputs + rest.outputs)
  {
    hide Spec.SendRpc;
    assert peers[i..][0] == peers[i] && peers[i..][1..] == peers[i + 1..];
  }

  lemma ExecuteNothing(n: Spec.Node, inbound: Option<NodeId>)
    ensures Spec.Execute(n, [], inbound) == Spec.Effect(n, [])
  {
  }

  lemma ExecuteNext(n: Spec.Node, actions: seq<Action>, i: nat, inbound: Option<NodeId>)
    requires i < |actions|
    ensures var r := Spec.ExecuteOne(n, actions[i], inbound);
            var rest := Spec.Execute(r.node, actions[i + 1..], Spec.InboundAfter(actions[i], inbound));
            Spec.Execute(n, actions[i..], inbound) == Spec.Effect(rest.node, r.outputs + rest.outputs)
  {
    hide Spec.ExecuteOne;
    assert actions[i..][0] == actions[i] && actions[i..][1..] == actions[i + 1..];
  }

  datatype PollResult = Ready(event: Spec.Output) | Pending | Spinning

  class RaftBehaviour {
    const engine: RaftEngine.RaftEngine
    const config: Config
    const clock: Clock
    var connections: map<NodeId, set<nat>>
    var pendingEvents: seq<Spec.Output>
    var nextCorrelationId: nat
    var pending: map<nat, PendingRequest>
    var inboundChannels: map<nat, NodeId>
    var timer: Instant

    ghost predicate Valid()
      reads this`pending, this`nextCorrelationId, engine, engine.storage
    {
      engine.Valid() && engine.config == config && forall id :: id in pending ==> id < nextCorrelationId
    }

    ghost function Books(): Ledger
      reads this`pending, this`nextCorrelationId, clock
    {
      Ledger(pending, nextCorrelationId, clock.time)
    }

    ghost function View(): Spec.Node
      reads this`connections, this`pending, this`nextCorrelationId, engine, engine.storage
    {
      Spec.Node(engine.View(), Connected(connections), Untimed(pending), nextCorrelationId)
    }

    lemma BooksAre()
      ensures Books() == Ledger(pending, nextCorrelationId, clock.time)
    {
    }

    lemma GoesNowhere()
      requires Valid()
      ensures GoesOn(Books(), Books())
    {
    }

    /** `t` is no later than anything the node has to wake up for. */
    ghost predicate Timely(t: Instant)
      reads this`pending, engine, engine.storage
    {
      && t <= engine.NextDeadline()
      && forall id :: id in pending ==> t <= pending[id].sentAt + config.rpcTimeout
    }

    /** `t` is the first moment at which the node has something to wake up for. */
    ghost predicate Earliest(t: Instant)
      reads this`pending, engine, engine.storage
    {
      && Timely(t)
      && (t == engine.NextDeadline() || exists id :: id in pending && t == pending[id].sentAt + config.rpcTimeout)
    }

    /** The timer will go off at that moment, or at once if it has passed. */
    ghost predicate Set()
      reads this`timer, this`pending, engine, engine.storage, clock
    {
      exists t: Instant :: Earliest(t) && timer == if t > clock.time then t else clock.time
    }

    /** The timer has already gone off, or will do so in time. */
    ghost predicate Armed()
      reads this`timer, this`pending, engine, engine.storage, clock
    {
      timer <= clock.time || Timely(timer)
    }

    constructor (config: Config, storage: RaftEngine.Storage.MemoryStorage, clock: Clock)
      requires storage.Valid()
      modifies clock
      ensures Valid() && Armed() && this.clock == clock && engine.storage == storage && this.config == config
      ensures exists now: Instant :: old(clock.time) <= now <= clock.time &&
                View() == Spec.New(config, storage.hardState, storage.entries, now)
      ensures pendingEvents == [] && connections == map[] && inboundChannels == map[] && Set()
    {
      var now := clock.Now();
      this.config := config;
      this.clock := clock;
      engine := new RaftEngine.RaftEngine(config, storage, now);
      connections := map[];
      pendingEvents := [];
      nextCorrelationId := 1;
      pending := map[];
      inboundChannels := map[];
      timer := 0;
      new;
      assert Untimed(map[]) == map[];
      assert View() == Spec.New(config, storage.hardState, storage.entries, now);
      ArmSleep(engine.NextDeadline());
      assert Earliest(engine.NextDeadline());
    }

    // -------------------------------------------------------------- the timer

    method ArmSleep(deadline: Instant)
      modifies this`timer, clock
      ensures timer == if deadline > clock.time then deadline else clock.time
      ensures old(clock.time) <= clock.time
    {
      var now := clock.Now();
      var dur := if deadline > now then deadline - now else 0;
      timer := now + dur;
    }

    /** The first moment anything falls due. */
    method EarliestWake() returns (wake: Instant)
      requires Valid()
      ensures Earliest(wake)
    {
      wake := engine.NextDeadline();
      var todo := pending.Keys;
      while todo != {}
        invariant todo <= pending.Keys && wake <= engine.NextDeadline()
        invariant forall id :: id in pending && id !in todo ==> wake <= pending[id].sentAt + config.rpcTimeout
        invariant wake == engine.NextDeadline()
                  || exists id :: id in pending && wake == pending[id].sentAt + config.rpcTimeout
        decreases todo
      {
        var id :| id in todo;
        var t := pending[id].sentAt + config.rpcTimeout;
        if t < wake {
          wake := t;
        }
        todo := todo - {id};
      }
    }

    method Rearm()
      requires Valid()
      modifies this`timer, clock
      ensures Set() && Armed() && old(clock.time) <= clock.time
    {
      var wake := EarliestWake();
      ArmSleep(wake);
      assert Earliest(wake);
    }

    // -------------------------------------------------------------- requests

    /** Files and sends a request; to a peer that is not connected it fails at once. */
    method SendRpc(to: NodeId, msg: Message)
      requires Valid()
      modifies this`pending, this`pendingEvents, this`nextCorrelationId, engine, clock
      ensures Valid() && old(clock.time) <= clock.time && GoesOn(old(Books()), Books())
      ensures var r := Spec.SendRpc(old(View()), to, msg);
              View() == r.node && pendingEvents == old(pendingEvents) + r.outputs
    {
      var kind := KindOf(msg);
      if !IsConnected(connections, to) {
        engine.HandleRpcFailure(to, kind);
        return;
      }
      var correlationId := nextCorrelationId;
      nextCorrelationId := nextCorrelationId + 1;
      var sentAt := clock.Now();
      UntimedInsert(pending, correlationId, PendingRequest(to, kind, sentAt, msg));
      pending := pending[correlationId := PendingRequest(to, kind, sentAt, msg)];
      pendingEvents := pendingEvents + [Spec.SendRequest(to, correlationId, msg)];
    }

    method FailPending(correlationId: nat, emitEvent: bool)
      requires Valid()
      modifies this`pending, this`pendingEvents, engine
      ensures Valid()
      ensures var r := Spec.FailPending(old(View()), correlationId, emitEvent);
              View() == r.node && pendingEvents == old(pendingEvents) + r.outputs
      ensures Dropped(old(pending), [correlationId], pending)
      ensures engine.NextDeadline() == old(engine.NextDeadline())
    {
      if correlationId in pending {
        var p := pending[correlationId];
        UntimedRemove(pending, correlationId);
        pending := pending - {correlationId};
        engine.HandleRpcFailure(p.to, p.kind);
        if emitEvent {
          pendingEvents := pendingEvents + [Spec.RpcFailed(p.to)];
        }
      }
    }

    method FailEach(correlationIds: seq<nat>, emitEvent: bool)
      requires Valid()
      modifies this`pending, this`pendingEvents, engine
      ensures Valid()
      ensures var r := Spec.FailAll(old(View()), correlationIds, emitEvent);
              View() == r.node && pendingEvents == old(pendingEvents) + r.outputs
      ensures Dropped(old(pending), correlationIds, pending)
      ensures engine.NextDeadline() == old(engine.NextDeadline()) && forall t :: old(Timely(t)) ==> Timely(t)
    {
      hide Spec.FailPending, Spec.FailAll, View, Valid;
      ghost var outputs := [];
      ghost var before := View();
      assert correlationIds[0..] == correlationIds && correlationIds[|correlationIds|..] == [];
      FailNothing(before, emitEvent);
      for i := 0 to |correlationIds|
        invariant Valid() && pendingEvents == old(pendingEvents) + outputs
        invariant Spec.FailAll(before, correlationIds, emitEvent) ==
                  var rest := Spec.FailAll(View(), correlationIds[i..], emitEvent);
                  Spec.Effect(rest.node, outputs + rest.outputs)
        invariant Dropped(old(pending), correlationIds[..i], pending)
        invariant engine.NextDeadline() == old(engine.NextDeadline())
      {
        FailNext(View(), correlationIds, i, emitEvent);
        outputs := outputs + Spec.FailPending(View(), correlationIds[i], emitEvent).outputs;
        FailPending(correlationIds[i], emitEvent);
      }
      FailNothing(View(), emitEvent);
    }

    /** Fails everything pending to a peer, in whatever order the requests are found. */
    method FailPeerPending(peer: NodeId, emitEvent: bool) returns (ids: seq<nat>)
      requires Valid()
      modifies this`pending, this`pendingEvents, engine
      ensures Valid()
      ensures forall id :: id in ids <==> id in old(pending) && old(pending)[id].to == peer
      ensures var r := Spec.FailAll(old(View()), ids, emitEvent);
              View() == r.node && pendingEvents == old(pendingEvents) + r.outputs
      ensures Dropped(old(pending), ids, pending) && forall t :: old(Timely(t)) ==> Timely(t)
    {
      ids := [];
      var todo := pending.Keys;
      while todo != {}
        invariant todo <= pending.Keys
        invariant forall id :: id in ids <==> id in pending && id !in todo && pending[id].to == peer
        decreases todo
      {
        var id :| id in todo;
        if pending[id].to == peer {
          ids := ids + [id];
        }
        todo := todo - {id};
      }
      FailEach(ids, emitEvent);
    }

    // -------------------------------------------------------------- actions

    /** Who is still waiting for an answer on the inbound channel. */
    ghost function Waiting(inbound: Option<(NodeId, nat)>): Option<NodeId>
      reads this`inboundChannels
    {
      if inbound.Some? && inbound.value.1 in inboundChannels then Some(inbound.value.0) else None
    }

    /** An inbound channel leads back to the peer that opened it. */
    ghost predicate ChannelOk(inbound: Option<(NodeId, nat)>)
      reads this`inboundChannels
    {
      inbound.Some? && inbound.value.1 in inboundChannels ==> inboundChannels[inbound.value.1] == inbound.value.0
    }

    method ExecuteActions(actions: seq<Action>, inbound: Option<(NodeId, nat)>)
      requires Valid() && ChannelOk(inbound)
      modifies this`pending, this`pendingEvents, this`nextCorrelationId, this`inboundChannels, engine, clock
      ensures Valid() && old(clock.time) <= clock.time && GoesOn(old(Books()), Books())
      ensures inboundChannels == old(inboundChannels)
              || (inbound.Some? && inboundChannels == old(inboundChannels) - {inbound.value.1})
      ensures var r := Spec.Execute(old(View()), actions, old(Waiting(inbound)));
              View() == r.node && pendingEvents == old(pendingEvents) + r.outputs
    {
      hide *;
      ghost var outputs, answering := [], Waiting(inbound);
      ghost var before := View();
      assert actions[0..] == actions && actions[|actions|..] == [];
      GoesNowhere();
      for i := 0 to |actions|
        invariant Valid() && ChannelOk(inbound) && old(clock.time) <= clock.time && GoesOn(old(Books()), Books())
        invariant inboundChannels == old(inboundChannels)
                  || (inbound.Some? && inboundChannels == old(inboundChannels) - {inbound.value.1})
        invariant pendingEvents == old(pendingEvents) + outputs
        invariant Spec.Execute(before, actions, answering) ==
                  var rest := Spec.Execute(View(), actions[i..], Waiting(inbound));
                  Spec.Effect(rest.node, outputs + rest.outputs)
      {
        ghost var books := Books();
        ExecuteNext(View(), actions, i, Waiting(inbound));
        outputs := outputs + Spec.ExecuteOne(View(), actions[i], Waiting(inbound)).outputs;
        ExecuteAction(actions[i], inbound);
        GoesOnFurther(old(Books()), books, Books());
      }
      ExecuteNothing(View(), Waiting(inbound));
    }

    method ExecuteAction(action: Action, inbound: Option<(NodeId, nat)>)
      requires Valid() && ChannelOk(inbound)
      modifies this`pending, this`pendingEvents, this`nextCorrelationId, this`inboundChannels, engine, clock
      ensures Valid() && ChannelOk(inbound) && old(clock.time) <= clock.time && GoesOn(old(Books()), Books())
      ensures inboundChannels == old(inboundChannels)
              || (inbound.Some? && inboundChannels == old(inboundChannels) - {inbound.value.1})
      ensures var r := Spec.ExecuteOne(old(View()), action, old(Waiting(inbound)));
              View() == r.node && pendingEvents == old(pendingEvents) + r.outputs
      ensures Waiting(inbound) == Spec.InboundAfter(action, old(Waiting(inbound)))
    {
      match action {
        case Send(to, msg) =>
          if inbound.Some? {
            var (from, channelId) := inbound.value;
            if to == from && channelId in inboundChannels {
              var peer := inboundChannels[channelId];
              inboundChannels := inboundChannels - {channelId};
              pendingEvents := pendingEvents + [Spec.SendResponse(peer, msg)];
              return;
            }
          }
          SendRpc(to, msg);
        case Broadcast(msg) =>
          SendToAll(msg);
        case BecameLeader(term) =>
          pendingEvents := pendingEvents + [Spec.RoleChanged(Leader, term, Some(engine.config.nodeId))];
        case BecameFollower(term, leader) =>
          pendingEvents := pendingEvents + [Spec.RoleChanged(Follower, term, leader)];
        case BecameCandidate(term) =>
          pendingEvents := pendingEvents + [Spec.RoleChanged(Candidate, term, None)];
        case Apply(entries) =>
          pendingEvents := pendingEvents + [Spec.Committed(entries)];
      }
    }

    lemma OthersAgree()
      ensures engine.OtherVoters() == engine.View().Others()
    {
    }

    method SendToAll(msg: Message)
      requires Valid()
      modifies this`pending, this`pendingEvents, this`nextCorrelationId, engine, clock
      ensures Valid() && old(clock.time) <= clock.time && GoesOn(old(Books()), Books())
      ensures var r := Spec.SendToAll(old(View()), old(engine.View()).Others(), msg);
              View() == r.node && pendingEvents == old(pendingEvents) + r.outputs
    {
      hide *;
      var voters := engine.OtherVoters();
      OthersAgree();
      ghost var outputs := [];
      assert voters[0..] == voters && voters[|voters|..] == [];
      ghost var before := View();
      SendToNobody(before, msg);
      GoesNowhere();
      for i := 0 to |voters|
        invariant Valid() && old(clock.time) <= clock.time && GoesOn(old(Books()), Books())
        invariant pendingEvents == old(pendingEvents) + outputs
        invariant Spec.SendToAll(before, voters, msg) ==
                  var rest := Spec.SendToAll(View(), voters[i..], msg); Spec.Effect(rest.node, outputs + rest.outputs)
      {
        ghost var books := Books();
        SendToNext(View(), voters, i, msg);
        outputs := outputs + Spec.SendRpc(View(), voters[i], msg).outputs;
        SendRpc(voters[i], msg);
        GoesOnFurther(old(Books()), books, Books());
      }
      SendToNobody(View(), msg);
    }

    // -------------------------------------------------------------- what happens to the behaviour

    method Propose(data: Command) returns (index: Option<Index>)
      requires Valid() && Armed()
      modifies this, engine, engine.storage, clock
      ensures Valid() && Armed() && connections == old(connections) && inboundChannels == old(inboundChannels)
      ensures GoesOn(old(Books()), Books()) && (index.Some? ==> Set())
      ensures var r := Spec.Propose(old(View()), data);
              View() == r.node && pendingEvents == old(pendingEvents) + r.outputs
      ensures index == match EngineSpec.Propose(old(engine.View()), data)
                       case NotLeader => None
                       case Proposed(i, _) => Some(i)
    {
      hide Spec.Execute, EngineSpec.Propose, GoesOn, Set, Connected, Untimed;
      GoesNowhere();
      var actions;
      index, actions := engine.Propose(data);
      ghost var books := Books();
      if index.None? {
        assert View() == old(View());
        return;
      }
      hide Armed;
      ExecuteActions(actions, None);
      GoesOnFurther(old(Books()), books, Books());
      books := Books();
      Rearm();
      RearmedLater(old(Books()), books, Books());
    }

    /** Hands a message to the engine and carries out what it asks for. */
    method HandleMessage(from: NodeId, msg: Message, inbound: Option<(NodeId, nat)>, now: Instant)
      requires Valid() && ChannelOk(inbound)
      modifies this`pending, this`pendingEvents, this`nextCorrelationId, this`inboundChannels, engine, engine.storage,
               clock
      ensures Valid() && old(clock.time) <= clock.time && GoesOn(old(Books()), Books())
      ensures inboundChannels == old(inboundChannels)
              || (inbound.Some? && inboundChannels == old(inboundChannels) - {inbound.value.1})
      ensures var h := EngineSpec.HandleRpc(old(View()).engine, from, msg, now);
              var r := Spec.Execute(old(View()).(engine := h.engine), h.actions, old(Waiting(inbound)));
              View() == r.node && pendingEvents == old(pendingEvents) + r.outputs
    {
      hide EngineSpec.HandleRpc, Spec.Execute, GoesOn;
      var actions := engine.HandleRpc(from, msg, now);
      ghost var books := Books();
      assert GoesOn(old(Books()), books) by { GoesNowhere(); }
      ExecuteActions(actions, inbound);
      GoesOnFurther(old(Books()), books, Books());
    }

    /** A request arrived on channel `channelId`. */
    method OnRequest(from: NodeId, msg: Message, channelId: nat) returns (now: Instant)
      requires Valid() && Armed()
      modifies this, engine, engine.storage, clock
      ensures Valid() && Armed() && Set() && old(clock.time) <= now <= clock.time
      ensures GoesOn(old(Books()), Books()) && connections == old(connections)
      ensures inboundChannels == old(inboundChannels) - {channelId}
      ensures var r := Spec.OnRequest(old(View()), from, msg, now);
              View() == r.node && pendingEvents == old(pendingEvents) + r.outputs
    {
      hide EngineSpec.HandleRpc, Spec.Execute, Set, Armed, Connected, Untimed;
      now := clock.Now();
      inboundChannels := inboundChannels[channelId := from];
      ghost var books := Books();
      HandleMessage(from, msg, Some((from, channelId)), now);
      GoesOnFurther(old(Books()), books, Books());
      inboundChannels := inboundChannels - {channelId};
      books := Books();
      Rearm();
      RearmedLater(old(Books()), books, Books());
    }

    /** A response arrived for the request filed under `correlationId`. */
    method OnResponse(correlationId: nat, msg: Message) returns (now: Instant)
      requires Valid() && Armed()
      modifies this, engine, engine.storage, clock
      ensures Valid() && Armed() && old(clock.time) <= now <= clock.time
      ensures GoesOn(old(Books()), Books()) && correlationId !in pending && (correlationId in old(pending) ==> Set())
      ensures connections == old(connections) && inboundChannels == old(inboundChannels)
      ensures var r := Spec.OnResponse(old(View()), correlationId, msg, now);
              View() == r.node && pendingEvents == old(pendingEvents) + r.outputs
    {
      hide EngineSpec.HandleRpc, Spec.Execute, Set, Connected;
      now := clock.Now();
      if correlationId !in pending {
        return;
      }
      var p := pending[correlationId];
      UntimedRemove(pending, correlationId);
      pending := pending - {correlationId};
      ghost var books := Books();
      hide Untimed, Armed;
      HandleMessage(p.to, msg, None, now);
      GoesOnFurther(old(Books()), books, Books());
      books := Books();
      Rearm();
      RearmedLater(old(Books()), books, Books());
    }

    /** The handler gave up on a request, or on something that was no request of ours. */
    method OnFailure(peer: NodeId, correlationId: Option<nat>)
      requires Valid() && Armed()
      modifies this, engine, clock
      ensures Valid() && Armed() && Set() && old(clock.time) <= clock.time
      ensures nextCorrelationId == old(nextCorrelationId)
      ensures connections == old(connections) && inboundChannels == old(inboundChannels)
      ensures Dropped(old(pending), if correlationId.Some? then [correlationId.value] else [], pending)
      ensures match correlationId
              case Some(id) =>
                var r := Spec.FailPending(old(View()), id, true);
                View() == r.node && pendingEvents == old(pendingEvents) + r.outputs
              case None =>
                View() == old(View()) && pendingEvents == old(pendingEvents) + [Spec.RpcFailed(peer)]
    {
      match correlationId {
        case Some(id) => FailPending(id, true);
        case None => pendingEvents := pendingEvents + [Spec.RpcFailed(peer)];
      }
      Rearm();
    }

    method OnConnectionEstablished(peer: NodeId, connection: nat)
      requires Valid() && Armed()
      modifies this`connections
      ensures Valid() && Armed() && View() == Spec.OnConnect(old(View()), peer)
      ensures forall q, k :: IsOpen(connections, q, k) <==>
                IsOpen(old(connections), q, k) || (q == peer && k == connection)
    {
      OpenedConnects(connections, peer, connection);
      connections := Opened(connections, peer, connection);
    }

    /** A connection closed. Only with the last one to a peer does anything fail, and then the timer is left alone:
        nothing falls due sooner than before. */
    method OnConnectionClosed(peer: NodeId, connection: nat) returns (ids: seq<nat>)
      requires Valid() && Armed()
      modifies this`connections, this`pending, this`pendingEvents, engine
      ensures Valid() && Armed()
      ensures forall q, k :: IsOpen(connections, q, k) <==>
                IsOpen(old(connections), q, k) && !(q == peer && k == connection)
      ensures HasAnother(old(connections), peer, connection) ==>
                View() == old(View()) && pendingEvents == old(pendingEvents) && pending == old(pending)
      ensures !HasAnother(old(connections), peer, connection) ==>
                && (forall id :: id in ids <==> id in old(pending) && old(pending)[id].to == peer)
                && Dropped(old(pending), ids, pending)
                && var r := Spec.OnDisconnect(old(View()), peer, ids);
                   View() == r.node && pendingEvents == old(pendingEvents) + r.outputs
    {
      ids := [];
      ClosedDisconnects(connections, peer, connection);
      ClosedLeaves(connections, peer, connection);
      connections := Closed(connections, peer, connection);
      if !IsConnected(connections, peer) {
        ids := FailPeerPending(peer, false);
      }
    }

    /** A dial failed: what is pending to that peer fails, loudly unless the failure is of the ordinary kind. */
    method OnDialFailure(peer: NodeId, benign: bool) returns (ids: seq<nat>)
      requires Valid() && Armed()
      modifies this`pending, this`pendingEvents, engine
      ensures Valid() && Armed()
      ensures forall id :: id in ids <==> id in old(pending) && old(pending)[id].to == peer
      ensures Dropped(old(pending), ids, pending)
      ensures var r := Spec.FailAll(old(View()), ids, !benign);
              View() == r.node
              && pendingEvents == old(pendingEvents) + r.outputs + if benign then [] else [Spec.RpcFailed(peer)]
    {
      ids := FailPeerPending(peer, !benign);
      if !benign {
        pendingEvents := pendingEvents + [Spec.RpcFailed(peer)];
      }
    }

    // -------------------------------------------------------------- polling

    /** The answer to `p` is overdue. */
    predicate IsOverdue(p: PendingRequest, now: Instant) {
      (if now > p.sentAt then now - p.sentAt else 0) >= config.rpcTimeout
    }

    /** The requests whose answer is overdue. */
    method Overdue(now: Instant) returns (ids: seq<nat>)
      ensures AreOverdue(pending, config.rpcTimeout, now, ids)
    {
      ids := [];
      var todo := pending.Keys;
      while todo != {}
        invariant todo <= pending.Keys
        invariant forall id :: id in ids <==> id in pending && id !in todo && IsOverdue(pending[id], now)
        decreases todo
      {
        var id :| id in todo;
        if IsOverdue(pending[id], now) {
          ids := ids + [id];
        }
        todo := todo - {id};
      }
    }

    method PopEvent() returns (event: Option<Spec.Output>)
      modifies this`pendingEvents
      ensures event.None? ==> old(pendingEvents) == [] && pendingEvents == []
      ensures event.Some? ==> old(pendingEvents) == [event.value] + pendingEvents
      ensures View() == old(View())
    {
      if pendingEvents == [] {
        return None;
      }
      event := Some(pendingEvents[0]);
      pendingEvents := pendingEvents[1..];
    }

    /** Hands out events one at a time; between events it times out requests and ticks the engine when they are due.
        It waits only with the timer set no later than anything it has to wake up for. `fuel` bounds the passes of
        the loop: a leader whose election deadline has passed would otherwise go round until its next heartbeat. */
    method Poll(fuel: nat) returns (result: PollResult, rounds: seq<Round>)
      requires Valid() && Armed()
      modifies this, engine, engine.storage, clock
      ensures Valid() && Armed() && old(clock.time) <= clock.time
      ensures connections == old(connections) && inboundChannels == old(inboundChannels)
      ensures GoesOn(old(Books()), Books())
      ensures Accounts(old(View()), old(pendingEvents), rounds, View(),
                       (if result.Ready? then [result.event] else []) + pendingEvents)
      ensures !result.Ready? && fuel > 0 ==> pendingEvents == []
      ensures old(pendingEvents) != [] && fuel > 0 ==>
                rounds == [] && result == Ready(old(pendingEvents)[0]) && pending == old(pending)
      ensures old(pendingEvents) == [] && fuel > 0 ==>
                BeginsWithPass(old(pending), config.rpcTimeout, old(engine.NextDeadline()), old(clock.time), clock.time,
                               rounds)
      ensures old(pendingEvents) == [] && fuel > 0 ==>
                forall id :: id in old(pending) && old(pending)[id].sentAt + config.rpcTimeout <= old(clock.time) ==>
                  id !in pending
      ensures result.Pending? ==> clock.time < timer && Timely(timer)
      ensures old(engine.role == Leader && engine.electionDeadline <= clock.time) ==> !result.Pending?
    {
      rounds := [];
      ghost var before, queue, books := View(), pendingEvents, Books();
      assert before.engine.role == engine.role && before.engine.electionDeadline == engine.electionDeadline;
      DeadlineSeen();
      GoesNowhere();
      hide *;
      AccountsNothing(before, queue);
      for i := 0 to fuel
        invariant Valid() && Armed() && old(clock.time) <= clock.time && connections == old(connections)
        invariant inboundChannels == old(inboundChannels) && GoesOn(books, Books())
        invariant Accounts(before, queue, rounds, View(), pendingEvents)
        invariant i > 0 ==> pendingEvents == [] && queue == []
        invariant i > 0 ==> BeginsWithPass(old(pending), config.rpcTimeout, old(engine.NextDeadline()),
                                           old(clock.time), clock.time, rounds)
        invariant i > 0 ==> CaughtUp(old(pending), config.rpcTimeout, old(clock.time), pending)
        invariant i == 0 ==> rounds == [] && View() == before && pendingEvents == queue && Books() == books
      {
        ghost var mid, events, now, was := View(), pendingEvents, clock.time, Books();
        var pass, more := PollOnce();
        ghost var left := (if pass.Ready? then [pass.event] else []) + pendingEvents;
        AccountsJoin(before, queue, rounds, mid, events, more, View(), left);
        GoesOnFurther(books, was, Books());
        if i > 0 {
          BeginsStill(books.pending, config.rpcTimeout, before.engine.NextDeadline(), books.time, now, rounds,
                      clock.time, more);
          GoneForGood(books, was, Books(), config.rpcTimeout);
        } else if queue == [] {
          ExpiryIsSilent(before, books.pending, config.rpcTimeout, books.time, clock.time, more);
          assert [] + more == more;
        }
        rounds := rounds + more;
        if pass != Spinning {
          assert old(engine.role == Leader && engine.electionDeadline <= clock.time) ==> !pass.Pending? by {
            LateLeader(before, queue, rounds, left);
          }
          return pass, rounds;
        }
        assert left == pendingEvents;
      }
      result := Spinning;
      assert [] + pendingEvents == pendingEvents;
    }

    /** A leader whose election deadline has passed always has something due. */
    lemma LateLeader(before: Spec.Node, queue: seq<Spec.Output>, rounds: seq<Round>, events: seq<Spec.Output>)
      requires Accounts(before, queue, rounds, View(), events)
      ensures before.engine.role == Leader && before.engine.electionDeadline <= clock.time && Timely(timer) ==>
                timer <= clock.time
    {
      hide PlayAll;
      if before.engine.role == Leader {
        PollKeepsLeader(before, rounds);
      }
    }

    /** Reads the clock. A timer that has still to go off will do so in time. */
    method ReadClock() returns (now: Instant)
      requires Armed()
      modifies clock
      ensures old(clock.time) <= now == clock.time && Armed()
      ensures now < timer ==> Timely(timer)
    {
      hide Timely;
      now := clock.Now();
    }

    /** One pass of the loop; Spinning means that the timer had gone off and the loop goes round again. */
    method PollOnce() returns (result: PollResult, rounds: seq<Round>)
      requires Valid() && Armed()
      modifies this, engine, engine.storage, clock
      ensures Valid() && Armed() && old(clock.time) <= clock.time
      ensures connections == old(connections) && inboundChannels == old(inboundChannels)
      ensures GoesOn(old(Books()), Books())
      ensures Accounts(old(View()), old(pendingEvents), rounds, View(),
                       (if result.Ready? then [result.event] else []) + pendingEvents)
      ensures !result.Ready? ==> pendingEvents == []
      ensures old(pendingEvents) != [] ==>
                rounds == [] && result == Ready(old(pendingEvents)[0]) && pending == old(pending)
      ensures old(pendingEvents) == [] ==>
                && CaughtUp(old(pending), config.rpcTimeout, old(clock.time), pending)
                && exists now: Instant :: old(clock.time) <= now <= clock.time
                                          && Passes(old(View()), old(pending), config.rpcTimeout, now, rounds)
      ensures result.Pending? ==> clock.time < timer && Timely(timer)
    {
      hide *;
      rounds := [];
      AccountsNothing(View(), pendingEvents);
      GoesNowhere();
      ghost var books := Books();
      var event := PopEvent();
      if event.Some? {
        return Ready(event.value), rounds;
      }
      var now;
      now, event, rounds := ExpireAndTick();
      if event.Some? {
        return Ready(event.value), rounds;
      }
      assert [] + pendingEvents == pendingEvents;
      ghost var mid := Books();
      BooksAre();
      var wakes := ReadClock();
      if wakes >= timer {
        Rearm();
        result := Spinning;
      } else {
        result := Pending;
      }
      BooksAre();
      RearmedLater(books, mid, Books());
    }

    /** Expires what is overdue, ticks the engine if it is due, and takes the first event that has come of it. */
    method ExpireAndTick() returns (now: Instant, event: Option<Spec.Output>, rounds: seq<Round>)
      requires Valid() && Armed() && pendingEvents == []
      modifies this, engine, engine.storage, clock
      ensures Valid() && Armed() && old(clock.time) <= now <= clock.time
      ensures connections == old(connections) && inboundChannels == old(inboundChannels)
      ensures GoesOn(old(Books()), Books()) && CaughtUp(old(pending), config.rpcTimeout, old(clock.time), pending)
      ensures Accounts(old(View()), [], rounds, View(), (if event.Some? then [event.value] else []) + pendingEvents)
      ensures event.None? ==> pendingEvents == []
      ensures Passes(old(View()), old(pending), config.rpcTimeout, now, rounds)
    {
      hide *;
      ghost var before, books := View(), Books();
      BooksAre();
      GoesNowhere();
      DeadlineSeen();
      AccountsNothing(before, []);
      now := ReadClock();
      var overdue := ExpireOverdue(now);
      AccountsExpired(before, [], [], before, [], overdue);
      assert [] + [Expired(overdue)] == [Expired(overdue)];
      rounds := [Expired(overdue)];
      BooksAre();
      ghost var mid := Books();
      ExpiredIsGone(books, config.rpcTimeout, now, overdue, mid);
      event := PopEvent();
      if event.Some? {
        PassesOnce(before, books.pending, config.rpcTimeout, now, overdue, rounds);
        Rearm();
        BooksAre();
        RearmedLater(books, mid, Books());
        return;
      }
      if now >= engine.NextDeadline() {
        AccountsTicked(before, [], rounds, View(), pendingEvents, now);
        TickEngine(now);
        rounds := rounds + [Ticked(now)];
        BooksAre();
        GoneForGood(books, mid, Books(), config.rpcTimeout);
        event := PopEvent();
      }
      PassesOnce(before, books.pending, config.rpcTimeout, now, overdue, rounds);
    }

    lemma DeadlineSeen()
      ensures View().engine.NextDeadline() == engine.NextDeadline()
    {
    }

    /** No retry: the next tick is the retry. */
    method ExpireOverdue(now: Instant) returns (ids: seq<nat>)
      requires Valid()
      modifies this`pending, this`pendingEvents, engine
      ensures Valid()
      ensures AreOverdue(old(pending), config.rpcTimeout, now, ids) && Dropped(old(pending), ids, pending)
      ensures forall id :: id in pending ==> now < pending[id].sentAt + config.rpcTimeout
      ensures engine.NextDeadline() == old(engine.NextDeadline())
      ensures var r := Spec.FailAll(old(View()), ids, false);
              View() == r.node && pendingEvents == old(pendingEvents) + r.outputs
      ensures old(Armed()) ==> Armed()
    {
      hide View, Timely, Spec.FailAll, Valid;
      ids := Overdue(now);
      FailEach(ids, false);
    }

    method TickEngine(now: Instant)
      requires Valid()
      modifies this`pending, this`pendingEvents, this`nextCorrelationId, this`inboundChannels, this`timer, engine,
               engine.storage, clock
      ensures Valid() && Armed() && Set() && old(clock.time) <= clock.time && inboundChannels == old(inboundChannels)
      ensures GoesOn(old(Books()), Books())
      ensures var r := Spec.Tick(old(View()), now);
              View() == r.node && pendingEvents == old(pendingEvents) + r.outputs
    {
      hide Spec.Execute, EngineSpec.Tick, GoesOn, Set, Armed;
      var actions, _ := engine.Tick(now);
      ghost var books := Books();
      assert GoesOn(old(Books()), books) by { GoesNowhere(); }
      ExecuteActions(actions, None);
      GoesOnFurther(old(Books()), books, Books());
      books := Books();
      Rearm();
      RearmedLater(old(Books()), books, Books());
    }
  }
}
