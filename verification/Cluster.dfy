/** The cluster as a transition system: nodes, every message ever sent, and everything nodes ever reported. */
module Cluster {
  import opened Types
  import opened NodeSpec
  import EngineSpec

  /** A request, stamped with the process that sent it (a restart starts a new incarnation). */
  datatype Envelope = Envelope(src: NodeId, dst: NodeId, incarnation: nat, correlation: nat, msg: Message)

  /** A reply travels back on the substream of its request. */
  datatype Reply = Reply(request: Envelope, msg: Message)

  datatype Cluster = Cluster(
    nodes: map<NodeId, Node>,
    incarnation: map<NodeId, nat>,
    requests: set<Envelope>,                // every request ever sent
    replies: set<Reply>,                    // every reply ever sent
    emitted: set<(NodeId, Output)>,         // everything every node ever emitted
    applied: map<NodeId, Log>)              // per node, all Committed batches since its last start, in order

  datatype Event =
    | Tick(n: NodeId, now: Instant)
    | Propose(n: NodeId, data: Command)
    | DeliverRequest(request: Envelope, now: Instant)
    | DeliverReply(reply: Reply, now: Instant)
    | Fail(n: NodeId, correlation: nat, emit: bool)
    | Connect(n: NodeId, peer: NodeId)
    | Disconnect(n: NodeId, peer: NodeId, correlations: seq<nat>)
    | Restart(n: NodeId, now: Instant)

  /** The node an event happens at. */
  function Actor(e: Event): NodeId {
    match e
    case Tick(n, _) => n
    case Propose(n, _) => n
    case DeliverRequest(q, _) => q.dst
    case DeliverReply(r, _) => r.request.src
    case Fail(n, _, _) => n
    case Connect(n, _) => n
    case Disconnect(n, _, _) => n
    case Restart(n, _) => n
  }

  /** Messages may be delivered late, repeatedly, in any order, or never. */
  predicate Enabled(c: Cluster, e: Event) {
    && Actor(e) in c.nodes && Actor(e) in c.incarnation && Actor(e) in c.applied
    && match e
       case DeliverRequest(q, _) => q in c.requests
       case DeliverReply(r, _) => r in c.replies
       case Disconnect(n, peer, ids) =>
         (forall id :: id in ids ==> id in c.nodes[n].pending && c.nodes[n].pending[id].to == peer) &&
         (forall id :: id in c.nodes[n].pending && c.nodes[n].pending[id].to == peer ==> id in ids)
       case Tick(_, _) => true
       case Propose(_, _) => true
       case Fail(_, _, _) => true
       case Connect(_, _) => true
       case Restart(_, _) => true
  }

  function AppliedBy(outputs: seq<Output>): Log {
    if outputs == [] then []
    else (if outputs[0].Committed? then outputs[0].entries else []) + AppliedBy(outputs[1..])
  }

  /** What the actor does to itself. */
  function React(c: Cluster, e: Event): Effect
    requires Enabled(c, e)
  {
    var node := c.nodes[Actor(e)];
    match e
    case Tick(_, now) => NodeSpec.Tick(node, now)
    case Propose(_, data) => NodeSpec.Propose(node, data)
    case DeliverRequest(q, now) => OnRequest(node, q.src, q.msg, now)
    case DeliverReply(r, now) =>
      if r.request.incarnation == c.incarnation[Actor(e)] then OnResponse(node, r.request.correlation, r.msg, now)
      else Effect(node, [])
    case Fail(_, id, emit) => FailPending(node, id, emit)
    case Connect(_, peer) => Effect(OnConnect(node, peer), [])
    case Disconnect(_, peer, ids) => OnDisconnect(node, peer, ids)
    case Restart(_, now) => Effect(NodeSpec.New(node.engine.config, node.engine.hard, node.engine.log, now), [])
  }

  function Sent(n: NodeId, incarnation: nat, outputs: seq<Output>): set<Envelope> {
    set o | o in outputs && o.SendRequest? :: Envelope(n, o.to, incarnation, o.correlation, o.msg)
  }

  function Answered(e: Event, outputs: seq<Output>): set<Reply> {
    if e.DeliverRequest? then set o | o in outputs && o.SendResponse? :: Reply(e.request, o.msg) else {}
  }

  /** The actor's effect spreads: its requests and replies join the network, its reports are recorded. */
  function Step(c: Cluster, e: Event): Cluster
    requires Enabled(c, e)
  {
    var n, r := Actor(e), React(c, e);
    Cluster(c.nodes[n := r.node],
            if e.Restart? then c.incarnation[n := c.incarnation[n] + 1] else c.incarnation,
            c.requests + Sent(n, c.incarnation[n], r.outputs),
            c.replies + Answered(e, r.outputs),
            c.emitted + (set o | o in r.outputs :: (n, o)),
            c.applied[n := if e.Restart? then [] else c.applied[n] + AppliedBy(r.outputs)])
  }

  /** A fixed voter set, every node knowing it. */
  ghost predicate ConfigsOk(configs: map<NodeId, Config>) {
    configs != map[] &&
    forall n :: n in configs ==> configs[n].nodeId == n && (set v | v in configs[n].voters) == configs.Keys
  }

  function Start(configs: map<NodeId, Config>, now: Instant): Cluster {
    Cluster(map n | n in configs :: NodeSpec.New(configs[n], HardState(0, None), [], now),
            map n | n in configs :: 0, {}, {}, {}, map n | n in configs :: [])
  }

  ghost predicate Allowed(c: Cluster, events: seq<Event>)
    decreases |events|
  {
    events == [] || (Enabled(c, events[0]) && Allowed(Step(c, events[0]), events[1..]))
  }

  ghost function Run(c: Cluster, events: seq<Event>): Cluster
    requires Allowed(c, events)
    decreases |events|
  {
    if events == [] then c else Run(Step(c, events[0]), events[1..])
  }

  // ---------------------------------------------------------------- what a run may be spared

  /** The answer `r` shows that `p` holds the leader's log of term `t` as far as `k`. */
  predicate Acknowledges(r: Reply, p: NodeId, t: Term, k: Index) {
    && r.request.dst == p && r.request.msg.AppendEntries? && r.request.msg.term == t
    && r.msg.AppendEntriesResp? && r.msg.success && r.msg.term == t
    && k <= r.request.msg.prevLogIndex + |r.request.msg.entries|
  }

  ghost predicate Acknowledged(c: Cluster, p: NodeId, t: Term, k: Index) {
    exists r :: r in c.replies && Acknowledges(r, p, t, k)
  }

  /** The leader and whoever acknowledged its log as far as `k`. */
  ghost function Ackers(c: Cluster, l: NodeId, k: Index): set<NodeId>
    requires l in c.nodes
  {
    set p | p in c.nodes && (p == l || Acknowledged(c, p, c.nodes[l].engine.Term(), k))
  }

  /** So many of `voters` voters have one in common with every majority of them. */
  function Blocking(voters: nat): nat {
    voters - voters / 2
  }

  /** By this event a leader commits what too few have acknowledged to keep a later leader from missing it. */
  ghost predicate CommitsUnacknowledged(c: Cluster, e: Event)
    requires Enabled(c, e)
  {
    var s, s' := c.nodes[Actor(e)].engine, React(c, e).node.engine;
    s.role == Leader && s'.role == Leader && s.commitIndex < s'.commitIndex &&
    |Ackers(c, Actor(e), s'.commitIndex)| < Blocking(|c.nodes.Keys|)
  }

  /** By this event a leader credits a peer: the answer to a pending append is a success of the leader's term. */
  predicate Credits(c: Cluster, e: Event)
    requires Enabled(c, e)
  {
    e.DeliverReply? && e.reply.request.incarnation == c.incarnation[Actor(e)] &&
    var node, id, msg := c.nodes[Actor(e)], e.reply.request.correlation, e.reply.msg;
    && id in node.pending && node.pending[id].msg.AppendEntries? && node.engine.role == Leader
    && msg.AppendEntriesResp? && msg.success && msg.term == node.engine.Term()
    && node.pending[id].to in node.engine.lastAe
  }

  /** The request that the event answers. */
  function Settled(c: Cluster, e: Event): Pending
    requires Enabled(c, e) && Credits(c, e)
  {
    c.nodes[Actor(e)].pending[e.reply.request.correlation]
  }

  /** The peer is credited with more than the append it answered reached. The host of the engine can tell, since it has
      that append on file. */
  predicate Overcredits(c: Cluster, e: Event)
    requires Enabled(c, e)
  {
    Credits(c, e) &&
    var p, s := Settled(c, e), c.nodes[Actor(e)].engine;
    p.msg.prevLogIndex + |p.msg.entries| < s.lastAe[p.to].0 + s.lastAe[p.to].1
  }

  /** The event makes its actor a leader while an append from an earlier leadership still awaits its answer. */
  predicate WinsWithLeftovers(c: Cluster, e: Event)
    requires Enabled(c, e)
  {
    var before, after := c.nodes[Actor(e)], React(c, e).node;
    before.engine.role != Leader && after.engine.role == Leader &&
    exists id :: id in after.pending && after.pending[id].kind == AppendRpc
  }

  /** Which events a run is made of: any; all but unacknowledged commits; all but over-credits; all but wins with
      appends left over. */
  datatype Guard = Anything | Acked | Earned | Clean

  ghost predicate Permits(g: Guard, c: Cluster, e: Event)
    requires Enabled(c, e)
  {
    match g
    case Anything => true
    case Acked => !CommitsUnacknowledged(c, e)
    case Earned => !Overcredits(c, e)
    case Clean => !WinsWithLeftovers(c, e)
  }

  /** The guard permits every event of the run. */
  ghost predicate Permitted(c: Cluster, events: seq<Event>, g: Guard)
    requires Allowed(c, events)
    decreases |events|
  {
    events != [] ==> Permits(g, c, events[0]) && Permitted(Step(c, events[0]), events[1..], g)
  }
}
