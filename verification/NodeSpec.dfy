/** One node: the engine together with the request bookkeeping of the behaviour that hosts it. */
module NodeSpec {
  import opened Types
  import opened EngineSpec

  datatype Pending = Pending(to: NodeId, kind: RpcKind, msg: Message)

  /** Requests awaiting an answer are filed under correlation ids, handed out in increasing order. */
  datatype Node = Node(engine: Engine, connected: set<NodeId>, pending: map<nat, Pending>, nextCorrelation: nat)

  /** What the behaviour hands to the network and to the application. */
  datatype Output =
    | SendRequest(to: NodeId, correlation: nat, msg: Message)
    | SendResponse(to: NodeId, msg: Message)
    | RoleChanged(role: Role, term: Term, leader: Option<NodeId>)
    | Committed(entries: Log)
    | RpcFailed(peer: NodeId)

  datatype Effect = Effect(node: Node, outputs: seq<Output>)

  function New(config: Config, hard: HardState, log: Log, now: Instant): Node {
    Node(EngineSpec.New(config, hard, log, now), {}, map[], 1)
  }

  /** To an unconnected peer nothing is sent, and the engine learns of the failure at once. */
  function SendRpc(n: Node, to: NodeId, msg: Message): Effect {
    if to !in n.connected then Effect(n.(engine := HandleRpcFailure(n.engine, to, KindOf(msg))), [])
    else
      Effect(n.(pending := n.pending[n.nextCorrelation := Pending(to, KindOf(msg), msg)],
                nextCorrelation := n.nextCorrelation + 1),
             [SendRequest(to, n.nextCorrelation, msg)])
  }

  function SendToAll(n: Node, peers: seq<NodeId>, msg: Message): Effect
    decreases |peers|
  {
    if peers == [] then Effect(n, [])
    else
      var r := SendRpc(n, peers[0], msg);
      var rest := SendToAll(r.node, peers[1..], msg);
      Effect(rest.node, r.outputs + rest.outputs)
  }

  /** One action; `inbound` names the peer whose request is still unanswered. */
  function ExecuteOne(n: Node, action: Action, inbound: Option<NodeId>): Effect {
    match action
    case Send(to, msg) => if inbound == Some(to) then Effect(n, [SendResponse(to, msg)]) else SendRpc(n, to, msg)
    case Broadcast(msg) => SendToAll(n, n.engine.Others(), msg)
    case Apply(entries) => Effect(n, [Committed(entries)])
    case BecameLeader(term) => Effect(n, [RoleChanged(Leader, term, Some(n.engine.Id()))])
    case BecameFollower(term, leader) => Effect(n, [RoleChanged(Follower, term, leader)])
    case BecameCandidate(term) => Effect(n, [RoleChanged(Candidate, term, None)])
  }

  function InboundAfter(action: Action, inbound: Option<NodeId>): Option<NodeId> {
    if action.Send? && inbound == Some(action.to) then None else inbound
  }

  function Execute(n: Node, actions: seq<Action>, inbound: Option<NodeId>): Effect
    decreases |actions|
  {
    if actions == [] then Effect(n, [])
    else
      var r := ExecuteOne(n, actions[0], inbound);
      var rest := Execute(r.node, actions[1..], InboundAfter(actions[0], inbound));
      Effect(rest.node, r.outputs + rest.outputs)
  }

  function Tick(n: Node, now: Instant): Effect {
    var r := EngineSpec.Tick(n.engine, now);
    Execute(n.(engine := r.engine), r.actions, None)
  }

  function Propose(n: Node, data: Command): Effect {
    match EngineSpec.Propose(n.engine, data)
    case NotLeader => Effect(n, [])
    case Proposed(_, r) => Execute(n.(engine := r.engine), r.actions, None)
  }

  function OnRequest(n: Node, from: NodeId, msg: Message, now: Instant): Effect {
    var r := HandleRpc(n.engine, from, msg, now);
    Execute(n.(engine := r.engine), r.actions, Some(from))
  }

  /** An answer counts only while its request is pending, and only once. */
  function OnResponse(n: Node, correlation: nat, msg: Message, now: Instant): Effect {
    if correlation !in n.pending then Effect(n, [])
    else
      var r := HandleRpc(n.engine, n.pending[correlation].to, msg, now);
      Execute(n.(engine := r.engine, pending := n.pending - {correlation}), r.actions, None)
  }

  function FailPending(n: Node, correlation: nat, emit: bool): Effect {
    if correlation !in n.pending then Effect(n, [])
    else
      var p := n.pending[correlation];
      Effect(n.(engine := HandleRpcFailure(n.engine, p.to, p.kind), pending := n.pending - {correlation}),
             if emit then [RpcFailed(p.to)] else [])
  }

  /** The last connection to a peer closed: everything pending to it fails, in some order. */
  function OnDisconnect(n: Node, peer: NodeId, correlations: seq<nat>): Effect {
    FailAll(n.(connected := n.connected - {peer}), correlations, false)
  }

  function OnConnect(n: Node, peer: NodeId): Node {
    n.(connected := n.connected + {peer})
  }

  function FailAll(n: Node, correlations: seq<nat>, emit: bool): Effect
    decreases |correlations|
  {
    if correlations == [] then Effect(n, [])
    else
      var r := FailPending(n, correlations[0], emit);
      var rest := FailAll(r.node, correlations[1..], emit);
      Effect(rest.node, r.outputs + rest.outputs)
  }
}
