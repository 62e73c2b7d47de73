/** What the nodes of a cluster owe each other and their host, in every run: an answer to every request, in the term
    the answerer is then in, and a report of every change of role or term. */
module Conduct {
  import opened Types
  import opened LogSpec
  import opened EngineSpec
  import opened NodeSpec
  import opened Cluster
  import opened Handling
  import opened Progress
  import opened Reachability
  import opened Coupling
  import opened Execution
  import opened Events
  import opened Safety
  import Protocol
  import Hints
  import Filing
  import Membership
  import Commitment
  import EngineSteps

  // ---------------------------------------------------------------- what an event asks of the engine

  /** What the engine makes of the event, if the event gets as far as the engine's handlers. */
  function Reaction(c: Cluster, e: Event): Option<Outcome>
    requires Enabled(c, e)
  {
    var node := c.nodes[Actor(e)];
    match e
    case Tick(_, now) => Some(EngineSpec.Tick(node.engine, now))
    case Propose(_, data) =>
      if node.engine.role == Leader then Some(EngineSpec.Propose(node.engine, data).outcome) else None
    case DeliverRequest(q, now) => Some(HandleRpc(node.engine, q.src, q.msg, now))
    case DeliverReply(r, now) =>
      var id := r.request.correlation;
      if Answers(c, e, id) && id in node.pending then Some(HandleRpc(node.engine, node.pending[id].to, r.msg, now))
      else None
    case Fail(_, _, _) => None
    case Connect(_, _) => None
    case Disconnect(_, _, _) => None
    case Restart(_, _) => None
  }

  /** The event delivers, to the life that sent it, an answer to request `id`. */
  predicate Answers(c: Cluster, e: Event, id: nat)
    requires Enabled(c, e)
  {
    e.DeliverReply? && e.reply.request.incarnation == c.incarnation[Actor(e)] && e.reply.request.correlation == id
  }

  function Inbound(e: Event): Option<NodeId> {
    if e.DeliverRequest? then Some(e.request.src) else None
  }

  /** The node that carries out what the engine asks for. */
  function Acting(c: Cluster, e: Event): Node
    requires Enabled(c, e) && Reaction(c, e).Some?
  {
    var node := c.nodes[Actor(e)].(engine := Reaction(c, e).value.engine);
    if e.DeliverReply? then node.(pending := node.pending - {e.reply.request.correlation}) else node
  }

  lemma ReactExecutes(c: Cluster, e: Event)
    requires Enabled(c, e) && Reaction(c, e).Some?
    ensures React(c, e) == Execute(Acting(c, e), Reaction(c, e).value.actions, Inbound(e))
  {
    hide Execute, EngineSpec.Tick, HandleRpc, EngineSpec.Propose;
    if e.Propose? {
      ProposeOnward(c.nodes[Actor(e)].engine, e.data);
    }
  }

  /** An event that does not reach the handlers at most clears marks. */
  lemma ReactRelaxes(c: Cluster, e: Event)
    requires Enabled(c, e) && Reaction(c, e).None? && !e.Restart?
    ensures var s, s' := c.nodes[Actor(e)].engine, React(c, e).node.engine;
            s' == s.(inflight := s'.inflight) && s'.inflight <= s.inflight
    ensures forall o :: o in React(c, e).outputs ==>
              e.Fail? && e.emit && e.correlation in c.nodes[Actor(e)].pending
              && o == RpcFailed(c.nodes[Actor(e)].pending[e.correlation].to)
  {
    hide FailAll, EngineSpec.Tick, HandleRpc;
    var node := c.nodes[Actor(e)];
    if e.Disconnect? {
      FailAllTouches(node.(connected := node.connected - {e.peer}), e.correlations, false);
      FailAllQuiet(node.(connected := node.connected - {e.peer}), e.correlations);
    }
    if e.Propose? {
      ProposeOnward(node.engine, e.data);
    }
  }

  // ---------------------------------------------------------------- roles

  /** Leader books are kept by leaders only, and votes counted by candidates only; whoever is not a follower has voted
      for itself; a leader names itself and a candidate nobody. */
  ghost predicate InRole(s: Engine) {
    && (s.role != Leader ==> s.nextIndex == map[] && s.matchIndex == map[] && s.lastAe == map[] && s.inflight == {})
    && (s.role == Candidate <==> s.votes != {})
    && (s.role != Follower ==> s.hard.votedFor == Some(s.Id()))
    && (s.role == Leader ==> s.leader == Some(s.Id()))
    && (s.role == Candidate ==> s.leader == None && s.Id() in s.votes)
  }

  /** A request for the node's own vote in its own term; nobody sends one to itself. */
  predicate AsksItself(s: Engine, msg: Message) {
    msg.RequestVote? && msg.term == s.Term() && msg.candidate == s.Id()
  }

  function Announcement(s: Engine): Action {
    match s.role
    case Leader => BecameLeader(s.Term())
    case Follower => BecameFollower(s.Term(), s.leader)
    case Candidate => BecameCandidate(s.Term())
  }

  predicate Announces(a: Action) {
    a.BecameLeader? || a.BecameFollower? || a.BecameCandidate?
  }

  predicate Moved(s: Engine, s': Engine) {
    s.role != s'.role || s.Term() != s'.Term()
  }

  /** Changes of role or term are announced as they are, and nothing else is. */
  ghost predicate Owns(s: Engine, r: Outcome) {
    forall a :: Announces(a) ==> (a in r.actions <==> Moved(s, r.engine) && a == Announcement(r.engine))
  }

  lemma TickOwns(s: Engine, now: Instant)
    requires InRole(s)
    ensures InRole(EngineSpec.Tick(s, now).engine) && Owns(s, EngineSpec.Tick(s, now))
  {
    hide ReplicateTo;
    ReplicateTouches(s, s.Others());
  }

  lemma ProposeOwns(s: Engine, data: Command)
    requires InRole(s) && s.role == Leader
    ensures var r := EngineSpec.Propose(s, data).outcome; InRole(r.engine) && Owns(s, r)
  {
    hide ReplicateTo;
    var s1 := s.(log := s.log + [LogEntry(|s.log| + 1, s.Term(), data)]);
    ReplicateTouches(s1, s1.Others());
  }

  lemma AppendOwns(s: Engine, from: NodeId, msg: Message, now: Instant)
    requires InRole(s) && msg.AppendEntries?
    ensures var r := HandleRpc(s, from, msg, now); InRole(r.engine) && Owns(s, r)
  {
    hide Merge, Slice, PrevMatches;
  }

  lemma AppendRespOwns(s: Engine, from: NodeId, msg: Message, now: Instant)
    requires InRole(s) && msg.AppendEntriesResp?
    ensures var r := HandleRpc(s, from, msg, now); InRole(r.engine) && Owns(s, r)
  {
    if s.role == Leader && msg.term == s.Term() && from in s.lastAe && msg.success {
      CommitOnlyApplies(Credit(s, from));
    }
    hide MaybeCommit, BuildAppendEntries;
  }

  lemma VoteOwns(s: Engine, from: NodeId, msg: Message, now: Instant)
    requires InRole(s) && !AsksItself(s, msg) && (msg.RequestVote? || msg.RequestVoteResp?)
    ensures var r := HandleRpc(s, from, msg, now); InRole(r.engine) && Owns(s, r)
  {
    hide UpToDate;
  }

  lemma HandleOwns(s: Engine, from: NodeId, msg: Message, now: Instant)
    requires InRole(s) && !AsksItself(s, msg)
    ensures var r := HandleRpc(s, from, msg, now); InRole(r.engine) && Owns(s, r)
  {
    hide InRole, Owns, HandleAppendEntries, HandleAppendEntriesResp, HandleRequestVote, HandleRequestVoteResp;
    match msg
    case AppendEntries(_, _, _, _, _, _) => AppendOwns(s, from, msg, now);
    case AppendEntriesResp(_, _, _) => AppendRespOwns(s, from, msg, now);
    case RequestVote(_, _, _, _) => VoteOwns(s, from, msg, now);
    case RequestVoteResp(_, _) => VoteOwns(s, from, msg, now);
    case InstallSnapshot(_) => NothingOwned(s);
    case InstallSnapshotResp(_) => NothingOwned(s);
  }

  lemma NothingOwned(s: Engine)
    ensures Owns(s, Outcome(s, []))
  {
  }

  lemma ReactionOwns(c: Cluster, h: Protocol.History, e: Event)
    requires Enabled(c, e) && Reaction(c, e).Some? && InRole(c.nodes[Actor(e)].engine) && Coupled(c, h, false)
    ensures InRole(Reaction(c, e).value.engine) && Owns(c.nodes[Actor(e)].engine, Reaction(c, e).value)
  {
    hide InRole, Owns, HandleRpc, EngineSpec.Tick, EngineSpec.Propose, Coupled, AsksItself;
    var s := c.nodes[Actor(e)].engine;
    match e
    case Tick(_, now) => TickOwns(s, now);
    case Propose(_, data) => ProposeOwns(s, data);
    case DeliverRequest(q, now) =>
      NobodyAsksItself(c, h, q);
      HandleOwns(s, q.src, q.msg, now);
    case DeliverReply(r, now) =>
      AnswerAsksNothing(c, h, r, s);
      HandleOwns(s, c.nodes[Actor(e)].pending[r.request.correlation].to, r.msg, now);
    case Fail(_, _, _) =>
    case Connect(_, _) =>
    case Disconnect(_, _, _) =>
    case Restart(_, _) =>
  }

  lemma NobodyAsksItself(c: Cluster, h: Protocol.History, q: Envelope)
    requires q in c.requests && q.dst in c.nodes && Coupled(c, h, false)
    ensures q.src != q.dst && IsRequest(q.msg) && !AsksItself(c.nodes[q.dst].engine, q.msg)
  {
    hide Protocol.Inv, Commitment.Backed, EngineOk, NotStuck, ReplyOk, EmittedOk;
    RequestIsOk(c, h, q, false);
    RequestKind(c, h, q, false);
    NodeKnowsItself(c, h, q.dst);
    hide Coupled;
  }

  lemma NodeKnowsItself(c: Cluster, h: Protocol.History, n: NodeId)
    requires n in c.nodes && Coupled(c, h, false)
    ensures c.nodes[n].engine.Id() == n
  {
    NodeIsOk(c, h, n, false);
    hide Coupled, NodeOk, Protocol.Inv, NotStuck, DurableOk, RoleOk, BooksOk, IdsBelow;
  }

  lemma AnswerAsksNothing(c: Cluster, h: Protocol.History, r: Reply, s: Engine)
    requires r in c.replies && Coupled(c, h, false)
    ensures IsAnswer(r.msg) && !AsksItself(s, r.msg)
  {
    hide Coupled;
    Hints.ReplyIsAnswer(c, h, r, false);
  }

  /** Losing marks is all that carrying out actions can do to the engine. */
  lemma MarksLost(s: Engine, s': Engine)
    requires InRole(s) && s' == s.(inflight := s'.inflight) && s'.inflight <= s.inflight
    ensures InRole(s')
  {
  }

  lemma FreshInRole(config: Config, hard: HardState, log: Log, now: Instant)
    ensures InRole(EngineSpec.New(config, hard, log, now))
  {
    hide Membership.New;
  }

  lemma ReactInRole(c: Cluster, h: Protocol.History, e: Event)
    requires Enabled(c, e) && InRole(c.nodes[Actor(e)].engine) && Coupled(c, h, false)
    ensures InRole(React(c, e).node.engine)
  {
    hide *;
    ActorExists(c, e);
    var s := c.nodes[Actor(e)].engine;
    if e.Restart? {
      RestartsFresh(c, e);
      FreshInRole(s.config, s.hard, s.log, e.now);
    } else if Reaction(c, e).Some? {
      ReactionOwns(c, h, e);
      ReactExecutes(c, e);
      ActingEngine(c, e);
      ExecuteTouches(Acting(c, e), Reaction(c, e).value.actions, Inbound(e));
      MarksLost(Reaction(c, e).value.engine, React(c, e).node.engine);
    } else {
      ReactRelaxes(c, e);
      MarksLost(s, React(c, e).node.engine);
    }
  }

  lemma RestartsFresh(c: Cluster, e: Event)
    requires e.Restart? && Enabled(c, e)
    ensures var s := c.nodes[Actor(e)].engine;
            React(c, e) == Effect(NodeSpec.New(s.config, s.hard, s.log, e.now), [])
            && React(c, e).node.engine == EngineSpec.New(s.config, s.hard, s.log, e.now)
  {
  }

  lemma ActingEngine(c: Cluster, e: Event)
    requires Enabled(c, e) && Reaction(c, e).Some?
    ensures Acting(c, e).engine == Reaction(c, e).value.engine
  {
    hide Reaction;
  }

  ghost predicate AllInRole(c: Cluster) {
    forall n :: n in c.nodes ==> InRole(c.nodes[n].engine)
  }

  ghost predicate InRoleAlong(c: Cluster) {
    AllInRole(c) && HasHistory(c, false)
  }

  lemma RolesGoOn()
    ensures Preserved((c: Cluster) => InRoleAlong(c), Anything)
  {
    hide Coupled, Step, React, Enabled, EngineSteps.Continues, InRole;
    var p := (c: Cluster) => InRoleAlong(c);
    forall c, e | p(c) && Enabled(c, e)
      ensures p(Step(c, e))
    {
      var h: Protocol.History :| Coupled(c, h, false);
      StepInRole(c, h, e);
      var h1 := StepKeeps(c, h, e, false);
    }
  }

  lemma StepInRole(c: Cluster, h: Protocol.History, e: Event)
    requires Enabled(c, e) && AllInRole(c) && Coupled(c, h, false)
    ensures AllInRole(Step(c, e))
  {
    hide Coupled, React, InRole;
    ReactInRole(c, h, e);
  }

  /** In every run every node's books and votes fit its role, as do its stored vote and the leader it names. */
  lemma ReachedInRole(c: Cluster, n: NodeId)
    requires n in c.nodes && Reached(c, Anything)
    ensures InRole(c.nodes[n].engine)
  {
    hide Coupled, Start, ConfigsOk, InRole, Preserved;
    var p := (x: Cluster) => InRoleAlong(x);
    forall configs, now | ConfigsOk(configs)
      ensures p(Start(configs, now))
    {
      StartCoupled(configs, now, false);
      StartInRole(configs, now);
    }
    RolesGoOn();
    assert p(c);
  }

  lemma StartInRole(configs: map<NodeId, Config>, now: Instant)
    ensures AllInRole(Start(configs, now))
  {
    hide Membership.New;
  }

  // ---------------------------------------------------------------- reports

  /** What is reported of roles is what the actions announce, and no failure is reported. */
  ghost predicate Told(self: NodeId, actions: seq<Action>, outputs: seq<Output>) {
    && (forall t, l :: RoleChanged(Leader, t, l) in outputs <==> BecameLeader(t) in actions && l == Some(self))
    && (forall t, l :: RoleChanged(Follower, t, l) in outputs <==> BecameFollower(t, l) in actions)
    && (forall t, l :: RoleChanged(Candidate, t, l) in outputs <==> BecameCandidate(t) in actions && l == None)
    && (forall p :: RpcFailed(p) !in outputs)
  }

  lemma OneTold(n: Node, action: Action, inbound: Option<NodeId>)
    ensures Told(n.engine.Id(), [action], ExecuteOne(n, action, inbound).outputs)
  {
    if action.Broadcast? {
      Hints.SendToAllOutputs(n, n.engine.Others(), action.msg);
    }
    hide SendToAll;
  }

  lemma {:induction false} ExecuteTells(n: Node, actions: seq<Action>, inbound: Option<NodeId>)
    ensures Told(n.engine.Id(), actions, Execute(n, actions, inbound).outputs)
    decreases |actions|
  {
    if actions != [] {
      var r := ExecuteOne(n, actions[0], inbound);
      OneTold(n, actions[0], inbound);
      assert r.node.engine.Id() == n.engine.Id() by { SameNode(n, actions[0], inbound); }
      ExecuteTells(r.node, actions[1..], InboundAfter(actions[0], inbound));
      assert actions == [actions[0]] + actions[1..];
      hide ExecuteOne;
    }
  }

  lemma SameNode(n: Node, action: Action, inbound: Option<NodeId>)
    ensures ExecuteOne(n, action, inbound).node.engine.Id() == n.engine.Id()
  {
    if action.Broadcast? {
      SendToAllTouches(n, n.engine.Others(), action.msg);
    }
    hide SendToAll;
  }

  /** In every run, whatever happens to a node short of a restart: it reports its role, term and leader exactly when
      role or term has changed, and as they then are. */
  lemma ChangesAreReported(c: Cluster, e: Event, o: Output)
    requires o.RoleChanged? && Enabled(c, e) && !e.Restart? && Reached(c, Anything)
    ensures var s, s' := c.nodes[Actor(e)].engine, React(c, e).node.engine;
            o in React(c, e).outputs <==> Moved(s, s') && o == RoleChanged(s'.role, s'.Term(), s'.leader)
  {
    hide *;
    ActorExists(c, e);
    ReachedInRole(c, Actor(e));
    if Reaction(c, e).Some? {
      var h := ReachedCoupled(c, Anything);
      ReactionOwns(c, h, e);
      ReactExecutes(c, e);
      ActingEngine(c, e);
      ExecuteTells(Acting(c, e), Reaction(c, e).value.actions, Inbound(e));
      ExecuteTouches(Acting(c, e), Reaction(c, e).value.actions, Inbound(e));
      OwnsTold(c.nodes[Actor(e)].engine, Reaction(c, e).value, React(c, e), o);
    } else {
      ReactRelaxes(c, e);
      NotMoved(c.nodes[Actor(e)].engine, React(c, e).node.engine);
    }
  }

  lemma NotMoved(s: Engine, s': Engine)
    requires s' == s.(inflight := s'.inflight)
    ensures !Moved(s, s')
  {
  }

  /** Announcements turn into reports. */
  lemma OwnsTold(s: Engine, r: Outcome, told: Effect, o: Output)
    requires Owns(s, r) && InRole(r.engine) && o.RoleChanged?
    requires told.node.engine == r.engine.(inflight := told.node.engine.inflight)
    requires Told(r.engine.Id(), r.actions, told.outputs)
    ensures var s' := told.node.engine;
            o in told.outputs <==> Moved(s, s') && o == RoleChanged(s'.role, s'.Term(), s'.leader)
  {
    var a := match o.role
             case Leader => BecameLeader(o.term)
             case Follower => BecameFollower(o.term, o.leader)
             case Candidate => BecameCandidate(o.term);
    assert Announces(a);
  }

  // ---------------------------------------------------------------- answers

  /** In every run a request that is delivered is answered at once, once and in kind, in the term the answerer is then
      in, which is at least its own and the request's; and nothing else is sent. */
  lemma EveryRequestIsAnswered(c: Cluster, q: Envelope, now: Instant) returns (answer: Reply)
    requires Enabled(c, DeliverRequest(q, now)) && Reached(c, Anything)
    ensures var c' := Step(c, DeliverRequest(q, now));
            && c'.replies == c.replies + {answer} && c'.requests == c.requests
            && answer.request == q && InKind(q.msg, answer.msg)
            && answer.msg.term == TermOf(c', q.dst) == Max(TermOf(c, q.dst), q.msg.term)
  {
    hide Reached, Coupled, Enabled, Step, HandleRpc, EndsInAnswer, React, IdsBelow;
    var e := DeliverRequest(q, now);
    ActorExists(c, e);
    var h := ReachedCoupled(c, Anything);
    NobodyAsksItself(c, h, q);
    NodeIsOk(c, h, q.dst, false);
    var before, msg := RequestsAreAnswered(c.nodes[q.dst].engine, q.src, q.msg, now);
    answer := Reply(q, msg);
    OnlyAnswered(c, q, now, before, msg);
  }

  /** A node that ends in its answer to a request has filed nothing and sent nothing else. */
  lemma OnlyAnswered(c: Cluster, q: Envelope, now: Instant, before: seq<Action>, msg: Message)
    requires Enabled(c, DeliverRequest(q, now)) && IdsBelow(c.nodes[q.dst])
    requires EndsInAnswer(HandleRpc(c.nodes[q.dst].engine, q.src, q.msg, now), before, q.src, msg)
    ensures var c' := Step(c, DeliverRequest(q, now));
            && c'.replies == c.replies + {Reply(q, msg)} && c'.requests == c.requests
            && q.dst in c'.nodes && TermOf(c', q.dst) == msg.term
  {
    hide HandleRpc, Execute, Filed, Execution.Reported, IdsBelow;
    var r := HandleRpc(c.nodes[q.dst].engine, q.src, q.msg, now);
    var node := c.nodes[q.dst].(engine := r.engine);
    var done := Execute(node, r.actions, Some(q.src));
    assert React(c, DeliverRequest(q, now)) == done;
    hide React;
    Filing.SameIds(c.nodes[q.dst], r.engine);
    ExecuteAnswer(node, before, q.src, msg);
    ExecuteFiles(node, r.actions, Some(q.src));
    OnlyOneOut(node, done, before, q.src, msg);
    assert Sent(q.dst, c.incarnation[q.dst], done.outputs) == {};
    assert Answered(DeliverRequest(q, now), done.outputs) == {Reply(q, msg)};
  }

  lemma OnlyOneOut(node: Node, r: Effect, before: seq<Action>, to: NodeId, msg: Message)
    requires var actions := before + [Send(to, msg)];
             Filed(node, r, actions) && Execution.Reported(node, r, actions, Some(to))
    requires r.node == node && IdsBelow(node) && forall a :: a in before ==> !a.Send? && !a.Broadcast?
    ensures forall o :: o in r.outputs ==> !o.SendRequest? && (o.SendResponse? ==> o == SendResponse(to, msg))
  {
  }

  /** Whoever has sent a request and waits for the answer is brought level with the node that it reaches: when the
      answer is delivered the sender is in the later of the two terms, and if that is not its own it is a follower
      there that knows no leader. So a deposed leader or a candidate that is behind steps down at the first answer it
      gets. */
  lemma AnswerLevelsTerms(c: Cluster, q: Envelope, now: Instant, later: Instant) returns (answer: Reply)
    requires Enabled(c, DeliverRequest(q, now)) && q.src in c.nodes && q.src in c.incarnation
    requires q.incarnation == c.incarnation[q.src] && q.correlation in c.nodes[q.src].pending
    requires Reached(c, Anything)
    ensures var c1 := Step(c, DeliverRequest(q, now)); var e := DeliverReply(answer, later);
            && Enabled(c1, e) && answer.request == q && var c2 := Step(c1, e);
            && TermOf(c2, q.src) == Max(TermOf(c, q.src), TermOf(c2, q.dst))
            && TermOf(c2, q.dst) == Max(TermOf(c, q.dst), q.msg.term)
            && (TermOf(c, q.src) < TermOf(c2, q.dst) ==>
                  c2.nodes[q.src].engine.role == Follower && c2.nodes[q.src].engine.leader == None)
  {
    hide Reached, Coupled, Step, Enabled, React, HandleRpc;
    var c1 := Step(c, DeliverRequest(q, now));
    answer := EveryRequestIsAnswered(c, q, now);
    var h := ReachedCoupled(c, Anything);
    ActorExists(c, DeliverRequest(q, now));
    NobodyAsksItself(c, h, q);
    BystanderWaits(c, q, now);
    assert Enabled(c1, DeliverReply(answer, later)) by { CanBeTaken(c, h, c1, answer, later); }
    AnswerTaken(c1, answer, later);
  }

  lemma CanBeTaken(c: Cluster, h: Protocol.History, c1: Cluster, answer: Reply, later: Instant)
    requires Coupled(c, h, false) && answer in c1.replies && answer.request.src in c.nodes
    requires c1.nodes.Keys == c.nodes.Keys && c1.incarnation == c.incarnation && c1.applied.Keys == c.applied.Keys
    ensures Enabled(c1, DeliverReply(answer, later))
  {
    hide Protocol.Inv, NodeOk, NetworkOk;
  }

  lemma BystanderWaits(c: Cluster, q: Envelope, now: Instant)
    requires Enabled(c, DeliverRequest(q, now)) && q.src in c.nodes && q.src != q.dst && q.src in c.incarnation
    ensures var c1 := Step(c, DeliverRequest(q, now));
            && c1.nodes.Keys == c.nodes.Keys && c1.nodes[q.src] == c.nodes[q.src] && c1.incarnation == c.incarnation
            && c1.applied.Keys == c.applied.Keys
  {
    hide React;
  }

  lemma AnswerTaken(c: Cluster, answer: Reply, later: Instant)
    requires Enabled(c, DeliverReply(answer, later))
    requires answer.request.dst in c.nodes && answer.request.src != answer.request.dst && IsAnswer(answer.msg)
    requires Answers(c, DeliverReply(answer, later), answer.request.correlation)
    requires answer.request.correlation in c.nodes[answer.request.src].pending
    ensures var e := DeliverReply(answer, later); var c', n := Step(c, e), answer.request.src;
            && n in c'.nodes && c'.nodes[answer.request.dst] == c.nodes[answer.request.dst]
            && TermOf(c', n) == Max(TermOf(c, n), answer.msg.term)
            && (TermOf(c, n) < answer.msg.term ==>
                  c'.nodes[n].engine.role == Follower && c'.nodes[n].engine.leader == None)
  {
    var e := DeliverReply(answer, later);
    var n, from := answer.request.src, c.nodes[answer.request.src].pending[answer.request.correlation].to;
    TermIsAdopted(c.nodes[n].engine, from, answer.msg, later);
    if answer.msg.term > c.nodes[n].engine.Term() {
      NobodyIsNamed(c.nodes[n].engine, from, answer.msg, later);
    }
    ReactExecutes(c, e);
    hide HandleRpc;
    ExecuteTouches(Acting(c, e), Reaction(c, e).value.actions, None);
    hide Execute, React;
  }

  lemma NobodyIsNamed(s: Engine, from: NodeId, msg: Message, now: Instant)
    requires IsAnswer(msg) && msg.term > s.Term()
    ensures HandleRpc(s, from, msg, now).engine.leader == None
  {
  }
}
