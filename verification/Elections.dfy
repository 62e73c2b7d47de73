/** How a node comes to lead: whoever is connected to a majority that is in no later term and holds nothing that would
    speak against it can win the next term, and nobody's log or commit index changes on the way. */
module Elections {
  import opened Types
  import opened LogSpec
  import opened EngineSpec
  import opened NodeSpec
  import opened Cluster
  import opened Reachability
  import opened Coupling
  import opened Execution
  import opened Events
  import opened Progress
  import opened Safety
  import opened Tenure
  import opened Guarantees
  import opened CatchUp
  import opened Filing
  import EngineSteps
  import Protocol
  import M = Membership

  // ---------------------------------------------------------------- connecting

  lemma {:induction false} ConnectAll(c: Cluster, x: NodeId, ps: set<NodeId>) returns (c': Cluster)
    requires x in c.nodes && Reached(c, Anything)
    ensures Follows(c, c', Anything) && SteppedAlone(c, c', x, c.nodes[x].(connected := c.nodes[x].connected + ps))
    decreases |ps|
  {
    hide Reached, Follows, Coupled, Step;
    if ps == {} {
      c' := c;
      StaysPut(c, Anything);
      assert c.nodes[x].connected + ps == c.nodes[x].connected;
    } else {
      var p :| p in ps;
      var h := ReachedCoupled(c, Anything);
      NodeListed(c, h, x);
      var e := Connect(x, p);
      StaysPut(c, Anything);
      StepAlone(c, c, e);
      var c1 := Step(c, e);
      StepIsReached(c, e, Anything);
      c' := ConnectAll(c1, x, ps - {p});
      FollowsOn(c, c1, c', Anything);
      assert c.nodes[x].connected + ps == c.nodes[x].connected + {p} + (ps - {p});
    }
  }

  // ---------------------------------------------------------------- standing for election

  function Ask(x: NodeId, s: Engine): Message {
    RequestVote(s.Term() + 1, x, |s.log|, LastTerm(s.log))
  }

  /** A request for `p`'s vote is waiting for its answer. */
  ghost predicate Asked(node: Node, p: NodeId, ask: Message, from: nat) {
    exists id :: from <= id && id in node.pending && node.pending[id] == Pending(p, VoteRpc, ask)
  }

  /** The node has just stood for election. */
  ghost predicate Standing(node: Node, node': Node, x: NodeId) {
    var s, s' := node.engine, node'.engine;
    && s'.role == Candidate && s'.Term() == s.Term() + 1 && s'.votes == {x}
    && s'.log == s.log && s'.commitIndex == s.commitIndex && s'.config == s.config && s'.members == s.members
    && node'.connected == node.connected && node.nextCorrelation <= node'.nextCorrelation
    && (forall id :: id in node.pending ==> id in node'.pending && node'.pending[id] == node.pending[id])
    && (forall id :: id in node'.pending && id !in node.pending ==> node'.pending[id].msg == Ask(x, s))
    && (forall p :: p in node.connected && p in s.members.Voters() && p != x ==>
          Asked(node', p, Ask(x, s), node.nextCorrelation))
  }

  lemma {:induction false} SendToAllReaches(n: Node, peers: seq<NodeId>, msg: Message, p: NodeId) returns (id: nat)
    requires p in peers && p in n.connected && msg.RequestVote?
    ensures n.nextCorrelation <= id && id in SendToAll(n, peers, msg).node.pending
    ensures SendToAll(n, peers, msg).node.pending[id] == Pending(p, VoteRpc, msg)
    decreases |peers|
  {
    var n1 := SendRpc(n, peers[0], msg).node;
    if peers[0] == p {
      id := n.nextCorrelation;
      SendToAllKeeps(n1, peers[1..], msg, id);
    } else {
      id := SendToAllReaches(n1, peers[1..], msg, p);
    }
  }

  lemma {:induction false} SendToAllKeeps(n: Node, peers: seq<NodeId>, msg: Message, id: nat)
    requires id in n.pending && id < n.nextCorrelation
    ensures var n' := SendToAll(n, peers, msg).node; id in n'.pending && n'.pending[id] == n.pending[id]
    decreases |peers|
  {
    if peers != [] {
      SendToAllKeeps(SendRpc(n, peers[0], msg).node, peers[1..], msg, id);
    }
  }

  lemma Announces(n: Node, t: Term, msg: Message)
    ensures Execute(n, [BecameCandidate(t), Broadcast(msg)], None).node == SendToAll(n, n.engine.Others(), msg).node
  {
    var actions := [BecameCandidate(t), Broadcast(msg)];
    assert actions[1..] == [Broadcast(msg)] && actions[1..][1..] == [];
    hide SendToAll;
    assert Execute(n, actions, None).node == Execute(n, actions[1..], None).node;
    var n1 := SendToAll(n, n.engine.Others(), msg).node;
    assert Execute(n1, [], None).node == n1;
  }

  lemma Stands(node: Node, x: NodeId, now: Instant)
    requires node.engine.role != Leader && now >= node.engine.NextDeadline() && IdsBelow(node) && node.engine.Id() == x
    ensures Standing(node, NodeSpec.Tick(node, now).node, x)
  {
    hide Execute, SendToAll;
    var s := node.engine;
    var r := StartElection(s, now);
    var mid := node.(engine := r.engine);
    Announces(mid, s.Term() + 1, Ask(x, s));
    ExecuteTouches(mid, r.actions, None);
    ExecuteFiles(mid, r.actions, None) by { SameIds(node, r.engine); }
    var node' := Execute(mid, r.actions, None).node;
    forall p | p in node.connected && p in s.members.Voters() && p != x
      ensures Asked(node', p, Ask(x, s), node.nextCorrelation)
    {
      OtherVoter(s, p);
      var id := SendToAllReaches(mid, mid.engine.Others(), Ask(x, s), p);
    }
  }

  lemma StandEvent(c: Cluster, x: NodeId) returns (c': Cluster)
    requires x in c.nodes && EngineOf(c, x).role != Leader && Reached(c, Anything)
    ensures Follows(c, c', Anything) && x in c'.nodes && SteppedAlone(c, c', x, c'.nodes[x])
    ensures Standing(c.nodes[x], c'.nodes[x], x) && EngineOf(c, x).members.Voters() == c.nodes.Keys
  {
    hide Coupled, Reached, Follows, NodeSpec.Tick, NodeOk, EngineOk, NotStuck, IdsBelow, Protocol.Inv, Standing;
    var h := ReachedCoupled(c, Anything);
    NodeIsOk(c, h, x, false);
    NodeListed(c, h, x);
    CoupledInv(c, h, false);
    VotersAre(h, x, EngineOf(c, x));
    var now := EngineOf(c, x).NextDeadline();
    Stands(c.nodes[x], x, now);
    var e := Event.Tick(x, now);
    StaysPut(c, Anything);
    StepAlone(c, c, e);
    c' := Step(c, e);
  }

  lemma VotersAre(h: Protocol.History, x: NodeId, s: Engine)
    requires EngineOk(h, x, s, false)
    ensures s.Id() == x && s.members.Valid() && s.members.Voters() == h.voters
    ensures s.members.Quorum() == |h.voters| / 2 + 1
  {
    hide DurableOk, RoleOk, BooksOk;
    EngineSteps.QuorumAgrees(h, x, s);
  }

  // ---------------------------------------------------------------- being asked for a vote

  /** What a later term's request for a vote does to the node asked. */
  ghost predicate Yielded(s: Engine, s': Engine, t: Term) {
    && s'.role == Follower && s'.Term() == t && s'.log == s.log && s'.commitIndex == s.commitIndex
    && s'.config == s.config && s'.members == s.members
  }

  lemma AskedShape(s: Engine, from: NodeId, msg: Message, now: Instant) returns (before: seq<Action>, granted: bool)
    requires msg.RequestVote? && msg.term > s.Term()
    ensures var r := HandleRpc(s, from, msg, now);
            r.actions == before + [Send(from, RequestVoteResp(msg.term, granted))] && Yielded(s, r.engine, msg.term)
    ensures forall a :: a in before ==> !a.Send? && !a.Broadcast?
    ensures UpToDate(s.log, msg.lastLogIndex, msg.lastLogTerm) ==> granted
  {
    before := [BecameFollower(msg.term, None)];
    granted := UpToDate(s.log, msg.lastLogIndex, msg.lastLogTerm);
  }

  /** The request reaches the node, which moves to the candidate's term and answers. */
  lemma DeliverAsk(c: Cluster, q: Envelope) returns (c': Cluster, granted: bool)
    requires q in c.requests && q.msg.RequestVote? && q.dst in c.nodes && q.msg.term > TermOf(c, q.dst)
    requires Reached(c, Anything)
    ensures Follows(c, c', Anything) && q.dst in c'.nodes
    ensures SteppedAlone(c, c', q.dst, c.nodes[q.dst].(engine := EngineOf(c', q.dst)))
    ensures Yielded(EngineOf(c, q.dst), EngineOf(c', q.dst), q.msg.term)
    ensures Reply(q, RequestVoteResp(q.msg.term, granted)) in c'.replies
    ensures UpToDate(LogOf(c, q.dst), q.msg.lastLogIndex, q.msg.lastLogTerm) ==> granted
  {
    hide Coupled, Reached, HandleRpc, Execute, Follows, Yielded;
    var h := ReachedCoupled(c, Anything);
    NodeListed(c, h, q.dst);
    var e := DeliverRequest(q, 0);
    assert Enabled(c, e);
    var node := c.nodes[q.dst];
    var r := HandleRpc(node.engine, q.src, q.msg, 0);
    var before;
    before, granted := AskedShape(node.engine, q.src, q.msg, 0);
    var answer := RequestVoteResp(q.msg.term, granted);
    ExecuteAnswer(node.(engine := r.engine), before, q.src, answer);
    assert SendResponse(q.src, answer).SendResponse?;
    assert React(c, e).node == node.(engine := r.engine);
    assert SendResponse(q.src, answer) in React(c, e).outputs;
    hide React;
    StaysPut(c, Anything);
    StepAlone(c, c, e);
    c' := Step(c, e);
  }

  // ---------------------------------------------------------------- being given a vote

  /** What a vote does to a candidate: it is counted, and a majority makes a leader. */
  ghost predicate Counted(s: Engine, s': Engine, p: NodeId) {
    && s'.Term() == s.Term() && s'.log == s.log && s'.commitIndex == s.commitIndex
    && s'.config == s.config && s'.members == s.members
    && if |s.votes + {p}| >= s.members.Quorum() then s'.role == Leader && FreshBooks(s')
       else s'.role == Candidate && s'.votes == s.votes + {p}
  }

  lemma VoteShape(s: Engine, p: NodeId, now: Instant)
    requires s.role == Candidate
    ensures var r := HandleRpc(s, p, RequestVoteResp(s.Term(), true), now);
            Counted(s, r.engine, p) && forall a :: a in r.actions ==> !a.Send? && !a.Broadcast?
  {
  }

  lemma DeliverVote(c: Cluster, q: Envelope) returns (c': Cluster)
    requires q.src in c.nodes && q.src in c.incarnation && q.incarnation == c.incarnation[q.src] && Reached(c, Anything)
    requires EngineOf(c, q.src).role == Candidate && q.correlation in c.nodes[q.src].pending
    requires c.nodes[q.src].pending[q.correlation].to == q.dst
    requires Reply(q, RequestVoteResp(TermOf(c, q.src), true)) in c.replies
    ensures Follows(c, c', Anything) && q.src in c'.nodes && SteppedAlone(c, c', q.src, c'.nodes[q.src])
    ensures var node, node' := c.nodes[q.src], c'.nodes[q.src];
            && Counted(node.engine, node'.engine, q.dst)
            && node' == node.(engine := node'.engine, pending := node.pending - {q.correlation})
  {
    hide Coupled, Reached, HandleRpc, Execute, Follows, Counted;
    var h := ReachedCoupled(c, Anything);
    NodeListed(c, h, q.src);
    var node := c.nodes[q.src];
    var vote := RequestVoteResp(TermOf(c, q.src), true);
    var e := DeliverReply(Reply(q, vote), 0);
    assert Enabled(c, e);
    var r := HandleRpc(node.engine, q.dst, vote, 0);
    VoteShape(node.engine, q.dst, 0);
    ExecuteQuiet(node.(engine := r.engine, pending := node.pending - {q.correlation}), r.actions, None);
    StaysPut(c, Anything);
    StepAlone(c, c, e);
    c' := Step(c, e);
  }

  // ---------------------------------------------------------------- winning

  /** The candidate has lost nothing it was waiting for, and waits for nothing but votes in addition. */
  ghost predicate Ran(node: Node, node': Node) {
    var s, s' := node.engine, node'.engine;
    && s'.Term() == s.Term() + 1 && s'.log == s.log && s'.commitIndex == s.commitIndex && s'.members == s.members
    && node'.connected == node.connected
    && (forall id :: id in node.pending ==> id in node'.pending && node'.pending[id] == node.pending[id])
    && (forall id :: id in node'.pending && node'.pending[id].msg.AppendEntries? ==> id in node.pending)
  }

  /** Another node has at most moved on to the candidate's term, and not at all unless it was asked. */
  ghost predicate Stood(node: Node, node': Node, t: Term, asked: bool) {
    var s, s' := node.engine, node'.engine;
    && node' == node.(engine := s') && s'.log == s.log && s'.commitIndex == s.commitIndex
    && (s.Term() < t ==> s'.Term() <= t) && (s.role != Leader ==> s'.role != Leader) && (!asked ==> node' == node)
  }

  /** Since `b`, only `x` and some of `ps` have moved: no log and no commit index has changed, and no term has gone
      beyond the one that `x` stood in. */
  ghost predicate Campaigned(b: Cluster, c: Cluster, x: NodeId, ps: set<NodeId>) {
    && x in b.nodes && c.nodes.Keys == b.nodes.Keys && c.incarnation == b.incarnation && b.requests <= c.requests
    && Ran(b.nodes[x], c.nodes[x])
    && forall n :: n in b.nodes && n != x ==> Stood(b.nodes[n], c.nodes[n], TermOf(b, x) + 1, n in ps)
  }

  /** `p` is in no later term than `x` and would vote for it. */
  ghost predicate Favours(c: Cluster, x: NodeId, p: NodeId) {
    && x in c.nodes && p in c.nodes && p != x && p in c.nodes[x].connected && TermOf(c, p) <= TermOf(c, x)
    && UpToDate(LogOf(c, p), |LogOf(c, x)|, LastTerm(LogOf(c, x)))
  }

  /** `x` stands, has the votes of `ps` but for `rest`, and has asked each of `rest`. */
  ghost predicate Canvassing(b: Cluster, c: Cluster, x: NodeId, ps: set<NodeId>, rest: set<NodeId>) {
    && Campaigned(b, c, x, ps) && rest <= ps && EngineOf(c, x).role == Candidate
    && ps - rest + {x} <= EngineOf(c, x).votes && |EngineOf(c, x).votes| < EngineOf(c, x).members.Quorum()
    && forall p :: p in rest ==>
         && p in c.nodes && c.nodes[p] == b.nodes[p]
         && Asked(c.nodes[x], p, Ask(x, EngineOf(b, x)), b.nodes[x].nextCorrelation)
  }

  lemma StandingRan(node: Node, node': Node, x: NodeId)
    requires Standing(node, node', x)
    ensures Ran(node, node') && node'.engine.role == Candidate && node'.engine.votes == {x}
  {
  }

  lemma UnmovedStood(node: Node, t: Term, asked: bool)
    ensures Stood(node, node, t, asked)
  {
  }

  lemma StandingAsked(b: Cluster, c: Cluster, x: NodeId, p: NodeId)
    requires x in b.nodes && x in c.nodes && Standing(b.nodes[x], c.nodes[x], x) && Favours(b, x, p)
    requires EngineOf(b, x).members.Voters() == b.nodes.Keys
    ensures Asked(c.nodes[x], p, Ask(x, EngineOf(b, x)), b.nodes[x].nextCorrelation)
  {
    hide Asked, Ask, M.Membership.Voters;
  }

  lemma StandingCampaigns(b: Cluster, c: Cluster, x: NodeId, ps: set<NodeId>)
    requires x in b.nodes && x in c.nodes && SteppedAlone(b, c, x, c.nodes[x]) && Standing(b.nodes[x], c.nodes[x], x)
    requires (forall p :: p in ps ==> Favours(b, x, p)) && EngineOf(b, x).members.Voters() == b.nodes.Keys
    requires EngineOf(b, x).members.Quorum() >= 2 && x !in ps
    ensures Canvassing(b, c, x, ps, ps)
  {
    hide Ran, Stood, Standing, Asked, Ask, Favours, M.Membership.Voters, M.Membership.Quorum;
    StandingRan(b.nodes[x], c.nodes[x], x);
    forall n | n in b.nodes && n != x
      ensures Stood(b.nodes[n], c.nodes[n], TermOf(b, x) + 1, n in ps)
    {
      UnmovedStood(b.nodes[n], TermOf(b, x) + 1, n in ps);
    }
    forall p | p in ps
      ensures p in c.nodes && c.nodes[p] == b.nodes[p]
      ensures Asked(c.nodes[x], p, Ask(x, EngineOf(b, x)), b.nodes[x].nextCorrelation)
    {
      FavoursKnown(b, x, p);
      StandingAsked(b, c, x, p);
    }
  }

  lemma FavoursKnown(c: Cluster, x: NodeId, p: NodeId)
    requires Favours(c, x, p)
    ensures p in c.nodes && p != x
  {
  }

  lemma Canvass(b: Cluster, c: Cluster, x: NodeId, ps: set<NodeId>, rest: set<NodeId>, p: NodeId) returns (c': Cluster)
    requires Canvassing(b, c, x, ps, rest) && p in rest && Favours(b, x, p) && Reached(c, Anything)
    requires IdsBelow(b.nodes[x])
    ensures Follows(c, c', Anything) && Reached(c', Anything) && Campaigned(b, c', x, ps)
    ensures (Leads(c', x) && FreshBooks(EngineOf(c', x))) || Canvassing(b, c', x, ps, rest - {p})
  {
    hide Reached, Follows, Coupled, FreshBooks, Protocol.Inv, NodeOk, EngineOk, NotStuck, RequestOk;
    var h := ReachedCoupled(c, Anything);
    NodeListed(c, h, x);
    var id :| b.nodes[x].nextCorrelation <= id && id in c.nodes[x].pending
              && c.nodes[x].pending[id] == Pending(p, VoteRpc, Ask(x, EngineOf(b, x)));
    var q := PendingRequest(c, h, x, id);
    var c1, granted := DeliverAsk(c, q);
    FutureIsReached(c, c1, Anything);
    c' := DeliverVote(c1, q);
    FollowsOn(c, c1, c', Anything);
    FutureIsReached(c, c', Anything);
    VoteCounts(b, c, c1, c', x, ps, rest, p, id);
  }

  /** The candidate has not moved while its request was answered; now the vote arrives. */
  lemma VoterRan(node: Node, mid: Node, node': Node, id: nat)
    requires Ran(node, mid) && IdsBelow(node) && node.nextCorrelation <= id
    requires node' == mid.(engine := node'.engine, pending := mid.pending - {id})
    requires exists p :: Counted(mid.engine, node'.engine, p)
    ensures Ran(node, node')
  {
  }

  lemma YieldedStood(node: Node, node': Node, t: Term)
    requires node' == node.(engine := node'.engine) && Yielded(node.engine, node'.engine, t)
    ensures Stood(node, node', t, true)
  {
  }

  lemma VoteCounts(b: Cluster, c: Cluster, c1: Cluster, c': Cluster, x: NodeId, ps: set<NodeId>, rest: set<NodeId>,
                   p: NodeId, id: nat)
    requires Canvassing(b, c, x, ps, rest) && p in rest && Favours(b, x, p) && IdsBelow(b.nodes[x])
    requires b.nodes[x].nextCorrelation <= id && id in c.nodes[x].pending
    requires c.nodes[x].pending[id] == Pending(p, VoteRpc, Ask(x, EngineOf(b, x)))
    requires p in c1.nodes && SteppedAlone(c, c1, p, c.nodes[p].(engine := EngineOf(c1, p)))
    requires Yielded(EngineOf(c, p), EngineOf(c1, p), TermOf(b, x) + 1)
    requires x in c1.nodes && x in c'.nodes && SteppedAlone(c1, c', x, c'.nodes[x])
    requires Counted(EngineOf(c1, x), EngineOf(c', x), p)
    requires c'.nodes[x] == c1.nodes[x].(engine := EngineOf(c', x), pending := c1.nodes[x].pending - {id})
    ensures Campaigned(b, c', x, ps)
    ensures (Leads(c', x) && FreshBooks(EngineOf(c', x))) || Canvassing(b, c', x, ps, rest - {p})
  {
    hide FreshBooks, Ran, Stood, Yielded, IdsBelow, Asked;
    var ask := Ask(x, EngineOf(b, x));
    VoterRan(b.nodes[x], c.nodes[x], c'.nodes[x], id);
    YieldedStood(b.nodes[p], c'.nodes[p], TermOf(b, x) + 1);
    assert Campaigned(b, c', x, ps);
    if !Leads(c', x) {
      forall r | r in rest - {p}
        ensures Asked(c'.nodes[x], r, ask, b.nodes[x].nextCorrelation)
      {
        assert Asked(c.nodes[x], r, ask, b.nodes[x].nextCorrelation);
        StillAsked(c.nodes[x], c'.nodes[x], r, ask, b.nodes[x].nextCorrelation, id);
      }
    }
  }

  lemma StillAsked(node: Node, node': Node, p: NodeId, ask: Message, from: nat, id: nat)
    requires Asked(node, p, ask, from) && id in node.pending && node.pending[id].to != p
    requires node'.pending == node.pending - {id}
    ensures Asked(node', p, ask, from)
  {
    var i :| from <= i && i in node.pending && node.pending[i] == Pending(p, VoteRpc, ask);
    assert i in node'.pending;
  }

  lemma {:induction false} CanvassAll(b: Cluster, c: Cluster, x: NodeId, ps: set<NodeId>, rest: set<NodeId>)
    returns (c': Cluster)
    requires Canvassing(b, c, x, ps, rest) && (forall p :: p in ps ==> Favours(b, x, p)) && IdsBelow(b.nodes[x])
    requires x !in ps && |ps| + 1 >= EngineOf(b, x).members.Quorum() && Reached(c, Anything)
    ensures Follows(c, c', Anything) && Campaigned(b, c', x, ps) && Leads(c', x) && FreshBooks(EngineOf(c', x))
    decreases |rest|
  {
    hide Reached, Follows, FreshBooks, Campaigned, Favours, IdsBelow;
    CampaignerExists(b, c, x, ps);
    if rest == {} {
      M.SubsetSize(ps + {x}, EngineOf(c, x).votes);
      assert false;
    }
    var p :| p in rest;
    var c1 := Canvass(b, c, x, ps, rest, p);
    if Leads(c1, x) && FreshBooks(EngineOf(c1, x)) {
      c' := c1;
    } else {
      c' := CanvassAll(b, c1, x, ps, rest - {p});
      FollowsOn(c, c1, c', Anything);
    }
  }

  lemma CampaignerExists(b: Cluster, c: Cluster, x: NodeId, ps: set<NodeId>)
    requires Campaigned(b, c, x, ps)
    ensures x in b.nodes && x in c.nodes && EngineOf(c, x).members == EngineOf(b, x).members
  {
  }

  /** A node that does not lead and is connected to a majority that favours it can win the next term. */
  lemma CanWin(b: Cluster, x: NodeId, ps: set<NodeId>) returns (c: Cluster)
    requires x in b.nodes && EngineOf(b, x).role != Leader && Reached(b, Anything)
    requires ps != {} && x !in ps && forall p :: p in ps ==> Favours(b, x, p)
    requires |ps| + 1 >= |b.nodes.Keys| / 2 + 1
    ensures Follows(b, c, Anything) && Reached(c, Anything) && Campaigned(b, c, x, ps)
    ensures Leads(c, x) && FreshBooks(EngineOf(c, x))
  {
    hide Reached, Follows, FreshBooks, Campaigned, Favours, IdsBelow, Coupled, Protocol.Inv, NodeOk, EngineOk, NotStuck;
    hide Standing, SteppedAlone;
    var h := ReachedCoupled(b, Anything);
    NodeIsOk(b, h, x, false);
    CoupledInv(b, h, false);
    VotersAre(h, x, EngineOf(b, x));
    TwoAtLeast(b, x, ps);
    var c1 := StandEvent(b, x);
    FutureIsReached(b, c1, Anything);
    StandingCampaigns(b, c1, x, ps);
    c := CanvassAll(b, c1, x, ps, ps);
    FollowsOn(b, c1, c, Anything);
    FutureIsReached(b, c, Anything);
  }

  lemma TwoAtLeast(c: Cluster, x: NodeId, ps: set<NodeId>)
    requires x in c.nodes && ps != {} && x !in ps && forall p :: p in ps ==> Favours(c, x, p)
    ensures |c.nodes.Keys| / 2 + 1 >= 2
  {
    var p :| p in ps;
    assert Favours(c, x, p);
    M.SubsetSize({x, p}, c.nodes.Keys);
  }

  // ---------------------------------------------------------------- standing until a later term

  /** `x` has stood, once or more, alone: it is a candidate in term `t`, and has asked `p` for its vote. */
  ghost predicate StoodIn(b: Cluster, c: Cluster, x: NodeId, t: Term, p: NodeId) {
    && x in b.nodes && x in c.nodes && SteppedAlone(b, c, x, c.nodes[x])
    && EngineOf(c, x).role == Candidate && TermOf(c, x) == t
    && LogOf(c, x) == LogOf(b, x) && CommitOf(c, x) == CommitOf(b, x)
    && c.nodes[x].connected == b.nodes[x].connected
    && (forall id :: id in c.nodes[x].pending && c.nodes[x].pending[id].msg.AppendEntries? ==>
          id in b.nodes[x].pending && c.nodes[x].pending[id] == b.nodes[x].pending[id])
    && exists id, i, last :: id in c.nodes[x].pending
                             && c.nodes[x].pending[id] == Pending(p, VoteRpc, RequestVote(t, x, i, last))
  }

  lemma {:induction false} StandsUntil(b: Cluster, x: NodeId, t: Term, p: NodeId) returns (c: Cluster)
    requires x in b.nodes && EngineOf(b, x).role != Leader && TermOf(b, x) < t && Reached(b, Anything)
    requires p in b.nodes[x].connected && p in b.nodes && p != x
    ensures Follows(b, c, Anything) && StoodIn(b, c, x, t, p)
    decreases t - TermOf(b, x)
  {
    hide Reached, Follows;
    var c1 := StandEvent(b, x);
    FutureIsReached(b, c1, Anything);
    if TermOf(c1, x) == t {
      c := c1;
      var id :| b.nodes[x].nextCorrelation <= id && id in c.nodes[x].pending
                && c.nodes[x].pending[id] == Pending(p, VoteRpc, Ask(x, EngineOf(b, x)));
    } else {
      c := StandsUntil(c1, x, t, p);
      FollowsOn(b, c1, c, Anything);
    }
  }
}
