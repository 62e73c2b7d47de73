/** Every event of the cluster keeps the correspondence with a history. */
module Events {
  import opened Types
  import opened LogSpec
  import opened Protocol
  import opened Moves
  import opened Commitment
  import opened EngineSpec
  import opened NodeSpec
  import opened Cluster
  import opened Coupling
  import opened Execution
  import opened Replication
  import opened Landing
  import opened EngineSteps
  import M = Membership

  lemma NodeIsOk(c: Cluster, h: History, n: NodeId, acked: bool)
    requires Coupled(c, h, acked) && n in c.nodes
    ensures NodeOk(c, h, n, acked) && Inv(h) && n in h.voters && IdsBelow(c.nodes[n]) && NotStuck(c.nodes[n])
    ensures EngineOk(h, n, c.nodes[n].engine, acked)
    ensures acked ==> c.applied[n] == CommittedPrefix(c.nodes[n].engine)
  {
    hide Inv, NetworkOk, EngineOk, NotStuck;
    assert NodeOk(c, h, n, acked);
    assert PendingOk(c, n);
  }

  lemma RequestIsOk(c: Cluster, h: History, q: Envelope, acked: bool)
    requires Coupled(c, h, acked) && q in c.requests
    ensures RequestOk(c, h, q, acked) && MsgOk(h, q.src, q.dst, q.msg, acked)
  {
    hide Inv, NodeOk, MsgOk, ReplyOk, EmittedOk;
    assert RequestOk(c, h, q, acked);
  }

  /** Deadlines play no part in the correspondence. */
  lemma Retimed(h: History, n: NodeId, s: Engine, s': Engine, acked: bool)
    requires EngineOk(h, n, s, acked)
    requires s' == s.(electionDeadline := s'.electionDeadline, heartbeatDeadline := s'.heartbeatDeadline)
    ensures EngineOk(h, n, s', acked)
  {
    hide Secure;
    if s.role == Leader {
      forall q | q in s'.nextIndex
        ensures PeerOk(s', q)
      {
        assert PeerOk(s, q);
      }
    }
  }

  // ---------------------------------------------------------------- ticks and proposals

  /** A leader sends appends and does nothing else. */
  lemma SendingLands(c: Cluster, h: History, h': History, e: Event, s: Engine, s': Engine, actions: seq<Action>,
                     acked: bool)
    requires Coupled(c, h, acked) && Enabled(c, e) && (e.Tick? || e.Propose?) && Continues(h, h', Actor(e))
    requires EngineOk(h', Actor(e), s, acked) && s.role == Leader && s.inflight == c.nodes[Actor(e)].engine.inflight
    requires NotStuck(c.nodes[Actor(e)].(engine := s))
    requires acked ==> CommittedPrefix(s) == CommittedPrefix(c.nodes[Actor(e)].engine)
    requires Sending(s, s', actions) && React(c, e) == Execute(c.nodes[Actor(e)].(engine := s'), actions, None)
    ensures Coupled(Step(c, e), h', acked)
  {
    hide Inv, EngineOk, NotStuck, Extends, SecureKept, Coupled, Filed, Reported;
    var n := Actor(e);
    var node := c.nodes[n];
    var mid, r := node.(engine := s'), React(c, e);
    NodeIsOk(c, h, n, acked);
    SendingExecutes(h', n, node.(engine := s), s', actions, acked) by { InvNodes(h'); }
    ExecuteFiles(mid, actions, None);
    hide React;
    SendsApplyNothing(s, s', actions);
    SentMsgsOk(h', n, mid, r, actions, acked);
    SendingCommits(s, s', actions, actions, mid, r);
    Lands(c, h, h', e, mid, actions, None, acked);
  }

  lemma InvNodes(h: History)
    requires Inv(h)
    ensures NodesOk(h)
  {
  }

  lemma SentMsgsOk(h: History, n: NodeId, mid: Node, r: Effect, actions: seq<Action>, acked: bool)
    requires Filed(mid, r, actions)
    requires forall to: NodeId, msg :: Wanted(mid, actions, to, msg) ==> MsgOk(h, n, to, msg, acked)
    ensures NewMsgsOk(h, n, mid, r.node, acked)
  {
  }

  lemma SendingCommits(s: Engine, s': Engine, sends: seq<Action>, actions: seq<Action>, mid: Node, r: Effect)
    requires Sending(s, s', sends) && mid.engine == s' && Filed(mid, r, actions)
    ensures CommittedPrefix(r.node.engine) == CommittedPrefix(s)
  {
  }

  lemma {:induction false} SendsApplyNothing(s: Engine, s': Engine, actions: seq<Action>)
    requires forall i :: 0 <= i < |actions| ==> SendsOne(s, s', actions[i])
    ensures AppliesOf(actions) == []
    ensures forall a :: a in actions ==> a.Send?
    decreases |actions|
  {
    if actions != [] {
      assert SendsOne(s, s', actions[0]);
      forall i | 0 <= i < |actions[1..]|
        ensures SendsOne(s, s', actions[1..][i])
      {
        assert actions[1..][i] == actions[i + 1];
      }
      SendsApplyNothing(s, s', actions[1..]);
    }
  }

  lemma LeaderTick(c: Cluster, h: History, e: Event, acked: bool)
    requires Coupled(c, h, acked) && Enabled(c, e) && e.Tick?
    requires var s := c.nodes[e.n].engine; s.role == Leader && e.now >= s.NextDeadline() && e.now >= s.heartbeatDeadline
    ensures Coupled(Step(c, e), h, acked) && Continues(h, h, e.n)
  {
    hide Inv, EngineOk, Coupled, Sending, NotStuck;
    var node := c.nodes[e.n];
    var s := node.engine;
    NodeIsOk(c, h, e.n, acked);
    ContinuesReflexive(h, e.n);
    var r := Replicate(s);
    var beat := e.now + s.config.heartbeatInterval;
    OthersDistinct(h, e.n, s, acked);
    ReplicateIsSending(s, s.Others());
    var s0, s1 := s.(heartbeatDeadline := beat), r.engine.(heartbeatDeadline := beat);
    RetimedSending(s, r.engine, r.actions, beat);
    Retimed(h, e.n, s, s0, acked);
    RetimedNode(node, s0);
    SendingLands(c, h, h, e, s0, s1, r.actions, acked);
  }

  lemma OthersDistinct(h: History, n: NodeId, s: Engine, acked: bool)
    requires EngineOk(h, n, s, acked)
    ensures M.Membership(s.Others()).Valid() && (forall q :: q in s.Others() <==> q in h.voters && q != n)
  {
    hide DurableOk, RoleOk, BooksOk, Secure;
    QuorumAgrees(h, n, s);
    M.WithoutIsDistinct(s.members.order, n);
    forall q ensures q in s.members.order <==> q in h.voters {
      assert q in s.members.order <==> q in s.members.Voters();
    }
  }

  lemma RetimedSending(s: Engine, s': Engine, actions: seq<Action>, beat: Instant)
    requires Sending(s, s', actions)
    ensures Sending(s.(heartbeatDeadline := beat), s'.(heartbeatDeadline := beat), actions)
  {
    forall i | 0 <= i < |actions|
      ensures SendsOne(s.(heartbeatDeadline := beat), s'.(heartbeatDeadline := beat), actions[i])
    {
      assert SendsOne(s, s', actions[i]);
    }
  }

  lemma RetimedNode(node: Node, s: Engine)
    requires s == node.engine.(heartbeatDeadline := s.heartbeatDeadline)
    ensures NotStuck(node) ==> NotStuck(node.(engine := s))
  {
    if NotStuck(node) {
      forall q | q in s.inflight
        ensures exists id :: Awaits(node.pending, id, q, s.Term())
      {
        var id :| Awaits(node.pending, id, q, node.engine.Term());
        assert Awaits(node.pending, id, q, s.Term());
      }
    }
  }

  lemma LeaderPropose(c: Cluster, h: History, e: Event, acked: bool) returns (h': History)
    requires Coupled(c, h, acked) && Enabled(c, e) && e.Propose? && c.nodes[e.n].engine.role == Leader
    ensures Coupled(Step(c, e), h', acked) && Continues(h, h', e.n)
  {
    hide Inv, EngineOk, NotStuck, Coupled, Sending, Continues;
    var node := c.nodes[e.n];
    var s := node.engine;
    NodeIsOk(c, h, e.n, acked);
    h' := ProposeStep(h, e.n, s, e.data, acked);
    var s0 := s.(log := s.log + [LogEntry(|s.log| + 1, s.Term(), e.data)]);
    var r := Replicate(s0);
    OthersDistinct(h', e.n, s0, acked);
    ReplicateIsSending(s0, s0.Others());
    LongerLogNode(node, s0);
    if acked {
      LongerLogPrefix(h, e.n, s, s0);
    }
    SendingLands(c, h, h', e, s0, r.engine, r.actions, acked);
  }

  lemma LongerLogNode(node: Node, s: Engine)
    requires s == node.engine.(log := s.log)
    ensures NotStuck(node) ==> NotStuck(node.(engine := s))
  {
    if NotStuck(node) {
      forall q | q in s.inflight
        ensures exists id :: Awaits(node.pending, id, q, s.Term())
      {
        var id :| Awaits(node.pending, id, q, node.engine.Term());
        assert Awaits(node.pending, id, q, s.Term());
      }
    }
  }

  lemma LongerLogPrefix(h: History, n: NodeId, s: Engine, s': Engine)
    requires EngineOk(h, n, s, true) && s' == s.(log := s'.log) && s.log <= s'.log
    ensures CommittedPrefix(s) == CommittedPrefix(s')
  {
    hide RoleOk, BooksOk, IdentityOk;
  }

  lemma ElectionTick(c: Cluster, h: History, e: Event, acked: bool) returns (h': History)
    requires Coupled(c, h, acked) && Enabled(c, e) && e.Tick?
    requires var s := c.nodes[e.n].engine; s.role != Leader && e.now >= s.NextDeadline()
    ensures Coupled(Step(c, e), h', acked) && Continues(h, h', e.n)
  {
    hide Inv, EngineOk, NotStuck, Coupled, Continues, Filed, Reported, Extends, SecureKept, NewMsgsOk,
         MsgOk, CommittedPrefix;
    var n, node := e.n, c.nodes[e.n];
    var s := node.engine;
    NodeIsOk(c, h, n, acked);
    h' := CampaignStep(h, n, s, e.now, acked);
    var r := StartElection(s, e.now);
    var mid := node.(engine := r.engine);
    assert React(c, e) == Execute(mid, r.actions, None);
    ExecuteFiles(mid, r.actions, None);
    ElectionActions(h', n, s, e.now, mid, acked);
    hide React, StartElection;
    NotLeaderAfter(h', n, mid, React(c, e), r.actions, acked);
    SentMsgsOk(h', n, mid, React(c, e), r.actions, acked);
    ContinuesParts(h, h', n);
    Lands(c, h, h', e, mid, r.actions, None, acked);
  }

  lemma ElectionActions(h: History, n: NodeId, s: Engine, now: Instant, mid: Node, acked: bool)
    requires mid.engine == StartElection(s, now).engine && EngineOk(h, n, mid.engine, acked)
    requires (n, s.Term() + 1) in h.campaigns && h.campaigns[(n, s.Term() + 1)] == s.log
    ensures var actions := StartElection(s, now).actions;
            && AppliesOf(actions) == [] && ReportsOk(h, n, actions, acked)
            && forall to: NodeId, msg :: Wanted(mid, actions, to, msg) ==> MsgOk(h, n, to, msg, acked)
    ensures mid.engine.role != Leader && CommittedPrefix(mid.engine) == CommittedPrefix(s)
  {
    var actions := StartElection(s, now).actions;
    OthersDistinct(h, n, mid.engine, acked);
    KnowsItself(h, n, mid.engine);
    hide DurableOk, RoleOk, BooksOk, Secure;
    assert AppliesOf(actions) == AppliesOf(actions[1..]) == AppliesOf(actions[1..][1..]) == [];
    forall to: NodeId, msg | Wanted(mid, actions, to, msg)
      ensures MsgOk(h, n, to, msg, acked)
    {
      assert to in mid.engine.Others() && msg == actions[1].msg;
    }
  }

  lemma ContinuesParts(h: History, h': History, n: NodeId)
    requires Continues(h, h', n)
    ensures Inv(h') && Extends(h, h', n) && SecureKept(h, h')
  {
  }

  /** A node that is not a leader has nothing in flight, before and after carrying out its actions. */
  lemma NotLeaderAfter(h: History, n: NodeId, mid: Node, r: Effect, actions: seq<Action>, acked: bool)
    requires EngineOk(h, n, mid.engine, acked) && mid.engine.role != Leader && Filed(mid, r, actions)
    ensures AfterOk(h, n, r.node, acked) && CommittedPrefix(r.node.engine) == CommittedPrefix(mid.engine)
  {
    FewerInflight(h, n, mid.engine, r.node.engine, acked);
    assert r.node.engine.inflight == {};
  }

  // ---------------------------------------------------------------- requests

  /** The receiver answers; nothing else leaves the node. */
  lemma AnswerLands(c: Cluster, h: History, h': History, e: Event, s': Engine, before: seq<Action>, answer: Message,
                    acked: bool)
    requires Coupled(c, h, acked) && Enabled(c, e) && e.DeliverRequest? && Continues(h, h', Actor(e))
    requires HandleRpc(c.nodes[Actor(e)].engine, e.request.src, e.request.msg, e.now) ==
               Outcome(s', before + [Send(e.request.src, answer)])
    requires forall a :: a in before ==> a.BecameFollower? || a.Apply?
    requires EngineOk(h', Actor(e), s', acked) && (s' == c.nodes[Actor(e)].engine || s'.role != Leader)
    requires ReplyOk(c, h', Reply(e.request, answer))
    requires acked ==> forall es, x :: Apply(es) in before && x in es ==> Chosen(h', x)
    requires acked ==> CommittedPrefix(c.nodes[Actor(e)].engine) + AppliesOf(before) == CommittedPrefix(s')
    ensures Coupled(Step(c, e), h', acked)
  {
    hide Inv, EngineOk, NotStuck, Extends, SecureKept, Coupled, Filed, Reported, HandleRpc, ReplyOk,
         CommittedPrefix, Chosen;
    var n := Actor(e);
    var node := c.nodes[n];
    NodeIsOk(c, h, n, acked);
    var mid, actions, from := node.(engine := s'), before + [Send(e.request.src, answer)], e.request.src;
    assert React(c, e) == Execute(mid, actions, Some(from));
    hide React;
    ExecuteFiles(mid, actions, Some(from));
    ExecuteAnswer(mid, before, from, answer);
    hide Execute;
    AppliesOfAnswer(before, Send(from, answer));
    AnswerReports(c, h', e, n, before, answer, acked);
    assert NotStuck(mid) by {
      if s'.role != Leader {
        NothingInflight(h', n, mid, acked);
      }
    }
    Lands(c, h, h', e, mid, actions, Some(from), acked);
  }

  lemma AnswerReports(c: Cluster, h: History, e: Event, n: NodeId, before: seq<Action>, answer: Message, acked: bool)
    requires e.DeliverRequest? && ReplyOk(c, h, Reply(e.request, answer))
    requires forall a :: a in before ==> a.BecameFollower? || a.Apply?
    requires acked ==> forall es, x :: Apply(es) in before && x in es ==> Chosen(h, x)
    ensures var actions := before + [Send(e.request.src, answer)];
            AnswersOk(c, h, e, actions, Some(e.request.src)) && ReportsOk(h, n, actions, acked)
  {
    hide ReplyOk, Chosen;
    var actions := before + [Send(e.request.src, answer)];
    forall es, x | acked && Apply(es) in actions && x in es
      ensures Chosen(h, x)
    {
      assert Apply(es) in before;
    }
  }

  lemma NothingInflight(h: History, n: NodeId, node: Node, acked: bool)
    requires EngineOk(h, n, node.engine, acked) && node.engine.role != Leader
    ensures NotStuck(node)
  {
    assert node.engine.inflight == {};
  }

  lemma {:induction false} AppliesOfAnswer(before: seq<Action>, last: Action)
    requires !last.Apply?
    ensures AppliesOf(before + [last]) == AppliesOf(before)
    decreases |before|
  {
    if before == [] {
      assert (before + [last])[1..] == [];
    } else {
      AppliesOfAnswer(before[1..], last);
      assert (before + [last])[1..] == before[1..] + [last];
    }
  }

  lemma VoteRequest(c: Cluster, h: History, e: Event, acked: bool) returns (h': History)
    requires Coupled(c, h, acked) && Enabled(c, e) && e.DeliverRequest? && e.request.msg.RequestVote?
    ensures Coupled(Step(c, e), h', acked) && Continues(h, h', Actor(e))
  {
    hide Inv, EngineOk, Coupled, Extends, SecureKept, Continues, NotStuck;
    var q, n := e.request, e.request.dst;
    var s := c.nodes[n].engine;
    NodeIsOk(c, h, n, acked);
    RequestIsOk(c, h, q, acked);
    var before, answer;
    h', before, answer := AnswerVote(c, h, n, s, q, e.now, acked);
    hide HandleRequestVote, MsgOk, ReplyOk, CommittedPrefix;
    AnswerLands(c, h, h', e, HandleRpc(s, q.src, q.msg, e.now).engine, before, answer, acked);
  }

  lemma AnswerVote(c: Cluster, h: History, n: NodeId, s: Engine, q: Envelope, now: Instant, acked: bool)
    returns (h': History, before: seq<Action>, answer: Message)
    requires Inv(h) && EngineOk(h, n, s, acked) && q in c.requests && q.dst == n
    requires q.msg.RequestVote? && MsgOk(h, q.src, n, q.msg, acked)
    ensures Continues(h, h', n)
    ensures var r := HandleRpc(s, q.src, q.msg, now);
            && r.actions == before + [Send(q.src, answer)] && EngineOk(h', n, r.engine, acked)
            && (r.engine == s || r.engine.role != Leader) && CommittedPrefix(r.engine) == CommittedPrefix(s)
    ensures forall a :: a in before ==> a.BecameFollower?
    ensures AppliesOf(before) == [] && ReplyOk(c, h', Reply(q, answer))
  {
    hide Inv, EngineOk, Continues;
    var term := q.msg.term;
    EngineVotes(h, n, s, acked);
    if term < s.Term() {
      h', before, answer := h, [], RequestVoteResp(s.Term(), false);
      ContinuesReflexive(h, n);
    } else {
      var s1 := if term > s.Term() then BecomeFollower(s, term, None) else s;
      before := if term > s.Term() then [BecameFollower(term, None)] else [];
      var h1 := StepDownIfLater(h, n, s, term, acked);
      SelfVoters(h1, n, s1, acked);
      assert (q.src, term) in h1.campaigns && h1.campaigns[(q.src, term)] == h.campaigns[(q.src, term)] by {
        ContinuesCampaigns(h, h1, n);
      }
      if (s1.hard.votedFor == None || s1.hard.votedFor == Some(q.src))
         && UpToDate(s.log, q.msg.lastLogIndex, q.msg.lastLogTerm) {
        ContinuesKeeps(h, h1, n);
        h' := GrantStep(h1, n, s1, q.src, s.FreshElectionDeadline(now), acked);
        ContinuesTransitive(h, h1, h', n);
        answer := RequestVoteResp(term, true);
      } else {
        h', answer := h1, RequestVoteResp(term, false);
      }
    }
  }

  lemma StepDownIfLater(h: History, n: NodeId, s: Engine, term: Term, acked: bool) returns (h': History)
    requires Inv(h) && EngineOk(h, n, s, acked) && term >= s.Term()
    ensures Continues(h, h', n)
    ensures EngineOk(h', n, if term > s.Term() then BecomeFollower(s, term, None) else s, acked)
  {
    hide Inv, EngineOk, Continues;
    if term > s.Term() {
      h' := StepDown(h, n, s, term, None, acked);
    } else {
      h' := h;
      EngineVotes(h, n, s, acked);
      ContinuesReflexive(h, n);
    }
  }

  lemma ContinuesCampaigns(h: History, h': History, n: NodeId)
    requires Continues(h, h', n)
    ensures forall k :: k in h.campaigns ==> k in h'.campaigns && h'.campaigns[k] == h.campaigns[k]
    ensures forall t :: t in h.reigns ==> t in h'.reigns && h'.reigns[t].leader == h.reigns[t].leader
  {
    hide Inv, SecureKept;
  }

  /** Candidates and leaders have voted for themselves. */
  lemma SelfVoters(h: History, n: NodeId, s: Engine, acked: bool)
    requires EngineOk(h, n, s, acked)
    ensures s.role == Leader ==> s.hard.votedFor == Some(n)
    ensures s.hard.votedFor == VoteOf(h, n, s.Term())
  {
  }

  lemma AppendRequest(c: Cluster, h: History, e: Event, acked: bool) returns (h': History)
    requires Coupled(c, h, acked) && Enabled(c, e) && e.DeliverRequest? && e.request.msg.AppendEntries?
    ensures Coupled(Step(c, e), h', acked) && Continues(h, h', Actor(e))
  {
    hide Inv, EngineOk, Coupled, Extends, SecureKept, Continues, NotStuck;
    var q, n := e.request, e.request.dst;
    var s := c.nodes[n].engine;
    NodeIsOk(c, h, n, acked);
    RequestIsOk(c, h, q, acked);
    var before, answer;
    h', before, answer := AnswerAppend(c, h, n, s, q, e.now, acked);
    hide HandleAppendEntries, MsgOk, ReplyOk, CommittedPrefix;
    AnswerLands(c, h, h', e, HandleRpc(s, q.src, q.msg, e.now).engine, before, answer, acked);
  }

  lemma AnswerAppend(c: Cluster, h: History, n: NodeId, s: Engine, q: Envelope, now: Instant, acked: bool)
    returns (h': History, before: seq<Action>, answer: Message)
    requires Inv(h) && EngineOk(h, n, s, acked) && q in c.requests && q.dst == n
    requires q.msg.AppendEntries? && MsgOk(h, q.src, n, q.msg, acked)
    ensures Continues(h, h', n)
    ensures var r := HandleRpc(s, q.src, q.msg, now);
            && r.actions == before + [Send(q.src, answer)] && EngineOk(h', n, r.engine, acked)
            && (r.engine == s || r.engine.role != Leader)
            && (acked ==> CommittedPrefix(s) + AppliesOf(before) == CommittedPrefix(r.engine))
    ensures forall a :: a in before ==> a.BecameFollower? || a.Apply?
    ensures acked ==> forall es, x :: Apply(es) in before && x in es ==> Chosen(h', x)
    ensures ReplyOk(c, h', Reply(q, answer))
  {
    hide Inv, EngineOk, Continues, CommittedPrefix, Chosen;
    var m := q.msg;
    EngineVotes(h, n, s, acked);
    if m.term < s.Term() {
      h', before, answer := h, [], AppendEntriesResp(s.Term(), false, |s.log|);
      ContinuesReflexive(h, n);
    } else {
      var r1 := FollowLeader(s, m.term, m.leader, now);
      var h1 := FollowStep(h, n, s, q.src, m, now, acked);
      if !PrevMatches(s.log, m.prevLogIndex, m.prevLogTerm) {
        h', before, answer := h1, r1.actions, AppendEntriesResp(m.term, false, |s.log|);
        FollowActions(s, m.term, m.leader, now);
      } else {
        answer := AppendEntriesResp(m.term, true, m.prevLogIndex + |m.entries|);
        h', before := AcceptBatch(h, h1, n, s, q.src, m, now, acked);
      }
    }
  }

  /** The batch passed the consistency check: merge, advance the commit index, apply. */
  lemma AcceptBatch(h: History, h1: History, n: NodeId, s: Engine, src: NodeId, m: Message, now: Instant, acked: bool)
    returns (h': History, before: seq<Action>)
    requires m.AppendEntries? && m.term >= s.Term() && PrevMatches(s.log, m.prevLogIndex, m.prevLogTerm)
    requires Continues(h, h1, n) && MsgOk(h1, src, n, m, acked) && EngineOk(h, n, s, acked)
    requires var s1 := FollowLeader(s, m.term, m.leader, now).engine;
             EngineOk(h1, n, s1, acked) && s1.role == Follower && s1.Term() == m.term
    ensures Continues(h, h', n) && m.prevLogIndex + |m.entries| <= h'.Ack(n, m.term)
    ensures var r := HandleAppendEntries(s, src, m.term, m.leader, m.prevLogIndex, m.prevLogTerm, m.entries,
                                         m.leaderCommit, now);
            && r.actions == before + [Send(src, AppendEntriesResp(m.term, true, m.prevLogIndex + |m.entries|))]
            && EngineOk(h', n, r.engine, acked) && r.engine.role != Leader
            && (acked ==> CommittedPrefix(s) + AppliesOf(before) == CommittedPrefix(r.engine))
    ensures forall a :: a in before ==> a.BecameFollower? || a.Apply?
    ensures acked ==> forall es, x :: Apply(es) in before && x in es ==> Chosen(h', x)
  {
    hide *;
    BatchFits(s, m);
    FollowActions(s, m.term, m.leader, now);
    AcceptShape(s, src, m, now);
    var r1 := FollowLeader(s, m.term, m.leader, now);
    var lastNew := m.prevLogIndex + |m.entries|;
    var s2 := r1.engine.(log := Merge(s.log, m.prevLogIndex, m.entries));
    var r2 := AdvanceCommit(s2, m.leaderCommit, lastNew);
    before := r1.actions + r2.actions;
    ContinuesKeeps(h, h1, n);
    h' := AppendStep(h1, n, r1.engine, src, m, acked);
    ContinuesTransitive(h, h1, h', n);
    ContinuesKeeps(h1, h', n);
    AdvanceCommitStep(h', n, s2, m.leaderCommit, lastNew, acked);
    AppliesOfConcat(r1.actions, r2.actions);
    assert [] + AppliesOf(r2.actions) == AppliesOf(r2.actions);
    if acked {
      SamePrefixAfterMerge(h, h', n, s, s2);
    }
  }

  lemma BatchFits(s: Engine, m: Message)
    requires m.AppendEntries? && PrevMatches(s.log, m.prevLogIndex, m.prevLogTerm)
    ensures m.prevLogIndex <= |s.log|
  {
  }

  lemma AcceptShape(s: Engine, src: NodeId, m: Message, now: Instant)
    requires m.AppendEntries? && m.term >= s.Term() && PrevMatches(s.log, m.prevLogIndex, m.prevLogTerm)
    requires m.prevLogIndex <= |s.log|
    ensures var r1, lastNew := FollowLeader(s, m.term, m.leader, now), m.prevLogIndex + |m.entries|;
            var r2 := AdvanceCommit(r1.engine.(log := Merge(s.log, m.prevLogIndex, m.entries)), m.leaderCommit,
                                    lastNew);
            && HandleAppendEntries(s, src, m.term, m.leader, m.prevLogIndex, m.prevLogTerm, m.entries, m.leaderCommit,
                                   now)
               == Outcome(r2.engine, r1.actions + r2.actions + [Send(src, AppendEntriesResp(m.term, true, lastNew))])
            && r2.engine.role == r1.engine.role
  {
    hide Merge, PrevMatches, FollowLeader;
  }

  lemma FollowActions(s: Engine, term: Term, leader: NodeId, now: Instant)
    ensures var r := FollowLeader(s, term, leader, now);
            && AppliesOf(r.actions) == [] && (forall a :: a in r.actions ==> a.BecameFollower?)
            && CommittedPrefix(r.engine) == CommittedPrefix(s)
            && r.engine.log == s.log && r.engine.commitIndex == s.commitIndex && r.engine.role == Follower
  {
    assert AppliesOf([]) == [];
  }

  lemma {:induction false} AppliesOfConcat(a: seq<Action>, b: seq<Action>)
    ensures AppliesOf(a + b) == AppliesOf(a) + AppliesOf(b)
    decreases |a|
  {
    if a == [] {
      assert a + b == b;
    } else {
      AppliesOfConcat(a[1..], b);
      var x := if a[0].Apply? then a[0].entries else [];
      assert (a + b)[0] == a[0] && (a + b)[1..] == a[1..] + b;
      assert AppliesOf(a + b) == x + AppliesOf(a[1..] + b);
      assert AppliesOf(a) == x + AppliesOf(a[1..]);
    }
  }

  /** What was committed before the merge reads the same after it. */
  lemma SamePrefixAfterMerge(h: History, h': History, n: NodeId, s: Engine, s': Engine)
    requires EngineOk(h, n, s, true) && EngineOk(h', n, s', true) && Continues(h, h', n)
    requires s'.commitIndex == s.commitIndex
    ensures CommittedPrefix(s') == CommittedPrefix(s)
  {
    hide Inv, Extends, RoleOk, BooksOk, IdentityOk;
    assert Secure(h, n, s.commitIndex);
  }

  /** Contact from the leader of a term that is not stale: that leader is followed. */
  lemma FollowStep(h: History, n: NodeId, s: Engine, src: NodeId, m: Message, now: Instant, acked: bool)
    returns (h': History)
    requires Inv(h) && EngineOk(h, n, s, acked) && m.AppendEntries? && MsgOk(h, src, n, m, acked) && m.term >= s.Term()
    ensures Continues(h, h', n) && MsgOk(h', src, n, m, acked)
    ensures var s' := FollowLeader(s, m.term, m.leader, now).engine;
            EngineOk(h', n, s', acked) && s'.role == Follower && s'.Term() == m.term
  {
    hide Inv, EngineOk, Continues;
    var s' := FollowLeader(s, m.term, m.leader, now).engine;
    if m.term > s.Term() || s.role != Follower {
      h' := StepDown(h, n, s, m.term, Some(m.leader), acked);
      Retimed(h', n, BecomeFollower(s, m.term, Some(m.leader)), s', acked);
    } else {
      h' := h;
      EngineVotes(h, n, s, acked);
      ContinuesReflexive(h, n);
      Retimed(h, n, s, s.(electionDeadline := s'.electionDeadline), acked);
      HintLeader(h, n, s.(electionDeadline := s'.electionDeadline), m.leader, acked);
    }
    assert Extends(h, h', n) by { ContinuesParts(h, h', n); }
    hide Extends;
    MsgFrame(h, h', n, src, n, m, acked);
  }

  lemma HintLeader(h: History, n: NodeId, s: Engine, l: NodeId, acked: bool)
    requires EngineOk(h, n, s, acked) && s.role == Follower && s.Term() in h.reigns && h.reigns[s.Term()].leader == l
    ensures EngineOk(h, n, s.(leader := Some(l)), acked)
  {
    hide Secure;
  }

  // ---------------------------------------------------------------- replies

  /** The pending entry a reply answers is the very request it replies to. */
  lemma PendingMatches(c: Cluster, h: History, r: Reply, acked: bool)
    requires Coupled(c, h, acked) && r in c.replies && r.request.src in c.nodes && r.request.src in c.incarnation
    requires r.request.incarnation == c.incarnation[r.request.src]
    requires r.request.correlation in c.nodes[r.request.src].pending
    ensures ReplyOk(c, h, r) && MsgOk(h, r.request.src, r.request.dst, r.request.msg, acked)
    ensures var p := c.nodes[r.request.src].pending[r.request.correlation];
            p.to == r.request.dst && p.msg == r.request.msg && p.kind == KindOf(p.msg)
  {
    hide Inv, EngineOk, MsgOk, EmittedOk, NotStuck;
    var q, n := r.request, r.request.src;
    assert ReplyOk(c, h, r);
    assert q in c.requests && RequestOk(c, h, q, acked);
    assert NodeOk(c, h, n, acked) && PendingOk(c, n);
    var p := c.nodes[n].pending[q.correlation];
    assert SameKey(Envelope(n, p.to, c.incarnation[n], q.correlation, p.msg), q);
  }

  /** A reply that makes the node report and nothing more. */
  lemma QuietReplyLands(c: Cluster, h: History, h': History, e: Event, mid: Node, actions: seq<Action>, acked: bool)
    requires Enabled(c, e) && e.DeliverReply? && Spent(c.nodes[Actor(e)], mid) && IdsBelow(mid)
    requires React(c, e) == Execute(mid, actions, None)
    requires forall a :: a in actions ==>
               a.BecameFollower? || (a.BecameLeader? && a.term in h'.reigns && h'.reigns[a.term].leader == Actor(e))
    requires acked ==> CommittedPrefix(mid.engine) == CommittedPrefix(c.nodes[Actor(e)].engine)
    requires AfterOk(h', Actor(e), mid, acked)
    requires Continues(h, h', Actor(e)) && Coupled(c, h, acked)
    ensures Coupled(Step(c, e), h', acked)
  {
    hide *;
    ActorExists(c, e);
    ContinuesParts(h, h', Actor(e));
    ActorPrefix(c, h, Actor(e), acked);
    QuietEffect(c, e, mid, actions);
    QuietReports(c, h', e, mid, actions, acked);
    Lands(c, h, h', e, mid, actions, None, acked);
  }

  lemma ActorExists(c: Cluster, e: Event)
    requires Enabled(c, e)
    ensures Actor(e) in c.nodes && Actor(e) in c.applied && Actor(e) in c.incarnation
    ensures e.DeliverReply? ==> e.reply in c.replies
    ensures e.DeliverRequest? ==> e.request in c.requests
  {
  }

  lemma ActorPrefix(c: Cluster, h: History, n: NodeId, acked: bool)
    requires Coupled(c, h, acked) && n in c.nodes && n in c.applied
    ensures acked ==> c.applied[n] + [] == CommittedPrefix(c.nodes[n].engine)
  {
    hide Coupled, CommittedPrefix, EngineOk, Inv;
    NodeIsOk(c, h, n, acked);
  }

  lemma QuietEffect(c: Cluster, e: Event, mid: Node, actions: seq<Action>)
    requires Enabled(c, e) && React(c, e) == Execute(mid, actions, None) && IdsBelow(mid)
    requires forall a :: a in actions ==> !a.Send? && !a.Broadcast? && !a.Apply?
    ensures Filed(mid, React(c, e), actions) && Reported(mid, React(c, e), actions, None)
    ensures React(c, e).node == mid && AppliedBy(React(c, e).outputs) == []
  {
    hide Filed, Reported, IdsBelow, React, Enabled;
    ExecuteFiles(mid, actions, None);
    ExecuteQuiet(mid, actions, None);
    QuietAppliesNothing(actions);
  }

  lemma QuietReports(c: Cluster, h: History, e: Event, mid: Node, actions: seq<Action>, acked: bool)
    requires e.DeliverReply?
    requires forall a :: a in actions ==>
               a.BecameFollower? || (a.BecameLeader? && a.term in h.reigns && h.reigns[a.term].leader == Actor(e))
    ensures AnswersOk(c, h, e, actions, None) && ReportsOk(h, Actor(e), actions, acked) && AppliesOf(actions) == []
    ensures NewMsgsOk(h, Actor(e), mid, mid, acked)
  {
    QuietAppliesNothing(actions);
  }

  lemma {:induction false} QuietAppliesNothing(actions: seq<Action>)
    requires forall a :: a in actions ==> !a.Apply?
    ensures AppliesOf(actions) == []
    decreases |actions|
  {
    if actions != [] {
      QuietAppliesNothing(actions[1..]);
    }
  }

  /** A reply to a dead process, or to a request no longer pending, changes nothing. */
  lemma StaleReply(c: Cluster, h: History, e: Event, acked: bool)
    requires Coupled(c, h, acked) && Enabled(c, e) && e.DeliverReply?
    requires e.reply.request.incarnation != c.incarnation[Actor(e)]
             || e.reply.request.correlation !in c.nodes[Actor(e)].pending
    ensures Coupled(Step(c, e), h, acked) && Continues(h, h, Actor(e))
  {
    hide Inv, EngineOk, NotStuck, Extends, SecureKept, Coupled;
    var n := Actor(e);
    NodeIsOk(c, h, n, acked);
    ContinuesReflexive(h, n);
    QuietReplyLands(c, h, h, e, c.nodes[n], [], acked);
  }

  /** The node with one request answered and the engine moved on, when the engine is not a leader afterwards. */
  lemma NotLeaderMid(h: History, n: NodeId, node: Node, id: nat, s': Engine, acked: bool)
    requires IdsBelow(node) && EngineOk(h, n, s', acked) && s'.role != Leader
    ensures var mid := node.(engine := s', pending := node.pending - {id});
            AfterOk(h, n, mid, acked) && Spent(node, mid) && IdsBelow(mid)
  {
    hide EngineOk;
    NothingInflight(h, n, node.(engine := s', pending := node.pending - {id}), acked);
  }

  /** A leader that only dropped an answered vote request. */
  lemma VoteDropped(h: History, n: NodeId, node: Node, id: nat, acked: bool)
    requires IdsBelow(node) && EngineOk(h, n, node.engine, acked) && NotStuck(node) && id in node.pending
    requires !node.pending[id].msg.AppendEntries?
    ensures var mid := node.(pending := node.pending - {id});
            AfterOk(h, n, mid, acked) && Spent(node, mid) && IdsBelow(mid)
  {
    hide EngineOk;
    var mid := node.(pending := node.pending - {id});
    forall q | q in mid.engine.inflight
      ensures exists i :: Awaits(mid.pending, i, q, mid.engine.Term())
    {
      var i :| Awaits(node.pending, i, q, node.engine.Term());
      assert Awaits(mid.pending, i, q, mid.engine.Term());
    }
  }

  /** A fresh leader is in order, whatever is pending. */
  lemma FreshLeader(h: History, n: NodeId, node: Node, acked: bool)
    requires EngineOk(h, n, node.engine, acked) && node.engine.inflight == {}
    ensures AfterOk(h, n, node, acked)
  {
    hide EngineOk;
  }

  lemma VoteReply(c: Cluster, h: History, e: Event, acked: bool) returns (h': History)
    requires Coupled(c, h, acked) && Enabled(c, e) && e.DeliverReply? && e.reply.request.msg.RequestVote?
    requires e.reply.request.incarnation == c.incarnation[Actor(e)]
    requires e.reply.request.correlation in c.nodes[Actor(e)].pending
    ensures Coupled(Step(c, e), h', acked) && Continues(h, h', Actor(e))
  {
    hide Inv, EngineOk, Coupled, Extends, SecureKept, Continues, NotStuck, AfterOk, CommittedPrefix, Spent;
    var n, id := Actor(e), e.reply.request.correlation;
    var node := c.nodes[n];
    var s := node.engine;
    NodeIsOk(c, h, n, acked);
    PendingMatches(c, h, e.reply, acked);
    var r := HandleRpc(s, node.pending[id].to, e.reply.msg, e.now);
    var mid := node.(engine := r.engine, pending := node.pending - {id});
    assert React(c, e) == Execute(mid, r.actions, None);
    h' := VoteReplyStep(c, h, n, node, id, e.reply, e.now, acked);
    if r.engine.role == Leader && s.role != Leader {
      FreshLeader(h', n, mid, acked);
      assert Spent(node, mid) && IdsBelow(mid) by { SpentOne(node, r.engine, id); }
    } else if r.engine.role == Leader {
      VoteDropped(h', n, node, id, acked);
    } else {
      NotLeaderMid(h', n, node, id, r.engine, acked);
    }
    hide React, HandleRpc;
    QuietReplyLands(c, h, h', e, mid, r.actions, acked);
  }

  lemma SpentOne(node: Node, s: Engine, id: nat)
    requires IdsBelow(node)
    ensures var mid := node.(engine := s, pending := node.pending - {id}); Spent(node, mid) && IdsBelow(mid)
  {
  }

  lemma VoteReplyStep(c: Cluster, h: History, n: NodeId, node: Node, id: nat, r: Reply, now: Instant, acked: bool)
    returns (h': History)
    requires Inv(h) && EngineOk(h, n, node.engine, acked) && r.request.msg.RequestVote? && r.request.src == n
    requires ReplyOk(c, h, r) && MsgOk(h, n, r.request.dst, r.request.msg, acked) && r.request.dst in h.voters
    ensures Continues(h, h', n)
    ensures var o := HandleRpc(node.engine, r.request.dst, r.msg, now);
            && EngineOk(h', n, o.engine, acked) && CommittedPrefix(o.engine) == CommittedPrefix(node.engine)
            && (node.engine.role == Leader && o.engine.role == Leader ==> o.engine == node.engine)
            && (node.engine.role != Leader && o.engine.role == Leader ==> o.engine.inflight == {})
            && forall a :: a in o.actions ==>
              a.BecameFollower? || (a.BecameLeader? && a.term in h'.reigns && h'.reigns[a.term].leader == n)
  {
    hide Inv, EngineOk, Continues;
    var s, t := node.engine, r.msg.term;
    EngineVotes(h, n, s, acked);
    if t > s.Term() {
      h' := StepDown(h, n, s, t, None, acked);
    } else if t < s.Term() || s.role != Candidate || !r.msg.voteGranted {
      h' := h;
      ContinuesReflexive(h, n);
    } else {
      CountStep(h, n, s, r.request.dst, acked);
      var s1 := s.(votes := s.votes + {r.request.dst});
      if |s1.votes| >= s.members.Quorum() {
        h' := WinStep(h, n, s1, now, acked);
      } else {
        h' := h;
        ContinuesReflexive(h, n);
      }
    }
  }

  // ---------------------------------------------------------------- replies to appends

  /** The leader's engine after taking in an answer from `q`, before sending anything on. */
  ghost predicate TookAnswer(s: Engine, s1: Engine, q: NodeId) {
    && s.role == Leader && s1.role == Leader && s1.Term() == s.Term() && s1.inflight == s.inflight - {q}
    && s1.lastAe == s.lastAe
    && s1.nextIndex.Keys >= s.nextIndex.Keys
    && forall p :: p in s.nextIndex && p != q ==> s1.nextIndex[p] == s.nextIndex[p]
  }

  lemma AnswerTaken(node: Node, id: nat, s1: Engine, q: NodeId)
    requires id in node.pending && node.pending[id].to == q && node.pending[id].msg.AppendEntries?
    requires TookAnswer(node.engine, s1, q)
    ensures var node1 := node.(engine := s1, pending := node.pending - {id});
            NotStuck(node) ==> NotStuck(node1)
  {
    var node1 := node.(engine := s1, pending := node.pending - {id});
    if NotStuck(node) {
      forall p | p in s1.inflight
        ensures exists i :: Awaits(node1.pending, i, p, s1.Term())
      {
        var i :| Awaits(node.pending, i, p, node.engine.Term());
        assert Awaits(node1.pending, i, p, s1.Term());
      }
    }
  }

  /** Reports first, then appends: only the appends touch the node. */
  lemma {:induction false} ExecuteAfterApplies(n: Node, pre: seq<Action>, sends: seq<Action>)
    requires forall a :: a in pre ==> a.Apply?
    ensures Execute(n, pre + sends, None).node == Execute(n, sends, None).node
    decreases |pre|
  {
    if pre == [] {
      assert pre + sends == sends;
    } else {
      assert (pre + sends)[0] == pre[0] && (pre + sends)[1..] == pre[1..] + sends;
      assert pre[0] in pre && pre[0].Apply?;
      assert ExecuteOne(n, pre[0], None).node == n && InboundAfter(pre[0], None) == None;
      assert Execute(n, pre + sends, None).node == Execute(n, pre[1..] + sends, None).node;
      ExecuteAfterApplies(n, pre[1..], sends);
    }
  }

  lemma LeaderReplyLands(c: Cluster, h: History, h': History, e: Event, s1: Engine, s': Engine, pre: seq<Action>,
                         sends: seq<Action>, acked: bool)
    requires Enabled(c, e) && e.DeliverReply?
    requires e.reply.request.incarnation == c.incarnation[Actor(e)]
    requires e.reply.request.correlation in c.nodes[Actor(e)].pending
    requires var node, id := c.nodes[Actor(e)], e.reply.request.correlation;
             && node.pending[id].msg.AppendEntries? && TookAnswer(node.engine, s1, node.pending[id].to)
             && HandleRpc(node.engine, node.pending[id].to, e.reply.msg, e.now) == Outcome(s', pre + sends)
    requires forall a :: a in pre ==> a.Apply?
    requires Sending(s1, s', sends)
    requires acked ==> forall es, x :: Apply(es) in pre && x in es ==> Chosen(h', x)
    requires acked ==> CommittedPrefix(c.nodes[Actor(e)].engine) + AppliesOf(pre) == CommittedPrefix(s1)
    requires EngineOk(h', Actor(e), s1, acked)
    requires Continues(h, h', Actor(e)) && Coupled(c, h, acked)
    ensures Coupled(Step(c, e), h', acked)
  {
    hide *;
    ActorExists(c, e);
    var n, id := Actor(e), e.reply.request.correlation;
    var node := c.nodes[n];
    ContinuesParts(h, h', n);
    InvNodes(h');
    NodeIsOk(c, h, n, acked);
    TookAnswerLeads(node.engine, s1, node.pending[id].to);
    AnswerTaken(node, id, s1, node.pending[id].to);
    var node1 := node.(engine := s1, pending := node.pending - {id});
    var mid := node.(engine := s', pending := node.pending - {id});
    SpentOne(node, s1, id);
    SpentOne(node, s', id);
    SendingExecutes(h', n, node1, s', sends, acked);
    ReactToReply(c, e, mid, s', pre + sends);
    ExecuteAfterApplies(mid, pre, sends);
    ExecuteFiles(mid, pre + sends, None);
    LeaderReports(c, h', e, n, s1, s', pre, sends, mid, acked);
    SentMsgsOk(h', n, mid, React(c, e), pre + sends, acked);
    SendingCommits(s1, s', sends, pre + sends, mid, React(c, e));
    Lands(c, h, h', e, mid, pre + sends, None, acked) by { LeaderAfter(h', n, React(c, e).node, acked); }
  }

  lemma LeaderAfter(h: History, n: NodeId, node: Node, acked: bool)
    requires EngineOk(h, n, node.engine, acked) && NotStuck(node)
    ensures AfterOk(h, n, node, acked)
  {
    hide EngineOk, NotStuck;
  }

  lemma TookAnswerLeads(s: Engine, s1: Engine, q: NodeId)
    requires TookAnswer(s, s1, q)
    ensures s.role == Leader && s1.role == Leader
  {
  }

  lemma ReactToReply(c: Cluster, e: Event, mid: Node, s': Engine, actions: seq<Action>)
    requires Enabled(c, e) && e.DeliverReply?
    requires e.reply.request.incarnation == c.incarnation[Actor(e)]
    requires e.reply.request.correlation in c.nodes[Actor(e)].pending
    requires var node, id := c.nodes[Actor(e)], e.reply.request.correlation;
             && HandleRpc(node.engine, node.pending[id].to, e.reply.msg, e.now) == Outcome(s', actions)
             && mid == node.(engine := s', pending := node.pending - {id})
    ensures React(c, e) == Execute(mid, actions, None)
  {
    hide HandleRpc, Execute;
  }

  lemma LeaderReports(c: Cluster, h: History, e: Event, n: NodeId, s1: Engine, s': Engine, pre: seq<Action>,
                      sends: seq<Action>, mid: Node, acked: bool)
    requires e.DeliverReply? && Sending(s1, s', sends) && mid.engine == s'
    requires forall a :: a in pre ==> a.Apply?
    requires acked ==> forall es, x :: Apply(es) in pre && x in es ==> Chosen(h, x)
    requires forall to: NodeId, msg :: Wanted(mid, sends, to, msg) ==> MsgOk(h, n, to, msg, acked)
    ensures AnswersOk(c, h, e, pre + sends, None) && ReportsOk(h, n, pre + sends, acked)
    ensures AppliesOf(pre + sends) == AppliesOf(pre)
    ensures forall to: NodeId, msg :: Wanted(mid, pre + sends, to, msg) ==> MsgOk(h, n, to, msg, acked)
  {
    hide MsgOk, Chosen, AppliesOf;
    SendsApplyNothing(s1, s', sends);
    hide Sending;
    AppliesOfConcat(pre, sends);
    OnlySendsWanted(mid, pre, sends);
  }

  lemma OnlySendsWanted(mid: Node, pre: seq<Action>, sends: seq<Action>)
    requires forall a :: a in pre ==> a.Apply?
    ensures forall to: NodeId, msg :: Wanted(mid, pre + sends, to, msg) ==> Wanted(mid, sends, to, msg)
  {
  }

  /** A leader keeps its books on the peers it has sent appends to. */
  lemma AnsweredPeer(h: History, n: NodeId, s: Engine, q: NodeId, acked: bool)
    requires EngineOk(h, n, s, acked) && s.role == Leader && q in s.lastAe
    ensures q in s.nextIndex && 1 <= s.nextIndex[q]
  {
    hide IdentityOk, DurableOk, RoleOk, Secure;
    assert q in s.nextIndex.Keys;
    assert PeerOk(s, q);
  }

  /** Whoever acknowledged the leader's log has done so in the history. */
  lemma AckersAreRecorded(c: Cluster, h: History, l: NodeId, k: Index, acked: bool)
    requires Coupled(c, h, acked) && l in c.nodes && k <= h.Ack(l, c.nodes[l].engine.Term())
    ensures Ackers(c, l, k) <= h.Ackers(c.nodes[l].engine.Term(), k) && |c.nodes.Keys| == |h.voters|
  {
    hide Inv, NodeOk, RequestOk, EmittedOk;
    var t := c.nodes[l].engine.Term();
    forall p | p in Ackers(c, l, k)
      ensures p in h.Ackers(t, k)
    {
      if p != l {
        var r :| r in c.replies && Acknowledges(r, p, t, k);
        assert ReplyOk(c, h, r);
      }
    }
  }

  /** What a success commits without the event being an unacknowledged commit is acknowledged well enough. */
  lemma CommitIsAcked(c: Cluster, h: History, e: Event, acked: bool)
    requires Enabled(c, e) && e.DeliverReply? && e.reply.request.msg.AppendEntries?
    requires e.reply.request.incarnation == c.incarnation[Actor(e)]
    requires e.reply.request.correlation in c.nodes[Actor(e)].pending
    requires var s := c.nodes[Actor(e)].engine;
             s.role == Leader && e.reply.msg.AppendEntriesResp? && e.reply.msg.term == s.Term() && e.reply.msg.success
             && e.reply.request.dst in s.lastAe
    requires Coupled(c, h, acked) && !CommitsUnacknowledged(c, e)
    ensures var s := c.nodes[Actor(e)].engine;
            var i := CommitTarget(Credit(s, e.reply.request.dst), |s.log|);
            i > s.commitIndex ==> |h.Ackers(s.Term(), i)| >= h.Blocking()
  {
    hide *;
    ActorExists(c, e);
    var n, q := Actor(e), e.reply.request.dst;
    var s := c.nodes[n].engine;
    NodeIsOk(c, h, n, acked);
    ReplySender(e);
    PendingMatches(c, h, e.reply, acked);
    CreditRole(s, q);
    var i := CommitTarget(Credit(s, q), |s.log|);
    if i > s.commitIndex {
      SuccessCommits(c, e, i);
      LeaderHasAcked(h, n, s, acked);
      AckersAreRecorded(c, h, n, i, acked);
      M.SubsetSize(Ackers(c, n, i), h.Ackers(s.Term(), i));
      EnoughAckers(c, h, e, i);
    }
  }

  lemma LeaderHasAcked(h: History, n: NodeId, s: Engine, acked: bool)
    requires EngineOk(h, n, s, acked) && s.role == Leader
    ensures |s.log| <= h.Ack(n, s.Term())
  {
    hide Secure, BooksOk;
  }

  lemma EnoughAckers(c: Cluster, h: History, e: Event, i: Index)
    requires Enabled(c, e) && !CommitsUnacknowledged(c, e)
    requires var s, s' := c.nodes[Actor(e)].engine, React(c, e).node.engine;
             s.role == Leader && s'.role == Leader && s.commitIndex < i == s'.commitIndex
    requires |c.nodes.Keys| == |h.voters|
    ensures |Ackers(c, Actor(e), i)| >= h.Blocking()
  {
    hide React, Ackers;
  }

  lemma SuccessCommits(c: Cluster, e: Event, i: Index)
    requires Enabled(c, e) && e.DeliverReply? && e.reply.request.incarnation == c.incarnation[Actor(e)]
    requires e.reply.request.correlation in c.nodes[Actor(e)].pending
    requires var s, p := c.nodes[Actor(e)].engine, c.nodes[Actor(e)].pending[e.reply.request.correlation].to;
             s.role == Leader && e.reply.msg.AppendEntriesResp? && e.reply.msg.term == s.Term() && e.reply.msg.success
             && p in s.lastAe && i == CommitTarget(Credit(s, p), |s.log|) && i > s.commitIndex
    requires IdsBelow(c.nodes[Actor(e)])
    ensures React(c, e).node.engine.role == Leader && React(c, e).node.engine.commitIndex == i
  {
    var node, id := c.nodes[Actor(e)], e.reply.request.correlation;
    var s, p := node.engine, node.pending[id].to;
    var sends, s' := SuccessShape(s, p, e.reply.msg, e.now);
    var r1 := MaybeCommit(Credit(s, p));
    assert r1.engine.commitIndex == i && r1.engine.role == Leader by { hide CommitTarget; }
    hide MaybeCommit, Credit, CommitTarget, HandleRpc, Execute;
    var mid := node.(engine := s', pending := node.pending - {id});
    ReactToReply(c, e, mid, s', r1.actions + sends);
    assert IdsBelow(mid);
    ExecuteFiles(mid, r1.actions + sends, None);
  }

  lemma SuccessReply(c: Cluster, h: History, e: Event, acked: bool) returns (h': History)
    requires Enabled(c, e) && e.DeliverReply? && e.reply.request.msg.AppendEntries?
    requires e.reply.request.incarnation == c.incarnation[Actor(e)]
    requires e.reply.request.correlation in c.nodes[Actor(e)].pending
    requires var s := c.nodes[Actor(e)].engine;
             s.role == Leader && e.reply.msg.AppendEntriesResp? && e.reply.msg.term == s.Term() && e.reply.msg.success
             && e.reply.request.dst in s.lastAe
    requires Coupled(c, h, acked) && (acked ==> !CommitsUnacknowledged(c, e))
    ensures Coupled(Step(c, e), h', acked) && Continues(h, h', Actor(e))
  {
    hide *;
    ActorExists(c, e);
    var n, id, q := Actor(e), e.reply.request.correlation, e.reply.request.dst;
    var node := c.nodes[n];
    var s := node.engine;
    NodeIsOk(c, h, n, acked);
    ReplySender(e);
    PendingMatches(c, h, e.reply, acked);
    CreditRole(s, q);
    if acked {
      CommitIsAcked(c, h, e, acked);
    }
    CreditStep(h, n, s, q, acked);
    h' := CommitStep(h, n, Credit(s, q), acked);
    var r1 := MaybeCommit(Credit(s, q));
    var sends, s' := SuccessShape(s, q, e.reply.msg, e.now);
    CreditTook(s, q, acked);
    LeaderReplyLands(c, h, h', e, r1.engine, s', r1.actions, sends, acked);
  }

  lemma ReplySender(e: Event)
    requires e.DeliverReply?
    ensures Actor(e) == e.reply.request.src
  {
  }

  lemma CreditRole(s: Engine, q: NodeId)
    requires q in s.lastAe
    ensures var s' := Credit(s, q);
            s'.role == s.role && s'.Term() == s.Term() && s'.log == s.log && s'.commitIndex == s.commitIndex
  {
  }

  lemma CreditIsAcked(c: Cluster, h: History, r: Reply, s: Engine, p: Pending)
    requires ReplyOk(c, h, r) && r.request.msg.AppendEntries? && r.msg.AppendEntriesResp? && r.msg.success
    requires r.msg.term == s.Term()
    requires p.to == r.request.dst && p.msg == r.request.msg && Remembered(s, p)
    ensures p.to in s.nextIndex && p.to in s.lastAe && s.nextIndex[p.to] == s.lastAe[p.to].0 + 1
    ensures s.lastAe[p.to].0 + s.lastAe[p.to].1 <= h.Ack(p.to, s.Term())
  {
  }

  lemma SuccessShape(s: Engine, q: NodeId, msg: Message, now: Instant) returns (sends: seq<Action>, s': Engine)
    requires s.role == Leader && msg.AppendEntriesResp? && msg.term == s.Term() && msg.success && q in s.lastAe
    ensures HandleRpc(s, q, msg, now) == Outcome(s', MaybeCommit(Credit(s, q)).actions + sends)
    ensures Sending(MaybeCommit(Credit(s, q)).engine, s', sends)
  {
    hide MaybeCommit, Credit, SendAppendEntriesTo, Sending;
    var r1 := MaybeCommit(Credit(s, q));
    if NextOf(r1.engine, q) <= |r1.engine.log| {
      var r2 := SendAppendEntriesTo(r1.engine, q);
      sends, s' := r2.actions, r2.engine;
      SendToIsSending(r1.engine, q);
    } else {
      sends, s' := [], r1.engine;
      assert r1.actions + [] == r1.actions;
      SendingNothing(r1.engine);
    }
  }

  lemma SendingNothing(s: Engine)
    ensures Sending(s, s, [])
  {
  }

  lemma CreditTook(s: Engine, q: NodeId, acked: bool)
    requires s.role == Leader && q in s.lastAe
    ensures TookAnswer(s, MaybeCommit(Credit(s, q)).engine, q)
    ensures CommittedPrefix(Credit(s, q)) == CommittedPrefix(s)
  {
    hide CommitTarget;
  }

  lemma RejectReply(c: Cluster, h: History, e: Event, acked: bool)
    requires Enabled(c, e) && e.DeliverReply? && e.reply.request.msg.AppendEntries?
    requires e.reply.request.incarnation == c.incarnation[Actor(e)]
    requires e.reply.request.correlation in c.nodes[Actor(e)].pending
    requires var s := c.nodes[Actor(e)].engine;
             s.role == Leader && e.reply.msg.AppendEntriesResp? && e.reply.msg.term == s.Term() && !e.reply.msg.success
             && e.reply.request.dst in s.lastAe
    requires Coupled(c, h, acked)
    ensures Coupled(Step(c, e), h, acked) && Continues(h, h, Actor(e))
  {
    hide *;
    ActorExists(c, e);
    var n, q := Actor(e), e.reply.request.dst;
    var node := c.nodes[n];
    var s := node.engine;
    NodeIsOk(c, h, n, acked);
    ReplySender(e);
    PendingMatches(c, h, e.reply, acked);
    ContinuesReflexive(h, n);
    AnsweredPeer(h, n, s, q, acked);
    var s1, sends, s' := RejectShape(h, n, s, q, e.reply.msg, e.now, acked);
    NoApplies();
    LeaderReplyLands(c, h, h, e, s1, s', [], sends, acked);
  }

  lemma RejectShape(h: History, n: NodeId, s: Engine, q: NodeId, msg: Message, now: Instant, acked: bool)
    returns (s1: Engine, sends: seq<Action>, s': Engine)
    requires EngineOk(h, n, s, acked) && s.role == Leader && q in s.lastAe && q in s.nextIndex && 1 <= s.nextIndex[q]
    requires msg.AppendEntriesResp? && msg.term == s.Term() && !msg.success
    ensures HandleRpc(s, q, msg, now) == Outcome(s', [] + sends) && Sending(s1, s', sends)
    ensures TookAnswer(s, s1, q) && EngineOk(h, n, s1, acked) && CommittedPrefix(s) + [] == CommittedPrefix(s1)
    ensures s1.matchIndex == s.matchIndex
  {
    hide EngineOk, SendAppendEntriesTo, Sending;
    if s.nextIndex[q] != s.lastAe[q].0 + 1 {
      s1, sends := s.(inflight := s.inflight - {q}), [];
      s' := s1;
      SendingNothing(s1);
      FewerInflight(h, n, s, s1, acked);
    } else {
      var next := Max(Max(s.nextIndex[q] - 1, MatchOf(s, q) + 1), 1);
      s1 := s.(inflight := s.inflight - {q}, nextIndex := s.nextIndex[q := next]);
      RejectStep(h, n, s, q, next, acked);
      var r := SendAppendEntriesTo(s1, q);
      sends, s' := r.actions, r.engine;
      SendToIsSending(s1, q);
      assert [] + sends == sends;
    }
  }

  /** An answer that leaves the engine alone: not the leader, of an older term, or from a peer never sent to. */
  lemma IgnoredReply(c: Cluster, h: History, e: Event, acked: bool)
    requires Enabled(c, e) && e.DeliverReply? && e.reply.request.msg.AppendEntries? && e.reply.msg.AppendEntriesResp?
    requires e.reply.request.incarnation == c.incarnation[Actor(e)]
    requires e.reply.request.correlation in c.nodes[Actor(e)].pending
    requires var s := c.nodes[Actor(e)].engine;
             e.reply.msg.term <= s.Term()
             && (s.role != Leader || e.reply.msg.term != s.Term() || e.reply.request.dst !in s.lastAe)
    requires Coupled(c, h, acked)
    ensures Coupled(Step(c, e), h, acked) && Continues(h, h, Actor(e))
  {
    hide *;
    ActorExists(c, e);
    var n, id := Actor(e), e.reply.request.correlation;
    var node := c.nodes[n];
    NodeIsOk(c, h, n, acked);
    ReplySender(e);
    PendingMatches(c, h, e.reply, acked);
    ContinuesReflexive(h, n);
    var mid := node.(pending := node.pending - {id});
    IgnoredShape(node.engine, node.pending[id].to, e.reply.msg, e.now);
    ReactToReply(c, e, mid, node.engine, []);
    SpentOne(node, node.engine, id);
    DroppedAppend(c, h, n, node, id, e.reply, acked);
    QuietReplyLands(c, h, h, e, mid, [], acked);
  }

  lemma IgnoredShape(s: Engine, q: NodeId, msg: Message, now: Instant)
    requires msg.AppendEntriesResp? && msg.term <= s.Term()
    requires s.role != Leader || msg.term != s.Term() || q !in s.lastAe
    ensures HandleRpc(s, q, msg, now) == Outcome(s, [])
  {
  }

  lemma DroppedAppend(c: Cluster, h: History, n: NodeId, node: Node, id: nat, r: Reply, acked: bool)
    requires EngineOk(h, n, node.engine, acked) && NotStuck(node) && id in node.pending
    requires node.pending[id].msg == r.request.msg && node.pending[id].to == r.request.dst
    requires ReplyOk(c, h, r) && r.request.msg.AppendEntries?
    requires node.engine.role != Leader || r.msg.term < node.engine.Term() || r.request.dst !in node.engine.lastAe
    ensures AfterOk(h, n, node.(pending := node.pending - {id}), acked)
  {
    assert node.engine.role != Leader ==> node.engine.inflight == {};
    assert node.engine.role == Leader ==> node.engine.inflight <= node.engine.lastAe.Keys;
    hide EngineOk;
    var mid := node.(pending := node.pending - {id});
    forall q | q in mid.engine.inflight
      ensures exists i :: Awaits(mid.pending, i, q, mid.engine.Term())
    {
      var i :| Awaits(node.pending, i, q, node.engine.Term());
      assert node.pending[i].msg.term <= r.msg.term || i != id;
      assert Awaits(mid.pending, i, q, mid.engine.Term());
    }
  }

  lemma SteppingDownReply(c: Cluster, h: History, e: Event, acked: bool) returns (h': History)
    requires Enabled(c, e) && e.DeliverReply? && e.reply.msg.AppendEntriesResp?
    requires e.reply.request.incarnation == c.incarnation[Actor(e)]
    requires e.reply.request.correlation in c.nodes[Actor(e)].pending
    requires e.reply.msg.term > c.nodes[Actor(e)].engine.Term()
    requires Coupled(c, h, acked)
    ensures Coupled(Step(c, e), h', acked) && Continues(h, h', Actor(e))
  {
    hide *;
    ActorExists(c, e);
    var n, id, t := Actor(e), e.reply.request.correlation, e.reply.msg.term;
    var node := c.nodes[n];
    NodeIsOk(c, h, n, acked);
    h' := StepDown(h, n, node.engine, t, None, acked);
    var s' := BecomeFollower(node.engine, t, None);
    var mid := node.(engine := s', pending := node.pending - {id});
    SteppingShape(node.engine, node.pending[id].to, e.reply.msg, e.now);
    ReactToReply(c, e, mid, s', [BecameFollower(t, None)]);
    NotLeaderMid(h', n, node, id, s', acked);
    QuietReplyLands(c, h, h', e, mid, [BecameFollower(t, None)], acked);
  }

  lemma SteppingShape(s: Engine, q: NodeId, msg: Message, now: Instant)
    requires msg.AppendEntriesResp? && msg.term > s.Term()
    ensures HandleRpc(s, q, msg, now) == Outcome(BecomeFollower(s, msg.term, None), [BecameFollower(msg.term, None)])
    ensures BecomeFollower(s, msg.term, None).role != Leader
    ensures CommittedPrefix(BecomeFollower(s, msg.term, None)) == CommittedPrefix(s)
  {
  }

  lemma AppendReply(c: Cluster, h: History, e: Event, acked: bool) returns (h': History)
    requires Enabled(c, e) && e.DeliverReply? && e.reply.request.msg.AppendEntries?
    requires e.reply.request.incarnation == c.incarnation[Actor(e)]
    requires e.reply.request.correlation in c.nodes[Actor(e)].pending
    requires Coupled(c, h, acked) && (acked ==> !CommitsUnacknowledged(c, e))
    ensures Coupled(Step(c, e), h', acked) && Continues(h, h', Actor(e))
  {
    hide *;
    ActorExists(c, e);
    ReplySender(e);
    PendingMatches(c, h, e.reply, acked);
    AppendIsAnswered(c, h, e.reply);
    var s, msg := c.nodes[Actor(e)].engine, e.reply.msg;
    if msg.term > s.Term() {
      h' := SteppingDownReply(c, h, e, acked);
    } else if s.role != Leader || msg.term != s.Term() || e.reply.request.dst !in s.lastAe {
      h' := h;
      IgnoredReply(c, h, e, acked);
    } else if msg.success {
      h' := SuccessReply(c, h, e, acked);
    } else {
      h' := h;
      RejectReply(c, h, e, acked);
    }
  }

  lemma AppendIsAnswered(c: Cluster, h: History, r: Reply)
    requires ReplyOk(c, h, r) && r.request.msg.AppendEntries?
    ensures r.msg.AppendEntriesResp?
  {
  }

  // ---------------------------------------------------------------- failures, connections, restarts

  /** Requests fail or connections change: in-flight marks and pending entries may go, in step. */
  ghost predicate Relaxed(node: Node, node': Node) {
    && node'.engine == node.engine.(inflight := node'.engine.inflight) && node'.engine.inflight <= node.engine.inflight
    && node'.nextCorrelation == node.nextCorrelation
    && (forall id :: id in node'.pending ==> id in node.pending && node'.pending[id] == node.pending[id])
  }

  ghost predicate Silent(outputs: seq<Output>) {
    forall o :: o in outputs ==> o.RpcFailed?
  }

  /** Only requests are ever pending. */
  ghost predicate OnlyRequests(node: Node) {
    forall id :: id in node.pending ==> node.pending[id].msg.RequestVote? || node.pending[id].msg.AppendEntries?
  }

  lemma PendingAreRequests(c: Cluster, h: History, n: NodeId, acked: bool)
    requires Coupled(c, h, acked) && n in c.nodes
    ensures OnlyRequests(c.nodes[n])
  {
    hide Inv, EngineOk, NotStuck, ReplyOk, EmittedOk;
    assert NodeOk(c, h, n, acked) && PendingOk(c, n);
    forall id | id in c.nodes[n].pending
      ensures c.nodes[n].pending[id].msg.RequestVote? || c.nodes[n].pending[id].msg.AppendEntries?
    {
      var q := Envelope(n, c.nodes[n].pending[id].to, c.incarnation[n], id, c.nodes[n].pending[id].msg);
      assert RequestOk(c, h, q, acked);
    }
  }

  lemma FailOne(node: Node, id: nat, emit: bool)
    requires IdsBelow(node) && NotStuck(node) && OnlyRequests(node)
    ensures var r := FailPending(node, id, emit);
            Relaxed(node, r.node) && Silent(r.outputs) && NotStuck(r.node) && IdsBelow(r.node) && OnlyRequests(r.node)
  {
    var node' := FailPending(node, id, emit).node;
    forall q | q in node'.engine.inflight
      ensures exists i :: Awaits(node'.pending, i, q, node'.engine.Term())
    {
      var i :| Awaits(node.pending, i, q, node.engine.Term());
      assert Awaits(node'.pending, i, q, node'.engine.Term());
    }
  }

  lemma {:induction false} FailMany(node: Node, ids: seq<nat>, emit: bool)
    requires IdsBelow(node) && NotStuck(node) && OnlyRequests(node)
    ensures var r := FailAll(node, ids, emit);
            Relaxed(node, r.node) && Silent(r.outputs) && NotStuck(r.node) && IdsBelow(r.node) && OnlyRequests(r.node)
    decreases |ids|
  {
    if ids != [] {
      hide NotStuck, IdsBelow, OnlyRequests, FailPending;
      FailOne(node, ids[0], emit);
      FailMany(FailPending(node, ids[0], emit).node, ids[1..], emit);
    }
  }

  /** Nothing is sent and nothing is reported but failures. */
  lemma RelaxedLands(c: Cluster, h: History, e: Event, acked: bool)
    requires Enabled(c, e) && !e.Restart?
    requires Relaxed(c.nodes[Actor(e)], React(c, e).node) && Silent(React(c, e).outputs)
    requires NotStuck(React(c, e).node) && IdsBelow(React(c, e).node)
    requires Coupled(c, h, acked)
    ensures Coupled(Step(c, e), h, acked) && Continues(h, h, Actor(e))
  {
    hide *;
    ActorExists(c, e);
    var n := Actor(e);
    var node, r := c.nodes[n], React(c, e);
    NodeIsOk(c, h, n, acked);
    ContinuesReflexive(h, n);
    ContinuesParts(h, h, n);
    RelaxedEffect(c, h, e, node, r, n, acked);
    ActorPrefix(c, h, n, acked);
    Lands(c, h, h, e, r.node, [], None, acked);
  }

  lemma RelaxedEffect(c: Cluster, h: History, e: Event, node: Node, r: Effect, n: NodeId, acked: bool)
    requires Relaxed(node, r.node) && Silent(r.outputs) && NotStuck(r.node) && IdsBelow(r.node)
    requires EngineOk(h, n, node.engine, acked)
    ensures Spent(node, r.node) && Filed(r.node, r, []) && Reported(r.node, r, [], None) && AfterOk(h, n, r.node, acked)
    ensures AppliedBy(r.outputs) == [] && AppliesOf([]) == []
    ensures NewMsgsOk(h, n, r.node, r.node, acked) && ReportsOk(h, n, [], acked) && AnswersOk(c, h, e, [], None)
    ensures CommittedPrefix(r.node.engine) == CommittedPrefix(node.engine)
  {
    NothingApplied(r.outputs);
    FewerInflight(h, n, node.engine, r.node.engine, acked);
    hide EngineOk, NotStuck, ReplyOk;
  }

  lemma Failure(c: Cluster, h: History, e: Event, acked: bool)
    requires Enabled(c, e) && (e.Fail? || e.Connect? || e.Disconnect?) && Coupled(c, h, acked)
    ensures Coupled(Step(c, e), h, acked) && Continues(h, h, Actor(e))
  {
    hide Coupled, Continues, NotStuck, IdsBelow, EngineOk, Inv, OnlyRequests, Silent;
    var node := c.nodes[Actor(e)];
    NodeIsOk(c, h, Actor(e), acked);
    PendingAreRequests(c, h, Actor(e), acked);
    match e {
      case Fail(_, id, emit) =>
        FailOne(node, id, emit);
      case Connect(_, peer) =>
        Reconnected(node, node.connected + {peer});
        NothingFails([]);
      case Disconnect(_, peer, ids) =>
        var cut := node.(connected := node.connected - {peer});
        Reconnected(node, cut.connected);
        FailMany(cut, ids, false);
      case Tick(_, _) =>
      case Propose(_, _) =>
      case DeliverRequest(_, _) =>
      case DeliverReply(_, _) =>
      case Restart(_, _) =>
    }
    RelaxedLands(c, h, e, acked);
  }

  lemma NothingFails(outputs: seq<Output>)
    requires outputs == []
    ensures Silent(outputs)
  {
  }

  lemma Reconnected(node: Node, connected: set<NodeId>)
    ensures var node' := node.(connected := connected);
            && (NotStuck(node) ==> NotStuck(node'))
            && (IdsBelow(node) ==> IdsBelow(node')) && (OnlyRequests(node) ==> OnlyRequests(node'))
  {
    hide Awaits, Remembered;
    if NotStuck(node) {
      forall q | q in node.engine.inflight
        ensures exists id :: Awaits(node.(connected := connected).pending, id, q, node.engine.Term())
      {
        var id :| Awaits(node.pending, id, q, node.engine.Term());
        assert Awaits(node.(connected := connected).pending, id, q, node.engine.Term());
      }
    }
  }

  lemma RestartActor(e: Event)
    requires e.Restart?
    ensures Actor(e) == e.n
  {
  }

  /** A restart keeps the term, the vote and the log, and forgets everything else. */
  lemma Restarted(c: Cluster, h: History, e: Event, acked: bool)
    requires Enabled(c, e) && e.Restart? && Coupled(c, h, acked)
    ensures Coupled(Step(c, e), h, acked) && Continues(h, h, Actor(e))
  {
    hide *;
    ActorExists(c, e);
    RestartActor(e);
    NodeIsOk(c, h, e.n, acked);
    ContinuesReflexive(h, e.n);
    ContinuesParts(h, h, e.n);
    RestartedNode(c, h, e, acked);
    RestartedAlone(c, e);
    CoupledExtends(c, Step(c, e), h, h, e.n, acked);
  }

  lemma RestartedAlone(c: Cluster, e: Event)
    requires Enabled(c, e) && e.Restart?
    ensures ActedAlone(c, Step(c, e), e.n)
  {
    hide EngineSpec.New;
  }

  lemma RestartedNode(c: Cluster, h: History, e: Event, acked: bool)
    requires Enabled(c, e) && e.Restart? && EngineOk(h, e.n, c.nodes[e.n].engine, acked)
    ensures ActorOk(c, Step(c, e), h, e.n, acked)
  {
    var s := c.nodes[e.n].engine;
    var s' := EngineSpec.New(s.config, s.hard, s.log, e.now);
    hide BooksOk, RoleOk, Secure;
    assert RoleOk(h, e.n, s') && BooksOk(h, e.n, s') by { FreshEngine(h, e.n, s', acked); }
    assert acked ==> Secure(h, e.n, 0) by { NothingSecure(h, e.n); }
  }

  lemma FreshEngine(h: History, n: NodeId, s: Engine, acked: bool)
    requires s.role == Follower && s.inflight == {} && s.leader == None
    ensures RoleOk(h, n, s) && BooksOk(h, n, s)
  {
  }

  lemma NothingSecure(h: History, n: NodeId)
    requires n in h.log && n in h.term
    ensures Secure(h, n, 0)
  {
  }

  // ---------------------------------------------------------------- any event

  /** A tick before its deadline, or a proposal to a node that does not lead. */
  lemma IdleEvent(c: Cluster, h: History, e: Event, acked: bool)
    requires Enabled(c, e) && !e.Restart? && React(c, e) == Effect(c.nodes[Actor(e)], []) && Coupled(c, h, acked)
    ensures Coupled(Step(c, e), h, acked) && Continues(h, h, Actor(e))
  {
    hide *;
    ActorExists(c, e);
    NodeIsOk(c, h, Actor(e), acked);
    NothingFails([]);
    Unrelaxed(c.nodes[Actor(e)]);
    RelaxedLands(c, h, e, acked);
  }

  lemma Unrelaxed(node: Node)
    ensures Relaxed(node, node)
  {
  }

  lemma TickEvent(c: Cluster, h: History, e: Event, acked: bool) returns (h': History)
    requires Enabled(c, e) && e.Tick? && Coupled(c, h, acked)
    ensures Coupled(Step(c, e), h', acked) && Continues(h, h', Actor(e))
  {
    hide Coupled, Continues;
    var s := c.nodes[e.n].engine;
    if e.now < s.NextDeadline() || (s.role == Leader && e.now < s.heartbeatDeadline) {
      h' := h;
      IdleEvent(c, h, e, acked);
    } else if s.role == Leader {
      h' := h;
      LeaderTick(c, h, e, acked);
    } else {
      h' := ElectionTick(c, h, e, acked);
    }
  }

  lemma RequestKind(c: Cluster, h: History, q: Envelope, acked: bool)
    requires Coupled(c, h, acked) && q in c.requests
    ensures q.msg.RequestVote? || q.msg.AppendEntries?
  {
    hide Inv, Backed;
    RequestIsOk(c, h, q, acked);
  }

  lemma ReplyEvent(c: Cluster, h: History, e: Event, acked: bool) returns (h': History)
    requires Enabled(c, e) && e.DeliverReply? && Coupled(c, h, acked) && (acked ==> !CommitsUnacknowledged(c, e))
    ensures Coupled(Step(c, e), h', acked) && Continues(h, h', Actor(e))
  {
    hide *;
    ActorExists(c, e);
    ReplySender(e);
    var q := e.reply.request;
    if q.incarnation != c.incarnation[Actor(e)] || q.correlation !in c.nodes[Actor(e)].pending {
      h' := h;
      StaleReply(c, h, e, acked);
    } else {
      ReplyToRequest(c, h, e.reply, acked);
      RequestKind(c, h, q, acked);
      if q.msg.RequestVote? {
        h' := VoteReply(c, h, e, acked);
      } else {
        h' := AppendReply(c, h, e, acked);
      }
    }
  }

  lemma ReplyToRequest(c: Cluster, h: History, r: Reply, acked: bool)
    requires Coupled(c, h, acked) && r in c.replies
    ensures r.request in c.requests
  {
    hide Inv, NodeOk;
    assert ReplyOk(c, h, r);
  }

  /** Every event keeps the correspondence, with a history that only moved forward. */
  lemma StepKeeps(c: Cluster, h: History, e: Event, acked: bool) returns (h': History)
    requires Enabled(c, e) && Coupled(c, h, acked) && (acked ==> !CommitsUnacknowledged(c, e))
    ensures Coupled(Step(c, e), h', acked) && Continues(h, h', Actor(e))
  {
    hide Coupled, Continues, React, Step;
    match e {
      case Tick(_, _) =>
        h' := TickEvent(c, h, e, acked);
      case Propose(_, _) =>
        if c.nodes[Actor(e)].engine.role == Leader {
          h' := LeaderPropose(c, h, e, acked);
        } else {
          h' := h;
          FollowerPropose(c, e);
          IdleEvent(c, h, e, acked);
        }
      case DeliverRequest(q, _) =>
        RequestKind(c, h, q, acked);
        if q.msg.RequestVote? {
          h' := VoteRequest(c, h, e, acked);
        } else {
          h' := AppendRequest(c, h, e, acked);
        }
      case DeliverReply(_, _) =>
        h' := ReplyEvent(c, h, e, acked);
      case Restart(_, _) =>
        h' := h;
        Restarted(c, h, e, acked);
      case Fail(_, _, _) =>
        h' := h;
        Failure(c, h, e, acked);
      case Connect(_, _) =>
        h' := h;
        Failure(c, h, e, acked);
      case Disconnect(_, _, _) =>
        h' := h;
        Failure(c, h, e, acked);
    }
  }

  lemma FollowerPropose(c: Cluster, e: Event)
    requires Enabled(c, e) && e.Propose? && c.nodes[Actor(e)].engine.role != Leader
    ensures React(c, e) == Effect(c.nodes[Actor(e)], [])
  {
  }
}
