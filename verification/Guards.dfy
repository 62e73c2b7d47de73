/** How the guards compare. A run without unacknowledged commits is what the theorems about commitment ask for. Runs in
    which nobody is over-credited are such runs, among them those in which no leader wins with appends left over; and
    so are all runs of a cluster of two. */
module Guards {
  import opened Types
  import opened EngineSpec
  import opened NodeSpec
  import opened Cluster
  import opened Reachability
  import opened Coupling
  import EngineSteps
  import opened Execution
  import opened Events
  import opened Progress
  import opened Safety
  import opened Tenure
  import opened Guarantees
  import Commitment
  import Protocol
  import Landing
  import M = Membership

  // ---------------------------------------------------------------- what moves a leader's books

  ghost predicate SameBooks(s: Engine, s': Engine) {
    s'.matchIndex == s.matchIndex && s'.commitIndex == s.commitIndex
  }

  ghost predicate CreditedBooks(s: Engine, s': Engine, p: NodeId)
    requires p in s.lastAe
  {
    s'.matchIndex == Credit(s, p).matchIndex && s'.commitIndex == CommitTarget(Credit(s, p), |s.log|)
  }

  lemma TickBooks(s: Engine, now: Instant)
    requires s.role == Leader
    ensures SameBooks(s, EngineSpec.Tick(s, now).engine)
  {
    hide ReplicateTo;
    ReplicateTouches(s, s.Others());
  }

  lemma ProposeBooks(s: Engine, data: Command)
    requires s.role == Leader
    ensures SameBooks(s, EngineSpec.Propose(s, data).outcome.engine)
  {
    hide ReplicateTo;
    ReplicateTouches(s.(log := s.log + [LogEntry(|s.log| + 1, s.Term(), data)]), s.Others());
  }

  lemma SuccessBooks(s: Engine, p: NodeId, msg: Message, now: Instant)
    requires s.role == Leader && msg.AppendEntriesResp? && msg.success && msg.term == s.Term() && p in s.lastAe
    ensures CreditedBooks(s, HandleRpc(s, p, msg, now).engine, p)
  {
    hide CommitTarget;
    CommitTouches(Credit(s, p));
  }

  lemma AnswerBooks(s: Engine, p: NodeId, msg: Message, now: Instant)
    requires s.role == Leader && HandleRpc(s, p, msg, now).engine.role == Leader
    requires msg.RequestVoteResp? || msg.AppendEntriesResp?
    requires !(msg.AppendEntriesResp? && msg.success && msg.term == s.Term() && p in s.lastAe)
    ensures SameBooks(s, HandleRpc(s, p, msg, now).engine)
  {
    hide MaybeCommit;
  }

  /** Only a credit moves the match indices or the commit index of a leader. */
  lemma OnlyCreditsMoveBooks(c: Cluster, h: Protocol.History, e: Event)
    requires Enabled(c, e) && Leads(c, Actor(e)) && React(c, e).node.engine.role == Leader && Coupled(c, h, false)
    ensures var s, s' := EngineOf(c, Actor(e)), React(c, e).node.engine;
            if Credits(c, e) then CreditedBooks(s, s', Settled(c, e).to) else SameBooks(s, s')
  {
    hide Coupled, Execute, FailAll, HandleRpc, EngineSpec.Tick, EngineSpec.Propose, CreditedBooks, ReplyOk, MsgOk;
    var node := c.nodes[Actor(e)];
    var s := node.engine;
    match e
    case Tick(_, now) =>
      var r := EngineSpec.Tick(s, now);
      TickBooks(s, now);
      ExecuteTouches(node.(engine := r.engine), r.actions, None);
    case Propose(_, data) =>
      ProposeBooks(s, data);
      ProposeOnward(s, data);
      var r := EngineSpec.Propose(s, data).outcome;
      ExecuteTouches(node.(engine := r.engine), r.actions, None);
    case DeliverRequest(_, _) => RequestInStep(c, h, e);
    case DeliverReply(p, now) =>
      if p.request.incarnation == c.incarnation[Actor(e)] && p.request.correlation in node.pending {
        PendingMatches(c, h, p, false);
        ReplyKinds(c, h, p);
        ReplyBooks(c, e);
      }
    case Fail(_, id, emit) =>
    case Connect(_, _) =>
    case Disconnect(_, peer, ids) => FailAllTouches(node.(connected := node.connected - {peer}), ids, false);
    case Restart(_, _) =>
  }

  lemma ReplyBooks(c: Cluster, e: Event)
    requires Enabled(c, e) && e.DeliverReply? && e.reply.request.incarnation == c.incarnation[Actor(e)]
    requires var node, id := c.nodes[Actor(e)], e.reply.request.correlation;
             && id in node.pending && node.engine.role == Leader && React(c, e).node.engine.role == Leader
             && node.pending[id].to == e.reply.request.dst && node.pending[id].msg == e.reply.request.msg
             && (e.reply.msg.RequestVoteResp? || (e.reply.msg.AppendEntriesResp? && e.reply.request.msg.AppendEntries?))
    ensures var s, s' := EngineOf(c, Actor(e)), React(c, e).node.engine;
            if Credits(c, e) then CreditedBooks(s, s', Settled(c, e).to) else SameBooks(s, s')
  {
    hide Execute, HandleRpc, CommitTarget;
    var node, id, msg := c.nodes[Actor(e)], e.reply.request.correlation, e.reply.msg;
    var s, p := node.engine, node.pending[id].to;
    var r := HandleRpc(s, p, msg, e.now);
    ExecuteTouches(node.(engine := r.engine, pending := node.pending - {id}), r.actions, None);
    if msg.AppendEntriesResp? && msg.success && msg.term == s.Term() && p in s.lastAe {
      SuccessBooks(s, p, msg, e.now);
    } else {
      AnswerBooks(s, p, msg, e.now);
    }
  }

  // ---------------------------------------------------------------- earned credit

  /** What `l` credits `p` with, `p` has acknowledged. */
  ghost predicate EarnedCredit(c: Cluster, l: NodeId, p: NodeId)
    requires l in c.nodes
  {
    var m := MatchOf(EngineOf(c, l), p);
    m > 0 ==> Acknowledged(c, p, TermOf(c, l), m)
  }

  ghost predicate AllEarned(c: Cluster) {
    forall l, p :: Leads(c, l) ==> EarnedCredit(c, l, p)
  }

  lemma CreditedPeer(c: Cluster, e: Event)
    requires Enabled(c, e) && Credits(c, e)
    ensures Leads(c, Actor(e)) && Settled(c, e).to in EngineOf(c, Actor(e)).lastAe
  {
  }

  /** An answer that does not over-credit its sender acknowledges all it is credited with. */
  lemma AnswerEarns(c: Cluster, h: Protocol.History, e: Event)
    requires Enabled(c, e) && Credits(c, e) && !Overcredits(c, e) && Coupled(c, h, false)
    ensures var s, p := EngineOf(c, Actor(e)), Settled(c, e).to; Acknowledged(c, p, s.Term(), Covered(s, p))
  {
    hide Coupled, MsgOk;
    PendingMatches(c, h, e.reply, false);
    var s, p := EngineOf(c, Actor(e)), Settled(c, e).to;
    assert Acknowledges(e.reply, p, s.Term(), Covered(s, p));
  }

  lemma AcksGrow(c: Cluster, e: Event, p: NodeId, t: Term, k: Index)
    requires Enabled(c, e) && Acknowledged(c, p, t, k)
    ensures Acknowledged(Step(c, e), p, t, k)
  {
    hide React, Acknowledges;
    var r :| r in c.replies && Acknowledges(r, p, t, k);
    assert r in Step(c, e).replies;
  }

  lemma EarnedStep(c: Cluster, e: Event)
    requires AllEarned(c) && Enabled(c, e) && !Overcredits(c, e) && Reached(c, Anything)
    ensures AllEarned(Step(c, e))
  {
    hide Reached, Coupled, Step, React, Enabled, Credits, Overcredits, EarnedCredit, Acknowledged, FreshBooks;
    var h := ReachedCoupled(c, Anything);
    forall l, p | Leads(Step(c, e), l)
      ensures EarnedCredit(Step(c, e), l, p)
    {
      SameNodes(c, e);
      if !Leads(c, l) {
        NewLeaderActed(c, e, l);
        WinBeginsClear(c, e, l, p);
        FreshIsEarned(Step(c, e), l, p);
      } else {
        assert EarnedCredit(c, l, p);
        LeadershipLasts(c, e, l);
        LeaderStaysEarned(c, h, e, l, p);
      }
    }
  }

  lemma FreshIsEarned(c: Cluster, l: NodeId, p: NodeId)
    requires l in c.nodes && FreshBooks(EngineOf(c, l))
    ensures EarnedCredit(c, l, p)
  {
    hide Acknowledged;
  }

  lemma LeaderStaysEarned(c: Cluster, h: Protocol.History, e: Event, l: NodeId, p: NodeId)
    requires Enabled(c, e) && Leads(c, l) && Leads(Step(c, e), l) && TermOf(Step(c, e), l) == TermOf(c, l)
    requires EarnedCredit(c, l, p) && !Overcredits(c, e) && Coupled(c, h, false)
    ensures EarnedCredit(Step(c, e), l, p)
  {
    hide Coupled, Step, React, Enabled, Credits, Overcredits, Acknowledged;
    if l != Actor(e) {
      BystanderAfter(c, e, l);
    } else {
      ActorAfter(c, e);
      OnlyCreditsMoveBooks(c, h, e);
      if Credits(c, e) {
        CreditedPeer(c, e);
        AnswerEarns(c, h, e);
      }
    }
    var m := MatchOf(EngineOf(Step(c, e), l), p);
    if m > 0 {
      AcksGrow(c, e, p, TermOf(c, l), m);
    }
  }

  // ---------------------------------------------------------------- earned credit commits what is acknowledged

  lemma EarnedHolders(c: Cluster, h: Protocol.History, e: Event, i: Index)
    requires AllEarned(c) && Enabled(c, e) && Credits(c, e) && !Overcredits(c, e) && Coupled(c, h, false) && i >= 1
    ensures Holders(Credit(EngineOf(c, Actor(e)), Settled(c, e).to), i) * c.nodes.Keys <= Ackers(c, Actor(e), i)
  {
    hide Coupled, Enabled, Credits, Overcredits, Settled, Acknowledged;
    CreditedPeer(c, e);
    var l, p := Actor(e), Settled(c, e).to;
    var s := EngineOf(c, l);
    AnswerEarns(c, h, e);
    forall q | q in Holders(Credit(s, p), i) * c.nodes.Keys
      ensures q in Ackers(c, l, i)
    {
      assert Leads(c, l) && EarnedCredit(c, l, q);
      var m := if q == p && Covered(s, p) >= i then Covered(s, p) else MatchOf(s, q);
      AcknowledgedLess(c, q, s.Term(), m, i);
    }
  }

  lemma AcknowledgedLess(c: Cluster, p: NodeId, t: Term, k: Index, i: Index)
    requires i <= k && Acknowledged(c, p, t, k)
    ensures Acknowledged(c, p, t, i)
  {
    var r :| r in c.replies && Acknowledges(r, p, t, k);
    assert Acknowledges(r, p, t, i);
  }

  /** Where all credit is earned, a leader commits only what a majority acknowledged. */
  lemma EarnedCommits(c: Cluster, e: Event)
    requires AllEarned(c) && Enabled(c, e) && !Overcredits(c, e) && Reached(c, Anything)
    ensures !CommitsUnacknowledged(c, e)
  {
    hide Reached, Coupled, React, Enabled, AllEarned, Overcredits, Credits, Settled, Ackers;
    if CommitsUnacknowledged(c, e) {
      ActorExists(c, e);
      var l := Actor(e);
      var h := ReachedCoupled(c, Anything);
      OnlyCreditsMoveBooks(c, h, e);
      CreditedPeer(c, e);
      var s, p := EngineOf(c, l), Settled(c, e).to;
      var i := React(c, e).node.engine.commitIndex;
      EarnedHolders(c, h, e, i);
      HoldersSuffice(c, h, l, Credit(s, p), i);
      assert false;
    }
  }

  lemma MembersOf(h: Protocol.History, n: NodeId, s: Engine)
    requires EngineOk(h, n, s, false)
    ensures s.Id() == n && s.members.Valid() && s.members.Voters() == h.voters
    ensures s.members.Quorum() == |h.voters| / 2 + 1
  {
    hide DurableOk, RoleOk, BooksOk;
    EngineSteps.QuorumAgrees(h, n, s);
  }

  lemma HoldersSuffice(c: Cluster, h: Protocol.History, l: NodeId, s: Engine, i: Index)
    requires Leads(c, l) && s.members == EngineOf(c, l).members && s.config == EngineOf(c, l).config
    requires i <= |s.log| && Committable(s, i) && Holders(s, i) * c.nodes.Keys <= Ackers(c, l, i)
    requires Coupled(c, h, false)
    ensures |Ackers(c, l, i)| >= Blocking(|c.nodes.Keys|)
  {
    hide Coupled, EngineOk, NodeOk, NotStuck, Protocol.Inv, Holders, Acknowledged, Committable;
    NodeIsOk(c, h, l, false);
    CoupledInv(c, h, false);
    MembersOf(h, l, EngineOf(c, l));
    MajorityReaches(s, i, c.nodes.Keys, Ackers(c, l, i));
  }

  lemma MajorityReaches(s: Engine, i: Index, voters: set<NodeId>, ackers: set<NodeId>)
    requires s.members.Valid() && s.members.Voters() == voters && s.members.Quorum() == |voters| / 2 + 1
    requires i <= |s.log| && Committable(s, i) && Holders(s, i) * voters <= ackers && s.Id() in ackers
    ensures |ackers| >= Blocking(|voters|)
  {
    HeldBy(s, i);
    hide Holders, M.Count;
    var held := M.Membership(s.Others()).Voters() * Holders(s, i);
    M.SubsetSize(held + {s.Id()}, ackers);
  }

  lemma HeldBy(s: Engine, i: Index)
    requires s.members.Valid()
    ensures var others := M.Membership(s.Others()).Voters();
            && others == s.members.Voters() - {s.Id()}
            && M.Count(s.Others(), Holders(s, i)) == |others * Holders(s, i)|
  {
    M.WithoutIsDistinct(s.members.order, s.Id());
    M.CountIsCardinality(s.Others(), Holders(s, i));
  }

  // ---------------------------------------------------------------- which runs are without unacknowledged commits

  ghost predicate EarnedSoFar(c: Cluster) {
    AllEarned(c) && Reached(c, Earned) && Reached(c, Acked)
  }

  lemma EarnedGoesOn(c: Cluster, e: Event)
    requires AllEarned(c) && Reached(c, Earned) && Enabled(c, e) && Permits(Earned, c, e)
    ensures AllEarned(Step(c, e)) && Reached(Step(c, e), Earned) && Permits(Acked, c, e)
  {
    hide Reached, Step, Enabled, AllEarned, Overcredits, CommitsUnacknowledged;
    ReachedUnguarded(c, Earned);
    EarnedStep(c, e);
    EarnedCommits(c, e);
    StepIsReached(c, e, Earned);
  }

  lemma StartEarned(configs: map<NodeId, Config>, now: Instant)
    ensures AllEarned(Start(configs, now))
  {
    hide EarnedCredit;
    StartFollows(configs, now);
  }

  /** When nobody is over-credited, all credit is earned and leaders commit only what a majority acknowledged. */
  lemma EarnedIsAcked(c: Cluster)
    requires Reached(c, Earned)
    ensures Reached(c, Acked) && AllEarned(c)
  {
    hide Reached, AllEarned, Step, Enabled, Permits, Start, ConfigsOk;
    var q := (x: Cluster) => EarnedSoFar(x);
    forall configs, now | ConfigsOk(configs)
      ensures q(Start(configs, now))
    {
      StartEarned(configs, now);
      StartIsReached(configs, now, Earned);
      StartIsReached(configs, now, Acked);
    }
    forall x, e | q(x) && Enabled(x, e) && Permits(Earned, x, e)
      ensures q(Step(x, e))
    {
      EarnedGoesOn(x, e);
      StepIsReached(x, e, Acked);
    }
    ReachedHas(c, q, Earned);
  }

  ghost predicate EarnedFrom(b: Cluster, c: Cluster) {
    AllEarned(c) && Reached(c, Earned) && Follows(b, c, Acked)
  }

  lemma EarnedFuture(b: Cluster, c: Cluster)
    requires Reached(b, Earned) && Follows(b, c, Earned)
    ensures Follows(b, c, Acked)
  {
    hide Reached, AllEarned, Step, Enabled, Permits;
    var q := (x: Cluster) => EarnedFrom(b, x);
    EarnedIsAcked(b);
    StaysPut(b, Acked);
    assert q(b);
    forall x, e | q(x) && Enabled(x, e) && Permits(Earned, x, e)
      ensures q(Step(x, e))
    {
      EarnedGoesOn(x, e);
      FollowsNext(b, x, e, Acked);
    }
    assert Preserved(q, Earned);
    assert q(c);
  }

  // ---------------------------------------------------------------- clean runs

  /** In a leadership that began clear of a peer no answer of that peer is over-credited. */
  lemma ClearIsEarned(c: Cluster, e: Event)
    requires AllClear(c) && Enabled(c, e)
    ensures Permits(Earned, c, e)
  {
    hide Reached, Coupled, Enabled, BeganClear, Credits, Settled, Tidy;
    if Credits(c, e) {
      CreditedPeer(c, e);
      var l, p := Actor(e), Settled(c, e).to;
      assert BeganClear(c, l, p);
      BeganClearUncluttered(c, l, p);
      UnclutteredTidy(c, l, p);
      TidyIsEarned(c, e);
    }
  }

  lemma TidyIsEarned(c: Cluster, e: Event)
    requires Enabled(c, e) && Credits(c, e) && Tidy(c.nodes[Actor(e)], Settled(c, e).to)
    ensures !Overcredits(c, e)
  {
    var node, id := c.nodes[Actor(e)], e.reply.request.correlation;
    assert AppendTo(node, id, Settled(c, e).to);
    assert Remembered(node.engine, node.pending[id]);
  }

  lemma ClearIsPreserved(q: Cluster -> bool, b: Cluster, onwards: bool)
    requires forall x :: q(x) <==> AllClear(x) && Reached(x, Earned) && (onwards ==> Follows(b, x, Earned))
    ensures Preserved(q, Clean)
  {
    hide Reached, Step, Enabled, AllClear, Permits, Follows;
    forall x, e | q(x) && Enabled(x, e) && Permits(Clean, x, e)
      ensures q(Step(x, e))
    {
      ClearIsEarned(x, e);
      assert AllClear(Step(x, e)) by { ClearGoesOn(); }
      StepIsReached(x, e, Earned);
      if onwards {
        FollowsNext(b, x, e, Earned);
      }
    }
  }

  /** Where no leader wins with appends left over, nobody is over-credited. */
  lemma CleanIsEarned(c: Cluster)
    requires Reached(c, Clean)
    ensures Reached(c, Earned) && AllClear(c)
  {
    hide Reached, Step, Enabled, AllClear, Permits, Start, ConfigsOk;
    var q := (x: Cluster) => AllClear(x) && Reached(x, Earned);
    forall configs, now | ConfigsOk(configs)
      ensures q(Start(configs, now))
    {
      StartClear(configs, now);
      StartIsReached(configs, now, Earned);
    }
    ClearIsPreserved(q, c, false);
    ReachedHas(c, q, Clean);
  }

  lemma StartClear(configs: map<NodeId, Config>, now: Instant)
    requires ConfigsOk(configs)
    ensures AllClear(Start(configs, now))
  {
    hide BeganClear, Reached;
    StartIsReached(configs, now, Clean);
    StartFollows(configs, now);
  }

  lemma CleanFuture(b: Cluster, c: Cluster)
    requires Reached(b, Clean) && Follows(b, c, Clean)
    ensures Follows(b, c, Earned)
  {
    hide Reached, Step, Enabled, AllClear, Permits;
    var q := (x: Cluster) => AllClear(x) && Reached(x, Earned) && Follows(b, x, Earned);
    CleanIsEarned(b);
    StaysPut(b, Earned);
    assert q(b);
    ClearIsPreserved(q, b, true);
    assert q(c);
  }

  // ---------------------------------------------------------------- clusters of two

  /** With two voters the leader alone has one in common with every majority. */
  lemma TwoNeedNoMore(c: Cluster, e: Event)
    requires Enabled(c, e) && |c.nodes.Keys| <= 2
    ensures Permits(Acked, c, e)
  {
    hide React, Enabled, Acknowledged;
    if CommitsUnacknowledged(c, e) {
      ActorExists(c, e);
      M.SubsetSize({Actor(e)}, Ackers(c, Actor(e), React(c, e).node.engine.commitIndex));
      assert false;
    }
  }

  lemma TwoIsAcked(c: Cluster)
    requires Reached(c, Anything) && |c.nodes.Keys| <= 2
    ensures Reached(c, Acked)
  {
    hide Reached, Step, Enabled, Permits, Start, ConfigsOk;
    var q := (x: Cluster) => |x.nodes.Keys| <= 2 ==> Reached(x, Acked);
    forall configs, now | ConfigsOk(configs)
      ensures q(Start(configs, now))
    {
      StartIsReached(configs, now, Acked);
    }
    forall x, e | q(x) && Enabled(x, e) && Permits(Anything, x, e)
      ensures q(Step(x, e))
    {
      SameNodes(x, e);
      if |x.nodes.Keys| <= 2 {
        TwoNeedNoMore(x, e);
        StepIsReached(x, e, Acked);
      }
    }
    ReachedHas(c, q, Anything);
  }

  lemma TwoFuture(b: Cluster, c: Cluster)
    requires Follows(b, c, Anything) && |b.nodes.Keys| <= 2
    ensures Follows(b, c, Acked)
  {
    hide Step, Enabled, Permits;
    var q := (x: Cluster) => x.nodes.Keys == b.nodes.Keys && Follows(b, x, Acked);
    StaysPut(b, Acked);
    assert q(b);
    forall x, e | q(x) && Enabled(x, e) && Permits(Anything, x, e)
      ensures q(Step(x, e))
    {
      SameNodes(x, e);
      TwoNeedNoMore(x, e);
      FollowsNext(b, x, e, Acked);
    }
    assert Preserved(q, Anything);
    assert q(c);
  }

  // ---------------------------------------------------------------- together

  /** What a host or an operator can see to: no over-credits, no wins with appends left over, or a cluster of two. Each
      keeps leaders from committing what too few have acknowledged, now and in whatever comes. */
  ghost predicate Sufficient(c: Cluster, g: Guard) {
    Reached(c, g) && (g == Anything ==> |c.nodes.Keys| <= 2)
  }

  lemma WhatSuffices(c: Cluster, c': Cluster, g: Guard)
    requires Sufficient(c, g) && Follows(c, c', g)
    ensures Reached(c, Acked) && Reached(c', Acked) && Follows(c, c', Acked)
  {
    hide Reached, Follows, AllEarned, AllClear;
    match g {
      case Anything =>
        TwoIsAcked(c);
        TwoFuture(c, c');
      case Acked =>
      case Earned =>
        EarnedIsAcked(c);
        EarnedFuture(c, c');
      case Clean =>
        CleanIsEarned(c);
        CleanFuture(c, c');
        EarnedIsAcked(c);
        EarnedFuture(c, c');
    }
    FutureIsReached(c, c', Acked);
  }
}
