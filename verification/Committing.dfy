/** What a leader commits, in every run: all that its match indices allow, as soon as they do. So a leader that can
    reach a majority can get everything it holds committed. */
module Committing {
  import opened Types
  import opened EngineSpec
  import opened NodeSpec
  import opened Cluster
  import opened Reachability
  import opened Coupling
  import opened Execution
  import opened Events
  import opened Progress
  import opened Safety
  import opened Tenure
  import opened Guarantees
  import opened Guards
  import opened Convergence
  import opened Applying
  import Protocol
  import M = Membership

  // ---------------------------------------------------------------- nothing committable is left uncommitted

  ghost predicate CommitsAllItCan(s: Engine) {
    forall i :: 1 <= i <= |s.log| && Committable(s, i) ==> i <= s.commitIndex
  }

  ghost predicate AllCommitAllTheyCan(c: Cluster) {
    forall l :: Leads(c, l) ==> CommitsAllItCan(EngineOf(c, l))
  }

  /** Without match indices that reach it, an index is not committable in a cluster of at least two. */
  lemma NobodyHolds(s: Engine, i: Index)
    requires i <= |s.log| && s.members.Valid() && s.members.Quorum() >= 2
    requires forall p :: MatchOf(s, p) < i
    ensures !Committable(s, i)
  {
    HeldBy(s, i);
    assert forall p :: p in Holders(s, i) ==> MatchOf(s, p) >= i;
    assert Holders(s, i) == {};
  }

  /** Nothing becomes committable by the leader's log growing. */
  lemma GrowingCommitsNothing(s: Engine, s': Engine)
    requires CommitsAllItCan(s) && SameBooks(s, s') && s'.members == s.members && s'.config == s.config
    requires s'.Term() == s.Term() && s.log <= s'.log && s.members.Valid() && s.members.Quorum() >= 2
    requires forall p :: MatchOf(s, p) <= |s.log|
    ensures CommitsAllItCan(s')
  {
    forall i | 1 <= i <= |s'.log| && Committable(s', i)
      ensures i <= s'.commitIndex
    {
      if i <= |s.log| {
        assert s'.log[i - 1] == s.log[i - 1];
        assert Committable(s, i);
      } else {
        NobodyHolds(s', i) by {
          forall p
            ensures MatchOf(s', p) < i
          {
            assert MatchOf(s', p) == MatchOf(s, p);
          }
        }
      }
    }
  }

  /** A credit is followed by the scan, which finds the highest committable index. */
  lemma CreditingCommitsAll(s: Engine, s': Engine, p: NodeId)
    requires p in s.lastAe && CreditedBooks(s, s', p) && s'.log == s.log && s'.Term() == s.Term()
    requires s'.members == s.members && s'.config == s.config
    ensures CommitsAllItCan(s')
  {
    var s1 := Credit(s, p);
    forall i | 1 <= i <= |s'.log| && Committable(s', i)
      ensures i <= s'.commitIndex
    {
      assert Holders(s', i) == Holders(s1, i);
      assert Committable(s1, i);
    }
  }

  lemma LeaderStaysComplete(c: Cluster, h: Protocol.History, e: Event, l: NodeId)
    requires Enabled(c, e) && Leads(c, l) && Leads(Step(c, e), l) && CommitsAllItCan(EngineOf(c, l))
    requires Reached(c, Anything) && Coupled(c, h, false)
    ensures CommitsAllItCan(EngineOf(Step(c, e), l))
  {
    hide Coupled, Reached, Step, React, Enabled, Credits, Committable, SameBooks, CreditedBooks, CommitsAllItCan;
    if l != Actor(e) {
      BystanderAfter(c, e, l);
    } else {
      ActorAfter(c, e);
      LeadershipLasts(c, e, l);
      OnlyCreditsMoveBooks(c, h, e);
      LeaderGrows(c, h, e);
      var s, s' := EngineOf(c, l), EngineOf(Step(c, e), l);
      if Credits(c, e) {
        CreditedPeer(c, e);
        CreditingCommitsAll(s, s', Settled(c, e).to);
      } else {
        LeaderSeesOthers(c, h, l);
        MatchesWithinLog(c, l);
        GrowingCommitsNothing(s, s');
      }
    }
  }

  ghost predicate Lengthened(s: Engine, s': Engine, credited: bool) {
    s.log <= s'.log && (credited ==> s'.log == s.log) && s'.config == s.config && s'.members == s.members
  }

  /** A leader's log only grows, and not by answers; its configuration stays. */
  lemma LeaderGrows(c: Cluster, h: Protocol.History, e: Event)
    requires Enabled(c, e) && Leads(c, Actor(e)) && React(c, e).node.engine.role == Leader && Coupled(c, h, false)
    ensures Lengthened(EngineOf(c, Actor(e)), React(c, e).node.engine, Credits(c, e))
  {
    hide Coupled, Execute, FailAll, HandleRpc, EngineSpec.Tick, EngineSpec.Propose, Onward, Ahead, Credits, Enabled;
    ActorExists(c, e);
    LeaderKeepsTerm(c, e);
    ReactOnward(c, e);
    assert !e.Restart?;
    GrownBy(EngineOf(c, Actor(e)), React(c, e).node.engine);
    if Credits(c, e) {
      CreditsAnswers(c, e);
      AnswersAddNothing(c, e);
    }
  }

  lemma GrownBy(s: Engine, s': Engine)
    requires Onward(s, s') && Ahead(s, s') && s.role == Leader && s'.role == Leader && s'.Term() == s.Term()
    ensures s.log <= s'.log && s'.members == s.members && s'.config == s.config
  {
  }

  lemma CreditsAnswers(c: Cluster, e: Event)
    requires Enabled(c, e) && Credits(c, e)
    ensures e.DeliverReply? && e.reply.request.incarnation == c.incarnation[Actor(e)]
    ensures var node, id, msg := c.nodes[Actor(e)], e.reply.request.correlation, e.reply.msg;
            && id in node.pending && node.engine.role == Leader && msg.AppendEntriesResp? && msg.success
            && msg.term == node.engine.Term() && node.pending[id].to in node.engine.lastAe
  {
  }

  lemma AnswersAddNothing(c: Cluster, e: Event)
    requires Enabled(c, e) && e.DeliverReply? && e.reply.request.incarnation == c.incarnation[Actor(e)]
    requires var node, id, msg := c.nodes[Actor(e)], e.reply.request.correlation, e.reply.msg;
             && id in node.pending && node.engine.role == Leader && msg.AppendEntriesResp? && msg.success
             && msg.term == node.engine.Term() && node.pending[id].to in node.engine.lastAe
    ensures React(c, e).node.engine.log == EngineOf(c, Actor(e)).log
  {
    hide Execute, HandleRpc;
    var node, id := c.nodes[Actor(e)], e.reply.request.correlation;
    var r := HandleRpc(node.engine, node.pending[id].to, e.reply.msg, e.now);
    ExecuteTouches(node.(engine := r.engine, pending := node.pending - {id}), r.actions, None);
    SuccessKeepsLog(node.engine, node.pending[id].to, e.reply.msg, e.now);
  }

  lemma SuccessKeepsLog(s: Engine, p: NodeId, msg: Message, now: Instant)
    requires s.role == Leader && msg.AppendEntriesResp? && msg.success && msg.term == s.Term() && p in s.lastAe
    ensures HandleRpc(s, p, msg, now).engine.log == s.log
  {
    hide CommitTarget;
    CommitTouches(Credit(s, p));
  }

  /** A leader has somebody to answer it. */
  lemma LeaderSeesOthers(c: Cluster, h: Protocol.History, l: NodeId)
    requires Leads(c, l) && Reached(c, Anything) && Coupled(c, h, false)
    ensures EngineOf(c, l).members.Valid() && EngineOf(c, l).members.Quorum() >= 2
    ensures EngineOf(c, l).members.Voters() == c.nodes.Keys && EngineOf(c, l).Id() == l
  {
    hide Coupled, Reached, EngineOk, NodeOk, NotStuck, Protocol.Inv;
    NodeIsOk(c, h, l, false);
    CoupledInv(c, h, false);
    MembersOf(h, l, EngineOf(c, l));
    M.SubsetSize({l}, c.nodes.Keys);
    if |c.nodes.Keys| == 1 {
      LoneVoterNeverLeads(c, l);
      assert false;
    }
  }

  lemma MatchesWithinLog(c: Cluster, l: NodeId)
    requires Leads(c, l) && Reached(c, Anything)
    ensures forall p :: MatchOf(EngineOf(c, l), p) <= |LogOf(c, l)|
  {
    hide Coupled, Reached;
    var h := ReachedCoupled(c, Anything);
    forall p
      ensures MatchOf(EngineOf(c, l), p) <= |LogOf(c, l)|
    {
      if p in EngineOf(c, l).matchIndex {
        MatchedIsPeer(c, h, l, p);
        BooksAreOrdered(c, l, p);
      }
    }
  }

  lemma MatchedIsPeer(c: Cluster, h: Protocol.History, l: NodeId, p: NodeId)
    requires Leads(c, l) && p in EngineOf(c, l).matchIndex && Coupled(c, h, false)
    ensures Tracks(c, l, p)
  {
    hide Coupled, NodeOk, NotStuck, Protocol.Inv, IdentityOk, DurableOk, RoleOk;
    NodeIsOk(c, h, l, false);
    CoupledInv(c, h, false);
    assert p in EngineOf(c, l).matchIndex.Keys;
  }

  lemma FreshCommitsAll(c: Cluster, h: Protocol.History, l: NodeId)
    requires Leads(c, l) && FreshBooks(EngineOf(c, l)) && Reached(c, Anything) && Coupled(c, h, false)
    ensures CommitsAllItCan(EngineOf(c, l))
  {
    hide Coupled, Reached, Committable;
    LeaderSeesOthers(c, h, l);
    var s := EngineOf(c, l);
    forall i | 1 <= i <= |s.log|
      ensures !Committable(s, i)
    {
      NobodyHolds(s, i);
    }
  }

  lemma StepCommitsAll(c: Cluster, e: Event)
    requires Enabled(c, e) && AllCommitAllTheyCan(c) && Reached(c, Anything)
    ensures AllCommitAllTheyCan(Step(c, e)) && Reached(Step(c, e), Anything)
  {
    hide Coupled, Reached, Step, React, Enabled, CommitsAllItCan, FreshBooks;
    var h := ReachedCoupled(c, Anything);
    StepIsReached(c, e, Anything);
    forall l | Leads(Step(c, e), l)
      ensures CommitsAllItCan(EngineOf(Step(c, e), l))
    {
      if Leads(c, l) {
        LeaderStaysComplete(c, h, e, l);
      } else {
        NewLeaderActed(c, e, l);
        WinBeginsClear(c, e, l, l);
        var h' := ReachedCoupled(Step(c, e), Anything);
        FreshCommitsAll(Step(c, e), h', l);
      }
    }
  }

  /** In every run, a leader has committed every index of its term that, by its match indices, a majority holds. */
  lemma LeaderCommitsAllItCan(c: Cluster, l: NodeId)
    requires Leads(c, l) && Reached(c, Anything)
    ensures CommitsAllItCan(EngineOf(c, l))
  {
    hide Reached, Step, Enabled, Start, ConfigsOk, CommitsAllItCan;
    var q := (x: Cluster) => AllCommitAllTheyCan(x) && Reached(x, Anything);
    forall configs, now | ConfigsOk(configs)
      ensures q(Start(configs, now))
    {
      StartFollows(configs, now);
      StartIsReached(configs, now, Anything);
    }
    forall x, e | q(x) && Enabled(x, e) && Permits(Anything, x, e)
      ensures q(Step(x, e))
    {
      StepCommitsAll(x, e);
    }
    ReachedHas(c, q, Anything);
  }

  // ---------------------------------------------------------------- a majority in reach

  /** With a majority in reach that its leadership began clear of, a leader whose log ends in its own term can have all
      of that log committed by heartbeats and deliveries alone. */
  lemma QuorumCommits(c: Cluster, l: NodeId, ps: set<NodeId>, g: Guard) returns (c': Cluster)
    requires Leads(c, l) && Reached(c, Anything) && g != Acked && forall p :: p in ps ==> Open(c, l, p)
    requires |ps| + 1 >= |c.nodes.Keys| / 2 + 1
    requires LogOf(c, l) != [] && LogOf(c, l)[|LogOf(c, l)| - 1].term == TermOf(c, l)
    ensures Follows(c, c', g) && Steady(c, c', l, ps) && CommitOf(c', l) >= |LogOf(c', l)|
    ensures forall p :: p in ps ==> InSync(c', l, p)
  {
    hide Reached, Follows, Open, InSync, CommitsAllItCan, Coupled;
    c' := AllConverge(c, l, ps, g);
    FollowsUnguarded(c, c', g);
    FutureIsReached(c, c', Anything);
    SyncedIsCommitted(c', l, ps);
  }

  lemma SyncedIsCommitted(c: Cluster, l: NodeId, ps: set<NodeId>)
    requires Leads(c, l) && Reached(c, Anything) && forall p :: p in ps ==> InSync(c, l, p)
    requires |ps| + 1 >= |c.nodes.Keys| / 2 + 1
    requires LogOf(c, l) != [] && LogOf(c, l)[|LogOf(c, l)| - 1].term == TermOf(c, l)
    ensures CommitOf(c, l) >= |LogOf(c, l)|
  {
    hide Reached;
    forall p | p in ps
      ensures Tracks(c, l, p) && MatchOf(EngineOf(c, l), p) >= |LogOf(c, l)|
    {
      assert InSync(c, l, p);
    }
    HeldIsCommitted(c, l, ps, |LogOf(c, l)|);
  }

  /** What a leader credits a majority with, of its own term, it has committed. */
  lemma HeldIsCommitted(c: Cluster, l: NodeId, ps: set<NodeId>, i: Index)
    requires Leads(c, l) && Reached(c, Anything)
    requires 1 <= i <= |LogOf(c, l)| && LogOf(c, l)[i - 1].term == TermOf(c, l) && |ps| + 1 >= |c.nodes.Keys| / 2 + 1
    requires forall p :: p in ps ==> Tracks(c, l, p) && MatchOf(EngineOf(c, l), p) >= i
    ensures CommitOf(c, l) >= i
  {
    hide Reached, Coupled, Committable;
    var h := ReachedCoupled(c, Anything);
    LeaderSeesOthers(c, h, l);
    LeaderCommitsAllItCan(c, l);
    var s := EngineOf(c, l);
    MajorityCommits(s, c.nodes.Keys, ps, i);
  }

  lemma MajorityCommits(s: Engine, voters: set<NodeId>, ps: set<NodeId>, i: Index)
    requires s.members.Valid() && s.members.Voters() == voters
    requires 1 <= i <= |s.log| && s.log[i - 1].term == s.Term() && |ps| + 1 >= |voters| / 2 + 1
    requires forall p :: p in ps ==> p in voters && p != s.Id() && MatchOf(s, p) >= i
    ensures Committable(s, i)
  {
    HeldBy(s, i);
    M.VotersSize(s.members.order);
    assert ps <= (s.members.Voters() - {s.Id()}) * Holders(s, i);
    hide Holders, M.Count;
    M.SubsetSize(ps, (s.members.Voters() - {s.Id()}) * Holders(s, i));
  }

  // ---------------------------------------------------------------- what a leader applies is its log

  /** `l`, if it still leads the term it led with engine `s`, has handed out its log as far as it committed. */
  ghost predicate StillOfLog(s: Engine, c: Cluster, l: NodeId) {
    && Reached(c, Anything) && l in c.nodes && l in c.applied && Onward(s, EngineOf(c, l))
    && (Leads(c, l) && TermOf(c, l) == s.Term() ==> OfLog(EngineOf(c, l), c.applied[l]))
  }

  lemma OfLogStep(s: Engine, c: Cluster, e: Event, l: NodeId)
    requires s.role == Leader && Enabled(c, e) && StillOfLog(s, c, l)
    ensures StillOfLog(s, Step(c, e), l)
  {
    hide Reached, Onward, Ahead, Delivers, Gapless, OfLog, AppliedBy, React;
    StepIsReached(c, e, Anything);
    StepOnward(c, e, l);
    var c' := Step(c, e);
    OnwardTransitive(s, EngineOf(c, l), EngineOf(c', l));
    if Leads(c', l) && TermOf(c', l) == s.Term() {
      LedBefore(s, EngineOf(c, l), EngineOf(c', l));
      if l == Actor(e) {
        LeaderDelivers(c, e);
      }
    }
  }

  lemma LeaderDelivers(c: Cluster, e: Event)
    requires Enabled(c, e) && Leads(c, Actor(e)) && React(c, e).node.engine.role == Leader && Reached(c, Anything)
    requires OfLog(EngineOf(c, Actor(e)), c.applied[Actor(e)])
    ensures !e.Restart? && OfLog(React(c, e).node.engine, c.applied[Actor(e)] + AppliedBy(React(c, e).outputs))
  {
    hide Reached, Onward, Ahead, Delivers, Gapless, OfLog, AppliedBy, Enabled, Coupled, Credits, React;
    ActorExists(c, e);
    var h := ReachedCoupled(c, Anything);
    LeaderGrows(c, h, e);
    assert !e.Restart? by { RestartsFollow(c, e); }
    var l := Actor(e);
    CatchUp.NodeListed(c, h, l);
    AppliedInOrder(c, l);
    AppliedThrough(EngineOf(c, l), c.applied[l]);
    ReactDelivers(c, e);
    DeliveredOfLog(EngineOf(c, l), React(c, e).node.engine, c.applied[l], AppliedBy(React(c, e).outputs));
  }

  lemma RestartsFollow(c: Cluster, e: Event)
    requires Enabled(c, e)
    ensures e.Restart? ==> React(c, e).node.engine.role != Leader
  {
  }

  lemma FutureOfLog(b: Cluster, c: Cluster, l: NodeId)
    requires SameLeadership(b, c, l) && Reached(b, Anything) && l in b.applied && OfLog(EngineOf(b, l), b.applied[l])
    ensures Reached(c, Anything) && l in c.applied && OfLog(EngineOf(c, l), c.applied[l])
  {
    hide Reached, Onward, OfLog, Step, Enabled;
    var s := EngineOf(b, l);
    var q := (x: Cluster) => StillOfLog(s, x, l);
    OnwardReflexive(s);
    assert q(b);
    forall x, e | q(x) && Enabled(x, e) && Permits(Anything, x, e)
      ensures q(Step(x, e))
    {
      OfLogStep(s, x, e, l);
    }
    assert Preserved(q, Anything);
    assert q(c);
  }

  /** What a leader commits in its leadership it reports, as its log has it, provided that what it had applied when it
      won was its log too. */
  lemma LeaderReportsItsLog(b: Cluster, c: Cluster, l: NodeId, i: nat)
    requires SameLeadership(b, c, l) && Reached(b, Anything) && l in b.applied && OfLog(EngineOf(b, l), b.applied[l])
    requires i < CommitOf(c, l)
    ensures i < |LogOf(c, l)| && Safety.Reported(c, l, LogOf(c, l)[i])
  {
    hide Reached, Follows;
    FutureOfLog(b, c, l);
    AppliedInOrder(c, l);
    AppliedIsReported(c, l);
    assert c.applied[l][i] == LogOf(c, l)[i];
    assert c.applied[l][i] in c.applied[l];
  }
}
