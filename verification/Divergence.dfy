/** Every cluster of three or more voters has a run in which two nodes apply different commands at one index: whoever
    leads a second time, with the appends of the first time unanswered, can be made to commit what it alone has. */
module Divergence {
  import opened Types
  import opened LogSpec
  import opened EngineSpec
  import opened NodeSpec
  import opened Cluster
  import opened Reachability
  import opened Coupling
  import opened Execution
  import opened Events
  import opened Progress
  import opened Safety
  import opened Tenure
  import opened Guarantees
  import opened CatchUp
  import opened Filing
  import opened Convergence
  import opened Applying
  import opened Committing
  import opened Elections
  import Guards
  import Protocol
  import M = Membership

  // ---------------------------------------------------------------- leading again, with appends left over

  /** Nobody's log holds anything, and nothing is committed. */
  ghost predicate Blank(c: Cluster) {
    forall n :: n in c.nodes ==> LogOf(c, n) == [] && CommitOf(c, n) == 0
  }

  /** The node waits for no answer to an append. */
  ghost predicate NoAppends(node: Node) {
    forall id :: id in node.pending ==> !node.pending[id].msg.AppendEntries?
  }

  /** An append of an earlier term is still pending to `p`. */
  ghost predicate Leftover(node: Node, p: NodeId) {
    exists id :: AppendTo(node, id, p) && node.pending[id].msg.term < node.engine.Term()
  }

  /** The others of a cluster. */
  ghost function Others(c: Cluster, x: NodeId): set<NodeId> {
    c.nodes.Keys - {x}
  }

  /** `l` leads with a blank log and an append of an earlier term pending to everybody; `w` waits for no append. */
  ghost predicate Laden(c: Cluster, l: NodeId, w: NodeId) {
    && Reached(c, Anything) && Leads(c, l) && Blank(c) && FreshBooks(EngineOf(c, l))
    && w in c.nodes && w != l && NoAppends(c.nodes[w])
    && forall p :: p in Others(c, l) ==>
         p in c.nodes[l].connected && TermOf(c, p) <= TermOf(c, l) && Leftover(c.nodes[l], p)
  }

  /** `l` has led, sent an append to everybody, and is no leader any more; `w` has moved it on. */
  ghost predicate Deposed(c: Cluster, l: NodeId, w: NodeId) {
    && Reached(c, Anything) && l in c.nodes && EngineOf(c, l).role != Leader && Blank(c)
    && w in c.nodes && w != l && NoAppends(c.nodes[w])
    && forall p :: p in Others(c, l) ==>
         p in c.nodes[l].connected && TermOf(c, p) <= TermOf(c, l) && Leftover(c.nodes[l], p)
  }

  lemma BlankFavours(c: Cluster, x: NodeId, p: NodeId)
    requires Blank(c) && x in c.nodes && p in c.nodes && p != x && p in c.nodes[x].connected
    requires TermOf(c, p) <= TermOf(c, x)
    ensures Favours(c, x, p)
  {
  }

  lemma MajorityOfOthers(c: Cluster, x: NodeId)
    requires x in c.nodes && |c.nodes.Keys| >= 2
    ensures |Others(c, x)| == |c.nodes.Keys| - 1 && Others(c, x) != {} && x !in Others(c, x)
    ensures |Others(c, x)| + 1 >= |c.nodes.Keys| / 2 + 1
  {
    assert c.nodes.Keys == Others(c, x) + {x};
  }

  // ---------------------------------------------------------------- the first leadership

  /** `l` leads its first term over blank logs; nobody else leads, nobody waits for an append. */
  ghost predicate FirstLed(c: Cluster, l: NodeId) {
    && Reached(c, Anything) && Leads(c, l) && Blank(c) && FreshBooks(EngineOf(c, l))
    && forall p :: p in Others(c, l) ==>
         && p in c.nodes[l].connected && TermOf(c, p) <= TermOf(c, l) && EngineOf(c, p).role != Leader
         && NoAppends(c.nodes[p])
  }

  lemma StartIsBlank(configs: map<NodeId, Config>, now: Instant)
    ensures var c := Start(configs, now);
            && Blank(c) && c.nodes.Keys == configs.Keys
            && forall n :: n in c.nodes ==> TermOf(c, n) == 0 && EngineOf(c, n).role != Leader && NoAppends(c.nodes[n])
  {
  }

  lemma LeadsFirst(configs: map<NodeId, Config>, now: Instant, l: NodeId) returns (c: Cluster)
    requires ConfigsOk(configs) && l in configs && |configs.Keys| >= 2
    ensures Follows(Start(configs, now), c, Anything) && c.nodes.Keys == configs.Keys && FirstLed(c, l)
  {
    hide Reached, Follows, FreshBooks, Start, ConfigsOk, Favours, Campaigned;
    var b := Start(configs, now);
    StartIsReached(configs, now, Anything);
    StartIsBlank(configs, now);
    MajorityOfOthers(b, l);
    var c1 := ConnectAll(b, l, Others(b, l));
    FutureIsReached(b, c1, Anything);
    forall p | p in Others(b, l)
      ensures Favours(c1, l, p)
    {
      BlankFavours(c1, l, p);
    }
    assert Others(c1, l) == Others(b, l);
    c := CanWin(c1, l, Others(b, l));
    FollowsOn(b, c1, c, Anything);
    FirstWon(c1, c, l);
  }

  lemma FirstWon(b: Cluster, c: Cluster, l: NodeId)
    requires Campaigned(b, c, l, Others(b, l)) && Blank(b) && Leads(c, l) && FreshBooks(EngineOf(c, l))
    requires Reached(c, Anything)
    requires forall p :: p in Others(b, l) ==>
               && p in b.nodes[l].connected && TermOf(b, p) <= TermOf(b, l) && EngineOf(b, p).role != Leader
               && NoAppends(b.nodes[p])
    ensures FirstLed(c, l) && c.nodes.Keys == b.nodes.Keys
  {
    hide Reached, FreshBooks;
    forall n | n in c.nodes
      ensures LogOf(c, n) == [] && CommitOf(c, n) == 0
    {
      if n != l {
        assert Stood(b.nodes[n], c.nodes[n], TermOf(b, l) + 1, true);
      }
    }
    forall p | p in Others(c, l)
      ensures p in c.nodes[l].connected && TermOf(c, p) <= TermOf(c, l) && EngineOf(c, p).role != Leader
      ensures NoAppends(c.nodes[p])
    {
      assert Stood(b.nodes[p], c.nodes[p], TermOf(b, l) + 1, true);
    }
  }

  // ---------------------------------------------------------------- an append to everybody

  /** As before, and now an append of this term is pending to everybody. */
  ghost predicate Spread(c: Cluster, l: NodeId) {
    && Reached(c, Anything) && Leads(c, l) && Blank(c)
    && forall p :: p in Others(c, l) ==>
         && p in c.nodes[l].connected && TermOf(c, p) <= TermOf(c, l) && EngineOf(c, p).role != Leader
         && NoAppends(c.nodes[p])
         && exists id :: AppendTo(c.nodes[l], id, p) && c.nodes[l].pending[id].msg.term == TermOf(c, l)
  }

  lemma SpreadsToAll(b: Cluster, l: NodeId) returns (c: Cluster)
    requires FirstLed(b, l)
    ensures Follows(b, c, Anything) && Spread(c, l) && c.nodes.Keys == b.nodes.Keys
  {
    hide Reached, Follows;
    c := BeatAll(b, l);
    FutureIsReached(b, c, Anything);
    forall p | p in Others(c, l)
      ensures exists id :: AppendTo(c.nodes[l], id, p) && c.nodes[l].pending[id].msg.term == TermOf(c, l)
    {
      assert Idle(b, l, p);
      var id :| BeatenTo(b.nodes[l], c.nodes[l], p, id);
      assert AppendTo(c.nodes[l], id, p);
    }
  }

  // ---------------------------------------------------------------- losing the term and winning the next

  lemma IsDeposed(b: Cluster, l: NodeId, w: NodeId) returns (c: Cluster)
    requires Spread(b, l) && w in b.nodes && w != l
    ensures Follows(b, c, Anything) && Deposed(c, l, w) && c.nodes.Keys == b.nodes.Keys
  {
    hide Reached, Follows, Coupled, Protocol.Inv, RequestOk;
    assert w in Others(b, l);
    var c1 := ConnectAll(b, w, {l});
    FutureIsReached(b, c1, Anything);
    var c2 := StandsUntil(c1, w, TermOf(b, l) + 1, l);
    FutureIsReached(c1, c2, Anything);
    var id, i, last :| id in c2.nodes[w].pending
                       && c2.nodes[w].pending[id] == Pending(l, VoteRpc, RequestVote(TermOf(b, l) + 1, w, i, last));
    var h := ReachedCoupled(c2, Anything);
    NodeListed(c2, h, w);
    var q := PendingRequest(c2, h, w, id);
    var granted;
    c, granted := DeliverAsk(c2, q);
    FutureIsReached(c2, c, Anything);
    FollowsOn(b, c1, c2, Anything);
    FollowsOn(b, c2, c, Anything);
    DeposedNow(b, c1, c2, c, l, w);
  }

  lemma DeposedNow(b: Cluster, c1: Cluster, c2: Cluster, c: Cluster, l: NodeId, w: NodeId)
    requires Spread(b, l) && w in Others(b, l) && Reached(c, Anything)
    requires SteppedAlone(b, c1, w, b.nodes[w].(connected := b.nodes[w].connected + {l}))
    requires StoodIn(c1, c2, w, TermOf(b, l) + 1, l)
    requires l in c.nodes && SteppedAlone(c2, c, l, c2.nodes[l].(engine := EngineOf(c, l)))
    requires Yielded(EngineOf(c2, l), EngineOf(c, l), TermOf(b, l) + 1)
    ensures Deposed(c, l, w) && c.nodes.Keys == b.nodes.Keys
  {
    hide Reached;
    forall p | p in Others(c, l)
      ensures p in c.nodes[l].connected && TermOf(c, p) <= TermOf(c, l) && Leftover(c.nodes[l], p)
    {
      assert p in Others(b, l);
      var id :| AppendTo(b.nodes[l], id, p) && b.nodes[l].pending[id].msg.term == TermOf(b, l);
      assert AppendTo(c.nodes[l], id, p);
    }
  }

  lemma WinsAgain(b: Cluster, l: NodeId, w: NodeId) returns (c: Cluster)
    requires Deposed(b, l, w) && |b.nodes.Keys| >= 2
    ensures Follows(b, c, Anything) && Laden(c, l, w) && c.nodes.Keys == b.nodes.Keys
  {
    hide Reached, Follows, FreshBooks, Favours, Campaigned;
    MajorityOfOthers(b, l);
    forall p | p in Others(b, l)
      ensures Favours(b, l, p)
    {
      BlankFavours(b, l, p);
    }
    c := CanWin(b, l, Others(b, l));
    LadenNow(b, c, l, w);
  }

  lemma LadenNow(b: Cluster, c: Cluster, l: NodeId, w: NodeId)
    requires Deposed(b, l, w) && Campaigned(b, c, l, Others(b, l)) && Leads(c, l) && FreshBooks(EngineOf(c, l))
    requires Reached(c, Anything)
    ensures Laden(c, l, w) && c.nodes.Keys == b.nodes.Keys
  {
    hide Reached, FreshBooks;
    forall n | n in c.nodes
      ensures LogOf(c, n) == [] && CommitOf(c, n) == 0
    {
      if n != l {
        assert Stood(b.nodes[n], c.nodes[n], TermOf(b, l) + 1, true);
      }
    }
    assert Stood(b.nodes[w], c.nodes[w], TermOf(b, l) + 1, true);
    forall p | p in Others(c, l)
      ensures p in c.nodes[l].connected && TermOf(c, p) <= TermOf(c, l) && Leftover(c.nodes[l], p)
    {
      assert p in Others(b, l) && Stood(b.nodes[p], c.nodes[p], TermOf(b, l) + 1, true);
      var id :| AppendTo(b.nodes[l], id, p) && b.nodes[l].pending[id].msg.term < TermOf(b, l);
      assert AppendTo(c.nodes[l], id, p);
    }
  }

  lemma BecomesLaden(configs: map<NodeId, Config>, now: Instant, l: NodeId, w: NodeId) returns (c: Cluster)
    requires ConfigsOk(configs) && l in configs && w in configs && w != l && |configs.Keys| >= 2
    ensures Follows(Start(configs, now), c, Anything) && c.nodes.Keys == configs.Keys && Laden(c, l, w)
  {
    hide Reached, Follows, Start, ConfigsOk, FirstLed, Spread, Deposed, Laden;
    var c1 := LeadsFirst(configs, now, l);
    var c2 := SpreadsToAll(c1, l);
    var c3 := IsDeposed(c2, l, w);
    c := WinsAgain(c3, l, w);
    FollowsOn(Start(configs, now), c1, c2, Anything);
    FollowsOn(Start(configs, now), c2, c3, Anything);
    FollowsOn(Start(configs, now), c3, c, Anything);
  }

  // ---------------------------------------------------------------- a first entry, which everybody takes

  /** The append of `x` alone, at the start of the log. */
  function First(l: NodeId, x: LogEntry): Message {
    AppendEntries(x.term, l, 0, 0, [x], 0)
  }

  /** The first append to `p` is pending under `id`. */
  predicate Filed1(node: Node, l: NodeId, p: NodeId, x: LogEntry, id: nat) {
    id in node.pending && node.pending[id].to == p && node.pending[id].msg == First(l, x)
  }

  /** `l` has appended `x` to its blank log and sent it to everybody, with the leftovers still pending. */
  ghost predicate Offered(c: Cluster, l: NodeId, x: LogEntry) {
    && Reached(c, Anything) && Leads(c, l) && LogOf(c, l) == [x] && x == LogEntry(1, TermOf(c, l), [])
    && CommitOf(c, l) == 0
    && forall p :: p in Others(c, l) ==> OfferedTo(c, l, p, x)
  }

  ghost predicate OfferedTo(c: Cluster, l: NodeId, p: NodeId, x: LogEntry)
    requires l in c.nodes && p in c.nodes
  {
    && p in c.nodes[l].connected && LogOf(c, p) == [] && CommitOf(c, p) == 0 && TermOf(c, p) <= TermOf(c, l)
    && Leftover(c.nodes[l], p) && MarkedOnce(EngineOf(c, l), p)
    && exists id :: Filed1(c.nodes[l], l, p, x, id)
  }

  /** The books on `p` after the first append: the next append starts at index 1 as well. */
  predicate MarkedOnce(s: Engine, p: NodeId) {
    p in s.nextIndex && s.nextIndex[p] == 1 && p in s.lastAe && s.lastAe[p] == (0, 1)
  }

  lemma FirstIsOffered(node: Node, node': Node, l: NodeId, p: NodeId, id: nat)
    requires ProposedTo(node, node', [], p, id) && node.engine.log == [] && node.engine.commitIndex == 0
    requires node.engine.Id() == l && Leftover(node, p)
    requires forall i :: i in node.pending ==> i < node.nextCorrelation
    ensures var x := LogEntry(1, node.engine.Term(), []);
            Filed1(node', l, p, x, id) && Leftover(node', p) && MarkedOnce(node'.engine, p)
  {
    var s, s', msg := node.engine, node'.engine, node'.pending[id].msg;
    assert s.nextIndex[p] == 1;
    assert s'.log == [LogEntry(1, s.Term(), [])];
    assert msg.entries == s'.log[0..1] == s'.log;
    var i :| AppendTo(node, i, p) && node.pending[i].msg.term < s.Term();
    assert AppendTo(node', i, p);
  }

  lemma OffersFirst(b: Cluster, l: NodeId, w: NodeId) returns (c: Cluster)
    requires Laden(b, l, w)
    ensures Follows(b, c, Anything) && SameLeadership(b, c, l) && c.nodes.Keys == b.nodes.Keys
    ensures c.nodes[w] == b.nodes[w]
    ensures Offered(c, l, LogEntry(1, TermOf(c, l), []))
  {
    hide Reached, Follows, ProposedTo, MarkedOnce, Filed1, Leftover, Coupled, IdsBelow, Protocol.Inv;
    c := ProposeAll(b, l, []);
    FutureIsReached(b, c, Anything);
    var h := ReachedCoupled(b, Anything);
    var x := LogEntry(1, TermOf(b, l), []);
    forall p | p in Others(c, l)
      ensures OfferedTo(c, l, p, x)
    {
      assert p in Others(b, l) && Idle(b, l, p);
      var id :| ProposedTo(b.nodes[l], c.nodes[l], [], p, id);
      PeerFacts(b, h, l, p);
      FirstIsOffered(b.nodes[l], c.nodes[l], l, p, id) by { BelowNext(b.nodes[l]); }
    }
  }

  lemma BelowNext(node: Node)
    requires IdsBelow(node)
    ensures forall i :: i in node.pending ==> i < node.nextCorrelation
  {
  }

  // ---------------------------------------------------------------- everybody takes it, and says so

  /** `p` has answered the first append pending to it; the answer is on its way. */
  ghost predicate Owes(c: Cluster, l: NodeId, p: NodeId, x: LogEntry) {
    && l in c.nodes && l in c.incarnation
    && exists id, answer: Message ::
         && Filed1(c.nodes[l], l, p, x, id) && answer.AppendEntriesResp? && answer.success && answer.term == x.term
         && Reply(Envelope(l, p, c.incarnation[l], id, First(l, x)), answer) in c.replies
  }

  /** `p` has taken the first entry. */
  ghost predicate Took(c: Cluster, p: NodeId, x: LogEntry) {
    && p in c.nodes && LogOf(c, p) == [x] && CommitOf(c, p) == 0 && TermOf(c, p) == x.term
    && EngineOf(c, p).role != Leader
  }

  lemma FirstIsTaken(s: Engine, l: NodeId, x: LogEntry, now: Instant)
    requires s.log == [] && s.commitIndex == 0 && s.Term() <= x.term && x.index == 1
    ensures var r := HandleRpc(s, l, First(l, x), now);
            && r.engine.log == [x] && r.engine.commitIndex == 0 && r.engine.Term() == x.term
            && r.engine.role == Follower && AnswerOf(r) == Some(AppendEntriesResp(x.term, true, 1))
  {
    MergeSpec([], 0, [x]);
    hide Merge;
  }

  lemma TakesFirst(b: Cluster, l: NodeId, p: NodeId, x: LogEntry) returns (c: Cluster)
    requires Reached(b, Anything) && Leads(b, l) && p in b.nodes && p != l && OfferedTo(b, l, p, x)
    requires x == LogEntry(1, TermOf(b, l), [])
    ensures Follows(b, c, Anything) && c.nodes.Keys == b.nodes.Keys && c.incarnation == b.incarnation
    ensures b.replies <= c.replies && c.nodes == b.nodes[p := b.nodes[p].(engine := EngineOf(c, p))]
    ensures Took(c, p, x) && Owes(c, l, p, x)
  {
    hide Reached, Follows, Coupled, Protocol.Inv, RequestOk, HandleRpc, AnswerOf, Leftover, MarkedOnce;
    var h := ReachedCoupled(b, Anything);
    NodeListed(b, h, l);
    var id :| Filed1(b.nodes[l], l, p, x, id);
    var q := PendingRequest(b, h, l, id);
    FirstIsTaken(EngineOf(b, p), l, x, 0);
    var answer;
    c, answer := DeliverAppend(b, h, q, 0, Anything);
    assert Filed1(c.nodes[l], l, p, x, id);
  }

  /** Between `b` and `c` only nodes of `ps` have moved, and of those only the engines. */
  ghost predicate OnlyEngines(b: Cluster, c: Cluster, ps: set<NodeId>) {
    && c.nodes.Keys == b.nodes.Keys && c.incarnation == b.incarnation && b.replies <= c.replies
    && forall n :: n in b.nodes ==>
         c.nodes[n] == b.nodes[n].(engine := EngineOf(c, n)) && (n !in ps ==> c.nodes[n] == b.nodes[n])
  }

  lemma {:induction false} AllTakeFirst(b: Cluster, l: NodeId, ps: set<NodeId>, x: LogEntry) returns (c: Cluster)
    requires Reached(b, Anything) && Leads(b, l) && x == LogEntry(1, TermOf(b, l), [])
    requires forall p :: p in ps ==> p in b.nodes && p != l && OfferedTo(b, l, p, x)
    ensures Follows(b, c, Anything) && Reached(c, Anything) && OnlyEngines(b, c, ps) && c.nodes.Keys == b.nodes.Keys
    ensures forall p :: p in ps ==> Took(c, p, x) && Owes(c, l, p, x)
    decreases |ps|
  {
    hide Reached, Follows, OfferedTo, Took, Owes;
    if ps == {} {
      c := b;
      StaysPut(b, Anything);
    } else {
      var p :| p in ps;
      var c1 := TakesFirst(b, l, p, x);
      FutureIsReached(b, c1, Anything);
      forall r | r in ps - {p}
        ensures OfferedTo(c1, l, r, x)
      {
        assert OfferedTo(b, l, r, x);
        StillOffered(b, c1, l, r, x);
      }
      c := AllTakeFirst(c1, l, ps - {p}, x);
      FollowsOn(b, c1, c, Anything);
      StillTaken(c1, c, l, p, x);
    }
  }

  lemma StillOffered(b: Cluster, c: Cluster, l: NodeId, p: NodeId, x: LogEntry)
    requires l in b.nodes && p in b.nodes && OfferedTo(b, l, p, x)
    requires l in c.nodes && p in c.nodes && c.nodes[l] == b.nodes[l] && c.nodes[p] == b.nodes[p]
    ensures OfferedTo(c, l, p, x)
  {
  }

  lemma StillTaken(b: Cluster, c: Cluster, l: NodeId, p: NodeId, x: LogEntry)
    requires Took(b, p, x) && Owes(b, l, p, x) && p in c.nodes && l in c.nodes && b.replies <= c.replies
    requires c.incarnation == b.incarnation && c.nodes[p] == b.nodes[p] && c.nodes[l] == b.nodes[l]
    ensures Took(c, p, x) && Owes(c, l, p, x)
  {
    hide First;
    var id, answer: Message :|
      && Filed1(b.nodes[l], l, p, x, id) && answer.AppendEntriesResp? && answer.success && answer.term == x.term
      && Reply(Envelope(l, p, b.incarnation[l], id, First(l, x)), answer) in b.replies;
    assert Filed1(c.nodes[l], l, p, x, id);
  }

  // ---------------------------------------------------------------- the leftovers fail

  /** The leader is as before, but that what is left over to `ps` is gone, and with it their marks. */
  ghost predicate Freed(node: Node, node': Node, ps: set<NodeId>) {
    && node'.engine == node.engine.(inflight := node'.engine.inflight) && node'.connected == node.connected
    && node'.engine.inflight <= node.engine.inflight
    && (forall p :: p in ps ==> p !in node'.engine.inflight)
    && (forall p :: p !in ps && Leftover(node, p) ==> Leftover(node', p))
    && forall id :: id in node.pending && node.pending[id].msg.AppendEntries?
                    && node.pending[id].msg.term == node.engine.Term() ==>
         id in node'.pending && node'.pending[id] == node.pending[id]
  }

  lemma FailsLeftover(b: Cluster, l: NodeId, p: NodeId) returns (c: Cluster)
    requires Reached(b, Anything) && l in b.nodes && Leftover(b.nodes[l], p)
    ensures Follows(b, c, Anything) && l in c.nodes && SteppedAlone(b, c, l, c.nodes[l])
    ensures Freed(b.nodes[l], c.nodes[l], {p})
  {
    hide Reached, Follows, Coupled, IdsBelow, NodeOk, EngineOk, NotStuck, Protocol.Inv;
    var h := ReachedCoupled(b, Anything);
    NodeListed(b, h, l);
    NodeIsOk(b, h, l, false);
    var node := b.nodes[l];
    var id :| AppendTo(node, id, p) && node.pending[id].msg.term < node.engine.Term();
    assert node.pending[id].kind == AppendRpc by { KindKnown(node, id); }
    var e := Fail(l, id, false);
    StaysPut(b, Anything);
    StepAlone(b, b, e);
    c := Step(b, e);
    var node' := c.nodes[l];
    assert node' == FailPending(node, id, false).node;
    forall r | r != p && Leftover(node, r)
      ensures Leftover(node', r)
    {
      var i :| AppendTo(node, i, r) && node.pending[i].msg.term < node.engine.Term();
      assert AppendTo(node', i, r);
    }
  }

  lemma KindKnown(node: Node, id: nat)
    requires IdsBelow(node) && id in node.pending && node.pending[id].msg.AppendEntries?
    ensures node.pending[id].kind == AppendRpc
  {
  }

  lemma {:induction false} AllLeftoversFail(b: Cluster, l: NodeId, ps: set<NodeId>) returns (c: Cluster)
    requires Reached(b, Anything) && l in b.nodes && forall p :: p in ps ==> Leftover(b.nodes[l], p)
    ensures Follows(b, c, Anything) && Reached(c, Anything) && l in c.nodes && SteppedAlone(b, c, l, c.nodes[l])
    ensures Freed(b.nodes[l], c.nodes[l], ps)
    decreases |ps|
  {
    hide Reached, Follows, Leftover, Freed;
    if ps == {} {
      c := b;
      StaysPut(b, Anything);
      FreedNothing(b.nodes[l]);
    } else {
      var p :| p in ps;
      var c1 := FailsLeftover(b, l, p);
      FutureIsReached(b, c1, Anything);
      forall r | r in ps - {p}
        ensures Leftover(c1.nodes[l], r)
      {
        FreedKeeps(b.nodes[l], c1.nodes[l], p, r);
      }
      c := AllLeftoversFail(c1, l, ps - {p});
      FollowsOn(b, c1, c, Anything);
      FreedOn(b.nodes[l], c1.nodes[l], c.nodes[l], p, ps);
    }
  }

  lemma FreedNothing(node: Node)
    ensures Freed(node, node, {})
  {
    hide Leftover;
  }

  lemma FreedKeeps(node: Node, node': Node, p: NodeId, r: NodeId)
    requires Freed(node, node', {p}) && r != p && Leftover(node, r)
    ensures Leftover(node', r)
  {
    hide Leftover;
  }

  lemma FreedOn(a: Node, b: Node, c: Node, p: NodeId, ps: set<NodeId>)
    requires Freed(a, b, {p}) && Freed(b, c, ps - {p}) && p in ps
    ensures Freed(a, c, ps)
  {
    hide Leftover;
  }

  // ---------------------------------------------------------------- a second entry, which nobody gets

  /** `p`'s answer to the first append is on its way to `l`, which remembers one that reaches two entries. */
  ghost predicate Owed(c: Cluster, l: NodeId, p: NodeId, x: LogEntry) {
    && Owes(c, l, p, x) && p in c.nodes[l].connected && p in EngineOf(c, l).lastAe && Covered(EngineOf(c, l), p) >= 2
  }

  lemma SecondIsOwed(b: Cluster, c: Cluster, l: NodeId, p: NodeId, x: LogEntry, id: nat)
    requires l in c.nodes && SteppedAlone(b, c, l, c.nodes[l]) && Owes(b, l, p, x) && p in b.nodes[l].connected
    requires ProposedTo(b.nodes[l], c.nodes[l], [], p, id) && LogOf(b, l) == [x] && IdsBelow(b.nodes[l])
    requires c.nodes[l].connected == b.nodes[l].connected
    ensures Owed(c, l, p, x)
  {
    hide First;
    var i, answer: Message :|
      && Filed1(b.nodes[l], l, p, x, i) && answer.AppendEntriesResp? && answer.success && answer.term == x.term
      && Reply(Envelope(l, p, b.incarnation[l], i, First(l, x)), answer) in b.replies;
    assert Filed1(c.nodes[l], l, p, x, i);
  }

  lemma OthersBooked(s: Engine, p: NodeId, msg: Message, now: Instant, r: NodeId)
    requires s.role == Leader && msg.AppendEntriesResp? && msg.success && msg.term == s.Term() && p in s.lastAe
    requires r != p
    requires r in s.lastAe
    ensures var s' := HandleRpc(s, p, msg, now).engine; r in s'.lastAe && s'.lastAe[r] == s.lastAe[r]
  {
    hide CommitTarget, BuildAppendEntries;
    CommitTouches(Credit(s, p));
  }

  lemma CreditsOne(b: Cluster, l: NodeId, p: NodeId, x: LogEntry) returns (c: Cluster)
    requires Reached(b, Anything) && Leads(b, l) && Owed(b, l, p, x) && x.term == TermOf(b, l)
    ensures Follows(b, c, Anything) && c.nodes.Keys == b.nodes.Keys && c.incarnation == b.incarnation
    ensures b.replies <= c.replies && c.nodes == b.nodes[l := c.nodes[l]]
    ensures c.nodes[l].connected == b.nodes[l].connected
    ensures Leads(c, l) && TermOf(c, l) == TermOf(b, l) && LogOf(c, l) == LogOf(b, l)
    ensures MatchOf(EngineOf(c, l), p) >= 2
    ensures forall r :: r != p && Owed(b, l, r, x) ==> Owed(c, l, r, x)
  {
    hide Reached, Follows, Coupled, Protocol.Inv, NodeOk, EngineOk, NotStuck, HandleRpc, First, NextAppend;
    var h := ReachedCoupled(b, Anything);
    NodeIsOk(b, h, l, false);
    var id, answer: Message :|
      && Filed1(b.nodes[l], l, p, x, id) && answer.AppendEntriesResp? && answer.success && answer.term == x.term
      && Reply(Envelope(l, p, b.incarnation[l], id, First(l, x)), answer) in b.replies;
    var q := Envelope(l, p, b.incarnation[l], id, First(l, x));
    SuccessCredits(EngineOf(b, l), p, answer, 0);
    SuccessKeepsLog(EngineOf(b, l), p, answer, 0);
    c := DeliverAnswer(b, h, q, answer, 0, Anything);
    forall r | r != p && Owed(b, l, r, x)
      ensures Owed(c, l, r, x)
    {
      OthersBooked(EngineOf(b, l), p, answer, 0, r);
      StillOwed(b, c, l, p, r, x, id);
    }
  }

  lemma StillOwed(b: Cluster, c: Cluster, l: NodeId, p: NodeId, r: NodeId, x: LogEntry, id: nat)
    requires Owed(b, l, r, x) && r != p && Filed1(b.nodes[l], l, p, x, id) && IdsBelow(b.nodes[l])
    requires l in c.nodes && c.incarnation == b.incarnation && b.replies <= c.replies
    requires c.nodes[l].connected == b.nodes[l].connected
    requires r in EngineOf(c, l).lastAe && EngineOf(c, l).lastAe[r] == EngineOf(b, l).lastAe[r]
    requires forall i :: i in b.nodes[l].pending && i != id ==>
               i in c.nodes[l].pending && c.nodes[l].pending[i] == b.nodes[l].pending[i]
    ensures Owed(c, l, r, x)
  {
    hide First;
    var i, answer: Message :|
      && Filed1(b.nodes[l], l, r, x, i) && answer.AppendEntriesResp? && answer.success && answer.term == x.term
      && Reply(Envelope(l, r, b.incarnation[l], i, First(l, x)), answer) in b.replies;
    assert Filed1(c.nodes[l], l, r, x, i);
  }

  /** Every answer to the first append is taken for an answer to the second. */
  lemma {:induction false} AllAreCredited(b: Cluster, l: NodeId, ps: set<NodeId>, x: LogEntry) returns (c: Cluster)
    requires Reached(b, Anything) && Leads(b, l) && x.term == TermOf(b, l) && forall p :: p in ps ==> Owed(b, l, p, x)
    ensures Follows(b, c, Anything) && Reached(c, Anything) && c.nodes.Keys == b.nodes.Keys
    ensures l in c.nodes && c.nodes == b.nodes[l := c.nodes[l]] && SameLeadership(b, c, l)
    ensures LogOf(c, l) == LogOf(b, l) && forall p :: p in ps ==> MatchOf(EngineOf(c, l), p) >= 2
    decreases |ps|
  {
    hide Reached, Follows, Owed, MatchOf;
    if ps == {} {
      c := b;
      StaysPut(b, Anything);
    } else {
      var p :| p in ps;
      var c1 := CreditsOne(b, l, p, x);
      FutureIsReached(b, c1, Anything);
      c := AllAreCredited(c1, l, ps - {p}, x);
      FollowsOn(b, c1, c, Anything);
      FutureOnward(c1, c, l);
      MatchLasts(EngineOf(c1, l), EngineOf(c, l), p);
    }
  }

  lemma MatchLasts(s: Engine, s': Engine, p: NodeId)
    requires Onward(s, s') && s.role == Leader && s'.role == Leader && s'.Term() == s.Term()
    ensures MatchOf(s, p) <= MatchOf(s', p)
  {
  }

  // ---------------------------------------------------------------- a commit that only its leader holds

  /** `l` has reported an entry at index 2 that is in nobody else's log; all the others hold the same one entry, and
      could do without `l`. */
  ghost predicate Alone(c: Cluster, l: NodeId, w: NodeId, x: LogEntry) {
    && Reached(c, Anything) && l in c.nodes && w in c.nodes && w != l && NoAppends(c.nodes[w])
    && (exists y :: Safety.Reported(c, l, y) && y.index == 2 && y.term == x.term)
    && forall p :: p in Others(c, l) ==> Took(c, p, x)
  }

  lemma CommitsAlone(b: Cluster, l: NodeId, w: NodeId) returns (c: Cluster, x: LogEntry)
    requires Laden(b, l, w) && |b.nodes.Keys| >= 2
    ensures Follows(b, c, Anything) && c.nodes.Keys == b.nodes.Keys && Alone(c, l, w, x)
  {
    hide Reached, Follows, Laden, Offered, OfferedTo, OnlyEngines, Took, Owes, Owed, MatchOf, Alone;
    LadenFacts(b, l, w);
    x := LogEntry(1, TermOf(b, l), []);
    var c1 := OffersFirst(b, l, w);
    var ps := Others(b, l);
    OfferedToAll(b, c1, l, w, ps, x);
    var c2 := AllTakeFirst(c1, l, ps, x);
    var c3 := LeftoversGo(c1, c2, l, ps, x);
    var c4 := SendsSecond(c3, l, ps, x);
    c := AllAreCredited(c4, l, ps, x);
    StillLeads(b, c1, c2, c3, c4, c, l);
    FollowsOn(b, c1, c2, Anything);
    FollowsOn(b, c2, c3, Anything);
    FollowsOn(b, c3, c4, Anything);
    FollowsOn(b, c4, c, Anything);
    AloneInTheEnd(b, c1, c2, c, l, w, ps, x);
  }

  lemma LadenFacts(c: Cluster, l: NodeId, w: NodeId)
    requires Laden(c, l, w)
    ensures Leads(c, l) && w in c.nodes && w != l
  {
  }

  lemma OfferedToAll(b: Cluster, c: Cluster, l: NodeId, w: NodeId, ps: set<NodeId>, x: LogEntry)
    requires Laden(b, l, w) && ps == Others(b, l) && x == LogEntry(1, TermOf(b, l), [])
    requires c.nodes.Keys == b.nodes.Keys && SameLeadership(b, c, l) && Offered(c, l, LogEntry(1, TermOf(c, l), []))
    ensures Reached(c, Anything) && Leads(c, l) && ps == Others(c, l) && x == LogEntry(1, TermOf(c, l), [])
    ensures Offered(c, l, x) && forall p :: p in ps ==> p in c.nodes && p != l && OfferedTo(c, l, p, x)
  {
    hide Reached, Follows, OfferedTo, Leftover, FreshBooks, NoAppends, Blank;
  }

  lemma StillLeads(b: Cluster, c1: Cluster, c2: Cluster, c3: Cluster, c4: Cluster, c: Cluster, l: NodeId)
    requires SameLeadership(b, c1, l) && OnlyEngines(c1, c2, Others(b, l)) && Follows(c1, c2, Anything)
    requires Follows(c2, c3, Anything) && l in c2.nodes && Leads(c3, l) && TermOf(c3, l) == TermOf(c2, l)
    requires SameLeadership(c3, c4, l) && SameLeadership(c4, c, l)
    ensures SameLeadership(b, c, l) && Follows(b, c1, Anything)
  {
    hide Follows;
    FollowsOn(b, c1, c2, Anything);
    FollowsOn(b, c2, c3, Anything);
    FollowsOn(b, c3, c4, Anything);
    FollowsOn(b, c4, c, Anything);
  }

  lemma AloneInTheEnd(b: Cluster, c1: Cluster, c2: Cluster, c: Cluster, l: NodeId, w: NodeId, ps: set<NodeId>,
                      x: LogEntry)
    requires Laden(b, l, w) && ps == Others(b, l) && x == LogEntry(1, TermOf(b, l), []) && |b.nodes.Keys| >= 2
    requires w in c1.nodes && c1.nodes[w] == b.nodes[w] && OnlyEngines(c1, c2, ps) && c1.nodes.Keys == b.nodes.Keys
    requires c.nodes.Keys == b.nodes.Keys && SameLeadership(b, c, l) && Reached(c, Anything)
    requires forall n :: n in c2.nodes && n != l ==> c.nodes[n] == c2.nodes[n]
    requires LogOf(c, l) == [x, LogEntry(2, x.term, [])]
    requires forall p :: p in ps ==> Took(c2, p, x) && MatchOf(EngineOf(c, l), p) >= 2
    ensures Alone(c, l, w, x)
  {
    hide Reached, Follows, FreshBooks, Leftover, Took, MatchOf;
    OthersSame(c2, c, ps, x, l);
    ReportsAlone(b, c, l, w, x, LogEntry(2, x.term, []));
  }

  lemma LeftoversGo(b: Cluster, c: Cluster, l: NodeId, ps: set<NodeId>, x: LogEntry) returns (d: Cluster)
    requires Offered(b, l, x) && ps == Others(b, l) && OnlyEngines(b, c, ps) && Reached(c, Anything)
    requires forall p :: p in ps ==> Took(c, p, x) && Owes(c, l, p, x)
    ensures Follows(c, d, Anything) && Reached(d, Anything) && d.nodes.Keys == c.nodes.Keys && Leads(d, l)
    ensures d.nodes == c.nodes[l := d.nodes[l]] && TermOf(d, l) == TermOf(c, l) == x.term && LogOf(d, l) == [x]
    ensures forall p :: p in ps ==>
              Owes(d, l, p, x) && p in d.nodes[l].connected && p !in EngineOf(d, l).inflight
  {
    hide Reached, Follows, Leftover, First;
    forall p | p in ps
      ensures Leftover(c.nodes[l], p) && p in c.nodes[l].connected
    {
      assert OfferedTo(b, l, p, x);
    }
    d := AllLeftoversFail(c, l, ps);
    forall p | p in ps
      ensures Owes(d, l, p, x)
    {
      var id, answer: Message :|
        && Filed1(c.nodes[l], l, p, x, id) && answer.AppendEntriesResp? && answer.success && answer.term == x.term
        && Reply(Envelope(l, p, c.incarnation[l], id, First(l, x)), answer) in c.replies;
      assert Filed1(d.nodes[l], l, p, x, id) by { FirstTerm(l, x); }
    }
  }

  lemma FirstTerm(l: NodeId, x: LogEntry)
    ensures First(l, x).AppendEntries? && First(l, x).term == x.term
  {
  }

  lemma SendsSecond(b: Cluster, l: NodeId, ps: set<NodeId>, x: LogEntry) returns (c: Cluster)
    requires Reached(b, Anything) && Leads(b, l) && ps == Others(b, l) && LogOf(b, l) == [x] && TermOf(b, l) == x.term
    requires forall p :: p in ps ==> Owes(b, l, p, x) && p in b.nodes[l].connected && p !in EngineOf(b, l).inflight
    ensures Follows(b, c, Anything) && Reached(c, Anything) && c.nodes.Keys == b.nodes.Keys
    ensures l in c.nodes && c.nodes == b.nodes[l := c.nodes[l]] && SameLeadership(b, c, l)
    ensures LogOf(c, l) == [x, LogEntry(2, x.term, [])] && forall p :: p in ps ==> Owed(c, l, p, x)
  {
    hide Reached, Follows, Owes, Owed, ProposedTo, Coupled, IdsBelow, Protocol.Inv, NodeOk, EngineOk, NotStuck;
    var h := ReachedCoupled(b, Anything);
    NodeIsOk(b, h, l, false);
    c := ProposeAll(b, l, []);
    FutureIsReached(b, c, Anything);
    forall p | p in ps
      ensures Owed(c, l, p, x)
    {
      assert Idle(b, l, p);
      var id :| ProposedTo(b.nodes[l], c.nodes[l], [], p, id);
      SecondIsOwed(b, c, l, p, x, id);
    }
  }

  lemma OthersSame(b: Cluster, c: Cluster, ps: set<NodeId>, x: LogEntry, l: NodeId)
    requires (forall p :: p in ps ==> Took(b, p, x)) && l !in ps
    requires c.nodes.Keys == b.nodes.Keys && forall n :: n in b.nodes && n != l ==> c.nodes[n] == b.nodes[n]
    ensures forall p :: p in ps ==> Took(c, p, x)
  {
  }

  lemma ReportsAlone(b: Cluster, c: Cluster, l: NodeId, w: NodeId, x: LogEntry, y: LogEntry)
    requires Laden(b, l, w) && SameLeadership(b, c, l) && Reached(c, Anything) && c.nodes.Keys == b.nodes.Keys
    requires LogOf(c, l) == [x, y] && y.index == 2 && y.term == x.term == TermOf(c, l) && NoAppends(c.nodes[w])
    requires |b.nodes.Keys| >= 2
    requires forall p :: p in Others(b, l) ==> Took(c, p, x) && MatchOf(EngineOf(c, l), p) >= 2
    ensures Alone(c, l, w, x)
  {
    hide Reached, Follows, FreshBooks, NoAppends, Took, Leftover;
    MajorityOfOthers(b, l);
    HeldIsCommitted(c, l, Others(b, l), 2);
    BlankIsOfLog(b, l);
    LeaderReportsItsLog(b, c, l, 1);
    assert LogOf(c, l)[1] == y;
  }

  lemma BlankIsOfLog(c: Cluster, l: NodeId)
    requires Reached(c, Anything) && l in c.nodes && CommitOf(c, l) == 0
    ensures l in c.applied && OfLog(EngineOf(c, l), c.applied[l])
  {
    hide Reached, Coupled;
    var h := ReachedCoupled(c, Anything);
    NodeListed(c, h, l);
    AppliedInOrder(c, l);
  }

  // ---------------------------------------------------------------- the others go on without it

  /** `w` leads the others, with its own entry at index 2 on the way to all of them. */
  ghost predicate LeadsOn(b: Cluster, c: Cluster, w: NodeId, ps: set<NodeId>, z: LogEntry) {
    && Reached(b, Anything) && SameLeadership(b, c, w) && CommitOf(b, w) == 0 && Reached(c, Anything)
    && |LogOf(c, w)| == 2 && LogOf(c, w)[1] == z && z.index == 2 && z.term == TermOf(c, w)
    && forall p :: p in ps ==> Open(c, w, p)
  }

  lemma TookFavours(c: Cluster, x: NodeId, p: NodeId, e: LogEntry)
    requires Took(c, x, e) && Took(c, p, e) && p != x && p in c.nodes[x].connected
    ensures Favours(c, x, p)
  {
  }

  lemma OthersElect(b: Cluster, l: NodeId, w: NodeId, ps: set<NodeId>, x: LogEntry) returns (c: Cluster)
    requires Alone(b, l, w, x) && ps == Others(b, l) - {w} && |b.nodes.Keys| >= 3
    ensures Follows(b, c, Anything) && Reached(c, Anything) && c.nodes.Keys == b.nodes.Keys
    ensures Leads(c, w) && FreshBooks(EngineOf(c, w)) && NoAppends(c.nodes[w])
    ensures TermOf(c, w) == x.term + 1 && LogOf(c, w) == [x] && CommitOf(c, w) == 0
    ensures forall p :: p in ps ==> Tracks(c, w, p) && p in c.nodes[w].connected && TermOf(c, p) <= TermOf(c, w)
  {
    hide Reached, Follows, Took, Favours, Campaigned, FreshBooks, NoAppends;
    var c1 := ConnectAll(b, w, ps);
    FutureIsReached(b, c1, Anything);
    EnoughOthers(b, l, w, ps);
    assert w in Others(b, l);
    forall p | p in ps
      ensures Favours(c1, w, p)
    {
      assert p in Others(b, l) && Took(b, p, x) && Took(b, w, x);
      TookBy(b, c1, p, x);
      TookBy(b, c1, w, x);
      TookFavours(c1, w, p, x);
    }
    assert EngineOf(c1, w).role != Leader by {
      assert Took(b, w, x);
      TookLeadsNot(b, w, x);
    }
    c := CanWin(c1, w, ps);
    FollowsOn(b, c1, c, Anything);
    ElectedOn(b, c1, c, l, w, ps, x);
  }

  lemma TookLeadsNot(c: Cluster, p: NodeId, x: LogEntry)
    requires Took(c, p, x)
    ensures EngineOf(c, p).role != Leader
  {
  }

  lemma TookBy(b: Cluster, c: Cluster, p: NodeId, x: LogEntry)
    requires Took(b, p, x) && p in c.nodes && EngineOf(c, p) == EngineOf(b, p)
    ensures Took(c, p, x)
  {
  }

  lemma EnoughOthers(c: Cluster, l: NodeId, w: NodeId, ps: set<NodeId>)
    requires l in c.nodes && w in c.nodes && w != l && ps == Others(c, l) - {w} && |c.nodes.Keys| >= 3
    ensures ps != {} && w !in ps && |ps| + 1 >= |c.nodes.Keys| / 2 + 1
  {
    assert c.nodes.Keys == ps + {l, w};
    assert |ps + {l, w}| == |ps| + 2;
  }

  lemma ElectedOn(b: Cluster, c1: Cluster, c: Cluster, l: NodeId, w: NodeId, ps: set<NodeId>, x: LogEntry)
    requires Alone(b, l, w, x) && ps == Others(b, l) - {w}
    requires SteppedAlone(b, c1, w, b.nodes[w].(connected := b.nodes[w].connected + ps))
    requires Campaigned(c1, c, w, ps) && Leads(c, w)
    ensures c.nodes.Keys == b.nodes.Keys && NoAppends(c.nodes[w])
    ensures TermOf(c, w) == x.term + 1 && LogOf(c, w) == [x] && CommitOf(c, w) == 0
    ensures forall p :: p in ps ==> Tracks(c, w, p) && p in c.nodes[w].connected && TermOf(c, p) <= TermOf(c, w)
  {
    hide Reached;
    assert w in Others(b, l) && Took(b, w, x);
    forall p | p in ps
      ensures Tracks(c, w, p) && TermOf(c, p) <= TermOf(c, w)
    {
      assert Took(b, p, x);
      assert Stood(c1.nodes[p], c.nodes[p], TermOf(c1, w) + 1, true);
    }
  }

  lemma ProposesOn(b: Cluster, w: NodeId, ps: set<NodeId>, x: LogEntry) returns (c: Cluster, z: LogEntry)
    requires Reached(b, Anything) && Leads(b, w) && FreshBooks(EngineOf(b, w)) && NoAppends(b.nodes[w])
    requires LogOf(b, w) == [x] && CommitOf(b, w) == 0
    requires forall p :: p in ps ==> Tracks(b, w, p) && p in b.nodes[w].connected && TermOf(b, p) <= TermOf(b, w)
    ensures Follows(b, c, Anything) && c.nodes.Keys == b.nodes.Keys && LeadsOn(b, c, w, ps, z)
  {
    hide Reached, Follows, Coupled;
    c := ProposeAll(b, w, []);
    z := LogEntry(2, TermOf(b, w), []);
    FutureIsReached(b, c, Anything);
    forall p | p in ps
      ensures Open(c, w, p)
    {
      assert NothingPending(b.nodes[w], p);
      assert SameLeadership(b, c, w);
    }
  }

  /** Two nodes have applied different entries at one index. */
  ghost predicate Diverged(c: Cluster) {
    exists m, n, a: LogEntry, b: LogEntry ::
      Safety.Reported(c, m, a) && Safety.Reported(c, n, b) && a.index == b.index && a != b
  }

  lemma OthersCommit(b: Cluster, c: Cluster, l: NodeId, w: NodeId, ps: set<NodeId>, y: LogEntry, z: LogEntry)
    returns (d: Cluster)
    requires LeadsOn(b, c, w, ps, z) && |ps| + 1 >= |c.nodes.Keys| / 2 + 1
    requires Safety.Reported(c, l, y) && y.index == 2 && y.term != z.term
    ensures Follows(c, d, Anything) && Diverged(d)
  {
    hide Reached, Follows, Open, InSync;
    d := QuorumCommits(c, w, ps, Anything);
    BlankIsOfLog(b, w);
    FollowsOn(b, c, d, Anything);
    assert SameLeadership(b, d, w);
    LeaderReportsItsLog(b, d, w, 1);
    ReportsLast(c, d, l, y);
    assert Safety.Reported(d, l, y) && Safety.Reported(d, w, z);
  }

  lemma ReportsLast(b: Cluster, c: Cluster, n: NodeId, x: LogEntry)
    requires Safety.Reported(b, n, x) && Follows(b, c, Anything)
    ensures Safety.Reported(c, n, x)
  {
    hide Enabled, React;
    var q := (d: Cluster) => Safety.Reported(d, n, x);
    forall d, e | q(d) && Enabled(d, e) && Permits(Anything, d, e)
      ensures q(Step(d, e))
    {
      var entries :| (n, Committed(entries)) in d.emitted && x in entries;
      assert (n, Committed(entries)) in Step(d, e).emitted;
    }
    assert Preserved(q, Anything);
    assert q(c);
  }

  /** Any cluster of three or more voters can come to apply different commands at one index. */
  lemma ThreeCanDiverge(configs: map<NodeId, Config>, now: Instant) returns (c: Cluster)
    requires ConfigsOk(configs) && |configs.Keys| >= 3
    ensures Follows(Start(configs, now), c, Anything) && Diverged(c)
  {
    hide Reached, Follows, Start, ConfigsOk, Laden, FreshBooks, NoAppends, LeadsOn, Diverged, Took;
    var l, w := TwoOf(configs.Keys);
    var b := Start(configs, now);
    var c1 := BecomesLaden(configs, now, l, w);
    var c2, x := CommitsAlone(c1, l, w);
    var ps := Others(c2, l) - {w};
    EnoughOthers(c2, l, w, ps);
    var c3 := OthersElect(c2, l, w, ps, x);
    var c4, z := ProposesOn(c3, w, ps, x);
    var y :| Safety.Reported(c2, l, y) && y.index == 2 && y.term == x.term;
    FollowsOn(c2, c3, c4, Anything);
    ReportsLast(c2, c4, l, y);
    assert y.term != z.term by { LaterTerm(c3, c4, w, ps, z); }
    c := OthersCommit(c3, c4, l, w, ps, y, z);
    FollowsOn(b, c1, c2, Anything);
    FollowsOn(b, c2, c4, Anything);
    FollowsOn(b, c4, c, Anything);
  }

  lemma LaterTerm(b: Cluster, c: Cluster, w: NodeId, ps: set<NodeId>, z: LogEntry)
    requires LeadsOn(b, c, w, ps, z)
    ensures w in b.nodes && z.term == TermOf(b, w)
  {
    hide Reached, Follows, Open;
  }

  lemma TwoOf(s: set<NodeId>) returns (a: NodeId, b: NodeId)
    requires |s| >= 2
    ensures a in s && b in s && a != b
  {
    a :| a in s;
    assert s == (s - {a}) + {a};
    b :| b in s - {a};
  }

  // ---------------------------------------------------------------- what the size of a cluster decides

  lemma TwoCannotDiverge(configs: map<NodeId, Config>, now: Instant, c: Cluster)
    requires ConfigsOk(configs) && |configs.Keys| <= 2 && Follows(Start(configs, now), c, Anything)
    ensures !Diverged(c)
  {
    hide Reached, Follows, ConfigsOk;
    var b := Start(configs, now);
    StartIsReached(configs, now, Anything);
    StartIsBlank(configs, now);
    Guards.WhatSuffices(b, c, Anything);
    if Diverged(c) {
      var m, n, x: LogEntry, y: LogEntry :|
        Safety.Reported(c, m, x) && Safety.Reported(c, n, y) && x.index == y.index && x != y;
      StateMachineSafety(c, m, n, x, y);
      assert false;
    }
  }

  /** Without any guard, the state machines of a cluster are safe in every run if and only if it has at most two voters.
      */
  lemma SizeDecides(configs: map<NodeId, Config>, now: Instant)
    requires ConfigsOk(configs)
    ensures (forall c :: Follows(Start(configs, now), c, Anything) ==> !Diverged(c)) <==> |configs.Keys| <= 2
  {
    hide Follows, ConfigsOk, Start, Diverged;
    if |configs.Keys| <= 2 {
      forall c | Follows(Start(configs, now), c, Anything)
        ensures !Diverged(c)
      {
        TwoCannotDiverge(configs, now, c);
      }
    } else {
      var c := ThreeCanDiverge(configs, now);
    }
  }
}
