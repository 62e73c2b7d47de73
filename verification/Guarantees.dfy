/** What a node can rely on in every reached state: its books about its peers, its requests and its storage. */
module Guarantees {
  import opened Types
  import opened LogSpec
  import opened Protocol
  import opened Commitment
  import opened EngineSpec
  import opened NodeSpec
  import opened Cluster
  import opened Progress
  import opened Coupling
  import opened EngineSteps
  import opened Execution
  import opened Events
  import opened Reachability
  import opened Safety
  import opened Tenure
  import Membership

  // ---------------------------------------------------------------- committed entries are never truncated

  function EngineOf(c: Cluster, n: NodeId): Engine
    requires n in c.nodes
  {
    c.nodes[n].engine
  }

  /** An append that its addressee will not reject. */
  predicate Acceptable(c: Cluster, q: Envelope) {
    && q in c.requests && q.dst in c.nodes && q.msg.AppendEntries? && q.msg.term >= TermOf(c, q.dst)
    && PrevMatches(LogOf(c, q.dst), q.msg.prevLogIndex, q.msg.prevLogTerm)
  }

  /** Where the merge meets a conflict, it is beyond everything committed: the truncation assertion never fires. */
  lemma CommittedNeverTruncated(c: Cluster, q: Envelope)
    requires Acceptable(c, q) && Reached(c, Acked)
    ensures match ConflictAt(LogOf(c, q.dst), q.msg.prevLogIndex, q.msg.entries)
            case Some(index) => index > CommitOf(c, q.dst)
            case None => true
  {
    hide Coupled, Reached, Inv, RequestOk, Secure, Agreeing;
    var h := ReachedCoupled(c, Acked);
    RequestIsOk(c, h, q, true);
    AppendIsCut(c, h, q, true);
    CommittedIsSecure(c, h, q.dst);
    var log, source := LogOf(c, q.dst), h.reigns[q.msg.term].log;
    SecureInReign(c, h, q.dst, q.msg.term);
    var k := Agreeing(log, q.msg.prevLogIndex, q.msg.entries);
    if k < |q.msg.entries| {
      assert q.msg.entries[k] == source[q.msg.prevLogIndex + k];
    }
    forall i | 0 <= i < CommitOf(c, q.dst)
      ensures log[i] == source[i]
    {
      assert log[i] == log[..CommitOf(c, q.dst)][i];
    }
  }

  lemma SecureInReign(c: Cluster, h: History, n: NodeId, t: Term)
    requires n in c.nodes && CommitOf(c, n) <= |LogOf(c, n)| && TermOf(c, n) <= t && t in h.reigns
    requires Coupled(c, h, true)
    ensures LogOf(c, n)[..CommitOf(c, n)] <= h.reigns[t].log
  {
    hide Coupled, Inv, Backed;
    CoupledInv(c, h, true);
    CommittedIsSecure(c, h, n);
    BackedIsInReign(h, LogOf(c, n)[..CommitOf(c, n)], TermOf(c, n), t);
  }

  // ---------------------------------------------------------------- storage never refuses

  /** Entries of every append ever sent carry consecutive indices from just after its previous index. */
  lemma AppendsAreContiguous(c: Cluster, q: Envelope)
    requires q in c.requests && q.msg.AppendEntries? && Reached(c, Anything)
    ensures Contiguous(q.msg.entries, q.msg.prevLogIndex + 1)
  {
    hide Coupled, Reached;
    var h := ReachedCoupled(c, Anything);
    var source := AppendSource(c, h, q, false);
    forall i | 0 <= i < |q.msg.entries|
      ensures q.msg.entries[i].index == q.msg.prevLogIndex + 1 + i
    {
      assert EntrySourced(h, source, q.msg.prevLogIndex + i);
    }
  }

  /** Whatever part of an accepted batch is handed to storage, persisting it succeeds. */
  lemma PersistNeverFails(c: Cluster, q: Envelope)
    requires Acceptable(c, q) && Reached(c, Anything)
    ensures var log, prev := LogOf(c, q.dst), q.msg.prevLogIndex;
            var k := Agreeing(log, prev, q.msg.entries);
            prev + k <= |log| && Persist(log[..prev + k], q.msg.entries[k..]).error == None
  {
    hide Reached, Agreeing;
    AppendsAreContiguous(c, q);
    var log, prev := LogOf(c, q.dst), q.msg.prevLogIndex;
    var k := Agreeing(log, prev, q.msg.entries);
    if k < |q.msg.entries| {
      assert Contiguous(q.msg.entries[k..], prev + k + 1);
      PersistIsKeepThenAppend(log[..prev + k], q.msg.entries[k..], prev + k + 1);
    }
  }

  // ---------------------------------------------------------------- late appends

  /** The log the addressee has after accepting an append. */
  function Merged(c: Cluster, q: Envelope): Log
    requires Acceptable(c, q)
  {
    Merge(LogOf(c, q.dst), q.msg.prevLogIndex, q.msg.entries)
  }

  function Reach(q: Envelope): Index
    requires q.msg.AppendEntries?
  {
    q.msg.prevLogIndex + |q.msg.entries|
  }

  /** The append is cut from a log that is sourced, as is the log it is merged into. */
  ghost predicate CutFrom(h: History, source: Log, q: Envelope, log: Log) {
    && q.msg.AppendEntries? && Sourced(h, source) && Sourced(h, log) && Inv(h)
    && Reach(q) <= |source| && q.msg.entries == source[q.msg.prevLogIndex..Reach(q)]
    && q.msg.prevLogTerm == TermAt(source, q.msg.prevLogIndex)
  }

  lemma CutFromReign(c: Cluster, h: History, q: Envelope)
    requires Acceptable(c, q) && Coupled(c, h, false)
    ensures q.msg.term in h.reigns && CutFrom(h, h.reigns[q.msg.term].log, q, LogOf(c, q.dst))
  {
    hide Coupled, Inv, RequestOk, Sourced;
    RequestIsOk(c, h, q, false);
    AppendIsCut(c, h, q, false);
    CoupledInv(c, h, false);
    NodeLogSourced(c, h, q.dst, false);
    ReignSourced(h, q.msg.term);
  }

  /** Accepting an append takes over its leader's log as far as it reaches, unless that is already there. */
  lemma MergedFollowsSource(c: Cluster, h: History, q: Envelope, source: Log)
    requires Acceptable(c, q) && CutFrom(h, source, q, LogOf(c, q.dst))
    ensures Merged(c, q) == if source[..Reach(q)] <= LogOf(c, q.dst) then LogOf(c, q.dst) else source[..Reach(q)]
  {
    hide Inv, Sourced, Merge;
    MergeOfSourced(h, LogOf(c, q.dst), source, q.msg.prevLogIndex, Reach(q));
  }

  /** The log after accepting `first` and then `second`. */
  function MergedTwice(c: Cluster, first: Envelope, second: Envelope): Log
    requires Acceptable(c, first) && second.msg.AppendEntries? && second.msg.prevLogIndex <= |Merged(c, first)|
  {
    Merge(Merged(c, first), second.msg.prevLogIndex, second.msg.entries)
  }

  /** A late or repeated append of the same term that reaches no further changes nothing. */
  lemma LateAppendIsHarmless(c: Cluster, first: Envelope, second: Envelope)
    requires Acceptable(c, first) && Acceptable(c, second) && first.dst == second.dst
    requires first.msg.term == second.msg.term
    requires Reach(second) <= Reach(first) && Reached(c, Anything)
    ensures second.msg.prevLogIndex <= |Merged(c, first)| && MergedTwice(c, first, second) == Merged(c, first)
  {
    hide Coupled, Reached, Inv, Sourced, Merge;
    var h := ReachedCoupled(c, Anything);
    CutFromReign(c, h, first);
    CutFromReign(c, h, second);
    var log, source := Merged(c, first), h.reigns[first.msg.term].log;
    MergedFollowsSource(c, h, first, source);
    BatchAlreadyThere(log, source, second.msg.prevLogIndex, Reach(second));
  }

  lemma BatchAlreadyThere(log: Log, source: Log, prev: Index, upTo: Index)
    requires prev <= upTo <= |source| && source[..upTo] <= log
    ensures Merge(log, prev, source[prev..upTo]) == log
  {
    hide Agreeing;
    AgreeingIsAgrees(log, prev, source[prev..upTo]);
    forall i | 0 <= i < upTo - prev
      ensures log[prev + i].term == source[prev..upTo][i].term
    {
      assert source[..upTo][prev + i] == log[prev + i];
    }
  }

  /** An append of the term in which the log ends never shortens the log. */
  lemma SameTermAppendOnlyExtends(c: Cluster, q: Envelope)
    requires Acceptable(c, q) && LastTerm(LogOf(c, q.dst)) == q.msg.term && Reached(c, Anything)
    ensures LogOf(c, q.dst) <= Merged(c, q)
  {
    hide Coupled, Reached, Merge;
    var h := ReachedCoupled(c, Anything);
    CutFromReign(c, h, q);
    MergedFollowsSource(c, h, q, h.reigns[q.msg.term].log);
    var log := LogOf(c, q.dst);
    if log != [] {
      assert EntrySourced(h, log, |log| - 1);
      assert log[..|log|] == log;
    }
  }

  // ---------------------------------------------------------------- the leader's books

  /** Peers a leader keeps books on. */
  predicate Tracks(c: Cluster, l: NodeId, p: NodeId) {
    Leads(c, l) && p in c.nodes && p != l
  }

  lemma LeaderBook(c: Cluster, h: History, l: NodeId, p: NodeId, acked: bool)
    requires Tracks(c, l, p) && Coupled(c, h, acked)
    ensures var s := EngineOf(c, l); p in s.nextIndex && p in s.matchIndex && PeerOk(s, p)
  {
    hide Coupled, Inv, NodeOk, EngineOk, PeerOk;
    NodeIsOk(c, h, l, acked);
    CoupledInv(c, h, acked);
    LeaderBooks(h, l, EngineOf(c, l), acked);
  }

  lemma LeaderBooks(h: History, l: NodeId, s: Engine, acked: bool)
    requires s.role == Leader && EngineOk(h, l, s, acked)
    ensures s.nextIndex.Keys == h.voters - {l} && s.matchIndex.Keys == h.voters - {l}
    ensures forall p :: p in s.nextIndex ==> PeerOk(s, p)
  {
    hide IdentityOk, DurableOk, RoleOk, PeerOk, Secure;
  }

  /** A leader can always build the next append for any other voter. */
  lemma LeaderCanAlwaysBuild(c: Cluster, l: NodeId, p: NodeId)
    requires Tracks(c, l, p) && Reached(c, Anything)
    ensures BuildAppendEntries(EngineOf(c, l), p).Some?
  {
    hide Coupled, Reached;
    var h := ReachedCoupled(c, Anything);
    LeaderBook(c, h, l, p, false);
  }

  /** Between what is known to match and the end of the log lies the next index, in every run. */
  lemma BooksAreOrdered(c: Cluster, l: NodeId, p: NodeId)
    requires Tracks(c, l, p) && Reached(c, Anything)
    ensures var s := EngineOf(c, l);
            p in s.nextIndex && p in s.matchIndex && s.matchIndex[p] + 1 <= s.nextIndex[p] <= |s.log| + 1
  {
    hide Coupled, Reached;
    var h := ReachedCoupled(c, Anything);
    LeaderBook(c, h, l, p, false);
  }

  // ---------------------------------------------------------------- one leadership

  /** `b` and `c` are moments of the same leadership of `l`. */
  ghost predicate SameLeadership(b: Cluster, c: Cluster, l: NodeId) {
    Leads(b, l) && Leads(c, l) && TermOf(b, l) == TermOf(c, l) && Follows(b, c, Anything)
  }

  /** At some moment of this leadership no append to `p` was pending. */
  ghost predicate Uncluttered(c: Cluster, l: NodeId, p: NodeId) {
    exists b :: Reached(b, Anything) && SameLeadership(b, c, l) && NothingPending(b.nodes[l], p)
  }

  /** At some moment of this leadership no append to `p` was pending and nothing was credited to `p`: at its start,
      unless an append of an earlier leadership was left over, or later, when such a leftover was gone before the
      first success of `p`. */
  ghost predicate BeganClear(c: Cluster, l: NodeId, p: NodeId) {
    exists b :: Reached(b, Anything) && SameLeadership(b, c, l) && NothingPending(b.nodes[l], p)
                && MatchOf(EngineOf(b, l), p) == 0
  }

  lemma UnclutteredTidy(c: Cluster, l: NodeId, p: NodeId)
    requires Uncluttered(c, l, p)
    ensures Reached(c, Anything) && Leads(c, l) && Tidy(c.nodes[l], p)
  {
    hide Coupled, Reached, Follows, Inv, NotStuck;
    var b :| Reached(b, Anything) && SameLeadership(b, c, l) && NothingPending(b.nodes[l], p);
    FutureIsReached(b, c, Anything);
    var h := ReachedCoupled(b, Anything);
    var h' := FutureInStep(b, h, c, l, p, false);
  }

  lemma BeganClearInStep(c: Cluster, l: NodeId, p: NodeId) returns (h: History)
    requires BeganClear(c, l, p)
    ensures Reached(c, Anything) && Leads(c, l) && Coupled(c, h, false) && InStep(h, c.nodes[l], p, true)
  {
    hide Coupled, Reached, Follows, Inv;
    var b :| Reached(b, Anything) && SameLeadership(b, c, l) && NothingPending(b.nodes[l], p)
             && MatchOf(EngineOf(b, l), p) == 0;
    FutureIsReached(b, c, Anything);
    var h0 := ReachedCoupled(b, Anything);
    h := FutureInStep(b, h0, c, l, p, true);
  }

  /** A leadership that began clear of a peer stays one. */
  lemma BeganClearOn(b: Cluster, c: Cluster, l: NodeId, p: NodeId)
    requires BeganClear(b, l, p) && SameLeadership(b, c, l)
    ensures BeganClear(c, l, p)
  {
    hide Reached, Follows;
    var a :| Reached(a, Anything) && SameLeadership(a, b, l) && NothingPending(a.nodes[l], p)
             && MatchOf(EngineOf(a, l), p) == 0;
    FollowsOn(a, b, c, Anything);
    assert SameLeadership(a, c, l);
  }

  lemma BeganClearUncluttered(c: Cluster, l: NodeId, p: NodeId)
    requires BeganClear(c, l, p)
    ensures Uncluttered(c, l, p)
  {
    hide Reached, SameLeadership, NothingPending;
  }

  /** The logs of `l` and `p` agree through what `l` credits `p` with. */
  ghost predicate MatchAgrees(c: Cluster, l: NodeId, p: NodeId)
    requires l in c.nodes && p in c.nodes
  {
    var m := MatchOf(EngineOf(c, l), p);
    m <= |LogOf(c, l)| && m <= |LogOf(c, p)| && LogOf(c, p)[..m] == LogOf(c, l)[..m]
  }

  /** Match indices are sound throughout a leadership that began clear of earlier appends to the peer: until the peer
      moves on to a later term, its log agrees with the leader's through the match index. */
  lemma MatchIndexIsSound(c: Cluster, l: NodeId, p: NodeId)
    requires Tracks(c, l, p) && TermOf(c, p) <= TermOf(c, l) && BeganClear(c, l, p)
    ensures MatchAgrees(c, l, p)
    ensures TermOf(c, p) < TermOf(c, l) ==> MatchOf(EngineOf(c, l), p) == 0
  {
    hide Coupled, Reached, Inv, BeganClear, Tidy;
    var h := BeganClearInStep(c, l, p);
    LeaderBook(c, h, l, p, false);
    LeaderOwnsReign(c, h, l, false);
    NodeLogOf(c, h, p, false);
    CoupledInv(c, h, false);
    var t, m := TermOf(c, l), MatchOf(EngineOf(c, l), p);
    if m > 0 {
      AckerIsInTerm(h, p, t);
      AckedIsKept(h, p, t, m);
    }
  }

  /** Whoever acknowledged anything in a term has reached that term. */
  lemma AckerIsInTerm(h: History, n: NodeId, t: Term)
    requires Inv(h) && n in h.term && h.Ack(n, t) > 0
    ensures t <= h.term[n]
  {
    hide NodesOk, CampaignsOk, ReignsOk, AcksKept, BallotsOk, CommitsOk;
  }

  /** What a node acknowledged in its present term is in its log. */
  lemma AckedIsKept(h: History, n: NodeId, t: Term, m: nat)
    requires Inv(h) && n in h.voters && n in h.term && n in h.log && h.term[n] == t && m <= h.Ack(n, t)
    requires t in h.reigns && m <= |h.reigns[t].log|
    ensures h.reigns[t].log[..m] <= h.log[n]
  {
    hide NodesOk, CampaignsOk, ReignsOk, AckBounds, BallotsOk, CommitsOk;
    assert NodeKeeps(h, n, t);
    assert Kept(h, h.log[n], t, t + 1, m);
  }

  // ---------------------------------------------------------------- requests in flight

  /** A pending append to `p` of the node's own term. */
  ghost predicate AwaitsAppend(node: Node, p: NodeId, id: nat) {
    Awaits(node.pending, id, p, node.engine.Term())
  }

  /** No peer is stuck, in any run: whoever is marked in flight has an append of this term pending, whose answer,
      failure or time-out is still to come. */
  lemma NoPeerIsStuck(c: Cluster, n: NodeId, p: NodeId)
    requires n in c.nodes && p in EngineOf(c, n).inflight && Reached(c, Anything)
    ensures exists id :: AwaitsAppend(c.nodes[n], p, id)
  {
    hide Coupled, Reached;
    var h := ReachedCoupled(c, Anything);
    NodeIsOk(c, h, n, false);
    var id :| Awaits(c.nodes[n].pending, id, p, EngineOf(c, n).Term());
    assert AwaitsAppend(c.nodes[n], p, id);
  }

  /** Failing that request clears the mark. */
  lemma FailureClearsMark(node: Node, p: NodeId, id: nat, emit: bool)
    requires AwaitsAppend(node, p, id) && node.pending[id].kind == AppendRpc
    ensures p !in FailPending(node, id, emit).node.engine.inflight && id !in FailPending(node, id, emit).node.pending
  {
  }

  /** The pipeline is one deep and `lastAe` identifies the request: once no append to a peer was pending at some moment
      of a leadership, the peer is in flight exactly when an append to it is pending, and then that append is the only
      one, is of this term, and is what the engine remembers. */
  lemma OneAppendInFlight(c: Cluster, l: NodeId, p: NodeId)
    requires Uncluttered(c, l, p)
    ensures Leads(c, l) && (p in EngineOf(c, l).inflight <==> exists id :: AppendTo(c.nodes[l], id, p))
    ensures var node := c.nodes[l];
            forall i :: AppendTo(node, i, p) ==>
              && p in node.engine.lastAe
              && node.engine.lastAe[p] == (node.pending[i].msg.prevLogIndex, |node.pending[i].msg.entries|)
              && node.pending[i].msg.term == node.engine.Term()
              && forall j :: AppendTo(node, j, p) ==> j == i
  {
    hide Reached, Uncluttered;
    UnclutteredTidy(c, l, p);
    var node := c.nodes[l];
    if p in node.engine.inflight {
      NoPeerIsStuck(c, l, p);
      var id :| AwaitsAppend(node, p, id);
      assert AppendTo(node, id, p);
    }
  }

  /** From such a moment on, the guard against stale rejections never discards one: the next index always still
      matches the request that was answered. */
  lemma NoRejectIsStale(c: Cluster, l: NodeId, p: NodeId, id: nat)
    requires Uncluttered(c, l, p) && l in c.nodes && AppendTo(c.nodes[l], id, p)
    ensures var s := EngineOf(c, l); p in s.lastAe && NextOf(s, p) == s.lastAe[p].0 + 1
  {
    hide Reached, Uncluttered;
    UnclutteredTidy(c, l, p);
    assert Remembered(EngineOf(c, l), c.nodes[l].pending[id]);
  }

  /** A leader that has sent and credited nothing yet. */
  ghost predicate FreshBooks(s: Engine) {
    s.inflight == {} && s.lastAe == map[] && forall p :: MatchOf(s, p) == 0
  }

  /** Only the answer to a vote request makes a leader, and the new leader has nothing in flight. */
  lemma Electing(c: Cluster, h: History, e: Event)
    requires Enabled(c, e) && !Leads(c, Actor(e)) && React(c, e).node.engine.role == Leader && Coupled(c, h, false)
    ensures FreshBooks(React(c, e).node.engine) && OnlyRequests(React(c, e).node) && IdsBelow(React(c, e).node)
  {
    hide Coupled, React, OnlyRequests, NodeOk, EngineOk, Inv, FreshBooks;
    ActorExists(c, e);
    NodeIsOk(c, h, Actor(e), false);
    PendingAreRequests(c, h, Actor(e), false);
    WinningEvent(c, e);
    if e.DeliverRequest? {
      RequestKind(c, h, e.request, false);
      RequestsElectNobody(c, e);
    } else {
      WonNode(c, e);
    }
  }

  lemma RequestsElectNobody(c: Cluster, e: Event)
    requires Enabled(c, e) && e.DeliverRequest? && !Leads(c, Actor(e)) && !e.request.msg.RequestVoteResp?
    ensures React(c, e).node.engine.role != Leader
  {
    hide HandleRpc, Execute;
    var node, q := c.nodes[Actor(e)], e.request;
    var r := HandleRpc(node.engine, q.src, q.msg, e.now);
    ExecuteTouches(node.(engine := r.engine), r.actions, Some(q.src));
    if r.engine.role == Leader {
      OnlyVotesElect(node.engine, q.src, q.msg, e.now);
    }
  }

  lemma WonNode(c: Cluster, e: Event)
    requires Enabled(c, e) && e.DeliverReply? && !Leads(c, Actor(e)) && React(c, e).node.engine.role == Leader
    requires OnlyRequests(c.nodes[Actor(e)]) && IdsBelow(c.nodes[Actor(e)])
    ensures FreshBooks(React(c, e).node.engine) && OnlyRequests(React(c, e).node) && IdsBelow(React(c, e).node)
  {
    hide HandleRpc, Execute;
    var node, id := c.nodes[Actor(e)], e.reply.request.correlation;
    var r := HandleRpc(node.engine, node.pending[id].to, e.reply.msg, e.now);
    var mid := node.(engine := r.engine, pending := node.pending - {id});
    ExecuteTouches(mid, r.actions, None);
    OnlyVotesElect(node.engine, node.pending[id].to, e.reply.msg, e.now);
    ExecuteQuiet(mid, r.actions, None);
  }

  lemma WinningEvent(c: Cluster, e: Event)
    requires Enabled(c, e) && !Leads(c, Actor(e)) && React(c, e).node.engine.role == Leader
    ensures e.DeliverReply? || e.DeliverRequest?
  {
    hide Execute, FailAll, HandleRpc, EngineSpec.Tick, EngineSpec.Propose;
    var node := c.nodes[Actor(e)];
    match e
    case Tick(_, now) =>
      var r := EngineSpec.Tick(node.engine, now);
      TickOnward(node.engine, now);
      ExecuteTouches(node.(engine := r.engine), r.actions, None);
    case Propose(_, data) =>
      ProposeOnward(node.engine, data);
    case Disconnect(_, peer, ids) =>
      FailAllTouches(node.(connected := node.connected - {peer}), ids, false);
    case DeliverRequest(_, _) =>
    case DeliverReply(_, _) =>
    case Fail(_, _, _) =>
    case Connect(_, _) =>
    case Restart(_, _) =>
  }

  /** The event makes `l` a leader. */
  ghost predicate Wins(c: Cluster, e: Event, l: NodeId) {
    Enabled(c, e) && Actor(e) == l && !Leads(c, l) && React(c, e).node.engine.role == Leader
  }

  lemma WinnerLeads(c: Cluster, e: Event, l: NodeId)
    requires Wins(c, e, l)
    ensures Leads(Step(c, e), l) && Step(c, e).nodes[l] == React(c, e).node
  {
    hide React;
    ActorAfter(c, e);
  }

  /** A winner has credited nobody; without a leftover append to `p` its leadership begins clear of `p`. */
  lemma WinBeginsClear(c: Cluster, e: Event, l: NodeId, p: NodeId)
    requires Wins(c, e, l) && Reached(c, Anything)
    ensures Leads(Step(c, e), l) && FreshBooks(EngineOf(Step(c, e), l)) && Reached(Step(c, e), Anything)
    ensures NothingPending(Step(c, e).nodes[l], p) ==> BeganClear(Step(c, e), l, p)
  {
    hide Coupled, React, Step, Enabled, Reached, NothingPending, Follows;
    var h := ReachedCoupled(c, Anything);
    Electing(c, h, e);
    WinnerLeads(c, e, l);
    StepIsReached(c, e, Anything);
    StaysPut(Step(c, e), Anything);
  }

  /** In a clean run every leadership begins clear of every peer. */
  lemma CleanRunsBeginClear(c: Cluster, l: NodeId, p: NodeId)
    requires Tracks(c, l, p) && Reached(c, Clean)
    ensures BeganClear(c, l, p)
  {
    hide Reached, BeganClear, Preserved, Start, ConfigsOk;
    var q := (x: Cluster) => AllClear(x);
    forall configs, now | ConfigsOk(configs)
      ensures q(Start(configs, now))
    {
      StartIsReached(configs, now, Clean);
      StartFollows(configs, now);
    }
    ClearGoesOn();
    assert q(c) by { ReachedHas(c, q, Clean); }
  }

  ghost predicate AllClear(c: Cluster) {
    Reached(c, Clean) && forall l, p :: Leads(c, l) ==> BeganClear(c, l, p)
  }

  lemma ClearGoesOn()
    ensures Preserved((c: Cluster) => AllClear(c), Clean)
  {
    hide Reached, BeganClear, Step, React, Enabled, WinsWithLeftovers;
    var q := (c: Cluster) => AllClear(c);
    forall c, e | q(c) && Enabled(c, e) && !WinsWithLeftovers(c, e)
      ensures q(Step(c, e))
    {
      StepIsReached(c, e, Clean);
      forall l, p | Leads(Step(c, e), l)
        ensures BeganClear(Step(c, e), l, p)
      {
        ClearStep(c, e, l, p);
      }
    }
  }

  lemma ClearStep(c: Cluster, e: Event, l: NodeId, p: NodeId)
    requires Enabled(c, e) && !WinsWithLeftovers(c, e) && AllClear(c) && Leads(Step(c, e), l)
    ensures BeganClear(Step(c, e), l, p)
  {
    hide Reached, BeganClear, Step, React, Enabled, WinsWithLeftovers;
    SameNodes(c, e);
    ReachedUnguarded(c, Clean);
    if Leads(c, l) {
      LeadershipLasts(c, e, l);
      ClearLasts(c, Step(c, e), e, l, p);
    } else {
      NewLeaderActed(c, e, l);
      WinBeginsClear(c, e, l, p);
      WinLeavesNothing(c, e, l, p);
    }
  }

  lemma NewLeaderActed(c: Cluster, e: Event, l: NodeId)
    requires Enabled(c, e) && !Leads(c, l) && Leads(Step(c, e), l)
    ensures Wins(c, e, l)
  {
    hide React;
    if l != Actor(e) {
      assert l in c.nodes;
      BystanderAfter(c, e, l);
    } else {
      ActorAfter(c, e);
    }
  }

  lemma WinLeavesNothing(c: Cluster, e: Event, l: NodeId, p: NodeId)
    requires Wins(c, e, l) && !WinsWithLeftovers(c, e) && Reached(c, Anything)
    ensures l in Step(c, e).nodes && NothingPending(Step(c, e).nodes[l], p)
  {
    hide React, Step, Reached, Coupled, FreshBooks;
    var h := ReachedCoupled(c, Anything);
    Electing(c, h, e);
    WinnerLeads(c, e, l);
    var node := React(c, e).node;
    forall id
      ensures !AppendTo(node, id, p)
    {
      assert id in node.pending ==> node.pending[id].kind == KindOf(node.pending[id].msg);
    }
  }

  lemma ClearLasts(c: Cluster, c': Cluster, e: Event, l: NodeId, p: NodeId)
    requires BeganClear(c, l, p) && Enabled(c, e) && c' == Step(c, e) && Leads(c', l) && TermOf(c', l) == TermOf(c, l)
    ensures BeganClear(c', l, p)
  {
    hide Reached, Follows, Enabled, Step, NothingPending;
    var b :| Reached(b, Anything) && SameLeadership(b, c, l) && NothingPending(b.nodes[l], p)
             && MatchOf(EngineOf(b, l), p) == 0;
    FollowsNext(b, c, e, Anything);
    assert SameLeadership(b, c', l);
  }

  /** A leader that still leads after an event leads the same term. */
  lemma LeadershipLasts(c: Cluster, e: Event, l: NodeId)
    requires Enabled(c, e) && Leads(c, l) && Leads(Step(c, e), l)
    ensures TermOf(Step(c, e), l) == TermOf(c, l)
  {
    hide React, Enabled, Step;
    if l == Actor(e) {
      ActorAfter(c, e);
      LeaderKeepsTerm(c, e);
    } else {
      BystanderAfter(c, e, l);
    }
  }

  lemma LeaderKeepsTerm(c: Cluster, e: Event)
    requires Enabled(c, e) && Leads(c, Actor(e)) && React(c, e).node.engine.role == Leader
    ensures React(c, e).node.engine.Term() == c.nodes[Actor(e)].engine.Term()
  {
    hide Execute, FailAll, HandleRpc, ReplicateTo;
    var node := c.nodes[Actor(e)];
    var s := node.engine;
    match e
    case Tick(_, now) =>
      var r := EngineSpec.Tick(s, now);
      ReplicateTouches(s, s.Others());
      ExecuteTouches(node.(engine := r.engine), r.actions, None);
    case Propose(_, data) =>
      var s0 := s.(log := s.log + [LogEntry(|s.log| + 1, s.Term(), data)]);
      ReplicateTouches(s0, s0.Others());
      ExecuteTouches(node.(engine := Replicate(s0).engine), Replicate(s0).actions, None);
    case DeliverRequest(q, now) =>
      var r := HandleRpc(s, q.src, q.msg, now);
      ExecuteTouches(node.(engine := r.engine), r.actions, Some(q.src));
      LeaderHandles(s, q.src, q.msg, now);
    case DeliverReply(p, now) =>
      var id := p.request.correlation;
      if p.request.incarnation == c.incarnation[Actor(e)] && id in node.pending {
        var r := HandleRpc(s, node.pending[id].to, p.msg, now);
        ExecuteTouches(node.(engine := r.engine, pending := node.pending - {id}), r.actions, None);
        LeaderHandles(s, node.pending[id].to, p.msg, now);
      }
    case Disconnect(_, peer, ids) =>
      FailAllTouches(node.(connected := node.connected - {peer}), ids, false);
    case Fail(_, _, _) =>
    case Connect(_, _) =>
    case Restart(_, _) =>
  }

  lemma LeaderHandles(s: Engine, from: NodeId, msg: Message, now: Instant)
    requires s.role == Leader && HandleRpc(s, from, msg, now).engine.role == Leader
    ensures HandleRpc(s, from, msg, now).engine.Term() == s.Term()
  {
    if msg.AppendEntriesResp? {
      if msg.term == s.Term() && from in s.lastAe && msg.success {
        CommitTouches(Credit(s, from));
      }
      hide MaybeCommit;
    } else {
      hide Merge, Slice;
    }
  }

  // ---------------------------------------------------------------- next index after a success

  /** A success leaves the next index just past the match index exactly when the credited append reaches at least as
      far as what was known to match. */
  lemma CreditSetsNextIff(s: Engine, p: NodeId)
    requires p in s.lastAe
    ensures var s' := Credit(s, p);
            NextOf(s', p) == MatchOf(s', p) + 1 <==> s.lastAe[p].0 + s.lastAe[p].1 >= MatchOf(s, p)
  {
  }

  /** In every run each success does: what is credited never exceeds the extent of the last append. */
  lemma SuccessSetsNext(c: Cluster, l: NodeId, p: NodeId)
    requires Leads(c, l) && p in EngineOf(c, l).lastAe && Reached(c, Anything)
    ensures var s := Credit(EngineOf(c, l), p); NextOf(s, p) == MatchOf(s, p) + 1
  {
    hide Coupled, Reached, Inv, NodeOk, EngineOk;
    var h := ReachedCoupled(c, Anything);
    NodeIsOk(c, h, l, false);
    var s := EngineOf(c, l);
    CreditCovers(h, l, s, p);
    CreditSetsNextIff(s, p);
  }

  lemma CreditCovers(h: History, l: NodeId, s: Engine, p: NodeId)
    requires s.role == Leader && p in s.lastAe && EngineOk(h, l, s, false)
    ensures MatchOf(s, p) <= s.lastAe[p].0 + s.lastAe[p].1
  {
    hide IdentityOk, DurableOk, RoleOk, Secure;
    assert p in s.nextIndex.Keys && PeerOk(s, p);
  }

  // ---------------------------------------------------------------- a cluster of one

  /** A lone voter never becomes leader: votes are counted only when an answer arrives, and nobody answers. */
  lemma LoneVoterNeverLeads(c: Cluster, n: NodeId)
    requires |c.nodes.Keys| == 1 && Reached(c, Anything)
    ensures !Leads(c, n)
  {
    hide Coupled, Start, ConfigsOk, Preserved, NobodyLeads;
    var p := (x: Cluster) => Leaderless(x);
    forall configs, now | ConfigsOk(configs)
      ensures p(Start(configs, now))
    {
      StartCoupled(configs, now, false);
      StartFollows(configs, now);
    }
    LeaderlessGoesOn();
    assert p(c);
    assert NobodyLeads(c) ==> !Leads(c, n) by { NobodyIs(c, n); }
  }

  ghost predicate NobodyLeads(c: Cluster) {
    forall n: NodeId :: !Leads(c, n)
  }

  lemma NobodyIs(c: Cluster, n: NodeId)
    ensures NobodyLeads(c) ==> !Leads(c, n)
  {
  }

  ghost predicate Leaderless(c: Cluster) {
    (|c.nodes.Keys| == 1 ==> NobodyLeads(c)) && HasHistory(c, false)
  }

  lemma StartFollows(configs: map<NodeId, Config>, now: Instant)
    ensures NobodyLeads(Start(configs, now))
  {
  }

  lemma LeaderlessGoesOn()
    ensures Preserved((c: Cluster) => Leaderless(c), Anything)
  {
    hide Coupled, React, Enabled, NobodyLeads, Continues, Step;
    var p := (c: Cluster) => Leaderless(c);
    forall c, e | p(c) && Enabled(c, e)
      ensures p(Step(c, e))
    {
      var h: History :| Coupled(c, h, false);
      var h1 := StepKeeps(c, h, e, false);
      SameNodes(c, e);
      if |c.nodes.Keys| == 1 {
        LoneStep(c, h, e);
      }
    }
  }

  lemma SameNodes(c: Cluster, e: Event)
    requires Enabled(c, e)
    ensures Step(c, e).nodes.Keys == c.nodes.Keys
  {
    hide React;
  }

  lemma LoneStep(c: Cluster, h: History, e: Event)
    requires |c.nodes.Keys| == 1 && NobodyLeads(c) && Enabled(c, e) && Coupled(c, h, false)
    ensures NobodyLeads(Step(c, e))
  {
    hide Coupled, React, Inv;
    assert !Leads(c, Actor(e));
    if React(c, e).node.engine.role == Leader {
      WinningEvent(c, e);
      ActorExists(c, e);
      var q := if e.DeliverRequest? then e.request else e.reply.request;
      if e.DeliverReply? {
        ReplyToRequest(c, h, e.reply, false);
      }
      TwoVoters(c, h, q);
      assert false;
    }
    forall n: NodeId
      ensures !Leads(Step(c, e), n)
    {
      assert !Leads(c, n);
    }
  }

  lemma TwoVoters(c: Cluster, h: History, q: Envelope)
    requires q in c.requests && Coupled(c, h, false)
    ensures |c.nodes.Keys| >= 2
  {
    hide Coupled, Inv, RequestOk;
    RequestIsOk(c, h, q, false);
    CoupledInv(c, h, false);
    assert {q.src, q.dst} <= c.nodes.Keys;
    Membership.SubsetSize({q.src, q.dst}, c.nodes.Keys);
  }
}
