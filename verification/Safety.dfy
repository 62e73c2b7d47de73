/** The safety properties of Raft, for every run of the cluster.
    Those about commitment need every leadership to begin without leftovers; the others hold unconditionally. */
module Safety {
  import opened Types
  import opened LogSpec
  import opened Protocol
  import opened Moves
  import opened Commitment
  import opened EngineSpec
  import opened NodeSpec
  import opened Cluster
  import opened Reachability
  import opened Coupling
  import opened Landing
  import opened EngineSteps
  import opened Events
  import M = Membership

  // ---------------------------------------------------------------- every run has a history

  function FreshHistory(voters: set<NodeId>): History {
    History(voters, map n | n in voters :: 0, map n | n in voters :: [], map[], map[], map[], map[], map[])
  }

  lemma FreshInv(voters: set<NodeId>)
    ensures Inv(FreshHistory(voters))
  {
    var h := FreshHistory(voters);
    forall n, t: Term | n in voters
      ensures NodeKeeps(h, n, t)
    {
      NothingToKeep(h, n, t, h.log[n], 1);
    }
  }

  lemma StartCoupled(configs: map<NodeId, Config>, now: Instant, acked: bool)
    requires ConfigsOk(configs)
    ensures Coupled(Start(configs, now), FreshHistory(configs.Keys), acked)
  {
    hide Inv, NodeOk, ConfigsOk;
    var c, h := Start(configs, now), FreshHistory(configs.Keys);
    FreshInv(configs.Keys);
    forall n | n in h.voters
      ensures NodeOk(c, h, n, acked)
    {
      StartNode(configs, now, n, acked);
    }
  }

  lemma StartNode(configs: map<NodeId, Config>, now: Instant, n: NodeId, acked: bool)
    requires n in configs && ConfigsOk(configs)
    ensures NodeOk(Start(configs, now), FreshHistory(configs.Keys), n, acked)
  {
    hide EngineOk, NodeOk, ConfigsOk;
    StartEngine(configs, now, n, acked);
    IdleNodeOk(Start(configs, now), FreshHistory(configs.Keys), n, acked);
  }

  lemma IdleNodeOk(c: Cluster, h: History, n: NodeId, acked: bool)
    requires n in c.nodes && n in c.incarnation && n in c.applied && c.applied[n] == []
    requires c.nodes[n].pending == map[] && c.nodes[n].engine.inflight == {} && c.nodes[n].engine.commitIndex == 0
    requires c.nodes[n].engine.role == Follower && EngineOk(h, n, c.nodes[n].engine, acked)
    ensures NodeOk(c, h, n, acked)
  {
    hide EngineOk;
  }

  lemma StartEngine(configs: map<NodeId, Config>, now: Instant, n: NodeId, acked: bool)
    requires n in configs && ConfigsOk(configs)
    ensures EngineOk(FreshHistory(configs.Keys), n, EngineSpec.New(configs[n], HardState(0, None), [], now), acked)
  {
    hide Secure, RoleOk, BooksOk, M.New;
    var h := FreshHistory(configs.Keys);
    var s := EngineSpec.New(configs[n], HardState(0, None), [], now);
    FreshEngine(h, n, s, acked);
    NothingSecure(h, n);
  }

  /** What two moments of a run have in common: reigns and committed prefixes only grow. */
  ghost predicate Later(h: History, h': History) {
    && h'.voters == h.voters && SecureKept(h, h')
    && (forall t :: t in h.reigns ==>
          t in h'.reigns && h'.reigns[t].base == h.reigns[t].base && h.reigns[t].log <= h'.reigns[t].log)
    && (forall t :: t in h.commits ==> t in h'.commits && h.commits[t] <= h'.commits[t])
    && (forall n :: n in h.term ==> n in h'.term && h.term[n] <= h'.term[n])
  }

  lemma ContinuesLater(h: History, h': History, n: NodeId)
    requires Continues(h, h', n) && NodesOk(h)
    ensures Later(h, h')
  {
    hide Inv, SecureKept, Sourced, TermsBelow;
  }

  lemma LaterTransitive(a: History, b: History, c: History)
    requires Later(a, b) && Later(b, c)
    ensures Later(a, c)
  {
    hide Secure;
    SecureKeptTransitive(a, b, c);
  }

  lemma LaterReflexive(h: History)
    ensures Later(h, h)
  {
  }

  lemma CoupledInv(c: Cluster, h: History, acked: bool)
    requires Coupled(c, h, acked)
    ensures Inv(h) && NodesOk(h) && CommitsOk(h) && c.nodes.Keys == h.voters
  {
    hide NodeOk, NetworkOk;
  }

  ghost predicate HasHistory(c: Cluster, acked: bool) {
    exists h: History :: Coupled(c, h, acked)
  }

  ghost predicate HasLater(h: History, c: Cluster, acked: bool) {
    exists h': History :: Coupled(c, h', acked) && Later(h, h')
  }

  /** Every event takes a cluster with a history to one with a later history. */
  lemma HistoriesGoOn(h: History, g: Guard)
    ensures Preserved((c: Cluster) => HasLater(h, c, g == Acked), g)
  {
    hide Coupled, Step, React, CommitsUnacknowledged, Overcredits, WinsWithLeftovers, Enabled, Later, Continues;
    var p := (c: Cluster) => HasLater(h, c, g == Acked);
    forall c, e | p(c) && Enabled(c, e) && Permits(g, c, e)
      ensures p(Step(c, e))
    {
      var h1: History :| Coupled(c, h1, g == Acked) && Later(h, h1);
      var h2 := StepKeeps(c, h1, e, g == Acked);
      CoupledInv(c, h1, g == Acked);
      ContinuesLater(h1, h2, Actor(e));
      LaterTransitive(h, h1, h2);
    }
  }

  /** Whatever becomes of a cluster has a history that goes on from the cluster's own. */
  lemma FutureCoupled(c: Cluster, h: History, c': Cluster, g: Guard) returns (h': History)
    requires Follows(c, c', g) && Coupled(c, h, g == Acked)
    ensures Coupled(c', h', g == Acked) && Later(h, h')
  {
    hide Coupled, Later, Preserved;
    var p := (x: Cluster) => HasLater(h, x, g == Acked);
    LaterReflexive(h);
    HistoriesGoOn(h, g);
    assert p(c);
    assert p(c');
    h' :| Coupled(c', h', g == Acked) && Later(h, h');
  }

  lemma HistoriesExist(g: Guard)
    ensures Preserved((c: Cluster) => HasHistory(c, g == Acked), g)
  {
    hide Coupled, Step, React, CommitsUnacknowledged, Overcredits, WinsWithLeftovers, Enabled, Continues;
    var p := (c: Cluster) => HasHistory(c, g == Acked);
    forall c, e | p(c) && Enabled(c, e) && Permits(g, c, e)
      ensures p(Step(c, e))
    {
      var h: History :| Coupled(c, h, g == Acked);
      var h' := StepKeeps(c, h, e, g == Acked);
    }
  }

  /** Every reached cluster corresponds to a Raft history. */
  lemma ReachedCoupled(c: Cluster, g: Guard) returns (h: History)
    requires Reached(c, g)
    ensures Coupled(c, h, g == Acked)
  {
    hide Coupled, Preserved, Start, ConfigsOk;
    var p := (x: Cluster) => HasHistory(x, g == Acked);
    forall configs, now | ConfigsOk(configs)
      ensures p(Start(configs, now))
    {
      StartCoupled(configs, now, g == Acked);
    }
    HistoriesExist(g);
    assert p(c);
    h :| Coupled(c, h, g == Acked);
  }

  /** Facts about one reached node. */
  lemma ReachedNode(c: Cluster, n: NodeId, g: Guard) returns (h: History)
    requires Reached(c, g) && n in c.nodes
    ensures Coupled(c, h, g == Acked) && NodeOk(c, h, n, g == Acked) && Inv(h)
    ensures EngineOk(h, n, c.nodes[n].engine, g == Acked)
  {
    hide *;
    h := ReachedCoupled(c, g);
    NodeIsOk(c, h, n, g == Acked);
  }

  // ---------------------------------------------------------------- election safety

  function TermOf(c: Cluster, n: NodeId): Term
    requires n in c.nodes
  {
    c.nodes[n].engine.Term()
  }

  function LogOf(c: Cluster, n: NodeId): Log
    requires n in c.nodes
  {
    c.nodes[n].engine.log
  }

  predicate Leads(c: Cluster, n: NodeId) {
    n in c.nodes && c.nodes[n].engine.role == Leader
  }

  ghost predicate Won(c: Cluster, n: NodeId, t: Term) {
    exists leader :: (n, RoleChanged(Leader, t, leader)) in c.emitted
  }

  lemma WinnerReigns(c: Cluster, h: History, n: NodeId, t: Term, acked: bool)
    requires Coupled(c, h, acked) && Won(c, n, t)
    ensures t in h.reigns && h.reigns[t].leader == n
  {
    hide Inv, NodeOk, RequestOk, ReplyOk;
    var leader :| (n, RoleChanged(Leader, t, leader)) in c.emitted;
    assert EmittedOk(h, n, RoleChanged(Leader, t, leader), acked);
  }

  /** Election safety: over the whole run, at most one node ever becomes leader of a term. */
  lemma ElectionSafety(c: Cluster, m: NodeId, n: NodeId, t: Term)
    requires Reached(c, Anything) && Won(c, m, t) && Won(c, n, t)
    ensures m == n
  {
    hide Coupled, Won;
    var h := ReachedCoupled(c, Anything);
    WinnerReigns(c, h, m, t, false);
    WinnerReigns(c, h, n, t, false);
  }

  /** Some answer to `candidate` grants it the vote of `voter` in `t`. */
  ghost predicate GaveVote(c: Cluster, voter: NodeId, candidate: NodeId, t: Term) {
    exists r: Reply :: r in c.replies && Grants(r, voter, candidate, t)
  }

  predicate Grants(r: Reply, voter: NodeId, candidate: NodeId, t: Term) {
    && r.request.dst == voter && r.request.src == candidate
    && r.msg.RequestVoteResp? && r.msg.voteGranted && r.msg.term == t
  }

  lemma GrantIsBallot(c: Cluster, h: History, voter: NodeId, candidate: NodeId, t: Term)
    requires Coupled(c, h, false) && GaveVote(c, voter, candidate, t)
    ensures VoteOf(h, voter, t) == Some(candidate)
  {
    hide Inv, NodeOk, RequestOk, EmittedOk;
    var r: Reply :| r in c.replies && Grants(r, voter, candidate, t);
    assert ReplyOk(c, h, r);
  }

  /** One vote per term: over the whole run, restarts included, a node grants its vote in a term to at most one
      candidate. While it is in that term, that candidate is the vote its storage holds. */
  lemma OneVotePerTerm(c: Cluster, voter: NodeId, a: NodeId, b: NodeId, t: Term)
    requires Reached(c, Anything) && GaveVote(c, voter, a, t)
    ensures GaveVote(c, voter, b, t) ==> a == b
    ensures voter in c.nodes && TermOf(c, voter) == t ==> c.nodes[voter].engine.hard.votedFor == Some(a)
  {
    hide *;
    var h := ReachedCoupled(c, Anything);
    GrantIsBallot(c, h, voter, a, t);
    if GaveVote(c, voter, b, t) {
      GrantIsBallot(c, h, voter, b, t);
    }
    if voter in c.nodes {
      StoredVote(c, h, voter);
    }
  }

  lemma StoredVote(c: Cluster, h: History, n: NodeId)
    requires Coupled(c, h, false) && n in c.nodes
    ensures c.nodes[n].engine.hard.votedFor == VoteOf(h, n, TermOf(c, n))
  {
    hide Inv, NetworkOk, NotStuck, PendingOk;
    assert NodeOk(c, h, n, false);
  }

  predicate Names(c: Cluster, n: NodeId, leader: NodeId) {
    n in c.nodes && c.nodes[n].engine.leader == Some(leader)
  }

  // ---------------------------------------------------------------- log matching

  lemma NodeLogSourced(c: Cluster, h: History, n: NodeId, acked: bool)
    requires Coupled(c, h, acked) && n in c.nodes
    ensures Sourced(h, LogOf(c, n)) && TermsBelow(LogOf(c, n), TermOf(c, n) + 1)
  {
    hide NetworkOk, RoleOk, BooksOk, Secure, CampaignsOk, ReignsOk, AcksKept, BallotsOk, CommitsOk, Sourced;
    assert NodeOk(c, h, n, acked);
  }

  /** Log matching: entries with the same index and term end identical prefixes. */
  lemma LogsMatch(c: Cluster, m: NodeId, n: NodeId, i: nat)
    requires Reached(c, Anything) && m in c.nodes && n in c.nodes && i < |LogOf(c, m)| && i < |LogOf(c, n)|
    requires LogOf(c, m)[i].term == LogOf(c, n)[i].term
    ensures LogOf(c, m)[..i + 1] == LogOf(c, n)[..i + 1]
  {
    hide Coupled, Reached;
    var h := ReachedCoupled(c, Anything);
    NodeLogSourced(c, h, m, false);
    NodeLogSourced(c, h, n, false);
    LogMatching(h, LogOf(c, m), LogOf(c, n), i);
  }

  /** Terms never decrease along any log, indices are slot numbers, and no log is ahead of its node's term. */
  lemma LogsAreOrderly(c: Cluster, n: NodeId, i: nat, j: nat)
    requires Reached(c, Anything) && n in c.nodes && i <= j < |LogOf(c, n)|
    ensures LogOf(c, n)[i].term <= LogOf(c, n)[j].term <= TermOf(c, n)
    ensures WellIndexed(LogOf(c, n))
  {
    hide Coupled, Reached;
    var h := ReachedCoupled(c, Anything);
    CoupledInv(c, h, false);
    NodeLogSourced(c, h, n, false);
    forall k | 0 <= k < |LogOf(c, n)|
      ensures LogOf(c, n)[k].index == k + 1
    {
      assert EntrySourced(h, LogOf(c, n), k);
    }
    TermsAscend(h, LogOf(c, n), i, j);
  }

  /** The log the sender of an append had, as far as the append reaches. */
  lemma AppendSource(c: Cluster, h: History, q: Envelope, acked: bool) returns (source: Log)
    requires q in c.requests && q.msg.AppendEntries? && Coupled(c, h, acked)
    ensures Sourced(h, source) && q.msg.prevLogIndex + |q.msg.entries| <= |source|
    ensures q.msg.entries == source[q.msg.prevLogIndex..q.msg.prevLogIndex + |q.msg.entries|]
    ensures q.msg.prevLogTerm == TermAt(source, q.msg.prevLogIndex)
  {
    hide Coupled, Inv, RequestOk, Sourced;
    RequestIsOk(c, h, q, acked);
    CoupledInv(c, h, acked);
    AppendIsCut(c, h, q, acked);
    source := h.reigns[q.msg.term].log;
    ReignSourced(h, q.msg.term);
  }

  lemma AppendIsCut(c: Cluster, h: History, q: Envelope, acked: bool)
    requires q.msg.AppendEntries? && RequestOk(c, h, q, acked)
    ensures q.msg.term in h.reigns && h.reigns[q.msg.term].leader == q.src
    ensures var m, source := q.msg, h.reigns[q.msg.term].log;
            && m.prevLogIndex + |m.entries| <= |source|
            && m.entries == source[m.prevLogIndex..m.prevLogIndex + |m.entries|]
            && m.prevLogTerm == TermAt(source, m.prevLogIndex)
  {
    hide Backed;
  }

  lemma ReignSourced(h: History, t: Term)
    requires t in h.reigns && Inv(h)
    ensures Sourced(h, h.reigns[t].log)
  {
    hide Sourced, NodesOk, CampaignsOk, AckBounds, AcksKept, BallotsOk, CommitsOk;
    assert ReignOk(h, t);
  }

  /** Log matching also covers every append ever sent: where a log and a batch share a term, they share everything up
      to there. */
  lemma AppendsMatchLogs(c: Cluster, q: Envelope, n: NodeId, j: nat)
    requires Reached(c, Anything) && q in c.requests && q.msg.AppendEntries? && n in c.nodes && j < |q.msg.entries|
    requires q.msg.prevLogIndex + j < |LogOf(c, n)| && LogOf(c, n)[q.msg.prevLogIndex + j].term == q.msg.entries[j].term
    ensures LogOf(c, n)[q.msg.prevLogIndex..q.msg.prevLogIndex + j + 1] == q.msg.entries[..j + 1]
    ensures TermAt(LogOf(c, n), q.msg.prevLogIndex) == q.msg.prevLogTerm
  {
    hide Coupled, Reached, Sourced;
    var h := ReachedCoupled(c, Anything);
    var source := AppendSource(c, h, q, false);
    NodeLogSourced(c, h, n, false);
    var log, i := LogOf(c, n), q.msg.prevLogIndex + j;
    assert q.msg.entries[j] == source[i];
    LogMatching(h, log, source, i);
    var prev := q.msg.prevLogIndex;
    assert log[prev..i + 1] == log[..i + 1][prev..] == source[..i + 1][prev..] == source[prev..i + 1];
    assert q.msg.entries[..j + 1] == source[prev..i + 1];
    if q.msg.prevLogIndex > 0 {
      assert log[q.msg.prevLogIndex - 1] == log[..i + 1][q.msg.prevLogIndex - 1];
    }
  }

  /** What an append says is at index `i + 1`. */
  predicate Says(m: Message, i: nat) {
    m.AppendEntries? && m.prevLogIndex <= i < m.prevLogIndex + |m.entries|
  }

  function Said(m: Message, i: nat): LogEntry
    requires Says(m, i)
  {
    m.entries[i - m.prevLogIndex]
  }

  /** And so do any two appends ever sent: where they share a term, they say the same up to there, and the later start
      of the two finds its previous term in the other. */
  lemma AppendsMatchAppends(c: Cluster, q: Envelope, r: Envelope, i: nat, k: nat)
    requires q in c.requests && r in c.requests && Says(q.msg, i) && Says(r.msg, i) && Reached(c, Anything)
    requires Said(q.msg, i).term == Said(r.msg, i).term && k <= i
    ensures Says(q.msg, k) && Says(r.msg, k) ==> Said(q.msg, k) == Said(r.msg, k)
    ensures q.msg.prevLogIndex == k + 1 && Says(r.msg, k) ==> q.msg.prevLogTerm == Said(r.msg, k).term
    ensures q.msg.prevLogIndex == r.msg.prevLogIndex ==> q.msg.prevLogTerm == r.msg.prevLogTerm
  {
    hide Coupled, Reached, Sourced;
    var h := ReachedCoupled(c, Anything);
    var a := AppendSource(c, h, q, false);
    var b := AppendSource(c, h, r, false);
    assert Said(q.msg, i) == a[i] && Said(r.msg, i) == b[i];
    LogMatching(h, a, b, i);
    assert a[k] == a[..i + 1][k] && b[k] == b[..i + 1][k];
    assert Says(q.msg, k) ==> Said(q.msg, k) == a[k];
    assert Says(r.msg, k) ==> Said(r.msg, k) == b[k];
    assert q.msg.prevLogIndex == k + 1 ==> q.msg.prevLogTerm == a[k].term;
    if q.msg.prevLogIndex == r.msg.prevLogIndex > 0 {
      var j := q.msg.prevLogIndex - 1;
      assert a[j] == a[..i + 1][j] == b[..i + 1][j] == b[j];
    }
  }

  // ---------------------------------------------------------------- state machine safety

  ghost predicate Reported(c: Cluster, n: NodeId, e: LogEntry) {
    exists entries :: (n, Committed(entries)) in c.emitted && e in entries
  }

  lemma ReportedIsChosen(c: Cluster, h: History, n: NodeId, e: LogEntry)
    requires Coupled(c, h, true) && Reported(c, n, e)
    ensures Chosen(h, e)
  {
    hide Inv, NodeOk, RequestOk, ReplyOk, Chosen;
    var entries :| (n, Committed(entries)) in c.emitted && e in entries;
    assert EmittedOk(h, n, Committed(entries), true);
  }

  /** State machine safety: over a whole run without unacknowledged commits, no two nodes ever apply different entries
      at the same index. */
  lemma StateMachineSafety(c: Cluster, m: NodeId, n: NodeId, a: LogEntry, b: LogEntry)
    requires Reached(c, Acked) && Reported(c, m, a) && Reported(c, n, b) && a.index == b.index
    ensures a == b
  {
    hide Coupled, Reached, Inv, Reported, Chosen;
    var h := ReachedCoupled(c, Acked);
    CoupledInv(c, h, true);
    ReportedIsChosen(c, h, m, a);
    ReportedIsChosen(c, h, n, b);
    ChosenIsUnique(h, a, b);
  }

  /** The sequences two nodes have applied since they started are prefixes of one another. */
  lemma AppliedComparable(c: Cluster, m: NodeId, n: NodeId)
    requires Reached(c, Acked) && m in c.nodes && n in c.nodes && m in c.applied && n in c.applied
    ensures c.applied[m] <= c.applied[n] || c.applied[n] <= c.applied[m]
  {
    hide Coupled, Reached, Inv, Backed;
    var h := ReachedCoupled(c, Acked);
    CoupledInv(c, h, true);
    AppliedIsBacked(c, h, m);
    AppliedIsBacked(c, h, n);
    BackedComparable(h, c.applied[m], c.applied[n], TermOf(c, m), TermOf(c, n));
  }

  /** What was applied is the log up to the commit index. */
  ghost predicate AppliedPrefix(c: Cluster, n: NodeId)
    requires n in c.nodes && n in c.applied
  {
    var s := c.nodes[n].engine;
    s.lastApplied == s.commitIndex <= |s.log| && c.applied[n] == s.log[..s.commitIndex]
  }

  lemma AppliedIsBacked(c: Cluster, h: History, n: NodeId)
    requires n in c.nodes && n in c.applied && Coupled(c, h, true)
    ensures Backed(h, c.applied[n], TermOf(c, n)) && AppliedPrefix(c, n)
  {
    hide Coupled, Inv, NodeOk, EngineOk, NotStuck, Backed;
    NodeIsOk(c, h, n, true);
    EngineSecure(h, n, c.nodes[n].engine);
    EngineDurable(h, n, c.nodes[n].engine, true);
  }

  /** Apply is gapless: what a node has handed out is exactly its log up to the commit index, each entry once, in
      order. */
  lemma ApplyIsGapless(c: Cluster, n: NodeId)
    requires Reached(c, Acked) && n in c.nodes && n in c.applied
    ensures AppliedPrefix(c, n) && forall i :: 0 <= i < |c.applied[n]| ==> c.applied[n][i].index == i + 1
  {
    hide Coupled, Reached, Inv;
    var h := ReachedCoupled(c, Acked);
    AppliedIsBacked(c, h, n);
    NodeLogSourced(c, h, n, true);
    var s := c.nodes[n].engine;
    forall i | 0 <= i < |c.applied[n]|
      ensures c.applied[n][i].index == i + 1
    {
      assert EntrySourced(h, s.log, i);
    }
  }

  // ---------------------------------------------------------------- committed means forever

  function CommitOf(c: Cluster, n: NodeId): Index
    requires n in c.nodes
  {
    c.nodes[n].engine.commitIndex
  }

  /** What is committed at a node reads the same at that node ever after, across restarts too. */
  lemma CommittedIsForever(c: Cluster, c': Cluster, n: NodeId)
    requires n in c.nodes && Follows(c, c', Acked) && Reached(c, Acked)
    ensures n in c'.nodes
    ensures CommitOf(c, n) <= |LogOf(c, n)| && CommitOf(c, n) <= |LogOf(c', n)|
    ensures LogOf(c', n)[..CommitOf(c, n)] == LogOf(c, n)[..CommitOf(c, n)]
  {
    hide *;
    var h := ReachedNode(c, n, Acked);
    var h' := FutureCoupled(c, h, c', Acked);
    SameVoters(c, h, c', h', n, true);
    CommittedIsSecure(c, h, n);
    CommittedIsSecure(c', h', n);
    PrefixKept(h, h', n, CommitOf(c, n));
  }

  lemma SameVoters(c: Cluster, h: History, c': Cluster, h': History, n: NodeId, acked: bool)
    requires Coupled(c, h, acked) && Coupled(c', h', acked) && Later(h, h') && n in c.nodes
    ensures n in c'.nodes
  {
    hide Inv, NodeOk, NetworkOk, SecureKept;
  }

  lemma CommittedIsSecure(c: Cluster, h: History, n: NodeId)
    requires n in c.nodes && Coupled(c, h, true)
    ensures n in h.log && n in h.term && h.log[n] == LogOf(c, n) && h.term[n] == TermOf(c, n)
    ensures Secure(h, n, CommitOf(c, n)) && CommitOf(c, n) <= |LogOf(c, n)|
  {
    hide Coupled, Inv, NodeOk, EngineOk, NotStuck, Backed;
    NodeIsOk(c, h, n, true);
    EngineSecure(h, n, c.nodes[n].engine);
    EngineDurable(h, n, c.nodes[n].engine, true);
  }

  lemma EngineSecure(h: History, n: NodeId, s: Engine)
    requires EngineOk(h, n, s, true)
    ensures Secure(h, n, s.commitIndex) && s.lastApplied == s.commitIndex
  {
    hide IdentityOk, DurableOk, RoleOk, BooksOk, Secure;
  }

  lemma EngineDurable(h: History, n: NodeId, s: Engine, acked: bool)
    requires EngineOk(h, n, s, acked)
    ensures n in h.log && n in h.term && h.log[n] == s.log && h.term[n] == s.Term()
  {
    hide IdentityOk, RoleOk, BooksOk, Secure;
  }

  lemma NodeLogOf(c: Cluster, h: History, n: NodeId, acked: bool)
    requires n in c.nodes && Coupled(c, h, acked)
    ensures n in h.log && n in h.term && h.log[n] == LogOf(c, n) && h.term[n] == TermOf(c, n)
  {
    hide Coupled, Inv, NodeOk, EngineOk, NotStuck;
    NodeIsOk(c, h, n, acked);
    EngineDurable(h, n, c.nodes[n].engine, acked);
  }

  lemma PrefixKept(h: History, h': History, n: NodeId, k: Index)
    requires Later(h, h') && Secure(h, n, k) && n in h'.log
    ensures k <= |h.log[n]| && k <= |h'.log[n]| && h'.log[n][..k] == h.log[n][..k]
  {
    hide Backed;
  }

  /** Leader completeness: what any node has committed by some moment is in the log of whoever then or later
      leads that node's term or a later one. */
  lemma LeadersAreComplete(c: Cluster, c': Cluster, n: NodeId, l: NodeId)
    requires n in c.nodes && Leads(c', l) && TermOf(c', l) >= TermOf(c, n) && Follows(c, c', Acked) && Reached(c, Acked)
    ensures CommitOf(c, n) <= |LogOf(c, n)| && LogOf(c, n)[..CommitOf(c, n)] <= LogOf(c', l)
  {
    hide *;
    var h := ReachedNode(c, n, Acked);
    var h' := FutureCoupled(c, h, c', Acked);
    CommittedIsSecure(c, h, n);
    LaterBacked(h, h', n, CommitOf(c, n));
    LeaderHolds(c', h', LogOf(c, n)[..CommitOf(c, n)], TermOf(c, n), l);
  }

  lemma LeaderHolds(c: Cluster, h: History, prefix: Log, bound: Term, l: NodeId)
    requires Leads(c, l) && bound <= TermOf(c, l) && Backed(h, prefix, bound) && Coupled(c, h, true)
    ensures prefix <= LogOf(c, l)
  {
    hide Coupled, Inv, Backed;
    CoupledInv(c, h, true);
    LeaderOwnsReign(c, h, l, true);
    BackedIsInReign(h, prefix, bound, TermOf(c, l));
  }

  lemma LeaderOwnsReign(c: Cluster, h: History, l: NodeId, acked: bool)
    requires Leads(c, l) && Coupled(c, h, acked)
    ensures TermOf(c, l) in h.reigns && h.reigns[TermOf(c, l)].leader == l && h.reigns[TermOf(c, l)].log == LogOf(c, l)
  {
    hide Coupled, Inv, NodeOk, EngineOk, NotStuck;
    NodeIsOk(c, h, l, acked);
    LeaderReigns(h, l, c.nodes[l].engine, acked);
  }

  lemma LeaderReigns(h: History, l: NodeId, s: Engine, acked: bool)
    requires s.role == Leader && EngineOk(h, l, s, acked)
    ensures s.Term() in h.reigns && h.reigns[s.Term()].leader == l && h.reigns[s.Term()].log == s.log
  {
    hide IdentityOk, DurableOk, BooksOk, Secure;
  }

  lemma LaterBacked(h: History, h': History, n: NodeId, k: nat)
    requires Secure(h, n, k) && Later(h, h')
    ensures Backed(h', h.log[n][..k], h.term[n])
  {
    hide SecureKept;
    var prefix := h.log[n][..k];
    if prefix != [] {
      var t: Term :| t <= h.term[n] && BackedBy(h, prefix, t);
      assert BackedBy(h', prefix, t);
    }
  }
}
