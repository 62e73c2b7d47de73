/** Raft as a history of votes, reigns and acknowledgements, with the moves that extend it.
    Every event of the concrete cluster is a sequence of these moves (see Coupling). */
module Protocol {
  import opened Types
  import opened LogSpec
  import M = Membership

  /** A vote, with the voter's log at the moment it was cast. */
  datatype Ballot = Ballot(candidate: NodeId, log: Log)

  /** The leadership of one term: who won, by whose votes, with which log, and what the log grew to. */
  datatype Reign = Reign(leader: NodeId, electorate: set<NodeId>, base: Log, log: Log)

  datatype History = History(
    voters: set<NodeId>,
    term: map<NodeId, Term>,
    log: map<NodeId, Log>,
    campaigns: map<(NodeId, Term), Log>,   // the log a candidate ran on
    ballots: map<(NodeId, Term), Ballot>,
    reigns: map<Term, Reign>,
    acks: map<(NodeId, Term), nat>,        // how much of a reign's log a node acknowledged
    commits: map<Term, nat>)               // how far a reign committed by the current-term rule
  {
    function Ack(n: NodeId, t: Term): nat {
      if (n, t) in acks then acks[(n, t)] else 0
    }

    function Commit(t: Term): nat {
      if t in commits then commits[t] else 0
    }

    function Quorum(): nat {
      |voters| / 2 + 1
    }

    /** So many voters have one in common with every majority. */
    function Blocking(): nat {
      |voters| - |voters| / 2
    }

    /** The voters that acknowledged at least `i` entries of the reign of term `t`. */
    function Ackers(t: Term, i: nat): set<NodeId> {
      set v | v in voters && Ack(v, t) >= i
    }
  }

  // ---------------------------------------------------------------- invariant

  ghost predicate EntrySourced(h: History, log: Log, i: nat)
    requires i < |log|
  {
    log[i].index == i + 1 && log[i].term in h.reigns && log[..i + 1] <= h.reigns[log[i].term].log
  }

  /** Log matching, in one-sided form: each entry comes from its term's leader, with everything before it. */
  ghost predicate Sourced(h: History, log: Log) {
    forall i :: 0 <= i < |log| ==> EntrySourced(h, log, i)
  }

  ghost predicate TermsBelow(log: Log, bound: Term) {
    forall i :: 0 <= i < |log| ==> log[i].term < bound
  }

  ghost predicate NodesOk(h: History) {
    && h.term.Keys == h.voters && h.log.Keys == h.voters
    && forall n :: n in h.voters ==> Sourced(h, h.log[n]) && TermsBelow(h.log[n], h.term[n] + 1)
  }

  ghost predicate CampaignOk(h: History, c: NodeId, t: Term)
    requires (c, t) in h.campaigns
  {
    && c in h.voters && c in h.term && t <= h.term[c]
    && Sourced(h, h.campaigns[(c, t)]) && TermsBelow(h.campaigns[(c, t)], t)
  }

  ghost predicate CampaignsOk(h: History) {
    forall c, t :: (c, t) in h.campaigns ==> CampaignOk(h, c, t)
  }

  ghost predicate ReignOk(h: History, t: Term)
    requires t in h.reigns
  {
    var r := h.reigns[t];
    && r.leader in h.voters && r.leader in h.term && t <= h.term[r.leader]
    && r.electorate <= h.voters && |r.electorate| >= h.Quorum()
    && (forall v :: v in r.electorate ==> (v, t) in h.ballots && h.ballots[(v, t)].candidate == r.leader)
    && (r.leader, t) in h.campaigns && h.campaigns[(r.leader, t)] == r.base
    && r.base <= r.log && TermsBelow(r.base, t)
    && Sourced(h, r.log)
    && forall i :: |r.base| <= i < |r.log| ==> r.log[i].term == t
  }

  ghost predicate ReignsOk(h: History) {
    forall t :: t in h.reigns ==> ReignOk(h, t)
  }

  /** A leader between `t0` and `bound` was elected without the first `m` entries of the reign of `t0`. */
  ghost predicate Severed(h: History, t0: Term, bound: Term, m: nat)
    requires t0 in h.reigns && m <= |h.reigns[t0].log|
  {
    exists t1 :: t0 < t1 < bound && t1 in h.reigns && !(h.reigns[t0].log[..m] <= h.reigns[t1].base)
  }

  /** What was acknowledged in `t0` is still in `log`, unless a leader before `bound` was elected without it. */
  ghost predicate Kept(h: History, log: Log, t0: Term, bound: Term, m: nat) {
    t0 in h.reigns && m <= |h.reigns[t0].log| ==>
      h.reigns[t0].log[..m] <= log || Severed(h, t0, bound, m)
  }

  /** Everything node `n` acknowledged in `t0` is kept by `log`. */
  ghost predicate AllKept(h: History, n: NodeId, t0: Term, log: Log, bound: Term) {
    forall m: nat :: m <= h.Ack(n, t0) ==> Kept(h, log, t0, bound, m)
  }

  ghost predicate NodeKeeps(h: History, n: NodeId, t0: Term) {
    n in h.log && n in h.term && AllKept(h, n, t0, h.log[n], h.term[n] + 1)
  }

  ghost predicate AckBounds(h: History) {
    forall n, t :: (n, t) in h.acks ==>
      && n in h.voters && n in h.term && t in h.reigns && t <= h.term[n] && h.acks[(n, t)] <= |h.reigns[t].log|
  }

  ghost predicate AcksKept(h: History) {
    forall n, t: Term :: n in h.voters ==> NodeKeeps(h, n, t)
  }

  /** A ballot that counted, or still may count, towards a reign. */
  ghost predicate Live(h: History, v: NodeId, t: Term) {
    t in h.reigns ==> v in h.reigns[t].electorate
  }

  ghost predicate BallotOk(h: History, v: NodeId, t: Term)
    requires (v, t) in h.ballots
  {
    var b := h.ballots[(v, t)];
    && v in h.voters && v in h.term && t <= h.term[v]
    && (b.candidate, t) in h.campaigns
    && UpToDate(b.log, |h.campaigns[(b.candidate, t)]|, LastTerm(h.campaigns[(b.candidate, t)]))
    && Sourced(h, b.log)
    && (Live(h, v, t) ==> forall t0: Term :: t0 < t ==> AllKept(h, v, t0, b.log, t))
  }

  ghost predicate BallotsOk(h: History) {
    forall v, t :: (v, t) in h.ballots ==> BallotOk(h, v, t)
  }

  ghost predicate CommitsOk(h: History) {
    forall t :: t in h.commits ==>
      && t in h.reigns && 1 <= h.commits[t] <= |h.reigns[t].log|
      && h.reigns[t].log[h.commits[t] - 1].term == t
      && |h.Ackers(t, h.commits[t])| >= h.Blocking()
  }

  ghost predicate Inv(h: History) {
    && NodesOk(h) && CampaignsOk(h) && ReignsOk(h)
    && AckBounds(h) && AcksKept(h) && BallotsOk(h) && CommitsOk(h)
  }

  // ------------------------------------------------- consequences of the invariant

  /** Terms never decrease along a sourced log. */
  lemma TermsAscend(h: History, log: Log, i: nat, j: nat)
    requires NodesOk(h) && ReignsOk(h) && Sourced(h, log) && i <= j < |log|
    ensures log[i].term <= log[j].term
  {
    assert EntrySourced(h, log, j);
    var r := h.reigns[log[j].term];
    assert log[i] == log[..j + 1][i] == r.log[i];
    assert ReignOk(h, log[j].term);
    if i < |r.base| {
      assert r.log[i] == r.base[i];
    }
  }

  /** Log matching: same index and same term mean identical prefixes. */
  lemma LogMatching(h: History, a: Log, b: Log, i: nat)
    requires Sourced(h, a) && Sourced(h, b) && i < |a| && i < |b| && a[i].term == b[i].term
    ensures a[..i + 1] == b[..i + 1]
  {
    assert EntrySourced(h, a, i) && EntrySourced(h, b, i);
  }

  /** A log that is up to date with respect to `other` and ends in the same term contains it. */
  lemma UpToDateSameTermContains(h: History, log: Log, other: Log)
    requires Sourced(h, log) && Sourced(h, other) && other != []
    requires LastTerm(log) == LastTerm(other) && |log| >= |other|
    ensures other <= log
  {
    var i, j := |other| - 1, |log| - 1;
    assert EntrySourced(h, log, j) && EntrySourced(h, other, i);
    assert log[..j + 1] == log && other[..i + 1] == other;
  }

  /** Some voter both acknowledged what `t` committed and elected the leader of `t'`. */
  lemma CommonVoter(h: History, t: Term, t': Term) returns (v: NodeId)
    requires Inv(h) && t in h.commits && t' in h.reigns && t < t'
    ensures (v, t') in h.ballots && h.ballots[(v, t')].candidate == h.reigns[t'].leader
    ensures BallotOk(h, v, t') && Kept(h, h.ballots[(v, t')].log, t, t', h.commits[t])
  {
    var i := h.commits[t];
    assert ReignOk(h, t');
    v := M.LargeSetsMeet(h.voters, h.Ackers(t, i), h.reigns[t'].electorate);
    assert BallotOk(h, v, t') && Live(h, v, t');
    assert AllKept(h, v, t, h.ballots[(v, t')].log, t');
  }

  /** A log that holds what `t` committed ends in a term no earlier than `t`. */
  lemma HolderEndsLate(h: History, t: Term, log: Log)
    requires Inv(h) && t in h.commits && Sourced(h, log) && h.reigns[t].log[..h.commits[t]] <= log
    ensures LastTerm(log) >= t
  {
    hide NodesOk, CampaignsOk, ReignsOk, AckBounds, AcksKept, BallotsOk, Sourced;
    var i := h.commits[t];
    assert log[i - 1] == h.reigns[t].log[..i][i - 1];
    TermsAscend(h, log, i - 1, |log| - 1);
  }

  /** Leader completeness: what a reign committed is in the log every later leader was elected with. */
  lemma {:induction false} LeaderCompleteness(h: History, t: Term, t': Term)
    requires Inv(h) && t in h.commits && t' in h.reigns && t < t'
    ensures h.reigns[t].log[..h.commits[t]] <= h.reigns[t'].base
    decreases t', 1
  {
    var v := CommonVoter(h, t, t');
    var voterLog := h.ballots[(v, t')].log;
    if Severed(h, t, t', h.commits[t]) {
      var t1 :| t < t1 < t' && t1 in h.reigns && !(h.reigns[t].log[..h.commits[t]] <= h.reigns[t1].base);
      LeaderCompleteness(h, t, t1);
      assert false;
    }
    HolderEndsLate(h, t, voterLog);
    assert ReignOk(h, t');
    CandidateContains(h, t, t', voterLog);
  }

  /** The candidate's half of leader completeness: winning the vote of a log that holds the committed prefix. */
  lemma {:induction false} CandidateContains(h: History, t: Term, t': Term, voterLog: Log)
    requires Inv(h) && t in h.commits && t' in h.reigns && t < t'
    requires Sourced(h, voterLog) && h.reigns[t].log[..h.commits[t]] <= voterLog && LastTerm(voterLog) >= t
    requires UpToDate(voterLog, |h.reigns[t'].base|, LastTerm(h.reigns[t'].base))
    ensures h.reigns[t].log[..h.commits[t]] <= h.reigns[t'].base
    decreases t', 0
  {
    var i := h.commits[t];
    var base := h.reigns[t'].base;
    assert ReignOk(h, t') && ReignOk(h, t);
    assert Sourced(h, base);
    var lt := LastTerm(base);
    if lt == LastTerm(voterLog) {
      UpToDateSameTermContains(h, base, voterLog);
    } else {
      assert EntrySourced(h, base, |base| - 1);
      assert base[..|base|] == base;
      var source := h.reigns[lt].log;
      LeaderCompleteness(h, t, lt);
      assert ReignOk(h, lt);
      assert h.reigns[t].log[..i] <= source;
      if |base| < i {
        assert false;
      }
    }
  }
}
