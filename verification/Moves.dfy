/** The moves a run of Raft is made of. Each one keeps the protocol invariant. */
module Moves {
  import opened Types
  import opened LogSpec
  import opened Protocol
  import M = Membership

  /** Node `n` enters term `t`. */
  function Advance(h: History, n: NodeId, t: Term): History {
    h.(term := h.term[n := t])
  }

  /** Node `n` stands for election in its current term. */
  function Register(h: History, n: NodeId): History
    requires n in h.term && n in h.log
  {
    h.(campaigns := h.campaigns[(n, h.term[n]) := h.log[n]])
  }

  /** Node `v` votes for `c` in its current term. */
  function Vote(h: History, v: NodeId, c: NodeId): History
    requires v in h.term && v in h.log
  {
    h.(ballots := h.ballots[(v, h.term[v]) := Ballot(c, h.log[v])])
  }

  /** Candidate `c` becomes the leader of its current term by the votes of `electorate`. */
  function Elect(h: History, c: NodeId, electorate: set<NodeId>): History
    requires c in h.term && c in h.log
  {
    var t := h.term[c];
    h.(reigns := h.reigns[t := Reign(c, electorate, h.log[c], h.log[c])], acks := h.acks[(c, t) := |h.log[c]|])
  }

  /** The leader of term `t` appends one entry to its own log. */
  function Extend(h: History, t: Term, e: LogEntry): History
    requires t in h.reigns
  {
    var r := h.reigns[t];
    var grown := r.log + [e];
    h.(reigns := h.reigns[t := r.(log := grown)], log := h.log[r.leader := grown],
       acks := h.acks[(r.leader, t) := |grown|])
  }

  /** Node `v` takes over the first `k` entries of the reign of its term, unless its log already has them. */
  function Adopted(h: History, v: NodeId, k: nat): Log
    requires v in h.log && v in h.term && h.term[v] in h.reigns && k <= |h.reigns[h.term[v]].log|
  {
    var prefix := h.reigns[h.term[v]].log[..k];
    if prefix <= h.log[v] then h.log[v] else prefix
  }

  function Accept(h: History, v: NodeId, k: nat): History
    requires v in h.log && v in h.term && h.term[v] in h.reigns && k <= |h.reigns[h.term[v]].log|
  {
    var t := h.term[v];
    var ack := if k > h.Ack(v, t) then k else h.Ack(v, t);
    h.(log := h.log[v := Adopted(h, v, k)], acks := h.acks[(v, t) := ack])
  }

  /** The leader of term `t` commits through index `i`. */
  function CommitThrough(h: History, t: Term, i: nat): History {
    h.(commits := h.commits[t := i])
  }

  // ------------------------------------------------------------- what never goes back

  /** Facts about the past survive, and only `m` acts: other nodes keep their state and their reigns. */
  ghost predicate Extends(h: History, h': History, m: NodeId) {
    && h'.voters == h.voters && m in h.voters
    && h'.term.Keys == h.term.Keys && h'.log.Keys == h.log.Keys
    && (forall n :: n in h.voters && n != m && n in h.term && n in h.log ==>
          h'.term[n] == h.term[n] && h'.log[n] == h.log[n])
    && (m in h.term ==> h.term[m] <= h'.term[m])
    && (forall k :: k in h.campaigns ==> k in h'.campaigns && h'.campaigns[k] == h.campaigns[k])
    && (forall k :: k in h.ballots ==> k in h'.ballots && h'.ballots[k] == h.ballots[k])
    && (forall k :: k in h'.ballots && k.0 != m ==> k in h.ballots)
    && (forall t :: t in h.reigns ==>
          && t in h'.reigns && h.reigns[t].log <= h'.reigns[t].log
          && h'.reigns[t].(log := h.reigns[t].log) == h.reigns[t])
    && (forall t :: t in h'.reigns && h'.reigns[t].leader != m ==> t in h.reigns && h'.reigns[t] == h.reigns[t])
    && (forall n, t :: h.Ack(n, t) <= h'.Ack(n, t))
    && (forall n, t :: n != m || (m in h.term && t < h.term[m]) ==> h'.Ack(n, t) == h.Ack(n, t))
    && (forall t :: t in h.commits ==> t in h'.commits && h.commits[t] <= h'.commits[t])
  }

  lemma ExtendsTransitive(a: History, b: History, c: History, m: NodeId)
    requires Extends(a, b, m) && Extends(b, c, m)
    ensures Extends(a, c, m)
  {
    forall n, t: Term
      ensures a.Ack(n, t) <= c.Ack(n, t)
    {
      assert a.Ack(n, t) <= b.Ack(n, t) <= c.Ack(n, t);
    }
  }

  lemma SourcedExtends(h: History, h': History, m: NodeId, log: Log)
    requires Extends(h, h', m) && Sourced(h, log)
    ensures Sourced(h', log)
  {
    forall i | 0 <= i < |log|
      ensures EntrySourced(h', log, i)
    {
      assert EntrySourced(h, log, i);
    }
  }

  /** A reign that changes nothing but its growing log keeps what was kept. */
  lemma KeptExtends(h: History, h': History, m: NodeId, log: Log, t0: Term, bound: Term, k: nat)
    requires Extends(h, h', m) && Kept(h, log, t0, bound, k) && t0 in h.reigns && k <= |h.reigns[t0].log|
    ensures Kept(h', log, t0, bound, k)
  {
    var p := h.reigns[t0].log[..k];
    assert h'.reigns[t0].log[..k] == p;
    if !(p <= log) {
      var t1 :| t0 < t1 < bound && t1 in h.reigns && !(p <= h.reigns[t1].base);
      assert h'.reigns[t1].base == h.reigns[t1].base;
    }
  }

  lemma AllKeptExtends(h: History, h': History, m: NodeId, n: NodeId, log: Log, t0: Term, bound: Term)
    requires Extends(h, h', m) && AllKept(h, n, t0, log, bound) && h'.Ack(n, t0) == h.Ack(n, t0)
    requires t0 in h.reigns && h.Ack(n, t0) <= |h.reigns[t0].log|
    ensures AllKept(h', n, t0, log, bound)
  {
    forall k: nat | k <= h'.Ack(n, t0)
      ensures Kept(h', log, t0, bound, k)
    {
      assert Kept(h, log, t0, bound, k);
      KeptExtends(h, h', m, log, t0, bound, k);
    }
  }

  /** Nothing was acknowledged, so nothing has to be kept. */
  lemma NothingToKeep(h: History, n: NodeId, t0: Term, log: Log, bound: Term)
    requires h.Ack(n, t0) == 0
    ensures AllKept(h, n, t0, log, bound)
  {
    forall k: nat | k <= h.Ack(n, t0)
      ensures Kept(h, log, t0, bound, k)
    {
      if t0 in h.reigns {
        assert h.reigns[t0].log[..k] == [];
      }
    }
  }

  // ------------------------------------------------------------- what a move leaves intact

  /** What a move by `m` still has to show about the things it touched. */
  ghost predicate TouchedOk(h: History, h': History, m: NodeId) {
    && m in h'.log && m in h'.term
    && Sourced(h', h'.log[m]) && TermsBelow(h'.log[m], h'.term[m] + 1)
    && (forall c, t :: (c, t) in h'.campaigns && (c, t) !in h.campaigns ==> CampaignOk(h', c, t))
    && (forall t :: t in h'.reigns && (t !in h.reigns || h'.reigns[t] != h.reigns[t]) ==> ReignOk(h', t))
    && (forall v, t :: (v, t) in h'.ballots && (v, t) !in h.ballots ==> BallotOk(h', v, t))
    && AckBounds(h')
    && (forall t0: Term :: NodeKeeps(h', m, t0))
    && CommitsOk(h')
  }

  lemma NodesExtend(h: History, h': History, m: NodeId)
    requires NodesOk(h) && Extends(h, h', m) && TouchedOk(h, h', m)
    ensures NodesOk(h')
  {
    hide ReignOk, CampaignOk, BallotOk, NodeKeeps, CommitsOk, AckBounds;
    forall n | n in h'.voters
      ensures Sourced(h', h'.log[n]) && TermsBelow(h'.log[n], h'.term[n] + 1)
    {
      if n != m {
        SourcedExtends(h, h', m, h.log[n]);
      }
    }
  }

  lemma CampaignsExtend(h: History, h': History, m: NodeId)
    requires CampaignsOk(h) && NodesOk(h) && Extends(h, h', m) && TouchedOk(h, h', m)
    ensures CampaignsOk(h')
  {
    hide ReignOk, BallotOk, NodeKeeps, CommitsOk, AckBounds;
    forall c, t | (c, t) in h'.campaigns
      ensures CampaignOk(h', c, t)
    {
      if (c, t) in h.campaigns {
        assert CampaignOk(h, c, t);
        SourcedExtends(h, h', m, h.campaigns[(c, t)]);
      }
    }
  }

  lemma ReignsExtend(h: History, h': History, m: NodeId)
    requires ReignsOk(h) && NodesOk(h) && Extends(h, h', m) && TouchedOk(h, h', m)
    ensures ReignsOk(h')
  {
    hide ReignOk, CampaignOk, BallotOk, NodeKeeps, CommitsOk, AckBounds, Sourced;
    forall t | t in h'.reigns
      ensures ReignOk(h', t)
    {
      if t in h.reigns && h'.reigns[t] == h.reigns[t] {
        ReignExtends(h, h', m, t);
      }
    }
  }

  lemma ReignExtends(h: History, h': History, m: NodeId, t: Term)
    requires NodesOk(h) && Extends(h, h', m) && t in h.reigns && ReignOk(h, t)
    requires t in h'.reigns && h'.reigns[t] == h.reigns[t]
    ensures ReignOk(h', t)
  {
    hide Sourced;
    SourcedExtends(h, h', m, h.reigns[t].log);
  }

  lemma BallotsExtend(h: History, h': History, m: NodeId)
    requires BallotsOk(h) && NodesOk(h) && AckBounds(h) && Extends(h, h', m) && TouchedOk(h, h', m)
    ensures BallotsOk(h')
  {
    hide ReignOk, CampaignOk, BallotOk, NodeKeeps, CommitsOk, Sourced;
    forall v, t | (v, t) in h'.ballots
      ensures BallotOk(h', v, t)
    {
      if (v, t) in h.ballots {
        BallotExtends(h, h', m, v, t);
      }
    }
  }

  lemma BallotExtends(h: History, h': History, m: NodeId, v: NodeId, t: Term)
    requires NodesOk(h) && AckBounds(h) && Extends(h, h', m)
    requires (v, t) in h.ballots && BallotOk(h, v, t)
    ensures BallotOk(h', v, t)
  {
    hide AllKept, Sourced;
    var b := h.ballots[(v, t)];
    SourcedExtends(h, h', m, b.log);
    if Live(h', v, t) {
      assert Live(h, v, t);
      forall t0: Term | t0 < t
        ensures AllKept(h', v, t0, b.log, t)
      {
        assert AllKept(h, v, t0, b.log, t);
        FrozenKept(h, h', m, v, b.log, t0, t);
      }
    }
  }

  /** What was kept stays kept as long as the acknowledgement does not grow. */
  lemma FrozenKept(h: History, h': History, m: NodeId, n: NodeId, log: Log, t0: Term, bound: Term)
    requires AckBounds(h) && Extends(h, h', m) && AllKept(h, n, t0, log, bound) && h'.Ack(n, t0) == h.Ack(n, t0)
    ensures AllKept(h', n, t0, log, bound)
  {
    if t0 in h.reigns {
      AllKeptExtends(h, h', m, n, log, t0, bound);
    } else {
      NothingToKeep(h', n, t0, log, bound);
    }
  }

  lemma AcksExtend(h: History, h': History, m: NodeId)
    requires AcksKept(h) && NodesOk(h) && AckBounds(h) && Extends(h, h', m) && TouchedOk(h, h', m)
    ensures AcksKept(h')
  {
    hide ReignOk, CampaignOk, BallotOk, CommitsOk, AckBounds, AllKept, Sourced;
    forall n, t0: Term | n in h'.voters
      ensures NodeKeeps(h', n, t0)
    {
      if n != m {
        assert NodeKeeps(h, n, t0);
        FrozenKept(h, h', m, n, h.log[n], t0, h.term[n] + 1);
      }
    }
  }

  /** The invariant of a move reduces to what the move touched. */
  lemma InvExtends(h: History, h': History, m: NodeId)
    requires Inv(h) && Extends(h, h', m) && TouchedOk(h, h', m)
    ensures Inv(h')
  {
    hide NodesOk, CampaignsOk, ReignsOk, AcksKept, BallotsOk, Extends;
    NodesExtend(h, h', m);
    CampaignsExtend(h, h', m);
    ReignsExtend(h, h', m);
    BallotsExtend(h, h', m);
    AcksExtend(h, h', m);
  }

  lemma CommitsExtend(h: History, h': History, m: NodeId)
    requires CommitsOk(h) && Extends(h, h', m) && h'.commits == h.commits
    ensures CommitsOk(h')
  {
    forall t | t in h'.commits
      ensures |h'.Ackers(t, h'.commits[t])| >= h'.Blocking()
    {
      M.SubsetSize(h.Ackers(t, h.commits[t]), h'.Ackers(t, h.commits[t]));
    }
  }

  /** A log that did not shrink keeps what it kept, also under a later term. */
  lemma GrownKeeps(h: History, h': History, n: NodeId, t0: Term)
    requires AckBounds(h) && Extends(h, h', n) && NodeKeeps(h, n, t0)
    requires n in h'.log && n in h'.term && h'.Ack(n, t0) == h.Ack(n, t0) && h.log[n] <= h'.log[n]
    ensures NodeKeeps(h', n, t0)
  {
    hide AllKept;
    FrozenKept(h, h', n, n, h.log[n], t0, h.term[n] + 1);
    assert h.term[n] <= h'.term[n];
    AllKeptGrows(h', n, t0, h.log[n], h'.log[n], h.term[n] + 1, h'.term[n] + 1);
  }

  lemma AllKeptGrows(h: History, n: NodeId, t0: Term, short: Log, log: Log, bound: Term, later: Term)
    requires AllKept(h, n, t0, short, bound) && short <= log && bound <= later
    ensures AllKept(h, n, t0, log, later)
  {
    forall k: nat | k <= h.Ack(n, t0)
      ensures Kept(h, log, t0, later, k)
    {
      assert Kept(h, short, t0, bound, k);
    }
  }

  // ------------------------------------------------------------- each move keeps the invariant

  /** A move that leaves every acknowledgement alone and does not shrink the actor's log. */
  lemma QuietMove(h: History, h': History, n: NodeId)
    requires Inv(h) && Extends(h, h', n) && h'.acks == h.acks && h'.commits == h.commits && h'.reigns == h.reigns
    requires n in h'.log && n in h'.term && h'.log == h.log
    ensures Sourced(h', h'.log[n]) && TermsBelow(h'.log[n], h'.term[n] + 1)
    ensures AckBounds(h') && CommitsOk(h') && forall t0: Term :: NodeKeeps(h', n, t0)
  {
    hide CampaignsOk, ReignsOk, BallotsOk, AllKept, Sourced;
    assert TermsBelow(h.log[n], h.term[n] + 1);
    SourcedExtends(h, h', n, h.log[n]);
    CommitsExtend(h, h', n);
    forall t0: Term
      ensures NodeKeeps(h', n, t0)
    {
      assert NodeKeeps(h, n, t0);
      GrownKeeps(h, h', n, t0);
    }
  }

  lemma AdvanceKeeps(h: History, n: NodeId, t: Term)
    requires Inv(h) && n in h.voters && t >= h.term[n]
    ensures Inv(Advance(h, n, t)) && Extends(h, Advance(h, n, t), n)
  {
    hide CampaignsOk, ReignsOk, BallotsOk, AcksKept, CommitsOk, AckBounds, NodeKeeps, ReignOk, BallotOk, CampaignOk;
    var h' := Advance(h, n, t);
    QuietMove(h, h', n);
    InvExtends(h, h', n);
  }

  lemma RegisterKeeps(h: History, n: NodeId)
    requires Inv(h) && n in h.voters && (n, h.term[n]) !in h.campaigns && TermsBelow(h.log[n], h.term[n])
    ensures Inv(Register(h, n)) && Extends(h, Register(h, n), n)
  {
    hide CampaignsOk, ReignsOk, BallotsOk, AcksKept, CommitsOk, AckBounds, NodeKeeps, ReignOk, BallotOk, Sourced;
    var h' := Register(h, n);
    QuietMove(h, h', n);
    InvExtends(h, h', n);
  }

  lemma VoteKeeps(h: History, v: NodeId, c: NodeId)
    requires Inv(h) && v in h.voters && (v, h.term[v]) !in h.ballots && (c, h.term[v]) in h.campaigns
    requires UpToDate(h.log[v], |h.campaigns[(c, h.term[v])]|, LastTerm(h.campaigns[(c, h.term[v])]))
    ensures Inv(Vote(h, v, c)) && Extends(h, Vote(h, v, c), v)
  {
    hide CampaignsOk, ReignsOk, BallotsOk, AcksKept, CommitsOk, AckBounds, NodeKeeps, ReignOk, BallotOk, CampaignOk,
         Sourced;
    var h' := Vote(h, v, c);
    QuietMove(h, h', v);
    NewBallotOk(h, v, c);
    InvExtends(h, h', v);
  }

  lemma NewBallotOk(h: History, v: NodeId, c: NodeId)
    requires Inv(h) && v in h.voters && (v, h.term[v]) !in h.ballots && (c, h.term[v]) in h.campaigns
    requires UpToDate(h.log[v], |h.campaigns[(c, h.term[v])]|, LastTerm(h.campaigns[(c, h.term[v])]))
    requires Extends(h, Vote(h, v, c), v) && forall t0: Term :: NodeKeeps(Vote(h, v, c), v, t0)
    ensures BallotOk(Vote(h, v, c), v, h.term[v])
  {
    hide CampaignsOk, BallotsOk, AcksKept, CommitsOk, AckBounds, CampaignOk, AllKept, Sourced;
    var h', t := Vote(h, v, c), h.term[v];
    SourcedExtends(h, h', v, h.log[v]);
    if Live(h', v, t) {
      forall t0: Term | t0 < t
        ensures AllKept(h', v, t0, h.log[v], t)
      {
        assert NodeKeeps(h', v, t0);
        CloseBound(h', v, t0, h.log[v], t);
      }
    }
  }

  /** No reign in the last term of the range: the range can be closed before it. */
  lemma CloseBound(h: History, n: NodeId, t0: Term, log: Log, t: Term)
    requires AllKept(h, n, t0, log, t + 1) && t !in h.reigns
    ensures AllKept(h, n, t0, log, t)
  {
    forall k: nat | k <= h.Ack(n, t0)
      ensures Kept(h, log, t0, t, k)
    {
      assert Kept(h, log, t0, t + 1, k);
    }
  }

  /** Election safety: a candidate with a majority of its term's ballots finds the term without a leader. */
  lemma TermIsVacant(h: History, c: NodeId, electorate: set<NodeId>)
    requires ReignsOk(h) && c in h.term && electorate <= h.voters && |electorate| >= h.Quorum()
    requires forall v :: v in electorate ==> (v, h.term[c]) in h.ballots && h.ballots[(v, h.term[c])].candidate == c
    requires h.term[c] in h.reigns ==> h.reigns[h.term[c]].leader != c
    ensures h.term[c] !in h.reigns
  {
    var t := h.term[c];
    if t in h.reigns {
      assert ReignOk(h, t);
      var v := M.MajoritiesMeet(h.voters, electorate, h.reigns[t].electorate);
      assert false;
    }
  }

  lemma ElectKeeps(h: History, c: NodeId, electorate: set<NodeId>)
    requires Inv(h) && c in h.voters && electorate <= h.voters && |electorate| >= h.Quorum()
    requires forall v :: v in electorate ==> (v, h.term[c]) in h.ballots && h.ballots[(v, h.term[c])].candidate == c
    requires (c, h.term[c]) in h.campaigns && h.campaigns[(c, h.term[c])] == h.log[c]
    requires h.term[c] in h.reigns ==> h.reigns[h.term[c]].leader != c
    ensures Inv(Elect(h, c, electorate)) && Extends(h, Elect(h, c, electorate), c)
    ensures h.term[c] !in h.reigns
  {
    hide CampaignsOk, ReignsOk, BallotsOk, CommitsOk, AcksKept, NodeKeeps, ReignOk, BallotOk, CampaignOk, Sourced;
    TermIsVacant(h, c, electorate);
    var h' := Elect(h, c, electorate);
    ElectExtends(h, c, electorate);
    hide Extends, AckBounds;
    SourcedExtends(h, h', c, h.log[c]);
    CommitsExtend(h, h', c);
    NewReignOk(h, c, electorate);
    NewReignKeeps(h, c, electorate);
    InvExtends(h, h', c);
  }

  lemma ElectExtends(h: History, c: NodeId, electorate: set<NodeId>)
    requires NodesOk(h) && AckBounds(h) && c in h.voters && h.term[c] !in h.reigns
    ensures Extends(h, Elect(h, c, electorate), c) && AckBounds(Elect(h, c, electorate))
  {
    hide Sourced, TermsBelow;
    var h', t := Elect(h, c, electorate), h.term[c];
    assert forall n :: h.Ack(n, t) == 0;
  }

  lemma NewReignOk(h: History, c: NodeId, electorate: set<NodeId>)
    requires Inv(h) && c in h.voters && electorate <= h.voters && |electorate| >= h.Quorum()
    requires forall v :: v in electorate ==> (v, h.term[c]) in h.ballots && h.ballots[(v, h.term[c])].candidate == c
    requires (c, h.term[c]) in h.campaigns && h.campaigns[(c, h.term[c])] == h.log[c]
    requires Sourced(Elect(h, c, electorate), h.log[c])
    ensures ReignOk(Elect(h, c, electorate), h.term[c])
  {
    hide ReignsOk, BallotsOk, CommitsOk, AcksKept, NodeKeeps, Sourced;
    assert CampaignOk(h, c, h.term[c]);
  }

  lemma LeaderKeepsOwn(h: History, c: NodeId, t: Term)
    requires c in h.log && c in h.term && h.term[c] == t && t in h.reigns && h.reigns[t].log == h.log[c]
    ensures NodeKeeps(h, c, t)
  {
    var bound, log := t + 1, h.log[c];
    forall k: nat | k <= h.Ack(c, t)
      ensures Kept(h, log, t, bound, k)
    {
    }
  }

  lemma NewReignKeeps(h: History, c: NodeId, electorate: set<NodeId>)
    requires Inv(h) && c in h.voters && h.term[c] !in h.reigns
    requires Extends(h, Elect(h, c, electorate), c)
    ensures forall t0: Term :: NodeKeeps(Elect(h, c, electorate), c, t0)
  {
    hide CampaignsOk, ReignsOk, BallotsOk, CommitsOk, Sourced;
    var h', t := Elect(h, c, electorate), h.term[c];
    forall t0: Term
      ensures NodeKeeps(h', c, t0)
    {
      if t0 == t {
        LeaderKeepsOwn(h', c, t);
      } else {
        assert NodeKeeps(h, c, t0);
        GrownKeeps(h, h', c, t0);
      }
    }
  }

  lemma ExtendKeeps(h: History, t: Term, e: LogEntry)
    requires Inv(h) && t in h.reigns && h.reigns[t].leader in h.voters
    requires h.term[h.reigns[t].leader] == t && h.log[h.reigns[t].leader] == h.reigns[t].log
    requires e.index == |h.reigns[t].log| + 1 && e.term == t
    ensures Inv(Extend(h, t, e)) && Extends(h, Extend(h, t, e), h.reigns[t].leader)
  {
    hide CampaignsOk, ReignsOk, BallotsOk, CommitsOk, AcksKept, NodeKeeps, ReignOk, BallotOk, CampaignOk, Sourced,
         AckBounds, Extends;
    var h', c := Extend(h, t, e), h.reigns[t].leader;
    ExtendExtends(h, t, e);
    GrownReignOk(h, t, e);
    CommitsExtend(h, h', c);
    GrownReignKeeps(h, t, e);
    assert TermsBelow(h.log[c], t + 1);
    InvExtends(h, h', c);
  }

  lemma ExtendExtends(h: History, t: Term, e: LogEntry)
    requires NodesOk(h) && AckBounds(h) && t in h.reigns && h.reigns[t].leader in h.voters
    requires h.term[h.reigns[t].leader] == t && h.log[h.reigns[t].leader] == h.reigns[t].log
    ensures Extends(h, Extend(h, t, e), h.reigns[t].leader) && AckBounds(Extend(h, t, e))
  {
    hide Sourced, TermsBelow;
    assert h.Ack(h.reigns[t].leader, t) <= |h.reigns[t].log|;
  }

  lemma GrownReignOk(h: History, t: Term, e: LogEntry)
    requires NodesOk(h) && ReignsOk(h) && t in h.reigns && Extends(h, Extend(h, t, e), h.reigns[t].leader)
    requires e.index == |h.reigns[t].log| + 1 && e.term == t
    ensures Sourced(Extend(h, t, e), h.reigns[t].log + [e]) && ReignOk(Extend(h, t, e), t)
  {
    hide Sourced;
    assert ReignOk(h, t);
    GrownSourced(h, t, e);
  }

  lemma GrownSourced(h: History, t: Term, e: LogEntry)
    requires t in h.reigns && Extends(h, Extend(h, t, e), h.reigns[t].leader) && Sourced(h, h.reigns[t].log)
    requires e.index == |h.reigns[t].log| + 1 && e.term == t
    ensures Sourced(Extend(h, t, e), h.reigns[t].log + [e])
  {
    var h' := Extend(h, t, e);
    var short, grown := h.reigns[t].log, h'.reigns[t].log;
    SourcedExtends(h, h', h.reigns[t].leader, short);
    hide Extends;
    forall i | 0 <= i < |grown|
      ensures EntrySourced(h', grown, i)
    {
      if i < |short| {
        assert EntrySourced(h', short, i);
        assert grown[..i + 1] == short[..i + 1];
      } else {
        assert grown[..i + 1] == grown;
      }
    }
  }

  lemma GrownReignKeeps(h: History, t: Term, e: LogEntry)
    requires Inv(h) && t in h.reigns && h.reigns[t].leader in h.voters
    requires Extends(h, Extend(h, t, e), h.reigns[t].leader)
    requires h.term[h.reigns[t].leader] == t && h.log[h.reigns[t].leader] == h.reigns[t].log
    ensures forall t0: Term :: NodeKeeps(Extend(h, t, e), h.reigns[t].leader, t0)
  {
    hide CampaignsOk, ReignsOk, BallotsOk, CommitsOk, Sourced;
    var h', c := Extend(h, t, e), h.reigns[t].leader;
    forall t0: Term
      ensures NodeKeeps(h', c, t0)
    {
      if t0 == t {
        LeaderKeepsOwn(h', c, t);
      } else {
        assert NodeKeeps(h, c, t0);
        GrownKeeps(h, h', c, t0);
      }
    }
  }

  lemma AcceptKeeps(h: History, v: NodeId, k: nat)
    requires Inv(h) && v in h.voters && h.term[v] in h.reigns && k <= |h.reigns[h.term[v]].log|
    ensures Inv(Accept(h, v, k)) && Extends(h, Accept(h, v, k), v)
  {
    hide CampaignsOk, ReignsOk, BallotsOk, CommitsOk, AcksKept, NodeKeeps, ReignOk, BallotOk, CampaignOk, Sourced,
         Extends, AckBounds;
    var h' := Accept(h, v, k);
    AcceptExtends(h, v, k);
    AdoptedOk(h, v, k);
    CommitsExtend(h, h', v);
    forall t0: Term
      ensures NodeKeeps(h', v, t0)
    {
      AcceptKeepsAck(h, v, k, t0);
    }
    InvExtends(h, h', v);
  }

  lemma AcceptExtends(h: History, v: NodeId, k: nat)
    requires NodesOk(h) && AckBounds(h) && v in h.voters && h.term[v] in h.reigns && k <= |h.reigns[h.term[v]].log|
    ensures Extends(h, Accept(h, v, k), v) && AckBounds(Accept(h, v, k))
  {
    hide Sourced, TermsBelow, Adopted;
  }

  lemma AdoptedOk(h: History, v: NodeId, k: nat)
    requires Inv(h) && v in h.voters && h.term[v] in h.reigns && k <= |h.reigns[h.term[v]].log|
    requires Extends(h, Accept(h, v, k), v)
    ensures Sourced(Accept(h, v, k), Adopted(h, v, k)) && TermsBelow(Adopted(h, v, k), h.term[v] + 1)
  {
    hide CampaignsOk, BallotsOk, CommitsOk, AcksKept, NodeKeeps, Extends;
    var h', t := Accept(h, v, k), h.term[v];
    var source := h.reigns[t].log;
    assert ReignOk(h, t);
    SourcedExtends(h, h', v, source);
    SourcedExtends(h, h', v, h.log[v]);
    forall i | 0 <= i < k
      ensures EntrySourced(h', source[..k], i) && source[i].term <= t
    {
      assert EntrySourced(h', source, i);
      assert source[..k][..i + 1] == source[..i + 1];
      if i < |h.reigns[t].base| {
        assert source[i] == h.reigns[t].base[i];
      }
    }
  }

  lemma AcceptKeepsAck(h: History, v: NodeId, k: nat, t0: Term)
    requires Inv(h) && v in h.voters && h.term[v] in h.reigns && k <= |h.reigns[h.term[v]].log|
    requires Extends(h, Accept(h, v, k), v)
    ensures NodeKeeps(Accept(h, v, k), v, t0)
  {
    hide CampaignsOk, ReignsOk, BallotsOk, CommitsOk, Sourced, AllKept;
    var h' := Accept(h, v, k);
    assert NodeKeeps(h, v, t0);
    if t0 == h.term[v] {
      AcceptKeepsCurrent(h, v, k);
    } else if h'.log[v] == h.log[v] {
      GrownKeeps(h, h', v, t0);
    } else {
      ReignIsOk(h, h.term[v]);
      AcceptKeepsPast(h, v, k, t0);
    }
  }

  lemma AcceptKeepsCurrent(h: History, v: NodeId, k: nat)
    requires v in h.log && v in h.term && h.term[v] in h.reigns && k <= |h.reigns[h.term[v]].log|
    requires AckBounds(h) && NodeKeeps(h, v, h.term[v])
    ensures AllKept(Accept(h, v, k), v, h.term[v], Adopted(h, v, k), h.term[v] + 1)
  {
    var h', t := Accept(h, v, k), h.term[v];
    var source, adopted, bound := h.reigns[t].log, Adopted(h, v, k), t + 1;
    forall j: nat | j <= h'.Ack(v, t)
      ensures Kept(h', adopted, t, bound, j)
    {
      if j <= h.Ack(v, t) {
        assert Kept(h, h.log[v], t, t + 1, j);
        assert source[..j] <= h.log[v];
      }
    }
  }

  lemma AcceptKeepsPast(h: History, v: NodeId, k: nat, t0: Term)
    requires v in h.log && v in h.term && h.term[v] in h.reigns && k <= |h.reigns[h.term[v]].log|
    requires ReignOk(h, h.term[v]) && AckBounds(h) && NodeKeeps(h, v, t0)
    requires t0 != h.term[v] && Adopted(h, v, k) != h.log[v]
    ensures AllKept(Accept(h, v, k), v, t0, Adopted(h, v, k), h.term[v] + 1)
  {
    hide Sourced;
    var h', t := Accept(h, v, k), h.term[v];
    var adopted, bound := h.reigns[t].log[..k], t + 1;
    forall j: nat | j <= h'.Ack(v, t0)
      ensures Kept(h', adopted, t0, bound, j)
    {
      assert Kept(h, h.log[v], t0, t + 1, j);
      if t0 in h.reigns && j <= |h.reigns[t0].log| && h.reigns[t0].log[..j] <= h.log[v] {
        if t0 < t && !(h.reigns[t0].log[..j] <= h.reigns[t].base) {
          assert Severed(h', t0, t + 1, j);
        }
      }
    }
  }

  lemma CommitKeeps(h: History, t: Term, i: nat)
    requires Inv(h) && t in h.reigns && 1 <= i <= |h.reigns[t].log| && h.Commit(t) <= i
    requires h.reigns[t].log[i - 1].term == t && |h.Ackers(t, i)| >= h.Blocking()
    ensures Inv(CommitThrough(h, t, i)) && Extends(h, CommitThrough(h, t, i), h.reigns[t].leader)
  {
    hide CampaignsOk, ReignsOk, BallotsOk, AcksKept, NodeKeeps, BallotOk, CampaignOk, ReignOk, Sourced, CommitsOk,
         AckBounds;
    var h', c := CommitThrough(h, t, i), h.reigns[t].leader;
    assert c in h.voters by { ReignIsOk(h, t); LeaderVotes(h, t); }
    CommitExtends(h, t, i);
    CommitsGrow(h, t, i);
    SameBounds(h, h');
    assert TermsBelow(h.log[c], h.term[c] + 1);
    SourcedExtends(h, h', c, h.log[c]);
    hide Extends;
    forall t0: Term
      ensures NodeKeeps(h', c, t0)
    {
      NodeIsKeeping(h, c, t0);
      GrownKeeps(h, h', c, t0);
    }
    InvExtends(h, h', c);
  }

  lemma SameBounds(h: History, h': History)
    requires AckBounds(h) && h' == h.(commits := h'.commits)
    ensures AckBounds(h')
  {
  }

  lemma CommitExtends(h: History, t: Term, i: nat)
    requires NodesOk(h) && t in h.reigns && h.Commit(t) <= i && h.reigns[t].leader in h.voters
    ensures Extends(h, CommitThrough(h, t, i), h.reigns[t].leader)
  {
    hide Sourced, TermsBelow;
  }

  lemma CommitsGrow(h: History, t: Term, i: nat)
    requires CommitsOk(h) && t in h.reigns && 1 <= i <= |h.reigns[t].log|
    requires h.reigns[t].log[i - 1].term == t && |h.Ackers(t, i)| >= h.Blocking()
    ensures CommitsOk(CommitThrough(h, t, i))
  {
    var h' := CommitThrough(h, t, i);
    forall t1 | t1 in h'.commits
      ensures |h'.Ackers(t1, h'.commits[t1])| >= h'.Blocking()
    {
      M.SubsetSize(h.Ackers(t1, h'.commits[t1]), h'.Ackers(t1, h'.commits[t1]));
    }
  }

  lemma LeaderVotes(h: History, t: Term)
    requires t in h.reigns && ReignOk(h, t)
    ensures h.reigns[t].leader in h.voters
  {
  }

  lemma ReignIsOk(h: History, t: Term)
    requires ReignsOk(h) && t in h.reigns
    ensures ReignOk(h, t)
  {
  }

  lemma NodeIsKeeping(h: History, n: NodeId, t0: Term)
    requires AcksKept(h) && n in h.voters
    ensures NodeKeeps(h, n, t0)
  {
  }
}
