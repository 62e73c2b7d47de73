/** Each thing an engine does, matched by protocol moves that keep the correspondence. */
module EngineSteps {
  import opened Types
  import opened LogSpec
  import opened Protocol
  import opened Moves
  import opened Commitment
  import opened EngineSpec
  import opened NodeSpec
  import opened Coupling
  import opened Execution
  import opened Landing
  import M = Membership

  /** `h'` continues `h` by moves of `n`. */
  ghost predicate Continues(h: History, h': History, n: NodeId) {
    Inv(h') && Extends(h, h', n) && SecureKept(h, h')
  }

  lemma ContinuesTransitive(a: History, b: History, c: History, n: NodeId)
    requires Continues(a, b, n) && Continues(b, c, n)
    ensures Continues(a, c, n)
  {
    hide Inv, Secure;
    ExtendsTransitive(a, b, c, n) by { hide SecureKept; }
    hide Extends;
    SecureKeptTransitive(a, b, c);
  }

  lemma ContinuesReflexive(h: History, n: NodeId)
    requires Inv(h) && n in h.voters
    ensures Continues(h, h, n)
  {
  }

  // ---------------------------------------------------------------- terms

  lemma AdvanceContinues(h: History, n: NodeId, t: Term)
    requires Inv(h) && n in h.voters && t >= h.term[n]
    ensures Continues(h, Advance(h, n, t), n)
  {
    AdvanceKeeps(h, n, t);
    hide CampaignsOk, ReignsOk, AckBounds, AcksKept, BallotsOk, CommitsOk, Sourced, TermsBelow, Extends, SecureKept;
    GrowthKeepsSecure(h, Advance(h, n, t), n);
  }

  lemma NoBallotAhead(h: History, n: NodeId, term: Term)
    requires Inv(h) && n in h.term && term > h.term[n]
    ensures (n, term) !in h.ballots && (n, term) !in h.campaigns
    ensures term in h.reigns ==> h.reigns[term].leader != n
  {
    hide Sourced, AckBounds, AcksKept, CommitsOk;
    if term in h.reigns { assert ReignOk(h, term); }
  }

  /** The parts of a continuation that engines look at. */
  lemma Unpack(h: History, h': History, n: NodeId, s: Engine, acked: bool)
    requires Continues(h, h', n) && EngineOk(h, n, s, acked)
    ensures IdentityOk(h', n, s) && n in h'.term && n in h'.log
    ensures acked ==> Secure(h', n, s.commitIndex)
  {
    hide Inv, Secure, RoleOk, BooksOk;
  }

  /** What is left to show for a follower. */
  lemma FollowerOk(h: History, h': History, n: NodeId, s: Engine, s': Engine, acked: bool)
    requires EngineOk(h, n, s, acked) && Continues(h, h', n) && DurableOk(h', n, s') && h'.log[n] == h.log[n]
    requires s'.config == s.config && s'.members == s.members
    requires s'.commitIndex == s.commitIndex && s'.lastApplied == s.lastApplied
    requires s'.role == Follower && s'.inflight == {}
    requires s'.leader.Some? ==> s'.Term() in h'.reigns && h'.reigns[s'.Term()].leader == s'.leader.value
    ensures EngineOk(h', n, s', acked)
  {
    hide Inv, Continues, Secure, BallotsOk, DurableOk, IdentityOk, RoleOk, BooksOk;
    Unpack(h, h', n, s, acked);
    SameIdentity(h', n, s, s');
    FollowerRole(h', n, s', acked);
    if acked {
      assert s.lastApplied == s.commitIndex;
      SameSecure(h, h', n, s, s');
    }
  }

  lemma SameIdentity(h: History, n: NodeId, s: Engine, s': Engine)
    requires IdentityOk(h, n, s) && s'.config == s.config && s'.members == s.members
    ensures IdentityOk(h, n, s')
  {
  }

  lemma FollowerRole(h: History, n: NodeId, s: Engine, acked: bool)
    requires s.role == Follower && s.inflight == {}
    requires s.leader.Some? ==> s.Term() in h.reigns && h.reigns[s.Term()].leader == s.leader.value
    ensures RoleOk(h, n, s) && BooksOk(h, n, s)
  {
  }

  lemma SameSecure(h: History, h': History, n: NodeId, s: Engine, s': Engine)
    requires s'.commitIndex == s.commitIndex && Secure(h', n, s.commitIndex)
    ensures Secure(h', n, s'.commitIndex)
  {
  }

  /** A later term, or a fresh start in the same one: the node becomes a follower. */
  lemma StepDown(h: History, n: NodeId, s: Engine, term: Term, leader: Option<NodeId>, acked: bool)
    returns (h': History)
    requires Inv(h) && EngineOk(h, n, s, acked) && term >= s.Term()
    requires leader.Some? ==> term in h.reigns && h.reigns[term].leader == leader.value
    ensures Continues(h, h', n) && EngineOk(h', n, BecomeFollower(s, term, leader), acked)
    ensures h' == Advance(h, n, term)
  {
    hide Inv, Continues, RoleOk, BooksOk, Secure;
    h' := Advance(h, n, term);
    AdvanceContinues(h, n, term);
    if term > s.Term() {
      NoBallotAhead(h, n, term);
    }
    FollowerOk(h, h', n, s, BecomeFollower(s, term, leader), acked);
  }

  // ---------------------------------------------------------------- elections

  lemma CampaignContinues(h: History, n: NodeId) returns (h': History)
    requires Inv(h) && n in h.voters
    ensures Continues(h, h', n) && h'.term[n] == h.term[n] + 1 && h'.log[n] == h.log[n]
    ensures (n, h'.term[n]) in h'.campaigns && h'.campaigns[(n, h'.term[n])] == h.log[n]
    ensures VoteOf(h', n, h'.term[n]) == Some(n)
    ensures h'.term[n] in h'.reigns ==> h'.reigns[h'.term[n]].leader != n
  {
    var t := h.term[n] + 1;
    NoBallotAhead(h, n, t);
    assert TermsBelow(h.log[n], t);
    hide CampaignsOk, ReignsOk, AckBounds, AcksKept, BallotsOk, CommitsOk, Sourced, TermsBelow, Extends, SecureKept;
    var h1 := Advance(h, n, t);
    AdvanceContinues(h, n, t);
    var h2 := Register(h1, n);
    RegisterKeeps(h1, n);
    GrowthKeepsSecure(h1, h2, n);
    h' := Vote(h2, n, n);
    VoteKeeps(h2, n, n);
    GrowthKeepsSecure(h2, h', n);
    hide Inv;
    ContinuesTransitive(h, h1, h2, n);
    ContinuesTransitive(h, h2, h', n);
  }

  lemma CampaignStep(h: History, n: NodeId, s: Engine, now: Instant, acked: bool) returns (h': History)
    requires Inv(h) && EngineOk(h, n, s, acked) && s.role != Leader
    ensures Continues(h, h', n) && EngineOk(h', n, StartElection(s, now).engine, acked)
    ensures (n, s.Term() + 1) in h'.campaigns && h'.campaigns[(n, s.Term() + 1)] == s.log
  {
    assert s.inflight == {};
    hide Inv, Continues, RoleOk, BooksOk, Secure;
    h' := CampaignContinues(h, n);
    Unpack(h, h', n, s, acked);
    CampaignEngine(h', n, s, now, acked);
  }

  lemma CampaignEngine(h: History, n: NodeId, s: Engine, now: Instant, acked: bool)
    requires IdentityOk(h, n, s) && n in h.term && n in h.log && s.role != Leader && s.inflight == {}
    requires h.term[n] == s.Term() + 1 && h.log[n] == s.log && VoteOf(h, n, s.Term() + 1) == Some(n)
    requires (n, s.Term() + 1) in h.campaigns && h.campaigns[(n, s.Term() + 1)] == s.log
    requires s.Term() + 1 in h.reigns ==> h.reigns[s.Term() + 1].leader != n
    requires acked ==> Secure(h, n, s.commitIndex) && s.lastApplied == s.commitIndex
    ensures EngineOk(h, n, StartElection(s, now).engine, acked)
  {
    hide Secure;
  }

  lemma VoteContinues(h: History, n: NodeId, c: NodeId) returns (h': History)
    requires Inv(h) && n in h.voters && (c, h.term[n]) in h.campaigns
    requires VoteOf(h, n, h.term[n]) == None || VoteOf(h, n, h.term[n]) == Some(c)
    requires UpToDate(h.log[n], |h.campaigns[(c, h.term[n])]|, LastTerm(h.campaigns[(c, h.term[n])]))
    ensures Continues(h, h', n) && VoteOf(h', n, h.term[n]) == Some(c) && h'.term == h.term && h'.log == h.log
  {
    if VoteOf(h, n, h.term[n]) == None {
      h' := Vote(h, n, c);
      VoteKeeps(h, n, c);
      hide CampaignsOk, ReignsOk, AckBounds, AcksKept, BallotsOk, CommitsOk, Sourced, TermsBelow, Extends, SecureKept;
      GrowthKeepsSecure(h, h', n);
    } else {
      h' := h;
      ContinuesReflexive(h, n);
    }
  }

  /** Granting a vote for the first time in a term, or repeating it. */
  lemma GrantStep(h: History, n: NodeId, s: Engine, c: NodeId, deadline: Instant, acked: bool) returns (h': History)
    requires Inv(h) && EngineOk(h, n, s, acked) && c != n && (c, s.Term()) in h.campaigns
    requires s.hard.votedFor == None || s.hard.votedFor == Some(c)
    requires UpToDate(s.log, |h.campaigns[(c, s.Term())]|, LastTerm(h.campaigns[(c, s.Term())]))
    ensures Continues(h, h', n) && VoteOf(h', n, s.Term()) == Some(c)
    ensures EngineOk(h', n, s.(hard := HardState(s.Term(), Some(c)), role := Follower, leader := None, votes := {},
                               electionDeadline := deadline), acked)
  {
    h' := VoteContinues(h, n, c);
    assert s.role != Leader && s.inflight == {};
    hide Inv, Continues, RoleOk, BooksOk, Secure;
    FollowerOk(h, h', n, s, s.(hard := HardState(s.Term(), Some(c)), role := Follower, leader := None, votes := {},
                               electionDeadline := deadline), acked);
  }

  /** Counting a vote that does not decide the election. */
  lemma CountStep(h: History, n: NodeId, s: Engine, v: NodeId, acked: bool)
    requires EngineOk(h, n, s, acked) && s.role == Candidate && v in h.voters && VoteOf(h, v, s.Term()) == Some(n)
    ensures EngineOk(h, n, s.(votes := s.votes + {v}), acked)
  {
    hide Secure;
  }

  lemma QuorumAgrees(h: History, n: NodeId, s: Engine)
    requires IdentityOk(h, n, s)
    ensures s.members.Valid() && s.members.Voters() == h.voters && s.members.Quorum() == h.Quorum()
  {
    assert s.members.Voters() == h.voters;
    M.VotersSize(s.members.order);
  }

  lemma WinStep(h: History, n: NodeId, s: Engine, now: Instant, acked: bool) returns (h': History)
    requires Inv(h) && EngineOk(h, n, s, acked) && s.role == Candidate && |s.votes| >= s.members.Quorum()
    ensures Continues(h, h', n) && EngineOk(h', n, BecomeLeader(s, now), acked)
    ensures s.Term() in h'.reigns && h'.reigns[s.Term()].leader == n
  {
    assert CandidateOk(h, n, s);
    hide Inv, Continues, RoleOk, BooksOk, Secure, CandidateOk;
    h' := ElectContinues(h, n, s);
    Unpack(h, h', n, s, acked);
    WinnerOk(h', n, s, now, acked) by { SelfVote(h, n, s); }
  }

  lemma SelfVote(h: History, n: NodeId, s: Engine)
    requires CandidateOk(h, n, s)
    ensures VoteOf(h, n, s.Term()) == Some(n)
  {
  }

  lemma WinnerOk(h: History, n: NodeId, s: Engine, now: Instant, acked: bool)
    requires IdentityOk(h, n, s) && DurableOk(h, n, s) && VoteOf(h, n, s.Term()) == Some(n)
    requires s.Term() in h.reigns && h.reigns[s.Term()].leader == n && h.reigns[s.Term()].log == s.log
    requires h.Ack(n, s.Term()) == |s.log|
    requires acked ==> Secure(h, n, s.commitIndex) && s.lastApplied == s.commitIndex
    ensures EngineOk(h, n, BecomeLeader(s, now), acked)
  {
    hide Secure;
    WinnerBooks(h, n, s, now, acked);
    hide BooksOk;
  }

  lemma ElectContinues(h: History, n: NodeId, s: Engine) returns (h': History)
    requires Inv(h) && IdentityOk(h, n, s) && DurableOk(h, n, s) && CandidateOk(h, n, s)
    requires |s.votes| >= s.members.Quorum()
    ensures Continues(h, h', n) && h'.term == h.term && h'.log == h.log && h'.ballots == h.ballots
    ensures h'.voters == h.voters
    ensures s.Term() in h'.reigns && h'.reigns[s.Term()].leader == n && h'.reigns[s.Term()].log == s.log
    ensures h'.Ack(n, s.Term()) == |s.log|
  {
    QuorumAgrees(h, n, s);
    hide CampaignsOk, ReignsOk, AckBounds, AcksKept, BallotsOk, CommitsOk, Sourced, TermsBelow, Extends, SecureKept;
    h' := Elect(h, n, s.votes);
    ElectKeeps(h, n, s.votes);
    GrowthKeepsSecure(h, h', n);
  }

  lemma WinnerBooks(h: History, n: NodeId, s: Engine, now: Instant, acked: bool)
    requires IdentityOk(h, n, s)
    ensures BooksOk(h, n, BecomeLeader(s, now))
  {
    QuorumAgrees(h, n, s);
  }

  // ---------------------------------------------------------------- commit and apply

  /** Raising the commit index to a secure index hands out exactly the entries in between. */
  lemma AdvanceCommitStep(h: History, n: NodeId, s: Engine, leaderCommit: Index, lastNew: Index, acked: bool)
    requires Inv(h) && EngineOk(h, n, s, acked) && (acked ==> Secure(h, n, Min(leaderCommit, lastNew)))
    ensures var r := AdvanceCommit(s, leaderCommit, lastNew);
            && EngineOk(h, n, r.engine, acked)
            && (acked ==> CommittedPrefix(s) + AppliesOf(r.actions) == CommittedPrefix(r.engine))
            && (acked ==> forall es, x :: Apply(es) in r.actions && x in es ==> Chosen(h, x))
    ensures forall a :: a in AdvanceCommit(s, leaderCommit, lastNew).actions ==> a.Apply?
  {
    hide Inv, Secure, IdentityOk, RoleOk, BooksOk, Chosen, AppliesOf, CommittedPrefix;
    AdvanceShape(h, n, s, leaderCommit, lastNew, acked);
    var r := AdvanceCommit(s, leaderCommit, lastNew);
    hide AdvanceCommit;
    SameBooks(h, n, s, r.engine, acked);
    SameIdentity(h, n, s, r.engine);
    if acked {
      InvParts(h);
      assert n in h.voters by { EngineVotes(h, n, s, acked); }
      AppliedExactly(h, n, s, r, acked);
    }
  }

  lemma InvParts(h: History)
    requires Inv(h)
    ensures CommitsOk(h) && NodesOk(h)
  {
  }

  /** The commit index rises to what is secure, and what is handed out is cut from the log. */
  lemma AdvanceShape(h: History, n: NodeId, s: Engine, leaderCommit: Index, lastNew: Index, acked: bool)
    requires DurableOk(h, n, s)
    requires acked ==> s.lastApplied == s.commitIndex && Secure(h, n, s.commitIndex)
    requires acked ==> Secure(h, n, Min(leaderCommit, lastNew))
    ensures var r := AdvanceCommit(s, leaderCommit, lastNew); var k := r.engine.commitIndex;
            && r.engine == s.(commitIndex := k, lastApplied := r.engine.lastApplied) && s.commitIndex <= k
            && (forall a :: a in r.actions ==> a.Apply?)
            && (acked ==> Secure(h, n, k) && k <= |s.log| && r.engine.lastApplied == k
                          && r == if k == s.commitIndex then Outcome(s, [])
                                  else Outcome(s.(commitIndex := k, lastApplied := k),
                                               [Apply(s.log[s.commitIndex..k])]))
  {
  }

  lemma SameBooks(h: History, n: NodeId, s: Engine, s': Engine, acked: bool)
    requires RoleOk(h, n, s) && BooksOk(h, n, s)
    requires s' == s.(commitIndex := s'.commitIndex, lastApplied := s'.lastApplied)
    ensures RoleOk(h, n, s') && BooksOk(h, n, s')
  {
    if s.role == Leader {
      forall q | q in s'.nextIndex
        ensures PeerOk(s', q)
      {
        assert PeerOk(s, q);
      }
    }
  }

  lemma AppliedExactly(h: History, n: NodeId, s: Engine, r: Outcome, acked: bool)
    requires CommitsOk(h) && NodesOk(h) && DurableOk(h, n, s) && n in h.voters
    requires s.lastApplied == s.commitIndex && s.commitIndex <= r.engine.commitIndex
    requires Secure(h, n, r.engine.commitIndex)
    requires r == if r.engine.commitIndex == s.commitIndex then Outcome(s, [])
                  else Outcome(s.(commitIndex := r.engine.commitIndex, lastApplied := r.engine.commitIndex),
                               [Apply(s.log[s.commitIndex..r.engine.commitIndex])])
    ensures CommittedPrefix(s) + AppliesOf(r.actions) == CommittedPrefix(r.engine)
    ensures forall es, x :: Apply(es) in r.actions && x in es ==> Chosen(h, x)
  {
    var k := r.engine.commitIndex;
    if k != s.commitIndex {
      var es := s.log[s.commitIndex..k];
      assert AppliesOf(r.actions) == es + AppliesOf(r.actions[1..]) == es;
      hide NodesOk, CommitsOk, Secure, DurableOk, Chosen, AppliesOf;
      AppliedChosen(h, n, s, k);
    }
  }

  lemma AppliedChosen(h: History, n: NodeId, s: Engine, k: Index)
    requires CommitsOk(h) && NodesOk(h) && DurableOk(h, n, s) && n in h.voters
    requires s.commitIndex <= k && Secure(h, n, k)
    ensures k <= |s.log| && forall x :: x in s.log[s.commitIndex..k] ==> Chosen(h, x)
  {
    hide Chosen;
    forall x | x in s.log[s.commitIndex..k]
      ensures Chosen(h, x)
    {
      var i :| 0 <= i < k - s.commitIndex && s.log[s.commitIndex..k][i] == x;
      var j := s.commitIndex + i;
      assert EntrySourced(h, h.log[n], j);
      assert h.log[n][..k][j] == x;
      BackedEntriesChosen(h, h.log[n][..k], h.term[n], j);
    }
  }

  // ---------------------------------------------------------------- accepting a leader's batch

  /** The merge against a legitimate append is exactly the protocol's adoption of the leader's prefix. */
  lemma MergeIsAdoption(h: History, n: NodeId, src: NodeId, msg: Message, acked: bool)
    requires Inv(h) && n in h.voters && msg.AppendEntries? && MsgOk(h, src, n, msg, acked) && msg.term == h.term[n]
    requires PrevMatches(h.log[n], msg.prevLogIndex, msg.prevLogTerm)
    ensures Merge(h.log[n], msg.prevLogIndex, msg.entries) == Adopted(h, n, msg.prevLogIndex + |msg.entries|)
  {
    hide Merge, PrevMatches, CampaignsOk, AckBounds, AcksKept, BallotsOk, CommitsOk, Sourced;
    assert ReignOk(h, msg.term);
    MergeOfSourced(h, h.log[n], h.reigns[msg.term].log, msg.prevLogIndex, msg.prevLogIndex + |msg.entries|);
  }

  lemma MergeOfSourced(h: History, log: Log, source: Log, prev: Index, upTo: Index)
    requires Sourced(h, source) && Sourced(h, log) && prev <= upTo <= |source|
    requires PrevMatches(log, prev, TermAt(source, prev))
    ensures Merge(log, prev, source[prev..upTo]) == if source[..upTo] <= log then log else source[..upTo]
  {
    hide Merge;
    assert WellIndexed(source) by {
      forall i | 0 <= i < |source| ensures source[i].index == i + 1 { assert EntrySourced(h, source, i); }
    }
    forall i | 0 <= i < |log| && i < |source| && log[i].term == source[i].term
      ensures log[..i + 1] == source[..i + 1]
    {
      LogMatching(h, source, log, i);
    }
    if prev > 0 {
      assert log[..(prev - 1) + 1] == source[..(prev - 1) + 1];
    }
    hide Sourced;
    MergeAdoptsSource(log, source, prev, upTo);
  }

  lemma AcceptContinues(h: History, n: NodeId, k: nat)
    requires Inv(h) && n in h.voters && h.term[n] in h.reigns && k <= |h.reigns[h.term[n]].log|
    ensures Continues(h, Accept(h, n, k), n)
  {
    AcceptKeeps(h, n, k);
    AcceptKeepsSecure(h, n, k);
  }

  lemma AppendStep(h: History, n: NodeId, s: Engine, src: NodeId, msg: Message, acked: bool) returns (h': History)
    requires Inv(h) && EngineOk(h, n, s, acked) && s.role == Follower
    requires msg.AppendEntries? && MsgOk(h, src, n, msg, acked) && msg.term == s.Term()
    requires PrevMatches(s.log, msg.prevLogIndex, msg.prevLogTerm)
    ensures Continues(h, h', n) && EngineOk(h', n, s.(log := Merge(s.log, msg.prevLogIndex, msg.entries)), acked)
    ensures msg.prevLogIndex + |msg.entries| <= h'.Ack(n, msg.term)
    ensures acked ==> Secure(h', n, Min(msg.leaderCommit, msg.prevLogIndex + |msg.entries|))
  {
    hide Inv, Continues, BooksOk, Secure, RoleOk, IdentityOk;
    var k := msg.prevLogIndex + |msg.entries|;
    MergeIsAdoption(h, n, src, msg, acked);
    h' := Accept(h, n, k);
    AcceptContinues(h, n, k);
    Unpack(h, h', n, s, acked);
    if acked {
      AdoptedSecure(h, n, k, msg.leaderCommit);
    }
    hide Merge, MsgOk;
    AcceptEngine(h, h', n, s, k, acked);
  }

  lemma AcceptEngine(h: History, h': History, n: NodeId, s: Engine, k: nat, acked: bool)
    requires EngineOk(h, n, s, acked) && IdentityOk(h', n, s) && s.role == Follower
    requires h.term[n] in h.reigns && k <= |h.reigns[h.term[n]].log| && h' == Accept(h, n, k)
    requires acked ==> Secure(h', n, s.commitIndex)
    ensures EngineOk(h', n, s.(log := Adopted(h, n, k)), acked)
  {
    hide Secure;
  }

  /** What the leader says is committed, as far as this batch reaches, is committed here too. */
  lemma AdoptedSecure(h: History, n: NodeId, k: nat, commit: Index)
    requires Inv(h) && n in h.voters && h.term[n] in h.reigns && k <= |h.reigns[h.term[n]].log|
    requires commit <= |h.reigns[h.term[n]].log| && Backed(h, h.reigns[h.term[n]].log[..commit], h.term[n])
    requires Extends(h, Accept(h, n, k), n)
    ensures Secure(Accept(h, n, k), n, Min(commit, k))
  {
    hide CampaignsOk, ReignsOk, AckBounds, AcksKept, BallotsOk, CommitsOk, Sourced, TermsBelow;
    var t, h' := h.term[n], Accept(h, n, k);
    var source, i := h.reigns[t].log, Min(commit, k);
    assert h'.log[n][..i] == source[..i];
    assert Backed(h, source[..i], t) by {
      if i > 0 {
        var t0: Term :| t0 <= t && BackedBy(h, source[..commit], t0);
        assert BackedBy(h, source[..i], t0);
      }
    }
    BackedExtends(h, h', n, source[..i], t, t);
  }

  // ---------------------------------------------------------------- the leader's commit rule

  lemma CommitContinues(h: History, n: NodeId, s: Engine, i: Index) returns (h': History)
    requires Inv(h) && EngineOk(h, n, s, true) && s.role == Leader && 1 <= i <= |s.log| && Committable(s, i)
    requires |h.Ackers(s.Term(), i)| >= h.Blocking()
    ensures Continues(h, h', n) && Secure(h', n, i) && (h' == h || h' == CommitThrough(h, s.Term(), i))
  {
    var t := s.Term();
    if i <= h.Commit(t) {
      h' := h;
      ContinuesReflexive(h, n);
    } else {
      h' := CommitMove(h, n, s, i);
    }
    LeaderSecures(h', n, s, i);
  }

  lemma LeaderSecures(h: History, n: NodeId, s: Engine, i: Index)
    requires DurableOk(h, n, s) && s.Term() in h.reigns && h.reigns[s.Term()].log == s.log && 1 <= i <= |s.log|
    requires i <= h.Commit(s.Term())
    ensures Secure(h, n, i)
  {
    assert BackedBy(h, s.log[..i], s.Term());
  }

  lemma CommitMove(h: History, n: NodeId, s: Engine, i: Index) returns (h': History)
    requires Inv(h) && EngineOk(h, n, s, true) && s.role == Leader && 1 <= i <= |s.log| && Committable(s, i)
    requires |h.Ackers(s.Term(), i)| >= h.Blocking()
    requires h.Commit(s.Term()) < i
    ensures Continues(h, h', n) && h' == CommitThrough(h, s.Term(), i)
  {
    hide Secure, CampaignsOk, ReignsOk, AckBounds, AcksKept, BallotsOk, Sourced, TermsBelow, Extends, SecureKept;
    h' := CommitThrough(h, s.Term(), i);
    hide Holders, BooksOk;
    CommitKeeps(h, s.Term(), i);
    GrowthKeepsSecure(h, h', n);
  }

  lemma CommitStep(h: History, n: NodeId, s: Engine, acked: bool) returns (h': History)
    requires Inv(h) && EngineOk(h, n, s, acked) && s.role == Leader
    requires var i := CommitTarget(s, |s.log|); acked && i > s.commitIndex ==> |h.Ackers(s.Term(), i)| >= h.Blocking()
    ensures Continues(h, h', n) && EngineOk(h', n, MaybeCommit(s).engine, acked)
    ensures acked ==> CommittedPrefix(s) + AppliesOf(MaybeCommit(s).actions) == CommittedPrefix(MaybeCommit(s).engine)
    ensures acked ==> forall es, x :: Apply(es) in MaybeCommit(s).actions && x in es ==> Chosen(h', x)
    ensures forall a :: a in MaybeCommit(s).actions ==> a.Apply?
  {
    hide Inv, Continues, EngineOk, Secure;
    var i := CommitTarget(s, |s.log|);
    if i > s.commitIndex && acked {
      h' := CommitContinues(h, n, s, i);
      Unpack(h, h', n, s, acked);
      CommitKeepsEngine(h, h', n, s, i);
    } else {
      h' := h;
      assert n in h.voters by { EngineVotes(h, n, s, acked); }
      ContinuesReflexive(h, n);
    }
    assert Inv(h') by { ContinuesKeeps(h, h', n); }
    hide AppliesOf;
    if i > s.commitIndex {
      AdvanceCommitStep(h', n, s, i, i, acked);
    } else {
      NoApplies();
    }
  }

  lemma EngineVotes(h: History, n: NodeId, s: Engine, acked: bool)
    requires EngineOk(h, n, s, acked)
    ensures n in h.voters && n in h.term && n in h.log && h.term[n] == s.Term() && h.log[n] == s.log
  {
  }

  lemma ContinuesKeeps(h: History, h': History, n: NodeId)
    requires Continues(h, h', n)
    ensures Inv(h')
  {
  }

  lemma NoApplies()
    ensures AppliesOf([]) == []
  {
  }

  lemma CommitKeepsEngine(h: History, h': History, n: NodeId, s: Engine, i: Index)
    requires EngineOk(h, n, s, true) && IdentityOk(h', n, s) && Secure(h', n, s.commitIndex)
    requires h' == h || h' == CommitThrough(h, s.Term(), i)
    ensures EngineOk(h', n, s, true)
  {
    hide Secure;
    if s.role == Leader {
      forall q | q in s.nextIndex
        ensures PeerOk(s, q)
      {
        assert PeerOk(s, q);
      }
    }
  }

  // ---------------------------------------------------------------- the leader's books

  /** Crediting an answered append keeps the books in order. */
  lemma CreditStep(h: History, n: NodeId, s: Engine, q: NodeId, acked: bool)
    requires EngineOk(h, n, s, acked) && s.role == Leader && q in s.lastAe
    ensures EngineOk(h, n, Credit(s, q), acked)
  {
    hide Secure, IdentityOk, DurableOk, RoleOk;
    CreditBooks(h, n, s, q);
    hide BooksOk;
    BooksChanged(h, n, s, Credit(s, q), acked);
  }

  lemma CreditBooks(h: History, n: NodeId, s: Engine, q: NodeId)
    requires BooksOk(h, n, s) && s.role == Leader && q in s.lastAe
    ensures BooksOk(h, n, Credit(s, q))
  {
    var s' := Credit(s, q);
    assert q in s.nextIndex.Keys && q in s.matchIndex.Keys;
    forall p | p in s'.nextIndex
      ensures PeerOk(s', p)
    {
      assert PeerOk(s, p);
    }
  }

  lemma RejectStep(h: History, n: NodeId, s: Engine, q: NodeId, next: Index, acked: bool)
    requires EngineOk(h, n, s, acked) && s.role == Leader && q in s.nextIndex
    requires next == Max(Max(s.nextIndex[q] - 1, MatchOf(s, q) + 1), 1)
    ensures EngineOk(h, n, s.(inflight := s.inflight - {q}, nextIndex := s.nextIndex[q := next]), acked)
  {
    hide Secure, IdentityOk, DurableOk, RoleOk;
    var s' := s.(inflight := s.inflight - {q}, nextIndex := s.nextIndex[q := next]);
    forall p | p in s'.nextIndex
      ensures PeerOk(s', p)
    {
      assert PeerOk(s, p);
    }
    assert BooksOk(h, n, s');
    hide BooksOk;
    BooksChanged(h, n, s, s', acked);
  }

  /** Appending a proposal to the leader's own log. */
  lemma ProposeStep(h: History, n: NodeId, s: Engine, data: Command, acked: bool) returns (h': History)
    requires Inv(h) && EngineOk(h, n, s, acked) && s.role == Leader
    ensures Continues(h, h', n)
    ensures EngineOk(h', n, s.(log := s.log + [LogEntry(|s.log| + 1, s.Term(), data)]), acked)
  {
    var e := LogEntry(|s.log| + 1, s.Term(), data);
    h' := Extend(h, s.Term(), e);
    assert ReignOk(h, s.Term()) by { ReignIsOk(h, s.Term()); }
    ExtendContinues(h, n, s.Term(), e);
    hide Inv, Continues;
    Unpack(h, h', n, s, acked) by { ProposeUnpacks(h, h', n); }
    ProposeEngine(h, h', n, s, e, acked);
  }

  lemma ProposeUnpacks(h: History, h': History, n: NodeId)
    requires Continues(h, h', n)
    ensures Extends(h, h', n)
  {
  }

  lemma ExtendContinues(h: History, n: NodeId, t: Term, e: LogEntry)
    requires Inv(h) && t in h.reigns && h.reigns[t].leader == n && n in h.voters && h.term[n] == t
    requires h.log[n] == h.reigns[t].log
    requires e.index == |h.reigns[t].log| + 1 && e.term == t
    ensures Continues(h, Extend(h, t, e), n)
  {
    ExtendKeeps(h, t, e);
    hide CampaignsOk, ReignsOk, AckBounds, AcksKept, BallotsOk, CommitsOk, Sourced, TermsBelow, Extends, SecureKept;
    GrowthKeepsSecure(h, Extend(h, t, e), n);
  }

  lemma ProposeEngine(h: History, h': History, n: NodeId, s: Engine, e: LogEntry, acked: bool)
    requires EngineOk(h, n, s, acked) && s.role == Leader && IdentityOk(h', n, s)
    requires h' == Extend(h, s.Term(), e)
    requires acked ==> Secure(h', n, s.commitIndex)
    ensures EngineOk(h', n, s.(log := s.log + [e]), acked)
  {
    hide Secure;
    var s' := s.(log := s.log + [e]);
    forall q | q in s'.nextIndex
      ensures PeerOk(s', q)
    {
      assert PeerOk(s, q);
      assert h.Ack(q, s.Term()) <= h'.Ack(q, s.Term());
    }
  }
}
