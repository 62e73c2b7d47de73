/** What handling a message does, whatever the message: which term the node is in afterwards, what it answers, whose
    vote it has given, when it restarts its timers, and how its books change. */
module Handling {
  import opened Types
  import opened LogSpec
  import opened EngineSpec
  import opened Progress

  predicate IsRequest(m: Message) {
    m.RequestVote? || m.AppendEntries?
  }

  predicate IsAnswer(m: Message) {
    m.RequestVoteResp? || m.AppendEntriesResp?
  }

  /** `answer` is of the kind that `request` asks for. */
  predicate InKind(request: Message, answer: Message) {
    (request.RequestVote? && answer.RequestVoteResp?) || (request.AppendEntries? && answer.AppendEntriesResp?)
  }

  // ---------------------------------------------------------------- terms

  /** A node is never behind a message it has handled, and is a follower whenever the message was ahead of it. Only a
      vote that is asked for changes the stored vote within a term. */
  lemma TermIsAdopted(s: Engine, from: NodeId, msg: Message, now: Instant)
    requires IsRequest(msg) || IsAnswer(msg)
    ensures var s' := HandleRpc(s, from, msg, now).engine;
            && s'.Term() == Max(s.Term(), msg.term)
            && (msg.term > s.Term() ==> s'.role == Follower)
            && (!msg.RequestVote? ==> s'.hard == if msg.term > s.Term() then HardState(msg.term, None) else s.hard)
  {
    hide Merge, Slice;
    if msg.AppendEntriesResp? && s.role == Leader && msg.term == s.Term() && from in s.lastAe && msg.success {
      CommitTouches(Credit(s, from));
      hide MaybeCommit;
    }
  }

  /** Late answers, votes that no candidate waits for, news of appends that no leader remembers, and everything about
      snapshots change nothing. */
  lemma NoiseIsIgnored(s: Engine, from: NodeId, msg: Message, now: Instant)
    requires || msg.InstallSnapshot? || msg.InstallSnapshotResp? || (IsAnswer(msg) && msg.term < s.Term())
             || (msg.RequestVoteResp? && msg.term == s.Term() && (s.role != Candidate || !msg.voteGranted))
             || (msg.AppendEntriesResp? && msg.term == s.Term() && (s.role != Leader || from !in s.lastAe))
    ensures HandleRpc(s, from, msg, now) == Outcome(s, [])
  {
  }

  // ---------------------------------------------------------------- answers

  /** What a node does about a request ends with its answer, and before that it sends nothing. */
  ghost predicate EndsInAnswer(r: Outcome, before: seq<Action>, from: NodeId, answer: Message) {
    && r.actions == before + [Send(from, answer)] && answer.term == r.engine.Term()
    && forall a :: a in before ==> !a.Send? && !a.Broadcast?
  }

  /** A request is answered to whoever asked, in kind, and in the term that the node is then in, the greater of its
      own and the request's. The node sends nothing else. */
  lemma RequestsAreAnswered(s: Engine, from: NodeId, msg: Message, now: Instant)
    returns (before: seq<Action>, answer: Message)
    requires IsRequest(msg)
    ensures EndsInAnswer(HandleRpc(s, from, msg, now), before, from, answer)
    ensures InKind(msg, answer) && answer.term == Max(s.Term(), msg.term)
  {
    hide HandleRequestVote, HandleAppendEntries, EndsInAnswer;
    TermIsAdopted(s, from, msg, now);
    match msg
    case RequestVote(_, _, _, _) => before, answer := VotesAreAnswered(s, from, msg, now);
    case AppendEntries(_, _, _, _, _, _) => before, answer := AppendsAreAnswered(s, from, msg, now);
    TermOfAnswer(s, from, msg, now, before, answer);
  }

  lemma TermOfAnswer(s: Engine, from: NodeId, msg: Message, now: Instant, before: seq<Action>, answer: Message)
    requires EndsInAnswer(HandleRpc(s, from, msg, now), before, from, answer)
    ensures answer.term == HandleRpc(s, from, msg, now).engine.Term()
  {
    hide HandleRpc;
  }

  lemma VotesAreAnswered(s: Engine, from: NodeId, msg: Message, now: Instant)
    returns (before: seq<Action>, answer: Message)
    requires msg.RequestVote?
    ensures EndsInAnswer(HandleRpc(s, from, msg, now), before, from, answer) && answer.RequestVoteResp?
  {
    var actions := HandleRpc(s, from, msg, now).actions;
    before := if msg.term > s.Term() then [BecameFollower(msg.term, None)] else [];
    answer := actions[|actions| - 1].msg;
  }

  lemma AppendsAreAnswered(s: Engine, from: NodeId, msg: Message, now: Instant)
    returns (before: seq<Action>, answer: Message)
    requires msg.AppendEntries?
    ensures EndsInAnswer(HandleRpc(s, from, msg, now), before, from, answer) && answer.AppendEntriesResp?
  {
    hide Merge, AdvanceCommit;
    if msg.term < s.Term() {
      before, answer := [], AppendEntriesResp(s.Term(), false, |s.log|);
    } else {
      var r := FollowLeader(s, msg.term, msg.leader, now);
      if PrevMatches(s.log, msg.prevLogIndex, msg.prevLogTerm) {
        var s1, upTo := r.engine.(log := Merge(s.log, msg.prevLogIndex, msg.entries)), msg.prevLogIndex + |msg.entries|;
        AdvanceTouches(s1, msg.leaderCommit, upTo);
        AdvanceOnlyApplies(s1, msg.leaderCommit, upTo);
        before := r.actions + AdvanceCommit(s1, msg.leaderCommit, upTo).actions;
        answer := AppendEntriesResp(msg.term, true, upTo);
      } else {
        before, answer := r.actions, AppendEntriesResp(msg.term, false, |s.log|);
      }
    }
  }

  lemma AdvanceOnlyApplies(s: Engine, leaderCommit: Index, lastNew: Index)
    ensures forall a :: a in AdvanceCommit(s, leaderCommit, lastNew).actions ==> a.Apply?
  {
    hide Slice;
  }

  /** An answer is not answered: the most it leads to is another append to its sender, by a leader. */
  lemma AnswersAreNot(s: Engine, from: NodeId, msg: Message, now: Instant)
    requires IsAnswer(msg)
    ensures var r := HandleRpc(s, from, msg, now);
            forall a :: a in r.actions ==>
              !a.Broadcast? && (a.Send? ==> a.to == from && a.msg.AppendEntries? && r.engine.role == Leader)
  {
    if msg.AppendEntriesResp? && s.role == Leader && msg.term == s.Term() && from in s.lastAe && msg.success {
      CommitOnlyApplies(Credit(s, from));
      hide MaybeCommit;
    }
  }

  /** When a node grants its vote: the candidate is not behind, its log does not fall short, and the node has not
      voted for anybody else in that term. The vote it grants is the vote it stores. */
  lemma VoteGrantedIff(s: Engine, from: NodeId, msg: Message, now: Instant)
    requires msg.RequestVote?
    ensures var r := HandleRpc(s, from, msg, now);
            var granted := Send(from, RequestVoteResp(msg.term, true)) in r.actions;
            var outranked := msg.lastLogTerm < LastTerm(s.log)
                             || (msg.lastLogTerm == LastTerm(s.log) && msg.lastLogIndex < |s.log|);
            && (granted <==>
                  && msg.term >= s.Term() && !outranked
                  && (msg.term > s.Term() || s.hard.votedFor == None || s.hard.votedFor == Some(msg.candidate)))
            && (granted ==> r.engine.hard == HardState(msg.term, Some(msg.candidate))
                            && r.engine.role == Follower && r.engine.leader == None)
            && (!granted ==> r.engine.hard == if msg.term > s.Term() then HardState(msg.term, None) else s.hard)
            && r.engine.log == s.log && r.engine.commitIndex == s.commitIndex
  {
  }

  /** When a node becomes leader: a candidate has a vote of its term granted and so reaches a quorum. It then leads
      with nothing in flight, every other voter credited with nothing and next to be sent what follows the log. Any
      other answer of its term, or of an earlier one, at most adds a vote. */
  lemma ElectedIff(s: Engine, from: NodeId, msg: Message, now: Instant)
    requires msg.RequestVoteResp? && msg.term <= s.Term()
    ensures var r := HandleRpc(s, from, msg, now);
            var counted := s.role == Candidate && msg.voteGranted && msg.term == s.Term();
            var elected := counted && |s.votes + {from}| >= s.members.Quorum();
            && (r.engine.role == Leader <==> s.role == Leader || elected)
            && (elected ==>
                  && r.engine.leader == Some(s.Id()) && r.engine.inflight == {} && r.engine.lastAe == map[]
                  && (forall p :: p in r.engine.nextIndex <==> p in s.members.Voters() && p != s.Id())
                  && (forall p :: p in r.engine.nextIndex ==> NextOf(r.engine, p) == |s.log| + 1)
                  && (forall p :: MatchOf(r.engine, p) == 0))
            && (!elected ==> r == Outcome(s.(votes := if counted then s.votes + {from} else s.votes), []))
            && r.engine.hard == s.hard && r.engine.log == s.log && r.engine.commitIndex == s.commitIndex
  {
  }

  /** When a node accepts an append: the sender is not behind and the logs meet where the batch begins. What it then
      holds, has committed and answers; and that a refusal leaves log and commit index alone. */
  lemma AppendAcceptedIff(s: Engine, from: NodeId, msg: Message, now: Instant)
    requires msg.AppendEntries?
    ensures var r := HandleRpc(s, from, msg, now);
            var current := msg.term >= s.Term();
            var accepted := && current && msg.prevLogIndex <= |s.log|
                            && TermAt(s.log, msg.prevLogIndex) == msg.prevLogTerm;
            var upTo := msg.prevLogIndex + |msg.entries|;
            && Send(from, AppendEntriesResp(r.engine.Term(), accepted, if accepted then upTo else |s.log|)) in r.actions
            && (accepted ==> r.engine.log == Merge(s.log, msg.prevLogIndex, msg.entries)
                             && r.engine.commitIndex == Max(s.commitIndex, Min(msg.leaderCommit, upTo)))
            && (!accepted ==> r.engine.log == s.log && r.engine.commitIndex == s.commitIndex)
            && (current ==> r.engine.role == Follower && r.engine.leader == Some(msg.leader))
            && (!current ==> r.engine == s)
  {
    var r := HandleRpc(s, from, msg, now);
    if msg.term >= s.Term() && PrevMatches(s.log, msg.prevLogIndex, msg.prevLogTerm) {
      AdvanceTouches(FollowLeader(s, msg.term, msg.leader, now).engine.(
                       log := Merge(s.log, msg.prevLogIndex, msg.entries)),
                     msg.leaderCommit, msg.prevLogIndex + |msg.entries|);
    }
    hide Merge, Slice;
    assert r.actions[|r.actions| - 1] in r.actions;
  }

  /** One append makes a follower whose log is what the leader takes it for a copy of the leader, told of all that the
      leader has committed; and the answer says so. */
  lemma OneAppendCopies(l: Engine, f: Engine, p: NodeId, msg: Message, now: Instant)
    requires BuildAppendEntries(l, p) == Some(msg) && f.Term() <= l.Term() && WellIndexed(l.log)
    requires f.log == l.log[..msg.prevLogIndex]
    ensures var r := HandleRpc(f, l.Id(), msg, now);
            && msg.AppendEntries? && msg.leader == l.Id() && msg.term == l.Term() && r.engine.log == l.log
            && r.engine.commitIndex == Max(f.commitIndex, Min(l.commitIndex, |l.log|))
            && r.engine.leader == Some(l.Id()) && r.engine.Term() == l.Term()
            && Send(l.Id(), AppendEntriesResp(l.Term(), true, |l.log|)) in r.actions
  {
    hide HandleRpc, Merge;
    var prev := msg.prevLogIndex;
    TermIsAdopted(f, l.Id(), msg, now);
    AppendAcceptedIff(f, l.Id(), msg, now);
    assert Merge(f.log, prev, l.log[prev..]) == l.log by {
      assert l.log[prev..|l.log|] == l.log[prev..] && l.log[..|l.log|] == l.log;
      MergeAdoptsSource(f.log, l.log, prev, |l.log|);
    }
  }

  // ---------------------------------------------------------------- the leader's books

  /** Nothing but the books on `p` has changed. */
  ghost predicate OtherBooksKept(s: Engine, s': Engine, p: NodeId) {
    forall q :: q != p ==> NextOf(s', q) == NextOf(s, q) && MatchOf(s', q) == MatchOf(s, q)
                           && (q in s'.inflight <==> q in s.inflight)
  }

  /** A success: the peer is taken to hold what the last append to it reached, and next gets what follows. */
  lemma SuccessMovesUp(s: Engine, p: NodeId, msg: Message, now: Instant)
    requires s.role == Leader && msg.AppendEntriesResp? && msg.success && msg.term == s.Term() && p in s.lastAe
    ensures var s' := HandleRpc(s, p, msg, now).engine; var upTo := s.lastAe[p].0 + s.lastAe[p].1;
            && MatchOf(s', p) == Max(MatchOf(s, p), upTo) && NextOf(s', p) == upTo + 1
            && OtherBooksKept(s, s', p) && s'.role == Leader && s'.log == s.log
  {
    var s1 := MaybeCommit(Credit(s, p)).engine;
    CommitTouches(Credit(s, p));
    hide MaybeCommit, BuildAppendEntries;
    assert MatchOf(s1, p) == MatchOf(Credit(s, p), p) && NextOf(s1, p) == NextOf(Credit(s, p), p);
    SendingTouches(s1, p);
    hide SendAppendEntriesTo;
  }

  /** A rejection: if it is about the append that the next index still points at, the next index steps back by one,
      not below what is known to match, and the peer is sent to again; otherwise only its mark goes. */
  lemma RejectionMovesDown(s: Engine, p: NodeId, msg: Message, now: Instant)
    requires s.role == Leader && msg.AppendEntriesResp? && !msg.success && msg.term == s.Term() && p in s.lastAe
    ensures var r := HandleRpc(s, p, msg, now); var current := NextOf(s, p) == s.lastAe[p].0 + 1;
            && MatchOf(r.engine, p) == MatchOf(s, p) && OtherBooksKept(s, r.engine, p) && r.engine.log == s.log
            && (current ==> NextOf(r.engine, p) == Max(Max(NextOf(s, p) - 1, MatchOf(s, p) + 1), 1))
            && (!current ==> r == Outcome(s.(inflight := s.inflight - {p}), []))
            && (current && NextOf(r.engine, p) <= |s.log| + 1 ==>
                  p in r.engine.inflight && exists m :: r.actions == [Send(p, m)] && m.AppendEntries?
                                                        && m.prevLogIndex == NextOf(r.engine, p) - 1)
  {
    hide BuildAppendEntries;
    var next := NextOf(s, p);
    if next == s.lastAe[p].0 + 1 {
      var s1 := s.(inflight := s.inflight - {p},
                   nextIndex := s.nextIndex[p := Max(Max(next - 1, MatchOf(s, p) + 1), 1)]);
      assert HandleRpc(s, p, msg, now) == SendAppendEntriesTo(s1, p);
      hide SendAppendEntriesTo;
      SendingTouches(s1, p);
    }
  }

  /** Sending to an idle peer marks it, touches no other mark and no index. */
  lemma SendingTouches(s: Engine, p: NodeId)
    requires p !in s.inflight && p in s.nextIndex && 1 <= s.nextIndex[p]
    ensures var r := SendAppendEntriesTo(s, p); var s' := r.engine;
            && s' == s.(lastAe := s'.lastAe, inflight := s'.inflight)
            && (forall q :: q != p ==> (q in s'.inflight <==> q in s.inflight))
            && (s.nextIndex[p] <= |s.log| + 1 ==>
                  p in s'.inflight && exists m :: r.actions == [Send(p, m)] && m.AppendEntries?
                                                  && m.prevLogIndex == s.nextIndex[p] - 1)
  {
    var r := SendAppendEntriesTo(s, p);
    if s.nextIndex[p] <= |s.log| + 1 {
      assert r.actions == [Send(p, r.actions[0].msg)];
    }
  }

  // ---------------------------------------------------------------- timers

  /** The moment an election timer started at `now` goes off. */
  function ElectionDue(s: Engine, now: Instant): Instant {
    now + s.config.electionTimeout + s.config.electionJitter
  }

  /** A message restarts the election timer exactly when it wins the node's vote, comes from the leader of a term that
      is not stale, or makes the node leader; and only the last starts the heartbeat. */
  lemma TimersRestartIff(s: Engine, from: NodeId, msg: Message, now: Instant)
    ensures var r := HandleRpc(s, from, msg, now);
            var contact := msg.AppendEntries? && msg.term >= s.Term();
            var voted := msg.RequestVote? && Send(from, RequestVoteResp(msg.term, true)) in r.actions;
            var won := s.role != Leader && r.engine.role == Leader;
            && r.engine.electionDeadline ==
               (if contact || voted || won then ElectionDue(s, now) else s.electionDeadline)
            && r.engine.heartbeatDeadline ==
               if won then now + s.config.heartbeatInterval else s.heartbeatDeadline
  {
    hide Merge, AdvanceCommit, MaybeCommit, BuildAppendEntries, UpToDate, PrevMatches;
    if msg.AppendEntriesResp? && s.role == Leader && msg.term == s.Term() && from in s.lastAe && msg.success {
      CommitTouches(Credit(s, from));
    }
    if msg.AppendEntries? && msg.term >= s.Term() && PrevMatches(s.log, msg.prevLogIndex, msg.prevLogTerm) {
      MergedTouches(s, msg, now);
    }
  }

  lemma MergedTouches(s: Engine, msg: Message, now: Instant)
    requires msg.AppendEntries? && PrevMatches(s.log, msg.prevLogIndex, msg.prevLogTerm)
    ensures var s1 := FollowLeader(s, msg.term, msg.leader, now).engine.(
                        log := Merge(s.log, msg.prevLogIndex, msg.entries));
            var s' := AdvanceCommit(s1, msg.leaderCommit, msg.prevLogIndex + |msg.entries|).engine;
            s' == s1.(commitIndex := s'.commitIndex, lastApplied := s'.lastApplied)
  {
    hide Merge, FollowLeader;
    AdvanceTouches(FollowLeader(s, msg.term, msg.leader, now).engine.(
                     log := Merge(s.log, msg.prevLogIndex, msg.entries)),
                   msg.leaderCommit, msg.prevLogIndex + |msg.entries|);
  }

  /** A node that stands moves to the next term with its own vote stored, and has the full time-out and jitter until
      it would stand again. */
  lemma StandingRestartsTimer(s: Engine, now: Instant)
    requires s.role != Leader && now >= s.electionDeadline
    ensures var r := EngineSpec.Tick(s, now);
            && r.engine.electionDeadline == ElectionDue(s, now) && r.engine.role == Candidate && r.engine.leader == None
            && r.engine.hard == HardState(s.Term() + 1, Some(s.Id())) && r.engine.votes == {s.Id()}
            && r.engine.log == s.log && r.engine.commitIndex == s.commitIndex
            && Broadcast(RequestVote(s.Term() + 1, s.Id(), |s.log|, LastTerm(s.log))) in r.actions
  {
    var r := EngineSpec.Tick(s, now);
    assert r.actions[1] in r.actions;
  }

  /** A heartbeat restarts its own timer and no other, and a tick before its time does nothing. */
  lemma BeatingRestartsTimer(s: Engine, now: Instant)
    ensures var s' := EngineSpec.Tick(s, now).engine;
            && (s.role == Leader && now >= s.heartbeatDeadline ==>
                  s'.heartbeatDeadline == now + s.config.heartbeatInterval && s'.electionDeadline == s.electionDeadline)
            && (s.role == Leader && now < s.heartbeatDeadline ==> EngineSpec.Tick(s, now) == Outcome(s, []))
            && (s.role != Leader && now < s.electionDeadline ==> EngineSpec.Tick(s, now) == Outcome(s, []))
  {
    hide ReplicateTo;
    ReplicateTouches(s, s.Others());
  }

  /** A node that starts is a follower that waits out a whole time-out before it stands. */
  lemma StartingWaits(config: Config, hard: HardState, log: Log, now: Instant, later: Instant)
    ensures var s := EngineSpec.New(config, hard, log, now);
            && s.role == Follower && s.leader == None && s.hard == hard && s.log == log && s.config == config
            && s.commitIndex == s.lastApplied == 0 && s.heartbeatDeadline == now + config.heartbeatInterval
            && s.NextDeadline() == ElectionDue(s, now)
            && (EngineSpec.Tick(s, later).engine.role == Candidate <==> later >= ElectionDue(s, now))
  {
  }
}
