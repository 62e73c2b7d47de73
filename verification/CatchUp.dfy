/** A leader and one peer, left alone, bring the peer's log up to the leader's in a bounded number of exchanges. */
module CatchUp {
  import opened Types
  import opened LogSpec
  import opened EngineSpec
  import opened NodeSpec
  import opened Cluster
  import opened Progress
  import opened Coupling
  import opened Events
  import opened Reachability
  import opened Safety
  import opened Tenure
  import opened Guarantees
  import Protocol
  import Commitment

  /** A leader, a peer, and the append to that peer which is still unanswered. */
  datatype Link = Link(leader: Engine, peer: Engine, outstanding: Option<Message>)

  /** The append among the leader's actions; it always comes last. */
  function NextAppend(actions: seq<Action>): Option<Message> {
    if actions != [] && actions[|actions| - 1].Send? then Some(actions[|actions| - 1].msg) else None
  }

  function AnswerOf(r: Outcome): Option<Message> {
    NextAppend(r.actions)
  }

  /** One exchange: the peer handles the outstanding append, the leader handles the peer's answer. */
  function Exchange(k: Link, p: NodeId, now: Instant): Link {
    if k.outstanding.None? then k
    else
      var r := HandleRpc(k.peer, k.leader.Id(), k.outstanding.value, now);
      if AnswerOf(r).None? then Link(k.leader, r.engine, None)
      else
        var q := HandleRpc(k.leader, p, AnswerOf(r).value, now);
        Link(q.engine, r.engine, NextAppend(q.actions))
  }

  function Exchanges(k: Link, p: NodeId, now: Instant, n: nat): Link
    decreases n
  {
    if n == 0 then k else Exchanges(Exchange(k, p, now), p, now, n - 1)
  }

  // ---------------------------------------------------------------- what a reached state provides

  /** Two logs that share a term at an index share everything up to it. */
  ghost predicate Matching(a: Log, b: Log) {
    forall i :: 0 <= i < |a| && i < |b| && a[i].term == b[i].term ==> a[..i + 1] == b[..i + 1]
  }

  /** The append is cut from the leader's log at its books, and is the one the leader remembers. */
  ghost predicate Current(s: Engine, p: NodeId, msg: Message) {
    && msg.AppendEntries? && msg.term == s.Term() && msg.leader == s.Id()
    && p in s.inflight && p in s.lastAe && s.lastAe[p] == (msg.prevLogIndex, |msg.entries|)
    && p in s.nextIndex && s.nextIndex[p] == msg.prevLogIndex + 1
    && msg.prevLogIndex + |msg.entries| <= |s.log|
    && msg.entries == s.log[msg.prevLogIndex..msg.prevLogIndex + |msg.entries|]
    && msg.prevLogTerm == TermAt(s.log, msg.prevLogIndex)
  }

  ghost predicate Ready(k: Link, p: NodeId) {
    var s, f := k.leader, k.peer;
    && s.role == Leader && f.Term() <= s.Term() && WellIndexed(s.log) && Matching(f.log, s.log)
    && p in s.matchIndex && p in s.nextIndex && s.matchIndex[p] < s.nextIndex[p] <= |s.log| + 1
    && s.log[..s.matchIndex[p]] <= f.log
    && k.outstanding.Some? && Current(s, p, k.outstanding.value)
  }

  function Gap(s: Engine, p: NodeId): int {
    NextOf(s, p) - MatchOf(s, p)
  }

  /** Does the outstanding append reach the end of the leader's log? */
  predicate ReachesEnd(k: Link) {
    k.outstanding.Some? && k.outstanding.value.AppendEntries? &&
    k.outstanding.value.prevLogIndex + |k.outstanding.value.entries| == |k.leader.log|
  }

  /** How many exchanges are still needed at most. */
  function Budget(k: Link, p: NodeId): int {
    Gap(k.leader, p) + if ReachesEnd(k) then 0 else 1
  }

  ghost predicate CaughtUp(k: Link, p: NodeId) {
    && k.outstanding == None && k.leader.role == Leader && p !in k.leader.inflight && k.peer.Term() <= k.leader.Term()
    && p in k.leader.matchIndex && k.leader.matchIndex[p] == |k.leader.log|
    && p in k.leader.nextIndex && k.leader.nextIndex[p] == |k.leader.log| + 1
    && k.leader.log <= k.peer.log
  }

  // ---------------------------------------------------------------- the peer's half

  predicate Accepts(f: Engine, msg: Message)
    requires msg.AppendEntries?
  {
    PrevMatches(f.log, msg.prevLogIndex, msg.prevLogTerm)
  }

  lemma PeerAnswers(f: Engine, from: NodeId, msg: Message, now: Instant)
    requires msg.AppendEntries? && msg.term >= f.Term()
    ensures var r := HandleRpc(f, from, msg, now);
            && r.engine.Term() == msg.term
            && AnswerOf(r).Some? && AnswerOf(r).value.AppendEntriesResp?
            && AnswerOf(r).value.term == msg.term && AnswerOf(r).value.success == Accepts(f, msg)
            && (Accepts(f, msg) ==>
                  msg.prevLogIndex <= |f.log| && r.engine.log == Merge(f.log, msg.prevLogIndex, msg.entries))
            && (!Accepts(f, msg) ==> r.engine.log == f.log)
  {
    hide Merge, Slice;
  }

  /** A peer that accepts holds the leader's log as far as the append reaches. */
  lemma AcceptedReachesPeer(k: Link, p: NodeId)
    requires Ready(k, p) && Accepts(k.peer, k.outstanding.value)
    ensures var msg := k.outstanding.value; var upTo := msg.prevLogIndex + |msg.entries|;
            && msg.prevLogIndex <= |k.peer.log|
            && var merged := Merge(k.peer.log, msg.prevLogIndex, msg.entries);
               k.leader.log[..upTo] <= merged && Matching(merged, k.leader.log)
  {
    hide Merge;
    var msg := k.outstanding.value;
    var prev, upTo := msg.prevLogIndex, msg.prevLogIndex + |msg.entries|;
    var log, source := k.peer.log, k.leader.log;
    if prev > 0 {
      assert log[prev - 1].term == source[prev - 1].term;
    }
    MergeAdoptsSource(log, source, prev, upTo);
  }

  /** Only an index beyond what is known to match can be rejected. */
  lemma MatchedIsAccepted(k: Link, p: NodeId)
    requires Ready(k, p) && Gap(k.leader, p) == 1
    ensures Accepts(k.peer, k.outstanding.value)
  {
    var m := k.leader.matchIndex[p];
    if m > 0 {
      assert k.peer.log[m - 1] == k.leader.log[..m][m - 1];
    }
  }

  // ---------------------------------------------------------------- the leader's half

  lemma RejectionStepsBack(k: Link, p: NodeId, now: Instant)
    requires Ready(k, p) && !Accepts(k.peer, k.outstanding.value)
    ensures var k' := Exchange(k, p, now);
            && Ready(k', p) && k'.leader.log == k.leader.log && k'.leader.Term() == k.leader.Term()
            && Gap(k'.leader, p) == Gap(k.leader, p) - 1 && MatchOf(k'.leader, p) == MatchOf(k.leader, p)
            && ReachesEnd(k')
  {
    hide Merge;
    var msg := k.outstanding.value;
    if Gap(k.leader, p) == 1 {
      MatchedIsAccepted(k, p);
      assert false;
    }
    PeerAnswers(k.peer, k.leader.Id(), msg, now);
    RejectionAtLeader(k.leader, p, AnswerOf(HandleRpc(k.peer, k.leader.Id(), msg, now)).value, msg, now);
  }

  /** Sending to an idle peer cuts an append from its next index to the end of the log. */
  lemma SendsCurrent(s: Engine, p: NodeId)
    requires p !in s.inflight && p in s.nextIndex && 1 <= s.nextIndex[p] <= |s.log| + 1
    ensures var r := SendAppendEntriesTo(s, p);
            && r.engine == s.(lastAe := r.engine.lastAe, inflight := r.engine.inflight) && |r.actions| == 1
            && NextAppend(r.actions).Some? && Current(r.engine, p, NextAppend(r.actions).value)
            && NextAppend(r.actions).value.prevLogIndex + |NextAppend(r.actions).value.entries| == |s.log|
  {
  }

  lemma RejectionAtLeader(s: Engine, p: NodeId, answer: Message, msg: Message, now: Instant)
    requires s.role == Leader && Current(s, p, msg) && answer.AppendEntriesResp? && answer.term == s.Term()
    requires !answer.success
    requires p in s.matchIndex && p in s.nextIndex && s.matchIndex[p] + 2 <= s.nextIndex[p] <= |s.log| + 1
    ensures var q := HandleRpc(s, p, answer, now);
            && q.engine == s.(nextIndex := s.nextIndex[p := s.nextIndex[p] - 1], lastAe := q.engine.lastAe,
                              inflight := q.engine.inflight)
            && NextAppend(q.actions).Some? && Current(q.engine, p, NextAppend(q.actions).value)
            && NextAppend(q.actions).value.prevLogIndex + |NextAppend(q.actions).value.entries| == |s.log|
  {
    SendsCurrent(s.(inflight := s.inflight - {p}, nextIndex := s.nextIndex[p := s.nextIndex[p] - 1]), p);
    hide SendAppendEntriesTo, NextAppend;
  }

  lemma SuccessAtLeader(s: Engine, p: NodeId, answer: Message, msg: Message, now: Instant)
    requires s.role == Leader && Current(s, p, msg) && answer.AppendEntriesResp? && answer.term == s.Term()
    requires answer.success
    requires p in s.matchIndex && s.matchIndex[p] < s.nextIndex[p]
    ensures var q := HandleRpc(s, p, answer, now); var upTo := msg.prevLogIndex + |msg.entries|;
            && q.engine.role == Leader && q.engine.Term() == s.Term() && q.engine.log == s.log
            && q.engine.Id() == s.Id()
            && p in q.engine.matchIndex && q.engine.matchIndex[p] == upTo
            && p in q.engine.nextIndex && q.engine.nextIndex[p] == upTo + 1
            && (upTo == |s.log| ==> NextAppend(q.actions) == None && p !in q.engine.inflight)
            && (upTo < |s.log| ==> NextAppend(q.actions).Some? && Current(q.engine, p, NextAppend(q.actions).value)
                                    && var next := NextAppend(q.actions).value;
                                       next.prevLogIndex + |next.entries| == |s.log|)
  {
    var s1, upTo := Credit(s, p), msg.prevLogIndex + |msg.entries|;
    var r := MaybeCommit(s1);
    MaybeCommitTouches(s1);
    hide MaybeCommit;
    if upTo < |s.log| {
      SendsCurrent(r.engine, p);
      hide SendAppendEntriesTo;
      var sent := SendAppendEntriesTo(r.engine, p).actions;
      assert (r.actions + sent)[|r.actions + sent| - 1] == sent[0];
    }
  }

  lemma MaybeCommitTouches(s: Engine)
    ensures var r := MaybeCommit(s);
            r.engine == s.(commitIndex := r.engine.commitIndex, lastApplied := r.engine.lastApplied)
            && NextAppend(r.actions) == None
  {
    hide CommitTarget, Slice;
  }

  lemma SuccessMovesOn(k: Link, p: NodeId, now: Instant)
    requires Ready(k, p) && Accepts(k.peer, k.outstanding.value)
    ensures var k' := Exchange(k, p, now);
            && k'.leader.log == k.leader.log && k'.leader.Term() == k.leader.Term()
            && (ReachesEnd(k) ==> CaughtUp(k', p))
            && (!ReachesEnd(k) ==> Ready(k', p) && ReachesEnd(k') && Gap(k'.leader, p) == 1)
  {
    hide Merge;
    var msg := k.outstanding.value;
    var answer := AnswerOf(HandleRpc(k.peer, k.leader.Id(), msg, now)).value;
    PeerAnswers(k.peer, k.leader.Id(), msg, now);
    AcceptedReachesPeer(k, p);
    SuccessAtLeader(k.leader, p, answer, msg, now);
    hide HandleRpc;
  }

  // ---------------------------------------------------------------- catching up

  /** After `n` exchanges the peer holds the leader's whole log, which has not changed, and the leader knows it. */
  ghost predicate CaughtUpAfter(k: Link, p: NodeId, now: Instant, n: nat) {
    var k' := Exchanges(k, p, now, n);
    CaughtUp(k', p) && k'.leader.log == k.leader.log
  }

  /** Every rejection narrows the gap by exactly one, and the first acceptance ends the search: after at most as
      many exchanges as the gap is wide, plus one when the leader's log grew since the append was sent, the peer
      holds the leader's whole log and the leader knows it. */
  lemma PeerCatchesUp(k: Link, p: NodeId, now: Instant)
    requires Ready(k, p)
    ensures Budget(k, p) <= Gap(k.leader, p) + 1
    ensures exists n: nat :: 1 <= n <= Budget(k, p) && CaughtUpAfter(k, p, now, n)
  {
    hide Ready, CaughtUpAfter;
    var n := CountExchanges(k, p, now);
    assert CaughtUpAfter(k, p, now, n);
  }

  lemma {:induction false} CountExchanges(k: Link, p: NodeId, now: Instant) returns (n: nat)
    requires Ready(k, p)
    ensures 1 <= n <= Budget(k, p) && CaughtUpAfter(k, p, now, n)
    decreases Budget(k, p)
  {
    hide Exchange, Ready, Accepts, CaughtUp;
    assert Gap(k.leader, p) >= 1 && k.outstanding.Some? && k.outstanding.value.AppendEntries? by {
      GapIsPositive(k, p);
    }
    var k' := Exchange(k, p, now);
    if Accepts(k.peer, k.outstanding.value) {
      SuccessMovesOn(k, p, now);
      if ReachesEnd(k) {
        n := 1;
        assert Exchanges(k, p, now, 1) == Exchanges(k', p, now, 0) == k';
        return;
      }
    } else {
      RejectionStepsBack(k, p, now);
    }
    var m := CountExchanges(k', p, now);
    n := m + 1;
  }

  lemma GapIsPositive(k: Link, p: NodeId)
    requires Ready(k, p)
    ensures Gap(k.leader, p) >= 1 && k.outstanding.Some? && k.outstanding.value.AppendEntries?
  {
  }

  // ---------------------------------------------------------------- the commit index follows

  lemma EmptyAppend(f: Engine, from: NodeId, msg: Message, now: Instant)
    requires msg.AppendEntries? && msg.entries == [] && msg.term >= f.Term() && Accepts(f, msg)
    requires f.lastApplied == f.commitIndex
    ensures var r := HandleRpc(f, from, msg, now);
            var commit := Max(f.commitIndex, Min(msg.leaderCommit, msg.prevLogIndex));
            && r.engine.log == f.log && r.engine.commitIndex == commit == r.engine.lastApplied
            && (f.commitIndex < commit && commit <= |f.log| ==> Apply(Slice(f.log, f.commitIndex, commit)) in r.actions)
  {
    var r1 := FollowLeader(f, msg.term, msg.leader, now);
    assert Merge(f.log, msg.prevLogIndex, []) == f.log;
    hide Merge;
    var r2 := AdvanceCommit(r1.engine.(log := f.log), msg.leaderCommit, msg.prevLogIndex);
    var commit := Max(f.commitIndex, Min(msg.leaderCommit, msg.prevLogIndex));
    assert r1.engine.commitIndex == f.commitIndex && r1.engine.lastApplied == f.lastApplied;
    hide FollowLeader;
    if f.commitIndex < commit && commit <= |f.log| {
      assert Slice(f.log, f.commitIndex, commit) != [];
      assert r2.actions == [Apply(Slice(f.log, f.commitIndex, commit))];
      assert Apply(Slice(f.log, f.commitIndex, commit)) in r2.actions;
    }
  }

  // ---------------------------------------------------------------- reached states are ready

  /** The link between a leader and a peer in a cluster, while the request `id` is unanswered. */
  function LinkOf(c: Cluster, l: NodeId, id: nat): Link
    requires l in c.nodes && id in c.nodes[l].pending && c.nodes[l].pending[id].to in c.nodes
  {
    Link(EngineOf(c, l), EngineOf(c, c.nodes[l].pending[id].to), Some(c.nodes[l].pending[id].msg))
  }

  predicate Replicating(c: Cluster, l: NodeId, id: nat) {
    Leads(c, l) && id in c.nodes[l].pending && c.nodes[l].pending[id].msg.AppendEntries?
    && Tracks(c, l, c.nodes[l].pending[id].to)
  }

  /** In a leadership that began clear of a peer, every append pending to it can be taken from there. */
  lemma ReachedIsReady(c: Cluster, l: NodeId, p: NodeId, id: nat)
    requires Replicating(c, l, id) && c.nodes[l].pending[id].to == p
    requires TermOf(c, p) <= TermOf(c, l) && BeganClear(c, l, p)
    ensures Ready(LinkOf(c, l, id), p)
  {
    hide Reached, Ready, Current, Matching, BeganClear;
    MatchIndexIsSound(c, l, p);
    BeganClearUncluttered(c, l, p);
    UnclutteredTidy(c, l, p);
    PendingIsCurrent(c, l, p, id);
    CurrentIsReady(c, l, p, id);
  }

  /** What a reached state provides, given that the pending append is current and the match index is sound. */
  lemma CurrentIsReady(c: Cluster, l: NodeId, p: NodeId, id: nat)
    requires Replicating(c, l, id) && c.nodes[l].pending[id].to == p && TermOf(c, p) <= TermOf(c, l)
    requires MatchAgrees(c, l, p) && Current(EngineOf(c, l), p, c.nodes[l].pending[id].msg) && Reached(c, Anything)
    ensures Ready(LinkOf(c, l, id), p)
  {
    hide Reached, Ready, Current, Matching;
    BooksAreOrdered(c, l, p);
    forall i | 0 <= i < |LogOf(c, p)| && i < |LogOf(c, l)| && LogOf(c, p)[i].term == LogOf(c, l)[i].term
      ensures LogOf(c, p)[..i + 1] == LogOf(c, l)[..i + 1]
    {
      LogsMatch(c, p, l, i);
    }
    if LogOf(c, l) != [] {
      LogsAreOrderly(c, l, 0, 0);
    }
    ReadyParts(LinkOf(c, l, id), p);
  }

  lemma ReadyParts(k: Link, p: NodeId)
    requires k.leader.role == Leader && k.peer.Term() <= k.leader.Term() && WellIndexed(k.leader.log)
    requires forall i :: 0 <= i < |k.peer.log| && i < |k.leader.log| && k.peer.log[i].term == k.leader.log[i].term ==>
               k.peer.log[..i + 1] == k.leader.log[..i + 1]
    requires p in k.leader.matchIndex && p in k.leader.nextIndex
    requires k.leader.matchIndex[p] + 1 <= k.leader.nextIndex[p] <= |k.leader.log| + 1
    requires MatchOf(k.leader, p) <= |k.peer.log|
    requires k.peer.log[..MatchOf(k.leader, p)] == k.leader.log[..MatchOf(k.leader, p)]
    requires k.outstanding.Some? && Current(k.leader, p, k.outstanding.value)
    ensures Ready(k, p)
  {
  }

  lemma PendingIsCurrent(c: Cluster, l: NodeId, p: NodeId, id: nat)
    requires Replicating(c, l, id) && c.nodes[l].pending[id].to == p
    requires Remembered(EngineOf(c, l), c.nodes[l].pending[id]) && Reached(c, Anything)
    ensures Current(EngineOf(c, l), p, c.nodes[l].pending[id].msg)
  {
    hide Coupled, Reached, Protocol.Inv, NodeOk, EngineOk, NotStuck, RequestOk;
    var h := ReachedCoupled(c, Anything);
    NodeIsOk(c, h, l, false);
    NodeListed(c, h, l);
    var q := PendingRequest(c, h, l, id);
    LeaderOwnsReign(c, h, l, false);
    AppendIsCut(c, h, q, false);
    AppendIsFromLeader(c, h, q, false);
    LeaderIs(h, l, EngineOf(c, l));
  }

  lemma NodeListed(c: Cluster, h: Protocol.History, n: NodeId)
    requires n in c.nodes && Coupled(c, h, false)
    ensures n in c.incarnation && n in c.applied && n in h.voters
  {
    hide Protocol.Inv, NodeOk, NetworkOk;
  }

  lemma LeaderIs(h: Protocol.History, l: NodeId, s: Engine)
    requires EngineOk(h, l, s, false)
    ensures s.Id() == l
  {
    hide DurableOk, RoleOk, BooksOk, Commitment.Secure;
  }

  lemma AppendIsFromLeader(c: Cluster, h: Protocol.History, q: Envelope, acked: bool)
    requires q.msg.AppendEntries? && RequestOk(c, h, q, acked)
    ensures q.msg.leader == q.src
  {
    hide Commitment.Backed;
  }

  lemma PendingRequest(c: Cluster, h: Protocol.History, l: NodeId, id: nat) returns (q: Envelope)
    requires l in c.nodes && l in c.incarnation && id in c.nodes[l].pending && Coupled(c, h, false)
    ensures q == Envelope(l, c.nodes[l].pending[id].to, c.incarnation[l], id, c.nodes[l].pending[id].msg)
    ensures q in c.requests && RequestOk(c, h, q, false)
  {
    hide Protocol.Inv, EngineOk, RequestOk, NotStuck, NetworkOk;
    assert NodeOk(c, h, l, false) && PendingOk(c, l);
    q := Envelope(l, c.nodes[l].pending[id].to, c.incarnation[l], id, c.nodes[l].pending[id].msg);
    RequestIsOk(c, h, q, false);
  }
}
