/** The guard of a leadership is exact, peer by peer: its match index for a peer stays sound in every future if and only
    if the leadership began with no append of an earlier one pending to that peer. */
module Exactness {
  import opened Types
  import opened LogSpec
  import opened EngineSpec
  import opened NodeSpec
  import opened Cluster
  import opened Reachability
  import opened Progress
  import opened Coupling
  import opened Execution
  import opened Replication
  import opened Events
  import opened Safety
  import opened Tenure
  import opened Guarantees
  import opened CatchUp
  import opened Filing
  import opened Convergence
  import Protocol

  // ---------------------------------------------------------------- the harm a leftover can do

  /** Entries of the leader's term are the leader's. */
  lemma TermEndsAtLeader(c: Cluster, l: NodeId, p: NodeId, i: nat)
    requires Leads(c, l) && p in c.nodes && i < |LogOf(c, p)| && LogOf(c, p)[i].term == TermOf(c, l)
    requires Reached(c, Anything)
    ensures i < |LogOf(c, l)|
  {
    hide Coupled, Reached, Protocol.Sourced;
    var h := ReachedCoupled(c, Anything);
    LeaderOwnsReign(c, h, l, false);
    NodeLogSourced(c, h, p, false);
    assert Protocol.EntrySourced(h, LogOf(c, p), i) by { SourcedAt(h, LogOf(c, p), i); }
  }

  lemma SourcedAt(h: Protocol.History, log: Log, i: nat)
    requires Protocol.Sourced(h, log) && i < |log|
    ensures Protocol.EntrySourced(h, log, i)
  {
  }

  /** The leader and its peer with an append of an earlier leadership still pending between them. */
  ghost predicate Burdened(b: Cluster, c: Cluster, l: NodeId, p: NodeId, id: nat) {
    && Reached(b, Anything) && Follows(b, c, Anything) && Tracks(c, l, p) && AppendTo(c.nodes[l], id, p)
    && p in c.nodes[l].connected && TermOf(c, p) <= TermOf(c, l)
    && id < c.nodes[l].nextCorrelation && c.nodes[l].pending[id].kind == AppendRpc
  }

  /** First the peer is brought up to date: a proposal, and the exchanges that follow from it. */
  lemma BurdenedCatchesUp(b: Cluster, c: Cluster, l: NodeId, p: NodeId, id: nat, now: Instant) returns (c': Cluster)
    requires Burdened(b, c, l, p, id) && p !in EngineOf(c, l).inflight && MatchOf(EngineOf(c, l), p) == 0
    ensures Burdened(b, c', l, p, id) && TermOf(c', l) == TermOf(c, l)
    ensures CaughtUp(Link(EngineOf(c', l), EngineOf(c', p), None), p)
  {
    hide Reached, Follows, Current, Ready, CaughtUp;
    var c1, first := ProposeEvent(b, c, l, [], p);
    FutureIsReached(b, c1, Anything);
    ProposedLinks(c, c1, l, p, first);
    var c2 := ExchangesConverge(c1, l, p, first, now, Anything);
    FollowsOn(b, c1, c2, Anything);
    FutureIsReached(b, c2, Anything);
    c' := c2;
    CaughtUpTerms(c2, l, p);
  }

  lemma CaughtUpTerms(c: Cluster, l: NodeId, p: NodeId)
    requires l in c.nodes && p in c.nodes && CaughtUp(Link(EngineOf(c, l), EngineOf(c, p), None), p)
    ensures TermOf(c, p) <= TermOf(c, l) && p !in EngineOf(c, l).inflight && LogOf(c, l) <= LogOf(c, p)
    ensures var s := EngineOf(c, l); p in s.nextIndex && s.nextIndex[p] == |s.log| + 1
  {
  }

  lemma ProposedLinks(c: Cluster, c': Cluster, l: NodeId, p: NodeId, id: nat)
    requires Tracks(c, l, p) && p in c.nodes[l].connected && TermOf(c, p) <= TermOf(c, l)
    requires l in c'.nodes && SteppedAlone(c, c', l, c'.nodes[l]) && ProposedTo(c.nodes[l], c'.nodes[l], [], p, id)
    requires MatchOf(EngineOf(c, l), p) == 0 && Reached(c', Anything)
    ensures Linked(c', l, p, id)
  {
    hide Reached, Ready;
    assert EngineOf(c', p) == EngineOf(c, p);
    assert MatchOf(EngineOf(c', l), p) == 0;
    CurrentIsReady(c', l, p, id);
  }

  /** The peer has accepted `q` and holds just that much; the answer is still on its way. */
  ghost predicate Accepted(c: Cluster, l: NodeId, p: NodeId, q: Envelope, answer: Message, extent: nat) {
    && Tracks(c, l, p) && p in c.nodes[l].connected && TermOf(c, p) == TermOf(c, l) && |LogOf(c, p)| == extent
    && q.src == l && q.dst == p && l in c.incarnation && q.incarnation == c.incarnation[l]
    && q.correlation in c.nodes[l].pending && c.nodes[l].pending[q.correlation].to == p
    && Reply(q, answer) in c.replies && answer.AppendEntriesResp? && answer.success && answer.term == TermOf(c, l)
  }

  /** A caught-up peer takes exactly the one new entry, whatever its log held beyond the leader's. */
  lemma OneEntryTaken(f: Engine, log: Log, e: LogEntry, from: NodeId, msg: Message, now: Instant)
    requires msg.AppendEntries? && msg.term >= f.Term() && msg.prevLogIndex == |log| && msg.entries == [e]
    requires msg.prevLogTerm == TermAt(log, |log|) && e.index == |log| + 1 && log <= f.log
    requires |f.log| > |log| ==> f.log[|log|].term != e.term
    ensures var r := HandleRpc(f, from, msg, now);
            && |r.engine.log| == |log| + 1 && r.engine.Term() == msg.term
            && AnswerOf(r).Some? && AnswerOf(r).value.AppendEntriesResp? && AnswerOf(r).value.success
            && AnswerOf(r).value.term == msg.term
  {
    if |log| > 0 {
      assert f.log[|log| - 1] == log[|log| - 1];
    }
    PeerAnswers(f, from, msg, now);
    MergeSpec(f.log, |log|, [e]);
    hide HandleRpc, Merge;
  }

  lemma FirstIsAccepted(b: Cluster, c: Cluster, c1: Cluster, l: NodeId, p: NodeId, first: nat, now: Instant)
    returns (c2: Cluster, q: Envelope, answer: Message)
    requires Tracks(c, l, p) && p in c.nodes[l].connected && TermOf(c, p) <= TermOf(c, l) && LogOf(c, l) <= LogOf(c, p)
    requires var s := EngineOf(c, l); p in s.nextIndex && s.nextIndex[p] == |s.log| + 1
    requires l in c1.nodes && SteppedAlone(c, c1, l, c1.nodes[l]) && ProposedTo(c.nodes[l], c1.nodes[l], [], p, first)
    requires Reached(b, Anything) && Follows(b, c, Anything) && Follows(b, c1, Anything)
    ensures Follows(b, c2, Anything) && l in c2.nodes && c2.nodes[l] == c1.nodes[l] && q.correlation == first
    ensures Accepted(c2, l, p, q, answer, |LogOf(c1, l)|)
  {
    hide Reached, Follows, HandleRpc, Coupled, AnswerOf, RequestOk, Protocol.Inv;
    FutureIsReached(b, c, Anything);
    FutureIsReached(b, c1, Anything);
    var h := ReachedCoupled(c1, Anything);
    NodeListed(c1, h, l);
    q := PendingRequest(c1, h, l, first);
    var log, f := LogOf(c, l), EngineOf(c, p);
    var e := LogEntry(|log| + 1, TermOf(c, l), []);
    FirstMessage(c.nodes[l], c1.nodes[l], p, first);
    if |f.log| > |log| && f.log[|log|].term == e.term {
      TermEndsAtLeader(c, l, p, |log|);
      assert false;
    }
    OneEntryTaken(f, log, e, l, q.msg, now);
    c2, answer := DeliverAppend(c1, h, q, now, Anything);
    FollowsOn(b, c1, c2, Anything);
  }

  lemma FirstMessage(node: Node, node': Node, p: NodeId, id: nat)
    requires ProposedTo(node, node', [], p, id)
    requires node.engine.nextIndex[p] == |node.engine.log| + 1
    ensures var msg, s := node'.pending[id].msg, node.engine;
            && msg.AppendEntries? && msg.term == s.Term() && msg.prevLogIndex == |s.log|
            && msg.entries == [LogEntry(|s.log| + 1, s.Term(), [])] && msg.prevLogTerm == TermAt(s.log, |s.log|)
  {
    var s, s', msg := node.engine, node'.engine, node'.pending[id].msg;
    assert msg.entries == s'.log[|s.log|..|s.log| + 1];
  }

  /** The old append fails, and takes the new one's mark with it. */
  lemma MarkIsLost(b: Cluster, c: Cluster, l: NodeId, p: NodeId, id: nat) returns (c': Cluster)
    requires l in c.nodes && AppendTo(c.nodes[l], id, p) && c.nodes[l].pending[id].kind == AppendRpc
    requires Reached(b, Anything) && Follows(b, c, Anything)
    ensures Follows(b, c', Anything) && l in c'.nodes && SteppedAlone(c, c', l, c'.nodes[l])
    ensures var node, node' := c.nodes[l], c'.nodes[l];
            && node'.engine == node.engine.(inflight := node.engine.inflight - {p}) && node'.connected == node.connected
            && node'.pending == node.pending - {id} && node'.nextCorrelation == node.nextCorrelation
  {
    hide Reached, Follows, Coupled;
    FutureIsReached(b, c, Anything);
    var h := ReachedCoupled(c, Anything);
    NodeListed(c, h, l);
    var e := Fail(l, id, false);
    assert Enabled(c, e);
    StepAlone(b, c, e);
    c' := Step(c, e);
  }

  /** The peer's books survive what the leader does by itself. */
  lemma StillAccepted(c: Cluster, c': Cluster, l: NodeId, p: NodeId, q: Envelope, answer: Message, extent: nat)
    requires Accepted(c, l, p, q, answer, extent) && l in c'.nodes && SteppedAlone(c, c', l, c'.nodes[l])
    requires var node, node' := c.nodes[l], c'.nodes[l];
             && node'.engine.role == Leader && node'.engine.Term() == node.engine.Term()
             && node'.connected == node.connected
             && q.correlation in node'.pending && node'.pending[q.correlation] == node.pending[q.correlation]
    ensures Accepted(c', l, p, q, answer, extent)
  {
  }

  /** The answer to the first append arrives when the engine remembers the second, which covers one entry more. */
  lemma FirstIsTakenForSecond(b: Cluster, c: Cluster, l: NodeId, p: NodeId, q: Envelope, answer: Message, extent: nat,
                              now: Instant) returns (c': Cluster)
    requires Accepted(c, l, p, q, answer, extent) && p in EngineOf(c, l).lastAe && Covered(EngineOf(c, l), p) > extent
    requires Reached(b, Anything) && Follows(b, c, Anything)
    ensures Follows(b, c', Anything) && Tracks(c', l, p) && TermOf(c', l) == TermOf(c, l)
    ensures TermOf(c', p) == TermOf(c, l)
    ensures MatchOf(EngineOf(c', l), p) > |LogOf(c', p)|
  {
    hide Reached, Follows, HandleRpc, Coupled;
    FutureIsReached(b, c, Anything);
    var h := ReachedCoupled(c, Anything);
    SuccessCredits(EngineOf(c, l), p, answer, now);
    c' := DeliverAnswer(c, h, q, answer, now, Anything);
    FollowsOn(b, c, c', Anything);
  }

  /** Then a second append overtakes the answer to the first. */
  lemma BurdenedOvertakes(b: Cluster, c: Cluster, l: NodeId, p: NodeId, id: nat, now: Instant) returns (c': Cluster)
    requires Burdened(b, c, l, p, id) && CaughtUp(Link(EngineOf(c, l), EngineOf(c, p), None), p)
    ensures Follows(b, c', Anything) && Tracks(c', l, p) && TermOf(c', l) == TermOf(c, l)
    ensures TermOf(c', p) == TermOf(c, l)
    ensures MatchOf(EngineOf(c', l), p) > |LogOf(c', p)|
  {
    hide Reached, Follows, CaughtUp;
    CaughtUpTerms(c, l, p);
    var c1, first := ProposeEvent(b, c, l, [], p);
    var c2, q, answer := FirstIsAccepted(b, c, c1, l, p, first, now);
    var extent := |LogOf(c1, l)|;
    var c3 := MarkIsLost(b, c2, l, p, id);
    StillAccepted(c2, c3, l, p, q, answer, extent);
    var c4, second := ProposeEvent(b, c3, l, [], p);
    SecondKeepsFirst(c3, c4, l, p, first, second);
    StillAccepted(c3, c4, l, p, q, answer, extent);
    c' := FirstIsTakenForSecond(b, c4, l, p, q, answer, extent, now);
  }

  lemma SecondKeepsFirst(c: Cluster, c': Cluster, l: NodeId, p: NodeId, first: nat, second: nat)
    requires l in c.nodes && l in c'.nodes && ProposedTo(c.nodes[l], c'.nodes[l], [], p, second)
    requires first in c.nodes[l].pending && first < c.nodes[l].nextCorrelation
    ensures first in c'.nodes[l].pending && c'.nodes[l].pending[first] == c.nodes[l].pending[first]
    ensures p in EngineOf(c', l).lastAe && Covered(EngineOf(c', l), p) == |LogOf(c, l)| + 1
  {
  }

  // ---------------------------------------------------------------- the guard is exact

  /** From `b` on, while `l` leads the term it leads in `b` and `p` is in no later one, `l` never credits `p` with
      anything `p` does not share with it. */
  ghost predicate SoundFrom(b: Cluster, l: NodeId, p: NodeId) {
    forall c :: SameLeadership(b, c, l) && p in c.nodes && TermOf(c, p) <= TermOf(c, l) ==> MatchAgrees(c, l, p)
  }

  /** A leftover append to a peer always can do harm. */
  lemma LeftoverHarms(b: Cluster, l: NodeId, p: NodeId, id: nat)
    requires Tracks(b, l, p) && FreshBooks(EngineOf(b, l)) && AppendTo(b.nodes[l], id, p)
    requires TermOf(b, p) <= TermOf(b, l) && Reached(b, Anything)
    ensures !SoundFrom(b, l, p)
  {
    hide Reached, Follows, CaughtUp, Coupled;
    var c0 := ConnectFirst(b, l, p, id);
    var c1 := BurdenedCatchesUp(b, c0, l, p, id, 0);
    var c2 := BurdenedOvertakes(b, c1, l, p, id, 0);
    assert SameLeadership(b, c2, l);
    assert !MatchAgrees(c2, l, p);
  }

  lemma ConnectFirst(b: Cluster, l: NodeId, p: NodeId, id: nat) returns (c: Cluster)
    requires Tracks(b, l, p) && FreshBooks(EngineOf(b, l)) && AppendTo(b.nodes[l], id, p)
    requires TermOf(b, p) <= TermOf(b, l) && Reached(b, Anything)
    ensures Burdened(b, c, l, p, id) && FreshBooks(EngineOf(c, l)) && TermOf(c, l) == TermOf(b, l)
  {
    hide Reached, Follows, Coupled, NodeOk, EngineOk, NotStuck, Protocol.Inv;
    var h := ReachedCoupled(b, Anything);
    NodeListed(b, h, l);
    NodeIsOk(b, h, l, false);
    var e := Connect(l, p);
    assert Enabled(b, e);
    StaysPut(b, Anything);
    StepAlone(b, b, e);
    c := Step(b, e);
  }

  /** Whoever wins keeps sound match indices for a peer in every future of its leadership if and only if no append of
      an earlier leadership to that peer is pending when it wins. */
  lemma GuardIsExact(c: Cluster, e: Event, l: NodeId, p: NodeId)
    requires Wins(c, e, l) && p in Step(c, e).nodes && p != l && Reached(c, Anything)
    requires l in Step(c, e).nodes && TermOf(Step(c, e), p) <= TermOf(Step(c, e), l)
    ensures NothingPending(Step(c, e).nodes[l], p) <==> SoundFrom(Step(c, e), l, p)
  {
    hide Reached, Follows, Step, React, Enabled, FreshBooks, BeganClear;
    var b := Step(c, e);
    WinBeginsClear(c, e, l, p);
    if NothingPending(b.nodes[l], p) {
      forall c' | SameLeadership(b, c', l) && p in c'.nodes && TermOf(c', p) <= TermOf(c', l)
        ensures MatchAgrees(c', l, p)
      {
        ClearFrom(b, c', l, p) by { NothingCredited(EngineOf(b, l), p); }
        MatchIndexIsSound(c', l, p);
      }
    } else {
      var id :| AppendTo(b.nodes[l], id, p);
      LeftoverHarms(b, l, p, id);
    }
  }

  lemma NothingCredited(s: Engine, p: NodeId)
    requires FreshBooks(s)
    ensures MatchOf(s, p) == 0
  {
  }

  lemma ClearFrom(b: Cluster, c: Cluster, l: NodeId, p: NodeId)
    requires SameLeadership(b, c, l) && NothingPending(b.nodes[l], p) && MatchOf(EngineOf(b, l), p) == 0
    requires Reached(b, Anything)
    ensures BeganClear(c, l, p)
  {
    hide Reached, Follows, NothingPending;
  }
}
