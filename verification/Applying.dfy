/** Applying is gapless in every run: each index is handed out once, in order, from the first on. */
module Applying {
  import opened Types
  import opened LogSpec
  import opened EngineSpec
  import opened NodeSpec
  import opened Cluster
  import opened Reachability
  import opened Progress
  import opened Coupling
  import opened Execution
  import opened Events
  import opened Safety
  import opened Guarantees
  import Hints
  import Protocol

  /** From `s` to `s'` exactly the indices by which the commit index rises are handed out, as the log has them by then.
      */
  ghost predicate Delivers(s: Engine, s': Engine, out: Log) {
    && s'.lastApplied == s'.commitIndex == s.commitIndex + |out|
    && (forall i :: 0 <= i < |out| ==> out[i].index == s.commitIndex + i + 1)
    && (out != [] ==> s'.commitIndex <= |s'.log| && out == s'.log[s.commitIndex..s'.commitIndex])
  }

  ghost predicate HandsOut(s: Engine, r: Outcome) {
    Delivers(s, r.engine, AppliesOf(r.actions))
  }

  lemma AdvanceHandsOut(s: Engine, leaderCommit: Index, lastNew: Index)
    requires s.lastApplied == s.commitIndex && WellIndexed(s.log) && lastNew <= |s.log|
    ensures HandsOut(s, AdvanceCommit(s, leaderCommit, lastNew))
  {
    var r := AdvanceCommit(s, leaderCommit, lastNew);
    if r.engine.commitIndex > s.commitIndex {
      var out := Slice(s.log, s.lastApplied, r.engine.commitIndex);
      assert out == s.log[s.lastApplied..r.engine.commitIndex];
      assert r.actions == [Apply(out)] && r.actions[1..] == [];
      assert AppliesOf(r.actions) == out + [] == out;
    }
  }

  lemma QuietHandsOut(s: Engine, r: Outcome)
    requires s.lastApplied == s.commitIndex && r.engine.lastApplied == s.lastApplied
    requires r.engine.commitIndex == s.commitIndex
    requires forall a :: a in r.actions ==> !a.Apply?
    ensures HandsOut(s, r)
  {
    QuietAppliesNothing(r.actions);
  }

  /** Quiet actions around a step that hands out change nothing about it. */
  lemma PaddedHandsOut(s: Engine, s1: Engine, pre: seq<Action>, r: Outcome, post: seq<Action>, s': Engine)
    requires HandsOut(s1, r) && s1.commitIndex == s.commitIndex
    requires s'.commitIndex == r.engine.commitIndex && s'.lastApplied == r.engine.lastApplied && s'.log == r.engine.log
    requires forall a :: a in pre ==> !a.Apply?
    requires forall a :: a in post ==> !a.Apply?
    ensures HandsOut(s, Outcome(s', pre + r.actions + post))
  {
    QuietAppliesNothing(pre);
    QuietAppliesNothing(post);
    AppliesOfConcat(pre, r.actions);
    AppliesOfConcat(pre + r.actions, post);
  }

  lemma MergedWellIndexed(log: Log, prev: Index, entries: Log)
    requires WellIndexed(log) && prev <= |log| && Contiguous(entries, prev + 1)
    ensures WellIndexed(Merge(log, prev, entries)) && prev + |entries| <= |Merge(log, prev, entries)|
  {
    hide Agreeing;
    var k := Agreeing(log, prev, entries);
    MergeSpec(log, prev, entries);
    if k < |entries| {
      PersistKeepsIndices(log[..prev + k], entries[k..]);
    }
  }

  lemma AppendHandsOut(s: Engine, from: NodeId, msg: Message, now: Instant)
    requires s.lastApplied == s.commitIndex && WellIndexed(s.log)
    requires msg.AppendEntries? && Contiguous(msg.entries, msg.prevLogIndex + 1)
    ensures HandsOut(s, HandleRpc(s, from, msg, now))
  {
    hide Merge, AdvanceCommit;
    var r := HandleRpc(s, from, msg, now);
    if msg.term >= s.Term() && PrevMatches(s.log, msg.prevLogIndex, msg.prevLogTerm) {
      var lastNew := msg.prevLogIndex + |msg.entries|;
      var r1 := FollowLeader(s, msg.term, msg.leader, now);
      var s1 := r1.engine.(log := Merge(s.log, msg.prevLogIndex, msg.entries));
      MergedWellIndexed(s.log, msg.prevLogIndex, msg.entries);
      AdvanceHandsOut(s1, msg.leaderCommit, lastNew);
      var r2 := AdvanceCommit(s1, msg.leaderCommit, lastNew);
      PaddedHandsOut(s, s1, r1.actions, r2, [Send(from, AppendEntriesResp(msg.term, true, lastNew))], r2.engine);
    } else {
      QuietHandsOut(s, r);
    }
  }

  lemma AppendRespHandsOut(s: Engine, from: NodeId, msg: Message, now: Instant)
    requires s.lastApplied == s.commitIndex && WellIndexed(s.log) && msg.AppendEntriesResp?
    ensures HandsOut(s, HandleRpc(s, from, msg, now))
  {
    if msg.term == s.Term() && s.role == Leader && from in s.lastAe && msg.success {
      SuccessHandsOut(s, from);
    } else {
      hide BuildAppendEntries, MaybeCommit, HandsOut;
      QuietHandsOut(s, HandleRpc(s, from, msg, now));
    }
  }

  lemma SuccessHandsOut(s: Engine, from: NodeId)
    requires s.lastApplied == s.commitIndex && WellIndexed(s.log) && from in s.lastAe
    ensures HandsOut(s, HandleSuccess(s, from))
  {
    var s1 := Credit(s, from);
    CommitHandsOut(s1);
    var r1 := MaybeCommit(s1);
    hide MaybeCommit, BuildAppendEntries, HandsOut;
    if NextOf(r1.engine, from) <= |r1.engine.log| {
      var r2 := SendAppendEntriesTo(r1.engine, from);
      assert [] + r1.actions + r2.actions == r1.actions + r2.actions;
      PaddedHandsOut(s, s1, [], r1, r2.actions, r2.engine);
    } else {
      assert [] + r1.actions + [] == r1.actions;
      PaddedHandsOut(s, s1, [], r1, [], r1.engine);
    }
  }

  lemma CommitHandsOut(s: Engine)
    requires s.lastApplied == s.commitIndex && WellIndexed(s.log)
    ensures HandsOut(s, MaybeCommit(s))
  {
    hide AdvanceCommit;
    var target := CommitTarget(s, |s.log|);
    if target > s.commitIndex {
      AdvanceHandsOut(s, target, target);
    } else {
      QuietHandsOut(s, Outcome(s, []));
    }
  }

  lemma HandleHandsOut(s: Engine, from: NodeId, msg: Message, now: Instant)
    requires s.lastApplied == s.commitIndex && WellIndexed(s.log)
    requires msg.AppendEntries? ==> Contiguous(msg.entries, msg.prevLogIndex + 1)
    ensures HandsOut(s, HandleRpc(s, from, msg, now))
  {
    if msg.AppendEntries? {
      AppendHandsOut(s, from, msg, now);
    } else if msg.AppendEntriesResp? {
      AppendRespHandsOut(s, from, msg, now);
    } else {
      QuietHandsOut(s, HandleRpc(s, from, msg, now));
    }
  }

  lemma TickHandsOut(s: Engine, now: Instant)
    requires s.lastApplied == s.commitIndex
    ensures HandsOut(s, EngineSpec.Tick(s, now))
  {
    hide ReplicateTo;
    ReplicateTouches(s, s.Others());
    QuietHandsOut(s, EngineSpec.Tick(s, now));
  }

  lemma ProposeHandsOut(s: Engine, data: Command)
    requires s.lastApplied == s.commitIndex && s.role == Leader
    ensures HandsOut(s, EngineSpec.Propose(s, data).outcome)
  {
    hide ReplicateTo;
    var s0 := s.(log := s.log + [LogEntry(|s.log| + 1, s.Term(), data)]);
    ReplicateTouches(s0, s0.Others());
    QuietHandsOut(s, EngineSpec.Propose(s, data).outcome);
  }

  // ---------------------------------------------------------------- nodes and clusters

  /** Everything handed out since the node started is entry 1, 2, and so on, up to the commit index. */
  ghost predicate Gapless(s: Engine, applied: Log) {
    && s.lastApplied == s.commitIndex == |applied|
    && forall i :: 0 <= i < |applied| ==> applied[i].index == i + 1
  }

  lemma ExecutedDelivers(node: Node, r: Outcome, mid: Node, inbound: Option<NodeId>)
    requires HandsOut(node.engine, r) && mid.engine == r.engine && IdsBelow(mid)
    ensures var x := Execute(mid, r.actions, inbound); Delivers(node.engine, x.node.engine, AppliedBy(x.outputs))
  {
    hide IdsBelow, Execute, AppliesOf;
    ExecuteFiles(mid, r.actions, inbound);
    ExecuteTouches(mid, r.actions, inbound);
  }

  lemma UnmarkedDelivers(s: Engine, s': Engine, outputs: seq<Output>)
    requires s.lastApplied == s.commitIndex && s' == s.(inflight := s'.inflight)
    requires forall o :: o in outputs ==> !o.Committed?
    ensures Delivers(s, s', AppliedBy(outputs))
  {
    NothingApplied(outputs);
  }

  lemma NodeFacts(c: Cluster, n: NodeId)
    requires n in c.nodes && Reached(c, Anything)
    ensures IdsBelow(c.nodes[n]) && OnlyRequests(c.nodes[n]) && WellIndexed(LogOf(c, n))
  {
    hide Coupled, Reached, NodeOk, EngineOk, Protocol.Inv, NotStuck;
    var h := ReachedCoupled(c, Anything);
    NodeIsOk(c, h, n, false);
    PendingAreRequests(c, h, n, false);
    if LogOf(c, n) != [] {
      LogsAreOrderly(c, n, 0, 0);
    }
  }

  lemma ReplyIsNoAppend(c: Cluster, r: Reply)
    requires r in c.replies && Reached(c, Anything)
    ensures !r.msg.AppendEntries?
  {
    hide Coupled, Reached;
    var h := ReachedCoupled(c, Anything);
    Hints.ReplyIsAnswer(c, h, r, false);
  }

  lemma ReactDelivers(c: Cluster, e: Event)
    requires Enabled(c, e) && !e.Restart? && Reached(c, Anything)
    requires c.nodes[Actor(e)].engine.lastApplied == c.nodes[Actor(e)].engine.commitIndex
    ensures Delivers(c.nodes[Actor(e)].engine, React(c, e).node.engine, AppliedBy(React(c, e).outputs))
  {
    hide Reached, Execute, HandleRpc, EngineSpec.Tick, EngineSpec.Propose, FailAll, AppliedBy, HandsOut, IdsBelow,
         Delivers;
    var node := c.nodes[Actor(e)];
    var s := node.engine;
    NodeFacts(c, Actor(e));
    match e
    case Tick(_, now) =>
      TickHandsOut(s, now);
      var r := EngineSpec.Tick(s, now);
      SameIds(node, r.engine, node.pending);
      ExecutedDelivers(node, r, node.(engine := r.engine), None);
    case Propose(_, data) =>
      ProposeOnward(s, data);
      if s.role == Leader {
        ProposeHandsOut(s, data);
        var r := EngineSpec.Propose(s, data).outcome;
        SameIds(node, r.engine, node.pending);
        ExecutedDelivers(node, r, node.(engine := r.engine), None);
      } else {
        UnmarkedDelivers(s, s, []);
      }
    case DeliverRequest(q, now) =>
      if q.msg.AppendEntries? { AppendsAreContiguous(c, q); }
      HandleHandsOut(s, q.src, q.msg, now);
      var r := HandleRpc(s, q.src, q.msg, now);
      SameIds(node, r.engine, node.pending);
      ExecutedDelivers(node, r, node.(engine := r.engine), Some(q.src));
    case DeliverReply(p, now) =>
      var id := p.request.correlation;
      if p.request.incarnation == c.incarnation[Actor(e)] && id in node.pending {
        ReplyIsNoAppend(c, p);
        HandleHandsOut(s, node.pending[id].to, p.msg, now);
        var r := HandleRpc(s, node.pending[id].to, p.msg, now);
        SameIds(node, r.engine, node.pending - {id});
        ExecutedDelivers(node, r, node.(engine := r.engine, pending := node.pending - {id}), None);
      } else {
        UnmarkedDelivers(s, s, []);
      }
    case Fail(_, id, emit) =>
      UnmarkedDelivers(s, React(c, e).node.engine, React(c, e).outputs);
    case Connect(_, peer) => UnmarkedDelivers(s, s, []);
    case Disconnect(_, peer, ids) =>
      var cut := node.(connected := node.connected - {peer});
      FailAllTouches(cut, ids, false);
      Hints.FailAllSilent(cut, ids, false);
      UnmarkedDelivers(s, React(c, e).node.engine, React(c, e).outputs);
    case Restart(_, _) =>
  }

  lemma DeliveredGapless(s: Engine, s': Engine, applied: Log, out: Log)
    requires Gapless(s, applied) && Delivers(s, s', out)
    ensures Gapless(s', applied + out)
  {
  }

  lemma AppliedThrough(s: Engine, applied: Log)
    requires Gapless(s, applied)
    ensures s.lastApplied == s.commitIndex
  {
  }

  lemma SameIds(node: Node, s: Engine, pending: map<nat, Pending>)
    requires IdsBelow(node) && forall id :: id in pending ==> id in node.pending && pending[id] == node.pending[id]
    ensures IdsBelow(node.(engine := s, pending := pending))
  {
  }

  ghost predicate AllGapless(c: Cluster) {
    Reached(c, Anything) && forall n :: n in c.nodes && n in c.applied ==> Gapless(c.nodes[n].engine, c.applied[n])
  }

  lemma GaplessStep(c: Cluster, e: Event)
    requires Enabled(c, e) && AllGapless(c)
    ensures AllGapless(Step(c, e))
  {
    hide Reached, Gapless, Delivers, AppliedBy;
    StepIsReached(c, e, Anything);
    if e.Restart? {
      assert Gapless(React(c, e).node.engine, []) by { FreshGapless(React(c, e).node.engine); }
    } else {
      var s, applied := c.nodes[Actor(e)].engine, c.applied[Actor(e)];
      assert s.lastApplied == s.commitIndex by { AppliedThrough(s, applied); }
      ReactDelivers(c, e);
      DeliveredGapless(s, React(c, e).node.engine, applied, AppliedBy(React(c, e).outputs));
    }
    hide React;
  }

  lemma FreshGapless(s: Engine)
    requires s.commitIndex == 0 && s.lastApplied == 0
    ensures Gapless(s, [])
  {
  }

  lemma GaplessGoesOn()
    ensures Preserved((c: Cluster) => AllGapless(c), Anything)
  {
    hide AllGapless, Step, Enabled, WinsWithLeftovers;
    var q := (c: Cluster) => AllGapless(c);
    forall c, e | q(c) && Enabled(c, e)
      ensures q(Step(c, e))
    {
      GaplessStep(c, e);
    }
  }

  lemma StartGapless(configs: map<NodeId, Config>, now: Instant)
    requires ConfigsOk(configs)
    ensures AllGapless(Start(configs, now))
  {
    hide Reached, ConfigsOk;
    StartIsReached(configs, now, Anything);
  }

  /** In every run, on every node, what was handed out since the last start is entry 1, 2, and so on, each once, up to
      the commit index. */
  lemma AppliedInOrder(c: Cluster, n: NodeId)
    requires n in c.nodes && n in c.applied && Reached(c, Anything)
    ensures Gapless(c.nodes[n].engine, c.applied[n])
  {
    hide Reached, Preserved, Start, ConfigsOk, Gapless;
    var q := (x: Cluster) => AllGapless(x);
    forall configs, now | ConfigsOk(configs)
      ensures q(Start(configs, now))
    {
      StartGapless(configs, now);
    }
    GaplessGoesOn();
    assert q(c) by { ReachedHas(c, q, Anything); }
  }

  // ---------------------------------------------------------------- what was handed out, and what is in the log

  /** What was handed out is the log as far as it was. */
  ghost predicate OfLog(s: Engine, applied: Log) {
    applied <= s.log
  }

  lemma DeliveredOfLog(s: Engine, s': Engine, applied: Log, out: Log)
    requires Gapless(s, applied) && OfLog(s, applied) && Delivers(s, s', out) && s.log <= s'.log
    ensures OfLog(s', applied + out)
  {
  }

  /** Everything handed out since a node started was reported. */
  ghost predicate AllReported(c: Cluster, n: NodeId) {
    n in c.applied ==> forall x :: x in c.applied[n] ==> Safety.Reported(c, n, x)
  }

  lemma {:induction false} HandedOutIsReported(outputs: seq<Output>, x: LogEntry)
    requires x in AppliedBy(outputs)
    ensures exists entries :: Committed(entries) in outputs && x in entries
    decreases |outputs|
  {
    if outputs != [] {
      var now := if outputs[0].Committed? then outputs[0].entries else [];
      if x in now {
        assert outputs[0] == Committed(now);
      } else {
        assert x in AppliedBy(outputs[1..]);
        HandedOutIsReported(outputs[1..], x);
      }
    }
  }

  lemma ReportedStep(c: Cluster, e: Event, n: NodeId)
    requires Enabled(c, e) && AllReported(c, n)
    ensures AllReported(Step(c, e), n)
  {
    hide React, AppliedBy;
    var c' := Step(c, e);
    forall x | n in c'.applied && x in c'.applied[n]
      ensures Safety.Reported(c', n, x)
    {
      if n in c.applied && x in c.applied[n] {
        var entries :| (n, Committed(entries)) in c.emitted && x in entries;
        assert (n, Committed(entries)) in c'.emitted;
      } else {
        HandedOutIsReported(React(c, e).outputs, x);
        var entries :| Committed(entries) in React(c, e).outputs && x in entries;
        assert (n, Committed(entries)) in c'.emitted;
      }
    }
  }

  /** In every run, whatever a node has applied it has reported. */
  lemma AppliedIsReported(c: Cluster, n: NodeId)
    requires Reached(c, Anything)
    ensures AllReported(c, n)
  {
    hide Reached, Step, Enabled, AllReported, ConfigsOk;
    var q := (x: Cluster) => AllReported(x, n);
    forall configs, now | ConfigsOk(configs)
      ensures q(Start(configs, now))
    {
      NothingToReport(configs, now, n);
    }
    forall x, e | q(x) && Enabled(x, e) && Permits(Anything, x, e)
      ensures q(Step(x, e))
    {
      ReportedStep(x, e, n);
    }
    ReachedHas(c, q, Anything);
  }

  lemma NothingToReport(configs: map<NodeId, Config>, now: Instant, n: NodeId)
    ensures AllReported(Start(configs, now), n)
  {
  }
}
