/** What a behaviour does when it is polled is something a node of the cluster can do. */
module Hosting {
  import opened Types
  import opened NodeSpec
  import opened Cluster
  import opened Progress
  import opened Reachability
  import opened RaftBehaviour
  import EngineSpec

  ghost predicate Hosts(c: Cluster, n: NodeId) {
    n in c.nodes && n in c.incarnation && n in c.applied
  }

  /** In `c'` node `n` has become `r.node` and its outputs are on record; no other node has moved. */
  ghost predicate Carried(c: Cluster, c': Cluster, n: NodeId, r: Effect) {
    && Hosts(c', n) && c'.nodes.Keys == c.nodes.Keys && c'.nodes[n] == r.node
    && (forall m :: m in c.nodes && m != n ==> c'.nodes[m] == c.nodes[m])
    && c.emitted <= c'.emitted && (forall o :: o in r.outputs ==> (n, o) in c'.emitted)
  }

  lemma StepCarries(c: Cluster, e: Event)
    requires Enabled(c, e) && Hosts(c, Actor(e))
    ensures Carried(c, Step(c, e), Actor(e), React(c, e))
  {
    hide React;
  }

  lemma CarriedOn(a: Cluster, b: Cluster, c: Cluster, n: NodeId, r: Effect, more: Effect)
    requires Carried(a, b, n, r) && Carried(b, c, n, more)
    ensures Carried(a, c, n, Effect(more.node, r.outputs + more.outputs))
  {
  }

  lemma EventIsFuture(c: Cluster, e: Event, g: Guard)
    requires Enabled(c, e) && Hosts(c, Actor(e)) && (e.Tick? || e.Fail?)
    ensures Follows(c, Step(c, e), g) && Carried(c, Step(c, e), Actor(e), React(c, e))
  {
    hide Enabled, Step, Follows, Carried, Permits, React;
    QuietEvent(c, e, g);
    StaysPut(c, g);
    FollowsNext(c, c, e, g);
    StepCarries(c, e);
  }

  /** Time-outs are failures, one after the other. */
  lemma {:induction false} ExpiryIsFuture(c: Cluster, n: NodeId, ids: seq<nat>, g: Guard) returns (c': Cluster)
    requires Hosts(c, n)
    ensures Follows(c, c', g) && Carried(c, c', n, FailAll(c.nodes[n], ids, false))
    decreases |ids|
  {
    hide Follows, Step, FailPending;
    if ids == [] {
      c' := c;
      StaysPut(c, g);
    } else {
      var e := Fail(n, ids[0], false);
      var c1 := Step(c, e);
      EventIsFuture(c, e, g);
      c' := ExpiryIsFuture(c1, n, ids[1..], g);
      FollowsOn(c, c1, c', g);
      CarriedOn(c, c1, c', n, FailPending(c.nodes[n], ids[0], false), FailAll(c1.nodes[n], ids[1..], false));
    }
  }

  lemma RoundIsFuture(c: Cluster, n: NodeId, round: Round, g: Guard) returns (c': Cluster)
    requires Hosts(c, n)
    ensures Follows(c, c', g) && Carried(c, c', n, Play(c.nodes[n], round))
  {
    hide Follows, Step, NodeSpec.Tick, FailAll, Carried;
    match round
    case Expired(ids) => c' := ExpiryIsFuture(c, n, ids, g);
    case Ticked(now) =>
      c' := Step(c, Tick(n, now));
      EventIsFuture(c, Tick(n, now), g);
  }

  /** The rounds of a poll lead to a possible future of the cluster, whatever guard it is under, in which nobody but
      the polled node has moved. */
  lemma {:induction false} PollIsFuture(c: Cluster, n: NodeId, rounds: seq<Round>, g: Guard) returns (c': Cluster)
    requires Hosts(c, n)
    ensures Follows(c, c', g) && Carried(c, c', n, PlayAll(c.nodes[n], rounds))
    decreases |rounds|
  {
    hide Follows, Play;
    if rounds == [] {
      c' := c;
      StaysPut(c, g);
    } else {
      var init, last := rounds[..|rounds| - 1], rounds[|rounds| - 1];
      var c1 := PollIsFuture(c, n, init, g);
      c' := RoundIsFuture(c1, n, last, g);
      FollowsOn(c, c1, c', g);
      CarriedOn(c, c1, c', n, PlayAll(c.nodes[n], init), Play(c1.nodes[n], last));
    }
  }
}
