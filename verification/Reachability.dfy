/** Which states a cluster can get into: the least set that has the fresh clusters and is closed under events. */
module Reachability {
  import opened Types
  import opened Cluster

  ghost predicate Initially(p: Cluster -> bool) {
    forall configs, now :: ConfigsOk(configs) ==> p(Start(configs, now))
  }

  /** `p` survives every event that the guard permits. */
  ghost predicate Preserved(p: Cluster -> bool, g: Guard) {
    forall c, e :: p(c) && Enabled(c, e) && Permits(g, c, e) ==> p(Step(c, e))
  }

  /** `c` has every property that fresh clusters have and events preserve. */
  ghost predicate Reached(c: Cluster, g: Guard) {
    forall p: Cluster -> bool :: Initially(p) && Preserved(p, g) ==> p(c)
  }

  /** `c'` is a possible future of `c`. */
  ghost predicate Follows(c: Cluster, c': Cluster, g: Guard) {
    forall p: Cluster -> bool :: p(c) && Preserved(p, g) ==> p(c')
  }

  lemma StartIsReached(configs: map<NodeId, Config>, now: Instant, g: Guard)
    requires ConfigsOk(configs)
    ensures Reached(Start(configs, now), g)
  {
    hide Start, ConfigsOk, Preserved;
  }

  lemma StepIsReached(c: Cluster, e: Event, g: Guard)
    requires Reached(c, g) && Enabled(c, e) && Permits(g, c, e)
    ensures Reached(Step(c, e), g)
  {
    hide Step, Permits, Enabled, Initially;
  }

  lemma FutureIsReached(c: Cluster, c': Cluster, g: Guard)
    requires Reached(c, g) && Follows(c, c', g)
    ensures Reached(c', g)
  {
    hide Preserved, Initially;
  }

  lemma ReachedHas(c: Cluster, q: Cluster -> bool, g: Guard)
    requires Reached(c, g) && Initially(q) && Preserved(q, g)
    ensures q(c)
  {
    hide Initially, Preserved;
  }

  lemma StaysPut(c: Cluster, g: Guard)
    ensures Follows(c, c, g)
  {
  }

  /** One more event. */
  lemma FollowsNext(b: Cluster, c: Cluster, e: Event, g: Guard)
    requires Follows(b, c, g) && Enabled(c, e) && Permits(g, c, e)
    ensures Follows(b, Step(c, e), g)
  {
    hide Enabled, Step, Permits;
  }

  lemma FollowsOn(a: Cluster, b: Cluster, c: Cluster, g: Guard)
    requires Follows(a, b, g) && Follows(b, c, g)
    ensures Follows(a, c, g)
  {
    hide Preserved;
  }

  lemma FollowsUnguarded(c: Cluster, c': Cluster, g: Guard)
    requires Follows(c, c', g)
    ensures Follows(c, c', Anything)
  {
    hide Step, Enabled, CommitsUnacknowledged, Overcredits, WinsWithLeftovers;
    forall p: Cluster -> bool | Preserved(p, Anything)
      ensures Preserved(p, g)
    {
    }
  }

  lemma ReachedUnguarded(c: Cluster, g: Guard)
    requires Reached(c, g)
    ensures Reached(c, Anything)
  {
    hide Step, Enabled, CommitsUnacknowledged, Overcredits, WinsWithLeftovers, Initially;
    forall p: Cluster -> bool | Preserved(p, Anything)
      ensures Preserved(p, g)
    {
    }
  }

  // ---------------------------------------------------------------- reached means reached by a run

  ghost predicate RunsTo(c: Cluster, c': Cluster, events: seq<Event>, g: Guard) {
    Allowed(c, events) && Permitted(c, events, g) && c' == Run(c, events)
  }

  lemma {:induction false} RunIsFollowed(c: Cluster, events: seq<Event>, g: Guard)
    requires Allowed(c, events) && Permitted(c, events, g)
    ensures Follows(c, Run(c, events), g)
    decreases |events|
  {
    hide Step, Permits, Enabled;
    if events != [] {
      RunIsFollowed(Step(c, events[0]), events[1..], g);
      forall p: Cluster -> bool | p(c) && Preserved(p, g)
        ensures p(Run(c, events))
      {
        assert p(Step(c, events[0]));
      }
    }
  }

  /** A run can be taken one event further. */
  lemma {:induction false} RunThen(c: Cluster, events: seq<Event>, e: Event, g: Guard)
    requires Allowed(c, events) && Permitted(c, events, g)
    requires Enabled(Run(c, events), e) && Permits(g, Run(c, events), e)
    ensures RunsTo(c, Step(Run(c, events), e), events + [e], g)
    decreases |events|
  {
    hide Enabled, Step, Permits;
    if events == [] {
      assert events + [e] == [e] && [e][1..] == [];
      NoEvents(Step(c, e), g);
      OneMore(c, [e], Step(c, e), g);
    } else {
      RunThen(Step(c, events[0]), events[1..], e, g);
      assert (events + [e])[1..] == events[1..] + [e];
      OneMore(c, events + [e], Step(Run(c, events), e), g);
    }
  }

  lemma OneMore(c: Cluster, events: seq<Event>, c': Cluster, g: Guard)
    requires events != [] && Enabled(c, events[0]) && Permits(g, c, events[0])
    requires RunsTo(Step(c, events[0]), c', events[1..], g)
    ensures RunsTo(c, c', events, g)
  {
    hide Enabled, Step, Permits;
  }

  ghost predicate HasRun(c: Cluster, c': Cluster, g: Guard) {
    exists events :: RunsTo(c, c', events, g)
  }

  lemma RunsArePreserved(c: Cluster, g: Guard)
    ensures Preserved((x: Cluster) => HasRun(c, x, g), g)
  {
    hide Enabled, Step, Permits, Allowed, Permitted, Run;
    var p := (x: Cluster) => HasRun(c, x, g);
    forall x, e | p(x) && Enabled(x, e) && Permits(g, x, e)
      ensures p(Step(x, e))
    {
      var events :| RunsTo(c, x, events, g);
      RunThen(c, events, e, g);
    }
  }

  /** The possible futures of a cluster are the ends of its runs. */
  lemma FollowsIffRun(c: Cluster, c': Cluster, g: Guard)
    ensures Follows(c, c', g) <==> HasRun(c, c', g)
  {
    hide Enabled, Step, Permits, Permitted, Preserved;
    if Follows(c, c', g) {
      var p := (x: Cluster) => HasRun(c, x, g);
      RunsArePreserved(c, g);
      assert RunsTo(c, c, [], g) by { NoEvents(c, g); }
      assert p(c);
      assert p(c');
    }
    if events :| RunsTo(c, c', events, g) {
      RunIsFollowed(c, events, g);
    }
  }

  lemma NoEvents(c: Cluster, g: Guard)
    ensures RunsTo(c, c, [], g)
  {
  }

  ghost predicate FreshRun(c: Cluster, g: Guard) {
    exists configs, now :: ConfigsOk(configs) && HasRun(Start(configs, now), c, g)
  }

  /** The reached states are the ends of the runs of fresh clusters. */
  lemma ReachedIffRun(c: Cluster, g: Guard)
    ensures Reached(c, g) <==> FreshRun(c, g)
  {
    hide Enabled, Step, Permits, HasRun, Follows, ConfigsOk, Start;
    if Reached(c, g) {
      var p := (x: Cluster) => FreshRun(x, g);
      FreshRunsPreserved(g);
      forall configs, now | ConfigsOk(configs)
        ensures p(Start(configs, now))
      {
        FollowsItself(Start(configs, now), g);
      }
      assert p(c);
    }
    if configs, now :| ConfigsOk(configs) && HasRun(Start(configs, now), c, g) {
      FollowsIffRun(Start(configs, now), c, g);
      StartIsReached(configs, now, g);
      FutureIsReached(Start(configs, now), c, g);
    }
  }

  lemma FollowsItself(c: Cluster, g: Guard)
    ensures HasRun(c, c, g)
  {
    NoEvents(c, g);
  }

  lemma FreshRunsPreserved(g: Guard)
    ensures Preserved((x: Cluster) => FreshRun(x, g), g)
  {
    hide Enabled, Step, Permits, HasRun, ConfigsOk, Start;
    var p := (x: Cluster) => FreshRun(x, g);
    forall x, e | p(x) && Enabled(x, e) && Permits(g, x, e)
      ensures p(Step(x, e))
    {
      var configs, now :| ConfigsOk(configs) && HasRun(Start(configs, now), x, g);
      var q := (y: Cluster) => HasRun(Start(configs, now), y, g);
      RunsArePreserved(Start(configs, now), g);
      assert q(x);
      assert q(Step(x, e));
    }
  }
}
