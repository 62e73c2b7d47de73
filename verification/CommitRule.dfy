/** The leader's commit rule, against its textbook reading: sort the match indices, take the one a majority reaches. */
module CommitRule {
  import opened Types
  import opened LogSpec
  import opened EngineSpec
  import opened Cluster
  import opened Protocol
  import opened Commitment
  import opened NodeSpec
  import opened Coupling
  import opened Events
  import opened Reachability
  import opened Safety
  import M = Membership

  /** How far each voter is known to hold the leader's log; the leader itself holds all of it. */
  function Indices(s: Engine): seq<Index> {
    [|s.log|] + MatchIndices(s, s.Others())
  }

  function MatchIndices(s: Engine, peers: seq<NodeId>): (indices: seq<Index>)
    ensures |indices| == |peers|
  {
    if peers == [] then [] else [MatchOf(s, peers[0])] + MatchIndices(s, peers[1..])
  }

  ghost predicate Descending(d: seq<Index>) {
    forall i, j :: 0 <= i <= j < |d| ==> d[i] >= d[j]
  }

  /** How many members of `d` are at least `n`. */
  function AtLeast(d: seq<Index>, n: Index): nat {
    if d == [] then 0 else (if d[0] >= n then 1 else 0) + AtLeast(d[1..], n)
  }

  // ---------------------------------------------------------------- counting

  lemma {:induction false} AtLeastConcat(a: seq<Index>, b: seq<Index>, n: Index)
    ensures AtLeast(a + b, n) == AtLeast(a, n) + AtLeast(b, n)
  {
    if a == [] {
      assert a + b == b;
    } else {
      assert (a + b)[0] == a[0] && (a + b)[1..] == a[1..] + b;
      AtLeastConcat(a[1..], b, n);
    }
  }

  /** The count does not depend on the order. */
  lemma {:induction false} AtLeastOfPermutation(a: seq<Index>, b: seq<Index>, n: Index)
    requires multiset(a) == multiset(b)
    ensures AtLeast(a, n) == AtLeast(b, n)
    decreases |a|
  {
    if a == [] {
      assert |multiset(b)| == 0;
    } else {
      hide AtLeast;
      assert a[0] in multiset(a);
      var i :| 0 <= i < |b| && b[i] == a[0];
      FirstOut(a, n);
      WithoutOne(b, i, n);
      Cancel(a[0], multiset(a[1..]), multiset(b[..i] + b[i + 1..]));
      AtLeastOfPermutation(a[1..], b[..i] + b[i + 1..], n);
    }
  }

  lemma FirstOut(a: seq<Index>, n: Index)
    requires a != []
    ensures multiset(a) == multiset{a[0]} + multiset(a[1..])
    ensures AtLeast(a, n) == (if a[0] >= n then 1 else 0) + AtLeast(a[1..], n)
  {
    assert a == [a[0]] + a[1..];
  }

  lemma Cancel(x: Index, u: multiset<Index>, v: multiset<Index>)
    requires multiset{x} + u == multiset{x} + v
    ensures u == v
  {
    assert u == (multiset{x} + u) - multiset{x} == (multiset{x} + v) - multiset{x} == v;
  }

  lemma WithoutOne(b: seq<Index>, i: nat, n: Index)
    requires i < |b|
    ensures multiset(b) == multiset{b[i]} + multiset(b[..i] + b[i + 1..])
    ensures AtLeast(b, n) == (if b[i] >= n then 1 else 0) + AtLeast(b[..i] + b[i + 1..], n)
  {
    var rest := [b[i]] + b[i + 1..];
    assert b == b[..i] + rest;
    AtLeastConcat(b[..i], rest, n);
    AtLeastConcat(b[..i], b[i + 1..], n);
    assert rest[1..] == b[i + 1..];
  }

  /** In descending order, at least k members reach n exactly when the k-th does. */
  lemma {:induction false} DescendingRank(d: seq<Index>, k: nat, n: Index)
    requires Descending(d) && 1 <= k <= |d|
    ensures AtLeast(d, n) >= k <==> d[k - 1] >= n
    decreases |d|
  {
    if d[0] >= n && k > 1 {
      DescendingRank(d[1..], k - 1, n);
    } else if d[0] < n {
      NoneReaches(d, n);
      assert d[k - 1] <= d[0];
    }
  }

  lemma {:induction false} NoneReaches(d: seq<Index>, n: Index)
    requires Descending(d) && (d != [] ==> d[0] < n)
    ensures AtLeast(d, n) == 0
  {
    if |d| > 1 {
      NoneReaches(d[1..], n);
    }
  }

  /** The scan's count of holders is the count of sufficient match indices. */
  lemma {:induction false} HoldersCounted(s: Engine, peers: seq<NodeId>, n: Index)
    requires n >= 1
    ensures M.Count(peers, Holders(s, n)) == AtLeast(MatchIndices(s, peers), n)
    decreases |peers|
  {
    if peers != [] {
      HoldersCounted(s, peers[1..], n);
      var rest := MatchIndices(s, peers[1..]);
      assert ([MatchOf(s, peers[0])] + rest)[1..] == rest;
    }
  }

  lemma {:induction false} WithoutSize(order: seq<NodeId>, self: NodeId)
    requires M.Membership(order).Valid()
    ensures |M.Without(order, self)| == |order| - if self in order then 1 else 0
  {
    if order != [] {
      WithoutSize(order[1..], self);
      assert order == [order[0]] + order[1..];
    }
  }

  // ---------------------------------------------------------------- the rule

  /** Terms never decrease along the log and never exceed the current one. */
  ghost predicate TermsOrdered(s: Engine) {
    && (forall i, j :: 0 <= i <= j < |s.log| ==> s.log[i].term <= s.log[j].term)
    && (forall i :: 0 <= i < |s.log| ==> s.log[i].term <= s.Term())
  }

  ghost predicate Booked(s: Engine) {
    && s.members.Valid() && s.Id() in s.members.order && TermsOrdered(s)
    && forall p :: p in s.matchIndex ==> s.matchIndex[p] <= |s.log|
  }

  /** The highest index a majority holds: the quorum-th largest of the indices. */
  function MajorityIndex(s: Engine, d: seq<Index>): Index
    requires s.members.Quorum() <= |d|
  {
    d[s.members.Quorum() - 1]
  }

  lemma EnoughIndices(s: Engine, d: seq<Index>)
    requires Booked(s) && multiset(d) == multiset(Indices(s))
    ensures s.members.Quorum() <= |d| && AtLeast(d, 0) == |d|
    ensures forall v :: v in d ==> v <= |s.log|
  {
    WithoutSize(s.members.order, s.Id());
    assert |d| == |multiset(d)| == |Indices(s)|;
    AllReachZero(d);
    forall v | v in d
      ensures v <= |s.log|
    {
      assert v in multiset(Indices(s));
      MatchesBounded(s, s.Others(), v);
    }
  }

  lemma {:induction false} AllReachZero(d: seq<Index>)
    ensures AtLeast(d, 0) == |d|
  {
    if d != [] {
      AllReachZero(d[1..]);
    }
  }

  lemma {:induction false} MatchesBounded(s: Engine, peers: seq<NodeId>, v: Index)
    requires forall p :: p in s.matchIndex ==> s.matchIndex[p] <= |s.log|
    ensures v in MatchIndices(s, peers) ==> v <= |s.log|
    decreases |peers|
  {
    if peers != [] {
      MatchesBounded(s, peers[1..], v);
    }
  }

  /** An index of the current term is committable exactly up to the majority index. */
  lemma CommittableIffReached(s: Engine, d: seq<Index>, n: Index)
    requires Booked(s) && Descending(d) && multiset(d) == multiset(Indices(s)) && 1 <= n <= |s.log|
    requires s.members.Quorum() <= |d|
    ensures Committable(s, n) <==> TermAt(s.log, n) == s.Term() && n <= MajorityIndex(s, d)
  {
    hide AtLeast;
    HoldersCounted(s, s.Others(), n);
    AtLeastConcat([|s.log|], MatchIndices(s, s.Others()), n);
    assert AtLeast([|s.log|], n) == 1 by { OneReaches(|s.log|, n); }
    AtLeastOfPermutation(d, Indices(s), n);
    DescendingRank(d, s.members.Quorum(), n);
  }

  lemma OneReaches(v: Index, n: Index)
    requires v >= n
    ensures AtLeast([v], n) == 1
  {
  }

  /** The high-to-low scan finds the majority index when that is new and of the current term; otherwise it finds
      nothing. */
  lemma ScanFindsMajorityIndex(s: Engine, d: seq<Index>)
    requires Booked(s) && Descending(d) && multiset(d) == multiset(Indices(s))
    ensures s.members.Quorum() <= |d| && MajorityIndex(s, d) <= |s.log|
    ensures var m := MajorityIndex(s, d);
            CommitTarget(s, |s.log|) == if m > s.commitIndex && TermAt(s.log, m) == s.Term() then m else s.commitIndex
  {
    hide CommitTarget, Committable;
    EnoughIndices(s, d);
    var m, target := MajorityIndex(s, d), CommitTarget(s, |s.log|);
    assert m in d;
    if m > s.commitIndex && TermAt(s.log, m) == s.Term() {
      CommittableIffReached(s, d, m);
    }
    if target > s.commitIndex {
      CommittableIffReached(s, d, target);
      assert s.log[target - 1].term <= s.log[m - 1].term <= s.Term();
    }
  }

  /** What a success does in a reached leader, once its sender has been credited: commit through the majority index,
      or nothing at all. */
  lemma SuccessCommitsMajorityIndex(c: Cluster, l: NodeId, from: NodeId, d: seq<Index>)
    requires Leads(c, l) && from in c.nodes[l].engine.lastAe && Descending(d)
    requires multiset(d) == multiset(Indices(Credit(c.nodes[l].engine, from))) && Reached(c, Anything)
    ensures var s := Credit(c.nodes[l].engine, from);
            && s.members.Quorum() <= |d| && MajorityIndex(s, d) <= |s.log|
            && var m, r := MajorityIndex(s, d), MaybeCommit(s);
               if m > s.commitIndex && TermAt(s.log, m) == s.Term()
               then r.engine.commitIndex == m else r == Outcome(s, [])
  {
    hide CommitTarget, Reached, Slice, Booked, Indices, MajorityIndex;
    LeaderIsBooked(c, l, from);
    var s := Credit(c.nodes[l].engine, from);
    ScanFindsMajorityIndex(s, d);
  }

  lemma LeaderIsBooked(c: Cluster, l: NodeId, from: NodeId)
    requires Leads(c, l) && from in c.nodes[l].engine.lastAe && Reached(c, Anything)
    ensures Booked(Credit(c.nodes[l].engine, from))
  {
    hide Coupled, Reached, Inv, EngineOk, NodeOk;
    var s := c.nodes[l].engine;
    var h := ReachedCoupled(c, Anything);
    NodeIsOk(c, h, l, false);
    BooksBounded(h, l, s, from);
    forall i, j | 0 <= i <= j < |s.log|
      ensures s.log[i].term <= s.log[j].term <= s.Term()
    {
      LogsAreOrderly(c, l, i, j);
    }
  }

  lemma BooksBounded(h: History, l: NodeId, s: Engine, from: NodeId)
    requires s.role == Leader && from in s.lastAe && EngineOk(h, l, s, false)
    ensures s.members.Valid() && s.Id() in s.members.order && s.lastAe[from].0 + s.lastAe[from].1 <= |s.log|
    ensures forall p :: p in s.matchIndex ==> s.matchIndex[p] <= |s.log|
  {
    hide DurableOk, RoleOk, Secure;
    forall p | p in s.matchIndex
      ensures s.matchIndex[p] <= |s.log|
    {
      assert p in s.nextIndex.Keys && PeerOk(s, p);
    }
    hide BooksOk;
    assert l in (set v | v in s.config.voters);
  }
}
