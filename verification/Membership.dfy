/** The fixed voter set, and the fact every safety argument rests on: two majorities meet. */
module Membership {
  import opened Types

  /** A set of voters together with the order in which it is iterated. */
  datatype Membership = Membership(order: seq<NodeId>) {

    ghost predicate Valid() {
      forall i, j :: 0 <= i < j < |order| ==> order[i] != order[j]
    }

    function Voters(): set<NodeId> {
      set v | v in order
    }

    function Quorum(): nat {
      |order| / 2 + 1
    }

    function OtherVoters(self: NodeId): seq<NodeId> {
      Without(order, self)
    }
  }

  /** Collects voter ids, dropping repetitions. */
  function New(ids: seq<NodeId>): (m: Membership)
    ensures m.Valid()
    ensures forall v :: v in m.order <==> v in ids
  {
    if ids == [] then Membership([])
    else
      var init := New(ids[..|ids| - 1]);
      var last := ids[|ids| - 1];
      assert ids == ids[..|ids| - 1] + [last];
      if last in init.order then init else Membership(init.order + [last])
  }

  /** `order` with every occurrence of `self` dropped. */
  function Without(order: seq<NodeId>, self: NodeId): (others: seq<NodeId>)
    ensures forall v :: v in others <==> v in order && v != self
  {
    if order == [] then []
    else (if order[0] == self then [] else [order[0]]) + Without(order[1..], self)
  }

  lemma {:induction false} WithoutIsDistinct(order: seq<NodeId>, self: NodeId)
    requires Membership(order).Valid()
    ensures Membership(Without(order, self)).Valid()
  {
    if order != [] {
      WithoutIsDistinct(order[1..], self);
      assert order[0] !in order[1..];
      assert order[0] !in Without(order[1..], self);
    }
  }

  /** How many of `ids` satisfy `marked`. */
  function Count(ids: seq<NodeId>, marked: set<NodeId>): nat {
    if ids == [] then 0 else (if ids[0] in marked then 1 else 0) + Count(ids[1..], marked)
  }

  lemma {:induction false} CountIsCardinality(ids: seq<NodeId>, marked: set<NodeId>)
    requires Membership(ids).Valid()
    ensures Count(ids, marked) == |Membership(ids).Voters() * marked|
  {
    if ids == [] {
      assert Membership(ids).Voters() * marked == {};
    } else {
      CountIsCardinality(ids[1..], marked);
      FirstVoter(ids);
      InsertedSize(Membership(ids[1..]).Voters(), marked, ids[0]);
    }
  }

  lemma FirstVoter(ids: seq<NodeId>)
    requires ids != [] && Membership(ids).Valid()
    ensures ids[0] !in Membership(ids[1..]).Voters()
    ensures Membership(ids).Voters() == Membership(ids[1..]).Voters() + {ids[0]}
  {
    assert ids == [ids[0]] + ids[1..];
  }

  lemma InsertedSize<T>(a: set<T>, marked: set<T>, x: T)
    requires x !in a
    ensures |(a + {x}) * marked| == |a * marked| + if x in marked then 1 else 0
  {
    if x in marked {
      assert (a + {x}) * marked == a * marked + {x};
    } else {
      assert (a + {x}) * marked == a * marked;
    }
  }

  lemma {:induction false} VotersSize(order: seq<NodeId>)
    requires Membership(order).Valid()
    ensures |Membership(order).Voters()| == |order|
  {
    if order == [] {
      assert Membership(order).Voters() == {};
    } else {
      VotersSize(order[1..]);
      FirstVoter(order);
    }
  }

  lemma SubsetSize<T>(a: set<T>, b: set<T>)
    requires a <= b
    ensures |a| <= |b|
  {
    assert b == a + (b - a);
  }

  /** Two sets of more voters together than there are share one. */
  lemma LargeSetsMeet(voters: set<NodeId>, a: set<NodeId>, b: set<NodeId>) returns (v: NodeId)
    requires a <= voters && b <= voters && |a| + |b| > |voters|
    ensures v in a && v in b
  {
    if a * b == {} {
      assert |a + b| == |a| + |b|;
      SubsetSize(a + b, voters);
      assert false;
    }
    v :| v in a * b;
  }

  /** Two sets that each hold more than half of the voters share a voter. */
  lemma MajoritiesMeet(voters: set<NodeId>, a: set<NodeId>, b: set<NodeId>) returns (v: NodeId)
    requires a <= voters && b <= voters
    requires |a| >= |voters| / 2 + 1 && |b| >= |voters| / 2 + 1
    ensures v in a && v in b
  {
    v := LargeSetsMeet(voters, a, b);
  }
}
