/** What it means for a prefix to be committed, and why it is never lost and never contradicted. */
module Commitment {
  import opened Types
  import opened Protocol
  import opened Moves

  ghost predicate BackedBy(h: History, prefix: Log, t: Term) {
    t in h.commits && t in h.reigns && |prefix| <= h.commits[t] && prefix <= h.reigns[t].log
  }

  /** Some reign no later than `bound` committed all of `prefix`. */
  ghost predicate Backed(h: History, prefix: Log, bound: Term) {
    prefix == [] || exists t: Term :: t <= bound && BackedBy(h, prefix, t)
  }

  /** Node `n` may treat its first `k` entries as committed. */
  ghost predicate Secure(h: History, n: NodeId, k: nat) {
    n in h.log && n in h.term && k <= |h.log[n]| && Backed(h, h.log[n][..k], h.term[n])
  }

  /** Entry `e` sits at its index in the committed part of some reign. */
  ghost predicate Chosen(h: History, e: LogEntry) {
    exists t :: t in h.commits && t in h.reigns && 1 <= e.index <= h.commits[t] <= |h.reigns[t].log| &&
      h.reigns[t].log[e.index - 1] == e
  }

  lemma BackedExtends(h: History, h': History, m: NodeId, prefix: Log, bound: Term, later: Term)
    requires Extends(h, h', m) && Backed(h, prefix, bound) && bound <= later
    ensures Backed(h', prefix, later)
  {
    if prefix != [] {
      var t: Term :| t <= bound && BackedBy(h, prefix, t);
      assert BackedBy(h', prefix, t);
    }
  }

  lemma ChosenExtends(h: History, h': History, m: NodeId, e: LogEntry)
    requires Extends(h, h', m) && CommitsOk(h') && Chosen(h, e)
    ensures Chosen(h', e)
  {
    var t :| t in h.commits && t in h.reigns && 1 <= e.index <= h.commits[t] <= |h.reigns[t].log| &&
      h.reigns[t].log[e.index - 1] == e;
    assert t in h'.commits && h'.reigns[t].log[e.index - 1] == e;
  }

  /** Every later leader has what was committed. */
  lemma BackedIsInReign(h: History, prefix: Log, bound: Term, t: Term)
    requires Inv(h) && Backed(h, prefix, bound) && bound <= t && t in h.reigns
    ensures prefix <= h.reigns[t].log
    ensures bound < t ==> prefix <= h.reigns[t].base
  {
    hide NodesOk, CampaignsOk, AckBounds, AcksKept, BallotsOk, Sourced;
    if prefix != [] {
      var t0: Term :| t0 <= bound && BackedBy(h, prefix, t0);
      if t0 < t {
        assert ReignOk(h, t);
        LeaderCompleteness(h, t0, t);
        assert prefix <= h.reigns[t0].log[..h.commits[t0]];
      }
    }
  }

  /** Any two committed prefixes are comparable. */
  lemma BackedComparable(h: History, a: Log, b: Log, x: Term, y: Term)
    requires Inv(h) && Backed(h, a, x) && Backed(h, b, y)
    ensures a <= b || b <= a
  {
    hide Inv;
    if a != [] && b != [] {
      var s: Term :| s <= x && BackedBy(h, a, s);
      var t: Term :| t <= y && BackedBy(h, b, t);
      assert Backed(h, a, s) && Backed(h, b, t);
      if s <= t {
        BackedIsInReign(h, a, s, t);
      } else {
        BackedIsInReign(h, b, t, s);
      }
    }
  }

  /** Adopting a leader's prefix never changes what is already committed. */
  lemma AdoptKeepsCommitted(h: History, v: NodeId, k: nat, committed: nat)
    requires Inv(h) && v in h.voters && h.term[v] in h.reigns && k <= |h.reigns[h.term[v]].log|
    requires Secure(h, v, committed)
    ensures committed <= |Adopted(h, v, k)| && Adopted(h, v, k)[..committed] == h.log[v][..committed]
  {
    BackedIsInReign(h, h.log[v][..committed], h.term[v], h.term[v]);
  }

  /** Any two chosen entries with the same index are the same entry. */
  lemma ChosenIsUnique(h: History, a: LogEntry, b: LogEntry)
    requires Inv(h) && Chosen(h, a) && Chosen(h, b) && a.index == b.index
    ensures a == b
  {
    hide Inv;
    var s :| s in h.commits && s in h.reigns && 1 <= a.index <= h.commits[s] <= |h.reigns[s].log| &&
      h.reigns[s].log[a.index - 1] == a;
    var t :| t in h.commits && t in h.reigns && 1 <= b.index <= h.commits[t] <= |h.reigns[t].log| &&
      h.reigns[t].log[b.index - 1] == b;
    var p, q := h.reigns[s].log[..h.commits[s]], h.reigns[t].log[..h.commits[t]];
    assert BackedBy(h, p, s) && BackedBy(h, q, t);
    BackedComparable(h, p, q, s, t);
    assert p[a.index - 1] == a && q[b.index - 1] == b;
  }

  /** The entries of a committed prefix are chosen. */
  lemma BackedEntriesChosen(h: History, prefix: Log, bound: Term, i: nat)
    requires CommitsOk(h) && Backed(h, prefix, bound) && i < |prefix| && prefix[i].index == i + 1
    ensures Chosen(h, prefix[i])
  {
    var t: Term :| t <= bound && BackedBy(h, prefix, t);
    assert h.reigns[t].log[i] == prefix[i];
  }
}
