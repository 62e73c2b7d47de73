/** How a cluster and its history correspond. `acked` says that so far leaders have only committed what enough voters
    acknowledged; the facts about commitment hold only then. */
module Coupling {
  import opened Types
  import opened LogSpec
  import opened Protocol
  import opened Moves
  import opened Commitment
  import opened EngineSpec
  import opened NodeSpec
  import opened Cluster
  import M = Membership

  // ---------------------------------------------------------------- one engine

  ghost predicate IdentityOk(h: History, n: NodeId, s: Engine) {
    s.Id() == n && s.members == M.New(s.config.voters) && (set v | v in s.config.voters) == h.voters && n in h.voters
  }

  function VoteOf(h: History, n: NodeId, t: Term): Option<NodeId> {
    if (n, t) in h.ballots then Some(h.ballots[(n, t)].candidate) else None
  }

  ghost predicate DurableOk(h: History, n: NodeId, s: Engine) {
    && n in h.term && n in h.log
    && s.Term() == h.term[n] && s.log == h.log[n] && s.hard.votedFor == VoteOf(h, n, s.Term())
  }

  ghost predicate CandidateOk(h: History, n: NodeId, s: Engine) {
    && (n, s.Term()) in h.campaigns && h.campaigns[(n, s.Term())] == s.log
    && n in s.votes && s.votes <= h.voters
    && (forall v :: v in s.votes ==> VoteOf(h, v, s.Term()) == Some(n))
    && (s.Term() in h.reigns ==> h.reigns[s.Term()].leader != n)
  }

  ghost predicate LeaderOk(h: History, n: NodeId, s: Engine) {
    && s.Term() in h.reigns && h.reigns[s.Term()].leader == n && h.reigns[s.Term()].log == s.log
    && s.hard.votedFor == Some(n) && |s.log| <= h.Ack(n, s.Term())
  }

  ghost predicate RoleOk(h: History, n: NodeId, s: Engine) {
    && (s.role == Candidate ==> CandidateOk(h, n, s))
    && (s.role == Leader ==> LeaderOk(h, n, s))
    && (s.role != Leader ==> s.inflight == {})
    && (s.leader.Some? ==> s.Term() in h.reigns && h.reigns[s.Term()].leader == s.leader.value)
  }

  /** How far the last append to a peer reached; every append runs to the end of the log. */
  function Covered(s: Engine, q: NodeId): Index {
    if q in s.lastAe then s.lastAe[q].0 + s.lastAe[q].1 else 0
  }

  /** The leader's view of one peer. */
  ghost predicate PeerOk(s: Engine, q: NodeId)
    requires q in s.nextIndex && q in s.matchIndex
  {
    s.matchIndex[q] < s.nextIndex[q] <= |s.log| + 1 && s.matchIndex[q] <= Covered(s, q)
  }

  ghost predicate BooksOk(h: History, n: NodeId, s: Engine) {
    s.role == Leader ==>
      && s.nextIndex.Keys == h.voters - {n} && s.matchIndex.Keys == h.voters - {n}
      && (forall q :: q in s.nextIndex ==> PeerOk(s, q))
      && s.lastAe.Keys <= h.voters - {n} && s.inflight <= s.lastAe.Keys
      && (forall q :: q in s.lastAe ==> s.lastAe[q].0 + s.lastAe[q].1 <= |s.log|)
  }

  ghost predicate EngineOk(h: History, n: NodeId, s: Engine, acked: bool) {
    && IdentityOk(h, n, s) && DurableOk(h, n, s) && RoleOk(h, n, s) && BooksOk(h, n, s)
    && (acked ==> s.lastApplied == s.commitIndex && Secure(h, n, s.commitIndex))
  }

  // ---------------------------------------------------------------- one node's requests

  /** A request that `src` may have sent to `dst`. */
  ghost predicate MsgOk(h: History, src: NodeId, dst: NodeId, msg: Message, acked: bool) {
    && src in h.voters && dst in h.voters && src != dst
    && match msg
       case RequestVote(t, candidate, lastIndex, lastTerm) =>
         && candidate == src && (src, t) in h.campaigns
         && lastIndex == |h.campaigns[(src, t)]| && lastTerm == LastTerm(h.campaigns[(src, t)])
       case AppendEntries(t, leader, prev, prevTerm, entries, commit) =>
         && leader == src && t in h.reigns && h.reigns[t].leader == src
         && prev + |entries| <= |h.reigns[t].log|
         && entries == h.reigns[t].log[prev..prev + |entries|] && prevTerm == TermAt(h.reigns[t].log, prev)
         && (acked ==> commit <= |h.reigns[t].log| && Backed(h, h.reigns[t].log[..commit], t))
       case RequestVoteResp(_, _) => false
       case AppendEntriesResp(_, _, _) => false
       case InstallSnapshot(_) => false
       case InstallSnapshotResp(_) => false
  }

  ghost predicate PendingOk(c: Cluster, n: NodeId)
    requires n in c.nodes && n in c.incarnation
  {
    var node := c.nodes[n];
    forall id :: id in node.pending ==>
      && id < node.nextCorrelation && node.pending[id].kind == KindOf(node.pending[id].msg)
      && Envelope(n, node.pending[id].to, c.incarnation[n], id, node.pending[id].msg) in c.requests
  }

  ghost predicate Awaits(pending: map<nat, Pending>, id: nat, q: NodeId, t: Term) {
    id in pending && pending[id].to == q && pending[id].msg.AppendEntries? && pending[id].msg.term == t
  }

  /** Every peer marked in flight has a pending append of this very term. */
  ghost predicate NotStuck(node: Node) {
    forall q :: q in node.engine.inflight ==> exists id :: Awaits(node.pending, id, q, node.engine.Term())
  }

  /** A pending append is exactly what the engine remembers as the last append to that peer. */
  ghost predicate Remembered(s: Engine, p: Pending) {
    p.msg.AppendEntries? ==>
      && p.msg.term == s.Term() && p.to in s.inflight
      && p.to in s.lastAe && s.lastAe[p.to] == (p.msg.prevLogIndex, |p.msg.entries|)
      && p.to in s.nextIndex && s.nextIndex[p.to] == p.msg.prevLogIndex + 1
  }

  ghost predicate NodeOk(c: Cluster, h: History, n: NodeId, acked: bool) {
    && n in c.nodes && n in c.incarnation && n in c.applied
    && EngineOk(h, n, c.nodes[n].engine, acked)
    && PendingOk(c, n) && NotStuck(c.nodes[n])
    && (acked ==> c.applied[n] ==
                    c.nodes[n].engine.log[..Min(c.nodes[n].engine.commitIndex, |c.nodes[n].engine.log|)])
  }

  // ---------------------------------------------------------------- the network

  ghost predicate RequestOk(c: Cluster, h: History, q: Envelope, acked: bool) {
    && MsgOk(h, q.src, q.dst, q.msg, acked)
    && q.src in c.nodes && q.src in c.incarnation && q.incarnation <= c.incarnation[q.src]
    && (q.incarnation == c.incarnation[q.src] ==> q.correlation < c.nodes[q.src].nextCorrelation)
  }

  ghost predicate SameKey(p: Envelope, q: Envelope) {
    p.src == q.src && p.incarnation == q.incarnation && p.correlation == q.correlation
  }

  ghost predicate ReplyOk(c: Cluster, h: History, r: Reply) {
    && r.request in c.requests
    && match r.request.msg
       case RequestVote(t, _, _, _) =>
         && r.msg.RequestVoteResp? && t <= r.msg.term
         && (r.msg.voteGranted ==> r.msg.term == t && VoteOf(h, r.request.dst, t) == Some(r.request.src))
       case AppendEntries(t, _, prev, _, entries, _) =>
         && r.msg.AppendEntriesResp? && t <= r.msg.term
         && (r.msg.success ==> r.msg.term == t && prev + |entries| <= h.Ack(r.request.dst, t))
       case RequestVoteResp(_, _) => false
       case AppendEntriesResp(_, _, _) => false
       case InstallSnapshot(_) => false
       case InstallSnapshotResp(_) => false
  }

  ghost predicate EmittedOk(h: History, n: NodeId, o: Output, acked: bool) {
    match o
    case RoleChanged(role, t, leader) => role == Leader ==> t in h.reigns && h.reigns[t].leader == n
    case Committed(entries) => acked ==> forall e :: e in entries ==> Chosen(h, e)
    case SendRequest(_, _, _) => true
    case SendResponse(_, _) => true
    case RpcFailed(_) => true
  }

  ghost predicate NetworkOk(c: Cluster, h: History, acked: bool) {
    && (forall q :: q in c.requests ==> RequestOk(c, h, q, acked))
    && (forall p, q :: p in c.requests && q in c.requests && SameKey(p, q) ==> p == q)
    && (forall r :: r in c.replies ==> ReplyOk(c, h, r))
    && (forall e :: e in c.emitted ==> EmittedOk(h, e.0, e.1, acked))
  }

  ghost predicate Coupled(c: Cluster, h: History, acked: bool) {
    && Inv(h)
    && c.nodes.Keys == h.voters && c.incarnation.Keys == h.voters && c.applied.Keys == h.voters
    && (forall n :: n in h.voters ==> NodeOk(c, h, n, acked))
    && NetworkOk(c, h, acked)
  }

  // ---------------------------------------------------------------- frames

  /** `m` acted: everything else is as before, and the network only gained what `m` sent. */
  ghost predicate ActedAlone(c: Cluster, c': Cluster, m: NodeId) {
    && m in c.nodes && m in c'.nodes && m in c.incarnation && m in c'.incarnation
    && c'.nodes.Keys == c.nodes.Keys && c'.incarnation.Keys == c.incarnation.Keys && c'.applied.Keys == c.applied.Keys
    && (forall n :: n in c.nodes && n != m ==> c'.nodes[n] == c.nodes[n])
    && (forall n :: n in c.incarnation && n != m ==> c'.incarnation[n] == c.incarnation[n])
    && (forall n :: n in c.applied && n != m ==> c'.applied[n] == c.applied[n])
    && c.requests <= c'.requests && c.replies <= c'.replies && c.emitted <= c'.emitted
    && c.incarnation[m] <= c'.incarnation[m]
    && (c'.incarnation[m] == c.incarnation[m] ==> c.nodes[m].nextCorrelation <= c'.nodes[m].nextCorrelation)
  }

  /** Only the books changed. */
  lemma BooksChanged(h: History, n: NodeId, s: Engine, s': Engine, acked: bool)
    requires EngineOk(h, n, s, acked) && s.role == Leader && BooksOk(h, n, s')
    requires s' ==
               s.(nextIndex := s'.nextIndex, matchIndex := s'.matchIndex, lastAe := s'.lastAe, inflight := s'.inflight)
    ensures EngineOk(h, n, s', acked)
  {
    hide Secure, BooksOk;
  }

  lemma EngineFrame(h: History, h': History, m: NodeId, n: NodeId, s: Engine, acked: bool)
    requires Extends(h, h', m) && EngineOk(h, n, s, acked) && n != m && NodesOk(h)
    ensures EngineOk(h', n, s, acked)
  {
    if acked {
      BackedExtends(h, h', m, h.log[n][..s.commitIndex], h.term[n], h.term[n]);
    }
    hide Sourced, Backed, TermsBelow;
    BooksFrame(h, h', m, n, s, acked);
    hide BooksOk;
    RoleFrame(h, h', m, n, s);
    hide RoleOk;
  }

  lemma BooksFrame(h: History, h': History, m: NodeId, n: NodeId, s: Engine, acked: bool)
    requires Extends(h, h', m) && BooksOk(h, n, s)
    ensures BooksOk(h', n, s)
  {
    if s.role == Leader {
      forall q | q in s.nextIndex
        ensures PeerOk(s, q)
      {
        assert PeerOk(s, q);
        assert h.Ack(q, s.Term()) <= h'.Ack(q, s.Term());
      }
    }
  }

  lemma RoleFrame(h: History, h': History, m: NodeId, n: NodeId, s: Engine)
    requires Extends(h, h', m) && RoleOk(h, n, s) && n != m
    ensures RoleOk(h', n, s)
  {
    assert h.Ack(n, s.Term()) <= h'.Ack(n, s.Term());
  }

  lemma MsgFrame(h: History, h': History, m: NodeId, src: NodeId, dst: NodeId, msg: Message, acked: bool)
    requires Extends(h, h', m) && MsgOk(h, src, dst, msg, acked)
    ensures MsgOk(h', src, dst, msg, acked)
  {
    if msg.AppendEntries? {
      var t := msg.term;
      assert h.reigns[t].log <= h'.reigns[t].log;
      if acked {
        BackedExtends(h, h', m, h.reigns[t].log[..msg.leaderCommit], t, t);
        assert h'.reigns[t].log[..msg.leaderCommit] == h.reigns[t].log[..msg.leaderCommit];
      }
    }
  }

  lemma ReplyFrame(c: Cluster, c': Cluster, h: History, h': History, m: NodeId, r: Reply)
    requires Extends(h, h', m) && ReplyOk(c, h, r) && c.requests <= c'.requests
    ensures ReplyOk(c', h', r)
  {
    if r.request.msg.AppendEntries? {
      assert h.Ack(r.request.dst, r.request.msg.term) <= h'.Ack(r.request.dst, r.request.msg.term);
    }
  }

  lemma EmittedFrame(h: History, h': History, m: NodeId, n: NodeId, o: Output, acked: bool)
    requires Extends(h, h', m) && CommitsOk(h') && EmittedOk(h, n, o, acked)
    ensures EmittedOk(h', n, o, acked)
  {
    if acked && o.Committed? {
      forall e | e in o.entries
        ensures Chosen(h', e)
      {
        ChosenExtends(h, h', m, e);
      }
    }
  }

  lemma NodeFrame(c: Cluster, c': Cluster, h: History, h': History, m: NodeId, n: NodeId, acked: bool)
    requires Extends(h, h', m) && ActedAlone(c, c', m) && NodesOk(h) && n != m && NodeOk(c, h, n, acked)
    ensures NodeOk(c', h', n, acked)
  {
    EngineFrame(h, h', m, n, c.nodes[n].engine, acked);
    hide EngineOk, NotStuck, Extends;
  }

  /** What an event still has to show about its actor and about the messages it added. */
  ghost predicate ActorOk(c: Cluster, c': Cluster, h': History, m: NodeId, acked: bool) {
    && NodeOk(c', h', m, acked)
    && (forall q :: q in c'.requests && q !in c.requests ==>
          q.src == m && q.incarnation == c'.incarnation[m] && RequestOk(c', h', q, acked)
          && m in c.nodes && (m in c.incarnation && c'.incarnation[m] == c.incarnation[m]
                              ==> c.nodes[m].nextCorrelation <= q.correlation))
    && (forall p, q :: p in c'.requests && p !in c.requests && q in c'.requests && q !in c.requests && SameKey(p, q) ==>
          p == q)
    && (forall r :: r in c'.replies && r !in c.replies ==> ReplyOk(c', h', r))
    && (forall e :: e in c'.emitted && e !in c.emitted ==> EmittedOk(h', e.0, e.1, acked))
  }

  lemma NetworkFrame(c: Cluster, c': Cluster, h: History, h': History, m: NodeId, acked: bool)
    requires NetworkOk(c, h, acked) && CommitsOk(h') && Extends(h, h', m) && ActedAlone(c, c', m)
    requires ActorOk(c, c', h', m, acked)
    ensures NetworkOk(c', h', acked)
  {
    hide NodeOk, MsgOk, ReplyOk, EmittedOk, Extends, CommitsOk;
    forall q | q in c'.requests
      ensures RequestOk(c', h', q, acked)
    {
      if q in c.requests {
        assert RequestOk(c, h, q, acked);
        MsgFrame(h, h', m, q.src, q.dst, q.msg, acked);
      }
    }
    forall p, q | p in c'.requests && q in c'.requests && SameKey(p, q)
      ensures p == q
    {
      if p in c.requests && q !in c.requests {
        assert RequestOk(c, h, p, acked);
      }
    }
    forall r | r in c'.replies
      ensures ReplyOk(c', h', r)
    {
      if r in c.replies {
        ReplyFrame(c, c', h, h', m, r);
      }
    }
    forall e | e in c'.emitted
      ensures EmittedOk(h', e.0, e.1, acked)
    {
      if e in c.emitted {
        EmittedFrame(h, h', m, e.0, e.1, acked);
      }
    }
  }

  /** The coupling after an event reduces to what the actor did. */
  lemma CoupledExtends(c: Cluster, c': Cluster, h: History, h': History, m: NodeId, acked: bool)
    requires Coupled(c, h, acked) && Inv(h') && Extends(h, h', m) && ActedAlone(c, c', m)
    requires ActorOk(c, c', h', m, acked)
    ensures Coupled(c', h', acked)
  {
    hide NodesOk, CampaignsOk, ReignsOk, AckBounds, AcksKept, BallotsOk, CommitsOk, NodeOk, NetworkOk, RequestOk;
    NetworkFrame(c, c', h, h', m, acked);
    assert h'.voters == h.voters;
    hide Extends;
    forall n | n in h.voters && n != m
      ensures NodeOk(c', h', n, acked)
    {
      NodeFrame(c, c', h, h', m, n, acked);
    }
  }
}
