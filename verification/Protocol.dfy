/** The protocol behind the nodes, with message passing and log compaction
    abstracted away: every node owns its full history, and auxiliary state
    remembers each term's leader, the bids and ballots cast and the entries a
    node has held while in the term that wrote them.  Eight small actions keep one
    inductive invariant; Leader Completeness follows from it by induction on terms. */
module Protocol {
  import opened RaftTypes

  datatype PNode = PNode(term: nat, role: Role, hist: seq<LogEntry>, commit: nat)

  /** One term's leadership: `base` is the leader's history when it won and
      `log` its history now (or when it last led). */
  datatype Reign = Reign(leader: NodeId, base: seq<LogEntry>, log: seq<LogEntry>, electors: set<NodeId>)

  datatype Ballot = Ballot(candidate: NodeId, log: seq<LogEntry>)

  /** `node` has held the history of `term`'s leader up to `index`, an entry of
      that same term, while being in that term itself. */
  datatype Ack = Ack(node: NodeId, term: nat, index: nat)

  datatype Proto = Proto(
    voters: set<NodeId>,
    nodes: map<NodeId, PNode>,
    reigns: map<nat, Reign>,
    bids: map<(NodeId, nat), seq<LogEntry>>,
    ballots: map<(NodeId, nat), Ballot>,
    acks: set<Ack>)

  // ---- Vocabulary --------------------------------------------------------------

  predicate Agree(a: seq<LogEntry>, b: seq<LogEntry>, n: nat) {
    && n <= |a| && n <= |b|
    && forall i :: 0 <= i < n ==> a[i] == b[i]
  }

  function LastTerm(s: seq<LogEntry>): nat {
    if s == [] then 0 else s[|s| - 1].term
  }

  /** Section 5.4.1 of the Raft paper: `a` is at least as up-to-date as `b`. */
  predicate UpToDate(a: seq<LogEntry>, b: seq<LogEntry>) {
    LastTerm(a) > LastTerm(b) || (LastTerm(a) == LastTerm(b) && |a| >= |b|)
  }

  predicate IsMajority(part: set<NodeId>, whole: set<NodeId>) {
    part <= whole && 2 * |part| > |whole|
  }

  /** Every entry sits on top of exactly the history its own leader had there. */
  ghost predicate Sourced(reigns: map<nat, Reign>, s: seq<LogEntry>) {
    forall n {:trigger SourcedAt(reigns, s, n)} :: 1 <= n <= |s| ==> SourcedAt(reigns, s, n)
  }

  ghost predicate SourcedAt(reigns: map<nat, Reign>, s: seq<LogEntry>, n: int)
    requires 1 <= n <= |s|
  {
    var t := s[n - 1].term;
    t in reigns && Agree(s, reigns[t].log, n)
  }

  ghost predicate TermsUpTo(s: seq<LogEntry>, t: nat) {
    forall i :: 0 <= i < |s| ==> s[i].term <= t
  }

  /** Some leader after `t` and up to `limit` started without `t`'s first `k` entries. */
  ghost predicate Lost(reigns: map<nat, Reign>, t: nat, k: nat, limit: int)
    requires t in reigns
  {
    exists t' :: t < t' <= limit && t' in reigns && !Agree(reigns[t'].base, reigns[t].log, k)
  }

  function Ackers(p: Proto, t: nat, k: nat): set<NodeId> {
    set v | v in p.voters && Ack(v, t, k) in p.acks
  }

  /** A majority held `t`'s own entry `k` while in term `t`: the commit rule of section 5.4.2. */
  ghost predicate Chosen(p: Proto, t: nat, k: nat) {
    && t in p.reigns && 1 <= k <= |p.reigns[t].log|
    && p.reigns[t].log[k - 1].term == t
    && IsMajority(Ackers(p, t, k), p.voters)
  }

  /** The first `n` entries of `s` are covered by something chosen in a term up to `limit`. */
  ghost predicate Committed(p: Proto, s: seq<LogEntry>, n: nat, limit: nat) {
    n <= |s| && (n == 0 || exists t: nat, k: nat :: CommittedVia(p, s, n, limit, t, k))
  }

  ghost predicate CommittedVia(p: Proto, s: seq<LogEntry>, n: nat, limit: nat, t: nat, k: nat) {
    t <= limit && n <= k && Chosen(p, t, k) && Agree(s, p.reigns[t].log, n)
  }

  // ---- The invariant -----------------------------------------------------------

  ghost predicate NodeInv(p: Proto, v: NodeId)
    requires v in p.nodes
  {
    var n := p.nodes[v];
    && Sourced(p.reigns, n.hist)
    && TermsUpTo(n.hist, n.term)
    && Committed(p, n.hist, n.commit, n.term)
    && (n.role == Leader ==>
          n.term in p.reigns && p.reigns[n.term].leader == v && p.reigns[n.term].log == n.hist)
    && (n.role == Candidate ==>
          && (v, n.term) in p.bids && p.bids[(v, n.term)] == n.hist
          && (n.term in p.reigns ==> p.reigns[n.term].leader != v))
  }

  ghost predicate BidInv(p: Proto, c: NodeId, t: nat)
    requires (c, t) in p.bids
  {
    && c in p.nodes && t <= p.nodes[c].term
    && Sourced(p.reigns, p.bids[(c, t)])
    && (forall i :: 0 <= i < |p.bids[(c, t)]| ==> p.bids[(c, t)][i].term < t)
  }

  /** What `v` acknowledged before term `t` is in `w`, unless a leader up to `limit` lost it. */
  ghost predicate Remembers(p: Proto, v: NodeId, w: seq<LogEntry>, t: nat, limit: int) {
    forall t0: nat, k: nat :: t0 < t && Ack(v, t0, k) in p.acks ==>
      t0 in p.reigns && (Agree(w, p.reigns[t0].log, k) || Lost(p.reigns, t0, k, limit))
  }

  ghost predicate BallotInv(p: Proto, v: NodeId, t: nat)
    requires (v, t) in p.ballots
  {
    var b := p.ballots[(v, t)];
    && v in p.voters && v in p.nodes && t <= p.nodes[v].term
    && (b.candidate, t) in p.bids && UpToDate(p.bids[(b.candidate, t)], b.log)
    && Sourced(p.reigns, b.log)
    && Remembers(p, v, b.log, t, t)
  }

  ghost predicate ElectorInv(p: Proto, t: nat, v: NodeId)
    requires t in p.reigns
  {
    && (v, t) in p.ballots
    && p.ballots[(v, t)].candidate == p.reigns[t].leader
    && Remembers(p, v, p.ballots[(v, t)].log, t, t - 1)
  }

  ghost predicate ReignInv(p: Proto, t: nat)
    requires t in p.reigns
  {
    var r := p.reigns[t];
    && r.leader in p.nodes && t <= p.nodes[r.leader].term
    && (r.leader, t) in p.bids && r.base == p.bids[(r.leader, t)]
    && Agree(r.log, r.base, |r.base|)
    && (forall i :: |r.base| <= i < |r.log| ==> r.log[i].term == t)
    && Sourced(p.reigns, r.log)
    && IsMajority(r.electors, p.voters)
    && (forall v {:trigger ElectorInv(p, t, v)} :: v in r.electors ==> ElectorInv(p, t, v))
  }

  ghost predicate AckInv(p: Proto, v: NodeId, t: nat, k: nat)
  {
    && v in p.nodes && t <= p.nodes[v].term
    && t in p.reigns && 1 <= k <= |p.reigns[t].log| && p.reigns[t].log[k - 1].term == t
    && (Agree(p.nodes[v].hist, p.reigns[t].log, k) || Lost(p.reigns, t, k, p.nodes[v].term))
  }

  ghost predicate Inv(p: Proto) {
    && p.voters <= p.nodes.Keys
    && (forall v {:trigger NodeInv(p, v)} :: v in p.nodes ==> NodeInv(p, v))
    && (forall c, t {:trigger BidInv(p, c, t)} :: (c, t) in p.bids ==> BidInv(p, c, t))
    && (forall v, t {:trigger BallotInv(p, v, t)} :: (v, t) in p.ballots ==> BallotInv(p, v, t))
    && (forall t {:trigger ReignInv(p, t)} :: t in p.reigns ==> ReignInv(p, t))
    && (forall v, t, k {:trigger AckInv(p, v, t, k)} :: Ack(v, t, k) in p.acks ==> AckInv(p, v, t, k))
  }

  // ---- Growth: what no action ever undoes --------------------------------------

  ghost predicate ReignsGrow(r: map<nat, Reign>, r': map<nat, Reign>) {
    forall t {:trigger t in r'} {:trigger r'[t]} :: t in r ==>
      && t in r'
      && r[t].leader == r'[t].leader && r[t].base == r'[t].base && r[t].electors == r'[t].electors
      && Agree(r[t].log, r'[t].log, |r[t].log|)
  }

  ghost predicate Grows(p: Proto, p': Proto) {
    && p.voters == p'.voters && p.nodes.Keys == p'.nodes.Keys
    && (forall v {:trigger p'.nodes[v]} :: v in p.nodes ==> p.nodes[v].term <= p'.nodes[v].term)
    && ReignsGrow(p.reigns, p'.reigns)
    && (forall x {:trigger x in p'.bids} {:trigger p'.bids[x]} :: x in p.bids ==> x in p'.bids && p'.bids[x] == p.bids[x])
    && (forall x {:trigger x in p'.ballots} {:trigger p'.ballots[x]} :: x in p.ballots ==> x in p'.ballots && p'.ballots[x] == p.ballots[x])
    && p.acks <= p'.acks
  }

  lemma GrowsTransitive(a: Proto, b: Proto, c: Proto)
    requires Grows(a, b) && Grows(b, c)
    ensures Grows(a, c)
  {
    forall t | t in a.reigns
      ensures Agree(a.reigns[t].log, c.reigns[t].log, |a.reigns[t].log|)
    {
      assert t in b.reigns;
    }
  }

  lemma SourcedGrows(r: map<nat, Reign>, r': map<nat, Reign>, s: seq<LogEntry>)
    requires ReignsGrow(r, r') && Sourced(r, s)
    ensures Sourced(r', s)
  {
    forall n | 1 <= n <= |s|
      ensures SourcedAt(r', s, n)
    {
      assert SourcedAt(r, s, n);
    }
  }

  lemma LostGrows(r: map<nat, Reign>, r': map<nat, Reign>, t: nat, k: nat, limit: int, limit': int)
    requires ReignsGrow(r, r') && limit <= limit'
    requires t in r && k <= |r[t].log| && Lost(r, t, k, limit)
    ensures Lost(r', t, k, limit')
  {
    var u :| t < u <= limit && u in r && !Agree(r[u].base, r[t].log, k);
    assert u in r' && !Agree(r'[u].base, r'[t].log, k);
  }

  lemma ChosenGrows(p: Proto, p': Proto, t: nat, k: nat)
    requires Grows(p, p') && Chosen(p, t, k)
    ensures Chosen(p', t, k)
  {
    SubsetCardinality(Ackers(p, t, k), Ackers(p', t, k));
  }

  lemma CommittedGrows(p: Proto, p': Proto, s: seq<LogEntry>, n: nat, limit: nat, s': seq<LogEntry>, n': nat, limit': nat)
    requires Grows(p, p') && Committed(p, s, n, limit)
    requires n' <= n && limit <= limit' && Agree(s', s, n')
    ensures Committed(p', s', n', limit')
  {
    if n' != 0 {
      var t: nat, k: nat :| CommittedVia(p, s, n, limit, t, k);
      ChosenGrows(p, p', t, k);
      assert CommittedVia(p', s', n', limit', t, k);
    }
  }

  lemma CommittedLess(p: Proto, s: seq<LogEntry>, n: nat, limit: nat, n': nat)
    requires Committed(p, s, n, limit) && n' <= n
    ensures Committed(p, s, n', limit)
  {
    if n' != 0 {
      var t: nat, k: nat :| CommittedVia(p, s, n, limit, t, k);
      assert CommittedVia(p, s, n', limit, t, k);
    }
  }

  lemma SubsetCardinality<T>(a: set<T>, b: set<T>)
    requires a <= b
    ensures |a| <= |b|
  {
    assert b == a + (b - a);
  }

  lemma MajoritiesMeet(a: set<NodeId>, b: set<NodeId>, whole: set<NodeId>) returns (x: NodeId)
    requires IsMajority(a, whole) && IsMajority(b, whole)
    ensures x in a && x in b
  {
    if a * b == {} {
      SubsetCardinality(a + b, whole);
      assert false;
    }
    x :| x in a * b;
  }

  // ---- Consequences of the invariant --------------------------------------------

  /** A history's last entry bounds every term in it. */
  lemma LastTermBounds(p: Proto, s: seq<LogEntry>, i: nat)
    requires Inv(p) && Sourced(p.reigns, s) && i < |s|
    ensures s[i].term <= LastTerm(s)
  {
    var a := LastTerm(s);
    assert SourcedAt(p.reigns, s, |s|);
    ReignTerms(p, a, i);
  }

  lemma ReignTerms(p: Proto, t: nat, i: nat)
    requires Inv(p) && t in p.reigns && i < |p.reigns[t].log|
    ensures p.reigns[t].log[i].term <= t
    ensures i < |p.reigns[t].base| ==> p.reigns[t].log[i].term < t
  {
    var r := p.reigns[t];
    assert ReignInv(p, t);
    assert BidInv(p, r.leader, t);
  }

  /** Log Matching: one equal term at one index forces equal histories up to there. */
  lemma LogMatching(p: Proto, a: seq<LogEntry>, b: seq<LogEntry>, n: nat)
    requires Sourced(p.reigns, a) && Sourced(p.reigns, b)
    requires 1 <= n <= |a| && n <= |b| && a[n - 1].term == b[n - 1].term
    ensures Agree(a, b, n)
  {
    assert SourcedAt(p.reigns, a, n) && SourcedAt(p.reigns, b, n);
  }

  /** If `w` holds chosen entries and `a` is at least as up-to-date, `a` holds them too. */
  lemma UpToDateInherits(p: Proto, a: seq<LogEntry>, w: seq<LogEntry>, t: nat, k: nat)
    requires Inv(p) && Chosen(p, t, k)
    requires Sourced(p.reigns, a) && Sourced(p.reigns, w)
    requires Agree(w, p.reigns[t].log, k) && UpToDate(a, w)
    requires LastTerm(a) > t && LastTerm(a) in p.reigns ==> Agree(p.reigns[LastTerm(a)].base, p.reigns[t].log, k)
    ensures Agree(a, p.reigns[t].log, k)
  {
    LastTermBounds(p, w, k - 1);
    assert w[k - 1].term == t;
    var last := LastTerm(a);
    assert a != [];
    assert SourcedAt(p.reigns, a, |a|);
    if last == LastTerm(w) {
      assert SourcedAt(p.reigns, w, |w|);
    } else {
      assert ReignInv(p, last);
      if |a| < k {
        ReignTerms(p, t, |a| - 1);
        assert false;
      }
    }
  }

  /** Section 5.4.3, Leader Completeness: every leader after `t0` started with
      everything chosen in `t0`. */
  lemma LeaderCompleteness(p: Proto, t0: nat, k: nat, t: nat)
    requires Inv(p) && Chosen(p, t0, k) && t in p.reigns && t0 < t
    ensures Agree(p.reigns[t].base, p.reigns[t0].log, k)
    decreases t
  {
    forall u | t0 < u < t && u in p.reigns
      ensures Agree(p.reigns[u].base, p.reigns[t0].log, k)
    {
      LeaderCompleteness(p, t0, k, u);
    }
    assert !Lost(p.reigns, t0, k, t - 1);
    var r := p.reigns[t];
    assert ReignInv(p, t);
    var v := MajoritiesMeet(Ackers(p, t0, k), r.electors, p.voters);
    assert ElectorInv(p, t, v);
    assert BallotInv(p, v, t) && BidInv(p, r.leader, t);
    var w := p.ballots[(v, t)].log;
    if r.base != [] {
      assert r.base[|r.base| - 1].term < t;
    }
    UpToDateInherits(p, r.base, w, t0, k);
  }

  /** Anything committed by `limit` is in the log of every leader from then on. */
  lemma LeadersHoldCommitted(p: Proto, s: seq<LogEntry>, n: nat, limit: nat, t: nat)
    requires Inv(p) && Committed(p, s, n, limit) && t in p.reigns && limit <= t
    ensures Agree(s, p.reigns[t].log, n)
  {
    if n != 0 {
      var t0: nat, k: nat :| CommittedVia(p, s, n, limit, t0, k);
      if t0 < t {
        LeaderCompleteness(p, t0, k, t);
        ReignExtendsBase(p, t);
        AgreeChain(s, p.reigns[t0].log, p.reigns[t].base, p.reigns[t].log, n);
      }
    }
  }

  lemma AgreeChain(a: seq<LogEntry>, b: seq<LogEntry>, c: seq<LogEntry>, d: seq<LogEntry>, n: nat)
    requires Agree(a, b, n) && Agree(c, b, n) && Agree(d, c, n)
    ensures Agree(a, d, n)
  {
  }

  lemma ReignExtendsBase(p: Proto, t: nat)
    requires Inv(p) && t in p.reigns
    ensures Agree(p.reigns[t].log, p.reigns[t].base, |p.reigns[t].base|)
  {
    assert ReignInv(p, t);
  }

  /** State Machine Safety: any two committed histories agree where both reach. */
  lemma CommittedAgree(p: Proto, a: seq<LogEntry>, m: nat, s: nat, b: seq<LogEntry>, n: nat, u: nat)
    requires Inv(p) && Committed(p, a, m, s) && Committed(p, b, n, u)
    ensures forall i :: 0 <= i < m && i < n ==> a[i] == b[i]
  {
    if m != 0 && n != 0 {
      var t: nat, k: nat :| CommittedVia(p, a, m, s, t, k);
      var t': nat, k': nat :| CommittedVia(p, b, n, u, t', k');
      if t <= t' {
        assert CommittedVia(p, a, m, t', t, k);
        LeadersHoldCommitted(p, a, m, t', t');
      } else {
        assert CommittedVia(p, b, n, t, t', k');
        LeadersHoldCommitted(p, b, n, t, t);
      }
    }
  }
}
