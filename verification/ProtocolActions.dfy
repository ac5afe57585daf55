/** The actions a node's handlers are made of, and the proof that each keeps the
    protocol invariant and only ever adds to what the protocol has recorded. */
module ProtocolActions {
  import opened RaftTypes
  import opened Protocol

  // ---- Carrying single clauses over a step ---------------------------------------

  ghost predicate AcksAreCurrent(p: Proto, p': Proto) {
    forall v: NodeId, t: nat, k: nat :: Ack(v, t, k) in p'.acks && Ack(v, t, k) !in p.acks ==>
      v in p.nodes && t >= p.nodes[v].term
  }

  lemma RemembersCarries(p: Proto, p': Proto, v: NodeId, w: seq<LogEntry>, t: nat, limit: int)
    requires Inv(p) && Grows(p, p') && AcksAreCurrent(p, p')
    requires v in p.nodes && t <= p.nodes[v].term && Remembers(p, v, w, t, limit)
    ensures Remembers(p', v, w, t, limit)
  {
    forall t0: nat, k: nat | t0 < t && Ack(v, t0, k) in p'.acks
      ensures t0 in p'.reigns && (Agree(w, p'.reigns[t0].log, k) || Lost(p'.reigns, t0, k, limit))
    {
      assert Ack(v, t0, k) in p.acks;
      assert AckInv(p, v, t0, k);
      if !Agree(w, p.reigns[t0].log, k) {
        LostGrows(p.reigns, p'.reigns, t0, k, limit, limit);
      }
    }
  }

  lemma BidCarries(p: Proto, p': Proto, c: NodeId, t: nat)
    requires Inv(p) && Grows(p, p') && (c, t) in p.bids
    ensures BidInv(p', c, t)
  {
    assert BidInv(p, c, t);
    SourcedGrows(p.reigns, p'.reigns, p.bids[(c, t)]);
  }

  lemma BallotCarries(p: Proto, p': Proto, v: NodeId, t: nat)
    requires Inv(p) && Grows(p, p') && AcksAreCurrent(p, p') && (v, t) in p.ballots
    ensures BallotInv(p', v, t)
  {
    assert BallotInv(p, v, t);
    var b := p.ballots[(v, t)];
    SourcedGrows(p.reigns, p'.reigns, b.log);
    RemembersCarries(p, p', v, b.log, t, t);
  }

  lemma ElectorCarries(p: Proto, p': Proto, t: nat, v: NodeId)
    requires Inv(p) && Grows(p, p') && AcksAreCurrent(p, p')
    requires t in p.reigns && v in p.reigns[t].electors
    ensures ElectorInv(p', t, v)
  {
    assert ReignInv(p, t);
    assert ElectorInv(p, t, v);
    assert BallotInv(p, v, t);
    RemembersCarries(p, p', v, p.ballots[(v, t)].log, t, t - 1);
  }

  lemma ReignCarries(p: Proto, p': Proto, t: nat)
    requires Inv(p) && Grows(p, p') && AcksAreCurrent(p, p')
    requires t in p.reigns && p'.reigns[t].log == p.reigns[t].log
    ensures ReignInv(p', t)
  {
    assert ReignInv(p, t);
    SourcedGrows(p.reigns, p'.reigns, p.reigns[t].log);
    forall v | v in p.reigns[t].electors
      ensures ElectorInv(p', t, v)
    {
      ElectorCarries(p, p', t, v);
    }
  }

  /** A node whose history stands or is extended keeps every acknowledgement honest. */
  lemma AckCarries(p: Proto, p': Proto, v: NodeId, t: nat, k: nat)
    requires Inv(p) && Grows(p, p') && Ack(v, t, k) in p.acks
    requires v in p.nodes ==> Agree(p'.nodes[v].hist, p.nodes[v].hist, |p.nodes[v].hist|)
    ensures AckInv(p', v, t, k)
  {
    assert AckInv(p, v, t, k);
    if !Agree(p.nodes[v].hist, p.reigns[t].log, k) {
      LostGrows(p.reigns, p'.reigns, t, k, p.nodes[v].term, p'.nodes[v].term);
    }
  }

  lemma NodeCarries(p: Proto, p': Proto, v: NodeId)
    requires Inv(p) && Grows(p, p') && v in p.nodes && p'.nodes[v] == p.nodes[v]
    requires p.nodes[v].role == Leader && p.nodes[v].term in p.reigns ==>
               p'.reigns[p.nodes[v].term].log == p.reigns[p.nodes[v].term].log
    requires p.nodes[v].role == Candidate && p.nodes[v].term !in p.reigns && p.nodes[v].term in p'.reigns ==>
               p'.reigns[p.nodes[v].term].leader != v
    ensures NodeInv(p', v)
  {
    var n := p.nodes[v];
    assert NodeInv(p, v);
    SourcedGrows(p.reigns, p'.reigns, n.hist);
    CommittedGrows(p, p', n.hist, n.commit, n.term, n.hist, n.commit, n.term);
  }

  // ---- Actions --------------------------------------------------------------------

  /** `v` moves to term `t` (or stays) as a follower, remembering commits up to `commit`
      only: a step-down, a candidate giving way, or a restart. */
  function Yield(p: Proto, v: NodeId, t: nat, commit: nat): Proto
    requires v in p.nodes
  {
    p.(nodes := p.nodes[v := p.nodes[v].(term := t, role := Follower, commit := commit)])
  }

  lemma YieldGrows(p: Proto, v: NodeId, t: nat, commit: nat)
    requires v in p.nodes && p.nodes[v].term <= t
    ensures Grows(p, Yield(p, v, t, commit)) && HistoriesStand(p, Yield(p, v, t, commit))
  {
  }

  lemma YieldKeeps(p: Proto, v: NodeId, t: nat, commit: nat)
    requires Inv(p) && v in p.nodes && p.nodes[v].term <= t && commit <= p.nodes[v].commit
    ensures Inv(Yield(p, v, t, commit)) && Grows(p, Yield(p, v, t, commit))
  {
    var p' := Yield(p, v, t, commit);
    var n := p.nodes[v];
    YieldGrows(p, v, t, commit);
    forall u | u in p'.nodes
      ensures NodeInv(p', u)
    {
      if u == v {
        assert NodeInv(p, v);
        CommittedGrows(p, p', n.hist, n.commit, n.term, n.hist, commit, t);
      } else {
        NodeCarries(p, p', u);
      }
    }
    OthersCarry(p, p');
  }

  ghost predicate HistoriesStand(p: Proto, p': Proto)
    requires p.nodes.Keys == p'.nodes.Keys
  {
    forall v :: v in p.nodes ==> Agree(p'.nodes[v].hist, p.nodes[v].hist, |p.nodes[v].hist|)
  }

  /** Clauses about bids, ballots, reigns and acknowledgements that existed before. */
  lemma OthersCarry(p: Proto, p': Proto)
    requires Inv(p) && Grows(p, p') && AcksAreCurrent(p, p')
    requires HistoriesStand(p, p')
    ensures forall c, t {:trigger BidInv(p', c, t)} :: (c, t) in p.bids ==> BidInv(p', c, t)
    ensures forall v, t {:trigger BallotInv(p', v, t)} :: (v, t) in p.ballots ==> BallotInv(p', v, t)
    ensures forall t {:trigger ReignInv(p', t)} ::
              t in p.reigns && p'.reigns[t].log == p.reigns[t].log ==> ReignInv(p', t)
    ensures forall v, t, k {:trigger AckInv(p', v, t, k)} :: Ack(v, t, k) in p.acks ==> AckInv(p', v, t, k)
  {
    RecordsCarry(p, p');
    forall v, t, k | Ack(v, t, k) in p.acks
      ensures AckInv(p', v, t, k)
    {
      AckCarries(p, p', v, t, k);
    }
  }

  lemma RecordsCarry(p: Proto, p': Proto)
    requires Inv(p) && Grows(p, p') && AcksAreCurrent(p, p')
    ensures forall c, t {:trigger BidInv(p', c, t)} :: (c, t) in p.bids ==> BidInv(p', c, t)
    ensures forall v, t {:trigger BallotInv(p', v, t)} :: (v, t) in p.ballots ==> BallotInv(p', v, t)
    ensures forall t {:trigger ReignInv(p', t)} ::
              t in p.reigns && p'.reigns[t].log == p.reigns[t].log ==> ReignInv(p', t)
  {
    forall c, t | (c, t) in p.bids
      ensures BidInv(p', c, t)
    {
      BidCarries(p, p', c, t);
    }
    forall v, t | (v, t) in p.ballots
      ensures BallotInv(p', v, t)
    {
      BallotCarries(p, p', v, t);
    }
    forall t | t in p.reigns && p'.reigns[t].log == p.reigns[t].log
      ensures ReignInv(p', t)
    {
      ReignCarries(p, p', t);
    }
  }

  /** `v` opens the next term with its own bid and its own ballot. */
  function Campaign(p: Proto, v: NodeId): Proto
    requires v in p.nodes
  {
    var n := p.nodes[v];
    p.(nodes := p.nodes[v := n.(term := n.term + 1, role := Candidate)],
       bids := p.bids[(v, n.term + 1) := n.hist],
       ballots := p.ballots[(v, n.term + 1) := Ballot(v, n.hist)])
  }

  lemma CampaignGrows(p: Proto, v: NodeId)
    requires Inv(p) && v in p.voters
    ensures Grows(p, Campaign(p, v)) && HistoriesStand(p, Campaign(p, v))
  {
    var t := p.nodes[v].term + 1;
    assert (v, t) in p.bids ==> BidInv(p, v, t);
    assert (v, t) in p.ballots ==> BallotInv(p, v, t);
  }

  lemma CampaignKeeps(p: Proto, v: NodeId)
    requires Inv(p) && v in p.voters
    ensures Inv(Campaign(p, v)) && Grows(p, Campaign(p, v))
  {
    var p' := Campaign(p, v);
    var n := p.nodes[v];
    var t := n.term + 1;
    CampaignGrows(p, v);
    assert NodeInv(p, v);
    forall u | u in p'.nodes
      ensures NodeInv(p', u)
    {
      if u == v {
        CommittedGrows(p, p', n.hist, n.commit, n.term, n.hist, n.commit, t);
        if t in p.reigns { assert ReignInv(p, t); }
      } else {
        NodeCarries(p, p', u);
      }
    }
    OthersCarry(p, p');
    assert BidInv(p', v, t);
    NodeRemembers(p, v, t);
    RemembersSame(p, p', v, n.hist, t, t);
    assert BallotInv(p', v, t);
    assert forall c, s :: (c, s) in p'.bids ==> (c, s) in p.bids || (c == v && s == t);
    assert forall c, s :: (c, s) in p'.ballots ==> (c, s) in p.ballots || (c == v && s == t);
  }

  /** A node's own history remembers all it acknowledged, up to losses by its term. */
  lemma NodeRemembers(p: Proto, v: NodeId, t: nat)
    requires Inv(p) && v in p.nodes && p.nodes[v].term <= t
    ensures Remembers(p, v, p.nodes[v].hist, t, t)
  {
    forall t0: nat, k: nat | t0 < t && Ack(v, t0, k) in p.acks
      ensures t0 in p.reigns && (Agree(p.nodes[v].hist, p.reigns[t0].log, k) || Lost(p.reigns, t0, k, t))
    {
      assert AckInv(p, v, t0, k);
      if !Agree(p.nodes[v].hist, p.reigns[t0].log, k) {
        LostGrows(p.reigns, p.reigns, t0, k, p.nodes[v].term, t);
      }
    }
  }

  lemma RemembersSame(p: Proto, p': Proto, v: NodeId, w: seq<LogEntry>, t: nat, limit: int)
    requires Remembers(p, v, w, t, limit) && p'.acks == p.acks && p'.reigns == p.reigns
    ensures Remembers(p', v, w, t, limit)
  {
  }

  /** `v` votes for `c` in its current term. */
  function Grant(p: Proto, v: NodeId, c: NodeId): Proto
    requires v in p.nodes
  {
    p.(ballots := p.ballots[(v, p.nodes[v].term) := Ballot(c, p.nodes[v].hist)])
  }

  lemma GrantKeeps(p: Proto, v: NodeId, c: NodeId)
    requires Inv(p) && v in p.voters && (v, p.nodes[v].term) !in p.ballots
    requires (c, p.nodes[v].term) in p.bids
    requires UpToDate(p.bids[(c, p.nodes[v].term)], p.nodes[v].hist)
    ensures Inv(Grant(p, v, c)) && Grows(p, Grant(p, v, c))
  {
    var p' := Grant(p, v, c);
    var t := p.nodes[v].term;
    assert Grows(p, p');
    forall u | u in p'.nodes
      ensures NodeInv(p', u)
    {
      NodeCarries(p, p', u);
    }
    OthersCarry(p, p');
    assert NodeInv(p, v);
    NodeRemembers(p, v, t);
    RemembersSame(p, p', v, p.nodes[v].hist, t, t);
    assert BallotInv(p', v, t);
    assert forall u, s :: (u, s) in p'.ballots ==> (u, s) in p.ballots || (u == v && s == t);
  }

  ghost predicate WonBy(p: Proto, v: NodeId, electors: set<NodeId>)
    requires v in p.nodes
  {
    && IsMajority(electors, p.voters)
    && forall u :: u in electors ==>
         (u, p.nodes[v].term) in p.ballots && p.ballots[(u, p.nodes[v].term)].candidate == v
  }

  /** Candidate `v` takes the lead of its term. */
  function Win(p: Proto, v: NodeId, electors: set<NodeId>): Proto
    requires v in p.nodes
  {
    var n := p.nodes[v];
    p.(nodes := p.nodes[v := n.(role := Leader)],
       reigns := p.reigns[n.term := Reign(v, n.hist, n.hist, electors)])
  }

  /** Election Safety: whoever gathers a majority is the first to lead its term. */
  lemma WinnerIsFirst(p: Proto, v: NodeId, electors: set<NodeId>)
    requires Inv(p) && v in p.nodes && p.nodes[v].role == Candidate && WonBy(p, v, electors)
    ensures p.nodes[v].term !in p.reigns
  {
    var t := p.nodes[v].term;
    assert NodeInv(p, v);
    if t in p.reigns {
      assert ReignInv(p, t);
      var u := MajoritiesMeet(electors, p.reigns[t].electors, p.voters);
      ElectorVotedForLeader(p, t, u);
    }
  }

  lemma ElectorVotedForLeader(p: Proto, t: nat, u: NodeId)
    requires Inv(p) && t in p.reigns && u in p.reigns[t].electors
    ensures (u, t) in p.ballots && p.ballots[(u, t)].candidate == p.reigns[t].leader
  {
    assert ReignInv(p, t);
    assert ElectorInv(p, t, u);
  }

  lemma WinKeeps(p: Proto, v: NodeId, electors: set<NodeId>)
    requires Inv(p) && v in p.nodes && p.nodes[v].role == Candidate && WonBy(p, v, electors)
    ensures Inv(Win(p, v, electors)) && Grows(p, Win(p, v, electors))
  {
    var p' := Win(p, v, electors);
    WinnerIsFirst(p, v, electors);
    assert Grows(p, p');
    forall u | u in p'.nodes
      ensures NodeInv(p', u)
    {
      WinNode(p, p', v, electors, u);
    }
    WinReign(p, p', v, electors);
    OthersCarry(p, p');
  }

  lemma WinNode(p: Proto, p': Proto, v: NodeId, electors: set<NodeId>, u: NodeId)
    requires Inv(p) && v in p.nodes && p.nodes[v].term !in p.reigns
    requires p' == Win(p, v, electors) && Grows(p, p') && u in p.nodes
    ensures NodeInv(p', u)
  {
    var n := p.nodes[u];
    assert NodeInv(p, u);
    if u == v {
      SourcedGrows(p.reigns, p'.reigns, n.hist);
      CommittedGrows(p, p', n.hist, n.commit, n.term, n.hist, n.commit, n.term);
    } else {
      NodeCarries(p, p', u);
    }
  }

  lemma WinReign(p: Proto, p': Proto, v: NodeId, electors: set<NodeId>)
    requires Inv(p) && v in p.nodes && p.nodes[v].role == Candidate && WonBy(p, v, electors)
    requires p.nodes[v].term !in p.reigns && p' == Win(p, v, electors) && Grows(p, p')
    ensures ReignInv(p', p.nodes[v].term)
  {
    var t := p.nodes[v].term;
    assert NodeInv(p, v);
    SourcedGrows(p.reigns, p'.reigns, p.nodes[v].hist);
    forall u | u in electors
      ensures ElectorInv(p', t, u)
    {
      assert BallotInv(p, u, t);
      NothingLostAt(p, u, t);
      RemembersCarries(p, p', u, p.ballots[(u, t)].log, t, t as int - 1);
    }
  }

  lemma NothingLostAt(p: Proto, v: NodeId, t: nat)
    requires t !in p.reigns && (v, t) in p.ballots && BallotInv(p, v, t)
    ensures Remembers(p, v, p.ballots[(v, t)].log, t, t - 1)
  {
    var w := p.ballots[(v, t)].log;
    forall t0: nat, k: nat | t0 < t && Ack(v, t0, k) in p.acks
      ensures t0 in p.reigns && (Agree(w, p.reigns[t0].log, k) || Lost(p.reigns, t0, k, t - 1))
    {
      if !Agree(w, p.reigns[t0].log, k) {
        var u :| t0 < u <= t && u in p.reigns && !Agree(p.reigns[u].base, p.reigns[t0].log, k);
        assert u != t;
      }
    }
  }

  /** Leader `v` appends an entry of its own term. */
  function Append(p: Proto, v: NodeId, e: LogEntry): Proto
    requires v in p.nodes && p.nodes[v].term in p.reigns
  {
    var n := p.nodes[v];
    p.(nodes := p.nodes[v := n.(hist := n.hist + [e])],
       reigns := p.reigns[n.term := p.reigns[n.term].(log := n.hist + [e])])
  }

  lemma AppendGrows(p: Proto, v: NodeId, e: LogEntry)
    requires Inv(p) && v in p.nodes && p.nodes[v].role == Leader
    ensures p.nodes[v].term in p.reigns
    ensures Grows(p, Append(p, v, e)) && HistoriesStand(p, Append(p, v, e))
  {
    assert NodeInv(p, v);
  }

  lemma AppendKeeps(p: Proto, v: NodeId, e: LogEntry)
    requires Inv(p) && v in p.nodes && p.nodes[v].role == Leader && e.term == p.nodes[v].term
    ensures p.nodes[v].term in p.reigns
    ensures Inv(Append(p, v, e)) && Grows(p, Append(p, v, e))
  {
    AppendGrows(p, v, e);
    var p' := Append(p, v, e);
    AppendSourced(p, p', v, e);
    forall u | u in p'.nodes
      ensures NodeInv(p', u)
    {
      AppendNode(p, p', v, e, u);
    }
    AppendReign(p, p', v, e);
    OthersCarry(p, p');
  }

  lemma AppendSourced(p: Proto, p': Proto, v: NodeId, e: LogEntry)
    requires Inv(p) && v in p.nodes && p.nodes[v].role == Leader && e.term == p.nodes[v].term
    requires p.nodes[v].term in p.reigns && p' == Append(p, v, e) && Grows(p, p')
    ensures Sourced(p'.reigns, p.nodes[v].hist + [e])
  {
    var n := p.nodes[v];
    assert NodeInv(p, v);
    SourcedGrows(p.reigns, p'.reigns, n.hist);
    var h := n.hist + [e];
    forall m | 1 <= m <= |h|
      ensures SourcedAt(p'.reigns, h, m)
    {
      if m < |h| { assert SourcedAt(p'.reigns, n.hist, m); }
    }
  }

  lemma AppendNode(p: Proto, p': Proto, v: NodeId, e: LogEntry, u: NodeId)
    requires Inv(p) && v in p.nodes && p.nodes[v].role == Leader && e.term == p.nodes[v].term
    requires p.nodes[v].term in p.reigns && p' == Append(p, v, e) && Grows(p, p')
    requires Sourced(p'.reigns, p.nodes[v].hist + [e]) && u in p.nodes
    ensures NodeInv(p', u)
  {
    var n := p.nodes[v];
    assert NodeInv(p, v) && NodeInv(p, u);
    if u == v {
      CommittedGrows(p, p', n.hist, n.commit, n.term, n.hist + [e], n.commit, n.term);
    } else {
      NodeCarries(p, p', u);
    }
  }

  lemma AppendReign(p: Proto, p': Proto, v: NodeId, e: LogEntry)
    requires Inv(p) && v in p.nodes && p.nodes[v].role == Leader && e.term == p.nodes[v].term
    requires p.nodes[v].term in p.reigns && p' == Append(p, v, e) && Grows(p, p')
    requires Sourced(p'.reigns, p.nodes[v].hist + [e])
    ensures ReignInv(p', p.nodes[v].term)
  {
    var t := p.nodes[v].term;
    assert NodeInv(p, v) && ReignInv(p, t);
    forall u | u in p.reigns[t].electors
      ensures ElectorInv(p', t, u)
    {
      ElectorCarries(p, p', t, u);
    }
  }

  /** Follower `v` replaces its history by the first `n` entries of its term's leader. */
  function Accept(p: Proto, v: NodeId, n: nat): Proto
    requires v in p.nodes && p.nodes[v].term in p.reigns && n <= |p.reigns[p.nodes[v].term].log|
  {
    var q := p.nodes[v];
    p.(nodes := p.nodes[v := q.(role := Follower, hist := p.reigns[q.term].log[..n])])
  }

  /** The replaced history shared no more than `n` entries with the leader's. */
  ghost predicate SharesUpTo(a: seq<LogEntry>, b: seq<LogEntry>, n: nat) {
    forall j: nat :: Agree(a, b, j) ==> j <= n
  }

  lemma AcceptGrows(p: Proto, v: NodeId, n: nat)
    requires v in p.nodes && p.nodes[v].term in p.reigns && n <= |p.reigns[p.nodes[v].term].log|
    ensures Grows(p, Accept(p, v, n))
  {
  }

  lemma AcceptKeeps(p: Proto, v: NodeId, n: nat)
    requires Inv(p) && v in p.nodes && p.nodes[v].term in p.reigns
    requires n <= |p.reigns[p.nodes[v].term].log|
    requires SharesUpTo(p.nodes[v].hist, p.reigns[p.nodes[v].term].log, n)
    ensures Inv(Accept(p, v, n)) && Grows(p, Accept(p, v, n))
    ensures p.nodes[v].commit <= n
  {
    var p' := Accept(p, v, n);
    var q := p.nodes[v];
    var t := q.term;
    var log := p.reigns[t].log;
    var h := log[..n];
    AcceptGrows(p, v, n);
    assert NodeInv(p, v);
    LeadersHoldCommitted(p, q.hist, q.commit, t, t);
    assert ReignInv(p, t);
    SourcedPrefix(p.reigns, log, n);
    forall u | u in p'.nodes
      ensures NodeInv(p', u)
    {
      if u == v {
        CommittedGrows(p, p', q.hist, q.commit, t, h, q.commit, t);
        forall i | 0 <= i < |h|
          ensures h[i].term <= t
        {
          ReignTerms(p, t, i);
        }
      } else {
        NodeCarries(p, p', u);
      }
    }
    RecordsCarry(p, p');
    forall u, s, k | Ack(u, s, k) in p.acks
      ensures AckInv(p', u, s, k)
    {
      if u == v {
        AcceptedAck(p, p', v, n, s, k);
      } else {
        AckCarries(p, p', u, s, k);
      }
    }
  }

  lemma SourcedPrefix(r: map<nat, Reign>, s: seq<LogEntry>, n: nat)
    requires Sourced(r, s) && n <= |s|
    ensures Sourced(r, s[..n])
  {
    forall m | 1 <= m <= n
      ensures SourcedAt(r, s[..n], m)
    {
      assert SourcedAt(r, s, m);
    }
  }

  /** Adopting a leader's history never drops an acknowledged prefix that leader has. */
  lemma AcceptedAck(p: Proto, p': Proto, v: NodeId, n: nat, s: nat, k: nat)
    requires Inv(p) && v in p.nodes && p.nodes[v].term in p.reigns
    requires n <= |p.reigns[p.nodes[v].term].log| && p' == Accept(p, v, n)
    requires SharesUpTo(p.nodes[v].hist, p.reigns[p.nodes[v].term].log, n)
    requires Ack(v, s, k) in p.acks
    ensures AckInv(p', v, s, k)
  {
    var q := p.nodes[v];
    var t := q.term;
    assert AckInv(p, v, s, k);
    assert p'.reigns == p.reigns;
    if !Lost(p.reigns, s, k, t) {
      var vouched := p.reigns[s].log;
      assert Agree(q.hist, vouched, k);
      if s < t {
        assert Agree(p.reigns[t].base, vouched, k);
        ReignExtendsBase(p, t);
      }
      assert Agree(q.hist, p.reigns[t].log, k);
      assert k <= n;
      assert Agree(p'.nodes[v].hist, vouched, k);
    }
  }

  /** `v` vouches for every entry of its own term it shares with that term's leader. */
  function Vouch(p: Proto, v: NodeId): Proto
    requires v in p.nodes && p.nodes[v].term in p.reigns
  {
    var q := p.nodes[v];
    var log := p.reigns[q.term].log;
    p.(acks := p.acks + set k: nat | 1 <= k <= |log| && log[k - 1].term == q.term && Agree(q.hist, log, k)
                          :: Ack(v, q.term, k))
  }

  lemma VouchKeeps(p: Proto, v: NodeId)
    requires Inv(p) && v in p.nodes && p.nodes[v].term in p.reigns
    ensures Inv(Vouch(p, v)) && Grows(p, Vouch(p, v))
  {
    var p' := Vouch(p, v);
    assert Grows(p, p');
    forall u | u in p'.nodes
      ensures NodeInv(p', u)
    {
      NodeCarries(p, p', u);
    }
    OthersCarry(p, p');
    forall u, t, k | Ack(u, t, k) in p'.acks && Ack(u, t, k) !in p.acks
      ensures AckInv(p', u, t, k)
    {
    }
  }

  /** `v` learns that its first `k` entries are committed. */
  function Commit(p: Proto, v: NodeId, k: nat): Proto
    requires v in p.nodes
  {
    p.(nodes := p.nodes[v := p.nodes[v].(commit := k)])
  }

  lemma CommitGrows(p: Proto, v: NodeId, k: nat)
    requires v in p.nodes
    ensures Grows(p, Commit(p, v, k)) && HistoriesStand(p, Commit(p, v, k))
  {
  }

  lemma CommitKeeps(p: Proto, v: NodeId, k: nat)
    requires Inv(p) && v in p.nodes && Committed(p, p.nodes[v].hist, k, p.nodes[v].term)
    ensures Inv(Commit(p, v, k)) && Grows(p, Commit(p, v, k))
  {
    var p' := Commit(p, v, k);
    var q := p.nodes[v];
    CommitGrows(p, v, k);
    forall u | u in p'.nodes
      ensures NodeInv(p', u)
    {
      if u == v {
        assert NodeInv(p, v);
        CommittedGrows(p, p', q.hist, k, q.term, q.hist, k, q.term);
      } else {
        NodeCarries(p, p', u);
      }
    }
    OthersCarry(p, p');
  }
}
