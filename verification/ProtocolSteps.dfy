/** Every action of the protocol keeps it safe. */
module ProtocolSteps {
  import opened RaftTypes
  import opened Protocol
  import opened ProtocolFrame

  // ---- terms and votes -------------------------------------------------

  /** A step that leaves logs, reigns, acknowledgements and commits alone. */
  ghost predicate Quiet(g: Proto, g': Proto, n: nat)
    requires n in g.peers && n in g'.peers
  {
    && g'.peers[n].log == g.peers[n].log && g'.acks == g.acks && g'.reigns == g.reigns
    && g'.commits == g.commits
  }

  lemma QuietStep(g: Proto, g': Proto, n: nat)
    requires Safe(g) && Local(g, g', n) && Quiet(g, g', n)
    requires g.peers[n].commit == g'.peers[n].commit || Known(g, g.peers[n].log, g'.peers[n].commit, g.peers[n].term)
    requires var t := g'.peers[n].term;
      && ((t, n) in g'.candidacies ==> (t, n) in g.candidacies || CandidacyOK(g', t, n))
      && ((t, n) in g'.ballots ==> (t, n) in g.ballots || BallotOK(g', t, n))
      && ((t, n) in g'.ballots && (t, n) !in g.ballots ==>
            AcksOK(g') ==> BallotKept(g', g'.ballots[(t, n)].log, n, t, Horizon(t, g'.ballots[(t, n)])))
    requires forall l, t, c {:trigger ReadOK(g', l, t, c)} ::
      (l, t, c) in g'.probes && (l, t, c) !in g.probes ==> ReadOK(g', l, t, c)
    ensures Progressed(g, g', n)
  {
    QuietFresh(g, g', n);
    ShapeKept(g, g', n);
    OwnAcksKept(g, g', n);
    AcksKeptFrom(g, g', n);
    BallotsKeptFrom(g, g', n);
    ConfigsKept(g, g');
    CompleteKept(g, g');
  }

  lemma QuietFresh(g: Proto, g': Proto, n: nat)
    requires Safe(g) && Local(g, g', n) && Quiet(g, g', n)
    requires g.peers[n].commit == g'.peers[n].commit || Known(g, g.peers[n].log, g'.peers[n].commit, g.peers[n].term)
    ensures PeerOK(g', n)
    ensures (g'.peers[n].term, n) in g'.acks ==> AckOK(g', g'.peers[n].term, n)
  {
    var p, p' := g.peers[n], g'.peers[n];
    assert PeerOK(g, n);
    GroundedKept(g, g', p.log);
    KnownKept(g, g', p.log, p'.commit, p.term, p'.term);
    if (p'.term, n) in g.acks { assert AckOK(g, p'.term, n); }
  }

  lemma AdvanceTermSafe(g: Proto, n: nat, t: nat)
    requires Safe(g) && n in g.peers && g.peers[n].term < t
    ensures Stepped(g, AdvanceTerm(g, n, t), n)
  {
    QuietStep(g, AdvanceTerm(g, n, t), n);
  }

  lemma SetCommitSafe(g: Proto, n: nat, c: nat)
    requires Safe(g) && n in g.peers && Known(g, g.peers[n].log, c, g.peers[n].term)
    ensures Stepped(g, SetCommit(g, n, c), n)
  {
    QuietStep(g, SetCommit(g, n, c), n);
  }

  lemma StandSafe(g: Proto, n: nat)
    requires Safe(g) && n in g.peers && g.peers[n].vote == 0 && LastTerm(g.peers[n].log) < g.peers[n].term
    ensures Stepped(g, Stand(g, n), n)
  {
    var g' := Stand(g, n);
    NotStoodYet(g, n);
    FreshCandidacy(g, g', n);
    QuietStep(g, g', n);
  }

  lemma NotStoodYet(g: Proto, n: nat)
    requires Safe(g) && n in g.peers && g.peers[n].vote == 0
    ensures (g.peers[n].term, n) !in g.candidacies
  {
    assert PeerOK(g, n);
    assert (g.peers[n].term, n) in g.candidacies ==> CandidacyOK(g, g.peers[n].term, n);
  }

  lemma FreshCandidacy(g: Proto, g': Proto, n: nat)
    requires Safe(g) && n in g.peers && LastTerm(g.peers[n].log) < g.peers[n].term && g' == Stand(g, n)
    ensures CandidacyOK(g', g.peers[n].term, n)
  {
    assert PeerOK(g, n);
    forall k | 0 <= k < |g.peers[n].log| ensures At(g', g.peers[n].log, k) { assert At(g, g.peers[n].log, k); }
  }

  /** A vote cast before the term has a leader records a log that kept what it acknowledged. */
  lemma GrantSafe(g: Proto, v: nat, c: nat)
    requires Safe(g) && v in g.peers && (g.peers[v].vote == 0 || g.peers[v].vote == c)
    requires (g.peers[v].term, c) in g.candidacies
    requires UpToDate(g.candidacies[(g.peers[v].term, c)], g.peers[v].log)
    ensures Stepped(g, Grant(g, v, c), v)
    ensures var b := Grant(g, v, c).ballots; var k := (g.peers[v].term, v); k in b && b[k].candidate == c
  {
    var g' := Grant(g, v, c);
    var t := g.peers[v].term;
    FreshBallot(g, g', v, c);
    if AcksOK(g') { FreshBallotKept(g, g', v); }
    QuietStep(g, g', v);
  }

  lemma FreshBallot(g: Proto, g': Proto, v: nat, c: nat)
    requires Safe(g) && v in g.peers && (g.peers[v].vote == 0 || g.peers[v].vote == c)
    requires (g.peers[v].term, c) in g.candidacies
    requires UpToDate(g.candidacies[(g.peers[v].term, c)], g.peers[v].log)
    requires g' == Grant(g, v, c)
    ensures var k := (g.peers[v].term, v); k in g'.ballots && g'.ballots[k].candidate == c
    ensures (g.peers[v].term, v) in g.ballots || BallotOK(g', g.peers[v].term, v)
  {
    var p, t := g.peers[v], g.peers[v].term;
    assert PeerOK(g, v);
    if (t, v) in g.ballots {
      assert BallotOK(g, t, v);
      assert CandidacyOK(g, t, g.ballots[(t, v)].candidate);
      assert PeerOK(g, g.ballots[(t, v)].candidate);
    }
    forall k | 0 <= k < |p.log| ensures At(g', p.log, k) { assert At(g, p.log, k); }
  }

  lemma FreshBallotKept(g: Proto, g': Proto, v: nat)
    requires Safe(g) && v in g.peers
    requires g'.reigns == g.reigns && g'.acks == g.acks && AcksOK(g')
    ensures var t := g.peers[v].term;
      BallotKept(g', g.peers[v].log, v, t, if t in g.reigns then t else t - 1)
  {
    var x, t := g.peers[v].log, g.peers[v].term;
    var hi: int := if t in g.reigns then t else t - 1;
    forall t0, i: nat | (t0, v) in g'.acks && t0 < t && i <= g'.acks[(t0, v)] && t0 <= hi
      ensures Kept(g', x, t0, i, hi)
    {
      assert AckOK(g, t0, v);
      assert Kept(g, x, t0, i, t);
      var p := g.reigns[t0].log[..i];
      if !(p <= x) {
        var u :| t0 < u <= t && u in g.reigns && !(p <= g.reigns[u].log);
        assert t0 < u <= hi && u in g'.reigns && !(p <= g'.reigns[u].log);
      }
    }
  }

  lemma BeginReadSafe(g: Proto, n: nat, context: nat)
    requires Safe(g) && n in g.peers && g.peers[n].term in g.reigns
    ensures Progressed(g, BeginRead(g, n, context), n)
  {
    var g' := BeginRead(g, n, context);
    if (n, g.peers[n].term, context) !in g.probes { FreshReadOK(g, g', n, context); }
    QuietStep(g, g', n);
  }

  lemma FreshReadOK(g: Proto, g': Proto, n: nat, context: nat)
    requires Safe(g) && n in g.peers && g.peers[n].term in g.reigns
    requires (n, g.peers[n].term, context) !in g.probes && g' == BeginRead(g, n, context)
    ensures ReadOK(g', n, g.peers[n].term, context)
  {
    forall u, v | u in g.reigns && v in g.reigns[u].voters ensures (u, v) in g.ballots { assert ReignOK(g, u); }
    forall u, k | u in g.reigns && 0 <= k < g.reigns[u].base && k < |g.reigns[u].log|
      ensures g.reigns[u].log[k].term in g.reigns
    {
      assert ReignOK(g, u);
      assert At(g, g.reigns[u].log, k);
    }
    forall j | 0 <= j < |g.commits| ensures g.commits[j].term in g.reigns { assert CommitOK(g, j); }
  }
}
