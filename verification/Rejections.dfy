/** What a rejection says about the fate of a request: whether its entry is committed, and
    whether it still can be. */
module Rejections {
  import opened KvModel
  import opened PeerLogic
  import opened Cluster
  import opened RaftEnvironment
  import opened ProposalQueue
  import opened Acceptance

  /** A rejection that settles the fate of the request: for want of leadership, by the lookup, or
      by a sweep for an entry that the proposal precedes. */
  predicate Refusal(o: Outcome) {
    || o.NotLeader? || o.Stale?
    || (o.Swept? && Before(Proposal(o.index, o.term, 0), o.atIndex, o.atTerm))
  }

  /** The committed log has reached the index of `p`, or a term past its own: whether it holds
      the entry of `p` does not change any more. */
  ghost predicate Decided(p: Proposal, committed: seq<Entry>) {
    p.index <= |committed| || exists m :: 0 <= m < |committed| && committed[m].term > p.term
  }

  /** What is true of a rejected proposal: if Raft had accepted it, its fate is decided, and its
      entry is committed only if somebody else was told that it was theirs. */
  ghost predicate Settled(p: Proposal, s: State) {
    && p.client < |s.requests|
    && (Accepted(s.requests, p.client) ==>
          && s.requests[p.client].birth == Some((p.index, p.term))
          && Decided(p, s.committed)
          && (CommittedBy(p, s.committed, |s.committed|) ==> Mistold(p.index, p.term, s.history, s.requests)))
  }

  /** The same of a proposal swept for a committed entry, as far as it precedes that entry. */
  ghost predicate SweptOk(p: Proposal, index: nat, term: nat, s: State) {
    && p.client < |s.requests|
    && (Accepted(s.requests, p.client) ==> s.requests[p.client].birth == Some((p.index, p.term)))
    && 1 <= index <= |s.committed| && s.committed[index - 1].term == term
    && (Before(p, index, term) ==> Settled(p, s))
  }

  lemma DecidedForever(p: Proposal, s: State, s': State)
    requires Grows(s, s') && LogOk(s'.committed, s'.reigns, s'.requests)
    requires Decided(p, s.committed)
    ensures Decided(p, s'.committed)
    ensures CommittedBy(p, s'.committed, |s'.committed|) <==> CommittedBy(p, s.committed, |s.committed|)
  {
    if |s.committed| < p.index {
      var m :| 0 <= m < |s.committed| && s.committed[m].term > p.term;
      assert s'.committed[m].term > p.term;
    }
  }

  lemma SettledForever(p: Proposal, s: State, s': State)
    requires Grows(s, s') && LogOk(s'.committed, s'.reigns, s'.requests)
    requires Settled(p, s)
    ensures Settled(p, s')
  {
    if Accepted(s.requests, p.client) {
      DecidedForever(p, s, s');
      if Mistold(p.index, p.term, s.history, s.requests) {
        MistoldGrows(p.index, p.term, s, s');
      }
    }
  }

  lemma SweptOkGrows(p: Proposal, index: nat, term: nat, s: State, s': State)
    requires Grows(s, s') && LogOk(s'.committed, s'.reigns, s'.requests)
    requires SweptOk(p, index, term, s)
    ensures SweptOk(p, index, term, s')
  {
    if Before(p, index, term) {
      SettledForever(p, s, s');
    }
  }

  /** A proposal that precedes the entry about to be applied is settled, by whichever branch it
      is rejected. */
  lemma RejectedIsSettled(s: State, n: nat, p: Proposal)
    requires EnvInv(s) && Enabled(s, ApplyOne(n))
    requires s.nodes[n].applied <= |s.committed|
    requires Tracked(p, s.reigns, s.requests) && Overtaken(p, s, s.nodes[n].applied)
    ensures var x := s.nodes[n];
            SweptOk(p, x.log[x.applied].index, x.log[x.applied].term, s)
  {
    var x := s.nodes[n];
    var e := x.log[x.applied];
    NextEntry(s, n);
    if Accepted(s.requests, p.client) {
      BackedIsBorn(p, s);
      if Before(p, e.index, e.term) && CommittedBy(p, s.committed, |s.committed|) {
        assert CommittedBy(p, s.committed, x.applied);
      }
    }
  }

  /** The entry of an ordered request stands at the index and term the request was born with. */
  lemma OrderedIsBorn(c: nat, s: State, j: int)
    requires LogOk(s.committed, s.reigns, s.requests) && Ordered(c, s.committed, j)
    ensures c < |s.requests| && s.requests[c].birth == Some((j + 1, s.committed[j].term))
  {
    assert EntryOk(s.committed[j], s.requests);
  }

  lemma OrderedIsAccepted(c: nat, s: State)
    requires LogOk(s.committed, s.reigns, s.requests)
    ensures InOrder(c, s.committed) ==> Accepted(s.requests, c)
  {
    if InOrder(c, s.committed) {
      var j :| Ordered(c, s.committed, j);
      OrderedIsBorn(c, s, j);
    }
  }

  lemma SettledIsFixed(p: Proposal, s: State, s': State)
    requires Grows(s, s') && LogOk(s.committed, s.reigns, s.requests) && LogOk(s'.committed, s'.reigns, s'.requests)
    requires Settled(p, s)
    ensures InOrder(p.client, s'.committed) <==> InOrder(p.client, s.committed)
    ensures InOrder(p.client, s.committed) ==> Mistold(p.index, p.term, s.history, s.requests)
  {
    if InOrder(p.client, s'.committed) {
      var k :| Ordered(p.client, s'.committed, k);
      OrderedIsBorn(p.client, s', k);
      DecidedForever(p, s, s');
      assert Ordered(p.client, s.committed, k);
    }
    if InOrder(p.client, s.committed) {
      var k :| Ordered(p.client, s.committed, k);
      OrderedIsBorn(p.client, s, k);
      assert Ordered(p.client, s'.committed, k);
    }
  }

  /** If Raft accepts every proposal, what the lookup rejects has a term below that of the entry
      about to be applied and is not committed, so by `DecidedForever` it never is. */
  lemma RejectedIsDoomed(s: State, n: nat)
    requires EnvInv(s) && QueueInv(s) && Enabled(s, ApplyOne(n)) && s.nodes[n].leader
    ensures var x := s.nodes[n];
            var e := x.log[x.applied];
            var rejected := FindProposal(x.peer.queue, e.index, e.term).rejected;
            && x.applied < |s.committed|
            && forall i :: 0 <= i < |rejected| ==>
                 && rejected[i].term < s.committed[x.applied].term
                 && Decided(rejected[i], s.committed)
                 && !CommittedBy(rejected[i], s.committed, |s.committed|)
  {
    var x := s.nodes[n];
    var e := x.log[x.applied];
    var rejected := FindProposal(x.peer.queue, e.index, e.term).rejected;
    NextEntry(s, n);
    RejectsOnlyEarlierTerms(s, n);
    assert QueueOk(x, s.reigns, s.committed);
    forall i | 0 <= i < |rejected|
      ensures !CommittedBy(rejected[i], s.committed, |s.committed|)
    {
      assert rejected[i] == x.peer.queue[i];
      AheadIsNotCommitted(rejected[i], s, x.applied);
    }
  }

  /** A committed entry of the term and at or behind the index of an accepted request brings the
      request's own entry with it. */
  lemma BornIsOrdered(c: nat, s: State, m: nat)
    requires EnvInv(s) && Accepted(s.requests, c) && BornOk(c, s.reigns, s.requests)
    requires var (index, term) := s.requests[c].birth.value;
             index <= m && 1 <= m <= |s.committed| && s.committed[m - 1].term == term
    ensures Ordered(c, s.committed, s.requests[c].birth.value.0 - 1)
  {
    assert Agree(s.committed, s.reigns[s.committed[m - 1].term].log, m);
  }

  /** As far as both reach, up to the entry of client `c`, the committed log runs along the log
      of the leader that accepted `c`. */
  ghost predicate OnBranch(c: nat, s: State)
    requires Accepted(s.requests, c)
  {
    var (index, term) := s.requests[c].birth.value;
    && term in s.reigns
    && Agree(s.committed, s.reigns[term].log, if |s.committed| < index then |s.committed| else index)
  }

  lemma OrderedIsOnBranch(c: nat, s: State)
    requires EnvInv(s) && InOrder(c, s.committed)
    ensures Accepted(s.requests, c) && OnBranch(c, s)
  {
    var j :| Ordered(c, s.committed, j);
    assert EntryOk(s.committed[j], s.requests);
    assert Agree(s.committed, s.reigns[s.committed[j].term].log, j + 1);
  }

  /** A branch left once is never returned to. */
  lemma OnBranchBefore(c: nat, s: State, s': State)
    requires Grows(s, s') && Accepted(s.requests, c) && BornOk(c, s.reigns, s.requests)
    requires OnBranch(c, s')
    ensures OnBranch(c, s)
  {
    var (index, term) := s.requests[c].birth.value;
    assert s'.requests[c] == s.requests[c];
    assert Agree(s.reigns[term].log, s'.reigns[term].log, |s.reigns[term].log|);
  }

  /** On its branch, the entry of client `c` is committed already or can be in one step. */
  lemma BranchCommits(c: nat, s: State)
    requires Accepted(s.requests, c) && BornOk(c, s.reigns, s.requests) && OnBranch(c, s)
    ensures var (index, term) := s.requests[c].birth.value;
            if |s.committed| < index
            then Enabled(s, Commit(term, index)) && InOrder(c, Do(s, Commit(term, index)).committed)
            else InOrder(c, s.committed)
  {
    var (index, term) := s.requests[c].birth.value;
    if |s.committed| < index {
      assert Ordered(c, Do(s, Commit(term, index)).committed, index - 1);
    } else {
      assert Ordered(c, s.committed, index - 1);
    }
  }
}
