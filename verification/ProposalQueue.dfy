/** The deque of waiting proposals: what holds of it in every run in which Raft drops no
    proposal, and what `GetProposal` therefore does with it. */
module ProposalQueue {
  import opened KvModel
  import opened PeerLogic
  import opened Cluster
  import opened RaftEnvironment

  /** The index guessed before `Propose` is the one Raft used: the entry of `p` stands at
      `p.index` in the log of the leader of `p.term`, and it carries this client's request. */
  ghost predicate Backed(p: Proposal, reigns: map<nat, Reign>) {
    && p.term in reigns && 1 <= p.index <= |reigns[p.term].log|
    && reigns[p.term].log[p.index - 1].term == p.term
    && reigns[p.term].log[p.index - 1].origin == Some(p.client)
  }

  lemma BackedIsBorn(p: Proposal, s: State)
    requires EnvInv(s) && Backed(p, s.reigns)
    ensures p.client < |s.requests| && s.requests[p.client].birth == Some((p.index, p.term))
  {
    assert ReignOk(s, p.term);
    assert EntryOk(s.reigns[p.term].log[p.index - 1], s.requests);
  }

  /** The entry of `p` is among the first `n` committed ones. */
  ghost predicate CommittedBy(p: Proposal, committed: seq<Entry>, n: nat)
    requires n <= |committed|
  {
    1 <= p.index <= n && committed[p.index - 1].term == p.term
  }

  /** `p` is strictly behind the last of the first `n` committed entries. */
  ghost predicate Ahead(p: Proposal, committed: seq<Entry>, n: nat)
    requires n <= |committed|
  {
    n > 0 ==> Before(Proposal(n, committed[n - 1].term, 0), p.index, p.term)
  }

  ghost predicate QueueOk(x: Node, reigns: map<nat, Reign>, committed: seq<Entry>) {
    && StrictlySorted(x.peer.queue)
    && x.applied <= |committed|
    && forall i :: 0 <= i < |x.peer.queue| ==>
         var p := x.peer.queue[i];
         Backed(p, reigns) && p.term <= x.term && Ahead(p, committed, x.applied)
  }

  ghost predicate QueueInv(s: State) {
    forall n :: 0 <= n < |s.nodes| ==> QueueOk(s.nodes[n], s.reigns, s.committed)
  }

  lemma AheadIsNotCommitted(p: Proposal, s: State, n: nat)
    requires LogOk(s.committed, s.reigns, s.requests) && n <= |s.committed| && Ahead(p, s.committed, n)
    ensures !CommittedBy(p, s.committed, n)
  {
  }

  lemma QueueOkGrows(x: Node, s: State, s': State)
    requires Grows(s, s')
    requires QueueOk(x, s.reigns, s.committed)
    ensures QueueOk(x, s'.reigns, s'.committed)
  {
    forall i | 0 <= i < |x.peer.queue|
      ensures Backed(x.peer.queue[i], s'.reigns)
    {
      assert Backed(x.peer.queue[i], s.reigns);
    }
  }

  /** The guess made for an accepted proposal is right, and behind every other one. */
  lemma NewIsBacked(s: State, n: nat, cmd: Command)
    requires EnvInv(s) && QueueInv(s) && Enabled(s, Submit(n, cmd, false)) && s.nodes[n].leader
    ensures var x := s.nodes[n];
            var p := Proposal(|x.log| + 1, x.term, |s.requests|);
            && Backed(p, DoSubmit(s, n, cmd, false).reigns)
            && (forall i :: 0 <= i < |x.peer.queue| ==> Before(x.peer.queue[i], p.index, p.term))
            && x.applied <= |s.committed| && Ahead(p, s.committed, x.applied)
  {
    var x := s.nodes[n];
    assert NodeOk(s, n) && QueueOk(x, s.reigns, s.committed);
    forall i | 0 <= i < |x.peer.queue|
      ensures Before(x.peer.queue[i], |x.log| + 1, x.term)
    {
      assert Backed(x.peer.queue[i], s.reigns);
    }
  }

  lemma LongerQueueStaysOk(x: Node, x': Node, p: Proposal, reigns: map<nat, Reign>, committed: seq<Entry>)
    requires QueueOk(x, reigns, committed)
    requires x'.peer.queue == x.peer.queue + [p] && x'.term == x.term && x'.applied == x.applied
    requires Backed(p, reigns) && p.term == x.term && Ahead(p, committed, x.applied)
    requires forall i :: 0 <= i < |x.peer.queue| ==> Before(x.peer.queue[i], p.index, p.term)
    ensures QueueOk(x', reigns, committed)
  {
  }

  lemma SubmitKeepsQueue(s: State, n: nat, cmd: Command)
    requires EnvInv(s) && QueueInv(s) && Enabled(s, Submit(n, cmd, false))
    requires s.nodes[n].leader
    ensures var s' := DoSubmit(s, n, cmd, false); QueueOk(s'.nodes[n], s'.reigns, s'.committed)
  {
    var x, s' := s.nodes[n], DoSubmit(s, n, cmd, false);
    SubmitGrows(s, n, cmd, false);
    QueueOkGrows(x, s, s');
    NewIsBacked(s, n, cmd);
    LongerQueueStaysOk(x, s'.nodes[n], Proposal(|x.log| + 1, x.term, |s.requests|), s'.reigns, s'.committed);
  }

  /** Dropping proposals from the front and applying one entry none of the others owns. */
  lemma SuffixStaysOk(x: Node, x': Node, k: nat, reigns: map<nat, Reign>, committed: seq<Entry>)
    requires QueueOk(x, reigns, committed)
    requires k <= |x.peer.queue| && x'.peer.queue == x.peer.queue[k..]
    requires x'.term == x.term && x'.applied <= |committed|
    requires forall i :: k <= i < |x.peer.queue| ==> Ahead(x.peer.queue[i], committed, x'.applied)
    ensures QueueOk(x', reigns, committed)
  {
    forall i | 0 <= i < |x'.peer.queue|
      ensures var p := x'.peer.queue[i];
              Backed(p, reigns) && p.term <= x'.term && Ahead(p, committed, x'.applied)
    {
      assert x'.peer.queue[i] == x.peer.queue[k + i];
    }
  }

  /** What stays queued is the part of the queue behind the entry. */
  lemma SettleLeavesSuffix(q: seq<Proposal>, leader: bool, e: Entry) returns (k: nat)
    requires StrictlySorted(q)
    ensures k <= |q| && Settle(q, leader, e).rest == q[k..]
    ensures forall i :: k <= i < |q| ==> Before(Proposal(e.index, e.term, 0), q[i].index, q[i].term)
  {
    k := |q| - |Settle(q, leader, e).rest|;
    if leader {
      RestIsLater(q, e.index, e.term, StaleCount(q, e.index, e.term), k);
    }
  }

  lemma ProcessEntryQueue(s: PeerState, leader: bool, e: Entry)
    ensures ProcessEntry(s, leader, e).state.queue == Settle(s.queue, leader, e).rest
  {
  }

  /** After an entry is looked up, everything left in the queue is behind it. */
  lemma ApplyKeepsQueue(s: State, n: nat)
    requires EnvInv(s) && QueueInv(s) && Enabled(s, ApplyOne(n))
    ensures QueueOk(DoApplyOne(s, n).nodes[n], s.reigns, s.committed)
  {
    var x := s.nodes[n];
    var e := x.log[x.applied];
    assert NodeOk(s, n);
    assert QueueOk(x, s.reigns, s.committed);
    assert e == s.committed[x.applied];
    var k := SettleLeavesSuffix(x.peer.queue, x.leader, e);
    ProcessEntryQueue(x.peer, x.leader, e);
    SuffixStaysOk(x, DoApplyOne(s, n).nodes[n], k, s.reigns, s.committed);
  }

  lemma StepKeepsQueue(s: State, step: Step)
    requires EnvInv(s) && QueueInv(s) && Enabled(s, step) && !Drops(step)
    ensures QueueInv(Do(s, step))
  {
    var s' := Do(s, step);
    StepGrows(s, step);
    if step.ApplyOne? {
      ApplyKeepsQueue(s, step.n);
    } else if step.Submit? && s.nodes[step.n].leader {
      SubmitKeepsQueue(s, step.n, step.cmd);
    }
    forall m | 0 <= m < |s'.nodes|
      ensures QueueOk(s'.nodes[m], s'.reigns, s'.committed)
    {
      assert QueueOk(s.nodes[m], s.reigns, s.committed);
      QueueOkGrows(s.nodes[m], s, s');
    }
  }

  /** A dropped proposal leaves the queue claiming an entry that no log holds. */
  lemma DropBreaksQueue(s: State, n: nat, cmd: Command, dropped: bool)
    requires EnvInv(s) && QueueInv(s) && Enabled(s, Submit(n, cmd, dropped))
    ensures QueueInv(Do(s, Submit(n, cmd, dropped))) <==> !dropped
  {
    if !dropped {
      StepKeepsQueue(s, Submit(n, cmd, dropped));
    } else {
      var s' := Do(s, Submit(n, cmd, true));
      assert NodeOk(s, n);
      var q := s.nodes[n].peer.queue;
      assert s'.nodes[n].peer.queue[|q|] == Proposal(|s.nodes[n].log| + 1, s.nodes[n].term, |s.requests|);
      assert !Backed(s'.nodes[n].peer.queue[|q|], s'.reigns);
      assert !QueueOk(s'.nodes[n], s'.reigns, s'.committed);
    }
  }

  /** A proposal of the entry's own term and a smaller index was committed before the entry,
      because the leader of that term logged it first. */
  lemma SameTermIsCommitted(s: State, n: nat, p: Proposal)
    requires EnvInv(s) && Enabled(s, ApplyOne(n))
    ensures var x := s.nodes[n];
            var e := x.log[x.applied];
            Backed(p, s.reigns) && p.term == e.term && p.index < e.index ==>
              x.applied <= |s.committed| && CommittedBy(p, s.committed, x.applied)
  {
    var x := s.nodes[n];
    assert NodeOk(s, n);
    assert Agree(x.log, s.reigns[x.log[x.applied].term].log, x.applied + 1);
  }

  /** `GetProposal` only ever rejects proposals of earlier terms: the branch for a proposal of
      the entry's own term with a smaller index is never taken. */
  lemma RejectsOnlyEarlierTerms(s: State, n: nat)
    requires EnvInv(s) && QueueInv(s) && Enabled(s, ApplyOne(n)) && s.nodes[n].leader
    ensures var x := s.nodes[n];
            var e := x.log[x.applied];
            var rejected := FindProposal(x.peer.queue, e.index, e.term).rejected;
            forall i :: 0 <= i < |rejected| ==> rejected[i].term < e.term
  {
    var x := s.nodes[n];
    var e := x.log[x.applied];
    var k := StaleCount(x.peer.queue, e.index, e.term);
    assert QueueOk(x, s.reigns, s.committed);
    forall i | 0 <= i < k
      ensures x.peer.queue[i].term < e.term
    {
      SameTermIsCommitted(s, n, x.peer.queue[i]);
    }
  }

  /** The proposal returned for a committed entry is the one whose request the entry carries. */
  lemma MatchedIsOwn(s: State, n: nat)
    requires EnvInv(s) && QueueInv(s) && Enabled(s, ApplyOne(n)) && s.nodes[n].leader
    ensures var x := s.nodes[n];
            var e := x.log[x.applied];
            var f := FindProposal(x.peer.queue, e.index, e.term);
            f.matched.Some? ==>
              && f.matched.value.index == e.index && f.matched.value.term == e.term
              && e.origin == Some(f.matched.value.client)
  {
    var x := s.nodes[n];
    var e := x.log[x.applied];
    var k := StaleCount(x.peer.queue, e.index, e.term);
    assert NodeOk(s, n);
    if k < |x.peer.queue| {
      assert Backed(x.peer.queue[k], s.reigns);
      assert Agree(x.log, s.reigns[e.term].log, x.applied + 1);
    }
  }
}
