/** What holds of the waiting proposals in every run, whether or not Raft accepts them. The peer
    ignores what `Propose` returns, so it queues a refused proposal like any other; everything
    here is stated in terms of the request, which was accepted or not. */
module Acceptance {
  import opened KvModel
  import opened PeerLogic
  import opened Cluster
  import opened RaftEnvironment
  import opened ProposalQueue

  /** Raft accepted the proposal made for client `c`. */
  predicate Accepted(requests: seq<Request>, c: nat) {
    c < |requests| && requests[c].birth.Some?
  }

  /** A client is told that entry (index, term) was its own, while Raft had refused its proposal. */
  predicate FalseSuccess(ev: Event, index: nat, term: nat, requests: seq<Request>) {
    && ev.Answered? && ev.outcome.Done? && ev.outcome.index == index && ev.outcome.term == term
    && ev.client < |requests| && !Accepted(requests, ev.client)
  }

  ghost predicate Mistold(index: nat, term: nat, history: seq<Event>, requests: seq<Request>) {
    exists x :: 0 <= x < |history| && FalseSuccess(history[x], index, term, requests)
  }

  ghost predicate OperationsFrom(log: seq<Entry>, k: int) {
    forall i :: 0 <= i < |log| && k <= i ==> log[i].cmd != NoOp
  }

  /** A waiting proposal guesses an index its leader's log has reached or reaches next, past
      which that log holds no no-op; if it was accepted, the guess is right. */
  ghost predicate Tracked(p: Proposal, reigns: map<nat, Reign>, requests: seq<Request>) {
    && p.client < |requests|
    && p.term in reigns && 1 <= p.index <= |reigns[p.term].log| + 1
    && OperationsFrom(reigns[p.term].log, p.index - 1)
    && (Accepted(requests, p.client) ==> Backed(p, reigns))
  }

  ghost predicate WeaklySorted(q: seq<Proposal>) {
    forall i, j :: 0 <= i < j < |q| ==> !Before(q[j], q[i].index, q[i].term) && q[i].client != q[j].client
  }

  /** An accepted proposal waits for an applied entry only if somebody else was answered for it. */
  ghost predicate Overtaken(p: Proposal, s: State, applied: nat)
    requires applied <= |s.committed|
  {
    Accepted(s.requests, p.client) && CommittedBy(p, s.committed, applied) ==>
      Mistold(p.index, p.term, s.history, s.requests)
  }

  ghost predicate TrackOk(x: Node, s: State) {
    && WeaklySorted(x.peer.queue)
    && x.applied <= |s.committed|
    && forall i :: 0 <= i < |x.peer.queue| ==>
         var p := x.peer.queue[i];
         Tracked(p, s.reigns, s.requests) && p.term <= x.term && Overtaken(p, s, x.applied)
  }

  ghost predicate TrackInv(s: State) {
    forall n :: 0 <= n < |s.nodes| ==> TrackOk(s.nodes[n], s)
  }

  /** The entry created for an accepted request stays in the log of its leader. */
  ghost predicate BornOk(c: nat, reigns: map<nat, Reign>, requests: seq<Request>) {
    Accepted(requests, c) ==> Backed(Proposal(requests[c].birth.value.0, requests[c].birth.value.1, c), reigns)
  }

  ghost predicate BornInv(s: State) {
    forall c: nat :: c < |s.requests| ==> BornOk(c, s.reigns, s.requests)
  }

  /** After its no-op, a leader appends nothing but operations. */
  ghost predicate AppendsOperations(s: State, s': State) {
    forall t :: t in s.reigns && t in s'.reigns ==> OperationsFrom(s'.reigns[t].log, |s.reigns[t].log|)
  }

  lemma StepAppendsOperations(s: State, step: Step)
    requires EnvInv(s) && Enabled(s, step)
    ensures AppendsOperations(s, Do(s, step))
  {
    if step.Submit? {
      assert NodeOk(s, step.n);
    }
  }

  lemma BackedGrows(p: Proposal, s: State, s': State)
    requires Grows(s, s') && Backed(p, s.reigns)
    ensures Backed(p, s'.reigns)
  {
  }

  lemma StepKeepsBorn(s: State, step: Step)
    requires EnvInv(s) && BornInv(s) && Enabled(s, step)
    ensures BornInv(Do(s, step))
  {
    var s' := Do(s, step);
    StepGrows(s, step);
    if step.Submit? {
      assert NodeOk(s, step.n);
    }
    forall c: nat | c < |s'.requests|
      ensures BornOk(c, s'.reigns, s'.requests)
    {
      if c < |s.requests| && Accepted(s.requests, c) {
        assert BornOk(c, s.reigns, s.requests);
        BackedGrows(Proposal(s.requests[c].birth.value.0, s.requests[c].birth.value.1, c), s, s');
      }
    }
  }

  lemma MistoldGrows(index: nat, term: nat, s: State, s': State)
    requires Grows(s, s') && Mistold(index, term, s.history, s.requests)
    ensures Mistold(index, term, s'.history, s'.requests)
  {
    var x :| 0 <= x < |s.history| && FalseSuccess(s.history[x], index, term, s.requests);
    assert FalseSuccess(s'.history[x], index, term, s'.requests);
  }

  lemma TrackedGrows(p: Proposal, s: State, s': State)
    requires Grows(s, s') && AppendsOperations(s, s') && Tracked(p, s.reigns, s.requests)
    ensures Tracked(p, s'.reigns, s'.requests)
  {
    var log, log' := s.reigns[p.term].log, s'.reigns[p.term].log;
    forall i | 0 <= i < |log'| && p.index - 1 <= i
      ensures log'[i].cmd != NoOp
    {
      assert i < |log| ==> log[i].cmd != NoOp;
    }
  }

  lemma TrackOkGrows(x: Node, s: State, s': State)
    requires Grows(s, s') && AppendsOperations(s, s') && TrackOk(x, s)
    ensures TrackOk(x, s')
  {
    forall i | 0 <= i < |x.peer.queue|
      ensures Tracked(x.peer.queue[i], s'.reigns, s'.requests) && Overtaken(x.peer.queue[i], s', x.applied)
    {
      var p := x.peer.queue[i];
      assert Tracked(p, s.reigns, s.requests) && Overtaken(p, s, x.applied);
      TrackedGrows(p, s, s');
      if Mistold(p.index, p.term, s.history, s.requests) {
        MistoldGrows(p.index, p.term, s, s');
      }
    }
  }

  /** The guess made for the next proposal is right if Raft accepts it. */
  lemma NewIsTracked(s: State, n: nat, cmd: Command, dropped: bool)
    requires EnvInv(s) && Enabled(s, Submit(n, cmd, dropped)) && s.nodes[n].leader
    ensures var x, s' := s.nodes[n], DoSubmit(s, n, cmd, dropped);
            var p := Proposal(|x.log| + 1, x.term, |s.requests|);
            && Tracked(p, s'.reigns, s'.requests)
            && x.applied <= |s'.committed| && Overtaken(p, s', x.applied)
  {
    assert NodeOk(s, n);
  }

  /** It is behind every other one, or shares its numbers with refused ones. */
  lemma NewIsLast(x: Node, s: State, p: Proposal)
    requires TrackOk(x, s) && p.client == |s.requests|
    requires x.term in s.reigns && p.index == |s.reigns[x.term].log| + 1 && p.term == x.term
    ensures WeaklySorted(x.peer.queue + [p])
  {
    forall i | 0 <= i < |x.peer.queue|
      ensures !Before(p, x.peer.queue[i].index, x.peer.queue[i].term) && x.peer.queue[i].client != p.client
    {
      assert Tracked(x.peer.queue[i], s.reigns, s.requests);
    }
  }

  lemma SubmitKeepsOthers(s: State, n: nat, cmd: Command, dropped: bool)
    requires EnvInv(s) && TrackInv(s) && Enabled(s, Submit(n, cmd, dropped))
    ensures TrackOk(s.nodes[n], DoSubmit(s, n, cmd, dropped))
  {
    SubmitGrows(s, n, cmd, dropped);
    StepAppendsOperations(s, Submit(n, cmd, dropped));
    TrackOkGrows(s.nodes[n], s, DoSubmit(s, n, cmd, dropped));
  }

  lemma SubmitKeepsTrack(s: State, n: nat, cmd: Command, dropped: bool)
    requires EnvInv(s) && TrackInv(s) && Enabled(s, Submit(n, cmd, dropped)) && s.nodes[n].leader
    ensures var s' := DoSubmit(s, n, cmd, dropped); TrackOk(s'.nodes[n], s')
  {
    var x, s' := s.nodes[n], DoSubmit(s, n, cmd, dropped);
    var p := Proposal(|x.log| + 1, x.term, |s.requests|);
    assert NodeOk(s, n) && TrackOk(x, s);
    NewIsLast(x, s, p);
    NewIsTracked(s, n, cmd, dropped);
    SubmitKeepsOthers(s, n, cmd, dropped);
    LongerQueueOk(x, s'.nodes[n], s', p);
  }

  lemma LongerQueueOk(x: Node, x': Node, s: State, p: Proposal)
    requires TrackOk(x, s) && WeaklySorted(x'.peer.queue)
    requires x'.peer.queue == x.peer.queue + [p] && x'.term == x.term && x'.applied == x.applied
    requires Tracked(p, s.reigns, s.requests) && p.term == x.term && Overtaken(p, s, x.applied)
    ensures TrackOk(x', s)
  {
  }

  /** On a weakly sorted queue, a proposal left behind with the entry's own numbers shares them
      with the one that was returned. */
  lemma RestSharesNumbers(q: seq<Proposal>, index: nat, term: nat, j: nat)
    requires WeaklySorted(q)
    requires |q| - |FindProposal(q, index, term).rest| <= j < |q|
    ensures var f := FindProposal(q, index, term);
            q[j].index == index && q[j].term == term ==>
              && f.matched.Some? && f.matched.value in q && f.matched.value.client != q[j].client
              && f.matched.value.index == index && f.matched.value.term == term
  {
    var k := StaleCount(q, index, term);
    if k < j {
      assert !Before(q[j], q[k].index, q[k].term);
    }
  }

  /** The entry a node applies next stands at the same place in its leader's log and in the
      committed log. */
  lemma NextEntry(s: State, n: nat)
    requires EnvInv(s) && Enabled(s, ApplyOne(n))
    ensures var x := s.nodes[n];
            var e := x.log[x.applied];
            && e.index == x.applied + 1 && e.term in s.reigns && EntryOk(e, s.requests)
            && Agree(s.committed, s.reigns[e.term].log, x.applied + 1) && s.committed[x.applied] == e
  {
    var x := s.nodes[n];
    assert NodeOk(s, n);
    assert Agree(x.log, s.reigns[x.log[x.applied].term].log, x.applied + 1);
  }

  /** Two proposals with the same numbers cannot both have been accepted. */
  lemma OneIsAccepted(p: Proposal, q: Proposal, s: State)
    requires Tracked(p, s.reigns, s.requests) && Tracked(q, s.reigns, s.requests)
    requires p.index == q.index && p.term == q.term && p.client != q.client
    ensures !Accepted(s.requests, p.client) || !Accepted(s.requests, q.client)
  {
  }

  /** Any other proposal with the numbers of an accepted one was refused. */
  lemma OthersAreRefused(x: Node, s: State, k: nat)
    requires TrackOk(x, s) && k < |x.peer.queue| && Accepted(s.requests, x.peer.queue[k].client)
    ensures forall j :: 0 <= j < k && x.peer.queue[j].index == x.peer.queue[k].index
                        && x.peer.queue[j].term == x.peer.queue[k].term ==>
                          !Accepted(s.requests, x.peer.queue[j].client)
  {
    var q := x.peer.queue;
    forall j | 0 <= j < k && q[j].index == q[k].index && q[j].term == q[k].term
      ensures !Accepted(s.requests, q[j].client)
    {
      assert Tracked(q[j], s.reigns, s.requests) && Tracked(q[k], s.reigns, s.requests);
      OneIsAccepted(q[j], q[k], s);
    }
  }

  /** The proposal returned for an entry is answered with that entry. */
  lemma MatchedIsAnswered(s: PeerState, e: Entry, history: seq<Event>, requests: seq<Request>)
    requires var f := FindProposal(s.queue, e.index, e.term);
             f.matched.Some? && f.matched.value.client < |requests|
             && !Accepted(requests, f.matched.value.client)
    requires e.cmd != NoOp && !ProcessEntry(s, true, e).state.halted
    ensures Mistold(e.index, e.term, history + ProcessEntry(s, true, e).events, requests)
  {
    var h := history + ProcessEntry(s, true, e).events;
    assert FalseSuccess(h[|h| - 1], e.index, e.term, requests);
  }

  lemma RestIsOvertaken(s: State, n: nat, j: nat)
    requires EnvInv(s) && TrackInv(s) && Enabled(s, ApplyOne(n)) && s.nodes[n].leader
    requires var x := s.nodes[n];
             |x.peer.queue| - |DoApplyOne(s, n).nodes[n].peer.queue| <= j < |x.peer.queue|
    ensures DoApplyOne(s, n).nodes[n].applied <= |s.committed|
    ensures Overtaken(s.nodes[n].peer.queue[j], DoApplyOne(s, n), DoApplyOne(s, n).nodes[n].applied)
  {
    var x, s' := s.nodes[n], DoApplyOne(s, n);
    var e := x.log[x.applied];
    var p := x.peer.queue[j];
    NextEntry(s, n);
    StepGrows(s, ApplyOne(n));
    ProcessEntryQueue(x.peer, true, e);
    assert TrackOk(x, s);
    assert Tracked(p, s.reigns, s.requests) && Overtaken(p, s, x.applied);
    if CommittedBy(p, s.committed, x.applied) && Accepted(s.requests, p.client) {
      MistoldGrows(p.index, p.term, s, s');
    } else if CommittedBy(p, s.committed, s'.nodes[n].applied) && Accepted(s.requests, p.client) {
      RestSharesNumbers(x.peer.queue, e.index, e.term, j);
      OneIsAccepted(p, FindProposal(x.peer.queue, e.index, e.term).matched.value, s);
      MatchedIsAnswered(x.peer, e, s.history, s.requests);
    }
  }

  /** What is left of a queue after dropping proposals from its front. */
  lemma SuffixTracked(x: Node, x': Node, s: State, s': State, m: nat)
    requires TrackOk(x, s) && s'.reigns == s.reigns && s'.requests == s.requests
    requires m <= |x.peer.queue| && x'.peer.queue == x.peer.queue[m..] && x'.term == x.term
    requires x'.applied <= |s'.committed|
    requires forall j :: m <= j < |x.peer.queue| ==> Overtaken(x.peer.queue[j], s', x'.applied)
    ensures TrackOk(x', s')
  {
    forall i | 0 <= i < |x'.peer.queue|
      ensures var p := x'.peer.queue[i];
              Tracked(p, s'.reigns, s'.requests) && p.term <= x'.term && Overtaken(p, s', x'.applied)
    {
      assert x'.peer.queue[i] == x.peer.queue[m + i];
    }
  }

  lemma ApplyKeepsTrack(s: State, n: nat)
    requires EnvInv(s) && TrackInv(s) && Enabled(s, ApplyOne(n))
    ensures TrackOk(DoApplyOne(s, n).nodes[n], DoApplyOne(s, n))
  {
    var x, s' := s.nodes[n], DoApplyOne(s, n);
    var e := x.log[x.applied];
    assert TrackOk(x, s);
    NextEntry(s, n);
    ProcessEntryQueue(x.peer, x.leader, e);
    var q, q' := x.peer.queue, s'.nodes[n].peer.queue;
    FindSplits(q, e.index, e.term);
    var m := |q| - |q'|;
    assert q' == q[m..];
    forall j | m <= j < |q|
      ensures Overtaken(q[j], s', s'.nodes[n].applied)
    {
      RestIsOvertaken(s, n, j);
    }
    SuffixTracked(x, s'.nodes[n], s, s', m);
  }

  lemma StepKeepsTrack(s: State, step: Step)
    requires EnvInv(s) && TrackInv(s) && Enabled(s, step)
    ensures TrackInv(Do(s, step))
  {
    var s' := Do(s, step);
    StepGrows(s, step);
    StepAppendsOperations(s, step);
    if step.ApplyOne? {
      ApplyKeepsTrack(s, step.n);
    } else if step.Submit? && s.nodes[step.n].leader {
      SubmitKeepsTrack(s, step.n, step.cmd, step.dropped);
    }
    forall m | 0 <= m < |s'.nodes|
      ensures TrackOk(s'.nodes[m], s')
    {
      assert TrackOk(s.nodes[m], s);
      TrackOkGrows(s.nodes[m], s, s');
    }
  }

  lemma ReadyToApply(s: State, n: nat) returns (p: Option<Proposal>)
    requires EnvInv(s) && TrackInv(s) && Enabled(s, ApplyOne(n))
    ensures var x := s.nodes[n];
            var e := x.log[x.applied];
            && p == Settle(x.peer.queue, x.leader, e).matched
            && (p.Some? ==>
                  && p.value in x.peer.queue && Tracked(p.value, s.reigns, s.requests)
                  && p.value.index == e.index && p.value.term == e.term)
  {
    var x := s.nodes[n];
    var e := x.log[x.applied];
    p := Settle(x.peer.queue, x.leader, e).matched;
    assert TrackOk(x, s);
    if p.Some? {
      var k := StaleCount(x.peer.queue, e.index, e.term);
      assert p.value == x.peer.queue[k];
    }
  }

  /** The proposal returned for an entry is the one whose request the entry carries exactly when
      Raft accepted it, which `GetProposal` does not know. No entry returned with a proposal is
      a no-op, accepted or not. */
  lemma MatchedIsOwnIfAccepted(s: State, n: nat)
    requires EnvInv(s) && TrackInv(s) && Enabled(s, ApplyOne(n))
    ensures var x := s.nodes[n];
            var e := x.log[x.applied];
            var p := Settle(x.peer.queue, x.leader, e).matched;
            p.Some? ==>
              && p.value.client < |s.requests| && e.cmd != NoOp
              && (e.origin == Some(p.value.client) <==> Accepted(s.requests, p.value.client))
  {
    var p := ReadyToApply(s, n);
    NextEntry(s, n);
  }

  /** No proposal ahead of position `k` has the numbers of the one there. */
  ghost predicate FirstWithNumbers(q: seq<Proposal>, k: nat)
    requires k < |q|
  {
    forall j :: 0 <= j < k ==> q[j].index != q[k].index || q[j].term != q[k].term
  }

  lemma FoundIfFirst(q: seq<Proposal>, k: nat)
    requires WeaklySorted(q) && k < |q|
    ensures FindProposal(q, q[k].index, q[k].term).matched.Some?
    ensures FindProposal(q, q[k].index, q[k].term).matched.value.client == q[k].client <==> FirstWithNumbers(q, k)
  {
    var m := StaleCount(q, q[k].index, q[k].term);
    assert m <= k;
    if m < k {
      assert !Before(q[k], q[m].index, q[m].term) && q[m].client != q[k].client;
    }
  }

  predicate IsSuccess(ev: Event, c: nat) {
    ev.Answered? && ev.client == c && ev.outcome.Done?
  }

  ghost predicate ToldSuccess(events: seq<Event>, c: nat) {
    exists y :: 0 <= y < |events| && IsSuccess(events[y], c)
  }

  /** An entry tells of a success only the client of the proposal returned for it, and that one
      unless it halts the process. */
  lemma SuccessOfEntry(s: PeerState, leader: bool, e: Entry, p: Proposal)
    requires !s.halted
    ensures var a := ProcessEntry(s, leader, e);
            var matched := Settle(s.queue, leader, e).matched;
            ToldSuccess(a.events, p.client) <==>
              matched.Some? && matched.value.client == p.client && e.cmd != NoOp && !a.state.halted
  {
    var a := ProcessEntry(s, leader, e);
    var f := Settle(s.queue, leader, e);
    assert forall y :: 0 <= y < |f.rejected| ==> !IsSuccess(a.events[y], p.client);
    if f.matched.Some? && f.matched.value.client == p.client && e.cmd != NoOp && !a.state.halted {
      assert IsSuccess(a.events[|f.rejected|], p.client);
    }
  }

  /** The lookup of the numbers just given to `p`, behind a queue none of which exceeds them. */
  lemma LastIsFound(q: seq<Proposal>, p: Proposal)
    requires WeaklySorted(q + [p])
    ensures var m := FindProposal(q + [p], p.index, p.term).matched;
            && m.Some? && m.value in q + [p] && m.value.index == p.index && m.value.term == p.term
            && (m.value.client == p.client <==>
                  forall i :: 0 <= i < |q| ==> q[i].index != p.index || q[i].term != p.term)
  {
    var all := q + [p];
    FoundIfFirst(all, |q|);
    assert all[StaleCount(all, p.index, p.term)] in all;
    assert forall i :: 0 <= i < |q| ==> all[i] == q[i];
  }

  /** When Raft accepts a proposal, looking up its entry finds its own client if and only if no
      refused proposal waits for the same numbers; otherwise it finds a client whose proposal
      was refused. */
  lemma AcceptedIsFound(s: State, n: nat, cmd: Command)
    requires EnvInv(s) && TrackInv(s) && Enabled(s, Submit(n, cmd, false)) && s.nodes[n].leader
    ensures var x := s.nodes[n];
            var s' := DoSubmit(s, n, cmd, false);
            var p := FindProposal(s'.nodes[n].peer.queue, |x.log| + 1, x.term).matched;
            && p.Some?
            && (p.value.client == |s.requests| <==>
                  forall i :: 0 <= i < |x.peer.queue| ==>
                    x.peer.queue[i].index != |x.log| + 1 || x.peer.queue[i].term != x.term)
            && (Accepted(s'.requests, p.value.client) <==> p.value.client == |s.requests|)
  {
    var x, s' := s.nodes[n], DoSubmit(s, n, cmd, false);
    var p := Proposal(|x.log| + 1, x.term, |s.requests|);
    assert NodeOk(s, n) && TrackOk(x, s);
    NewIsLast(x, s, p);
    LastIsFound(x.peer.queue, p);
    NewIsTracked(s, n, cmd, false);
    SubmitKeepsTrack(s, n, cmd, false);
    var m := FindProposal(x.peer.queue + [p], p.index, p.term).matched.value;
    FoundIsTracked(s'.nodes[n], s', m);
    if m.client != p.client {
      OneIsAccepted(m, p, s');
    }
  }

  lemma FoundIsTracked(x: Node, s: State, m: Proposal)
    requires TrackOk(x, s) && m in x.peer.queue
    ensures Tracked(m, s.reigns, s.requests)
  {
  }

  ghost predicate AllAccepted(q: seq<Proposal>, requests: seq<Request>) {
    forall i :: 0 <= i < |q| ==> Accepted(requests, q[i].client)
  }

  ghost predicate AnswersAccepted(events: seq<Event>, requests: seq<Request>) {
    forall x :: 0 <= x < |events| && events[x].Answered? && !events[x].outcome.NotLeader? ==>
      Accepted(requests, events[x].client)
  }

  /** With no proposal refused, everybody waiting or answered by the peer itself was accepted. */
  ghost predicate EveryoneAccepted(s: State) {
    && (forall n :: 0 <= n < |s.nodes| ==> AllAccepted(s.nodes[n].peer.queue, s.requests))
    && AnswersAccepted(s.history, s.requests)
  }

  lemma AcceptedParts(q: seq<Proposal>, leader: bool, e: Entry, requests: seq<Request>)
    requires AllAccepted(q, requests)
    ensures var f := Settle(q, leader, e);
            && AllAccepted(f.rejected, requests) && AllAccepted(ToSeq(f.matched), requests)
            && AllAccepted(f.rest, requests)
  {
    var f := FindProposal(q, e.index, e.term);
    FindSplits(q, e.index, e.term);
    var m := |q| - |f.rest|;
    assert f.rejected == q[..|f.rejected|] && f.rest == q[m..];
    assert f.matched.Some? ==> f.matched.value == q[|f.rejected|];
  }

  lemma AnswersConcat(a: seq<Event>, b: seq<Event>, requests: seq<Request>)
    requires AnswersAccepted(a, requests) && AnswersAccepted(b, requests)
    ensures AnswersAccepted(a + b, requests)
  {
  }

  lemma RejectionsAccepted(ps: seq<Proposal>, index: nat, term: nat, requests: seq<Request>)
    requires AllAccepted(ps, requests)
    ensures AnswersAccepted(StaleAnswers(ps), requests)
    ensures AnswersAccepted(SweptAnswers(ps, index, term), requests)
  {
  }

  lemma ReplyAccepted(s: PeerState, e: Entry, p: Option<Proposal>, requests: seq<Request>)
    requires AllAccepted(ToSeq(p), requests)
    ensures AnswersAccepted(ProcessNormal(s, e, p).events, requests)
  {
    assert p.Some? ==> Accepted(requests, ToSeq(p)[0].client);
  }

  /** An entry answers only clients that were waiting. */
  lemma OnlyWaitingAreAnswered(s: PeerState, leader: bool, e: Entry, requests: seq<Request>)
    requires AllAccepted(s.queue, requests)
    ensures var a := ProcessEntry(s, leader, e);
            AllAccepted(a.state.queue, requests) && AnswersAccepted(a.events, requests)
  {
    var f := Settle(s.queue, leader, e);
    AcceptedParts(s.queue, leader, e, requests);
    RejectionsAccepted(f.rejected, e.index, e.term, requests);
    ReplyAccepted(s.(queue := f.rest), e, f.matched, requests);
    AnswersConcat(if leader then StaleAnswers(f.rejected) else SweptAnswers(f.rejected, e.index, e.term),
                  ProcessNormal(s.(queue := f.rest), e, f.matched).events, requests);
    ProcessEntryQueue(s, leader, e);
  }

  lemma StepKeepsEveryoneAccepted(s: State, step: Step)
    requires EveryoneAccepted(s) && Enabled(s, step) && !Drops(step)
    ensures EveryoneAccepted(Do(s, step))
  {
    var s' := Do(s, step);
    if step.ApplyOne? {
      var x := s.nodes[step.n];
      OnlyWaitingAreAnswered(x.peer, x.leader, x.log[x.applied], s.requests);
      AnswersConcat(s.history, ProcessEntry(x.peer, x.leader, x.log[x.applied]).events, s.requests);
    }
    forall m | 0 <= m < |s'.nodes|
      ensures AllAccepted(s'.nodes[m].peer.queue, s'.requests)
    {
      assert AllAccepted(s.nodes[m].peer.queue, s.requests);
    }
  }
}
