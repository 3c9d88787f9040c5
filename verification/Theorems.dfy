/** What holds in every run of the cluster, for any number of nodes and any schedule. */
module Theorems {
  import opened KvModel
  import opened PeerLogic
  import opened Cluster
  import opened Counting
  import opened RaftEnvironment
  import opened ProposalQueue
  import opened Acceptance
  import opened Rejections
  import opened Replay
  import opened Linearizability
  import opened Conservation

  ghost predicate Inv(s: State) {
    EnvInv(s) && BornInv(s) && TrackInv(s) && ReplayInv(s) && HistoryInv(s)
  }

  lemma {:induction false} InvHolds(trace: seq<State>, steps: seq<Step>, i: nat)
    requires Execution(trace, steps) && i < |trace|
    ensures Inv(trace[i])
  {
    if i > 0 {
      InvHolds(trace, steps, i - 1);
      StepKeepsEnv(trace[i - 1], steps[i - 1]);
      StepKeepsBorn(trace[i - 1], steps[i - 1]);
      StepKeepsTrack(trace[i - 1], steps[i - 1]);
      StepKeepsReplay(trace[i - 1], steps[i - 1]);
      StepKeepsHistory(trace[i - 1], steps[i - 1]);
    }
  }

  /** What holds besides if Raft accepts every proposal. */
  lemma {:induction false} QueueHolds(trace: seq<State>, steps: seq<Step>, i: nat)
    requires Execution(trace, steps) && NeverDrops(steps) && i < |trace|
    ensures QueueInv(trace[i]) && EveryoneAccepted(trace[i])
  {
    if i > 0 {
      QueueHolds(trace, steps, i - 1);
      InvHolds(trace, steps, i - 1);
      StepKeepsQueue(trace[i - 1], steps[i - 1]);
      StepKeepsEveryoneAccepted(trace[i - 1], steps[i - 1]);
    }
  }

  /** What the cluster may rely on in Raft, in every run: one leader per term, and Log Matching
      between the logs of any two nodes. */
  lemma RaftGuarantees(trace: seq<State>, steps: seq<Step>, i: nat, n: nat, m: nat, k: nat)
    requires Execution(trace, steps) && i < |trace| && n < |trace[i].nodes| && m < |trace[i].nodes|
    ensures var x, y := trace[i].nodes[n], trace[i].nodes[m];
            && (x.leader && y.leader && x.term == y.term ==> n == m)
            && (k < |x.log| && k < |y.log| && x.log[k].term == y.log[k].term ==> Agree(x.log, y.log, k + 1))
            && Agree(x.log, trace[i].committed, x.commit) && x.applied <= x.commit
  {
    InvHolds(trace, steps, i);
    var s := trace[i];
    assert NodeOk(s, n) && NodeOk(s, m);
    if k < |s.nodes[n].log| && k < |s.nodes[m].log| && s.nodes[n].log[k].term == s.nodes[m].log[k].term {
      LogMatching(s.nodes[n].log, s.nodes[m].log, s.reigns, s.requests, k);
    }
  }

  lemma {:induction false} RunGrows(trace: seq<State>, steps: seq<Step>, i: nat, j: nat)
    requires Execution(trace, steps) && i <= j < |trace|
    ensures Grows(trace[i], trace[j])
    decreases j
  {
    if i < j {
      RunGrows(trace, steps, i, j - 1);
      InvHolds(trace, steps, j - 1);
      StepGrows(trace[j - 1], steps[j - 1]);
    }
  }

  /** Linearizability, exactly. At every moment of every run, whatever Raft does with the
      proposals, the committed log orders only submitted requests, each once, and respects real
      time; and it is a linearization of the answers given so far if and only if no client
      whose proposal Raft refused was told of a success. Later orders only extend earlier ones. */
  lemma Linearizable(trace: seq<State>, steps: seq<Step>, i: nat, j: nat)
    requires Execution(trace, steps) && i <= j < |trace|
    ensures var s := trace[i];
            && OnlySubmitted(s.committed, s.history, s.requests)
            && RespectsRealTime(s.committed, s.history)
            && (AnswersFit(s.committed, s.history) <==> SuccessesAccepted(s.history, s.requests))
            && (Linearizes(s.committed, s.history, s.requests) <==> SuccessesAccepted(s.history, s.requests))
    ensures Agree(trace[i].committed, trace[j].committed, |trace[i].committed|)
    ensures trace[i].history <= trace[j].history
  {
    InvHolds(trace, steps, i);
    CommittedLogLinearizes(trace[i]);
    RunGrows(trace, steps, i, j);
  }

  /** Answer by answer: a success is the sequential reply at the client's own place in the order
      if and only if Raft accepted that client's proposal. */
  lemma SuccessIsRight(trace: seq<State>, steps: seq<Step>, i: nat, x: nat)
    requires Execution(trace, steps) && i < |trace|
    requires x < |trace[i].history| && trace[i].history[x].Answered? && trace[i].history[x].outcome.Done?
    ensures var answer := trace[i].history[x];
            SuccessFits(answer.client, answer.outcome.index, answer.outcome.value, trace[i].committed)
            <==> Accepted(trace[i].requests, answer.client)
  {
    InvHolds(trace, steps, i);
    SuccessIsRightIfAccepted(trace[i], x);
  }

  /** If Raft accepts every proposal, every history is linearizable. */
  lemma LinearizableWithoutDrops(trace: seq<State>, steps: seq<Step>, i: nat)
    requires Execution(trace, steps) && NeverDrops(steps) && i < |trace|
    ensures Linearizes(trace[i].committed, trace[i].history, trace[i].requests)
  {
    QueueHolds(trace, steps, i);
    Linearizable(trace, steps, i, i);
  }

  lemma NotLeaderIsAbsent(s: State, x: nat)
    requires EnvInv(s) && HistoryInv(s)
    requires x < |s.history| && s.history[x].Answered? && s.history[x].outcome.NotLeader?
    ensures !InOrder(s.history[x].client, s.committed)
  {
    assert EventOk(s.history[x], s);
    OrderedIsAccepted(s.history[x].client, s);
  }

  /** What is known of a proposal that was refused with these numbers. */
  lemma RefusedProposal(s: State, x: nat)
    requires HistoryInv(s) && x < |s.history| && s.history[x].Answered?
    requires Refusal(s.history[x].outcome) && !s.history[x].outcome.NotLeader?
    ensures Settled(Proposal(s.history[x].outcome.index, s.history[x].outcome.term, s.history[x].client), s)
  {
    assert EventOk(s.history[x], s);
  }

  lemma SettledExactly(p: Proposal, s: State)
    requires EnvInv(s) && BornInv(s) && HistoryInv(s) && Settled(p, s)
    ensures InOrder(p.client, s.committed) <==>
            Accepted(s.requests, p.client) && Mistold(p.index, p.term, s.history, s.requests)
  {
    SettledIsFixed(p, s, s);
    OrderedIsAccepted(p.client, s);
    if Accepted(s.requests, p.client) {
      assert BornOk(p.client, s.reigns, s.requests);
      MistoldIsOrdered(p.client, s);
    }
  }

  /** A refusal settles the fate of the request: it is committed later if and only if it already
      was; and it was if and only if Raft had accepted it and some client whose proposal Raft
      refused was told that this entry was its own. */
  lemma RefusalSettles(trace: seq<State>, steps: seq<Step>, i: nat, j: nat, x: nat)
    requires Execution(trace, steps) && i <= j < |trace|
    requires x < |trace[i].history| && trace[i].history[x].Answered? && Refusal(trace[i].history[x].outcome)
    ensures var s := trace[i];
            var c, o := s.history[x].client, s.history[x].outcome;
            && (InOrder(c, trace[j].committed) <==> InOrder(c, s.committed))
            && (InOrder(c, s.committed) <==>
                  !o.NotLeader? && Accepted(s.requests, c) && Mistold(o.index, o.term, s.history, s.requests))
  {
    InvHolds(trace, steps, i);
    InvHolds(trace, steps, j);
    RunGrows(trace, steps, i, j);
    var c, o := trace[i].history[x].client, trace[i].history[x].outcome;
    if o.NotLeader? {
      NotLeaderIsAbsent(trace[i], x);
      NotLeaderIsAbsent(trace[j], x);
    } else {
      RefusedProposal(trace[i], x);
      SettledIsFixed(Proposal(o.index, o.term, c), trace[i], trace[j]);
      SettledExactly(Proposal(o.index, o.term, c), trace[i]);
    }
  }

  /** If Raft accepts every proposal, a request rejected by the lookup, or swept for an entry
      that it precedes, is not in the committed log and never enters it. */
  lemma StaleRejectionIsFinal(trace: seq<State>, steps: seq<Step>, i: nat, j: nat, x: nat, k: nat)
    requires Execution(trace, steps) && NeverDrops(steps) && i <= j < |trace|
    requires x < |trace[i].history| && trace[i].history[x].Answered? && Refusal(trace[i].history[x].outcome)
    requires !trace[i].history[x].outcome.NotLeader?
    requires k < |trace[j].committed|
    ensures var answer := trace[i].history[x];
            var e := trace[j].committed[k];
            && e.origin != Some(answer.client)
            && (e.index, e.term) != (answer.outcome.index, answer.outcome.term)
  {
    InvHolds(trace, steps, j);
    QueueHolds(trace, steps, j);
    RunGrows(trace, steps, i, j);
    var answer := trace[j].history[x];
    assert EventOk(answer, trace[j]);
    assert EntryOk(trace[j].committed[k], trace[j].requests);
  }

  /** A request swept for an entry of its own term, whose index is not below its own, is
      committed if Raft accepted it. For the entry at its own index, the client is told
      `rejected` in the very step that executes its request; for an entry behind that one,
      somebody else was told of its success. */
  lemma SweptInItsTerm(trace: seq<State>, steps: seq<Step>, i: nat, x: nat)
    requires Execution(trace, steps) && i < |trace|
    requires x < |trace[i].history| && trace[i].history[x].Answered? && trace[i].history[x].outcome.Swept?
    requires var o := trace[i].history[x].outcome; o.term == o.atTerm && o.index <= o.atIndex
    ensures var c, o := trace[i].history[x].client, trace[i].history[x].outcome;
            && (Accepted(trace[i].requests, c) <==> Ordered(c, trace[i].committed, o.index - 1))
            && (Accepted(trace[i].requests, c) && o.index < o.atIndex ==>
                  Mistold(o.index, o.term, trace[i].history, trace[i].requests))
  {
    SweptIsOrdered(trace[i], x) by {
      InvHolds(trace, steps, i);
    }
  }

  lemma SweptIsOrdered(s: State, x: nat)
    requires Inv(s)
    requires x < |s.history| && s.history[x].Answered? && s.history[x].outcome.Swept?
    requires var o := s.history[x].outcome; o.term == o.atTerm && o.index <= o.atIndex
    ensures var c, o := s.history[x].client, s.history[x].outcome;
            && (Accepted(s.requests, c) <==> Ordered(c, s.committed, o.index - 1))
            && (Accepted(s.requests, c) && o.index < o.atIndex ==>
                  Mistold(o.index, o.term, s.history, s.requests))
  {
    var c, o := s.history[x].client, s.history[x].outcome;
    assert EventOk(s.history[x], s);
    SweptOkOrdered(Proposal(o.index, o.term, c), o.atIndex, s);
  }

  lemma SweptOkOrdered(p: Proposal, atIndex: nat, s: State)
    requires EnvInv(s) && BornInv(s) && HistoryInv(s)
    requires SweptOk(p, atIndex, p.term, s) && p.index <= atIndex
    ensures Accepted(s.requests, p.client) <==> Ordered(p.client, s.committed, p.index - 1)
    ensures Accepted(s.requests, p.client) && p.index < atIndex ==>
              Mistold(p.index, p.term, s.history, s.requests)
  {
    assert Ordered(p.client, s.committed, p.index - 1) ==> InOrder(p.client, s.committed);
    OrderedIsAccepted(p.client, s);
    if Accepted(s.requests, p.client) {
      assert BornOk(p.client, s.reigns, s.requests);
      BornIsOrdered(p.client, s, atIndex);
      if p.index < atIndex {
        SettledExactly(p, s);
      }
    }
  }

  /** If Raft accepts every proposal, no sweep for an entry finds one of the same term before it. */
  lemma SweptAtOrAfter(trace: seq<State>, steps: seq<Step>, i: nat, x: nat)
    requires Execution(trace, steps) && NeverDrops(steps) && i < |trace|
    requires x < |trace[i].history| && trace[i].history[x].Answered? && trace[i].history[x].outcome.Swept?
    requires trace[i].history[x].outcome.term == trace[i].history[x].outcome.atTerm
    ensures trace[i].history[x].outcome.index >= trace[i].history[x].outcome.atIndex
  {
    QueueHolds(trace, steps, i);
    if trace[i].history[x].outcome.index < trace[i].history[x].outcome.atIndex {
      SweptInItsTerm(trace, steps, i, x);
    }
  }

  /** Whether the next entry of node `n` tells client `c` of a success. */
  ghost predicate Succeeds(s: State, n: nat, c: nat)
    requires n < |s.nodes| && s.nodes[n].applied < |s.nodes[n].log|
  {
    var x := s.nodes[n];
    ToldSuccess(ProcessEntry(x.peer, x.leader, x.log[x.applied]).events, c)
  }

  /** The accepted proposal at position `k` of the queue waits for the entry about to be applied. */
  ghost predicate WaitsForNext(s: State, n: nat, k: nat) {
    && Enabled(s, ApplyOne(n)) && k < |s.nodes[n].peer.queue|
    && var x := s.nodes[n];
       var e, p := x.log[x.applied], x.peer.queue[k];
       p.index == e.index && p.term == e.term && Accepted(s.requests, p.client)
  }

  /** A follower that applies the entry of a client waiting on it executes the request and, in
      the same step, tells the client that it was rejected. */
  lemma OwnEntryIsSwept(trace: seq<State>, steps: seq<Step>, i: nat, n: nat, k: nat)
    requires Execution(trace, steps) && i < |trace| && WaitsForNext(trace[i], n, k) && !trace[i].nodes[n].leader
    ensures var s, s' := trace[i], DoApplyOne(trace[i], n);
            var x := s.nodes[n];
            var e, p := x.log[x.applied], x.peer.queue[k];
            && e.origin == Some(p.client) && Ordered(p.client, s.committed, x.applied)
            && s'.nodes[n].peer.db == Exec(x.peer.db, e.cmd)
            && Answered(p.client, Swept(p.index, p.term, e.index, e.term)) in s'.history
  {
    var s, s' := trace[i], DoApplyOne(trace[i], n);
    var x := s.nodes[n];
    var e := x.log[x.applied];
    InvHolds(trace, steps, i);
    assert TrackOk(x, s) && Tracked(x.peer.queue[k], s.reigns, s.requests);
    NextEntry(s, n);
    ProcessEntryStore(x.peer, false, e);
    assert s'.history[|s.history| + k] == SweptAnswers(x.peer.queue, e.index, e.term)[k];
  }

  /** Exactly when a client is told of the success of its own request. Its entry is applied while
      its accepted proposal waits here: the step answers it with a success, the sequential reply,
      if and only if this peer still leads, the entry does not read a missing key, and no other
      proposal with the same numbers waits ahead of it; by `OthersAreRefused`, Raft must have
      refused such a one. */
  lemma OwnEntryIsAnswered(trace: seq<State>, steps: seq<Step>, i: nat, n: nat, k: nat)
    requires Execution(trace, steps) && i < |trace| && WaitsForNext(trace[i], n, k)
    ensures var s := trace[i];
            var x := s.nodes[n];
            var e, c := x.log[x.applied], x.peer.queue[k].client;
            && x.applied < |s.committed|
            && (Succeeds(s, n, c) <==>
                  x.leader && !ReadsMissing(s.committed, x.applied) && FirstWithNumbers(x.peer.queue, k))
            && (Succeeds(s, n, c) ==>
                  Answered(c, Done(e.index, e.term, SequentialReply(s.committed, x.applied)))
                  in DoApplyOne(s, n).history)
  {
    assert Inv(trace[i]) by {
      InvHolds(trace, steps, i);
    }
    SuccessExactly(trace[i], n, k);
    SuccessIsSequential(trace[i], n, trace[i].nodes[n].peer.queue[k].client);
  }

  lemma SuccessExactly(s: State, n: nat, k: nat)
    requires Inv(s) && WaitsForNext(s, n, k)
    ensures var x := s.nodes[n];
            && x.applied < |s.committed|
            && (Succeeds(s, n, x.peer.queue[k].client) <==>
                  x.leader && !ReadsMissing(s.committed, x.applied) && FirstWithNumbers(x.peer.queue, k))
  {
    var x := s.nodes[n];
    var e := x.log[x.applied];
    assert TrackOk(x, s);
    MatchedIsOwnIfAccepted(s, n);
    HaltsExactlyOnMissingRead(s, n);
    FoundIfFirst(x.peer.queue, k);
    SuccessOfEntry(x.peer, x.leader, e, x.peer.queue[k]);
  }

  /** A success for the next entry is the sequential reply to it. */
  lemma SuccessIsSequential(s: State, n: nat, c: nat)
    requires Inv(s) && Enabled(s, ApplyOne(n))
    ensures var x := s.nodes[n];
            var e := x.log[x.applied];
            && x.applied < |s.committed|
            && (Succeeds(s, n, c) ==>
                  Answered(c, Done(e.index, e.term, SequentialReply(s.committed, x.applied)))
                  in DoApplyOne(s, n).history)
  {
    var x := s.nodes[n];
    assert ReplayOk(x, s.committed);
    NextEntry(s, n);
    ReplyIsSequentialSuccess(x, s.committed, c);
  }

  lemma ReplyIsSequentialSuccess(x: Node, committed: seq<Entry>, c: nat)
    requires ReplayOk(x, committed)
    requires x.applied < |x.log| && x.applied < |committed| && x.log[x.applied] == committed[x.applied]
    ensures var e := x.log[x.applied];
            var events := ProcessEntry(x.peer, x.leader, e).events;
            ToldSuccess(events, c) ==>
              Answered(c, Done(e.index, e.term, SequentialReply(committed, x.applied))) in events
  {
    var e := x.log[x.applied];
    if e.cmd.Get? {
      NextGetIsSequential(x, committed);
    }
    var f := Settle(x.peer.queue, x.leader, e);
    var events := ProcessEntry(x.peer, x.leader, e).events;
    if ToldSuccess(events, c) {
      var y :| 0 <= y < |events| && IsSuccess(events[y], c);
      assert y == |f.rejected|;
    }
  }

  /** A longer run that begins like this one. */
  ghost predicate Continues(trace: seq<State>, steps: seq<Step>, trace': seq<State>, steps': seq<Step>) {
    Execution(trace', steps') && trace <= trace' && steps <= steps'
  }

  ghost predicate CanCommit(trace: seq<State>, steps: seq<Step>, c: nat) {
    exists trace': seq<State>, steps': seq<Step> ::
      Continues(trace, steps, trace', steps') && InOrder(c, trace'[|trace'| - 1].committed)
  }

  /** A branch once left is never returned to: if the committed log does not run along the log
      of the leader that accepted a request, the request is not in the order, then or later. */
  lemma LeftBranchIsFinal(trace: seq<State>, steps: seq<Step>, i: nat, j: nat, c: nat)
    requires Execution(trace, steps) && i <= j < |trace|
    requires Accepted(trace[i].requests, c) && !OnBranch(c, trace[i])
    ensures Accepted(trace[j].requests, c) && !OnBranch(c, trace[j]) && !InOrder(c, trace[j].committed)
  {
    InvHolds(trace, steps, i);
    InvHolds(trace, steps, j);
    RunGrows(trace, steps, i, j);
    assert BornOk(c, trace[i].reigns, trace[i].requests);
    StaysOffBranch(c, trace[i], trace[j]);
  }

  lemma StaysOffBranch(c: nat, s: State, s': State)
    requires EnvInv(s') && Grows(s, s')
    requires Accepted(s.requests, c) && BornOk(c, s.reigns, s.requests) && !OnBranch(c, s)
    ensures Accepted(s'.requests, c) && !OnBranch(c, s') && !InOrder(c, s'.committed)
  {
    if OnBranch(c, s') {
      OnBranchBefore(c, s, s');
    }
    if InOrder(c, s'.committed) {
      OrderedIsOnBranch(c, s');
    }
  }

  lemma BranchCanCommit(trace: seq<State>, steps: seq<Step>, c: nat)
    requires Execution(trace, steps) && Accepted(trace[|trace| - 1].requests, c)
    requires OnBranch(c, trace[|trace| - 1])
    ensures CanCommit(trace, steps, c)
  {
    var s := trace[|trace| - 1];
    InvHolds(trace, steps, |trace| - 1);
    assert BornOk(c, s.reigns, s.requests);
    var (index, term) := s.requests[c].birth.value;
    BranchCommits(c, s);
    if |s.committed| < index {
      ExecutionSnoc(trace, steps, Commit(term, index));
      assert Continues(trace, steps, trace + [Do(s, Commit(term, index))], steps + [Commit(term, index)]);
    } else {
      assert Continues(trace, steps, trace, steps);
    }
  }

  /** In the environment of `Cluster`, leaving the branch is also the only thing that keeps an
      accepted request, swept or not, from being committed in some continuation. A continuation
      may commit along the log of a leader that no longer runs. */
  lemma CommitsOnItsBranch(trace: seq<State>, steps: seq<Step>, c: nat)
    requires Execution(trace, steps) && Accepted(trace[|trace| - 1].requests, c)
    ensures CanCommit(trace, steps, c) <==> OnBranch(c, trace[|trace| - 1])
  {
    if OnBranch(c, trace[|trace| - 1]) {
      BranchCanCommit(trace, steps, c);
    } else if CanCommit(trace, steps, c) {
      var trace': seq<State>, steps': seq<Step> :|
        Continues(trace, steps, trace', steps') && InOrder(c, trace'[|trace'| - 1].committed);
      LeftBranchIsFinal(trace', steps', |trace| - 1, |trace'| - 1, c);
    }
  }

  /** The waiting proposals are strictly increasing in (term, index), and all of them are behind
      the last entry that their peer has applied; so none of them waits for an applied entry. */
  lemma QueueIsOrderedAndAhead(trace: seq<State>, steps: seq<Step>, i: nat, n: nat)
    requires Execution(trace, steps) && NeverDrops(steps) && i < |trace| && n < |trace[i].nodes|
    ensures var x := trace[i].nodes[n];
            && StrictlySorted(x.peer.queue)
            && x.applied <= |x.log|
            && (forall k :: 0 <= k < |x.peer.queue| && 0 < x.applied ==>
                  Before(Proposal(x.applied, x.log[x.applied - 1].term, 0),
                         x.peer.queue[k].index, x.peer.queue[k].term))
            && (forall k, a :: 0 <= k < |x.peer.queue| && 0 <= a < x.applied ==>
                  (x.log[a].index, x.log[a].term) != (x.peer.queue[k].index, x.peer.queue[k].term))
  {
    InvHolds(trace, steps, i);
    QueueHolds(trace, steps, i);
    var s := trace[i];
    var x := s.nodes[n];
    assert NodeOk(s, n) && QueueOk(x, s.reigns, s.committed);
    assert 0 < x.applied ==> x.log[x.applied - 1] == s.committed[x.applied - 1];
    forall k, a | 0 <= k < |x.peer.queue| && 0 <= a < x.applied
      ensures (x.log[a].index, x.log[a].term) != (x.peer.queue[k].index, x.peer.queue[k].term)
    {
      AheadIsNotCommitted(x.peer.queue[k], s, x.applied);
      assert x.log[a] == s.committed[a];
    }
  }

  /** The same-term branch of `GetProposal` that rejects a smaller index is dead, and the
      proposal it returns is the one whose request the committed entry carries; it returns none
      only if that client is not waiting here. */
  lemma LookupIsExact(trace: seq<State>, steps: seq<Step>, i: nat, n: nat)
    requires Execution(trace, steps) && NeverDrops(steps) && i < |trace|
    requires Enabled(trace[i], ApplyOne(n)) && trace[i].nodes[n].leader
    ensures var x := trace[i].nodes[n];
            var e := x.log[x.applied];
            var f := FindProposal(x.peer.queue, e.index, e.term);
            && (forall k :: 0 <= k < |f.rejected| ==> f.rejected[k].term < e.term)
            && (f.matched.Some? ==>
                  && e.origin == Some(f.matched.value.client)
                  && f.matched.value.client < |trace[i].requests|
                  && trace[i].requests[f.matched.value.client].cmd == e.cmd)
            && (f.matched.None? ==>
                  forall k :: 0 <= k < |x.peer.queue| ==> e.origin != Some(x.peer.queue[k].client))
  {
    QueueHolds(trace, steps, i);
    InvHolds(trace, steps, i);
    var s := trace[i];
    RejectsOnlyEarlierTerms(s, n);
    MatchedIsOwn(s, n);
    var x := s.nodes[n];
    var e := x.log[x.applied];
    assert NodeOk(s, n) && QueueOk(x, s.reigns, s.committed);
    assert EntryOk(e, s.requests);
    FindProposalPartitions(x.peer.queue, e.index, e.term);
    forall k | 0 <= k < |x.peer.queue| && e.origin == Some(x.peer.queue[k].client)
      ensures x.peer.queue[k].index == e.index && x.peer.queue[k].term == e.term
    {
      BackedIsBorn(x.peer.queue[k], s);
    }
  }

  /** The lookup in any run, with refused proposals waiting: the proposal it returns is the
      entry's own if and only if it was accepted; it returns none only if the entry's client is
      not waiting here; and it takes the same-term branch on an accepted proposal only if
      somebody else was told that the entry was theirs. */
  lemma LookupWithDrops(trace: seq<State>, steps: seq<Step>, i: nat, n: nat)
    requires Execution(trace, steps) && i < |trace|
    requires Enabled(trace[i], ApplyOne(n)) && trace[i].nodes[n].leader
    ensures var s := trace[i];
            var x := s.nodes[n];
            var e := x.log[x.applied];
            var f := FindProposal(x.peer.queue, e.index, e.term);
            && (f.matched.Some? ==>
                  (e.origin == Some(f.matched.value.client) <==> Accepted(s.requests, f.matched.value.client)))
            && (f.matched.None? ==>
                  forall k :: 0 <= k < |x.peer.queue| ==> e.origin != Some(x.peer.queue[k].client))
            && (forall k :: 0 <= k < |f.rejected| ==>
                  Accepted(s.requests, f.rejected[k].client) && f.rejected[k].term == e.term ==>
                    Mistold(f.rejected[k].index, f.rejected[k].term, s.history, s.requests))
  {
    InvHolds(trace, steps, i);
    var s := trace[i];
    var x := s.nodes[n];
    var e := x.log[x.applied];
    var f := FindProposal(x.peer.queue, e.index, e.term);
    MatchedIsOwnIfAccepted(s, n);
    NextEntry(s, n);
    assert TrackOk(x, s);
    forall k | 0 <= k < |x.peer.queue| && f.matched.None?
      ensures e.origin != Some(x.peer.queue[k].client)
    {
      NotFoundIsNotOwn(s, n, k);
    }
    forall k | 0 <= k < |f.rejected| && Accepted(s.requests, f.rejected[k].client) && f.rejected[k].term == e.term
      ensures Mistold(f.rejected[k].index, f.rejected[k].term, s.history, s.requests)
    {
      assert f.rejected[k] == x.peer.queue[k] && Tracked(x.peer.queue[k], s.reigns, s.requests);
      SameTermIsCommitted(s, n, x.peer.queue[k]);
    }
  }

  lemma NotFoundIsNotOwn(s: State, n: nat, k: nat)
    requires Inv(s) && Enabled(s, ApplyOne(n)) && k < |s.nodes[n].peer.queue|
    ensures var x := s.nodes[n];
            var e := x.log[x.applied];
            FindProposal(x.peer.queue, e.index, e.term).matched.None? ==> e.origin != Some(x.peer.queue[k].client)
  {
    var x := s.nodes[n];
    var e := x.log[x.applied];
    NextEntry(s, n);
    assert TrackOk(x, s) && Tracked(x.peer.queue[k], s.reigns, s.requests);
    if e.origin == Some(x.peer.queue[k].client) {
      BackedIsBorn(x.peer.queue[k], s);
      if |x.peer.queue| - |FindProposal(x.peer.queue, e.index, e.term).rest| <= k {
        RestSharesNumbers(x.peer.queue, e.index, e.term, k);
      }
    }
  }

  /** Two peers that have applied the same prefix, each at least as far as in any earlier
      life, hold the same map: the sequential one. The peers may be looked at at different
      times, and nothing depends on their leadership or on restarts. */
  lemma ReplicasAgree(trace: seq<State>, steps: seq<Step>, i: nat, n: nat, j: nat, m: nat)
    requires Execution(trace, steps) && i <= j < |trace| && n < |trace[i].nodes| && m < |trace[j].nodes|
    requires trace[i].nodes[n].applied == trace[j].nodes[m].applied
    requires trace[i].nodes[n].applied == trace[i].nodes[n].peak
    requires trace[j].nodes[m].applied == trace[j].nodes[m].peak
    ensures trace[i].nodes[n].applied <= |trace[i].committed|
    ensures trace[i].nodes[n].peer.db == After(trace[i].committed, trace[i].nodes[n].applied)
    ensures trace[j].nodes[m].peer.db == trace[i].nodes[n].peer.db
  {
    InvHolds(trace, steps, i);
    InvHolds(trace, steps, j);
    RunGrows(trace, steps, i, j);
    assert ReplayOk(trace[i].nodes[n], trace[i].committed);
    CaughtUp(trace[i].nodes[n], trace[i].committed);
    CaughtUp(trace[j].nodes[m], trace[j].committed);
    AfterAgree(trace[i].committed, trace[j].committed, trace[i].nodes[n].applied);
  }

  /** What a client reads: every successful Get, in every run, was answered with the value of the
      last committed put of its key before its own entry; writes are answered with no value. The
      entry is the request of the client, if Raft accepted it. */
  lemma GetReadsLastPut(trace: seq<State>, steps: seq<Step>, i: nat, x: nat)
    requires Execution(trace, steps) && i < |trace|
    requires x < |trace[i].history| && trace[i].history[x].Answered? && trace[i].history[x].outcome.Done?
    ensures var s := trace[i];
            var c, o := s.history[x].client, s.history[x].outcome;
            && 1 <= o.index <= |s.committed|
            && var cmd := s.committed[o.index - 1].cmd;
               && (cmd.Get? ==> o.value.Some? && LastPuts(s.committed, o.index - 1, cmd.key, o.value.value))
               && (!cmd.Get? ==> o.value.None?)
               && (Accepted(s.requests, c) ==> cmd == s.requests[c].cmd)
  {
    InvHolds(trace, steps, i);
    var s := trace[i];
    var o := s.history[x].outcome;
    assert EventOk(s.history[x], s);
    var cmd := s.committed[o.index - 1].cmd;
    if cmd.Get? {
      HeldExactly(s.committed, o.index - 1, cmd.key, o.value.value);
    }
    if Accepted(s.requests, s.history[x].client) {
      assert EntryOk(s.committed[o.index - 1], s.requests);
    }
  }

  /** What a database holds: once a key has been written in this life, or the peer has caught up
      with its past, the value of the last applied put of the key, and nothing if the last write
      was a delete or there was none. */
  lemma DatabaseHoldsLastPuts(trace: seq<State>, steps: seq<Step>, i: nat, n: nat, k: Bytes, v: Bytes)
    requires Execution(trace, steps) && i < |trace| && n < |trace[i].nodes|
    ensures var x, c := trace[i].nodes[n], trace[i].committed;
            && x.applied <= |c|
            && (x.applied == x.peak || !Unwritten(c, 0, x.applied, k) ==>
                  && (k in x.peer.db && x.peer.db[k] == v <==> LastPuts(c, x.applied, k, v))
                  && (k !in x.peer.db <==> Unwritten(c, 0, x.applied, k) || LastDeletes(c, x.applied, k)))
  {
    InvHolds(trace, steps, i);
    var x, c := trace[i].nodes[n], trace[i].committed;
    assert ReplayOk(x, c);
    HeldExactly(c, x.applied, k, v);
    AbsentExactly(c, x.applied, k);
    TouchedExactly(c, x.applied, k);
    if x.applied == x.peak {
      CaughtUp(x, c);
    }
  }

  /** When a peer halts, in terms of the log alone: on a Get of a key that no earlier entry
      writes, or that the last one to write it deletes. */
  lemma HaltsOnUnputKey(trace: seq<State>, steps: seq<Step>, i: nat, n: nat)
    requires Execution(trace, steps) && i < |trace| && Enabled(trace[i], ApplyOne(n))
    ensures var x, c := trace[i].nodes[n], trace[i].committed;
            && x.applied < |c|
            && (DoApplyOne(trace[i], n).nodes[n].peer.halted <==>
                  && c[x.applied].cmd.Get?
                  && (Unwritten(c, 0, x.applied, c[x.applied].cmd.key)
                      || LastDeletes(c, x.applied, c[x.applied].cmd.key)))
  {
    InvHolds(trace, steps, i);
    HaltsExactlyOnMissingRead(trace[i], n);
    var x, c := trace[i].nodes[n], trace[i].committed;
    if c[x.applied].cmd.Get? {
      AbsentExactly(c, x.applied, c[x.applied].cmd.key);
    }
  }

  /** In the middle of a replay, in any run with any number of restarts. */
  lemma ReplayConverges(trace: seq<State>, steps: seq<Step>, i: nat, n: nat, k: Bytes)
    requires Execution(trace, steps) && i < |trace| && n < |trace[i].nodes|
    ensures var x := trace[i].nodes[n];
            var c := trace[i].committed;
            && x.applied <= x.peak <= |c|
            && (Touched(c, x.applied, k) ==>
                  && (k in x.peer.db <==> k in After(c, x.applied))
                  && (k in x.peer.db ==> x.peer.db[k] == After(c, x.applied)[k]))
            && (!Touched(c, x.applied, k) && k in x.peer.db ==> Touched(c, x.peak, k))
  {
    InvHolds(trace, steps, i);
    assert ReplayOk(trace[i].nodes[n], trace[i].committed);
  }

  /** Entry `f` is the first that reads a key missing from the sequential map. */
  ghost predicate FirstMissing(committed: seq<Entry>, f: nat) {
    f < |committed| && ReadsMissing(committed, f) && forall i :: 0 <= i < f ==> !ReadsMissing(committed, i)
  }

  /** A peer halts exactly at the first such entry, in this life and in every later one, and
      no peer ever gets past it. */
  lemma HaltsExactlyAtFirstMissing(trace: seq<State>, steps: seq<Step>, i: nat, n: nat, f: nat)
    requires Execution(trace, steps) && i < |trace| && n < |trace[i].nodes|
    ensures var x := trace[i].nodes[n];
            var c := trace[i].committed;
            && (x.peer.halted ==> FirstMissing(c, x.applied))
            && (FirstMissing(c, f) ==> x.peak <= f)
            && (Enabled(trace[i], ApplyOne(n)) ==>
                  (DoApplyOne(trace[i], n).nodes[n].peer.halted <==> FirstMissing(c, x.applied)))
  {
    var s := trace[i];
    InvHolds(trace, steps, i);
    assert ReplayOk(s.nodes[n], s.committed);
    if Enabled(s, ApplyOne(n)) {
      HaltsExactlyOnMissingRead(s, n);
    }
  }

  /** Exactly once: a submitted closure is queued, has run or is lost, once in all, whatever
      Raft does with the proposals. */
  lemma {:induction false} ClosuresConserved(trace: seq<State>, steps: seq<Step>, i: nat, c: nat)
    requires Execution(trace, steps) && i < |trace|
    ensures var s := trace[i];
            && Count(s.history, WasSubmitted, c) == Bit(c < |s.requests|)
            && Waiting(s.nodes, c) + Count(s.history, WasAnswered, c) + Count(s.history, WasLost, c) ==
               Count(s.history, WasSubmitted, c)
  {
    if i > 0 {
      ClosuresConserved(trace, steps, i - 1, c);
      StepConserves(trace[i - 1], steps[i - 1], c);
    } else {
      NobodyWaits(trace[0].nodes, c);
    }
  }

  /** A client that has been answered is answered once, and is not waiting anywhere, then and
      ever after. */
  lemma AnsweredForGood(trace: seq<State>, steps: seq<Step>, i: nat, j: nat, x: nat)
    requires Execution(trace, steps) && i <= j < |trace|
    requires x < |trace[i].history| && trace[i].history[x].Answered?
    ensures var c := trace[i].history[x].client;
            Count(trace[j].history, WasAnswered, c) == 1 && Waiting(trace[j].nodes, c) == 0
  {
    RunGrows(trace, steps, i, j);
    ClosuresConserved(trace, steps, j, trace[i].history[x].client);
    HappenedIsCounted(trace[j].history, x);
  }

  ghost predicate SomeHalted(s: State) {
    exists n :: 0 <= n < |s.nodes| && s.nodes[n].peer.halted
  }

  /** Applying an entry loses a closure only when it halts the process. */
  lemma ApplyLosesOnlyByHalting(s: State, n: nat, c: nat)
    requires EnvInv(s) && TrackInv(s) && Enabled(s, ApplyOne(n))
    ensures var s' := Do(s, ApplyOne(n));
            s'.nodes[n].peer.halted || Count(s'.history, WasLost, c) == Count(s.history, WasLost, c)
  {
    var x := s.nodes[n];
    var e := x.log[x.applied];
    MatchedIsOwnIfAccepted(s, n);
    LostOnlyByHalting(x.peer, x.leader, e, c);
    CountConcat(s.history, ProcessEntry(x.peer, x.leader, e).events, WasLost, c);
  }

  /** Closures are lost only with a process: in a run without restarts in which no process has
      halted, every submitted closure is queued or has run, whatever Raft does with the
      proposals. */
  lemma {:induction false} NothingLostWithoutCrash(trace: seq<State>, steps: seq<Step>, i: nat, c: nat)
    requires Execution(trace, steps) && i < |trace|
    requires forall k :: 0 <= k < |steps| ==> !steps[k].Restart?
    ensures SomeHalted(trace[i]) || Count(trace[i].history, WasLost, c) == 0
  {
    if i > 0 {
      NothingLostWithoutCrash(trace, steps, i - 1, c);
      InvHolds(trace, steps, i - 1);
      StepLosesOnlyByHalting(trace[i - 1], steps[i - 1], c);
    }
  }

  lemma StepLosesOnlyByHalting(s: State, step: Step, c: nat)
    requires EnvInv(s) && TrackInv(s) && Enabled(s, step) && !step.Restart?
    requires SomeHalted(s) || Count(s.history, WasLost, c) == 0
    ensures SomeHalted(Do(s, step)) || Count(Do(s, step).history, WasLost, c) == 0
  {
    if SomeHalted(s) {
      var n :| 0 <= n < |s.nodes| && s.nodes[n].peer.halted;
      assert Do(s, step).nodes[n].peer.halted;
    } else if step.ApplyOne? {
      ApplyLosesOnlyByHalting(s, step.n, c);
    } else if step.Submit? {
      SubmitLosesNothing(s, step.n, step.cmd, step.dropped, c);
    }
  }

  lemma SubmitLosesNothing(s: State, n: nat, cmd: Command, dropped: bool, c: nat)
    requires Enabled(s, Submit(n, cmd, dropped))
    ensures Count(Do(s, Submit(n, cmd, dropped)).history, WasLost, c) == Count(s.history, WasLost, c)
  {
    var h := Do(s, Submit(n, cmd, dropped)).history;
    assert h[..|s.history|] == s.history;
    if |h| == |s.history| + 2 {
      assert h[..|h| - 1][..|s.history|] == s.history;
    }
  }

  /** Consecutive applications of one node's next entries. */
  ghost predicate ApplyRun(trace: seq<State>, n: nat) {
    && |trace| > 0
    && (|trace| > 1 ==>
          var front := trace[..|trace| - 1];
          var last := trace[|trace| - 2];
          && ApplyRun(front, n)
          && Enabled(last, ApplyOne(n)) && trace[|trace| - 1] == DoApplyOne(last, n))
  }

  /** `last` is `s` after node `n` has handled `k` entries with the effect `a` on its peer. */
  ghost predicate BatchEffect(s: State, last: State, n: nat, k: nat, a: Effect)
    requires n < |s.nodes|
  {
    var x := s.nodes[n];
    && last.history == s.history + a.events
    && |last.nodes| == |s.nodes|
    && last.nodes == s.nodes[n := last.nodes[n]]
    && last.nodes[n] == x.(applied := last.nodes[n].applied, peak := last.nodes[n].peak, peer := a.state)
    && (!a.state.halted ==> last.nodes[n].applied == x.applied + k)
  }

  /** `last` is `s` after node `n` has handled a batch of its next `k` entries. */
  ghost predicate BatchDone(s: State, last: State, n: nat, k: nat)
    requires n < |s.nodes| && s.nodes[n].applied + k <= |s.nodes[n].log|
  {
    var x := s.nodes[n];
    BatchEffect(s, last, n, k, ProcessEntries(x.peer, x.leader, x.log[x.applied..x.applied + k]))
  }

  lemma LongerNodeBatch(x: Node, k: nat)
    requires x.applied + k < |x.log|
    ensures var a := ProcessEntries(x.peer, x.leader, x.log[x.applied..x.applied + k]);
            ProcessEntries(x.peer, x.leader, x.log[x.applied..x.applied + k + 1]) ==
            if a.state.halted then a else Then(a, ProcessEntry(a.state, x.leader, x.log[x.applied + k]))
  {
    var batch := x.log[x.applied..x.applied + k + 1];
    assert batch[..k] == x.log[x.applied..x.applied + k];
    assert batch[..k + 1] == batch;
    assert batch[k] == x.log[x.applied + k];
    LongerBatch(x.peer, x.leader, batch, k);
  }

  /** One more entry, with the effect `b` on the peer. */
  lemma EffectStep(s: State, last: State, next: State, n: nat, k: nat, a: Effect, b: Effect)
    requires n < |s.nodes| && BatchEffect(s, last, n, k, a) && !a.state.halted
    requires next.history == last.history + b.events
    requires |next.nodes| == |last.nodes| && next.nodes == last.nodes[n := next.nodes[n]]
    requires var x := last.nodes[n];
             && next.nodes[n] == x.(applied := next.nodes[n].applied, peak := next.nodes[n].peak, peer := b.state)
             && (!b.state.halted ==> next.nodes[n].applied == x.applied + 1)
    ensures BatchEffect(s, next, n, k + 1, Then(a, b))
  {
    ThenAppends(s.history, a, b);
    assert next.nodes == s.nodes[n := next.nodes[n]];
  }

  lemma BatchStep(s: State, last: State, n: nat, k: nat)
    requires n < |s.nodes| && s.nodes[n].applied + k < |s.nodes[n].log|
    requires BatchDone(s, last, n, k) && !last.nodes[n].peer.halted
    ensures BatchDone(s, DoApplyOne(last, n), n, k + 1)
  {
    var x := s.nodes[n];
    LongerNodeBatch(x, k);
    var a := ProcessEntries(x.peer, x.leader, x.log[x.applied..x.applied + k]);
    EffectStep(s, last, DoApplyOne(last, n), n, k, a, ProcessEntry(a.state, x.leader, x.log[x.applied + k]));
  }

  lemma EffectStops(s: State, last: State, n: nat, k: nat, a: Effect)
    requires n < |s.nodes| && BatchEffect(s, last, n, k, a) && a.state.halted
    ensures BatchEffect(s, last, n, k + 1, a)
  {
  }

  lemma BatchStops(s: State, last: State, n: nat, k: nat)
    requires n < |s.nodes| && s.nodes[n].applied + k < |s.nodes[n].log|
    requires BatchDone(s, last, n, k) && last.nodes[n].peer.halted
    ensures BatchDone(s, last, n, k + 1)
  {
    var x := s.nodes[n];
    LongerNodeBatch(x, k);
    EffectStops(s, last, n, k, ProcessEntries(x.peer, x.leader, x.log[x.applied..x.applied + k]));
  }

  lemma ApplyRunSnoc(trace: seq<State>, n: nat)
    requires ApplyRun(trace, n) && Enabled(trace[|trace| - 1], ApplyOne(n))
    ensures ApplyRun(trace + [DoApplyOne(trace[|trace| - 1], n)], n)
  {
    var longer := trace + [DoApplyOne(trace[|trace| - 1], n)];
    assert longer[..|trace|] == trace;
  }

  /** The run of single applications that a batch of `k` entries amounts to. */
  ghost predicate BatchRun(trace: seq<State>, s: State, n: nat, k: nat)
    requires n < |s.nodes| && s.nodes[n].applied + k <= |s.nodes[n].log|
  {
    ApplyRun(trace, n) && trace[0] == s && BatchDone(s, trace[|trace| - 1], n, k)
  }

  lemma BatchRunGrows(trace: seq<State>, s: State, n: nat, k: nat) returns (longer: seq<State>)
    requires Running(s, n) && s.nodes[n].applied + k < s.nodes[n].commit <= |s.nodes[n].log|
    requires BatchRun(trace, s, n, k)
    ensures BatchRun(longer, s, n, k + 1)
  {
    var last := trace[|trace| - 1];
    if last.nodes[n].peer.halted {
      BatchStops(s, last, n, k);
      longer := trace;
    } else {
      BatchStep(s, last, n, k);
      ApplyRunSnoc(trace, n);
      longer := trace + [DoApplyOne(last, n)];
    }
  }

  /** A Ready batch handled by `ProcessEntries` is a run of single applications. */
  lemma {:induction false} BatchIsApplyRun(s: State, n: nat, k: nat) returns (trace: seq<State>)
    requires Running(s, n) && s.nodes[n].applied + k <= s.nodes[n].commit <= |s.nodes[n].log|
    ensures BatchRun(trace, s, n, k)
  {
    if k == 0 {
      trace := [s];
      NoBatch(s, n);
    } else {
      trace := BatchIsApplyRun(s, n, k - 1);
      trace := BatchRunGrows(trace, s, n, k - 1);
    }
  }

  lemma NoBatch(s: State, n: nat)
    requires Running(s, n) && s.nodes[n].applied <= |s.nodes[n].log|
    ensures BatchDone(s, s, n, 0)
  {
  }
}
