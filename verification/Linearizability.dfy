/** The order of the committed log explains the answers given to clients: all of them if every
    success went to a client whose proposal Raft had accepted, and only then. */
module Linearizability {
  import opened KvModel
  import opened PeerLogic
  import opened Cluster
  import opened RaftEnvironment
  import opened Acceptance
  import opened Rejections
  import opened Replay

  /** What the operation at position `j` returns when the log is executed sequentially. */
  function SequentialReply(order: seq<Entry>, j: nat): Option<Bytes>
    requires j < |order|
  {
    if order[j].cmd.Get? && order[j].cmd.key in After(order, j)
    then Some(After(order, j)[order[j].cmd.key])
    else None
  }

  /** Every success is the sequential reply at the client's own place in the order. */
  ghost predicate SuccessFits(c: nat, i: int, v: Option<Bytes>, order: seq<Entry>) {
    Ordered(c, order, i - 1) && !ReadsMissing(order, i - 1) && v == SequentialReply(order, i - 1)
  }

  ghost predicate AnswersFit(order: seq<Entry>, history: seq<Event>) {
    forall x :: 0 <= x < |history| && history[x].Answered? && history[x].outcome.Done? ==>
      SuccessFits(history[x].client, history[x].outcome.index, history[x].outcome.value, order)
  }

  /** Every operation in the order is a submitted request, in its place once. */
  ghost predicate OnlySubmitted(order: seq<Entry>, history: seq<Event>, requests: seq<Request>) {
    && (forall c: nat, j :: Ordered(c, order, j) ==>
          c < |requests| && order[j].cmd == requests[c].cmd && Submitted(c) in history)
    && (forall c: nat, j, k :: Ordered(c, order, j) && Ordered(c, order, k) ==> j == k)
  }

  /** An operation submitted after a success was answered comes later in the order, whether or
      not it is itself ever answered. */
  ghost predicate RespectsRealTime(order: seq<Entry>, history: seq<Event>) {
    forall x, y, j :: 0 <= x < y < |history| && history[x].Answered? && history[x].outcome.Done?
                      && history[y].Submitted? && Ordered(history[y].client, order, j) ==>
                        history[x].outcome.index - 1 < j
  }

  /** A request refused for want of leadership, by the lookup of proposals, or by a sweep for a
      later entry, has no effect. */
  ghost predicate RefusalsAbsent(order: seq<Entry>, history: seq<Event>) {
    forall x, j :: 0 <= x < |history| && history[x].Answered? && Refusal(history[x].outcome) ==>
                     !Ordered(history[x].client, order, j)
  }

  /** No client whose proposal Raft refused was told of a success. */
  ghost predicate SuccessesAccepted(history: seq<Event>, requests: seq<Request>) {
    forall x :: 0 <= x < |history| && history[x].Answered? && history[x].outcome.Done? ==>
      Accepted(requests, history[x].client)
  }

  ghost predicate Linearizes(order: seq<Entry>, history: seq<Event>, requests: seq<Request>) {
    && AnswersFit(order, history)
    && OnlySubmitted(order, history, requests)
    && RespectsRealTime(order, history)
    && RefusalsAbsent(order, history)
  }

  /** What the committed log has to do with an answer, whether or not Raft accepted the
      client's proposal. */
  ghost predicate EventOk(ev: Event, s: State) {
    match ev
    case Submitted(c) => c < |s.requests|
    case Answered(c, Done(i, t, v)) =>
      && c < |s.requests| && 1 <= i <= |s.committed| && s.committed[i - 1].term == t
      && !ReadsMissing(s.committed, i - 1) && v == SequentialReply(s.committed, i - 1)
      && (Accepted(s.requests, c) ==> Ordered(c, s.committed, i - 1))
    case Answered(c, NotLeader) => c < |s.requests| && !Accepted(s.requests, c)
    case Answered(c, Stale(i, t)) => Settled(Proposal(i, t, c), s)
    case Answered(c, Swept(i, t, ai, at)) => SweptOk(Proposal(i, t, c), ai, at, s)
    case Lost(c) => true
  }

  /** Events other than submissions. */
  ghost predicate RepliesOk(events: seq<Event>, s: State) {
    forall i :: 0 <= i < |events| ==> !events[i].Submitted? && EventOk(events[i], s)
  }

  /** A request is committed, if ever, behind everything committed when it was submitted. */
  ghost predicate SeenInv(s: State) {
    && (forall c :: 0 <= c < |s.requests| ==> s.requests[c].seen <= |s.committed| && Submitted(c) in s.history)
    && (forall c: nat, j :: c < |s.requests| && Ordered(c, s.committed, j) ==> s.requests[c].seen <= j)
  }

  /** Every success answered before a submission had been committed by then. */
  ghost predicate AnsweredBefore(history: seq<Event>, requests: seq<Request>) {
    forall x, y :: 0 <= x < y < |history| && history[x].Answered? && history[x].outcome.Done?
                   && history[y].Submitted? && history[y].client < |requests| ==>
                     history[x].outcome.index <= requests[history[y].client].seen
  }

  ghost predicate HistoryInv(s: State) {
    && (forall x :: 0 <= x < |s.history| ==> EventOk(s.history[x], s))
    && SeenInv(s)
    && AnsweredBefore(s.history, s.requests)
  }

  lemma EventOkGrows(ev: Event, s: State, s': State)
    requires Grows(s, s') && LogOk(s'.committed, s'.reigns, s'.requests)
    requires EventOk(ev, s)
    ensures EventOk(ev, s')
  {
    match ev
    case Answered(c, Done(i, t, v)) =>
      AfterAgree(s.committed, s'.committed, i - 1);
    case Answered(c, Stale(i, t)) =>
      SettledForever(Proposal(i, t, c), s, s');
    case Answered(c, Swept(i, t, ai, at)) =>
      SweptOkGrows(Proposal(i, t, c), ai, at, s, s');
    case _ =>
  }

  lemma SeenGrows(s: State, step: Step)
    requires EnvInv(s) && Enabled(s, step) && SeenInv(s)
    ensures SeenInv(Do(s, step))
  {
    var s' := Do(s, step);
    StepGrows(s, step);
    if step.Submit? {
      assert s'.history[|s.history|] == Submitted(|s.requests|);
    }
    forall c: nat, j | c < |s'.requests| && Ordered(c, s'.committed, j)
      ensures s'.requests[c].seen <= j
    {
      if j < |s.committed| {
        assert EntryOk(s.committed[j], s.requests);
        assert Ordered(c, s.committed, j);
      }
    }
  }

  /** Appended events keep the history in order when each new submission has seen the whole
      committed log. */
  lemma HistoryExtends(s: State, s': State, events: seq<Event>)
    requires HistoryInv(s) && Grows(s, s') && SeenInv(s')
    requires LogOk(s'.committed, s'.reigns, s'.requests)
    requires s'.history == s.history + events
    requires forall i :: 0 <= i < |events| ==> EventOk(events[i], s')
    requires forall i :: 0 <= i < |events| ==>
               (events[i].Submitted? ==>
                  events[i].client < |s'.requests| && s'.requests[events[i].client].seen == |s.committed|)
    requires forall i :: 0 < i < |events| ==> !events[i].Submitted?
    ensures HistoryInv(s')
  {
    forall x | 0 <= x < |s.history|
      ensures EventOk(s.history[x], s')
    {
      EventOkGrows(s.history[x], s, s');
    }
    forall x, y | 0 <= x < y < |s'.history| && s'.history[x].Answered? && s'.history[x].outcome.Done?
                  && s'.history[y].Submitted? && s'.history[y].client < |s'.requests|
      ensures s'.history[x].outcome.index <= s'.requests[s'.history[y].client].seen
    {
      assert EventOk(s'.history[x], s');
      if |s.history| <= y {
        assert EventOk(s.history[x], s);
      } else {
        assert EventOk(s.history[y], s);
      }
    }
  }

  lemma RejectedIsOk(s: State, n: nat, i: nat)
    requires EnvInv(s) && TrackInv(s) && Enabled(s, ApplyOne(n))
    requires var x := s.nodes[n];
             i < |Settle(x.peer.queue, x.leader, x.log[x.applied]).rejected|
    ensures var x := s.nodes[n];
            var e := x.log[x.applied];
            var p := Settle(x.peer.queue, x.leader, e).rejected[i];
            SweptOk(p, e.index, e.term, s) && (x.leader ==> Settled(p, s))
  {
    var x := s.nodes[n];
    assert TrackOk(x, s);
    assert Settle(x.peer.queue, x.leader, x.log[x.applied]).rejected[i] == x.peer.queue[i];
    RejectedIsSettled(s, n, x.peer.queue[i]);
  }

  /** What `ProcessEntry` does to the proposals it does not return. */
  lemma RejectionsOk(s: State, n: nat)
    requires EnvInv(s) && TrackInv(s) && Enabled(s, ApplyOne(n))
    ensures var x := s.nodes[n];
            var e := x.log[x.applied];
            var rejected := Settle(x.peer.queue, x.leader, e).rejected;
            RepliesOk(if x.leader then StaleAnswers(rejected) else SweptAnswers(rejected, e.index, e.term), s)
  {
    var x := s.nodes[n];
    var e := x.log[x.applied];
    var rejected := Settle(x.peer.queue, x.leader, e).rejected;
    forall i | 0 <= i < |rejected|
      ensures SweptOk(rejected[i], e.index, e.term, s) && (x.leader ==> Settled(rejected[i], s))
    {
      RejectedIsOk(s, n, i);
    }
  }

  /** The answer triggered by a committed entry is the sequential reply to that entry. */
  lemma ReplyOk(s: State, n: nat)
    requires EnvInv(s) && TrackInv(s) && ReplayInv(s) && Enabled(s, ApplyOne(n))
    ensures var x := s.nodes[n];
            var e := x.log[x.applied];
            var f := Settle(x.peer.queue, x.leader, e);
            RepliesOk(ProcessNormal(x.peer.(queue := f.rest), e, f.matched).events, s)
  {
    var x := s.nodes[n];
    assert ReplayOk(x, s.committed);
    NextEntry(s, n);
    MatchedIsOwnIfAccepted(s, n);
    ReplyIsSequential(x, s);
  }

  lemma ReplyIsSequential(x: Node, s: State)
    requires ReplayOk(x, s.committed)
    requires x.applied < |x.log| && x.applied < |s.committed| && x.log[x.applied] == s.committed[x.applied]
    requires x.log[x.applied].index == x.applied + 1
    ensures var e := x.log[x.applied];
            forall p: Proposal, q: seq<Proposal> ::
              p.client < |s.requests| && (Accepted(s.requests, p.client) ==> e.origin == Some(p.client)) ==>
                RepliesOk(ProcessNormal(x.peer.(queue := q), e, Some(p)).events, s)
  {
    if x.log[x.applied].cmd.Get? {
      NextGetIsSequential(x, s.committed);
    }
  }

  lemma RepliesConcat(a: seq<Event>, b: seq<Event>, s: State)
    requires RepliesOk(a, s) && RepliesOk(b, s)
    ensures RepliesOk(a + b, s)
  {
  }

  lemma ApplyEventsOk(s: State, n: nat)
    requires EnvInv(s) && TrackInv(s) && ReplayInv(s) && Enabled(s, ApplyOne(n))
    ensures var x := s.nodes[n];
            RepliesOk(ProcessEntry(x.peer, x.leader, x.log[x.applied]).events, s)
  {
    var x := s.nodes[n];
    var e := x.log[x.applied];
    ReplyOk(s, n);
    RejectionsOk(s, n);
    var f := Settle(x.peer.queue, x.leader, e);
    RepliesConcat(if x.leader then StaleAnswers(f.rejected) else SweptAnswers(f.rejected, e.index, e.term),
                  ProcessNormal(x.peer.(queue := f.rest), e, f.matched).events, s);
  }

  lemma RepliesGrow(events: seq<Event>, s: State, s': State)
    requires Grows(s, s') && LogOk(s'.committed, s'.reigns, s'.requests)
    requires RepliesOk(events, s)
    ensures RepliesOk(events, s')
  {
    forall i | 0 <= i < |events|
      ensures EventOk(events[i], s')
    {
      EventOkGrows(events[i], s, s');
    }
  }

  lemma ApplyKeepsHistory(s: State, n: nat)
    requires EnvInv(s) && TrackInv(s) && ReplayInv(s) && HistoryInv(s) && Enabled(s, ApplyOne(n))
    ensures HistoryInv(Do(s, ApplyOne(n)))
  {
    var x, s' := s.nodes[n], Do(s, ApplyOne(n));
    StepGrows(s, ApplyOne(n));
    SeenGrows(s, ApplyOne(n));
    ApplyEventsOk(s, n);
    var events := ProcessEntry(x.peer, x.leader, x.log[x.applied]).events;
    RepliesGrow(events, s, s');
    HistoryExtends(s, s', events);
  }

  lemma SubmitKeepsHistory(s: State, n: nat, cmd: Command, dropped: bool)
    requires EnvInv(s) && HistoryInv(s) && Enabled(s, Submit(n, cmd, dropped))
    ensures HistoryInv(Do(s, Submit(n, cmd, dropped)))
  {
    var step := Submit(n, cmd, dropped);
    var c := |s.requests|;
    StepGrows(s, step);
    StepKeepsEnv(s, step);
    SeenGrows(s, step);
    var events := if s.nodes[n].leader then [Submitted(c)] else [Submitted(c), Answered(c, NotLeader)];
    HistoryExtends(s, Do(s, step), events);
  }

  lemma StepKeepsHistory(s: State, step: Step)
    requires EnvInv(s) && TrackInv(s) && ReplayInv(s) && HistoryInv(s) && Enabled(s, step)
    ensures HistoryInv(Do(s, step))
  {
    match step
    case ApplyOne(n) => ApplyKeepsHistory(s, n);
    case Submit(n, cmd, dropped) => SubmitKeepsHistory(s, n, cmd, dropped);
    case _ =>
      StepGrows(s, step);
      StepKeepsEnv(s, step);
      SeenGrows(s, step);
      HistoryExtends(s, Do(s, step), Do(s, step).history[|s.history|..]);
  }

  /** A success is right if and only if Raft accepted the client's proposal. */
  lemma SuccessIsRightIfAccepted(s: State, x: nat)
    requires EnvInv(s) && HistoryInv(s)
    requires x < |s.history| && s.history[x].Answered? && s.history[x].outcome.Done?
    ensures SuccessFits(s.history[x].client, s.history[x].outcome.index, s.history[x].outcome.value, s.committed)
            <==> Accepted(s.requests, s.history[x].client)
  {
    assert EventOk(s.history[x], s);
    assert EntryOk(s.committed[s.history[x].outcome.index - 1], s.requests);
  }

  /** The request of a refused client is in the order only if some other client, whose proposal
      Raft refused, was told that the entry was its own. */
  lemma RefusedIsAbsent(s: State, x: nat, j: nat)
    requires EnvInv(s) && HistoryInv(s)
    requires x < |s.history| && s.history[x].Answered? && Refusal(s.history[x].outcome)
    requires Ordered(s.history[x].client, s.committed, j)
    ensures Mistold(j + 1, s.committed[j].term, s.history, s.requests)
  {
    assert EventOk(s.history[x], s);
    assert EntryOk(s.committed[j], s.requests);
  }

  /** Conversely, if a client with a refused proposal was told that the entry of an accepted
      request was its own, that entry is committed. */
  lemma MistoldIsOrdered(c: nat, s: State)
    requires EnvInv(s) && HistoryInv(s) && Accepted(s.requests, c) && BornOk(c, s.reigns, s.requests)
    ensures var (index, term) := s.requests[c].birth.value;
            Mistold(index, term, s.history, s.requests) ==> Ordered(c, s.committed, index - 1)
  {
    var (index, term) := s.requests[c].birth.value;
    if Mistold(index, term, s.history, s.requests) {
      var x :| 0 <= x < |s.history| && FalseSuccess(s.history[x], index, term, s.requests);
      assert EventOk(s.history[x], s);
      BornIsOrdered(c, s, index);
    }
  }

  /** The invariants give the linearization: two parts in any case, and all four exactly when no
      client with a refused proposal was told of a success. */
  lemma CommittedLogLinearizes(s: State)
    requires EnvInv(s) && HistoryInv(s)
    ensures OnlySubmitted(s.committed, s.history, s.requests)
    ensures RespectsRealTime(s.committed, s.history)
    ensures AnswersFit(s.committed, s.history) <==> SuccessesAccepted(s.history, s.requests)
    ensures Linearizes(s.committed, s.history, s.requests) <==> SuccessesAccepted(s.history, s.requests)
  {
    assert forall j :: 0 <= j < |s.committed| ==> EntryOk(s.committed[j], s.requests);
    assert forall x :: 0 <= x < |s.history| ==> EventOk(s.history[x], s);
    forall x | 0 <= x < |s.history| && s.history[x].Answered? && s.history[x].outcome.Done?
      ensures SuccessFits(s.history[x].client, s.history[x].outcome.index, s.history[x].outcome.value, s.committed)
              <==> Accepted(s.requests, s.history[x].client)
    {
      SuccessIsRightIfAccepted(s, x);
    }
    if SuccessesAccepted(s.history, s.requests) {
      forall x, j | 0 <= x < |s.history| && s.history[x].Answered? && Refusal(s.history[x].outcome)
        ensures !Ordered(s.history[x].client, s.committed, j)
      {
        if Ordered(s.history[x].client, s.committed, j) {
          RefusedIsAbsent(s, x, j);
        }
      }
    }
  }
}
