/** Concrete runs that show each way a guarantee can fail: what a rejection by `CallbackAll`
    does not mean, and what goes wrong when Raft drops a proposal unnoticed. `Theorems` says
    exactly when they do not. All take place on a single node that leads term 1. */
module Limits {
  import opened KvModel
  import opened PeerLogic
  import opened Cluster
  import opened Linearizability

  const NO_OP := Entry(1, 1, NoOp, None)

  function Start(): State {
    State([Node(false, 0, [], 0, 0, 0, FRESH_PEER)], map[], [], [], [])
  }

  /** One node in term 1 with its log, of which the first `known` entries are committed and the
      first `applied` applied. */
  function Single(leader: bool, log: seq<Entry>, committed: seq<Entry>, known: nat, applied: nat,
                  peer: PeerState, requests: seq<Request>, history: seq<Event>): State {
    State([Node(leader, 1, log, known, applied, applied, peer)], map[1 := Reign(0, log)],
          committed, requests, history)
  }

  lemma Elected() returns (trace: seq<State>, steps: seq<Step>)
    ensures Execution(trace, steps) && NeverDrops(steps)
    ensures trace[|trace| - 1] == Single(true, [NO_OP], [], 0, 0, FRESH_PEER, [], [])
  {
    trace, steps := [Start()], [];
    assert Do(Start(), BecomeLeader(0, 1)).nodes[0].log == [NO_OP];
    assert Do(Start(), BecomeLeader(0, 1)) == Single(true, [NO_OP], [], 0, 0, FRESH_PEER, [], []);
    ExecutionSnoc(trace, steps, BecomeLeader(0, 1));
    trace, steps := trace + [Do(Start(), BecomeLeader(0, 1))], steps + [BecomeLeader(0, 1)];
  }

  lemma Submitting(log: seq<Entry>, peer: PeerState, requests: seq<Request>, history: seq<Event>,
                   cmd: Command, dropped: bool)
    requires cmd != NoOp && !peer.halted
    ensures var s := Single(true, log, [], 0, 0, peer, requests, history);
            var c := |requests|;
            var log' := if dropped then log else log + [Entry(|log| + 1, 1, cmd, Some(c))];
            var birth := if dropped then None else Some((|log| + 1, 1));
            && Enabled(s, Submit(0, cmd, dropped))
            && Do(s, Submit(0, cmd, dropped)) ==
               Single(true, log', [], 0, 0, peer.(queue := peer.queue + [Proposal(|log| + 1, 1, c)]),
                      requests + [Request(cmd, birth, 0)], history + [Submitted(c)])
  {
    var s := Single(true, log, [], 0, 0, peer, requests, history);
    assert s.reigns[1 := Reign(0, log + [Entry(|log| + 1, 1, cmd, Some(|requests|))])]
        == map[1 := Reign(0, log + [Entry(|log| + 1, 1, cmd, Some(|requests|))])];
  }

  lemma Committing(s: State, leader: bool, log: seq<Entry>, committed: seq<Entry>, known: nat, applied: nat,
                   peer: PeerState, requests: seq<Request>, history: seq<Event>, len: nat)
    requires s == Single(leader, log, committed, known, applied, peer, requests, history)
    requires |committed| <= len <= |log| && committed == log[..|committed|]
    ensures Enabled(s, Commit(1, len))
    ensures Do(s, Commit(1, len)) == Single(leader, log, log[..len], known, applied, peer, requests, history)
  {
  }

  lemma Learning(s: State, leader: bool, log: seq<Entry>, committed: seq<Entry>,
                 peer: PeerState, requests: seq<Request>, history: seq<Event>, len: nat)
    requires s == Single(leader, log, committed, 0, 0, peer, requests, history) && !peer.halted
    requires len <= |committed| <= |log| && committed == log[..|committed|]
    ensures Enabled(s, LearnCommit(0, len))
    ensures Do(s, LearnCommit(0, len)) == Single(leader, log, committed, len, 0, peer, requests, history)
  {
  }

  lemma Applying(s: State, leader: bool, log: seq<Entry>, committed: seq<Entry>, known: nat, applied: nat,
                 peer: PeerState, requests: seq<Request>, history: seq<Event>, a: Effect)
    requires s == Single(leader, log, committed, known, applied, peer, requests, history) && !peer.halted
    requires applied < known <= |log| && a == ProcessEntry(peer, leader, log[applied]) && !a.state.halted
    ensures Enabled(s, ApplyOne(0))
    ensures Do(s, ApplyOne(0)) ==
            Single(leader, log, committed, known, applied + 1, a.state, requests, history + a.events)
  {
  }

  /** The first client's proposal, accepted or dropped. */
  lemma Proposed(cmd: Command, dropped: bool) returns (trace: seq<State>, steps: seq<Step>)
    requires cmd != NoOp
    ensures Execution(trace, steps) && (!dropped ==> NeverDrops(steps))
    ensures trace[|trace| - 1] ==
            Single(true, if dropped then [NO_OP] else [NO_OP, Entry(2, 1, cmd, Some(0))], [], 0, 0,
                   PeerState([Proposal(2, 1, 0)], map[], false),
                   [Request(cmd, if dropped then None else Some((2, 1)), 0)], [Submitted(0)])
  {
    trace, steps := Elected();
    var s := trace[|trace| - 1];
    var step := Submit(0, cmd, dropped);
    Submitting([NO_OP], FRESH_PEER, [], [], cmd, dropped);
    assert [NO_OP] + [Entry(2, 1, cmd, Some(0))] == [NO_OP, Entry(2, 1, cmd, Some(0))];
    assert FRESH_PEER.(queue := FRESH_PEER.queue + [Proposal(2, 1, 0)]) == PeerState([Proposal(2, 1, 0)], map[], false);
    assert [] + [Submitted(0)] == [Submitted(0)];
    trace, steps := Extend(trace, steps, step, Do(s, step));
  }

  /** A client told `rejected` by `CallbackAll` can still see its write take effect: the leader
      steps down, applies an older entry of the same term, answers the client, and the entry
      commits anyway. */
  lemma SweptRequestStillCommits(key: Bytes, value: Bytes) returns (trace: seq<State>, steps: seq<Step>)
    ensures Execution(trace, steps) && NeverDrops(steps)
    ensures var last := trace[|trace| - 1];
            && last.history == [Submitted(0), Answered(0, Swept(2, 1, 1, 1))]
            && last.committed == [NO_OP, Entry(2, 1, Put(key, value), Some(0))]
            && After(last.committed, 2) == map[key := value]
  {
    var cmd := Put(key, value);
    var log := [NO_OP, Entry(2, 1, cmd, Some(0))];
    var waiting := PeerState([Proposal(2, 1, 0)], map[], false);
    var requests := [Request(cmd, Some((2, 1)), 0)];
    trace, steps := Proposed(cmd, false);
    trace, steps := Extend(trace, steps, StepDown(0, 1),
                           Single(false, log, [], 0, 0, waiting, requests, [Submitted(0)]));
    trace, steps := RejectedBySweep(trace, steps, log, waiting, requests);
    var s := trace[|trace| - 1];
    Committing(s, false, log, [NO_OP], 1, 1, s.nodes[0].peer, requests, s.history, 2);
    trace, steps := Extend(trace, steps, Commit(1, 2), Do(s, Commit(1, 2)));
    assert After(log, 1) == map[];
  }

  /** A client is told `rejected` in the very step that executes its request: the leader steps
      down between the commit of the entry and its application. */
  lemma OwnEntryRejected(key: Bytes, value: Bytes) returns (trace: seq<State>, steps: seq<Step>)
    ensures Execution(trace, steps) && NeverDrops(steps)
    ensures |steps| > 0 && steps[|steps| - 1] == ApplyOne(0)
    ensures var before := trace[|trace| - 2];
            before.history == [Submitted(0)] && |before.nodes| == 1 && before.nodes[0].peer.db == map[]
    ensures var last := trace[|trace| - 1];
            && last.history == [Submitted(0), Answered(0, Swept(2, 1, 2, 1))]
            && last.committed == [NO_OP, Entry(2, 1, Put(key, value), Some(0))]
            && |last.nodes| == 1 && last.nodes[0].peer.db == map[key := value]
  {
    var log := [NO_OP, Entry(2, 1, Put(key, value), Some(0))];
    var waiting := PeerState([Proposal(2, 1, 0)], map[], false);
    var requests := [Request(log[1].cmd, Some((2, 1)), 0)];
    var history := [Submitted(0)];
    trace, steps := Proposed(log[1].cmd, false);
    assert log[..2] == log;
    trace, steps := CommittedAndKnown(trace, steps, true, log, waiting, requests, history, 2);
    trace, steps := NoOpApplied(trace, steps, log, waiting, requests, history);
    trace, steps := Extend(trace, steps, StepDown(0, 1), Single(false, log, log, 2, 1, waiting, requests, history));
    var b := SweepOnOwn(waiting, log[1]);
    trace, steps := AppliedNext(trace, steps, false, log, log, 2, 1, waiting, requests, history, b);
  }

  /** A leader applies its no-op, which nobody waits for. */
  lemma NoOpApplied(trace0: seq<State>, steps0: seq<Step>, log: seq<Entry>, peer: PeerState,
                    requests: seq<Request>, history: seq<Event>)
    returns (trace: seq<State>, steps: seq<Step>)
    requires Execution(trace0, steps0) && |log| > 0 && log[0] == NO_OP && !peer.halted
    requires |peer.queue| > 0 && peer.queue[0].index == 2 && peer.queue[0].term == 1
    requires trace0[|trace0| - 1] == Single(true, log, log, |log|, 0, peer, requests, history)
    ensures Execution(trace, steps) && (NeverDrops(steps0) ==> NeverDrops(steps))
    ensures trace[|trace| - 1] == Single(true, log, log, |log|, 1, peer, requests, history)
  {
    var a := ProcessEntry(peer, true, NO_OP);
    assert StaleAnswers([]) == [] && history + [] == history;
    assert a == Effect(peer, []);
    trace, steps := AppliedNext(trace0, steps0, true, log, log, |log|, 0, peer, requests, history, a);
  }

  lemma SweepOnOwn(s: PeerState, e: Entry) returns (a: Effect)
    requires s == PeerState([Proposal(2, 1, 0)], map[], false)
    requires e.index == 2 && e.term == 1 && e.cmd.Put?
    ensures a == ProcessEntry(s, false, e)
    ensures a == Effect(PeerState([], map[e.cmd.key := e.cmd.value], false), [Answered(0, Swept(2, 1, 2, 1))])
  {
    a := ProcessEntry(s, false, e);
    assert SweptAnswers(s.queue, 2, 1) == [Answered(0, Swept(2, 1, 2, 1))];
  }

  lemma CommittedAndKnown(trace0: seq<State>, steps0: seq<Step>, leader: bool, log: seq<Entry>, peer: PeerState,
                          requests: seq<Request>, history: seq<Event>, len: nat)
    returns (trace: seq<State>, steps: seq<Step>)
    requires Execution(trace0, steps0) && len <= |log| && !peer.halted
    requires trace0[|trace0| - 1] == Single(leader, log, [], 0, 0, peer, requests, history)
    ensures Execution(trace, steps) && (NeverDrops(steps0) ==> NeverDrops(steps))
    ensures trace[|trace| - 1] == Single(leader, log, log[..len], len, 0, peer, requests, history)
  {
    Committing(trace0[|trace0| - 1], leader, log, [], 0, 0, peer, requests, history, len);
    trace, steps := Extend(trace0, steps0, Commit(1, len),
                           Single(leader, log, log[..len], 0, 0, peer, requests, history));
    Learning(trace[|trace| - 1], leader, log, log[..len], peer, requests, history, len);
    trace, steps := Extend(trace, steps, LearnCommit(0, len),
                           Single(leader, log, log[..len], len, 0, peer, requests, history));
  }

  lemma RejectedBySweep(trace0: seq<State>, steps0: seq<Step>, log: seq<Entry>, waiting: PeerState,
                        requests: seq<Request>)
    returns (trace: seq<State>, steps: seq<Step>)
    requires Execution(trace0, steps0) && NeverDrops(steps0)
    requires |log| == 2 && log[0] == NO_OP && waiting.queue == [Proposal(2, 1, 0)] && !waiting.halted
    requires trace0[|trace0| - 1] == Single(false, log, [], 0, 0, waiting, requests, [Submitted(0)])
    ensures Execution(trace, steps) && NeverDrops(steps)
    ensures trace[|trace| - 1] ==
            Single(false, log, [NO_OP], 1, 1, waiting.(queue := []), requests,
                   [Submitted(0), Answered(0, Swept(2, 1, 1, 1))])
  {
    var history := [Submitted(0)];
    assert log[..1] == [NO_OP];
    trace, steps := CommittedAndKnown(trace0, steps0, false, log, waiting, requests, history, 1);
    var a := SweepOnNoOp(waiting);
    trace, steps := AppliedNext(trace, steps, false, log, [NO_OP], 1, 0, waiting, requests, history, a);
  }

  lemma AppliedNext(trace0: seq<State>, steps0: seq<Step>, leader: bool, log: seq<Entry>, committed: seq<Entry>,
                    known: nat, applied: nat, peer: PeerState, requests: seq<Request>, history: seq<Event>, a: Effect)
    returns (trace: seq<State>, steps: seq<Step>)
    requires Execution(trace0, steps0) && !peer.halted
    requires trace0[|trace0| - 1] == Single(leader, log, committed, known, applied, peer, requests, history)
    requires applied < known <= |log| && a == ProcessEntry(peer, leader, log[applied]) && !a.state.halted
    ensures Execution(trace, steps) && steps == steps0 + [ApplyOne(0)] && (NeverDrops(steps0) ==> NeverDrops(steps))
    ensures trace ==
            trace0 + [Single(leader, log, committed, known, applied + 1, a.state, requests, history + a.events)]
  {
    var s := trace0[|trace0| - 1];
    Applying(s, leader, log, committed, known, applied, peer, requests, history, a);
    trace, steps := Extend(trace0, steps0, ApplyOne(0), Do(s, ApplyOne(0)));
  }

  lemma Extend(trace: seq<State>, steps: seq<Step>, step: Step, next: State)
    returns (trace': seq<State>, steps': seq<Step>)
    requires Execution(trace, steps) && Enabled(trace[|trace| - 1], step)
    requires next == Do(trace[|trace| - 1], step)
    ensures Execution(trace', steps') && trace' == trace + [next] && steps' == steps + [step]
    ensures NeverDrops(steps) && !Drops(step) ==> NeverDrops(steps')
  {
    ExecutionSnoc(trace, steps, step);
    trace', steps' := trace + [next], steps + [step];
  }

  lemma SweepOnNoOp(s: PeerState) returns (a: Effect)
    requires s.queue == [Proposal(2, 1, 0)]
    ensures a == ProcessEntry(s, false, NO_OP) == Effect(s.(queue := []), [Answered(0, Swept(2, 1, 1, 1))])
  {
    a := ProcessEntry(s, false, NO_OP);
    assert SweptAnswers(s.queue, 1, 1) == [Answered(0, Swept(2, 1, 1, 1))];
  }

  /** If Raft drops one proposal of a leader, the next client's entry gets the guessed index,
      and the first client is told that its own request succeeded. */
  lemma DroppedProposalIsMisattributed(cmd: Command, key: Bytes) returns (trace: seq<State>, steps: seq<Step>)
    requires cmd != NoOp
    ensures Execution(trace, steps)
    ensures var last := trace[|trace| - 1];
            && |last.requests| == 2 && last.requests[0].cmd == cmd
            && last.history == [Submitted(0), Submitted(1), Answered(0, Done(2, 1, None))]
            && last.committed == [NO_OP, Entry(2, 1, Del(key), Some(1))]
            && !Linearizes(last.committed, last.history, last.requests)
  {
    var log := [NO_OP, Entry(2, 1, Del(key), Some(1))];
    var two := PeerState([Proposal(2, 1, 0), Proposal(2, 1, 1)], map[], false);
    var both := [Request(cmd, None, 0), Request(Del(key), Some((2, 1)), 0)];
    trace, steps := Proposed(cmd, true);
    trace, steps := AcceptedNext(trace, steps, [NO_OP], [Proposal(2, 1, 0)], [both[0]], [Submitted(0)], Del(key));
    assert [NO_OP] + [log[1]] == log && [two.queue[0]] + [two.queue[1]] == two.queue && [both[0]] + [both[1]] == both;
    assert [Submitted(0)] + [Submitted(1)] == [Submitted(0), Submitted(1)];
    trace, steps := Misanswered(trace, steps, log, two, both, [Submitted(0), Submitted(1)], key);
    var last := trace[|trace| - 1];
    assert last.history[2] == Answered(0, Done(2, 1, None));
    assert !SuccessFits(0, 2, None, last.committed);
  }

  lemma Misanswered(trace0: seq<State>, steps0: seq<Step>, log: seq<Entry>, two: PeerState,
                    both: seq<Request>, history: seq<Event>, key: Bytes)
    returns (trace: seq<State>, steps: seq<Step>)
    requires Execution(trace0, steps0)
    requires |log| == 2 && log[0] == NO_OP && log[1] == Entry(2, 1, Del(key), Some(1)) && !two.halted
    requires two.queue == [Proposal(2, 1, 0), Proposal(2, 1, 1)]
    requires trace0[|trace0| - 1] == Single(true, log, [], 0, 0, two, both, history)
    ensures Execution(trace, steps)
    ensures var last := trace[|trace| - 1];
            && last.committed == log && last.requests == both
            && last.history == history + [Answered(0, Done(2, 1, None))]
  {
    assert log[..2] == log;
    trace, steps := CommittedAndKnown(trace0, steps0, true, log, two, both, history, 2);
    trace, steps := NoOpApplied(trace, steps, log, two, both, history);
    var peer;
    trace, steps, peer := FirstAnswered(trace, steps, log, two, both, history, key);
  }

  /** Two waiting proposals claim the second entry; the lookup takes the first of them, whose
      client did not submit it. */
  lemma FirstAnswered(trace0: seq<State>, steps0: seq<Step>, log: seq<Entry>, peer0: PeerState,
                      requests: seq<Request>, history: seq<Event>, key: Bytes)
    returns (trace: seq<State>, steps: seq<Step>, peer: PeerState)
    requires Execution(trace0, steps0) && |log| > 1 && log[1] == Entry(2, 1, Del(key), Some(1)) && !peer0.halted
    requires |peer0.queue| > 0 && peer0.queue[0] == Proposal(2, 1, 0)
    requires trace0[|trace0| - 1] == Single(true, log, log, |log|, 1, peer0, requests, history)
    ensures Execution(trace, steps) && peer.queue == peer0.queue[1..] && !peer.halted
    ensures trace[|trace| - 1] ==
            Single(true, log, log, |log|, 2, peer, requests, history + [Answered(0, Done(2, 1, None))])
  {
    var b := ProcessEntry(peer0, true, log[1]);
    assert StaleAnswers([]) == [];
    assert b.events == [Answered(0, Done(2, 1, None))];
    peer := b.state;
    trace, steps := AppliedNext(trace0, steps0, true, log, log, |log|, 1, peer0, requests, history, b);
  }

  /** If Raft drops one proposal of a leader, a later request can be committed, executed and then
      rejected by the lookup, because its success went to the client before it. */
  lemma CommittedRequestIsRejected(key: Bytes) returns (trace: seq<State>, steps: seq<Step>)
    ensures Execution(trace, steps)
    ensures var last := trace[|trace| - 1];
            && last.history == [Submitted(0), Submitted(1), Submitted(2),
                                Answered(0, Done(2, 1, None)), Answered(1, Stale(2, 1)), Answered(2, Done(3, 1, None))]
            && last.committed == [NO_OP, Entry(2, 1, Del(key), Some(1)), Entry(3, 1, Del(key), Some(2))]
            && |last.nodes| == 1 && last.nodes[0].applied == 3
  {
    var log := [NO_OP, Entry(2, 1, Del(key), Some(1)), Entry(3, 1, Del(key), Some(2))];
    var three := PeerState([Proposal(2, 1, 0), Proposal(2, 1, 1), Proposal(3, 1, 2)], map[], false);
    var all := [Request(Del(key), None, 0), Request(Del(key), Some((2, 1)), 0), Request(Del(key), Some((3, 1)), 0)];
    var history := [Submitted(0), Submitted(1), Submitted(2)];
    trace, steps := DroppedThenTwo(log, three, all, history, key);
    assert log[..3] == log;
    trace, steps := CommittedAndKnown(trace, steps, true, log, three, all, history, 3);
    trace, steps := PassedOver(trace, steps, log, three, all, history, key);
  }

  lemma PassedOver(trace0: seq<State>, steps0: seq<Step>, log: seq<Entry>, three: PeerState, all: seq<Request>,
                   history: seq<Event>, key: Bytes)
    returns (trace: seq<State>, steps: seq<Step>)
    requires Execution(trace0, steps0) && |log| == 3 && !three.halted
    requires log[0] == NO_OP && log[1] == Entry(2, 1, Del(key), Some(1)) && log[2] == Entry(3, 1, Del(key), Some(2))
    requires three.queue == [Proposal(2, 1, 0), Proposal(2, 1, 1), Proposal(3, 1, 2)]
    requires trace0[|trace0| - 1] == Single(true, log, log, 3, 0, three, all, history)
    ensures Execution(trace, steps)
    ensures var last := trace[|trace| - 1];
            && |last.nodes| == 1 && last.nodes[0].applied == 3 && last.committed == log
            && last.history == (history + [Answered(0, Done(2, 1, None))])
                               + [Answered(1, Stale(2, 1)), Answered(2, Done(3, 1, None))]
  {
    trace, steps := NoOpApplied(trace0, steps0, log, three, all, history);
    var peer;
    trace, steps, peer := FirstAnswered(trace, steps, log, three, all, history, key);
    trace, steps := LastAnswered(trace, steps, log, peer, all, history + [Answered(0, Done(2, 1, None))], key);
  }

  /** The lookup of the last entry rejects the proposal that the one before it passed over. */
  lemma LastAnswered(trace0: seq<State>, steps0: seq<Step>, log: seq<Entry>, peer: PeerState,
                     requests: seq<Request>, history: seq<Event>, key: Bytes)
    returns (trace: seq<State>, steps: seq<Step>)
    requires Execution(trace0, steps0) && |log| == 3 && log[2] == Entry(3, 1, Del(key), Some(2)) && !peer.halted
    requires peer.queue == [Proposal(2, 1, 1), Proposal(3, 1, 2)]
    requires trace0[|trace0| - 1] == Single(true, log, log, 3, 2, peer, requests, history)
    ensures Execution(trace, steps)
    ensures var last := trace[|trace| - 1];
            && |last.nodes| == 1 && last.nodes[0].applied == 3 && last.committed == log
            && last.history == history + [Answered(1, Stale(2, 1)), Answered(2, Done(3, 1, None))]
  {
    var c := MatchLast(peer, key);
    trace, steps := AppliedNext(trace0, steps0, true, log, log, 3, 2, peer, requests, history, c);
  }

  /** One dropped proposal and two accepted ones. */
  lemma DroppedThenTwo(log: seq<Entry>, three: PeerState, all: seq<Request>, history: seq<Event>, key: Bytes)
    returns (trace: seq<State>, steps: seq<Step>)
    requires log == [NO_OP, Entry(2, 1, Del(key), Some(1)), Entry(3, 1, Del(key), Some(2))]
    requires three == PeerState([Proposal(2, 1, 0), Proposal(2, 1, 1), Proposal(3, 1, 2)], map[], false)
    requires all == [Request(Del(key), None, 0), Request(Del(key), Some((2, 1)), 0), Request(Del(key), Some((3, 1)), 0)]
    requires history == [Submitted(0), Submitted(1), Submitted(2)]
    ensures Execution(trace, steps)
    ensures trace[|trace| - 1] == Single(true, log, [], 0, 0, three, all, history)
  {
    trace, steps := Proposed(Del(key), true);
    trace, steps := AcceptedNext(trace, steps, [NO_OP], [Proposal(2, 1, 0)], [all[0]], [history[0]], Del(key));
    trace, steps := AcceptedNext(trace, steps, [NO_OP] + [log[1]], [three.queue[0]] + [three.queue[1]],
                                 [all[0]] + [all[1]], [history[0]] + [history[1]], Del(key));
    assert ([NO_OP] + [log[1]]) + [log[2]] == log;
    assert ([three.queue[0]] + [three.queue[1]]) + [three.queue[2]] == three.queue;
    assert ([all[0]] + [all[1]]) + [all[2]] == all;
    assert ([history[0]] + [history[1]]) + [history[2]] == history;
  }

  /** One more accepted proposal while nothing is committed. */
  lemma AcceptedNext(trace0: seq<State>, steps0: seq<Step>, log: seq<Entry>, q: seq<Proposal>,
                     requests: seq<Request>, history: seq<Event>, cmd: Command)
    returns (trace: seq<State>, steps: seq<Step>)
    requires Execution(trace0, steps0) && cmd != NoOp
    requires trace0[|trace0| - 1] == Single(true, log, [], 0, 0, PeerState(q, map[], false), requests, history)
    ensures Execution(trace, steps)
    ensures trace[|trace| - 1] ==
            Single(true, log + [Entry(|log| + 1, 1, cmd, Some(|requests|))], [], 0, 0,
                   PeerState(q + [Proposal(|log| + 1, 1, |requests|)], map[], false),
                   requests + [Request(cmd, Some((|log| + 1, 1)), 0)], history + [Submitted(|requests|)])
  {
    var s := trace0[|trace0| - 1];
    Submitting(log, PeerState(q, map[], false), requests, history, cmd, false);
    trace, steps := Extend(trace0, steps0, Submit(0, cmd, false), Do(s, Submit(0, cmd, false)));
  }

  lemma MatchLast(s: PeerState, key: Bytes) returns (c: Effect)
    requires s.queue == [Proposal(2, 1, 1), Proposal(3, 1, 2)] && !s.halted
    ensures c == ProcessEntry(s, true, Entry(3, 1, Del(key), Some(2)))
    ensures c.events == [Answered(1, Stale(2, 1)), Answered(2, Done(3, 1, None))] && !c.state.halted
  {
    var q := s.queue;
    assert q[1..] == [Proposal(3, 1, 2)];
    assert StaleCount(q[1..], 3, 1) == 0 && StaleCount(q, 3, 1) == 1;
    c := ProcessEntry(s, true, Entry(3, 1, Del(key), Some(2)));
    assert StaleAnswers(q[..1]) == [Answered(1, Stale(2, 1))];
  }
}
