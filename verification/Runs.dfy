/** A run of two nodes in which all goes well: requests on the leader are replicated, committed,
    applied on both nodes and answered, a request on the follower is refused, and the follower
    restarts and catches up again. It takes every kind of step except `StepDown`. */
module Runs {
  import opened KvModel
  import opened PeerLogic
  import opened Cluster
  import Limits

  const NO_OP := Limits.NO_OP

  /** Node 0 leads term 1 with `log`; `x0` and `x1` are the two nodes. */
  function Two(x0: Node, x1: Node, log: seq<Entry>, committed: seq<Entry>, requests: seq<Request>,
               history: seq<Event>): State {
    State([x0, x1], map[1 := Reign(0, log)], committed, requests, history)
  }

  function Leading(log: seq<Entry>, commit: nat, applied: nat, peer: PeerState): Node {
    Node(true, 1, log, commit, applied, applied, peer)
  }

  function Following(term: nat, log: seq<Entry>, commit: nat, applied: nat, peak: nat, db: Store): Node {
    Node(false, term, log, commit, applied, peak, PeerState([], db, false))
  }

  /** Node 0 is elected, and the follower refuses a request. */
  lemma ElectedAndRefused(cmd: Command) returns (trace: seq<State>, steps: seq<Step>)
    requires cmd != NoOp
    ensures Execution(trace, steps) && NeverDrops(steps)
    ensures trace[|trace| - 1] ==
            Two(Leading([NO_OP], 0, 0, FRESH_PEER), Following(0, [], 0, 0, 0, map[]), [NO_OP], [],
                [Request(cmd, None, 0)], [Submitted(0), Answered(0, NotLeader)])
  {
    var idle := Node(false, 0, [], 0, 0, 0, FRESH_PEER);
    var start := State([idle, idle], map[], [], [], []);
    assert Execution([start], []);
    var elected := Two(Leading([NO_OP], 0, 0, FRESH_PEER), idle, [NO_OP], [], [], []);
    assert [] + [NO_OP] == [NO_OP];
    assert Do(start, BecomeLeader(0, 1)).nodes == [Leading([NO_OP], 0, 0, FRESH_PEER), idle];
    assert Do(start, BecomeLeader(0, 1)).reigns == map[1 := Reign(0, [NO_OP])];
    assert Do(start, BecomeLeader(0, 1)) == elected;
    trace, steps := Limits.Extend([start], [], BecomeLeader(0, 1), elected);
    var refused := Two(Leading([NO_OP], 0, 0, FRESH_PEER), idle, [NO_OP], [],
                       [Request(cmd, None, 0)], [Submitted(0), Answered(0, NotLeader)]);
    assert [] + [Request(cmd, None, 0)] == [Request(cmd, None, 0)];
    trace, steps := Limits.Extend(trace, steps, Submit(1, cmd, false), refused);
  }

  /** The leader takes a request that Raft accepts. */
  lemma Taken(trace0: seq<State>, steps0: seq<Step>, log: seq<Entry>, peer: PeerState, x1: Node,
              requests: seq<Request>, history: seq<Event>, cmd: Command)
    returns (trace: seq<State>, steps: seq<Step>)
    requires Execution(trace0, steps0) && NeverDrops(steps0) && cmd != NoOp && !peer.halted
    requires trace0[|trace0| - 1] == Two(Leading(log, 0, 0, peer), x1, log, [], requests, history)
    ensures Execution(trace, steps) && NeverDrops(steps)
    ensures var c := |requests|;
            var log' := log + [Entry(|log| + 1, 1, cmd, Some(c))];
            trace[|trace| - 1] ==
            Two(Leading(log', 0, 0, peer.(queue := peer.queue + [Proposal(|log| + 1, 1, c)])), x1, log', [],
                requests + [Request(cmd, Some((|log| + 1, 1)), 0)], history + [Submitted(c)])
  {
    var s, c := trace0[|trace0| - 1], |requests|;
    var log' := log + [Entry(|log| + 1, 1, cmd, Some(c))];
    var x0 := Leading(log', 0, 0, peer.(queue := peer.queue + [Proposal(|log| + 1, 1, c)]));
    assert s.nodes[0 := x0] == [x0, x1];
    assert s.reigns[1 := Reign(0, log')] == map[1 := Reign(0, log')];
    trace, steps := Limits.Extend(trace0, steps0, Submit(0, cmd, false), Do(s, Submit(0, cmd, false)));
  }

  /** The leader applies its next entry. */
  lemma AppliedOnLeader(trace0: seq<State>, steps0: seq<Step>, log: seq<Entry>, applied: nat, peer: PeerState,
                        x1: Node, requests: seq<Request>, history: seq<Event>, a: Effect)
    returns (trace: seq<State>, steps: seq<Step>)
    requires Execution(trace0, steps0) && NeverDrops(steps0) && !peer.halted && applied < |log|
    requires trace0[|trace0| - 1] == Two(Leading(log, |log|, applied, peer), x1, log, log, requests, history)
    requires a == ProcessEntry(peer, true, log[applied]) && !a.state.halted
    ensures Execution(trace, steps) && NeverDrops(steps)
    ensures trace[|trace| - 1] ==
            Two(Leading(log, |log|, applied + 1, a.state), x1, log, log, requests, history + a.events)
  {
    var s, x0' := trace0[|trace0| - 1], Leading(log, |log|, applied + 1, a.state);
    assert s.nodes[0 := x0'] == [x0', x1];
    trace, steps := Limits.Extend(trace0, steps0, ApplyOne(0), Do(s, ApplyOne(0)));
  }

  /** The follower receives the leader's log and the commit index. */
  lemma Replicated(trace0: seq<State>, steps0: seq<Step>, x0: Node, term: nat, peak: nat, db: Store,
                   log: seq<Entry>, requests: seq<Request>, history: seq<Event>)
    returns (trace: seq<State>, steps: seq<Step>)
    requires Execution(trace0, steps0) && NeverDrops(steps0) && term <= 1
    requires trace0[|trace0| - 1] == Two(x0, Following(term, [], 0, 0, peak, db), log, log, requests, history)
    ensures Execution(trace, steps) && NeverDrops(steps) && steps0 <= steps
    ensures trace[|trace| - 1] == Two(x0, Following(1, log, |log|, 0, peak, db), log, log, requests, history)
  {
    var x1, x1', x1'' := Following(term, [], 0, 0, peak, db), Following(1, log, 0, 0, peak, db),
                         Following(1, log, |log|, 0, peak, db);
    assert log[..|log|] == log && [x0, x1][1 := x1'] == [x0, x1'] && [x0, x1'][1 := x1''] == [x0, x1''];
    trace, steps := Limits.Extend(trace0, steps0, Overwrite(1, 1, |log|, 1), Two(x0, x1', log, log, requests, history));
    trace, steps := Limits.Extend(trace, steps, LearnCommit(1, |log|), Two(x0, x1'', log, log, requests, history));
  }

  /** The follower, on which nobody waits, applies its next entry. */
  lemma AppliedOnFollower(trace0: seq<State>, steps0: seq<Step>, x0: Node, applied: nat, peak: nat, db: Store,
                          log: seq<Entry>, requests: seq<Request>, history: seq<Event>)
    returns (trace: seq<State>, steps: seq<Step>)
    requires Execution(trace0, steps0) && NeverDrops(steps0) && applied < |log|
    requires log[applied].cmd.Get? ==> log[applied].cmd.key in db
    requires trace0[|trace0| - 1] == Two(x0, Following(1, log, |log|, applied, peak, db), log, log, requests, history)
    ensures Execution(trace, steps) && NeverDrops(steps) && steps0 <= steps
    ensures var peak' := if applied + 1 < peak then peak else applied + 1;
            trace[|trace| - 1] ==
            Two(x0, Following(1, log, |log|, applied + 1, peak', Exec(db, log[applied].cmd)), log, log, requests,
                history)
  {
    var s := trace0[|trace0| - 1];
    var peak' := if applied + 1 < peak then peak else applied + 1;
    var x1' := Following(1, log, |log|, applied + 1, peak', Exec(db, log[applied].cmd));
    var a := ProcessEntry(s.nodes[1].peer, false, log[applied]);
    assert a.events == [] && a.state == x1'.peer;
    assert s.nodes[1 := x1'] == [x0, x1'] && history + [] == history;
    trace, steps := Limits.Extend(trace0, steps0, ApplyOne(1), Do(s, ApplyOne(1)));
  }

  /** The follower catches up with a log of a no-op, a put of `key` and a read of it. */
  lemma CaughtUp(trace0: seq<State>, steps0: seq<Step>, x0: Node, term: nat, peak: nat, db: Store,
                 log: seq<Entry>, requests: seq<Request>, history: seq<Event>, key: Bytes, value: Bytes)
    returns (trace: seq<State>, steps: seq<Step>)
    requires Execution(trace0, steps0) && NeverDrops(steps0) && term <= 1 && peak <= 3
    requires |log| == 3 && log[0].cmd == NoOp && log[1].cmd == Put(key, value) && log[2].cmd == Get(key)
    requires db in {map[], map[key := value]}
    requires trace0[|trace0| - 1] == Two(x0, Following(term, [], 0, 0, peak, db), log, log, requests, history)
    ensures Execution(trace, steps) && NeverDrops(steps) && steps0 <= steps
    ensures trace[|trace| - 1] ==
            Two(x0, Following(1, log, 3, 3, 3, map[key := value]), log, log, requests, history)
  {
    var one := if 1 < peak then peak else 1;
    var two := if 2 < one then one else 2;
    trace, steps := Replicated(trace0, steps0, x0, term, peak, db, log, requests, history);
    trace, steps := AppliedOnFollower(trace, steps, x0, 0, peak, db, log, requests, history);
    trace, steps := AppliedOnFollower(trace, steps, x0, 1, one, db, log, requests, history);
    assert db[key := value] == map[key := value];
    trace, steps := AppliedOnFollower(trace, steps, x0, 2, two, map[key := value], log, requests, history);
  }

  /** The leader applies all three entries and answers both clients. */
  lemma Answering(trace0: seq<State>, steps0: seq<Step>, log: seq<Entry>, s0: PeerState, x1: Node,
                  requests: seq<Request>, history: seq<Event>, key: Bytes, value: Bytes)
    returns (trace: seq<State>, steps: seq<Step>)
    requires Execution(trace0, steps0) && NeverDrops(steps0) && |log| == 3
    requires log[0] == NO_OP && log[1] == Entry(2, 1, Put(key, value), Some(1))
    requires log[2] == Entry(3, 1, Get(key), Some(2))
    requires s0.queue == [Proposal(2, 1, 1), Proposal(3, 1, 2)] && s0.db == map[] && !s0.halted
    requires trace0[|trace0| - 1] == Two(Leading(log, 3, 0, s0), x1, log, log, requests, history)
    ensures Execution(trace, steps) && NeverDrops(steps)
    ensures trace[|trace| - 1] ==
            Two(Leading(log, 3, 3, PeerState([], map[key := value], false)), x1, log, log, requests,
                (history + [Answered(1, Done(2, 1, None))]) + [Answered(2, Done(3, 1, Some(value)))])
  {
    var s1, s2 := PeerState([Proposal(3, 1, 2)], map[key := value], false), PeerState([], map[key := value], false);
    var b, c := Effect(s1, [Answered(1, Done(2, 1, None))]), Effect(s2, [Answered(2, Done(3, 1, Some(value)))]);
    assert StaleAnswers([]) == [] && s0.queue[1..] == s1.queue && s1.queue[1..] == [] && history + [] == history;
    trace, steps := AppliedOnLeader(trace0, steps0, log, 0, s0, x1, requests, history, Effect(s0, []));
    trace, steps := AppliedOnLeader(trace, steps, log, 1, s0, x1, requests, history, b);
    trace, steps := AppliedOnLeader(trace, steps, log, 2, s1, x1, requests, history + b.events, c);
  }

  /** The log of the run, and what its clients have seen by the end. */
  function RunLog(key: Bytes, value: Bytes): seq<Entry> {
    [NO_OP, Entry(2, 1, Put(key, value), Some(1)), Entry(3, 1, Get(key), Some(2))]
  }

  function RunHistory(value: Bytes): seq<Event> {
    [Submitted(0), Answered(0, NotLeader), Submitted(1), Submitted(2),
     Answered(1, Done(2, 1, None)), Answered(2, Done(3, 1, Some(value)))]
  }

  /** Up to the answers of the leader. */
  lemma Served(key: Bytes, value: Bytes)
    returns (trace: seq<State>, steps: seq<Step>, requests: seq<Request>)
    ensures Execution(trace, steps) && NeverDrops(steps)
    ensures trace[|trace| - 1] ==
            Two(Leading(RunLog(key, value), 3, 3, PeerState([], map[key := value], false)),
                Following(0, [], 0, 0, 0, map[]), RunLog(key, value), RunLog(key, value), requests, RunHistory(value))
  {
    var put, get, x1 := Put(key, value), Get(key), Following(0, [], 0, 0, 0, map[]);
    var first := [Submitted(0), Answered(0, NotLeader)];
    var refused := [Request(get, None, 0)];
    requests := (refused + [Request(put, Some((2, 1)), 0)]) + [Request(get, Some((3, 1)), 0)];
    var log := ([NO_OP] + [Entry(2, 1, put, Some(1))]) + [Entry(3, 1, get, Some(2))];
    assert log == RunLog(key, value);
    var peer := FRESH_PEER.(queue := [] + [Proposal(2, 1, 1)]);
    trace, steps := ElectedAndRefused(get);
    trace, steps := Taken(trace, steps, [NO_OP], FRESH_PEER, x1, refused, first, put);
    trace, steps := Taken(trace, steps, [NO_OP] + [Entry(2, 1, put, Some(1))], peer, x1,
                          refused + [Request(put, Some((2, 1)), 0)], first + [Submitted(1)], get);
    var history := (first + [Submitted(1)]) + [Submitted(2)];
    var both := PeerState([Proposal(2, 1, 1), Proposal(3, 1, 2)], map[], false);
    assert peer.(queue := peer.queue + [Proposal(3, 1, 2)]) == both;
    var y, z := Leading(log, 0, 0, both), Leading(log, 3, 0, both);
    assert log[..3] == log && [y, x1][0 := z] == [z, x1];
    trace, steps := Limits.Extend(trace, steps, Commit(1, 3), Two(y, x1, log, log, requests, history));
    trace, steps := Limits.Extend(trace, steps, LearnCommit(0, 3), Two(z, x1, log, log, requests, history));
    trace, steps := Answering(trace, steps, log, both, x1, requests, history, key, value);
  }

  /** Both nodes have applied everything, hold the value, and nobody waits. */
  ghost predicate AllDone(s: State, key: Bytes, value: Bytes) {
    && s.history == RunHistory(value) && |s.nodes| == 2
    && forall n :: 0 <= n < 2 ==>
         s.nodes[n].applied == 3 && s.nodes[n].peer == PeerState([], map[key := value], false)
  }

  /** The whole run: the follower refuses client 0; clients 1 and 2 write and read the same key on
      the leader and are answered; both nodes hold the value, the follower even after a restart. */
  lemma AllGoesWell(key: Bytes, value: Bytes) returns (trace: seq<State>, steps: seq<Step>)
    ensures Execution(trace, steps) && NeverDrops(steps) && Restart(1) in steps
    ensures AllDone(trace[|trace| - 1], key, value)
  {
    var requests;
    trace, steps, requests := Served(key, value);
    var x0, log, history := trace[|trace| - 1].nodes[0], RunLog(key, value), RunHistory(value);
    trace, steps := CaughtUp(trace, steps, x0, 0, 0, map[], log, requests, history, key, value);
    var x1, x1' := trace[|trace| - 1].nodes[1], Following(0, [], 0, 0, 3, map[key := value]);
    assert [x0, x1][1 := x1'] == [x0, x1'] && history + [] == history && LostAll([]) == [];
    trace, steps := Limits.Extend(trace, steps, Restart(1), Two(x0, x1', log, log, requests, history));
    ghost var restart := |steps| - 1;
    assert steps[restart] == Restart(1);
    trace, steps := CaughtUp(trace, steps, x0, 0, 3, map[key := value], log, requests, history, key, value);
    assert steps[restart] == Restart(1);
  }
}
