/** A cluster of peers on top of Raft, as atomic steps. The Raft library itself is an
    environment: its guarantees are the enabling conditions of the steps below, and what the
    peers rely on is proved of those steps in `RaftEnvironment`. */
module Cluster {
  import opened KvModel
  import opened PeerLogic

  /** The node elected in a term and the log it has built; kept after the reign ends. */
  datatype Reign = Reign(node: nat, log: seq<Entry>)

  /** Bookkeeping per request: its command, the (index, term) of the entry created for it if
      there is one, and how long the committed log was when it was submitted. */
  datatype Request = Request(cmd: Command, birth: Option<(nat, nat)>, seen: nat)

  /** One process. `commit` is the commit index Raft has told it; `peak` is bookkeeping, the
      longest prefix this node has ever applied, over all of its restarts. */
  datatype Node = Node(leader: bool, term: nat, log: seq<Entry>, commit: nat, applied: nat,
                       peak: nat, peer: PeerState)

  datatype State = State(nodes: seq<Node>, reigns: map<nat, Reign>, committed: seq<Entry>,
                         requests: seq<Request>, history: seq<Event>)

  datatype Step =
    | BecomeLeader(n: nat, t: nat)
    | StepDown(n: nat, t: nat)
    | Overwrite(n: nat, t: nat, len: nat, newTerm: nat)
    | Commit(t: nat, len: nat)
    | LearnCommit(n: nat, len: nat)
    | ApplyOne(n: nat)
    | Submit(n: nat, cmd: Command, dropped: bool)
    | Restart(n: nat)

  const FRESH_PEER := PeerState([], map[], false)

  ghost predicate Init(s: State) {
    && (forall n :: 0 <= n < |s.nodes| ==> s.nodes[n] == Node(false, 0, [], 0, 0, 0, FRESH_PEER))
    && s.reigns == map[] && s.committed == [] && s.requests == [] && s.history == []
  }

  predicate Running(s: State, n: nat) {
    n < |s.nodes| && !s.nodes[n].peer.halted
  }

  ghost predicate Enabled(s: State, step: Step) {
    match step
    // Election Safety: a term has one leader, and a node campaigns in a term new to it.
    case BecomeLeader(n, t) => Running(s, n) && t !in s.reigns && s.nodes[n].term < t
    case StepDown(n, t) => Running(s, n) && s.nodes[n].term <= t
    // A follower's log becomes a prefix of some leader's log (Log Matching), and never loses
    // an entry it knows to be committed (State Machine Safety).
    case Overwrite(n, t, len, newTerm) =>
      && Running(s, n) && !s.nodes[n].leader
      && t in s.reigns && len <= |s.reigns[t].log|
      && t <= newTerm && s.nodes[n].term <= newTerm
      && s.nodes[n].commit <= len
      && Agree(s.nodes[n].log, s.reigns[t].log, s.nodes[n].commit)
    // The committed log only grows, along the log of some leader.
    case Commit(t, len) =>
      && t in s.reigns && |s.committed| <= len <= |s.reigns[t].log|
      && Agree(s.committed, s.reigns[t].log, |s.committed|)
    case LearnCommit(n, len) =>
      && Running(s, n) && s.nodes[n].commit <= len
      && Agree(s.nodes[n].log, s.committed, len)
    case ApplyOne(n) => Running(s, n) && s.nodes[n].applied < s.nodes[n].commit <= |s.nodes[n].log|
    case Submit(n, cmd, dropped) => Running(s, n) && cmd != NoOp && (dropped ==> s.nodes[n].leader)
    case Restart(n) => n < |s.nodes|
  }

  ghost function Do(s: State, step: Step): State
    requires Enabled(s, step)
  {
    match step
    case BecomeLeader(n, t) => DoBecomeLeader(s, n, t)
    case StepDown(n, t) =>
      s.(nodes := s.nodes[n := s.nodes[n].(leader := false, term := t)])
    case Overwrite(n, t, len, newTerm) =>
      s.(nodes := s.nodes[n := s.nodes[n].(log := s.reigns[t].log[..len], term := newTerm)])
    case Commit(t, len) => s.(committed := s.reigns[t].log[..len])
    case LearnCommit(n, len) => s.(nodes := s.nodes[n := s.nodes[n].(commit := len)])
    case ApplyOne(n) => DoApplyOne(s, n)
    case Submit(n, cmd, dropped) => DoSubmit(s, n, cmd, dropped)
    case Restart(n) => DoRestart(s, n)
  }

  /** A new leader first appends its no-op. */
  function DoBecomeLeader(s: State, n: nat, t: nat): State
    requires n < |s.nodes|
  {
    var x := s.nodes[n];
    var log := x.log + [Entry(|x.log| + 1, t, NoOp, None)];
    s.(nodes := s.nodes[n := x.(leader := true, term := t, log := log)],
       reigns := s.reigns[t := Reign(n, log)])
  }

  function DoApplyOne(s: State, n: nat): State
    requires n < |s.nodes| && s.nodes[n].applied < |s.nodes[n].log|
  {
    var x := s.nodes[n];
    var a := ProcessEntry(x.peer, x.leader, x.log[x.applied]);
    var applied := if a.state.halted then x.applied else x.applied + 1;
    s.(nodes := s.nodes[n := x.(peer := a.state, applied := applied,
                                peak := if applied < x.peak then x.peak else applied)],
       history := s.history + a.events)
  }

  /** A request reaches the service. `dropped` says that Raft refused the proposal, which the
      peer does not notice. */
  function DoSubmit(s: State, n: nat, cmd: Command, dropped: bool): State
    requires n < |s.nodes|
  {
    var x := s.nodes[n];
    var c := |s.requests|;
    if !x.leader then
      s.(requests := s.requests + [Request(cmd, None, |s.committed|)],
         history := s.history + [Submitted(c), Answered(c, NotLeader)])
    else
      var peer := ProposeKvOp(x.peer, true, |x.log|, x.term, c);
      if dropped then
        s.(nodes := s.nodes[n := x.(peer := peer)],
           requests := s.requests + [Request(cmd, None, |s.committed|)],
           history := s.history + [Submitted(c)])
      else
        var log := x.log + [Entry(|x.log| + 1, x.term, cmd, Some(c))];
        s.(nodes := s.nodes[n := x.(peer := peer, log := log)],
           reigns := s.reigns[x.term := Reign(n, log)],
           requests := s.requests + [Request(cmd, Some((|x.log| + 1, x.term)), |s.committed|)],
           history := s.history + [Submitted(c)])
  }

  /** A process restart keeps the database and nothing else: the Raft log and the term live in
      memory, the applied index starts at 0 and the queued closures are gone. */
  function DoRestart(s: State, n: nat): State
    requires n < |s.nodes|
  {
    var x := s.nodes[n];
    s.(nodes := s.nodes[n := Node(false, 0, [], 0, 0, x.peak, PeerState([], x.peer.db, false))],
       history := s.history + LostAll(x.peer.queue))
  }

  function LostAll(ps: seq<Proposal>): seq<Event> {
    seq(|ps|, i requires 0 <= i < |ps| => Lost(ps[i].client))
  }

  ghost predicate Execution(trace: seq<State>, steps: seq<Step>) {
    && |trace| == |steps| + 1
    && Init(trace[0])
    && forall i {:trigger steps[i]} :: 0 <= i < |steps| ==>
         Enabled(trace[i], steps[i]) && trace[i + 1] == Do(trace[i], steps[i])
  }

  lemma ExecutionSnoc(trace: seq<State>, steps: seq<Step>, step: Step)
    requires Execution(trace, steps) && Enabled(trace[|trace| - 1], step)
    ensures Execution(trace + [Do(trace[|trace| - 1], step)], steps + [step])
    ensures NeverDrops(steps) && !Drops(step) ==> NeverDrops(steps + [step])
  {
  }

  predicate Drops(step: Step) {
    step.Submit? && step.dropped
  }

  /** Raft accepts every proposal made on a leader; `ProposeKvOp` ignores the return value. */
  ghost predicate NeverDrops(steps: seq<Step>) {
    forall i :: 0 <= i < |steps| ==> !Drops(steps[i])
  }
}
