/** Every submitted closure is in exactly one place: still queued, run once, or lost with a
    process that died. Counted per client, this says that the multiset of submitted closures
    is the sum of the three. It needs no assumption about Raft. */
module Conservation {
  import opened KvModel
  import opened PeerLogic
  import opened Cluster
  import opened Counting

  datatype Fate = WasSubmitted | WasAnswered | WasLost

  function FateOf(ev: Event): Fate {
    match ev
    case Submitted(_) => WasSubmitted
    case Answered(_, _) => WasAnswered
    case Lost(_) => WasLost
  }

  /** How often client `c` meets the given fate in a history. */
  function Count(history: seq<Event>, fate: Fate, c: nat): nat {
    if |history| == 0 then 0
    else
      var last := history[|history| - 1];
      Count(history[..|history| - 1], fate, c) + Bit(FateOf(last) == fate && last.client == c)
  }

  /** How often client `c` waits in a queue. */
  function Queued(q: seq<Proposal>, c: nat): nat {
    if |q| == 0 then 0 else Queued(q[..|q| - 1], c) + Bit(q[|q| - 1].client == c)
  }

  function Waiting(nodes: seq<Node>, c: nat): nat {
    if |nodes| == 0 then 0
    else Waiting(nodes[..|nodes| - 1], c) + Queued(nodes[|nodes| - 1].peer.queue, c)
  }

  ghost predicate Conserved(s: State, c: nat) {
    && Count(s.history, WasSubmitted, c) ==
       Waiting(s.nodes, c) + Count(s.history, WasAnswered, c) + Count(s.history, WasLost, c)
    && Count(s.history, WasSubmitted, c) == Bit(c < |s.requests|)
  }

  lemma {:induction false} CountConcat(a: seq<Event>, b: seq<Event>, fate: Fate, c: nat)
    ensures Count(a + b, fate, c) == Count(a, fate, c) + Count(b, fate, c)
  {
    if |b| == 0 {
      assert a + b == a;
    } else {
      CountConcat(a, b[..|b| - 1], fate, c);
      assert (a + b)[..|a + b| - 1] == a + b[..|b| - 1];
    }
  }

  lemma {:induction false} QueuedConcat(a: seq<Proposal>, b: seq<Proposal>, c: nat)
    ensures Queued(a + b, c) == Queued(a, c) + Queued(b, c)
  {
    if |b| == 0 {
      assert a + b == a;
    } else {
      QueuedConcat(a, b[..|b| - 1], c);
      assert (a + b)[..|a + b| - 1] == a + b[..|b| - 1];
    }
  }

  /** One event per proposal, all of one fate. */
  lemma {:induction false} EventPerProposal(ps: seq<Proposal>, events: seq<Event>, fate: Fate, c: nat)
    requires |events| == |ps|
    requires forall i :: 0 <= i < |ps| ==> events[i].client == ps[i].client && FateOf(events[i]) == fate
    ensures Count(events, fate, c) == Queued(ps, c)
    ensures forall other :: other != fate ==> Count(events, other, c) == 0
  {
    if |ps| > 0 {
      EventPerProposal(ps[..|ps| - 1], events[..|ps| - 1], fate, c);
    }
  }

  lemma {:induction false} WaitingUpdate(nodes: seq<Node>, n: nat, x: Node, c: nat)
    requires n < |nodes|
    ensures Waiting(nodes[n := x], c) + Queued(nodes[n].peer.queue, c) ==
            Waiting(nodes, c) + Queued(x.peer.queue, c)
  {
    var last := |nodes| - 1;
    if n == last {
      assert nodes[n := x][..last] == nodes[..last];
    } else {
      WaitingUpdate(nodes[..last], n, x, c);
      assert nodes[n := x][..last] == nodes[..last][n := x];
    }
  }

  /** The events of a local operation account for every closure that leaves the queue. */
  ghost predicate Accounts(before: seq<Proposal>, events: seq<Event>, after: seq<Proposal>, c: nat) {
    Queued(before, c) + Count(events, WasSubmitted, c) ==
    Queued(after, c) + Count(events, WasAnswered, c) + Count(events, WasLost, c)
  }

  lemma AccountsConcat(q: seq<Proposal>, a: seq<Event>, r: seq<Proposal>, b: seq<Event>, t: seq<Proposal>, c: nat)
    requires Accounts(q, a, r, c) && Accounts(r, b, t, c)
    ensures Accounts(q, a + b, t, c)
  {
    CountConcat(a, b, WasSubmitted, c);
    CountConcat(a, b, WasAnswered, c);
    CountConcat(a, b, WasLost, c);
  }

  /** What an entry settles leaves the queue in three parts. */
  lemma SettleSplits(q: seq<Proposal>, leader: bool, e: Entry, c: nat)
    ensures var f := Settle(q, leader, e);
            Queued(q, c) == Queued(f.rejected, c) + Queued(ToSeq(f.matched), c) + Queued(f.rest, c)
  {
    var f := Settle(q, leader, e);
    FindSplits(q, e.index, e.term);
    assert q == f.rejected + ToSeq(f.matched) + f.rest;
    QueuedConcat(f.rejected + ToSeq(f.matched), f.rest, c);
    QueuedConcat(f.rejected, ToSeq(f.matched), c);
  }

  /** For any queue, sorted or not: whatever `ProcessEntry` takes off the queue is run or lost
      with the process, exactly once. */
  lemma ProcessEntryConserves(s: PeerState, leader: bool, e: Entry, c: nat)
    ensures var a := ProcessEntry(s, leader, e);
            && Accounts(s.queue, a.events, a.state.queue, c)
            && Count(a.events, WasSubmitted, c) == 0
  {
    var f := Settle(s.queue, leader, e);
    var rejections := if leader then StaleAnswers(f.rejected) else SweptAnswers(f.rejected, e.index, e.term);
    var events := ProcessNormal(s.(queue := f.rest), e, f.matched).events;
    SettleSplits(s.queue, leader, e, c);
    EventPerProposal(f.rejected, rejections, WasAnswered, c);
    MatchedConserves(s.(queue := f.rest), e, f.matched, c);
    CountConcat(rejections, events, WasSubmitted, c);
    CountConcat(rejections, events, WasAnswered, c);
    CountConcat(rejections, events, WasLost, c);
  }

  lemma MatchedConserves(s: PeerState, e: Entry, p: Option<Proposal>, c: nat)
    ensures var a := ProcessNormal(s, e, p);
            && Queued(ToSeq(p), c) == Count(a.events, WasAnswered, c) + Count(a.events, WasLost, c)
            && Count(a.events, WasSubmitted, c) == 0
            && a.state.queue == s.queue
  {
    var events := ProcessNormal(s, e, p).events;
    if p.Some? {
      EventPerProposal([p.value], events, FateOf(events[0]), c);
    }
  }

  /** A closure taken off the queue for an entry that is not a no-op is lost only if the entry
      halts the process. */
  lemma LostOnlyByHalting(s: PeerState, leader: bool, e: Entry, c: nat)
    requires Settle(s.queue, leader, e).matched.Some? ==> e.cmd != NoOp
    ensures var a := ProcessEntry(s, leader, e);
            a.state.halted || Count(a.events, WasLost, c) == 0
  {
    var f := Settle(s.queue, leader, e);
    var rejections := if leader then StaleAnswers(f.rejected) else SweptAnswers(f.rejected, e.index, e.term);
    EventPerProposal(f.rejected, rejections, WasAnswered, c);
    CountConcat(rejections, ProcessNormal(s.(queue := f.rest), e, f.matched).events, WasLost, c);
    ReplyLosesNothing(s.(queue := f.rest), e, f.matched, c);
  }

  lemma ReplyLosesNothing(s: PeerState, e: Entry, p: Option<Proposal>, c: nat)
    requires p.Some? ==> e.cmd != NoOp
    ensures var a := ProcessNormal(s, e, p);
            a.state.halted || Count(a.events, WasLost, c) == 0
  {
    var a := ProcessNormal(s, e, p);
    if p.Some? && !a.state.halted {
      EventPerProposal([p.value], a.events, WasAnswered, c);
    }
  }

  /** A whole batch conserves closures too. */
  lemma {:induction false} ProcessEntriesConserves(s: PeerState, leader: bool, es: seq<Entry>, c: nat)
    ensures var a := ProcessEntries(s, leader, es); Accounts(s.queue, a.events, a.state.queue, c)
  {
    if |es| > 0 {
      ProcessEntriesConserves(s, leader, es[..|es| - 1], c);
      var a := ProcessEntries(s, leader, es[..|es| - 1]);
      if !a.state.halted {
        var b := ProcessEntry(a.state, leader, es[|es| - 1]);
        ProcessEntryConserves(a.state, leader, es[|es| - 1], c);
        AccountsConcat(s.queue, a.events, a.state.queue, b.events, b.state.queue, c);
      }
    }
  }

  /** A step of one node that appends `events` and accounts for its own queue. */
  lemma LocalConserves(s: State, s': State, n: nat, events: seq<Event>, c: nat)
    requires Conserved(s, c)
    requires n < |s.nodes| && |s'.nodes| == |s.nodes| && s'.nodes == s.nodes[n := s'.nodes[n]]
    requires s'.history == s.history + events
    requires Accounts(s.nodes[n].peer.queue, events, s'.nodes[n].peer.queue, c)
    requires Bit(c < |s'.requests|) == Bit(c < |s.requests|) + Count(events, WasSubmitted, c)
    ensures Conserved(s', c)
  {
    WaitingUpdate(s.nodes, n, s'.nodes[n], c);
    CountConcat(s.history, events, WasSubmitted, c);
    CountConcat(s.history, events, WasAnswered, c);
    CountConcat(s.history, events, WasLost, c);
  }

  lemma SubmitConserves(s: State, n: nat, cmd: Command, dropped: bool, c: nat)
    requires Conserved(s, c) && Enabled(s, Submit(n, cmd, dropped))
    ensures Conserved(Do(s, Submit(n, cmd, dropped)), c)
  {
    var s' := Do(s, Submit(n, cmd, dropped));
    var d := |s.requests|;
    var first := [Submitted(d)];
    EventPerProposal([Proposal(0, 0, d)], first, WasSubmitted, c);
    if s.nodes[n].leader {
      QueuedConcat(s.nodes[n].peer.queue, [Proposal(|s.nodes[n].log| + 1, s.nodes[n].term, d)], c);
      LocalConserves(s, s', n, first, c);
    } else {
      var second := [Answered(d, NotLeader)];
      EventPerProposal([Proposal(0, 0, d)], second, WasAnswered, c);
      CountConcat(first, second, WasSubmitted, c);
      CountConcat(first, second, WasAnswered, c);
      CountConcat(first, second, WasLost, c);
      assert first + second == [Submitted(d), Answered(d, NotLeader)];
      LocalConserves(s, s', n, first + second, c);
    }
  }

  lemma StepConserves(s: State, step: Step, c: nat)
    requires Conserved(s, c) && Enabled(s, step)
    ensures Conserved(Do(s, step), c)
  {
    var s' := Do(s, step);
    match step
    case Commit(t, len) =>
    case Submit(n, cmd, dropped) => SubmitConserves(s, n, cmd, dropped, c);
    case ApplyOne(n) =>
      var x := s.nodes[n];
      ProcessEntryConserves(x.peer, x.leader, x.log[x.applied], c);
      LocalConserves(s, s', n, ProcessEntry(x.peer, x.leader, x.log[x.applied]).events, c);
    case Restart(n) =>
      EventPerProposal(s.nodes[n].peer.queue, LostAll(s.nodes[n].peer.queue), WasLost, c);
      LocalConserves(s, s', n, LostAll(s.nodes[n].peer.queue), c);
    case _ =>
      LocalConserves(s, s', step.n, [], c);
  }

  lemma {:induction false} NobodyWaits(nodes: seq<Node>, c: nat)
    requires forall n :: 0 <= n < |nodes| ==> nodes[n].peer.queue == []
    ensures Waiting(nodes, c) == 0
  {
    if |nodes| > 0 {
      NobodyWaits(nodes[..|nodes| - 1], c);
    }
  }

  lemma {:induction false} HappenedIsCounted(history: seq<Event>, x: nat)
    requires x < |history|
    ensures Count(history, FateOf(history[x]), history[x].client) >= 1
  {
    if x < |history| - 1 {
      HappenedIsCounted(history[..|history| - 1], x);
    }
  }

  /** Without the leader check in front of it, `ProposeKvOp` would leave the closure of a
      request on a follower unaccounted for: neither queued nor run. */
  lemma ProposeNeedsLeader(s: PeerState, leader: bool, lastIndex: nat, term: nat, c: nat)
    ensures Accounts(s.queue, [Submitted(c)], ProposeKvOp(s, leader, lastIndex, term, c).queue, c) <==> leader
  {
    EventPerProposal([Proposal(0, 0, c)], [Submitted(c)], WasSubmitted, c);
    QueuedConcat(s.queue, [Proposal(lastIndex + 1, term, c)], c);
  }
}
