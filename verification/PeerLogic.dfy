/** What the peer's operations compute, as functions of its state. The classes of `PeerImpl`
    are proved against these functions, and the cluster runs on them. */
module PeerLogic {
  import opened KvModel

  datatype PeerState = PeerState(queue: seq<Proposal>, db: Store, halted: bool)

  datatype Effect = Effect(state: PeerState, events: seq<Event>)

  /** The outcome of `GetProposal`: the proposal returned, those rejected, and those left queued. */
  datatype Lookup = Lookup(matched: Option<Proposal>, rejected: seq<Proposal>, rest: seq<Proposal>)

  /** Lexicographic order on (term, index). */
  predicate Before(p: Proposal, index: nat, term: nat) {
    p.term < term || (p.term == term && p.index < index)
  }

  ghost predicate StrictlySorted(q: seq<Proposal>) {
    forall i, j :: 0 <= i < j < |q| ==> Before(q[i], q[j].index, q[j].term)
  }

  /** How many proposals at the front of the queue precede (term, index). */
  function StaleCount(q: seq<Proposal>, index: nat, term: nat): (k: nat)
    ensures k <= |q|
    ensures forall j :: 0 <= j < k ==> Before(q[j], index, term)
    ensures k < |q| ==> !Before(q[k], index, term)
  {
    if |q| == 0 || !Before(q[0], index, term) then 0 else 1 + StaleCount(q[1..], index, term)
  }

  function FindProposal(q: seq<Proposal>, index: nat, term: nat): Lookup {
    var k := StaleCount(q, index, term);
    if k < |q| && q[k].term == term && q[k].index == index
    then Lookup(Some(q[k]), q[..k], q[k + 1..])
    else Lookup(None, q[..k], q[k..])
  }

  function ToSeq(p: Option<Proposal>): seq<Proposal> {
    if p.Some? then [p.value] else []
  }

  function StaleAnswers(ps: seq<Proposal>): seq<Event> {
    seq(|ps|, i requires 0 <= i < |ps| => Answered(ps[i].client, Stale(ps[i].index, ps[i].term)))
  }

  /** `index` and `term` are those of the entry a follower is about to apply. */
  function SweptAnswers(ps: seq<Proposal>, index: nat, term: nat): seq<Event> {
    seq(|ps|, i requires 0 <= i < |ps| =>
      Answered(ps[i].client, Swept(ps[i].index, ps[i].term, index, term)))
  }

  lemma OneMoreStale(ps: seq<Proposal>, k: nat)
    requires k < |ps|
    ensures StaleAnswers(ps[..k + 1]) ==
            StaleAnswers(ps[..k]) + [Answered(ps[k].client, Stale(ps[k].index, ps[k].term))]
  {
  }

  lemma OneMoreSwept(ps: seq<Proposal>, k: nat, index: nat, term: nat)
    requires k < |ps|
    ensures SweptAnswers(ps[..k + 1], index, term) ==
            SweptAnswers(ps[..k], index, term)
            + [Answered(ps[k].client, Swept(ps[k].index, ps[k].term, index, term))]
  {
  }

  function Reply(p: Option<Proposal>, outcome: Outcome): seq<Event> {
    if p.Some? then [Answered(p.value.client, outcome)] else []
  }

  function Forget(p: Option<Proposal>): seq<Event> {
    if p.Some? then [Lost(p.value.client)] else []
  }

  function ProposeKvOp(s: PeerState, leader: bool, lastIndex: nat, term: nat, client: nat): PeerState {
    if leader then s.(queue := s.queue + [Proposal(lastIndex + 1, term, client)]) else s
  }

  function ProcessNormal(s: PeerState, e: Entry, p: Option<Proposal>): Effect {
    match e.cmd
    case NoOp => Effect(s, Forget(p))
    case Get(k) =>
      if k in s.db then Effect(s, Reply(p, Done(e.index, e.term, Some(s.db[k]))))
      else Effect(s.(halted := true), Forget(p))
    case Put(k, v) => Effect(s.(db := s.db[k := v]), Reply(p, Done(e.index, e.term, None)))
    case Del(k) => Effect(s.(db := s.db - {k}), Reply(p, Done(e.index, e.term, None)))
  }

  /** The proposals an entry settles: on a leader by lookup, otherwise all of them. */
  function Settle(q: seq<Proposal>, leader: bool, e: Entry): Lookup {
    if leader then FindProposal(q, e.index, e.term) else Lookup(None, q, [])
  }

  function ProcessEntry(s: PeerState, leader: bool, e: Entry): Effect {
    var f := Settle(s.queue, leader, e);
    var rejections := if leader then StaleAnswers(f.rejected) else SweptAnswers(f.rejected, e.index, e.term);
    var a := ProcessNormal(s.(queue := f.rest), e, f.matched);
    Effect(a.state, rejections + a.events)
  }

  /** What one more entry adds to a batch that has not halted. */
  function Then(a: Effect, b: Effect): Effect {
    Effect(b.state, a.events + b.events)
  }

  /** A batch of committed entries; a halted process handles no more of them. */
  function ProcessEntries(s: PeerState, leader: bool, es: seq<Entry>): Effect {
    if |es| == 0 then Effect(s, [])
    else
      var a := ProcessEntries(s, leader, es[..|es| - 1]);
      if a.state.halted then a
      else
        Then(a, ProcessEntry(a.state, leader, es[|es| - 1]))
  }

  /** On a strictly sorted queue the lookup is a three-way partition: the proposals strictly
      before (term, index) are rejected, the one at (term, index) is returned exactly when
      there is one, and those strictly after it stay queued in order. */
  lemma FindProposalPartitions(q: seq<Proposal>, index: nat, term: nat)
    requires StrictlySorted(q)
    ensures var f := FindProposal(q, index, term);
            && q == f.rejected + ToSeq(f.matched) + f.rest
            && (forall i :: 0 <= i < |f.rejected| ==> Before(f.rejected[i], index, term))
            && (forall i :: 0 <= i < |f.rest| ==>
                  Before(Proposal(index, term, 0), f.rest[i].index, f.rest[i].term))
            && (f.matched.Some? ==> f.matched.value.index == index && f.matched.value.term == term)
            && (f.matched.None? ==> forall i :: 0 <= i < |q| ==> q[i].index != index || q[i].term != term)
  {
    FindSplits(q, index, term);
    var k := StaleCount(q, index, term);
    RestIsLater(q, index, term, k, |q| - |FindProposal(q, index, term).rest|);
  }

  /** The lookup loses no proposal and reorders none, on any queue. */
  lemma FindSplits(q: seq<Proposal>, index: nat, term: nat)
    ensures var f := FindProposal(q, index, term); q == f.rejected + ToSeq(f.matched) + f.rest
  {
    var k := StaleCount(q, index, term);
    if k < |q| && q[k].term == term && q[k].index == index {
      assert q == q[..k] + [q[k]] + q[k + 1..];
    } else {
      assert q == q[..k] + [] + q[k..];
    }
  }

  lemma RestIsLater(q: seq<Proposal>, index: nat, term: nat, k: nat, m: nat)
    requires StrictlySorted(q)
    requires k <= m <= |q|
    requires k < |q| ==> !Before(q[k], index, term)
    requires m == if k < |q| && q[k].term == term && q[k].index == index then k + 1 else k
    ensures forall j :: m <= j < |q| ==> Before(Proposal(index, term, 0), q[j].index, q[j].term)
  {
    forall j | m <= j < |q|
      ensures Before(Proposal(index, term, 0), q[j].index, q[j].term)
    {
      assert k < j ==> Before(q[k], q[j].index, q[j].term);
    }
  }

  /** One more entry at the end of a batch is handled after the batch, unless that halted. */
  lemma LongerBatch(s: PeerState, leader: bool, es: seq<Entry>, n: nat)
    requires n < |es|
    ensures var a := ProcessEntries(s, leader, es[..n]);
            ProcessEntries(s, leader, es[..n + 1]) ==
            if a.state.halted then a else Then(a, ProcessEntry(a.state, leader, es[n]))
  {
    assert es[..n + 1][..n] == es[..n];
  }

  /** A state and an event list to which a batch has been applied. */
  ghost predicate BatchApplied(s: PeerState, events: seq<Event>, leader: bool, es: seq<Entry>, n: nat,
                               s': PeerState, events': seq<Event>)
    requires n <= |es|
  {
    var a := ProcessEntries(s, leader, es[..n]);
    s' == a.state && events' == events + a.events
  }

  lemma ThenAppends(events: seq<Event>, a: Effect, b: Effect)
    ensures events + Then(a, b).events == (events + a.events) + b.events
  {
  }

  lemma BatchAppliedStep(s: PeerState, events: seq<Event>, leader: bool, es: seq<Entry>, n: nat,
                         s': PeerState, events': seq<Event>, b: Effect)
    requires n < |es| && !s'.halted && b == ProcessEntry(s', leader, es[n])
    requires BatchApplied(s, events, leader, es, n, s', events')
    ensures BatchApplied(s, events, leader, es, n + 1, b.state, events' + b.events)
  {
    LongerBatch(s, leader, es, n);
    ThenAppends(events, ProcessEntries(s, leader, es[..n]), b);
  }

  /** A batch that halts on its first `n` entries handles no more. */
  lemma {:induction false} HaltedBatch(s: PeerState, leader: bool, es: seq<Entry>, n: nat)
    requires n <= |es| && ProcessEntries(s, leader, es[..n]).state.halted
    ensures ProcessEntries(s, leader, es) == ProcessEntries(s, leader, es[..n])
    decreases |es|
  {
    if n == |es| {
      assert es[..n] == es;
    } else {
      assert es[..|es| - 1][..n] == es[..n];
      HaltedBatch(s, leader, es[..|es| - 1], n);
    }
  }

  /** A batch is over at its end or where it halts. */
  lemma BatchAppliedWhole(s: PeerState, events: seq<Event>, leader: bool, es: seq<Entry>, n: nat,
                          s': PeerState, events': seq<Event>)
    requires n <= |es| && BatchApplied(s, events, leader, es, n, s', events') && (n == |es| || s'.halted)
    ensures var a := ProcessEntries(s, leader, es); s' == a.state && events' == events + a.events
  {
    if n == |es| {
      assert es[..n] == es;
    } else {
      HaltedBatch(s, leader, es, n);
    }
  }
}
