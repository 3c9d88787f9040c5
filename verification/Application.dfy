/** What applying one committed entry does to the waiting proposals, spelled out on the queue
    before and after and on the events added. It holds in every state, so in every run. */
module Application {
  import opened KvModel
  import opened PeerLogic
  import opened Cluster

  /** The node about to apply, the entry it applies, the node afterwards and the events added. */
  ghost predicate Applies(s: State, n: nat, x: Node, e: Entry, x': Node, events: seq<Event>) {
    && Enabled(s, ApplyOne(n))
    && x == s.nodes[n] && e == x.log[x.applied]
    && x' == Do(s, ApplyOne(n)).nodes[n] && Do(s, ApplyOne(n)).history == s.history + events
  }

  /** A follower empties its queue: every client waiting there is answered, in order, that its
      proposal was swept for this entry, and nobody else hears of it. */
  lemma FollowerSweeps(s: State, n: nat, x: Node, e: Entry, x': Node, events: seq<Event>)
    requires Applies(s, n, x, e, x', events) && !x.leader
    ensures x'.peer.queue == []
    ensures |events| == |x.peer.queue|
    ensures forall k :: 0 <= k < |x.peer.queue| ==>
              events[k] == Answered(x.peer.queue[k].client,
                                    Swept(x.peer.queue[k].index, x.peer.queue[k].term, e.index, e.term))
  {
    assert events == ProcessEntry(x.peer, x.leader, e).events by {
      SameSuffix(s.history, events, ProcessEntry(x.peer, x.leader, e).events);
    }
  }

  lemma SameSuffix(a: seq<Event>, b: seq<Event>, c: seq<Event>)
    requires a + b == a + c
    ensures b == c
  {
    assert b == (a + b)[|a|..] && c == (a + c)[|a|..];
  }

  /** A leader rejects, in order, the longest front of its queue that precedes the entry in
      (term, index), gives the entry to the next proposal if that has its numbers, and keeps the
      rest. At most one event follows the rejections, and it is for that proposal. */
  lemma LeaderSettles(s: State, n: nat, x: Node, e: Entry, x': Node, events: seq<Event>) returns (k: nat)
    requires Applies(s, n, x, e, x', events) && x.leader
    ensures k <= |x.peer.queue| && k <= |events|
    ensures forall j :: 0 <= j < k ==>
              var p := x.peer.queue[j];
              && (p.term < e.term || (p.term == e.term && p.index < e.index))
              && events[j] == Answered(p.client, Stale(p.index, p.term))
    ensures if k < |x.peer.queue| && x.peer.queue[k].index == e.index && x.peer.queue[k].term == e.term
            then x'.peer.queue == x.peer.queue[k + 1..] && |events| == k + 1
                 && events[k].client == x.peer.queue[k].client
            else x'.peer.queue == x.peer.queue[k..] && |events| == k
    ensures k < |x.peer.queue| ==>
              var p := x.peer.queue[k]; e.term < p.term || (e.term == p.term && e.index <= p.index)
  {
    assert events == ProcessEntry(x.peer, true, e).events by {
      SameSuffix(s.history, events, ProcessEntry(x.peer, true, e).events);
    }
    k := StaleCount(x.peer.queue, e.index, e.term);
    EntryEvents(x.peer, e);
  }

  lemma EntryEvents(s: PeerState, e: Entry)
    ensures var a := ProcessEntry(s, true, e);
            var k := StaleCount(s.queue, e.index, e.term);
            && k <= |a.events|
            && (forall j :: 0 <= j < k ==>
                  a.events[j] == Answered(s.queue[j].client, Stale(s.queue[j].index, s.queue[j].term)))
            && (if k < |s.queue| && s.queue[k].index == e.index && s.queue[k].term == e.term
                then a.state.queue == s.queue[k + 1..] && |a.events| == k + 1
                     && a.events[k].client == s.queue[k].client
                else a.state.queue == s.queue[k..] && |a.events| == k)
  {
    var k := StaleCount(s.queue, e.index, e.term);
    var f := FindProposal(s.queue, e.index, e.term);
    ReplyEvents(s.(queue := f.rest), e, f.matched);
    assert |StaleAnswers(f.rejected)| == k;
  }

  /** The proposal returned for an entry has one event, and nobody else has any. */
  lemma ReplyEvents(s: PeerState, e: Entry, p: Option<Proposal>)
    ensures var a := ProcessNormal(s, e, p);
            && a.state.queue == s.queue && |a.events| == |ToSeq(p)|
            && (p.Some? ==> a.events[0].client == p.value.client)
  {
  }
}
