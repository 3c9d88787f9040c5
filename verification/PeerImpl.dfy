/** The objects that hold a peer's state, with the operations that update them in place. Each
    method is proved against the functions of `PeerLogic` and `Members`. */
module PeerImpl {
  import opened KvModel
  import L = PeerLogic
  import M = Members

  /** What the clients observe: running a closure hands over what its response holds. */
  class AnswerLog {
    var events: seq<Event>

    constructor ()
      ensures events == []
    {
      events := [];
    }

    method Run(client: nat, outcome: Outcome)
      modifies this
      ensures events == old(events) + [Answered(client, outcome)]
    {
      events := events + [Answered(client, outcome)];
    }
  }

  /** Runs the closure it holds when it is destroyed or reset, unless it was released. */
  class ClosureGuard {
    var done: Option<nat>
    const log: AnswerLog

    constructor (log: AnswerLog, done: Option<nat>)
      ensures this.log == log && this.done == done
    {
      this.log := log;
      this.done := done;
    }

    /** The destructor; `outcome` is what the response holds by then. */
    method Destroy(outcome: Outcome)
      modifies this, log
      ensures done == None
      ensures log.events ==
              old(log.events) + if old(done).Some? then [Answered(old(done).value, outcome)] else []
    {
      if done.Some? {
        log.Run(done.value, outcome);
      }
      done := None;
    }

    method Reset(next: Option<nat>, outcome: Outcome)
      modifies this, log
      ensures done == next
      ensures log.events ==
              old(log.events) + if old(done).Some? then [Answered(old(done).value, outcome)] else []
    {
      if done.Some? {
        log.Run(done.value, outcome);
      }
      done := next;
    }

    method Release() returns (prev: Option<nat>)
      modifies this
      ensures done == None && prev == old(done)
    {
      prev := done;
      done := None;
    }

    method Swap(other: ClosureGuard)
      modifies this, other
      ensures done == old(other.done) && other.done == old(done)
    {
      done, other.done := other.done, done;
    }
  }

  /** The key-value database on disk; it outlives the peer that uses it. */
  class DiskStorage {
    var data: Store

    constructor ()
      ensures data == map[]
    {
      data := map[];
    }

    /** `None` is where a failed read stops the process. */
    method Get(key: Bytes) returns (val: Option<Bytes>)
      ensures val == if key in data then Some(data[key]) else None
    {
      if key in data {
        val := Some(data[key]);
      } else {
        val := None;
      }
    }

    method Put(key: Bytes, val: Bytes)
      modifies this
      ensures data == old(data)[key := val]
    {
      data := data[key := val];
    }

    method Del(key: Bytes)
      modifies this
      ensures data == old(data) - {key}
    {
      data := data - {key};
    }
  }

  /** The part of jraft's RawNode a peer looks at. Raft changes it between the peer's calls. */
  class RawNode {
    var leader: bool
    var term: nat
    var log: seq<Entry>

    /** A starting node: the storage handed to Raft is in memory and empty. */
    constructor ()
      ensures !leader && term == 0 && log == []
    {
      leader, term, log := false, 0, [];
    }

    function LastIndex(): nat
      reads this
    {
      |log|
    }

    /** On a leader the proposal becomes the next entry, unless Raft refuses it. A proposal on a
        follower is forwarded and leaves the local log alone. */
    method Propose(cmd: Command, client: nat, accepted: bool)
      modifies this
      ensures leader == old(leader) && term == old(term)
      ensures log == if leader && accepted
                     then old(log) + [Entry(|old(log)| + 1, term, cmd, Some(client))]
                     else old(log)
    {
      if leader && accepted {
        log := log + [Entry(|log| + 1, term, cmd, Some(client))];
      }
    }
  }

  class Peer {
    const raft: RawNode
    const kvDb: DiskStorage
    const log: AnswerLog
    var proposals: seq<Proposal>
    var peers: map<nat, M.GroupMember>
    var halted: bool

    function State(): L.PeerState
      reads this, kvDb
    {
      L.PeerState(proposals, kvDb.data, halted)
    }

    /** A starting process: the database is whatever is on disk, nothing is queued, and a bad
        member list stops it. */
    constructor (raft: RawNode, kvDb: DiskStorage, log: AnswerLog, members: string)
      ensures this.raft == raft && this.kvDb == kvDb && this.log == log
      ensures State() == L.PeerState([], kvDb.data, M.ParseMembers(members).None?)
      ensures !halted ==> peers == M.ParseMembers(members).value
    {
      this.raft := raft;
      this.kvDb := kvDb;
      this.log := log;
      proposals := [];
      peers := map[];
      halted := false;
      new;
      InitGroupMembers(members);
    }

    method InitGroupMembers(members: string)
      requires peers == map[] && !halted
      modifies this`peers, this`halted
      ensures halted == M.ParseMembers(members).None? == !M.ListsMembers(M.Split(members, '|'))
      ensures !halted ==> peers == M.ParseMembers(members).value
    {
      M.TextAcceptedExactly(members);
      InsertMembers(M.MembersOf(M.Split(members, '|')));
    }

    /** The loop over the parts; the first one that is refused stops the process. */
    method InsertMembers(ms: seq<Option<M.GroupMember>>)
      requires peers == map[] && !halted
      modifies this`peers, this`halted
      ensures M.Table(ms, |ms|) == if halted then None else Some(peers)
    {
      var n := 0;
      while n < |ms| && !halted
        invariant 0 <= n <= |ms|
        invariant M.Table(ms, n) == if halted then None else Some(peers)
      {
        if ms[n].None? || ms[n].value.hostId in peers {
          halted := true;
        } else {
          peers := peers[ms[n].value.hostId := ms[n].value];
        }
        n := n + 1;
      }
      if halted {
        RefusedPart(ms, n, |ms|);
      }
    }

    /** Once a part has been refused, the whole list is. */
    static lemma {:induction false} RefusedPart(ms: seq<Option<M.GroupMember>>, n: nat, k: nat)
      requires n <= k <= |ms| && M.Table(ms, n).None?
      ensures M.Table(ms, k).None?
      decreases k
    {
      if n < k {
        RefusedPart(ms, n, k - 1);
      }
    }

    method ProposeKvOp(cmd: Command, client: nat, accepted: bool)
      modifies this`proposals, raft
      ensures State() == L.ProposeKvOp(old(State()), old(raft.leader), |old(raft.log)|, old(raft.term), client)
      ensures raft.leader == old(raft.leader) && raft.term == old(raft.term)
      ensures raft.log == if raft.leader && accepted
                          then old(raft.log) + [Entry(|old(raft.log)| + 1, raft.term, cmd, Some(client))]
                          else old(raft.log)
    {
      var ni := raft.LastIndex() + 1;
      var p := Proposal(ni, raft.term, client);
      if raft.leader {
        proposals := proposals + [p];
      }
      raft.Propose(cmd, client, accepted);
    }

    method GetProposal(index: nat, term: nat) returns (p: Option<Proposal>)
      modifies this`proposals, log
      ensures var f := L.FindProposal(old(proposals), index, term);
              && p == f.matched && proposals == f.rest
              && log.events == old(log.events) + L.StaleAnswers(f.rejected)
    {
      ghost var q := proposals;
      ghost var k := 0;
      while proposals != []
        invariant 0 <= k <= |q| && proposals == q[k..]
        invariant forall j :: 0 <= j < k ==> L.Before(q[j], index, term)
        invariant log.events == old(log.events) + L.StaleAnswers(q[..k])
        decreases |proposals|
      {
        var front := proposals[0];
        FoundAt(q, index, term, k);
        if term == front.term {
          if index == front.index {
            proposals := proposals[1..];
            return Some(front);
          }
          if index < front.index {
            return None;
          }
          proposals := proposals[1..];
          log.Run(front.client, Stale(front.index, front.term));
        } else {
          if term < front.term {
            return None;
          }
          proposals := proposals[1..];
          log.Run(front.client, Stale(front.index, front.term));
        }
        L.OneMoreStale(q, k);
        k := k + 1;
      }
      FoundAt(q, index, term, k);
      return None;
    }

    /** The lookup, once every proposal ahead of position `k` has been passed over. */
    static lemma FoundAt(q: seq<Proposal>, index: nat, term: nat, k: nat)
      requires k <= |q|
      requires forall j :: 0 <= j < k ==> L.Before(q[j], index, term)
      ensures k == |q| ==> L.FindProposal(q, index, term) == L.Lookup(None, q, [])
      ensures k < |q| && !L.Before(q[k], index, term) ==>
                L.FindProposal(q, index, term) ==
                if q[k].term == term && q[k].index == index then L.Lookup(Some(q[k]), q[..k], q[k + 1..])
                else L.Lookup(None, q[..k], q[k..])
    {
      if k == |q| || !L.Before(q[k], index, term) {
        StaleCountIs(q, index, term, k);
      }
    }

    static lemma {:induction false} StaleCountIs(q: seq<Proposal>, index: nat, term: nat, k: nat)
      requires k <= |q|
      requires forall j :: 0 <= j < k ==> L.Before(q[j], index, term)
      requires k < |q| ==> !L.Before(q[k], index, term)
      ensures L.StaleCount(q, index, term) == k
    {
      if k > 0 {
        StaleCountIs(q[1..], index, term, k - 1);
      }
    }

    /** `index` and `term`, of the entry about to be applied, are bookkeeping. */
    method CallbackAll(index: nat, term: nat)
      modifies this`proposals, log
      ensures proposals == []
      ensures log.events == old(log.events) + L.SweptAnswers(old(proposals), index, term)
    {
      for n := 0 to |proposals|
        invariant proposals == old(proposals)
        invariant log.events == old(log.events) + L.SweptAnswers(proposals[..n], index, term)
      {
        log.Run(proposals[n].client, Swept(proposals[n].index, proposals[n].term, index, term));
        L.OneMoreSwept(proposals, n, index, term);
      }
      assert proposals[..|proposals|] == proposals;
      proposals := [];
    }

    /** A closure taken off the queue but not run is gone with the process, or leaked. */
    method ProcessNormal(e: Entry, p: Option<Proposal>)
      requires !halted
      modifies this`halted, kvDb, log
      ensures var a := L.ProcessNormal(old(State()), e, p);
              State() == a.state && log.events == old(log.events) + a.events
      ensures match e.cmd
              case NoOp => kvDb.data == old(kvDb.data) && !halted
              case Get(key) => kvDb.data == old(kvDb.data) && halted == (key !in kvDb.data)
              case Put(key, value) => kvDb.data == old(kvDb.data)[key := value] && !halted
              case Del(key) => kvDb.data == old(kvDb.data) - {key} && !halted
      ensures p.None? ==> log.events == old(log.events)
      ensures p.Some? && e.cmd != NoOp && !halted ==>
                var value := if e.cmd.Get? then Some(kvDb.data[e.cmd.key]) else None;
                log.events == old(log.events) + [Answered(p.value.client, Done(e.index, e.term, value))]
    {
      match e.cmd
      case NoOp =>
        Forget(p);
      case Get(key) =>
        var val := kvDb.Get(key);
        if val.None? {
          halted := true;
          Forget(p);
        } else if p.Some? {
          log.Run(p.value.client, Done(e.index, e.term, val));
        }
      case Put(key, value) =>
        kvDb.Put(key, value);
        if p.Some? {
          log.Run(p.value.client, Done(e.index, e.term, None));
        }
      case Del(key) =>
        kvDb.Del(key);
        if p.Some? {
          log.Run(p.value.client, Done(e.index, e.term, None));
        }
    }

    /** Bookkeeping only: the closure will never run. */
    method Forget(p: Option<Proposal>)
      modifies log
      ensures log.events == old(log.events) + L.Forget(p)
    {
      if p.Some? {
        log.events := log.events + [Lost(p.value.client)];
      }
    }

    method ProcessEntry(e: Entry)
      requires !halted
      modifies this`proposals, this`halted, kvDb, log
      ensures var a := L.ProcessEntry(old(State()), raft.leader, e);
              State() == a.state && log.events == old(log.events) + a.events
      ensures !raft.leader ==>
                && proposals == []
                && log.events == old(log.events) + L.SweptAnswers(old(proposals), e.index, e.term)
    {
      var p := None;
      if raft.leader {
        p := GetProposal(e.index, e.term);
      } else {
        CallbackAll(e.index, e.term);
      }
      ProcessNormal(e, p);
    }

    method ProcessEntries(es: seq<Entry>)
      requires !halted
      modifies this`proposals, this`halted, kvDb, log
      ensures var a := L.ProcessEntries(old(State()), raft.leader, es);
              State() == a.state && log.events == old(log.events) + a.events
    {
      ghost var start, events := State(), log.events;
      for n := 0 to |es|
        invariant !halted
        invariant L.BatchApplied(start, events, raft.leader, es, n, State(), log.events)
      {
        L.BatchAppliedStep(start, events, raft.leader, es, n, State(), log.events,
                           L.ProcessEntry(State(), raft.leader, es[n]));
        ProcessEntry(es[n]);
        if halted {
          L.BatchAppliedWhole(start, events, raft.leader, es, n + 1, State(), log.events);
          return;
        }
      }
      L.BatchAppliedWhole(start, events, raft.leader, es, |es|, State(), log.events);
    }

    /** One Ready of Raft, if there is one: its committed entries are processed in order. */
    method HandleRaftReady(ready: Option<seq<Entry>>)
      requires !halted
      modifies this`proposals, this`halted, kvDb, log
      ensures var a := L.ProcessEntries(old(State()), raft.leader, if ready.Some? then ready.value else []);
              State() == a.state && log.events == old(log.events) + a.events
    {
      if ready.None? {
        return;
      }
      if ready.value != [] {
        ProcessEntries(ready.value);
      }
    }
  }

  /** The request handler of a host, which looks for the local peer of group 1. */
  class KvService {
    const localPeers: map<nat, Peer>
    const log: AnswerLog
    var halted: bool

    constructor (localPeers: map<nat, Peer>, log: AnswerLog)
      ensures this.localPeers == localPeers && this.log == log && !halted
    {
      this.localPeers := localPeers;
      this.log := log;
      halted := false;
    }

    /** A request on a peer that does not lead is answered on the spot and never queued; on a
        leader it is queued and proposed. Either way the closure is in exactly one place. */
    method KvOpCb(cmd: Command, client: nat, accepted: bool)
      requires !halted
      requires forall i :: i in localPeers ==> localPeers[i].log == log
      modifies this`halted, log
      modifies if 1 in localPeers then {localPeers[1], localPeers[1].raft} else {}
      ensures halted == (1 !in localPeers)
      ensures halted ==> log.events == old(log.events)
      ensures 1 in localPeers ==>
                && localPeers[1].raft.leader == old(localPeers[1].raft.leader)
                && localPeers[1].raft.term == old(localPeers[1].raft.term)
      ensures 1 in localPeers && !old(localPeers[1].raft.leader) ==>
                && localPeers[1].State() == old(localPeers[1].State())
                && localPeers[1].raft.log == old(localPeers[1].raft.log)
                && log.events == old(log.events) + [Answered(client, NotLeader)]
      ensures 1 in localPeers && old(localPeers[1].raft.leader) ==>
                var peer := localPeers[1];
                && peer.State() == L.ProposeKvOp(old(peer.State()), true, |old(peer.raft.log)|,
                                                 old(peer.raft.term), client)
                && peer.State().queue == old(peer.State()).queue
                                         + [Proposal(|old(peer.raft.log)| + 1, old(peer.raft.term), client)]
                && log.events == old(log.events)
                && peer.raft.log == if accepted
                   then old(peer.raft.log) + [Entry(|old(peer.raft.log)| + 1, old(peer.raft.term), cmd, Some(client))]
                   else old(peer.raft.log)
    {
      if 1 !in localPeers {
        halted := true;
        return;
      }
      var peer := localPeers[1];
      if !peer.raft.leader {
        var guard := new ClosureGuard(log, Some(client));
        guard.Destroy(NotLeader);
        return;
      }
      peer.ProposeKvOp(cmd, client, accepted);
    }
  }
}
