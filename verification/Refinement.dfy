/** The peer's methods carry out the steps of the cluster: what they do to the objects of one
    host is what the step does to that node. */
module Refinement {
  import opened KvModel
  import C = Cluster
  import L = PeerLogic
  import T = Theorems
  import opened PeerImpl

  /** Node `n` of the cluster is the host of `peer`; what Raft knows and the bookkeeping are
      not the peer's. */
  ghost predicate Shows(peer: Peer, s: C.State, n: nat)
    reads peer, peer.raft, peer.kvDb
  {
    && n < |s.nodes|
    && s.nodes[n].leader == peer.raft.leader && s.nodes[n].term == peer.raft.term
    && s.nodes[n].log == peer.raft.log && s.nodes[n].peer == peer.State()
  }

  /** The events added to the log of this host are the events added to the cluster's history. */
  ghost predicate Added(log: seq<Event>, log': seq<Event>, history: seq<Event>, history': seq<Event>) {
    exists events :: log' == log + events && history' == history + events
  }

  lemma SubmitHistory(s: C.State, n: nat, cmd: Command, dropped: bool)
    requires n < |s.nodes|
    ensures var events := if s.nodes[n].leader then [] else [Answered(|s.requests|, NotLeader)];
            C.DoSubmit(s, n, cmd, dropped).history == (s.history + [Submitted(|s.requests|)]) + events
  {
  }

  /** A request handled by `KvOpCb` is a `Submit` step. */
  method SubmitStep(service: KvService, ghost s: C.State, ghost n: nat, cmd: Command, client: nat, accepted: bool)
    requires !service.halted && 1 in service.localPeers
    requires forall i :: i in service.localPeers ==> service.localPeers[i].log == service.log
    requires Shows(service.localPeers[1], s, n) && client == |s.requests|
    modifies service, service.log, service.localPeers[1], service.localPeers[1].raft
    ensures var s' := C.DoSubmit(s, n, cmd, !accepted);
            && Shows(service.localPeers[1], s', n)
            && Added(old(service.log.events), service.log.events, s.history + [Submitted(client)], s'.history)
  {
    ghost var before := service.log.events;
    service.KvOpCb(cmd, client, accepted);
    ghost var events := if s.nodes[n].leader then [] else [Answered(client, NotLeader)];
    assert service.log.events == before + events;
    SubmitHistory(s, n, cmd, !accepted);
  }

  /** An entry handled by `ProcessEntry` is an `ApplyOne` step. */
  method ApplyStep(peer: Peer, ghost s: C.State, ghost n: nat, e: Entry)
    requires !peer.halted && Shows(peer, s, n)
    requires s.nodes[n].applied < |s.nodes[n].log| && e == s.nodes[n].log[s.nodes[n].applied]
    modifies peer`proposals, peer`halted, peer.kvDb, peer.log
    ensures var s' := C.DoApplyOne(s, n);
            && Shows(peer, s', n)
            && Added(old(peer.log.events), peer.log.events, s.history, s'.history)
  {
    ghost var before, start, leads := peer.log.events, peer.State(), peer.raft.leader;
    peer.ProcessEntry(e);
    assert peer.log.events == before + L.ProcessEntry(start, leads, e).events;
  }

  /** The committed entries a Ready hands to node `n`: its next ones. */
  ghost predicate NextEntries(s: C.State, n: nat, entries: seq<Entry>)
    requires n < |s.nodes|
  {
    var x := s.nodes[n];
    && x.applied + |entries| <= x.commit <= |x.log|
    && entries == x.log[x.applied..x.applied + |entries|]
  }

  /** `s'` is `s` after node `n` has handled `entries`, with the given effect on its peer. */
  ghost predicate Handled(s: C.State, s': C.State, n: nat, entries: seq<Entry>, a: L.Effect)
    requires n < |s.nodes|
  {
    && n < |s'.nodes| && s'.history == s.history + a.events
    && var x, x' := s.nodes[n], s'.nodes[n];
       && x'.leader == x.leader && x'.term == x.term && x'.log == x.log && x'.peer == a.state
       && (a.state.halted || x'.applied == x.applied + |entries|)
  }

  lemma BatchIsHandled(s: C.State, s': C.State, n: nat, entries: seq<Entry>, a: L.Effect)
    requires n < |s.nodes| && T.BatchEffect(s, s', n, |entries|, a)
    ensures Handled(s, s', n, entries, a)
  {
  }

  lemma ReadyTrace(s: C.State, n: nat, entries: seq<Entry>) returns (trace: seq<C.State>)
    requires C.Running(s, n) && NextEntries(s, n, entries)
    ensures T.ApplyRun(trace, n) && trace[0] == s
    ensures Handled(s, trace[|trace| - 1], n, entries,
                    L.ProcessEntries(s.nodes[n].peer, s.nodes[n].leader, entries))
  {
    trace := T.BatchIsApplyRun(s, n, |entries|);
    assert T.BatchRun(trace, s, n, |entries|);
    BatchIsHandled(s, trace[|trace| - 1], n, entries,
                   L.ProcessEntries(s.nodes[n].peer, s.nodes[n].leader, entries));
  }

  /** A Ready handled by `HandleRaftReady` is a run of `ApplyOne` steps, one for each of its
      committed entries up to the one that halts. */
  method ReadyRun(peer: Peer, ghost s: C.State, ghost n: nat, ready: Option<seq<Entry>>)
    returns (ghost trace: seq<C.State>)
    requires !peer.halted && Shows(peer, s, n)
    requires NextEntries(s, n, if ready.Some? then ready.value else [])
    modifies peer`proposals, peer`halted, peer.kvDb, peer.log
    ensures T.ApplyRun(trace, n) && trace[0] == s
    ensures var s' := trace[|trace| - 1];
            && Shows(peer, s', n)
            && Added(old(peer.log.events), peer.log.events, s.history, s'.history)
            && (peer.halted || s'.nodes[n].applied ==
                               s.nodes[n].applied + if ready.Some? then |ready.value| else 0)
  {
    ghost var before, start, leads := peer.log.events, peer.State(), peer.raft.leader;
    ghost var entries := if ready.Some? then ready.value else [];
    trace := ReadyTrace(s, n, entries);
    peer.HandleRaftReady(ready);
    assert peer.log.events == before + L.ProcessEntries(start, leads, entries).events;
  }

  /** A process started on an existing database is the node after a `Restart` step. */
  method RestartStep(disk: DiskStorage, log: AnswerLog, members: string, ghost s: C.State, ghost n: nat)
    returns (peer: Peer)
    requires n < |s.nodes| && s.nodes[n].peer.db == disk.data
    ensures peer.halted || Shows(peer, C.DoRestart(s, n), n)
  {
    var raft := new RawNode();
    peer := new Peer(raft, disk, log, members);
  }
}
