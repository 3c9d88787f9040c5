/** The database across restarts. It survives a restart while the applied index goes back to
    0, so a restarted peer applies old entries to a database that already holds later ones. */
module Replay {
  import opened KvModel
  import opened PeerLogic
  import opened Cluster
  import opened RaftEnvironment

  /** On the keys written so far in this life, the database is the sequential map. */
  ghost predicate AgreesOnTouched(db: Store, committed: seq<Entry>, applied: nat)
    requires applied <= |committed|
  {
    forall k :: Touched(committed, applied, k) ==>
                  && (k in db <==> k in After(committed, applied))
                  && (k in db ==> db[k] == After(committed, applied)[k])
  }

  ghost predicate ReplayOk(x: Node, committed: seq<Entry>) {
    && x.applied <= x.peak <= |committed|
    && AgreesOnTouched(x.peer.db, committed, x.applied)
    // Any other key was written by an entry applied in an earlier life.
    && (forall k :: k in x.peer.db ==> Touched(committed, x.peak, k))
    && (forall i :: 0 <= i < x.peak ==> !ReadsMissing(committed, i))
    && (x.peer.halted ==> x.applied == x.peak < |committed| && ReadsMissing(committed, x.applied))
  }

  ghost predicate ReplayInv(s: State) {
    forall n :: 0 <= n < |s.nodes| ==> ReplayOk(s.nodes[n], s.committed)
  }

  /** A peer that has caught up with its own past holds exactly the sequential map. */
  lemma CaughtUp(x: Node, committed: seq<Entry>)
    requires ReplayOk(x, committed)
    requires x.applied == x.peak
    ensures x.peer.db == After(committed, x.applied)
  {
    forall k
      ensures k in x.peer.db <==> k in After(committed, x.applied)
      ensures k in x.peer.db ==> x.peer.db[k] == After(committed, x.applied)[k]
    {
      if k in After(committed, x.applied) {
        HeldIsTouched(committed, x.applied, k);
      }
    }
  }

  /** Even in the middle of a replay, the database answers the next Get like the sequential map. */
  lemma NextGetIsSequential(x: Node, committed: seq<Entry>)
    requires ReplayOk(x, committed)
    requires x.applied < |committed| && committed[x.applied].cmd.Get?
    ensures var k := committed[x.applied].cmd.key;
            && (k in x.peer.db <==> k in After(committed, x.applied))
            && (k in x.peer.db ==> x.peer.db[k] == After(committed, x.applied)[k])
  {
    if x.applied == x.peak {
      CaughtUp(x, committed);
    } else {
      assert !ReadsMissing(committed, x.applied);
      HeldIsTouched(committed, x.applied, committed[x.applied].cmd.key);
    }
  }

  lemma WriteKeepsAgreement(db: Store, committed: seq<Entry>, applied: nat)
    requires applied < |committed|
    requires AgreesOnTouched(db, committed, applied)
    ensures AgreesOnTouched(Exec(db, committed[applied].cmd), committed, applied + 1)
  {
    var db' := Exec(db, committed[applied].cmd);
    forall k | Touched(committed, applied + 1, k)
      ensures k in db' <==> k in After(committed, applied + 1)
      ensures k in db' ==> db'[k] == After(committed, applied + 1)[k]
    {
      assert Writes(committed[applied].cmd, k) || Touched(committed, applied, k);
    }
  }

  lemma WriteKeepsTouched(db: Store, committed: seq<Entry>, applied: nat, peak: nat)
    requires applied < |committed| && applied <= peak <= |committed|
    requires forall k :: k in db ==> Touched(committed, peak, k)
    ensures var peak' := if peak < applied + 1 then applied + 1 else peak;
            forall k :: k in Exec(db, committed[applied].cmd) ==> Touched(committed, peak', k)
  {
    var peak' := if peak < applied + 1 then applied + 1 else peak;
    forall k | k in Exec(db, committed[applied].cmd)
      ensures Touched(committed, peak', k)
    {
      if Writes(committed[applied].cmd, k) {
        assert Touched(committed, applied + 1, k);
        TouchedGrows(committed, applied + 1, peak', k);
      } else {
        TouchedGrows(committed, peak, peak', k);
      }
    }
  }

  /** What applying an entry does to the database, and when it halts the process. */
  lemma ProcessEntryStore(s: PeerState, leader: bool, e: Entry)
    ensures var a := ProcessEntry(s, leader, e).state;
            && a.db == Exec(s.db, e.cmd)
            && (a.halted <==> s.halted || (e.cmd.Get? && e.cmd.key !in s.db))
  {
  }

  /** The process halts on applying an entry exactly when the entry reads a key that the
      sequential map does not hold there, whatever the database kept from earlier lives. */
  lemma HaltsExactlyOnMissingRead(s: State, n: nat)
    requires EnvInv(s) && ReplayInv(s) && Enabled(s, ApplyOne(n))
    ensures s.nodes[n].applied < |s.committed|
    ensures DoApplyOne(s, n).nodes[n].peer.halted <==> ReadsMissing(s.committed, s.nodes[n].applied)
  {
    var x := s.nodes[n];
    assert NodeOk(s, n);
    assert ReplayOk(x, s.committed);
    assert x.log[x.applied] == s.committed[x.applied];
    ProcessEntryStore(x.peer, x.leader, x.log[x.applied]);
    if x.log[x.applied].cmd.Get? {
      NextGetIsSequential(x, s.committed);
    }
  }

  lemma AdvanceKeepsReplay(x: Node, x': Node, committed: seq<Entry>)
    requires ReplayOk(x, committed)
    requires x.applied < |committed| && !ReadsMissing(committed, x.applied)
    requires x'.peer.db == Exec(x.peer.db, committed[x.applied].cmd) && !x'.peer.halted
    requires x'.applied == x.applied + 1
    requires x'.peak == if x.peak < x'.applied then x'.applied else x.peak
    ensures ReplayOk(x', committed)
  {
    WriteKeepsAgreement(x.peer.db, committed, x.applied);
    WriteKeepsTouched(x.peer.db, committed, x.applied, x.peak);
  }

  lemma HaltKeepsReplay(x: Node, x': Node, committed: seq<Entry>)
    requires ReplayOk(x, committed)
    requires x.applied < |committed| && ReadsMissing(committed, x.applied)
    requires x'.peer.db == x.peer.db && x'.applied == x.applied && x'.peak == x.peak
    ensures ReplayOk(x', committed)
  {
  }

  lemma ApplyKeepsReplay(s: State, n: nat)
    requires EnvInv(s) && ReplayInv(s) && Enabled(s, ApplyOne(n))
    ensures ReplayOk(DoApplyOne(s, n).nodes[n], s.committed)
  {
    var x := s.nodes[n];
    var x' := DoApplyOne(s, n).nodes[n];
    assert NodeOk(s, n);
    assert ReplayOk(x, s.committed);
    assert x.log[x.applied] == s.committed[x.applied];
    HaltsExactlyOnMissingRead(s, n);
    ProcessEntryStore(x.peer, x.leader, x.log[x.applied]);
    if ReadsMissing(s.committed, x.applied) {
      HaltKeepsReplay(x, x', s.committed);
    } else {
      AdvanceKeepsReplay(x, x', s.committed);
    }
  }

  lemma ReplayOkGrows(x: Node, committed: seq<Entry>, committed': seq<Entry>)
    requires ReplayOk(x, committed) && Agree(committed, committed', |committed|)
    ensures ReplayOk(x, committed')
  {
    AfterAgree(committed, committed', x.applied);
    AfterAgree(committed, committed', x.peak);
    forall i | 0 <= i < |committed|
      ensures ReadsMissing(committed', i) == ReadsMissing(committed, i)
    {
      AfterAgree(committed, committed', i);
    }
  }

  lemma RestartKeepsReplay(x: Node, committed: seq<Entry>)
    requires ReplayOk(x, committed)
    ensures ReplayOk(x.(applied := 0, peer := x.peer.(halted := false)), committed)
  {
  }

  lemma StepKeepsReplay(s: State, step: Step)
    requires EnvInv(s) && ReplayInv(s) && Enabled(s, step)
    ensures ReplayInv(Do(s, step))
  {
    var s' := Do(s, step);
    StepGrows(s, step);
    if step.ApplyOne? {
      ApplyKeepsReplay(s, step.n);
    }
    forall m | 0 <= m < |s'.nodes|
      ensures ReplayOk(s'.nodes[m], s'.committed)
    {
      assert ReplayOk(s.nodes[m], s.committed);
      ReplayOkGrows(s.nodes[m], s.committed, s'.committed);
      if step.Restart? && m == step.n {
        RestartKeepsReplay(s.nodes[m], s.committed);
      }
    }
  }
}
