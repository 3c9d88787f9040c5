/** The Raft guarantees the peers rely on, proved invariant under the environment's steps. */
module RaftEnvironment {
  import opened KvModel
  import opened PeerLogic
  import opened Cluster

  ghost predicate EntryOk(e: Entry, requests: seq<Request>) {
    match e.origin
    case None => e.cmd == NoOp
    case Some(c) =>
      && c < |requests| && e.cmd != NoOp
      && requests[c].cmd == e.cmd && requests[c].birth == Some((e.index, e.term))
  }

  /** Contiguous indices, non-decreasing terms, and Log Matching in its sharpest form: up to
      any of its entries, the log is the log of that entry's leader. */
  ghost predicate LogOk(log: seq<Entry>, reigns: map<nat, Reign>, requests: seq<Request>) {
    && (forall i :: 0 <= i < |log| ==>
          && log[i].index == i + 1 && EntryOk(log[i], requests)
          && log[i].term in reigns && Agree(log, reigns[log[i].term].log, i + 1))
    && (forall i, j :: 0 <= i <= j < |log| ==> log[i].term <= log[j].term)
  }

  ghost predicate TermsUpTo(log: seq<Entry>, t: nat) {
    forall i :: 0 <= i < |log| ==> log[i].term <= t
  }

  ghost predicate NodeOk(s: State, n: nat)
    requires n < |s.nodes|
  {
    var x := s.nodes[n];
    && LogOk(x.log, s.reigns, s.requests) && TermsUpTo(x.log, x.term)
    && x.applied <= x.commit && Agree(x.log, s.committed, x.commit)
    && (x.leader ==> x.term in s.reigns && s.reigns[x.term] == Reign(n, x.log))
  }

  ghost predicate ReignOk(s: State, t: nat)
    requires t in s.reigns
  {
    LogOk(s.reigns[t].log, s.reigns, s.requests) && TermsUpTo(s.reigns[t].log, t)
  }

  ghost predicate EnvInv(s: State) {
    && (forall n :: 0 <= n < |s.nodes| ==> NodeOk(s, n))
    && (forall t :: t in s.reigns ==> ReignOk(s, t))
    && LogOk(s.committed, s.reigns, s.requests)
  }

  /** What a step may do to the shared part of the state: leaders only append, the committed
      log and the request table only grow. */
  ghost predicate Grows(s: State, s': State) {
    && |s.nodes| == |s'.nodes|
    && (forall t :: t in s.reigns ==>
          t in s'.reigns && Agree(s.reigns[t].log, s'.reigns[t].log, |s.reigns[t].log|))
    && Agree(s.committed, s'.committed, |s.committed|)
    && s.requests <= s'.requests
    && s.history <= s'.history
  }

  lemma LogOkGrows(log: seq<Entry>, s: State, s': State)
    requires Grows(s, s')
    requires LogOk(log, s.reigns, s.requests)
    ensures LogOk(log, s'.reigns, s'.requests)
  {
    forall i | 0 <= i < |log|
      ensures EntryOk(log[i], s'.requests)
      ensures log[i].term in s'.reigns && Agree(log, s'.reigns[log[i].term].log, i + 1)
    {
      assert EntryOk(log[i], s.requests);
      assert Agree(log, s.reigns[log[i].term].log, i + 1);
    }
  }

  lemma LogOkPrefix(log: seq<Entry>, len: nat, reigns: map<nat, Reign>, requests: seq<Request>)
    requires len <= |log|
    requires LogOk(log, reigns, requests)
    ensures LogOk(log[..len], reigns, requests)
  {
    forall i | 0 <= i < len
      ensures log[..len][i].term in reigns
      ensures Agree(log[..len], reigns[log[..len][i].term].log, i + 1)
    {
      assert Agree(log, reigns[log[i].term].log, i + 1);
    }
  }

  /** A leader appends an entry of its own term. */
  lemma LogOkAppend(log: seq<Entry>, e: Entry, reigns: map<nat, Reign>, requests: seq<Request>)
    requires LogOk(log, reigns, requests) && TermsUpTo(log, e.term)
    requires e.index == |log| + 1 && EntryOk(e, requests)
    requires e.term in reigns && reigns[e.term].log == log + [e]
    ensures LogOk(log + [e], reigns, requests) && TermsUpTo(log + [e], e.term)
  {
    var log' := log + [e];
    forall i | 0 <= i < |log'|
      ensures log'[i].term in reigns && Agree(log', reigns[log'[i].term].log, i + 1)
    {
      if i < |log| {
        assert Agree(log, reigns[log[i].term].log, i + 1);
      }
    }
  }

  /** A node not involved in a step stays well formed, provided its own reign is untouched. */
  lemma NodeOkGrows(s: State, s': State, n: nat)
    requires Grows(s, s')
    requires n < |s.nodes| && NodeOk(s, n) && s'.nodes[n] == s.nodes[n]
    requires s.nodes[n].leader ==>
               s.nodes[n].term in s'.reigns && s'.reigns[s.nodes[n].term] == s.reigns[s.nodes[n].term]
    ensures NodeOk(s', n)
  {
    LogOkGrows(s.nodes[n].log, s, s');
  }

  lemma ReignsGrow(s: State, s': State)
    requires Grows(s, s') && EnvInv(s)
    ensures forall t :: t in s.reigns && t in s'.reigns && s'.reigns[t] == s.reigns[t] ==> ReignOk(s', t)
    ensures LogOk(s.committed, s'.reigns, s'.requests)
  {
    forall t | t in s.reigns && t in s'.reigns && s'.reigns[t] == s.reigns[t]
      ensures ReignOk(s', t)
    {
      assert ReignOk(s, t);
      LogOkGrows(s.reigns[t].log, s, s');
    }
    LogOkGrows(s.committed, s, s');
  }

  /** The nodes other than `n`, when at most node `n`'s own reigns changed. */
  lemma OthersStayOk(s: State, s': State, n: nat)
    requires Grows(s, s') && EnvInv(s)
    requires forall m :: 0 <= m < |s.nodes| && m != n ==> s'.nodes[m] == s.nodes[m]
    requires forall t :: t in s.reigns && s.reigns[t].node != n ==> s'.reigns[t] == s.reigns[t]
    ensures forall m :: 0 <= m < |s'.nodes| && m != n ==> NodeOk(s', m)
  {
    forall m | 0 <= m < |s'.nodes| && m != n
      ensures NodeOk(s', m)
    {
      assert NodeOk(s, m);
      NodeOkGrows(s, s', m);
    }
  }

  lemma SubmitGrows(s: State, n: nat, cmd: Command, dropped: bool)
    requires EnvInv(s) && Enabled(s, Submit(n, cmd, dropped))
    ensures Grows(s, DoSubmit(s, n, cmd, dropped))
  {
    assert NodeOk(s, n);
  }

  lemma StepGrows(s: State, step: Step)
    requires EnvInv(s) && Enabled(s, step)
    ensures Grows(s, Do(s, step))
  {
    if step.Submit? {
      SubmitGrows(s, step.n, step.cmd, step.dropped);
    }
  }

  lemma BecomeLeaderKeepsEnv(s: State, n: nat, t: nat)
    requires EnvInv(s) && Enabled(s, BecomeLeader(n, t))
    ensures EnvInv(Do(s, BecomeLeader(n, t)))
  {
    var s' := Do(s, BecomeLeader(n, t));
    StepGrows(s, BecomeLeader(n, t));
    ReignsGrow(s, s');
    assert NodeOk(s, n);
    var x := s.nodes[n];
    LogOkGrows(x.log, s, s');
    LogOkAppend(x.log, Entry(|x.log| + 1, t, NoOp, None), s'.reigns, s'.requests);
    OthersStayOk(s, s', n);
  }

  lemma SubmitKeepsEnv(s: State, n: nat, cmd: Command, dropped: bool)
    requires EnvInv(s) && Enabled(s, Submit(n, cmd, dropped))
    ensures EnvInv(Do(s, Submit(n, cmd, dropped)))
  {
    var step := Submit(n, cmd, dropped);
    var s' := Do(s, step);
    StepGrows(s, step);
    ReignsGrow(s, s');
    assert NodeOk(s, n);
    OthersStayOk(s, s', n);
    var x := s.nodes[n];
    LogOkGrows(x.log, s, s');
    if x.leader && !dropped {
      AcceptedKeepsEnv(s, s', n, cmd);
    }
  }

  lemma AcceptedKeepsEnv(s: State, s': State, n: nat, cmd: Command)
    requires EnvInv(s) && Running(s, n) && cmd != NoOp && s.nodes[n].leader
    requires s' == DoSubmit(s, n, cmd, false)
    requires LogOk(s.nodes[n].log, s'.reigns, s'.requests)
    ensures NodeOk(s', n) && ReignOk(s', s.nodes[n].term)
  {
    var x := s.nodes[n];
    assert NodeOk(s, n);
    LogOkAppend(x.log, Entry(|x.log| + 1, x.term, cmd, Some(|s.requests|)), s'.reigns, s'.requests);
  }

  lemma CommitKeepsEnv(s: State, t: nat, len: nat)
    requires EnvInv(s) && Enabled(s, Commit(t, len))
    ensures EnvInv(Do(s, Commit(t, len)))
  {
    var s' := Do(s, Commit(t, len));
    StepGrows(s, Commit(t, len));
    ReignsGrow(s, s');
    assert ReignOk(s, t);
    LogOkPrefix(s.reigns[t].log, len, s.reigns, s.requests);
    forall m | 0 <= m < |s'.nodes|
      ensures NodeOk(s', m)
    {
      assert NodeOk(s, m);
      NodeOkGrows(s, s', m);
    }
  }

  lemma OverwriteKeepsEnv(s: State, n: nat, t: nat, len: nat, newTerm: nat)
    requires EnvInv(s) && Enabled(s, Overwrite(n, t, len, newTerm))
    ensures EnvInv(Do(s, Overwrite(n, t, len, newTerm)))
  {
    var s' := Do(s, Overwrite(n, t, len, newTerm));
    StepGrows(s, Overwrite(n, t, len, newTerm));
    ReignsGrow(s, s');
    assert NodeOk(s, n);
    assert ReignOk(s, t);
    LogOkPrefix(s.reigns[t].log, len, s.reigns, s.requests);
    OthersStayOk(s, s', n);
  }

  /** Steps that change one node but neither its log nor the shared log structure. */
  ghost predicate Local(s: State, s': State, n: nat)
    requires n < |s.nodes|
  {
    && |s'.nodes| == |s.nodes| && s'.nodes == s.nodes[n := s'.nodes[n]]
    && s'.reigns == s.reigns && s'.committed == s.committed && s'.requests == s.requests
    && s.history <= s'.history
  }

  lemma LocalKeepsEnv(s: State, s': State, n: nat)
    requires EnvInv(s) && n < |s.nodes| && Local(s, s', n) && NodeOk(s', n)
    ensures EnvInv(s')
  {
    ReignsGrow(s, s');
    OthersStayOk(s, s', n);
  }

  lemma LocalStepKeepsEnv(s: State, step: Step)
    requires EnvInv(s) && Enabled(s, step)
    requires step.StepDown? || step.LearnCommit? || step.ApplyOne? || step.Restart?
    ensures EnvInv(Do(s, step))
  {
    var s' := Do(s, step);
    assert NodeOk(s, step.n);
    assert NodeOk(s', step.n);
    LocalKeepsEnv(s, s', step.n);
  }

  lemma StepKeepsEnv(s: State, step: Step)
    requires EnvInv(s) && Enabled(s, step)
    ensures EnvInv(Do(s, step))
  {
    match step
    case BecomeLeader(n, t) => BecomeLeaderKeepsEnv(s, n, t);
    case Submit(n, cmd, dropped) => SubmitKeepsEnv(s, n, cmd, dropped);
    case Commit(t, len) => CommitKeepsEnv(s, t, len);
    case Overwrite(n, t, len, newTerm) => OverwriteKeepsEnv(s, n, t, len, newTerm);
    case _ => LocalStepKeepsEnv(s, step);
  }

  /** Log Matching between any two logs of the cluster: one shared (index, term) means one
      shared prefix. */
  lemma LogMatching(a: seq<Entry>, b: seq<Entry>, reigns: map<nat, Reign>, requests: seq<Request>, i: nat)
    requires LogOk(a, reigns, requests) && LogOk(b, reigns, requests)
    requires i < |a| && i < |b| && a[i].term == b[i].term
    ensures Agree(a, b, i + 1)
  {
    assert Agree(a, reigns[a[i].term].log, i + 1);
    assert Agree(b, reigns[a[i].term].log, i + 1);
  }
}
