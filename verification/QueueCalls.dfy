/** The operations of `BlockingQueue` as their callers see them: what each call does, in any
    interleaving and when nobody interferes, and how long it can keep the mutex. */
module QueueCalls {
  import opened Counting
  import opened BlockingQueue

  // ------------------------------------------------------ calls and the values they move

  /** `t` is in a call `put(x)` and has not pushed yet. */
  predicate Pushing<T(==)>(pc: PC<T>, x: T) {
    (pc.PutLock? || pc.PutAssign? || pc.PutPush?) && pc.x == x
  }

  /** How often the first `n` steps call `put(x)`. */
  ghost function PutCalls<T>(steps: seq<Step<T>>, n: nat, x: T): nat
    requires n <= |steps|
  {
    if n == 0 then 0
    else PutCalls(steps, n - 1, x) + Bit(steps[n - 1].CallPut? && steps[n - 1].x == x)
  }

  ghost function PushingCount<T>(s: State<T>, x: T): nat { |Where(s.pcs, (pc: PC<T>) => Pushing(pc, x))| }

  lemma PushingUpdate<T>(s: State<T>, s': State<T>, t: nat, x: T)
    requires t in s.pcs && t in s'.pcs && s'.pcs == s.pcs[t := s'.pcs[t]]
    ensures PushingCount(s', x) + Bit(Pushing(s.pcs[t], x)) == PushingCount(s, x) + Bit(Pushing(s'.pcs[t], x))
  {
    WhereUpdate(s.pcs, t, s'.pcs[t], (pc: PC<T>) => Pushing(pc, x));
  }

  lemma NotifyKeepsPutCount<T>(s: State<T>, t: nat, woken: nat, x: T)
    requires LockInv(s) && Enabled(s, Notify(t, woken))
    ensures PushingCount(Do(s, Notify(t, woken)), x) == PushingCount(s, x)
  {
    var s' := Do(s, Notify(t, woken));
    if woken in s.pcs {
      var w := Goto(s, woken, WaitRelock);
      PushingUpdate(s, w, woken, x);
      PushingUpdate(w, s', t, x);
    } else {
      PushingUpdate(s, s', t, x);
    }
  }

  /** Only the push ends the way to the push. */
  lemma PushIsCounted<T>(s: State<T>, pc: PC<T>, x: T)
    ensures Bit(Pushing(NextPC(s, pc), x)) + Bit(pc.PutPush? && pc.x == x) == Bit(Pushing(pc, x))
  {
  }

  lemma PushIsRecorded<T>(s: State<T>, t: nat, pc: PC<T>, x: T)
    ensures Times(Effect(s, t, pc).put, x) == Times(s.put, x) + Bit(pc.PutPush? && pc.x == x)
  {
    if pc.PutPush? {
      TimesAppend(s.put, pc.x, x);
    }
  }

  lemma ActKeepsPutCount<T>(s: State<T>, t: nat, x: T)
    requires Enabled(s, Act(t))
    ensures var s' := DoAct(s, t);
            Times(s'.put, x) + PushingCount(s', x) == Times(s.put, x) + PushingCount(s, x)
  {
    PushIsCounted(s, s.pcs[t], x);
    PushIsRecorded(s, t, s.pcs[t], x);
    EffectAt(s, t, s.pcs[t]);
    PushingUpdate(s, DoAct(s, t), t, x);
  }

  /** A step moves one value from the pending puts to the record, or adds a pending put. */
  lemma StepKeepsPutCount<T>(s: State<T>, step: Step<T>, x: T)
    requires LockInv(s) && Enabled(s, step)
    ensures var s' := Do(s, step);
            Times(s'.put, x) + PushingCount(s', x) ==
            Times(s.put, x) + PushingCount(s, x) + Bit(step.CallPut? && step.x == x)
  {
    match step
    case Notify(t, woken) => NotifyKeepsPutCount(s, t, woken, x);
    case Act(t) => ActKeepsPutCount(s, t, x);
    case _ => PushingUpdate(s, Do(s, step), step.t, x);
  }

  /** Conservation from the calls: every value is recorded as put as often as `put` has been
      called with it, but for the calls that have not reached the push. */
  lemma {:induction false} PutsAreCalls<T>(trace: seq<State<T>>, steps: seq<Step<T>>, i: nat, x: T)
    requires Execution(trace, steps) && i < |trace|
    ensures Times(trace[i].put, x) + PushingCount(trace[i], x) == PutCalls(steps, i, x)
  {
    if i == 0 {
      assert Where(trace[0].pcs, (pc: PC<T>) => Pushing(pc, x)) == {};
    } else {
      PutsAreCalls(trace, steps, i - 1, x);
      InvHolds(trace, steps, i - 1);
      StepKeepsPutCount(trace[i - 1], steps[i - 1], x);
    }
  }

  /** The values of the first `n` pushes, in the order in which they happen. */
  ghost function Pushes<T>(trace: seq<State<T>>, steps: seq<Step<T>>, n: nat): seq<T>
    requires n <= |steps| <= |trace|
  {
    if n == 0 then []
    else
      var before, step := trace[n - 1], steps[n - 1];
      Pushes(trace, steps, n - 1)
      + if step.Act? && step.t in before.pcs && before.pcs[step.t].PutPush? then [before.pcs[step.t].x] else []
  }

  lemma {:induction false} PutsAreInOrder<T>(trace: seq<State<T>>, steps: seq<Step<T>>, i: nat)
    requires Execution(trace, steps) && i < |trace|
    ensures trace[i].put == Pushes(trace, steps, i)
  {
    if i > 0 {
      PutsAreInOrder(trace, steps, i - 1);
      StepRecords(trace[i - 1], steps[i - 1]);
      assert trace[i].put == Do(trace[i - 1], steps[i - 1]).put;
    }
  }

  /** Only a push adds to the record, and it adds its own value at the end. */
  lemma StepRecords<T>(s: State<T>, step: Step<T>)
    requires Enabled(s, step)
    ensures Do(s, step).put ==
            s.put + if step.Act? && s.pcs[step.t].PutPush? then [s.pcs[step.t].x] else []
  {
    assert s.put + [] == s.put;
  }

  lemma StepKeepsPushing<T>(s: State<T>, step: Step<T>, t: nat, x: T)
    requires LockInv(s) && Enabled(s, step) && t in s.pcs && Pushing(s.pcs[t], x)
    ensures t in Do(s, step).pcs
    ensures Pushing(Do(s, step).pcs[t], x) || x in Do(s, step).put
  {
    if step.Act? && s.pcs[step.t].PutPush? {
      assert Do(s, step).put[|s.put|] == s.pcs[step.t].x;
    }
  }

  /** A call `put(x)` delivers: at any later time it is still on its way to the push with this
      very value, or the value is in the queue or has been taken. So it is when `put` returns. */
  lemma {:induction false} PutDelivers<T>(trace: seq<State<T>>, steps: seq<Step<T>>, i: nat, j: nat, t: nat, x: T)
    requires Execution(trace, steps) && i < j < |trace| && steps[i] == CallPut(t, x)
    ensures t in trace[j].pcs
    ensures Pushing(trace[j].pcs[t], x) || x in trace[j].queue || x in trace[j].taken
    decreases j
  {
    PutIsRecorded(trace, steps, i, j, t, x);
    FirstInFirstOut(trace, steps, j);
  }

  lemma {:induction false} PutIsRecorded<T>(trace: seq<State<T>>, steps: seq<Step<T>>, i: nat, j: nat, t: nat, x: T)
    requires Execution(trace, steps) && i < j < |trace| && steps[i] == CallPut(t, x)
    ensures t in trace[j].pcs
    ensures Pushing(trace[j].pcs[t], x) || x in trace[j].put
    decreases j
  {
    if i + 1 < j {
      PutIsRecorded(trace, steps, i, j - 1, t, x);
      var s := trace[j - 1];
      if x in s.put {
        StepRecords(s, steps[j - 1]);
        ThreadsStay(s, steps[j - 1]);
      } else {
        InvHolds(trace, steps, j - 1);
        StepKeepsPushing(s, steps[j - 1], t, x);
      }
    }
  }

  lemma ThreadsStay<T>(s: State<T>, step: Step<T>)
    requires Enabled(s, step)
    ensures Do(s, step).pcs.Keys == s.pcs.Keys
  {
  }

  /** `t` is in a call of `take` that has popped `x` and will return it. */
  predicate Returning<T(==)>(pc: PC<T>, x: T) {
    (pc.TakeUnassign? || pc.TakeUnlock?) && pc.v == x
  }

  /** How often, in the first `n` steps, a `take` returns `x`. */
  ghost function TakeReturns<T>(trace: seq<State<T>>, steps: seq<Step<T>>, n: nat, x: T): nat
    requires n <= |steps| <= |trace|
  {
    if n == 0 then 0
    else
      var before, step := trace[n - 1], steps[n - 1];
      TakeReturns(trace, steps, n - 1, x)
      + Bit(step.Act? && step.t in before.pcs && before.pcs[step.t] == TakeUnlock(x))
  }

  ghost function ReturningCount<T>(s: State<T>, x: T): nat { |Where(s.pcs, (pc: PC<T>) => Returning(pc, x))| }

  lemma ReturningUpdate<T>(s: State<T>, s': State<T>, t: nat, x: T)
    requires t in s.pcs && t in s'.pcs && s'.pcs == s.pcs[t := s'.pcs[t]]
    ensures ReturningCount(s', x) + Bit(Returning(s.pcs[t], x)) == ReturningCount(s, x) + Bit(Returning(s'.pcs[t], x))
  {
    WhereUpdate(s.pcs, t, s'.pcs[t], (pc: PC<T>) => Returning(pc, x));
  }

  /** Only the pop starts the way to the return. */
  lemma ReturnIsCounted<T>(s: State<T>, pc: PC<T>, x: T)
    requires pc.TakePop? ==> s.queue != []
    ensures Bit(Returning(NextPC(s, pc), x)) + Bit(pc == TakeUnlock(x)) ==
            Bit(Returning(pc, x)) + Bit(pc.TakePop? && s.queue[0] == x)
  {
  }

  lemma PopIsRecorded<T>(s: State<T>, t: nat, pc: PC<T>, x: T)
    requires pc.TakePop? ==> s.queue != []
    ensures Times(Effect(s, t, pc).taken, x) == Times(s.taken, x) + Bit(pc.TakePop? && s.queue[0] == x)
  {
    if pc.TakePop? {
      TimesAppend(s.taken, s.queue[0], x);
    }
  }

  lemma ActKeepsTakeCount<T>(s: State<T>, t: nat, x: T)
    requires Enabled(s, Act(t)) && (s.pcs[t].TakePop? ==> s.queue != [])
    ensures var s' := DoAct(s, t);
            Times(s.taken, x) + ReturningCount(s', x) + Bit(s.pcs[t] == TakeUnlock(x)) ==
            Times(s'.taken, x) + ReturningCount(s, x)
  {
    ReturnIsCounted(s, s.pcs[t], x);
    PopIsRecorded(s, t, s.pcs[t], x);
    EffectAt(s, t, s.pcs[t]);
    ReturningUpdate(s, DoAct(s, t), t, x);
  }

  lemma NotifyKeepsTakeCount<T>(s: State<T>, t: nat, woken: nat, x: T)
    requires LockInv(s) && Enabled(s, Notify(t, woken))
    ensures ReturningCount(Do(s, Notify(t, woken)), x) == ReturningCount(s, x)
  {
    var s' := Do(s, Notify(t, woken));
    if woken in s.pcs {
      var w := Goto(s, woken, WaitRelock);
      ReturningUpdate(s, w, woken, x);
      ReturningUpdate(w, s', t, x);
    } else {
      ReturningUpdate(s, s', t, x);
    }
  }

  lemma StepKeepsTakeCount<T>(s: State<T>, step: Step<T>, x: T)
    requires LockInv(s) && DataInv(s) && Enabled(s, step)
    ensures var s' := Do(s, step);
            Times(s.taken, x) + ReturningCount(s', x) + Bit(step.Act? && s.pcs[step.t] == TakeUnlock(x)) ==
            Times(s'.taken, x) + ReturningCount(s, x)
  {
    match step
    case Notify(t, woken) => NotifyKeepsTakeCount(s, t, woken, x);
    case Act(t) =>
      assert Knows(s.pcs[t], s.queue, s.taken);
      ActKeepsTakeCount(s, t, x);
    case _ => ReturningUpdate(s, Do(s, step), step.t, x);
  }

  /** Conservation to the returns: every value is recorded as taken as often as a `take` has
      returned it or is about to. */
  lemma {:induction false} TakesAreReturns<T>(trace: seq<State<T>>, steps: seq<Step<T>>, i: nat, x: T)
    requires Execution(trace, steps) && i < |trace|
    ensures Times(trace[i].taken, x) == TakeReturns(trace, steps, i, x) + ReturningCount(trace[i], x)
  {
    if i == 0 {
      assert Where(trace[0].pcs, (pc: PC<T>) => Returning(pc, x)) == {};
    } else {
      TakesAreReturns(trace, steps, i - 1, x);
      LockHolds(trace, steps, i - 1);
      StepKeepsTakeCount(trace[i - 1], steps[i - 1], x);
    }
  }

  // ------------------------------------------------------ the mutex is held briefly

  /** How many more steps of its own a thread at `pc` takes, at most, until it gives up the mutex. */
  function StepsToRelease<T>(pc: PC<T>): nat {
    if pc.PutAssign? || pc.TakeAssign? || pc.WaitAssign? then 5
    else if pc.PutPush? || pc.TakeTest? || pc.SizeAssign? then 4
    else if pc.PutNotify? || pc.TakePop? || pc.WaitUnassign? || pc.SizeRead? then 3
    else if pc.PutUnassign? || pc.TakeUnassign? || pc.SizeUnassign? || pc.WaitBlock? then 2
    else 1
  }

  /** How many of the steps from `i` up to `j` are taken by thread `t`. */
  ghost function StepsOf<T>(steps: seq<Step<T>>, i: nat, j: nat, t: nat): nat
    requires i <= j <= |steps|
    decreases j
  {
    if i == j then 0 else StepsOf(steps, i, j - 1, t) + Bit(steps[j - 1].t == t)
  }

  /** One step of its own brings the owner closer to the release, unless it is the release. */
  lemma OwnStepComesCloser<T>(s: State<T>, t: nat)
    requires t in s.pcs && Owns(s.pcs[t]) && s.owner == t && t != 0 && (s.pcs[t].TakePop? ==> s.queue != [])
    ensures Enabled(s, Act(t)) && DoAct(s, t).owner == t ==>
              StepsToRelease(DoAct(s, t).pcs[t]) < StepsToRelease(s.pcs[t])
    ensures s.pcs[t].PutNotify? ==> StepsToRelease(NextPC(s, PutNotify)) < StepsToRelease(s.pcs[t])
  {
  }

  lemma OwnerComesCloser<T>(s: State<T>, step: Step<T>, t: nat)
    requires LockInv(s) && DataInv(s) && Enabled(s, step) && s.owner == t && t != 0 && Do(s, step).owner == t
    ensures t in s.pcs && t in Do(s, step).pcs
    ensures StepsToRelease(Do(s, step).pcs[t]) + Bit(step.t == t) <= StepsToRelease(s.pcs[t])
  {
    assert Owns(s.pcs[t]) && Knows(s.pcs[t], s.queue, s.taken);
    if step.t == t {
      OwnStepComesCloser(s, t);
    } else {
      assert !Owns(s.pcs[step.t]);
    }
  }

  lemma LockHolds<T>(trace: seq<State<T>>, steps: seq<Step<T>>, i: nat)
    requires Execution(trace, steps) && i < |trace|
    ensures LockInv(trace[i]) && DataInv(trace[i])
  {
    InvHolds(trace, steps, i);
  }

  /** The owner of the mutex gives it up within five steps of its own, in every execution: while
      it owns the mutex throughout, it takes at most four. */
  lemma {:induction false} MutexIsHeldBriefly<T>(trace: seq<State<T>>, steps: seq<Step<T>>, i: nat, j: nat, t: nat)
    requires Execution(trace, steps) && i <= j < |trace| && t != 0
    requires forall k :: i <= k <= j ==> trace[k].owner == t
    ensures t in trace[i].pcs && t in trace[j].pcs
    ensures StepsOf(steps, i, j, t) + StepsToRelease(trace[j].pcs[t]) <= StepsToRelease(trace[i].pcs[t])
    ensures StepsOf(steps, i, j, t) <= 4
    decreases j
  {
    LockHolds(trace, steps, i);
    if i < j {
      MutexIsHeldBriefly(trace, steps, i, j - 1, t);
      LockHolds(trace, steps, j - 1);
      OwnerComesCloser(trace[j - 1], steps[j - 1], t);
    }
  }

  /** And it is never stuck: the owner of the mutex can always take its next step. */
  lemma OwnerCanStep<T>(trace: seq<State<T>>, steps: seq<Step<T>>, i: nat) returns (step: Step<T>)
    requires Execution(trace, steps) && i < |trace| && trace[i].owner != 0
    ensures Enabled(trace[i], step) && step.t == trace[i].owner
  {
    InvHolds(trace, steps, i);
    var s := trace[i];
    assert Owns(s.pcs[s.owner]);
    if s.pcs[s.owner].PutNotify? {
      var woken := SomeWaiter(s);
      step := Notify(s.owner, woken);
    } else {
      step := Act(s.owner);
    }
  }

  /** `t` has slept without the mutex at some time from `i` up to `j`. */
  ghost predicate HasSlept<T>(trace: seq<State<T>>, i: nat, j: int, t: nat)
    requires j < |trace|
  {
    exists k :: i <= k <= j && t in trace[k].pcs && trace[k].pcs[t].Blocked? && trace[k].owner != t
  }

  /** On the way from an empty test to sleep. */
  predicate GoingToSleep<T>(pc: PC<T>) {
    pc.WaitUnassign? || pc.WaitBlock?
  }

  lemma EmptyTestGoesToSleep<T>(s: State<T>, t: nat)
    requires Enabled(s, Act(t)) && s.pcs[t].TakeTest? && s.queue == []
    ensures GoingToSleep(DoAct(s, t).pcs[t])
  {
  }

  lemma StepGoesToSleep<T>(s: State<T>, step: Step<T>, t: nat)
    requires LockInv(s) && Enabled(s, step) && t in s.pcs && GoingToSleep(s.pcs[t])
    ensures t in Do(s, step).pcs
    ensures GoingToSleep(Do(s, step).pcs[t]) || Do(s, step).pcs[t].Blocked?
  {
  }

  lemma SleptLonger<T>(trace: seq<State<T>>, i: nat, j: nat, t: nat)
    requires i <= j < |trace|
    requires HasSlept(trace, i, j - 1, t) || (t in trace[j].pcs && trace[j].pcs[t].Blocked? && trace[j].owner != t)
    ensures HasSlept(trace, i, j, t)
  {
    if HasSlept(trace, i, j - 1, t) {
      var k :| i <= k <= j - 1 && t in trace[k].pcs && trace[k].pcs[t].Blocked? && trace[k].owner != t;
      assert i <= k <= j;
    }
  }

  /** A `take` whose test finds the queue empty sleeps, and gives up the mutex, before it tests
      again or does anything else. */
  lemma {:induction false} EmptyTestSleeps<T>(trace: seq<State<T>>, steps: seq<Step<T>>, i: nat, j: nat, t: nat)
    requires Execution(trace, steps) && i < j < |trace| && steps[i] == Act(t)
    requires trace[i].pcs[t].TakeTest? && trace[i].queue == []
    ensures t in trace[j].pcs && (GoingToSleep(trace[j].pcs[t]) || HasSlept(trace, i, j, t))
    decreases j
  {
    if i + 1 == j {
      EmptyTestGoesToSleep(trace[i], t);
    } else {
      EmptyTestSleeps(trace, steps, i, j - 1, t);
      ThreadsStay(trace[j - 1], steps[j - 1]);
      if HasSlept(trace, i, j - 1, t) {
        SleptLonger(trace, i, j, t);
      } else {
        InvHolds(trace, steps, j - 1);
        StepGoesToSleep(trace[j - 1], steps[j - 1], t);
        LockHolds(trace, steps, j);
        assert trace[j].pcs[t].Blocked? ==> HasSlept(trace, i, j, t);
      }
    }
  }

  // ------------------------------------------------------ calls nobody interferes with

  /** Consecutive steps from any state. */
  ghost predicate Run<T>(trace: seq<State<T>>, steps: seq<Step<T>>) {
    && |trace| == |steps| + 1
    && forall i {:trigger steps[i]} :: 0 <= i < |steps| ==>
         Enabled(trace[i], steps[i]) && trace[i + 1] == Do(trace[i], steps[i])
  }

  lemma RunSnoc<T>(trace: seq<State<T>>, steps: seq<Step<T>>, step: Step<T>)
    requires Run(trace, steps) && Enabled(trace[|trace| - 1], step)
    ensures Run(trace + [Do(trace[|trace| - 1], step)], steps + [step])
  {
  }

  lemma EffectAt<T>(s: State<T>, t: nat, pc: PC<T>)
    ensures Effect(s, t, pc).pcs == s.pcs
    ensures Effect(Goto(s, t, pc), t, pc) == Effect(s, t, pc).(pcs := s.pcs[t := pc])
    ensures NextPC(Goto(s, t, pc), pc) == NextPC(s, pc)
  {
  }

  lemma ActAt<T>(s: State<T>, t: nat, pc: PC<T>)
    ensures DoAct(Goto(s, t, pc), t) == Goto(Effect(s, t, pc), t, NextPC(s, pc))
  {
    EffectAt(s, t, pc);
    assert s.pcs[t := pc][t := NextPC(s, pc)] == s.pcs[t := NextPC(s, pc)];
  }

  /** One more action of a thread that stands at `pc`. */
  lemma Acted<T>(trace0: seq<State<T>>, steps0: seq<Step<T>>, s: State<T>, t: nat, pc: PC<T>)
    returns (trace: seq<State<T>>, steps: seq<Step<T>>)
    requires Run(trace0, steps0) && trace0[|trace0| - 1] == Goto(s, t, pc) && Enabled(Goto(s, t, pc), Act(t))
    ensures Run(trace, steps) && trace[0] == trace0[0] && |trace| == |trace0| + 1
    ensures trace == trace0 + [Goto(Effect(s, t, pc), t, NextPC(s, pc))] && steps == steps0 + [Act(t)]
  {
    var y := Goto(s, t, pc);
    RunSnoc(trace0, steps0, Act(t));
    ActAt(s, t, pc);
    trace, steps := trace0 + [Do(y, Act(t))], steps0 + [Act(t)];
  }

  /** The mutex is free and thread `t` is not in a call. */
  ghost predicate Free<T>(s: State<T>, t: nat) {
    s.owner == 0 && s.holder == 0 && 0 !in s.pcs && t in s.pcs && s.pcs[t].Idle?
  }

  ghost predicate OnlyBy<T>(steps: seq<Step<T>>, t: nat) {
    forall i :: 0 <= i < |steps| ==> steps[i].t == t
  }

  /** Behind the mutex, with the name in the holder field. */
  function Locked<T>(s: State<T>, t: nat): State<T> { s.(owner := t, holder := t) }

  /** In every execution, whenever nobody owns the mutex, its holder field is clear too. */
  lemma FreeInRuns<T>(trace: seq<State<T>>, steps: seq<Step<T>>, i: nat, t: nat)
    requires Execution(trace, steps) && i < |trace| && trace[i].owner == 0
    ensures trace[i].holder == 0 && 0 !in trace[i].pcs
    ensures t in trace[i].pcs && trace[i].pcs[t].Idle? ==> Free(trace[i], t)
  {
    LockHolds(trace, steps, i);
    var s := trace[i];
    assert s.holder != 0 ==> Named(s.pcs[s.holder]) && Owns(s.pcs[s.holder]);
  }

  /** The four actions around the body of a call. */
  lemma LockEffects<T>(s: State<T>, t: nat, lock: PC<T>, assign: PC<T>)
    requires lock.PutLock? || lock.TakeLock? || lock.SizeLock?
    requires assign == NextPC(s, lock)
    ensures Effect(s, t, lock) == s.(owner := t) && Effect(s.(owner := t), t, assign) == Locked(s, t)
    ensures NextPC(s.(owner := t), assign) == NextPC(s, assign)
    ensures assign.PutAssign? || assign.TakeAssign? || assign.SizeAssign?
  {
  }

  lemma UnlockEffects<T>(s: State<T>, t: nat, unassign: PC<T>, unlock: PC<T>)
    requires s.owner == 0 && s.holder == 0
    requires unassign.PutUnassign? || unassign.TakeUnassign? || unassign.SizeUnassign?
    requires unlock == NextPC(s, unassign)
    ensures Effect(Locked(s, t), t, unassign) == s.(owner := t) && Effect(s.(owner := t), t, unlock) == s
    ensures NextPC(Locked(s, t), unassign) == unlock && NextPC(s.(owner := t), unlock) == Idle
    ensures unlock.PutUnlock? || unlock.TakeUnlock? || unlock.SizeUnlock?
  {
  }

  /** A call up to the point where the mutex is held. */
  lemma Entered<T>(s: State<T>, call: Step<T>, lock: PC<T>, assign: PC<T>, inside: PC<T>)
    returns (trace: seq<State<T>>, steps: seq<Step<T>>)
    requires s.owner == 0 && call.t in s.pcs && Enabled(s, call) && !call.Act? && !call.Notify? && !call.Spurious?
    requires Do(s, call) == Goto(s, call.t, lock) && (lock.PutLock? || lock.TakeLock? || lock.SizeLock?)
    requires NextPC(s, lock) == assign && NextPC(s, assign) == inside
    ensures Run(trace, steps) && trace[0] == s && OnlyBy(steps, call.t) && |trace| == 4 && steps[0] == call
    ensures trace[3] == Goto(Locked(s, call.t), call.t, inside)
  {
    var t := call.t;
    LockEffects(s, t, lock, assign);
    RunSnoc([s], [], call);
    trace, steps := [s] + [Do(s, call)], [] + [call];
    trace, steps := Acted(trace, steps, s, t, lock);
    trace, steps := Acted(trace, steps, s.(owner := t), t, assign);
  }

  /** A call from where it gives up the name and the mutex to its return. */
  lemma Left<T>(trace0: seq<State<T>>, steps0: seq<Step<T>>, s: State<T>, t: nat, unassign: PC<T>, unlock: PC<T>)
    returns (trace: seq<State<T>>, steps: seq<Step<T>>)
    requires Run(trace0, steps0) && trace0[|trace0| - 1] == Goto(Locked(s, t), t, unassign) && OnlyBy(steps0, t)
    requires unassign.PutUnassign? || unassign.TakeUnassign? || unassign.SizeUnassign?
    requires NextPC(s, unassign) == unlock && s.owner == 0 && s.holder == 0
    ensures Run(trace, steps) && trace[0] == trace0[0] && OnlyBy(steps, t) && |trace| == |trace0| + 2
    ensures trace[|trace| - 2] == Goto(s.(owner := t), t, unlock) && steps0 <= steps
    ensures trace[|trace| - 1] == Goto(s, t, Idle)
  {
    UnlockEffects(s, t, unassign, unlock);
    trace, steps := Acted(trace0, steps0, Locked(s, t), t, unassign);
    trace, steps := Acted(trace, steps, s.(owner := t), t, unlock);
  }

  lemma NotifiedNobody<T>(trace0: seq<State<T>>, steps0: seq<Step<T>>, s: State<T>, t: nat)
    returns (trace: seq<State<T>>, steps: seq<Step<T>>)
    requires Run(trace0, steps0) && OnlyBy(steps0, t) && t in s.pcs && 0 !in s.pcs
    requires trace0[|trace0| - 1] == Goto(Locked(s, t), t, PutNotify)
    requires !Waiting(Goto(Locked(s, t), t, PutNotify))
    ensures Run(trace, steps) && trace[0] == trace0[0] && OnlyBy(steps, t) && |trace| == |trace0| + 1
    ensures trace[|trace| - 1] == Goto(Locked(s, t), t, PutUnassign) && steps0 <= steps
  {
    var y := Goto(Locked(s, t), t, PutNotify);
    RunSnoc(trace0, steps0, Notify(t, 0));
    assert s.pcs[t := PutNotify][t := PutUnassign] == s.pcs[t := PutUnassign];
    trace, steps := trace0 + [Do(y, Notify(t, 0))], steps0 + [Notify(t, 0)];
  }

  /** `put(x)` with nobody asleep: it returns, the value is at the end of the queue, and nothing
      else has changed. */
  lemma PutAlone<T>(s: State<T>, t: nat, x: T) returns (trace: seq<State<T>>, steps: seq<Step<T>>)
    requires Free(s, t) && !Waiting(s)
    ensures Run(trace, steps) && trace[0] == s && OnlyBy(steps, t)
    ensures trace[|trace| - 1] == s.(queue := s.queue + [x], put := s.put + [x])
    ensures |steps| == 7 && steps[0] == CallPut(t, x)
  {
    trace, steps := Entered(s, CallPut(t, x), PutLock(x), PutAssign(x), PutPush(x));
    var pushed := s.(queue := s.queue + [x], put := s.put + [x]);
    trace, steps := Pushed(trace, steps, s, pushed, t, x);
    NobodyElseWaits(s, pushed, t);
    trace, steps := NotifiedNobody(trace, steps, pushed, t);
    trace, steps := Left(trace, steps, pushed, t, PutUnassign, PutUnlock);
    assert s.pcs[t := Idle] == s.pcs;
  }

  lemma Pushed<T>(trace0: seq<State<T>>, steps0: seq<Step<T>>, s: State<T>, pushed: State<T>, t: nat, x: T)
    returns (trace: seq<State<T>>, steps: seq<Step<T>>)
    requires Run(trace0, steps0) && OnlyBy(steps0, t) && t in s.pcs
    requires trace0[|trace0| - 1] == Goto(Locked(s, t), t, PutPush(x))
    requires pushed == s.(queue := s.queue + [x], put := s.put + [x])
    ensures Run(trace, steps) && trace[0] == trace0[0] && OnlyBy(steps, t) && |trace| == |trace0| + 1
    ensures trace[|trace| - 1] == Goto(Locked(pushed, t), t, PutNotify) && steps0 <= steps
  {
    trace, steps := Acted(trace0, steps0, Locked(s, t), t, PutPush(x));
    assert Effect(Locked(s, t), t, PutPush(x)) == Locked(pushed, t);
  }

  lemma NobodyElseWaits<T>(s: State<T>, s': State<T>, t: nat)
    requires !Waiting(s) && s'.pcs == s.pcs && t in s.pcs
    ensures !Waiting(Goto(Locked(s', t), t, PutNotify))
  {
    var y := Goto(Locked(s', t), t, PutNotify);
    forall u | u in y.pcs
      ensures !y.pcs[u].Blocked?
    {
      assert u != t ==> y.pcs[u] == s.pcs[u];
    }
  }

  /** `take()` on a queue that is not empty: it returns the first value, which is gone from the
      queue, and nothing else has changed. */
  lemma TakeAlone<T>(s: State<T>, t: nat) returns (trace: seq<State<T>>, steps: seq<Step<T>>)
    requires Free(s, t) && s.queue != []
    ensures Run(trace, steps) && trace[0] == s && OnlyBy(steps, t)
    ensures trace[|trace| - 1] == s.(queue := s.queue[1..], taken := s.taken + [s.queue[0]])
    ensures |steps| == 7 && steps[0] == CallTake(t) && t in trace[6].pcs && trace[6].pcs[t] == TakeUnlock(s.queue[0])
  {
    trace, steps := Entered(s, CallTake(t), TakeLock, TakeAssign, TakeTest);
    trace, steps := Acted(trace, steps, Locked(s, t), t, TakeTest);
    trace, steps := Popped(trace, steps, s, t);
    assert s.pcs[t := Idle] == s.pcs;
  }

  /** The rest of a `take` that has found a value. */
  lemma Popped<T>(trace0: seq<State<T>>, steps0: seq<Step<T>>, s: State<T>, t: nat)
    returns (trace: seq<State<T>>, steps: seq<Step<T>>)
    requires Run(trace0, steps0) && OnlyBy(steps0, t) && s.queue != [] && s.owner == 0 && s.holder == 0
    requires trace0[|trace0| - 1] == Goto(Locked(s, t), t, TakePop)
    ensures Run(trace, steps) && trace[0] == trace0[0] && OnlyBy(steps, t) && |trace| == |trace0| + 3
    ensures trace[|trace| - 1] == Goto(s.(queue := s.queue[1..], taken := s.taken + [s.queue[0]]), t, Idle)
    ensures t in trace[|trace| - 2].pcs && trace[|trace| - 2].pcs[t] == TakeUnlock(s.queue[0])
    ensures steps0 <= steps
  {
    var popped := s.(queue := s.queue[1..], taken := s.taken + [s.queue[0]]);
    trace, steps := Acted(trace0, steps0, Locked(s, t), t, TakePop);
    assert Effect(Locked(s, t), t, TakePop) == Locked(popped, t);
    trace, steps := Left(trace, steps, popped, t, TakeUnassign(s.queue[0]), TakeUnlock(s.queue[0]));
  }

  /** `take()` on an empty queue: it goes to sleep, the mutex is free, and nothing else has
      changed. */
  lemma TakeWaits<T>(s: State<T>, t: nat) returns (trace: seq<State<T>>, steps: seq<Step<T>>)
    requires Free(s, t) && s.queue == []
    ensures Run(trace, steps) && trace[0] == s && OnlyBy(steps, t)
    ensures trace[|trace| - 1] == s.(pcs := s.pcs[t := Blocked])
    ensures |steps| == 6 && steps[0] == CallTake(t)
  {
    trace, steps := Entered(s, CallTake(t), TakeLock, TakeAssign, TakeTest);
    trace, steps := Acted(trace, steps, Locked(s, t), t, TakeTest);
    trace, steps := Slept(trace, steps, s, t);
  }

  /** The rest of a `take` that has found nothing. */
  lemma Slept<T>(trace0: seq<State<T>>, steps0: seq<Step<T>>, s: State<T>, t: nat)
    returns (trace: seq<State<T>>, steps: seq<Step<T>>)
    requires Run(trace0, steps0) && OnlyBy(steps0, t) && s.owner == 0 && s.holder == 0
    requires trace0[|trace0| - 1] == Goto(Locked(s, t), t, WaitUnassign)
    ensures Run(trace, steps) && trace[0] == trace0[0] && OnlyBy(steps, t) && |trace| == |trace0| + 2
    ensures trace[|trace| - 1] == Goto(s, t, Blocked) && steps0 <= steps
  {
    trace, steps := Acted(trace0, steps0, Locked(s, t), t, WaitUnassign);
    assert Locked(s, t).(holder := 0) == s.(owner := t);
    trace, steps := Acted(trace, steps, s.(owner := t), t, WaitBlock);
    assert s.(owner := t).(owner := 0) == s;
  }

  /** `size()`: it returns the length of the queue, and nothing has changed. */
  lemma SizeAlone<T>(s: State<T>, t: nat) returns (trace: seq<State<T>>, steps: seq<Step<T>>)
    requires Free(s, t)
    ensures Run(trace, steps) && trace[0] == s && OnlyBy(steps, t)
    ensures trace[|trace| - 1] == s
    ensures |steps| == 6 && steps[0] == CallSize(t) && t in trace[5].pcs && trace[5].pcs[t] == SizeUnlock(|s.queue|)
  {
    trace, steps := Entered(s, CallSize(t), SizeLock, SizeAssign, SizeRead);
    trace, steps := Acted(trace, steps, Locked(s, t), t, SizeRead);
    trace, steps := Left(trace, steps, s, t, SizeUnassign(|s.queue|), SizeUnlock(|s.queue|));
    assert s.pcs[t := Idle] == s.pcs;
  }

  /** A consumer that was woken up, with a value in the queue and nobody else inside: it takes
      the first value and returns it. */
  lemma WokenTakes<T>(s: State<T>, t: nat) returns (trace: seq<State<T>>, steps: seq<Step<T>>)
    requires s.owner == 0 && s.holder == 0 && t in s.pcs && s.pcs[t].WaitRelock? && s.queue != []
    ensures Run(trace, steps) && trace[0] == s && OnlyBy(steps, t) && |steps| == 6
    ensures trace[6] == Goto(s.(queue := s.queue[1..], taken := s.taken + [s.queue[0]]), t, Idle)
    ensures t in trace[5].pcs && trace[5].pcs[t] == TakeUnlock(s.queue[0])
  {
    assert s == Goto(s, t, WaitRelock) by {
      assert s.pcs[t := WaitRelock] == s.pcs;
    }
    trace, steps := Relocked(s, t);
    trace, steps := Acted(trace, steps, Locked(s, t), t, TakeTest);
    trace, steps := Popped(trace, steps, s, t);
  }

  /** A consumer that was woken up gets the mutex and its name back. */
  lemma Relocked<T>(s: State<T>, t: nat) returns (trace: seq<State<T>>, steps: seq<Step<T>>)
    requires s.owner == 0 && t in s.pcs && s == Goto(s, t, WaitRelock)
    ensures Run(trace, steps) && trace[0] == s && OnlyBy(steps, t) && |steps| == 2
    ensures trace[2] == Goto(Locked(s, t), t, TakeTest)
  {
    trace, steps := Acted([s], [], s, t, WaitRelock);
    trace, steps := Acted(trace, steps, s.(owner := t), t, WaitAssign);
    assert s.(owner := t).(holder := t) == Locked(s, t);
  }
}
