/** `BlockingQueue` over `Condition` and `MutexLock`, as interleaved steps of any number of
    threads. A program counter stands before one atomic action: acquiring or releasing the
    pthread mutex, one assignment to `holder_`, one operation on the deque, or one operation
    on the condition variable. */
module BlockingQueue {
  import opened Counting

  /** Where a thread is. A thread id is a positive number; 0 stands for no thread. */
  datatype PC<T> =
    | Idle
    // put
    | PutLock(x: T) | PutAssign(x: T) | PutPush(x: T) | PutNotify | PutUnassign | PutUnlock
    // take
    | TakeLock | TakeAssign | TakeTest | TakePop | TakeUnassign(v: T) | TakeUnlock(v: T)
    // Condition::wait, called by take
    | WaitUnassign | WaitBlock | Blocked | WaitRelock | WaitAssign
    // size
    | SizeLock | SizeAssign | SizeRead | SizeUnassign(n: nat) | SizeUnlock(n: nat)

  /** `owner` is the thread that owns the pthread mutex. `put` and `taken` record the values in
      push and pop order, and `failed` that the assertion after the wait loop did not hold. */
  datatype State<T> = State(pcs: map<nat, PC<T>>, owner: nat, holder: nat, queue: seq<T>,
                            put: seq<T>, taken: seq<T>, failed: bool)

  /** `Notify` wakes one waiter if there is one; `Spurious` is a wakeup without a signal. */
  datatype Step<T> =
    | CallPut(t: nat, x: T)
    | CallTake(t: nat)
    | CallSize(t: nat)
    | Act(t: nat)
    | Notify(t: nat, woken: nat)
    | Spurious(t: nat)

  predicate Waiting<T>(s: State<T>) {
    exists t :: t in s.pcs && s.pcs[t].Blocked?
  }

  ghost predicate Init<T>(s: State<T>) {
    && (forall t :: t in s.pcs ==> t > 0 && s.pcs[t].Idle?)
    && s.owner == 0 && s.holder == 0 && s.queue == [] && s.put == [] && s.taken == [] && !s.failed
  }

  ghost predicate Enabled<T>(s: State<T>, step: Step<T>) {
    && step.t in s.pcs
    && var pc := s.pcs[step.t];
       match step
       case CallPut(t, x) => pc.Idle?
       case CallTake(t) => pc.Idle?
       case CallSize(t) => pc.Idle?
       case Act(t) =>
         && !pc.Idle? && !pc.Blocked? && !pc.PutNotify?
         && (pc.PutLock? || pc.TakeLock? || pc.SizeLock? || pc.WaitRelock? ==> s.owner == 0)
       case Notify(t, woken) =>
         && pc.PutNotify?
         && (if Waiting(s) then woken in s.pcs && s.pcs[woken].Blocked? else woken == 0)
       case Spurious(t) => pc.Blocked?
  }

  ghost function Do<T>(s: State<T>, step: Step<T>): State<T>
    requires Enabled(s, step)
  {
    match step
    case CallPut(t, x) => Goto(s, t, PutLock(x))
    case CallTake(t) => Goto(s, t, TakeLock)
    case CallSize(t) => Goto(s, t, SizeLock)
    case Act(t) => DoAct(s, t)
    case Notify(t, woken) =>
      Goto(if woken in s.pcs then Goto(s, woken, NextPC(s, Blocked)) else s, t, NextPC(s, PutNotify))
    case Spurious(t) => Goto(s, t, NextPC(s, Blocked))
  }

  function Goto<T>(s: State<T>, t: nat, pc: PC<T>): State<T> {
    s.(pcs := s.pcs[t := pc])
  }

  function DoAct<T>(s: State<T>, t: nat): State<T>
    requires t in s.pcs
  {
    Goto(Effect(s, t, s.pcs[t]), t, NextPC(s, s.pcs[t]))
  }

  /** What the action at `pc` does to the shared state. `pthread_cond_wait` releases the mutex
      and blocks in one step, and returns owning it again. */
  function Effect<T>(s: State<T>, t: nat, pc: PC<T>): State<T> {
    if pc.PutLock? || pc.TakeLock? || pc.SizeLock? || pc.WaitRelock? then s.(owner := t)
    else if pc.PutAssign? || pc.TakeAssign? || pc.SizeAssign? || pc.WaitAssign? then s.(holder := t)
    else if pc.PutUnassign? || pc.TakeUnassign? || pc.SizeUnassign? || pc.WaitUnassign? then s.(holder := 0)
    else if pc.PutUnlock? || pc.TakeUnlock? || pc.SizeUnlock? || pc.WaitBlock? then s.(owner := 0)
    else if pc.PutPush? then s.(queue := s.queue + [pc.x], put := s.put + [pc.x])
    else if pc.TakePop? && s.queue == [] then s.(failed := true)
    else if pc.TakePop? then s.(queue := s.queue[1..], taken := s.taken + [s.queue[0]])
    else s
  }

  /** Where the action at `pc` leads. */
  function NextPC<T>(s: State<T>, pc: PC<T>): PC<T> {
    match pc
    case PutLock(x) => PutAssign(x)
    case PutAssign(x) => PutPush(x)
    case PutPush(x) => PutNotify
    case PutNotify => PutUnassign
    case PutUnassign => PutUnlock
    case PutUnlock => Idle
    case TakeLock => TakeAssign
    case TakeAssign => TakeTest
    case TakeTest => if s.queue == [] then WaitUnassign else TakePop
    case WaitUnassign => WaitBlock
    case WaitBlock => Blocked
    case Blocked => WaitRelock
    case WaitRelock => WaitAssign
    case WaitAssign => TakeTest
    case TakePop => if s.queue == [] then TakePop else TakeUnassign(s.queue[0])
    case TakeUnassign(v) => TakeUnlock(v)
    case TakeUnlock(v) => Idle
    case SizeLock => SizeAssign
    case SizeAssign => SizeRead
    case SizeRead => SizeUnassign(|s.queue|)
    case SizeUnassign(n) => SizeUnlock(n)
    case SizeUnlock(n) => Idle
    case Idle => Idle
  }

  ghost predicate Execution<T>(trace: seq<State<T>>, steps: seq<Step<T>>) {
    && |trace| == |steps| + 1
    && Init(trace[0])
    && forall i {:trigger steps[i]} :: 0 <= i < |steps| ==>
         Enabled(trace[i], steps[i]) && trace[i + 1] == Do(trace[i], steps[i])
  }

  /** The stretch of code in which a thread owns the mutex. */
  predicate Owns<T>(pc: PC<T>) {
    || pc.PutAssign? || pc.PutPush? || pc.PutNotify? || pc.PutUnassign? || pc.PutUnlock?
    || pc.TakeAssign? || pc.TakeTest? || pc.TakePop? || pc.TakeUnassign? || pc.TakeUnlock?
    || pc.WaitUnassign? || pc.WaitBlock? || pc.WaitAssign?
    || pc.SizeAssign? || pc.SizeRead? || pc.SizeUnassign? || pc.SizeUnlock?
  }

  /** The shorter stretch in which `holder_` names it. */
  predicate Named<T>(pc: PC<T>) {
    || pc.PutPush? || pc.PutNotify? || pc.PutUnassign?
    || pc.TakeTest? || pc.TakePop? || pc.TakeUnassign? || pc.WaitUnassign?
    || pc.SizeRead? || pc.SizeUnassign?
  }

  /** A consumer that will look at the queue again before it sleeps or leaves. */
  predicate Looking<T>(pc: PC<T>) {
    pc.TakeLock? || pc.TakeAssign? || pc.TakeTest? || pc.TakePop? || pc.WaitRelock? || pc.WaitAssign?
  }

  /** The threads whose program counter satisfies `f`. */
  ghost function Where<T>(pcs: map<nat, PC<T>>, f: PC<T> -> bool): set<nat> {
    set t | t in pcs && f(pcs[t])
  }

  ghost function LookingCount<T>(s: State<T>): nat { |Where(s.pcs, (pc: PC<T>) => Looking(pc))| }

  /** Producers between their push and their notify. */
  ghost function NotifyingCount<T>(s: State<T>): nat { |Where(s.pcs, (pc: PC<T>) => pc.PutNotify?)| }

  /** A nonzero owner or holder is the thread whose program counter says so, and only that. */
  ghost predicate LockInv<T>(s: State<T>) {
    && (forall t :: t in s.pcs ==> t > 0)
    && (forall t :: t in s.pcs ==> (s.owner == t <==> Owns(s.pcs[t])) && (s.holder == t <==> Named(s.pcs[t])))
    && (s.owner != 0 ==> s.owner in s.pcs) && (s.holder != 0 ==> s.holder in s.pcs)
  }

  /** What a thread knows between the loop test, the pop or the size read and what depends on it. */
  ghost predicate Knows<T>(pc: PC<T>, queue: seq<T>, taken: seq<T>) {
    && (pc.WaitUnassign? || pc.WaitBlock? ==> queue == [])
    && (pc.TakePop? ==> queue != [])
    && (pc.TakeUnassign? || pc.TakeUnlock? ==> taken != [] && pc.v == taken[|taken| - 1])
    && (pc.SizeUnassign? || pc.SizeUnlock? ==> pc.n == |queue|)
  }

  /** Nobody changes the queue under a thread that knows something about it; values leave in the
      order in which they came. */
  ghost predicate DataInv<T>(s: State<T>) {
    && (forall t :: t in s.pcs ==> Knows(s.pcs[t], s.queue, s.taken))
    && s.taken + s.queue == s.put && !s.failed
  }

  /** While a consumer sleeps, every value in the queue is spoken for. */
  ghost predicate WakeInv<T>(s: State<T>) {
    Waiting(s) ==> |s.queue| <= LookingCount(s) + NotifyingCount(s)
  }

  ghost predicate Inv<T>(s: State<T>) {
    LockInv(s) && DataInv(s) && WakeInv(s)
  }

  lemma WhereUpdate<T>(pcs: map<nat, PC<T>>, t: nat, pc: PC<T>, f: PC<T> -> bool)
    requires t in pcs
    ensures |Where(pcs[t := pc], f)| + Bit(f(pcs[t])) == |Where(pcs, f)| + Bit(f(pc))
  {
    var others := Where(pcs, f) - {t};
    assert Where(pcs[t := pc], f) == if f(pc) then others + {t} else others;
    assert Where(pcs, f) == if f(pcs[t]) then others + {t} else others;
  }

  lemma GotoCounts<T>(s: State<T>, s': State<T>, t: nat)
    requires t in s.pcs && t in s'.pcs && s'.pcs == s.pcs[t := s'.pcs[t]]
    ensures LookingCount(s') + Bit(Looking(s.pcs[t])) == LookingCount(s) + Bit(Looking(s'.pcs[t]))
    ensures NotifyingCount(s') + Bit(s.pcs[t].PutNotify?) == NotifyingCount(s) + Bit(s'.pcs[t].PutNotify?)
  {
    WhereUpdate(s.pcs, t, s'.pcs[t], (pc: PC<T>) => Looking(pc));
    WhereUpdate(s.pcs, t, s'.pcs[t], (pc: PC<T>) => pc.PutNotify?);
  }

  /** One thread moves and takes, keeps or gives up the mutex and the holder field. */
  lemma MoveKeepsLock<T>(s: State<T>, s': State<T>, t: nat)
    requires LockInv(s) && t in s.pcs && t in s'.pcs && s'.pcs == s.pcs[t := s'.pcs[t]]
    requires s'.owner == s.owner || (s.owner in {0, t} && s'.owner in {0, t})
    requires s'.holder == s.holder || (s.holder in {0, t} && s'.holder in {0, t})
    requires (s'.owner == t <==> Owns(s'.pcs[t])) && (s'.holder == t <==> Named(s'.pcs[t]))
    ensures LockInv(s')
  {
  }

  /** What an action needs to know about the mutex, and what it does to it. */
  lemma ActOnMutex<T>(s: State<T>, t: nat)
    requires Enabled(s, Act(t)) && t > 0
    requires (s.owner == t <==> Owns(s.pcs[t])) && (s.holder == t <==> Named(s.pcs[t]))
    requires s.holder == 0 || s.holder == s.owner
    ensures var s' := DoAct(s, t);
            && s'.pcs == s.pcs[t := s'.pcs[t]]
            && (s'.owner == s.owner || (s.owner in {0, t} && s'.owner in {0, t}))
            && (s'.holder == s.holder || (s.holder in {0, t} && s'.holder in {0, t}))
            && (s'.owner == t <==> Owns(s'.pcs[t])) && (s'.holder == t <==> Named(s'.pcs[t]))
  {
  }

  lemma ActKeepsLock<T>(s: State<T>, t: nat)
    requires LockInv(s) && Enabled(s, Act(t))
    ensures LockInv(DoAct(s, t))
  {
    assert s.holder != 0 ==> Named(s.pcs[s.holder]) && Owns(s.pcs[s.holder]);
    ActOnMutex(s, t);
    MoveKeepsLock(s, DoAct(s, t), t);
  }

  /** The values keep their order through a push and a pop. */
  lemma ActKeepsOrder<T>(s: State<T>, t: nat)
    requires Enabled(s, Act(t)) && s.taken + s.queue == s.put
    requires s.pcs[t].TakePop? ==> s.queue != []
    ensures DoAct(s, t).taken + DoAct(s, t).queue == DoAct(s, t).put
  {
    var pc := s.pcs[t];
    if pc.PutPush? {
      assert s.taken + (s.queue + [pc.x]) == (s.taken + s.queue) + [pc.x];
    } else if pc.TakePop? {
      assert s.queue == [s.queue[0]] + s.queue[1..];
      assert s.taken + s.queue == (s.taken + [s.queue[0]]) + s.queue[1..];
    }
  }

  /** What the acting thread knows, and that only the owner of the mutex touches the queue. */
  lemma ActKnows<T>(s: State<T>, t: nat)
    requires Enabled(s, Act(t)) && Knows(s.pcs[t], s.queue, s.taken) && !s.failed
    ensures var s' := DoAct(s, t);
            && Knows(s'.pcs[t], s'.queue, s'.taken) && !s'.failed
            && (Owns(s.pcs[t]) || (s'.queue == s.queue && s'.taken == s.taken))
  {
  }

  lemma ActKeepsData<T>(s: State<T>, t: nat)
    requires LockInv(s) && DataInv(s) && Enabled(s, Act(t))
    ensures DataInv(DoAct(s, t))
  {
    var s' := DoAct(s, t);
    ActKeepsOrder(s, t);
    ActKnows(s, t);
    forall u | u in s'.pcs
      ensures Knows(s'.pcs[u], s'.queue, s'.taken)
    {
      assert u != t ==> s'.pcs[u] == s.pcs[u] && Knows(s.pcs[u], s.queue, s.taken);
      assert u != t && Owns(s.pcs[t]) ==> !Owns(s.pcs[u]);
    }
  }

  lemma ActKeepsWake<T>(s: State<T>, t: nat)
    requires Inv(s) && Enabled(s, Act(t))
    ensures WakeInv(DoAct(s, t))
  {
    var s' := DoAct(s, t);
    assert s'.pcs == s.pcs[t := s'.pcs[t]];
    GotoCounts(s, s', t);
  }

  /** A thread moves between two program counters that need nothing: neither the mutex nor the
      queue, nor the name in the holder field. */
  lemma QuietMoveKeepsInv<T>(s: State<T>, t: nat, pc: PC<T>)
    requires Inv(s) && t in s.pcs && !Owns(s.pcs[t]) && !Owns(pc) && !pc.Blocked?
    requires Looking(s.pcs[t]) ==> Looking(pc)
    ensures Inv(Goto(s, t, pc))
  {
    MoveKeepsLock(s, Goto(s, t, pc), t);
    GotoCounts(s, Goto(s, t, pc), t);
  }

  /** A producer notifies: a sleeping consumer, if there is one, becomes one that looks again. */
  lemma NotifyKeepsInv<T>(s: State<T>, t: nat, woken: nat)
    requires Inv(s) && Enabled(s, Notify(t, woken))
    ensures Inv(Do(s, Notify(t, woken)))
  {
    if woken in s.pcs {
      var w := Goto(s, woken, WaitRelock);
      MoveKeepsLock(s, w, woken);
      GotoCounts(s, w, woken);
      MoveKeepsLock(w, Goto(w, t, PutUnassign), t);
      GotoCounts(w, Goto(w, t, PutUnassign), t);
    } else {
      MoveKeepsLock(s, Goto(s, t, PutUnassign), t);
    }
  }

  lemma StepKeepsInv<T>(s: State<T>, step: Step<T>)
    requires Inv(s) && Enabled(s, step)
    ensures Inv(Do(s, step))
  {
    match step
    case Act(t) =>
      ActKeepsLock(s, t);
      ActKeepsData(s, t);
      ActKeepsWake(s, t);
    case CallPut(t, x) => QuietMoveKeepsInv(s, t, PutLock(x));
    case CallTake(t) => QuietMoveKeepsInv(s, t, TakeLock);
    case CallSize(t) => QuietMoveKeepsInv(s, t, SizeLock);
    case Spurious(t) => QuietMoveKeepsInv(s, t, WaitRelock);
    case Notify(t, woken) => NotifyKeepsInv(s, t, woken);
  }

  lemma {:induction false} InvHolds<T>(trace: seq<State<T>>, steps: seq<Step<T>>, i: nat)
    requires Execution(trace, steps) && i < |trace|
    ensures Inv(trace[i])
  {
    if i > 0 {
      InvHolds(trace, steps, i - 1);
      StepKeepsInv(trace[i - 1], steps[i - 1]);
    }
  }

  /** Holder soundness, at every single assignment: whoever the holder field names owns the
      mutex, so `isLockedByThisThread` is never true of another thread; and it is true of the
      calling thread all the way from the end of `lock` to the start of `unlock`. */
  lemma HolderIsOwner<T>(trace: seq<State<T>>, steps: seq<Step<T>>, i: nat, t: nat, u: nat)
    requires Execution(trace, steps) && i < |trace| && t in trace[i].pcs && u in trace[i].pcs
    ensures trace[i].holder != 0 ==> trace[i].owner == trace[i].holder
    ensures trace[i].holder == t ==> trace[i].owner == t
    ensures Named(trace[i].pcs[t]) ==> trace[i].holder == t
    ensures Owns(trace[i].pcs[t]) && Owns(trace[i].pcs[u]) ==> t == u
  {
    InvHolds(trace, steps, i);
    var s := trace[i];
    assert s.holder != 0 ==> Named(s.pcs[s.holder]);
  }

  /** First in, first out, in every interleaving, and the assertion after the wait loop holds. */
  lemma FirstInFirstOut<T>(trace: seq<State<T>>, steps: seq<Step<T>>, i: nat)
    requires Execution(trace, steps) && i < |trace|
    ensures trace[i].taken + trace[i].queue == trace[i].put
    ensures !trace[i].failed
  {
    InvHolds(trace, steps, i);
  }

  /** What `take` is about to return is the last value taken, and so, among all the values ever
      put, the one in the place of this take. */
  lemma TakeReturnsInOrder<T>(trace: seq<State<T>>, steps: seq<Step<T>>, i: nat, t: nat)
    requires Execution(trace, steps) && i < |trace| && t in trace[i].pcs
    requires trace[i].pcs[t].TakeUnassign? || trace[i].pcs[t].TakeUnlock?
    ensures var s := trace[i];
            0 < |s.taken| <= |s.put| && s.pcs[t].v == s.taken[|s.taken| - 1] == s.put[|s.taken| - 1]
  {
    InvHolds(trace, steps, i);
    var s := trace[i];
    assert s.put[|s.taken| - 1] == (s.taken + s.queue)[|s.taken| - 1];
  }

  /** What `size` is about to return is the number of values put less the number taken, not only
      when it is read but until the mutex is released. */
  lemma SizeIsExact<T>(trace: seq<State<T>>, steps: seq<Step<T>>, i: nat, t: nat)
    requires Execution(trace, steps) && i < |trace| && t in trace[i].pcs
    requires trace[i].pcs[t].SizeUnassign? || trace[i].pcs[t].SizeUnlock?
    ensures trace[i].pcs[t].n == |trace[i].queue| == |trace[i].put| - |trace[i].taken|
  {
    InvHolds(trace, steps, i);
  }

  /** No lost wakeup: while a consumer sleeps, the values in the queue are at most the consumers
      that will still look at it and the producers that will still notify. In particular, when
      the queue is not empty, not everybody is asleep. */
  lemma NoLostWakeup<T>(trace: seq<State<T>>, steps: seq<Step<T>>, i: nat)
    requires Execution(trace, steps) && i < |trace| && Waiting(trace[i])
    ensures |trace[i].queue| <= LookingCount(trace[i]) + NotifyingCount(trace[i])
    ensures trace[i].queue != [] ==>
              exists t :: t in trace[i].pcs && (Looking(trace[i].pcs[t]) || trace[i].pcs[t].PutNotify?)
  {
    InvHolds(trace, steps, i);
    var s := trace[i];
    if s.queue != [] {
      var looking := Where(s.pcs, (pc: PC<T>) => Looking(pc));
      var notifying := Where(s.pcs, (pc: PC<T>) => pc.PutNotify?);
      assert |looking| > 0 || |notifying| > 0;
      if |looking| > 0 {
        var t :| t in looking;
        assert Looking(s.pcs[t]);
      } else {
        var t :| t in notifying;
        assert s.pcs[t].PutNotify?;
      }
    }
  }

  /** No deadlock: whenever a thread is inside an operation and not asleep, some thread inside
      an operation can take its next step. */
  lemma NoDeadlock<T>(trace: seq<State<T>>, steps: seq<Step<T>>, i: nat, t: nat)
    requires Execution(trace, steps) && i < |trace|
    requires t in trace[i].pcs && !trace[i].pcs[t].Idle? && !trace[i].pcs[t].Blocked?
    ensures || (exists u :: Enabled(trace[i], Act(u)))
            || (exists u, woken :: Enabled(trace[i], Notify(u, woken)))
  {
    InvHolds(trace, steps, i);
    var s := trace[i];
    var u := if s.owner == 0 then t else s.owner;
    if s.pcs[u].PutNotify? {
      var woken := SomeWaiter(s);
      assert Enabled(s, Notify(u, woken));
    } else {
      assert Enabled(s, Act(u));
    }
  }

  lemma SomeWaiter<T>(s: State<T>) returns (woken: nat)
    ensures if Waiting(s) then woken in s.pcs && s.pcs[woken].Blocked? else woken == 0
  {
    if Waiting(s) {
      woken :| woken in s.pcs && s.pcs[woken].Blocked?;
    } else {
      woken := 0;
    }
  }
}
