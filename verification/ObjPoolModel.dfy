/** A fixed-slot allocator: its address arithmetic, and its bookkeeping over whole histories of
    allocations and releases. Slots are numbered; `ObjPool` ties them to addresses. */
module ObjPoolModel {
  import opened Counting
  import opened KvModel

  const WORD: int := 0x1_0000_0000_0000_0000
  const INT32_MAX: int := 0x7FFF_FFFF

  // -------------------------------------------------------------- addresses

  /** A block of `cnt` objects of `size` bytes, allocated at the non-null address `base`. */
  ghost predicate Block(base: int, size: int, cnt: int) {
    0 < base && 0 < size && 0 < cnt <= INT32_MAX && base + size * cnt <= WORD
  }

  function Addr(base: int, size: int, i: int): int { base + i * size }

  /** The index of the object at address `p`. The subtraction wraps around like unsigned 64-bit
      arithmetic, so an address below the base becomes a large offset. */
  function GetIndex(base: int, size: int, cnt: int, p: int): int
    requires size > 0
  {
    var offset := (p - base) % WORD;
    if offset >= size * cnt then -1
    else if offset % size != 0 then -2
    else offset / size
  }

  function RoundUp(total: int, alignment: int): int
    requires alignment > 0
  {
    ((total - 1) / alignment + 1) * alignment
  }

  lemma WrappedOffset(base: int, total: int, p: int)
    requires 0 < base && 0 < total && base + total <= WORD && 0 <= p < WORD
    ensures (p - base) % WORD == if base <= p then p - base else p - base + WORD
    ensures (p - base) % WORD < total <==> base <= p < base + total
  {
    if p < base {
      assert (p - base) % WORD == (p - base + WORD) % WORD;
    }
  }

  lemma MultipleBelow(offset: int, size: int, cnt: int)
    requires 0 <= offset < size * cnt && 0 < size && 0 < cnt
    ensures offset == (offset / size) * size + offset % size
    ensures 0 <= offset / size < cnt
  {
    var q := offset / size;
    assert cnt <= q ==> cnt * size <= q * size;
  }

  lemma MultipleOf(i: int, size: int)
    requires 0 <= i && 0 < size
    ensures (i * size) / size == i && (i * size) % size == 0
  {
    var q, r := (i * size) / size, (i * size) % size;
    assert i * size == q * size + r;
    assert (i - q) * size == r;
    assert i - q >= 1 ==> (i - q) * size >= size;
    assert i - q <= -1 ==> (i - q) * size <= -size;
  }

  lemma {:induction false} ScaledBelow(i: int, j: int, size: int)
    requires i < j && 0 < size
    ensures i * size + size <= j * size
    decreases j - i
  {
    if i + 1 < j {
      ScaledBelow(i, j - 1, size);
    }
  }

  /** For every 64-bit address, those below the base included: the index is `i` exactly for the
      address of slot `i`; the two error codes tell an address outside the block from one
      inside it that is not the start of a slot. */
  lemma GetIndexExact(base: int, size: int, cnt: int, p: int)
    requires Block(base, size, cnt) && 0 <= p < WORD
    ensures forall i :: 0 <= i ==> (GetIndex(base, size, cnt, p) == i <==> i < cnt && p == Addr(base, size, i))
    ensures GetIndex(base, size, cnt, p) == -1 <==> !(base <= p < base + size * cnt)
    ensures GetIndex(base, size, cnt, p) >= -2
  {
    assert size * cnt > 0 by { ScaledBelow(0, cnt, size); }
    WrappedOffset(base, size * cnt, p);
    var offset := (p - base) % WORD;
    if offset < size * cnt {
      MultipleBelow(offset, size, cnt);
    }
    forall i | 0 <= i
      ensures GetIndex(base, size, cnt, p) == i <==> i < cnt && p == Addr(base, size, i)
    {
      if i < cnt && p == Addr(base, size, i) {
        ScaledBelow(i, cnt, size);
        MultipleOf(i, size);
      }
    }
  }

  lemma Quotient(n: int, d: int)
    requires d > 0
    ensures n == (n / d) * d + n % d && 0 <= n % d < d
  {
  }

  lemma ScaledAtMost(i: int, j: int, size: int)
    requires i <= j && 0 < size
    ensures i * size <= j * size
  {
    if i < j {
      ScaledBelow(i, j, size);
    }
  }

  /** The allocated size is the least multiple of the alignment that is not below the total. */
  lemma RoundUpIsLeast(total: int, alignment: int, m: int)
    requires 0 < total && 0 < alignment
    ensures RoundUp(total, alignment) >= total
    ensures RoundUp(total, alignment) % alignment == 0
    ensures m * alignment >= total ==> m * alignment >= RoundUp(total, alignment)
  {
    var q := (total - 1) / alignment;
    Quotient(total - 1, alignment);
    ScaledBelow(q, q + 1, alignment);
    MultipleOf(q + 1, alignment);
    if m <= q {
      ScaledAtMost(m, q, alignment);
    } else {
      ScaledAtMost(q + 1, m, alignment);
    }
  }

  /** Distinct slots occupy disjoint byte ranges, all of them within the allocated block. */
  lemma SlotsAreDisjoint(base: int, size: int, cnt: int, alignment: int, i: int, j: int)
    requires Block(base, size, cnt) && 0 < alignment
    requires 0 <= i < cnt && 0 <= j < cnt && i != j
    ensures || Addr(base, size, i) + size <= Addr(base, size, j)
            || Addr(base, size, j) + size <= Addr(base, size, i)
    ensures base <= Addr(base, size, i)
    ensures Addr(base, size, i) + size <= base + RoundUp(size * cnt, alignment)
  {
    ScaledBelow(if i < j then i else j, if i < j then j else i, size);
    ScaledBelow(i, cnt, size);
    ScaledBelow(-1, i, size);
    RoundUpIsLeast(size * cnt, alignment, 0);
  }

  // ------------------------------------------------------------ bookkeeping

  /** `free` is the stack of free slots, its top at the end. The counters are 64-bit words. */
  datatype Pool = Pool(cnt: nat, free: seq<nat>, used: seq<bool>, mallocs: seq<nat>, frees: seq<nat>,
                       succeeded: nat, failed: nat, freed: nat, lowest: int, fatal: bool)

  datatype Op = Malloc | Free(slot: nat)

  /** A 64-bit increment. */
  function Inc(x: nat): nat { if x == WORD - 1 then 0 else x + 1 }

  /** A 64-bit counter after `n` increments. */
  function Word(n: nat): nat { if n == 0 then 0 else Inc(Word(n - 1)) }

  lemma WordStep(n: nat, b: bool)
    ensures Word(n + Bit(b)) == if b then Inc(Word(n)) else Word(n)
  {
  }

  lemma IncIsModulo(n: nat)
    ensures (n + 1) % WORD == Inc(n % WORD)
  {
    var q := n / WORD;
    assert n + 1 == q * WORD + n % WORD + 1;
  }

  lemma {:induction false} WordIsModulo(n: nat)
    ensures Word(n) == n % WORD
  {
    if n > 0 {
      WordIsModulo(n - 1);
      IncIsModulo(n - 1);
    }
  }

  function Fresh(cnt: nat): Pool {
    Pool(cnt, seq(cnt, i => i), seq(cnt, i => false), seq(cnt, i => 0), seq(cnt, i => 0),
         0, 0, 0, INT32_MAX, false)
  }

  ghost predicate Shaped(p: Pool) {
    && |p.used| == |p.mallocs| == |p.frees| == p.cnt
    && forall k :: 0 <= k < |p.free| ==> p.free[k] < p.cnt
  }

  /** The slot an allocation would return. */
  function Top(p: Pool): Option<nat> {
    if p.free == [] then None else Some(p.free[|p.free| - 1])
  }

  function DoMalloc(p: Pool): Pool
    requires Shaped(p)
  {
    if p.free == [] then p.(failed := Inc(p.failed))
    else
      var left, slot := |p.free| - 1, p.free[|p.free| - 1];
      var q := p.(free := p.free[..left], succeeded := Inc(p.succeeded),
                  lowest := if left < p.lowest then left else p.lowest);
      if p.used[slot] then q.(fatal := true)
      else q.(used := p.used[slot := true], mallocs := p.mallocs[slot := Inc(p.mallocs[slot])])
  }

  function DoFree(p: Pool, slot: nat): Pool
    requires Shaped(p)
  {
    var q := p.(freed := Inc(p.freed));
    if slot >= p.cnt || !p.used[slot] then q.(fatal := true)
    else q.(used := p.used[slot := false], frees := p.frees[slot := Inc(p.frees[slot])],
            free := p.free + [slot])
  }

  ghost function Step(p: Pool, op: Op): (q: Pool)
    requires Shaped(p)
    ensures Shaped(q) && q.cnt == p.cnt
  {
    if p.fatal then p
    else match op
      case Malloc => DoMalloc(p)
      case Free(slot) => DoFree(p, slot)
  }

  /** A pool of `cnt` slots going through the operations `ops`. */
  ghost predicate History(trace: seq<Pool>, ops: seq<Op>, cnt: nat) {
    && |trace| == |ops| + 1
    && trace[0] == Fresh(cnt)
    && (forall i :: 0 <= i < |trace| ==> Shaped(trace[i]) && trace[i].cnt == cnt)
    && (forall i {:trigger ops[i]} :: 0 <= i < |ops| ==> trace[i + 1] == Step(trace[i], ops[i]))
  }

  function LiveCount(used: seq<bool>): nat {
    if |used| == 0 then 0 else LiveCount(used[..|used| - 1]) + Bit(used[|used| - 1])
  }

  /** Operation `op` on `p` hands out slot `slot`. */
  predicate HandsOut(p: Pool, op: Op, slot: nat) {
    !p.fatal && op == Malloc && Top(p) == Some(slot)
  }

  predicate TakesBack(p: Pool, op: Op, slot: nat) {
    !p.fatal && op == Free(slot)
  }

  /** How often the first `n` operations hand out, and take back, one slot. */
  ghost function Mallocs(trace: seq<Pool>, ops: seq<Op>, n: nat, slot: nat): nat
    requires n <= |trace| && n <= |ops|
  {
    if n == 0 then 0 else Mallocs(trace, ops, n - 1, slot) + Bit(HandsOut(trace[n - 1], ops[n - 1], slot))
  }

  ghost function Frees(trace: seq<Pool>, ops: seq<Op>, n: nat, slot: nat): nat
    requires n <= |trace| && n <= |ops|
  {
    if n == 0 then 0 else Frees(trace, ops, n - 1, slot) + Bit(TakesBack(trace[n - 1], ops[n - 1], slot))
  }

  /** How many of the first `n` operations find the pool empty. */
  ghost function Refusals(trace: seq<Pool>, ops: seq<Op>, n: nat): nat
    requires n <= |trace| && n <= |ops|
  {
    if n == 0 then 0
    else Refusals(trace, ops, n - 1)
         + Bit(!trace[n - 1].fatal && ops[n - 1] == Malloc && trace[n - 1].free == [])
  }

  /** The sums of the two over the slots below `slots`. */
  ghost function AllMallocs(trace: seq<Pool>, ops: seq<Op>, n: nat, slots: nat): nat
    requires n <= |trace| && n <= |ops|
  {
    if slots == 0 then 0 else AllMallocs(trace, ops, n, slots - 1) + Mallocs(trace, ops, n, slots - 1)
  }

  ghost function AllFrees(trace: seq<Pool>, ops: seq<Op>, n: nat, slots: nat): nat
    requires n <= |trace| && n <= |ops|
  {
    if slots == 0 then 0 else AllFrees(trace, ops, n, slots - 1) + Frees(trace, ops, n, slots - 1)
  }

  /** The most objects live at once after any of the first `n` operations. */
  ghost function Peak(trace: seq<Pool>, n: nat): nat
    requires n < |trace|
  {
    if n == 0 then 0
    else
      var before, now := Peak(trace, n - 1), LiveCount(trace[n].used);
      if before < now then now else before
  }

  /** The free slots are distinct, and they are exactly the slots not in use. */
  ghost predicate Splits(free: seq<nat>, used: seq<bool>) {
    && (forall k :: 0 <= k < |free| ==> free[k] < |used| && !used[free[k]])
    && (forall j, k :: 0 <= j < k < |free| ==> free[j] != free[k])
    && (forall slot :: 0 <= slot < |used| && !used[slot] ==> slot in free)
    && |free| + LiveCount(used) == |used|
  }

  ghost predicate Partition(p: Pool)
    requires Shaped(p)
  {
    Splits(p.free, p.used)
  }

  lemma {:induction false} LiveCountUpdate(used: seq<bool>, slot: nat, b: bool)
    requires slot < |used|
    ensures LiveCount(used[slot := b]) + Bit(used[slot]) == LiveCount(used) + Bit(b)
  {
    var last := |used| - 1;
    if slot == last {
      assert used[slot := b][..last] == used[..last];
    } else {
      LiveCountUpdate(used[..last], slot, b);
      assert used[slot := b][..last] == used[..last][slot := b];
    }
  }

  lemma {:induction false} NoneLive(used: seq<bool>)
    requires forall i :: 0 <= i < |used| ==> !used[i]
    ensures LiveCount(used) == 0
  {
    if |used| > 0 {
      NoneLive(used[..|used| - 1]);
    }
  }

  /** A stack without its top still holds everything else. */
  lemma PopKeepsOthers(free: seq<nat>, s: nat)
    requires free != [] && s in free && s != free[|free| - 1]
    ensures s in free[..|free| - 1]
  {
    var k :| 0 <= k < |free| && free[k] == s;
    assert free[..|free| - 1][k] == s;
  }

  lemma PopKeepsSplit(free: seq<nat>, used: seq<bool>)
    requires Splits(free, used) && free != []
    ensures Splits(free[..|free| - 1], used[free[|free| - 1] := true])
  {
    var slot := free[|free| - 1];
    var used' := used[slot := true];
    LiveCountUpdate(used, slot, true);
    forall s | 0 <= s < |used| && !used'[s]
      ensures s in free[..|free| - 1]
    {
      PopKeepsOthers(free, s);
    }
  }

  lemma PushKeepsSplit(free: seq<nat>, used: seq<bool>, slot: nat)
    requires Splits(free, used) && slot < |used| && used[slot]
    ensures Splits(free + [slot], used[slot := false])
  {
    LiveCountUpdate(used, slot, false);
    assert slot in free + [slot];
  }

  lemma MallocKeepsPartition(p: Pool)
    requires Shaped(p) && Partition(p) && !p.fatal
    ensures Partition(DoMalloc(p)) && !DoMalloc(p).fatal
  {
    if p.free != [] {
      PopKeepsSplit(p.free, p.used);
    }
  }

  /** A release is fatal exactly when the slot is not in use, and otherwise there is room on
      the stack for it. */
  lemma FreeKeepsPartition(p: Pool, slot: nat)
    requires Shaped(p) && Partition(p) && !p.fatal
    ensures DoFree(p, slot).fatal <==> !(slot < p.cnt && p.used[slot])
    ensures !DoFree(p, slot).fatal ==> |p.free| < p.cnt && Partition(DoFree(p, slot))
  {
    if slot < p.cnt && p.used[slot] {
      PushKeepsSplit(p.free, p.used, slot);
    }
  }

  lemma FreshPartition(cnt: nat)
    ensures Partition(Fresh(cnt))
  {
    NoneLive(Fresh(cnt).used);
    var p := Fresh(cnt);
    forall slot | 0 <= slot < cnt
      ensures slot in p.free
    {
      assert p.free[slot] == slot;
    }
  }

  lemma StepKeepsPartition(p: Pool, op: Op)
    requires Shaped(p) && Partition(p) && !p.fatal
    ensures Step(p, op).fatal <==> op.Free? && !(op.slot < p.cnt && p.used[op.slot])
    ensures !Step(p, op).fatal ==> Partition(Step(p, op))
  {
    match op
    case Malloc => MallocKeepsPartition(p);
    case Free(slot) => FreeKeepsPartition(p, slot);
  }

  /** In every history: until an invalid release, the partition holds, and only an invalid
      release ends it. */
  lemma {:induction false} PartitionHolds(trace: seq<Pool>, ops: seq<Op>, cnt: nat, n: nat)
    requires History(trace, ops, cnt) && n <= |ops| && !trace[n].fatal
    ensures Partition(trace[n])
    ensures n > 0 ==> !trace[n - 1].fatal && Partition(trace[n - 1])
    ensures n < |ops| ==>
              (trace[n + 1].fatal <==> ops[n].Free? && !(ops[n].slot < cnt && trace[n].used[ops[n].slot]))
  {
    if n == 0 {
      FreshPartition(cnt);
    } else {
      assert trace[n] == Step(trace[n - 1], ops[n - 1]);
      PartitionHolds(trace, ops, cnt, n - 1);
      StepKeepsPartition(trace[n - 1], ops[n - 1]);
    }
    if n < |ops| {
      StepKeepsPartition(trace[n], ops[n]);
    }
  }

  /** What one operation does to one slot. */
  lemma StepOnSlot(p: Pool, op: Op, slot: nat)
    requires Shaped(p) && Partition(p) && !p.fatal && !Step(p, op).fatal && slot < p.cnt
    ensures var q := Step(p, op);
            && q.mallocs[slot] == (if HandsOut(p, op, slot) then Inc(p.mallocs[slot]) else p.mallocs[slot])
            && q.frees[slot] == (if TakesBack(p, op, slot) then Inc(p.frees[slot]) else p.frees[slot])
            && Bit(q.used[slot]) + Bit(TakesBack(p, op, slot)) == Bit(p.used[slot]) + Bit(HandsOut(p, op, slot))
  {
  }

  /** Per slot, allocations minus releases is the slot's bit. */
  lemma {:induction false} SlotConservation(trace: seq<Pool>, ops: seq<Op>, cnt: nat, n: nat, slot: nat)
    requires History(trace, ops, cnt) && n <= |ops| && !trace[n].fatal && slot < cnt
    ensures Mallocs(trace, ops, n, slot) == Frees(trace, ops, n, slot) + Bit(trace[n].used[slot])
  {
    if n > 0 {
      PartitionHolds(trace, ops, cnt, n);
      SlotConservation(trace, ops, cnt, n - 1, slot);
      StepOnSlot(trace[n - 1], ops[n - 1], slot);
    }
  }

  /** What one operation does to the two counts of a slot and their counters. */
  lemma SlotAfter(trace: seq<Pool>, ops: seq<Op>, cnt: nat, n: nat, slot: nat) returns (out: bool, back: bool)
    requires History(trace, ops, cnt) && n < |ops| && !trace[n + 1].fatal && slot < cnt
    ensures !trace[n].fatal
    ensures Mallocs(trace, ops, n + 1, slot) == Mallocs(trace, ops, n, slot) + Bit(out)
    ensures Frees(trace, ops, n + 1, slot) == Frees(trace, ops, n, slot) + Bit(back)
    ensures trace[n + 1].mallocs[slot] == if out then Inc(trace[n].mallocs[slot]) else trace[n].mallocs[slot]
    ensures trace[n + 1].frees[slot] == if back then Inc(trace[n].frees[slot]) else trace[n].frees[slot]
  {
    PartitionHolds(trace, ops, cnt, n + 1);
    StepOnSlot(trace[n], ops[n], slot);
    out, back := HandsOut(trace[n], ops[n], slot), TakesBack(trace[n], ops[n], slot);
  }

  /** The two machine counters of a slot are its two counts modulo 2^64. */
  lemma {:induction false} SlotCounted(trace: seq<Pool>, ops: seq<Op>, cnt: nat, n: nat, slot: nat)
    requires History(trace, ops, cnt) && n <= |ops| && !trace[n].fatal && slot < cnt
    ensures trace[n].mallocs[slot] == Word(Mallocs(trace, ops, n, slot))
    ensures trace[n].frees[slot] == Word(Frees(trace, ops, n, slot))
  {
    if n > 0 {
      var out, back := SlotAfter(trace, ops, cnt, n - 1, slot);
      SlotCounted(trace, ops, cnt, n - 1, slot);
      WordStep(Mallocs(trace, ops, n - 1, slot), out);
      WordStep(Frees(trace, ops, n - 1, slot), back);
    }
  }

  /** One operation changes the sum over the slots by the one slot it concerns. */
  lemma {:induction false} SumsStep(trace: seq<Pool>, ops: seq<Op>, n: nat, slots: nat)
    requires n < |trace| && n < |ops|
    ensures AllMallocs(trace, ops, n + 1, slots) == AllMallocs(trace, ops, n, slots)
              + Bit(!trace[n].fatal && ops[n] == Malloc && Top(trace[n]).Some? && Top(trace[n]).value < slots)
    ensures AllFrees(trace, ops, n + 1, slots) == AllFrees(trace, ops, n, slots)
              + Bit(!trace[n].fatal && ops[n].Free? && ops[n].slot < slots)
  {
    if slots > 0 {
      SumsStep(trace, ops, n, slots - 1);
    }
  }

  lemma {:induction false} NoOpsNoSums(trace: seq<Pool>, ops: seq<Op>, slots: nat)
    ensures AllMallocs(trace, ops, 0, slots) == 0 && AllFrees(trace, ops, 0, slots) == 0
  {
    if slots > 0 {
      NoOpsNoSums(trace, ops, slots - 1);
    }
  }

  lemma StepOnTotals(p: Pool, op: Op)
    requires Shaped(p) && Partition(p) && !p.fatal && !Step(p, op).fatal
    ensures var q := Step(p, op);
            var out := op == Malloc && Top(p).Some?;
            && q.succeeded == (if out then Inc(p.succeeded) else p.succeeded)
            && q.freed == (if op.Free? then Inc(p.freed) else p.freed)
            && q.failed == (if op == Malloc && !out then Inc(p.failed) else p.failed)
            && |q.free| + Bit(out) == |p.free| + Bit(op.Free?)
            && q.lowest == if out && |q.free| < p.lowest then |q.free| else p.lowest
  {
  }

  /** Summed over the slots, allocations less releases is the number of slots not free. */
  lemma {:induction false} LiveConservation(trace: seq<Pool>, ops: seq<Op>, cnt: nat, n: nat)
    requires History(trace, ops, cnt) && n <= |ops| && !trace[n].fatal
    ensures AllMallocs(trace, ops, n, cnt) == AllFrees(trace, ops, n, cnt) + cnt - |trace[n].free|
  {
    if n == 0 {
      NoOpsNoSums(trace, ops, cnt);
    } else {
      PartitionHolds(trace, ops, cnt, n);
      LiveConservation(trace, ops, cnt, n - 1);
      SumsStep(trace, ops, n - 1, cnt);
      StepOnTotals(trace[n - 1], ops[n - 1]);
    }
  }

  /** The counter of failed allocations is the number of refusals modulo 2^64. */
  lemma {:induction false} RefusalsCounted(trace: seq<Pool>, ops: seq<Op>, cnt: nat, n: nat)
    requires History(trace, ops, cnt) && n <= |ops| && !trace[n].fatal
    ensures trace[n].failed == Word(Refusals(trace, ops, n))
  {
    if n > 0 {
      PartitionHolds(trace, ops, cnt, n);
      RefusalsCounted(trace, ops, cnt, n - 1);
      StepOnTotals(trace[n - 1], ops[n - 1]);
      WordStep(Refusals(trace, ops, n - 1), ops[n - 1] == Malloc && trace[n - 1].free == []);
    }
  }

  /** What one operation does to the two sums and their counters. */
  lemma TotalsAfter(trace: seq<Pool>, ops: seq<Op>, cnt: nat, n: nat) returns (out: bool, back: bool)
    requires History(trace, ops, cnt) && n < |ops| && !trace[n + 1].fatal
    ensures !trace[n].fatal
    ensures AllMallocs(trace, ops, n + 1, cnt) == AllMallocs(trace, ops, n, cnt) + Bit(out)
    ensures AllFrees(trace, ops, n + 1, cnt) == AllFrees(trace, ops, n, cnt) + Bit(back)
    ensures trace[n + 1].succeeded == if out then Inc(trace[n].succeeded) else trace[n].succeeded
    ensures trace[n + 1].freed == if back then Inc(trace[n].freed) else trace[n].freed
  {
    PartitionHolds(trace, ops, cnt, n + 1);
    SumsStep(trace, ops, n, cnt);
    StepOnTotals(trace[n], ops[n]);
    out, back := ops[n] == Malloc && Top(trace[n]).Some?, ops[n].Free?;
  }

  /** The pool's own counters are the two sums modulo 2^64. */
  lemma {:induction false} TotalsCounted(trace: seq<Pool>, ops: seq<Op>, cnt: nat, n: nat)
    requires History(trace, ops, cnt) && n <= |ops| && !trace[n].fatal
    ensures trace[n].succeeded == Word(AllMallocs(trace, ops, n, cnt))
    ensures trace[n].freed == Word(AllFrees(trace, ops, n, cnt))
  {
    if n == 0 {
      NoOpsNoSums(trace, ops, cnt);
    } else {
      var out, back := TotalsAfter(trace, ops, cnt, n - 1);
      TotalsCounted(trace, ops, cnt, n - 1);
      WordStep(AllMallocs(trace, ops, n - 1, cnt), out);
      WordStep(AllFrees(trace, ops, n - 1, cnt), back);
    }
  }

  lemma LiveIsBelowPeak(trace: seq<Pool>, n: nat)
    requires n < |trace| && (n == 0 ==> LiveCount(trace[0].used) == 0)
    ensures LiveCount(trace[n].used) <= Peak(trace, n)
  {
  }

  /** The low-water mark: untouched until an object has been live, and from then on the pool
      size less the most objects ever live at once. */
  lemma {:induction false} LowWaterMark(trace: seq<Pool>, ops: seq<Op>, cnt: nat, n: nat)
    requires History(trace, ops, cnt) && n <= |ops| && !trace[n].fatal && 0 < cnt <= INT32_MAX
    ensures trace[n].lowest == if Peak(trace, n) == 0 then INT32_MAX else cnt - Peak(trace, n)
  {
    if n > 0 {
      PartitionHolds(trace, ops, cnt, n);
      LowWaterMark(trace, ops, cnt, n - 1);
      StepOnTotals(trace[n - 1], ops[n - 1]);
      FreshPartition(cnt);
      LiveIsBelowPeak(trace, n - 1);
    }
  }

  /** A successful allocation leaves an object live; nothing else makes more objects live. */
  lemma StepOnLive(p: Pool, op: Op)
    requires Shaped(p) && Partition(p) && !p.fatal && !Step(p, op).fatal
    ensures var live := LiveCount(Step(p, op).used);
            if op == Malloc && Top(p).Some? then live > 0 else live <= LiveCount(p.used)
  {
    StepOnTotals(p, op);
    StepKeepsPartition(p, op);
  }

  lemma LiveAfter(trace: seq<Pool>, ops: seq<Op>, cnt: nat, n: nat)
    requires History(trace, ops, cnt) && n < |ops| && !trace[n + 1].fatal
    ensures !trace[n].fatal
    ensures var live := LiveCount(trace[n + 1].used);
            if AllMallocs(trace, ops, n + 1, cnt) > AllMallocs(trace, ops, n, cnt) then live > 0
            else live <= LiveCount(trace[n].used)
    ensures AllMallocs(trace, ops, n, cnt) <= AllMallocs(trace, ops, n + 1, cnt)
  {
    PartitionHolds(trace, ops, cnt, n + 1);
    SumsStep(trace, ops, n, cnt);
    StepOnLive(trace[n], ops[n]);
  }

  lemma NoneLiveAtFirst(trace: seq<Pool>, ops: seq<Op>, cnt: nat)
    requires History(trace, ops, cnt)
    ensures LiveCount(trace[0].used) == 0
  {
    NoneLive(Fresh(cnt).used);
  }

  /** Some object has been live exactly when some allocation has succeeded. */
  lemma {:induction false} PeakAfterFirstSuccess(trace: seq<Pool>, ops: seq<Op>, cnt: nat, n: nat)
    requires History(trace, ops, cnt) && n <= |ops| && !trace[n].fatal
    ensures AllMallocs(trace, ops, n, cnt) == 0 <==> Peak(trace, n) == 0
  {
    if n == 0 {
      NoOpsNoSums(trace, ops, cnt);
    } else {
      LiveAfter(trace, ops, cnt, n - 1);
      PeakAfterFirstSuccess(trace, ops, cnt, n - 1);
      NoneLiveAtFirst(trace, ops, cnt);
      LiveIsBelowPeak(trace, n - 1);
    }
  }

  /** A slot that is handed out is not handed out again before it has been taken back. */
  lemma {:induction false} NotHandedOutTwice(trace: seq<Pool>, ops: seq<Op>, cnt: nat, i: nat, n: nat, slot: nat)
    requires History(trace, ops, cnt) && i < n <= |ops| && !trace[n].fatal
    requires HandsOut(trace[i], ops[i], slot)
    requires forall k :: i < k < n ==> ops[k] != Free(slot)
    ensures slot < cnt && trace[n].used[slot]
    ensures Top(trace[n]) != Some(slot)
    decreases n
  {
    PartitionHolds(trace, ops, cnt, n);
    if i < n - 1 {
      NotHandedOutTwice(trace, ops, cnt, i, n - 1, slot);
    }
    StepOnSlot(trace[n - 1], ops[n - 1], slot);
  }

  /** The free list is last in, first out: allocating right after a release returns the same
      slot, and releasing it again restores the free list and the bitmap. */
  lemma MallocUndoesFree(p: Pool, slot: nat)
    requires Shaped(p) && Partition(p) && !p.fatal && slot < p.cnt && p.used[slot]
    ensures var q := Step(p, Free(slot));
            var r := Step(q, Malloc);
            Top(q) == Some(slot) && r.free == p.free && r.used == p.used && !r.fatal
  {
    FreeKeepsPartition(p, slot);
  }

  lemma FreeUndoesMalloc(p: Pool)
    requires Shaped(p) && Partition(p) && !p.fatal && p.free != []
    ensures var r := Step(Step(p, Malloc), Free(Top(p).value));
            r.free == p.free && r.used == p.used && !r.fatal
  {
    assert !p.used[Top(p).value];
    assert p.free == p.free[..|p.free| - 1] + [p.free[|p.free| - 1]];
  }
}
