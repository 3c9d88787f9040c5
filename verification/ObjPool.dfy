/** The object pool as it is: arrays of addresses, bits and counters, updated in place. */
module ObjPoolImpl {
  import opened KvModel
  import opened ObjPoolModel

  class ObjPool {
    const objCnt: int
    const objSize: int
    const realSize: int
    const memPtr: int
    const freeList: array<int>
    const bitmap: array<bool>
    const accountMalloc: array<nat>
    const accountFree: array<nat>
    var freeListSize: int
    var mallocSucceedCnt: nat
    var mallocFailedCnt: nat
    var freeCnt: nat
    var lowestFreeCnt: int
    var fatal: bool
    ghost var slots: seq<nat>

    /** The arrays are as long as the pool, and the used cells of the free list are the addresses
        of `slots`. */
    ghost predicate Sound()
      reads this, freeList
    {
      && Block(memPtr, objSize, objCnt)
      && freeList.Length == bitmap.Length == accountMalloc.Length == accountFree.Length == objCnt
      && accountMalloc != accountFree
      && freeListSize == |slots| <= objCnt
      && forall k :: 0 <= k < |slots| ==> slots[k] < objCnt && freeList[k] == Addr(memPtr, objSize, slots[k])
    }

    ghost function View(): Pool
      requires Sound()
      reads this, freeList, bitmap, accountMalloc, accountFree
    {
      Pool(objCnt, slots, bitmap[..], accountMalloc[..],
           accountFree[..], mallocSucceedCnt, mallocFailedCnt, freeCnt, lowestFreeCnt, fatal)
    }

    ghost predicate Valid()
      reads this, freeList, bitmap, accountMalloc, accountFree
    {
      Sound() && Shaped(View()) && Partition(View())
    }

    /** `mem` is what the aligned allocation returned for the size it was asked for. */
    constructor (cnt: int, size: int, alignment: int, mem: int)
      requires 0 < cnt <= INT32_MAX && 0 < size && 0 < alignment && 0 < mem
      requires mem + RoundUp(size * cnt, alignment) <= WORD
      ensures Valid() && View() == Fresh(cnt)
      ensures memPtr == mem && objSize == size && realSize == RoundUp(size * cnt, alignment)
      ensures fresh(freeList) && fresh(bitmap) && fresh(accountMalloc) && fresh(accountFree)
      ensures freeListSize == cnt && !fatal && forall k :: 0 <= k < cnt ==> freeList[k] == Addr(mem, size, k)
    {
      objCnt, objSize, memPtr := cnt, size, mem;
      realSize := RoundUp(size * cnt, alignment);
      freeList := new int[cnt](i => 0);
      bitmap := new bool[cnt](i => false);
      accountMalloc := new nat[cnt](i => 0);
      accountFree := new nat[cnt](i => 0);
      freeListSize, slots := 0, [];
      mallocSucceedCnt, mallocFailedCnt, freeCnt := 0, 0, 0;
      lowestFreeCnt, fatal := INT32_MAX, false;
      new;
      ScaledBelow(0, cnt, size);
      RoundUpIsLeast(size * cnt, alignment, 0);
      for i := 0 to cnt
        invariant freeListSize == i && Sound()
        invariant !fatal && mallocSucceedCnt == mallocFailedCnt == freeCnt == 0 && lowestFreeCnt == INT32_MAX
        invariant bitmap[..] == seq(cnt, i => false)
        invariant accountMalloc[..] == accountFree[..] == seq(cnt, i => 0)
        invariant slots == seq(i, k => k)
      {
        freeList[freeListSize] := mem + i * size;
        freeListSize, slots := freeListSize + 1, slots + [i];
      }
      FreshPartition(cnt);
      assert View().frees == Fresh(cnt).frees;
    }

    static lemma SlotAddress(base: int, size: int, cnt: int, i: int)
      requires Block(base, size, cnt) && 0 <= i < cnt
      ensures 0 <= Addr(base, size, i) < WORD
      ensures GetIndex(base, size, cnt, Addr(base, size, i)) == i
    {
      ScaledBelow(i, cnt, size);
      ScaledBelow(-1, i, size);
      GetIndexExact(base, size, cnt, Addr(base, size, i));
    }

    /** An index is below the count, and its slot is where the address says. */
    static lemma IndexInRange(base: int, size: int, cnt: int, p: int)
      requires Block(base, size, cnt) && 0 <= p < WORD
      ensures var i := GetIndex(base, size, cnt, p); i < cnt && (0 <= i ==> Addr(base, size, i) == p)
    {
      GetIndexExact(base, size, cnt, p);
    }

    /** The pool after an allocation, field by field. */
    static lemma IsMalloc(p: Pool, q: Pool, left: nat, slot: nat)
      requires Shaped(p) && Partition(p) && !p.fatal
      requires left + 1 == |p.free| && slot == p.free[left]
      requires q == Pool(p.cnt, p.free[..left], p.used[slot := true], p.mallocs[slot := Inc(p.mallocs[slot])],
                         p.frees, Inc(p.succeeded), p.failed, p.freed,
                         if left < p.lowest then left else p.lowest, false)
      ensures !p.used[slot] && Shaped(q) && Partition(q) && q == Step(p, Op.Malloc)
    {
      MallocKeepsPartition(p);
    }

    /** While a slot is in use, the stack of free slots is not full. */
    static lemma RoomForUsed(p: Pool, slot: int)
      requires Shaped(p) && Partition(p) && !p.fatal
      ensures 0 <= slot < p.cnt && p.used[slot] ==> |p.free| < p.cnt
    {
      if 0 <= slot < p.cnt && p.used[slot] {
        FreeKeepsPartition(p, slot);
      }
    }

    /** The pool after a release. */
    static lemma IsFree(p: Pool, q: Pool, slot: nat)
      requires Shaped(p) && Partition(p) && !p.fatal && slot < p.cnt && p.used[slot]
      requires q == Pool(p.cnt, p.free + [slot], p.used[slot := false], p.mallocs,
                         p.frees[slot := Inc(p.frees[slot])], p.succeeded, p.failed, Inc(p.freed), p.lowest, false)
      ensures Shaped(q) && Partition(q) && q == Step(p, Op.Free(slot))
    {
      FreeKeepsPartition(p, slot);
    }

    /** Null when the pool is empty, otherwise the address of the slot freed last. */
    method Malloc() returns (p: Option<int>)
      requires Valid() && !fatal
      modifies this, bitmap, accountMalloc
      ensures Valid() && !fatal && View() == Step(old(View()), Op.Malloc)
      ensures p == match Top(old(View()))
                   case None => None
                   case Some(slot) => Some(Addr(memPtr, objSize, slot))
    {
      ghost var before := View();
      if freeListSize == 0 {
        mallocFailedCnt := Inc(mallocFailedCnt);
        return None;
      }
      freeListSize := freeListSize - 1;
      var ele := freeList[freeListSize];
      ghost var slot := slots[freeListSize];
      SlotAddress(memPtr, objSize, objCnt, slot);
      slots := slots[..freeListSize];
      var ok := MallocCheckAndSet(ele);
      IsMalloc(before, View(), freeListSize, slot);
      return Some(ele);
    }

    /** False where the check stops the process. */
    method MallocCheckAndSet(p: int) returns (ok: bool)
      requires Sound() && 0 <= p < WORD
      modifies this`mallocSucceedCnt, this`lowestFreeCnt, this`fatal, bitmap, accountMalloc
      ensures var idx := GetIndex(memPtr, objSize, objCnt, p);
              && ok == (0 <= idx < objCnt && !old(bitmap[..])[idx])
              && fatal == (old(fatal) || !ok)
              && bitmap[..] == (if ok then old(bitmap[..])[idx := true] else old(bitmap[..]))
              && accountMalloc[..] ==
                 (if ok then old(accountMalloc[..])[idx := Inc(old(accountMalloc[..])[idx])]
                  else old(accountMalloc[..]))
      ensures mallocSucceedCnt == Inc(old(mallocSucceedCnt))
      ensures lowestFreeCnt == if freeListSize < old(lowestFreeCnt) then freeListSize else old(lowestFreeCnt)
    {
      mallocSucceedCnt := Inc(mallocSucceedCnt);
      if freeListSize < lowestFreeCnt {
        lowestFreeCnt := freeListSize;
      }
      var idx := GetIndex(memPtr, objSize, objCnt, p);
      IndexInRange(memPtr, objSize, objCnt, p);
      if idx < 0 {
        fatal := true;
        return false;
      }
      if bitmap[idx] {
        fatal := true;
        return false;
      }
      bitmap[idx] := true;
      accountMalloc[idx] := Inc(accountMalloc[idx]);
      return true;
    }

    /** Any address may be passed: one that is not the start of a slot in use stops the process,
        any other goes on top of the free list, for which there is room. */
    method Free(p: int)
      requires Valid() && !fatal && 0 <= p < WORD
      modifies this, freeList, bitmap, accountFree
      ensures var i := GetIndex(memPtr, objSize, objCnt, p);
              && (fatal <==> !(0 <= i < objCnt && old(View()).used[i]))
              && (!fatal ==> Valid() && View() == Step(old(View()), Op.Free(i)))
    {
      ghost var before := View();
      ghost var i := GetIndex(memPtr, objSize, objCnt, p);
      IndexInRange(memPtr, objSize, objCnt, p);
      RoomForUsed(before, i);
      var ok := FreeCheckAndSet(p);
      if !ok {
        return;
      }
      Push(p, i);
      IsFree(before, View(), i);
    }

    /** The address of `slot` goes on top of the free list. */
    method Push(p: int, ghost slot: nat)
      requires Sound() && freeListSize < objCnt && slot < objCnt && p == Addr(memPtr, objSize, slot)
      modifies this`freeListSize, this`slots, freeList
      ensures Sound() && slots == old(slots) + [slot]
    {
      freeList[freeListSize] := p;
      freeListSize, slots := freeListSize + 1, slots + [slot];
    }

    method FreeCheckAndSet(p: int) returns (ok: bool)
      requires Sound() && 0 <= p < WORD
      modifies this`freeCnt, this`fatal, bitmap, accountFree
      ensures var idx := GetIndex(memPtr, objSize, objCnt, p);
              && ok == (0 <= idx < objCnt && old(bitmap[..])[idx])
              && fatal == (old(fatal) || !ok)
              && bitmap[..] == (if ok then old(bitmap[..])[idx := false] else old(bitmap[..]))
              && accountFree[..] ==
                 (if ok then old(accountFree[..])[idx := Inc(old(accountFree[..])[idx])] else old(accountFree[..]))
      ensures freeCnt == Inc(old(freeCnt))
    {
      freeCnt := Inc(freeCnt);
      var idx := GetIndex(memPtr, objSize, objCnt, p);
      IndexInRange(memPtr, objSize, objCnt, p);
      if idx < 0 {
        fatal := true;
        return false;
      }
      if !bitmap[idx] {
        fatal := true;
        return false;
      }
      bitmap[idx] := false;
      accountFree[idx] := Inc(accountFree[idx]);
      return true;
    }
  }

  /** `ps` are the last slots of the pool, from the end. */
  ghost predicate LastSlots(ps: seq<int>, mem: int, size: int, cnt: int) {
    ps != [] ==> var k := |ps| - 1; ps[k] == Addr(mem, size, cnt - 1 - k) && LastSlots(ps[..k], mem, size, cnt)
  }

  lemma {:induction false} LastSlotsAre(ps: seq<int>, mem: int, size: int, cnt: int)
    requires LastSlots(ps, mem, size, cnt)
    ensures forall k :: 0 <= k < |ps| ==> ps[k] == mem + (cnt - 1 - k) * size
  {
    if ps != [] {
      LastSlotsAre(ps[..|ps| - 1], mem, size, cnt);
    }
  }

  /** One more allocation, after those that returned `ps`. */
  method NextMalloc(pool: ObjPool, cnt: int, ps: seq<int>) returns (longer: seq<int>)
    requires pool.Valid() && !pool.fatal && |ps| < cnt && pool.View().free == seq(cnt - |ps|, i => i)
    requires LastSlots(ps, pool.memPtr, pool.objSize, cnt)
    modifies pool, pool.bitmap, pool.accountMalloc
    ensures pool.Valid() && !pool.fatal && |longer| == |ps| + 1 && pool.View().free == seq(cnt - |longer|, i => i)
    ensures LastSlots(longer, pool.memPtr, pool.objSize, cnt)
  {
    var p := pool.Malloc();
    longer := ps + [p.value];
    assert longer[..|ps|] == ps;
  }

  method MallocTimes(pool: ObjPool, cnt: int, n: nat) returns (ps: seq<int>)
    requires pool.Valid() && !pool.fatal && n <= cnt && pool.View().free == seq(cnt, i => i)
    modifies pool, pool.bitmap, pool.accountMalloc
    ensures |ps| == n && LastSlots(ps, pool.memPtr, pool.objSize, cnt)
  {
    ps := [];
    for k := 0 to n
      invariant pool.Valid() && !pool.fatal && pool.View().free == seq(cnt - k, i => i)
      invariant |ps| == k && LastSlots(ps, pool.memPtr, pool.objSize, cnt)
    {
      ps := NextMalloc(pool, cnt, ps);
    }
  }

  /** A client of a fresh pool: its k-th allocation returns the k-th slot from the end. */
  method FirstMallocs(cnt: int, size: int, alignment: int, mem: int, n: nat) returns (ps: seq<int>)
    requires 0 < cnt <= INT32_MAX && 0 < size && 0 < alignment && 0 < mem
    requires mem + RoundUp(size * cnt, alignment) <= WORD && n <= cnt
    ensures |ps| == n && forall k :: 0 <= k < n ==> ps[k] == mem + (cnt - 1 - k) * size
  {
    var pool := new ObjPool(cnt, size, alignment, mem);
    ps := MallocTimes(pool, cnt, n);
    LastSlotsAre(ps, mem, size, cnt);
  }
}
