/** The vocabulary shared by the whole model: commands, log entries, client proposals,
    the events a client can observe, and the sequential key-value map a log denotes. */
module KvModel {
  datatype Option<+T> = None | Some(value: T)

  newtype Byte = x: int | 0 <= x < 256
  type Bytes = seq<Byte>
  type Store = map<Bytes, Bytes>

  /** The parsed form of an entry's data. Empty data parses to `NoOp` (`kInvalid`). */
  datatype Command =
    | NoOp
    | Get(key: Bytes)
    | Put(key: Bytes, value: Bytes)
    | Del(key: Bytes)

  /** `origin` is bookkeeping: the client whose request created the entry. The code carries
      no such field, and no step of the peer reads it. */
  datatype Entry = Entry(index: nat, term: nat, cmd: Command, origin: Option<nat>)

  /** `client` stands for the pair of response and closure, one per submitted request. */
  datatype Proposal = Proposal(index: nat, term: nat, client: nat)

  /** What a response holds when its closure runs. The arguments other than the value read are
      bookkeeping: of `Done` the entry applied, of `Stale` and `Swept` the rejected proposal,
      and of `Swept` also the entry whose application swept it. */
  datatype Outcome =
    | Done(index: nat, term: nat, value: Option<Bytes>)
    | NotLeader
    | Stale(index: nat, term: nat)
    | Swept(index: nat, term: nat, atIndex: nat, atTerm: nat)

  /** `Lost` records a closure that is dropped without ever running. */
  datatype Event =
    | Submitted(client: nat)
    | Answered(client: nat, outcome: Outcome)
    | Lost(client: nat)

  function Exec(m: Store, c: Command): Store {
    match c
    case NoOp => m
    case Get(_) => m
    case Put(k, v) => m[k := v]
    case Del(k) => m - {k}
  }

  /** The sequential map after the first `n` entries of `log`. */
  function After(log: seq<Entry>, n: nat): Store
    requires n <= |log|
  {
    if n == 0 then map[] else Exec(After(log, n - 1), log[n - 1].cmd)
  }

  predicate Writes(c: Command, key: Bytes) {
    (c.Put? || c.Del?) && c.key == key
  }

  /** Some entry among the first `n` writes `key`. */
  predicate Touched(log: seq<Entry>, n: nat, key: Bytes)
    requires n <= |log|
  {
    n > 0 && (Writes(log[n - 1].cmd, key) || Touched(log, n - 1, key))
  }

  /** Entry `i` reads a key that the sequential map does not hold at that point. */
  predicate ReadsMissing(log: seq<Entry>, i: nat)
    requires i < |log|
  {
    log[i].cmd.Get? && log[i].cmd.key !in After(log, i)
  }

  /** No entry from position `from` up to `n` puts or deletes `key`. */
  ghost predicate Unwritten(log: seq<Entry>, from: nat, n: nat, key: Bytes)
    requires n <= |log|
  {
    forall i :: from <= i < n && (log[i].cmd.Put? || log[i].cmd.Del?) ==> log[i].cmd.key != key
  }

  /** Of the first `n` entries, the one at `j` is the last to write `key`, and it puts `v`. */
  ghost predicate LastPut(log: seq<Entry>, n: nat, key: Bytes, v: Bytes, j: nat)
    requires n <= |log|
  {
    j < n && log[j].cmd == Put(key, v) && Unwritten(log, j + 1, n, key)
  }

  ghost predicate LastDel(log: seq<Entry>, n: nat, key: Bytes, j: nat)
    requires n <= |log|
  {
    j < n && log[j].cmd == Del(key) && Unwritten(log, j + 1, n, key)
  }

  /** The last of the first `n` entries to write `key` puts `v`, or deletes it. */
  ghost predicate LastPuts(log: seq<Entry>, n: nat, key: Bytes, v: Bytes)
    requires n <= |log|
  {
    exists j :: LastPut(log, n, key, v, j)
  }

  ghost predicate LastDeletes(log: seq<Entry>, n: nat, key: Bytes)
    requires n <= |log|
  {
    exists j :: LastDel(log, n, key, j)
  }

  /** `a` and `b` have the same first `n` entries. */
  ghost predicate Agree(a: seq<Entry>, b: seq<Entry>, n: nat) {
    n <= |a| && n <= |b| && forall i :: 0 <= i < n ==> a[i] == b[i]
  }

  /** The entry at position `j` carries the request of `client`. */
  ghost predicate Ordered(client: nat, order: seq<Entry>, j: int) {
    0 <= j < |order| && order[j].origin == Some(client)
  }

  ghost predicate InOrder(client: nat, order: seq<Entry>) {
    exists j :: Ordered(client, order, j)
  }

  lemma {:induction false} AfterAgree(a: seq<Entry>, b: seq<Entry>, n: nat)
    requires Agree(a, b, n)
    ensures After(a, n) == After(b, n)
    ensures forall k :: Touched(a, n, k) == Touched(b, n, k)
  {
    if n > 0 {
      AfterAgree(a, b, n - 1);
    }
  }

  lemma {:induction false} TouchedGrows(log: seq<Entry>, m: nat, n: nat, key: Bytes)
    requires m <= n <= |log|
    requires Touched(log, m, key)
    ensures Touched(log, n, key)
    decreases n
  {
    if m < n {
      TouchedGrows(log, m, n - 1, key);
    }
  }

  lemma {:induction false} HeldIsTouched(log: seq<Entry>, n: nat, key: Bytes)
    requires n <= |log|
    requires key in After(log, n)
    ensures Touched(log, n, key)
  {
    if n > 0 && !Writes(log[n - 1].cmd, key) {
      HeldIsTouched(log, n - 1, key);
    }
  }

  /** While nothing writes a key, its last write stays what it was. */
  lemma LastWriteStays(log: seq<Entry>, n: nat, key: Bytes, v: Bytes)
    requires n < |log|
    requires !((log[n].cmd.Put? || log[n].cmd.Del?) && log[n].cmd.key == key)
    ensures LastPuts(log, n + 1, key, v) <==> LastPuts(log, n, key, v)
    ensures LastDeletes(log, n + 1, key) <==> LastDeletes(log, n, key)
  {
    var m := n + 1;
    forall j: nat | LastPut(log, m, key, v, j)
      ensures LastPut(log, n, key, v, j)
    {
    }
    forall j: nat | LastPut(log, n, key, v, j)
      ensures LastPut(log, m, key, v, j)
    {
    }
    forall j: nat | LastDel(log, m, key, j)
      ensures LastDel(log, n, key, j)
    {
    }
    forall j: nat | LastDel(log, n, key, j)
      ensures LastDel(log, m, key, j)
    {
    }
  }

  /** A new write of the key is its last one. */
  lemma LastWriteIsNew(log: seq<Entry>, n: nat, key: Bytes, v: Bytes)
    requires n < |log| && (log[n].cmd.Put? || log[n].cmd.Del?) && log[n].cmd.key == key
    ensures LastPuts(log, n + 1, key, v) <==> log[n].cmd == Put(key, v)
    ensures LastDeletes(log, n + 1, key) <==> log[n].cmd == Del(key)
  {
    var m := n + 1;
    assert LastPut(log, m, key, v, n) <==> log[n].cmd == Put(key, v);
    assert LastDel(log, m, key, n) <==> log[n].cmd == Del(key);
    forall j: nat | LastPut(log, m, key, v, j)
      ensures j == n
    {
    }
    forall j: nat | LastDel(log, m, key, j)
      ensures j == n
    {
    }
  }

  /** The law of the sequential map: it holds exactly the value of the last put of each key that
      no later entry puts or deletes. */
  lemma {:induction false} HeldExactly(log: seq<Entry>, n: nat, key: Bytes, v: Bytes)
    requires n <= |log|
    ensures key in After(log, n) && After(log, n)[key] == v <==> LastPuts(log, n, key, v)
  {
    if n > 0 {
      HeldExactly(log, n - 1, key, v);
      if (log[n - 1].cmd.Put? || log[n - 1].cmd.Del?) && log[n - 1].cmd.key == key {
        LastWriteIsNew(log, n - 1, key, v);
      } else {
        LastWriteStays(log, n - 1, key, v);
      }
    }
  }

  /** A key is absent exactly when no entry writes it or the last entry to write it deletes it. */
  lemma {:induction false} AbsentExactly(log: seq<Entry>, n: nat, key: Bytes)
    requires n <= |log|
    ensures key !in After(log, n) <==> Unwritten(log, 0, n, key) || LastDeletes(log, n, key)
  {
    if n > 0 {
      AbsentExactly(log, n - 1, key);
      if (log[n - 1].cmd.Put? || log[n - 1].cmd.Del?) && log[n - 1].cmd.key == key {
        LastWriteIsNew(log, n - 1, key, []);
      } else {
        LastWriteStays(log, n - 1, key, []);
      }
    }
  }

  lemma {:induction false} TouchedExactly(log: seq<Entry>, n: nat, key: Bytes)
    requires n <= |log|
    ensures Touched(log, n, key) <==> !Unwritten(log, 0, n, key)
  {
    if n > 0 {
      TouchedExactly(log, n - 1, key);
    }
  }
}
