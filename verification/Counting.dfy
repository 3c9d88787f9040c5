/** Counting by cases, shared by the modules that keep tallies. */
module Counting {
  function Bit(b: bool): nat { if b then 1 else 0 }

  /** How often `x` occurs in `s`. */
  ghost function Times<T>(s: seq<T>, x: T): nat {
    if |s| == 0 then 0 else Bit(s[0] == x) + Times(s[1..], x)
  }

  lemma {:induction false} TimesAppend<T>(s: seq<T>, y: T, x: T)
    ensures Times(s + [y], x) == Times(s, x) + Bit(y == x)
  {
    if |s| == 0 {
      assert s + [y] == [y] && [y][1..] == [];
    } else {
      assert (s + [y])[1..] == s[1..] + [y];
      TimesAppend(s[1..], y, x);
    }
  }
}
