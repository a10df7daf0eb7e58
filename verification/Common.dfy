/** Small helpers shared by every module. */
module Common {
  datatype Option<+T> = None | Some(value: T)

  function Min(a: int, b: int): int {
    if a <= b then a else b
  }

  function Max(a: int, b: int): int {
    if a <= b then b else a
  }

  /** The positions i and j of a sequence exchanged. */
  function Swapped<T>(s: seq<T>, i: nat, j: nat): (r: seq<T>)
    requires i < |s| && j < |s|
    ensures |r| == |s|
    ensures forall k :: 0 <= k < |s| ==> r[k] == if k == i then s[j] else if k == j then s[i] else s[k]
  {
    s[i := s[j]][j := s[i]]
  }

  lemma SwappedMultiset<T>(s: seq<T>, i: nat, j: nat)
    requires i < |s| && j < |s|
    ensures multiset(Swapped(s, i, j)) == multiset(s)
  {
  }

  /** What a list bounded by `cap` keeps: its most recent `cap` elements. */
  function LastN<T>(s: seq<T>, cap: nat): seq<T> {
    if |s| > cap then s[|s| - cap..] else s
  }

  /** So a list that was given one more element ends with it and keeps the order of what is left. */
  lemma LastNIs<T>(s: seq<T>, x: T, cap: nat)
    ensures var r := LastN(s + [x], cap);
      && |r| == Min(|s| + 1, cap) && (cap > 0 ==> r[|r| - 1] == x)
      && forall i :: 0 <= i < |r| - 1 ==> r[i] == s[|s| + 1 - |r| + i]
  {
  }

  /** 2 to the power e. */
  function P2(e: nat): (p: nat)
    ensures p > 0
  {
    if e == 0 then 1 else 2 * P2(e - 1)
  }

  lemma P2Values()
    ensures P2(0) == 1 && P2(1) == 2 && P2(2) == 4 && P2(3) == 8 && P2(4) == 16 && P2(5) == 32 && P2(6) == 64
    ensures P2(7) == 128 && P2(8) == 256 && P2(9) == 512 && P2(10) == 1024 && P2(11) == 2048 && P2(12) == 4096
  {
  }
}
