/** The due-time heap of internal/queue: `dueHeap` with its index back-pointers, driven by
    the sift-up and sift-down of Go's container/heap. */
module DueHeaps {
  import opened Common
  import opened Jobs

  class Item {
    const job: Job
    var index: int

    constructor (job: Job)
      ensures this.job == job && index == 0
    {
      this.job := job;
      index := 0;
    }
  }

  function JobsOf(items: seq<Item>): (s: seq<Job>)
    ensures |s| == |items|
    ensures forall i :: 0 <= i < |s| ==> s[i] == items[i].job
  {
    seq(|items|, i requires 0 <= i < |items| => items[i].job)
  }

  // ---------- The heap property on plain sequences ----------

  function Parent(i: nat): nat
    requires 0 < i
  {
    (i - 1) / 2
  }

  predicate Below(s: seq<Job>, i: nat)
    requires 0 < i < |s|
  {
    !Before(s[i], s[Parent(i)])
  }

  predicate IsHeap(s: seq<Job>) {
    forall i :: 0 < i < |s| ==> Below(s, i)
  }

  /** A heap but for the link between position j and its parent. */
  predicate HeapButAbove(s: seq<Job>, j: nat) {
    && (forall i :: 0 < i < |s| && i != j ==> Below(s, i))
    && (forall i :: 0 < i < |s| && 0 < j && Parent(i) == j ==> !Before(s[i], s[Parent(j)]))
  }

  /** Positions below n form a heap but for the links between position j and its children. */
  predicate HeapButBelow(s: seq<Job>, j: nat, n: nat)
    requires n <= |s|
  {
    && (forall i :: 0 < i < n && Parent(i) != j ==> Below(s, i))
    && (forall i :: 0 < i < n && 0 < j && Parent(i) == j ==> !Before(s[i], s[Parent(j)]))
  }

  /** The position sift-down compares with: the right child when it comes before the left one. */
  function LesserChild(s: seq<Job>, i: nat, n: nat): (j: nat)
    requires 2 * i + 1 < n <= |s|
    ensures i < j < n && Parent(j) == i
    ensures forall c :: 0 < c < n && Parent(c) == i ==> !Before(s[c], s[j])
  {
    if 2 * i + 2 < n && Before(s[2 * i + 2], s[2 * i + 1]) then 2 * i + 2 else 2 * i + 1
  }

  /** What container/heap up leaves of s. */
  function UpSeq(s: seq<Job>, j: nat): (r: seq<Job>)
    requires j < |s|
    ensures |r| == |s|
    decreases j
  {
    if j == 0 || !Before(s[j], s[Parent(j)]) then s else UpSeq(Swapped(s, Parent(j), j), Parent(j))
  }

  /** What container/heap down leaves of s. */
  function DownSeq(s: seq<Job>, i: nat, n: nat): (r: seq<Job>)
    requires i <= n <= |s|
    ensures |r| == |s|
    decreases n - i
  {
    if 2 * i + 1 >= n || !Before(s[LesserChild(s, i, n)], s[i]) then s
    else DownSeq(Swapped(s, i, LesserChild(s, i, n)), LesserChild(s, i, n), n)
  }

  /** heap.Push on the slice of jobs. */
  function PushSeq(s: seq<Job>, j: Job): seq<Job> {
    UpSeq(s + [j], |s|)
  }

  /** heap.Pop on the slice of jobs; the popped job is s[0]. */
  function PopSeq(s: seq<Job>): seq<Job>
    requires 0 < |s|
  {
    DownSeq(Swapped(s, 0, |s| - 1), 0, |s| - 1)[..|s| - 1]
  }

  lemma UpStep(s: seq<Job>, j: nat)
    requires 0 < j < |s| && HeapButAbove(s, j) && Before(s[j], s[Parent(j)])
    ensures HeapButAbove(Swapped(s, Parent(j), j), Parent(j))
  {
    var p, r := Parent(j), Swapped(s, Parent(j), j);
    forall i | 0 < i < |r| && i != p
      ensures Below(r, i)
    {
      if i != j && Parent(i) != j {
        assert Below(s, i);
      }
    }
    forall i | 0 < i < |r| && 0 < p && Parent(i) == p
      ensures !Before(r[i], r[Parent(p)])
    {
      assert Below(s, p);
      if i != j {
        assert Below(s, i);
      }
    }
  }

  lemma DownStep(s: seq<Job>, i: nat, n: nat)
    requires 2 * i + 1 < n <= |s| && HeapButBelow(s, i, n)
    requires Before(s[LesserChild(s, i, n)], s[i])
    ensures HeapButBelow(Swapped(s, i, LesserChild(s, i, n)), LesserChild(s, i, n), n)
  {
    var j := LesserChild(s, i, n);
    var r := Swapped(s, i, j);
    forall k | 0 < k < n && Parent(k) != j
      ensures Below(r, k)
    {
      if Parent(k) == i {
      } else if k == i {
        assert !Before(s[j], s[Parent(i)]);
      } else {
        assert Below(s, k);
      }
    }
    forall k | 0 < k < n && Parent(k) == j
      ensures !Before(r[k], r[Parent(j)])
    {
      assert Below(s, k);
    }
  }

  lemma RootToEnd(s: seq<Job>)
    requires 0 < |s| && IsHeap(s)
    ensures HeapButBelow(Swapped(s, 0, |s| - 1), 0, |s| - 1)
  {
    forall i | 0 < i < |s| - 1 && Parent(i) != 0
      ensures Below(Swapped(s, 0, |s| - 1), i)
    {
      assert Below(s, i);
    }
  }

  lemma CutHeap(s: seq<Job>, last: Job)
    requires forall i :: 0 < i < |s| ==> Below(s + [last], i)
    ensures IsHeap(s)
  {
    forall i | 0 < i < |s|
      ensures Below(s, i)
    {
      assert Below(s + [last], i);
    }
  }

  /** The root of a heap is a minimum: nothing in the heap comes before it. */
  lemma {:induction false} RootIsLeast(s: seq<Job>, k: nat)
    requires IsHeap(s) && k < |s|
    ensures !Before(s[k], s[0])
    ensures s[0].notBefore < s[k].notBefore || (s[0].notBefore == s[k].notBefore && s[0].createdAt <= s[k].createdAt)
    decreases k
  {
    if k > 0 {
      assert Below(s, k);
      RootIsLeast(s, Parent(k));
    }
  }

  lemma {:induction false} UpSeqRestores(s: seq<Job>, j: nat)
    requires j < |s| && HeapButAbove(s, j)
    ensures IsHeap(UpSeq(s, j)) && multiset(UpSeq(s, j)) == multiset(s)
    decreases j
  {
    if j > 0 && Before(s[j], s[Parent(j)]) {
      UpStep(s, j);
      SwappedMultiset(s, Parent(j), j);
      UpSeqRestores(Swapped(s, Parent(j), j), Parent(j));
    }
  }

  lemma {:induction false} DownSeqRestores(s: seq<Job>, i: nat, n: nat)
    requires i <= n <= |s| && HeapButBelow(s, i, n)
    ensures multiset(DownSeq(s, i, n)) == multiset(s) && DownSeq(s, i, n)[n..] == s[n..]
    ensures forall k :: 0 < k < n ==> Below(DownSeq(s, i, n), k)
    decreases n - i
  {
    if 2 * i + 1 < n {
      var j := LesserChild(s, i, n);
      if Before(s[j], s[i]) {
        DownStep(s, i, n);
        SwappedMultiset(s, i, j);
        DownSeqRestores(Swapped(s, i, j), j, n);
      }
    }
  }

  /** heap.Push keeps the heap and adds exactly the pushed job. */
  lemma PushKeepsHeap(s: seq<Job>, j: Job)
    requires IsHeap(s)
    ensures IsHeap(PushSeq(s, j)) && multiset(PushSeq(s, j)) == multiset(s) + multiset{j}
  {
    forall i | 0 < i < |s + [j]| && i != |s|
      ensures Below(s + [j], i)
    {
      assert Below(s, i);
    }
    UpSeqRestores(s + [j], |s|);
  }

  /** heap.Pop keeps the heap, removes exactly the root, and the root is a minimum. */
  lemma PopKeepsHeap(s: seq<Job>)
    requires IsHeap(s) && 0 < |s|
    ensures IsHeap(PopSeq(s)) && multiset(s) == multiset(PopSeq(s)) + multiset{s[0]}
    ensures forall k :: k in multiset(s) ==> !Before(k, s[0])
  {
    var n := |s| - 1;
    RootToEnd(s);
    SwappedMultiset(s, 0, n);
    var d := DownSeq(Swapped(s, 0, n), 0, n);
    DownSeqRestores(Swapped(s, 0, n), 0, n);
    assert d[n] == d[n..][0] == s[0];
    assert d == PopSeq(s) + [s[0]];
    CutHeap(PopSeq(s), s[0]);
    forall k | k in multiset(s)
      ensures !Before(k, s[0])
    {
      var i :| 0 <= i < |s| && s[i] == k;
      RootIsLeast(s, i);
    }
  }

  // ---------- The heap itself ----------

  predicate SameItems(a: seq<Item>, b: seq<Item>) {
    (forall x :: x in a ==> x in b) && (forall x :: x in b ==> x in a)
  }

  class DueHeap {
    var items: seq<Item>

    constructor ()
      ensures items == [] && Valid()
    {
      items := [];
    }

    /** Every item knows its own position, so no item occurs twice. */
    ghost predicate Indexed()
      reads this, items
    {
      forall i :: 0 <= i < |items| ==> items[i].index == i
    }

    ghost predicate Valid()
      reads this, items
    {
      Indexed() && IsHeap(JobsOf(items))
    }

    predicate Less(i: nat, j: nat)
      requires i < |items| && j < |items|
      reads this
    {
      Before(items[i].job, items[j].job)
    }

    method Swap(i: nat, j: nat)
      requires Indexed() && i < |items| && j < |items|
      modifies this, items
      ensures Indexed() && items == Swapped(old(items), i, j) && SameItems(items, old(items))
      ensures JobsOf(items) == Swapped(JobsOf(old(items)), i, j)
    {
      items := items[i := items[j]][j := items[i]];
      items[i].index := i;
      items[j].index := j;
      assert JobsOf(items) == Swapped(JobsOf(old(items)), i, j);
    }

    method Push(x: Item)
      requires Indexed() && x !in items
      modifies this, x
      ensures Indexed() && items == old(items) + [x] && JobsOf(items) == JobsOf(old(items)) + [x.job]
    {
      x.index := |items|;
      items := items + [x];
    }

    method Pop() returns (x: Item)
      requires Indexed() && 0 < |items|
      modifies this, items
      ensures Indexed() && old(items) == items + [x] && x !in items && x.index == -1
      ensures JobsOf(items) == JobsOf(old(items))[..|items|]
    {
      var n := |items|;
      x := items[n - 1];
      assert forall i :: 0 <= i < n - 1 ==> items[i].index != x.index;
      x.index := -1;
      items := items[..n - 1];
    }

    /** container/heap up(h, j). */
    method Up(j0: nat)
      requires Indexed() && j0 < |items|
      modifies this, items
      ensures Indexed() && JobsOf(items) == UpSeq(JobsOf(old(items)), j0) && SameItems(items, old(items))
    {
      var j: nat := j0;
      while true
        invariant j < |items| && Indexed() && UpSeq(JobsOf(items), j) == UpSeq(JobsOf(old(items)), j0)
        invariant SameItems(items, old(items)) && forall k :: 0 <= k < |items| ==> items[k] in old(items)
        decreases j
      {
        var i: nat := if j == 0 then 0 else (j - 1) / 2;
        if i == j || !Less(j, i) {
          break;
        }
        Swap(i, j);
        j := i;
      }
    }

    /** One round of container/heap down; j == i when it stops here. */
    method SinkOnce(i: nat, n: nat) returns (j: nat)
      requires Indexed() && i <= n <= |items|
      modifies this, items
      ensures Indexed() && |items| == |old(items)| && SameItems(items, old(items)) && i <= j <= n
      ensures j == i ==> items == old(items) && DownSeq(JobsOf(items), i, n) == JobsOf(items)
      ensures DownSeq(JobsOf(items), j, n) == DownSeq(JobsOf(old(items)), i, n)
      ensures forall k :: n <= k < |items| ==> items[k] == old(items)[k]
    {
      var j1 := 2 * i + 1;
      if j1 >= n {
        return i;
      }
      j := j1;
      if j1 + 1 < n && Less(j1 + 1, j1) {
        j := j1 + 1;
      }
      if !Less(j, i) {
        return i;
      }
      Swap(i, j);
    }

    /** container/heap down(h, i0, n). */
    method Down(i0: nat, n: nat)
      requires Indexed() && i0 <= n <= |items|
      modifies this, items
      ensures Indexed() && JobsOf(items) == DownSeq(JobsOf(old(items)), i0, n) && SameItems(items, old(items))
      ensures |items| == |old(items)| && forall k :: n <= k < |items| ==> items[k] == old(items)[k]
    {
      var i: nat := i0;
      while true
        invariant i <= n <= |items| == |old(items)| && Indexed()
        invariant DownSeq(JobsOf(items), i, n) == DownSeq(JobsOf(old(items)), i0, n)
        invariant SameItems(items, old(items)) && forall k :: 0 <= k < |items| ==> items[k] in old(items)
        invariant forall k :: n <= k < |items| ==> items[k] == old(items)[k]
        decreases n - i
      {
        var j := SinkOnce(i, n);
        if j == i {
          break;
        }
        i := j;
      }
    }

    /** heap.Push: append, then sift up. */
    method HeapPush(x: Item)
      requires Valid() && x !in items
      modifies this, items, x
      ensures Valid() && JobsOf(items) == PushSeq(JobsOf(old(items)), x.job)
      ensures forall y :: y in items <==> y in old(items) || y == x
    {
      PushKeepsHeap(JobsOf(items), x.job);
      Push(x);
      Up(|items| - 1);
    }

    /** heap.Pop: swap the root with the last item, sift down, cut the last item off. */
    method HeapPop() returns (x: Item)
      requires Valid() && 0 < |items|
      modifies this, items
      ensures Valid() && x == old(items)[0] && x.index == -1 && JobsOf(items) == PopSeq(JobsOf(old(items)))
      ensures forall y :: y in items <==> y in old(items) && y != x
    {
      hide IsHeap, DownSeq;
      PopKeepsHeap(JobsOf(items));
      SwapDown();
      ghost var all := items;
      x := Pop();
      assert all[|items|] == x;
      assert forall y :: y in all <==> y in items || y == x;
    }

    /** Root and last item exchanged, and the new root sifted down among all but the last. */
    method SwapDown()
      requires Indexed() && 0 < |items|
      modifies this, items
      ensures Indexed() && SameItems(items, old(items)) && |items| == |old(items)|
      ensures items[|items| - 1] == old(items)[0] && forall k :: 0 <= k < |items| ==> items[k] in old(items)
      ensures var n := |items| - 1; JobsOf(items) == DownSeq(Swapped(JobsOf(old(items)), 0, n), 0, n)
    {
      hide DownSeq;
      var n := |items| - 1;
      Swap(0, n);
      Down(0, n);
      assert forall k :: 0 <= k < |items| ==> items[k] in items;
    }
  }
}
