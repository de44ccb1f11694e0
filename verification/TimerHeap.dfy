// The binary heap under the scheduler, in place on one sequence.
module TimerHeap {
  datatype Timer = Timer(at: int, tag: nat)

  // Due-time order, first come first served for equal times.
  predicate Less(a: Timer, b: Timer) {
    a.at < b.at || (a.at == b.at && a.tag < b.tag)
  }

  function Parent(k: nat): nat {
    if k == 0 then 0 else (k - 1) / 2
  }

  // No entry goes before its parent.
  ghost predicate InOrder(h: seq<Timer>, k: nat)
    requires k < |h|
  {
    k > 0 ==> !Less(h[k], h[Parent(k)])
  }

  ghost predicate Ordered(h: seq<Timer>) {
    forall k {:trigger h[k]} :: 0 <= k < |h| ==> InOrder(h, k)
  }

  // Ordered but for entry j, which may belong further up; its children already stand
  // below its parent.
  ghost predicate OrderedBut(h: seq<Timer>, j: nat) {
    && j < |h|
    && (forall k {:trigger h[k]} :: 0 <= k < |h| && k != j ==> InOrder(h, k))
    && (forall k {:trigger h[k]} :: 0 < k < |h| && Parent(k) == j && j > 0 ==> !Less(h[k], h[Parent(j)]))
  }

  // Ordered below n but for the children of i, which may stand above it.
  ghost predicate OrderedAround(h: seq<Timer>, i: nat, n: nat) {
    && i < n <= |h|
    && (forall k {:trigger h[k]} :: 0 < k < n && Parent(k) != i ==> InOrder(h, k))
    && (forall k {:trigger h[k]} :: 0 < k < n && Parent(k) == i && i > 0 ==> !Less(h[k], h[Parent(i)]))
  }

  function Swapped(h: seq<Timer>, i: nat, j: nat): (r: seq<Timer>)
    requires i < |h| && j < |h|
    ensures |r| == |h| && multiset(r) == multiset(h)
  {
    h[i := h[j]][j := h[i]]
  }

  // The first entry is the earliest.
  lemma {:induction false} FirstIsLeast(h: seq<Timer>, k: nat)
    requires Ordered(h) && k < |h|
    ensures !Less(h[k], h[0])
  {
    if k > 0 {
      FirstIsLeast(h, Parent(k));
      assert InOrder(h, k);
    }
  }

  lemma UpSwaps(h: seq<Timer>, j: nat)
    requires OrderedBut(h, j) && j > 0 && Less(h[j], h[Parent(j)])
    ensures OrderedBut(Swapped(h, Parent(j), j), Parent(j))
  {
    var i, r := Parent(j), Swapped(h, Parent(j), j);
    forall k | 0 <= k < |r| && k != i ensures InOrder(r, k) {
      assert InOrder(h, i);
      if k != j && k > 0 { assert InOrder(h, k); assert Parent(k) == j ==> !Less(h[k], h[Parent(j)]); }
    }
    forall k | 0 < k < |r| && Parent(k) == i && i > 0 ensures !Less(r[k], r[Parent(i)]) {
      assert InOrder(h, i);
      if k != j { assert InOrder(h, k); }
    }
  }

  lemma UpEnds(h: seq<Timer>, j: nat)
    requires OrderedBut(h, j) && (j == 0 || !Less(h[j], h[Parent(j)]))
    ensures Ordered(h)
  {
    forall k | 0 <= k < |h| ensures InOrder(h, k) {}
  }

  // The smaller child of i below n.
  ghost predicate Child(h: seq<Timer>, i: nat, n: nat, j: nat) {
    && i < j < n <= |h| && Parent(j) == i
    && (forall k :: 0 < k < n && Parent(k) == i ==> !Less(h[k], h[j]))
  }

  lemma DownSwaps(h: seq<Timer>, i: nat, n: nat, j: nat)
    requires OrderedAround(h, i, n) && Child(h, i, n, j) && Less(h[j], h[i])
    ensures OrderedAround(Swapped(h, i, j), j, n)
  {
    var r := Swapped(h, i, j);
    forall k | 0 < k < n && Parent(k) != j ensures InOrder(r, k) {
      if Parent(k) == i {
        assert !Less(h[k], h[j]);
      } else if k == i {
        assert !Less(h[j], h[Parent(i)]);
      } else {
        assert InOrder(h, k);
      }
    }
    forall k | 0 < k < n && Parent(k) == j ensures !Less(r[k], r[Parent(j)]) {
      assert InOrder(h, k);
    }
  }

  lemma DownEnds(h: seq<Timer>, i: nat, n: nat)
    requires OrderedAround(h, i, n)
    requires forall k :: 0 < k < n && Parent(k) == i ==> !Less(h[k], h[i])
    ensures Ordered(h[..n])
  {
    forall k | 0 <= k < n ensures InOrder(h[..n], k) {
      if k > 0 && Parent(k) != i { assert InOrder(h, k); }
    }
  }

  lemma SmallerChild(h: seq<Timer>, i: nat, n: nat, j: nat)
    requires i < n <= |h| && 2 * i + 1 < n
    requires j == if 2 * i + 2 < n && Less(h[2 * i + 2], h[2 * i + 1]) then 2 * i + 2 else 2 * i + 1
    ensures Child(h, i, n, j)
  {
    forall k | 0 < k < n && Parent(k) == i ensures !Less(h[k], h[j]) {
      assert k == 2 * i + 1 || k == 2 * i + 2;
    }
  }

  class Heap {
    var h: seq<Timer>

    constructor ()
      ensures h == []
    {
      h := [];
    }

    method Swap(i: nat, j: nat)
      requires i < |h| && j < |h|
      modifies this
      ensures h == Swapped(old(h), i, j)
    {
      h := h[i := h[j]][j := h[i]];
    }

    method Up(j0: nat)
      requires j0 < |h| && OrderedBut(h, j0)
      modifies this
      ensures Ordered(h) && multiset(h) == multiset(old(h)) && |h| == |old(h)|
    {
      hide OrderedBut, Ordered, Swapped;
      var j: nat := j0;
      while true
        invariant j < |h| && OrderedBut(h, j)
        invariant multiset(h) == multiset(old(h)) && |h| == |old(h)|
        decreases j
      {
        var i := Parent(j);
        if i == j || !Less(h[j], h[i]) {
          break;
        }
        UpSwaps(h, j);
        Swap(i, j);
        j := i;
      }
      UpEnds(h, j);
    }

    method Down(n: nat)
      requires OrderedAround(h, 0, n)
      modifies this
      ensures |h| == |old(h)| && Ordered(h[..n]) && multiset(h) == multiset(old(h))
      ensures h[n..] == old(h)[n..]
    {
      hide OrderedAround, Ordered, Child;
      assert 0 < n <= |h| by { AroundBounds(h, 0, n); }
      var i := 0;
      while true
        invariant i < n <= |h| == |old(h)| && OrderedAround(h, i, n)
        invariant multiset(h) == multiset(old(h)) && h[n..] == old(h)[n..]
        decreases n - i
      {
        var j1 := 2 * i + 1;
        if j1 >= n {
          break;
        }
        var j := j1;
        if j1 + 1 < n && Less(h[j1 + 1], h[j1]) {
          j := j1 + 1;
        }
        SmallerChild(h, i, n, j);
        if !Less(h[j], h[i]) {
          ChildSettles(h, i, n, j);
          DownEnds(h, i, n);
          return;
        }
        DownSwaps(h, i, n, j);
        Swap(i, j);
        i := j;
      }
      DownEnds(h, i, n);
    }

    method Push(t: Timer)
      requires Ordered(h)
      modifies this
      ensures Ordered(h) && multiset(h) == multiset(old(h)) + multiset{t} && |h| == |old(h)| + 1
    {
      PushOrders(h, t);
      h := h + [t];
      Up(|h| - 1);
    }

    method Pop() returns (t: Timer)
      requires Ordered(h) && h != []
      modifies this
      ensures Ordered(h) && |h| == |old(h)| - 1
      ensures t == old(h)[0] && multiset(h) + multiset{t} == multiset(old(h))
    {
      hide Ordered, OrderedAround;
      var n := |h| - 1;
      PopOrders(h);
      Swap(0, n);
      if n > 0 { Down(n); }
      t := h[n];
      assert h == h[..n] + [t];
      SingleOrdered(h[..n]);
      h := h[..n];
    }
  }

  lemma AroundBounds(h: seq<Timer>, i: nat, n: nat)
    requires OrderedAround(h, i, n)
    ensures i < n <= |h|
  {}

  lemma ChildSettles(h: seq<Timer>, i: nat, n: nat, j: nat)
    requires Child(h, i, n, j) && !Less(h[j], h[i])
    ensures forall k :: 0 < k < n && Parent(k) == i ==> !Less(h[k], h[i])
  {}

  lemma PushOrders(h: seq<Timer>, t: Timer)
    requires Ordered(h)
    ensures OrderedBut(h + [t], |h|)
  {
    forall k | 0 <= k < |h| ensures InOrder(h + [t], k) { assert InOrder(h, k); }
  }

  lemma SingleOrdered(h: seq<Timer>)
    ensures h == [] ==> Ordered(h)
  {}

  lemma PopOrders(h: seq<Timer>)
    requires Ordered(h) && |h| > 0
    ensures |h| > 1 ==> OrderedAround(Swapped(h, 0, |h| - 1), 0, |h| - 1)
  {
    var r, n := Swapped(h, 0, |h| - 1), |h| - 1;
    forall k | 0 < k < n && Parent(k) != 0 ensures InOrder(r, k) { assert InOrder(h, k); }
  }
}
