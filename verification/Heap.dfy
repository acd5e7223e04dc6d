/** The binary heap of queued deliveries. Every delivery carries its own
    position, so that one can be taken out of the middle. The sift and removal
    algorithms are those of Go's container/heap, over `Less` and `Swap` of the
    dispatcher's deliveryHeap. */
module DeliveryQueue {
  import opened Model

  class Delivery {
    const id: Id
    const sid: Sid
    const target: string
    const event: string
    const maxAttempts: int
    const onFirst: Option<Goto>
    var ord: nat
    var attempts: nat
    var fireAt: int
    var canceled: bool
    var running: bool
    var firstFired: bool
    var index: int  // position in the heap, -1 outside it

    constructor (id: Id, sid: Sid, r: Request, now: int)
      ensures this.id == id
      ensures Val() == Draft(sid, r, now)
    {
      this.id, this.sid, target, event := id, sid, r.target, r.event;
      maxAttempts, onFirst := r.maxAttempts, r.onFirst;
      ord, attempts, fireAt := 0, 0, now + r.delay;
      canceled, running, firstFired, index := false, false, false, 0;
    }

    function Val(): Del
      reads this`ord, this`attempts, this`fireAt, this`canceled, this`running, this`firstFired
    {
      Del(sid, target, event, maxAttempts, onFirst, ord, attempts, fireAt, canceled, running, firstFired)
    }
  }

  // ---------- sifting, on the keys alone ----------

  function Parent(k: nat): nat
    requires k > 0
  {
    (k - 1) / 2
  }

  /** The first `n` keys are a min-heap. */
  ghost predicate Ordered(ks: seq<int>, n: nat)
    requires n <= |ks|
  {
    forall k :: 0 < k < n ==> ks[Parent(k)] <= ks[k]
  }

  /** Like Ordered, except that position `j` may be too small for its parent. */
  ghost predicate OrderedBut(ks: seq<int>, j: nat, n: nat)
    requires n <= |ks|
  {
    && (forall k :: 0 < k < n && k != j ==> ks[Parent(k)] <= ks[k])
    && (forall k :: 0 < k < n && Parent(k) == j && j > 0 ==> ks[Parent(j)] <= ks[k])
  }

  /** Like Ordered, except that position `i` may be too big for its children or
      too small for its parent. */
  ghost predicate OrderedAround(ks: seq<int>, i: nat, n: nat)
    requires n <= |ks|
  {
    && (forall k :: 0 < k < n && k != i && Parent(k) != i ==> ks[Parent(k)] <= ks[k])
    && (forall k :: 0 < k < n && Parent(k) == i && i > 0 ==> ks[Parent(i)] <= ks[k])
  }

  lemma TimesExist(ds: seq<Delivery>)
    ensures exists ks :: AreTimes(ds, ks)
  {
    assert AreTimes(ds, seq(|ds|, k requires 0 <= k < |ds| reads ds => ds[k].fireAt));
  }

  ghost predicate AreTimes(ds: seq<Delivery>, ks: seq<int>)
    reads ds`fireAt
  {
    |ks| == |ds| && forall k :: 0 <= k < |ds| ==> ks[k] == ds[k].fireAt
  }

  function Swapped<T>(s: seq<T>, i: nat, j: nat): seq<T>
    requires i < |s| && j < |s|
  {
    s[i := s[j]][j := s[i]]
  }

  lemma SwappedSame<T>(s: seq<T>, i: nat, j: nat)
    requires i < |s| && j < |s|
    ensures multiset(Swapped(s, i, j)) == multiset(s)
    ensures (set x | x in Swapped(s, i, j)) == (set x | x in s)
  {
    var t := Swapped(s, i, j);
    forall x | x in s ensures x in t {
      var k :| 0 <= k < |s| && s[k] == x;
      assert t[if k == i then j else if k == j then i else k] == x;
    }
  }

  lemma UpStep(ks: seq<int>, j: nat, n: nat)
    requires 0 < j < n <= |ks| && OrderedBut(ks, j, n) && ks[j] < ks[Parent(j)]
    ensures OrderedBut(Swapped(ks, Parent(j), j), Parent(j), n)
  {
    var p := Parent(j);
    if p > 0 { assert ks[Parent(p)] <= ks[p]; }
  }

  lemma DownStep(ks: seq<int>, i: nat, j: nat, n: nat)
    requires i < j < n <= |ks| && OrderedAround(ks, i, n) && Parent(j) == i
    requires forall k :: 0 < k < n && Parent(k) == i ==> ks[j] <= ks[k]
    requires ks[j] < ks[i]
    ensures OrderedAround(Swapped(ks, i, j), j, n)
    ensures i > 0 ==> Swapped(ks, i, j)[Parent(i)] <= Swapped(ks, i, j)[i]
  {
  }

  lemma DownStop(ks: seq<int>, i: nat, n: nat)
    requires i < n <= |ks| && OrderedAround(ks, i, n)
    requires forall k :: 0 < k < n && Parent(k) == i ==> ks[i] <= ks[k]
    ensures OrderedBut(ks, i, n)
    ensures i > 0 && ks[Parent(i)] <= ks[i] ==> Ordered(ks, n)
  {
  }

  lemma {:induction false} RootFirst(ks: seq<int>, k: nat, n: nat)
    requires n <= |ks| && Ordered(ks, n) && k < n
    ensures ks[0] <= ks[k]
    decreases k
  {
    if k > 0 { RootFirst(ks, Parent(k), n); }
  }

  class DeliveryHeap {
    var items: seq<Delivery>

    ghost function Members(): set<Delivery>
      reads this
    {
      set d | d in items
    }

    ghost function Keys(): (ks: seq<int>)
      reads this, items`fireAt
      ensures |ks| == |items| && forall k :: 0 <= k < |items| ==> ks[k] == items[k].fireAt
    {
      TimesExist(items);
      var ks :| AreTimes(items, ks);
      ks
    }

    /** Positions agree with the back-pointers, so no delivery is in twice. */
    ghost predicate Indexed()
      reads this, items`index
    {
      forall k :: 0 <= k < |items| ==> items[k].index == k
    }

    ghost predicate Valid()
      reads this, items`index, items`fireAt
    {
      Indexed() && Ordered(Keys(), |items|)
    }

    constructor ()
      ensures items == [] && Valid()
    {
      items := [];
    }

    predicate Less(i: nat, j: nat)
      requires i < |items| && j < |items|
      reads this, items
    {
      items[i].fireAt < items[j].fireAt
    }

    method Swap(i: nat, j: nat)
      requires i < |items| && j < |items| && Indexed()
      modifies this`items, Members()`index
      ensures items == Swapped(old(items), i, j) && Keys() == Swapped(old(Keys()), i, j)
      ensures Indexed() && multiset(items) == old(multiset(items)) && Members() == old(Members())
    {
      SwappedSame(items, i, j);
      items := items[i := items[j]][j := items[i]];
      items[i].index := i;
      items[j].index := j;
    }

    method Up(start: nat, n: nat)
      requires start < n <= |items| && Indexed() && OrderedBut(Keys(), start, n)
      modifies this`items, Members()`index
      ensures Indexed() && multiset(items) == old(multiset(items)) && Members() == old(Members())
      ensures |items| == |old(items)| && items[n..] == old(items)[n..]
      ensures Ordered(Keys(), n)
    {
      var j: nat := start;
      while j > 0
        invariant j < n <= |items| == |old(items)| && Indexed() && OrderedBut(Keys(), j, n)
        invariant multiset(items) == old(multiset(items)) && items[n..] == old(items)[n..]
        invariant Members() == old(Members())
      {
        var i := Parent(j);
        if !Less(j, i) { break; }
        UpStep(Keys(), j, n);
        Swap(i, j);
        j := i;
      }
    }

    /** The smaller child, or `n` for a leaf. */
    method SmallerChild(i: nat, n: nat) returns (j: nat)
      requires i < n <= |items|
      ensures i < j <= n
      ensures j == n ==> forall k :: 0 < k < n ==> Parent(k) != i
      ensures j < n ==> Parent(j) == i && forall k :: 0 < k < n && Parent(k) == i ==> Keys()[j] <= Keys()[k]
    {
      j := 2 * i + 1;
      if j >= n {
        j := n;
      } else if j + 1 < n && Less(j + 1, j) {
        j := j + 1;
      }
    }

    /** Moves position `i` one level down, or answers that it may stay. */
    method DownOnce(i: nat, n: nat) returns (j: nat)
      requires i < n <= |items| && Indexed() && OrderedAround(Keys(), i, n)
      modifies this`items, Members()`index
      ensures i <= j < n <= |items| && Indexed() && OrderedAround(Keys(), j, n)
      ensures multiset(items) == old(multiset(items)) && Members() == old(Members())
      ensures |items| == |old(items)| && items[n..] == old(items)[n..]
      ensures j == i ==> Keys() == old(Keys()) && OrderedBut(Keys(), i, n)
      ensures j == i && i > 0 && Keys()[Parent(i)] <= Keys()[i] ==> Ordered(Keys(), n)
      ensures j > i ==> Parent(j) == i && Keys()[i] <= Keys()[j]
    {
      hide OrderedAround, OrderedBut, Ordered;
      j := SmallerChild(i, n);
      if j < n && Less(j, i) {
        DownStep(Keys(), i, j, n);
        Swap(i, j);
      } else {
        DownStop(Keys(), i, n);
        j := i;
      }
    }

    /** Sifts position `start` down; without a move, only its own parent may still be too big. */
    method Down(start: nat, n: nat) returns (moved: bool)
      requires start < n <= |items| && Indexed() && OrderedAround(Keys(), start, n)
      modifies this`items, Members()`index
      ensures Indexed() && multiset(items) == old(multiset(items)) && Members() == old(Members())
      ensures |items| == |old(items)| && items[n..] == old(items)[n..]
      ensures moved ==> Ordered(Keys(), n)
      ensures !moved ==> OrderedBut(Keys(), start, n)
    {
      hide OrderedAround, OrderedBut, Ordered;
      var i: nat := start;
      var j := DownOnce(i, n);
      while j > i
        invariant start <= i <= j < n <= |items| == |old(items)| && Indexed() && OrderedAround(Keys(), j, n)
        invariant multiset(items) == old(multiset(items)) && items[n..] == old(items)[n..]
        invariant Members() == old(Members())
        invariant j > i ==> Parent(j) == i && Keys()[i] <= Keys()[j]
        invariant j == i ==> OrderedBut(Keys(), i, n) && (i > start ==> Ordered(Keys(), n))
        decreases n - i, j - i
      {
        i := j;
        j := DownOnce(i, n);
      }
      moved := i > start;
    }

    /** The sort.Interface half of removal: forget the last position. */
    method DropLast() returns (d: Delivery)
      requires |items| > 0 && Indexed() && Ordered(Keys(), |items| - 1)
      modifies this`items, Members()`index
      ensures d == old(items)[|old(items)| - 1] && d.index == -1 && d !in items
      ensures Valid() && multiset(items) == old(multiset(items)) - multiset{d} && Members() == old(Members()) - {d}
    {
      ghost var was := items;
      d := items[|items| - 1];
      items := items[..|items| - 1];
      d.index := -1;
      assert was == items + [d];
    }

    method Push(d: Delivery)
      requires Valid() && d !in items
      modifies this`items, Members()`index, d`index
      ensures Valid() && multiset(items) == old(multiset(items)) + multiset{d} && Members() == old(Members()) + {d}
    {
      d.index := |items|;
      items := items + [d];
      Up(|items| - 1, |items|);
    }

    method Remove(i: nat) returns (d: Delivery)
      requires Valid() && i < |items|
      modifies this`items, Members()`index
      ensures d == old(items)[i] && d.index == -1 && d !in items
      ensures Valid() && multiset(items) == old(multiset(items)) - multiset{d} && Members() == old(Members()) - {d}
    {
      var n := |items| - 1;
      if n != i {
        Swap(i, n);
        assert items[n..][0] == old(items)[i];
        var moved := Down(i, n);
        if !moved { Up(i, n); }
        assert items[n..][0] == old(items)[i];
      }
      d := DropLast();
    }

    method Pop() returns (d: Delivery)
      requires Valid() && |items| > 0
      modifies this`items, Members()`index
      ensures d == old(items)[0] && d.index == -1 && d !in items
      ensures Valid() && multiset(items) == old(multiset(items)) - multiset{d} && Members() == old(Members()) - {d}
    {
      var n := |items| - 1;
      if n > 0 {
        Swap(0, n);
        assert items[n..][0] == old(items)[0];
        var moved := Down(0, n);
        assert items[n..][0] == old(items)[0];
      }
      d := DropLast();
    }
  }
}
