/** State names: their byte order, and the sort that makes map iteration
    deterministic. Code point order is the byte order of UTF-8. */
module Names {
  predicate Less(a: string, b: string) {
    if b == [] then false
    else if a == [] then true
    else a[0] < b[0] || (a[0] == b[0] && Less(a[1..], b[1..]))
  }

  /** The order is decided by the first place where two names differ; a name comes
      after those it continues. */
  lemma {:induction false} LessIsLexicographic(a: string, b: string)
    ensures Less(a, b) <==> exists k :: Differ(a, b, k) && (if k == |a| then k < |b| else k < |b| && a[k] < b[k])
  {
    if a == [] || b == [] {
      assert Differ(a, b, 0);
    } else if a[0] != b[0] {
      assert Differ(a, b, 0);
    } else {
      LessIsLexicographic(a[1..], b[1..]);
      forall k ensures Differ(a, b, k + 1) <==> Differ(a[1..], b[1..], k) {
        DifferMore(a, b, k);
      }
      assert !Differ(a, b, 0);
      if Less(a, b) {
        var k :| Differ(a[1..], b[1..], k) && (if k == |a[1..]| then k < |b[1..]| else k < |b[1..]| && a[1..][k] < b[1..][k]);
        assert Differ(a, b, k + 1);
      }
      if k :| Differ(a, b, k) && (if k == |a| then k < |b| else k < |b| && a[k] < b[k]) {
        assert Differ(a[1..], b[1..], k - 1);
      }
    }
  }

  /** `k` is where the two first differ, or where one of them ends. */
  ghost predicate Differ(a: string, b: string, k: int) {
    0 <= k <= |a| && k <= |b| && a[..k] == b[..k] && (k < |a| && k < |b| ==> a[k] != b[k])
  }

  lemma DifferMore(a: string, b: string, k: int)
    requires a != [] && b != [] && a[0] == b[0]
    ensures Differ(a, b, k + 1) <==> Differ(a[1..], b[1..], k) || (k == -1 && Differ(a, b, 0))
  {
    if 0 <= k < |a| && k < |b| {
      assert a[..k + 1] == [a[0]] + a[1..][..k] && b[..k + 1] == [b[0]] + b[1..][..k];
    }
  }

  predicate AtMost(a: string, b: string) {
    !Less(b, a)
  }

  lemma {:induction false} LessIsTotal(a: string, b: string)
    ensures Less(a, b) || a == b || Less(b, a)
    ensures !(Less(a, b) && Less(b, a)) && !(a == b && Less(a, b))
  {
    if a != [] && b != [] {
      LessIsTotal(a[1..], b[1..]);
      assert a[0] == b[0] && a[1..] == b[1..] ==> a == b by {
        assert a == [a[0]] + a[1..] && b == [b[0]] + b[1..];
      }
    }
  }

  lemma {:induction false} LessIsTransitive(a: string, b: string, c: string)
    requires Less(a, b) && Less(b, c)
    ensures Less(a, c)
  {
    if a != [] && a[0] == b[0] && b[0] == c[0] {
      LessIsTransitive(a[1..], b[1..], c[1..]);
    }
  }

  lemma AtMostIsTransitive(a: string, b: string, c: string)
    requires AtMost(a, b) && AtMost(b, c)
    ensures AtMost(a, c)
  {
    LessIsTotal(a, b);
    LessIsTotal(b, c);
    LessIsTotal(a, c);
    if Less(a, b) && Less(b, c) { LessIsTransitive(a, b, c); }
  }

  predicate Sorted(s: seq<string>) {
    forall i, j :: 0 <= i < j < |s| ==> AtMost(s[i], s[j])
  }

  /** The sorted form of a collection does not depend on the order it came in. */
  lemma {:induction false} SortedIsUnique(s: seq<string>, t: seq<string>)
    requires Sorted(s) && Sorted(t) && multiset(s) == multiset(t)
    ensures s == t
  {
    hide Less;
    assert |s| == |multiset(s)| == |t|;
    if s != [] {
      SameHead(s, t);
      assert s == [s[0]] + s[1..] && t == [t[0]] + t[1..];
      assert multiset(s[1..]) == multiset(s) - multiset{s[0]};
      assert multiset(t[1..]) == multiset(t) - multiset{t[0]};
      SortedIsUnique(s[1..], t[1..]);
    }
  }

  lemma SameHead(s: seq<string>, t: seq<string>)
    requires Sorted(s) && Sorted(t) && multiset(s) == multiset(t) && s != [] && t != []
    ensures s[0] == t[0]
  {
    hide Less;
    assert s[0] in multiset(t) && t[0] in multiset(s);
    var i :| 0 <= i < |t| && t[i] == s[0];
    var j :| 0 <= j < |s| && s[j] == t[0];
    LessIsTotal(s[0], t[0]);
  }

  /** Insertion sort, in place. */
  method SortStrings(a: array<string>)
    modifies a
    ensures Sorted(a[..]) && multiset(a[..]) == old(multiset(a[..]))
  {
    var i := 1;
    while i < a.Length
      invariant 1 <= i && (i <= a.Length || a.Length == 0)
      invariant forall p, q :: 0 <= p < q < i && q < a.Length ==> AtMost(a[p], a[q])
      invariant multiset(a[..]) == old(multiset(a[..]))
    {
      Insert(a, i);
      i := i + 1;
    }
  }

  /** Moves element `i` down into the sorted part before it. */
  method Insert(a: array<string>, i: nat)
    requires i < a.Length && forall p, q :: 0 <= p < q < i ==> AtMost(a[p], a[q])
    modifies a
    ensures forall p, q :: 0 <= p < q <= i ==> AtMost(a[p], a[q])
    ensures multiset(a[..]) == old(multiset(a[..]))
  {
    hide Less;
    var j := i;
    while j > 0 && Less(a[j], a[j - 1])
      invariant 0 <= j <= i
      invariant forall p, q :: 0 <= p < q <= i && q != j ==> AtMost(a[p], a[q])
      invariant multiset(a[..]) == old(multiset(a[..]))
    {
      LessIsTotal(a[j], a[j - 1]);
      a[j], a[j - 1] := a[j - 1], a[j];
      j := j - 1;
    }
    forall p | 0 <= p < j ensures AtMost(a[p], a[j]) {
      if p < j - 1 { AtMostIsTransitive(a[p], a[j - 1], a[j]); }
    }
  }

  /** The keys of a Go map, in the order the sort puts them. */
  method SortedNames(keys: set<string>) returns (names: seq<string>)
    ensures Lists(names, keys)
  {
    var a := new string[|keys|];
    var todo, n := keys, 0;
    while todo != {}
      invariant todo <= keys && n + |todo| == |keys| == a.Length
      invariant forall x :: x in a[..n] <==> x in keys && x !in todo
      invariant forall p, q :: 0 <= p < q < n ==> a[p] != a[q]
      decreases |todo|
    {
      var x :| x in todo;
      a[n] := x;
      assert a[..n + 1] == a[..n] + [x];
      todo, n := todo - {x}, n + 1;
    }
    assert a[..n] == a[..];
    ghost var was := a[..];
    SortStrings(a);
    names := a[..];
    SortedLists(names, was, keys);
  }

  /** `names` are the members of `keys` in ascending order, each once. */
  ghost predicate Lists(names: seq<string>, keys: set<string>) {
    && (forall i, j :: 0 <= i < j < |names| ==> Less(names[i], names[j]))
    && (forall x :: x in names <==> x in keys)
  }

  lemma SortedLists(names: seq<string>, was: seq<string>, keys: set<string>)
    requires Sorted(names) && multiset(names) == multiset(was)
    requires (forall x :: x in was <==> x in keys) && forall p, q :: 0 <= p < q < |was| ==> was[p] != was[q]
    ensures Lists(names, keys)
  {
    forall x ensures x in names <==> x in keys {
      assert x in names <==> x in multiset(names);
      assert x in was <==> x in multiset(was);
    }
    Distinct(was);
    forall i, j | 0 <= i < j < |names| ensures Less(names[i], names[j]) {
      LessIsTotal(names[i], names[j]);
      if names[i] == names[j] { Twice(names, i, j); }
    }
  }

  lemma Twice(s: seq<string>, i: nat, j: nat)
    requires i < j < |s| && s[i] == s[j]
    ensures multiset(s)[s[i]] >= 2
  {
    assert s == s[..i] + [s[i]] + s[i + 1..j] + [s[j]] + s[j + 1..];
  }

  lemma {:induction false} Distinct(s: seq<string>)
    requires forall p, q :: 0 <= p < q < |s| ==> s[p] != s[q]
    ensures forall x :: multiset(s)[x] <= 1
  {
    if s != [] {
      Distinct(s[1..]);
      assert s == [s[0]] + s[1..];
      assert s[0] !in s[1..];
    }
  }

  /** There is one such listing. */
  lemma {:induction false} ListsIsUnique(s: seq<string>, t: seq<string>, keys: set<string>)
    requires Lists(s, keys) && Lists(t, keys)
    ensures s == t
  {
    ListsDistinct(s, keys);
    ListsDistinct(t, keys);
    forall x ensures multiset(s)[x] == multiset(t)[x] {
      assert x in s <==> x in multiset(s);
      assert x in t <==> x in multiset(t);
    }
    assert multiset(s) == multiset(t);
    SortedIsUnique(s, t);
  }

  lemma ListsDistinct(s: seq<string>, keys: set<string>)
    requires Lists(s, keys)
    ensures Sorted(s) && forall x :: multiset(s)[x] <= 1
  {
    forall i, j | 0 <= i < j < |s| ensures s[i] != s[j] && AtMost(s[i], s[j]) {
      LessIsTotal(s[i], s[j]);
    }
    Distinct(s);
  }
}
