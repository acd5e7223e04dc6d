/** Following cursors through the journal while records keep arriving. */
module Paging {
  import opened Model
  import opened Journal

  /** Ids differ, and none is empty. */
  ghost predicate Unique(all: seq<Record>) {
    && (forall i, j :: 0 <= i < j < |all| ==> all[i].id != all[j].id)
    && (forall i :: 0 <= i < |all| ==> all[i].id != "")
  }

  /** `all` are the records of a whole life of the journal, newest first. While the
      newest `a` of them have not arrived yet, a ring of `size` shows these. */
  function Shows(all: seq<Record>, a: nat, size: nat): seq<Record>
    requires a <= |all|
  {
    Recent(all[a..], size)
  }

  /** Where the window that starts at `a` ends. */
  function End(all: seq<Record>, a: nat, size: nat): nat
    requires a <= |all|
  {
    if |all| - a < size then |all| else a + size
  }

  lemma ShowsWindow(all: seq<Record>, a: nat, size: nat)
    requires a <= |all|
    ensures a <= End(all, a, size) <= |all| && Shows(all, a, size) == all[a..End(all, a, size)]
  {
  }

  datatype Walked = Walked(out: seq<Record>, cursor: Id, ended: bool, expired: bool)

  /** Page i is read while the newest `starts[i]` records have not arrived; each
      page after the first asks for what follows the one before it. */
  function Walk(q: Query, all: seq<Record>, size: nat, starts: seq<nat>, k: nat): Walked
    requires k <= |starts| && forall i :: 0 <= i < |starts| ==> starts[i] <= |all|
  {
    if k == 0 then Walked([], "", false, false) else
    var w := Walk(q, all, size, starts, k - 1);
    if w.ended || w.expired then w else
    var p := PageOf(q.(cursor := w.cursor), Shows(all, starts[k - 1], size));
    if p.Expired? then w.(expired := true) else Walked(w.out + p.recs, p.next, p.next == "", false)
  }

  // ---------- matching ----------

  lemma {:induction false} MatchingJoins(q: Query, s: seq<Record>, t: seq<Record>)
    ensures Matching(q, s + t) == Matching(q, s) + Matching(q, t)
  {
    if t == [] {
      assert s + t == s;
    } else {
      assert (s + t)[..|s + t| - 1] == s + t[..|t| - 1];
      MatchingJoins(q, s, t[..|t| - 1]);
    }
  }

  lemma {:induction false} MatchingIgnoresCursor(q: Query, s: seq<Record>, c: Id)
    ensures Matching(q.(cursor := c), s) == Matching(q, s)
  {
    if s != [] { MatchingIgnoresCursor(q, s[..|s| - 1], c); }
  }

  /** The first n matches are the matches of some beginning that ends in the n-th. */
  lemma {:induction false} FirstMatches(q: Query, s: seq<Record>, n: nat) returns (m: nat)
    requires 0 < n <= |Matching(q, s)|
    ensures 0 < m <= |s| && Matching(q, s[..m]) == Matching(q, s)[..n] && s[m - 1] == Matching(q, s)[n - 1]
  {
    var front := s[..|s| - 1];
    if n <= |Matching(q, front)| {
      m := FirstMatches(q, front, n);
      assert front[..m] == s[..m];
    } else {
      m := |s|;
      assert s[..m] == s;
    }
  }

  /** A cursor is found exactly at its own record. */
  lemma {:induction false} CursorFinds(q: Query, recs: seq<Record>, i: nat, c: nat)
    requires i <= |recs| && q.cursor != "" && (forall k, l :: 0 <= k < l < |recs| ==> recs[k].id != recs[l].id)
    requires i <= c < |recs| && recs[c].id == q.cursor
    ensures Start(q, recs, i) == Some(c + 1)
    decreases |recs| - i
  {
    if i < c { CursorFinds(q, recs, i + 1, c); }
  }

  lemma {:induction false} CursorMisses(q: Query, recs: seq<Record>, i: nat)
    requires i <= |recs| && q.cursor != "" && forall k :: 0 <= k < |recs| ==> recs[k].id != q.cursor
    ensures Start(q, recs, i) == None
    decreases |recs| - i
  {
    if i < |recs| { CursorMisses(q, recs, i + 1); }
  }

  // ---------- one page ----------

  /** A page read from position `c` of the whole, through a window that ends at `e`. */
  lemma PageReaches(q: Query, found: seq<Record>, all: seq<Record>, c: nat, e: nat) returns (d: nat)
    requires c <= e <= |all| && Unique(all) && found == Matching(q, all[c..e])
    ensures var p := Cut(q, found);
      && c <= d <= e && p.Shown? && p.recs == Matching(q, all[c..d])
      && (p.next == "" ==> d == e)
      && (p.next != "" ==> d > c && all[d - 1].id == p.next && |p.recs| == q.limit && q.limit > 0)
  {
    if q.limit > 0 && |found| > q.limit {
      var m := FirstMatches(q, all[c..e], q.limit);
      d := c + m;
      assert all[c..e][..m] == all[c..d];
      assert all[c..e][m - 1] == all[d - 1];
    } else {
      d := e;
    }
  }

  /** Behind position `c`, whose cursor is the record before it. */
  lemma StartsBehind(q: Query, all: seq<Record>, a: nat, e: nat, c: nat)
    requires a <= e <= |all| && Unique(all) && a < c <= |all| && q.cursor == all[c - 1].id
    ensures c <= e ==> Start(q, all[a..e], 0) == Some(c - a) && all[a..e][c - a..] == all[c..e]
    ensures c > e ==> Start(q, all[a..e], 0) == None
  {
    var recs := all[a..e];
    if c <= e {
      CursorFinds(q, recs, 0, c - 1 - a);
    } else {
      CursorMisses(q, recs, 0);
    }
  }

  ghost predicate Descending(starts: seq<nat>, all: seq<Record>) {
    && (forall i, j :: 0 <= i < j < |starts| ==> starts[j] <= starts[i])
    && (forall i :: 0 <= i < |starts| ==> starts[i] <= |all|)
  }

  /** After k pages the walk has read exactly the matches up to position `c`. */
  ghost predicate Reached(q: Query, all: seq<Record>, size: nat, starts: seq<nat>, k: nat, w: Walked, c: nat)
    requires 0 < |starts| && k <= |starts| && forall i :: 0 <= i < |starts| ==> starts[i] <= |all|
  {
    && starts[0] <= c <= End(all, starts[0], size) && w.out == Matching(q, all[starts[0]..c])
    && !(w.ended && w.expired)
    && (k == 0 ==> w == Walked([], "", false, false) && c == starts[0])
    && (k > 0 && !w.ended ==> c > starts[0] && w.cursor == all[c - 1].id)
    && (!w.ended && !w.expired ==> |w.out| == k * q.limit && (k > 0 ==> q.limit > 0))
    && (w.ended ==> exists j :: 0 <= j < k && c == End(all, starts[j], size))
  }

  /** The page asked for at position `c` through a window from `a` to `e`: expired
      if the window ends before it. */
  lemma PageAt(q: Query, all: seq<Record>, a: nat, e: nat, c: nat)
    requires a <= e <= |all| && Unique(all) && a <= c <= |all|
    requires if q.cursor == "" then c == a else c > a && q.cursor == all[c - 1].id
    ensures PageOf(q, all[a..e]) == if c <= e then Cut(q, Matching(q, all[c..e])) else Expired
  {
    hide Matching, Unique, Start;
    if q.cursor == "" {
      StartsAtOnce(q, all[a..e]);
    } else {
      StartsBehind(q, all, a, e, c);
    }
  }

  lemma WalkUnfolds(q: Query, all: seq<Record>, size: nat, starts: seq<nat>, k: nat)
    requires 0 < k <= |starts| && forall i :: 0 <= i < |starts| ==> starts[i] <= |all|
    requires var w := Walk(q, all, size, starts, k - 1); !w.ended && !w.expired
    ensures var w := Walk(q, all, size, starts, k - 1);
      var p := PageOf(q.(cursor := w.cursor), Shows(all, starts[k - 1], size));
      Walk(q, all, size, starts, k)
        == if p.Expired? then w.(expired := true) else Walked(w.out + p.recs, p.next, p.next == "", false)
  {
    hide PageOf;
  }

  lemma WalkStep(q: Query, all: seq<Record>, size: nat, starts: seq<nat>, k: nat, c: nat) returns (d: nat)
    requires q.cursor == "" && size > 0 && Unique(all) && Descending(starts, all) && 0 < k <= |starts|
    requires var w := Walk(q, all, size, starts, k - 1); !w.ended && !w.expired && Reached(q, all, size, starts, k - 1, w, c)
    ensures Reached(q, all, size, starts, k, Walk(q, all, size, starts, k), d)
  {
    hide Matching, Unique, PageOf, Walk, Cut;
    var w := Walk(q, all, size, starts, k - 1);
    var a := starts[k - 1];
    var e := End(all, a, size);
    var q1 := q.(cursor := w.cursor);
    ShowsWindow(all, a, size);
    EndsShrink(all, starts[0], a, size);
    if k > 1 { NotEmpty(all, c - 1); }
    PageAt(q1, all, a, e, c);
    WalkUnfolds(q, all, size, starts, k);
    d := c;
    if c <= e {
      d := PageReaches(q1, Matching(q1, all[c..e]), all, c, e);
      MatchingIgnoresCursor(q, all[c..d], w.cursor);
      MatchingMoves(q, all, starts[0], c, d);
      assert k * q.limit == (k - 1) * q.limit + q.limit;
    }
  }

  lemma MatchingMoves(q: Query, all: seq<Record>, a: nat, c: nat, d: nat)
    requires a <= c <= d <= |all|
    ensures Matching(q, all[a..d]) == Matching(q, all[a..c]) + Matching(q, all[c..d])
  {
    MatchingJoins(q, all[a..c], all[c..d]);
    assert all[a..c] + all[c..d] == all[a..d];
  }

  lemma StartsAtOnce(q: Query, recs: seq<Record>)
    requires q.cursor == ""
    ensures Start(q, recs, 0) == Some(0) && recs[0..] == recs
  {
  }

  lemma NotEmpty(all: seq<Record>, i: nat)
    requires Unique(all) && i < |all|
    ensures all[i].id != ""
  {
  }

  lemma EndsShrink(all: seq<Record>, a: nat, b: nat, size: nat)
    requires b <= a <= |all|
    ensures End(all, b, size) <= End(all, a, size)
  {
  }

  lemma WalkStarts(q: Query, all: seq<Record>, size: nat, starts: seq<nat>)
    requires 0 < |starts| && forall i :: 0 <= i < |starts| ==> starts[i] <= |all|
    ensures Walk(q, all, size, starts, 0) == Walked([], "", false, false) && Matching(q, all[starts[0]..starts[0]]) == []
  {
  }

  lemma WalkStays(q: Query, all: seq<Record>, size: nat, starts: seq<nat>, k: nat)
    requires 0 < k <= |starts| && forall i :: 0 <= i < |starts| ==> starts[i] <= |all|
    requires var w := Walk(q, all, size, starts, k - 1); w.ended || w.expired
    ensures Walk(q, all, size, starts, k) == Walk(q, all, size, starts, k - 1)
  {
    hide PageOf;
  }

  lemma {:induction false} WalkReaches(q: Query, all: seq<Record>, size: nat, starts: seq<nat>, k: nat) returns (c: nat)
    requires q.cursor == "" && size > 0 && Unique(all) && Descending(starts, all) && 0 < |starts| && k <= |starts|
    ensures Reached(q, all, size, starts, k, Walk(q, all, size, starts, k), c)
  {
    hide Unique, Matching, Walk;
    if k == 0 {
      c := starts[0];
      WalkStarts(q, all, size, starts);
    } else {
      c := WalkReaches(q, all, size, starts, k - 1);
      var w := Walk(q, all, size, starts, k - 1);
      if !w.ended && !w.expired {
        c := WalkStep(q, all, size, starts, k, c);
      } else {
        WalkStays(q, all, size, starts, k);
      }
    }
  }

  // ---------- the laws ----------

  /** What a client collects, whatever arrives between its pages: always a
      beginning of the listing it would have got in one piece at the start, so
      nothing twice; and once it is told there is no more, all of that listing but
      what had rotated out by one of its pages. */
  lemma PagesAreAPrefix(q: Query, all: seq<Record>, size: nat, starts: seq<nat>, k: nat)
    requires q.cursor == "" && size > 0 && Unique(all) && Descending(starts, all) && 0 < |starts| && k <= |starts|
    ensures var w := Walk(q, all, size, starts, k);
      && w.out <= Matching(q, Shows(all, starts[0], size))
      && (w.ended ==> exists c ::
            && starts[0] <= c <= |all| && w.out == Matching(q, all[starts[0]..c])
            && exists j :: 0 <= j < k && c == End(all, starts[j], size))
  {
    hide Unique, Walk, Matching;
    var c := WalkReaches(q, all, size, starts, k);
    ShowsWindow(all, starts[0], size);
    var e := End(all, starts[0], size);
    assert all[starts[0]..e] == all[starts[0]..c] + all[c..e];
    MatchingJoins(q, all[starts[0]..c], all[c..e]);
    assert c <= |all|;
  }

  /** With a positive limit a walk is over, one way or the other, after at most one
      page more than the listing has records. */
  lemma PagesEnd(q: Query, all: seq<Record>, size: nat, starts: seq<nat>, k: nat)
    requires q.cursor == "" && size > 0 && Unique(all) && Descending(starts, all) && 0 < |starts| && k <= |starts|
    requires q.limit > 0 && k > |Matching(q, Shows(all, starts[0], size))|
    ensures var w := Walk(q, all, size, starts, k); w.ended || w.expired
  {
    hide Unique, Walk, Matching;
    var c := WalkReaches(q, all, size, starts, k);
    PagesAreAPrefix(q, all, size, starts, k);
    Times(k, q.limit);
  }

  lemma Times(k: nat, n: nat)
    requires n > 0
    ensures k * n >= k
  {
    assert k * n == k * (n - 1) + k;
  }

  /** When nothing arrives in between, no cursor expires and the pages together are
      the unlimited listing. */
  lemma PagesLoseNothing(q: Query, all: seq<Record>, size: nat, k: nat)
    requires q.cursor == "" && size > 0 && Unique(all) && q.limit > 0 && k > |Matching(q, Shows(all, 0, size))|
    ensures var w := Walk(q, all, size, seq(k, _ => 0), k);
      w.ended && w.out == Matching(q, Shows(all, 0, size)) && PageOf(q.(limit := 0), Shows(all, 0, size)) == Shown(w.out, "")
  {
    hide Unique, Walk, Matching;
    var starts: seq<nat> := seq(k, _ => 0);
    PagesEnd(q, all, size, starts, k);
    PagesAreAPrefix(q, all, size, starts, k);
    NoExpiry(q, all, size, starts, k);
    ShowsWindow(all, 0, size);
    UnlimitedMatching(q, Shows(all, 0, size));
  }

  lemma {:induction false} UnlimitedMatching(q: Query, s: seq<Record>)
    requires q.cursor == ""
    ensures Matching(q.(limit := 0), s) == Matching(q, s) && PageOf(q.(limit := 0), s) == Shown(Matching(q, s), "")
  {
    assert s[0..] == s;
    if s != [] { UnlimitedMatching(q, s[..|s| - 1]); }
  }

  lemma CutShows(q: Query, found: seq<Record>)
    ensures Cut(q, found).Shown?
  {
  }

  lemma {:induction false} NoExpiry(q: Query, all: seq<Record>, size: nat, starts: seq<nat>, k: nat)
    requires q.cursor == "" && size > 0 && Unique(all) && 0 < |starts| && k <= |starts| && forall i :: 0 <= i < |starts| ==> starts[i] == 0
    ensures !Walk(q, all, size, starts, k).expired
  {
    hide Unique, Matching, PageOf, Cut;
    if k > 0 {
      NoExpiry(q, all, size, starts, k - 1);
      var w := Walk(q, all, size, starts, k - 1);
      if !w.ended {
        var c := WalkReaches(q, all, size, starts, k - 1);
        ShowsWindow(all, 0, size);
        if k > 1 { NotEmpty(all, c - 1); }
        PageAt(q.(cursor := w.cursor), all, 0, End(all, 0, size), c);
        CutShows(q.(cursor := w.cursor), Matching(q.(cursor := w.cursor), all[c..End(all, 0, size)]));
        WalkUnfolds(q, all, size, starts, k);
      }
    }
  }
}
