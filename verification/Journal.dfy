/** The delivery journal: a ring of records with an index by id, and pages of it
    newest first. */
module Journal {
  import opened Listings
  import opened Model

  // ---------- pages, as a function of the records newest first ----------

  /** Empty fields match everything; a limit of zero or less is no limit. */
  datatype Query = Query(sid: Sid, target: string, status: Option<Status>, limit: int, cursor: Id)

  predicate Matches(q: Query, r: Record) {
    (q.sid == "" || r.sid == q.sid) && (q.target == "" || r.target == q.target) && (q.status.None? || r.status == q.status.value)
  }

  function Matching(q: Query, recs: seq<Record>): (r: seq<Record>)
    ensures |r| <= |recs|
  {
    if recs == [] then [] else
    var front, last := Matching(q, recs[..|recs| - 1]), recs[|recs| - 1];
    if Matches(q, last) then front + [last] else front
  }

  /** Where a page starts: behind its cursor's record. */
  function Start(q: Query, recs: seq<Record>, i: nat): (r: Option<nat>)
    requires i <= |recs|
    ensures r.Some? ==> i <= r.value <= |recs|
    decreases |recs| - i
  {
    if q.cursor == "" then Some(i)
    else if i == |recs| then None
    else if recs[i].id == q.cursor then Some(i + 1)
    else Start(q, recs, i + 1)
  }

  lemma {:induction false} MatchingPrefix(q: Query, recs: seq<Record>, k: nat)
    requires k <= |recs|
    ensures Matching(q, recs[..k]) <= Matching(q, recs)
  {
    if k < |recs| {
      var front := recs[..|recs| - 1];
      MatchingPrefix(q, front, k);
      assert front[..k] == recs[..k];
    } else {
      assert recs[..k] == recs;
    }
  }

  datatype Page = Expired | Shown(recs: seq<Record>, next: Id)

  function Cut(q: Query, found: seq<Record>): Page {
    if q.limit > 0 && |found| > q.limit then Shown(found[..q.limit], found[q.limit - 1].id) else Shown(found, "")
  }

  /** The page a query asks for, and the cursor of the one after it. */
  function PageOf(q: Query, recs: seq<Record>): Page {
    var start := Start(q, recs, 0);
    if start.None? then Expired else Cut(q, Matching(q, recs[start.value..]))
  }

  // ---------- what a page shows ----------

  /** The record has the session, the target and the status asked for, each if it is
      asked for. */
  ghost predicate Wanted(q: Query, r: Record) {
    (q.sid != "" ==> r.sid == q.sid) && (q.target != "" ==> r.target == q.target) && (q.status.Some? ==> q.status == Some(r.status))
  }

  /** `found` are the wanted ones of the first `n` records from `from` on, in order. */
  ghost predicate Finds(q: Query, recs: seq<Record>, from: nat, n: nat, ks: seq<nat>, found: seq<Record>) {
    && from + n <= |recs| && Ascending(ks, n) && |found| == |ks|
    && (forall j :: 0 <= j < |ks| ==> found[j] == recs[from + ks[j]])
    && (forall k :: 0 <= k < n ==> (k in ks <==> Wanted(q, recs[from + k])))
  }

  lemma {:induction false} MatchingFinds(q: Query, recs: seq<Record>, from: nat, n: nat) returns (ks: seq<nat>)
    requires from + n <= |recs|
    ensures Finds(q, recs, from, n, ks, Matching(q, recs[from..from + n]))
  {
    if n == 0 {
      ks := [];
    } else {
      hide Finds;
      ks := MatchingFinds(q, recs, from, n - 1);
      ks := FindsMore(q, recs, from, n - 1, ks);
    }
  }

  lemma FindsMore(q: Query, recs: seq<Record>, from: nat, n: nat, ks: seq<nat>) returns (ks1: seq<nat>)
    requires from + n < |recs| && Finds(q, recs, from, n, ks, Matching(q, recs[from..from + n]))
    ensures Finds(q, recs, from, n + 1, ks1, Matching(q, recs[from..from + n + 1]))
  {
    hide Below, Matching, Wanted, Matches;
    AscendingMore(ks, n);
    MatchingMore(q, recs, from, from + n);
    MatchesWanted(q, recs[from + n]);
    var found, more := Matching(q, recs[from..from + n]), Matching(q, recs[from..from + n + 1]);
    if Matches(q, recs[from + n]) {
      ks1 := ks + [n];
      assert more == found + [recs[from + n]];
    } else {
      ks1 := ks;
      assert more == found;
    }
  }

  lemma MatchesWanted(q: Query, r: Record)
    ensures Matches(q, r) <==> Wanted(q, r)
  {
  }

  /** The page starts at `from`: at the newest record, or behind the cursor's. */
  ghost predicate StartsAt(q: Query, recs: seq<Record>, from: nat) {
    from <= |recs| &&
    if q.cursor == "" then from == 0
    else from > 0 && recs[from - 1].id == q.cursor && forall i :: 0 <= i < from - 1 ==> recs[i].id != q.cursor
  }

  lemma {:induction false} StartIs(q: Query, recs: seq<Record>, i: nat)
    requires i <= |recs| && q.cursor != "" && forall k :: 0 <= k < i ==> recs[k].id != q.cursor
    ensures match Start(q, recs, i) case Some(from) => StartsAt(q, recs, from) case None => forall k :: 0 <= k < |recs| ==> recs[k].id != q.cursor
    decreases |recs| - i
  {
    if i < |recs| && recs[i].id != q.cursor { StartIs(q, recs, i + 1); }
  }

  /** What a page shows: nothing if the cursor's record is gone; else, of all the wanted
      records from its start on, the first up to the limit, and the last of these as
      the cursor of the next page if there are more. */
  ghost predicate PageShows(q: Query, recs: seq<Record>, p: Page) {
    match p
    case Expired => q.cursor != "" && forall k :: 0 <= k < |recs| ==> recs[k].id != q.cursor
    case Shown(shown, next) =>
      exists from, ks, found :: ShowsFrom(q, recs, from, ks, found, shown, next)
  }

  ghost predicate ShowsFrom(q: Query, recs: seq<Record>, from: nat, ks: seq<nat>, found: seq<Record>, shown: seq<Record>, next: Id) {
    && StartsAt(q, recs, from) && Finds(q, recs, from, |recs| - from, ks, found)
    && if 0 < q.limit < |found| then shown == found[..q.limit] && next == shown[q.limit - 1].id else shown == found && next == ""
  }

  lemma PageIs(q: Query, recs: seq<Record>)
    ensures PageShows(q, recs, PageOf(q, recs))
  {
    hide Matching, Finds;
    if q.cursor != "" { StartIs(q, recs, 0); }
    var start := Start(q, recs, 0);
    if start.Some? {
      var from := start.value;
      var ks := MatchingFinds(q, recs, from, |recs| - from);
      assert recs[from..from + (|recs| - from)] == recs[from..];
      var found := Matching(q, recs[from..]);
      var p := PageOf(q, recs);
      assert ShowsFrom(q, recs, from, ks, found, p.recs, p.next);
    }
  }

  // ---------- the ring ----------

  class Entry {
    const id: Id
    var rec: Record

    constructor (r: Record)
      ensures rec == r && id == r.id
    {
      id, rec := r.id, r;
    }
  }

  /** The slot of the i-th newest record. */
  function Slot(next: nat, size: nat, i: nat): (r: nat)
    requires next < size && i < size
    ensures r < size
  {
    if i < next then next - 1 - i else next - 1 - i + size
  }

  lemma SlotIsModular(next: nat, size: nat, i: nat)
    requires next < size && i < size
    ensures (next - 1 - i + size * 2) % size == Slot(next, size, i)
  {
    var y := next - 1 - i;
    if y >= 0 { Remainder(2, size, y); } else { Remainder(1, size, y + size); }
  }

  lemma Remainder(k: nat, size: nat, y: nat)
    requires y < size
    ensures (k * size + y) % size == y
  {
    var x := k * size + y;
    var q, r := x / size, x % size;
    assert x == q * size + r;
    if q > k { Apart(q, k, size, r, y); }
    if q < k { Apart(k, q, size, y, r); }
  }

  lemma Apart(q: nat, k: nat, size: nat, r: nat, y: nat)
    requires q > k && y < size
    ensures q * size + r > k * size + y
  {
    Multiples(q - k, size);
    assert (q - k) * size == q * size - k * size;
  }

  lemma Multiples(a: nat, b: nat)
    requires a >= 1
    ensures a * b >= b
  {
    assert a * b == (a - 1) * b + b;
  }

  /** The part of `added` that a ring of this size keeps. */
  function Recent<T>(added: seq<T>, size: nat): seq<T> {
    if |added| < size then added else added[..size]
  }

  /** `ring` holds `newest`, written backwards from `next`, and nothing else. */
  ghost predicate RingIs(ring: seq<Entry?>, next: nat, size: nat, newest: seq<Entry>) {
    && |ring| == size && next < size && |newest| <= size
    && (forall i :: 0 <= i < |newest| ==> ring[Slot(next, size, i)] == newest[i])
    && (|newest| < size ==> next == |newest| && forall k :: |newest| <= k < size ==> ring[k] == null)
  }

  /** `byID` has exactly the entries of `newest`, whose ids differ. */
  ghost predicate IndexIs(byID: map<Id, Entry>, newest: seq<Entry>) {
    && (forall i, j :: 0 <= i < j < |newest| ==> newest[i].id != newest[j].id)
    && (forall e :: e in newest ==> e.id in byID && byID[e.id] == e)
    && (forall id :: id in byID ==> byID[id].id == id && byID[id] in newest)
  }

  /** Records carry their own ids. */
  ghost predicate Named(es: seq<Entry>)
    reads es`rec
  {
    forall e :: e in es ==> e.rec.id == e.id
  }

  lemma RingAdds(ring: seq<Entry?>, next: nat, size: nat, added: seq<Entry>, e: Entry)
    requires size > 0 && RingIs(ring, next, size, Recent(added, size))
    ensures RingIs(ring[next := e], if next + 1 == size then 0 else next + 1, size, Recent([e] + added, size))
    ensures ring[next] == if |added| < size then null else added[size - 1]
  {
    var next', newest, newest' := if next + 1 == size then 0 else next + 1, Recent(added, size), Recent([e] + added, size);
    if |added| >= size { assert Slot(next, size, size - 1) == next; }
    forall i | 0 <= i < |newest'| ensures ring[next := e][Slot(next', size, i)] == newest'[i] {
      if i > 0 {
        assert Slot(next', size, i) == Slot(next, size, i - 1);
        assert newest'[i] == newest[i - 1];
      }
    }
  }

  lemma IndexGrows(byID: map<Id, Entry>, newest: seq<Entry>, e: Entry)
    requires IndexIs(byID, newest) && e.id !in byID
    ensures IndexIs(byID[e.id := e], [e] + newest)
  {
    var all := [e] + newest;
    forall i, j | 0 <= i < j < |all| ensures all[i].id != all[j].id {
      assert all[j] == newest[j - 1] && newest[j - 1] in newest;
    }
  }

  lemma IndexShrinks(byID: map<Id, Entry>, newest: seq<Entry>)
    requires IndexIs(byID, newest) && newest != []
    ensures IndexIs(byID - {newest[|newest| - 1].id}, newest[..|newest| - 1])
  {
    var n := |newest| - 1;
    var kept := byID - {newest[n].id};
    forall e | e in newest[..n] ensures e.id in kept && kept[e.id] == e {
      var k :| 0 <= k < n && newest[..n][k] == e;
      assert newest[k] == e && e in newest;
    }
    forall id | id in kept ensures kept[id] in newest[..n] {
      var k :| 0 <= k <= n && newest[k] == kept[id];
      assert newest[..n][k] == kept[id];
    }
  }

  lemma IndexAdds(byID: map<Id, Entry>, size: nat, added: seq<Entry>, e: Entry)
    requires size > 0 && IndexIs(byID, Recent(added, size)) && e.id !in byID
    ensures var kept := if |added| < size then byID else byID - {added[size - 1].id};
      IndexIs(kept[e.id := e], Recent([e] + added, size))
  {
    hide IndexIs;
    var newest := Recent(added, size);
    if |added| < size {
      assert Recent([e] + added, size) == [e] + newest;
      IndexGrows(byID, newest, e);
    } else {
      assert Recent([e] + added, size) == [e] + newest[..size - 1];
      IndexShrinks(byID, newest);
      IndexGrows(byID - {newest[size - 1].id}, newest[..size - 1], e);
    }
  }

  ghost function Entries(byID: map<Id, Entry>): map<Id, Record>
    reads byID.Values
  {
    map id | id in byID :: byID[id].rec
  }

  lemma EntriesMove(byID: map<Id, Entry>, e: Entry, id: Id)
    ensures Entries(byID[e.id := e]) == Entries(byID)[e.id := e.rec]
    ensures Entries(byID - {id}) == Entries(byID) - {id}
  {
  }

  class DeliveryLog {
    const size: nat
    const ring: array<Entry?>
    var next: nat
    var count: nat
    var byID: map<Id, Entry>
    ghost var added: seq<Entry>  // everything added since it was last empty, newest first

    /** The ring holds the newest min(|added|, size) of what was added, and the
        index has exactly these, each under its id. */
    ghost predicate Valid()
      reads this, ring, Newest()`rec
    {
      && size > 0 && count == |Newest()|
      && RingIs(ring[..], next, size, Newest()) && IndexIs(byID, Newest()) && Named(Newest())
    }

    ghost function Newest(): seq<Entry>
      reads this
    {
      Recent(added, size)
    }

    /** The records newest first. */
    ghost function Records(): (r: seq<Record>)
      reads this, Newest()
      ensures |r| == |Newest()| && forall i :: 0 <= i < |r| ==> r[i] == Newest()[i].rec
    {
      Recs(Newest())
    }

    /** The journal as the dispatcher sees it. */
    ghost function Log(): map<Id, Record>
      reads this, byID.Values
    {
      Entries(byID)
    }

    constructor (n: int)
      ensures Valid() && added == [] && size == (if n < 1 then 1 else n) && fresh(ring)
    {
      size := if n < 1 then 1 else n;
      ring := new Entry?[if n < 1 then 1 else n](_ => null);
      next, count, byID, added := 0, 0, map[], [];
    }

    /** Adds the newest record; a full ring forgets its oldest. */
    method Add(r: Entry)
      requires Valid() && r.id !in byID && r.rec.id == r.id
      modifies this, ring
      ensures Valid() && added == [r] + old(added)
      ensures byID == old(if count < size then byID else byID - {added[size - 1].id})[r.id := r]
      ensures Log() == old(if count < size then Log() else Log() - {added[size - 1].id})[r.id := r.rec]
    {
      hide RingIs, IndexIs, Entries;
      RingAdds(ring[..], next, size, added, r);
      IndexAdds(byID, size, added, r);
      Bounds();
      ghost var kept := if count < size then byID else byID - {added[size - 1].id};
      EntriesMove(byID, r, if count < size then r.id else added[size - 1].id);
      EntriesMove(kept, r, r.id);
      var last := ring[next];
      if last != null {
        byID := byID - {last.id};
      }
      ring[next] := r;
      byID := byID[r.id := r];
      next := if next + 1 == size then 0 else next + 1;
      if count < size {
        count := count + 1;
      }
      added := [r] + added;
    }

    /** What pages are made of is the newest part of everything added, and the
        index finds each of it. */
    lemma HoldsTheNewest()
      requires Valid()
      ensures Records() == Recent(Recs(added), size)
      ensures |Records()| == (if |added| < size then |added| else size) && forall i :: 0 <= i < |Records()| ==> Records()[i] == added[i].rec
      ensures forall id :: id in Log() <==> exists i :: 0 <= i < |Records()| && Records()[i].id == id
      ensures forall i :: 0 <= i < |Records()| ==> Log()[Records()[i].id] == Records()[i]
      ensures forall i, j :: 0 <= i < j < |Records()| ==> Records()[i].id != Records()[j].id
    {
      hide RingIs;
      forall i | 0 <= i < |Records()|
        ensures Newest()[i].id == Records()[i].id && Records()[i].id in byID && byID[Records()[i].id] == Newest()[i]
      {
        assert Newest()[i] in Newest();
      }
      forall id | id in Log() ensures exists i :: 0 <= i < |Records()| && Records()[i].id == id {
        var i :| 0 <= i < |Newest()| && Newest()[i] == byID[id];
        assert Records()[i].id == id;
      }
    }

    lemma Bounds()
      requires Valid()
      ensures next < size == ring.Length && count == |Newest()| <= size
    {
    }

    /** A copy of one record. */
    method Get(id: Id) returns (r: Option<Record>)
      requires Valid()
      ensures r == if id in Log() then Some(Log()[id]) else None
    {
      if id in byID {
        r := Some(byID[id].rec);
      } else {
        r := None;
      }
    }

    /** Rewrites one record in place, if the journal still has it. */
    method Update(id: Id, f: Record -> Record)
      requires Valid() && forall r :: f(r).id == r.id
      modifies byID.Values`rec
      ensures Valid() && added == old(added) && Log() == Logged(old(Log()), id, f)
    {
      if id in byID {
        byID[id].rec := f(byID[id].rec);
      }
    }

    /** Empties the journal and answers how many records it held. */
    method Clear() returns (n: nat)
      requires Valid()
      modifies this, ring
      ensures Valid() && added == [] && byID == map[] && n == |old(Newest())|
    {
      n := count;
      forall k | 0 <= k < ring.Length { ring[k] := null; }
      byID, next, count, added := map[], 0, 0, [];
    }

    /** Matching records newest first from behind the cursor, and the cursor of the
        next page, empty when nothing more matches. */
    method Page(q: Query) returns (p: Page)
      requires Valid()
      ensures p == PageOf(q, Records()) && PageShows(q, Records(), p)
    {
      hide Valid, Matching, Matches, Start, PageOf, PageShows;
      PageIs(q, Records());
      var out, next_, started := [], "", q.cursor == "";
      ghost var recs, start := Records(), 0;
      Bounds();
      MatchingNone(q, recs, 0);
      StartEnds(q, recs);
      for i := 0 to count
        invariant next_ == "" && (!started ==> q.cursor != "" && out == [] && Start(q, recs, i) == Start(q, recs, 0))
        invariant started ==> Start(q, recs, 0) == Some(start) && start <= i && out == Matching(q, recs[start..i])
        invariant q.limit > 0 ==> |out| <= q.limit
      {
        var e := At(i);
        var r := e.rec;
        if !started {
          StartStep(q, recs, i);
          started := r.id == q.cursor;
          start := i + 1;
          MatchingNone(q, recs, i + 1);
          continue;
        }
        MatchingMore(q, recs, start, i);
        if !Matches(q, r) { continue; }
        if q.limit > 0 && |out| == q.limit {
          next_ := out[|out| - 1].id;
          PageIsFull(q, recs, start, i, out);
          return Shown(out, next_);
        }
        out := out + [r];
      }
      PageEnds(q, recs, started, start, out);
      if !started { return Expired; }
      p := Shown(out, next_);
    }

    /** The i-th newest record, found by the modular index. */
    method At(i: nat) returns (e: Entry)
      requires Valid() && i < count
      ensures e == Newest()[i]
    {
      hide IndexIs;
      SlotIsModular(next, size, i);
      assert ring[..][Slot(next, size, i)] == Newest()[i];
      e := ring[(next - 1 - i + size * 2) % size];
    }
  }

  lemma MatchingMore(q: Query, recs: seq<Record>, start: nat, i: nat)
    requires start <= i < |recs|
    ensures Matching(q, recs[start..i + 1]) == Matching(q, recs[start..i]) + if Matches(q, recs[i]) then [recs[i]] else []
  {
    assert recs[start..i + 1][..i - start] == recs[start..i];
  }

  lemma MatchingNone(q: Query, recs: seq<Record>, i: nat)
    requires i <= |recs|
    ensures Matching(q, recs[i..i]) == []
  {
  }

  lemma MatchingPart(q: Query, recs: seq<Record>, start: nat, i: nat)
    requires start <= i <= |recs|
    ensures Matching(q, recs[start..i]) <= Matching(q, recs[start..])
  {
    assert recs[start..][..i - start] == recs[start..i];
    MatchingPrefix(q, recs[start..], i - start);
  }

  lemma StartStep(q: Query, recs: seq<Record>, i: nat)
    requires q.cursor != "" && i < |recs|
    ensures Start(q, recs, i) == if recs[i].id == q.cursor then Some(i + 1) else Start(q, recs, i + 1)
  {
  }

  lemma StartEnds(q: Query, recs: seq<Record>)
    ensures if q.cursor == "" then Start(q, recs, 0) == Some(0) else Start(q, recs, |recs|) == None
  {
  }

  /** All records seen without filling the page. */
  lemma PageEnds(q: Query, recs: seq<Record>, started: bool, start: nat, out: seq<Record>)
    requires if started then start <= |recs| && Start(q, recs, 0) == Some(start) && out == Matching(q, recs[start..|recs|])
      else Start(q, recs, 0) == None
    requires q.limit > 0 ==> |out| <= q.limit
    ensures PageOf(q, recs) == if started then Shown(out, "") else Expired
  {
    hide Matching, Start;
    if started { assert recs[start..|recs|] == recs[start..]; }
  }

  /** One more match than the limit settles the page. */
  lemma PageIsFull(q: Query, recs: seq<Record>, start: nat, i: nat, out: seq<Record>)
    requires start <= i < |recs| && Start(q, recs, 0) == Some(start) && out == Matching(q, recs[start..i])
    requires Matches(q, recs[i]) && |out| == q.limit && q.limit > 0
    ensures PageOf(q, recs) == Shown(out, out[|out| - 1].id)
  {
    hide Matching, Matches, Start;
    MatchingMore(q, recs, start, i);
    MatchingPart(q, recs, start, i);
    MatchingPart(q, recs, start, i + 1);
  }

  ghost function Recs(es: seq<Entry>): (r: seq<Record>)
    reads es
    ensures |r| == |es| && forall i :: 0 <= i < |r| ==> r[i] == es[i].rec
  {
    if es == [] then [] else [es[0].rec] + Recs(es[1..])
  }
}
