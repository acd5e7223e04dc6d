/** Advance fires in session-time order, covers its window, moves the clock by
    exactly what it covered and leaves everything else where it was. */
module ReplayOrder {
  import opened Model
  import opened Replay

  /** Place (due, ord) comes no earlier than that of `f`. */
  predicate NotBefore(f: Fired, due: int, ord: nat) {
    f.due < due || (f.due == due && f.ord <= ord)
  }

  ghost predicate InOrder(fired: seq<Fired>) {
    forall i, j :: 0 <= i < j < |fired| ==> NotBefore(fired[i], fired[j].due, fired[j].ord)
  }

  /** Everything still pending comes after the last attempt, which is not in the future. */
  ghost predicate Swept(s: Shared, sid: Sid, last: Fired, now: int) {
    && last.due <= now + s.Off(sid)
    && forall id :: id in s.PendingOf(sid) ==> NotBefore(last, s.Due(id), s.dels[id].ord)
  }

  /** One round attempts the first in due order and leaves the rest behind it. */
  lemma RoundSweeps<E(!new)>(w: World<E>, s: Shared, env: E, sid: Sid, id: Id, i: nat)
    requires Forward(w) && FreshIds(w, s) && Driven(s, sid) && IsFirst(s, Eligible(s, sid), id)
    ensures var step := StepTo(w.clock(2 * i), s.dels[id].fireAt);
      var r := Round(w, s, env, sid, id, step, i);
      && Driven(r.s, sid) && FreshIds(w, r.s)
      && r.fired.due == s.Due(id) && r.fired.ord == s.dels[id].ord
      && r.s.Off(sid) == s.Off(sid) + step
      && Swept(r.s, sid, r.fired, w.clock(2 * i + 2))
  {
    hide Fire;
    var step: nat := StepTo(w.clock(2 * i), s.dels[id].fireAt);
    var at := w.clock(2 * i + 1);
    var s1 := Shift(s, sid, step);
    ShiftDriven(s, sid, step);
    ShiftKeepsDue(s, sid, step);
    ShiftKeepsOthers(s, sid, step);
    FireRounds(w, s1, env, sid, id, at);
    FireReports(w, s1, env, id, at);
    RoundedSweeps(s, s1, Round(w, s, env, sid, id, step, i).s, sid, id, step, at, w.clock(2 * i + 2),
      Round(w, s, env, sid, id, step, i).fired);
  }

  /** The report names the place the attempt had. */
  lemma FireReports<E>(w: World<E>, s: Shared, env: E, id: Id, at: int)
    requires id in s.dels
    ensures var f := Fire(w, Mark(s, id), env, id, at).fired;
      f.id == id && f.due == s.Due(id) && f.ord == s.dels[id].ord
  {
    hide Attempted, Followed;
  }

  lemma RoundedSweeps(s: Shared, s1: Shared, t: Shared, sid: Sid, id: Id, step: nat, at: int, later: int, f: Fired)
    requires Driven(s, sid) && s1.pending == s.pending && s1.dels.Keys == s.dels.Keys && s1.PendingOf(sid) == s.PendingOf(sid)
    requires IsFirst(s, Eligible(s, sid), id) && s1.issued == s.issued && s1.Off(sid) == s.Off(sid) + step
    requires forall j :: j in s.PendingOf(sid) ==> s1.Due(j) == s.Due(j) && s1.dels[j].ord == s.dels[j].ord
    requires Rounded(s1, t, sid, id, at) && s1.dels[id].fireAt <= at <= later
    requires f.due == s.Due(id) && f.ord == s.dels[id].ord
    ensures Swept(t, sid, f, later)
  {
    forall j | j in t.PendingOf(sid) ensures NotBefore(f, t.Due(j), t.dels[j].ord) {
      if j in s.PendingOf(sid) && j != id {
        assert j in Eligible(s, sid);
      }
    }
  }

  lemma InOrderGrows(fired: seq<Fired>, f: Fired)
    requires InOrder(fired)
    requires fired != [] ==> NotBefore(fired[|fired| - 1], f.due, f.ord)
    ensures InOrder(fired + [f])
  {
  }

  /** What a loop leaves: its attempts are in order, the clock has moved by what
      was spent of the window, and nothing left is due in it or, if the loop was
      stopped, before its last attempt. */
  ghost predicate Ended<E>(w: World<E>, s: Shared, sid: Sid, remaining: int, fired: seq<Fired>, o: Outcome<E>) {
    && Driven(o.s, sid) && InOrder(o.fired) && |fired| <= |o.fired| <= CAP
    && 0 <= o.remaining <= remaining && o.s.Off(sid) + o.remaining == s.Off(sid) + remaining
    && (!o.partial ==> Covered(o.s, sid, w.clock(2 * |o.fired|) + o.remaining))
    && (o.partial && o.fired != [] ==> Swept(o.s, sid, o.fired[|o.fired| - 1], w.clock(2 * |o.fired|)))
    && (|o.fired| == |fired| ==> o.remaining == remaining)
    && (o.partial <==> w.expired(|o.fired|) || |o.fired| >= 1000)
  }

  ghost predicate Covered(s: Shared, sid: Sid, now: int) {
    forall id :: id in s.PendingOf(sid) ==> s.dels[id].fireAt > now
  }

  /** The loop stops by itself only when its window holds nothing. */
  lemma StopCovers<E>(w: World<E>, s: Shared, sid: Sid, remaining: nat, i: nat)
    requires Driven(s, sid)
    requires var next := First(s, Eligible(s, sid));
      next.Some? ==> next.value in s.dels && StepTo(w.clock(2 * i), s.dels[next.value].fireAt) > remaining
    ensures Covered(s, sid, w.clock(2 * i) + remaining)
  {
    assert Eligible(s, sid) == s.PendingOf(sid);
    if s.PendingOf(sid) != {} {
      FirstExists(s, Eligible(s, sid));
    }
  }

  lemma {:induction false} LoopEnds<E(!new)>(w: World<E>, s: Shared, env: E, sid: Sid, remaining: nat, fired: seq<Fired>)
    requires Forward(w) && FreshIds(w, s) && Driven(s, sid) && InOrder(fired) && |fired| <= CAP
    requires fired != [] ==> Swept(s, sid, fired[|fired| - 1], w.clock(2 * |fired|))
    ensures Ended(w, s, sid, remaining, fired, AdvanceLoop(w, s, env, sid, remaining, fired))
    decreases CAP - |fired|
  {
    hide Round, Forward, FreshIds, InOrder, Covered;
    var i := |fired|;
    var next := First(s, Eligible(s, sid));
    if w.expired(i) || i >= CAP {
    } else if next.None? || StepTo(w.clock(2 * i), s.dels[next.value].fireAt) > remaining {
      StopCovers(w, s, sid, remaining, i);
    } else {
      LoopGoesOn(w, s, env, sid, remaining, fired, next.value);
    }
  }

  lemma Chosen(s: Shared, sid: Sid, id: Id)
    requires First(s, Eligible(s, sid)) == Some(id)
    ensures IsFirst(s, Eligible(s, sid), id) && id in s.PendingOf(sid)
  {
  }

  lemma SweptBefore(s: Shared, sid: Sid, last: Fired, now: int, id: Id)
    requires Swept(s, sid, last, now) && id in s.PendingOf(sid)
    ensures NotBefore(last, s.Due(id), s.dels[id].ord)
  {
  }

  lemma {:induction false} LoopGoesOn<E(!new)>(w: World<E>, s: Shared, env: E, sid: Sid, remaining: nat, fired: seq<Fired>, id: Id)
    requires Forward(w) && FreshIds(w, s) && Driven(s, sid) && InOrder(fired) && |fired| < CAP
    requires fired != [] ==> Swept(s, sid, fired[|fired| - 1], w.clock(2 * |fired|))
    requires !w.expired(|fired|) && First(s, Eligible(s, sid)) == Some(id)
    requires id in s.dels && StepTo(w.clock(2 * |fired|), s.dels[id].fireAt) <= remaining
    ensures Ended(w, s, sid, remaining, fired, AdvanceLoop(w, s, env, sid, remaining, fired))
    decreases CAP - |fired|, 0
  {
    hide Round, Driven, Forward, FreshIds, InOrder, Covered, Swept, IsFirst, First, Eligible;
    var step := StepTo(w.clock(2 * |fired|), s.dels[id].fireAt);
    var r := Round(w, s, env, sid, id, step, |fired|);
    Chosen(s, sid, id);
    RoundSweeps(w, s, env, sid, id, |fired|);
    if fired != [] { SweptBefore(s, sid, fired[|fired| - 1], w.clock(2 * |fired|), id); }
    InOrderGrows(fired, r.fired);
    DrivenStays(s, sid);
    LoopEnds(w, r.s, r.env, sid, remaining - step, fired + [r.fired]);
  }

  lemma DrivenStays(s: Shared, sid: Sid)
    requires Driven(s, sid)
    ensures sid in s.exclusive && sid !in s.gone
  {
  }

  // ---------- what a loop leaves alone ----------

  /** Delivery `j` is where it was: same session time, same counters, still
      pending if it was. */
  ghost predicate Kept(s: Shared, t: Shared, sid: Sid, j: Id) {
    && j in s.dels && j in t.dels && (j in s.pending <==> j in t.pending)
    && (if j in s.PendingOf(sid)
        then t.dels[j] == s.dels[j].(fireAt := s.dels[j].fireAt - (t.Off(sid) - s.Off(sid)))
        else t.dels[j] == s.dels[j])
  }

  lemma KeptTrans(s: Shared, t: Shared, u: Shared, sid: Sid, j: Id)
    requires Kept(s, t, sid, j) && Kept(t, u, sid, j)
    ensures Kept(s, u, sid, j)
  {
  }

  /** Some attempt from the n-th on was of delivery `j`. */
  ghost predicate Names(fired: seq<Fired>, n: nat, j: Id) {
    exists k :: n <= k < |fired| && fired[k].id == j
  }

  /** How a run from `s` to `t` that fired from the n-th attempt on treats `j`
      and the other clocks. */
  ghost predicate Spared(s: Shared, t: Shared, sid: Sid, fired: seq<Fired>, n: nat, j: Id) {
    && j in s.dels && j in t.dels && t.dels[j].sid == s.dels[j].sid
    && (if Names(fired, n, j) then s.dels[j].sid == sid else Kept(s, t, sid, j))
    && forall other :: other != sid ==> t.Off(other) == s.Off(other)
  }

  lemma SparedTrans(s: Shared, t: Shared, u: Shared, sid: Sid, fired: seq<Fired>, n: nat, j: Id)
    requires n < |fired| && Spared(s, t, sid, fired[..n + 1], n, j) && Spared(t, u, sid, fired, n + 1, j)
    ensures Spared(s, u, sid, fired, n, j)
  {
    if !Names(fired, n, j) {
      assert fired[..n + 1][n].id != j;
    }
  }

  lemma RoundSpares<E(!new)>(w: World<E>, s: Shared, env: E, sid: Sid, id: Id, step: nat, fired: seq<Fired>, j: Id)
    requires Forward(w) && FreshIds(w, s) && Driven(s, sid) && id in s.PendingOf(sid) && j in s.dels
    ensures var r := Round(w, s, env, sid, id, step, |fired|);
      Spared(s, r.s, sid, fired + [r.fired], |fired|, j)
  {
    hide Attempted, Followed, Numbered;
    var r := Round(w, s, env, sid, id, step, |fired|);
    assert (fired + [r.fired])[|fired|].id == id;
    var s1 := Shift(s, sid, step);
    ShiftDriven(s, sid, step);
    FireRounds(w, s1, env, sid, id, w.clock(2 * |fired| + 1));
    if j == id {
      assert Names(fired + [r.fired], |fired|, j);
    } else {
      ShiftKeeps(s, sid, step, j);
      RoundedKeeps(s1, r.s, sid, id, w.clock(2 * |fired| + 1), j);
      KeptTrans(s, s1, r.s, sid, j);
    }
    assert forall other :: other != sid ==> r.s.Off(other) == s.Off(other) by {
      ShiftKeepsOthers(s, sid, step);
    }
  }

  lemma ShiftKeeps(s: Shared, sid: Sid, step: nat, j: Id)
    requires j in s.dels && s.pending <= s.dels.Keys
    ensures Kept(s, Shift(s, sid, step), sid, j)
  {
    ShiftKeepsDue(s, sid, step);
    ShiftKeepsOthers(s, sid, step);
    hide Shift;
  }

  lemma RoundedKeeps(s: Shared, t: Shared, sid: Sid, id: Id, at: int, j: Id)
    requires id in s.dels && Rounded(s, t, sid, id, at) && j in s.dels && j != id
    ensures Kept(s, t, sid, j)
  {
  }

  lemma SparedSelf(s: Shared, sid: Sid, fired: seq<Fired>, j: Id)
    requires j in s.dels
    ensures Spared(s, s, sid, fired, |fired|, j)
  {
  }

  lemma SparedKnown(s: Shared, t: Shared, sid: Sid, fired: seq<Fired>, n: nat, j: Id)
    requires Spared(s, t, sid, fired, n, j)
    ensures j in t.dels
  {
  }

  lemma {:induction false} LoopSpares<E(!new)>(w: World<E>, s: Shared, env: E, sid: Sid, remaining: nat, fired: seq<Fired>, j: Id)
    requires Forward(w) && FreshIds(w, s) && Driven(s, sid) && |fired| <= CAP && j in s.dels
    ensures var o := AdvanceLoop(w, s, env, sid, remaining, fired);
      fired <= o.fired && Spared(s, o.s, sid, o.fired, |fired|, j)
    decreases CAP - |fired|
  {
    hide Round, Forward, FreshIds, Driven, Spared, Swept, First, Eligible;
    var i := |fired|;
    var next := First(s, Eligible(s, sid));
    var o := AdvanceLoop(w, s, env, sid, remaining, fired);
    if next.Some? { Chosen(s, sid, next.value); }
    if w.expired(i) || i >= CAP || sid in s.gone || next.None? || StepTo(w.clock(2 * i), s.dels[next.value].fireAt) > remaining {
      SparedSelf(s, sid, fired, j);
    } else {
      var step := StepTo(w.clock(2 * i), s.dels[next.value].fireAt);
      var r := Round(w, s, env, sid, next.value, step, i);
      RoundSweeps(w, s, env, sid, next.value, i);
      RoundSpares(w, s, env, sid, next.value, step, fired, j);
      SparedKnown(s, r.s, sid, fired + [r.fired], i, j);
      LoopSpares(w, r.s, r.env, sid, remaining - step, fired + [r.fired], j);
      assert o.fired[..i + 1] == fired + [r.fired];
      SparedTrans(s, r.s, o.s, sid, o.fired, i, j);
    }
  }

  // ---------- the whole call ----------

  /** A session nobody drives and nobody is attempting: what acquire waits for. */
  ghost predicate Idle(s: Shared, sid: Sid) {
    && sid != "" && sid !in s.exclusive && sid !in s.gone && Numbered(s)
    && s.pending <= s.dels.Keys && s.queue <= s.dels.Keys
    && (forall id :: id in s.PendingOf(sid) ==> !s.dels[id].running && !s.dels[id].canceled && id in s.queue)
  }

  lemma AcquireDrives(s: Shared, sid: Sid)
    requires Idle(s, sid)
    ensures Driven(Acquire(s, sid), sid)
  {
    SameNumbers(s, Acquire(s, sid));
  }

  lemma ReleaseIdles(s: Shared, sid: Sid)
    requires Driven(s, sid)
    ensures Idle(Release(s, sid), sid) && Acquire(Release(s, sid), sid) == s
  {
    SameNumbers(s, Release(s, sid));
    assert Acquire(Release(s, sid), sid).exclusive == s.exclusive;
    assert Acquire(Release(s, sid), sid).queue == s.queue;
  }

  /** The last move of the clock, to the end of the window. */
  lemma FinishCovers<E>(o: Outcome<E>, sid: Sid, now: int)
    requires Driven(o.s, sid) && o.remaining >= 0 && (!o.partial ==> Covered(o.s, sid, now + o.remaining))
    ensures Driven(Finish(o, sid), sid)
    ensures Finish(o, sid).Off(sid) == o.s.Off(sid) + if o.partial then 0 else o.remaining
    ensures !o.partial ==> Covered(Finish(o, sid), sid, now)
  {
    if !o.partial {
      ShiftDriven(o.s, sid, o.remaining);
      ShiftKeepsDue(o.s, sid, o.remaining);
      hide Shift, Numbered;
    }
  }

  /** One Advance call: its attempts come in session-time order, at most 1000 of
      them; it is cut short by its deadline or by the thousandth attempt and by
      nothing else; a complete call moves the session clock by exactly the span and
      leaves nothing due in it; a partial one moves it by exactly what it has used of
      the span and leaves nothing before its last attempt; and the session
      goes back to the scheduler with every pending delivery in the heap. */
  lemma AdvanceReplays<E(!new)>(w: World<E>, s: Shared, env: E, sid: Sid, span: nat)
    requires Forward(w) && FreshIds(w, s) && Idle(s, sid)
    ensures var o := Advance(w, s, env, sid, span);
      && InOrder(o.fired) && |o.fired| <= 1000 && Idle(o.s, sid)
      && (o.partial <==> w.expired(|o.fired|) || |o.fired| >= 1000)
      && (!o.partial ==> o.s.Off(sid) == s.Off(sid) + span && Covered(o.s, sid, w.clock(2 * |o.fired|)))
      && (o.partial ==> 0 <= o.remaining <= span && o.s.Off(sid) == s.Off(sid) + span - o.remaining)
      && (o.fired == [] ==> o.remaining == span)
      && (o.partial && o.fired != [] ==> Swept(o.s, sid, o.fired[|o.fired| - 1], w.clock(2 * |o.fired|)))
  {
    hide AdvanceLoop, Finish, Numbered, Forward, InOrder;
    var s1 := Acquire(s, sid);
    AcquireDrives(s, sid);
    var o := AdvanceLoop(w, s1, env, sid, span, []);
    assert Ended(w, s1, sid, span, [], o) by {
      assert InOrder([]) by { EmptyInOrder(); }
      LoopEnds(w, s1, env, sid, span, []);
    }
    hide FreshIds;
    FinishCovers(o, sid, w.clock(2 * |o.fired|));
    ReleaseIdles(Finish(o, sid), sid);
    ReleaseKeeps(Finish(o, sid), sid);
    if o.partial && o.fired != [] {
      PartialSwept(o, sid, w.clock(2 * |o.fired|));
    }
  }

  /** The clock a call leaves is the clock before its release. */
  lemma AdvanceOffset<E(!new)>(w: World<E>, s: Shared, env: E, sid: Sid, span: nat)
    requires Forward(w) && FreshIds(w, s) && Idle(s, sid)
    ensures Finish(AdvanceLoop(w, Acquire(s, sid), env, sid, span, []), sid).Off(sid) == Advance(w, s, env, sid, span).s.Off(sid)
  {
    hide AdvanceLoop, Finish, Numbered, Forward, InOrder;
    AcquireDrives(s, sid);
    var o := AdvanceLoop(w, Acquire(s, sid), env, sid, span, []);
    assert Ended(w, Acquire(s, sid), sid, span, [], o) by {
      EmptyInOrder();
      LoopEnds(w, Acquire(s, sid), env, sid, span, []);
    }
    hide FreshIds;
    FinishCovers(o, sid, w.clock(2 * |o.fired|));
    ReleaseKeeps(Finish(o, sid), sid);
  }

  /** What is released after a call cut short is what the loop left. */
  lemma PartialSwept<E>(o: Outcome<E>, sid: Sid, now: int)
    requires o.partial && o.fired != [] && sid !in o.s.gone && Swept(o.s, sid, o.fired[|o.fired| - 1], now)
    ensures Swept(Release(Finish(o, sid), sid), sid, o.fired[|o.fired| - 1], now)
  {
    ReleaseKeeps(o.s, sid);
    hide Release;
  }

  lemma EmptyInOrder()
    ensures InOrder([])
  {
  }

  lemma ReleaseKeeps(s: Shared, sid: Sid)
    requires sid !in s.gone
    ensures var t := Release(s, sid);
      t.dels == s.dels && t.pending == s.pending && t.offsets == s.offsets && t.PendingOf(sid) == s.PendingOf(sid)
  {
  }

  /** What one Advance call does not attempt stays due at the same session time;
      no other session's clock moves, and none of its deliveries is touched. */
  lemma AdvanceSpares<E(!new)>(w: World<E>, s: Shared, env: E, sid: Sid, span: nat, j: Id)
    requires Forward(w) && FreshIds(w, s) && Idle(s, sid) && j in s.dels
    ensures var o := Advance(w, s, env, sid, span);
      Spared(s, o.s, sid, o.fired, 0, j)
  {
    hide AdvanceLoop, Numbered, Forward, Shift;
    var s1 := Acquire(s, sid);
    AcquireDrives(s, sid);
    var o := AdvanceLoop(w, s1, env, sid, span, []);
    assert Driven(o.s, sid) && o.remaining >= 0 by {
      EmptyInOrder();
      LoopEnds(w, s1, env, sid, span, []);
    }
    LoopSpares(w, s1, env, sid, span, [], j);
    hide FreshIds, Driven;
    if !o.partial && sid !in o.s.gone {
      ShiftKeeps(o.s, sid, o.remaining, j);
      ShiftKeepsOthers(o.s, sid, o.remaining);
    }
    SparedThenKept(s1, o.s, Finish(o, sid), sid, o.fired, j);
    ReleaseKeeps(Finish(o, sid), sid);
    SparedByFrames(s, s1, Finish(o, sid), Release(Finish(o, sid), sid), sid, o.fired, j);
  }

  lemma SparedByFrames(s: Shared, s1: Shared, t1: Shared, t: Shared, sid: Sid, fired: seq<Fired>, j: Id)
    requires Spared(s1, t1, sid, fired, 0, j)
    requires s1.dels == s.dels && s1.pending == s.pending && s1.offsets == s.offsets
    requires t1.dels == t.dels && t1.pending == t.pending && t1.offsets == t.offsets
    ensures Spared(s, t, sid, fired, 0, j)
  {
    forall other | other != sid ensures t.Off(other) == s.Off(other) {
      assert t1.Off(other) == s1.Off(other);
    }
  }

  lemma SparedThenKept(s: Shared, t: Shared, u: Shared, sid: Sid, fired: seq<Fired>, j: Id)
    requires Spared(s, t, sid, fired, 0, j) && Kept(t, u, sid, j)
    requires forall other :: other != sid ==> u.Off(other) == t.Off(other)
    ensures Spared(s, u, sid, fired, 0, j)
  {
  }
}
