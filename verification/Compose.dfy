/** Advancing by a and then by b is advancing by a + b, when the wall clock
    stands still and nothing stops the calls early. */
module Compose {
  import opened Model
  import opened Replay
  import opened ReplayOrder

  ghost predicate Frozen<E>(w: World<E>) {
    && (forall i: nat :: w.clock(i) == w.clock(0))
    && (forall i: nat :: !w.expired(i))
  }

  lemma ShiftsAdd(s: Shared, sid: Sid, a: nat, b: nat)
    ensures Shift(Shift(s, sid, a), sid, b) == Shift(s, sid, a + b)
  {
    var t, u, v := Shift(s, sid, a), Shift(Shift(s, sid, a), sid, b), Shift(s, sid, a + b);
    if a > 0 && b > 0 {
      assert t.PendingOf(sid) == s.PendingOf(sid);
      assert u.offsets == v.offsets;
      assert u.dels == v.dels;
      assert u.log == v.log;
    }
  }

  /** Moving the clock changes nothing about who is due first. */
  lemma SameFirst(s: Shared, sid: Sid, a: nat)
    ensures Eligible(Shift(s, sid, a), sid) == Eligible(s, sid)
    ensures First(Shift(s, sid, a), Eligible(s, sid)) == First(s, Eligible(s, sid))
  {
    var t := Shift(s, sid, a);
    var ids := Eligible(s, sid);
    assert t.PendingOf(sid) == s.PendingOf(sid);
    forall id ensures IsFirst(t, ids, id) <==> IsFirst(s, ids, id) {
      SameFirstOne(s, sid, a, id);
    }
    if i :| IsFirst(s, ids, i) {
      FirstIsFirst(s, ids, i);
      FirstIsFirst(t, ids, i);
    }
  }

  lemma SameFirstOne(s: Shared, sid: Sid, a: nat, id: Id)
    ensures IsFirst(Shift(s, sid, a), Eligible(s, sid), id) <==> IsFirst(s, Eligible(s, sid), id)
  {
    var t := Shift(s, sid, a);
    var ids := Eligible(s, sid);
    assert t.dels.Keys == s.dels.Keys;
    forall j | j in ids ensures t.dels[j] == s.dels[j].(fireAt := s.dels[j].fireAt - a) {
    }
  }

  lemma FirstIsFirst(s: Shared, ids: set<Id>, id: Id)
    requires IsFirst(s, ids, id)
    ensures First(s, ids) == Some(id)
  {
  }

  /** What the loop does next under a frozen clock. */
  datatype Turn<E> = Stay | Go(step: nat, r: After<E>)

  ghost function TurnOf<E>(w: World<E>, s: Shared, env: E, sid: Sid, remaining: int): Turn<E> {
    var next := First(s, Eligible(s, sid));
    if sid in s.gone || next.None? then Stay else
    var step := StepTo(w.clock(0), s.dels[next.value].fireAt);
    if step > remaining then Stay else Go(step, Round(w, s, env, sid, next.value, step, 0))
  }

  lemma LoopUnfolds<E>(w: World<E>, s: Shared, env: E, sid: Sid, remaining: int, fired: seq<Fired>)
    requires Frozen(w) && |fired| < CAP
    ensures var turn := TurnOf(w, s, env, sid, remaining);
      AdvanceLoop(w, s, env, sid, remaining, fired) ==
        if turn.Stay? then Outcome(s, env, fired, false, remaining)
        else AdvanceLoop(w, turn.r.s, turn.r.env, sid, remaining - turn.step, fired + [turn.r.fired])
  {
    hide Fire, First, IsFirst, Shift, Mark;
  }

  lemma Uncapped<E>(w: World<E>, s: Shared, env: E, sid: Sid, remaining: int, f: seq<Fired>)
    requires !AdvanceLoop(w, s, env, sid, remaining, f).partial
    ensures |f| < CAP
  {
  }

  lemma FinishStay<E>(o: Outcome<E>, sid: Sid)
    requires !o.partial && sid !in o.s.gone
    ensures Finish(o, sid) == Shift(o.s, sid, o.remaining)
  {
  }

  /** What was fired before does not matter, only how much. */
  lemma {:induction false} LoopPrefix<E>(w: World<E>, s: Shared, env: E, sid: Sid, remaining: int, f: seq<Fired>, g: seq<Fired>)
    returns (rest: seq<Fired>)
    requires Frozen(w) && |g| <= |f|
    requires !AdvanceLoop(w, s, env, sid, remaining, f).partial
    ensures var o := AdvanceLoop(w, s, env, sid, remaining, f);
      o.fired == f + rest && AdvanceLoop(w, s, env, sid, remaining, g) == o.(fired := g + rest)
    decreases CAP - |f|
  {
    hide AdvanceLoop, TurnOf, Frozen;
    Uncapped(w, s, env, sid, remaining, f);
    LoopUnfolds(w, s, env, sid, remaining, f);
    LoopUnfolds(w, s, env, sid, remaining, g);
    var turn := TurnOf(w, s, env, sid, remaining);
    if turn.Stay? {
      rest := [];
    } else {
      var r := turn.r;
      var tail := LoopPrefix(w, r.s, r.env, sid, remaining - turn.step, f + [r.fired], g + [r.fired]);
      rest := [r.fired] + tail;
      assert f + [r.fired] + tail == f + rest && g + [r.fired] + tail == g + rest;
    }
  }

  /** When the loop would not go within `a`, moving the clock by `a` first makes
      it go as far into the rest of the window as it would have gone. */
  lemma ShiftedTurn<E>(w: World<E>, s: Shared, env: E, sid: Sid, a: nat, b: nat)
    requires TurnOf(w, s, env, sid, a).Stay? && sid !in s.gone
    ensures var turn := TurnOf(w, s, env, sid, a + b);
      && (turn.Go? ==> turn.step >= a)
      && TurnOf(w, Shift(s, sid, a), env, sid, b) == if turn.Stay? then Stay else Go(turn.step - a, turn.r)
  {
    hide Shift, First, IsFirst, Eligible, Fire, Mark;
    SameFirst(s, sid, a);
    ShiftGone(s, sid, a);
    var next := First(s, Eligible(s, sid));
    if next.Some? {
      var id := next.value;
      FirstPending(s, sid, id);
      ShiftedDue(s, sid, a, id);
      ShiftsAdd(s, sid, a, StepTo(w.clock(0), s.dels[id].fireAt) - a);
    }
  }

  lemma FirstPending(s: Shared, sid: Sid, id: Id)
    requires First(s, Eligible(s, sid)) == Some(id)
    ensures id in s.PendingOf(sid) && id in s.dels
  {
  }

  lemma ShiftedDue(s: Shared, sid: Sid, a: nat, id: Id)
    requires id in s.PendingOf(sid)
    ensures id in Shift(s, sid, a).dels && Shift(s, sid, a).dels[id].fireAt == s.dels[id].fireAt - a
    ensures Shift(s, sid, a).gone == s.gone
  {
  }

  /** The second call, seen from the end of the first. */
  lemma LoopAfterShift<E>(w: World<E>, s: Shared, env: E, sid: Sid, a: nat, b: nat, f: seq<Fired>)
    requires Frozen(w) && sid !in s.gone && TurnOf(w, s, env, sid, a).Stay?
    requires !AdvanceLoop(w, s, env, sid, a + b, f).partial
    ensures var o := AdvanceLoop(w, s, env, sid, a + b, f);
      var p := AdvanceLoop(w, Shift(s, sid, a), env, sid, b, []);
      && !p.partial && f + p.fired == o.fired && p.env == o.env && Finish(p, sid) == Finish(o, sid)
  {
    hide AdvanceLoop, TurnOf, Frozen, Shift;
    Uncapped(w, s, env, sid, a + b, f);
    LoopUnfolds(w, s, env, sid, a + b, f);
    LoopUnfolds(w, Shift(s, sid, a), env, sid, b, []);
    ShiftedTurn(w, s, env, sid, a, b);
    var turn := TurnOf(w, s, env, sid, a + b);
    if turn.Stay? {
      ShiftsAdd(s, sid, a, b);
      ShiftGone(s, sid, a);
      ShiftGone(s, sid, a + b);
    } else {
      var r := turn.r;
      var rest := LoopPrefix(w, r.s, r.env, sid, a + b - turn.step, f + [r.fired], [r.fired]);
      assert [] + [r.fired] == [r.fired] && f + [r.fired] + rest == f + ([r.fired] + rest);
    }
  }

  lemma ShiftGone(s: Shared, sid: Sid, step: int)
    ensures Shift(s, sid, step).gone == s.gone && Shift(s, sid, step).dels.Keys == s.dels.Keys
  {
  }

  lemma {:induction false} LoopComposes<E>(w: World<E>, s: Shared, env: E, sid: Sid, a: nat, b: nat, f: seq<Fired>)
    requires Frozen(w) && sid !in s.gone && !AdvanceLoop(w, s, env, sid, a + b, f).partial
    ensures var o := AdvanceLoop(w, s, env, sid, a + b, f);
      var o1 := AdvanceLoop(w, s, env, sid, a, f);
      var o2 := AdvanceLoop(w, Finish(o1, sid), o1.env, sid, b, []);
      && !o1.partial && !o2.partial && o1.fired + o2.fired == o.fired && o2.env == o.env && Finish(o2, sid) == Finish(o, sid)
    decreases CAP - |f|
  {
    hide AdvanceLoop, TurnOf, Frozen, Shift, Finish;
    Uncapped(w, s, env, sid, a + b, f);
    TurnWithin(w, s, env, sid, a, b);
    LoopUnfolds(w, s, env, sid, a + b, f);
    LoopUnfolds(w, s, env, sid, a, f);
    var turn := TurnOf(w, s, env, sid, a);
    if turn.Stay? {
      LoopAfterShift(w, s, env, sid, a, b, f);
      FinishStay(Outcome(s, env, f, false, a), sid);
    } else {
      var r := turn.r;
      LoopComposes(w, r.s, r.env, sid, a - turn.step, b, f + [r.fired]);
    }
  }

  lemma TurnWithin<E>(w: World<E>, s: Shared, env: E, sid: Sid, a: nat, b: nat)
    ensures var turn := TurnOf(w, s, env, sid, a);
      turn.Go? ==> turn.step <= a && turn == TurnOf(w, s, env, sid, a + b) && turn.r.s.gone == s.gone
  {
    var next := First(s, Eligible(s, sid));
    if next.Some? {
      RoundGone(w, s, env, sid, next.value, StepTo(w.clock(0), s.dels[next.value].fireAt));
    }
    hide Round;
  }

  lemma {:induction false} ScheduleAllGone<E>(w: World<E>, s: Shared, sid: Sid, rs: seq<Request>, now: int)
    ensures ScheduleAll(w, s, sid, rs, now).gone == s.gone
    decreases |rs|
  {
    if rs != [] { ScheduleAllGone(w, Schedule(w, s, sid, rs[0], now), sid, rs[1..], now); }
  }

  lemma RoundGone<E>(w: World<E>, s: Shared, env: E, sid: Sid, id: Id, step: int)
    requires id in s.dels
    ensures Round(w, s, env, sid, id, step, 0).s.gone == s.gone
  {
    hide Attempted, Shift, Mark, Tried, ScheduleAll;
    ShiftGone(s, sid, step);
    var s0 := Mark(Shift(s, sid, step), id);
    MarkGone(Shift(s, sid, step), id);
    TryGone(w, s0, id, w.clock(1));
    var s1 := Attempted(w, s0, id, w.clock(1));
    var d := s1.dels[id];
    if d.onFirst.Some? {
      var rs := w.react(env, d.onFirst.value, w.clock(1), s1.Off(d.sid), |s1.PendingOf(d.sid)|).1;
      ScheduleAllGone(w, MarkFirst(s1, id), d.sid, rs, w.clock(1));
    }
  }

  lemma MarkGone(s: Shared, id: Id)
    requires id in s.dels
    ensures id in Mark(s, id).dels && Mark(s, id).gone == s.gone && Unmark(s, id).gone == s.gone
  {
  }

  lemma TryGone<E>(w: World<E>, s: Shared, id: Id, at: int)
    requires id in s.dels
    ensures Attempted(w, s, id, at).gone == s.gone && id in Attempted(w, s, id, at).dels
  {
    hide Attempted;
    AttemptTries(w, s, id, at);
  }

  /** Advance(a) and then Advance(b) fire the same attempts in the same order as
      Advance(a + b) and end in the same state of the whole dispatcher, clocks,
      schedule and journal included, while the longer call stays under the cap. */
  lemma AdvanceComposes<E(!new)>(w: World<E>, s: Shared, env: E, sid: Sid, a: nat, b: nat)
    requires Forward(w) && FreshIds(w, s) && Idle(s, sid) && Frozen(w)
    requires |Advance(w, s, env, sid, a + b).fired| < CAP
    ensures var o := Advance(w, s, env, sid, a + b);
      var o1 := Advance(w, s, env, sid, a);
      var o2 := Advance(w, o1.s, o1.env, sid, b);
      && !o.partial && !o1.partial && !o2.partial
      && o.fired == o1.fired + o2.fired && o.s == o2.s && o.env == o2.env
  {
    hide AdvanceLoop, Finish, Forward, FreshIds, Driven, Release, Acquire, Idle;
    var s1 := Acquire(s, sid);
    AcquireDrives(s, sid);
    DrivenStays(s1, sid);
    UnderCap(w, s1, env, sid, a + b, []);
    LoopComposes(w, s1, env, sid, a, b, []);
    var p := AdvanceLoop(w, s1, env, sid, a, []);
    assert Driven(Finish(p, sid), sid) by {
      EmptyInOrder();
      AcquireFresh(w, s, sid);
      LoopEnds(w, s1, env, sid, a, []);
      FinishCovers(p, sid, w.clock(2 * |p.fired|));
    }
    ReleaseIdles(Finish(p, sid), sid);
  }

  lemma AcquireFresh<E>(w: World<E>, s: Shared, sid: Sid)
    requires FreshIds(w, s)
    ensures FreshIds(w, Acquire(s, sid))
  {
  }

  lemma {:induction false} UnderCap<E>(w: World<E>, s: Shared, env: E, sid: Sid, remaining: int, f: seq<Fired>)
    requires Frozen(w) && |f| <= CAP && |AdvanceLoop(w, s, env, sid, remaining, f).fired| < CAP
    ensures !AdvanceLoop(w, s, env, sid, remaining, f).partial
    decreases CAP - |f|
  {
    hide AdvanceLoop, TurnOf, Frozen;
    CapStops(w, s, env, sid, remaining, f);
    LoopUnfolds(w, s, env, sid, remaining, f);
    var turn := TurnOf(w, s, env, sid, remaining);
    if turn.Go? {
      UnderCap(w, turn.r.s, turn.r.env, sid, remaining - turn.step, f + [turn.r.fired]);
    }
  }

  lemma CapStops<E>(w: World<E>, s: Shared, env: E, sid: Sid, remaining: int, f: seq<Fired>)
    requires |f| <= CAP && |AdvanceLoop(w, s, env, sid, remaining, f).fired| < CAP
    ensures |f| < CAP
  {
  }
}
