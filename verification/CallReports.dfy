/** What an Advance call reports is what happened: every report is one attempt, made
    when it says, with the result that the receiver's answer dictates, and no attempt
    goes unreported. */
module CallReports {
  import opened Model
  import opened Replay
  import opened ReplayOrder
  import opened Effects
  import opened OrderedDelivery

  /** How many of the reports are of delivery `id`. */
  function Count(fired: seq<Fired>, id: Id): nat {
    if fired == [] then 0 else Count(fired[..|fired| - 1], id) + if fired[|fired| - 1].id == id then 1 else 0
  }

  function AttemptsOf(s: Shared, id: Id): nat {
    if id in s.dels then s.dels[id].attempts else 0
  }

  ghost predicate SameOrder(d: Del, e: Del) {
    e.sid == d.sid && e.event == d.event && e.maxAttempts == d.maxAttempts
  }

  /** The k-th report, of a call that began at `s0` and stands at `s`; whether the
      delivery may be sent before it is due. */
  ghost predicate Tells<E>(w: World<E>, early: bool, s0: Shared, s: Shared, sid: Sid, fired: seq<Fired>, k: nat)
    requires k < |fired|
  {
    var f := fired[k];
    && f.id in s.dels && s.dels[f.id].sid == sid && f.event == s.dels[f.id].event
    && f.num == AttemptsOf(s0, f.id) + Count(fired[..k], f.id) + 1
    && ComesTo(f.result, w.answer(f.id, f.num, f.virtualAt), f.num, s.dels[f.id].maxAttempts)
    && (early || f.due <= f.virtualAt) && w.clock(2 * k + 1) + s0.Off(sid) <= f.virtualAt <= w.clock(2 * k + 1) + s.Off(sid)
  }

  /** All reports tell of attempts, and all attempts are reported. */
  ghost predicate Truthful<E>(w: World<E>, early: bool, s0: Shared, s: Shared, sid: Sid, fired: seq<Fired>) {
    && s0.dels.Keys <= s.dels.Keys && s0.Off(sid) <= s.Off(sid)
    && (forall id :: id in s.dels ==> s.dels[id].attempts == AttemptsOf(s0, id) + Count(fired, id))
    && (forall k :: 0 <= k < |fired| ==> Tells(w, early, s0, s, sid, fired, k))
  }

  // ---------- one attempt ----------

  /** From `s` to `t` delivery `id` was attempted once, and others only added. */
  ghost predicate TriedOnce(s: Shared, t: Shared, id: Id) {
    && id in s.dels && s.dels.Keys <= t.dels.Keys
    && (forall j :: j in s.dels ==> SameOrder(s.dels[j], t.dels[j]) && t.dels[j].attempts == s.dels[j].attempts + if j == id then 1 else 0)
    && (forall j :: j in t.dels && j !in s.dels ==> t.dels[j].attempts == 0)
  }

  lemma AddedUntried<E>(w: World<E>, s: Shared, t: Shared, sid: Sid, rs: seq<Request>, now: int)
    requires AddsEach(w, s, t, sid, rs, now)
    ensures s.dels.Keys <= t.dels.Keys && t.offsets == s.offsets
    ensures forall j :: j in s.dels ==> t.dels[j] == s.dels[j]
    ensures forall j :: j in t.dels && j !in s.dels ==> t.dels[j].attempts == 0
  {
    forall j | j in t.dels && j !in s.dels ensures t.dels[j].attempts == 0 {
      assert QueuedUnder(w, t, s.issued + 1 + (t.dels[j].ord - s.issued - 1), sid, rs[t.dels[j].ord - s.issued - 1], now);
    }
  }

  lemma AttemptTriesOnce<E>(w: World<E>, s: Shared, id: Id, at: int)
    requires id in s.dels && !s.dels[id].canceled
    ensures TriedOnce(s, Attempted(w, s, id, at), id) && Attempted(w, s, id, at).offsets == s.offsets
    ensures Attempted(w, s, id, at).issued == s.issued && Attempted(w, s, id, at).dels.Keys == s.dels.Keys
  {
    hide Attempted;
    var _, _ := AttemptDoes(w, s, id, at);
  }

  /** The callback only adds deliveries. */
  ghost predicate OnlyAdds(s: Shared, t: Shared) {
    && s.dels.Keys <= t.dels.Keys && t.offsets == s.offsets
    && (forall j :: j in s.dels ==> SameOrder(s.dels[j], t.dels[j]) && t.dels[j].attempts == s.dels[j].attempts)
    && (forall j :: j in t.dels && j !in s.dels ==> t.dels[j].attempts == 0)
  }

  lemma CallbackOnlyAdds<E>(w: World<E>, s: Shared, env: E, id: Id, at: int)
    requires FreshIds(w, s) && id in s.dels
    ensures OnlyAdds(s, Followed(w, s, env, id, at).0)
  {
    hide Followed, AddsEach;
    CallbackDoes(w, s, env, id, at);
    var d := s.dels[id];
    if d.attempts == 1 && d.onFirst.Some? && !d.firstFired {
      var rs := w.react(env, d.onFirst.value, at, s.Off(d.sid), |s.PendingOf(d.sid)|).1;
      AddedUntried(w, s.(dels := s.dels[id := d.(firstFired := true)]), Followed(w, s, env, id, at).0, d.sid, rs, at);
    }
  }

  lemma FireTries<E>(w: World<E>, s: Shared, env: E, id: Id, at: int)
    requires FreshIds(w, s) && id in s.dels && !s.dels[id].canceled
    ensures TriedOnce(s, Fire(w, s, env, id, at).s, id) && Fire(w, s, env, id, at).s.offsets == s.offsets
  {
    hide Attempted, Followed, FreshIds;
    AttemptTriesOnce(w, s, id, at);
    SameFresh(w, s, Attempted(w, s, id, at));
    CallbackOnlyAdds(w, Attempted(w, s, id, at), env, id, at);
  }

  lemma ShiftOrders(s: Shared, sid: Sid, step: nat, id: Id)
    requires id in s.dels
    ensures var t := Shift(s, sid, step);
      && id in t.dels && t.dels.Keys == s.dels.Keys && t.Off(sid) == s.Off(sid) + step && t.dels[id].canceled == s.dels[id].canceled
      && forall j :: j in s.dels ==> SameOrder(s.dels[j], t.dels[j]) && t.dels[j].attempts == s.dels[j].attempts
  {
  }

  lemma TakenFresh<E>(w: World<E>, s: Shared, sid: Sid, step: nat, id: Id)
    requires FreshIds(w, s) && id in s.dels && id in Shift(s, sid, step).dels
    ensures FreshIds(w, Mark(Shift(s, sid, step), id))
  {
    hide FreshIds;
    ShiftKeepsOthers(s, sid, step);
    SameFresh(w, s, Mark(Shift(s, sid, step), id));
  }

  /** Moving the clock and taking a delivery leaves the rest of an attempt as it was. */
  lemma TriedAfter(s: Shared, t: Shared, u: Shared, id: Id)
    requires id in s.dels && t.dels.Keys == s.dels.Keys && TriedOnce(t, u, id)
    requires forall j :: j in s.dels ==> SameOrder(s.dels[j], t.dels[j]) && t.dels[j].attempts == s.dels[j].attempts
    ensures TriedOnce(s, u, id)
  {
  }

  lemma TakesRound(s: Shared, sid: Sid, step: nat, id: Id)
    requires Driven(s, sid) && id in s.PendingOf(sid)
    ensures id in Shift(s, sid, step).dels
    ensures var t := Mark(Shift(s, sid, step), id);
      && t.dels.Keys == s.dels.Keys && t.Off(sid) == s.Off(sid) + step && !t.dels[id].canceled
      && t.dels[id].fireAt == s.dels[id].fireAt - step
      && forall j :: j in s.dels ==> SameOrder(s.dels[j], t.dels[j]) && t.dels[j].attempts == s.dels[j].attempts
  {
    hide Shift;
    ShiftOrders(s, sid, step, id);
    ShiftKeepsDue(s, sid, step);
  }

  /** One round of the loop, and what it reports. */
  lemma RoundTells<E(!new)>(w: World<E>, s: Shared, env: E, sid: Sid, id: Id, i: nat)
    requires Forward(w) && FreshIds(w, s) && Driven(s, sid) && id in s.PendingOf(sid)
    ensures var step := StepTo(w.clock(2 * i), s.dels[id].fireAt);
      var r := Round(w, s, env, sid, id, step, i);
      var f := r.fired;
      && TriedOnce(s, r.s, id) && r.s.Off(sid) == s.Off(sid) + step
      && f.id == id && f.event == s.dels[id].event && f.num == s.dels[id].attempts + 1
      && f.virtualAt == w.clock(2 * i + 1) + s.Off(sid) + step && f.due == s.dels[id].fireAt + s.Off(sid) && f.due <= f.virtualAt
      && ComesTo(f.result, w.answer(id, f.num, f.virtualAt), f.num, s.dels[id].maxAttempts)
  {
    hide Fire, FreshIds, Shift, Mark, Driven, ComesTo, TriedOnce;
    var step: nat := StepTo(w.clock(2 * i), s.dels[id].fireAt);
    TakesRound(s, sid, step, id);
    var t := Mark(Shift(s, sid, step), id);
    TakenFresh(w, s, sid, step, id);
    FireTries(w, t, env, id, w.clock(2 * i + 1));
    FireTells(w, t, env, id, w.clock(2 * i + 1));
    TriedAfter(s, t, Fire(w, t, env, id, w.clock(2 * i + 1)).s, id);
  }

  // ---------- the loop ----------

  lemma CountMore(fired: seq<Fired>, f: Fired, id: Id)
    ensures Count(fired + [f], id) == Count(fired, id) + if f.id == id then 1 else 0
  {
    assert (fired + [f])[..|fired|] == fired;
  }

  lemma {:induction false} CountNone(fired: seq<Fired>, id: Id)
    requires forall k :: 0 <= k < |fired| ==> fired[k].id != id
    ensures Count(fired, id) == 0
  {
    if fired != [] { CountNone(fired[..|fired| - 1], id); }
  }

  /** What an earlier report tells stays true. */
  lemma TellsStill<E>(w: World<E>, early: bool, s0: Shared, s: Shared, t: Shared, sid: Sid, fired: seq<Fired>, f: Fired, k: nat)
    requires k < |fired| && Tells(w, early, s0, s, sid, fired, k)
    requires s.Off(sid) <= t.Off(sid) && fired[k].id in t.dels && SameOrder(s.dels[fired[k].id], t.dels[fired[k].id])
    ensures Tells(w, early, s0, t, sid, fired + [f], k)
  {
    hide Count, ComesTo;
    assert (fired + [f])[..k] == fired[..k];
  }

  lemma TruthfulMore<E>(w: World<E>, early: bool, s0: Shared, s: Shared, t: Shared, sid: Sid, fired: seq<Fired>, f: Fired)
    requires Truthful(w, early, s0, s, sid, fired) && TriedOnce(s, t, f.id) && s.Off(sid) <= t.Off(sid)
    requires s.dels[f.id].sid == sid && f.event == s.dels[f.id].event && f.num == s.dels[f.id].attempts + 1
    requires ComesTo(f.result, w.answer(f.id, f.num, f.virtualAt), f.num, s.dels[f.id].maxAttempts)
    requires (early || f.due <= f.virtualAt) && f.virtualAt == w.clock(2 * |fired| + 1) + t.Off(sid)
    ensures Truthful(w, early, s0, t, sid, fired + [f])
  {
    hide Count, ComesTo, Tells;
    TellsKnown(w, early, s0, s, sid, fired);
    forall id | id in t.dels ensures t.dels[id].attempts == AttemptsOf(s0, id) + Count(fired + [f], id) {
      CountMore(fired, f, id);
      if id !in s.dels { CountNone(fired, id); }
    }
    forall k | 0 <= k < |fired + [f]| ensures Tells(w, early, s0, t, sid, fired + [f], k) {
      if k < |fired| { TellsStill(w, early, s0, s, t, sid, fired, f, k); } else { TellsLast(w, early, s0, s, t, sid, fired, f); }
    }
  }

  lemma TellsKnown<E>(w: World<E>, early: bool, s0: Shared, s: Shared, sid: Sid, fired: seq<Fired>)
    requires Truthful(w, early, s0, s, sid, fired)
    ensures forall k :: 0 <= k < |fired| ==> fired[k].id in s.dels
  {
    hide Count, ComesTo;
    forall k | 0 <= k < |fired| ensures fired[k].id in s.dels { assert Tells(w, early, s0, s, sid, fired, k); }
  }

  lemma TellsLast<E>(w: World<E>, early: bool, s0: Shared, s: Shared, t: Shared, sid: Sid, fired: seq<Fired>, f: Fired)
    requires Truthful(w, early, s0, s, sid, fired) && TriedOnce(s, t, f.id) && s.Off(sid) <= t.Off(sid)
    requires s.dels[f.id].sid == sid && f.event == s.dels[f.id].event && f.num == s.dels[f.id].attempts + 1
    requires ComesTo(f.result, w.answer(f.id, f.num, f.virtualAt), f.num, s.dels[f.id].maxAttempts)
    requires (early || f.due <= f.virtualAt) && f.virtualAt == w.clock(2 * |fired| + 1) + t.Off(sid)
    ensures Tells(w, early, s0, t, sid, fired + [f], |fired|)
  {
    hide Count, ComesTo;
    assert (fired + [f])[..|fired|] == fired && (fired + [f])[|fired|] == f;
  }

  lemma {:induction false} LoopTells<E(!new)>(w: World<E>, s0: Shared, s: Shared, env: E, sid: Sid, remaining: nat, fired: seq<Fired>)
    requires Forward(w) && FreshIds(w, s) && Driven(s, sid) && Truthful(w, false, s0, s, sid, fired) && |fired| <= CAP
    ensures var o := AdvanceLoop(w, s, env, sid, remaining, fired); Truthful(w, false, s0, o.s, sid, o.fired)
    decreases CAP - |fired|
  {
    hide Round, Forward, FreshIds, Driven, Truthful, TriedOnce, ComesTo;
    var i := |fired|;
    var next := First(s, Eligible(s, sid));
    if w.expired(i) || i >= CAP || sid in s.gone || next.None? || StepTo(w.clock(2 * i), s.dels[next.value].fireAt) > remaining {
    } else {
      LoopTellsOn(w, s0, s, env, sid, remaining, fired, next.value);
    }
  }

  lemma {:induction false} LoopTellsOn<E(!new)>(w: World<E>, s0: Shared, s: Shared, env: E, sid: Sid, remaining: nat, fired: seq<Fired>, id: Id)
    requires Forward(w) && FreshIds(w, s) && Driven(s, sid) && Truthful(w, false, s0, s, sid, fired) && |fired| < CAP
    requires !w.expired(|fired|) && First(s, Eligible(s, sid)) == Some(id)
    requires id in s.dels && StepTo(w.clock(2 * |fired|), s.dels[id].fireAt) <= remaining
    ensures var o := AdvanceLoop(w, s, env, sid, remaining, fired); Truthful(w, false, s0, o.s, sid, o.fired)
    decreases CAP - |fired|, 0
  {
    hide Round, Driven, Forward, FreshIds, Truthful, TriedOnce, ComesTo, IsFirst, First, Eligible, Swept;
    var step := StepTo(w.clock(2 * |fired|), s.dels[id].fireAt);
    var r := Round(w, s, env, sid, id, step, |fired|);
    Chosen(s, sid, id);
    DrivenStays(s, sid);
    RoundSweeps(w, s, env, sid, id, |fired|);
    RoundTells(w, s, env, sid, id, |fired|);
    TruthfulMore(w, false, s0, s, r.s, sid, fired, r.fired);
    LoopTells(w, s0, r.s, r.env, sid, remaining - step, fired + [r.fired]);
  }

  // ---------- the law ----------

  lemma TruthfulStays<E>(w: World<E>, early: bool, s0: Shared, s: Shared, t: Shared, sid: Sid, fired: seq<Fired>)
    requires Truthful(w, early, s0, s, sid, fired) && s.Off(sid) <= t.Off(sid) && t.dels.Keys == s.dels.Keys
    requires forall id :: id in s.dels ==> SameOrder(s.dels[id], t.dels[id]) && t.dels[id].attempts == s.dels[id].attempts
    ensures Truthful(w, early, s0, t, sid, fired)
  {
    hide Count, ComesTo;
    forall k | 0 <= k < |fired| ensures Tells(w, early, s0, t, sid, fired, k) {
      assert Tells(w, early, s0, s, sid, fired, k);
    }
  }

  lemma TruthfulStart<E>(w: World<E>, early: bool, s: Shared, sid: Sid)
    ensures Truthful(w, early, s, Acquire(s, sid), sid, [])
  {
  }

  lemma FinishOrders<E>(o: Outcome<E>, sid: Sid)
    requires o.remaining >= 0
    ensures var t := Finish(o, sid);
      && o.s.Off(sid) <= t.Off(sid) && t.dels.Keys == o.s.dels.Keys
      && forall id :: id in o.s.dels ==> SameOrder(o.s.dels[id], t.dels[id]) && t.dels[id].attempts == o.s.dels[id].attempts
  {
  }

  /** The k-th report of an Advance call names a delivery of the session, made due no
      later than the session time it was attempted at, by the clock then read; it
      numbers the attempts of that delivery on from those before the call; its
      result is what the receiver's answer comes to; and every delivery has as many
      attempts more as there are reports of it. */
  lemma AdvanceTells<E(!new)>(w: World<E>, s: Shared, env: E, sid: Sid, span: nat)
    requires Forward(w) && FreshIds(w, s) && Idle(s, sid)
    ensures var o := Advance(w, s, env, sid, span);
      Truthful(w, false, s, o.s, sid, o.fired)
  {
    hide AdvanceLoop, Finish, Numbered, Forward, InOrder, Truthful, ComesTo, FreshIds, Idle, Driven, SameOrder;
    var s1 := Acquire(s, sid);
    AcquireDrives(s, sid);
    SameFresh(w, s, s1);
    var o := AdvanceLoop(w, s1, env, sid, span, []);
    TruthfulStart(w, false, s, sid);
    LoopTells(w, s, s1, env, sid, span, []);
    assert Ended(w, s1, sid, span, [], o) by {
      EmptyInOrder();
      LoopEnds(w, s1, env, sid, span, []);
    }
    FinishOrders(o, sid);
    TruthfulStays(w, false, s, o.s, Finish(o, sid), sid, o.fired);
    AdvanceOffset(w, s, env, sid, span);
    ReleaseOrders(Finish(o, sid), sid);
    TruthfulStays(w, false, s, Finish(o, sid), Release(Finish(o, sid), sid), sid, o.fired);
  }

  // ---------- where the clock stands ----------

  /** How far ahead of wall time the session is after `n` attempts, by the reports. */
  function Ahead<E>(w: World<E>, start: int, fired: seq<Fired>, n: nat): int
    requires n <= |fired|
  {
    if n == 0 then start else fired[n - 1].virtualAt - w.clock(2 * n - 1)
  }

  /** Before the k-th attempt the clock is moved to just when the delivery is due, and
      not at all for one that is overdue. */
  ghost predicate OnTime<E>(w: World<E>, start: int, fired: seq<Fired>, k: nat)
    requires k < |fired|
  {
    var before, now := Ahead(w, start, fired, k), w.clock(2 * k);
    Ahead(w, start, fired, k + 1) == if now + before < fired[k].due then fired[k].due - now else before
  }

  lemma {:induction false} LoopIsOnTime<E(!new)>(w: World<E>, start: int, s: Shared, env: E, sid: Sid, remaining: nat, fired: seq<Fired>)
    requires Forward(w) && FreshIds(w, s) && Driven(s, sid) && |fired| <= CAP
    requires Ahead(w, start, fired, |fired|) == s.Off(sid) && forall k :: 0 <= k < |fired| ==> OnTime(w, start, fired, k)
    ensures var o := AdvanceLoop(w, s, env, sid, remaining, fired);
      && Ahead(w, start, o.fired, |o.fired|) == o.s.Off(sid)
      && forall k :: 0 <= k < |o.fired| ==> OnTime(w, start, o.fired, k)
    decreases CAP - |fired|
  {
    hide Round, Forward, FreshIds, Driven, TriedOnce, ComesTo, IsFirst, First, Eligible, Swept;
    var i := |fired|;
    var next := First(s, Eligible(s, sid));
    if next.Some? { Chosen(s, sid, next.value); }
    if w.expired(i) || i >= CAP || sid in s.gone || next.None? || StepTo(w.clock(2 * i), s.dels[next.value].fireAt) > remaining {
    } else {
      var step := StepTo(w.clock(2 * i), s.dels[next.value].fireAt);
      var r := Round(w, s, env, sid, next.value, step, i);
      DrivenStays(s, sid);
      RoundSweeps(w, s, env, sid, next.value, i);
      RoundTells(w, s, env, sid, next.value, i);
      var more := fired + [r.fired];
      forall k | 0 <= k < |fired| ensures OnTime(w, start, more, k) {
        assert OnTime(w, start, fired, k);
      }
      LoopIsOnTime(w, start, r.s, r.env, sid, remaining - step, more);
    }
  }

  /** One Advance call moves the clock from one due time to the next: it stands exactly
      where each attempt needs it, and in the end where the last one left it, or at the
      end of the span if the call is complete. */
  lemma AdvanceIsOnTime<E(!new)>(w: World<E>, s: Shared, env: E, sid: Sid, span: nat)
    requires Forward(w) && FreshIds(w, s) && Idle(s, sid)
    ensures var o := Advance(w, s, env, sid, span);
      && (forall k :: 0 <= k < |o.fired| ==> OnTime(w, s.Off(sid), o.fired, k))
      && Ahead(w, s.Off(sid), o.fired, |o.fired|) <= s.Off(sid) + span
      && o.s.Off(sid) == if o.partial then Ahead(w, s.Off(sid), o.fired, |o.fired|) else s.Off(sid) + span
  {
    hide AdvanceLoop, Finish, Numbered, Forward, InOrder, ComesTo, FreshIds, Idle, Driven, OnTime;
    var s1 := Acquire(s, sid);
    AcquireDrives(s, sid);
    SameFresh(w, s, s1);
    var o := AdvanceLoop(w, s1, env, sid, span, []);
    LoopIsOnTime(w, s.Off(sid), s1, env, sid, span, []);
    assert Ended(w, s1, sid, span, [], o) by {
      EmptyInOrder();
      LoopEnds(w, s1, env, sid, span, []);
    }
    AdvanceReplays(w, s, env, sid, span);
  }

  lemma ReleaseOrders(s: Shared, sid: Sid)
    ensures Release(s, sid).dels == s.dels && forall id :: id in s.dels ==> SameOrder(s.dels[id], s.dels[id])
  {
  }

  // ---------- delivering items ----------

  lemma ItemTells<E(!new)>(w: World<E>, s: Shared, env: E, sid: Sid, id: Id, at: int)
    requires FreshIds(w, s) && Driven(s, sid) && id in s.PendingOf(sid)
    ensures var r := Fire(w, Mark(s, id), env, id, at);
      var f := r.fired;
      && TriedOnce(s, r.s, id) && r.s.Off(sid) == s.Off(sid)
      && f.id == id && f.event == s.dels[id].event && f.num == s.dels[id].attempts + 1 && f.virtualAt == at + s.Off(sid)
      && ComesTo(f.result, w.answer(id, f.num, f.virtualAt), f.num, s.dels[id].maxAttempts)
  {
    hide Fire, FreshIds, Numbered, ComesTo;
    SameFresh(w, s, Mark(s, id));
    FireTries(w, Mark(s, id), env, id, at);
    FireTells(w, Mark(s, id), env, id, at);
  }

  lemma {:induction false} DeliverLoopTells<E(!new)>(w: World<E>, s0: Shared, s: Shared, env: E, sid: Sid, items: seq<string>, fired: seq<Fired>)
    requires Forward(w) && FreshIds(w, s) && Driven(s, sid) && Truthful(w, true, s0, s, sid, fired)
    ensures var o := DeliverLoop(w, s, env, sid, items, fired); Truthful(w, true, s0, o.s, sid, o.fired)
    decreases |items|
  {
    hide Fire, Forward, FreshIds, Driven, Truthful, TriedOnce, ComesTo, Find, Spared;
    if items != [] && !w.expired(|fired|) && sid !in s.gone && Find(s, sid, items[0]).Some? {
      var id := Find(s, sid, items[0]).value;
      var at := w.clock(2 * |fired| + 1);
      FindPending(s, sid, items[0]);
      var r := Fire(w, Mark(s, id), env, id, at);
      FireSpares(w, s, env, sid, id, fired, id);
      ItemTells(w, s, env, sid, id, at);
      TruthfulMore(w, true, s0, s, r.s, sid, fired, r.fired);
      DeliverLoopTells(w, s0, r.s, r.env, sid, items[1..], fired + [r.fired]);
    }
  }

  /** The same of a DeliverNow call, but that it may send a delivery before it is due. */
  lemma DeliverTells<E(!new)>(w: World<E>, s: Shared, env: E, sid: Sid, items: seq<string>)
    requires Forward(w) && FreshIds(w, s) && Idle(s, sid)
    ensures var o := DeliverNow(w, s, env, sid, items);
      Truthful(w, true, s, o.s, sid, o.fired)
  {
    hide DeliverLoop, Numbered, Forward, Truthful, FreshIds, Idle, Driven, SameOrder, Spared;
    var s1 := Acquire(s, sid);
    AcquireDrives(s, sid);
    SameFresh(w, s, s1);
    TruthfulStart(w, true, s, sid);
    DeliverLoopTells(w, s, s1, env, sid, items, []);
    var o := DeliverLoop(w, s1, env, sid, items, []);
    DeliverDriven(w, s1, env, sid, items, []);
    DrivenStays(o.s, sid);
    ReleaseKeeps(o.s, sid);
    ReleaseOrders(o.s, sid);
    TruthfulStays(w, true, s, o.s, Release(o.s, sid), sid, o.fired);
  }

  lemma {:induction false} DeliverDriven<E(!new)>(w: World<E>, s: Shared, env: E, sid: Sid, items: seq<string>, fired: seq<Fired>)
    requires Forward(w) && FreshIds(w, s) && Driven(s, sid)
    ensures Driven(DeliverLoop(w, s, env, sid, items, fired).s, sid)
    decreases |items|
  {
    hide Fire, Forward, FreshIds, Driven, Find, Spared;
    if items != [] && !w.expired(|fired|) && sid !in s.gone && Find(s, sid, items[0]).Some? {
      var id := Find(s, sid, items[0]).value;
      FindPending(s, sid, items[0]);
      var r := Fire(w, Mark(s, id), env, id, w.clock(2 * |fired| + 1));
      FireSpares(w, s, env, sid, id, fired, id);
      DeliverDriven(w, r.s, r.env, sid, items[1..], fired + [r.fired]);
    }
  }
}
