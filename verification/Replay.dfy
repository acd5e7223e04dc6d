/** Driving one session synchronously: the attempt, and the loops of Advance
    and DeliverNow, as functions of an oracle for everything outside. */
module Replay {
  import opened Model

  /** The outside world. `newID(k)` is the id of the delivery that gets number
      k; `answer` is the receiver (at a session time); `retry` the jittered
      delay; `react` what a first attempt's goto does, given the wall time, the
      session's clock offset and the number of pending deliveries. A driver's i-th round reads the wall
      clock at `clock(2i)` when it scans and at `clock(2i+1)` when it attempts;
      later reads of the same round are absorbed by the delays. `expired(i)`
      says whether the caller's context has ended by round i. */
  datatype World<!E> = World(
    newID: nat -> Id,
    answer: (Id, nat, int) -> bool,
    retry: (Id, nat) -> int,
    react: (E, Goto, int, int, nat) -> (E, seq<Request>),
    clock: nat -> int,
    expired: nat -> bool)

  /** One attempt as reported to the caller. `due` and `ord` name the place in
      session time that the attempt had; the report itself does not show them. */
  datatype Fired = Fired(id: Id, event: string, virtualAt: int, num: nat, result: Status, due: int, ord: nat)

  datatype After<E> = After(s: Shared, env: E, fired: Fired)

  datatype Outcome<E> = Outcome(s: Shared, env: E, fired: seq<Fired>, partial: bool, remaining: int)

  const CAP := 1000

  // ---------- one attempt ----------

  function Schedule<E>(w: World<E>, s: Shared, sid: Sid, r: Request, now: int): Shared {
    var id := w.newID(s.issued + 1);
    var d := Draft(sid, r, now);
    Enqueue(LogAdd(s, id, d), id, d)
  }

  function ScheduleAll<E>(w: World<E>, s: Shared, sid: Sid, rs: seq<Request>, now: int): Shared
    decreases |rs|
  {
    if rs == [] then s else ScheduleAll(w, Schedule(w, s, sid, rs[0], now), sid, rs[1..], now)
  }

  /** Up to the section that requeues or retires the delivery. */
  function Attempted<E>(w: World<E>, s: Shared, id: Id, at: int): Shared
    requires id in s.dels
  {
    var d := s.dels[id];
    var num := d.attempts + 1;
    var ok := w.answer(id, num, at + s.Off(d.sid));
    Settle(Answer(Begin(s, id), id, Try(num, at, ok), at + w.retry(id, num)), id, Verdict(num, d.maxAttempts, ok))
  }

  /** The callback after a first attempt. */
  function Followed<E>(w: World<E>, s: Shared, env: E, id: Id, at: int): (Shared, E)
    requires id in s.dels
  {
    var d := s.dels[id];
    if d.attempts == 1 && d.onFirst.Some? && !d.firstFired then
      var (env1, rs) := w.react(env, d.onFirst.value, at, s.Off(d.sid), |s.PendingOf(d.sid)|);
      (ScheduleAll(w, MarkFirst(s, id), d.sid, rs, at), env1)
    else
      (s, env)
  }

  function Fire<E>(w: World<E>, s: Shared, env: E, id: Id, at: int): After<E>
    requires id in s.dels
  {
    var d := s.dels[id];
    var report := Fired(id, d.event, at + s.Off(d.sid), 0, Canceled, s.Due(id), d.ord);
    if d.canceled then
      After(Unmark(s, id), env, report)
    else
      var num := d.attempts + 1;
      var ok := w.answer(id, num, at + s.Off(d.sid));
      var (s1, env1) := Followed(w, Attempted(w, s, id, at), env, id, at);
      After(s1, env1, report.(num := num, result := Verdict(num, d.maxAttempts, ok)))
  }

  // ---------- Advance ----------

  function StepTo(now: int, fireAt: int): int {
    if fireAt - now < 0 then 0 else fireAt - now
  }

  ghost function AdvanceLoop<E>(w: World<E>, s: Shared, env: E, sid: Sid, remaining: int, fired: seq<Fired>): (o: Outcome<E>)
    decreases CAP - |fired|
  {
    var i := |fired|;
    if w.expired(i) || i >= CAP then Outcome(s, env, fired, true, remaining)
    else if sid in s.gone then Outcome(s, env, fired, false, remaining)
    else
      var next := First(s, Eligible(s, sid));
      if next.None? then Outcome(s, env, fired, false, remaining)
      else
        var step := StepTo(w.clock(2 * i), s.dels[next.value].fireAt);
        if step > remaining then Outcome(s, env, fired, false, remaining)
        else
          var r := Round(w, s, env, sid, next.value, step, i);
          AdvanceLoop(w, r.s, r.env, sid, remaining - step, fired + [r.fired])
  }

  /** Moves the clock to the delivery and attempts it. */
  function Round<E>(w: World<E>, s: Shared, env: E, sid: Sid, id: Id, step: int, i: nat): After<E>
    requires id in s.dels
  {
    Fire(w, Mark(Shift(s, sid, step), id), env, id, w.clock(2 * i + 1))
  }

  function Finish<E>(o: Outcome<E>, sid: Sid): Shared {
    if !o.partial && sid !in o.s.gone then Shift(o.s, sid, o.remaining) else o.s
  }

  /** The whole call, from an acquired and quiet session to its release. */
  ghost function Advance<E>(w: World<E>, s: Shared, env: E, sid: Sid, span: nat): Outcome<E> {
    var o := AdvanceLoop(w, Acquire(s, sid), env, sid, span, []);
    o.(s := Release(Finish(o, sid), sid))
  }

  // ---------- what scheduling and attempting leave alone ----------

  /** Ids come from the ULID generator: a new one names no earlier delivery. */
  ghost predicate FreshIds<E>(w: World<E>, s: Shared) {
    && (forall k :: k > s.issued ==> w.newID(k) !in s.dels)
    && (forall k, l :: s.issued < k < l ==> w.newID(k) != w.newID(l))
  }

  predicate NotEarlier(rs: seq<Request>) {
    forall k :: 0 <= k < |rs| ==> rs[k].delay >= 0
  }

  /** Time and delays do not run backwards. */
  ghost predicate Forward<E(!new)>(w: World<E>) {
    && (forall i: nat, j: nat :: i <= j ==> w.clock(i) <= w.clock(j))
    && (forall id, n :: w.retry(id, n) >= 0)
    && (forall e, g, t, off, n :: NotEarlier(w.react(e, g, t, off, n).1))
  }

  /** `t` is `s` plus new deliveries of `sid`, due at `at` or later. */
  ghost predicate Grew(s: Shared, t: Shared, sid: Sid, at: int) {
    && t.offsets == s.offsets && t.exclusive == s.exclusive && t.gone == s.gone && s.issued <= t.issued
    && (forall j :: j in s.dels ==> j in t.dels && t.dels[j] == s.dels[j] && (j in t.pending <==> j in s.pending))
    && (forall j :: j in t.dels && j !in s.dels ==>
          && t.dels[j].sid == sid && t.dels[j].ord > s.issued && t.dels[j].fireAt >= at
          && !t.dels[j].running && !t.dels[j].canceled && (sid != "" ==> j in t.pending))
    && (s.pending <= s.dels.Keys ==> t.pending <= t.dels.Keys)
    && (sid != "" && sid in s.exclusive ==> t.queue == s.queue)
  }

  lemma ScheduleGrows<E>(w: World<E>, s: Shared, sid: Sid, r: Request, now: int)
    requires FreshIds(w, s) && r.delay >= 0
    ensures Grew(s, Schedule(w, s, sid, r, now), sid, now)
    ensures FreshIds(w, Schedule(w, s, sid, r, now))
    ensures Numbered(s) ==> Numbered(Schedule(w, s, sid, r, now))
  {
  }

  lemma GrewTrans(s: Shared, t: Shared, u: Shared, sid: Sid, at: int)
    requires Grew(s, t, sid, at) && Grew(t, u, sid, at)
    ensures Grew(s, u, sid, at)
  {
  }

  lemma {:induction false} ScheduleAllGrows<E>(w: World<E>, s: Shared, sid: Sid, rs: seq<Request>, now: int)
    requires FreshIds(w, s) && NotEarlier(rs)
    ensures Grew(s, ScheduleAll(w, s, sid, rs, now), sid, now)
    ensures FreshIds(w, ScheduleAll(w, s, sid, rs, now))
    ensures Numbered(s) ==> Numbered(ScheduleAll(w, s, sid, rs, now))
    decreases |rs|
  {
    hide Schedule, Numbered, FreshIds;
    if rs != [] {
      hide Grew;
      var s1 := Schedule(w, s, sid, rs[0], now);
      ScheduleGrows(w, s, sid, rs[0], now);
      ScheduleAllGrows(w, s1, sid, rs[1..], now);
      GrewTrans(s, s1, ScheduleAll(w, s, sid, rs, now), sid, now);
    }
  }

  lemma SameNumbers(s: Shared, t: Shared)
    requires Numbered(s) && t.dels.Keys == s.dels.Keys && t.issued == s.issued
    requires forall id :: id in s.dels ==> t.dels[id].ord == s.dels[id].ord
    ensures Numbered(t)
  {
  }

  lemma SameFresh<E>(w: World<E>, s: Shared, t: Shared)
    requires FreshIds(w, s) && t.dels.Keys == s.dels.Keys && t.issued == s.issued
    ensures FreshIds(w, t)
  {
  }

  /** What an attempt does before its callback, whatever the answer. */
  ghost predicate Tried(s: Shared, t: Shared, id: Id, next: int)
    requires id in s.dels
  {
    && t.offsets == s.offsets && t.exclusive == s.exclusive && t.gone == s.gone && t.issued == s.issued
    && t.dels.Keys == s.dels.Keys && t.pending <= s.pending
    && (forall j :: j in s.dels && j != id ==> t.dels[j] == s.dels[j] && (j in t.pending <==> j in s.pending))
    && t.dels[id] == s.dels[id].(running := false, attempts := s.dels[id].attempts + 1, fireAt := t.dels[id].fireAt)
    && (id in t.pending ==> t.dels[id].fireAt == next)
    && (s.dels[id].sid != "" && s.dels[id].sid in s.exclusive ==> t.queue == s.queue)
  }

  lemma AttemptTries<E>(w: World<E>, s: Shared, id: Id, at: int)
    requires id in s.dels
    ensures Tried(s, Attempted(w, s, id, at), id, at + w.retry(id, s.dels[id].attempts + 1))
  {
    hide Answer, Settle;
    var d := s.dels[id];
    var num, next := d.attempts + 1, at + w.retry(id, d.attempts + 1);
    AnswerSettles(Begin(s, id), id, Try(num, at, w.answer(id, num, at + s.Off(d.sid))), next);
  }

  lemma AnswerSettles(s: Shared, id: Id, t: Try, next: int)
    requires id in s.dels
    ensures var retry := Verdict(t.num, s.dels[id].maxAttempts, t.ok) == Retrying;
      var sid := s.dels[id].sid;
      var r := Settle(Answer(s, id, t, next), id, Verdict(t.num, s.dels[id].maxAttempts, t.ok));
      && (sid != "" && sid in s.exclusive ==> r.queue == s.queue)
      && r == s.(queue := r.queue, log := r.log,
        pending := if retry then s.pending else s.pending - {id},
        dels := s.dels[id := s.dels[id].(running := false, fireAt := if retry then next else s.dels[id].fireAt)])
  {
  }

  /** A session held by a driver that is between two attempts. */
  ghost predicate Driven(s: Shared, sid: Sid) {
    && sid != "" && sid in s.exclusive && sid !in s.gone && Numbered(s)
    && s.pending <= s.dels.Keys && s.queue <= s.dels.Keys && s.queue !! s.PendingOf(sid)
    && (forall id :: id in s.PendingOf(sid) ==> !s.dels[id].running && !s.dels[id].canceled)
  }

  /** The effect of one round on everything but the delivery it attempts. */
  ghost predicate Rounded(s: Shared, t: Shared, sid: Sid, id: Id, at: int)
    requires id in s.dels
  {
    && t.offsets == s.offsets && t.exclusive == s.exclusive && t.gone == s.gone && s.issued <= t.issued && t.queue == s.queue
    && (forall j :: j in s.dels ==> j in t.dels && (j != id ==> t.dels[j] == s.dels[j] && (j in t.pending <==> j in s.pending)))
    && (forall j :: j in t.dels && j !in s.dels ==> t.dels[j].sid == sid && t.dels[j].ord > s.issued && t.dels[j].fireAt >= at)
    && (id in t.dels ==> t.dels[id].sid == s.dels[id].sid)
    && (id in t.pending ==> t.dels[id].ord == s.dels[id].ord && t.dels[id].fireAt >= at)
  }

  lemma FireRounds<E(!new)>(w: World<E>, s: Shared, env: E, sid: Sid, id: Id, at: int)
    requires Forward(w) && FreshIds(w, s) && Driven(s, sid) && id in s.PendingOf(sid)
    ensures Rounded(s, Fire(w, Mark(s, id), env, id, at).s, sid, id, at)
    ensures Driven(Fire(w, Mark(s, id), env, id, at).s, sid)
    ensures FreshIds(w, Fire(w, Mark(s, id), env, id, at).s)
  {
    hide Attempted, Followed;
    var s1 := Attempted(w, Mark(s, id), id, at);
    AttemptTries(w, Mark(s, id), id, at);
    TriedStays(s, s1, sid, id, at, at + w.retry(id, s.dels[id].attempts + 1));
    FollowedGrows(w, s1, env, id, at);
    TriedThenGrew(s, s1, Followed(w, s1, env, id, at).0, sid, id, at);
    DrivenGrew(s1, Followed(w, s1, env, id, at).0, sid, id, at);
  }

  lemma TriedStays(s: Shared, t: Shared, sid: Sid, id: Id, at: int, next: int)
    requires Driven(s, sid) && id in s.PendingOf(sid) && Tried(Mark(s, id), t, id, next) && at <= next
    ensures Driven(t, sid) && t.dels[id].sid == sid && Rounded(s, t, sid, id, at)
  {
    hide Numbered;
    SameNumbers(s, t);
    TriedRounds(s, t, sid, id, at, next);
  }

  lemma TriedRounds(s: Shared, t: Shared, sid: Sid, id: Id, at: int, next: int)
    requires id in s.PendingOf(sid) && sid != "" && sid in s.exclusive && s.pending <= s.dels.Keys
    requires Tried(Mark(s, id), t, id, next) && at <= next
    ensures t.dels[id].sid == sid && Rounded(s, t, sid, id, at)
  {
  }

  function FirstSet(s: Shared, id: Id, f: bool): Shared
    requires id in s.dels
  {
    s.(dels := s.dels[id := s.dels[id].(firstFired := f)])
  }

  /** The callback marks the delivery and adds new ones. */
  lemma FollowedGrows<E(!new)>(w: World<E>, s: Shared, env: E, id: Id, at: int)
    requires Forward(w) && FreshIds(w, s) && id in s.dels && Numbered(s)
    ensures var t := Followed(w, s, env, id, at).0;
      && id in t.dels && Grew(FirstSet(s, id, t.dels[id].firstFired), t, s.dels[id].sid, at)
      && Numbered(t) && FreshIds(w, t)
  {
    hide ScheduleAll, FreshIds, Numbered;
    var d := s.dels[id];
    var s1 := MarkFirst(s, id);
    if d.attempts == 1 && d.onFirst.Some? && !d.firstFired {
      SameNumbers(s, s1);
      SameFresh(w, s, s1);
      var rs := w.react(env, d.onFirst.value, at, s.Off(d.sid), |s.PendingOf(d.sid)|).1;
      ScheduleAllGrows(w, s1, d.sid, rs, at);
    } else {
      assert FirstSet(s, id, d.firstFired) == s;
    }
  }

  lemma TriedThenGrew(s: Shared, s1: Shared, t: Shared, sid: Sid, id: Id, at: int)
    requires id in s.dels && Rounded(s, s1, sid, id, at)
    requires s1.dels.Keys == s.dels.Keys && s1.dels[id].sid == sid && sid != "" && sid in s1.exclusive
    requires id in t.dels && Grew(FirstSet(s1, id, t.dels[id].firstFired), t, sid, at)
    ensures Rounded(s, t, sid, id, at)
  {
  }

  lemma DrivenGrew(s1: Shared, t: Shared, sid: Sid, id: Id, at: int)
    requires Driven(s1, sid) && id in s1.dels && s1.dels[id].sid == sid
    requires id in t.dels && Grew(FirstSet(s1, id, t.dels[id].firstFired), t, sid, at) && Numbered(t)
    ensures Driven(t, sid)
  {
    hide Numbered;
  }

  // ---------- moving the clock ----------

  /** The invariant the package comment states: moving a session's clock keeps
      the session time at which each of its deliveries is due. */
  lemma ShiftKeepsDue(s: Shared, sid: Sid, step: nat)
    requires s.pending <= s.dels.Keys
    ensures var t := Shift(s, sid, step);
      && t.dels.Keys == s.dels.Keys && t.pending == s.pending && t.PendingOf(sid) == s.PendingOf(sid)
      && t.Off(sid) == s.Off(sid) + step
      && (forall id :: id in s.PendingOf(sid) ==> t.Due(id) == s.Due(id) && t.dels[id] == s.dels[id].(fireAt := s.dels[id].fireAt - step))
  {
  }

  lemma ShiftKeepsOthers(s: Shared, sid: Sid, step: nat)
    ensures var t := Shift(s, sid, step);
      && t.dels.Keys == s.dels.Keys && t.queue == s.queue && t.exclusive == s.exclusive && t.gone == s.gone && t.issued == s.issued
      && (forall id :: id in s.dels && id !in s.PendingOf(sid) ==> t.dels[id] == s.dels[id])
      && (forall other :: other != sid ==> t.Off(other) == s.Off(other))
  {
  }

  lemma ShiftDriven(s: Shared, sid: Sid, step: nat)
    requires Driven(s, sid)
    ensures Driven(Shift(s, sid, step), sid)
  {
    hide Numbered;
    ShiftKeepsDue(s, sid, step);
    ShiftKeepsOthers(s, sid, step);
    assert Numbered(Shift(s, sid, step)) by {
      forall id | id in s.dels ensures Shift(s, sid, step).dels[id].ord == s.dels[id].ord {
      }
      SameNumbers(s, Shift(s, sid, step));
    }
  }
}
