/** What the dispatcher's operations do to each delivery, clock and record, in plain
    terms: scheduling, an attempt and its callback, cancellation, the scan. */
module Effects {
  import opened Model
  import opened Replay

  /** Everything but the deliveries, the heap, the pending ones and the journal. */
  ghost predicate SameSessions(s: Shared, t: Shared) {
    t.offsets == s.offsets && t.exclusive == s.exclusive && t.gone == s.gone
  }

  // ---------- scheduling ----------

  /** A delivery asked for at time `now`, as it is queued. */
  ghost predicate QueuedAs(d: Del, sid: Sid, r: Request, now: int, ord: nat) {
    && d.sid == sid && d.target == r.target && d.event == r.event && d.maxAttempts == r.maxAttempts && d.onFirst == r.onFirst
    && d.fireAt == now + r.delay && d.ord == ord && d.attempts == 0 && !d.canceled && !d.running && !d.firstFired
  }

  ghost predicate LoggedAs(rec: Record, id: Id, sid: Sid, r: Request, now: int) {
    && rec.id == id && rec.sid == sid && rec.target == r.target && rec.event == r.event
    && rec.status == Pending && rec.attempts == [] && rec.fireAt == now + r.delay && rec.next == None
  }

  /** Scheduling adds one delivery, due the delay from now, under the next number: to
      the heap unless its session is being driven, to its session if it has one, and
      to the journal; it changes nothing else. */
  lemma ScheduleAddsOne<E>(w: World<E>, s: Shared, sid: Sid, r: Request, now: int)
    requires FreshIds(w, s)
    ensures var t, id := Schedule(w, s, sid, r, now), w.newID(s.issued + 1);
      && id !in s.dels && t.issued == s.issued + 1 && SameSessions(s, t)
      && t.dels.Keys == s.dels.Keys + {id} && QueuedAs(t.dels[id], sid, r, now, s.issued + 1)
      && (forall j :: j in s.dels ==> t.dels[j] == s.dels[j])
      && t.queue == s.queue + (if sid != "" && sid in s.exclusive then {} else {id})
      && t.pending == s.pending + (if sid == "" then {} else {id})
      && t.log.Keys == s.log.Keys + {id} && LoggedAs(t.log[id], id, sid, r, now)
      && (forall j :: j in s.log && j != id ==> t.log[j] == s.log[j])
  {
  }

  /** The delivery with number `ord` is the one asked for. */
  ghost predicate QueuedUnder<E>(w: World<E>, s: Shared, ord: nat, sid: Sid, r: Request, now: int) {
    w.newID(ord) in s.dels && QueuedAs(s.dels[w.newID(ord)], sid, r, now, ord)
  }

  /** From `s` to `t` exactly the requests `rs` have been scheduled, in order. */
  ghost predicate AddsEach<E>(w: World<E>, s: Shared, t: Shared, sid: Sid, rs: seq<Request>, now: int) {
    && t.issued == s.issued + |rs| && SameSessions(s, t)
    && (forall j :: j in s.dels ==> j in t.dels && t.dels[j] == s.dels[j])
    && (forall k :: 0 <= k < |rs| ==> QueuedUnder(w, t, s.issued + 1 + k, sid, rs[k], now))
    && (forall j :: j in t.dels && j !in s.dels ==> s.issued < t.dels[j].ord <= t.issued && j == w.newID(t.dels[j].ord))
  }

  lemma AddsOne<E>(w: World<E>, s: Shared, sid: Sid, r: Request, now: int)
    requires FreshIds(w, s)
    ensures AddsEach(w, s, Schedule(w, s, sid, r, now), sid, [r], now) && FreshIds(w, Schedule(w, s, sid, r, now))
  {
    ScheduleStaysFresh(w, s, sid, r, now);
    ScheduleAddsOne(w, s, sid, r, now);
    hide Schedule, FreshIds;
  }

  lemma AddsMore<E>(w: World<E>, s: Shared, t: Shared, u: Shared, sid: Sid, rs: seq<Request>, now: int)
    requires rs != [] && AddsEach(w, s, t, sid, [rs[0]], now) && AddsEach(w, t, u, sid, rs[1..], now)
    ensures AddsEach(w, s, u, sid, rs, now)
  {
    hide QueuedAs;
    forall k | 0 <= k < |rs| ensures QueuedUnder(w, u, s.issued + 1 + k, sid, rs[k], now) {
      if k == 0 {
        assert QueuedUnder(w, t, s.issued + 1 + 0, sid, [rs[0]][0], now);
      } else {
        assert QueuedUnder(w, u, t.issued + 1 + (k - 1), sid, rs[1..][k - 1], now);
      }
    }
  }

  /** Several requests are scheduled in order, one number after the other. */
  lemma {:induction false} ScheduleAllAddsEach<E>(w: World<E>, s: Shared, sid: Sid, rs: seq<Request>, now: int)
    requires FreshIds(w, s)
    ensures AddsEach(w, s, ScheduleAll(w, s, sid, rs, now), sid, rs, now) && FreshIds(w, ScheduleAll(w, s, sid, rs, now))
    decreases |rs|
  {
    if rs != [] {
      hide Schedule, FreshIds, AddsEach;
      var s1 := Schedule(w, s, sid, rs[0], now);
      AddsOne(w, s, sid, rs[0], now);
      ScheduleAllAddsEach(w, s1, sid, rs[1..], now);
      AddsMore(w, s, s1, ScheduleAll(w, s, sid, rs, now), sid, rs, now);
    }
  }

  lemma ScheduleStaysFresh<E>(w: World<E>, s: Shared, sid: Sid, r: Request, now: int)
    requires FreshIds(w, s)
    ensures FreshIds(w, Schedule(w, s, sid, r, now))
  {
  }

  // ---------- an attempt ----------

  /** What an attempt comes to: delivered if the receiver took it; else retried while
      there are attempts left; else failed. */
  ghost predicate ComesTo(result: Status, ok: bool, num: nat, maxAttempts: int) {
    result == if ok then Delivered else if num < maxAttempts then Retrying else Failed
  }

  /** The record has one attempt more, and shows the result and the time of the next. */
  ghost predicate LogsTry(rec: Record, rec': Record, t: Try, result: Status, next: int) {
    && rec'.attempts == rec.attempts + [t] && rec'.status == result && rec'.fireAt == rec.fireAt
    && (if result == Retrying then rec'.next == Some(next) else rec'.next == None)
    && rec'.id == rec.id && rec'.sid == rec.sid && rec'.target == rec.target && rec'.event == rec.event
  }

  /** The answer and the section after it, on the heap and the journal. */
  lemma AnswerRequeues(s: Shared, id: Id, t: Try, next: int)
    requires id in s.dels
    ensures var d, result := s.dels[id], Verdict(t.num, s.dels[id].maxAttempts, t.ok);
      var r := Settle(Answer(s, id, t, next), id, result);
      && r.queue == s.queue + (if result == Retrying && (d.sid == "" || d.sid !in s.exclusive) then {id} else {})
      && r.log.Keys == s.log.Keys && (forall j :: j in s.log && j != id ==> r.log[j] == s.log[j])
      && (id in s.log ==> LogsTry(s.log[id], r.log[id], t, result, next))
  {
  }

  lemma AttemptMoves<E>(w: World<E>, s: Shared, id: Id, at: int, ok: bool, result: Status)
    requires id in s.dels && ok == w.answer(id, s.dels[id].attempts + 1, at + s.Off(s.dels[id].sid))
    requires ComesTo(result, ok, s.dels[id].attempts + 1, s.dels[id].maxAttempts)
    ensures var t, d := Attempted(w, s, id, at), s.dels[id];
      && t == s.(dels := t.dels, queue := t.queue, pending := t.pending, log := t.log) && t.dels.Keys == s.dels.Keys
      && (forall j :: j in s.dels && j != id ==> t.dels[j] == s.dels[j])
      && t.dels[id] == d.(attempts := d.attempts + 1, running := false, fireAt := if result == Retrying then at + w.retry(id, d.attempts + 1) else d.fireAt)
      && t.pending == s.pending - (if result == Retrying then {} else {id})
  {
    hide Answer, Settle;
    AnswerSettles(Begin(s, id), id, Try(s.dels[id].attempts + 1, at, ok), at + w.retry(id, s.dels[id].attempts + 1));
  }

  lemma AttemptRecords<E>(w: World<E>, s: Shared, id: Id, at: int, ok: bool, result: Status)
    requires id in s.dels && ok == w.answer(id, s.dels[id].attempts + 1, at + s.Off(s.dels[id].sid))
    requires ComesTo(result, ok, s.dels[id].attempts + 1, s.dels[id].maxAttempts)
    ensures var t, d := Attempted(w, s, id, at), s.dels[id];
      && t.queue == s.queue + (if result == Retrying && (d.sid == "" || d.sid !in s.exclusive) then {id} else {})
      && t.log.Keys == s.log.Keys && (forall j :: j in s.log && j != id ==> t.log[j] == s.log[j])
      && (id in s.log ==> LogsTry(s.log[id], t.log[id], Try(d.attempts + 1, at, ok), result, at + w.retry(id, d.attempts + 1)))
  {
    hide Answer, Settle, LogsTry;
    AnswerRequeues(Begin(s, id), id, Try(s.dels[id].attempts + 1, at, ok), at + w.retry(id, s.dels[id].attempts + 1));
  }

  /** An attempt at time `at` asks the receiver once, at the session's time. A delivery
      to be retried is due the retry delay from then, back in the heap unless its
      session is being driven; any other is pending no more. Its record tells so, and
      nothing else changes. */
  lemma AttemptDoes<E>(w: World<E>, s: Shared, id: Id, at: int) returns (ok: bool, result: Status)
    requires id in s.dels
    ensures var t, d := Attempted(w, s, id, at), s.dels[id];
      var num := d.attempts + 1;
      && ok == w.answer(id, num, at + s.Off(d.sid)) && ComesTo(result, ok, num, d.maxAttempts)
      && SameSessions(s, t) && t.issued == s.issued && t.dels.Keys == s.dels.Keys
      && (forall j :: j in s.dels && j != id ==> t.dels[j] == s.dels[j])
      && t.dels[id] == d.(attempts := num, running := false, fireAt := if result == Retrying then at + w.retry(id, num) else d.fireAt)
      && t.queue == s.queue + (if result == Retrying && (d.sid == "" || d.sid !in s.exclusive) then {id} else {})
      && t.pending == s.pending - (if result == Retrying then {} else {id})
      && t.log.Keys == s.log.Keys && (forall j :: j in s.log && j != id ==> t.log[j] == s.log[j])
      && (id in s.log ==> LogsTry(s.log[id], t.log[id], Try(num, at, ok), result, at + w.retry(id, num)))
  {
    hide Attempted, LogsTry;
    var d := s.dels[id];
    ok := w.answer(id, d.attempts + 1, at + s.Off(d.sid));
    result := if ok then Delivered else if d.attempts + 1 < d.maxAttempts then Retrying else Failed;
    AttemptMoves(w, s, id, at, ok, result);
    AttemptRecords(w, s, id, at, ok, result);
  }

  /** The callback: after exactly the first attempt of a delivery that has a goto, and
      only once, the goto is reacted to, at the session's time and with what is
      pending then, and the deliveries it asks for are scheduled in order. */
  lemma CallbackDoes<E>(w: World<E>, s: Shared, env: E, id: Id, at: int)
    requires FreshIds(w, s) && id in s.dels
    ensures var (t, env'), d := Followed(w, s, env, id, at), s.dels[id];
      if d.attempts == 1 && d.onFirst.Some? && !d.firstFired then
        var reaction := w.react(env, d.onFirst.value, at, s.Off(d.sid), |s.PendingOf(d.sid)|);
        env' == reaction.0 && AddsEach(w, s.(dels := s.dels[id := d.(firstFired := true)]), t, d.sid, reaction.1, at)
      else t == s && env' == env
  {
    hide ScheduleAll, AddsEach;
    var d := s.dels[id];
    if d.attempts == 1 && d.onFirst.Some? && !d.firstFired {
      SameFresh(w, s, MarkFirst(s, id));
      ScheduleAllAddsEach(w, MarkFirst(s, id), d.sid, w.react(env, d.onFirst.value, at, s.Off(d.sid), |s.PendingOf(d.sid)|).1, at);
    }
  }

  /** What a driver reports of an attempt. A canceled delivery is put down and not sent. */
  lemma FireTells<E>(w: World<E>, s: Shared, env: E, id: Id, at: int)
    requires id in s.dels
    ensures var r, d := Fire(w, s, env, id, at), s.dels[id];
      var f := r.fired;
      && f.id == id && f.event == d.event && f.virtualAt == at + s.Off(d.sid)
      && f.due == d.fireAt + s.Off(d.sid) && f.ord == d.ord
      && (if d.canceled
          then f.num == 0 && f.result == Canceled && r.env == env && r.s == s.(dels := s.dels[id := d.(running := false)])
          else f.num == d.attempts + 1 && ComesTo(f.result, w.answer(id, f.num, f.virtualAt), f.num, d.maxAttempts))
  {
    hide Attempted, Followed;
  }

  // ---------- cancellation ----------

  /** The delivery is marked canceled and its record says so. */
  ghost predicate MarksCanceled(s: Shared, t: Shared, id: Id) {
    && id in s.dels && id in t.dels && t.dels[id] == s.dels[id].(canceled := true)
    && (id in s.log ==> id in t.log && t.log[id] == s.log[id].(status := Canceled, next := None))
  }

  ghost predicate LeavesAlone(s: Shared, t: Shared, id: Id) {
    && (id in s.dels <==> id in t.dels) && (id in s.dels ==> t.dels[id] == s.dels[id])
    && (id in s.log <==> id in t.log) && (id in s.log ==> t.log[id] == s.log[id])
    && (id in s.queue <==> id in t.queue)
  }

  /** Canceling a session takes all its pending deliveries and marks them, and drops its
      clock: at once if nobody drives it, else when its driver releases it. No other
      session has anything changed. */
  lemma CancelSessionDoes(s: Shared, sid: Sid)
    requires s.pending <= s.dels.Keys
    ensures var t := FlagAll(CancelSession(s, sid), s.PendingOf(sid));
      && t.PendingOf(sid) == {} && t.pending == s.pending - s.PendingOf(sid) && t.queue == s.queue
      && (forall id :: id in s.PendingOf(sid) ==> MarksCanceled(s, t, id))
      && (forall id :: id !in s.PendingOf(sid) ==> LeavesAlone(s, t, id))
      && (sid !in s.exclusive ==> sid !in t.offsets && t.Off(sid) == 0 && t.gone == s.gone)
      && (sid in s.exclusive ==> sid in t.gone && t.offsets == s.offsets && t.gone == s.gone + {sid})
      && (forall other :: other != sid ==> t.Off(other) == s.Off(other) && (other in t.gone <==> other in s.gone))
      && t.exclusive == s.exclusive && t.issued == s.issued
  {
  }

  /** Releasing a session gives it back, without a clock if it was canceled meanwhile. */
  lemma ReleaseDoes(s: Shared, sid: Sid)
    ensures var t := Release(s, sid);
      && sid !in t.exclusive && sid !in t.gone && (sid in s.gone ==> sid !in t.offsets && t.Off(sid) == 0)
      && (sid !in s.gone ==> t.offsets == s.offsets)
      && (forall other :: other != sid ==>
           t.Off(other) == s.Off(other) && (other in t.gone <==> other in s.gone) && (other in t.exclusive <==> other in s.exclusive))
      && (forall id :: id in t.queue <==> id in s.queue || (id in s.PendingOf(sid) && !s.dels[id].running && !s.dels[id].canceled))
      && t.dels == s.dels && t.pending == s.pending && t.log == s.log && t.issued == s.issued
  {
  }

  /** Canceling everything takes every pending delivery, drops the clock of every session
      that nobody drives, and marks exactly what is queued or pending and was not
      canceled before. */
  lemma CancelAllDoes(s: Shared, ids: set<Id>)
    requires s.pending <= s.dels.Keys && ids == set id | id in s.dels && (id in s.queue || id in s.pending) && !s.dels[id].canceled
    ensures var t := FlagAll(CancelAll(s), ids);
      && t.pending == {} && t.queue == s.queue && t.exclusive == s.exclusive && t.issued == s.issued
      && (forall id :: id in ids ==> MarksCanceled(s, t, id))
      && (forall id :: id !in ids ==> LeavesAlone(s, t, id))
      && (forall sid :: sid !in s.exclusive ==> sid !in t.offsets && t.Off(sid) == 0 && (sid in t.gone <==> sid in s.gone))
      && (forall sid :: sid in s.exclusive ==> t.Off(sid) == s.Off(sid) && (sid in t.gone <==> sid in s.gone || sid in s.offsets))
  {
  }

  // ---------- the scan ----------

  /** A scan takes exactly the live deliveries that are due, earliest first; it throws
      away none that is live; and it would sleep until the first one left is due, or
      an hour. */
  lemma ScanTakesDue(s: Shared, now: int, due: seq<Id>, dropped: set<Id>, wait: int)
    requires s.queue <= s.dels.Keys && ScanSpec(s, now, due, dropped, wait)
    ensures var t := Scan(s, due, dropped);
      && (forall id :: id in due <==> id in s.queue && !s.dels[id].canceled && s.dels[id].fireAt <= now)
      && (forall i, j :: 0 <= i < j < |due| ==> due[i] != due[j] && s.dels[due[i]].fireAt <= s.dels[due[j]].fireAt)
      && (forall id :: id in s.queue && id !in due && !s.dels[id].canceled ==> id in t.queue && s.dels[id].fireAt >= now + wait)
      && (forall id :: id in t.queue ==> id in s.queue && id !in due)
      && (t.queue == {} ==> wait == 3_600_000_000_000)
      && (t.queue != {} ==> wait > 0 && exists id :: id in t.queue && !s.dels[id].canceled && s.dels[id].fireAt == now + wait)
      && (forall id :: id in s.dels ==> id in t.dels && t.dels[id] == s.dels[id].(running := id in due || s.dels[id].running))
      && t.pending == s.pending && t.log == s.log && SameSessions(s, t)
  {
  }
}
