/** Advancing a session by a span does what waiting for that span would have
    done: both are the reference machine of SessionTime.dfy. */
module Waiting {
  import opened Model
  import opened Replay
  import opened ReplayOrder
  import opened Compose
  import opened SessionTime

  // ---------- waiting: the scheduler on wall time ----------

  /** The scheduler with prompt timers and instant receivers: `batch` is what the
      last scan handed to the workers and nobody has attempted yet. */
  datatype Wall<E> = Wall(s: Shared, env: E, now: int, batch: seq<Id>, fired: seq<Fired>)

  /** Time passes, but not past the time a queued delivery is due. */
  ghost predicate Ticks<E>(x: Wall<E>, y: Wall<E>, end: int) {
    && x.batch == [] && y == x.(now := y.now) && x.now <= y.now <= end
    && forall id :: id in x.s.queue && id in x.s.dels ==> x.s.dels[id].fireAt >= y.now
  }

  ghost predicate Scans<E>(x: Wall<E>, y: Wall<E>, dropped: set<Id>, wait: int) {
    && x.batch == [] && x.s.queue <= x.s.dels.Keys
    && ScanSpec(x.s, x.now, y.batch, dropped, wait)
    && y == x.(batch := y.batch, s := Scan(x.s, y.batch, dropped))
  }

  ghost predicate Works<E>(w: World<E>, x: Wall<E>, y: Wall<E>) {
    && x.batch != [] && x.batch[0] in x.s.dels
    && var r := Fire(w, x.s, x.env, x.batch[0], x.now);
       y == Wall(r.s, r.env, x.now, x.batch[1..], x.fired + [r.fired])
  }

  ghost predicate Step<E>(w: World<E>, x: Wall<E>, y: Wall<E>, end: int) {
    || Ticks(x, y, end)
    || (exists dropped, wait :: Scans(x, y, dropped, wait))
    || Works(w, x, y)
  }

  /** Any run of the scheduler that reaches `end` with nothing left to do by then. */
  ghost predicate Waits<E>(w: World<E>, xs: seq<Wall<E>>, end: int) {
    && xs != []
    && (forall k :: 0 <= k < |xs| - 1 ==> Step(w, xs[k], xs[k + 1], end))
    && var x := xs[|xs| - 1];
       x.batch == [] && x.now == end && forall id :: id in x.s.queue && id in x.s.dels ==> x.s.dels[id].fireAt > end
  }

  /** One session is all the dispatcher has to do. */
  ghost predicate Alone(s: Shared, sid: Sid) {
    Idle(s, sid) && s.queue == s.PendingOf(sid)
  }

  ghost predicate Distinct(a: map<Id, Del>) {
    forall i, j :: i in a && j in a && i != j ==> a[i].fireAt != a[j].fireAt
  }

  /** No two deliveries are ever pending for the same session time: the heap
      breaks such ties arbitrarily, Advance by scheduling order. */
  ghost predicate NoTies<E>(w: World<E>, v: Virtual<E>, clock: int, end: int, n: nat)
    decreases n
  {
    && Distinct(v.agenda)
    && (n > 0 ==> forall id :: VFirst(v.agenda, id) && v.agenda[id].fireAt <= end ==>
          var at := if clock < v.agenda[id].fireAt then v.agenda[id].fireAt else clock;
          NoTies(w, VFire(w, v, id, at).v, at, end, n - 1))
  }

  // ---------- what every state of such a run keeps ----------

  predicate NotLater(s: Shared, a: Id, b: Id) {
    a in s.dels && b in s.dels && s.dels[a].fireAt <= s.dels[b].fireAt
  }

  ghost predicate Inv<E>(x: Wall<E>, sid: Sid) {
    && sid != "" && sid !in x.s.exclusive && x.s.pending <= x.s.dels.Keys
    && x.s.PendingOf(sid) == x.s.queue + (set id | id in x.batch)
    && (forall id :: id in x.s.PendingOf(sid) ==> !x.s.dels[id].canceled)
    && (forall id :: id in x.batch ==> id in x.s.PendingOf(sid))
    && (forall i, j :: 0 <= i < j < |x.batch| ==> x.batch[i] != x.batch[j] && NotLater(x.s, x.batch[i], x.batch[j]))
    && (forall id :: id in x.batch ==> id !in x.s.queue && x.s.dels[id].fireAt <= x.now)
    && (x.batch != [] ==> forall id :: id in x.s.queue ==> x.s.dels[id].fireAt >= x.now)
  }

  lemma ScanKeeps<E>(x: Wall<E>, y: Wall<E>, dropped: set<Id>, wait: int, sid: Sid)
    requires Inv(x, sid) && Scans(x, y, dropped, wait)
    ensures Inv(y, sid)
  {
    hide ScanSpec;
    ScanTakes(x.s, x.now, y.batch, dropped, wait, sid);
    ScanPending(x.s, y.batch, dropped, sid);
  }

  lemma ScanTakes(s: Shared, now: int, due: seq<Id>, dropped: set<Id>, wait: int, sid: Sid)
    requires s.queue <= s.PendingOf(sid) && forall id :: id in s.PendingOf(sid) ==> !s.dels[id].canceled
    requires ScanSpec(s, now, due, dropped, wait)
    ensures dropped == {} && (forall id :: id in due ==> id in s.queue && s.dels[id].fireAt <= now)
    ensures forall i, j :: 0 <= i < j < |due| ==> due[i] != due[j] && NotLater(s, due[i], due[j])
    ensures due != [] ==> forall id :: id in s.queue && id !in due ==> s.dels[id].fireAt >= now
  {
  }

  lemma ScanPending(s: Shared, due: seq<Id>, dropped: set<Id>, sid: Sid)
    requires forall id :: id in due ==> id in s.dels
    ensures Scan(s, due, dropped).PendingOf(sid) == s.PendingOf(sid)
  {
  }

  lemma ScanView<E>(s: Shared, due: seq<Id>, dropped: set<Id>, sid: Sid, env: E)
    requires forall id :: id in due ==> id in s.dels
    ensures View(Scan(s, due, dropped), sid, env) == View(s, sid, env) && Scan(s, due, dropped).offsets == s.offsets
  {
    ScanPending(s, due, dropped, sid);
  }

  lemma {:induction false} ScheduleAllQueues<E>(w: World<E>, s: Shared, sid: Sid, rs: seq<Request>, now: int)
    requires FreshIds(w, s) && sid != "" && sid !in s.exclusive
    ensures ScheduleAll(w, s, sid, rs, now).queue == s.queue + (ScheduleAll(w, s, sid, rs, now).dels.Keys - s.dels.Keys)
    ensures s.dels.Keys <= ScheduleAll(w, s, sid, rs, now).dels.Keys
    decreases |rs|
  {
    if rs != [] {
      ScheduleAllQueues(w, Schedule(w, s, sid, rs[0], now), sid, rs[1..], now);
    }
  }

  /** One attempt on a session nobody drives: `id` is back in the heap exactly if
      it is still pending, and so is everything its callback scheduled. */
  ghost predicate Worked(s: Shared, t: Shared, sid: Sid, id: Id, at: int)
    requires id in s.dels
  {
    && t.offsets == s.offsets && t.exclusive == s.exclusive && t.pending <= t.dels.Keys && s.dels.Keys <= t.dels.Keys
    && (forall j :: j in s.dels && j != id ==> t.dels[j] == s.dels[j] && (j in t.pending <==> j in s.pending) && (j in t.queue <==> j in s.queue))
    && t.dels[id].sid == sid && t.dels[id].canceled == s.dels[id].canceled
    && (id in t.queue <==> id in t.pending) && (id in t.pending ==> t.dels[id].fireAt >= at)
    && (forall j :: j in t.dels && j !in s.dels ==>
          t.dels[j].sid == sid && !t.dels[j].canceled && t.dels[j].fireAt >= at && j in t.pending && j in t.queue)
    && t.queue <= t.dels.Keys
  }

  lemma AttemptWorks<E(!new)>(w: World<E>, s: Shared, sid: Sid, id: Id, at: int)
    requires Forward(w) && sid != "" && sid !in s.exclusive && s.pending <= s.dels.Keys
    requires s.queue <= s.dels.Keys && id in s.PendingOf(sid) && id !in s.queue
    ensures Worked(s, Attempted(w, s, id, at), sid, id, at)
  {
    hide Attempted;
    AttemptTries(w, s, id, at);
    AttemptQueues(w, s, id, at);
  }

  lemma AttemptQueues<E>(w: World<E>, s: Shared, id: Id, at: int)
    requires id in s.dels && s.dels[id].sid !in s.exclusive && id in s.pending && id !in s.queue
    ensures var t := Attempted(w, s, id, at);
      t.queue == if id in t.pending then s.queue + {id} else s.queue
  {
  }

  lemma FollowWorks<E(!new)>(w: World<E>, s: Shared, env: E, sid: Sid, id: Id, at: int)
    requires Forward(w) && FreshIds(w, s) && sid != "" && sid !in s.exclusive && s.pending <= s.dels.Keys && s.queue <= s.dels.Keys
    requires id in s.dels && s.dels[id].sid == sid && (id in s.queue <==> id in s.pending) && (id in s.pending ==> s.dels[id].fireAt >= at)
    ensures Worked(s, Followed(w, s, env, id, at).0, sid, id, at) && FreshIds(w, Followed(w, s, env, id, at).0)
  {
    hide ScheduleAll, FreshIds, Grew;
    var d := s.dels[id];
    if d.attempts == 1 && d.onFirst.Some? && !d.firstFired {
      var s1 := MarkFirst(s, id);
      SameFresh(w, s, s1);
      var rs := w.react(env, d.onFirst.value, at, s.Off(sid), |s.PendingOf(sid)|).1;
      ScheduleAllGrows(w, s1, sid, rs, at);
      ScheduleAllQueues(w, s1, sid, rs, at);
      GrewWorks(s, s1, ScheduleAll(w, s1, sid, rs, at), sid, id, at);
    }
  }

  lemma GrewWorks(s: Shared, s1: Shared, t: Shared, sid: Sid, id: Id, at: int)
    requires sid != "" && s.pending <= s.dels.Keys && s.queue <= s.dels.Keys
    requires id in s.dels && s.dels[id].sid == sid && (id in s.queue <==> id in s.pending) && (id in s.pending ==> s.dels[id].fireAt >= at)
    requires s1 == MarkFirst(s, id) && Grew(s1, t, sid, at) && t.queue == s.queue + (t.dels.Keys - s.dels.Keys)
    ensures Worked(s, t, sid, id, at)
  {
  }

  lemma WorkedTrans(s: Shared, t: Shared, u: Shared, sid: Sid, id: Id, at: int)
    requires id in s.dels && Worked(s, t, sid, id, at) && t.dels.Keys == s.dels.Keys && Worked(t, u, sid, id, at)
    ensures Worked(s, u, sid, id, at)
  {
  }

  lemma FireWorks<E(!new)>(w: World<E>, s: Shared, env: E, sid: Sid, id: Id, at: int)
    requires Forward(w) && FreshIds(w, s) && sid != "" && sid !in s.exclusive && s.pending <= s.dels.Keys
    requires s.queue <= s.dels.Keys && id in s.PendingOf(sid) && id !in s.queue && !s.dels[id].canceled
    ensures Worked(s, Fire(w, s, env, id, at).s, sid, id, at) && FreshIds(w, Fire(w, s, env, id, at).s)
  {
    hide Attempted, Followed, FreshIds, Forward, Worked, ScheduleAll;
    var s1 := Attempted(w, s, id, at);
    AttemptWorks(w, s, sid, id, at);
    AttemptedIs(w, s, sid, id, at);
    SameFresh(w, s, s1);
    FollowWorks(w, s1, env, sid, id, at);
    WorkedTrans(s, s1, Followed(w, s1, env, id, at).0, sid, id, at);
  }

  /** The facts FollowWorks asks for. */
  lemma AttemptedIs<E(!new)>(w: World<E>, s: Shared, sid: Sid, id: Id, at: int)
    requires id in s.dels && s.dels[id].sid == sid && Worked(s, Attempted(w, s, id, at), sid, id, at)
    ensures var t := Attempted(w, s, id, at);
      && t.dels.Keys == s.dels.Keys && t.issued == s.issued && t.exclusive == s.exclusive && t.pending <= t.dels.Keys && t.queue <= t.dels.Keys
      && t.dels[id].sid == sid && (id in t.queue <==> id in t.pending) && (id in t.pending ==> t.dels[id].fireAt >= at)
  {
    hide Attempted;
    AttemptTries(w, s, id, at);
  }

  /** The head of the batch is the agenda's first. */
  lemma HeadIsFirst<E>(x: Wall<E>, sid: Sid)
    requires Inv(x, sid) && x.batch != [] && Distinct(View(x.s, sid, x.env).agenda)
    ensures var id := x.batch[0];
      id in x.s.PendingOf(sid) && VFirst(View(x.s, sid, x.env).agenda, id) && id !in x.s.queue && x.s.dels[id].fireAt <= x.now
  {
    var id := x.batch[0];
    forall j | j in x.s.PendingOf(sid) && j != id ensures x.s.dels[id].fireAt <= x.s.dels[j].fireAt {
      if j !in x.s.queue {
        var k :| 0 <= k < |x.batch| && x.batch[k] == j;
      }
    }
    assert View(x.s, sid, x.env).agenda.Keys == x.s.PendingOf(sid);
  }

  lemma WorkKeeps<E>(w: World<E>, x: Wall<E>, y: Wall<E>, sid: Sid)
    requires Inv(x, sid) && Works(w, x, y)
    requires Worked(x.s, y.s, sid, x.batch[0], x.now)
    ensures Inv(y, sid)
  {
    hide Fire;
    var id := x.batch[0];
    assert y.batch == x.batch[1..];
    assert y.now == x.now;
    BatchTail(x.batch);
    WorkedPending(x.s, y.s, sid, id, x.now, x.batch, y.batch);
    hide Works;
  }

  lemma BatchTail(batch: seq<Id>)
    requires batch != []
    ensures forall j :: j in batch <==> j == batch[0] || j in batch[1..]
  {
    assert batch == [batch[0]] + batch[1..];
  }

  lemma WorkedPending(s: Shared, t: Shared, sid: Sid, id: Id, at: int, batch: seq<Id>, rest: seq<Id>)
    requires id in s.dels && Worked(s, t, sid, id, at) && id in s.PendingOf(sid) && s.pending <= s.dels.Keys
    requires s.PendingOf(sid) == s.queue + (set j | j in batch) && id !in rest
    requires forall j :: j in batch <==> j == id || j in rest
    ensures t.PendingOf(sid) == t.queue + (set j | j in rest)
  {
    forall j ensures j in t.PendingOf(sid) <==> j in t.queue || j in rest {
      if j in s.dels && j != id {
        assert j in s.PendingOf(sid) <==> j in s.queue || j in rest;
      }
      if j in rest { assert j in s.PendingOf(sid); }
    }
  }

  // ---------- waiting is the reference machine ----------

  function SessionNow<E>(x: Wall<E>, sid: Sid): int { x.now + x.s.Off(sid) }

  lemma WorkSim<E(!new)>(w: World<E>, x: Wall<E>, y: Wall<E>, sid: Sid, end: int, n: nat)
    requires SessionTimed(w) && Forward(w) && FreshIds(w, x.s) && Inv(x, sid) && Works(w, x, y) && n > 0 && SessionNow(x, sid) <= end
    requires NoTies(w, View(x.s, sid, x.env), SessionNow(x, sid), end, n)
    ensures Inv(y, sid) && FreshIds(w, y.s) && SessionNow(y, sid) == SessionNow(x, sid)
    ensures NoTies(w, View(y.s, sid, y.env), SessionNow(y, sid), end, n - 1)
    ensures |y.fired| == |x.fired| + 1 && y.fired[..|x.fired|] == x.fired
    ensures var rest := VRun(w, View(y.s, sid, y.env), SessionNow(y, sid), end, n - 1);
      VRun(w, View(x.s, sid, x.env), SessionNow(x, sid), end, n) == rest.(fired := [y.fired[|x.fired|]] + rest.fired)
  {
    hide Fire, VFire, VRun, View, Inv, Distinct, VFirst, Forward, FreshIds, Worked, SessionTimed;
    var id := x.batch[0];
    HeadIsFirst(x, sid);
    InvParts(x, sid);
    FireWorks(w, x.s, x.env, sid, id, x.now);
    WorkKeeps(w, x, y, sid);
    WorkedOff(x.s, y.s, sid, id, x.now);
    FireSim(w, x.s, x.env, sid, id, x.now);
    ViewDue(x.s, sid, id, x.env);
    VRunGoes(w, View(x.s, sid, x.env), SessionNow(x, sid), end, n, id, SessionNow(x, sid));
  }

  lemma InvParts<E>(x: Wall<E>, sid: Sid)
    requires Inv(x, sid)
    ensures sid != "" && sid !in x.s.exclusive && x.s.pending <= x.s.dels.Keys && x.s.queue <= x.s.dels.Keys
    ensures forall id :: id in x.s.PendingOf(sid) ==> !x.s.dels[id].canceled
  {
  }

  lemma WorkedOff(s: Shared, t: Shared, sid: Sid, id: Id, at: int)
    requires id in s.dels && Worked(s, t, sid, id, at)
    ensures t.offsets == s.offsets
  {
  }

  lemma ViewDue<E>(s: Shared, sid: Sid, id: Id, env: E)
    requires id in s.PendingOf(sid)
    ensures id in View(s, sid, env).agenda && View(s, sid, env).agenda[id].fireAt == s.dels[id].fireAt + s.Off(sid)
  {
  }

  /** Passing time before anything is due changes nothing for the reference machine. */
  lemma VRunLater<E>(w: World<E>, v: Virtual<E>, now: int, later: int, end: int, n: nat)
    requires now <= later && forall id :: VFirst(v.agenda, id) ==> v.agenda[id].fireAt >= later
    ensures VRun(w, v, now, end, n) == VRun(w, v, later, end, n)
    ensures NoTies(w, v, now, end, n) ==> NoTies(w, v, later, end, n)
  {
    hide VFire, VFirst, Distinct;
  }

  lemma TickSim<E>(w: World<E>, x: Wall<E>, y: Wall<E>, sid: Sid, stop: int, end: int, n: nat)
    requires Inv(x, sid) && Ticks(x, y, stop) && NoTies(w, View(x.s, sid, x.env), SessionNow(x, sid), end, n)
    ensures Inv(y, sid) && y.fired == x.fired && View(y.s, sid, y.env) == View(x.s, sid, x.env)
    ensures NoTies(w, View(y.s, sid, y.env), SessionNow(y, sid), end, n)
    ensures VRun(w, View(x.s, sid, x.env), SessionNow(x, sid), end, n) == VRun(w, View(y.s, sid, y.env), SessionNow(y, sid), end, n)
  {
    hide VRun, NoTies;
    forall id | VFirst(View(x.s, sid, x.env).agenda, id) ensures View(x.s, sid, x.env).agenda[id].fireAt >= SessionNow(y, sid) {
      assert id in x.s.PendingOf(sid);
      assert id in x.s.queue;
    }
    VRunLater(w, View(x.s, sid, x.env), SessionNow(x, sid), SessionNow(y, sid), end, n);
  }

  /** From any point of a waiting run, the rest of the run is what the reference
      machine does from there. */
  lemma {:induction false} WaitIsVirtual<E(!new)>(w: World<E>, xs: seq<Wall<E>>, k: nat, sid: Sid, stop: int, n: nat)
    requires SessionTimed(w) && Forward(w) && Waits(w, xs, stop) && k < |xs| && FreshIds(w, xs[k].s) && Inv(xs[k], sid) && xs[k].now <= stop
    requires NoTies(w, View(xs[k].s, sid, xs[k].env), SessionNow(xs[k], sid), stop + xs[k].s.Off(sid), n)
    requires |xs[|xs| - 1].fired| - |xs[k].fired| < n
    ensures var x, z := xs[k], xs[|xs| - 1];
      var v := VRun(w, View(x.s, sid, x.env), SessionNow(x, sid), stop + x.s.Off(sid), n);
      v.done && z.fired == x.fired + v.fired && v.v == View(z.s, sid, z.env) && z.s.offsets == x.s.offsets
    decreases |xs| - k
  {
    hide VRun, NoTies, View, Inv, Forward, FreshIds, Ticks, Scans, Works, SessionTimed;
    var x, end := xs[k], stop + xs[k].s.Off(sid);
    if k == |xs| - 1 {
      AtEnd(w, x, sid, stop, n);
    } else {
      var y := xs[k + 1];
      if Ticks(x, y, stop) {
        TicksOnly(x, y, stop);
        TickSim(w, x, y, sid, stop, end, n);
        WaitIsVirtual(w, xs, k + 1, sid, stop, n);
      } else if Works(w, x, y) {
        FiredGrows(w, xs, k + 1, stop);
        WorksOnly(w, x, y);
        WorkSim(w, x, y, sid, end, n);
        OffOf(w, x, y, sid);
        WaitIsVirtual(w, xs, k + 1, sid, stop, n - 1);
        var rest := VRun(w, View(y.s, sid, y.env), SessionNow(y, sid), end, n - 1);
        assert x.fired + ([y.fired[|x.fired|]] + rest.fired) == y.fired + rest.fired;
      } else {
        var dropped, wait :| Scans(x, y, dropped, wait);
        ScansOnly(w, x, y, dropped, wait, sid);
        ScanKeeps(x, y, dropped, wait, sid);
        WaitIsVirtual(w, xs, k + 1, sid, stop, n);
      }
    }
  }

  lemma AtEnd<E>(w: World<E>, x: Wall<E>, sid: Sid, stop: int, n: nat)
    requires Inv(x, sid) && x.batch == [] && x.now == stop && n > 0
    requires forall id :: id in x.s.queue && id in x.s.dels ==> x.s.dels[id].fireAt > stop
    ensures VRun(w, View(x.s, sid, x.env), SessionNow(x, sid), stop + x.s.Off(sid), n) == VOutcome(View(x.s, sid, x.env), [], true)
  {
    hide VRun;
    forall id | VFirst(View(x.s, sid, x.env).agenda, id) ensures View(x.s, sid, x.env).agenda[id].fireAt > stop + x.s.Off(sid) {
      assert id in x.s.PendingOf(sid);
    }
    VRunStops(w, View(x.s, sid, x.env), SessionNow(x, sid), stop + x.s.Off(sid), n);
  }

  lemma TicksOnly<E>(x: Wall<E>, y: Wall<E>, stop: int)
    requires Ticks(x, y, stop)
    ensures y.s == x.s && y.now <= stop
  {
  }

  lemma WorksOnly<E>(w: World<E>, x: Wall<E>, y: Wall<E>)
    requires Works(w, x, y)
    ensures y.now == x.now && |y.fired| == |x.fired| + 1
  {
    hide Fire;
  }

  lemma OffOf<E(!new)>(w: World<E>, x: Wall<E>, y: Wall<E>, sid: Sid)
    requires SessionTimed(w) && Works(w, x, y) && Inv(x, sid)
    ensures y.s.offsets == x.s.offsets
  {
    hide Fire;
    InvParts(x, sid);
    FireSim(w, x.s, x.env, sid, x.batch[0], x.now);
  }

  lemma ScansOnly<E>(w: World<E>, x: Wall<E>, y: Wall<E>, dropped: set<Id>, wait: int, sid: Sid)
    requires Scans(x, y, dropped, wait)
    ensures y.now == x.now && y.fired == x.fired && y.env == x.env && y.s.offsets == x.s.offsets
    ensures View(y.s, sid, y.env) == View(x.s, sid, x.env) && (FreshIds(w, x.s) ==> FreshIds(w, y.s))
  {
    hide View;
    assert forall id :: id in y.batch ==> id in x.s.dels;
    ScanView(x.s, y.batch, dropped, sid, x.env);
  }

  /** The record of a run only grows. */
  lemma {:induction false} FiredGrows<E>(w: World<E>, xs: seq<Wall<E>>, k: nat, stop: int)
    requires Waits(w, xs, stop) && k < |xs|
    ensures |xs[k].fired| <= |xs[|xs| - 1].fired|
    decreases |xs| - k
  {
    hide Fire;
    if k < |xs| - 1 {
      assert Step(w, xs[k], xs[k + 1], stop);
      FiredGrows(w, xs, k + 1, stop);
    }
  }

  // ---------- the law ----------

  /** Advance(span) at a standing wall clock, and any run of the scheduler over
      `span` of wall time: the same attempts of the same deliveries, with the
      same numbers, answers and session times, in the same order; the same
      scenario afterwards; and the same deliveries left, due at the same session
      times. */
  lemma AdvancingEqualsWaiting<E(!new)>(w: World<E>, s: Shared, env: E, sid: Sid, span: nat, xs: seq<Wall<E>>)
    requires SessionTimed(w) && Forward(w) && Frozen(w) && FreshIds(w, s) && Alone(s, sid)
    requires Waits(w, xs, w.clock(0) + span) && xs[0] == Wall(s, env, w.clock(0), [], [])
    requires |xs[|xs| - 1].fired| < CAP
    requires NoTies(w, View(s, sid, env), w.clock(0) + s.Off(sid), w.clock(0) + span + s.Off(sid), CAP)
    ensures var o, z := Advance(w, s, env, sid, span), xs[|xs| - 1];
      && !o.partial && o.fired == z.fired
      && View(o.s, sid, o.env) == View(z.s, sid, z.env)
      && w.clock(0) + o.s.Off(sid) == z.now + z.s.Off(sid)
  {
    hide VRun, NoTies, View, AdvanceLoop, Finish, Driven, Inv, Forward, FreshIds, Frozen, Alone, Acquire, Release, SessionTimed;
    var s1 := Acquire(s, sid);
    AloneStarts(s, env, sid, w.clock(0));
    WaitIsVirtual(w, xs, 0, sid, w.clock(0) + span, CAP);
    IdleOf(s, sid);
    AcquireDrives(s, sid);
    AcquireFresh(w, s, sid);
    AcquireView(s, sid, env);
    AdvanceIsVirtual(w, s1, env, sid, span, []);
    var o := AdvanceLoop(w, s1, env, sid, span, []);
    LoopEndsThere(w, s1, env, sid, span);
    FinishView(o, sid);
    ReleaseView(Finish(o, sid), sid, o.env);
    WaitOff(xs[|xs| - 1].s, s, sid);
  }

  lemma IdleOf(s: Shared, sid: Sid)
    requires Alone(s, sid)
    ensures Idle(s, sid)
  {
  }

  lemma AloneStarts<E>(s: Shared, env: E, sid: Sid, now: int)
    requires Alone(s, sid)
    ensures Inv(Wall(s, env, now, [], []), sid)
  {
  }

  lemma AcquireView<E>(s: Shared, sid: Sid, env: E)
    ensures View(Acquire(s, sid), sid, env) == View(s, sid, env) && Acquire(s, sid).Off(sid) == s.Off(sid)
  {
    assert Acquire(s, sid).PendingOf(sid) == s.PendingOf(sid);
  }

  lemma ReleaseView<E>(s: Shared, sid: Sid, env: E)
    requires sid !in s.gone
    ensures View(Release(s, sid), sid, env) == View(s, sid, env) && Release(s, sid).Off(sid) == s.Off(sid)
  {
    assert Release(s, sid).PendingOf(sid) == s.PendingOf(sid);
  }

  lemma WaitOff(z: Shared, s: Shared, sid: Sid)
    requires z.offsets == s.offsets
    ensures z.Off(sid) == s.Off(sid)
  {
  }

  lemma LoopEndsThere<E(!new)>(w: World<E>, s: Shared, env: E, sid: Sid, span: nat)
    requires Forward(w) && FreshIds(w, s) && Driven(s, sid)
    ensures var o := AdvanceLoop(w, s, env, sid, span, []);
      && Driven(o.s, sid) && o.remaining >= 0 && o.s.Off(sid) + o.remaining == s.Off(sid) + span
  {
    hide AdvanceLoop, Driven, Forward, FreshIds, Swept, InOrder;
    EmptyInOrder();
    LoopEnds(w, s, env, sid, span, []);
  }

  lemma FinishView<E>(o: Outcome<E>, sid: Sid)
    requires Driven(o.s, sid) && o.remaining >= 0
    ensures View(Finish(o, sid), sid, o.env) == View(o.s, sid, o.env) && sid !in Finish(o, sid).gone
    ensures !o.partial ==> Finish(o, sid).Off(sid) == o.s.Off(sid) + o.remaining
  {
    hide Shift, View, Numbered;
    ShiftView(o.s, sid, o.remaining, o.env);
    ShiftKeepsDue(o.s, sid, o.remaining);
    ShiftKeepsOthers(o.s, sid, o.remaining);
  }
}
