/** A reference machine for one session: it knows neither wall clock nor heap,
    lives in session time and always takes the first delivery. Advance, round
    for round, is this machine. */
module SessionTime {
  import opened Model
  import opened Replay
  import opened ReplayOrder
  import opened Compose

  // ---------- the reference machine ----------

  /** The session's pending deliveries with `fireAt` in session time. */
  datatype Virtual<E> = Virtual(agenda: map<Id, Del>, issued: nat, env: E)

  datatype VAfter<E> = VAfter(v: Virtual<E>, fired: Fired)

  datatype VOutcome<E> = VOutcome(v: Virtual<E>, fired: seq<Fired>, done: bool)

  function VSchedule<E>(w: World<E>, v: Virtual<E>, sid: Sid, r: Request, at: int): Virtual<E> {
    v.(agenda := v.agenda[w.newID(v.issued + 1) := Draft(sid, r, at).(ord := v.issued + 1)], issued := v.issued + 1)
  }

  function VScheduleAll<E>(w: World<E>, v: Virtual<E>, sid: Sid, rs: seq<Request>, at: int): Virtual<E>
    decreases |rs|
  {
    if rs == [] then v else VScheduleAll(w, VSchedule(w, v, sid, rs[0], at), sid, rs[1..], at)
  }

  /** Reactions see wall clock and offset only through their sum, the session time. */
  ghost predicate SessionTimed<E(!new)>(w: World<E>) {
    forall e, g, at, off, n :: w.react(e, g, at, off, n) == w.react(e, g, at + off, 0, n)
  }

  /** A failed attempt with tries left stays on the agenda, any other leaves it. */
  function VAttempt<E>(w: World<E>, v: Virtual<E>, id: Id, at: int): map<Id, Del>
    requires id in v.agenda
  {
    var d := v.agenda[id];
    var num := d.attempts + 1;
    if Verdict(num, d.maxAttempts, w.answer(id, num, at)) == Retrying
    then v.agenda[id := d.(attempts := num, fireAt := at + w.retry(id, num))]
    else v.agenda - {id}
  }

  function VFollow<E>(w: World<E>, v: Virtual<E>, d: Del, id: Id, at: int): Virtual<E> {
    if d.attempts == 0 && d.onFirst.Some? && !d.firstFired then
      var (env1, rs) := w.react(v.env, d.onFirst.value, at, 0, |v.agenda|);
      var marked := if id in v.agenda then v.agenda[id := v.agenda[id].(firstFired := true)] else v.agenda;
      VScheduleAll(w, v.(agenda := marked, env := env1), d.sid, rs, at)
    else v
  }

  function VFire<E>(w: World<E>, v: Virtual<E>, id: Id, at: int): VAfter<E>
    requires id in v.agenda
  {
    var d := v.agenda[id];
    var num := d.attempts + 1;
    VAfter(VFollow(w, v.(agenda := VAttempt(w, v, id, at)), d, id, at),
           Fired(id, d.event, at, num, Verdict(num, d.maxAttempts, w.answer(id, num, at)), d.fireAt, d.ord))
  }

  ghost predicate VFirst(a: map<Id, Del>, id: Id) {
    id in a && forall j :: j in a && j != id ==> Before(a[id], a[j])
  }

  /** Runs the agenda until session time `end`, with at most `n` attempts. */
  ghost function VRun<E>(w: World<E>, v: Virtual<E>, clock: int, end: int, n: nat): VOutcome<E>
    decreases n
  {
    if n == 0 then VOutcome(v, [], false)
    else if id :| VFirst(v.agenda, id) && v.agenda[id].fireAt <= end then
      var at := if clock < v.agenda[id].fireAt then v.agenda[id].fireAt else clock;
      var r := VFire(w, v, id, at);
      var rest := VRun(w, r.v, at, end, n - 1);
      rest.(fired := [r.fired] + rest.fired)
    else VOutcome(v, [], true)
  }

  // ---------- the dispatcher's session, seen in session time ----------

  function Timed(s: Shared, id: Id): Del
    requires id in s.dels
  {
    s.dels[id].(fireAt := s.Due(id), running := false)
  }

  function Agenda(s: Shared, sid: Sid): map<Id, Del> {
    map id | id in s.PendingOf(sid) :: Timed(s, id)
  }

  function View<E>(s: Shared, sid: Sid, env: E): Virtual<E> {
    Virtual(Agenda(s, sid), s.issued, env)
  }

  lemma AgendaPut(s: Shared, t: Shared, sid: Sid, id: Id, d: Del)
    requires t.offsets == s.offsets && t.dels == s.dels[id := d] && t.pending == s.pending + {id} && d.sid == sid
    ensures Agenda(t, sid) == Agenda(s, sid)[id := d.(fireAt := d.fireAt + s.Off(sid), running := false)]
  {
    assert t.PendingOf(sid) == s.PendingOf(sid) + {id};
  }

  lemma AgendaDrop(s: Shared, t: Shared, sid: Sid, id: Id, d: Del)
    requires t.offsets == s.offsets && t.dels == s.dels[id := d] && t.pending == s.pending - {id} && d.sid == sid
    ensures Agenda(t, sid) == Agenda(s, sid) - {id}
  {
    assert t.PendingOf(sid) == s.PendingOf(sid) - {id};
  }

  lemma ScheduleSim<E>(w: World<E>, s: Shared, sid: Sid, r: Request, now: int, env: E)
    requires sid != ""
    ensures View(Schedule(w, s, sid, r, now), sid, env) == VSchedule(w, View(s, sid, env), sid, r, now + s.Off(sid))
    ensures Schedule(w, s, sid, r, now).offsets == s.offsets
  {
    hide Agenda;
    var id := w.newID(s.issued + 1);
    AgendaPut(s, Schedule(w, s, sid, r, now), sid, id, Draft(sid, r, now).(ord := s.issued + 1));
  }

  lemma {:induction false} ScheduleAllSim<E>(w: World<E>, s: Shared, sid: Sid, rs: seq<Request>, now: int, env: E)
    requires sid != ""
    ensures View(ScheduleAll(w, s, sid, rs, now), sid, env) == VScheduleAll(w, View(s, sid, env), sid, rs, now + s.Off(sid))
    ensures ScheduleAll(w, s, sid, rs, now).offsets == s.offsets
    decreases |rs|
  {
    hide View, Schedule, VSchedule;
    if rs != [] {
      ScheduleSim(w, s, sid, rs[0], now, env);
      ScheduleAllSim(w, Schedule(w, s, sid, rs[0], now), sid, rs[1..], now, env);
    }
  }

  lemma AttemptSim<E>(w: World<E>, s: Shared, sid: Sid, id: Id, at: int, env: E)
    requires id in s.PendingOf(sid)
    ensures var t := Attempted(w, s, id, at);
      && Agenda(t, sid) == VAttempt(w, View(s, sid, env), id, at + s.Off(sid))
      && t.issued == s.issued && t.offsets == s.offsets && id in t.dels
      && t.dels[id].sid == sid && t.dels[id].attempts == s.dels[id].attempts + 1
      && t.dels[id].onFirst == s.dels[id].onFirst && t.dels[id].firstFired == s.dels[id].firstFired
  {
    hide Answer, Settle, Agenda;
    var d := s.dels[id];
    var num, next := d.attempts + 1, at + w.retry(id, d.attempts + 1);
    AnswerSettles(Begin(s, id), id, Try(num, at, w.answer(id, num, at + s.Off(d.sid))), next);
    var t := Attempted(w, s, id, at);
    if id in t.pending {
      assert s.pending + {id} == s.pending;
      AgendaPut(s, t, sid, id, t.dels[id]);
    } else {
      AgendaDrop(s, t, sid, id, t.dels[id]);
    }
    AgendaAt(s, sid, id);
  }

  lemma AgendaAt(s: Shared, sid: Sid, id: Id)
    requires id in s.PendingOf(sid)
    ensures id in Agenda(s, sid) && Agenda(s, sid)[id] == s.dels[id].(fireAt := s.dels[id].fireAt + s.Off(sid), running := false)
  {
  }

  lemma MarkFirstSim<E>(s: Shared, sid: Sid, id: Id, env: E)
    requires id in s.dels && s.dels[id].sid == sid
    ensures var a := Agenda(s, sid);
      Agenda(MarkFirst(s, id), sid) == if id in a then a[id := a[id].(firstFired := true)] else a
    ensures MarkFirst(s, id).issued == s.issued && MarkFirst(s, id).offsets == s.offsets
  {
    hide Agenda;
    var t := MarkFirst(s, id);
    if id in s.pending {
      assert s.pending + {id} == s.pending;
      AgendaPut(s, t, sid, id, t.dels[id]);
      AgendaAt(s, sid, id);
    } else {
      assert s.pending - {id} == s.pending;
      AgendaDrop(s, t, sid, id, t.dels[id]);
      AgendaNot(s, sid, id);
    }
  }

  lemma AgendaNot(s: Shared, sid: Sid, id: Id)
    requires id !in s.pending
    ensures id !in Agenda(s, sid) && Agenda(s, sid) - {id} == Agenda(s, sid)
  {
  }

  lemma AgendaSize(s: Shared, sid: Sid)
    ensures |Agenda(s, sid)| == |s.PendingOf(sid)|
  {
    assert Agenda(s, sid).Keys == s.PendingOf(sid);
  }

  lemma FollowSim<E(!new)>(w: World<E>, s: Shared, env: E, sid: Sid, id: Id, at: int, d: Del)
    requires SessionTimed(w) && sid != "" && id in s.dels && s.dels[id].sid == sid && d.sid == sid
    requires s.dels[id].attempts == d.attempts + 1 && s.dels[id].onFirst == d.onFirst && s.dels[id].firstFired == d.firstFired
    ensures var (t, env1) := Followed(w, s, env, id, at);
      View(t, sid, env1) == VFollow(w, View(s, sid, env), d, id, at + s.Off(sid)) && t.offsets == s.offsets
  {
    hide ScheduleAll, VScheduleAll, Agenda, MarkFirst;
    AgendaSize(s, sid);
    MarkFirstSim(s, sid, id, env);
    if d.attempts == 0 && d.onFirst.Some? && !d.firstFired {
      var (env1, rs) := w.react(env, d.onFirst.value, at, s.Off(sid), |s.PendingOf(sid)|);
      ScheduleAllSim(w, MarkFirst(s, id), sid, rs, at, env1);
    }
  }

  /** One attempt, from the dispatcher and from the agenda. */
  lemma FireSim<E(!new)>(w: World<E>, s: Shared, env: E, sid: Sid, id: Id, at: int)
    requires SessionTimed(w) && sid != "" && id in s.PendingOf(sid) && !s.dels[id].canceled
    ensures var r := Fire(w, s, env, id, at);
      var v := VFire(w, View(s, sid, env), id, at + s.Off(sid));
      && View(r.s, sid, r.env) == v.v && r.fired == v.fired && r.s.offsets == s.offsets
  {
    hide Attempted, Followed, VFollow, VAttempt, SessionTimed;
    AttemptSim(w, s, sid, id, at, env);
    FollowSim(w, Attempted(w, s, id, at), env, sid, id, at, Timed(s, id));
  }

  // ---------- Advance is the reference machine ----------

  lemma FirstSim(s: Shared, sid: Sid, id: Id)
    requires Driven(s, sid)
    ensures VFirst(Agenda(s, sid), id) <==> IsFirst(s, Eligible(s, sid), id)
  {
    assert Eligible(s, sid) == s.PendingOf(sid);
    assert Agenda(s, sid).Keys == s.PendingOf(sid);
    forall j | j in s.PendingOf(sid) ensures Agenda(s, sid)[j] == s.dels[j].(fireAt := s.dels[j].fireAt + s.Off(sid), running := false) {
      AgendaAt(s, sid, j);
    }
    hide Agenda, Eligible, Numbered;
  }

  lemma VRunStops<E>(w: World<E>, v: Virtual<E>, clock: int, end: int, n: nat)
    requires n > 0 && forall id :: VFirst(v.agenda, id) ==> v.agenda[id].fireAt > end
    ensures VRun(w, v, clock, end, n) == VOutcome(v, [], true)
  {
  }

  lemma VRunGoes<E>(w: World<E>, v: Virtual<E>, clock: int, end: int, n: nat, id: Id, at: int)
    requires n > 0 && VFirst(v.agenda, id) && v.agenda[id].fireAt <= end
    requires at == if clock < v.agenda[id].fireAt then v.agenda[id].fireAt else clock
    ensures var r := VFire(w, v, id, at);
      var rest := VRun(w, r.v, at, end, n - 1);
      VRun(w, v, clock, end, n) == rest.(fired := [r.fired] + rest.fired)
  {
    hide VFire;
  }

  lemma ShiftView<E>(s: Shared, sid: Sid, step: nat, env: E)
    requires s.pending <= s.dels.Keys
    ensures View(Shift(s, sid, step), sid, env) == View(s, sid, env)
  {
    hide Shift;
    ShiftKeepsDue(s, sid, step);
    ShiftKeepsOthers(s, sid, step);
  }

  lemma MarkView<E>(s: Shared, sid: Sid, id: Id, env: E)
    requires id in s.dels
    ensures View(Mark(s, id), sid, env) == View(s, sid, env) && Mark(s, id).PendingOf(sid) == s.PendingOf(sid)
    ensures Mark(s, id).offsets == s.offsets && Mark(s, id).dels[id] == s.dels[id].(running := true)
  {
    assert Mark(s, id).PendingOf(sid) == s.PendingOf(sid);
  }

  /** One round of Advance is one step of the reference machine. */
  lemma RoundSim<E(!new)>(w: World<E>, s: Shared, env: E, sid: Sid, id: Id)
    requires SessionTimed(w) && Frozen(w) && Driven(s, sid) && id in s.PendingOf(sid)
    ensures var step := StepTo(w.clock(0), s.dels[id].fireAt);
      var r := Round(w, s, env, sid, id, step, 0);
      var at := w.clock(0) + s.Off(sid) + step;
      && id in Agenda(s, sid)
      && View(r.s, sid, r.env) == VFire(w, View(s, sid, env), id, at).v
      && r.fired == VFire(w, View(s, sid, env), id, at).fired
      && r.s.Off(sid) == s.Off(sid) + step
  {
    hide Shift, Mark, Fire, VFire, View, Numbered, SessionTimed;
    var step: nat := StepTo(w.clock(0), s.dels[id].fireAt);
    var s1 := Shift(s, sid, step);
    ShiftKeepsDue(s, sid, step);
    ShiftKeepsOthers(s, sid, step);
    ShiftView(s, sid, step, env);
    MarkView(s1, sid, id, env);
    AgendaAt(s, sid, id);
    ViewAgenda(s, sid, env);
    FireSim(w, Mark(s1, id), env, sid, id, w.clock(1));
    assert w.clock(1) == w.clock(0);
  }

  lemma ViewAgenda<E>(s: Shared, sid: Sid, env: E)
    ensures View(s, sid, env).agenda == Agenda(s, sid)
  {
  }

  lemma {:induction false} AdvanceIsVirtual<E(!new)>(w: World<E>, s: Shared, env: E, sid: Sid, remaining: nat, fired: seq<Fired>)
    requires SessionTimed(w) && Frozen(w) && Forward(w) && FreshIds(w, s) && Driven(s, sid) && |fired| <= CAP
    ensures var o := AdvanceLoop(w, s, env, sid, remaining, fired);
      var now := w.clock(0) + s.Off(sid);
      var v := VRun(w, View(s, sid, env), now, now + remaining, CAP - |fired|);
      && o.fired == fired + v.fired && o.partial == !v.done && View(o.s, sid, o.env) == v.v
    decreases CAP - |fired|
  {
    hide AdvanceLoop, VRun, View, Round, VFire, First, VFirst, IsFirst, Driven, Forward, FreshIds, Frozen, StepTo, SessionTimed;
    var now := w.clock(0) + s.Off(sid);
    if |fired| == CAP {
      AtCap(w, s, env, sid, remaining, fired, now);
    } else {
      LoopUnfolds(w, s, env, sid, remaining, fired);
      TurnSim(w, s, env, sid, remaining, CAP - |fired|);
      var turn := TurnOf(w, s, env, sid, remaining);
      if turn.Go? {
        TurnDriven(w, s, env, sid, remaining);
        var r := turn.r;
        AdvanceIsVirtual(w, r.s, r.env, sid, remaining - turn.step, fired + [r.fired]);
        var v := VRun(w, View(r.s, sid, r.env), now + turn.step, now + remaining, CAP - |fired| - 1);
        assert fired + [r.fired] + v.fired == fired + ([r.fired] + v.fired);
      }
    }
  }

  lemma AtCap<E>(w: World<E>, s: Shared, env: E, sid: Sid, remaining: int, fired: seq<Fired>, now: int)
    requires |fired| == CAP
    ensures AdvanceLoop(w, s, env, sid, remaining, fired) == Outcome(s, env, fired, true, remaining)
    ensures VRun(w, View(s, sid, env), now, now + remaining, 0) == VOutcome(View(s, sid, env), [], false)
  {
  }

  /** One turn of the loop is one unfolding of the reference machine. */
  lemma TurnSim<E(!new)>(w: World<E>, s: Shared, env: E, sid: Sid, remaining: nat, n: nat)
    requires SessionTimed(w) && Frozen(w) && Driven(s, sid) && n > 0
    ensures var turn := TurnOf(w, s, env, sid, remaining);
      var now := w.clock(0) + s.Off(sid);
      var v := VRun(w, View(s, sid, env), now, now + remaining, n);
      if turn.Stay? then v == VOutcome(View(s, sid, env), [], true)
      else
        var rest := VRun(w, View(turn.r.s, sid, turn.r.env), now + turn.step, now + remaining, n - 1);
        v == rest.(fired := [turn.r.fired] + rest.fired) && turn.r.s.Off(sid) == s.Off(sid) + turn.step
  {
    hide VRun, VFire, View, Round, Agenda, First, IsFirst, VFirst, Eligible, Driven, SessionTimed;
    var now := w.clock(0) + s.Off(sid);
    ViewAgenda(s, sid, env);
    DrivenStays(s, sid);
    TurnFirst(s, sid);
    var next := First(s, Eligible(s, sid));
    if next.Some? && StepTo(w.clock(0), s.dels[next.value].fireAt) <= remaining {
      RoundSim(w, s, env, sid, next.value);
      VRunGoes(w, View(s, sid, env), now, now + remaining, n, next.value, now + StepTo(w.clock(0), s.dels[next.value].fireAt));
    } else {
      VRunStops(w, View(s, sid, env), now, now + remaining, n);
    }
  }

  /** The dispatcher and the agenda agree on who is first, and when. */
  lemma TurnFirst(s: Shared, sid: Sid)
    requires Driven(s, sid)
    ensures var next := First(s, Eligible(s, sid));
      && (next.Some? ==> next.value in s.PendingOf(sid) && VFirst(Agenda(s, sid), next.value))
      && (forall id :: VFirst(Agenda(s, sid), id) ==> next == Some(id) && Agenda(s, sid)[id].fireAt == s.dels[id].fireAt + s.Off(sid))
  {
    hide Agenda, VFirst, Numbered;
    forall id ensures VFirst(Agenda(s, sid), id) <==> IsFirst(s, Eligible(s, sid), id) {
      FirstSim(s, sid, id);
    }
    forall id | IsFirst(s, Eligible(s, sid), id) ensures id in Agenda(s, sid) && Agenda(s, sid)[id].fireAt == s.dels[id].fireAt + s.Off(sid) {
      AgendaAt(s, sid, id);
      FirstIsFirst(s, Eligible(s, sid), id);
    }
  }

  lemma TurnDriven<E(!new)>(w: World<E>, s: Shared, env: E, sid: Sid, remaining: nat)
    requires Frozen(w) && Forward(w) && FreshIds(w, s) && Driven(s, sid) && TurnOf(w, s, env, sid, remaining).Go?
    ensures var turn := TurnOf(w, s, env, sid, remaining);
      turn.step <= remaining && Driven(turn.r.s, sid) && FreshIds(w, turn.r.s)
  {
    hide Round, Swept, Driven, Forward, FreshIds;
    var id := First(s, Eligible(s, sid)).value;
    RoundSweeps(w, s, env, sid, id, 0);
  }
}
