/** A synchronous call of Replay.dfy is a stretch of the interleaved protocol: one
    in which nobody else acts until the session is released. */
module DriveRuns {
  import opened Model
  import opened Protocol
  import opened Ownership
  import R = Replay
  import O = ReplayOrder
  import I = OrderedDelivery
  import D = DriveOrder

  // ---------- stretches ----------

  ghost predicate Stretch(xs: seq<Sys>, steps: seq<Step>) {
    |xs| == |steps| + 1 && forall k :: 0 <= k < |steps| ==> Next(xs[k], xs[k + 1], steps[k])
  }

  ghost predicate StretchFrom(x: Sys, y: Sys, xs: seq<Sys>, steps: seq<Step>) {
    Stretch(xs, steps) && xs[0] == x && xs[|xs| - 1] == y
  }

  /** Some steps of the protocol lead from `x` to `y`. */
  ghost predicate Leads(x: Sys, y: Sys) {
    exists xs, steps :: StretchFrom(x, y, xs, steps)
  }

  lemma Stays(x: Sys)
    ensures Leads(x, x)
  {
    assert StretchFrom(x, x, [x], []);
  }

  lemma Steps(x: Sys, y: Sys, step: Step)
    requires Next(x, y, step)
    ensures Leads(x, y)
  {
    hide Next;
    assert StretchFrom(x, y, [x, y], [step]);
  }

  lemma StretchesJoin(x: Sys, y: Sys, z: Sys, xs: seq<Sys>, ss: seq<Step>, ys: seq<Sys>, ts: seq<Step>)
    requires StretchFrom(x, y, xs, ss) && StretchFrom(y, z, ys, ts)
    ensures StretchFrom(x, z, xs + ys[1..], ss + ts)
  {
    hide Next;
    var zs := xs + ys[1..];
    forall k | 0 <= k < |ss + ts| ensures Next(zs[k], zs[k + 1], (ss + ts)[k]) {
      if k >= |ss| {
        assert zs[k] == ys[k - |ss|] && zs[k + 1] == ys[k - |ss| + 1];
      }
    }
  }

  lemma Joins(x: Sys, y: Sys, z: Sys)
    requires Leads(x, y) && Leads(y, z)
    ensures Leads(x, z)
  {
    hide Next;
    var xs, ss :| StretchFrom(x, y, xs, ss);
    var ys, ts :| StretchFrom(y, z, ys, ts);
    StretchesJoin(x, y, z, xs, ss, ys, ts);
    assert StretchFrom(x, z, xs + ys[1..], ss + ts);
  }

  /** What a step leaves: the invariant holds, and the run goes on from `y`. */
  lemma Goes(x: Sys, y: Sys, z: Sys, step: Step)
    requires Leads(x, y) && Core(y) && Next(y, z, step)
    ensures Leads(x, z) && Core(z)
  {
    hide Leads, Next, Core;
    CoreNext(y, z, step);
    Steps(y, z, step);
    Joins(x, y, z);
  }

  // ---------- one attempt ----------

  /** The shared state when the agent that holds `id` is done with its attempt, but
      for what the callback schedules. */
  function Served(s: Shared, id: Id, now: int, ok: bool, next: int): Shared
    requires id in s.dels
  {
    var d := s.dels[id];
    var num := d.attempts + 1;
    Settle(Answer(Begin(s, id), id, Try(num, now, ok), next), id, Verdict(num, d.maxAttempts, ok))
  }

  function CallsBack(d: Del): bool {
    d.attempts == 1 && d.onFirst.Some? && !d.firstFired
  }

  ghost predicate OnlyWorked(x: Sys, y: Sys) {
    y.drives == x.drives && y.drafts == x.drafts && y.now == x.now
  }

  lemma Known(x: Sys)
    requires Core(x)
    ensures x.hist.Keys == x.s.dels.Keys && x.calls.Keys == x.s.dels.Keys && x.drafts.Keys !! x.s.dels.Keys
  {
    hide Held, Placed, DrivesFit;
  }

  lemma CheckStep(x: Sys, a: Agent) returns (y: Sys)
    requires At(x, a, Handed) && !x.s.dels[x.jobs[a].id].canceled
    ensures Checks(x, y, a) && Next(x, y, SCheck(a))
  {
    y := x.(jobs := x.jobs[a := x.jobs[a].(phase := Checked)]);
  }

  lemma BeginStep(x: Sys, a: Agent) returns (y: Sys)
    requires At(x, a, Checked)
    ensures Begins(x, y, a) && Next(x, y, SBegin(a))
  {
    hide Begin;
    var id := x.jobs[a].id;
    y := x.(s := Begin(x.s, id), jobs := x.jobs[a := Job(id, x.s.dels[id].attempts + 1, Begun)]);
  }

  lemma AnswerStep(x: Sys, a: Agent, ok: bool, next: int) returns (y: Sys)
    requires At(x, a, Begun) && x.jobs[a].id in x.hist
    ensures Answers(x, y, a, ok, next) && Next(x, y, SAnswer(a, ok, next))
  {
    hide Answer;
    var id, num := x.jobs[a].id, x.jobs[a].num;
    var t := Try(num, x.now, ok);
    y := x.(s := Answer(x.s, id, t, next),
            jobs := x.jobs[a := Job(id, num, Answered(Verdict(num, x.s.dels[id].maxAttempts, ok)))],
            hist := x.hist[id := x.hist[id] + [t]],
            owing := if num == 1 then x.owing[id := a] else x.owing);
  }

  lemma SettleStep(x: Sys, a: Agent) returns (y: Sys)
    requires a in x.jobs && x.jobs[a].phase.Answered? && x.jobs[a].id in x.s.dels
    ensures Settles(x, y, a) && Next(x, y, SSettle(a))
  {
    hide Settle;
    var id, status := x.jobs[a].id, x.jobs[a].phase.status;
    y := x.(s := Settle(x.s, id, status), jobs := x.jobs[a := x.jobs[a].(phase := Settled)], owner := x.owner - {id},
            kicks := if status == Retrying then x.kicks + 1 else x.kicks,
            retired := if status == Retrying then x.retired else x.retired + {id});
  }

  lemma EndStep(x: Sys, a: Agent) returns (y: Sys)
    requires At(x, a, Settled) && x.jobs[a].id in x.calls
    ensures Ends(x, y, a) && Next(x, y, SEnd(a))
  {
    hide MarkFirst;
    var id, num := x.jobs[a].id, x.jobs[a].num;
    var d := x.s.dels[id];
    var call := num == 1 && d.onFirst.Some? && !d.firstFired;
    y := x.(s := if call then MarkFirst(x.s, id) else x.s, jobs := x.jobs - {a},
            calls := if call then x.calls[id := x.calls[id] + 1] else x.calls,
            owing := if num == 1 then x.owing - {id} else x.owing);
  }

  lemma ServedDel(s: Shared, id: Id, now: int, ok: bool, next: int)
    requires id in s.dels
    ensures var t := Served(s, id, now, ok, next);
      && t.dels.Keys == s.dels.Keys && t.issued == s.issued
      && t.dels[id] == s.dels[id].(attempts := s.dels[id].attempts + 1, running := false, fireAt := t.dels[id].fireAt)
    ensures forall t :: Answer(Begin(s, id), id, t, next).dels.Keys == s.dels.Keys
  {
  }

  lemma BeginGoes(x: Sys, a: Agent) returns (y: Sys)
    requires Core(x) && At(x, a, Handed) && !x.s.dels[x.jobs[a].id].canceled
    ensures Leads(x, y) && Core(y) && OnlyWorked(x, y) && y.hist == x.hist
    ensures var id := x.jobs[a].id;
      y.s == Begin(x.s, id) && y.jobs == x.jobs[a := Job(id, x.s.dels[id].attempts + 1, Begun)]
  {
    hide Core, Leads, Next, Begin;
    Stays(x);
    var checked := CheckStep(x, a);
    Goes(x, x, checked, SCheck(a));
    y := BeginStep(checked, a);
    Goes(x, checked, y, SBegin(a));
  }

  /** From the hand-over to the answer, undisturbed. */
  lemma TryGoes(x: Sys, a: Agent, ok: bool, next: int) returns (y: Sys)
    requires Core(x) && At(x, a, Handed) && !x.s.dels[x.jobs[a].id].canceled
    ensures Leads(x, y) && Core(y) && OnlyWorked(x, y)
    ensures var id := x.jobs[a].id;
      var d, num := x.s.dels[id], x.s.dels[id].attempts + 1;
      && y.s == Answer(Begin(x.s, id), id, Try(num, x.now, ok), next)
      && y.jobs == x.jobs[a := Job(id, num, Answered(Verdict(num, d.maxAttempts, ok)))]
  {
    hide Core, Leads, Next, Begin, Answer;
    var id := x.jobs[a].id;
    BegunDel(x.s, id);
    Known(x);
    var begun := BeginGoes(x, a);
    y := AnswerStep(begun, a, ok, next);
    Goes(x, begun, y, SAnswer(a, ok, next));
  }

  lemma BegunDel(s: Shared, id: Id)
    requires id in s.dels
    ensures Begin(s, id).dels.Keys == s.dels.Keys && Begin(s, id).dels[id].maxAttempts == s.dels[id].maxAttempts
  {
  }

  /** From the answer to the end. */
  lemma CloseGoes(x: Sys, y: Sys, a: Agent) returns (z: Sys)
    requires Leads(x, y) && Core(y) && a in y.jobs && y.jobs[a].phase.Answered? && y.jobs[a].id in y.s.dels
    requires var t := Settle(y.s, y.jobs[a].id, y.jobs[a].phase.status);
      y.jobs[a].id in t.dels && t.dels[y.jobs[a].id].attempts == y.jobs[a].num
    ensures Leads(x, z) && Core(z) && OnlyWorked(y, z) && z.jobs == y.jobs - {a}
    ensures var id := y.jobs[a].id;
      var t := Settle(y.s, id, y.jobs[a].phase.status);
      z.s == if CallsBack(t.dels[id]) then MarkFirst(t, id) else t
  {
    hide Core, Leads, Next, Settle, MarkFirst;
    Known(y);
    var settled := SettleStep(y, a);
    Goes(x, y, settled, SSettle(a));
    z := EndStep(settled, a);
    Goes(x, settled, z, SEnd(a));
  }

  /** The whole attempt, undisturbed. */
  lemma AttemptGoes(x: Sys, a: Agent, ok: bool, next: int) returns (y: Sys)
    requires Core(x) && At(x, a, Handed) && !x.s.dels[x.jobs[a].id].canceled
    ensures Leads(x, y) && Core(y) && OnlyWorked(x, y) && y.jobs == x.jobs - {a}
    ensures var id := x.jobs[a].id;
      var t := Served(x.s, id, x.now, ok, next);
      && t.dels.Keys == x.s.dels.Keys && t.issued == x.s.issued
      && y.s == if CallsBack(t.dels[id]) then MarkFirst(t, id) else t
  {
    hide Core, Leads, Begin, Answer, Settle, MarkFirst;
    ServedDel(x.s, x.jobs[a].id, x.now, ok, next);
    y := TryGoes(x, a, ok, next);
    y := CloseGoes(x, y, a);
  }

  // ---------- what the callback schedules ----------

  /** The ids to come name nothing, queued or being queued. */
  ghost predicate NewIds<E>(w: R.World<E>, x: Sys) {
    R.FreshIds(w, x.s) && forall k :: k > x.s.issued ==> w.newID(k) !in x.drafts
  }

  lemma DraftStep(x: Sys, id: Id, sid: Sid, r: Request) returns (y: Sys)
    requires id !in x.s.dels && id !in x.drafts
    ensures Drafts(x, y, id, sid, r) && Next(x, y, SDraft(id, sid, r))
  {
    y := x.(s := LogAdd(x.s, id, Draft(sid, r, x.now)), drafts := x.drafts[id := Draft(sid, r, x.now)]);
  }

  lemma EnqueueStep(x: Sys, id: Id) returns (y: Sys)
    requires id in x.drafts
    ensures Enqueues(x, y, id) && Next(x, y, SEnqueue(id))
  {
    hide Enqueue;
    y := x.(s := Enqueue(x.s, id, x.drafts[id]), drafts := x.drafts - {id}, kicks := x.kicks + 1,
            hist := x.hist[id := []], calls := x.calls[id := 0]);
  }

  lemma ScheduleGoes<E>(w: R.World<E>, x: Sys, y: Sys, sid: Sid, r: Request) returns (z: Sys)
    requires Leads(x, y) && Core(y) && NewIds(w, y)
    ensures Leads(x, z) && Core(z) && NewIds(w, z) && z.jobs == y.jobs && OnlyWorked(y, z)
    ensures z.s == R.Schedule(w, y.s, sid, r, y.now) && y.s.issued <= z.s.issued
  {
    hide Core, Leads, Next, Enqueue, LogAdd;
    var id := w.newID(y.s.issued + 1);
    var drafted := DraftStep(y, id, sid, r);
    Goes(x, y, drafted, SDraft(id, sid, r));
    z := EnqueueStep(drafted, id);
    Goes(x, drafted, z, SEnqueue(id));
    assert z.drafts == y.drafts;
    ScheduleFresh(w, y.s, sid, r, y.now);
  }

  lemma ScheduleFresh<E>(w: R.World<E>, s: Shared, sid: Sid, r: Request, now: int)
    requires R.FreshIds(w, s)
    ensures R.FreshIds(w, R.Schedule(w, s, sid, r, now)) && R.Schedule(w, s, sid, r, now).issued == s.issued + 1
  {
  }

  lemma {:induction false} ScheduleAllGoes<E>(w: R.World<E>, x: Sys, y: Sys, sid: Sid, rs: seq<Request>) returns (z: Sys)
    requires Leads(x, y) && Core(y) && NewIds(w, y)
    ensures Leads(x, z) && Core(z) && NewIds(w, z) && z.jobs == y.jobs && OnlyWorked(y, z)
    ensures z.s == R.ScheduleAll(w, y.s, sid, rs, y.now)
    decreases |rs|
  {
    hide Core, Leads, NewIds, R.Schedule;
    if rs == [] {
      z := y;
    } else {
      z := ScheduleGoes(w, x, y, sid, rs[0]);
      z := ScheduleAllGoes(w, x, z, sid, rs[1..]);
    }
  }

  // ---------- one round ----------

  /** A driver between two attempts, with `left` of its span to go. */
  ghost predicate Poised(x: Sys, sid: Sid, left: int) {
    && Core(x) && Free(x, sid) && x.drives[sid].errand.Clock? && x.drives[sid].errand.left == left
    && R.Driven(x.s, sid)
  }

  lemma TickGoes(x: Sys, y: Sys, now: int) returns (z: Sys)
    requires Leads(x, y) && Core(y) && y.now <= now
    ensures Leads(x, z) && Core(z) && z == y.(now := now)
  {
    hide Core, Leads;
    z := y.(now := now);
    Goes(x, y, z, STick);
  }

  lemma AdvanceStep(x: Sys, sid: Sid, id: Id) returns (y: Sys)
    requires Free(x, sid) && x.drives[sid].errand.Clock? && sid !in x.s.gone
    requires IsFirst(x.s, Eligible(x.s, sid), id) && R.StepTo(x.now, x.s.dels[id].fireAt) <= x.drives[sid].errand.left
    ensures Advances(x, y, sid, id) && Next(x, y, SAdvance(sid, id))
  {
    hide Shift, Mark, IsFirst, Eligible;
    FirstEligible(x.s, sid, id);
    var e := x.drives[sid].errand;
    var step := R.StepTo(x.now, x.s.dels[id].fireAt);
    ShiftAlike(x.s, sid, step);
    y := x.(s := Mark(Shift(x.s, sid, step), id), jobs := x.jobs[Driver(sid) := Job(id, 0, Handed)],
            drives := x.drives[sid := Driving(e.(left := e.left - step))], owner := x.owner[id := Driver(sid)]);
  }

  /** Fire in the function is the driver's attempt in the protocol. */
  lemma FireGoes<E>(w: R.World<E>, x: Sys, env: E, sid: Sid, id: Id) returns (y: Sys)
    requires Core(x) && At(x, Driver(sid), Handed) && x.jobs[Driver(sid)].id == id
    requires !x.s.dels[id].canceled && NewIds(w, x)
    ensures Leads(x, y) && Core(y) && OnlyWorked(x, y) && y.jobs == x.jobs - {Driver(sid)} && NewIds(w, y)
    ensures y.s == R.Fire(w, x.s, env, id, x.now).s
  {
    hide Core, Leads, Begin, Answer, Settle, R.FreshIds, R.ScheduleAll;
    var d := x.s.dels[id];
    var ok, next := w.answer(id, d.attempts + 1, x.now + x.s.Off(d.sid)), x.now + w.retry(id, d.attempts + 1);
    ServedDel(x.s, id, x.now, ok, next);
    var t := Served(x.s, id, x.now, ok, next);
    assert t == R.Attempted(w, x.s, id, x.now);
    y := AttemptGoes(x, Driver(sid), ok, next);
    R.SameFresh(w, x.s, y.s);
    if CallsBack(t.dels[id]) {
      var rs := w.react(env, t.dels[id].onFirst.value, x.now, t.Off(d.sid), |t.PendingOf(d.sid)|).1;
      y := ScheduleAllGoes(w, x, y, d.sid, rs);
    }
  }

  lemma TakenFresh<E>(w: R.World<E>, s: Shared, sid: Sid, step: nat, id: Id)
    requires R.FreshIds(w, s) && id in s.dels && id in Shift(s, sid, step).dels
    ensures R.FreshIds(w, Mark(Shift(s, sid, step), id)) && Mark(Shift(s, sid, step), id).issued == s.issued
  {
    hide R.FreshIds;
    R.ShiftKeepsOthers(s, sid, step);
    R.SameFresh(w, s, Mark(Shift(s, sid, step), id));
  }

  lemma ChosenFree(s: Shared, sid: Sid, id: Id)
    requires IsFirst(s, Eligible(s, sid), id)
    ensures id in s.dels && !s.dels[id].canceled && s.dels[id].sid == sid
  {
  }

  lemma ShiftedFlag(s: Shared, sid: Sid, step: int, id: Id)
    requires id in s.dels
    ensures id in Shift(s, sid, step).dels && Shift(s, sid, step).dels[id].canceled == s.dels[id].canceled
  {
  }

  /** One round of the loop is a stretch of the protocol. */
  lemma RoundGoes<E(!new)>(w: R.World<E>, x: Sys, env: E, sid: Sid, left: int, id: Id, i: nat) returns (y: Sys)
    requires R.Forward(w) && Poised(x, sid, left) && NewIds(w, x) && x.now == w.clock(2 * i)
    requires IsFirst(x.s, Eligible(x.s, sid), id) && R.StepTo(x.now, x.s.dels[id].fireAt) <= left
    ensures var step := R.StepTo(x.now, x.s.dels[id].fireAt);
      Leads(x, y) && Poised(y, sid, left - step) && NewIds(w, y) && y.now == w.clock(2 * i + 1)
      && y.s == R.Round(w, x.s, env, sid, id, step, i).s
  {
    hide Core, Leads, Next, Shift, IsFirst, Eligible, R.FreshIds, R.Driven, R.Fire;
    ChosenFree(x.s, sid, id);
    var step: nat := R.StepTo(x.now, x.s.dels[id].fireAt);
    ShiftedFlag(x.s, sid, step, id);
    Stays(x);
    DriveIsOpen(x.s, sid);
    var taken := AdvanceStep(x, sid, id);
    Goes(x, x, taken, SAdvance(sid, id));
    var z := TickGoes(x, taken, w.clock(2 * i + 1));
    TakenFresh(w, x.s, sid, step, id);
    y := FireGoes(w, z, env, sid, id);
    Joins(x, z, y);
    O.RoundSweeps(w, x.s, env, sid, id, i);
  }

  lemma DriveIsOpen(s: Shared, sid: Sid)
    requires R.Driven(s, sid)
    ensures sid in s.exclusive && sid !in s.gone && Numbered(s)
  {
  }

  // ---------- the loop and the call ----------

  /** The loop ends by itself when nothing is left that falls into the window. */
  lemma WindowEmpty(x: Sys, sid: Sid, left: int)
    requires R.Driven(x.s, sid)
    requires var next := First(x.s, Eligible(x.s, sid));
      next.Some? ==> next.value in x.s.dels && R.StepTo(x.now, x.s.dels[next.value].fireAt) > left
    ensures Through(x, sid, left)
  {
    if Eligible(x.s, sid) != {} {
      FirstExists(x.s, Eligible(x.s, sid));
    }
  }

  lemma StopStep(x: Sys, sid: Sid) returns (y: Sys)
    requires Free(x, sid) && x.drives[sid].errand.Clock? && Through(x, sid, x.drives[sid].errand.left)
    ensures Stops(x, y, sid) && Next(x, y, SStop(sid))
  {
    hide Through;
    y := x.(drives := x.drives[sid := Stopping(x.drives[sid].errand)]);
  }

  lemma FinishStep(x: Sys, sid: Sid) returns (y: Sys)
    requires sid in x.drives && x.drives[sid].Stopping? && x.drives[sid].errand.Clock? && sid !in x.s.gone
    ensures Finishes(x, y, sid) && Next(x, y, SFinish(sid))
  {
    hide Shift;
    var e := x.drives[sid].errand;
    y := x.(s := Shift(x.s, sid, e.left), drives := x.drives[sid := Ended(e.(left := 0))]);
  }

  /** A drive that may be released. */
  ghost predicate Done(x: Sys, sid: Sid) {
    Core(x) && sid in x.drives && !x.drives[sid].Stopping? && Driver(sid) !in x.jobs
  }

  lemma StopAndFinish(x: Sys, sid: Sid, left: int) returns (y: Sys)
    requires Poised(x, sid, left) && Through(x, sid, left)
    ensures Leads(x, y) && Done(y, sid) && y.s == Shift(x.s, sid, left)
  {
    hide Core, Leads, Next, Through, Shift;
    DriveIsOpen(x.s, sid);
    Stays(x);
    var stopped := StopStep(x, sid);
    Goes(x, x, stopped, SStop(sid));
    y := FinishStep(stopped, sid);
    Goes(x, stopped, y, SFinish(sid));
  }

  lemma LoopOnward<E(!new)>(w: R.World<E>, x: Sys, env: E, sid: Sid, left: int, fired: seq<R.Fired>, id: Id) returns (y: Sys, env': E, f: R.Fired)
    requires R.Forward(w) && Poised(x, sid, left) && NewIds(w, x) && x.now == w.clock(2 * |fired|)
    requires IsFirst(x.s, Eligible(x.s, sid), id) && R.StepTo(x.now, x.s.dels[id].fireAt) <= left
    ensures var step := R.StepTo(x.now, x.s.dels[id].fireAt);
      && Leads(x, y) && Poised(y, sid, left - step) && NewIds(w, y) && y.now <= w.clock(2 * |fired + [f]|)
      && R.Round(w, x.s, env, sid, id, step, |fired|) == R.After(y.s, env', f)
  {
    hide Leads, Poised, NewIds, R.Round, IsFirst;
    ChosenFree(x.s, sid, id);
    y := RoundGoes(w, x, env, sid, left, id, |fired|);
    var r := R.Round(w, x.s, env, sid, id, R.StepTo(x.now, x.s.dels[id].fireAt), |fired|);
    env', f := r.env, r.fired;
    assert w.clock(2 * |fired| + 1) <= w.clock(2 * |fired + [f]|);
  }

  lemma {:induction false} LoopGoes<E(!new)>(w: R.World<E>, x: Sys, env: E, sid: Sid, left: int, fired: seq<R.Fired>) returns (y: Sys)
    requires R.Forward(w) && Poised(x, sid, left) && NewIds(w, x) && x.now <= w.clock(2 * |fired|) && |fired| <= R.CAP
    ensures Leads(x, y) && Done(y, sid) && y.s == R.Finish(R.AdvanceLoop(w, x.s, env, sid, left, fired), sid)
    decreases R.CAP - |fired|
  {
    hide Leads, Core, Shift, Through, R.Round, R.Forward, R.FreshIds, R.Driven, IsFirst, First;
    var i := |fired|;
    Stays(x);
    DriveIsOpen(x.s, sid);
    if w.expired(i) || i >= R.CAP {
      y := x;
    } else {
      var z := TickGoes(x, x, w.clock(2 * i));
      var next := First(z.s, Eligible(z.s, sid));
      if next.Some? { O.Chosen(z.s, sid, next.value); }
      if next.None? || R.StepTo(z.now, z.s.dels[next.value].fireAt) > left {
        WindowEmpty(z, sid, left);
        y := StopAndFinish(z, sid, left);
      } else {
        var step := R.StepTo(z.now, z.s.dels[next.value].fireAt);
        var u, env', f := LoopOnward(w, z, env, sid, left, fired, next.value);
        y := LoopGoes(w, u, env', sid, left - step, fired + [f]);
        Joins(z, u, y);
      }
      Joins(x, z, y);
    }
  }

  lemma AcquireStep(x: Sys, sid: Sid, span: nat, items: bool) returns (y: Sys)
    requires sid != "" && sid !in x.s.exclusive
    ensures Acquires(x, y, sid, span, items) && Next(x, y, SAcquire(sid, span, items))
  {
    hide Acquire;
    y := x.(s := Acquire(x.s, sid),
            drives := x.drives[sid := Waiting(if items then Items else Clock(span, span, x.s.Off(sid)))]);
  }

  lemma QuietStep(x: Sys, sid: Sid) returns (y: Sys)
    requires sid in x.drives && x.drives[sid].Waiting? && !Busy(x.s, sid)
    ensures Quiets(x, y, sid) && Next(x, y, SQuiet(sid))
  {
    hide Busy;
    y := x.(drives := x.drives[sid := Driving(x.drives[sid].errand)]);
  }

  /** Acquiring an idle session, without having to wait. */
  lemma AcquireGoes(x: Sys, sid: Sid, span: nat, items: bool) returns (y: Sys)
    requires Core(x) && O.Idle(x.s, sid)
    ensures Leads(x, y) && Core(y) && Free(y, sid) && R.Driven(y.s, sid)
    ensures y.s == Acquire(x.s, sid) && y.drafts == x.drafts && y.now == x.now
    ensures if items then y.drives[sid].errand == Items else y.drives[sid].errand.Clock? && y.drives[sid].errand.left == span
  {
    hide Core, Leads, Next, R.Driven;
    O.AcquireDrives(x.s, sid);
    Stays(x);
    var held := AcquireStep(x, sid, span, items);
    Goes(x, x, held, SAcquire(sid, span, items));
    y := QuietStep(held, sid);
    Goes(x, held, y, SQuiet(sid));
    NoDriver(x, sid);
  }

  /** A session that nobody drives has no driver at work. */
  lemma NoDriver(x: Sys, sid: Sid)
    requires Core(x) && sid !in x.s.exclusive
    ensures Driver(sid) !in x.jobs
  {
    hide Ids, Held, Placed;
  }

  lemma ReleaseStep(x: Sys, sid: Sid) returns (y: Sys)
    requires sid in x.drives && Driver(sid) !in x.jobs && !x.drives[sid].Stopping?
    ensures Releases(x, y, sid) && Next(x, y, SRelease(sid))
  {
    hide Release;
    y := x.(s := Release(x.s, sid), drives := x.drives - {sid}, kicks := x.kicks + 1);
  }

  lemma ReleaseGoes(x: Sys, y: Sys, sid: Sid) returns (z: Sys)
    requires Leads(x, y) && Done(y, sid)
    ensures Leads(x, z) && z.s == Release(y.s, sid)
  {
    hide Core, Leads, Next, Release;
    z := ReleaseStep(y, sid);
    Goes(x, y, z, SRelease(sid));
  }

  lemma AcquiredFresh<E>(w: R.World<E>, x: Sys, y: Sys, sid: Sid)
    requires NewIds(w, x) && y.s == Acquire(x.s, sid) && y.drafts == x.drafts
    ensures NewIds(w, y)
  {
    hide R.FreshIds;
    R.SameFresh(w, x.s, y.s);
  }

  /** One Advance call on an idle session is a stretch of the protocol. */
  lemma AdvanceLeads<E(!new)>(w: R.World<E>, x: Sys, env: E, sid: Sid, span: nat) returns (y: Sys)
    requires R.Forward(w) && Core(x) && O.Idle(x.s, sid) && NewIds(w, x) && x.now <= w.clock(0)
    ensures Leads(x, y) && y.s == R.Advance(w, x.s, env, sid, span).s
  {
    hide Leads, Core, R.Forward, R.Driven, O.Idle, NewIds, Acquire, Release, R.Finish;
    var z := AcquireGoes(x, sid, span, false);
    AcquiredFresh(w, x, z, sid);
    y := LoopGoes(w, z, env, sid, span, []);
    Joins(x, z, y);
    y := ReleaseGoes(x, y, sid);
  }

  // ---------- delivering items ----------

  /** A driver between two items. */
  ghost predicate PoisedToSend(x: Sys, sid: Sid) {
    Core(x) && Free(x, sid) && x.drives[sid].errand.Items? && R.Driven(x.s, sid)
  }

  lemma DeliverStep(x: Sys, sid: Sid, id: Id) returns (y: Sys)
    requires Free(x, sid) && x.drives[sid].errand.Items? && sid !in x.s.gone && id in Eligible(x.s, sid)
    ensures Delivers(x, y, sid, id) && Next(x, y, SDeliver(sid, id))
  {
    hide Mark;
    y := x.(s := Mark(x.s, id), jobs := x.jobs[Driver(sid) := Job(id, 0, Handed)], owner := x.owner[id := Driver(sid)]);
  }

  /** One item is a stretch of the protocol. */
  lemma ItemGoes<E(!new)>(w: R.World<E>, x: Sys, env: E, sid: Sid, id: Id, i: nat) returns (y: Sys)
    requires R.Forward(w) && PoisedToSend(x, sid) && NewIds(w, x) && x.now <= w.clock(2 * i + 1) && id in Eligible(x.s, sid)
    ensures Leads(x, y) && PoisedToSend(y, sid) && NewIds(w, y) && y.now == w.clock(2 * i + 1)
    ensures y.s == R.Fire(w, Mark(x.s, id), env, id, w.clock(2 * i + 1)).s
  {
    hide Core, Leads, Next, R.FreshIds, R.Driven, R.Fire;
    DriveIsOpen(x.s, sid);
    Stays(x);
    var taken := DeliverStep(x, sid, id);
    Goes(x, x, taken, SDeliver(sid, id));
    var z := TickGoes(x, taken, w.clock(2 * i + 1));
    R.SameFresh(w, x.s, z.s);
    y := FireGoes(w, z, env, sid, id);
    Joins(x, z, y);
    R.FireRounds(w, x.s, env, sid, id, w.clock(2 * i + 1));
  }

  lemma Found(s: Shared, sid: Sid, item: string)
    requires R.Driven(s, sid) && I.Find(s, sid, item).Some?
    ensures I.Find(s, sid, item).value in Eligible(s, sid)
  {
    hide I.Find;
    DriveIsOpen(s, sid);
    I.FindChooses(s, sid, item);
  }

  lemma PoisedIsDone(x: Sys, sid: Sid)
    requires PoisedToSend(x, sid)
    ensures Done(x, sid)
  {
    hide Core, R.Driven;
  }

  lemma {:induction false} ItemsGo<E(!new)>(w: R.World<E>, x: Sys, env: E, sid: Sid, items: seq<string>, fired: seq<R.Fired>) returns (y: Sys)
    requires R.Forward(w) && PoisedToSend(x, sid) && NewIds(w, x) && x.now <= w.clock(2 * |fired| + 1)
    ensures Leads(x, y) && Done(y, sid) && y.s == I.DeliverLoop(w, x.s, env, sid, items, fired).s
    decreases |items|
  {
    hide Leads, PoisedToSend, Done, NewIds, R.Fire, R.Forward, I.Find;
    var i := |fired|;
    if items == [] || w.expired(i) || sid in x.s.gone || I.Find(x.s, sid, items[0]).None? {
      Stays(x);
      PoisedIsDone(x, sid);
      y := x;
    } else {
      var id := I.Find(x.s, sid, items[0]).value;
      PoisedIsDriven(x, sid);
      Found(x.s, sid, items[0]);
      var z := ItemGoes(w, x, env, sid, id, i);
      var r := R.Fire(w, Mark(x.s, id), env, id, w.clock(2 * i + 1));
      ClockGoesOn(w, 2 * i + 1, 2 * |fired + [r.fired]| + 1);
      y := ItemsGo(w, z, r.env, sid, items[1..], fired + [r.fired]);
      Joins(x, z, y);
    }
  }

  lemma PoisedIsDriven(x: Sys, sid: Sid)
    requires PoisedToSend(x, sid)
    ensures R.Driven(x.s, sid)
  {
    hide Core, R.Driven;
  }

  lemma ClockGoesOn<E(!new)>(w: R.World<E>, i: nat, j: nat)
    requires R.Forward(w) && i <= j
    ensures w.clock(i) <= w.clock(j)
  {
  }

  /** One DeliverNow call on an idle session is a stretch of the protocol. */
  lemma DeliverLeads<E(!new)>(w: R.World<E>, x: Sys, env: E, sid: Sid, items: seq<string>) returns (y: Sys)
    requires R.Forward(w) && Core(x) && O.Idle(x.s, sid) && NewIds(w, x) && x.now <= w.clock(1)
    ensures Leads(x, y) && y.s == I.DeliverNow(w, x.s, env, sid, items).s
  {
    hide Leads, Core, R.Forward, R.Driven, O.Idle, NewIds, Acquire, Release;
    var z := AcquireGoes(x, sid, 0, true);
    AcquiredFresh(w, x, z, sid);
    y := ItemsGo(w, z, env, sid, items, []);
    Joins(x, z, y);
    y := ReleaseGoes(x, y, sid);
  }

  // ---------- the laws ----------

  lemma RunGoesOn(xs: seq<Sys>, steps: seq<Step>, k: nat, y: Sys) returns (ys: seq<Sys>, ts: seq<Step>)
    requires Run(xs, steps) && k < |xs| && Leads(xs[k], y)
    ensures Run(ys, ts) && k < |ys| && ys[..k + 1] == xs[..k + 1] && ts[..k] == steps[..k] && ys[|ys| - 1] == y
  {
    hide Next, Init;
    var us, ss :| StretchFrom(xs[k], y, us, ss);
    StretchesJoin(xs[0], xs[k], y, xs[..k + 1], steps[..k], us, ss);
    ys, ts := xs[..k + 1] + us[1..], steps[..k] + ss;
  }

  /** Whenever, in any run, a session is neither driven nor being attempted, the run can
      go on so that it ends exactly where an Advance call on its own ends: what is
      proved of all runs holds of the call. */
  lemma AdvanceIsARun<E(!new)>(xs: seq<Sys>, steps: seq<Step>, k: nat, w: R.World<E>, env: E, sid: Sid, span: nat)
    returns (ys: seq<Sys>, ts: seq<Step>)
    requires Run(xs, steps) && k < |xs| && sid != "" && sid !in xs[k].s.exclusive && !Busy(xs[k].s, sid)
    requires R.Forward(w) && NewIds(w, xs[k]) && xs[k].now <= w.clock(0)
    ensures Run(ys, ts) && k < |ys| && ys[..k + 1] == xs[..k + 1] && ts[..k] == steps[..k]
    ensures ys[|ys| - 1].s == R.Advance(w, xs[k].s, env, sid, span).s
  {
    hide Run, Leads, Core, NewIds, R.Forward, R.Advance, O.Idle, Busy;
    D.QuietIsIdle(xs, steps, k, sid);
    RunCore(xs, steps, k);
    var y := AdvanceLeads(w, xs[k], env, sid, span);
    ys, ts := RunGoesOn(xs, steps, k, y);
  }

  /** The same for DeliverNow. */
  lemma DeliverIsARun<E(!new)>(xs: seq<Sys>, steps: seq<Step>, k: nat, w: R.World<E>, env: E, sid: Sid, items: seq<string>)
    returns (ys: seq<Sys>, ts: seq<Step>)
    requires Run(xs, steps) && k < |xs| && sid != "" && sid !in xs[k].s.exclusive && !Busy(xs[k].s, sid)
    requires R.Forward(w) && NewIds(w, xs[k]) && xs[k].now <= w.clock(1)
    ensures Run(ys, ts) && k < |ys| && ys[..k + 1] == xs[..k + 1] && ts[..k] == steps[..k]
    ensures ys[|ys| - 1].s == I.DeliverNow(w, xs[k].s, env, sid, items).s
  {
    hide Run, Leads, Core, NewIds, R.Forward, I.DeliverNow, O.Idle, Busy;
    D.QuietIsIdle(xs, steps, k, sid);
    RunCore(xs, steps, k);
    var y := DeliverLeads(w, xs[k], env, sid, items);
    ys, ts := RunGoesOn(xs, steps, k, y);
  }
}
