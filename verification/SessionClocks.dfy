/** Session time over whole runs: a pending delivery stays due at the session
    time it was queued for, and only a session's own driver moves its clock. */
module SessionClocks {
  import opened Model
  import opened Protocol
  import opened Ownership
  import opened Frames
  import opened Footprint
  import R = Replay

  // ---------- due times ----------

  /** The delivery is answered, or its session is released after being canceled. */
  ghost predicate Disturbs(x: Sys, step: Step, id: Id)
    requires id in x.s.dels
  {
    || (step.SAnswer? && step.a in x.jobs && x.jobs[step.a].id == id)
    || (step.SRelease? && step.sid == x.s.dels[id].sid && step.sid in x.s.gone)
  }

  ghost predicate SameDue(s: Shared, t: Shared, id: Id) {
    id in s.dels && id in t.dels && t.dels[id].sid == s.dels[id].sid && t.Due(id) == s.Due(id)
  }

  lemma ShiftDue(s: Shared, sid: Sid, step: int, id: Id)
    requires id in s.pending && id in s.dels
    ensures SameDue(s, Shift(s, sid, step), id)
  {
  }

  lemma MarkDue(s: Shared, t: Shared, id: Id, j: Id)
    requires j in t.dels && SameDue(s, t, id)
    ensures SameDue(s, Mark(t, j), id)
  {
  }

  lemma DriveDue(x: Sys, y: Sys, go: Step, id: Id)
    requires Next(x, y, go) && (go.SAdvance? || go.SFinish?) && id in x.s.pending && id in x.s.dels
    ensures SameDue(x.s, y.s, id)
  {
    hide Shift, IsFirst, Eligible, Mark, SameDue;
    var sid := go.sid;
    if go.SAdvance? {
      var j := go.id;
      FirstEligible(x.s, sid, j);
      var step := R.StepTo(x.now, x.s.dels[j].fireAt);
      ShiftAlike(x.s, sid, step);
      ShiftDue(x.s, sid, step, id);
      MarkDue(x.s, Shift(x.s, sid, step), id, j);
    } else {
      ShiftDue(x.s, sid, x.drives[sid].errand.left, id);
    }
  }

  lemma DropDue(x: Sys, y: Sys, step: Step, id: Id)
    requires Core(x) && Next(x, y, step) && (step.SCancelSession? || step.SCancelAll?)
    requires id in x.s.pending && id in y.s.pending && id in x.s.dels
    ensures SameDue(x.s, y.s, id)
  {
    hide Core;
    if step.SCancelSession? { assert id in x.s.PendingOf(x.s.dels[id].sid); }
  }

  lemma HoldDue(x: Sys, y: Sys, step: Step, id: Id)
    requires Next(x, y, step) && (step.SRelease? || step.SAcquire? || step.SQuiet? || step.SStop?)
    requires id in x.s.dels && !Disturbs(x, step, id)
    ensures SameDue(x.s, y.s, id)
  {
    hide Returning;
  }

  /** One step, whoever takes it, leaves a pending delivery due at the same session time. */
  lemma DueNext(x: Sys, y: Sys, step: Step, id: Id)
    requires Core(x) && Next(x, y, step) && id in x.s.pending && id in y.s.pending && id in x.s.dels && !Disturbs(x, step, id)
    ensures SameDue(x.s, y.s, id)
  {
    hide Core, Next;
    if step.SCancelSession? || step.SCancelAll? {
      DropDue(x, y, step, id);
    } else if step.SRelease? || step.SAcquire? || step.SQuiet? || step.SStop? {
      HoldDue(x, y, step, id);
    } else if step.SAdvance? || step.SFinish? {
      DriveDue(x, y, step, id);
    } else {
      NextFits(x, y, step);
      NextFrames(x, y, step);
    }
  }

  lemma {:induction false} StillPending(xs: seq<Sys>, steps: seq<Step>, i: nat, k: nat, id: Id)
    requires Run(xs, steps) && i <= k < |xs| && id in xs[i].s.dels && id in xs[k].s.pending
    ensures id in xs[i].s.pending
    decreases k - i
  {
    hide Core, Next, Init;
    if i < k && id !in xs[i].s.pending {
      RunCore(xs, steps, i);
      NextFits(xs[i], xs[i + 1], steps[i]);
      StillPending(xs, steps, i + 1, k, id);
    }
  }

  /** Over any stretch of any run, through any mix of clock moves, schedules,
      cancellations and drives of this and other sessions: a delivery pending at
      both ends, not attempted in between, is due at the same session time. */
  lemma {:induction false} DueConserved(xs: seq<Sys>, steps: seq<Step>, i: nat, k: nat, id: Id)
    requires Run(xs, steps) && i <= k < |xs| && id in xs[i].s.pending && id in xs[k].s.pending
    requires id in xs[i].s.dels
    requires forall m :: i <= m < k && id in xs[m].s.dels ==> !Disturbs(xs[m], steps[m], id)
    ensures SameDue(xs[i].s, xs[k].s, id)
    decreases k - i
  {
    hide Core, Next, Init, Disturbs;
    if i < k {
      RunCore(xs, steps, i);
      assert Next(xs[i], xs[i + 1], steps[i]);
      NextFits(xs[i], xs[i + 1], steps[i]);
      StillPending(xs, steps, i + 1, k, id);
      DueNext(xs[i], xs[i + 1], steps[i], id);
      DueConserved(xs, steps, i + 1, k, id);
    }
  }

  // ---------- clocks ----------

  /** A driver that came to move the clock has moved it by exactly what it has
      used of its span, unless the session was canceled under it. */
  ghost predicate OnCourse(drives: map<Sid, Drive>, s: Shared) {
    && s.gone <= drives.Keys && s.exclusive == drives.Keys
    && forall sid :: sid in drives && drives[sid].errand.Clock? && sid !in s.gone ==>
         var e := drives[sid].errand;
         0 <= e.left <= e.span && s.Off(sid) == e.base + e.span - e.left && (drives[sid].Ended? ==> e.left == 0)
  }

  lemma ShiftOff(s: Shared, sid: Sid, step: nat)
    ensures var t := Shift(s, sid, step);
      && t.Off(sid) == s.Off(sid) + step && t.gone == s.gone && t.exclusive == s.exclusive
      && forall other :: other != sid ==> t.Off(other) == s.Off(other)
  {
  }

  lemma CourseDrive(x: Sys, y: Sys, sid: Sid, id: Id)
    requires OnCourse(x.drives, x.s) && (Advances(x, y, sid, id) || Finishes(x, y, sid))
    ensures OnCourse(y.drives, y.s)
  {
    hide Shift, IsFirst, Eligible;
    if Advances(x, y, sid, id) {
      FirstEligible(x.s, sid, id);
      ShiftOff(x.s, sid, R.StepTo(x.now, x.s.dels[id].fireAt));
    } else {
      ShiftOff(x.s, sid, x.drives[sid].errand.left);
    }
  }

  lemma CourseDrop(x: Sys, y: Sys, step: Step)
    requires OnCourse(x.drives, x.s) && Next(x, y, step) && (step.SCancelSession? || step.SCancelAll?)
    ensures OnCourse(y.drives, y.s)
  {
  }

  lemma CourseAcquire(x: Sys, y: Sys, sid: Sid, span: int, items: bool)
    requires OnCourse(x.drives, x.s) && Acquires(x, y, sid, span, items)
    ensures OnCourse(y.drives, y.s)
  {
  }

  lemma CourseQuiet(x: Sys, y: Sys, sid: Sid)
    requires OnCourse(x.drives, x.s) && Quiets(x, y, sid)
    ensures OnCourse(y.drives, y.s)
  {
    hide Busy;
  }

  lemma CourseStop(x: Sys, y: Sys, sid: Sid)
    requires OnCourse(x.drives, x.s) && Stops(x, y, sid)
    ensures OnCourse(y.drives, y.s)
  {
    hide Through;
  }

  lemma CourseRelease(x: Sys, y: Sys, sid: Sid)
    requires OnCourse(x.drives, x.s) && Releases(x, y, sid)
    ensures OnCourse(y.drives, y.s)
  {
    hide Returning;
  }

  ghost predicate SameClock(x: Sys, y: Sys) {
    y.s.offsets == x.s.offsets && y.s.gone == x.s.gone && y.s.exclusive == x.s.exclusive && y.drives == x.drives
  }

  lemma CourseNext(x: Sys, y: Sys, step: Step)
    requires OnCourse(x.drives, x.s) && Next(x, y, step)
    ensures OnCourse(y.drives, y.s)
  {
    if step.SAdvance? {
      CourseDrive(x, y, step.sid, step.id);
    } else if step.SFinish? {
      CourseDrive(x, y, step.sid, "");
    } else if step.SCancelSession? || step.SCancelAll? {
      CourseDrop(x, y, step);
    } else if step.SRelease? {
      CourseRelease(x, y, step.sid);
    } else if step.SAcquire? {
      CourseAcquire(x, y, step.sid, step.span, step.items);
    } else if step.SQuiet? {
      CourseQuiet(x, y, step.sid);
    } else if step.SStop? {
      CourseStop(x, y, step.sid);
    } else {
      NextFrames(x, y, step);
      SameCourse(x, y);
    }
  }

  lemma SameCourse(x: Sys, y: Sys)
    requires OnCourse(x.drives, x.s) && SameClock(x, y)
    ensures OnCourse(y.drives, y.s)
  {
  }

  /** In any run, at any point: the clock of a session being advanced stands where
      the advance has brought it, and at its end exactly `span` further. */
  lemma {:induction false} ClockOnCourse(xs: seq<Sys>, steps: seq<Step>, k: nat)
    requires Run(xs, steps) && k < |xs|
    ensures OnCourse(xs[k].drives, xs[k].s)
  {
    hide Next, OnCourse;
    if k == 0 {
      InitCourse(xs[0]);
    } else {
      ClockOnCourse(xs, steps, k - 1);
      CourseNext(xs[k - 1], xs[k], steps[k - 1]);
    }
  }

  lemma InitCourse(x: Sys)
    requires Init(x)
    ensures OnCourse(x.drives, x.s)
  {
  }

  lemma GoneHeld(x: Sys, y: Sys, step: Step, sid: Sid)
    requires Next(x, y, step) && (step.SAcquire? || step.SRelease? || step.SCancelSession? || step.SCancelAll?)
    ensures sid in x.s.gone ==> sid in y.s.gone || step == SRelease(sid)
    ensures sid in y.s.gone ==> sid in x.s.gone || step.SCancelAll? || step == SCancelSession(sid)
  {
    hide Returning;
  }

  lemma GoneMoved(x: Sys, y: Sys, step: Step)
    requires Next(x, y, step) && (step.SAdvance? || step.SFinish?)
    ensures y.s.gone == x.s.gone
  {
    hide IsFirst, Eligible;
  }

  /** Only cancellation marks a session gone, and only its release forgets it. */
  lemma GoneNext(x: Sys, y: Sys, step: Step, sid: Sid)
    requires Next(x, y, step)
    ensures sid in x.s.gone ==> sid in y.s.gone || step == SRelease(sid)
    ensures sid in y.s.gone ==> sid in x.s.gone || step.SCancelAll? || step == SCancelSession(sid)
  {
    hide Next;
    if step.SAdvance? || step.SFinish? {
      GoneMoved(x, y, step);
    } else if OfClocks(step) {
      GoneHeld(x, y, step, sid);
    } else {
      NextFrames(x, y, step);
    }
  }

  /** A session's clock only ever moves forward, by its own driver's hand, or is
      dropped to wall time by a cancellation. */
  lemma OnlyOwnClock(x: Sys, y: Sys, step: Step, sid: Sid)
    requires Next(x, y, step) && OnCourse(x.drives, x.s) && y.s.Off(sid) != x.s.Off(sid)
    ensures (step.SAdvance? || step.SFinish?) ==> step.sid == sid && y.s.Off(sid) > x.s.Off(sid)
    ensures step.SAdvance? || step.SFinish?
      || (y.s.Off(sid) == 0 && (step.SCancelAll? || (step.SCancelSession? && step.sid == sid) || (step.SRelease? && step.sid == sid && sid in x.s.gone)))
  {
    hide Next, OnCourse;
    if step.SAdvance? || step.SFinish? {
      DriveOff(x, y, step);
    } else if step.SCancelSession? || step.SCancelAll? || step.SRelease? || step.SAcquire? || step.SQuiet? || step.SStop? {
      DroppedOff(x, y, step, sid);
    } else {
      NextFrames(x, y, step);
    }
  }

  lemma DriveOff(x: Sys, y: Sys, step: Step)
    requires Next(x, y, step) && OnCourse(x.drives, x.s) && (step.SAdvance? || step.SFinish?)
    ensures y.s.Off(step.sid) >= x.s.Off(step.sid) && forall other :: other != step.sid ==> y.s.Off(other) == x.s.Off(other)
  {
    hide Shift, IsFirst, Eligible;
    if step.SAdvance? {
      FirstEligible(x.s, step.sid, step.id);
      ShiftOff(x.s, step.sid, R.StepTo(x.now, x.s.dels[step.id].fireAt));
    } else {
      ShiftOff(x.s, step.sid, x.drives[step.sid].errand.left);
    }
  }

  lemma DroppedOff(x: Sys, y: Sys, step: Step, sid: Sid)
    requires Next(x, y, step) && y.s.Off(sid) != x.s.Off(sid)
    requires step.SCancelSession? || step.SCancelAll? || step.SRelease? || step.SAcquire? || step.SQuiet? || step.SStop?
    ensures y.s.Off(sid) == 0
    ensures step.SCancelAll? || (step.SCancelSession? && step.sid == sid) || (step.SRelease? && step.sid == sid && sid in x.s.gone)
  {
  }
}
