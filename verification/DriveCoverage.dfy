/** A drive that ends by itself has covered its window, in every interleaving. */
module DriveCoverage {
  import opened Model
  import opened Protocol
  import opened Ownership
  import opened Frames
  import opened Footprint
  import opened SessionClocks
  import opened DriveOrder
  import R = Replay

  /** The driver has left its loop with errand `e`, and may have made its last move. */
  ghost predicate Left(x: Sys, sid: Sid, e: Errand) {
    sid in x.drives && (x.drives[sid] == Stopping(e) || x.drives[sid].Ended?)
  }

  lemma HeldLeft(x: Sys, y: Sys, step: Step, sid: Sid, e: Errand)
    requires Core(x) && Left(x, sid, e) && Next(x, y, step) && (step.SAcquire? || step.SRelease?) && step != SRelease(sid)
    ensures Left(y, sid, e)
  {
    hide Core, Acquire, Release;
    DrivenExclusive(x, sid);
  }

  lemma MovedLeft(x: Sys, y: Sys, step: Step, sid: Sid, e: Errand)
    requires Left(x, sid, e) && Next(x, y, step)
    requires step.SQuiet? || step.SStop? || step.SFinish? || step.SAdvance? || step.SDeliver?
    ensures Left(y, sid, e)
  {
    hide Busy, Through, IsFirst, Eligible, Shift, Mark;
  }

  /** Out of the loop a driver takes nothing any more. */
  lemma LeftNext(x: Sys, y: Sys, step: Step, sid: Sid, e: Errand)
    requires Core(x) && Left(x, sid, e) && Next(x, y, step) && step != SRelease(sid)
    ensures Left(y, sid, e) && (sid in x.s.gone ==> sid in y.s.gone)
  {
    hide Core, Next, Left;
    GoneNext(x, y, step, sid);
    if step.SAcquire? || step.SRelease? {
      HeldLeft(x, y, step, sid, e);
    } else if step.SQuiet? || step.SStop? || step.SFinish? || step.SAdvance? || step.SDeliver? {
      MovedLeft(x, y, step, sid, e);
    } else {
      NextFrames(x, y, step);
      SameLeft(x, y, sid, e);
    }
  }

  lemma SameLeft(x: Sys, y: Sys, sid: Sid, e: Errand)
    requires Left(x, sid, e) && y.drives == x.drives
    ensures Left(y, sid, e)
  {
  }

  lemma {:induction false} LeftSince(xs: seq<Sys>, steps: seq<Step>, i: nat, m: nat, sid: Sid)
    requires Run(xs, steps) && i < m < |xs| && steps[i] == SStop(sid)
    requires forall n :: i < n < m ==> steps[n] != SRelease(sid)
    ensures sid in xs[i].drives && xs[i].drives[sid].Driving? && xs[i].drives[sid].errand.Clock?
    ensures Left(xs[m], sid, xs[i].drives[sid].errand) && (sid in xs[i].s.gone ==> sid in xs[m].s.gone)
    decreases m
  {
    hide Core, Init;
    assert Next(xs[i], xs[i + 1], steps[i]);
    if m > i + 1 {
      hide Next, Left;
      LeftSince(xs, steps, i, m - 1, sid);
      RunCore(xs, steps, m - 1);
      assert Next(xs[m - 1], xs[m], steps[m - 1]);
      LeftNext(xs[m - 1], xs[m], steps[m - 1], sid, xs[i].drives[sid].errand);
    }
  }

  /** Nobody attempts what is pending in a session whose driver has left its loop. */
  lemma LeftUndisturbed(x: Sys, y: Sys, step: Step, sid: Sid, e: Errand, id: Id)
    requires Core(x) && Left(x, sid, e) && Next(x, y, step) && step != SRelease(sid) && id in x.s.PendingOf(sid)
    ensures !Disturbs(x, step, id)
  {
    hide Core;
    if step.SAnswer? && step.a in x.jobs && x.jobs[step.a].id == id {
      JobRuns(x, step.a);
      OnlyDriverHolds(x, sid, id);
      StoppingRests(x, sid);
    }
  }

  lemma {:induction false} StillKnown(xs: seq<Sys>, steps: seq<Step>, i: nat, k: nat, id: Id)
    requires Run(xs, steps) && i <= k < |xs| && id in xs[i].s.dels
    ensures id in xs[k].s.dels && xs[k].s.dels[id].sid == xs[i].s.dels[id].sid
    decreases k
  {
    hide Core, Next, Init;
    if i < k {
      StillKnown(xs, steps, i, k - 1, id);
      RunCore(xs, steps, k - 1);
      NextFits(xs[k - 1], xs[k], steps[k - 1]);
    }
  }

  lemma PendingUndisturbed(xs: seq<Sys>, steps: seq<Step>, i: nat, m: nat, k: nat, sid: Sid, id: Id)
    requires Run(xs, steps) && i <= m < k < |xs| && steps[i] == SStop(sid)
    requires forall n :: i < n < k ==> steps[n] != SRelease(sid)
    requires id in xs[i].s.PendingOf(sid) && id in xs[k].s.pending
    ensures id in xs[m].s.dels && !Disturbs(xs[m], steps[m], id)
  {
    hide Core, Next, Init, Left;
    StillKnown(xs, steps, i, m, id);
    if m > i {
      hide Disturbs;
      LeftSince(xs, steps, i, m, sid);
      RunCore(xs, steps, m);
      StillPending(xs, steps, m, k, id);
      assert Next(xs[m], xs[m + 1], steps[m]);
      LeftUndisturbed(xs[m], xs[m + 1], steps[m], sid, xs[i].drives[sid].errand, id);
    }
  }

  /** The last move ends where the loop has looked to. */
  lemma LastMove(x: Sys, x': Sys, y: Sys, z: Sys, sid: Sid)
    requires OnCourse(x.drives, x.s) && Stops(x, x', sid) && sid !in x.s.gone
    requires Left(y, sid, x.drives[sid].errand) && OnCourse(y.drives, y.s) && Finishes(y, z, sid)
    ensures var e := x.drives[sid].errand;
      e.left >= 0 && x.s.Off(sid) + e.left == e.base + e.span == z.s.Off(sid)
  {
    hide Through, Eligible, Shift;
    ShiftOff(y.s, sid, y.drives[sid].errand.left);
  }

  lemma StopLooks(x: Sys, y: Sys, sid: Sid, id: Id)
    requires Core(x) && Stops(x, y, sid) && sid !in x.s.gone && id in x.s.PendingOf(sid) && x.drives[sid].errand.left >= 0
    ensures x.s.dels[id].fireAt > x.now + x.drives[sid].errand.left
  {
    hide Core, Eligible;
    AllEligible(x, sid);
    assert id in Eligible(x.s, sid);
  }

  lemma FinishFacts(x: Sys, y: Sys, sid: Sid)
    requires Next(x, y, SFinish(sid))
    ensures sid !in x.s.gone
  {
  }

  lemma WindowMoves(xs: seq<Sys>, steps: seq<Step>, i: nat, k: nat, sid: Sid)
    requires Run(xs, steps) && i < k < |steps| && steps[i] == SStop(sid) && steps[k] == SFinish(sid)
    requires forall m :: i < m < k ==> steps[m] != SRelease(sid)
    ensures sid in xs[i].drives && xs[i].drives[sid].errand.Clock? && sid !in xs[i].s.gone && Stops(xs[i], xs[i + 1], sid)
    ensures var e := xs[i].drives[sid].errand;
      e.left >= 0 && xs[i].s.Off(sid) + e.left == e.base + e.span == xs[k + 1].s.Off(sid)
  {
    hide Core, Init, Left, OnCourse, Stops, Finishes;
    LeftSince(xs, steps, i, k, sid);
    ClockOnCourse(xs, steps, i);
    ClockOnCourse(xs, steps, k);
    assert Next(xs[i], xs[i + 1], steps[i]) && Next(xs[k], xs[k + 1], steps[k]);
    FinishFacts(xs[k], xs[k + 1], sid);
    LastMove(xs[i], xs[i + 1], xs[k], xs[k + 1], sid);
  }

  lemma WindowKeeps(xs: seq<Sys>, steps: seq<Step>, i: nat, k: nat, sid: Sid, id: Id)
    requires Run(xs, steps) && i < k < |steps| && steps[i] == SStop(sid) && steps[k] == SFinish(sid)
    requires forall m :: i < m < k ==> steps[m] != SRelease(sid)
    requires id in xs[i].s.PendingOf(sid) && id in xs[k + 1].s.pending
    ensures SameDue(xs[i].s, xs[k + 1].s, id)
  {
    hide Core, Next, Init, Disturbs;
    forall m | i <= m < k + 1 && id in xs[m].s.dels ensures !Disturbs(xs[m], steps[m], id) {
      PendingUndisturbed(xs, steps, i, m, k + 1, sid, id);
    }
    DueConserved(xs, steps, i, k + 1, id);
  }

  /** Not due, by the clock `now` of the wall, when the session's clock has reached `off`. */
  ghost predicate Later(s: Shared, id: Id, now: int, off: int) {
    id in s.dels && s.Due(id) > now + off
  }

  /** In any run: when a driver that has left its loop by itself makes its last move,
      the clock has gone forward by exactly the span, and nothing that was pending when
      it left the loop, and still is, was due in the window: by the wall clock of
      that moment it is due later than the session time now reached. */
  lemma WindowCovered(xs: seq<Sys>, steps: seq<Step>, i: nat, k: nat, sid: Sid)
    requires Run(xs, steps) && i < k < |steps| && steps[i] == SStop(sid) && steps[k] == SFinish(sid)
    requires forall m :: i < m < k ==> steps[m] != SRelease(sid)
    ensures sid in xs[i].drives && xs[i].drives[sid].errand.Clock?
    ensures var e := xs[i].drives[sid].errand;
      xs[k + 1].s.Off(sid) == e.base + e.span
    ensures forall id :: id in xs[i].s.PendingOf(sid) && id in xs[k + 1].s.pending ==>
      Later(xs[k + 1].s, id, xs[i].now, xs[k + 1].s.Off(sid))
  {
    hide Next, Init, Core, Stops;
    WindowMoves(xs, steps, i, k, sid);
    RunCore(xs, steps, i);
    forall id | id in xs[i].s.PendingOf(sid) && id in xs[k + 1].s.pending
      ensures Later(xs[k + 1].s, id, xs[i].now, xs[k + 1].s.Off(sid))
    {
      WindowKeeps(xs, steps, i, k, sid, id);
      StopLooks(xs[i], xs[i + 1], sid, id);
    }
  }
}
