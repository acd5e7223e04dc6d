/** No wakeup is lost: whenever the scheduler sleeps, nothing in the heap is due
    before its alarm, or somebody is about to wake it. */
module Wakeup {
  import opened Model
  import opened Protocol
  import opened Ownership
  import opened Footprint
  import R = Replay

  // ---------- what is in the heap keeps its key ----------

  ghost predicate Steady(s: Shared, t: Shared) {
    forall id :: id in s.queue && id in s.dels ==>
      id in t.dels && t.dels[id].fireAt == s.dels[id].fireAt && (s.dels[id].canceled ==> t.dels[id].canceled)
  }

  /** The delivery being attempted is not in the heap. */
  lemma HeldNotQueued(x: Sys, a: Agent)
    requires Core(x) && a in x.jobs && x.jobs[a].phase != Settled
    ensures x.jobs[a].id !in x.s.queue
  {
  }

  /** Nothing of an exclusive session is in the heap. */
  lemma DrivenNotQueued(x: Sys, sid: Sid)
    requires Core(x) && sid in x.drives
    ensures x.s.PendingOf(sid) !! x.s.queue
  {
  }

  /** The key a delivery has in the heap never changes under it. */
  lemma QueueSteady(x: Sys, y: Sys, step: Step)
    requires Core(x) && Next(x, y, step)
    ensures Steady(x.s, y.s)
  {
    hide Core, Next;
    NextFits(x, y, step);
    if step.SAnswer? { AnswerNotQueued(x, y, step); }
    if step.SAdvance? || step.SFinish? { DriveNotQueued(x, y, step); }
  }

  lemma AnswerNotQueued(x: Sys, y: Sys, step: Step)
    requires Core(x) && Next(x, y, step) && step.SAnswer?
    ensures AnsweredBy(x, step) !! x.s.queue
  {
    hide Core;
    HeldNotQueued(x, step.a);
  }

  lemma DriveNotQueued(x: Sys, y: Sys, step: Step)
    requires Core(x) && Next(x, y, step) && (step.SAdvance? || step.SFinish?)
    ensures x.s.PendingOf(step.sid) !! x.s.queue
  {
    hide Core, Shift;
    DrivenNotQueued(x, step.sid);
  }

  // ---------- the alarm ----------

  function Alarm(sched: Sched): int
    requires sched != Scanning
  {
    sched.alarm
  }

  ghost predicate NothingBefore(s: Shared, alarm: int) {
    forall id :: id in s.queue && id in s.dels && !s.dels[id].canceled ==> s.dels[id].fireAt >= alarm
  }

  ghost predicate Awake(x: Sys) {
    x.sched == Scanning || x.wake || x.kicks > 0 || NothingBefore(x.s, Alarm(x.sched))
  }

  lemma SteadyAlarm(s: Shared, t: Shared, alarm: int)
    requires NothingBefore(s, alarm) && Steady(s, t) && t.queue <= s.queue && s.queue <= s.dels.Keys
    ensures NothingBefore(t, alarm)
  {
  }

  lemma ScanAlarm(s: Shared, now: int, due: seq<Id>, dropped: set<Id>, wait: int)
    requires s.queue <= s.dels.Keys && ScanSpec(s, now, due, dropped, wait)
    ensures NothingBefore(Scan(s, due, dropped), now + wait)
  {
  }

  /** A step keeps the alarm and adds nothing to the heap, or raises a kick, or
      sends the scheduler back to scan; a full wake slot is emptied only by that. */
  ghost predicate Watched(x: Sys, y: Sys) {
    && (y.sched == Scanning || (x.sched != Scanning && Alarm(y.sched) == Alarm(x.sched)))
    && (y.s.queue <= x.s.queue || y.kicks > 0)
    && (x.wake || x.kicks > 0 ==> y.wake || y.kicks > 0 || y.sched == Scanning)
  }

  lemma LocalWatched(x: Sys, y: Sys, step: Step)
    requires Next(x, y, step)
    requires step.STick? || step.SKick? || step.SHand? || step.SCheck? || step.SSleep? || step.SSlot? || step.STimer? || step.SQuiet? || step.SStop? || step.SDraft? || step.SEvict?
    ensures Watched(x, y)
  {
  }

  lemma SharedWatched(x: Sys, y: Sys, step: Step)
    requires Next(x, y, step) && (step.SCancelSession? || step.SCancelAll? || step.SAcquire? || step.SRelease?)
    ensures y.sched == x.sched && y.wake == x.wake && y.kicks >= x.kicks && (y.s.queue <= x.s.queue || y.kicks > 0)
  {
  }

  lemma OneWatched(x: Sys, y: Sys, step: Step)
    requires Next(x, y, step) && (step.SEnqueue? || step.SFlag?)
    ensures y.sched == x.sched && y.wake == x.wake && y.kicks >= x.kicks && (y.s.queue <= x.s.queue || y.kicks > 0)
  {
  }

  lemma JobWatched(x: Sys, y: Sys, step: Step)
    requires Next(x, y, step) && (step.SBegin? || step.SDrop? || step.SAnswer? || step.SSettle? || step.SEnd?)
    ensures y.sched == x.sched && y.wake == x.wake && y.kicks >= x.kicks && (y.s.queue <= x.s.queue || y.kicks > 0)
  {
  }

  lemma DriveWatched(x: Sys, y: Sys, step: Step)
    requires Next(x, y, step) && (step.SAdvance? || step.SFinish? || step.SDeliver?)
    ensures y.sched == x.sched && y.wake == x.wake && y.kicks == x.kicks && y.s.queue == x.s.queue
  {
    hide Shift, IsFirst, Eligible;
    if step.SAdvance? {
      FirstEligible(x.s, step.sid, step.id);
      ShiftAlike(x.s, step.sid, R.StepTo(x.now, x.s.dels[step.id].fireAt));
    } else if step.SFinish? {
      ShiftAlike(x.s, step.sid, x.drives[step.sid].errand.left);
    }
  }

  lemma AwakeNext(x: Sys, y: Sys, step: Step)
    requires Core(x) && Awake(x) && Next(x, y, step)
    ensures Awake(y)
  {
    hide Core, Next, Steady, NothingBefore;
    if step.SScan? {
      ScanAwake(x, y, step);
    } else {
      QueueSteady(x, y, step);
      QueueKnown(x);
      if step.SBegin? || step.SDrop? || step.SAnswer? || step.SSettle? || step.SEnd? { JobWatched(x, y, step); }
      else if step.SAdvance? || step.SFinish? || step.SDeliver? { DriveWatched(x, y, step); }
      else if step.SCancelSession? || step.SCancelAll? || step.SAcquire? || step.SRelease? { SharedWatched(x, y, step); }
      else if step.SEnqueue? || step.SFlag? { OneWatched(x, y, step); }
      else { LocalWatched(x, y, step); }
      if x.sched != Scanning && NothingBefore(x.s, Alarm(x.sched)) && y.s.queue <= x.s.queue {
        SteadyAlarm(x.s, y.s, Alarm(x.sched));
      }
    }
  }

  lemma ScanAwake(x: Sys, y: Sys, step: Step)
    requires Next(x, y, step) && step.SScan?
    ensures Awake(y)
  {
    hide ScanSpec, NothingBefore;
    ScanAlarm(x.s, x.now, step.due, step.dropped, step.wait);
  }

  lemma QueueKnown(x: Sys)
    requires Core(x)
    ensures x.s.queue <= x.s.dels.Keys
  {
  }

  /** In any run: when the scheduler is not scanning, its wake slot is full, or a
      pusher has pushed and is about to kick, or every delivery in the heap that
      is not canceled is due no earlier than the alarm the scheduler has set. */
  lemma {:induction false} NoLostWakeup(xs: seq<Sys>, steps: seq<Step>, k: nat)
    requires Run(xs, steps) && k < |xs|
    ensures Awake(xs[k])
  {
    hide Core, Next, Awake;
    if k == 0 {
      InitAwake(xs[0]);
    } else {
      NoLostWakeup(xs, steps, k - 1);
      RunCore(xs, steps, k - 1);
      AwakeNext(xs[k - 1], xs[k], steps[k - 1]);
    }
  }

  lemma InitAwake(x: Sys)
    requires Init(x)
    ensures Awake(x)
  {
  }
}
