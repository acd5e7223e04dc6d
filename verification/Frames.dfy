/** What a step of the protocol leaves alone, by the kind of step. */
module Frames {
  import opened Model
  import opened Protocol
  import opened Ownership
  import R = Replay

  /** Steps that move or drop a clock, or say who may. */
  predicate OfClocks(step: Step) {
    step.SAdvance? || step.SFinish? || step.SAcquire? || step.SRelease? || step.SCancelSession? || step.SCancelAll?
  }

  predicate OfDrives(step: Step) {
    step.SAcquire? || step.SQuiet? || step.SAdvance? || step.SStop? || step.SFinish? || step.SRelease?
  }

  predicate OfJobs(step: Step) {
    step.SHand? || step.SCheck? || step.SBegin? || step.SDrop? || step.SAnswer? || step.SSettle? || step.SEnd? || step.SAdvance? || step.SDeliver?
  }

  ghost predicate Framed(x: Sys, y: Sys, step: Step) {
    && x.now <= y.now
    && (!step.SEnqueue? ==> y.s.dels.Keys == x.s.dels.Keys && y.s.issued == x.s.issued)
    && (!OfClocks(step) ==> y.s.offsets == x.s.offsets && y.s.gone == x.s.gone && y.s.exclusive == x.s.exclusive)
    && (!OfDrives(step) ==> y.drives == x.drives)
    && (!OfJobs(step) ==> y.jobs == x.jobs)
    && (!step.SDraft? && !step.SEnqueue? ==> y.drafts == x.drafts)
    && (!step.SEnqueue? && !step.SAnswer? ==> y.hist == x.hist)
  }

  lemma LocalFrames(x: Sys, y: Sys, step: Step)
    requires Next(x, y, step)
    requires step.STick? || step.SDraft? || step.SKick? || step.SEvict? || step.SSleep? || step.SSlot? || step.STimer?
    ensures Framed(x, y, step)
  {
  }

  lemma HoldFrames(x: Sys, y: Sys, step: Step)
    requires Next(x, y, step)
    requires step.SAcquire? || step.SQuiet? || step.SStop? || step.SRelease? || step.SCancelSession? || step.SCancelAll?
    ensures Framed(x, y, step)
  {
    hide Busy, Through, Returning;
  }

  lemma TakeFrames(x: Sys, y: Sys, step: Step)
    requires Next(x, y, step) && (step.SHand? || step.SCheck? || step.SBegin? || step.SDrop?)
    ensures Framed(x, y, step)
  {
  }

  lemma TryFrames(x: Sys, y: Sys, step: Step)
    requires Next(x, y, step) && (step.SAnswer? || step.SSettle? || step.SEnd?)
    ensures Framed(x, y, step)
  {
  }

  lemma QueueFrames(x: Sys, y: Sys, step: Step)
    requires Next(x, y, step) && step.SEnqueue?
    ensures Framed(x, y, step)
  {
  }

  lemma FlagFrames(x: Sys, y: Sys, step: Step)
    requires Next(x, y, step) && step.SFlag?
    ensures Framed(x, y, step)
  {
  }

  lemma DeliverFrames(x: Sys, y: Sys, step: Step)
    requires Next(x, y, step) && step.SDeliver?
    ensures Framed(x, y, step)
  {
  }

  lemma ScanFrames(x: Sys, y: Sys, step: Step)
    requires Next(x, y, step) && step.SScan?
    ensures Framed(x, y, step)
  {
    hide ScanSpec;
    ScanFacts(x.s, x.now, step.due, step.dropped, step.wait);
  }

  lemma MoveFrames(x: Sys, y: Sys, step: Step)
    requires Next(x, y, step) && (step.SAdvance? || step.SFinish?)
    ensures Framed(x, y, step)
  {
    hide IsFirst, Eligible, Shift;
    if step.SAdvance? {
      FirstEligible(x.s, step.sid, step.id);
      ShiftFrame(x.s, step.sid, R.StepTo(x.now, x.s.dels[step.id].fireAt));
    } else {
      ShiftFrame(x.s, step.sid, x.drives[step.sid].errand.left);
    }
  }

  lemma ShiftFrame(s: Shared, sid: Sid, step: int)
    ensures Shift(s, sid, step).dels.Keys == s.dels.Keys && Shift(s, sid, step).issued == s.issued
  {
  }

  lemma NextFrames(x: Sys, y: Sys, step: Step)
    requires Next(x, y, step)
    ensures Framed(x, y, step)
  {
    hide Next, Framed;
    if step.SScan? {
      ScanFrames(x, y, step);
    } else if step.SEnqueue? {
      QueueFrames(x, y, step);
    } else if step.SFlag? {
      FlagFrames(x, y, step);
    } else if step.SDeliver? {
      DeliverFrames(x, y, step);
    } else if step.SAnswer? || step.SSettle? || step.SEnd? {
      TryFrames(x, y, step);
    } else if step.SHand? || step.SCheck? || step.SBegin? || step.SDrop? {
      TakeFrames(x, y, step);
    } else if step.SAdvance? || step.SFinish? {
      MoveFrames(x, y, step);
    } else if step.SAcquire? || step.SQuiet? || step.SStop? || step.SRelease? || step.SCancelSession? || step.SCancelAll? {
      HoldFrames(x, y, step);
    } else {
      LocalFrames(x, y, step);
    }
  }
}
