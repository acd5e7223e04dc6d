/** What any single step may do to the deliveries that exist before it. */
module Footprint {
  import opened Model
  import opened Protocol
  import opened Ownership
  import R = Replay

  /** Deliveries are never forgotten or moved to another session; a canceled one
      stays canceled; what has left `pending` stays out. */
  ghost predicate Grown(s: Shared, t: Shared) {
    forall id :: id in s.dels ==> id in t.dels && KeptDel(s.dels[id], t.dels[id]) && (id in t.pending ==> id in s.pending)
  }

  ghost predicate KeptDel(d: Del, e: Del) {
    && e.sid == d.sid && e.ord == d.ord && e.maxAttempts == d.maxAttempts && e.onFirst == d.onFirst
    && (d.canceled ==> e.canceled)
  }

  /** A due time changes when the delivery is answered, or when its session's
      driver moves the clock. */
  ghost predicate TimesFit(s: Shared, t: Shared, answered: set<Id>, moved: set<Sid>) {
    forall id :: id in s.dels && id in t.dels && t.dels[id].fireAt != s.dels[id].fireAt ==>
      id in answered || (s.dels[id].sid in moved && id in s.pending)
  }

  /** An attempt is counted when it begins. */
  ghost predicate CountsFit(s: Shared, t: Shared, begun: set<Id>) {
    forall id :: id in s.dels && id in t.dels ==> t.dels[id].attempts == s.dels[id].attempts + if id in begun then 1 else 0
  }

  ghost function BegunBy(x: Sys, step: Step): set<Id> {
    if step.SBegin? && step.a in x.jobs then {x.jobs[step.a].id} else {}
  }

  ghost function AnsweredBy(x: Sys, step: Step): set<Id> {
    if step.SAnswer? && step.a in x.jobs then {x.jobs[step.a].id} else {}
  }

  ghost function MovedBy(step: Step): set<Sid> {
    if step.SAdvance? || step.SFinish? then {step.sid} else {}
  }

  ghost predicate Fits(x: Sys, y: Sys, step: Step) {
    Grown(x.s, y.s) && TimesFit(x.s, y.s, AnsweredBy(x, step), MovedBy(step)) && CountsFit(x.s, y.s, BegunBy(x, step))
  }

  lemma SameFits(x: Sys, y: Sys, step: Step)
    requires y.s.dels == x.s.dels && y.s.pending <= x.s.pending && !step.SBegin?
    ensures Fits(x, y, step)
  {
  }

  lemma OneFits(x: Sys, y: Sys, step: Step, id: Id, d: Del)
    requires id in x.s.dels && y.s.dels == x.s.dels[id := d] && y.s.pending <= x.s.pending && KeptDel(x.s.dels[id], d)
    requires d.fireAt == x.s.dels[id].fireAt || id in AnsweredBy(x, step)
    requires BegunBy(x, step) <= {id} && d.attempts == x.s.dels[id].attempts + |BegunBy(x, step)|
    ensures Fits(x, y, step)
  {
  }

  /** Steps that leave the shared state, or its deliveries, as they are. */
  lemma StillFits(x: Sys, y: Sys, step: Step)
    requires Next(x, y, step)
    requires step.STick? || step.SKick? || step.SHand? || step.SCheck? || step.SSleep? || step.SSlot? || step.STimer? || step.SQuiet? || step.SStop?
      || step.SDraft? || step.SEvict?
    ensures y.s == x.s.(log := y.s.log) && Fits(x, y, step)
  {
    hide Fits;
    SameFits(x, y, step);
  }

  lemma SessionFits(x: Sys, y: Sys, step: Step)
    requires Next(x, y, step) && (step.SCancelSession? || step.SCancelAll? || step.SAcquire? || step.SRelease?)
    ensures y.s.dels == x.s.dels && Fits(x, y, step)
  {
    hide Fits;
    SameFits(x, y, step);
  }

  lemma JobFits(x: Sys, y: Sys, step: Step)
    requires Next(x, y, step) && (step.SBegin? || step.SDrop?)
    ensures Fits(x, y, step)
  {
    hide Fits;
    OneFits(x, y, step, x.jobs[step.a].id, y.s.dels[x.jobs[step.a].id]);
  }

  lemma SettleFits(x: Sys, y: Sys, a: Agent)
    requires Settles(x, y, a)
    ensures Fits(x, y, SSettle(a))
  {
    hide Fits;
    OneFits(x, y, SSettle(a), x.jobs[a].id, y.s.dels[x.jobs[a].id]);
  }

  lemma EndFits(x: Sys, y: Sys, a: Agent)
    requires Ends(x, y, a)
    ensures Fits(x, y, SEnd(a))
  {
    hide Fits;
    OneFits(x, y, SEnd(a), x.jobs[a].id, y.s.dels[x.jobs[a].id]);
    SameFitsIf(x, y, SEnd(a));
  }

  lemma SameFitsIf(x: Sys, y: Sys, step: Step)
    ensures y.s.dels == x.s.dels && y.s.pending <= x.s.pending && !step.SBegin? ==> Fits(x, y, step)
  {
  }

  lemma AnswerFits(x: Sys, y: Sys, a: Agent, ok: bool, next: int)
    requires Answers(x, y, a, ok, next)
    ensures Fits(x, y, SAnswer(a, ok, next))
  {
    hide Fits;
    var id := x.jobs[a].id;
    assert x.s.dels[id := x.s.dels[id]] == x.s.dels;
    OneFits(x, y, SAnswer(a, ok, next), id, y.s.dels[id]);
  }

  lemma TakeFits(x: Sys, y: Sys, step: Step, id: Id)
    requires (step.SFlag? && Flags(x, y, id)) || (step.SDeliver? && Delivers(x, y, step.sid, id))
    ensures Fits(x, y, step)
  {
    hide Fits;
    SameFitsIf(x, y, step);
    OneFits(x, y, step, id, y.s.dels[id]);
  }

  lemma ScanFits(x: Sys, y: Sys, due: seq<Id>, dropped: set<Id>, wait: int)
    requires Scans(x, y, due, dropped, wait)
    ensures Fits(x, y, SScan(due, dropped, wait))
  {
    hide ScanSpec;
    ScanFacts(x.s, x.now, due, dropped, wait);
  }

  lemma EnqueueFits(x: Sys, y: Sys, id: Id)
    requires Core(x) && Enqueues(x, y, id)
    ensures Fits(x, y, SEnqueue(id))
  {
    hide Ids, Held, Placed, DrivesFit, Enqueue;
    EnqueueIds(x, y, id);
    EnqueueDels(x.s, id, x.drafts[id]);
    NoEmptyDriver(x);
    EnqueuePending(x.s, id, x.drafts[id]);
  }

  lemma EnqueuePending(s: Shared, id: Id, d: Del)
    ensures Enqueue(s, id, d).pending <= s.pending + {id}
  {
  }

  lemma ShiftFits(s: Shared, sid: Sid, step: int)
    ensures Grown(s, Shift(s, sid, step)) && TimesFit(s, Shift(s, sid, step), {}, {sid}) && CountsFit(s, Shift(s, sid, step), {})
  {
  }

  lemma MarkFits(s: Shared, t: Shared, sid: Sid, id: Id)
    requires Grown(s, t) && TimesFit(s, t, {}, {sid}) && CountsFit(s, t, {}) && id in t.dels
    ensures Grown(s, Mark(t, id)) && TimesFit(s, Mark(t, id), {}, {sid}) && CountsFit(s, Mark(t, id), {})
  {
  }

  lemma DriveFits(x: Sys, y: Sys, step: Step)
    requires Next(x, y, step) && (step.SAdvance? || step.SFinish?)
    ensures Fits(x, y, step)
  {
    hide Shift, IsFirst, Eligible, Mark, Grown, TimesFit, CountsFit;
    if step.SAdvance? {
      FirstEligible(x.s, step.sid, step.id);
      var go := R.StepTo(x.now, x.s.dels[step.id].fireAt);
      ShiftAlike(x.s, step.sid, go);
      ShiftFits(x.s, step.sid, go);
      MarkFits(x.s, Shift(x.s, step.sid, go), step.sid, step.id);
    } else {
      ShiftFits(x.s, step.sid, x.drives[step.sid].errand.left);
    }
  }

  lemma NextFits(x: Sys, y: Sys, step: Step)
    requires Core(x) && Next(x, y, step)
    ensures Fits(x, y, step)
  {
    hide Core, Fits, Enqueues, Scans, Answers, Flags, Delivers, Begins, Drops, Settles, Ends, Advances, Finishes,
      CancelsSession, CancelsAll, Acquires, Releases, Drafts, Evicts, Hands, Checks, Quiets, Stops;
    if step.SEnqueue? { EnqueueFits(x, y, step.id); }
    else if step.SScan? { ScanFits(x, y, step.due, step.dropped, step.wait); }
    else if step.SAnswer? { AnswerFits(x, y, step.a, step.ok, step.next); }
    else if step.SFlag? { TakeFits(x, y, step, step.id); }
    else if step.SDeliver? { TakeFits(x, y, step, step.id); }
    else if step.SBegin? || step.SDrop? { JobFits(x, y, step); }
    else if step.SSettle? { SettleFits(x, y, step.a); }
    else if step.SEnd? { EndFits(x, y, step.a); }
    else if step.SAdvance? || step.SFinish? { DriveFits(x, y, step); }
    else if step.SCancelSession? || step.SCancelAll? || step.SAcquire? || step.SRelease? { SessionFits(x, y, step); }
    else { StillFits(x, y, step); }
  }
}
