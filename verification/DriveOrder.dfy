/** The attempts of one drive come in session-time order, in every interleaving in
    which nobody schedules into the past. */
module DriveOrder {
  import opened Model
  import opened Protocol
  import opened Ownership
  import opened Frames
  import opened Footprint
  import opened SessionClocks
  import opened ReplayOrder
  import R = Replay

  // ---------- scheduling numbers ----------

  lemma NumberedNext(x: Sys, y: Sys, step: Step)
    requires Core(x) && Next(x, y, step) && Numbered(x.s)
    ensures Numbered(y.s)
  {
    hide Core, Next;
    NextFits(x, y, step);
    if step.SEnqueue? {
      EnqueueNumbers(x, y, step.id);
    } else {
      NextFrames(x, y, step);
      R.SameNumbers(x.s, y.s);
    }
  }

  lemma EnqueueNumbers(x: Sys, y: Sys, id: Id)
    requires Core(x) && Next(x, y, SEnqueue(id)) && Numbered(x.s)
    ensures Numbered(y.s)
  {
    hide Held, Placed, DrivesFit, Ids, Numbered, Enqueue;
    EnqueueIds(x, y, id);
    EnqueueNumbered(x.s, id, x.drafts[id]);
  }

  lemma EnqueueNumbered(s: Shared, id: Id, d: Del)
    requires Numbered(s) && id !in s.dels
    ensures Numbered(Enqueue(s, id, d))
  {
  }

  /** In any run, at any point, scheduling numbers identify deliveries. */
  lemma {:induction false} RunNumbered(xs: seq<Sys>, steps: seq<Step>, k: nat)
    requires Run(xs, steps) && k < |xs|
    ensures Numbered(xs[k].s)
  {
    hide Core, Next;
    if k > 0 {
      hide Numbered;
      RunNumbered(xs, steps, k - 1);
      RunCore(xs, steps, k - 1);
      NumberedNext(xs[k - 1], xs[k], steps[k - 1]);
    }
  }

  /** What Advance and DeliverNow ask of a session that nobody drives or attempts is
      so at every point of every run. */
  lemma QuietIsIdle(xs: seq<Sys>, steps: seq<Step>, k: nat, sid: Sid)
    requires Run(xs, steps) && k < |xs| && sid != "" && sid !in xs[k].s.exclusive && !Busy(xs[k].s, sid)
    ensures Idle(xs[k].s, sid)
  {
    hide Run, Numbered;
    RunNumbered(xs, steps, k);
    RunCore(xs, steps, k);
    hide Held, Busy;
    forall id | id in xs[k].s.PendingOf(sid) ensures !xs[k].s.dels[id].running {
      NotBusy(xs[k].s, sid, id);
    }
  }

  lemma NotBusy(s: Shared, sid: Sid, id: Id)
    requires !Busy(s, sid) && id in s.PendingOf(sid)
    ensures !s.dels[id].running
  {
  }

  // ---------- behind the last attempt ----------

  /** Place (due, ord) in session time comes no later than (due2, ord2). */
  predicate Ahead(due: int, ord: nat, due2: int, ord2: nat) {
    due < due2 || (due == due2 && ord <= ord2)
  }

  /** Session `sid` is being advanced, and `last` is what its driver attempted last. */
  ghost predicate Drives(x: Sys, sid: Sid, last: Id) {
    && sid in x.drives && !x.drives[sid].Waiting? && x.drives[sid].errand.Clock?
    && last in x.s.dels && x.s.dels[last].sid == sid
    && (Driver(sid) in x.jobs ==> x.jobs[Driver(sid)].id == last)
  }

  ghost predicate PendingBehind(s: Shared, sid: Sid, due: int, ord: nat) {
    forall id :: id in s.PendingOf(sid) ==> Ahead(due, ord, s.Due(id), s.dels[id].ord)
  }

  ghost predicate DraftsBehind(drafts: Dels, sid: Sid, off: int, due: int) {
    forall id :: id in drafts && drafts[id].sid == sid ==> due <= drafts[id].fireAt + off
  }

  /** Everything pending or about to be scheduled comes after the last attempt, which
      was due at session time `due`. */
  ghost predicate Behind(x: Sys, sid: Sid, last: Id, due: int) {
    && Drives(x, sid, last) && due <= x.now + x.s.Off(sid)
    && PendingBehind(x.s, sid, due, x.s.dels[last].ord)
    && DraftsBehind(x.drafts, sid, x.s.Off(sid), due)
  }

  /** Of the deliveries made and not queued yet, none is overdue and due before `id`. */
  ghost predicate NoneOvertaken(x: Sys, sid: Sid, id: Id) {
    id in x.s.dels && forall j :: j in x.drafts && x.drafts[j].sid == sid ==>
      x.drafts[j].fireAt >= x.now || x.drafts[j].fireAt >= x.s.dels[id].fireAt
  }

  /** Nobody schedules into the past of the session, its driver attempts no delivery
      while an earlier one is overdue and still being queued, and it is not released. */
  ghost predicate FairTo(x: Sys, step: Step, sid: Sid) {
    && (step.SDraft? && step.sid == sid ==> step.r.delay >= 0)
    && (step.SAnswer? && step.a in x.jobs && x.jobs[step.a].id in x.s.dels && x.s.dels[x.jobs[step.a].id].sid == sid ==> step.next >= x.now)
    && (step.SAdvance? && step.sid == sid ==> NoneOvertaken(x, sid, step.id))
    && !(step.SRelease? && step.sid == sid)
  }

  /** While the session is driven only its driver has pending deliveries of it in hand. */
  lemma OnlyDriverHolds(x: Sys, sid: Sid, id: Id)
    requires Core(x) && sid in x.drives && !x.drives[sid].Waiting? && id in x.s.PendingOf(sid) && x.s.dels[id].running
    ensures Driver(sid) in x.jobs && x.jobs[Driver(sid)].id == id
    ensures id in x.owner && x.owner[id] == Driver(sid)
  {
  }

  lemma BehindStarts(x: Sys, y: Sys, sid: Sid, id: Id)
    requires Core(x) && Numbered(x.s) && Advances(x, y, sid, id) && NoneOvertaken(x, sid, id)
    ensures id in x.s.dels && id in y.s.dels && y.s.dels[id].ord == x.s.dels[id].ord && Behind(y, sid, id, x.s.Due(id))
  {
    hide Core, Numbered, Shift, Mark, Eligible, IsFirst, DraftsBehind, PendingBehind;
    FirstEligible(x.s, sid, id);
    var step: nat := R.StepTo(x.now, x.s.dels[id].fireAt);
    PendingKnown(x);
    MovedAndMarked(x.s, sid, step, id);
    AllEligible(x, sid);
    FirstAhead(x.s, y.s, sid, id);
    NoneOvertakenBehind(x, sid, id);
  }

  /** What one turn of the loop does before the attempt. */
  lemma MovedAndMarked(s: Shared, sid: Sid, step: nat, id: Id)
    requires s.pending <= s.dels.Keys && id in s.dels
    ensures id in Shift(s, sid, step).dels
    ensures var t := Mark(Shift(s, sid, step), id);
      && t.pending == s.pending && t.dels.Keys == s.dels.Keys && t.Off(sid) == s.Off(sid) + step
      && (forall j :: j in s.dels ==> t.dels[j].sid == s.dels[j].sid && t.dels[j].ord == s.dels[j].ord)
      && (forall j :: j in s.PendingOf(sid) ==> t.Due(j) == s.Due(j))
  {
    hide Shift;
    R.ShiftKeepsDue(s, sid, step);
    R.ShiftKeepsOthers(s, sid, step);
    OrdersKept(s, sid, step);
  }

  lemma OrdersKept(s: Shared, sid: Sid, step: int)
    ensures forall j :: j in s.dels ==>
      && j in Shift(s, sid, step).dels
      && Shift(s, sid, step).dels[j].sid == s.dels[j].sid && Shift(s, sid, step).dels[j].ord == s.dels[j].ord
  {
  }

  lemma NoneOvertakenBehind(x: Sys, sid: Sid, id: Id)
    requires NoneOvertaken(x, sid, id) && x.s.dels[id].sid == sid
    ensures DraftsBehind(x.drafts, sid, x.s.Off(sid) + R.StepTo(x.now, x.s.dels[id].fireAt), x.s.Due(id))
  {
  }

  lemma StillBehind(drafts: Dels, sid: Sid, off: int, off': int, due: int)
    requires DraftsBehind(drafts, sid, off, due) && off <= off'
    ensures DraftsBehind(drafts, sid, off', due)
  {
  }

  lemma PendingKnown(x: Sys)
    requires Core(x)
    ensures x.s.pending <= x.s.dels.Keys && forall id :: id in x.s.pending ==> !x.s.dels[id].canceled
  {
    hide Held, DrivesFit, Ids;
  }

  /** A driver between two attempts can choose from all that is pending. */
  lemma AllEligible(x: Sys, sid: Sid)
    requires Core(x) && Free(x, sid)
    ensures Eligible(x.s, sid) == x.s.PendingOf(sid)
  {
    hide Held, Ids, Placed, DrivesFit, Core;
    PendingKnown(x);
    forall id | id in x.s.PendingOf(sid) ensures !x.s.dels[id].running {
      if x.s.dels[id].running { OnlyDriverHolds(x, sid, id); }
    }
  }

  lemma FirstAhead(s: Shared, t: Shared, sid: Sid, id: Id)
    requires s.pending <= s.dels.Keys && IsFirst(s, s.PendingOf(sid), id)
    requires t.pending == s.pending && t.dels.Keys == s.dels.Keys
    requires forall j :: j in s.dels ==> t.dels[j].sid == s.dels[j].sid
    requires forall j :: j in s.PendingOf(sid) ==> t.Due(j) == s.Due(j) && t.dels[j].ord == s.dels[j].ord
    ensures PendingBehind(t, sid, s.Due(id), s.dels[id].ord)
  {
  }

  // ---------- what other steps leave ----------

  lemma DrivesHeld(x: Sys, y: Sys, step: Step, sid: Sid, last: Id)
    requires Core(x) && Drives(x, sid, last) && Next(x, y, step)
    requires step.SAcquire? || step.SQuiet? || step.SStop? || (step.SRelease? && step.sid != sid)
    ensures sid in y.drives && !y.drives[sid].Waiting? && y.drives[sid].errand.Clock?
    ensures y.jobs == x.jobs
  {
    hide Ids, Held, Placed, Busy, Acquire, Release;
  }

  lemma DrivesOther(x: Sys, y: Sys, step: Step, sid: Sid, last: Id)
    requires Drives(x, sid, last) && Next(x, y, step)
    requires step.SFinish? || ((step.SAdvance? || step.SDeliver?) && step.sid != sid)
    ensures sid in y.drives && !y.drives[sid].Waiting? && y.drives[sid].errand.Clock?
    ensures Driver(sid) in y.jobs ==> y.jobs[Driver(sid)].id == last
  {
    hide IsFirst, Eligible, Shift, Mark;
  }

  lemma DrivesWorked(x: Sys, y: Sys, step: Step, sid: Sid, last: Id)
    requires Drives(x, sid, last) && Next(x, y, step)
    requires step.SHand? || step.SCheck? || step.SBegin? || step.SDrop? || step.SAnswer? || step.SSettle? || step.SEnd?
    ensures y.drives == x.drives && (Driver(sid) in y.jobs ==> y.jobs[Driver(sid)].id == last)
  {
    hide Begin, Unmark, Answer, Settle, MarkFirst;
  }

  lemma DrivesNext(x: Sys, y: Sys, step: Step, sid: Sid, last: Id)
    requires Core(x) && Drives(x, sid, last) && Next(x, y, step) && !(step.SRelease? && step.sid == sid) && !(step.SAdvance? && step.sid == sid)
    ensures Drives(y, sid, last) && y.s.dels[last].ord == x.s.dels[last].ord && y.now >= x.now
  {
    hide Core, Next;
    NextFits(x, y, step);
    NextFrames(x, y, step);
    if step.SDeliver? && step.sid == sid {
      NotItems(x, y, sid, step.id);
    } else if step.SFinish? || step.SAdvance? || step.SDeliver? {
      DrivesOther(x, y, step, sid, last);
    } else if step.SAcquire? || step.SQuiet? || step.SStop? || step.SRelease? {
      DrivesHeld(x, y, step, sid, last);
    } else if step.SHand? || step.SCheck? || step.SBegin? || step.SDrop? || step.SAnswer? || step.SSettle? || step.SEnd? {
      DrivesWorked(x, y, step, sid, last);
    }
  }

  lemma NotItems(x: Sys, y: Sys, sid: Sid, id: Id)
    requires Next(x, y, SDeliver(sid, id))
    ensures sid in x.drives && x.drives[sid].errand.Items?
  {
  }

  /** Cancellations leave the clock of a driven session to its driver. */
  lemma OffNext(x: Sys, y: Sys, step: Step, sid: Sid)
    requires Next(x, y, step) && sid in x.s.exclusive
    requires !((step.SAdvance? || step.SFinish? || step.SRelease?) && step.sid == sid)
    ensures y.s.Off(sid) == x.s.Off(sid)
  {
    hide Next;
    if step.SCancelSession? || step.SCancelAll? || step.SRelease? || step.SAcquire? || step.SQuiet? || step.SStop? {
      HoldOff(x, y, step, sid);
    } else if step.SAdvance? || step.SFinish? {
      DriveOther(x, y, step, sid);
    } else {
      NextFrames(x, y, step);
    }
  }

  lemma HoldOff(x: Sys, y: Sys, step: Step, sid: Sid)
    requires Next(x, y, step) && sid in x.s.exclusive && !(step.SRelease? && step.sid == sid)
    requires step.SCancelSession? || step.SCancelAll? || step.SRelease? || step.SAcquire? || step.SQuiet? || step.SStop?
    ensures y.s.Off(sid) == x.s.Off(sid)
  {
  }

  lemma DriveOther(x: Sys, y: Sys, step: Step, sid: Sid)
    requires Next(x, y, step) && (step.SAdvance? || step.SFinish?) && step.sid != sid
    ensures y.s.Off(sid) == x.s.Off(sid)
  {
    hide IsFirst, Eligible;
  }

  lemma PendingKept(s: Shared, t: Shared, sid: Sid, due: int, ord: nat)
    requires PendingBehind(s, sid, due, ord)
    requires forall id :: id in t.PendingOf(sid) ==>
      (id in s.PendingOf(sid) && t.Due(id) == s.Due(id) && t.dels[id].ord == s.dels[id].ord) || Ahead(due, ord, t.Due(id), t.dels[id].ord)
    ensures PendingBehind(t, sid, due, ord)
  {
  }

  lemma EnqueuedBehind(x: Sys, y: Sys, sid: Sid, last: Id, due: int, queued: Id)
    requires Core(x) && Numbered(x.s) && Behind(x, sid, last, due) && Next(x, y, SEnqueue(queued)) && queued in y.s.PendingOf(sid)
    ensures Ahead(due, x.s.dels[last].ord, y.s.Due(queued), y.s.dels[queued].ord)
  {
    hide Core, PendingBehind;
  }

  /** An answer in the driven session is the answer to the driver's attempt. */
  lemma AnsweredBehind(x: Sys, y: Sys, sid: Sid, last: Id, due: int, step: Step)
    requires Core(x) && Behind(x, sid, last, due) && Next(x, y, step) && step.SAnswer? && FairTo(x, step, sid)
    requires var id := x.jobs[step.a].id; id in y.s.PendingOf(sid) && id in x.s.PendingOf(sid)
    ensures var id := x.jobs[step.a].id;
      Ahead(due, x.s.dels[last].ord, y.s.Due(id), y.s.dels[id].ord)
  {
    hide Core, DraftsBehind;
    var id := x.jobs[step.a].id;
    JobRuns(x, step.a);
    OnlyDriverHolds(x, sid, id);
  }

  lemma JobRuns(x: Sys, a: Agent)
    requires Core(x) && a in x.jobs && x.jobs[a].phase == Begun
    ensures x.jobs[a].id in x.s.dels && x.s.dels[x.jobs[a].id].running
  {
    hide Ids, Placed, DrivesFit;
  }

  lemma PendingNext(x: Sys, y: Sys, step: Step, sid: Sid, last: Id, due: int)
    requires Core(x) && Numbered(x.s) && Behind(x, sid, last, due) && Next(x, y, step) && FairTo(x, step, sid)
    ensures PendingBehind(y.s, sid, due, x.s.dels[last].ord)
  {
    hide Core, Next, Numbered, PendingBehind, DraftsBehind, Ahead, Disturbs;
    NextFits(x, y, step);
    forall id | id in y.s.PendingOf(sid)
      ensures (id in x.s.PendingOf(sid) && y.s.Due(id) == x.s.Due(id) && y.s.dels[id].ord == x.s.dels[id].ord)
        || Ahead(due, x.s.dels[last].ord, y.s.Due(id), y.s.dels[id].ord)
    {
      if id !in x.s.dels {
        NewIsQueued(x, y, step, id);
        EnqueuedBehind(x, y, sid, last, due, id);
      } else if Disturbs(x, step, id) {
        DisturbIsAnswer(x, y, step, sid, id);
        AnsweredBehind(x, y, sid, last, due, step);
      } else {
        DueNext(x, y, step, id);
      }
    }
    PendingKept(x.s, y.s, sid, due, x.s.dels[last].ord);
  }

  lemma NewIsQueued(x: Sys, y: Sys, step: Step, id: Id)
    requires Next(x, y, step) && id in y.s.dels && id !in x.s.dels
    ensures step == SEnqueue(id)
  {
    if step.SEnqueue? { EnqueueDels(x.s, step.id, x.drafts[step.id]); } else { NextFrames(x, y, step); }
  }

  lemma DisturbIsAnswer(x: Sys, y: Sys, step: Step, sid: Sid, id: Id)
    requires Next(x, y, step) && FairTo(x, step, sid) && id in x.s.dels && x.s.dels[id].sid == sid && Disturbs(x, step, id)
    ensures step.SAnswer? && step.a in x.jobs && x.jobs[step.a].id == id
  {
    hide Next;
  }

  lemma DraftsNext(x: Sys, y: Sys, step: Step, sid: Sid, last: Id, due: int)
    requires Behind(x, sid, last, due) && Next(x, y, step) && FairTo(x, step, sid) && y.s.Off(sid) == x.s.Off(sid)
    ensures DraftsBehind(y.drafts, sid, y.s.Off(sid), due)
  {
    hide Next, PendingBehind, Drives;
    DraftsMove(x, y, step);
  }

  /** Drafts are made due their delay from now, and then only leave. */
  lemma DraftsMove(x: Sys, y: Sys, step: Step)
    requires Next(x, y, step)
    ensures forall id :: id in y.drafts ==>
      if step.SDraft? && id == step.id then y.drafts[id].sid == step.sid && y.drafts[id].fireAt == x.now + step.r.delay
      else id in x.drafts && y.drafts[id] == x.drafts[id]
  {
    hide Next;
    NextFrames(x, y, step);
    if step.SDraft? { DraftMade(x, y, step.id, step.sid, step.r); }
    if step.SEnqueue? { DraftQueued(x, y, step.id); }
  }

  lemma DraftMade(x: Sys, y: Sys, id: Id, sid: Sid, r: Request)
    requires Next(x, y, SDraft(id, sid, r))
    ensures y.drafts == x.drafts[id := Draft(sid, r, x.now)]
  {
  }

  lemma DraftQueued(x: Sys, y: Sys, id: Id)
    requires Next(x, y, SEnqueue(id))
    ensures y.drafts == x.drafts - {id}
  {
    hide Enqueue;
  }

  lemma FinishMoves(x: Sys, y: Sys, sid: Sid)
    requires Next(x, y, SFinish(sid))
    ensures y.s.Off(sid) >= x.s.Off(sid) && y.drafts == x.drafts
  {
    hide Eligible;
  }

  lemma BehindNext(x: Sys, y: Sys, step: Step, sid: Sid, last: Id, due: int)
    requires Core(x) && Numbered(x.s) && Behind(x, sid, last, due) && Next(x, y, step) && FairTo(x, step, sid)
    requires !(step.SAdvance? && step.sid == sid)
    ensures Behind(y, sid, last, due) && y.s.dels[last].ord == x.s.dels[last].ord
  {
    hide Core, Next, Numbered, PendingBehind, DraftsBehind;
    DrivesNext(x, y, step, sid, last);
    PendingNext(x, y, step, sid, last, due);
    DrivenExclusive(x, sid);
    if step.SFinish? && step.sid == sid {
      FinishMoves(x, y, sid);
      StillBehind(x.drafts, sid, x.s.Off(sid), y.s.Off(sid), due);
    } else {
      OffNext(x, y, step, sid);
      DraftsNext(x, y, step, sid, last, due);
    }
  }

  lemma DrivenExclusive(x: Sys, sid: Sid)
    requires Core(x)
    ensures sid in x.drives <==> sid in x.s.exclusive
  {
    hide Ids, Held, Placed;
  }

  // ---------- the law ----------

  /** The next attempt of a drive, and what is behind it. */
  lemma NextAttempt(x: Sys, y: Sys, sid: Sid, last: Id, due: int, id: Id)
    requires Core(x) && Numbered(x.s) && Behind(x, sid, last, due) && Next(x, y, SAdvance(sid, id)) && NoneOvertaken(x, sid, id)
    ensures id in x.s.dels && id in y.s.dels && y.s.dels[id].ord == x.s.dels[id].ord && Behind(y, sid, id, x.s.Due(id))
    ensures Ahead(due, x.s.dels[last].ord, x.s.Due(id), x.s.dels[id].ord)
  {
    hide Core, Numbered, Advances;
    FirstOf(x, y, sid, id);
    BehindStarts(x, y, sid, id);
  }

  lemma FirstOf(x: Sys, y: Sys, sid: Sid, id: Id)
    requires Advances(x, y, sid, id)
    ensures id in x.s.PendingOf(sid)
  {
    hide Shift, Mark;
    FirstEligible(x.s, sid, id);
  }

  lemma {:induction false} DriveAt(xs: seq<Sys>, steps: seq<Step>, i: nat, k: nat, sid: Sid) returns (last: Id, due: int)
    requires Run(xs, steps) && i < k < |xs| && steps[i].SAdvance? && steps[i].sid == sid
    requires forall m :: i <= m < k ==> FairTo(xs[m], steps[m], sid)
    ensures Behind(xs[k], sid, last, due) && steps[i].id in xs[i].s.dels
    ensures Ahead(xs[i].s.Due(steps[i].id), xs[i].s.dels[steps[i].id].ord, due, xs[k].s.dels[last].ord)
    decreases k
  {
    hide Core, Next, Init, Numbered, PendingBehind, DraftsBehind;
    RunCore(xs, steps, k - 1);
    RunNumbered(xs, steps, k - 1);
    var x, y, step := xs[k - 1], xs[k], steps[k - 1];
    assert Next(x, y, step) && FairTo(x, step, sid);
    if k - 1 == i {
      last, due := FirstAttempt(x, y, sid, step.id);
    } else {
      last, due := DriveAt(xs, steps, i, k - 1, sid);
      if step.SAdvance? && step.sid == sid {
        NextAttempt(x, y, sid, last, due, step.id);
        last, due := step.id, x.s.Due(step.id);
      } else {
        BehindNext(x, y, step, sid, last, due);
      }
    }
  }

  lemma FirstAttempt(x: Sys, y: Sys, sid: Sid, id: Id) returns (last: Id, due: int)
    requires Core(x) && Numbered(x.s) && Next(x, y, SAdvance(sid, id)) && NoneOvertaken(x, sid, id)
    ensures last == id && id in x.s.dels && id in y.s.dels && due == x.s.Due(id) && y.s.dels[id].ord == x.s.dels[id].ord
    ensures Behind(y, sid, last, due)
  {
    hide Core, Numbered, Advances, Behind;
    BehindStarts(x, y, sid, id);
    last, due := id, x.s.Due(id);
  }

  /** In any run: while a session is not released, nobody schedules into its past and
      no overdue delivery of it is still being queued when a later one is attempted,
      any two attempts of the driver advancing it come in (session due time,
      scheduling number) order, whatever else is scheduled, canceled or attempted
      in between by anyone. */
  lemma DriveInOrder(xs: seq<Sys>, steps: seq<Step>, i: nat, k: nat, sid: Sid)
    requires Run(xs, steps) && i < k < |steps|
    requires steps[i].SAdvance? && steps[i].sid == sid && steps[k].SAdvance? && steps[k].sid == sid
    requires forall m :: i <= m <= k ==> FairTo(xs[m], steps[m], sid)
    ensures var a, b := steps[i].id, steps[k].id;
      && a in xs[i].s.dels && b in xs[k].s.dels
      && Ahead(xs[i].s.Due(a), xs[i].s.dels[a].ord, xs[k].s.Due(b), xs[k].s.dels[b].ord)
  {
    hide Core, Init, Numbered, Advances, PendingBehind, DraftsBehind;
    var last, due := DriveAt(xs, steps, i, k, sid);
    RunCore(xs, steps, k);
    RunNumbered(xs, steps, k);
    assert Next(xs[k], xs[k + 1], steps[k]) && FairTo(xs[k], steps[k], sid);
    NextAttempt(xs[k], xs[k + 1], sid, last, due, steps[k].id);
  }
}
