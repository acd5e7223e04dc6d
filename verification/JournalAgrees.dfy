/** The journal and the live deliveries tell the same story, in every reachable
    interleaving, for every delivery that is not canceled. */
module JournalAgrees {
  import opened Model
  import opened Protocol
  import opened Ownership
  import opened Attempts
  import R = Replay

  // ---------- the invariant for one record ----------

  /** The status the answers so far dictate. */
  function Standing(h: seq<Try>, max: int): Status {
    if h == [] then Pending else Verdict(|h|, max, h[|h| - 1].ok)
  }

  /** The record of a delivery with these answers, due at `fireAt`. */
  ghost predicate Reports(r: Record, h: seq<Try>, max: int, fireAt: int) {
    && r.attempts == h && r.status == Standing(h, max)
    && (r.next.Some? <==> r.status == Retrying)
    && (r.status == Pending || r.status == Retrying ==> r.Planned() == fireAt)
  }

  ghost predicate Agrees(dels: Dels, drafts: Dels, log: map<Id, Record>, hist: Hist) {
    && (forall id :: id in log && id in dels && !dels[id].canceled ==>
          id in hist && Reports(log[id], hist[id], dels[id].maxAttempts, dels[id].fireAt))
    && (forall id :: id in log && id in drafts ==> Reports(log[id], [], drafts[id].maxAttempts, drafts[id].fireAt))
  }

  lemma InitAgrees(x: Sys)
    requires Init(x)
    ensures Agrees(x.s.dels, x.drafts, x.s.log, x.hist)
  {
  }

  // ---------- changes ----------

  /** Nothing a record shows changes. */
  lemma SameAgrees(dels: Dels, dels': Dels, drafts: Dels, log: map<Id, Record>, log': map<Id, Record>, hist: Hist)
    requires Agrees(dels, drafts, log, hist) && dels'.Keys == dels.Keys
    requires forall id :: id in dels ==>
      && dels'[id].maxAttempts == dels[id].maxAttempts && dels'[id].fireAt == dels[id].fireAt
      && (dels[id].canceled ==> dels'[id].canceled)
    requires forall id :: id in log' ==> id in log && (log'[id] == log[id] || (id in dels && dels'[id].canceled && id !in drafts))
    ensures Agrees(dels', drafts, log', hist)
  {
    hide Reports;
  }

  lemma DraftAgrees(dels: Dels, drafts: Dels, log: map<Id, Record>, hist: Hist, id: Id, d: Del, r: Record)
    requires Agrees(dels, drafts, log, hist) && id !in dels && Reports(r, [], d.maxAttempts, d.fireAt)
    ensures Agrees(dels, drafts[id := d], log[id := r], hist)
  {
    hide Reports;
  }

  lemma EnqueueAgrees(dels: Dels, drafts: Dels, log: map<Id, Record>, hist: Hist, id: Id, d: Del)
    requires Agrees(dels, drafts, log, hist) && id in drafts && d.maxAttempts == drafts[id].maxAttempts && d.fireAt == drafts[id].fireAt
    ensures Agrees(dels[id := d], drafts - {id}, log, hist[id := []])
  {
    hide Reports;
  }

  lemma AnswerReports(r: Record, h: seq<Try>, max: int, fireAt: int, t: Try, next: int)
    requires Reports(r, h, max, fireAt) && t.num == |h| + 1
    ensures var status := Verdict(t.num, max, t.ok);
      Reports(Noted(r, t, status, next), h + [t], max, if status == Retrying then next else fireAt)
  {
  }

  lemma AnswerAgrees(dels: Dels, drafts: Dels, log: map<Id, Record>, log': map<Id, Record>, hist: Hist, id: Id, d: Del, t: Try, next: int)
    requires Agrees(dels, drafts, log, hist) && id in dels && id in hist && id !in drafts && t.num == |hist[id]| + 1
    requires var status := Verdict(t.num, dels[id].maxAttempts, t.ok);
      && d == dels[id].(fireAt := if status == Retrying then next else dels[id].fireAt)
      && log' == if id in log then log[id := Noted(log[id], t, status, next)] else log
    ensures Agrees(dels[id := d], drafts, log', hist[id := hist[id] + [t]])
  {
    hide Reports;
    if id in log && !dels[id].canceled {
      AnswerReports(log[id], hist[id], dels[id].maxAttempts, dels[id].fireAt, t, next);
    }
  }

  lemma ReplanReports(r: Record, h: seq<Try>, max: int, fireAt: int, fireAt': int)
    requires Reports(r, h, max, fireAt)
    ensures Reports(Replan(r, fireAt'), h, max, fireAt')
  {
  }

  /** A clock move reaches the record of every delivery it reaches. */
  lemma ShiftAgrees(s: Shared, drafts: Dels, hist: Hist, sid: Sid, step: int)
    requires Agrees(s.dels, drafts, s.log, hist) && drafts.Keys !! s.dels.Keys
    ensures var t := Shift(s, sid, step); Agrees(t.dels, drafts, t.log, hist)
  {
    hide Reports;
    var t := Shift(s, sid, step);
    if step > 0 {
      forall id | id in t.log && id in t.dels && !t.dels[id].canceled
        ensures id in hist && Reports(t.log[id], hist[id], t.dels[id].maxAttempts, t.dels[id].fireAt)
      {
        if id in s.PendingOf(sid) {
          ReplanReports(s.log[id], hist[id], s.dels[id].maxAttempts, s.dels[id].fireAt, s.dels[id].fireAt - step);
        }
      }
    }
  }

  // ---------- every step ----------

  lemma AgreesAnswer(x: Sys, y: Sys, a: Agent, ok: bool, next: int)
    requires Core(x) && Disciplined(x) && Agrees(x.s.dels, x.drafts, x.s.log, x.hist) && Answers(x, y, a, ok, next)
    ensures Agrees(y.s.dels, y.drafts, y.s.log, y.hist)
  {
    hide Core, Disciplined, Agrees;
    BegunNum(x, a);
    NotDraft(x, x.jobs[a].id);
    var id := x.jobs[a].id;
    var d := x.s.dels[id];
    var t := Try(x.jobs[a].num, x.now, ok);
    var d' := d.(fireAt := if Verdict(t.num, d.maxAttempts, ok) == Retrying then next else d.fireAt);
    assert x.s.dels[id := d] == x.s.dels;
    AnswerAgrees(x.s.dels, x.drafts, x.s.log, y.s.log, x.hist, id, d', t, next);
  }

  lemma NotDraft(x: Sys, id: Id)
    requires Core(x) && id in x.s.dels
    ensures id !in x.drafts
  {
    hide Held, Placed, DrivesFit;
  }

  lemma DraftsApart(x: Sys)
    requires Core(x)
    ensures x.drafts.Keys !! x.s.dels.Keys
  {
    hide Held, Placed, DrivesFit;
  }

  lemma AgreesDrive(x: Sys, y: Sys, sid: Sid, id: Id)
    requires Core(x) && Agrees(x.s.dels, x.drafts, x.s.log, x.hist) && (Advances(x, y, sid, id) || Finishes(x, y, sid))
    ensures Agrees(y.s.dels, y.drafts, y.s.log, y.hist)
  {
    hide Core, Agrees, Shift, IsFirst, Eligible;
    DraftsApart(x);
    if Advances(x, y, sid, id) {
      FirstEligible(x.s, sid, id);
      var t := Shift(x.s, sid, R.StepTo(x.now, x.s.dels[id].fireAt));
      ShiftAlike(x.s, sid, R.StepTo(x.now, x.s.dels[id].fireAt));
      ShiftAgrees(x.s, x.drafts, x.hist, sid, R.StepTo(x.now, x.s.dels[id].fireAt));
      SameAgrees(t.dels, y.s.dels, x.drafts, t.log, t.log, x.hist);
    } else {
      ShiftAgrees(x.s, x.drafts, x.hist, sid, x.drives[sid].errand.left);
    }
  }

  lemma AgreesDraft(x: Sys, y: Sys, id: Id, sid: Sid, r: Request)
    requires Agrees(x.s.dels, x.drafts, x.s.log, x.hist) && Drafts(x, y, id, sid, r)
    ensures Agrees(y.s.dels, y.drafts, y.s.log, y.hist)
  {
    hide Agrees;
    DraftAgrees(x.s.dels, x.drafts, x.s.log, x.hist, id, y.drafts[id], y.s.log[id]);
  }

  lemma AgreesEnqueue(x: Sys, y: Sys, id: Id)
    requires Agrees(x.s.dels, x.drafts, x.s.log, x.hist) && Enqueues(x, y, id)
    ensures Agrees(y.s.dels, y.drafts, y.s.log, y.hist)
  {
    hide Agrees;
    EnqueueAgrees(x.s.dels, x.drafts, x.s.log, x.hist, id, x.drafts[id].(ord := x.s.issued + 1));
  }

  /** A canceled delivery's record is no longer its story. */
  lemma AgreesFlag(x: Sys, y: Sys, id: Id)
    requires Core(x) && Agrees(x.s.dels, x.drafts, x.s.log, x.hist) && Flags(x, y, id)
    ensures Agrees(y.s.dels, y.drafts, y.s.log, y.hist)
  {
    hide Core, Agrees, Flag;
    NotDraft(x, id);
    FlagAgrees(x.s, x.drafts, x.hist, id);
  }

  lemma FlagAgrees(s: Shared, drafts: Dels, hist: Hist, id: Id)
    requires Agrees(s.dels, drafts, s.log, hist) && id in s.dels && id !in drafts
    ensures Agrees(Flag(s, id).dels, drafts, Flag(s, id).log, hist)
  {
    hide Reports;
  }

  ghost predicate SameShown(dels: Dels, dels': Dels) {
    && dels'.Keys == dels.Keys
    && forall id :: id in dels ==>
         dels'[id].maxAttempts == dels[id].maxAttempts && dels'[id].fireAt == dels[id].fireAt && dels'[id].canceled == dels[id].canceled
  }

  ghost predicate Same(x: Sys, y: Sys) {
    y.s.log == x.s.log && y.drafts == x.drafts && y.hist == x.hist && SameShown(x.s.dels, y.s.dels)
  }

  lemma ScanAlone(x: Sys, y: Sys, due: seq<Id>, dropped: set<Id>, wait: int)
    requires Scans(x, y, due, dropped, wait)
    ensures Same(x, y)
  {
    hide ScanSpec, SameShown;
    ScanFacts(x.s, x.now, due, dropped, wait);
    ScanShown(x.s, due, dropped);
  }

  lemma BeginAlone(x: Sys, y: Sys, a: Agent)
    requires Begins(x, y, a)
    ensures Same(x, y)
  {
    hide SameShown;
    OneShown(x.s.dels, x.jobs[a].id, y.s.dels[x.jobs[a].id]);
  }

  lemma DropAlone(x: Sys, y: Sys, a: Agent)
    requires Drops(x, y, a)
    ensures Same(x, y)
  {
    hide SameShown;
    OneShown(x.s.dels, x.jobs[a].id, y.s.dels[x.jobs[a].id]);
  }

  lemma SettleAlone(x: Sys, y: Sys, a: Agent)
    requires Settles(x, y, a)
    ensures Same(x, y)
  {
    hide SameShown;
    OneShown(x.s.dels, x.jobs[a].id, y.s.dels[x.jobs[a].id]);
  }

  lemma EndAlone(x: Sys, y: Sys, a: Agent)
    requires Ends(x, y, a)
    ensures Same(x, y)
  {
    hide SameShown;
    OneShown(x.s.dels, x.jobs[a].id, y.s.dels[x.jobs[a].id]);
  }

  /** Every other step leaves due times, answers and records as they are. */
  lemma LeftAlone(x: Sys, y: Sys, step: Step)
    requires Next(x, y, step)
    requires step.SScan? || step.SHand? || step.SCheck? || step.SBegin? || step.SDrop? || step.SSettle? || step.SEnd? || step.SDeliver?
    ensures Same(x, y)
  {
    hide Scans, Begins, Drops, Settles, Ends, SameShown;
    match step
    case SScan(due, dropped, wait) => ScanAlone(x, y, due, dropped, wait);
    case SBegin(a) => BeginAlone(x, y, a);
    case SDrop(a) => DropAlone(x, y, a);
    case SSettle(a) => SettleAlone(x, y, a);
    case SEnd(a) => EndAlone(x, y, a);
    case SDeliver(sid, id) => OneShown(x.s.dels, id, y.s.dels[id]);
    case SHand(n) => SameDelsShown(x.s.dels);
    case SCheck(a) => SameDelsShown(x.s.dels);
  }

  lemma OneShown(dels: Dels, id: Id, d: Del)
    requires id in dels && d.maxAttempts == dels[id].maxAttempts && d.fireAt == dels[id].fireAt && d.canceled == dels[id].canceled
    ensures SameShown(dels, dels[id := d]) && SameShown(dels, dels)
  {
  }

  lemma SameDelsShown(dels: Dels)
    ensures SameShown(dels, dels)
  {
  }

  lemma ScanShown(s: Shared, due: seq<Id>, dropped: set<Id>)
    requires forall id :: id in due ==> id in s.dels
    ensures SameShown(s.dels, Scan(s, due, dropped).dels)
  {
  }

  ghost predicate FewerRecords(x: Sys, y: Sys) {
    && y.s.dels == x.s.dels && y.drafts == x.drafts && y.hist == x.hist
    && forall id :: id in y.s.log ==> id in x.s.log && y.s.log[id] == x.s.log[id]
  }

  lemma LocalUntouched(x: Sys, y: Sys, step: Step)
    requires Next(x, y, step) && (step.STick? || step.SKick? || step.SEvict? || step.SSleep? || step.SSlot? || step.STimer?)
    ensures FewerRecords(x, y)
  {
  }

  lemma SessionUntouched(x: Sys, y: Sys, step: Step)
    requires Next(x, y, step)
    requires step.SCancelSession? || step.SCancelAll? || step.SAcquire? || step.SQuiet? || step.SStop? || step.SRelease?
    ensures FewerRecords(x, y)
  {
    hide Through, Busy;
  }

  lemma Untouched(x: Sys, y: Sys, step: Step)
    requires Next(x, y, step)
    requires step.STick? || step.SKick? || step.SCancelSession? || step.SCancelAll? || step.SEvict? || step.SSleep? || step.SSlot?
      || step.STimer? || step.SAcquire? || step.SQuiet? || step.SStop? || step.SRelease?
    ensures FewerRecords(x, y)
  {
    hide Next, FewerRecords;
    if step.STick? || step.SKick? || step.SEvict? || step.SSleep? || step.SSlot? || step.STimer? {
      LocalUntouched(x, y, step);
    } else {
      SessionUntouched(x, y, step);
    }
  }

  lemma AgreesNext(x: Sys, y: Sys, step: Step)
    requires Core(x) && Disciplined(x) && Agrees(x.s.dels, x.drafts, x.s.log, x.hist) && Next(x, y, step)
    ensures Agrees(y.s.dels, y.drafts, y.s.log, y.hist)
  {
    hide Core, Disciplined, Agrees, Reports, Answers, Advances, Finishes, Drafts, Enqueues, Flags;
    match step
    case SAnswer(a, ok, next) => AgreesAnswer(x, y, a, ok, next);
    case SAdvance(sid, id) => AgreesDrive(x, y, sid, id);
    case SFinish(sid) => AgreesDrive(x, y, sid, "");
    case SDraft(id, sid, r) => AgreesDraft(x, y, id, sid, r);
    case SEnqueue(id) => AgreesEnqueue(x, y, id);
    case SFlag(id) => AgreesFlag(x, y, id);
    case _ =>
      AgreesOther(x, y, step);
  }

  lemma AgreesOther(x: Sys, y: Sys, step: Step)
    requires Agrees(x.s.dels, x.drafts, x.s.log, x.hist) && Next(x, y, step)
    requires !step.SAnswer? && !step.SAdvance? && !step.SFinish? && !step.SDraft? && !step.SEnqueue? && !step.SFlag?
    ensures Agrees(y.s.dels, y.drafts, y.s.log, y.hist)
  {
    hide Agrees, Next;
    if step.SScan? || step.SHand? || step.SCheck? || step.SBegin? || step.SDrop? || step.SSettle? || step.SEnd? || step.SDeliver? {
      LeftAlone(x, y, step);
    } else {
      Untouched(x, y, step);
    }
    SameAgrees(x.s.dels, y.s.dels, x.drafts, x.s.log, y.s.log, x.hist);
  }

  lemma {:induction false} RunAgrees(xs: seq<Sys>, steps: seq<Step>, k: nat)
    requires Run(xs, steps) && k < |xs|
    ensures Agrees(xs[k].s.dels, xs[k].drafts, xs[k].s.log, xs[k].hist)
  {
    hide Core, Disciplined, Agrees, Next, Init;
    if k == 0 {
      InitAgrees(xs[0]);
    } else {
      RunAgrees(xs, steps, k - 1);
      RunCore(xs, steps, k - 1);
      RunDisciplined(xs, steps, k - 1);
      AgreesNext(xs[k - 1], xs[k], steps[k - 1]);
    }
  }

  /** In any run, at any point, for every delivery still in the journal and not
      canceled: the record holds exactly its answers, numbered 1 to n with n its
      counter unless an attempt is under way; its status is what the last answer
      and the limit dictate: pending without an answer, delivered if the receiver took it,
      else retrying below the limit and failed at it; and while it is to be attempted again, the time the
      record shows is the time the delivery is due. */
  lemma JournalTellsTheStory(xs: seq<Sys>, steps: seq<Step>, k: nat, id: Id)
    requires Run(xs, steps) && k < |xs| && id in xs[k].s.log && id in xs[k].s.dels && !xs[k].s.dels[id].canceled
    ensures var x := xs[k];
      var r, d := x.s.log[id], x.s.dels[id];
      && (forall i :: 0 <= i < |r.attempts| ==> r.attempts[i].num == i + 1)
      && |r.attempts| <= d.attempts <= |r.attempts| + 1
      && (!d.running ==> d.attempts == |r.attempts|)
      && r.status == (if |r.attempts| == 0 then Pending
                      else if r.attempts[|r.attempts| - 1].ok then Delivered
                      else if |r.attempts| < d.maxAttempts then Retrying else Failed)
      && (r.next.Some? <==> r.status == Retrying)
      && (r.status == Pending || r.status == Retrying ==> (if r.next.Some? then r.next.value else r.fireAt) == d.fireAt)
      && (id in x.s.queue || (id in x.s.pending && !d.running) ==> r.status == Pending || r.status == Retrying)
  {
    hide Run, Core, Disciplined;
    RunAgrees(xs, steps, k);
    AttemptDiscipline(xs, steps, k, id);
    RunCore(xs, steps, k);
    RunDisciplined(xs, steps, k);
    assert Reports(xs[k].s.log[id], xs[k].hist[id], xs[k].s.dels[id].maxAttempts, xs[k].s.dels[id].fireAt);
    Resting(xs[k], id);
  }

  /** A delivery nobody holds has no attempt under way; one in the heap or parked for
      a driver is not finished. */
  lemma Resting(x: Sys, id: Id)
    requires Core(x) && Disciplined(x) && id in x.s.dels
    ensures id in x.hist && (!x.s.dels[id].running ==> x.s.dels[id].attempts == |x.hist[id]|)
    ensures id in x.s.queue || (id in x.s.pending && !x.s.dels[id].running) ==> !Over(x.hist[id], x.s.dels[id].maxAttempts)
  {
    hide AllCalled, DrivesFit, NoDup;
    if !x.s.dels[id].running { assert Current(x.jobs, x.owner, id) == None; }
  }
}
