/** What a cancellation leaves behind: the status in the journal, and the clock of
    a session that somebody is driving. */
module Cancellation {
  import opened Model
  import opened Protocol
  import opened Ownership
  import opened Frames
  import opened Attempts
  import opened JournalAgrees
  import opened SessionClocks
  import R = Replay

  // ---------- the record of a canceled delivery ----------

  /** The journal shows a cancellation. */
  predicate Shown(r: Record) {
    r.status == Canceled && r.next == None
  }

  /** The step is the receiver's answer to an attempt of the delivery. */
  ghost predicate IsAnswer(x: Sys, step: Step, id: Id) {
    step.SAnswer? && step.a in x.jobs && x.jobs[step.a].id == id
  }

  /** What a step does to the record and the answers of a delivery. */
  ghost predicate RecordMoves(x: Sys, y: Sys, step: Step, id: Id) {
    && id in x.s.log && id in y.s.log && id in x.hist && id in y.hist && id in x.s.dels
    && if IsAnswer(x, step, id) then
         |y.hist[id]| == |x.hist[id]| + 1 && y.s.log[id].status != Canceled
       else if step == SFlag(id) then
         y.hist[id] == x.hist[id] && (Shown(x.s.log[id]) || !x.s.dels[id].canceled ==> Shown(y.s.log[id]))
       else
         y.hist[id] == x.hist[id] && (Shown(y.s.log[id]) <==> Shown(x.s.log[id]))
  }

  lemma AnswerMoves(x: Sys, y: Sys, a: Agent, ok: bool, next: int, id: Id)
    requires Answers(x, y, a, ok, next) && id in x.s.dels && id in y.s.log && id in x.hist
    ensures RecordMoves(x, y, SAnswer(a, ok, next), id)
  {
  }

  lemma FlagMoves(x: Sys, y: Sys, flagged: Id, id: Id)
    requires Flags(x, y, flagged) && id in x.s.dels && id in y.s.log && id in x.hist
    ensures RecordMoves(x, y, SFlag(flagged), id)
  {
  }

  lemma DraftMoves(x: Sys, y: Sys, step: Step, id: Id)
    requires Core(x) && Next(x, y, step) && (step.SDraft? || step.SEnqueue?)
    requires id in x.s.dels && id in y.s.log && id in x.hist
    ensures RecordMoves(x, y, step, id)
  {
    hide Core;
    DraftsApart(x);
  }

  lemma ShiftMoves(s: Shared, sid: Sid, step: int, id: Id)
    requires id in Shift(s, sid, step).log
    ensures id in s.log && (Shown(Shift(s, sid, step).log[id]) <==> Shown(s.log[id]))
  {
  }

  lemma DriveMoves(x: Sys, y: Sys, step: Step, id: Id)
    requires Next(x, y, step) && (step.SAdvance? || step.SFinish?)
    requires id in x.s.dels && id in y.s.log && id in x.hist
    ensures RecordMoves(x, y, step, id)
  {
    hide Shift, IsFirst, Eligible, Shown;
    if step.SAdvance? {
      FirstEligible(x.s, step.sid, step.id);
      ShiftMoves(x.s, step.sid, R.StepTo(x.now, x.s.dels[step.id].fireAt), id);
    } else {
      ShiftMoves(x.s, step.sid, x.drives[step.sid].errand.left, id);
    }
  }

  lemma NextMoves(x: Sys, y: Sys, step: Step, id: Id)
    requires Core(x) && Next(x, y, step) && id in x.s.dels && id in y.s.log && id in x.hist
    ensures RecordMoves(x, y, step, id)
  {
    hide Core, Shown, SameShown;
    if step.SAnswer? {
      AnswerMoves(x, y, step.a, step.ok, step.next, id);
    } else if step.SFlag? {
      FlagMoves(x, y, step.id, id);
    } else if step.SDraft? || step.SEnqueue? {
      DraftMoves(x, y, step, id);
    } else if step.SAdvance? || step.SFinish? {
      DriveMoves(x, y, step, id);
    } else {
      OtherMoves(x, y, step, id);
    }
  }

  lemma OtherMoves(x: Sys, y: Sys, step: Step, id: Id)
    requires Next(x, y, step) && id in x.s.dels && id in y.s.log && id in x.hist
    requires !step.SAnswer? && !step.SFlag? && !step.SDraft? && !step.SEnqueue? && !step.SAdvance? && !step.SFinish?
    ensures RecordMoves(x, y, step, id)
  {
    hide Next, Shown, SameShown;
    if step.SScan? || step.SHand? || step.SCheck? || step.SBegin? || step.SDrop? || step.SSettle? || step.SEnd? || step.SDeliver? {
      LeftAlone(x, y, step);
    } else {
      Untouched(x, y, step);
    }
  }

  ghost predicate NoFlag(steps: seq<Step>, i: nat, k: nat, id: Id) {
    forall m :: i < m < k && m < |steps| ==> steps[m] != SFlag(id)
  }

  /** From the flag on: without a further answer the record shows the cancellation,
      and only without one, unless the delivery is flagged again. */
  lemma {:induction false} FlaggedRecord(xs: seq<Sys>, steps: seq<Step>, i: nat, k: nat, id: Id)
    requires Run(xs, steps) && i < k < |xs| && steps[i] == SFlag(id)
    requires id in xs[i].s.dels && !xs[i].s.dels[id].canceled && id in xs[k].s.log
    ensures id in xs[i].hist && id in xs[k].hist && |xs[i].hist[id]| <= |xs[k].hist[id]|
    ensures |xs[k].hist[id]| == |xs[i].hist[id]| ==> Shown(xs[k].s.log[id])
    ensures NoFlag(steps, i, k, id) && Shown(xs[k].s.log[id]) ==> |xs[k].hist[id]| == |xs[i].hist[id]|
    decreases k
  {
    hide Core, Next, Init, Shown;
    assert Next(xs[k - 1], xs[k], steps[k - 1]);
    RunCore(xs, steps, k - 1);
    if k - 1 == i {
      HistKnown(xs[i], id);
      NextMoves(xs[i], xs[k], steps[i], id);
    } else {
      CanceledIsFlagged(xs, steps, i, k - 1, id);
      HistKnown(xs[k - 1], id);
      NextMoves(xs[k - 1], xs[k], steps[k - 1], id);
      FlaggedRecord(xs, steps, i, k - 1, id);
      ShownNotAnswered(xs[k].s.log[id]);
    }
  }

  lemma HistKnown(x: Sys, id: Id)
    requires Core(x) && id in x.s.dels
    ensures id in x.hist
  {
    hide Held, Placed, DrivesFit;
  }

  lemma ShownNotAnswered(r: Record)
    ensures r.status != Canceled ==> !Shown(r)
  {
  }

  /** A flagged delivery is canceled from then on, and at most the attempt under way
      is still answered. */
  lemma CanceledIsFlagged(xs: seq<Sys>, steps: seq<Step>, i: nat, k: nat, id: Id)
    requires Run(xs, steps) && i < k < |xs| && steps[i] == SFlag(id) && id in xs[i].s.dels
    ensures id in xs[k].s.dels && xs[k].s.dels[id].canceled && id in xs[i].hist && id in xs[k].hist
    ensures |xs[k].hist[id]| <= |xs[i].hist[id]| + if Underway(xs[i].jobs, id) then 1 else 0
  {
    hide Next, Init, Core, Underway, Passed;
    FlagLeavesJobs(xs, steps, i, id);
    CanceledIsFinal(xs, steps, i + 1, k, id);
  }

  lemma FlagLeavesJobs(xs: seq<Sys>, steps: seq<Step>, i: nat, id: Id)
    requires Run(xs, steps) && i < |steps| && steps[i] == SFlag(id) && id in xs[i].s.dels
    ensures xs[i + 1].jobs == xs[i].jobs && xs[i + 1].hist == xs[i].hist
    ensures id in xs[i + 1].s.dels && xs[i + 1].s.dels[id].canceled
  {
    assert Next(xs[i], xs[i + 1], steps[i]);
  }

  /** A delivery canceled while no attempt of it is under way keeps the status of the
      cancellation for as long as it is in the journal. In general it shows it,
      between one flag and the next, exactly if no attempt has been answered since. */
  lemma CanceledStatusStays(xs: seq<Sys>, steps: seq<Step>, i: nat, k: nat, id: Id)
    requires Run(xs, steps) && i < k < |xs| && steps[i] == SFlag(id)
    requires id in xs[i].s.dels && !xs[i].s.dels[id].canceled && id in xs[k].s.log
    ensures id in xs[i].hist && id in xs[k].hist
    ensures !Underway(xs[i].jobs, id) ==> Shown(xs[k].s.log[id])
    ensures NoFlag(steps, i, k, id) ==> (Shown(xs[k].s.log[id]) <==> xs[k].hist[id] == xs[i].hist[id])
  {
    hide Run, Shown, NoFlag, Underway;
    FlaggedRecord(xs, steps, i, k, id);
    CanceledIsFlagged(xs, steps, i, k, id);
    HistGrows(xs, steps, i, k, id);
  }

  /** Answers are only ever added. */
  lemma {:induction false} HistGrows(xs: seq<Sys>, steps: seq<Step>, i: nat, k: nat, id: Id)
    requires Run(xs, steps) && i <= k < |xs| && id in xs[i].hist
    ensures id in xs[k].hist && xs[i].hist[id] <= xs[k].hist[id]
    decreases k
  {
    hide Core, Next, Init;
    if i < k {
      assert Next(xs[k - 1], xs[k], steps[k - 1]);
      HistGrows(xs, steps, i, k - 1, id);
      RunCore(xs, steps, k - 1);
      HistStep(xs[k - 1], xs[k], steps[k - 1], id);
    }
  }

  lemma HistStep(x: Sys, y: Sys, step: Step, id: Id)
    requires Core(x) && Next(x, y, step) && id in x.hist
    ensures id in y.hist && x.hist[id] <= y.hist[id]
  {
    hide Core, Next;
    if step.SEnqueue? {
      EnqueueHist(x, y, step.id, id);
    } else if step.SAnswer? {
      AnswerHist(x, y, step, id);
    } else {
      NextFrames(x, y, step);
    }
  }

  lemma EnqueueHist(x: Sys, y: Sys, queued: Id, id: Id)
    requires Core(x) && Next(x, y, SEnqueue(queued)) && id in x.hist
    ensures id in y.hist && y.hist[id] == x.hist[id]
  {
    hide Core, Enqueue;
    DraftsApart(x);
    HistIsDels(x);
  }

  lemma AnswerHist(x: Sys, y: Sys, step: Step, id: Id)
    requires Next(x, y, step) && step.SAnswer? && id in x.hist
    ensures id in y.hist && x.hist[id] <= y.hist[id]
  {
    hide Answer;
  }

  lemma HistIsDels(x: Sys)
    requires Core(x)
    ensures x.hist.Keys == x.s.dels.Keys
  {
    hide Held, Placed, DrivesFit;
  }

  // ---------- an answer after the cancellation ----------

  const ONE := Draft("s", Request("t", "e", 1, None, 0), 0)

  /** The shared state of a dispatcher that has one delivery. */
  function Only(attempts: nat, canceled: bool, running: bool, queued: bool, pending: bool, tries: seq<Try>, status: Status): Shared {
    Shared(map["d" := Del("s", "t", "e", 1, None, 1, attempts, 0, canceled, running, false)],
           if queued then {"d"} else {}, if pending then {"d"} else {}, map[], {}, {}, 1,
           map["d" := Record("d", "s", "t", "e", status, tries, 0, None)])
  }

  /** The same with its scheduler and one worker, once the delivery is queued. */
  function WithOne(s: Shared, sched: Sched, jobs: map<Agent, Job>, owner: map<Id, Agent>, hist: seq<Try>): Sys {
    START.(s := s, sched := sched, kicks := 1, jobs := jobs, owner := owner, hist := map["d" := hist], calls := map["d" := 0])
  }

  /** A delivery canceled between the check of an attempt and its count. */
  function Overtaken(k: nat): Sys {
    var w, t := Worker(0), Try(1, 0, true);
    match k
    case 0 => START
    case 1 => START.(s := LogAdd(EMPTY, "d", ONE), drafts := map["d" := ONE])
    case 2 => WithOne(Only(0, false, false, true, true, [], Pending), Scanning, map[], map[], [])
    case 3 => WithOne(Only(0, false, true, false, true, [], Pending), Handing(["d"], HOUR), map[], map["d" := Scheduler], [])
    case 4 => WithOne(Only(0, false, true, false, true, [], Pending), Handing([], HOUR), map[w := Job("d", 0, Handed)], map["d" := w], [])
    case 5 => WithOne(Only(0, false, true, false, true, [], Pending), Handing([], HOUR), map[w := Job("d", 0, Checked)], map["d" := w], [])
    case 6 => WithOne(Only(0, false, true, false, false, [], Pending), Handing([], HOUR), map[w := Job("d", 0, Checked)], map["d" := w], []).(doomed := multiset{"d"})
    case 7 => WithOne(Only(0, true, true, false, false, [], Canceled), Handing([], HOUR), map[w := Job("d", 0, Checked)], map["d" := w], [])
    case 8 => WithOne(Only(1, true, true, false, false, [], Canceled), Handing([], HOUR), map[w := Job("d", 1, Begun)], map["d" := w], [])
    case _ => WithOne(Only(1, true, true, false, false, [t], Delivered), Handing([], HOUR), map[w := Job("d", 1, Answered(Delivered))], map["d" := w], [t]).(owing := map["d" := w])
  }

  function OvertakenStep(k: nat): Step {
    match k
    case 0 => SDraft("d", "s", Request("t", "e", 1, None, 0))
    case 1 => SEnqueue("d")
    case 2 => SScan(["d"], {}, HOUR)
    case 3 => SHand(0)
    case 4 => SCheck(Worker(0))
    case 5 => SCancelSession("s")
    case 6 => SFlag("d")
    case 7 => SBegin(Worker(0))
    case _ => SAnswer(Worker(0), true, 0)
  }

  lemma OvertakenDue()
    ensures ScanSpec(Overtaken(2).s, 0, ["d"], {}, HOUR)
  {
    assert (set id | id in ["d"]) == {"d"};
  }

  lemma OvertakenScans()
    ensures Next(Overtaken(2), Overtaken(3), OvertakenStep(2))
  {
    hide ScanSpec;
    OvertakenDue();
    var s := Overtaken(2).s;
    assert (set id | id in ["d"]) == {"d"};
    assert Scan(s, ["d"], {}).dels == Overtaken(3).s.dels;
  }

  lemma OvertakenHands()
    ensures Next(Overtaken(3), Overtaken(4), OvertakenStep(3))
  {
    assert ["d"][1..] == [];
  }

  lemma AnswerOnly()
    ensures var s, t := Only(1, true, true, false, false, [], Canceled), Only(1, true, true, false, false, [Try(1, 0, true)], Delivered);
      Answer(s, "d", Try(1, 0, true), 0) == t
  {
    assert [] + [Try(1, 0, true)] == [Try(1, 0, true)];
  }

  lemma OvertakenIsAnswered()
    ensures Next(Overtaken(8), Overtaken(9), OvertakenStep(8))
  {
    hide Answer;
    AnswerOnly();
    assert [] + [Try(1, 0, true)] == [Try(1, 0, true)];
  }

  lemma OvertakenDrops()
    ensures Next(Overtaken(5), Overtaken(6), OvertakenStep(5))
  {
    assert Overtaken(5).s.PendingOf("s") == {"d"};
    assert multiset({"d"}) == multiset{"d"};
    assert Overtaken(5).s.offsets - {"s"} == map[];
  }

  lemma OvertakenNext(k: nat)
    requires k < 9
    ensures Next(Overtaken(k), Overtaken(k + 1), OvertakenStep(k))
  {
    if k == 2 {
      OvertakenScans();
    } else if k == 5 {
      OvertakenDrops();
    } else if k == 3 {
      OvertakenHands();
    } else if k == 8 {
      OvertakenIsAnswered();
    } else if k < 2 {
      OvertakenQueues(k);
    } else if k == 4 {
      OvertakenIsChecked();
    } else if k == 7 {
      OvertakenBegins();
    } else {
      OvertakenFlags();
    }
  }

  lemma OvertakenQueues(k: nat)
    requires k < 2
    ensures Next(Overtaken(k), Overtaken(k + 1), OvertakenStep(k))
  {
  }

  lemma BeginOnly()
    ensures Begin(Only(0, true, true, false, false, [], Canceled), "d") == Only(1, true, true, false, false, [], Canceled)
  {
  }

  lemma FlagOnly()
    ensures Flag(Only(0, false, true, false, false, [], Pending), "d") == Only(0, true, true, false, false, [], Canceled)
  {
  }

  lemma OvertakenIsChecked()
    ensures Next(Overtaken(4), Overtaken(5), OvertakenStep(4))
  {
  }

  lemma OvertakenBegins()
    ensures Next(Overtaken(7), Overtaken(8), OvertakenStep(7))
  {
    hide Begin;
    BeginOnly();
  }

  lemma OvertakenFlags()
    ensures Next(Overtaken(6), Overtaken(7), OvertakenStep(6))
  {
    hide Flag;
    FlagOnly();
  }

  /** An attempt that has passed the check is still counted and sent, and its answer
      overwrites the status of the cancellation. */
  lemma AnswerOverwritesCancellation() returns (xs: seq<Sys>, steps: seq<Step>)
    ensures Run(xs, steps) && |steps| == 9 && steps[6] == SFlag("d")
    ensures "d" in xs[7].s.dels && xs[7].s.dels["d"].attempts == 0 && "d" in xs[7].s.log && Shown(xs[7].s.log["d"])
    ensures "d" in xs[9].s.dels && xs[9].s.dels["d"].canceled && xs[9].s.dels["d"].attempts == 1
    ensures "d" in xs[9].s.log && xs[9].s.log["d"].status == Delivered
  {
    hide Next;
    xs, steps := seq(10, k requires k >= 0 => Overtaken(k)), seq(9, k requires k >= 0 => OvertakenStep(k));
    forall k | 0 <= k < 9 ensures Next(xs[k], xs[k + 1], steps[k]) {
      OvertakenNext(k);
    }
  }

  // ---------- the clock of a driven session ----------

  /** The step may mark session `sid` gone, or release it. */
  predicate Concerns(step: Step, sid: Sid) {
    step.SCancelAll? || ((step.SCancelSession? || step.SRelease?) && step.sid == sid)
  }

  lemma {:induction false} GoneUntilRelease(xs: seq<Sys>, steps: seq<Step>, i: nat, k: nat, sid: Sid)
    requires Run(xs, steps) && i <= k < |xs| && forall m :: i <= m < k ==> !Concerns(steps[m], sid)
    ensures sid in xs[k].s.gone <==> sid in xs[i].s.gone
    decreases k
  {
    hide Next, Init;
    if i < k {
      GoneUntilRelease(xs, steps, i, k - 1, sid);
      assert Next(xs[k - 1], xs[k], steps[k - 1]);
      GoneNext(xs[k - 1], xs[k], steps[k - 1], sid);
    }
  }

  /** In any run: canceling a session that nobody drives takes its deliveries and drops
      its clock at once, and moves no other session's. */
  lemma CancelSessionDropsClock(xs: seq<Sys>, steps: seq<Step>, k: nat, sid: Sid)
    requires Run(xs, steps) && k < |steps| && steps[k] == SCancelSession(sid)
    ensures xs[k + 1].s.PendingOf(sid) == {}
    ensures sid !in xs[k].s.exclusive ==> sid !in xs[k + 1].s.offsets && xs[k + 1].s.Off(sid) == 0
    ensures sid in xs[k].s.exclusive ==> sid in xs[k + 1].s.gone && xs[k + 1].s.Off(sid) == xs[k].s.Off(sid)
    ensures forall other :: other != sid ==> xs[k + 1].s.Off(other) == xs[k].s.Off(other)
  {
    assert Next(xs[k], xs[k + 1], SCancelSession(sid));
  }

  lemma {:induction false} GoneTillRelease(xs: seq<Sys>, steps: seq<Step>, i: nat, k: nat, sid: Sid)
    requires Run(xs, steps) && i <= k < |xs| && sid in xs[i].s.gone && forall m :: i <= m < k ==> steps[m] != SRelease(sid)
    ensures sid in xs[k].s.gone
    decreases k
  {
    hide Next, Init;
    if i < k {
      GoneTillRelease(xs, steps, i, k - 1, sid);
      assert Next(xs[k - 1], xs[k], steps[k - 1]);
      GoneNext(xs[k - 1], xs[k], steps[k - 1], sid);
    }
  }

  /** And a session canceled while it is being driven has no clock after its release,
      whatever happens in between. */
  lemma CanceledDriveDropsClock(xs: seq<Sys>, steps: seq<Step>, i: nat, k: nat, sid: Sid)
    requires Run(xs, steps) && i < k < |steps| && steps[i] == SCancelSession(sid) && steps[k] == SRelease(sid)
    requires sid in xs[i].s.exclusive && forall m :: i < m < k ==> steps[m] != SRelease(sid)
    ensures sid in xs[k].s.gone && sid !in xs[k + 1].s.offsets && xs[k + 1].s.Off(sid) == 0 && sid !in xs[k + 1].s.gone
  {
    assert Next(xs[k], xs[k + 1], SRelease(sid));
    hide Next, Init;
    CancelSessionDropsClock(xs, steps, i, sid);
    GoneTillRelease(xs, steps, i + 1, k, sid);
    ReleaseForgets(xs[k], xs[k + 1], sid);
  }

  lemma ReleaseForgets(x: Sys, y: Sys, sid: Sid)
    requires Next(x, y, SRelease(sid)) && sid in x.s.gone
    ensures sid !in y.s.offsets && y.s.Off(sid) == 0 && sid !in y.s.gone
  {
  }

  /** In any run: canceling everything leaves nothing pending, and no clock to a session
      that nobody drives. */
  lemma CancelAllDropsIdleClocks(xs: seq<Sys>, steps: seq<Step>, k: nat)
    requires Run(xs, steps) && k < |steps| && steps[k] == SCancelAll
    ensures xs[k + 1].s.pending == {} && forall sid :: sid !in xs[k].s.exclusive ==> sid !in xs[k + 1].s.offsets && xs[k + 1].s.Off(sid) == 0
  {
    assert Next(xs[k], xs[k + 1], SCancelAll);
  }

  /** CancelAll drops the clock of a session that is being driven, when its driver
      releases it, exactly if the session had a clock by then or had been canceled
      before; else the clock stands where the driver has brought it. */
  lemma CancelAllDropsDrivenClock(xs: seq<Sys>, steps: seq<Step>, i: nat, k: nat, sid: Sid)
    requires Run(xs, steps) && i < k < |steps| && steps[i] == SCancelAll && steps[k] == SRelease(sid)
    requires sid in xs[i].s.exclusive && forall m :: i < m < k ==> !Concerns(steps[m], sid)
    ensures var dropped := sid in xs[i].s.offsets || sid in xs[i].s.gone;
      && (sid in xs[k].s.gone <==> dropped)
      && xs[k + 1].s.Off(sid) == (if dropped then 0 else xs[k].s.Off(sid))
  {
    assert Next(xs[i], xs[i + 1], SCancelAll) && Next(xs[k], xs[k + 1], SRelease(sid));
    hide Run;
    GoneUntilRelease(xs, steps, i + 1, k, sid);
  }

  /** A session being advanced, of which the dispatcher knows no clock yet. */
  function Ridden(drive: Drive, offsets: map<Sid, int>): Sys {
    START.(s := EMPTY.(exclusive := {"s"}, offsets := offsets), drives := map["s" := drive])
  }

  /** All is canceled while a session without a clock is being advanced by 1 ns. */
  function Survivor(k: nat): Sys {
    match k
    case 0 => START
    case 1 => Ridden(Waiting(Clock(1, 1, 0)), map[])
    case 2 => Ridden(Driving(Clock(1, 1, 0)), map[])
    case 3 => Ridden(Driving(Clock(1, 1, 0)), map[])
    case 4 => Ridden(Stopping(Clock(1, 1, 0)), map[])
    case 5 => Ridden(Ended(Clock(1, 0, 0)), map["s" := 1])
    case _ => START.(s := EMPTY.(offsets := map["s" := 1]), kicks := 1)
  }

  function SurvivorStep(k: nat): Step {
    match k
    case 0 => SAcquire("s", 1, false)
    case 1 => SQuiet("s")
    case 2 => SCancelAll
    case 3 => SStop("s")
    case 4 => SFinish("s")
    case _ => SRelease("s")
  }

  lemma SurvivorStarts(k: nat)
    requires k < 2
    ensures Next(Survivor(k), Survivor(k + 1), SurvivorStep(k))
  {
  }

  lemma SurvivorIsCanceled()
    ensures Next(Survivor(2), Survivor(3), SCancelAll)
  {
    var s: Shared := Survivor(2).s;
    assert CancelAll(s) == s;
  }

  lemma SurvivorStops()
    ensures Next(Survivor(3), Survivor(4), SStop("s"))
  {
  }

  lemma SurvivorMoves()
    ensures Next(Survivor(4), Survivor(5), SFinish("s"))
  {
    var s: Shared := Survivor(4).s;
    assert Earlier(s.dels, s.PendingOf("s"), 1) == map[] && Replanned(s.log, s.dels, s.PendingOf("s"), 1) == map[];
  }

  lemma SurvivorIsReleased()
    ensures Next(Survivor(5), Survivor(6), SRelease("s"))
  {
    assert Release(Survivor(5).s, "s") == Survivor(6).s;
  }

  /** The clock of a session being driven may outlive CancelAll: here the session had
      none when all was canceled, and afterwards it is idle with a clock of 1 ns. */
  lemma CancelAllMissesDrivenClock() returns (xs: seq<Sys>, steps: seq<Step>)
    ensures Run(xs, steps) && |steps| == 6 && steps[2] == SCancelAll && steps[5] == SRelease("s")
    ensures "s" in xs[2].s.exclusive && "s" !in xs[2].s.offsets
    ensures xs[6].s.exclusive == {} && xs[6].s.Off("s") == 1
  {
    hide Next;
    xs, steps := seq(7, k requires k >= 0 => Survivor(k)), seq(6, k requires k >= 0 => SurvivorStep(k));
    forall k | 0 <= k < 6 ensures Next(xs[k], xs[k + 1], steps[k]) {
      if k < 2 {
        SurvivorStarts(k);
      } else if k == 2 {
        SurvivorIsCanceled();
      } else if k == 3 {
        SurvivorStops();
      } else if k == 4 {
        SurvivorMoves();
      } else {
        SurvivorIsReleased();
      }
    }
  }
}
