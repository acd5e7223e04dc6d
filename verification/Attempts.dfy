/** What happens to one delivery over a whole run: its attempts are numbered
    1, 2, ..., stop at the first success or at the limit, and the callback of
    the first one is made exactly once. */
module Attempts {
  import opened Model
  import opened Protocol
  import opened Ownership
  import opened Frames
  import opened Footprint
  import R = Replay

  type Hist = map<Id, seq<Try>>

  // ---------- the invariant for one delivery ----------

  ghost predicate Over(h: seq<Try>, max: int) {
    |h| > 0 && Verdict(|h|, max, h[|h| - 1].ok) != Retrying
  }

  /** The answers so far against the counter, the job in progress if any, and
      whether the delivery is finished. */
  ghost predicate Told(d: Del, h: seq<Try>, j: Option<Job>, retired: bool) {
    var begun := j.Some? && j.value.phase == Begun;
    var answered := j.Some? && j.value.phase.Answered?;
    && (forall k :: 0 <= k < |h| ==> h[k].num == k + 1)
    && (forall k :: 0 <= k < |h| - 1 ==> Verdict(k + 1, d.maxAttempts, h[k].ok) == Retrying)
    && d.attempts == (if begun then |h| + 1 else |h|)
    && (begun ==> j.value.num == |h| + 1)
    && (answered ==> |h| > 0 && j.value.num == |h| && j.value.phase.status == Verdict(|h|, d.maxAttempts, h[|h| - 1].ok))
    && (retired ==> Over(h, d.maxAttempts))
    && (!retired && !answered ==> !Over(h, d.maxAttempts))
  }

  ghost function Current(jobs: Jobs, owner: Owners, id: Id): Option<Job> {
    if id in owner && owner[id] in jobs then Some(jobs[owner[id]]) else None
  }

  ghost predicate AllTold(dels: Dels, jobs: Jobs, owner: Owners, hist: Hist, retired: set<Id>) {
    forall id :: id in dels ==> id in hist && Told(dels[id], hist[id], Current(jobs, owner, id), id in retired)
  }

  /** Whose first attempt is answered and whose callback is still to come. */
  ghost predicate Owes(j: Job) {
    j.num == 1 && (j.phase == Settled || j.phase.Answered?)
  }

  ghost predicate Called(d: Del, h: seq<Try>, owed: bool, calls: nat) {
    && (owed ==> |h| >= 1)
    && calls == (if |h| >= 1 && d.onFirst.Some? && !owed then 1 else 0)
    && (d.firstFired <==> calls == 1)
  }

  ghost predicate AllCalled(dels: Dels, jobs: Jobs, owing: Owners, hist: Hist, calls: map<Id, nat>) {
    && (forall id :: id in owing ==> owing[id] in jobs && jobs[owing[id]].id == id && Owes(jobs[owing[id]]))
    && (forall a :: a in jobs && Owes(jobs[a]) ==> jobs[a].id in owing && owing[jobs[a].id] == a)
    && (forall id :: id in dels ==> id in hist && id in calls && Called(dels[id], hist[id], id in owing, calls[id]))
  }

  ghost predicate Disciplined(x: Sys) {
    && AllTold(x.s.dels, x.jobs, x.owner, x.hist, x.retired)
    && AllCalled(x.s.dels, x.jobs, x.owing, x.hist, x.calls)
  }

  lemma InitDisciplined(x: Sys)
    requires Init(x)
    ensures Disciplined(x)
  {
  }

  // ---------- changes that leave attempts alone ----------

  ghost predicate Plain(j: Option<Job>) {
    j.None? || (j.value.phase != Begun && !j.value.phase.Answered?)
  }

  ghost predicate SameCounts(dels: Dels, dels': Dels) {
    dels'.Keys == dels.Keys && forall id :: id in dels ==>
      && dels'[id].attempts == dels[id].attempts && dels'[id].maxAttempts == dels[id].maxAttempts
      && dels'[id].onFirst == dels[id].onFirst && dels'[id].firstFired == dels[id].firstFired
  }

  lemma TellSame(d: Del, e: Del, h: seq<Try>, j: Option<Job>, j': Option<Job>, retired: bool)
    requires Told(d, h, j, retired) && e.attempts == d.attempts && e.maxAttempts == d.maxAttempts
    requires j' == j || (Plain(j) && Plain(j'))
    ensures Told(e, h, j', retired)
  {
  }

  lemma TellSettled(d: Del, h: seq<Try>, j: Job, retired: bool)
    requires Told(d, h, Some(j), retired) && j.phase.Answered?
    ensures j.phase.status != Retrying ==> Told(d.(running := false), h, None, true)
    ensures j.phase.status == Retrying && !retired ==> Told(d.(running := false), h, None, false)
  {
  }

  lemma SameTold(dels: Dels, dels': Dels, jobs: Jobs, jobs': Jobs, owner: Owners, owner': Owners, hist: Hist, retired: set<Id>)
    requires AllTold(dels, jobs, owner, hist, retired) && SameCounts(dels, dels')
    requires forall id :: id in dels ==>
      Current(jobs', owner', id) == Current(jobs, owner, id) || (Plain(Current(jobs', owner', id)) && Plain(Current(jobs, owner, id)))
    ensures AllTold(dels', jobs', owner', hist, retired)
  {
    forall id | id in dels' ensures id in hist && Told(dels'[id], hist[id], Current(jobs', owner', id), id in retired) {
      TellSame(dels[id], dels'[id], hist[id], Current(jobs, owner, id), Current(jobs', owner', id), id in retired);
    }
  }

  lemma SameCalled(dels: Dels, dels': Dels, jobs: Jobs, jobs': Jobs, owing: Owners, hist: Hist, calls: map<Id, nat>)
    requires AllCalled(dels, jobs, owing, hist, calls) && SameCounts(dels, dels')
    requires forall a :: a in jobs && Owes(jobs[a]) ==> a in jobs' && jobs'[a].id == jobs[a].id && Owes(jobs'[a])
    requires forall a :: a in jobs' && Owes(jobs'[a]) ==> a in jobs && Owes(jobs[a]) && jobs'[a].id == jobs[a].id
    ensures AllCalled(dels', jobs', owing, hist, calls)
  {
  }

  // ---------- one delivery moves on ----------

  lemma NewTold(dels: Dels, jobs: Jobs, owner: Owners, hist: Hist, retired: set<Id>, id: Id, d: Del)
    requires AllTold(dels, jobs, owner, hist, retired) && id !in dels && id !in owner && id !in retired && d.attempts == 0
    ensures AllTold(dels[id := d], jobs, owner, hist[id := []], retired)
  {
  }

  lemma NewCalled(dels: Dels, jobs: Jobs, owing: Owners, hist: Hist, calls: map<Id, nat>, id: Id, d: Del)
    requires AllCalled(dels, jobs, owing, hist, calls) && id !in dels && id !in owing && !d.firstFired
    ensures AllCalled(dels[id := d], jobs, owing, hist[id := []], calls[id := 0])
  {
  }

  lemma BeginTold(dels: Dels, jobs: Jobs, owner: Owners, hist: Hist, retired: set<Id>, a: Agent, id: Id, d: Del)
    requires AllTold(dels, jobs, owner, hist, retired) && id in dels && a in jobs && jobs[a] == Job(id, jobs[a].num, Checked)
    requires id in owner && owner[id] == a && id !in retired && d == dels[id].(attempts := dels[id].attempts + 1)
    requires forall j :: j in owner && owner[j] == a ==> j == id
    ensures AllTold(dels[id := d], jobs[a := Job(id, d.attempts, Begun)], owner, hist, retired)
  {
  }

  lemma AnswerTold(dels: Dels, jobs: Jobs, owner: Owners, hist: Hist, retired: set<Id>, a: Agent, id: Id, d: Del, t: Try)
    requires AllTold(dels, jobs, owner, hist, retired) && id in dels && a in jobs && jobs[a] == Job(id, t.num, Begun)
    requires id in owner && owner[id] == a && d == dels[id].(fireAt := d.fireAt)
    requires forall j :: j in owner && owner[j] == a ==> j == id
    requires id !in retired
    ensures AllTold(dels[id := d], jobs[a := Job(id, t.num, Answered(Verdict(t.num, d.maxAttempts, t.ok)))], owner, hist[id := hist[id] + [t]], retired)
  {
    hide Told;
    assert Current(jobs, owner, id) == Some(jobs[a]);
    TellAnswered(dels[id], d, hist[id], jobs[a], t);
  }

  lemma TellAnswered(d: Del, e: Del, h: seq<Try>, j: Job, t: Try)
    requires Told(d, h, Some(j), false) && j.phase == Begun && j.num == t.num && e == d.(fireAt := e.fireAt)
    ensures Told(e, h + [t], Some(Job(j.id, t.num, Answered(Verdict(t.num, e.maxAttempts, t.ok)))), false)
  {
    var h' := h + [t];
    assert forall k :: 0 <= k < |h| ==> h'[k] == h[k];
  }

  lemma SettleTold(dels: Dels, jobs: Jobs, owner: Owners, hist: Hist, retired: set<Id>, a: Agent, id: Id, d: Del)
    requires AllTold(dels, jobs, owner, hist, retired) && id in dels && a in jobs && jobs[a].id == id && jobs[a].phase.Answered?
    requires id in owner && owner[id] == a && d == dels[id].(running := false)
    requires forall j :: j in owner && owner[j] == a ==> j == id
    ensures jobs[a].phase.status == Retrying && id !in retired ==>
      AllTold(dels[id := d], jobs[a := jobs[a].(phase := Settled)], owner - {id}, hist, retired)
    ensures jobs[a].phase.status != Retrying ==>
      AllTold(dels[id := d], jobs[a := jobs[a].(phase := Settled)], owner - {id}, hist, retired + {id})
  {
    hide Told;
    assert Current(jobs, owner, id) == Some(jobs[a]);
    TellSettled(dels[id], hist[id], jobs[a], id in retired);
    var jobs', owner' := jobs[a := jobs[a].(phase := Settled)], owner - {id};
    assert forall j :: j in dels && j != id ==> Current(jobs', owner', j) == Current(jobs, owner, j);
    assert Current(jobs', owner', id) == None;
  }

  lemma AnswerCalled(dels: Dels, jobs: Jobs, owing: Owners, hist: Hist, calls: map<Id, nat>, a: Agent, id: Id, d: Del, t: Try, status: Status)
    requires AllCalled(dels, jobs, owing, hist, calls) && id in dels && a in jobs && jobs[a] == Job(id, t.num, Begun)
    requires id in hist && t.num == |hist[id]| + 1 && d == dels[id].(fireAt := d.fireAt)
    ensures AllCalled(dels[id := d], jobs[a := Job(id, t.num, Answered(status))], if t.num == 1 then owing[id := a] else owing,
                      hist[id := hist[id] + [t]], calls)
  {
    assert Called(dels[id], hist[id], id in owing, calls[id]);
  }

  lemma EndCalled(dels: Dels, jobs: Jobs, owing: Owners, hist: Hist, calls: map<Id, nat>, a: Agent)
    requires AllCalled(dels, jobs, owing, hist, calls) && a in jobs && jobs[a].phase == Settled && jobs[a].id in dels && jobs[a].id in calls
    ensures jobs[a].num != 1 ==> AllCalled(dels, jobs - {a}, owing, hist, calls)
    ensures jobs[a].num == 1 ==> !dels[jobs[a].id].firstFired
    ensures var id := jobs[a].id;
      jobs[a].num == 1 ==> (
        if dels[id].onFirst.Some?
        then AllCalled(dels[id := dels[id].(firstFired := true)], jobs - {a}, owing - {id}, hist, calls[id := calls[id] + 1])
        else AllCalled(dels, jobs - {a}, owing - {id}, hist, calls))
  {
    var id := jobs[a].id;
    if jobs[a].num == 1 {
      assert Owes(jobs[a]) && Called(dels[id], hist[id], id in owing, calls[id]);
    }
  }

  // ---------- every step keeps the discipline ----------

  /** A step that changes no counter, history or owed callback. */
  lemma DisciplineSame(x: Sys, y: Sys)
    requires Disciplined(x) && SameCounts(x.s.dels, y.s.dels)
    requires y.hist == x.hist && y.calls == x.calls && y.retired == x.retired && y.owing == x.owing
    requires forall id :: id in x.s.dels ==>
      Current(y.jobs, y.owner, id) == Current(x.jobs, x.owner, id) || (Plain(Current(y.jobs, y.owner, id)) && Plain(Current(x.jobs, x.owner, id)))
    requires forall a :: a in x.jobs && Owes(x.jobs[a]) ==> a in y.jobs && y.jobs[a].id == x.jobs[a].id && Owes(y.jobs[a])
    requires forall a :: a in y.jobs && Owes(y.jobs[a]) ==> a in x.jobs && Owes(x.jobs[a]) && y.jobs[a].id == x.jobs[a].id
    ensures Disciplined(y)
  {
    hide AllTold, AllCalled;
    SameTold(x.s.dels, y.s.dels, x.jobs, y.jobs, x.owner, y.owner, x.hist, x.retired);
    SameCalled(x.s.dels, y.s.dels, x.jobs, y.jobs, x.owing, x.hist, x.calls);
  }

  lemma ShiftCounts(s: Shared, sid: Sid, step: int)
    ensures SameCounts(s.dels, Shift(s, sid, step).dels)
  {
  }

  /** What the proofs below need of who holds what. */
  lemma Holders(x: Sys)
    requires Core(x)
    ensures forall id :: id in x.owner && x.owner[id] in x.jobs ==> x.jobs[x.owner[id]].id == id && x.jobs[x.owner[id]].phase != Settled
    ensures forall id :: id in x.owner && x.owner[id] !in x.jobs ==> x.owner[id] == Scheduler
    ensures forall id :: id in x.owner ==> id in x.s.dels && x.s.dels[id].running
    ensures forall a :: a in x.jobs ==> a != Scheduler
    ensures forall a :: a in x.jobs && x.jobs[a].phase != Settled ==> x.jobs[a].id in x.owner && x.owner[x.jobs[a].id] == a
    ensures forall id :: id in x.owner ==> id !in x.retired
  {
    hide DrivesFit, NoDup;
  }

  /** Steps that touch no delivery. */
  lemma DisciplineQuiet(x: Sys, y: Sys, step: Step)
    requires Core(x) && Disciplined(x) && Next(x, y, step)
    requires step.STick? || step.SDraft? || step.SKick? || step.SCancelSession? || step.SCancelAll? || step.SEvict?
          || step.SSleep? || step.SSlot? || step.STimer? || step.SAcquire? || step.SQuiet? || step.SStop? || step.SRelease?
    ensures Disciplined(y)
  {
    hide Core, Disciplined, SameCounts;
    QuietFacts(x, y, step);
    SameDels(x.s.dels);
    DisciplineStill(x, y);
  }

  lemma SameDels(dels: Dels)
    ensures SameCounts(dels, dels)
  {
  }

  lemma QuietFacts(x: Sys, y: Sys, step: Step)
    requires Next(x, y, step)
    requires step.STick? || step.SDraft? || step.SKick? || step.SCancelSession? || step.SCancelAll? || step.SEvict?
          || step.SSleep? || step.SSlot? || step.STimer? || step.SAcquire? || step.SQuiet? || step.SStop? || step.SRelease?
    ensures y.s.dels == x.s.dels && y.jobs == x.jobs && y.owner == x.owner
    ensures y.hist == x.hist && y.calls == x.calls && y.retired == x.retired && y.owing == x.owing
  {
    hide Shift;
  }

  lemma DisciplineFlag(x: Sys, y: Sys, id: Id)
    requires Disciplined(x) && Flags(x, y, id)
    ensures Disciplined(y)
  {
    hide Disciplined;
    DisciplineStill(x, y);
  }

  lemma DisciplineFinish(x: Sys, y: Sys, sid: Sid)
    requires Disciplined(x) && Finishes(x, y, sid)
    ensures Disciplined(y)
  {
    hide Disciplined, Shift;
    ShiftCounts(x.s, sid, x.drives[sid].errand.left);
    DisciplineStill(x, y);
  }

  lemma DisciplineStill(x: Sys, y: Sys)
    requires Disciplined(x) && SameCounts(x.s.dels, y.s.dels) && y.jobs == x.jobs && y.owner == x.owner
    requires y.hist == x.hist && y.calls == x.calls && y.retired == x.retired && y.owing == x.owing
    ensures Disciplined(y)
  {
    hide Disciplined, SameCounts;
    DisciplineSame(x, y);
  }

  lemma DisciplineScan(x: Sys, y: Sys, due: seq<Id>, dropped: set<Id>, wait: int)
    requires Core(x) && Disciplined(x) && Scans(x, y, due, dropped, wait)
    ensures Disciplined(y)
  {
    hide Core, Disciplined, ScanSpec;
    Holders(x);
    NoEmptyDriver(x);
    ScanFacts(x.s, x.now, due, dropped, wait);
    DisciplineSame(x, y);
  }

  lemma DisciplineHand(x: Sys, y: Sys, n: nat)
    requires Core(x) && Disciplined(x) && Hands(x, y, n)
    ensures Disciplined(y)
  {
    hide Core, Disciplined;
    Holders(x);
    DueKnown(x);
    DisciplineSame(x, y);
  }

  lemma DisciplineCheck(x: Sys, y: Sys, a: Agent)
    requires Core(x) && Disciplined(x) && Checks(x, y, a)
    ensures Disciplined(y)
  {
    hide Core, Disciplined;
    DisciplineSame(x, y);
  }

  lemma DisciplineDrop(x: Sys, y: Sys, a: Agent)
    requires Core(x) && Disciplined(x) && Drops(x, y, a)
    ensures Disciplined(y)
  {
    hide Core, Disciplined;
    Holders(x);
    DisciplineSame(x, y);
  }

  lemma DisciplineTake(x: Sys, y: Sys, sid: Sid, id: Id)
    requires Core(x) && Disciplined(x) && id in x.s.dels && !x.s.dels[id].running && Driver(sid) !in x.jobs
    requires SameCounts(x.s.dels, y.s.dels) && y.jobs == x.jobs[Driver(sid) := Job(id, 0, Handed)] && y.owner == x.owner[id := Driver(sid)]
    requires y.hist == x.hist && y.calls == x.calls && y.retired == x.retired && y.owing == x.owing
    ensures Disciplined(y)
  {
    hide Core, Disciplined, SameCounts;
    Holders(x);
    DisciplineSame(x, y);
  }

  lemma DisciplineAdvance(x: Sys, y: Sys, sid: Sid, id: Id)
    requires Core(x) && Disciplined(x) && Advances(x, y, sid, id)
    ensures Disciplined(y)
  {
    hide Core, Disciplined, Shift, IsFirst, Eligible;
    FirstEligible(x.s, sid, id);
    ShiftCounts(x.s, sid, R.StepTo(x.now, x.s.dels[id].fireAt));
    EligibleFree(x.s, sid, id);
    DisciplineTake(x, y, sid, id);
  }

  lemma DisciplineDeliver(x: Sys, y: Sys, sid: Sid, id: Id)
    requires Core(x) && Disciplined(x) && Delivers(x, y, sid, id)
    ensures Disciplined(y)
  {
    hide Core, Disciplined, Eligible;
    EligibleFree(x.s, sid, id);
    DisciplineTake(x, y, sid, id);
  }

  lemma EligibleFree(s: Shared, sid: Sid, id: Id)
    requires id in Eligible(s, sid)
    ensures id in s.dels && !s.dels[id].running
  {
  }

  lemma DisciplineEnqueue(x: Sys, y: Sys, id: Id)
    requires Core(x) && Disciplined(x) && Enqueues(x, y, id)
    ensures Disciplined(y)
  {
    hide AllTold, AllCalled, Held, Placed, DrivesFit;
    Holders(x);
    OwedKnown(x);
    var d := x.drafts[id].(ord := x.s.issued + 1);
    NewTold(x.s.dels, x.jobs, x.owner, x.hist, x.retired, id, d);
    NewCalled(x.s.dels, x.jobs, x.owing, x.hist, x.calls, id, d);
  }

  lemma OwedKnown(x: Sys)
    requires Core(x) && Disciplined(x)
    ensures forall id :: id in x.owing ==> id in x.s.dels
  {
    hide AllTold, Held, Placed, DrivesFit;
  }

  lemma DisciplineBegin(x: Sys, y: Sys, a: Agent)
    requires Core(x) && Disciplined(x) && Begins(x, y, a)
    ensures Disciplined(y)
  {
    hide Core, AllTold, AllCalled;
    Holders(x);
    var id := x.jobs[a].id;
    BeginTold(x.s.dels, x.jobs, x.owner, x.hist, x.retired, a, id, y.s.dels[id]);
    BeginCalled(x.s.dels, x.jobs, x.owing, x.hist, x.calls, a, id, y.s.dels[id], y.jobs[a].num);
  }

  lemma BeginCalled(dels: Dels, jobs: Jobs, owing: Owners, hist: Hist, calls: map<Id, nat>, a: Agent, id: Id, d: Del, num: nat)
    requires AllCalled(dels, jobs, owing, hist, calls) && id in dels && a in jobs && jobs[a].phase == Checked
    requires d == dels[id].(attempts := d.attempts)
    ensures AllCalled(dels[id := d], jobs[a := Job(id, num, Begun)], owing, hist, calls)
  {
  }

  lemma DisciplineAnswer(x: Sys, y: Sys, a: Agent, ok: bool, next: int)
    requires Core(x) && Disciplined(x) && Answers(x, y, a, ok, next)
    ensures Disciplined(y)
  {
    hide Core, AllTold, AllCalled, Answer;
    Holders(x);
    var id := x.jobs[a].id;
    AnswerDels(x.s, id, Try(x.jobs[a].num, x.now, ok), next);
    BegunNum(x, a);
    AnswerTold(x.s.dels, x.jobs, x.owner, x.hist, x.retired, a, id, y.s.dels[id], Try(x.jobs[a].num, x.now, ok));
    AnswerCalled(x.s.dels, x.jobs, x.owing, x.hist, x.calls, a, id, y.s.dels[id], Try(x.jobs[a].num, x.now, ok), y.jobs[a].phase.status);
  }

  lemma AnswerDels(s: Shared, id: Id, t: Try, next: int)
    requires id in s.dels
    ensures var r := Answer(s, id, t, next);
      id in r.dels && r.dels == s.dels[id := r.dels[id]] && r.dels[id] == s.dels[id].(fireAt := r.dels[id].fireAt)
  {
  }

  lemma BegunNum(x: Sys, a: Agent)
    requires Core(x) && Disciplined(x) && a in x.jobs && x.jobs[a].phase == Begun
    ensures x.jobs[a].id in x.hist && x.jobs[a].num == |x.hist[x.jobs[a].id]| + 1
  {
    hide Core, AllCalled;
    Holders(x);
    HolderFacts(x, a);
    assert Current(x.jobs, x.owner, x.jobs[a].id) == Some(x.jobs[a]);
  }

  lemma SettleDels(s: Shared, id: Id, status: Status)
    requires id in s.dels
    ensures Settle(s, id, status).dels == s.dels[id := s.dels[id].(running := false)]
  {
  }

  lemma DisciplineSettle(x: Sys, y: Sys, a: Agent)
    requires Core(x) && Disciplined(x) && Settles(x, y, a)
    ensures Disciplined(y)
  {
    hide Core, AllTold, AllCalled, Settle;
    Holders(x);
    var id := x.jobs[a].id;
    SettleDels(x.s, id, x.jobs[a].phase.status);
    SettleTold(x.s.dels, x.jobs, x.owner, x.hist, x.retired, a, id, x.s.dels[id].(running := false));
    SameCalled(x.s.dels, y.s.dels, x.jobs, y.jobs, x.owing, x.hist, x.calls);
  }

  lemma DisciplineEnd(x: Sys, y: Sys, a: Agent)
    requires Core(x) && Disciplined(x) && Ends(x, y, a)
    ensures Disciplined(y)
  {
    hide Core, AllTold, AllCalled;
    Holders(x);
    EndCalled(x.s.dels, x.jobs, x.owing, x.hist, x.calls, a);
    EndTold(x.s.dels, y.s.dels, x.jobs, x.owner, x.hist, x.retired, a);
  }

  lemma EndTold(dels: Dels, dels': Dels, jobs: Jobs, owner: Owners, hist: Hist, retired: set<Id>, a: Agent)
    requires AllTold(dels, jobs, owner, hist, retired) && a in jobs && dels'.Keys == dels.Keys
    requires forall id :: id in dels ==> dels'[id] == dels[id].(firstFired := dels'[id].firstFired)
    requires forall id :: id in owner ==> owner[id] != a
    ensures AllTold(dels', jobs - {a}, owner, hist, retired)
  {
    forall id | id in dels' ensures id in hist && Told(dels'[id], hist[id], Current(jobs - {a}, owner, id), id in retired) {
      TellSame(dels[id], dels'[id], hist[id], Current(jobs, owner, id), Current(jobs - {a}, owner, id), id in retired);
    }
  }

  lemma DisciplinedNext(x: Sys, y: Sys, step: Step)
    requires Core(x) && Disciplined(x) && Next(x, y, step)
    ensures Disciplined(y)
  {
    hide Core, Disciplined, Flags, Finishes, Enqueues, Scans, Hands, Checks, Begins, Drops, Answers, Settles, Ends, Advances, Delivers;
    match step
    case SFlag(id) => DisciplineFlag(x, y, id);
    case SFinish(sid) => DisciplineFinish(x, y, sid);
    case SEnqueue(id) => DisciplineEnqueue(x, y, id);
    case SScan(due, dropped, wait) => DisciplineScan(x, y, due, dropped, wait);
    case SHand(n) => DisciplineHand(x, y, n);
    case SCheck(a) => DisciplineCheck(x, y, a);
    case SBegin(a) => DisciplineBegin(x, y, a);
    case SDrop(a) => DisciplineDrop(x, y, a);
    case SAnswer(a, ok, next) => DisciplineAnswer(x, y, a, ok, next);
    case SSettle(a) => DisciplineSettle(x, y, a);
    case SEnd(a) => DisciplineEnd(x, y, a);
    case SAdvance(sid, id) => DisciplineAdvance(x, y, sid, id);
    case SDeliver(sid, id) => DisciplineDeliver(x, y, sid, id);
    case _ => DisciplineQuiet(x, y, step);
  }

  lemma {:induction false} RunDisciplined(xs: seq<Sys>, steps: seq<Step>, k: nat)
    requires Run(xs, steps) && k < |xs|
    ensures Disciplined(xs[k])
  {
    hide Core, Disciplined, Next, Init;
    if k == 0 {
      InitDisciplined(xs[0]);
    } else {
      RunDisciplined(xs, steps, k - 1);
      RunCore(xs, steps, k - 1);
      DisciplinedNext(xs[k - 1], xs[k], steps[k - 1]);
    }
  }

  // ---------- the laws ----------

  /** In any run, at any point, for any delivery: its answered attempts are
      numbered 1 to n without a gap, none follows a success, there are no more of
      them than the target allows (or one, if it allows none), and the callback
      has been made once if the first attempt is over and none otherwise: it is owed
      while the job of that attempt has been answered and has not ended. */
  lemma AttemptDiscipline(xs: seq<Sys>, steps: seq<Step>, k: nat, id: Id)
    requires Run(xs, steps) && k < |xs| && id in xs[k].s.dels
    ensures var x := xs[k];
      && id in x.hist && id in x.calls
      && var h, d := x.hist[id], x.s.dels[id];
         && (forall i :: 0 <= i < |h| ==> h[i].num == i + 1)
         && (forall i :: 0 <= i < |h| - 1 ==> !h[i].ok)
         && |h| <= (if d.maxAttempts < 1 then 1 else d.maxAttempts)
         && |h| <= d.attempts <= |h| + 1
         && x.calls[id] == (if |h| >= 1 && d.onFirst.Some? && id !in x.owing then 1 else 0)
         && (id in x.owing <==> exists a :: a in x.jobs && x.jobs[a].id == id && Owes(x.jobs[a]))
         && (id in x.retired ==> |h| > 0 && (h[|h| - 1].ok || |h| >= d.maxAttempts))
  {
    hide Run;
    RunDisciplined(xs, steps, k);
    OwingIs(xs[k], id);
    var x := xs[k];
    var h := x.hist[id];
    assert Told(x.s.dels[id], h, Current(x.jobs, x.owner, id), id in x.retired);
    if |h| > 1 {
      assert Verdict(|h| - 2 + 1, x.s.dels[id].maxAttempts, h[|h| - 2].ok) == Retrying;
    }
  }

  /** A callback is owed exactly while a first attempt that has been answered is not over. */
  lemma OwingIs(x: Sys, id: Id)
    requires Disciplined(x)
    ensures id in x.owing <==> exists a :: a in x.jobs && x.jobs[a].id == id && Owes(x.jobs[a])
  {
    hide AllTold, Called, Owes;
    if id in x.owing { assert x.jobs[x.owing[id]].id == id; }
  }

  // ---------- after a cancellation ----------

  /** Somebody has seen that the delivery is not canceled and has not counted the
      attempt yet. */
  ghost predicate Passed(jobs: Jobs, id: Id) {
    exists a :: a in jobs && jobs[a].id == id && jobs[a].phase == Checked
  }

  /** An attempt is past the check of the flag and not answered. */
  ghost predicate Underway(jobs: Jobs, id: Id) {
    exists a :: a in jobs && jobs[a].id == id && (jobs[a].phase == Checked || jobs[a].phase == Begun)
  }

  ghost predicate OnlyChecks(x: Sys, y: Sys, step: Step) {
    forall a :: a in y.jobs && y.jobs[a].phase == Checked ==> (a in x.jobs && x.jobs[a] == y.jobs[a]) || step == SCheck(a)
  }

  lemma JobChecks(x: Sys, y: Sys, step: Step)
    requires Next(x, y, step) && (step.SCheck? || step.SBegin? || step.SAnswer? || step.SSettle?)
    ensures OnlyChecks(x, y, step)
  {
    hide Begin, Answer, Settle;
  }

  lemma EndChecks(x: Sys, y: Sys, step: Step)
    requires Next(x, y, step) && (step.SDrop? || step.SEnd?)
    ensures OnlyChecks(x, y, step)
  {
    hide Unmark, MarkFirst;
  }

  lemma TakeChecks(x: Sys, y: Sys, step: Step)
    requires Next(x, y, step) && (step.SHand? || step.SAdvance? || step.SDeliver?)
    ensures OnlyChecks(x, y, step)
  {
    hide Shift, Mark, IsFirst, Eligible;
  }

  /** A job passes the check only by a check. */
  lemma ChecksNext(x: Sys, y: Sys, step: Step)
    requires Next(x, y, step)
    ensures OnlyChecks(x, y, step)
  {
    hide Next;
    if step.SCheck? || step.SBegin? || step.SAnswer? || step.SSettle? {
      JobChecks(x, y, step);
    } else if step.SDrop? || step.SEnd? {
      EndChecks(x, y, step);
    } else if step.SHand? || step.SAdvance? || step.SDeliver? {
      TakeChecks(x, y, step);
    } else {
      NextFrames(x, y, step);
    }
  }

  /** What begins was checked before, and nobody else has checked it. */
  lemma BeginPasses(x: Sys, y: Sys, step: Step, id: Id)
    requires Core(x) && Next(x, y, step) && id in BegunBy(x, step)
    ensures Passed(x.jobs, id) && !Passed(y.jobs, id)
  {
    hide Core;
    Holders(x);
  }

  /** The attempts counted so far, and one that has passed the check. */
  ghost function Bound(x: Sys, id: Id): nat
    requires id in x.s.dels
  {
    x.s.dels[id].attempts + if Passed(x.jobs, id) then 1 else 0
  }

  lemma CheckIsNotCanceled(x: Sys, y: Sys, a: Agent)
    requires Next(x, y, SCheck(a))
    ensures a in x.jobs && a in y.jobs && y.jobs[a].id == x.jobs[a].id && x.jobs[a].id in x.s.dels && !x.s.dels[x.jobs[a].id].canceled
  {
  }

  /** Cancellation lets no new attempt past the check. */
  lemma BoundFalls(x: Sys, y: Sys, step: Step, id: Id)
    requires Core(x) && Next(x, y, step) && id in x.s.dels && x.s.dels[id].canceled
    ensures id in y.s.dels && y.s.dels[id].canceled && Bound(y, id) <= Bound(x, id) && x.s.dels[id].attempts <= y.s.dels[id].attempts
  {
    hide Core, Next;
    NextFits(x, y, step);
    ChecksNext(x, y, step);
    if step.SCheck? { CheckIsNotCanceled(x, y, step.a); }
    if id in BegunBy(x, step) { BeginPasses(x, y, step, id); }
  }

  lemma UnderwayCounts(x: Sys, id: Id)
    requires Core(x) && Disciplined(x) && id in x.s.dels
    ensures id in x.hist && Bound(x, id) == |x.hist[id]| + if Underway(x.jobs, id) then 1 else 0
  {
    hide Core, AllCalled;
    Holders(x);
    assert Told(x.s.dels[id], x.hist[id], Current(x.jobs, x.owner, id), id in x.retired);
    if Current(x.jobs, x.owner, id).Some? {
      assert x.jobs[x.owner[id]].id == id;
    }
  }

  lemma {:induction false} BoundHolds(xs: seq<Sys>, steps: seq<Step>, i: nat, k: nat, id: Id)
    requires Run(xs, steps) && i <= k < |xs| && id in xs[i].s.dels && xs[i].s.dels[id].canceled
    ensures id in xs[k].s.dels && xs[k].s.dels[id].canceled && Bound(xs[k], id) <= Bound(xs[i], id)
    ensures xs[i].s.dels[id].attempts <= xs[k].s.dels[id].attempts
    decreases k
  {
    hide Core, Next, Init, Bound;
    if i < k {
      BoundHolds(xs, steps, i, k - 1, id);
      RunCore(xs, steps, k - 1);
      assert Next(xs[k - 1], xs[k], steps[k - 1]);
      BoundFalls(xs[k - 1], xs[k], steps[k - 1], id);
    }
  }

  /** Once canceled, at most one attempt more is counted, and only if it had already
      passed the check of the flag; at most one more is answered, and only if it was
      under way. */
  lemma CanceledIsFinal(xs: seq<Sys>, steps: seq<Step>, i: nat, k: nat, id: Id)
    requires Run(xs, steps) && i <= k < |xs| && id in xs[i].s.dels && xs[i].s.dels[id].canceled
    ensures id in xs[k].s.dels && xs[k].s.dels[id].canceled
    ensures var n, m := xs[i].s.dels[id].attempts, xs[k].s.dels[id].attempts;
      n <= m <= n + if Passed(xs[i].jobs, id) then 1 else 0
    ensures id in xs[i].hist && id in xs[k].hist
    ensures |xs[k].hist[id]| <= |xs[i].hist[id]| + if Underway(xs[i].jobs, id) then 1 else 0
  {
    hide Run, Core, Disciplined, Underway, Passed;
    BoundHolds(xs, steps, i, k, id);
    RunCore(xs, steps, i);
    RunDisciplined(xs, steps, i);
    RunCore(xs, steps, k);
    RunDisciplined(xs, steps, k);
    UnderwayCounts(xs[i], id);
    UnderwayCounts(xs[k], id);
  }
}
