/** The dispatcher as a concurrent protocol: one scheduler, any number of
    workers, one driver per exclusive session, and anyone scheduling or
    canceling. Each step is one section under the dispatcher's mutex, or one
    action outside it; steps interleave freely. */
module Protocol {
  import opened Model
  import R = Replay

  datatype Agent = Scheduler | Worker(n: nat) | Driver(sid: Sid)

  /** How far an attempt has come: taken, seen not to be canceled, counted and sent,
      answered, settled. `num` is 0 until it is counted. */
  datatype Phase = Handed | Checked | Begun | Answered(status: Status) | Settled

  datatype Job = Job(id: Id, num: nat, phase: Phase)

  /** The scheduler's program counter. `alarm` is scan time plus computed wait. */
  datatype Sched = Scanning | Handing(due: seq<Id>, alarm: int) | Asleep(alarm: int)

  /** What a driver came for: moving the clock by `span`, of which `left` is still
      to go, from an offset of `base`; or delivering named items. */
  datatype Errand = Clock(span: int, left: int, base: int) | Items

  /** A driver waits for running attempts, drives, and after covering its window
      (`Stopping`) moves the clock to the end of it. */
  datatype Drive = Waiting(errand: Errand) | Driving(errand: Errand) | Stopping(errand: Errand) | Ended(errand: Errand)

  /** `kicks` counts pushers that have pushed and not kicked yet; `doomed` are the
      deliveries cancelers have taken and not flagged yet; `drafts` are logged and
      not queued yet. The last five fields only record what happened: who set
      `running`, who owes a first-attempt callback, the answers so far, the
      callbacks made, and which deliveries an attempt has finished. */
  datatype Sys = Sys(
    s: Shared, now: int, sched: Sched, wake: bool, kicks: nat,
    jobs: map<Agent, Job>, drives: map<Sid, Drive>,
    doomed: multiset<Id>, drafts: map<Id, Del>,
    owner: map<Id, Agent>, owing: map<Id, Agent>, hist: map<Id, seq<Try>>,
    calls: map<Id, nat>, retired: set<Id>)

  ghost predicate Init(x: Sys) {
    && x.s == EMPTY && x.sched == Scanning && !x.wake && x.kicks == 0
    && x.jobs == map[] && x.drives == map[] && x.doomed == multiset{} && x.drafts == map[]
    && x.owner == map[] && x.owing == map[] && x.hist == map[] && x.calls == map[] && x.retired == {}
  }

  /** A run may start at any time, and so at 0. */
  const START := Sys(EMPTY, 0, Scanning, false, 0, map[], map[], multiset{}, map[], map[], map[], map[], map[], {})

  // ---------- time, scheduling, canceling, the journal ----------

  ghost predicate Tick(x: Sys, y: Sys) { x.now <= y.now && y == x.(now := y.now) }

  /** Schedule up to the lock: a new id, a journal record, a due time. */
  ghost predicate Drafts(x: Sys, y: Sys, id: Id, sid: Sid, r: Request) {
    && id !in x.s.dels && id !in x.drafts
    && y == x.(s := LogAdd(x.s, id, Draft(sid, r, x.now)), drafts := x.drafts[id := Draft(sid, r, x.now)])
  }

  ghost predicate Enqueues(x: Sys, y: Sys, id: Id) {
    && id in x.drafts
    && y == x.(s := Enqueue(x.s, id, x.drafts[id]), drafts := x.drafts - {id}, kicks := x.kicks + 1,
               hist := x.hist[id := []], calls := x.calls[id := 0])
  }

  ghost predicate Kicks(x: Sys, y: Sys) {
    x.kicks > 0 && y == x.(kicks := x.kicks - 1, wake := true)
  }

  ghost predicate CancelsSession(x: Sys, y: Sys, sid: Sid) {
    y == x.(s := CancelSession(x.s, sid), doomed := x.doomed + multiset(x.s.PendingOf(sid)))
  }

  ghost predicate CancelsAll(x: Sys, y: Sys) {
    y == x.(s := CancelAll(x.s), doomed := x.doomed + multiset(x.s.queue + x.s.pending))
  }

  ghost predicate Flags(x: Sys, y: Sys, id: Id) {
    && id in x.doomed && id in x.s.dels
    && (y == x.(s := Flag(x.s, id), doomed := x.doomed - multiset{id})
        || (x.s.dels[id].canceled && y == x.(doomed := x.doomed - multiset{id})))
  }

  /** A journal record rotates out or is cleared. */
  ghost predicate Evicts(x: Sys, y: Sys, id: Id) {
    y == x.(s := x.s.(log := x.s.log - {id}))
  }

  // ---------- the scheduler ----------

  ghost predicate Scans(x: Sys, y: Sys, due: seq<Id>, dropped: set<Id>, wait: int) {
    && x.sched == Scanning && x.s.queue <= x.s.dels.Keys && ScanSpec(x.s, x.now, due, dropped, wait)
    && y == x.(s := Scan(x.s, due, dropped), sched := Handing(due, x.now + wait),
               owner := map id | id in x.owner.Keys + (set j | j in due) :: if id in due then Scheduler else x.owner[id])
  }

  ghost predicate Hands(x: Sys, y: Sys, n: nat) {
    && x.sched.Handing? && x.sched.due != [] && Worker(n) !in x.jobs
    && var id := x.sched.due[0];
       y == x.(sched := x.sched.(due := x.sched.due[1..]), jobs := x.jobs[Worker(n) := Job(id, 0, Handed)],
               owner := x.owner[id := Worker(n)])
  }

  ghost predicate Sleeps(x: Sys, y: Sys) {
    x.sched.Handing? && x.sched.due == [] && y == x.(sched := Asleep(x.sched.alarm))
  }

  ghost predicate WakesBySlot(x: Sys, y: Sys) {
    x.sched.Asleep? && x.wake && y == x.(sched := Scanning, wake := false)
  }

  ghost predicate WakesByTimer(x: Sys, y: Sys) {
    x.sched.Asleep? && x.now >= x.sched.alarm && y == x.(sched := Scanning)
  }

  // ---------- an attempt ----------

  ghost predicate At(x: Sys, a: Agent, phase: Phase) {
    a in x.jobs && x.jobs[a].phase == phase && x.jobs[a].id in x.s.dels
  }

  ghost predicate Checks(x: Sys, y: Sys, a: Agent) {
    && At(x, a, Handed) && !x.s.dels[x.jobs[a].id].canceled
    && y == x.(jobs := x.jobs[a := x.jobs[a].(phase := Checked)])
  }

  ghost predicate Begins(x: Sys, y: Sys, a: Agent) {
    && At(x, a, Checked)
    && var id := x.jobs[a].id;
       y == x.(s := Begin(x.s, id), jobs := x.jobs[a := Job(id, x.s.dels[id].attempts + 1, Begun)])
  }

  ghost predicate Drops(x: Sys, y: Sys, a: Agent) {
    && At(x, a, Handed) && x.s.dels[x.jobs[a].id].canceled
    && var id := x.jobs[a].id;
       y == x.(s := Unmark(x.s, id), jobs := x.jobs - {a}, owner := x.owner - {id})
  }

  ghost predicate Answers(x: Sys, y: Sys, a: Agent, ok: bool, next: int) {
    && At(x, a, Begun) && x.jobs[a].id in x.hist
    && var id, num := x.jobs[a].id, x.jobs[a].num;
       var t := Try(num, x.now, ok);
       y == x.(s := Answer(x.s, id, t, next),
               jobs := x.jobs[a := Job(id, num, Answered(Verdict(num, x.s.dels[id].maxAttempts, ok)))],
               hist := x.hist[id := x.hist[id] + [t]],
               owing := if num == 1 then x.owing[id := a] else x.owing)
  }

  ghost predicate Settles(x: Sys, y: Sys, a: Agent) {
    && a in x.jobs && x.jobs[a].phase.Answered? && x.jobs[a].id in x.s.dels
    && var id, status := x.jobs[a].id, x.jobs[a].phase.status;
       y == x.(s := Settle(x.s, id, status), jobs := x.jobs[a := x.jobs[a].(phase := Settled)], owner := x.owner - {id},
               kicks := if status == Retrying then x.kicks + 1 else x.kicks,
               retired := if status == Retrying then x.retired else x.retired + {id})
  }

  /** The end of an attempt; after the first one, the callback. */
  ghost predicate Ends(x: Sys, y: Sys, a: Agent) {
    && At(x, a, Settled) && x.jobs[a].id in x.calls
    && var id, num := x.jobs[a].id, x.jobs[a].num;
       var d := x.s.dels[id];
       var call := num == 1 && d.onFirst.Some? && !d.firstFired;
       y == x.(s := if call then MarkFirst(x.s, id) else x.s, jobs := x.jobs - {a},
               calls := if call then x.calls[id := x.calls[id] + 1] else x.calls,
               owing := if num == 1 then x.owing - {id} else x.owing)
  }

  // ---------- drivers ----------

  ghost predicate Acquires(x: Sys, y: Sys, sid: Sid, span: int, items: bool) {
    && sid != "" && sid !in x.s.exclusive && span >= 0
    && y == x.(s := Acquire(x.s, sid),
               drives := x.drives[sid := Waiting(if items then Items else Clock(span, span, x.s.Off(sid)))])
  }

  ghost predicate Quiets(x: Sys, y: Sys, sid: Sid) {
    && sid in x.drives && x.drives[sid].Waiting? && !Busy(x.s, sid)
    && y == x.(drives := x.drives[sid := Driving(x.drives[sid].errand)])
  }

  ghost predicate Free(x: Sys, sid: Sid) {
    sid in x.drives && x.drives[sid].Driving? && Driver(sid) !in x.jobs
  }

  /** One round of Advance: move the clock to the first delivery and take it. */
  ghost predicate Advances(x: Sys, y: Sys, sid: Sid, id: Id) {
    && Free(x, sid) && x.drives[sid].errand.Clock? && sid !in x.s.gone
    && IsFirst(x.s, Eligible(x.s, sid), id)
    && var e := x.drives[sid].errand;
       var step := R.StepTo(x.now, x.s.dels[id].fireAt);
       && step <= e.left
       && y == x.(s := Mark(Shift(x.s, sid, step), id), jobs := x.jobs[Driver(sid) := Job(id, 0, Handed)],
                  drives := x.drives[sid := Driving(e.(left := e.left - step))], owner := x.owner[id := Driver(sid)])
  }

  ghost predicate Delivers(x: Sys, y: Sys, sid: Sid, id: Id) {
    && Free(x, sid) && x.drives[sid].errand.Items? && sid !in x.s.gone && id in Eligible(x.s, sid)
    && y == x.(s := Mark(x.s, id), jobs := x.jobs[Driver(sid) := Job(id, 0, Handed)], owner := x.owner[id := Driver(sid)])
  }

  /** Nothing that a driver could take is due within what is left of its span. */
  ghost predicate Through(x: Sys, sid: Sid, left: int) {
    forall id :: id in Eligible(x.s, sid) ==> R.StepTo(x.now, x.s.dels[id].fireAt) > left
  }

  /** The loop of Advance ends by itself. */
  ghost predicate Stops(x: Sys, y: Sys, sid: Sid) {
    && Free(x, sid) && x.drives[sid].errand.Clock?
    && (sid in x.s.gone || Through(x, sid, x.drives[sid].errand.left))
    && y == x.(drives := x.drives[sid := Stopping(x.drives[sid].errand)])
  }

  ghost predicate Finishes(x: Sys, y: Sys, sid: Sid) {
    && sid in x.drives && x.drives[sid].Stopping? && x.drives[sid].errand.Clock? && sid !in x.s.gone
    && var e := x.drives[sid].errand;
       y == x.(s := Shift(x.s, sid, e.left), drives := x.drives[sid := Ended(e.(left := 0))])
  }

  /** Release, at the end of a drive, when one is cut short, or when acquire gives up. */
  ghost predicate Releases(x: Sys, y: Sys, sid: Sid) {
    && sid in x.drives && Driver(sid) !in x.jobs && (x.drives[sid].Stopping? ==> sid in x.s.gone)
    && y == x.(s := Release(x.s, sid), drives := x.drives - {sid}, kicks := x.kicks + 1)
  }

  // ---------- runs ----------

  datatype Step =
    | STick | SDraft(id: Id, sid: Sid, r: Request) | SEnqueue(id: Id) | SKick
    | SCancelSession(sid: Sid) | SCancelAll | SFlag(id: Id) | SEvict(id: Id)
    | SScan(due: seq<Id>, dropped: set<Id>, wait: int) | SHand(n: nat) | SSleep | SSlot | STimer
    | SCheck(a: Agent) | SBegin(a: Agent) | SDrop(a: Agent) | SAnswer(a: Agent, ok: bool, next: int) | SSettle(a: Agent) | SEnd(a: Agent)
    | SAcquire(sid: Sid, span: int, items: bool) | SQuiet(sid: Sid) | SAdvance(sid: Sid, id: Id) | SDeliver(sid: Sid, id: Id)
    | SStop(sid: Sid) | SFinish(sid: Sid) | SRelease(sid: Sid)

  ghost predicate Next(x: Sys, y: Sys, step: Step) {
    match step
    case STick => Tick(x, y)
    case SDraft(id, sid, r) => Drafts(x, y, id, sid, r)
    case SEnqueue(id) => Enqueues(x, y, id)
    case SKick => Kicks(x, y)
    case SCancelSession(sid) => CancelsSession(x, y, sid)
    case SCancelAll => CancelsAll(x, y)
    case SFlag(id) => Flags(x, y, id)
    case SEvict(id) => Evicts(x, y, id)
    case SScan(due, dropped, wait) => Scans(x, y, due, dropped, wait)
    case SHand(n) => Hands(x, y, n)
    case SSleep => Sleeps(x, y)
    case SSlot => WakesBySlot(x, y)
    case STimer => WakesByTimer(x, y)
    case SCheck(a) => Checks(x, y, a)
    case SBegin(a) => Begins(x, y, a)
    case SDrop(a) => Drops(x, y, a)
    case SAnswer(a, ok, next) => Answers(x, y, a, ok, next)
    case SSettle(a) => Settles(x, y, a)
    case SEnd(a) => Ends(x, y, a)
    case SAcquire(sid, span, items) => Acquires(x, y, sid, span, items)
    case SQuiet(sid) => Quiets(x, y, sid)
    case SAdvance(sid, id) => Advances(x, y, sid, id)
    case SDeliver(sid, id) => Delivers(x, y, sid, id)
    case SStop(sid) => Stops(x, y, sid)
    case SFinish(sid) => Finishes(x, y, sid)
    case SRelease(sid) => Releases(x, y, sid)
  }

  ghost predicate Run(xs: seq<Sys>, steps: seq<Step>) {
    && |xs| == |steps| + 1 && Init(xs[0])
    && forall k :: 0 <= k < |steps| ==> Next(xs[k], xs[k + 1], steps[k])
  }
}
