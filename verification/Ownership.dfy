/** In every reachable interleaving each live delivery is in exactly one place:
    in the heap, held by one attempter, or parked for its session's driver. */
module Ownership {
  import opened Model
  import opened Protocol
  import R = Replay

  type Dels = map<Id, Del>
  type Jobs = map<Agent, Job>
  type Owners = map<Id, Agent>

  // ---------- the invariant ----------

  ghost predicate Ids(x: Sys) {
    && x.retired <= x.s.dels.Keys
    && x.drafts.Keys !! x.s.dels.Keys && x.hist.Keys == x.s.dels.Keys && x.calls.Keys == x.s.dels.Keys
    && (forall id :: id in x.drafts ==> !x.drafts[id].running && !x.drafts[id].canceled && x.drafts[id].attempts == 0 && !x.drafts[id].firstFired)
    && (forall id :: id in x.doomed ==> id in x.s.dels)
    && (forall id :: id in x.s.log ==> id in x.s.dels || id in x.drafts)
    && (forall a :: a in x.jobs ==> x.jobs[a].id in x.s.dels)
  }

  /** Agent `a` has delivery `id` in hand. */
  ghost predicate Holds(sched: Sched, jobs: Jobs, a: Agent, id: Id) {
    if a == Scheduler then sched.Handing? && id in sched.due
    else a in jobs && jobs[a].id == id && jobs[a].phase != Settled
  }

  ghost predicate NoDup(ids: seq<Id>) {
    forall i, j :: 0 <= i < j < |ids| ==> ids[i] != ids[j]
  }

  /** `running` deliveries are those somebody holds, and `owner` says who. */
  ghost predicate Held(dels: Dels, sched: Sched, jobs: Jobs, owner: Owners) {
    && (forall id :: id in owner ==> id in dels && dels[id].running && Holds(sched, jobs, owner[id], id))
    && (sched.Handing? ==> NoDup(sched.due) && forall id :: id in sched.due ==> id in owner && owner[id] == Scheduler)
    && (forall a :: a in jobs ==> a != Scheduler)
    && (forall a :: a in jobs && jobs[a].phase != Settled ==> jobs[a].id in owner && owner[jobs[a].id] == a)
    && (forall id :: id in dels && dels[id].running ==> id in owner)
  }

  ghost predicate Placed(dels: Dels, queue: set<Id>, pending: set<Id>, exclusive: set<Sid>, retired: set<Id>, doomed: multiset<Id>) {
    && (forall id :: id in queue ==> id in dels && !dels[id].running && id !in retired)
    && (forall id :: id in retired ==> id in dels && !dels[id].running)
    && (forall id :: id in pending ==> id in dels && dels[id].sid != "" && !dels[id].canceled && id !in doomed && id !in retired)
    && (forall id :: id in pending ==> (id in queue || dels[id].running || dels[id].sid in exclusive))
    && (forall id :: id in pending && id in queue ==> dels[id].sid !in exclusive)
    && (forall id :: id in dels && dels[id].sid == "" ==> id in queue || dels[id].running || id in retired || dels[id].canceled)
    && (forall id :: id in dels && dels[id].sid != "" && id !in pending ==> id in retired || id in doomed || dels[id].canceled)
  }

  ghost predicate DrivesFit(dels: Dels, pending: set<Id>, s: set<Sid>, gone: set<Sid>, jobs: Jobs, drives: map<Sid, Drive>, owner: Owners) {
    && s == drives.Keys && gone <= s && "" !in drives
    && (forall sid :: Driver(sid) in jobs ==> sid in drives && drives[sid].Driving?)
    && (forall sid :: Driver(sid) in jobs && jobs[Driver(sid)].id in dels ==> dels[jobs[Driver(sid)].id].sid == sid)
    && (forall id :: id in pending && id in dels && dels[id].running && dels[id].sid in drives && !drives[dels[id].sid].Waiting? ==>
          id in owner && owner[id] == Driver(dels[id].sid))
  }

  ghost predicate Core(x: Sys) {
    && Ids(x)
    && Held(x.s.dels, x.sched, x.jobs, x.owner)
    && Placed(x.s.dels, x.s.queue, x.s.pending, x.s.exclusive, x.retired, x.doomed)
    && DrivesFit(x.s.dels, x.s.pending, x.s.exclusive, x.s.gone, x.jobs, x.drives, x.owner)
  }

  lemma InitCore(x: Sys)
    requires Init(x)
    ensures Core(x)
  {
  }

  // ---------- changes that move nothing ----------

  /** Due times, counters and callback marks may differ. */
  ghost predicate Alike(dels: Dels, dels': Dels) {
    && dels'.Keys == dels.Keys
    && forall id :: id in dels ==>
         dels'[id].sid == dels[id].sid && dels'[id].running == dels[id].running && dels'[id].canceled == dels[id].canceled
  }

  lemma AlikeCore(x: Sys, s: Shared)
    requires Core(x) && Alike(x.s.dels, s.dels) && s.queue == x.s.queue && s.pending == x.s.pending
    requires s.exclusive == x.s.exclusive && s.gone == x.s.gone && s.log.Keys == x.s.log.Keys
    ensures Core(x.(s := s))
  {
    hide Held, Placed, DrivesFit;
    AlikeHeld(x.s.dels, s.dels, x.sched, x.jobs, x.owner);
    AlikePlaced(x.s.dels, s.dels, x.s.queue, x.s.pending, x.s.exclusive, x.retired, x.doomed);
    AlikeDriven(x.s.dels, s.dels, x.s.pending, x.s.exclusive, x.s.gone, x.jobs, x.drives, x.owner);
  }

  lemma AlikeHeld(dels: Dels, dels': Dels, sched: Sched, jobs: Jobs, owner: Owners)
    requires Held(dels, sched, jobs, owner) && Alike(dels, dels')
    ensures Held(dels', sched, jobs, owner)
  {
  }

  lemma AlikePlaced(dels: Dels, dels': Dels, queue: set<Id>, pending: set<Id>, exclusive: set<Sid>, retired: set<Id>, doomed: multiset<Id>)
    requires Placed(dels, queue, pending, exclusive, retired, doomed) && Alike(dels, dels')
    ensures Placed(dels', queue, pending, exclusive, retired, doomed)
  {
  }

  lemma AlikeDriven(dels: Dels, dels': Dels, pending: set<Id>, s: set<Sid>, gone: set<Sid>, jobs: Jobs, drives: map<Sid, Drive>, owner: Owners)
    requires DrivesFit(dels, pending, s, gone, jobs, drives, owner) && Alike(dels, dels')
    ensures DrivesFit(dels', pending, s, gone, jobs, drives, owner)
  {
  }

  // ---------- one delivery changes hands ----------

  /** A job moves on without letting go. */
  lemma PhaseHeld(dels: Dels, sched: Sched, jobs: Jobs, owner: Owners, a: Agent, j: Job)
    requires Held(dels, sched, jobs, owner) && a in jobs && jobs[a].phase != Settled
    requires j.id == jobs[a].id && j.phase != Settled
    ensures Held(dels, sched, jobs[a := j], owner)
  {
    hide NoDup;
  }

  lemma PhaseDriven(dels: Dels, pending: set<Id>, s: set<Sid>, gone: set<Sid>, jobs: Jobs, drives: map<Sid, Drive>, owner: Owners, a: Agent, j: Job)
    requires DrivesFit(dels, pending, s, gone, jobs, drives, owner) && a in jobs && j.id == jobs[a].id
    ensures DrivesFit(dels, pending, s, gone, jobs[a := j], drives, owner)
  {
  }

  /** The holder lets go: the flag and the owner entry go together. */
  lemma FreeHeld(dels: Dels, sched: Sched, jobs: Jobs, owner: Owners, a: Agent, id: Id, d: Del)
    requires Held(dels, sched, jobs, owner) && a in jobs && jobs[a].phase != Settled && jobs[a].id == id && id in dels && !d.running
    ensures Held(dels[id := d], sched, jobs[a := jobs[a].(phase := Settled)], owner - {id})
    ensures Held(dels[id := d], sched, jobs - {a}, owner - {id})
  {
    hide NoDup;
    assert owner[id] == a;
  }

  lemma EndHeld(dels: Dels, sched: Sched, jobs: Jobs, owner: Owners, a: Agent)
    requires Held(dels, sched, jobs, owner) && a in jobs && jobs[a].phase == Settled
    ensures Held(dels, sched, jobs - {a}, owner)
  {
    hide NoDup;
  }

  lemma FreeDriven(dels: Dels, pending: set<Id>, s: set<Sid>, gone: set<Sid>, jobs: Jobs, drives: map<Sid, Drive>, owner: Owners, a: Agent, id: Id, d: Del)
    requires DrivesFit(dels, pending, s, gone, jobs, drives, owner) && a in jobs && jobs[a].id == id && id in dels && !d.running && d.sid == dels[id].sid
    ensures DrivesFit(dels[id := d], pending, s, gone, jobs[a := jobs[a].(phase := Settled)], drives, owner - {id})
    ensures DrivesFit(dels[id := d], pending, s, gone, jobs - {a}, drives, owner - {id})
  {
  }

  lemma FewerDriven(dels: Dels, pending: set<Id>, pending': set<Id>, s: set<Sid>, gone: set<Sid>, jobs: Jobs, jobs': Jobs, drives: map<Sid, Drive>, owner: Owners)
    requires DrivesFit(dels, pending, s, gone, jobs, drives, owner) && pending' <= pending
    requires forall a :: a in jobs' ==> a in jobs && jobs'[a] == jobs[a]
    ensures DrivesFit(dels, pending', s, gone, jobs', drives, owner)
  {
  }

  /** Whoever takes a delivery that nobody held. */
  lemma TakeHeld(dels: Dels, sched: Sched, jobs: Jobs, owner: Owners, a: Agent, id: Id, d: Del)
    requires Held(dels, sched, jobs, owner) && a !in jobs && a != Scheduler && id in dels && !dels[id].running && d.running
    ensures Held(dels[id := d], sched, jobs[a := Job(id, 0, Handed)], owner[id := a])
  {
    hide NoDup;
    assert id !in owner;
  }

  lemma HandHeld(dels: Dels, sched: Sched, jobs: Jobs, owner: Owners, a: Agent)
    requires Held(dels, sched, jobs, owner) && sched.Handing? && sched.due != [] && a !in jobs && a != Scheduler
    ensures Held(dels, sched.(due := sched.due[1..]), jobs[a := Job(sched.due[0], 0, Handed)], owner[sched.due[0] := a])
  {
    hide NoDup;
    NoDupTail(sched.due);
  }

  lemma NoDupTail(ids: seq<Id>)
    requires NoDup(ids) && ids != []
    ensures NoDup(ids[1..]) && ids[0] !in ids[1..] && ids[0] in ids && forall id :: id in ids ==> id == ids[0] || id in ids[1..]
    ensures forall id :: id in ids[1..] ==> id in ids
  {
    assert ids == [ids[0]] + ids[1..];
  }

  // ---------- places ----------

  lemma NewPlaced(dels: Dels, queue: set<Id>, pending: set<Id>, exclusive: set<Sid>, retired: set<Id>, doomed: multiset<Id>, id: Id, d: Del)
    requires Placed(dels, queue, pending, exclusive, retired, doomed)
    requires id !in dels && id !in doomed && !d.running && !d.canceled && "" !in exclusive
    ensures Placed(dels[id := d], if d.sid in exclusive then queue else queue + {id},
                   if d.sid == "" then pending else pending + {id}, exclusive, retired, doomed)
  {
  }

  lemma NewHeld(dels: Dels, sched: Sched, jobs: Jobs, owner: Owners, id: Id, d: Del)
    requires Held(dels, sched, jobs, owner) && id !in dels && !d.running
    ensures Held(dels[id := d], sched, jobs, owner)
  {
    hide NoDup;
  }

  lemma NewDriven(dels: Dels, pending: set<Id>, s: set<Sid>, gone: set<Sid>, jobs: Jobs, drives: map<Sid, Drive>, owner: Owners, id: Id, d: Del)
    requires DrivesFit(dels, pending, s, gone, jobs, drives, owner) && id !in dels && !d.running
    requires forall a :: a in jobs ==> jobs[a].id in dels
    ensures DrivesFit(dels[id := d], pending, s, gone, jobs, drives, owner)
    ensures DrivesFit(dels[id := d], pending + {id}, s, gone, jobs, drives, owner)
  {
  }

  /** Pending deliveries become doomed; so may anything not pending. */
  lemma DoomPlaced(dels: Dels, queue: set<Id>, pending: set<Id>, pending': set<Id>, exclusive: set<Sid>, retired: set<Id>,
      doomed: multiset<Id>, doomed': multiset<Id>)
    requires Placed(dels, queue, pending, exclusive, retired, doomed) && pending' <= pending
    requires forall id :: id in doomed ==> id in doomed'
    requires forall id :: id in doomed' ==> id in doomed || id !in pending'
    requires forall id :: id in pending && id !in pending' ==> id in doomed'
    ensures Placed(dels, queue, pending', exclusive, retired, doomed')
  {
  }

  lemma FlagPlaced(dels: Dels, queue: set<Id>, pending: set<Id>, exclusive: set<Sid>, retired: set<Id>,
      doomed: multiset<Id>, doomed': multiset<Id>, id: Id, d: Del)
    requires Placed(dels, queue, pending, exclusive, retired, doomed) && id in dels && id in doomed
    requires d == dels[id].(canceled := true) && doomed' == doomed - multiset{id}
    ensures Placed(dels[id := d], queue, pending, exclusive, retired, doomed')
  {
  }

  lemma FlagHeld(dels: Dels, sched: Sched, jobs: Jobs, owner: Owners, id: Id)
    requires Held(dels, sched, jobs, owner) && id in dels
    ensures Held(dels[id := dels[id].(canceled := true)], sched, jobs, owner)
  {
    hide NoDup;
  }

  lemma FlagDriven(dels: Dels, pending: set<Id>, s: set<Sid>, gone: set<Sid>, jobs: Jobs, drives: map<Sid, Drive>, owner: Owners, id: Id)
    requires DrivesFit(dels, pending, s, gone, jobs, drives, owner) && id in dels
    ensures DrivesFit(dels[id := dels[id].(canceled := true)], pending, s, gone, jobs, drives, owner)
  {
  }

  lemma TakePlaced(dels: Dels, queue: set<Id>, pending: set<Id>, exclusive: set<Sid>, retired: set<Id>, doomed: multiset<Id>, id: Id, d: Del)
    requires Placed(dels, queue, pending, exclusive, retired, doomed)
    requires id in pending && dels[id].sid in exclusive && d == dels[id].(running := true)
    ensures Placed(dels[id := d], queue, pending, exclusive, retired, doomed)
  {
  }

  lemma TakeDriven(dels: Dels, pending: set<Id>, s: set<Sid>, gone: set<Sid>, jobs: Jobs, drives: map<Sid, Drive>, owner: Owners, sid: Sid, id: Id, d: Del)
    requires DrivesFit(dels, pending, s, gone, jobs, drives, owner) && id in dels && dels[id].sid == sid && d == dels[id].(running := true)
    requires sid in drives && drives[sid].Driving?
    ensures DrivesFit(dels[id := d], pending, s, gone, jobs[Driver(sid) := Job(id, 0, Handed)], drives, owner[id := Driver(sid)])
  {
  }

  lemma DrivesDriven(dels: Dels, pending: set<Id>, s: set<Sid>, gone: set<Sid>, jobs: Jobs, drives: map<Sid, Drive>, owner: Owners, sid: Sid, v: Drive)
    requires DrivesFit(dels, pending, s, gone, jobs, drives, owner) && sid in drives && !drives[sid].Waiting?
    requires v.Driving? || (!v.Waiting? && Driver(sid) !in jobs)
    ensures DrivesFit(dels, pending, s, gone, jobs, drives[sid := v], owner)
  {
  }

  /** A retry goes back to the heap, or stays parked for the driver. */
  lemma RequeuePlaced(dels: Dels, queue: set<Id>, pending: set<Id>, exclusive: set<Sid>, retired: set<Id>, doomed: multiset<Id>, id: Id, d: Del)
    requires Placed(dels, queue, pending, exclusive, retired, doomed)
    requires id in dels && dels[id].running && d == dels[id].(running := false) && "" !in exclusive
    ensures Placed(dels[id := d], if d.sid in exclusive then queue else queue + {id}, pending, exclusive, retired, doomed)
  {
  }

  lemma RetirePlaced(dels: Dels, queue: set<Id>, pending: set<Id>, exclusive: set<Sid>, retired: set<Id>, doomed: multiset<Id>, id: Id, d: Del)
    requires Placed(dels, queue, pending, exclusive, retired, doomed)
    requires id in dels && dels[id].running && d == dels[id].(running := false)
    ensures Placed(dels[id := d], queue, pending - {id}, exclusive, retired + {id}, doomed)
  {
  }

  /** A worker drops a canceled delivery: nothing live refers to it. */
  lemma DropPlaced(dels: Dels, queue: set<Id>, pending: set<Id>, exclusive: set<Sid>, retired: set<Id>, doomed: multiset<Id>, id: Id, d: Del)
    requires Placed(dels, queue, pending, exclusive, retired, doomed)
    requires id in dels && dels[id].canceled && d == dels[id].(running := false)
    ensures Placed(dels[id := d], queue, pending, exclusive, retired, doomed)
  {
  }

  lemma AcquirePlaced(s: Shared, retired: set<Id>, doomed: multiset<Id>, sid: Sid)
    requires Placed(s.dels, s.queue, s.pending, s.exclusive, retired, doomed) && sid != ""
    ensures Placed(s.dels, Acquire(s, sid).queue, s.pending, s.exclusive + {sid}, retired, doomed)
  {
  }

  lemma AcquireDriven(dels: Dels, pending: set<Id>, s: set<Sid>, gone: set<Sid>, jobs: Jobs, drives: map<Sid, Drive>, owner: Owners, sid: Sid, e: Errand)
    requires DrivesFit(dels, pending, s, gone, jobs, drives, owner) && sid != "" && sid !in s
    ensures DrivesFit(dels, pending, s + {sid}, gone, jobs, drives[sid := Waiting(e)], owner)
  {
  }

  lemma QuietDriven(s: Shared, jobs: Jobs, drives: map<Sid, Drive>, owner: Owners, sid: Sid)
    requires DrivesFit(s.dels, s.pending, s.exclusive, s.gone, jobs, drives, owner) && sid in drives && drives[sid].Waiting? && !Busy(s, sid)
    ensures DrivesFit(s.dels, s.pending, s.exclusive, s.gone, jobs, drives[sid := Driving(drives[sid].errand)], owner)
  {
  }

  /** Nothing parked is left behind. */
  lemma ReleasePlaced(s: Shared, retired: set<Id>, doomed: multiset<Id>, sid: Sid)
    requires Placed(s.dels, s.queue, s.pending, s.exclusive, retired, doomed)
    ensures Placed(s.dels, Release(s, sid).queue, s.pending, s.exclusive - {sid}, retired, doomed)
  {
  }

  lemma ReleaseDriven(dels: Dels, pending: set<Id>, s: set<Sid>, gone: set<Sid>, jobs: Jobs, drives: map<Sid, Drive>, owner: Owners, sid: Sid)
    requires DrivesFit(dels, pending, s, gone, jobs, drives, owner) && Driver(sid) !in jobs
    ensures DrivesFit(dels, pending, s - {sid}, gone - {sid}, jobs, drives - {sid}, owner)
  {
  }

  // ---------- the scan ----------

  lemma ScanHeld(dels: Dels, dels': Dels, sched: Sched, sched': Sched, jobs: Jobs, owner: Owners, owner': Owners)
    requires Held(dels, sched, jobs, owner) && sched == Scanning && sched'.Handing? && NoDup(sched'.due)
    requires dels'.Keys == dels.Keys && forall id :: id in sched'.due ==> id in dels && !dels[id].running
    requires forall id :: id in dels ==> dels'[id].running == (dels[id].running || id in sched'.due)
    requires forall id :: id in owner' <==> id in owner || id in sched'.due
    requires forall id :: id in owner' ==> owner'[id] == if id in sched'.due then Scheduler else owner[id]
    ensures Held(dels', sched', jobs, owner')
  {
    hide NoDup;
  }

  lemma ScanPlaced(dels: Dels, dels': Dels, queue: set<Id>, taken: set<Id>, dropped: set<Id>, pending: set<Id>, exclusive: set<Sid>, retired: set<Id>, doomed: multiset<Id>)
    requires Placed(dels, queue, pending, exclusive, retired, doomed) && taken <= queue && dropped <= queue
    requires forall id :: id in dropped && id in dels ==> dels[id].canceled
    requires dels'.Keys == dels.Keys && forall id :: id in dels ==> dels'[id] == dels[id].(running := dels[id].running || id in taken)
    ensures Placed(dels', queue - taken - dropped, pending, exclusive, retired, doomed)
  {
  }

  lemma ScanDriven(dels: Dels, dels': Dels, queue: set<Id>, taken: set<Id>, pending: set<Id>, s: set<Sid>, gone: set<Sid>, jobs: Jobs, drives: map<Sid, Drive>, owner: Owners, owner': Owners)
    requires DrivesFit(dels, pending, s, gone, jobs, drives, owner) && taken <= queue
    requires forall id :: id in pending && id in queue && id in dels ==> dels[id].sid !in s
    requires dels'.Keys == dels.Keys && forall id :: id in dels ==> dels'[id] == dels[id].(running := dels[id].running || id in taken)
    requires forall id :: id in owner && id !in taken ==> id in owner' && owner'[id] == owner[id]
    ensures DrivesFit(dels', pending, s, gone, jobs, drives, owner')
  {
  }

  // ---------- every step keeps the invariant ----------

  lemma CoreQuietSteps(x: Sys, y: Sys)
    requires Core(x) && (Tick(x, y) || Kicks(x, y))
    ensures Core(y)
  {
    hide Held, Placed, DrivesFit;
  }

  lemma CoreWakes(x: Sys, y: Sys)
    requires Core(x) && (WakesBySlot(x, y) || WakesByTimer(x, y))
    ensures Core(y)
  {
    hide Placed, DrivesFit, Held;
    SchedHeld(x.s.dels, x.sched, y.sched, x.jobs, x.owner);
  }

  lemma CoreSleeps(x: Sys, y: Sys)
    requires Core(x) && Sleeps(x, y)
    ensures Core(y)
  {
    hide Placed, DrivesFit, Held;
    SchedHeld(x.s.dels, x.sched, y.sched, x.jobs, x.owner);
  }

  lemma SchedHeld(dels: Dels, sched: Sched, sched': Sched, jobs: Jobs, owner: Owners)
    requires Held(dels, sched, jobs, owner) && !sched'.Handing? && (sched.Handing? ==> sched.due == [])
    ensures Held(dels, sched', jobs, owner)
  {
  }

  lemma CoreDraft(x: Sys, y: Sys, id: Id, sid: Sid, r: Request)
    requires Core(x) && Drafts(x, y, id, sid, r)
    ensures Core(y)
  {
    hide Held, Placed, DrivesFit;
  }

  lemma EnqueueIds(x: Sys, y: Sys, id: Id)
    requires Ids(x) && Enqueues(x, y, id)
    ensures Ids(y) && id !in x.s.dels && id !in x.doomed && !x.drafts[id].running && !x.drafts[id].canceled
    ensures forall a :: a in x.jobs ==> x.jobs[a].id in x.s.dels
  {
    hide Enqueue;
    EnqueueDels(x.s, id, x.drafts[id]);
  }

  lemma EnqueueDels(s: Shared, id: Id, d: Del)
    ensures Enqueue(s, id, d).dels == s.dels[id := d.(ord := s.issued + 1)] && Enqueue(s, id, d).log == s.log
  {
  }

  lemma CoreEnqueue(x: Sys, y: Sys, id: Id)
    requires Core(x) && Enqueues(x, y, id)
    ensures Core(y)
  {
    hide Ids, Held, Placed, DrivesFit;
    EnqueueIds(x, y, id);
    NoEmptyDriver(x);
    var d := x.drafts[id].(ord := x.s.issued + 1);
    NewHeld(x.s.dels, x.sched, x.jobs, x.owner, id, d);
    NewPlaced(x.s.dels, x.s.queue, x.s.pending, x.s.exclusive, x.retired, x.doomed, id, d);
    NewDriven(x.s.dels, x.s.pending, x.s.exclusive, x.s.gone, x.jobs, x.drives, x.owner, id, d);
  }

  lemma NoEmptyDriver(x: Sys)
    requires Core(x)
    ensures "" !in x.s.exclusive && forall id :: id in x.s.queue ==> id in x.s.dels
    ensures forall id :: id in x.s.pending ==> id in x.s.dels && (id in x.s.queue ==> x.s.dels[id].sid !in x.s.exclusive)
    ensures forall id :: id in x.s.queue ==> !x.s.dels[id].running
  {
  }

  lemma CancelIds(x: Sys, y: Sys, sid: Sid)
    requires Ids(x) && CancelsSession(x, y, sid)
    ensures Ids(y)
  {
  }

  lemma CoreCancelSession(x: Sys, y: Sys, sid: Sid)
    requires Core(x) && CancelsSession(x, y, sid)
    ensures Core(y)
  {
    hide Ids, Held, Placed, DrivesFit;
    CancelIds(x, y, sid);
    DoomPlaced(x.s.dels, x.s.queue, x.s.pending, y.s.pending, x.s.exclusive, x.retired, x.doomed, y.doomed);
    FewerDriven(x.s.dels, x.s.pending, y.s.pending, x.s.exclusive, x.s.gone, x.jobs, x.jobs, x.drives, x.owner);
    GoneDriven(x.s.dels, y.s.pending, x.s.exclusive, x.s.gone, y.s.gone, x.jobs, x.drives, x.owner);
  }

  lemma GoneDriven(dels: Dels, pending: set<Id>, s: set<Sid>, gone: set<Sid>, gone': set<Sid>, jobs: Jobs, drives: map<Sid, Drive>, owner: Owners)
    requires DrivesFit(dels, pending, s, gone, jobs, drives, owner) && gone' <= gone + s
    ensures DrivesFit(dels, pending, s, gone', jobs, drives, owner)
  {
  }

  lemma CoreCancelAll(x: Sys, y: Sys)
    requires Core(x) && CancelsAll(x, y)
    ensures Core(y)
  {
    hide Held, Placed, DrivesFit;
    NoEmptyDriver(x);
    DoomPlaced(x.s.dels, x.s.queue, x.s.pending, {}, x.s.exclusive, x.retired, x.doomed, y.doomed);
    FewerDriven(x.s.dels, x.s.pending, {}, x.s.exclusive, x.s.gone, x.jobs, x.jobs, x.drives, x.owner);
    GoneDriven(x.s.dels, {}, x.s.exclusive, x.s.gone, y.s.gone, x.jobs, x.drives, x.owner);
  }

  lemma CoreFlag(x: Sys, y: Sys, id: Id)
    requires Core(x) && Flags(x, y, id)
    ensures Core(y)
  {
    hide Ids, Held, Placed, DrivesFit;
    FlagIds(x, y, id);
    FlagHeld(x.s.dels, x.sched, x.jobs, x.owner, id);
    FlagPlaced(x.s.dels, x.s.queue, x.s.pending, x.s.exclusive, x.retired, x.doomed, y.doomed, id, x.s.dels[id].(canceled := true));
    FlagDriven(x.s.dels, x.s.pending, x.s.exclusive, x.s.gone, x.jobs, x.drives, x.owner, id);
    assert x.s.dels[id].canceled ==> x.s.dels[id := x.s.dels[id].(canceled := true)] == x.s.dels;
  }

  lemma FlagIds(x: Sys, y: Sys, id: Id)
    requires Ids(x) && Flags(x, y, id)
    ensures Ids(y)
  {
  }

  lemma CoreEvict(x: Sys, y: Sys, id: Id)
    requires Core(x) && Evicts(x, y, id)
    ensures Core(y)
  {
    hide Held, Placed, DrivesFit;
  }

  lemma CoreScan(x: Sys, y: Sys, due: seq<Id>, dropped: set<Id>, wait: int)
    requires Core(x) && Scans(x, y, due, dropped, wait)
    ensures Core(y)
  {
    hide Ids, Held, Placed, DrivesFit, ScanSpec;
    ScanIds(x, y, due, dropped, wait);
    NoEmptyDriver(x);
    var taken := set id | id in due;
    ScanFacts(x.s, x.now, due, dropped, wait);
    ScanHeld(x.s.dels, y.s.dels, x.sched, y.sched, x.jobs, x.owner, y.owner);
    ScanPlaced(x.s.dels, y.s.dels, x.s.queue, taken, dropped, x.s.pending, x.s.exclusive, x.retired, x.doomed);
    ScanDriven(x.s.dels, y.s.dels, x.s.queue, taken, x.s.pending, x.s.exclusive, x.s.gone, x.jobs, x.drives, x.owner, y.owner);
  }

  lemma ScanIds(x: Sys, y: Sys, due: seq<Id>, dropped: set<Id>, wait: int)
    requires Ids(x) && Scans(x, y, due, dropped, wait)
    ensures Ids(y)
  {
    hide ScanSpec;
  }

  lemma ScanFacts(s: Shared, now: int, due: seq<Id>, dropped: set<Id>, wait: int)
    requires s.queue <= s.dels.Keys && ScanSpec(s, now, due, dropped, wait)
    ensures NoDup(due) && (set id | id in due) <= s.queue && dropped <= s.queue
    ensures forall id :: id in due ==> id in s.queue
    ensures forall id :: id in dropped ==> s.dels[id].canceled
  {
  }

  lemma CoreHand(x: Sys, y: Sys, n: nat)
    requires Core(x) && Hands(x, y, n)
    ensures Core(y)
  {
    hide Held, Placed, DrivesFit;
    DueKnown(x);
    HandHeld(x.s.dels, x.sched, x.jobs, x.owner, Worker(n));
    WorkerDriven(x.s.dels, x.s.pending, x.s.exclusive, x.s.gone, x.jobs, x.drives, x.owner, n, x.sched.due[0]);
  }

  lemma DueKnown(x: Sys)
    requires Core(x) && x.sched.Handing? && x.sched.due != []
    ensures x.sched.due[0] in x.owner && x.owner[x.sched.due[0]] == Scheduler && x.sched.due[0] in x.s.dels
  {
  }

  lemma WorkerDriven(dels: Dels, pending: set<Id>, s: set<Sid>, gone: set<Sid>, jobs: Jobs, drives: map<Sid, Drive>, owner: Owners, n: nat, id: Id)
    requires DrivesFit(dels, pending, s, gone, jobs, drives, owner) && id in owner && owner[id] == Scheduler
    ensures DrivesFit(dels, pending, s, gone, jobs[Worker(n) := Job(id, 0, Handed)], drives, owner[id := Worker(n)])
  {
  }

  lemma CoreBegin(x: Sys, y: Sys, a: Agent)
    requires Core(x) && Begins(x, y, a)
    ensures Core(y)
  {
    hide Core, Held, Placed, DrivesFit;
    assert Core(x.(s := y.s)) by { AlikeCore(x, y.s); }
    PhaseCore(x.(s := y.s), a, y.jobs[a]);
  }

  lemma PhaseCore(x: Sys, a: Agent, j: Job)
    requires Core(x) && a in x.jobs && x.jobs[a].phase != Settled && j.id == x.jobs[a].id && j.phase != Settled
    ensures Core(x.(jobs := x.jobs[a := j]))
  {
    hide Held, Placed, DrivesFit;
    PhaseHeld(x.s.dels, x.sched, x.jobs, x.owner, a, j);
    PhaseDriven(x.s.dels, x.s.pending, x.s.exclusive, x.s.gone, x.jobs, x.drives, x.owner, a, j);
  }

  lemma CoreChecks(x: Sys, y: Sys, a: Agent)
    requires Core(x) && Checks(x, y, a)
    ensures Core(y)
  {
    hide Core, Held, Placed, DrivesFit;
    PhaseCore(x, a, y.jobs[a]);
  }

  lemma CoreAnswer(x: Sys, y: Sys, a: Agent, ok: bool, next: int)
    requires Core(x) && Answers(x, y, a, ok, next)
    ensures Core(y)
  {
    hide Core, Held, Placed, DrivesFit;
    assert Core(x.(s := y.s)) by { AlikeCore(x, y.s); }
    PhaseCore(x.(s := y.s), a, y.jobs[a]);
    NotesCore(x.(s := y.s, jobs := y.jobs), y);
  }

  /** The records of what happened matter to nothing but themselves. */
  lemma NotesCore(x: Sys, y: Sys)
    requires Core(x) && y.hist.Keys == x.hist.Keys && y.calls.Keys == x.calls.Keys
    requires y == x.(hist := y.hist, calls := y.calls, owing := y.owing, kicks := y.kicks)
    ensures Core(y)
  {
    hide Held, Placed, DrivesFit;
  }

  lemma HolderFacts(x: Sys, a: Agent)
    requires Core(x) && a in x.jobs && x.jobs[a].phase != Settled
    ensures var id := x.jobs[a].id; id in x.s.dels && x.s.dels[id].running && "" !in x.s.exclusive
  {
  }

  lemma CoreDrop(x: Sys, y: Sys, a: Agent)
    requires Core(x) && Drops(x, y, a)
    ensures Core(y)
  {
    hide Held, Placed, DrivesFit;
    var id := x.jobs[a].id;
    var d := x.s.dels[id].(running := false);
    FreeHeld(x.s.dels, x.sched, x.jobs, x.owner, a, id, d);
    DropPlaced(x.s.dels, x.s.queue, x.s.pending, x.s.exclusive, x.retired, x.doomed, id, d);
    FreeDriven(x.s.dels, x.s.pending, x.s.exclusive, x.s.gone, x.jobs, x.drives, x.owner, a, id, d);
  }

  lemma IdsSettle(x: Sys, y: Sys, a: Agent)
    requires Ids(x) && Settles(x, y, a)
    ensures Ids(y)
  {
  }

  lemma CoreSettle(x: Sys, y: Sys, a: Agent)
    requires Core(x) && Settles(x, y, a)
    ensures Core(y)
  {
    hide Ids, Held, Placed, DrivesFit;
    IdsSettle(x, y, a);
    HolderFacts(x, a);
    var id := x.jobs[a].id;
    var d := x.s.dels[id].(running := false);
    FreeHeld(x.s.dels, x.sched, x.jobs, x.owner, a, id, d);
    FreeDriven(x.s.dels, x.s.pending, x.s.exclusive, x.s.gone, x.jobs, x.drives, x.owner, a, id, d);
    if x.jobs[a].phase.status == Retrying {
      RequeuePlaced(x.s.dels, x.s.queue, x.s.pending, x.s.exclusive, x.retired, x.doomed, id, d);
    } else {
      RetirePlaced(x.s.dels, x.s.queue, x.s.pending, x.s.exclusive, x.retired, x.doomed, id, d);
      FewerDriven(y.s.dels, x.s.pending, y.s.pending, x.s.exclusive, x.s.gone, y.jobs, y.jobs, x.drives, y.owner);
    }
  }

  lemma CoreEnd(x: Sys, y: Sys, a: Agent)
    requires Core(x) && Ends(x, y, a)
    ensures Core(y)
  {
    hide Core, Held, Placed, DrivesFit;
    assert Core(x.(s := y.s)) by { AlikeCore(x, y.s); }
    EndCore(x.(s := y.s), a);
    CallsKept(x, y, a);
    NotesCore(x.(s := y.s, jobs := y.jobs), y);
  }

  lemma CallsKept(x: Sys, y: Sys, a: Agent)
    requires Ends(x, y, a)
    ensures y.calls.Keys == x.calls.Keys
  {
  }

  lemma EndCore(x: Sys, a: Agent)
    requires Core(x) && a in x.jobs && x.jobs[a].phase == Settled
    ensures Core(x.(jobs := x.jobs - {a}))
  {
    hide Held, Placed, DrivesFit;
    EndHeld(x.s.dels, x.sched, x.jobs, x.owner, a);
    FewerDriven(x.s.dels, x.s.pending, x.s.pending, x.s.exclusive, x.s.gone, x.jobs, x.jobs - {a}, x.drives, x.owner);
  }

  lemma CoreAcquire(x: Sys, y: Sys, sid: Sid, span: int, items: bool)
    requires Core(x) && Acquires(x, y, sid, span, items)
    ensures Core(y)
  {
    hide Held, Placed, DrivesFit;
    AcquirePlaced(x.s, x.retired, x.doomed, sid);
    AcquireDriven(x.s.dels, x.s.pending, x.s.exclusive, x.s.gone, x.jobs, x.drives, x.owner, sid, y.drives[sid].errand);
  }

  lemma CoreQuiet(x: Sys, y: Sys, sid: Sid)
    requires Core(x) && Quiets(x, y, sid)
    ensures Core(y)
  {
    hide Held, Placed, DrivesFit;
    QuietDriven(x.s, x.jobs, x.drives, x.owner, sid);
  }

  lemma CoreTake(x: Sys, y: Sys, sid: Sid, id: Id, e: Errand)
    requires Core(x) && Free(x, sid) && id in Eligible(x.s, sid)
    requires y == x.(s := Mark(x.s, id), jobs := x.jobs[Driver(sid) := Job(id, 0, Handed)],
                     drives := x.drives[sid := Driving(e)], owner := x.owner[id := Driver(sid)])
    ensures Core(y)
  {
    hide Held, Placed, DrivesFit;
    DrivenSid(x, sid);
    var d := x.s.dels[id].(running := true);
    TakeHeld(x.s.dels, x.sched, x.jobs, x.owner, Driver(sid), id, d);
    TakePlaced(x.s.dels, x.s.queue, x.s.pending, x.s.exclusive, x.retired, x.doomed, id, d);
    TakeDriven(x.s.dels, x.s.pending, x.s.exclusive, x.s.gone, x.jobs, x.drives, x.owner, sid, id, d);
    DrivesDriven(y.s.dels, x.s.pending, x.s.exclusive, x.s.gone, y.jobs, x.drives, y.owner, sid, Driving(e));
  }

  lemma DrivenSid(x: Sys, sid: Sid)
    requires Core(x) && sid in x.drives
    ensures sid in x.s.exclusive && sid != ""
  {
  }

  lemma CoreAdvance(x: Sys, y: Sys, sid: Sid, id: Id)
    requires Core(x) && Advances(x, y, sid, id)
    ensures Core(y)
  {
    hide Core, Shift, Mark, IsFirst, Eligible;
    FirstEligible(x.s, sid, id);
    var step := R.StepTo(x.now, x.s.dels[id].fireAt);
    ShiftAlike(x.s, sid, step);
    AlikeCore(x, Shift(x.s, sid, step));
    CoreTake(x.(s := Shift(x.s, sid, step)), y, sid, id, y.drives[sid].errand);
  }

  lemma FirstEligible(s: Shared, sid: Sid, id: Id)
    requires IsFirst(s, Eligible(s, sid), id)
    ensures id in Eligible(s, sid) && id in s.dels
  {
  }

  lemma ShiftAlike(s: Shared, sid: Sid, step: int)
    ensures var t := Shift(s, sid, step);
      && Alike(s.dels, t.dels) && t.queue == s.queue && t.pending == s.pending && t.exclusive == s.exclusive
      && t.gone == s.gone && t.log.Keys == s.log.Keys && Eligible(t, sid) == Eligible(s, sid)
  {
    assert Shift(s, sid, step).PendingOf(sid) == s.PendingOf(sid);
  }

  lemma CoreDeliver(x: Sys, y: Sys, sid: Sid, id: Id)
    requires Core(x) && Delivers(x, y, sid, id)
    ensures Core(y)
  {
    hide Core, Mark;
    assert x.drives == x.drives[sid := Driving(x.drives[sid].errand)];
    CoreTake(x, y, sid, id, x.drives[sid].errand);
  }

  lemma CoreStop(x: Sys, y: Sys, sid: Sid)
    requires Core(x) && Stops(x, y, sid)
    ensures Core(y)
  {
    hide Held, Placed, DrivesFit, Eligible;
    DrivesDriven(x.s.dels, x.s.pending, x.s.exclusive, x.s.gone, x.jobs, x.drives, x.owner, sid, y.drives[sid]);
  }

  /** A driver that has left its loop attempts nothing. */
  lemma StoppingRests(x: Sys, sid: Sid)
    requires Core(x) && sid in x.drives && !x.drives[sid].Driving?
    ensures Driver(sid) !in x.jobs
  {
    hide Ids, Held, Placed;
  }

  lemma CoreFinish(x: Sys, y: Sys, sid: Sid)
    requires Core(x) && Finishes(x, y, sid)
    ensures Core(y)
  {
    hide Held, Placed, DrivesFit, Shift, Eligible;
    ShiftAlike(x.s, sid, x.drives[sid].errand.left);
    AlikeCore(x, y.s);
    StoppingRests(x, sid);
    DrivesDriven(y.s.dels, x.s.pending, x.s.exclusive, x.s.gone, x.jobs, x.drives, x.owner, sid, y.drives[sid]);
  }

  lemma CoreRelease(x: Sys, y: Sys, sid: Sid)
    requires Core(x) && Releases(x, y, sid)
    ensures Core(y)
  {
    hide Held, Placed, DrivesFit;
    ReleasePlaced(x.s, x.retired, x.doomed, sid);
    ReleaseDriven(x.s.dels, x.s.pending, x.s.exclusive, x.s.gone, x.jobs, x.drives, x.owner, sid);
  }

  lemma CoreNext(x: Sys, y: Sys, step: Step)
    requires Core(x) && Next(x, y, step)
    ensures Core(y)
  {
    hide Core, Drafts, Enqueues, CancelsSession, CancelsAll, Flags, Scans, Hands, Checks, Begins, Drops, Answers, Settles, Ends;
    match step
    case STick => CoreQuietSteps(x, y);
    case SDraft(id, sid, r) => CoreDraft(x, y, id, sid, r);
    case SEnqueue(id) => CoreEnqueue(x, y, id);
    case SKick => CoreQuietSteps(x, y);
    case SCancelSession(sid) => CoreCancelSession(x, y, sid);
    case SCancelAll => CoreCancelAll(x, y);
    case SFlag(id) => CoreFlag(x, y, id);
    case SEvict(id) => CoreEvict(x, y, id);
    case SScan(due, dropped, wait) => CoreScan(x, y, due, dropped, wait);
    case SHand(n) => CoreHand(x, y, n);
    case SSleep => CoreSleeps(x, y);
    case SSlot => CoreWakes(x, y);
    case STimer => CoreWakes(x, y);
    case SCheck(a) => CoreChecks(x, y, a);
    case SBegin(a) => CoreBegin(x, y, a);
    case SDrop(a) => CoreDrop(x, y, a);
    case SAnswer(a, ok, next) => CoreAnswer(x, y, a, ok, next);
    case SSettle(a) => CoreSettle(x, y, a);
    case SEnd(a) => CoreEnd(x, y, a);
    case SAcquire(sid, span, items) => CoreAcquire(x, y, sid, span, items);
    case SQuiet(sid) => CoreQuiet(x, y, sid);
    case SAdvance(sid, id) => CoreAdvance(x, y, sid, id);
    case SDeliver(sid, id) => CoreDeliver(x, y, sid, id);
    case SStop(sid) => CoreStop(x, y, sid);
    case SFinish(sid) => CoreFinish(x, y, sid);
    case SRelease(sid) => CoreRelease(x, y, sid);
  }

  lemma {:induction false} RunCore(xs: seq<Sys>, steps: seq<Step>, k: nat)
    requires Run(xs, steps) && k < |xs|
    ensures Core(xs[k])
  {
    hide Core, Next, Init;
    if k == 0 {
      InitCore(xs[0]);
    } else {
      RunCore(xs, steps, k - 1);
      CoreNext(xs[k - 1], xs[k], steps[k - 1]);
    }
  }

  // ---------- the law ----------

  /** Neither finished nor given to a canceler. */
  ghost predicate Live(x: Sys, id: Id) {
    id in x.s.dels && id !in x.retired && id !in x.doomed && !x.s.dels[id].canceled
  }

  ghost predicate InHand(x: Sys, id: Id) {
    exists a :: Holds(x.sched, x.jobs, a, id)
  }

  ghost predicate Parked(x: Sys, id: Id) {
    id in x.s.pending && id in x.s.dels && x.s.dels[id].sid in x.s.exclusive && id !in x.s.queue && !InHand(x, id)
  }

  /** In any run, at any point: nobody shares a delivery; a live one is in the
      heap, in exactly one attempter's hands, or parked for its session's driver,
      and never in two of these places; a session delivery is live exactly if it
      is pending; and once a driver is past acquire, only that driver can hold a
      live delivery of the session. */
  lemma SingleOwnership(xs: seq<Sys>, steps: seq<Step>, k: nat, id: Id)
    requires Run(xs, steps) && k < |xs|
    ensures var x := xs[k];
      && (forall a, b :: Holds(x.sched, x.jobs, a, id) && Holds(x.sched, x.jobs, b, id) ==> a == b)
      && (id in x.s.queue ==> !InHand(x, id))
      && (Live(x, id) ==> id in x.s.queue || InHand(x, id) || Parked(x, id))
      && (id in x.s.dels && x.s.dels[id].sid != "" ==> (Live(x, id) <==> id in x.s.pending))
      && (forall a, sid :: sid in x.drives && !x.drives[sid].Waiting? && id in x.s.PendingOf(sid) && Holds(x.sched, x.jobs, a, id) ==> a == Driver(sid))
      && x.s.gone <= x.s.exclusive && x.s.exclusive == x.drives.Keys
  {
    hide Run;
    RunCore(xs, steps, k);
    OnePlace(xs[k], id);
  }

  lemma OnePlace(x: Sys, id: Id)
    requires Core(x)
    ensures forall a, b :: Holds(x.sched, x.jobs, a, id) && Holds(x.sched, x.jobs, b, id) ==> a == b
    ensures id in x.s.queue ==> !InHand(x, id)
    ensures Live(x, id) ==> id in x.s.queue || InHand(x, id) || Parked(x, id)
    ensures id in x.s.dels && x.s.dels[id].sid != "" ==> (Live(x, id) <==> id in x.s.pending)
    ensures forall a, sid :: sid in x.drives && !x.drives[sid].Waiting? && id in x.s.PendingOf(sid) && Holds(x.sched, x.jobs, a, id) ==> a == Driver(sid)
    ensures x.s.gone <= x.s.exclusive && x.s.exclusive == x.drives.Keys
  {
    HoldsOwner(x, id);
    if id in x.s.dels && x.s.dels[id].running {
      assert Holds(x.sched, x.jobs, x.owner[id], id);
    }
  }

  lemma HoldsOwner(x: Sys, id: Id)
    requires Core(x)
    ensures forall a :: Holds(x.sched, x.jobs, a, id) ==> id in x.owner && x.owner[id] == a && id in x.s.dels && x.s.dels[id].running
  {
    hide Placed, DrivesFit, NoDup;
  }
}
