/** Why a drive is in order only if no overdue delivery is still being queued: a run
    in which one is. */
module DriveRace {
  import opened Model
  import opened Protocol
  import opened DriveOrder
  import R = Replay

  const SLOW := Draft("s", Request("t", "e", 1, None, 5), 0)
  const QUICK := Draft("s", Request("t", "e", 1, None, 0), 0)

  /** Before the session is acquired: two deliveries made and not queued. */
  function Drafted(drafts: map<Id, Del>, log: map<Id, Record>): Sys {
    START.(s := EMPTY.(log := log), drafts := drafts)
  }

  /** The session is held by a driver that goes forward by 10 ns. */
  function Occupied(drive: Drive): Sys {
    START.(s := EMPTY.(exclusive := {"s"}), drives := map["s" := drive], drafts := map["a" := SLOW, "b" := QUICK])
  }

  /** The slow delivery queued, and the quick one not. */
  function SlowQueued(now: int, d: Del, off: map<Sid, int>, left: int): Sys {
    START.(now := now, kicks := 1,
           s := EMPTY.(dels := map["a" := d], pending := {"a"}, offsets := off, exclusive := {"s"}, issued := 1),
           drives := map["s" := Driving(Clock(10, left, 0))], drafts := map["b" := QUICK],
           hist := map["a" := []], calls := map["a" := 0])
  }

  /** The slow delivery in its driver's hands. */
  function SlowTaken(attempts: nat, job: Job): Sys {
    SlowQueued(3, SLOW.(ord := 1, fireAt := 3, attempts := attempts, running := true), map["s" := 2], 8)
      .(jobs := map[Driver("s") := job], owner := map["a" := Driver("s")])
  }

  /** The slow delivery delivered. */
  function SlowDone(jobs: map<Agent, Job>, owing: map<Id, Agent>): Sys {
    var x := SlowQueued(3, SLOW.(ord := 1, fireAt := 3, attempts := 1), map["s" := 2], 8);
    x.(s := x.s.(pending := {}), jobs := jobs, owing := owing, hist := map["a" := [Try(1, 3, true)]], retired := {"a"})
  }

  /** The quick one queued too late. */
  function QuickQueued(running: bool): Sys {
    var x := SlowDone(map[], map[]);
    x.(s := x.s.(dels := x.s.dels["b" := QUICK.(ord := 2, running := running)], pending := {"b"}, issued := 2),
       drafts := map[], kicks := 2, hist := x.hist["b" := []], calls := x.calls["b" := 0])
  }

  function Race(k: nat): Sys {
    var d := Driver("s");
    match k
    case 0 => START
    case 1 => Drafted(map["a" := SLOW], LogAdd(EMPTY, "a", SLOW).log)
    case 2 => Drafted(map["a" := SLOW], map[])
    case 3 => Drafted(map["a" := SLOW, "b" := QUICK], LogAdd(EMPTY, "b", QUICK).log)
    case 4 => Drafted(map["a" := SLOW, "b" := QUICK], map[])
    case 5 => Occupied(Waiting(Clock(10, 10, 0)))
    case 6 => Occupied(Driving(Clock(10, 10, 0)))
    case 7 => SlowQueued(0, SLOW.(ord := 1), map[], 10)
    case 8 => SlowQueued(3, SLOW.(ord := 1), map[], 10)
    case 9 => SlowTaken(0, Job("a", 0, Handed))
    case 10 => SlowTaken(0, Job("a", 0, Checked))
    case 11 => SlowTaken(1, Job("a", 1, Begun))
    case 12 => SlowTaken(1, Job("a", 1, Answered(Delivered))).(hist := map["a" := [Try(1, 3, true)]], owing := map["a" := d])
    case 13 => SlowDone(map[d := Job("a", 1, Settled)], map["a" := d])
    case 14 => SlowDone(map[], map[])
    case 15 => QuickQueued(false)
    case _ => QuickQueued(true).(jobs := map[d := Job("b", 0, Handed)], owner := map["b" := d])
  }

  function RaceStep(k: nat): Step {
    var d := Driver("s");
    match k
    case 0 => SDraft("a", "s", Request("t", "e", 1, None, 5))
    case 1 => SEvict("a")
    case 2 => SDraft("b", "s", Request("t", "e", 1, None, 0))
    case 3 => SEvict("b")
    case 4 => SAcquire("s", 10, false)
    case 5 => SQuiet("s")
    case 6 => SEnqueue("a")
    case 7 => STick
    case 8 => SAdvance("s", "a")
    case 9 => SCheck(d)
    case 10 => SBegin(d)
    case 11 => SAnswer(d, true, 3)
    case 12 => SSettle(d)
    case 13 => SEnd(d)
    case 14 => SEnqueue("b")
    case _ => SAdvance("s", "b")
  }

  lemma AdvanceSteps(x: Sys, y: Sys, sid: Sid, id: Id)
    requires Advances(x, y, sid, id)
    ensures Next(x, y, SAdvance(sid, id))
  {
    hide Advances;
  }

  lemma AnswerSteps(x: Sys, y: Sys, a: Agent, ok: bool, next: int)
    requires Answers(x, y, a, ok, next)
    ensures Next(x, y, SAnswer(a, ok, next))
  {
    hide Answers;
  }

  lemma SettleSteps(x: Sys, y: Sys, a: Agent)
    requires Settles(x, y, a)
    ensures Next(x, y, SSettle(a))
  {
    hide Settles;
  }

  lemma EndSteps(x: Sys, y: Sys, a: Agent)
    requires Ends(x, y, a)
    ensures Next(x, y, SEnd(a))
  {
    hide Ends;
  }

  lemma Makes(k: nat)
    requires k < 4
    ensures Next(Race(k), Race(k + 1), RaceStep(k))
  {
    assert LogAdd(EMPTY, "a", SLOW).log - {"a"} == map[] && LogAdd(EMPTY, "b", QUICK).log - {"b"} == map[];
  }

  lemma Occupies(k: nat)
    requires 4 <= k < 6
    ensures Next(Race(k), Race(k + 1), RaceStep(k))
  {
  }

  lemma QueuesSlow()
    ensures Next(Race(6), Race(7), SEnqueue("a"))
  {
    assert map["a" := SLOW, "b" := QUICK] - {"a"} == map["b" := QUICK];
  }

  lemma ClockRuns()
    ensures Next(Race(7), Race(8), STick)
  {
  }

  lemma SlowIsFirst()
    ensures IsFirst(Race(8).s, Eligible(Race(8).s, "s"), "a")
  {
    assert Race(8).s.PendingOf("s") == {"a"};
  }

  lemma SlowMoves()
    ensures Mark(Shift(Race(8).s, "s", 2), "a") == Race(9).s
  {
    var s: Shared := Race(8).s;
    assert s.PendingOf("s") == {"a"};
    assert Earlier(s.dels, {"a"}, 2) == map["a" := SLOW.(ord := 1, fireAt := 3)];
    assert Replanned(s.log, s.dels, {"a"}, 2) == map[];
  }

  lemma TakesSlow()
    ensures Next(Race(8), Race(9), SAdvance("s", "a"))
  {
    hide Next, IsFirst, Eligible, Shift, Mark;
    SlowIsFirst();
    SlowMoves();
    AdvanceSteps(Race(8), Race(9), "s", "a");
  }

  lemma ChecksSlow()
    ensures Next(Race(9), Race(10), SCheck(Driver("s")))
  {
  }

  lemma SlowBegins()
    ensures Begin(Race(10).s, "a") == Race(11).s
  {
  }

  lemma BeginsSlow()
    ensures Next(Race(10), Race(11), SBegin(Driver("s")))
  {
    hide Begin;
    SlowBegins();
  }

  lemma SlowAnswers()
    ensures Answer(Race(11).s, "a", Try(1, 3, true), 3) == Race(12).s
  {
  }

  lemma AnswersSlow()
    ensures Next(Race(11), Race(12), SAnswer(Driver("s"), true, 3))
  {
    hide Next, Answer;
    SlowAnswers();
    assert [] + [Try(1, 3, true)] == [Try(1, 3, true)];
    AnswerSteps(Race(11), Race(12), Driver("s"), true, 3);
  }

  lemma SlowSettles()
    ensures Settle(Race(12).s, "a", Delivered) == Race(13).s
  {
    assert {"a"} - {"a"} == {};
  }

  lemma SettlesSlow()
    ensures Next(Race(12), Race(13), SSettle(Driver("s")))
  {
    hide Next, Settle;
    SlowSettles();
    assert map["a" := Driver("s")] - {"a"} == map[];
    SettleSteps(Race(12), Race(13), Driver("s"));
  }

  lemma EndsSlow()
    ensures Next(Race(13), Race(14), SEnd(Driver("s")))
  {
    hide Next, MarkFirst;
    var x, y := SlowDone(map[Driver("s") := Job("a", 1, Settled)], map["a" := Driver("s")]), SlowDone(map[], map[]);
    assert Race(13) == x && Race(14) == y;
    assert map["a" := Driver("s")] - {"a"} == map[];
    assert map[Driver("s") := Job("a", 1, Settled)] - {Driver("s")} == map[];
    EndSteps(Race(13), Race(14), Driver("s"));
  }

  lemma QueuesQuick()
    ensures Next(Race(14), Race(15), SEnqueue("b"))
  {
    assert map["b" := QUICK] - {"b"} == map[];
  }

  lemma QuickIsFirst()
    ensures IsFirst(Race(15).s, Eligible(Race(15).s, "s"), "b")
  {
    assert Race(15).s.PendingOf("s") == {"b"};
  }

  lemma QuickIsTaken()
    ensures Mark(Shift(Race(15).s, "s", 0), "b") == Race(16).s
  {
  }

  lemma TakesQuick()
    ensures Next(Race(15), Race(16), SAdvance("s", "b"))
  {
    hide Next, IsFirst, Eligible, Shift, Mark;
    QuickIsFirst();
    QuickIsTaken();
    AdvanceSteps(Race(15), Race(16), "s", "b");
  }

  lemma RaceNext(k: nat)
    requires k < 16
    ensures Next(Race(k), Race(k + 1), RaceStep(k))
  {
    hide Next, Race;
    if k < 4 {
      Makes(k);
    } else if k < 6 {
      Occupies(k);
    } else if k == 6 {
      QueuesSlow();
    } else if k == 7 {
      ClockRuns();
    } else if k == 8 {
      TakesSlow();
    } else if k == 9 {
      ChecksSlow();
    } else if k == 10 {
      BeginsSlow();
    } else if k == 11 {
      AnswersSlow();
    } else if k == 12 {
      SettlesSlow();
    } else if k == 13 {
      EndsSlow();
    } else if k == 14 {
      QueuesQuick();
    } else {
      TakesQuick();
    }
  }

  /** All that `FairTo` asks, but that nothing overdue is still being queued. */
  ghost predicate AlmostFair(x: Sys, step: Step, sid: Sid) {
    FairTo(x.(drafts := map[]), step, sid)
  }

  lemma RaceIsFair(k: nat)
    requires k < 16
    ensures AlmostFair(Race(k), RaceStep(k), "s")
  {
  }

  /** A delivery made before another one is due, and queued only after that one has been
      attempted, is attempted after it although its session due time is earlier. */
  lemma QueuingMayBeOvertaken() returns (xs: seq<Sys>, steps: seq<Step>)
    ensures Run(xs, steps) && |steps| == 16 && steps[8] == SAdvance("s", "a") && steps[15] == SAdvance("s", "b")
    ensures forall k :: 0 <= k < 16 ==> AlmostFair(xs[k], steps[k], "s")
    ensures "a" in xs[8].s.dels && "b" in xs[15].s.dels && xs[8].s.Due("a") == 5 && xs[15].s.Due("b") == 2
  {
    hide Next, AlmostFair;
    xs, steps := seq(17, k requires k >= 0 => Race(k)), seq(16, k requires k >= 0 => RaceStep(k));
    forall k | 0 <= k < 16 ensures Next(xs[k], xs[k + 1], steps[k]) && AlmostFair(xs[k], steps[k], "s") {
      RaceNext(k);
      RaceIsFair(k);
    }
  }
}
