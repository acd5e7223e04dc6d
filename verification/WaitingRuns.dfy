/** There is a waiting run to compare with: from any quiet state whose session comes
    to rest by the end of the span, the scheduler can run to that end. */
module WaitingRuns {
  import opened Model
  import opened Replay
  import opened ReplayOrder
  import opened Compose
  import opened SessionTime
  import opened Waiting

  lemma {:induction false} LeastDue(s: Shared, ids: set<Id>) returns (id: Id)
    requires ids <= s.dels.Keys && ids != {}
    ensures id in ids && forall j :: j in ids ==> s.dels[id].fireAt <= s.dels[j].fireAt
  {
    id :| id in ids;
    if ids != {id} {
      var j := LeastDue(s, ids - {id});
      if s.dels[j].fireAt < s.dels[id].fireAt { id := j; }
    }
  }

  /** `due` lists `ids` in the order of their due times. */
  ghost predicate DueList(s: Shared, ids: set<Id>, due: seq<Id>) {
    && (forall id :: id in due <==> id in ids)
    && (forall i, j :: 0 <= i < j < |due| ==> due[i] != due[j] && NotLater(s, due[i], due[j]))
  }

  lemma {:induction false} DueListExists(s: Shared, ids: set<Id>) returns (due: seq<Id>)
    requires ids <= s.dels.Keys
    ensures DueList(s, ids, due)
    decreases |ids|
  {
    due := [];
    if ids != {} {
      var id := LeastDue(s, ids);
      var rest := DueListExists(s, ids - {id});
      due := [id] + rest;
      DueListGrows(s, ids, id, rest);
    }
  }

  lemma DueListGrows(s: Shared, ids: set<Id>, id: Id, rest: seq<Id>)
    requires ids <= s.dels.Keys && id in ids && DueList(s, ids - {id}, rest)
    requires forall j :: j in ids ==> s.dels[id].fireAt <= s.dels[j].fireAt
    ensures DueList(s, ids, [id] + rest)
  {
    var due := [id] + rest;
    forall i, j | 0 <= i < j < |due| ensures due[i] != due[j] && NotLater(s, due[i], due[j]) {
      assert due[j] == rest[j - 1] && rest[j - 1] in rest;
    }
  }

  /** A scan is possible, and takes something if anything is due. */
  lemma ScanExists<E>(x: Wall<E>, sid: Sid) returns (y: Wall<E>)
    requires Inv(x, sid) && x.batch == []
    ensures exists wait :: Waiting.Scans(x, y, {}, wait)
    ensures (exists id :: id in x.s.queue && x.s.dels[id].fireAt <= x.now) ==> y.batch != []
  {
    InvParts(x, sid);
    QueueIsPending(x, sid);
    var ids := set id | id in x.s.queue && x.s.dels[id].fireAt <= x.now;
    var due := DueListExists(x.s, ids);
    var rest := x.s.queue - ids;
    var wait := HOUR;
    if rest != {} {
      var top := LeastDue(x.s, rest);
      wait := x.s.dels[top].fireAt - x.now;
    }
    ListIsScan(x.s, x.now, ids, due, wait);
    y := x.(batch := due, s := Scan(x.s, due, {}));
    assert Waiting.Scans(x, y, {}, wait);
  }

  lemma QueueIsPending<E>(x: Wall<E>, sid: Sid)
    requires Inv(x, sid)
    ensures x.s.queue <= x.s.dels.Keys && forall id :: id in x.s.queue ==> !x.s.dels[id].canceled
  {
    assert forall id :: id in x.s.queue ==> id in x.s.PendingOf(sid);
  }

  lemma ListIsScan(s: Shared, now: int, ids: set<Id>, due: seq<Id>, wait: int)
    requires s.queue <= s.dels.Keys && (forall id :: id in s.queue ==> !s.dels[id].canceled)
    requires ids == (set id | id in s.queue && s.dels[id].fireAt <= now) && DueList(s, ids, due)
    requires var rest := s.queue - ids;
      if rest == {} then wait == HOUR
      else (exists top :: top in rest && s.dels[top].fireAt == now + wait) && forall id :: id in rest ==> s.dels[id].fireAt >= now + wait
    ensures ScanSpec(s, now, due, {}, wait)
  {
    assert (set id | id in due) == ids;
  }

  lemma WorkExists<E>(w: World<E>, x: Wall<E>, sid: Sid) returns (y: Wall<E>)
    requires Inv(x, sid) && x.batch != []
    ensures Works(w, x, y)
  {
    hide Fire;
    InvParts(x, sid);
    BatchHead(x, sid);
    var r := Fire(w, x.s, x.env, x.batch[0], x.now);
    y := Wall(r.s, r.env, x.now, x.batch[1..], x.fired + [r.fired]);
  }

  lemma BatchHead<E>(x: Wall<E>, sid: Sid)
    requires Inv(x, sid) && x.batch != []
    ensures x.batch[0] in x.s.dels && x.batch[0] in x.s.PendingOf(sid) && x.s.dels[x.batch[0]].fireAt <= x.now
  {
    assert x.batch[0] in x.batch;
  }

  /** The rest of a run in front of which one more step is put. */
  lemma WaitsLonger<E>(w: World<E>, x: Wall<E>, xs: seq<Wall<E>>, stop: int)
    requires Waits(w, xs, stop) && Waiting.Step(w, x, xs[0], stop)
    ensures Waits(w, [x] + xs, stop)
  {
    hide Waiting.Step;
    var ys := [x] + xs;
    forall k | 0 <= k < |ys| - 1 ensures Waiting.Step(w, ys[k], ys[k + 1], stop) {
      if k > 0 { assert Waiting.Step(w, xs[k - 1], xs[k], stop); }
    }
  }

  /** A state a waiting run can be in, with `n` attempts at most still to come by `stop`. */
  ghost predicate Ready<E(!new)>(w: World<E>, x: Wall<E>, sid: Sid, stop: int, n: nat) {
    && SessionTimed(w) && Forward(w) && FreshIds(w, x.s) && Inv(x, sid) && x.now <= stop
    && NoTies(w, View(x.s, sid, x.env), SessionNow(x, sid), stop + x.s.Off(sid), n)
    && VRun(w, View(x.s, sid, x.env), SessionNow(x, sid), stop + x.s.Off(sid), n).done
  }

  /** How far a state is from its next attempt. */
  ghost function Distance<E>(x: Wall<E>): nat
    requires x.s.queue <= x.s.dels.Keys
  {
    if x.batch != [] then 0
    else if exists id :: id in x.s.queue && x.s.dels[id].fireAt <= x.now then 1
    else 2
  }

  lemma WorkReady<E(!new)>(w: World<E>, x: Wall<E>, y: Wall<E>, sid: Sid, stop: int, n: nat)
    requires Ready(w, x, sid, stop, n) && Works(w, x, y)
    ensures n > 0 && Ready(w, y, sid, stop, n - 1)
  {
    hide Fire, VRun, NoTies, View, Inv, Forward, FreshIds, SessionTimed;
    var end := stop + x.s.Off(sid);
    Fuel(w, View(x.s, sid, x.env), SessionNow(x, sid), end, n);
    WorkSim(w, x, y, sid, end, n);
    OffOf(w, x, y, sid);
    WorksOnly(w, x, y);
  }

  lemma Fuel<E>(w: World<E>, v: Virtual<E>, clock: int, end: int, n: nat)
    requires VRun(w, v, clock, end, n).done
    ensures n > 0
  {
  }

  lemma ScanReady<E(!new)>(w: World<E>, x: Wall<E>, y: Wall<E>, wait: int, sid: Sid, stop: int, n: nat)
    requires Ready(w, x, sid, stop, n) && Waiting.Scans(x, y, {}, wait)
    ensures Ready(w, y, sid, stop, n)
  {
    hide VRun, NoTies, View, Inv, Forward, FreshIds, SessionTimed, Waiting.Scans;
    ScanKeeps(x, y, {}, wait, sid);
    ScansOnly(w, x, y, {}, wait, sid);
  }

  lemma TickReady<E(!new)>(w: World<E>, x: Wall<E>, later: int, sid: Sid, stop: int, n: nat)
    requires Ready(w, x, sid, stop, n) && Ticks(x, x.(now := later), stop)
    ensures Ready(w, x.(now := later), sid, stop, n)
  {
    hide VRun, NoTies, View, Inv, Forward, FreshIds, SessionTimed;
    TickSim(w, x, x.(now := later), sid, stop, stop + x.s.Off(sid), n);
  }

  /** Nothing is due now: time passes to the next due time, or to the end. */
  lemma NextTick<E>(x: Wall<E>, sid: Sid, stop: int) returns (later: int)
    requires Inv(x, sid) && x.batch == [] && x.now <= stop && x.s.queue <= x.s.dels.Keys
    requires forall id :: id in x.s.queue ==> x.s.dels[id].fireAt > x.now
    ensures Ticks(x, x.(now := later), stop)
    ensures (exists id :: id in x.s.queue && x.s.dels[id].fireAt <= later)
      || (later == stop && forall id :: id in x.s.queue ==> x.s.dels[id].fireAt > stop)
  {
    later := stop;
    if x.s.queue != {} {
      var id := LeastDue(x.s, x.s.queue);
      if x.s.dels[id].fireAt <= stop { later := x.s.dels[id].fireAt; }
    }
  }

  lemma {:induction false} WaitFrom<E(!new)>(w: World<E>, x: Wall<E>, sid: Sid, stop: int, n: nat) returns (xs: seq<Wall<E>>)
    requires Ready(w, x, sid, stop, n) && x.s.queue <= x.s.dels.Keys
    ensures Waits(w, xs, stop) && xs[0] == x && |xs[|xs| - 1].fired| < |x.fired| + n
    decreases n, Distance(x)
  {
    hide VRun, NoTies, View, Inv, Forward, FreshIds, SessionTimed, Fire, ScanSpec, Scan;
    ReadyInv(w, x, sid, stop, n);
    var y;
    if x.batch != [] {
      y := WorkExists(w, x, sid);
      WorkReady(w, x, y, sid, stop, n);
      WorksOnly(w, x, y);
      ReadyInv(w, y, sid, stop, n - 1);
      xs := WaitFrom(w, y, sid, stop, n - 1);
    } else if exists id :: id in x.s.queue && x.s.dels[id].fireAt <= x.now {
      y := ScanExists(x, sid);
      var wait :| Waiting.Scans(x, y, {}, wait);
      ScanReady(w, x, y, wait, sid, stop, n);
      ReadyInv(w, y, sid, stop, n);
      xs := WaitFrom(w, y, sid, stop, n);
    } else {
      var later := NextTick(x, sid, stop);
      y := x.(now := later);
      TickReady(w, x, later, sid, stop, n);
      if exists id :: id in x.s.queue && x.s.dels[id].fireAt <= later {
        xs := WaitFrom(w, y, sid, stop, n);
      } else {
        ReadyFuel(w, x, sid, stop, n);
        xs := [y];
      }
    }
    assert Waiting.Step(w, x, y, stop);
    WaitsLonger(w, x, xs, stop);
    xs := [x] + xs;
  }

  lemma ReadyInv<E(!new)>(w: World<E>, x: Wall<E>, sid: Sid, stop: int, n: nat)
    requires Ready(w, x, sid, stop, n)
    ensures Inv(x, sid) && x.now <= stop && x.s.queue <= x.s.dels.Keys
  {
    hide VRun, NoTies, View, Forward, FreshIds, SessionTimed;
    QueueIsPending(x, sid);
  }

  lemma ReadyFuel<E(!new)>(w: World<E>, x: Wall<E>, sid: Sid, stop: int, n: nat)
    requires Ready(w, x, sid, stop, n)
    ensures n > 0
  {
    hide View, NoTies, Inv, Forward, FreshIds, SessionTimed;
    Fuel(w, View(x.s, sid, x.env), SessionNow(x, sid), stop + x.s.Off(sid), n);
  }

  /** If the session comes to rest within the attempts Advance allows, a waiting run
      over the span exists. */
  lemma WaitingRunExists<E(!new)>(w: World<E>, s: Shared, env: E, sid: Sid, span: nat) returns (xs: seq<Wall<E>>)
    requires SessionTimed(w) && Forward(w) && FreshIds(w, s) && Alone(s, sid)
    requires NoTies(w, View(s, sid, env), w.clock(0) + s.Off(sid), w.clock(0) + span + s.Off(sid), CAP)
    requires VRun(w, View(s, sid, env), w.clock(0) + s.Off(sid), w.clock(0) + span + s.Off(sid), CAP).done
    ensures Waits(w, xs, w.clock(0) + span) && xs[0] == Wall(s, env, w.clock(0), [], []) && |xs[|xs| - 1].fired| < CAP
  {
    hide VRun, NoTies, View, Inv, Forward, FreshIds, SessionTimed;
    var x := Wall(s, env, w.clock(0), [], []);
    AloneStarts(s, env, sid, w.clock(0));
    InvParts(x, sid);
    xs := WaitFrom(w, x, sid, w.clock(0) + span, CAP);
  }
}
