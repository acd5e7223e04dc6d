/** The synchronous calls round by round, on any clock: each attempt meets the shared
    state and the scenario as the one before it left them. */
module CallRounds {
  import opened Model
  import opened Replay
  import opened ReplayOrder
  import opened OrderedDelivery

  /** The shared state and the scenario between two attempts. */
  datatype Point<E> = Point(s: Shared, env: E)

  // ---------- Advance ----------

  /** Round i attempts the first delivery in due order, after moving the clock to it. */
  ghost predicate Turns<E>(w: World<E>, sid: Sid, x: Point<E>, y: Point<E>, f: Fired, i: nat) {
    && IsFirst(x.s, Eligible(x.s, sid), f.id)
    && var ahead := x.s.dels[f.id].fireAt - w.clock(2 * i);
       After(y.s, y.env, f) == Fire(w, Mark(Shift(x.s, sid, if ahead < 0 then 0 else ahead), f.id), x.env, f.id, w.clock(2 * i + 1))
  }

  /** `xs` are the points of the rounds from the n-th on. */
  ghost predicate TurnsAlong<E>(w: World<E>, sid: Sid, xs: seq<Point<E>>, fired: seq<Fired>, n: nat) {
    && |xs| >= 1 && |fired| == n + |xs| - 1
    && forall k :: 0 <= k < |xs| - 1 ==> Turns(w, sid, xs[k], xs[k + 1], fired[n + k], n + k)
  }

  lemma RoundTurns<E>(w: World<E>, s: Shared, env: E, sid: Sid, id: Id, i: nat)
    requires First(s, Eligible(s, sid)) == Some(id)
    ensures id in s.dels
    ensures var r := Round(w, s, env, sid, id, StepTo(w.clock(2 * i), s.dels[id].fireAt), i);
      Turns(w, sid, Point(s, env), Point(r.s, r.env), r.fired, i)
  {
    hide Followed, Attempted;
    Chosen(s, sid, id);
  }

  lemma TurnsMore<E>(w: World<E>, sid: Sid, x: Point<E>, xs: seq<Point<E>>, fired: seq<Fired>, n: nat)
    requires TurnsAlong(w, sid, xs, fired, n + 1) && Turns(w, sid, x, xs[0], fired[n], n)
    ensures TurnsAlong(w, sid, [x] + xs, fired, n)
  {
    hide Turns;
    forall k | 0 <= k < |xs| ensures Turns(w, sid, ([x] + xs)[k], ([x] + xs)[k + 1], fired[n + k], n + k) {
      if k > 0 { assert Turns(w, sid, xs[k - 1], xs[k], fired[n + 1 + (k - 1)], n + 1 + (k - 1)); }
    }
  }

  lemma {:induction false} LoopTurns<E>(w: World<E>, s: Shared, env: E, sid: Sid, remaining: int, fired: seq<Fired>) returns (xs: seq<Point<E>>)
    ensures var o := AdvanceLoop(w, s, env, sid, remaining, fired);
      && TurnsAlong(w, sid, xs, o.fired, |fired|) && fired <= o.fired
      && xs[0] == Point(s, env) && xs[|xs| - 1] == Point(o.s, o.env)
    decreases CAP - |fired|
  {
    hide Round, First, Eligible, Turns, TurnsAlong;
    var i := |fired|;
    var next := First(s, Eligible(s, sid));
    if next.Some? { Chosen(s, sid, next.value); }
    if w.expired(i) || i >= CAP || sid in s.gone || next.None? || StepTo(w.clock(2 * i), s.dels[next.value].fireAt) > remaining {
      xs := [Point(s, env)];
      assert TurnsAlong(w, sid, xs, fired, i) by { NoTurns(w, sid, xs, fired); }
    } else {
      var step := StepTo(w.clock(2 * i), s.dels[next.value].fireAt);
      var r := Round(w, s, env, sid, next.value, step, i);
      RoundTurns(w, s, env, sid, next.value, i);
      var rest := LoopTurns(w, r.s, r.env, sid, remaining - step, fired + [r.fired]);
      xs := [Point(s, env)] + rest;
      var o := AdvanceLoop(w, s, env, sid, remaining, fired);
      assert o.fired[i] == (fired + [r.fired])[i];
      TurnsSome(w, sid, rest, o.fired, i + 1);
      TurnsMore(w, sid, Point(s, env), rest, o.fired, i);
    }
  }

  lemma NoTurns<E>(w: World<E>, sid: Sid, xs: seq<Point<E>>, fired: seq<Fired>)
    requires |xs| == 1
    ensures TurnsAlong(w, sid, xs, fired, |fired|)
  {
  }

  lemma TurnsSome<E>(w: World<E>, sid: Sid, xs: seq<Point<E>>, fired: seq<Fired>, n: nat)
    requires TurnsAlong(w, sid, xs, fired, n)
    ensures |xs| >= 1 && |fired| == n + |xs| - 1
  {
  }

  /** One Advance call, on whatever clock: it takes the session, makes its rounds one
      after the other, on the state and the scenario that each leaves to the next,
      moves the clock by what is left unless it was cut short, and gives the session
      back; the scenario in the end is as the last round left it. */
  lemma AdvanceTurns<E(!new)>(w: World<E>, s: Shared, env: E, sid: Sid, span: nat) returns (xs: seq<Point<E>>)
    requires Forward(w) && FreshIds(w, s) && Idle(s, sid)
    ensures var o := Advance(w, s, env, sid, span);
      && TurnsAlong(w, sid, xs, o.fired, 0) && xs[0] == Point(Acquire(s, sid), env)
      && var last := xs[|xs| - 1];
         && o.env == last.env && o.remaining == span - (last.s.Off(sid) - s.Off(sid))
         && o.s == Release(if o.partial then last.s else Shift(last.s, sid, o.remaining), sid)
  {
    hide AdvanceLoop, TurnsAlong, Forward, FreshIds, Idle, Driven, InOrder;
    var s1 := Acquire(s, sid);
    AcquireDrives(s, sid);
    SameFresh(w, s, s1);
    EmptyInOrder();
    LoopEnds(w, s1, env, sid, span, []);
    xs := LoopTurns(w, s1, env, sid, span, []);
    var o := AdvanceLoop(w, s1, env, sid, span, []);
    TurnsSome(w, sid, xs, o.fired, 0);
    DrivenStays(o.s, sid);
  }

  // ---------- DeliverNow ----------

  /** Round i sends the delivery that the item names: by its id, else the first in due
      order of that event. */
  ghost predicate Sends<E>(w: World<E>, sid: Sid, item: string, x: Point<E>, y: Point<E>, f: Fired, i: nat) {
    && f.id in x.s.dels
    && f.id in Eligible(x.s, sid)
    && (if item in Eligible(x.s, sid) then f.id == item else
        && x.s.dels[f.id].event == item
        && forall id :: id in Eligible(x.s, sid) && x.s.dels[id].event == item && id != f.id ==> Before(x.s.dels[f.id], x.s.dels[id]))
    && After(y.s, y.env, f) == Fire(w, Mark(x.s, f.id), x.env, f.id, w.clock(2 * i + 1))
  }

  ghost predicate SendsAlong<E>(w: World<E>, sid: Sid, items: seq<string>, xs: seq<Point<E>>, fired: seq<Fired>, n: nat) {
    && 1 <= |xs| <= |items| + 1 && |fired| == n + |xs| - 1
    && forall k :: 0 <= k < |xs| - 1 ==> Sends(w, sid, items[k], xs[k], xs[k + 1], fired[n + k], n + k)
  }

  lemma ItemSends<E>(w: World<E>, s: Shared, env: E, sid: Sid, item: string, id: Id, i: nat)
    requires Find(s, sid, item) == Some(id)
    ensures id in s.dels
    ensures var r := Fire(w, Mark(s, id), env, id, w.clock(2 * i + 1));
      Sends(w, sid, item, Point(s, env), Point(r.s, r.env), r.fired, i)
  {
    hide Followed, Attempted;
  }

  lemma SendsMore<E>(w: World<E>, sid: Sid, items: seq<string>, x: Point<E>, xs: seq<Point<E>>, fired: seq<Fired>, n: nat)
    requires items != [] && SendsAlong(w, sid, items[1..], xs, fired, n + 1) && Sends(w, sid, items[0], x, xs[0], fired[n], n)
    ensures SendsAlong(w, sid, items, [x] + xs, fired, n)
  {
    hide Sends;
    forall k | 0 <= k < |xs| ensures Sends(w, sid, items[k], ([x] + xs)[k], ([x] + xs)[k + 1], fired[n + k], n + k) {
      if k > 0 { assert Sends(w, sid, items[1..][k - 1], xs[k - 1], xs[k], fired[n + 1 + (k - 1)], n + 1 + (k - 1)); }
    }
  }

  lemma {:induction false} LoopSendsAlong<E>(w: World<E>, s: Shared, env: E, sid: Sid, items: seq<string>, fired: seq<Fired>) returns (xs: seq<Point<E>>)
    ensures var o := DeliverLoop(w, s, env, sid, items, fired);
      && SendsAlong(w, sid, items, xs, o.fired, |fired|) && fired <= o.fired
      && xs[0] == Point(s, env) && xs[|xs| - 1] == Point(o.s, o.env)
    decreases |items|
  {
    hide Fire, Find, Sends, SendsAlong;
    var i := |fired|;
    if items == [] || w.expired(i) || sid in s.gone || Find(s, sid, items[0]).None? {
      xs := [Point(s, env)];
      NoSends(w, sid, items, xs, fired);
    } else {
      var id := Find(s, sid, items[0]).value;
      ItemSends(w, s, env, sid, items[0], id, i);
      var r := Fire(w, Mark(s, id), env, id, w.clock(2 * i + 1));
      var rest := LoopSendsAlong(w, r.s, r.env, sid, items[1..], fired + [r.fired]);
      xs := [Point(s, env)] + rest;
      var o := DeliverLoop(w, s, env, sid, items, fired);
      assert o.fired[i] == (fired + [r.fired])[i];
      SendsSome(w, sid, items[1..], rest, o.fired, i + 1);
      SendsMore(w, sid, items, Point(s, env), rest, o.fired, i);
    }
  }

  lemma NoSends<E>(w: World<E>, sid: Sid, items: seq<string>, xs: seq<Point<E>>, fired: seq<Fired>)
    requires |xs| == 1
    ensures SendsAlong(w, sid, items, xs, fired, |fired|)
  {
  }

  lemma SendsSome<E>(w: World<E>, sid: Sid, items: seq<string>, xs: seq<Point<E>>, fired: seq<Fired>, n: nat)
    requires SendsAlong(w, sid, items, xs, fired, n)
    ensures 1 <= |xs| <= |items| + 1 && |fired| == n + |xs| - 1
  {
  }

  /** One DeliverNow call: it takes the session, sends what its items name, one after
      the other, and gives the session back. */
  lemma DeliverNowSends<E>(w: World<E>, s: Shared, env: E, sid: Sid, items: seq<string>) returns (xs: seq<Point<E>>)
    ensures var o := DeliverNow(w, s, env, sid, items);
      && SendsAlong(w, sid, items, xs, o.fired, 0) && xs[0] == Point(Acquire(s, sid), env)
      && o.env == xs[|xs| - 1].env && o.s == Release(xs[|xs| - 1].s, sid)
  {
    hide DeliverLoop, Acquire, Release, Sends;
    xs := LoopSendsAlong(w, Acquire(s, sid), env, sid, items, []);
  }
}
