/** The scenario engine driven by the dispatcher, and what static validation
    says about what can then happen. */
module Simulation {
  import opened Model
  import opened Replay
  import opened Scenarios
  import opened Engine
  import opened SessionRuns
  import opened Compose
  import opened Waiting
  import opened SessionTime
  import Reachability
  import Retry

  // ---------- the engine as the dispatcher's callback ----------

  /** A session with its transitions dated in session time only. */
  function Seen(v: Sess): Sess {
    v.(history := SeenTrace(v.history))
  }

  function SeenTrace(h: seq<Transition>): (r: seq<Transition>)
    ensures |r| == |h| && forall i :: 0 <= i < |h| ==> r[i] == h[i].(at := h[i].virtualAt)
  {
    if h == [] then [] else [h[0].(at := h[0].virtualAt)] + SeenTrace(h[1..])
  }

  /** Apart from the wall-clock stamp of a transition, a goto depends on the wall
      clock and the clock offset only through their sum, the session time. */
  lemma GotoInSessionTime<Q>(host: Host<Q>, sc: Scenario, v: Sess, g: Goto, m: Moment)
    ensures var r := OnGoto(host, sc, v, g, m);
      OnGoto(host, sc, Seen(v), g, Moment(m.at + m.off, 0, m.count)) == (Seen(r.0), r.1)
  {
    hide Enters, Latest, SeenTrace;
    if v.epoch == g.epoch {
      var t := Transition(v.state, g.state, m.at, m.at + m.off, ByWebhook, g.event);
      SeenGrows(v.history, t);
      SeenKept(v.history + [t]);
      EntersInSessionTime(host, sc, Entered(v, g.state, m, ByWebhook, g.event), m);
    }
  }

  lemma SeenGrows(h: seq<Transition>, t: Transition)
    ensures SeenTrace(h + [t]) == SeenTrace(h) + [t.(at := t.virtualAt)]
  {
  }

  lemma SeenKept(h: seq<Transition>)
    ensures SeenTrace(Latest(h)) == Latest(SeenTrace(h))
  {
  }

  lemma EntersInSessionTime<Q>(host: Host<Q>, sc: Scenario, u: Sess, m: Moment)
    ensures Enters(host, sc, None, Seen(u), Moment(m.at + m.off, 0, m.count)) == Enters(host, sc, None, u, m)
  {
    if u.state in sc.states {
      PostsInSessionTime(host, u, sc.states[u.state].enter, m, |sc.states[u.state].enter|);
    }
  }

  lemma {:induction false} PostsInSessionTime<Q>(host: Host<Q>, u: Sess, acts: seq<Action>, m: Moment, n: nat)
    requires n <= |acts|
    ensures Posts(host, None, Seen(u), acts, Moment(m.at + m.off, 0, m.count), n) == Posts(host, None, u, acts, m, n)
  {
    if n > 0 { PostsInSessionTime(host, u, acts, m, n - 1); }
  }

  /** The dispatcher's callbacks handled by the engine. */
  function WithEngine<Q>(w: World<Sess>, host: Host<Q>, sc: Scenario): World<Sess> {
    w.(react := (v: Sess, g: Goto, at: int, off: int, n: nat) => OnGoto(host, sc, v, g, Moment(at, off, (i: nat, k: nat) => n + k)))
  }

  /** The engine as a callback counts the session's pending deliveries: it never takes
      them over the configured limit. */
  lemma CallbackKeepsLimit<Q>(w: World<Sess>, host: Host<Q>, sc: Scenario, v: Sess, g: Goto, at: int, off: int, n: nat)
    requires host.limit > 0
    ensures var posts := WithEngine(w, host, sc).react(v, g, at, off, n).1;
      n + |posts| <= if n > host.limit then n else host.limit
  {
    hide Latest;
    var m := Moment(at, off, (i: nat, k: nat) => n + k);
    var u := Entered(v, g.state, m, ByWebhook, g.event);
    if v.epoch == g.epoch && u.state in sc.states {
      var acts := sc.states[u.state].enter;
      EntryRespectsLimit(host, None, u, acts, m, n, |acts|);
    }
  }

  /** The same engine, told the time by the session's own clock. */
  function InSessionTime<Q>(w: World<Sess>, host: Host<Q>, sc: Scenario): World<Sess> {
    w.(react := (v: Sess, g: Goto, at: int, off: int, n: nat) => OnGoto(host, sc, v, g, Moment(at + off, 0, (i: nat, k: nat) => n + k)))
  }

  /** Time does not run backwards in this world: clock readings, retry delays. */
  ghost predicate Onward<E>(w: World<E>) {
    (forall i: nat, j: nat :: i <= j ==> w.clock(i) <= w.clock(j)) && forall id, n :: w.retry(id, n) >= 0
  }

  /** Retries delayed as the dispatcher delays them. A delivery asks for no more than
      `limit - 1` of them. */
  function WithRetries<E>(w: World<E>, base: Id -> nat, limit: Id -> nat, jitter: (Id, nat) -> real, over: (Id, nat) -> int): World<E> {
    w.(retry := (id: Id, n: nat) => if 1 <= n < limit(id) then Retry.Delay(base(id), n, jitter(id, n), over(id, n)) else 0)
  }

  /** As long as no jitter takes a doubled backoff past 64 bits, no retry goes back in
      time. */
  lemma RetriesAreForward<E>(w: World<E>, base: Id -> nat, limit: Id -> nat, jitter: (Id, nat) -> real, over: (Id, nat) -> int)
    requires forall id :: limit(id) >= 2 ==> Retry.Safe(base(id) * Retry.Pow2(limit(id) - 2))
    requires (forall id, n :: 0.8 <= jitter(id, n) < 1.2) && forall i: nat, j: nat :: i <= j ==> w.clock(i) <= w.clock(j)
    ensures Onward(WithRetries(w, base, limit, jitter, over))
  {
    hide Retry.Delay, Retry.Pow2;
    forall id: Id, n: nat | 1 <= n < limit(id) ensures Retry.Delay(base(id), n, jitter(id, n), over(id, n)) >= 0 {
      Retry.PowGrows(n - 1, limit(id) - 2);
      Retry.Scaled(base(id), Retry.Pow2(n - 1), Retry.Pow2(limit(id) - 2));
      Retry.DelayBounds(base(id), n - 1, jitter(id, n), over(id, n), base(id) * Retry.Pow2(n - 1));
    }
  }

  lemma {:induction false} PostsAreNotEarlier<Q>(host: Host<Q>, q: Option<Q>, v: Sess, acts: seq<Action>, m: Moment, n: nat)
    requires n <= |acts| && forall i :: 0 <= i < |acts| ==> host.scaled(acts[i].after) >= 0
    ensures NotEarlier(Posts(host, q, v, acts, m, n))
  {
    if n > 0 { PostsAreNotEarlier(host, q, v, acts, m, n - 1); }
  }

  lemma GotoIsForward<Q>(host: Host<Q>, sc: Scenario, v: Sess, g: Goto, m: Moment)
    requires forall x :: x >= 0 ==> host.scaled(x) >= 0
    requires forall a, i :: a in sc.states && 0 <= i < |sc.states[a].enter| ==> sc.states[a].enter[i].after >= 0
    ensures NotEarlier(OnGoto(host, sc, v, g, m).1)
  {
    hide Posts, Latest;
    var u := Entered(v, g.state, m, ByWebhook, g.event);
    if u.state in sc.states {
      var acts := sc.states[u.state].enter;
      PostsAreNotEarlier(host, None, u, acts, m, |acts|);
    }
  }

  /** Validation's bound on delays is what keeps the engine from scheduling into
      the past. */
  lemma EngineIsForward<Q>(w: World<Sess>, host: Host<Q>, g: Grammar, targets: set<string>, raw: RawScenario, sc: Scenario)
    requires Validated(g, targets, raw) && CompilesTo(raw, sc) && Onward(w)
    requires forall x :: x >= 0 ==> host.scaled(x) >= 0
    ensures Forward(WithEngine(w, host, sc)) && Forward(InSessionTime(w, host, sc))
  {
    hide OnGoto, Validated, CompilesTo, NotEarlier;
    DelaysAreForward(g, targets, raw, sc);
    forall v: Sess, go: Goto, m: Moment ensures NotEarlier(OnGoto(host, sc, v, go, m).1) {
      GotoIsForward(host, sc, v, go, m);
    }
  }

  lemma DelaysAreForward(g: Grammar, targets: set<string>, raw: RawScenario, sc: Scenario)
    requires Validated(g, targets, raw) && CompilesTo(raw, sc)
    ensures forall a, i :: a in sc.states && 0 <= i < |sc.states[a].enter| ==> sc.states[a].enter[i].after >= 0
  {
    ValidatedIsSound(g, targets, raw);
    hide Validated, SetsOf;
    forall a, i | a in sc.states && 0 <= i < |sc.states[a].enter| ensures sc.states[a].enter[i].after >= 0 {
      assert StateOf(raw.states[a].value, sc.states[a]);
      EnterKeepsDelays(raw.states[a].value.enter);
    }
  }

  lemma {:induction false} EnterKeepsDelays(acts: seq<RawAction>)
    requires forall i :: 0 <= i < |acts| ==> acts[i].webhook.Some?
    ensures |EnterOf(acts)| == |acts| && forall i :: 0 <= i < |acts| ==> EnterOf(acts)[i].after == acts[i].webhook.value.after
  {
    if acts != [] { EnterKeepsDelays(acts[..|acts| - 1]); }
  }

  // ---------- whole runs, seen in session time ----------

  /** World `u` is world `w` with what callbacks work on seen through `f`. */
  ghost predicate SeenThrough<E(!new), F(!new)>(w: World<E>, u: World<F>, f: E -> F) {
    && u.newID == w.newID && u.answer == w.answer && u.retry == w.retry && u.clock == w.clock && u.expired == w.expired
    && forall e, g, at, off, n :: u.react(f(e), g, at, off, n) == (f(w.react(e, g, at, off, n).0), w.react(e, g, at, off, n).1)
  }

  lemma {:induction false} ScheduleAllSeen<E(!new), F(!new)>(w: World<E>, u: World<F>, f: E -> F, s: Shared, sid: Sid, rs: seq<Request>, now: int)
    requires SeenThrough(w, u, f)
    ensures ScheduleAll(u, s, sid, rs, now) == ScheduleAll(w, s, sid, rs, now)
    decreases |rs|
  {
    if rs != [] { ScheduleAllSeen(w, u, f, Schedule(w, s, sid, rs[0], now), sid, rs[1..], now); }
  }

  lemma FireSeen<E(!new), F(!new)>(w: World<E>, u: World<F>, f: E -> F, s: Shared, e: E, id: Id, at: int)
    requires SeenThrough(w, u, f) && id in s.dels
    ensures var r := Fire(w, s, e, id, at); Fire(u, s, f(e), id, at) == After(r.s, f(r.env), r.fired)
  {
    hide ScheduleAll, Answer, Settle;
    var t := Attempted(w, s, id, at);
    assert Attempted(u, s, id, at) == t;
    AttemptKnown(w, s, id, at);
    var d := t.dels[id];
    if d.attempts == 1 && d.onFirst.Some? && !d.firstFired {
      var rs := w.react(e, d.onFirst.value, at, t.Off(d.sid), |t.PendingOf(d.sid)|).1;
      ScheduleAllSeen(w, u, f, MarkFirst(t, id), d.sid, rs, at);
    }
  }

  lemma AttemptKnown<E>(w: World<E>, s: Shared, id: Id, at: int)
    requires id in s.dels
    ensures id in Attempted(w, s, id, at).dels
  {
    hide Attempted;
    AttemptTries(w, s, id, at);
  }

  lemma {:induction false} LoopSeen<E(!new), F(!new)>(w: World<E>, u: World<F>, f: E -> F, s: Shared, e: E, sid: Sid, remaining: int, fired: seq<Fired>)
    requires SeenThrough(w, u, f)
    ensures var o := AdvanceLoop(w, s, e, sid, remaining, fired);
      AdvanceLoop(u, s, f(e), sid, remaining, fired) == Outcome(o.s, f(o.env), o.fired, o.partial, o.remaining)
    decreases CAP - |fired|
  {
    hide Fire, Shift, Mark, First, Eligible;
    var i := |fired|;
    var next := First(s, Eligible(s, sid));
    if !w.expired(i) && i < CAP && sid !in s.gone && next.Some? {
      FirstKnown(s, sid);
      var step := StepTo(w.clock(2 * i), s.dels[next.value].fireAt);
      if step <= remaining {
        ShiftKnown(s, sid, step, next.value);
        FireSeen(w, u, f, Mark(Shift(s, sid, step), next.value), e, next.value, w.clock(2 * i + 1));
        var r := Round(w, s, e, sid, next.value, step, i);
        LoopSeen(w, u, f, r.s, r.env, sid, remaining - step, fired + [r.fired]);
      }
    }
  }

  lemma FirstKnown(s: Shared, sid: Sid)
    ensures First(s, Eligible(s, sid)).Some? ==> First(s, Eligible(s, sid)).value in s.dels
  {
  }

  lemma ShiftKnown(s: Shared, sid: Sid, step: int, id: Id)
    requires id in s.dels
    ensures id in Shift(s, sid, step).dels && id in Mark(Shift(s, sid, step), id).dels
  {
  }

  /** Advance in the one world is Advance in the other, seen through. */
  lemma AdvanceSeen<E(!new), F(!new)>(w: World<E>, u: World<F>, f: E -> F, s: Shared, e: E, sid: Sid, span: nat)
    requires SeenThrough(w, u, f)
    ensures var o := Advance(w, s, e, sid, span);
      Advance(u, s, f(e), sid, span) == Outcome(o.s, f(o.env), o.fired, o.partial, o.remaining)
  {
    hide AdvanceLoop, Shift, Acquire, Release;
    LoopSeen(w, u, f, Acquire(s, sid), e, sid, span, []);
  }

  function WallSeen<E, F>(x: Wall<E>, f: E -> F): Wall<F> {
    Wall(x.s, f(x.env), x.now, x.batch, x.fired)
  }

  function WallsSeen<E, F>(xs: seq<Wall<E>>, f: E -> F): (ys: seq<Wall<F>>)
    ensures |ys| == |xs| && forall k :: 0 <= k < |xs| ==> ys[k] == WallSeen(xs[k], f)
  {
    seq(|xs|, k requires 0 <= k < |xs| => WallSeen(xs[k], f))
  }

  lemma StepSeen<E(!new), F(!new)>(w: World<E>, u: World<F>, f: E -> F, x: Wall<E>, y: Wall<E>, end: int)
    requires SeenThrough(w, u, f) && Waiting.Step(w, x, y, end)
    ensures Waiting.Step(u, WallSeen(x, f), WallSeen(y, f), end)
  {
    hide Fire, ScanSpec, Scan, SeenThrough;
    if Works(w, x, y) {
      FireSeen(w, u, f, x.s, x.env, x.batch[0], x.now);
      assert Works(u, WallSeen(x, f), WallSeen(y, f));
    } else if !Ticks(x, y, end) {
      var dropped, wait :| Waiting.Scans(x, y, dropped, wait);
      assert Waiting.Scans(WallSeen(x, f), WallSeen(y, f), dropped, wait);
    }
  }

  lemma WaitsSeen<E(!new), F(!new)>(w: World<E>, u: World<F>, f: E -> F, xs: seq<Wall<E>>, end: int)
    requires SeenThrough(w, u, f) && Waits(w, xs, end)
    ensures Waits(u, WallsSeen(xs, f), end)
  {
    hide SeenThrough, Waiting.Step;
    var ys := WallsSeen(xs, f);
    forall k | 0 <= k < |xs| - 1 ensures Waiting.Step(u, ys[k], ys[k + 1], end) {
      StepSeen(w, u, f, xs[k], xs[k + 1], end);
    }
  }

  /** The engine is its own view in session time. */
  lemma EngineSeen<Q>(w: World<Sess>, host: Host<Q>, sc: Scenario)
    ensures SeenThrough(WithEngine(w, host, sc), InSessionTime(w, host, sc), Seen) && SessionTimed(InSessionTime(w, host, sc))
  {
    hide OnGoto, Seen;
    var e, u := WithEngine(w, host, sc), InSessionTime(w, host, sc);
    forall v: Sess, g: Goto, at: int, off: int, n: nat
      ensures u.react(Seen(v), g, at, off, n) == (Seen(e.react(v, g, at, off, n).0), e.react(v, g, at, off, n).1)
    {
      GotoInSessionTime(host, sc, v, g, Moment(at, off, (i: nat, k: nat) => n + k));
    }
  }

  /** Advancing a session of a validated scenario by `span` is waiting `span`: the
      same webhook attempts in the same order, and the same session afterwards but
      for the wall-clock stamps of its transitions: its state, its epoch, its
      variables and its history in session time. */
  lemma AdvancingTheScenarioEqualsWaiting<Q>(w: World<Sess>, host: Host<Q>, g: Grammar, targets: set<string>, raw: RawScenario, sc: Scenario,
                                             s: Shared, v: Sess, sid: Sid, span: nat, xs: seq<Wall<Sess>>)
    requires Validated(g, targets, raw) && CompilesTo(raw, sc) && Onward(w) && Frozen(w)
    requires forall x :: x >= 0 ==> host.scaled(x) >= 0
    requires FreshIds(w, s) && Alone(s, sid)
    requires Waits(WithEngine(w, host, sc), xs, w.clock(0) + span) && xs[0] == Wall(s, v, w.clock(0), [], []) && |xs[|xs| - 1].fired| < CAP
    requires NoTies(InSessionTime(w, host, sc), View(s, sid, Seen(v)), w.clock(0) + s.Off(sid), w.clock(0) + span + s.Off(sid), CAP)
    ensures var o, z := Advance(WithEngine(w, host, sc), s, v, sid, span), xs[|xs| - 1];
      && !o.partial && o.fired == z.fired && Seen(o.env) == Seen(z.env)
      && View(o.s, sid, Seen(o.env)) == View(z.s, sid, Seen(z.env))
  {
    hide Validated, CompilesTo, Forward, Alone, NoTies, Advance, OnGoto, View, SeenThrough, SessionTimed, Seen, Waiting.Step;
    EngineIsForward(w, host, g, targets, raw, sc);
    EngineSeen(w, host, sc);
    var e, u := WithEngine(w, host, sc), InSessionTime(w, host, sc);
    var ys := WallsSeen(xs, Seen);
    WaitsSeen(e, u, Seen, xs, w.clock(0) + span);
    AdvanceSeen(e, u, Seen, s, v, sid, span);
    AdvancingEqualsWaiting(u, s, Seen(v), sid, span, ys);
    ViewShowsEnv(Advance(u, s, Seen(v), sid, span).s, ys[|ys| - 1].s, sid, Seen(Advance(e, s, v, sid, span).env), ys[|ys| - 1].env);
  }

  lemma ViewShowsEnv<E>(s: Shared, t: Shared, sid: Sid, e: E, f: E)
    requires View(s, sid, e) == View(t, sid, f)
    ensures e == f
  {
  }

  // ---------- static reachability ----------

  lemma {:induction false} TraceIsReachable(raw: RawScenario, sc: Scenario, trace: seq<Transition>, n: nat)
    requires AllLawful(sc, raw.initial, trace) && NoAdmin(trace) && n < |trace|
    requires forall a, b :: Moves(sc, a, b) <==> Edge(raw, a, b)
    ensures Reachability.Reachable(raw, trace[n].to)
  {
    hide Moves, Edge, Lawful, Reachability.Reachable;
    if n == 0 {
      Reachability.InitialIsReachable(raw);
    } else {
      TraceIsReachable(raw, sc, trace, n - 1);
      assert Lawful(sc, trace[n - 1].to, trace[n]);
      LawfulMoves(sc, trace[n - 1].to, trace[n]);
      Reachability.ReachableExtends(raw, trace[n - 1].to, trace[n].to);
    }
  }

  /** What validation calls unreachable is never entered: in any life that starts
      in the initial state of a validated scenario and that no administrator
      moves, every state ever entered is one that a goto path leads to. */
  lemma UnreachableIsNeverEntered<Q>(host: Host<Q>, g: Grammar, targets: set<string>, raw: RawScenario, sc: Scenario,
                                     xs: seq<Life>, moves: seq<Move<Q>>, k: nat, n: nat)
    requires Validated(g, targets, raw) && CompilesTo(raw, sc)
    requires Run(host, sc, raw.initial, xs, moves) && k < |xs| && NoAdmin(xs[k].trace) && n < |xs[k].trace|
    ensures Reachability.Reachable(raw, xs[k].trace[n].to) && Reachability.Reachable(raw, xs[k].v.state)
  {
    hide Validated, CompilesTo, Run, Reachability.Reachable, Moves, Edge, Linked, Lawful;
    RunIsAlive(host, sc, raw.initial, xs, moves, k);
    CompiledGraph(g, targets, raw, sc);
    TraceIsReachable(raw, sc, xs[k].trace, n);
    TraceIsReachable(raw, sc, xs[k].trace, |xs[k].trace| - 1);
  }

  /** A session of a validated scenario is always in a state of the scenario,
      administrator or not, so its requests never meet the unknown-state error. */
  lemma ValidatedNeverUnknown<Q>(host: Host<Q>, g: Grammar, targets: set<string>, raw: RawScenario, sc: Scenario,
                                 start: string, xs: seq<Life>, moves: seq<Move<Q>>, k: nat, q: Q, m: Moment)
    requires Validated(g, targets, raw) && CompilesTo(raw, sc) && start in raw.states
    requires Run(host, sc, start, xs, moves) && k < |xs|
    ensures xs[k].v.state in raw.states && OnRequest(host, sc, xs[k].v, q, m).2 != UnknownState
  {
    hide Validated, CompilesTo, Run, OnRequest, Moves, Edge;
    CompiledGraph(g, targets, raw, sc);
    NeverUnknown(host, sc, start, xs, moves, k, q, m);
  }
}
