/** Whole lives of a session: any order of requests, administrator's moves and
    webhook callbacks, each callback made at most once. */
module SessionRuns {
  import opened Model
  import opened Scenarios
  import opened Engine

  /** `waiting` are the callbacks scheduled and not yet made or dropped. */
  datatype Life = Life(v: Sess, trace: seq<Transition>, waiting: multiset<Goto>)

  datatype Move<!Q> =
    | Ask(q: Q, m: Moment)
    | Admin(to: string, m: Moment)
    | Call(g: Goto, m: Moment)
    | Forget(g: Goto)
    | Touch(at: int)

  function Gotos(posts: seq<Request>): multiset<Goto> {
    if posts == [] then multiset{} else
    var last := posts[|posts| - 1].onFirst;
    Gotos(posts[..|posts| - 1]) + (if last.Some? then multiset{last.value} else multiset{})
  }

  /** A state entry adds the newest entry of the history to the trace. */
  function Traced(trace: seq<Transition>, v: Sess, u: Sess): seq<Transition> {
    if u.epoch == v.epoch || u.history == [] then trace else trace + [u.history[|u.history| - 1]]
  }

  function After(x: Life, u: Sess, posts: seq<Request>, waiting: multiset<Goto>): Life {
    Life(u, Traced(x.trace, x.v, u), waiting + Gotos(posts))
  }

  ghost predicate Next<Q>(host: Host<Q>, sc: Scenario, x: Life, y: Life, move: Move<Q>) {
    match move
    case Ask(q, m) =>
      var r := OnRequest(host, sc, x.v, q, m);
      y == After(x, r.0, r.1, x.waiting)
    case Admin(to, m) =>
      var r := OnAdmin(host, sc, x.v, to, m);
      y == After(x, r.0, r.1, x.waiting)
    case Call(g, m) =>
      var r := OnGoto(host, sc, x.v, g, m);
      g in x.waiting && y == After(x, r.0, r.1, x.waiting - multiset{g})
    case Forget(g) => g in x.waiting && y == x.(waiting := x.waiting - multiset{g})
    case Touch(at) => y == x.(v := x.v.(expiresAt := at + sc.ttl))
  }

  ghost predicate Starts<Q>(host: Host<Q>, sc: Scenario, start: string, x: Life) {
    exists m, detail ::
      && x.v == Born(start, sc.ttl, m, detail) && x.trace == x.v.history
      && x.waiting == Gotos(Enters(host, sc, None, x.v, m))
  }

  ghost predicate Run<Q>(host: Host<Q>, sc: Scenario, start: string, xs: seq<Life>, moves: seq<Move<Q>>) {
    && |xs| == |moves| + 1 && Starts(host, sc, start, xs[0])
    && forall k :: 0 <= k < |moves| ==> Next(host, sc, xs[k], xs[k + 1], moves[k])
  }

  // ---------- what every life keeps ----------

  /** State `a` has an enter action whose goto `g` is. */
  ghost predicate Promises(sc: Scenario, a: string, g: Goto) {
    && g.state != "" && a in sc.states
    && exists i :: 0 <= i < |sc.states[a].enter| && sc.states[a].enter[i].goto == g.state && sc.states[a].enter[i].event == g.event
  }

  /** A transition out of `a` is one the scenario or the administrator made. */
  ghost predicate Lawful(sc: Scenario, a: string, t: Transition) {
    && t.cause != Created
    && (t.cause == ByRequest ==>
          t.to != "" && a in sc.states && exists i :: 0 <= i < |sc.states[a].on| && sc.states[a].on[i].goto == t.to)
    && (t.cause == ByWebhook ==> Promises(sc, a, Goto(0, t.to, t.detail)))
    && (t.cause == ByAdmin ==> t.to in sc.states)
  }

  ghost predicate Recorded(v: Sess, trace: seq<Transition>) {
    |trace| == v.epoch + 1 && Linked(trace) && trace[|trace| - 1].to == v.state && v.history == Latest(trace)
  }

  ghost predicate AllLawful(sc: Scenario, start: string, trace: seq<Transition>) {
    && |trace| > 0 && trace[0].cause == Created && trace[0].to == start
    && forall i :: 0 < i < |trace| ==> Lawful(sc, trace[i - 1].to, trace[i])
  }

  /** Every waiting callback was promised by the entry whose number it carries. */
  ghost predicate Honest(sc: Scenario, trace: seq<Transition>, waiting: multiset<Goto>) {
    forall g :: g in waiting ==> g.epoch < |trace| && Promises(sc, trace[g.epoch].to, g)
  }

  ghost predicate Alive(sc: Scenario, start: string, x: Life) {
    Recorded(x.v, x.trace) && AllLawful(sc, start, x.trace) && Honest(sc, x.trace, x.waiting)
  }

  lemma {:induction false} PostsPromise<Q>(host: Host<Q>, sc: Scenario, q: Option<Q>, v: Sess, m: Moment, n: nat, g: Goto)
    requires v.state in sc.states && n <= |sc.states[v.state].enter|
    requires g in Gotos(Posts(host, q, v, sc.states[v.state].enter, m, n))
    ensures g.epoch == v.epoch && Promises(sc, v.state, g)
  {
    hide Gotos;
    GotosOfNone();
    if n > 0 {
      var a := sc.states[v.state].enter[n - 1];
      var sofar := Posts(host, q, v, sc.states[v.state].enter, m, n - 1);
      GotosMore(sofar, Post(host, v.epoch, a));
      if g in Gotos(sofar) {
        PostsPromise(host, sc, q, v, m, n - 1, g);
      }
    }
  }

  lemma GotosOfNone()
    ensures Gotos([]) == multiset{}
  {
  }

  lemma GotosMore(posts: seq<Request>, r: Request)
    ensures Gotos(posts + [r]) == Gotos(posts) + if r.onFirst.Some? then multiset{r.onFirst.value} else multiset{}
  {
    assert (posts + [r])[..|posts|] == posts;
  }

  lemma EntersPromise<Q>(host: Host<Q>, sc: Scenario, q: Option<Q>, v: Sess, m: Moment)
    ensures forall g :: g in Gotos(Enters(host, sc, q, v, m)) ==> g.epoch == v.epoch && Promises(sc, v.state, g)
  {
    forall g | g in Gotos(Enters(host, sc, q, v, m)) ensures g.epoch == v.epoch && Promises(sc, v.state, g) {
      PostsPromise(host, sc, q, v, m, |sc.states[v.state].enter|, g);
    }
  }

  lemma LatestEnds(trace: seq<Transition>)
    requires trace != []
    ensures Latest(trace) != [] && Latest(trace)[|Latest(trace)| - 1] == trace[|trace| - 1]
  {
  }

  /** Entering a state keeps a life lawful, if the entry itself is. */
  lemma EntryKeeps<Q>(host: Host<Q>, sc: Scenario, start: string, x: Life, w: Sess, to: string, q: Option<Q>, m: Moment, cause: Cause,
                      detail: string, waiting: multiset<Goto>)
    requires Alive(sc, start, x) && w.epoch == x.v.epoch && w.state == x.v.state && w.history == x.v.history
    requires waiting <= x.waiting
    requires Lawful(sc, x.v.state, Transition(w.state, to, m.at, m.at + m.off, cause, detail))
    ensures var u := Entered(w, to, m, cause, detail);
      var y := After(x, u, Enters(host, sc, q, u, m), waiting);
      Alive(sc, start, y) && y.trace == x.trace + [Transition(x.v.state, to, m.at, m.at + m.off, cause, detail)]
  {
    hide Enters, Lawful, Promises, Latest;
    var u := Entered(w, to, m, cause, detail);
    var t := Transition(w.state, to, m.at, m.at + m.off, cause, detail);
    LatestGrows(x.trace, t);
    LatestEnds(x.trace + [t]);
    LatestEnds(x.v.history + [t]);
    LinkedGrows(x.trace, t);
    EntersPromise(host, sc, q, u, m);
  }

  /** A step without an entry. */
  lemma StayKeeps(sc: Scenario, start: string, x: Life, u: Sess, waiting: multiset<Goto>)
    requires Alive(sc, start, x) && u.epoch == x.v.epoch && u.state == x.v.state && u.history == x.v.history && waiting <= x.waiting
    ensures Alive(sc, start, After(x, u, [], waiting))
  {
  }

  lemma {:induction false} StartIsAlive<Q>(host: Host<Q>, sc: Scenario, start: string, x: Life)
    requires Starts(host, sc, start, x)
    ensures Alive(sc, start, x)
  {
    hide Enters, Promises;
    var m, detail :|
      && x.v == Born(start, sc.ttl, m, detail) && x.trace == x.v.history
      && x.waiting == Gotos(Enters(host, sc, None, x.v, m));
    EntersPromise(host, sc, None, x.v, m);
  }

  lemma AskKeeps<Q>(host: Host<Q>, sc: Scenario, start: string, x: Life, q: Q, m: Moment)
    requires Alive(sc, start, x)
    ensures var r := OnRequest(host, sc, x.v, q, m); Alive(sc, start, After(x, r.0, r.1, x.waiting))
  {
    hide Alive, Enters, After;
    var r := OnRequest(host, sc, x.v, q, m);
    var t := x.v.(expiresAt := m.at + sc.ttl);
    if t.state in sc.states {
      var rules := sc.states[t.state].on;
      var i := FirstMatch(host, rules, q, 0);
      if i < |rules| && host.reply(rules[i].reply, q, t.vars) && SetVars(host, q, rules[i].sets, t.vars).1 && rules[i].goto != "" {
        var w := t.(vars := SetVars(host, q, rules[i].sets, t.vars).0);
        EntryKeeps(host, sc, start, x, w, rules[i].goto, Some(q), m, ByRequest, host.line(q), x.waiting);
      } else {
        StayKeeps(sc, start, x, r.0, x.waiting);
      }
    } else {
      StayKeeps(sc, start, x, t, x.waiting);
    }
  }

  lemma CallKeeps<Q>(host: Host<Q>, sc: Scenario, start: string, x: Life, g: Goto, m: Moment)
    requires Alive(sc, start, x) && g in x.waiting
    ensures var r := OnGoto(host, sc, x.v, g, m); Alive(sc, start, After(x, r.0, r.1, x.waiting - multiset{g}))
  {
    hide Enters, Latest;
    if x.v.epoch != g.epoch {
      StayKeeps(sc, start, x, x.v, x.waiting - multiset{g});
    } else {
      assert Promises(sc, x.trace[g.epoch].to, g);
      EntryKeeps(host, sc, start, x, x.v, g.state, None, m, ByWebhook, g.event, x.waiting - multiset{g});
    }
  }

  lemma NextKeeps<Q>(host: Host<Q>, sc: Scenario, start: string, x: Life, y: Life, move: Move<Q>)
    requires Alive(sc, start, x) && Next(host, sc, x, y, move)
    ensures Alive(sc, start, y)
  {
    hide Enters, OnRequest, OnGoto, After;
    match move
    case Ask(q, m) => AskKeeps(host, sc, start, x, q, m);
    case Admin(to, m) =>
      if to in sc.states {
        EntryKeeps(host, sc, start, x, x.v.(expiresAt := m.at + sc.ttl), to, None, m, ByAdmin, "", x.waiting);
      } else {
        StayKeeps(sc, start, x, x.v, x.waiting);
      }
    case Call(g, m) => CallKeeps(host, sc, start, x, g, m);
    case Forget(g) =>
    case Touch(at) =>
  }

  lemma {:induction false} RunIsAlive<Q>(host: Host<Q>, sc: Scenario, start: string, xs: seq<Life>, moves: seq<Move<Q>>, k: nat)
    requires Run(host, sc, start, xs, moves) && k < |xs|
    ensures Alive(sc, start, xs[k])
  {
    hide Alive, Next, Starts;
    if k == 0 {
      StartIsAlive(host, sc, start, xs[0]);
    } else {
      RunIsAlive(host, sc, start, xs, moves, k - 1);
      NextKeeps(host, sc, start, xs[k - 1], xs[k], moves[k - 1]);
    }
  }

  // ---------- the laws ----------

  /** At any point of any life, the history is the last min(100, epoch + 1)
      entries of everything that happened, each starting where the one before it
      ended, and the last of them is where the session is. */
  lemma HistoryIsRecent<Q>(host: Host<Q>, sc: Scenario, start: string, xs: seq<Life>, moves: seq<Move<Q>>, k: nat)
    requires Run(host, sc, start, xs, moves) && k < |xs|
    ensures var v, trace := xs[k].v, xs[k].trace;
      var n := if v.epoch + 1 < 100 then v.epoch + 1 else 100;
      && |trace| == v.epoch + 1 && |v.history| == n && v.history == trace[|trace| - n..]
      && (forall i :: 0 < i < n ==> v.history[i].from == v.history[i - 1].to)
      && v.history[n - 1].to == v.state
  {
    RunIsAlive(host, sc, start, xs, moves, k);
    var trace := xs[k].trace;
    assert Linked(trace);
  }

  /** A callback takes effect exactly if no state has been entered since the entry
      that scheduled it; then the session goes where an enter action of that entry's
      state says. A stale one changes nothing. */
  lemma StaleGotosAreDead<Q>(host: Host<Q>, sc: Scenario, start: string, xs: seq<Life>, moves: seq<Move<Q>>, k: nat)
    requires Run(host, sc, start, xs, moves) && k < |moves| && moves[k].Call?
    ensures var x, y, g := xs[k], xs[k + 1], moves[k].g;
      && g.epoch < |x.trace| && Promises(sc, x.trace[g.epoch].to, g)
      && (g.epoch == |x.trace| - 1 ==>
          && y.v.state == g.state && |y.trace| == |x.trace| + 1 && x.trace < y.trace
          && y.trace[|x.trace|].from == x.v.state && y.trace[|x.trace|].to == g.state && y.trace[|x.trace|].cause == ByWebhook)
      && (g.epoch != |x.trace| - 1 ==> y.v == x.v && y.trace == x.trace)
  {
    hide Enters, Latest;
    RunIsAlive(host, sc, start, xs, moves, k);
    assert Next(host, sc, xs[k], xs[k + 1], moves[k]);
    var x, g, m := xs[k], moves[k].g, moves[k].m;
    assert g in x.waiting;
    if g.epoch == x.v.epoch {
      EntryKeeps(host, sc, start, x, x.v, g.state, None, m, ByWebhook, g.event, x.waiting - multiset{g});
    }
  }

  lemma EpochMoves<Q>(host: Host<Q>, sc: Scenario, x: Life, y: Life, move: Move<Q>)
    requires Next(host, sc, x, y, move)
    ensures x.v.epoch <= y.v.epoch <= x.v.epoch + 1
    ensures move.Call? && y.v.epoch != x.v.epoch ==> move.g.epoch == x.v.epoch
  {
    hide Enters, Latest;
  }

  lemma {:induction false} EpochsGrow<Q>(host: Host<Q>, sc: Scenario, start: string, xs: seq<Life>, moves: seq<Move<Q>>, i: nat, j: nat)
    requires Run(host, sc, start, xs, moves) && i <= j < |xs|
    ensures xs[i].v.epoch <= xs[j].v.epoch
  {
    hide Next, Starts;
    if i < j {
      EpochsGrow(host, sc, start, xs, moves, i, j - 1);
      EpochMoves(host, sc, xs[j - 1], xs[j], moves[j - 1]);
    }
  }

  /** Of all callbacks that one state entry scheduled, at most one ever moves the
      session. */
  lemma OneGotoPerEntry<Q>(host: Host<Q>, sc: Scenario, start: string, xs: seq<Life>, moves: seq<Move<Q>>, i: nat, j: nat)
    requires Run(host, sc, start, xs, moves) && i < j < |moves|
    requires moves[i].Call? && moves[j].Call? && moves[i].g.epoch == moves[j].g.epoch
    requires xs[i + 1].v.epoch != xs[i].v.epoch
    ensures xs[j + 1].v.epoch == xs[j].v.epoch
  {
    hide Next, Starts;
    EpochMoves(host, sc, xs[i], xs[i + 1], moves[i]);
    EpochMoves(host, sc, xs[j], xs[j + 1], moves[j]);
    EpochsGrow(host, sc, start, xs, moves, i + 1, j);
  }

  // ---------- with what validation found ----------

  ghost predicate NoAdmin(trace: seq<Transition>) {
    forall i :: 0 <= i < |trace| ==> trace[i].cause != ByAdmin
  }

  /** In a scenario whose gotos all lead to its own states, a session that starts
      in one of them is always in one of them, whatever the administrator does; so
      no request is ever answered with the unknown-state error. */
  lemma {:induction false} NeverUnknown<Q>(host: Host<Q>, sc: Scenario, start: string, xs: seq<Life>, moves: seq<Move<Q>>, k: nat, q: Q, m: Moment)
    requires Run(host, sc, start, xs, moves) && k < |xs| && start in sc.states
    requires forall a, b :: Moves(sc, a, b) ==> b in sc.states
    ensures xs[k].v.state in sc.states && OnRequest(host, sc, xs[k].v, q, m).2 != UnknownState
  {
    RunIsAlive(host, sc, start, xs, moves, k);
    hide Run, Enters, FirstMatch, SetVars;
    TraceStays(sc, start, xs[k].trace, |xs[k].trace| - 1);
  }

  lemma LawfulMoves(sc: Scenario, a: string, t: Transition)
    requires Lawful(sc, a, t) && t.cause != ByAdmin
    ensures Moves(sc, a, t.to)
  {
  }

  lemma {:induction false} TraceStays(sc: Scenario, start: string, trace: seq<Transition>, n: nat)
    requires AllLawful(sc, start, trace) && n < |trace| && start in sc.states
    requires forall a, b :: Moves(sc, a, b) ==> b in sc.states
    ensures trace[n].to in sc.states
  {
    hide Moves, Lawful;
    if n > 0 {
      TraceStays(sc, start, trace, n - 1);
      assert Lawful(sc, trace[n - 1].to, trace[n]);
      if trace[n].cause == ByAdmin { LawfulAdmin(sc, trace[n - 1].to, trace[n]); } else { LawfulMoves(sc, trace[n - 1].to, trace[n]); }
    }
  }

  lemma LawfulAdmin(sc: Scenario, a: string, t: Transition)
    requires Lawful(sc, a, t) && t.cause == ByAdmin
    ensures t.to in sc.states
  {
  }
}
