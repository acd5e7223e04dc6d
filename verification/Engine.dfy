/** One session of the scenario engine: entering states, scheduling their
    webhooks, and the three ways to move: a request, a webhook's goto, an
    administrator. The class changes a session in place; the functions say what
    it does to the session's value. */
module Engine {
  import opened Listings
  import opened Model
  import opened Scenarios

  datatype Cause = Created | ByRequest | ByWebhook | ByAdmin

  datatype Transition = Transition(from: string, to: string, at: int, virtualAt: int, cause: Cause, detail: string)

  const MAX_HISTORY := 100

  type Vars = map<string, string>

  datatype Sess = Sess(state: string, epoch: nat, vars: Vars, expiresAt: int, history: seq<Transition>)

  /** Matching and rendering, as far as a session depends on them; `scaled`
      applies the time scale to a delay, `attempts` is a target's retry limit. */
  datatype Host<!Q> = Host(
    matches: (string, Q) -> bool,
    reply: (string, Q, Vars) -> bool,
    value: (string, Q, Vars) -> Option<string>,
    line: Q -> string,
    body: (string, Option<Q>, string, Vars, int) -> bool,
    scaled: int -> int,
    attempts: string -> int,
    limit: int)

  /** What a step reads from outside: the wall clock, the session's clock offset
      and the number of pending deliveries, asked for the i-th action after k
      deliveries have been scheduled. */
  datatype Moment = Moment(at: int, off: int, count: (nat, nat) -> nat)

  // ---------- entering a state ----------

  /** The most recent part of a trace that is kept. */
  function Latest(trace: seq<Transition>): seq<Transition> {
    if |trace| > MAX_HISTORY then trace[|trace| - MAX_HISTORY..] else trace
  }

  function Entered(v: Sess, to: string, m: Moment, cause: Cause, detail: string): Sess {
    v.(state := to, epoch := v.epoch + 1, history := Latest(v.history + [Transition(v.state, to, m.at, m.at + m.off, cause, detail)]))
  }

  function Born(start: string, ttl: int, m: Moment, detail: string): Sess {
    Sess(start, 0, map[], m.at + ttl, [Transition("", start, m.at, m.at, Created, detail)])
  }

  function Post<Q>(host: Host<Q>, epoch: nat, a: Action): Request {
    Request(a.target, a.event, host.attempts(a.target),
            if a.goto == "" then None else Some(Goto(epoch, a.goto, a.event)), host.scaled(a.after))
  }

  /** What the first `n` enter actions schedule: those whose body renders and
      that find the queue under its limit. */
  function Posts<Q>(host: Host<Q>, q: Option<Q>, v: Sess, acts: seq<Action>, m: Moment, n: nat): seq<Request>
    requires n <= |acts|
  {
    if n == 0 then [] else
    var sofar := Posts(host, q, v, acts, m, n - 1);
    var a := acts[n - 1];
    if !host.body(a.body, q, v.state, v.vars, m.at + m.off + host.scaled(a.after)) then sofar
    else if host.limit > 0 && m.count(n - 1, |sofar|) >= host.limit then sofar
    else sofar + [Post(host, v.epoch, a)]
  }

  function Enters<Q>(host: Host<Q>, sc: Scenario, q: Option<Q>, v: Sess, m: Moment): seq<Request> {
    if v.state !in sc.states then [] else
    Posts(host, q, v, sc.states[v.state].enter, m, |sc.states[v.state].enter|)
  }

  /** The delivery asked for is the action's, and its goto carries the entry's number. */
  ghost predicate Asks<Q>(host: Host<Q>, epoch: nat, a: Action, r: Request) {
    && r.target == a.target && r.event == a.event && r.delay == host.scaled(a.after) && r.maxAttempts == host.attempts(a.target)
    && (if a.goto == "" then r.onFirst.None? else r.onFirst == Some(Goto(epoch, a.goto, a.event)))
  }

  /** The action's body renders, and the session has room for one more delivery. */
  ghost predicate Goes<Q>(host: Host<Q>, q: Option<Q>, v: Sess, a: Action, m: Moment, count: nat) {
    host.body(a.body, q, v.state, v.vars, m.at + m.off + host.scaled(a.after)) && (host.limit <= 0 || count < host.limit)
  }

  /** `posts` are asked for by those of the first `n` actions that `ks` lists: exactly
      those that go, counting the ones listed before. */
  ghost predicate Schedules<Q>(host: Host<Q>, q: Option<Q>, v: Sess, acts: seq<Action>, m: Moment, n: nat, ks: seq<nat>, posts: seq<Request>) {
    && n <= |acts| && Ascending(ks, n) && |posts| == |ks|
    && (forall j :: 0 <= j < |ks| ==> Asks(host, v.epoch, acts[ks[j]], posts[j]))
    && (forall k :: 0 <= k < n ==> (k in ks <==> Goes(host, q, v, acts[k], m, m.count(k, Below(ks, k)))))
  }

  /** What entering the state where the session is schedules; nothing in a state the
      scenario lacks. */
  ghost predicate RunsEnter<Q>(host: Host<Q>, sc: Scenario, q: Option<Q>, v: Sess, m: Moment, posts: seq<Request>) {
    if v.state !in sc.states then posts == [] else
    var acts := sc.states[v.state].enter;
    exists ks :: Schedules(host, q, v, acts, m, |acts|, ks, posts)
  }

  lemma {:induction false} PostsSchedule<Q>(host: Host<Q>, q: Option<Q>, v: Sess, acts: seq<Action>, m: Moment, n: nat) returns (ks: seq<nat>)
    requires n <= |acts|
    ensures Schedules(host, q, v, acts, m, n, ks, Posts(host, q, v, acts, m, n))
  {
    if n == 0 {
      ks := [];
    } else {
      hide Below, Goes, Asks, Schedules, Posts;
      ks := PostsSchedule(host, q, v, acts, m, n - 1);
      ks := PostsMore(host, q, v, acts, m, n - 1, ks);
    }
  }

  lemma PostsMore<Q>(host: Host<Q>, q: Option<Q>, v: Sess, acts: seq<Action>, m: Moment, n: nat, ks: seq<nat>) returns (ks1: seq<nat>)
    requires n < |acts| && Schedules(host, q, v, acts, m, n, ks, Posts(host, q, v, acts, m, n))
    ensures Schedules(host, q, v, acts, m, n + 1, ks1, Posts(host, q, v, acts, m, n + 1))
  {
    hide Below, Goes, Asks, Posts;
    AscendingMore(ks, n);
    NextPost(host, q, v, acts, m, n);
    if Goes(host, q, v, acts[n], m, m.count(n, |ks|)) {
      ks1 := ks + [n];
      assert forall j :: 0 <= j < |ks| ==> ks1[j] == ks[j];
      forall k | 0 <= k < n + 1 ensures k in ks1 <==> Goes(host, q, v, acts[k], m, m.count(k, Below(ks1, k))) {
        assert Below(ks1, k) == Below(ks, k);
      }
    } else {
      ks1 := ks;
    }
  }

  lemma NextPost<Q>(host: Host<Q>, q: Option<Q>, v: Sess, acts: seq<Action>, m: Moment, n: nat)
    requires n < |acts|
    ensures var posts, more := Posts(host, q, v, acts, m, n), Posts(host, q, v, acts, m, n + 1);
      if Goes(host, q, v, acts[n], m, m.count(n, |posts|))
      then |more| == |posts| + 1 && more == posts + [more[|posts|]] && Asks(host, v.epoch, acts[n], more[|posts|])
      else more == posts
  {
  }

  /** Entering a state schedules exactly what its actions, its templates and the queue
      limit say. */
  lemma EntersSchedules<Q>(host: Host<Q>, sc: Scenario, q: Option<Q>, v: Sess, m: Moment)
    ensures RunsEnter(host, sc, q, v, m, Enters(host, sc, q, v, m))
  {
    hide Schedules;
    if v.state in sc.states {
      var acts := sc.states[v.state].enter;
      var ks := PostsSchedule(host, q, v, acts, m, |acts|);
    }
  }

  // ---------- the three ways to move ----------

  /** A first attempt calls back: the goto counts only if the session has not
      entered a state since the one that scheduled it. */
  function OnGoto<Q>(host: Host<Q>, sc: Scenario, v: Sess, g: Goto, m: Moment): (Sess, seq<Request>) {
    if v.epoch != g.epoch then (v, []) else
    var u := Entered(v, g.state, m, ByWebhook, g.event);
    (u, Enters(host, sc, None, u, m))
  }

  /** The administrator's transition; false for a state the scenario lacks. */
  function OnAdmin<Q>(host: Host<Q>, sc: Scenario, v: Sess, to: string, m: Moment): (Sess, seq<Request>, bool) {
    if to !in sc.states then (v, [], false) else
    var u := Entered(v.(expiresAt := m.at + sc.ttl), to, m, ByAdmin, "");
    (u, Enters(host, sc, None, u, m), true)
  }

  function FirstMatch<Q>(host: Host<Q>, rules: seq<Rule>, q: Q, i: nat): (r: nat)
    requires i <= |rules|
    ensures i <= r <= |rules| && (r < |rules| ==> host.matches(rules[r].condition, q))
    ensures forall k :: i <= k < r ==> !host.matches(rules[k].condition, q)
    decreases |rules| - i
  {
    if i == |rules| || host.matches(rules[i].condition, q) then i else FirstMatch(host, rules, q, i + 1)
  }

  /** Variables are set one by one and stay set when a later template fails;
      each template sees what the earlier ones set. */
  function SetVars<Q>(host: Host<Q>, q: Q, sets: seq<SetVar>, vars: Vars): (Vars, bool)
    decreases |sets|
  {
    if sets == [] then (vars, true) else
    var x := host.value(sets[0].value, q, vars);
    if x.None? then (vars, false) else SetVars(host, q, sets[1..], vars[sets[0].name := x.value])
  }

  datatype Outcome = UnknownState | ReplyFailed | SetFailed | Handled(state: string) | NoRule

  function OnRequest<Q>(host: Host<Q>, sc: Scenario, v: Sess, q: Q, m: Moment): (Sess, seq<Request>, Outcome) {
    var t := v.(expiresAt := m.at + sc.ttl);
    if t.state !in sc.states then (t, [], UnknownState) else
    var rules := sc.states[t.state].on;
    var i := FirstMatch(host, rules, q, 0);
    if i == |rules| then (t, [], NoRule) else
    var r := rules[i];
    if !host.reply(r.reply, q, t.vars) then (t, [], ReplyFailed) else
    var (vars, ok) := SetVars(host, q, r.sets, t.vars);
    var u := t.(vars := vars);
    if !ok then (u, [], SetFailed)
    else if r.goto == "" then (u, [], Handled(u.state))
    else
      var e := Entered(u, r.goto, m, ByRequest, host.line(q));
      (e, Enters(host, sc, Some(q), e, m), Handled(e.state))
  }

  // ---------- the object ----------

  class Session {
    const scenario: Scenario
    var state: string
    var epoch: nat
    var vars: Vars
    var expiresAt: int
    var history: seq<Transition>
    ghost var trace: seq<Transition>  // every transition ever made

    ghost function Val(): Sess
      reads this
    {
      Sess(state, epoch, vars, expiresAt, history)
    }

    /** The history is the recent part of a linked trace that has one entry a
        state entry and ends where the session is. */
    ghost predicate Valid()
      reads this
    {
      |trace| == epoch + 1 && Linked(trace) && trace[|trace| - 1].to == state && history == Latest(trace)
    }

    constructor (sc: Scenario, start: string, m: Moment, detail: string)
      ensures Valid() && Val() == Born(start, sc.ttl, m, detail) && scenario == sc && fresh(this)
      ensures state == start && epoch == 0 && vars == map[] && expiresAt == m.at + sc.ttl
      ensures history == [Transition("", start, m.at, m.at, Created, detail)]
    {
      scenario := sc;
      state, epoch, vars, expiresAt := start, 0, map[], m.at + sc.ttl;
      history := [Transition("", start, m.at, m.at, Created, detail)];
      trace := [Transition("", start, m.at, m.at, Created, detail)];
    }

    method Record(t: Transition)
      requires history == Latest(trace)
      modifies this`history, this`trace
      ensures trace == old(trace) + [t] && history == Latest(trace) == Latest(old(history) + [t])
    {
      LatestGrows(trace, t);
      trace := trace + [t];
      history := history + [t];
      if |history| > MAX_HISTORY {
        history := history[|history| - MAX_HISTORY..];
      }
    }

    method RunEnter<Q>(host: Host<Q>, q: Option<Q>, m: Moment) returns (posts: seq<Request>)
      ensures posts == Enters(host, scenario, q, Val(), m) && RunsEnter(host, scenario, q, Val(), m, posts)
    {
      EntersSchedules(host, scenario, q, Val(), m);
      hide RunsEnter;
      posts := [];
      if state !in scenario.states { return; }
      var acts := scenario.states[state].enter;
      for i := 0 to |acts|
        invariant posts == Posts(host, q, Val(), acts, m, i)
      {
        var a := acts[i];
        var delay := host.scaled(a.after);
        if !host.body(a.body, q, state, vars, m.at + m.off + delay) { continue; }
        if host.limit > 0 && m.count(i, |posts|) >= host.limit { continue; }
        var onFirst := None;
        if a.goto != "" {
          onFirst := Some(Goto(epoch, a.goto, a.event));
        }
        posts := posts + [Request(a.target, a.event, host.attempts(a.target), onFirst, delay)];
      }
    }

    method EnterState<Q>(host: Host<Q>, to: string, q: Option<Q>, m: Moment, cause: Cause, detail: string) returns (posts: seq<Request>)
      requires Valid()
      modifies this
      ensures Valid() && Val() == Entered(old(Val()), to, m, cause, detail)
      ensures trace == old(trace) + [Transition(old(state), to, m.at, m.at + m.off, cause, detail)]
      ensures posts == Enters(host, scenario, q, Val(), m)
      ensures Arrives(host, scenario, q, old(Val()), Val(), posts, to, m, cause, detail)
    {
      hide Latest, Posts, Linked, SetVars, Arrives;
      EntryArrives(host, scenario, q, Val(), to, m, cause, detail);
      LinkedGrows(trace, Transition(state, to, m.at, m.at + m.off, cause, detail));
      Record(Transition(state, to, m.at, m.at + m.off, cause, detail));
      state, epoch := to, epoch + 1;
      posts := RunEnter(host, q, m);
    }

    /** The callback of a first attempt. */
    method Advance<Q>(host: Host<Q>, g: Goto, m: Moment) returns (posts: seq<Request>)
      requires Valid()
      modifies this
      ensures Valid() && (Val(), posts) == OnGoto(host, scenario, old(Val()), g, m)
    {
      hide Latest, Posts, Linked, Arrives, Enters;
      if epoch != g.epoch { return []; }
      posts := EnterState(host, g.state, None, m, ByWebhook, g.event);
    }

    method AdvanceTo<Q>(host: Host<Q>, to: string, m: Moment) returns (posts: seq<Request>, ok: bool)
      requires Valid()
      modifies this
      ensures Valid() && (Val(), posts, ok) == OnAdmin(host, scenario, old(Val()), to, m)
    {
      hide Latest, Posts, Linked, Arrives, Enters;
      if to !in scenario.states { return [], false; }
      expiresAt := m.at + scenario.ttl;
      posts := EnterState(host, to, None, m, ByAdmin, "");
      ok := true;
    }

    /** Sets the rule's variables, up to the first template that fails. */
    method Assign<Q>(host: Host<Q>, q: Q, sets: seq<SetVar>) returns (ok: bool)
      modifies this`vars
      ensures (vars, ok) == SetVars(host, q, sets, old(vars))
    {
      for i := 0 to |sets|
        invariant SetVars(host, q, sets[i..], vars) == SetVars(host, q, sets, old(vars))
      {
        assert sets[i..][1..] == sets[i + 1..] && sets[i..][0] == sets[i];
        var x := host.value(sets[i].value, q, vars);
        if x.None? { return false; }
        vars := vars[sets[i].name := x.value];
      }
      ok := true;
    }

    /** Answers a request in the session's current state. */
    method Handle<Q>(host: Host<Q>, q: Q, m: Moment) returns (posts: seq<Request>, out: Outcome)
      requires Valid()
      modifies this
      ensures Valid() && (Val(), posts, out) == OnRequest(host, scenario, old(Val()), q, m)
    {
      hide Latest, Posts, Linked, SetVars;
      posts := [];
      expiresAt := m.at + scenario.ttl;
      if state !in scenario.states { return [], UnknownState; }
      var rules := scenario.states[state].on;
      for i := 0 to |rules|
        invariant FirstMatch(host, rules, q, i) == FirstMatch(host, rules, q, 0)
        invariant unchanged(`state, `epoch, `vars, `history, `trace) && expiresAt == m.at + scenario.ttl
      {
        var r := rules[i];
        if !host.matches(r.condition, q) { continue; }
        if !host.reply(r.reply, q, vars) { return [], ReplyFailed; }
        var ok := Assign(host, q, r.sets);
        if !ok { return [], SetFailed; }
        if r.goto != "" {
          posts := EnterState(host, r.goto, Some(q), m, ByRequest, host.line(q));
        }
        return posts, Handled(state);
      }
      out := NoRule;
    }
  }

  /** Each transition starts where the one before it ended. */
  ghost predicate Linked(trace: seq<Transition>) {
    |trace| > 0 && forall i :: 0 < i < |trace| ==> trace[i].from == trace[i - 1].to
  }

  lemma LinkedGrows(trace: seq<Transition>, t: Transition)
    requires Linked(trace) && t.from == trace[|trace| - 1].to
    ensures Linked(trace + [t])
  {
  }

  /** Keeping the recent part as transitions come is keeping it at the end. */
  lemma LatestGrows(trace: seq<Transition>, t: Transition)
    ensures Latest(Latest(trace) + [t]) == Latest(trace + [t])
  {
  }

  // ---------- what a request and an entry promise ----------

  /** One variable is set to what its template renders to. */
  ghost predicate Assigns<Q>(host: Host<Q>, q: Q, x: SetVar, before: Vars, after: Vars) {
    var value := host.value(x.value, q, before);
    value.Some? && after == before[x.name := value.value]
  }

  /** The first n variables are set in order, each template seeing the ones before it. */
  ghost predicate SetsFirst<Q>(host: Host<Q>, q: Q, sets: seq<SetVar>, n: nat, vars: Vars, vs: seq<Vars>) {
    && n <= |sets| && |vs| == n + 1 && vs[0] == vars
    && forall i :: 0 <= i < n ==> Assigns(host, q, sets[i], vs[i], vs[i + 1])
  }

  /** Setting stops at the first template that fails, and keeps what came before it. */
  lemma {:induction false} SetsUpToTheFirstFailure<Q>(host: Host<Q>, q: Q, sets: seq<SetVar>, vars: Vars) returns (n: nat, vs: seq<Vars>)
    ensures SetsFirst(host, q, sets, n, vars, vs)
    ensures SetVars(host, q, sets, vars) == (vs[n], n == |sets|)
    ensures n < |sets| ==> host.value(sets[n].value, q, vs[n]).None?
    decreases |sets|
  {
    n, vs := 0, [vars];
    if sets != [] {
      var x := host.value(sets[0].value, q, vars);
      if x.Some? {
        var n1, vs1 := SetsUpToTheFirstFailure(host, q, sets[1..], vars[sets[0].name := x.value]);
        n, vs := n1 + 1, [vars] + vs1;
        assert forall i :: 0 < i < n ==> sets[i] == sets[1..][i - 1] && vs[i] == vs1[i - 1] && vs[i + 1] == vs1[i];
      }
    }
  }

  /** The session goes to state `to`: one entry more in its history of at most 100,
      the epoch one higher, and what the state's enter actions schedule. */
  ghost predicate Arrives<Q>(host: Host<Q>, sc: Scenario, q: Option<Q>, v: Sess, u: Sess, posts: seq<Request>, to: string, m: Moment, cause: Cause, detail: string) {
    && u.state == to && u.epoch == v.epoch + 1 && u.vars == v.vars && u.expiresAt == v.expiresAt
    && u.history == (if |v.history| < 100 then v.history else v.history[|v.history| - 99..])
                    + [Transition(v.state, to, m.at, m.at + m.off, cause, detail)]
    && RunsEnter(host, sc, q, u, m, posts)
  }

  lemma EntryArrives<Q>(host: Host<Q>, sc: Scenario, q: Option<Q>, v: Sess, to: string, m: Moment, cause: Cause, detail: string)
    ensures var u := Entered(v, to, m, cause, detail);
      Arrives(host, sc, q, v, u, Enters(host, sc, q, u, m), to, m, cause, detail)
  {
    hide RunsEnter, Enters;
    EntersSchedules(host, sc, q, Entered(v, to, m, cause, detail), m);
  }

  /** A callback moves the session where its goto says, if it is not stale. */
  lemma GotoArrives<Q>(host: Host<Q>, sc: Scenario, v: Sess, g: Goto, m: Moment)
    ensures var (u, posts) := OnGoto(host, sc, v, g, m);
      if g.epoch == v.epoch then Arrives(host, sc, None, v, u, posts, g.state, m, ByWebhook, g.event) else u == v && posts == []
  {
    hide Arrives, Entered, Enters;
    EntryArrives(host, sc, None, v, g.state, m, ByWebhook, g.event);
  }

  /** An administrator moves the session to any state the scenario has, and slides its
      expiry. */
  lemma AdminArrives<Q>(host: Host<Q>, sc: Scenario, v: Sess, to: string, m: Moment)
    ensures var (u, posts, ok) := OnAdmin(host, sc, v, to, m);
      && (ok <==> to in sc.states)
      && if ok then Arrives(host, sc, None, v.(expiresAt := m.at + sc.ttl), u, posts, to, m, ByAdmin, "") else u == v && posts == []
  {
    hide Arrives, Entered, Enters;
    EntryArrives(host, sc, None, v.(expiresAt := m.at + sc.ttl), to, m, ByAdmin, "");
  }

  /** What a request leaves: the first rule that matches answers it; only if its reply
      and all its variables render can it move the session, and it does if it has a
      goto; variables set before a failing template stay set; nothing else schedules
      anything or changes more than the expiry. */
  lemma RequestMovesAtMostOnce<Q>(host: Host<Q>, sc: Scenario, v: Sess, q: Q, m: Moment) returns (i: nat, n: nat, vs: seq<Vars>)
    requires v.state in sc.states
    ensures var rules := sc.states[v.state].on;
      var (u, posts, out) := OnRequest(host, sc, v, q, m);
      var t := v.(expiresAt := m.at + sc.ttl);
      && i <= |rules| && (forall k :: 0 <= k < i ==> !host.matches(rules[k].condition, q))
      && (i == |rules| ==> out == NoRule && u == t && posts == [])
      && (i < |rules| ==>
          var r := rules[i];
          && host.matches(r.condition, q) && SetsFirst(host, q, r.sets, n, v.vars, vs)
          && (n < |r.sets| ==> host.value(r.sets[n].value, q, vs[n]).None?)
          && if !host.reply(r.reply, q, v.vars) then out == ReplyFailed && u == t && posts == []
             else if n < |r.sets| then out == SetFailed && u == t.(vars := vs[n]) && posts == []
             else if r.goto == "" then out == Handled(v.state) && u == t.(vars := vs[n]) && posts == []
             else out == Handled(r.goto) && Arrives(host, sc, Some(q), t.(vars := vs[n]), u, posts, r.goto, m, ByRequest, host.line(q)))
  {
    hide Latest, Enters, SetVars, Arrives, SetsFirst;
    var rules := sc.states[v.state].on;
    i, n, vs := FirstMatch(host, rules, q, 0), 0, [];
    if i < |rules| {
      n, vs := SetsUpToTheFirstFailure(host, q, rules[i].sets, v.vars);
      SetsLength(host, q, rules[i].sets, n, v.vars, vs);
      EntryArrives(host, sc, Some(q), v.(expiresAt := m.at + sc.ttl, vars := vs[n]), rules[i].goto, m, ByRequest, host.line(q));
    }
  }

  lemma SetsLength<Q>(host: Host<Q>, q: Q, sets: seq<SetVar>, n: nat, vars: Vars, vs: seq<Vars>)
    requires SetsFirst(host, q, sets, n, vars, vs)
    ensures n <= |sets| && |vs| == n + 1
  {
  }

  /** A session whose state the scenario lacks answers nothing and only slides its expiry. */
  lemma LostSession<Q>(host: Host<Q>, sc: Scenario, v: Sess, q: Q, m: Moment)
    requires v.state !in sc.states
    ensures OnRequest(host, sc, v, q, m) == (v.(expiresAt := m.at + sc.ttl), [], UnknownState)
  {
  }

  /** While nobody else changes the queue, entering a state never takes it over its
      limit, and every delivery scheduled is one of the state's actions, in order. */
  lemma {:induction false} EntryRespectsLimit<Q>(host: Host<Q>, q: Option<Q>, v: Sess, acts: seq<Action>, m: Moment, pending: nat, n: nat)
    requires n <= |acts| && host.limit > 0 && forall i: nat, k: nat :: m.count(i, k) == pending + k
    ensures var posts := Posts(host, q, v, acts, m, n);
      pending + |posts| <= (if pending > host.limit then pending else host.limit) && |posts| <= n
  {
    if n > 0 { EntryRespectsLimit(host, q, v, acts, m, pending, n - 1); }
  }
}
