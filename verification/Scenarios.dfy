/** Scenario definitions: what the configuration says, what validation objects
    to, and what compilation keeps. */
module Scenarios {
  import opened Listings
  import opened Model
  import opened Names

  // ---------- as configured ----------

  datatype Webhook = Webhook(target: string, event: string, after: int, body: string)

  datatype RawAction = RawAction(webhook: Option<Webhook>, goto: string)

  datatype RawRule = RawRule(condition: string, reply: Option<string>, sets: map<string, string>, goto: string)

  datatype RawState = RawState(enter: seq<RawAction>, on: seq<RawRule>)

  /** A state is None where the document has a name and nothing under it. */
  datatype RawScenario = RawScenario(id: string, ttl: int, initial: string, states: map<string, Option<RawState>>)

  // ---------- as compiled ----------

  datatype Action = Action(target: string, event: string, after: int, body: string, goto: string)

  datatype SetVar = SetVar(name: string, value: string)

  datatype Rule = Rule(condition: string, reply: string, sets: seq<SetVar>, goto: string)

  datatype State = State(enter: seq<Action>, on: seq<Rule>)

  datatype Scenario = Scenario(id: string, ttl: int, initial: string, states: map<string, State>, names: seq<string>)

  /** What request conditions, replies and templates are well-formed. */
  datatype Grammar = Grammar(whenOk: string -> bool, replyOk: string -> bool, parses: string -> bool)

  const DEFAULT_TTL: int := 1_800_000_000_000
  const MAX_TTL: int := 86_400_000_000_000
  const MAX_AFTER: int := 365 * 86_400_000_000_000
  const MAX_BODY: int := 5_242_880
  const MAX_STATES: int := 200

  // ---------- validation ----------

  datatype Fault = NoWebhook | NoTarget | UnknownTarget | BadAfter | LongBody | BadWhen | BadReply | LostGoto

  datatype Problem =
    | BadTTL | NoStates | TooManyStates | NoInitial | UnknownInitial
    | NilState(name: string)
    | InAction(name: string, index: nat, fault: Fault)
    | InRule(name: string, index: nat, fault: Fault)

  predicate Lost(s: RawScenario, goto: string) {
    goto != "" && goto !in s.states
  }

  predicate ActionFault(targets: set<string>, s: RawScenario, a: RawAction, f: Fault) {
    if a.webhook.None? then f == NoWebhook else
    var w := a.webhook.value;
    || (f == NoTarget && w.target == "")
    || (f == UnknownTarget && w.target != "" && w.target !in targets)
    || (f == BadAfter && !(0 <= w.after <= MAX_AFTER))
    || (f == LongBody && |w.body| > MAX_BODY)
    || (f == LostGoto && Lost(s, a.goto))
  }

  predicate RuleFault(g: Grammar, s: RawScenario, r: RawRule, f: Fault) {
    || (f == BadWhen && !g.whenOk(r.condition))
    || (f == BadReply && (r.reply.None? || !g.replyOk(r.reply.value)))
    || (f == LostGoto && Lost(s, r.goto))
  }

  predicate ActionProblem(targets: set<string>, s: RawScenario, name: string, acts: seq<RawAction>, n: nat, p: Problem) {
    p.InAction? && p.name == name && p.index < n <= |acts| && ActionFault(targets, s, acts[p.index], p.fault)
  }

  predicate RuleProblem(g: Grammar, s: RawScenario, name: string, rules: seq<RawRule>, n: nat, p: Problem) {
    p.InRule? && p.name == name && p.index < n <= |rules| && RuleFault(g, s, rules[p.index], p.fault)
  }

  /** What is wrong with one state. */
  predicate StateProblem(g: Grammar, targets: set<string>, s: RawScenario, name: string, st: Option<RawState>, p: Problem) {
    if st.None? then p == NilState(name) else
    || ActionProblem(targets, s, name, st.value.enter, |st.value.enter|, p)
    || RuleProblem(g, s, name, st.value.on, |st.value.on|, p)
  }

  /** What is wrong with a scenario. Without states nothing after that is looked at. */
  ghost predicate IsProblem(g: Grammar, targets: set<string>, s: RawScenario, p: Problem) {
    || (p == BadTTL && !(0 <= s.ttl <= MAX_TTL))
    || (p == NoStates && s.states == map[])
    || (p == TooManyStates && |s.states| > MAX_STATES)
    || (p == NoInitial && s.states != map[] && s.initial == "")
    || (p == UnknownInitial && s.states != map[] && s.initial != "" && s.initial !in s.states)
    || exists name :: name in s.states && StateProblem(g, targets, s, name, s.states[name], p)
  }

  method CheckAction(targets: set<string>, s: RawScenario, a: RawAction, name: string, i: nat) returns (errs: seq<Problem>)
    ensures forall p: Problem :: p in errs <==> p.InAction? && p.name == name && p.index == i && ActionFault(targets, s, a, p.fault)
  {
    errs := [];
    if a.webhook.None? {
      return [InAction(name, i, NoWebhook)];
    }
    var w := a.webhook.value;
    if w.target == "" {
      errs := errs + [InAction(name, i, NoTarget)];
    } else if w.target !in targets {
      errs := errs + [InAction(name, i, UnknownTarget)];
    }
    if w.after < 0 || w.after > MAX_AFTER {
      errs := errs + [InAction(name, i, BadAfter)];
    }
    if |w.body| > MAX_BODY {
      errs := errs + [InAction(name, i, LongBody)];
    }
    if a.goto != "" && a.goto !in s.states {
      errs := errs + [InAction(name, i, LostGoto)];
    }
  }

  method CheckRule(g: Grammar, s: RawScenario, r: RawRule, name: string, i: nat) returns (errs: seq<Problem>)
    ensures forall p: Problem :: p in errs <==> p.InRule? && p.name == name && p.index == i && RuleFault(g, s, r, p.fault)
  {
    errs := [];
    if !g.whenOk(r.condition) {
      errs := errs + [InRule(name, i, BadWhen)];
    }
    if r.reply.None? || !g.replyOk(r.reply.value) {
      errs := errs + [InRule(name, i, BadReply)];
    }
    if r.goto != "" && r.goto !in s.states {
      errs := errs + [InRule(name, i, LostGoto)];
    }
  }

  method CheckState(g: Grammar, targets: set<string>, s: RawScenario, name: string, st: Option<RawState>) returns (errs: seq<Problem>)
    ensures forall p :: p in errs <==> StateProblem(g, targets, s, name, st, p)
  {
    if st.None? {
      return [NilState(name)];
    }
    errs := [];
    for i := 0 to |st.value.enter|
      invariant forall p :: p in errs <==> ActionProblem(targets, s, name, st.value.enter, i, p)
    {
      var more := CheckAction(targets, s, st.value.enter[i], name, i);
      errs := errs + more;
    }
    for i := 0 to |st.value.on|
      invariant forall p :: p in errs <==>
        ActionProblem(targets, s, name, st.value.enter, |st.value.enter|, p) || RuleProblem(g, s, name, st.value.on, i, p)
    {
      var more := CheckRule(g, s, st.value.on[i], name, i);
      errs := errs + more;
    }
  }

  /** Validation of one scenario: exactly the problems it has. */
  method ValidateScenario(g: Grammar, targets: set<string>, s: RawScenario) returns (errs: seq<Problem>)
    ensures forall p :: p in errs <==> IsProblem(g, targets, s, p)
  {
    hide StateProblem;
    errs := [];
    if s.ttl < 0 || s.ttl > MAX_TTL {
      errs := errs + [BadTTL];
    }
    if s.states == map[] {
      return errs + [NoStates];
    }
    if |s.states| > MAX_STATES {
      errs := errs + [TooManyStates];
    }
    if s.initial == "" {
      errs := errs + [NoInitial];
    } else if s.initial !in s.states {
      errs := errs + [UnknownInitial];
    }
    ghost var head := errs;
    var todo := s.states.Keys;
    while todo != {}
      invariant todo <= s.states.Keys
      invariant forall p :: p in errs <==>
        p in head || exists name :: name in s.states && name !in todo && StateProblem(g, targets, s, name, s.states[name], p)
      decreases |todo|
    {
      var name :| name in todo;
      var more := CheckState(g, targets, s, name, s.states[name]);
      todo, errs := todo - {name}, errs + more;
    }
  }

  ghost predicate Validated(g: Grammar, targets: set<string>, s: RawScenario) {
    forall p :: !IsProblem(g, targets, s, p)
  }

  /** What a validated scenario is known to be. */
  lemma ValidatedIsSound(g: Grammar, targets: set<string>, s: RawScenario)
    requires Validated(g, targets, s)
    ensures s.initial in s.states && s.initial != "" && 0 <= s.ttl <= MAX_TTL
    ensures forall name :: name in s.states ==> s.states[name].Some?
    ensures forall name, i :: name in s.states && 0 <= i < |s.states[name].value.enter| ==>
      var a := s.states[name].value.enter[i];
      a.webhook.Some? && 0 <= a.webhook.value.after <= MAX_AFTER && !Lost(s, a.goto)
    ensures forall name, i :: name in s.states && 0 <= i < |s.states[name].value.on| ==>
      var r := s.states[name].value.on[i];
      r.reply.Some? && !Lost(s, r.goto)
  {
    assert !IsProblem(g, targets, s, BadTTL) && !IsProblem(g, targets, s, NoStates);
    assert !IsProblem(g, targets, s, NoInitial) && !IsProblem(g, targets, s, UnknownInitial);
    forall name | name in s.states ensures s.states[name].Some? {
      assert !IsProblem(g, targets, s, NilState(name));
    }
    forall name, i | name in s.states && 0 <= i < |s.states[name].value.enter|
      ensures var a := s.states[name].value.enter[i];
        a.webhook.Some? && 0 <= a.webhook.value.after <= MAX_AFTER && !Lost(s, a.goto)
    {
      assert !IsProblem(g, targets, s, InAction(name, i, NoWebhook));
      assert !IsProblem(g, targets, s, InAction(name, i, BadAfter));
      assert !IsProblem(g, targets, s, InAction(name, i, LostGoto));
    }
    forall name, i | name in s.states && 0 <= i < |s.states[name].value.on|
      ensures var r := s.states[name].value.on[i]; r.reply.Some? && !Lost(s, r.goto)
    {
      assert !IsProblem(g, targets, s, InRule(name, i, BadReply));
      assert !IsProblem(g, targets, s, InRule(name, i, LostGoto));
    }
  }

  /** An action that validation has nothing against: after at most 365 days, with a
      body of at most 5 MB. */
  ghost predicate GoodAction(targets: set<string>, s: RawScenario, a: RawAction) {
    && a.webhook.Some? && a.webhook.value.target != "" && a.webhook.value.target in targets
    && 0 <= a.webhook.value.after <= 31_536_000_000_000_000 && |a.webhook.value.body| <= 5_242_880
    && (a.goto == "" || a.goto in s.states)
  }

  ghost predicate GoodRule(g: Grammar, s: RawScenario, r: RawRule) {
    g.whenOk(r.condition) && r.reply.Some? && g.replyOk(r.reply.value) && (r.goto == "" || r.goto in s.states)
  }

  ghost predicate GoodState(g: Grammar, targets: set<string>, s: RawScenario, st: Option<RawState>) {
    && st.Some?
    && (forall i :: 0 <= i < |st.value.enter| ==> GoodAction(targets, s, st.value.enter[i]))
    && (forall i :: 0 <= i < |st.value.on| ==> GoodRule(g, s, st.value.on[i]))
  }

  lemma GoodActionIff(targets: set<string>, s: RawScenario, a: RawAction)
    ensures GoodAction(targets, s, a) <==> forall f :: !ActionFault(targets, s, a, f)
  {
    if !GoodAction(targets, s, a) {
      assert ActionFault(targets, s, a, NoWebhook) || ActionFault(targets, s, a, NoTarget) || ActionFault(targets, s, a, UnknownTarget)
        || ActionFault(targets, s, a, BadAfter) || ActionFault(targets, s, a, LongBody) || ActionFault(targets, s, a, LostGoto);
    }
  }

  lemma GoodRuleIff(g: Grammar, s: RawScenario, r: RawRule)
    ensures GoodRule(g, s, r) <==> forall f :: !RuleFault(g, s, r, f)
  {
    if !GoodRule(g, s, r) {
      assert RuleFault(g, s, r, BadWhen) || RuleFault(g, s, r, BadReply) || RuleFault(g, s, r, LostGoto);
    }
  }

  lemma GoodStateIff(g: Grammar, targets: set<string>, s: RawScenario, name: string, st: Option<RawState>)
    ensures GoodState(g, targets, s, st) <==> forall p :: !StateProblem(g, targets, s, name, st, p)
  {
    hide GoodAction, GoodRule, ActionFault, RuleFault;
    if st.None? {
      assert StateProblem(g, targets, s, name, st, NilState(name));
    } else {
      var enter, on := st.value.enter, st.value.on;
      forall i | 0 <= i < |enter|
        ensures GoodAction(targets, s, enter[i]) <==> forall f :: !StateProblem(g, targets, s, name, st, InAction(name, i, f))
      {
        GoodActionIff(targets, s, enter[i]);
        forall f ensures ActionFault(targets, s, enter[i], f) <==> StateProblem(g, targets, s, name, st, InAction(name, i, f)) {}
      }
      forall i | 0 <= i < |on|
        ensures GoodRule(g, s, on[i]) <==> forall f :: !StateProblem(g, targets, s, name, st, InRule(name, i, f))
      {
        GoodRuleIff(g, s, on[i]);
        forall f ensures RuleFault(g, s, on[i], f) <==> StateProblem(g, targets, s, name, st, InRule(name, i, f)) {}
      }
    }
  }

  /** Validation has nothing against a scenario exactly if its time to live is at most
      24 hours, it has 1 to 200 states, the initial one among them, and all its actions
      and rules are good. */
  lemma ValidatedIff(g: Grammar, targets: set<string>, s: RawScenario)
    ensures Validated(g, targets, s) <==>
      && 0 <= s.ttl <= 86_400_000_000_000 && 1 <= |s.states| <= 200 && s.initial != "" && s.initial in s.states
      && forall name :: name in s.states ==> GoodState(g, targets, s, s.states[name])
  {
    hide GoodState, StateProblem;
    assert s.states == map[] <==> |s.states| == 0;
    forall name | name in s.states
      ensures GoodState(g, targets, s, s.states[name]) <==> forall p :: !StateProblem(g, targets, s, name, s.states[name], p)
    {
      GoodStateIff(g, targets, s, name, s.states[name]);
    }
    if Validated(g, targets, s) {
      assert !IsProblem(g, targets, s, BadTTL) && !IsProblem(g, targets, s, NoStates) && !IsProblem(g, targets, s, TooManyStates);
      assert !IsProblem(g, targets, s, NoInitial) && !IsProblem(g, targets, s, UnknownInitial);
      forall name, p | name in s.states ensures !StateProblem(g, targets, s, name, s.states[name], p) {
        assert !IsProblem(g, targets, s, p);
      }
    }
  }

  // ---------- compilation ----------

  /** An action without a webhook is left out. */
  function EnterOf(acts: seq<RawAction>): seq<Action> {
    if acts == [] then [] else
    var front, a := EnterOf(acts[..|acts| - 1]), acts[|acts| - 1];
    if a.webhook.None? then front else
    var w := a.webhook.value;
    front + [Action(w.target, w.event, w.after, w.body, a.goto)]
  }

  ghost predicate SetsOf(sets: map<string, string>, out: seq<SetVar>) {
    && (forall i, j :: 0 <= i < j < |out| ==> Less(out[i].name, out[j].name))
    && (forall name :: name in sets <==> exists i :: 0 <= i < |out| && out[i].name == name)
    && (forall i :: 0 <= i < |out| ==> out[i].name in sets && out[i].value == sets[out[i].name])
  }

  ghost predicate RuleOf(r: RawRule, c: Rule) {
    c.condition == r.condition && r.reply == Some(c.reply) && c.goto == r.goto && SetsOf(r.sets, c.sets)
  }

  ghost predicate StateOf(st: RawState, c: State) {
    c.enter == EnterOf(st.enter) && |c.on| == |st.on| && forall i :: 0 <= i < |c.on| ==> RuleOf(st.on[i], c.on[i])
  }

  /** What compiling a scenario produces. */
  ghost predicate CompilesTo(s: RawScenario, c: Scenario) {
    && c.id == s.id && c.initial == s.initial && c.ttl == (if s.ttl == 0 then DEFAULT_TTL else s.ttl)
    && (forall name :: name in c.states <==> name in s.states && s.states[name].Some?)
    && (forall name :: name in c.states ==> StateOf(s.states[name].value, c.states[name]))
    && Lists(c.names, c.states.Keys)
  }

  predicate ActionParses(g: Grammar, a: RawAction) {
    a.webhook.Some? ==> g.parses(a.webhook.value.body)
  }

  ghost predicate RuleParses(g: Grammar, r: RawRule) {
    g.parses(r.condition) && (r.reply.Some? ==> g.parses(r.reply.value)) && forall k :: k in r.sets ==> g.parses(r.sets[k])
  }

  ghost predicate StateParses(g: Grammar, st: RawState) {
    (forall i :: 0 <= i < |st.enter| ==> ActionParses(g, st.enter[i])) && forall i :: 0 <= i < |st.on| ==> RuleParses(g, st.on[i])
  }

  method CompileSets(g: Grammar, sets: map<string, string>) returns (out: seq<SetVar>, ok: bool)
    ensures ok <==> forall k :: k in sets ==> g.parses(sets[k])
    ensures SetsOf(sets, out)
  {
    var names := SortedNames(sets.Keys);
    out, ok := [], true;
    for i := 0 to |names|
      invariant |out| == i && forall k :: 0 <= k < i ==> out[k] == SetVar(names[k], sets[names[k]])
      invariant ok <==> forall k :: 0 <= k < i ==> g.parses(sets[names[k]])
    {
      assert names[i] in sets;
      ok := ok && g.parses(sets[names[i]]);
      out := out + [SetVar(names[i], sets[names[i]])];
    }
    forall name ensures name in sets <==> exists i :: 0 <= i < |out| && out[i].name == name {
      if name in sets {
        assert name in names;
        var i :| 0 <= i < |names| && names[i] == name;
        assert out[i].name == name;
      }
    }
  }

  method CompileState(g: Grammar, st: RawState) returns (c: State, ok: bool)
    requires forall i :: 0 <= i < |st.on| ==> st.on[i].reply.Some?
    ensures ok <==> StateParses(g, st)
    ensures ok ==> StateOf(st, c)
  {
    hide SetsOf;
    var enter, on := [], [];
    ok := true;
    for i := 0 to |st.enter|
      invariant ok <==> forall k :: 0 <= k < i ==> ActionParses(g, st.enter[k])
      invariant ok ==> enter == EnterOf(st.enter[..i])
    {
      assert st.enter[..i + 1][..i] == st.enter[..i];
      var a := st.enter[i];
      if a.webhook.Some? {
        if !g.parses(a.webhook.value.body) {
          ok := false;
        } else {
          var w := a.webhook.value;
          enter := enter + [Action(w.target, w.event, w.after, w.body, a.goto)];
        }
      }
    }
    assert st.enter[..|st.enter|] == st.enter;
    ghost var okEnter := ok;
    for i := 0 to |st.on|
      invariant ok <==> okEnter && forall k :: 0 <= k < i ==> RuleParses(g, st.on[k])
      invariant ok ==> |on| == i && forall k :: 0 <= k < i ==> RuleOf(st.on[k], on[k])
    {
      var r := st.on[i];
      var sets, setsOk := CompileSets(g, r.sets);
      if g.parses(r.condition) && g.parses(r.reply.value) && setsOk {
        on := on + [Rule(r.condition, r.reply.value, sets, r.goto)];
      } else {
        ok := false;
      }
    }
    c := State(enter, on);
  }

  /** Compilation; None stands for its list of errors. */
  method CompileScenario(g: Grammar, s: RawScenario) returns (r: Option<Scenario>)
    requires forall name :: name in s.states && s.states[name].Some? ==>
      forall i :: 0 <= i < |s.states[name].value.on| ==> s.states[name].value.on[i].reply.Some?
    ensures r.Some? <==> forall name :: name in s.states && s.states[name].Some? ==> StateParses(g, s.states[name].value)
    ensures r.Some? ==> CompilesTo(s, r.value)
  {
    hide StateParses, StateOf;
    var todo, states, ok := s.states.Keys, map[], true;
    while todo != {}
      invariant todo <= s.states.Keys
      invariant ok <==> forall name :: name in s.states && name !in todo && s.states[name].Some? ==> StateParses(g, s.states[name].value)
      invariant ok ==> forall name :: name in states <==> name in s.states && name !in todo && s.states[name].Some?
      invariant ok ==> forall name :: name in states && name in s.states && s.states[name].Some? ==> StateOf(s.states[name].value, states[name])
      decreases |todo|
    {
      var name :| name in todo;
      if s.states[name].Some? {
        var c, fine := CompileState(g, s.states[name].value);
        ok, states := ok && fine, states[name := c];
      }
      todo := todo - {name};
    }
    if !ok { return None; }
    var names := SortedNames(states.Keys);
    r := Some(Scenario(s.id, if s.ttl == 0 then DEFAULT_TTL else s.ttl, s.initial, states, names));
  }

  // ---------- what compilation keeps ----------

  /** `c` is what becomes of the webhook action `a`. */
  ghost predicate Kept(a: RawAction, c: Action) {
    && a.webhook.Some? && c.goto == a.goto
    && c.target == a.webhook.value.target && c.event == a.webhook.value.event
    && c.after == a.webhook.value.after && c.body == a.webhook.value.body
  }

  /** The compiled actions are those with a webhook, in order. */
  ghost predicate KeptInOrder(acts: seq<RawAction>, n: nat, ks: seq<nat>, enter: seq<Action>) {
    && n <= |acts| && Ascending(ks, n) && |enter| == |ks|
    && (forall j :: 0 <= j < |ks| ==> Kept(acts[ks[j]], enter[j]))
    && (forall k :: 0 <= k < n ==> (k in ks <==> acts[k].webhook.Some?))
  }

  lemma {:induction false} EnterKeeps(acts: seq<RawAction>, n: nat) returns (ks: seq<nat>)
    requires n <= |acts|
    ensures KeptInOrder(acts, n, ks, EnterOf(acts[..n]))
  {
    if n == 0 {
      ks := [];
    } else {
      hide Below, Kept, EnterOf, KeptInOrder;
      ks := EnterKeeps(acts, n - 1);
      ks := KeptMore(acts, n - 1, ks);
    }
  }

  lemma KeptMore(acts: seq<RawAction>, n: nat, ks: seq<nat>) returns (ks1: seq<nat>)
    requires n < |acts| && KeptInOrder(acts, n, ks, EnterOf(acts[..n]))
    ensures KeptInOrder(acts, n + 1, ks1, EnterOf(acts[..n + 1]))
  {
    hide Below, Kept, EnterOf;
    AscendingMore(ks, n);
    EnterMore(acts, n);
    ks1 := if acts[n].webhook.Some? then ks + [n] else ks;
    var front, all := EnterOf(acts[..n]), EnterOf(acts[..n + 1]);
    forall j | 0 <= j < |ks| ensures all[j] == front[j] && ks1[j] == ks[j] {
      assert all[..|front|][j] == front[j];
    }
  }

  lemma EnterMore(acts: seq<RawAction>, n: nat)
    requires n < |acts|
    ensures var front, all := EnterOf(acts[..n]), EnterOf(acts[..n + 1]);
      if acts[n].webhook.Some? then |all| == |front| + 1 && all[..|front|] == front && Kept(acts[n], all[|front|]) else all == front
  {
    assert acts[..n + 1][..n] == acts[..n];
  }

  /** What a compiled scenario has of the configured one: every webhook action with its
      target, event, delay, body and goto, in order; every rule in order; and a time to
      live of 30 minutes where none is configured. */
  lemma CompiledFields(s: RawScenario, c: Scenario, name: string)
    requires CompilesTo(s, c) && name in s.states && s.states[name].Some?
    ensures c.id == s.id && c.initial == s.initial && c.ttl == if s.ttl == 0 then 1_800_000_000_000 else s.ttl
    ensures name in c.states
    ensures var st, cs := s.states[name].value, c.states[name];
      && (exists ks :: KeptInOrder(st.enter, |st.enter|, ks, cs.enter))
      && |cs.on| == |st.on|
      && forall i :: 0 <= i < |st.on| ==>
           && cs.on[i].condition == st.on[i].condition && Some(cs.on[i].reply) == st.on[i].reply && cs.on[i].goto == st.on[i].goto
           && forall x :: x in st.on[i].sets <==> SetVar(x, if x in st.on[i].sets then st.on[i].sets[x] else "") in cs.on[i].sets
  {
    var st, cs := s.states[name].value, c.states[name];
    var ks := EnterKeeps(st.enter, |st.enter|);
    assert st.enter[..|st.enter|] == st.enter && StateOf(st, cs);
  }

  // ---------- map order does not matter ----------

  function SetNames(sets: seq<SetVar>): (r: seq<string>)
    ensures |r| == |sets| && forall i :: 0 <= i < |sets| ==> r[i] == sets[i].name
  {
    seq(|sets|, i requires 0 <= i < |sets| => sets[i].name)
  }

  lemma SetsAreUnique(sets: map<string, string>, a: seq<SetVar>, b: seq<SetVar>)
    requires SetsOf(sets, a) && SetsOf(sets, b)
    ensures a == b
  {
    hide Less;
    SetsListNames(sets, a);
    SetsListNames(sets, b);
    ListsIsUnique(SetNames(a), SetNames(b), sets.Keys);
    forall i | 0 <= i < |a| ensures a[i] == b[i] {
      assert SetNames(a)[i] == SetNames(b)[i];
    }
  }

  lemma SetsListNames(sets: map<string, string>, a: seq<SetVar>)
    requires SetsOf(sets, a)
    ensures Lists(SetNames(a), sets.Keys)
  {
    hide Less;
    forall x ensures x in SetNames(a) <==> x in sets.Keys {
      if x in sets {
        var i :| 0 <= i < |a| && a[i].name == x;
        assert SetNames(a)[i] == x;
      }
    }
  }

  lemma StateIsUnique(st: RawState, a: State, b: State)
    requires StateOf(st, a) && StateOf(st, b)
    ensures a == b
  {
    hide SetsOf;
    forall i | 0 <= i < |a.on| ensures a.on[i] == b.on[i] {
      assert RuleOf(st.on[i], a.on[i]) && RuleOf(st.on[i], b.on[i]);
      SetsAreUnique(st.on[i].sets, a.on[i].sets, b.on[i].sets);
    }
  }

  /** Compiling a scenario has one result, in whatever order its maps are iterated. */
  lemma CompilationIsDeterministic(s: RawScenario, a: Scenario, b: Scenario)
    requires CompilesTo(s, a) && CompilesTo(s, b)
    ensures a == b
  {
    hide StateOf, Lists;
    forall name | name in a.states ensures a.states[name] == b.states[name] {
      StateIsUnique(s.states[name].value, a.states[name], b.states[name]);
    }
    assert a.states == b.states;
    ListsIsUnique(a.names, b.names, a.states.Keys);
  }

  // ---------- the graph ----------

  /** A goto leads from `a` to `b` in the configuration. */
  ghost predicate Edge(s: RawScenario, a: string, b: string) {
    && b != "" && a in s.states && s.states[a].Some?
    && ((exists i :: 0 <= i < |s.states[a].value.enter| && s.states[a].value.enter[i].goto == b)
        || (exists i :: 0 <= i < |s.states[a].value.on| && s.states[a].value.on[i].goto == b))
  }

  /** The same in the compiled scenario. */
  ghost predicate Moves(c: Scenario, a: string, b: string) {
    && b != "" && a in c.states
    && ((exists i :: 0 <= i < |c.states[a].enter| && c.states[a].enter[i].goto == b)
        || (exists i :: 0 <= i < |c.states[a].on| && c.states[a].on[i].goto == b))
  }

  lemma {:induction false} EnterKeepsGotos(acts: seq<RawAction>)
    requires forall i :: 0 <= i < |acts| ==> acts[i].webhook.Some?
    ensures |EnterOf(acts)| == |acts| && forall i :: 0 <= i < |acts| ==> EnterOf(acts)[i].goto == acts[i].goto
  {
    if acts != [] { EnterKeepsGotos(acts[..|acts| - 1]); }
  }

  /** Compilation keeps the states and the gotos of a validated scenario, and
      every goto leads to a state it has. */
  lemma CompiledGraph(g: Grammar, targets: set<string>, s: RawScenario, c: Scenario)
    requires Validated(g, targets, s) && CompilesTo(s, c)
    ensures c.states.Keys == s.states.Keys && c.initial in c.states
    ensures forall a, b :: Moves(c, a, b) <==> Edge(s, a, b)
    ensures forall a, b :: Moves(c, a, b) ==> b in c.states
  {
    ValidatedIsSound(g, targets, s);
    hide Validated, SetsOf;
    forall a, b ensures (Moves(c, a, b) <==> Edge(s, a, b)) && (Moves(c, a, b) ==> b in c.states) {
      if a in s.states {
        assert StateOf(s.states[a].value, c.states[a]);
        EnterKeepsGotos(s.states[a].value.enter);
      }
    }
  }
}
