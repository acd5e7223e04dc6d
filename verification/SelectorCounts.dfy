/** A rule for callers that keeps selector counts exact although calls interleave. */
module SelectorCounts {
  import opened StoreRuns
  import opened Selectors
  import opened SelectorLeaks

  /** A call and what it is at. */
  datatype Holder = Holder(n: nat, call: Call)

  type CallsBy = map<string, Holder>

  /** Kept beside a run: the sessions counted, from the last section of a creation
      to the last section of the deletion, and which call creates or deletes which. */
  datatype Books = Books(charged: Items, making: CallsBy, ending: CallsBy)

  function Moved(of: CallsBy, n: nat, call: Call): CallsBy {
    of[call.item.id := Holder(n, call)]
  }

  function BooksAfter(c: Config, x: Sys, step: Step, b: Books): Books {
    if !step.BeginCreate? && !step.BeginDelete? && step.n !in x.calls then b else
    match step
    case BeginCreate(n, z) => if z.key in x.keys then b else b.(making := Moved(b.making, n, Call(z, Locked)))
    case Size(n) =>
      var z := x.calls[n].item;
      if c.maxSessions > 0 && x.length >= c.maxSessions then b.(making := b.making - {z.id})
      else b.(making := Moved(b.making, n, Call(z, Sized)))
    case Key(n) => b.(making := Moved(b.making, n, Call(x.calls[n].item, Keyed)))
    case Index(n) => b.(making := Moved(b.making, n, Call(x.calls[n].item, Indexed)))
    case Refer(n) =>
      var z := x.calls[n].item;
      b.(charged := b.charged[z.id := z], making := b.making - {z.id})
    case BeginDelete(n, id) => if id in x.ids then b.(ending := Moved(b.ending, n, Call(x.ids[id], Unindexed))) else b
    case Unkey(n) => b.(ending := Moved(b.ending, n, Call(x.calls[n].item, Unkeyed)))
    case Unsize(n) => b.(ending := Moved(b.ending, n, Call(x.calls[n].item, Unsized)))
    case Unrefer(n) =>
      var z := x.calls[n].item;
      b.(charged := b.charged - {z.id}, ending := b.ending - {z.id})
  }

  function BooksAt(c: Config, xs: seq<Sys>, steps: seq<Step>, k: nat): Books
    requires k <= |steps| && |xs| == |steps| + 1
  {
    if k == 0 then Books(map[], map[], map[]) else BooksAfter(c, xs[k - 1], steps[k - 1], BooksAt(c, xs, steps, k - 1))
  }

  /** No deletion reaches its last section before the creation of its session has
      been through its own. */
  ghost predicate Patient(x: Sys, step: Step) {
    step.Unrefer? && step.n in x.calls ==>
      forall m :: m in x.calls && x.calls[m].phase == Indexed ==> x.calls[m].item.id != x.calls[step.n].item.id
  }

  predicate Creating(call: Call) {
    call.phase == Locked || call.phase == Sized || call.phase == Keyed || call.phase == Indexed
  }

  /** `of` lists the calls of one kind by their sessions. */
  ghost predicate ListsCalls(calls: Calls, of: CallsBy, creating: bool) {
    && (forall id :: id in of ==>
          && of[id].call.item.id == id && Creating(of[id].call) == creating
          && of[id].n in calls && calls[of[id].n] == of[id].call)
    && (forall n :: n in calls && Creating(calls[n]) == creating ==>
          calls[n].item.id in of && of[calls[n].item.id] == Holder(n, calls[n]))
  }

  /** The counted sessions are those in the id index and those being deleted, but
      for creations that have indexed theirs and are about to count it. */
  ghost predicate ChargesFit(ids: Items, charged: Items, making: CallsBy, ending: CallsBy, used: set<string>) {
    && ids.Keys + charged.Keys + making.Keys + ending.Keys <= used
    && charged.Keys !! making.Keys && ids.Keys !! ending.Keys
    && (forall id :: id in ids ==>
          && ids[id].id == id
          && if id in charged then charged[id] == ids[id] else id in making && making[id].call == Call(ids[id], Indexed))
    && (forall id :: id in charged ==> id in ids || (id in ending && ending[id].call.item == charged[id]))
    && (forall id :: id in ending ==>
          if id in charged then charged[id] == ending[id].call.item
          else id in making && making[id].call == Call(ending[id].call.item, Indexed))
    && (forall id :: id in making ==>
          if making[id].call.phase != Indexed then id !in ids && id !in ending
          else (id in ids && ids[id] == making[id].call.item) || (id in ending && ending[id].call.item == making[id].call.item))
  }

  ghost predicate Tracked(ids: Items, calls: Calls, used: set<string>, b: Books) {
    && ChargesFit(ids, b.charged, b.making, b.ending, used)
    && ListsCalls(calls, b.making, true) && ListsCalls(calls, b.ending, false)
  }

  // ---------- the lists of calls ----------

  lemma AgreesMoved(calls: Calls, of: CallsBy, creating: bool, n: nat, call: Call)
    requires ListsCalls(calls, of, creating) && Creating(call) == creating
    requires if n in calls then Creating(calls[n]) == creating && calls[n].item == call.item else call.item.id !in of
    ensures ListsCalls(calls[n := call], Moved(of, n, call), creating)
  {
  }

  lemma AgreesApart(calls: Calls, of: CallsBy, creating: bool, n: nat, call: Call)
    requires ListsCalls(calls, of, creating) && Creating(call) != creating && (n in calls ==> Creating(calls[n]) != creating)
    ensures ListsCalls(calls[n := call], of, creating) && ListsCalls(calls - {n}, of, creating)
  {
  }

  lemma AgreesGone(calls: Calls, of: CallsBy, creating: bool, n: nat)
    requires ListsCalls(calls, of, creating) && n in calls && Creating(calls[n]) == creating
    ensures ListsCalls(calls - {n}, of - {calls[n].item.id}, creating)
  {
  }

  // ---------- the charges ----------

  lemma ChargesBegin(ids: Items, charged: Items, making: CallsBy, ending: CallsBy, used: set<string>, n: nat, z: Item)
    requires ChargesFit(ids, charged, making, ending, used)
    requires z.id !in used
    ensures ChargesFit(ids, charged, Moved(making, n, Call(z, Locked)), ending, used + {z.id})
  {
  }

  lemma ChargesMake(ids: Items, charged: Items, making: CallsBy, ending: CallsBy, used: set<string>, n: nat, call: Call)
    requires ChargesFit(ids, charged, making, ending, used)
    requires call.item.id in making && making[call.item.id].call.phase != Indexed && call.phase != Indexed
    ensures ChargesFit(ids, charged, Moved(making, n, call), ending, used)
  {
  }

  lemma ChargesRefuse(ids: Items, charged: Items, making: CallsBy, ending: CallsBy, used: set<string>, id: string)
    requires ChargesFit(ids, charged, making, ending, used)
    requires id in making && making[id].call.phase != Indexed
    ensures ChargesFit(ids, charged, making - {id}, ending, used)
  {
  }

  lemma ChargesIndex(ids: Items, charged: Items, making: CallsBy, ending: CallsBy, used: set<string>, n: nat, z: Item)
    requires ChargesFit(ids, charged, making, ending, used)
    requires z.id in making && making[z.id].call.phase != Indexed
    ensures ChargesFit(ids[z.id := z], charged, Moved(making, n, Call(z, Indexed)), ending, used)
  {
  }

  lemma ChargesRefer(ids: Items, charged: Items, making: CallsBy, ending: CallsBy, used: set<string>, z: Item)
    requires ChargesFit(ids, charged, making, ending, used)
    requires z.id in making && making[z.id].call == Call(z, Indexed)
    ensures ChargesFit(ids, charged[z.id := z], making - {z.id}, ending, used)
  {
  }

  lemma ChargesDelete(ids: Items, charged: Items, making: CallsBy, ending: CallsBy, used: set<string>, n: nat, z: Item)
    requires ChargesFit(ids, charged, making, ending, used)
    requires z.id in ids && ids[z.id] == z
    ensures ChargesFit(ids - {z.id}, charged, making, Moved(ending, n, Call(z, Unindexed)), used)
  {
  }

  lemma ChargesEnd(ids: Items, charged: Items, making: CallsBy, ending: CallsBy, used: set<string>, n: nat, call: Call)
    requires ChargesFit(ids, charged, making, ending, used)
    requires call.item.id in ending && ending[call.item.id].call.item == call.item
    ensures ChargesFit(ids, charged, making, Moved(ending, n, call), used)
  {
  }

  lemma ChargesUnrefer(ids: Items, charged: Items, making: CallsBy, ending: CallsBy, used: set<string>, id: string)
    requires ChargesFit(ids, charged, making, ending, used)
    requires id in ending && id in charged
    ensures ChargesFit(ids, charged - {id}, making, ending - {id}, used)
  {
  }

  /** A call about to count or uncount its session. */
  lemma CallCharges(x: Sys, b: Books, n: nat)
    requires Tracked(x.ids, x.calls, x.used, b) && n in x.calls
    ensures var call := x.calls[n];
      var id := call.item.id;
      && (if Creating(call) then id in b.making && b.making[id] == Holder(n, call) else id in b.ending && b.ending[id] == Holder(n, call))
      && (call.phase == Indexed ==> id !in b.charged)
      && (call.phase == Unsized && Patient(x, Unrefer(n)) ==> id in b.charged && b.charged[id] == call.item)
  {
  }

  lemma IdsNamed(x: Sys, b: Books, id: string)
    requires Tracked(x.ids, x.calls, x.used, b) && id in x.ids
    ensures x.ids[id].id == id && id !in b.ending
  {
  }

  lemma BeginTracked(c: Config, x: Sys, y: Sys, n: nat, z: Item, b: Books)
    requires Tracked(x.ids, x.calls, x.used, b) && Next(c, x, y, BeginCreate(n, z))
    ensures Tracked(y.ids, y.calls, y.used, BooksAfter(c, x, BeginCreate(n, z), b))
  {
    hide ListsCalls, ChargesFit, Creating, ShardFree;
    MoreUsed(x.ids, b.charged, b.making, b.ending, x.used, z.id);
    if z.key !in x.keys {
      ChargesBegin(x.ids, b.charged, b.making, b.ending, x.used, n, z);
      NotMade(x.ids, b.charged, b.making, b.ending, x.used, z.id);
      Kinds(Call(z, Locked));
      AgreesMoved(x.calls, b.making, true, n, Call(z, Locked));
      AgreesApart(x.calls, b.ending, false, n, Call(z, Locked));
    }
  }

  lemma CreateTracked(c: Config, x: Sys, y: Sys, step: Step, b: Books)
    requires Tracked(x.ids, x.calls, x.used, b) && Next(c, x, y, step)
    requires step.Size? || step.Key? || step.Index? || step.Refer?
    ensures Tracked(y.ids, y.calls, y.used, BooksAfter(c, x, step, b))
  {
    hide ListsCalls, ChargesFit, Creating, Up;
    var n := step.n;
    CallCharges(x, b, n);
    var z := x.calls[n].item;
    Kinds(x.calls[n]);
    if step.Refer? {
      ChargesRefer(x.ids, b.charged, b.making, b.ending, x.used, z);
      AgreesGone(x.calls, b.making, true, n);
      AgreesApart(x.calls, b.ending, false, n, x.calls[n]);
    } else if step.Size? && c.maxSessions > 0 && x.length >= c.maxSessions {
      ChargesRefuse(x.ids, b.charged, b.making, b.ending, x.used, z.id);
      AgreesGone(x.calls, b.making, true, n);
      AgreesApart(x.calls, b.ending, false, n, x.calls[n]);
    } else {
      var call := y.calls[n];
      if step.Index? {
        ChargesIndex(x.ids, b.charged, b.making, b.ending, x.used, n, z);
      } else {
        ChargesMake(x.ids, b.charged, b.making, b.ending, x.used, n, call);
      }
      Kinds(call);
      AgreesMoved(x.calls, b.making, true, n, call);
      AgreesApart(x.calls, b.ending, false, n, call);
    }
  }

  lemma Kinds(call: Call)
    ensures Creating(call) <==> call.phase == Locked || call.phase == Sized || call.phase == Keyed || call.phase == Indexed
  {
  }

  lemma NotMade(ids: Items, charged: Items, making: CallsBy, ending: CallsBy, used: set<string>, id: string)
    requires ChargesFit(ids, charged, making, ending, used) && id !in used
    ensures id !in making && id !in ending
  {
  }

  lemma MoreUsed(ids: Items, charged: Items, making: CallsBy, ending: CallsBy, used: set<string>, id: string)
    requires ChargesFit(ids, charged, making, ending, used)
    ensures ChargesFit(ids, charged, making, ending, used + {id})
  {
  }

  lemma DeleteTracked(c: Config, x: Sys, y: Sys, step: Step, b: Books)
    requires Tracked(x.ids, x.calls, x.used, b) && Next(c, x, y, step) && Patient(x, step)
    requires step.BeginDelete? || step.Unkey? || step.Unsize? || step.Unrefer?
    ensures Tracked(y.ids, y.calls, y.used, BooksAfter(c, x, step, b))
  {
    hide ListsCalls, ChargesFit, Creating, Patient;
    var n := step.n;
    if step.BeginDelete? {
      if step.id in x.ids {
        var z := x.ids[step.id];
        IdsNamed(x, b, step.id);
        ChargesDelete(x.ids, b.charged, b.making, b.ending, x.used, n, z);
        Kinds(Call(z, Unindexed));
        AgreesMoved(x.calls, b.ending, false, n, Call(z, Unindexed));
        AgreesApart(x.calls, b.making, true, n, Call(z, Unindexed));
      }
    } else {
      CallCharges(x, b, n);
      var z := x.calls[n].item;
      Kinds(x.calls[n]);
      if step.Unrefer? {
        ChargesUnrefer(x.ids, b.charged, b.making, b.ending, x.used, z.id);
        AgreesGone(x.calls, b.ending, false, n);
        AgreesApart(x.calls, b.making, true, n, x.calls[n]);
      } else {
        var call := y.calls[n];
        ChargesEnd(x.ids, b.charged, b.making, b.ending, x.used, n, call);
        Kinds(call);
        AgreesMoved(x.calls, b.ending, false, n, call);
        AgreesApart(x.calls, b.making, true, n, call);
      }
    }
  }

  lemma NextTracked(c: Config, x: Sys, y: Sys, step: Step, b: Books)
    requires Tracked(x.ids, x.calls, x.used, b) && Next(c, x, y, step) && Patient(x, step)
    ensures Tracked(y.ids, y.calls, y.used, BooksAfter(c, x, step, b))
  {
    hide Tracked, Patient, Next, BooksAfter;
    if step.BeginDelete? || step.Unkey? || step.Unsize? || step.Unrefer? {
      DeleteTracked(c, x, y, step, b);
    } else if step.BeginCreate? {
      BeginTracked(c, x, y, step.n, step.item, b);
    } else {
      CreateTracked(c, x, y, step, b);
    }
  }

  // ---------- the counts ----------

  lemma NextCounted(c: Config, x: Sys, y: Sys, step: Step, b: Books)
    requires Tracked(x.ids, x.calls, x.used, b) && Next(c, x, y, step) && Patient(x, step) && Counted(x.refs, ItemSels(b.charged))
    ensures Counted(y.refs, ItemSels(BooksAfter(c, x, step, b).charged))
  {
    hide Tracked, Counted, Patient, Down, Up;
    if step.Refer? {
      var z := x.calls[step.n].item;
      CallCharges(x, b, step.n);
      CountedMore(x.refs, ItemSels(b.charged), z.id, z.sel);
      assert ItemSels(b.charged[z.id := z]) == ItemSels(b.charged)[z.id := z.sel];
    } else if step.Unrefer? {
      var z := x.calls[step.n].item;
      CallCharges(x, b, step.n);
      CountedLess(x.refs, ItemSels(b.charged), z.id);
      assert ItemSels(b.charged - {z.id}) == ItemSels(b.charged) - {z.id};
    }
  }

  lemma {:induction false} RunCounted(c: Config, xs: seq<Sys>, steps: seq<Step>, k: nat)
    requires Run(c, xs, steps) && k <= |steps| && forall i :: 0 <= i < k ==> Patient(xs[i], steps[i])
    ensures Tracked(xs[k].ids, xs[k].calls, xs[k].used, BooksAt(c, xs, steps, k))
    ensures Counted(xs[k].refs, ItemSels(BooksAt(c, xs, steps, k).charged))
  {
    if k > 0 {
      hide Next, Patient, Tracked, Counted, BooksAfter;
      RunCounted(c, xs, steps, k - 1);
      NextTracked(c, xs[k - 1], xs[k], steps[k - 1], BooksAt(c, xs, steps, k - 1));
      NextCounted(c, xs[k - 1], xs[k], steps[k - 1], BooksAt(c, xs, steps, k - 1));
    }
  }

  /** A deletion that has waited finds its selector counted. */
  lemma PatientNeverMisses(c: Config, xs: seq<Sys>, steps: seq<Step>, i: nat)
    requires Run(c, xs, steps) && i < |steps| && forall j :: 0 <= j <= i ==> Patient(xs[j], steps[j])
    ensures !Misses(xs[i], steps[i])
  {
    RunCounted(c, xs, steps, i);
    assert Next(c, xs[i], xs[i + 1], steps[i]);
    hide Run, Patient, Tracked, BooksAt;
    if steps[i].Unrefer? {
      var b := BooksAt(c, xs, steps, i);
      CallCharges(xs[i], b, steps[i].n);
      ChargedIsListed(xs[i].refs, b.charged, xs[i].calls[steps[i].n].item.id);
    }
  }

  lemma ChargedIsListed(refs: Refs, items: Items, id: string)
    requires Counted(refs, ItemSels(items)) && id in items
    ensures items[id].sel in refs
  {
    assert id in Users(ItemSels(items), items[id].sel);
  }

  /** While no deletion overtakes the last section of its session's creation,
      selector counts are exact whenever no call is under way: a selector is listed
      exactly if a live session uses it, with the number of those that do. */
  lemma PatientCountsAreExact(c: Config, xs: seq<Sys>, steps: seq<Step>, k: nat)
    requires Run(c, xs, steps) && k <= |steps| && xs[k].calls == map[]
    requires forall i :: 0 <= i < k ==> Patient(xs[i], steps[i])
    ensures Counted(xs[k].refs, ItemSels(xs[k].ids))
  {
    forall i | 0 <= i < k ensures !Misses(xs[i], steps[i]) {
      PatientNeverMisses(c, xs, steps, i);
    }
    CountsAreExactIffNoneMissed(c, xs, steps, k);
  }
}
