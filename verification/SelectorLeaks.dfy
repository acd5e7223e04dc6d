/** Exactly when selector counts are exact although calls interleave, and by how
    much they are off otherwise. */
module SelectorLeaks {
  import opened Selectors
  import opened StoreRuns

  /** The selector of each item. */
  function ItemSels(items: Items): Sels {
    map id | id in items :: items[id].sel
  }

  function CountOf(refs: Refs, sel: string): int {
    if sel in refs then refs[sel] else 0
  }

  predicate Ending(call: Call) {
    call.phase == Unindexed || call.phase == Unkeyed || call.phase == Unsized
  }

  /** Deletions under way of sessions with this selector. */
  function EndingWith(calls: Calls, sel: string): set<nat> {
    set n | n in calls && Ending(calls[n]) && calls[n].item.sel == sel
  }

  /** Creations about to count a session with this selector. */
  function OwedWith(calls: Calls, sel: string): set<nat> {
    set n | n in calls && calls[n].phase == Indexed && calls[n].item.sel == sel
  }

  /** The last section of a deletion finds no count for the selector, and passes it by. */
  predicate Misses(x: Sys, step: Step) {
    step.Unrefer? && step.n in x.calls && x.calls[step.n].item.sel !in x.refs
  }

  /** How often that has happened to a selector. */
  function Leak(xs: seq<Sys>, steps: seq<Step>, k: nat, sel: string): nat
    requires k <= |steps| && |xs| == |steps| + 1
  {
    if k == 0 then 0 else
    Leak(xs, steps, k - 1, sel)
    + if Misses(xs[k - 1], steps[k - 1]) && xs[k - 1].calls[steps[k - 1].n].item.sel == sel then 1 else 0
  }

  predicate Positive(refs: Refs) {
    forall sel :: sel in refs ==> refs[sel] > 0
  }

  /** Every session counted or to be uncounted, less those still to be counted, is
      in the count, and so is every miss so far. */
  ghost predicate Balanced(refs: Refs, ids: Items, calls: Calls, sel: string, leak: nat) {
    CountOf(refs, sel) == |Users(ItemSels(ids), sel)| + |EndingWith(calls, sel)| - |OwedWith(calls, sel)| + leak
  }

  lemma MoreIds(ids: Items, z: Item, sel: string)
    requires z.id !in ids
    ensures |Users(ItemSels(ids[z.id := z]), sel)| == |Users(ItemSels(ids), sel)| + if sel == z.sel then 1 else 0
  {
    assert Users(ItemSels(ids[z.id := z]), sel) == Users(ItemSels(ids), sel) + if sel == z.sel then {z.id} else {};
  }

  lemma FewerIds(ids: Items, id: string, sel: string)
    requires id in ids
    ensures |Users(ItemSels(ids - {id}), sel)| == |Users(ItemSels(ids), sel)| - if sel == ids[id].sel then 1 else 0
  {
    assert Users(ItemSels(ids - {id}), sel) == Users(ItemSels(ids), sel) - if sel == ids[id].sel then {id} else {};
  }

  /** One call appears, goes on or disappears. */
  lemma CallMoves(calls: Calls, n: nat, call: Call, sel: string)
    ensures |EndingWith(calls[n := call], sel)|
      == |EndingWith(calls - {n}, sel)| + if Ending(call) && call.item.sel == sel then 1 else 0
    ensures |OwedWith(calls[n := call], sel)|
      == |OwedWith(calls - {n}, sel)| + if call.phase == Indexed && call.item.sel == sel then 1 else 0
  {
    EndingMoves(calls, n, call, sel);
    OwedMoves(calls, n, call, sel);
  }

  lemma EndingMoves(calls: Calls, n: nat, call: Call, sel: string)
    ensures |EndingWith(calls[n := call], sel)|
      == |EndingWith(calls - {n}, sel)| + if Ending(call) && call.item.sel == sel then 1 else 0
  {
    var rest := EndingWith(calls - {n}, sel);
    if Ending(call) && call.item.sel == sel {
      assert EndingWith(calls[n := call], sel) == rest + {n};
    } else {
      assert EndingWith(calls[n := call], sel) == rest;
    }
  }

  lemma OwedMoves(calls: Calls, n: nat, call: Call, sel: string)
    ensures |OwedWith(calls[n := call], sel)|
      == |OwedWith(calls - {n}, sel)| + if call.phase == Indexed && call.item.sel == sel then 1 else 0
  {
    var rest := OwedWith(calls - {n}, sel);
    if call.phase == Indexed && call.item.sel == sel {
      assert OwedWith(calls[n := call], sel) == rest + {n};
    } else {
      assert OwedWith(calls[n := call], sel) == rest;
    }
  }

  lemma SameCallsBy(calls: Calls, n: nat)
    ensures n in calls ==> calls[n := calls[n]] == calls
    ensures n !in calls ==> calls - {n} == calls
  {
  }

  /** A creation indexes a session that the index did not have; names in it are right. */
  lemma IndexFacts(c: Config, x: Sys, n: nat)
    requires Inv(c, x)
    ensures InPhase(x, n, Keyed) ==> x.calls[n].item.id !in x.ids
    ensures forall id :: id in x.ids ==> x.ids[id].id == id
  {
  }

  /** The last section of a creation or a deletion. */
  lemma RefsBalance(c: Config, x: Sys, y: Sys, step: Step, sel: string, leak: nat)
    requires Next(c, x, y, step) && (step.Refer? || step.Unrefer?)
    requires Positive(x.refs) && Balanced(x.refs, x.ids, x.calls, sel, leak)
    ensures Balanced(y.refs, y.ids, y.calls, sel, leak + if Misses(x, step) && x.calls[step.n].item.sel == sel then 1 else 0)
  {
    hide Users, EndingWith, OwedWith, ItemSels;
    SameCallsBy(x.calls, step.n);
    CallMoves(x.calls, step.n, x.calls[step.n], sel);
  }

  lemma CallsBalance(c: Config, x: Sys, y: Sys, step: Step, sel: string, leak: nat)
    requires Next(c, x, y, step) && !step.Index? && !step.BeginDelete? && !step.Refer? && !step.Unrefer?
    requires Balanced(x.refs, x.ids, x.calls, sel, leak)
    ensures Balanced(y.refs, y.ids, y.calls, sel, leak)
  {
    hide Users, EndingWith, OwedWith, ShardFree, ItemSels;
    var n := step.n;
    SameCallsBy(x.calls, n);
    if n in x.calls { CallMoves(x.calls, n, x.calls[n], sel); }
    if n in y.calls { CallMoves(x.calls, n, y.calls[n], sel); }
  }

  lemma IdsBalance(c: Config, x: Sys, y: Sys, step: Step, sel: string, leak: nat)
    requires Inv(c, x) && Next(c, x, y, step) && (step.Index? || step.BeginDelete?)
    requires Balanced(x.refs, x.ids, x.calls, sel, leak)
    ensures Balanced(y.refs, y.ids, y.calls, sel, leak)
  {
    hide Inv, Users, EndingWith, OwedWith, ShardFree;
    var n := step.n;
    IndexFacts(c, x, n);
    SameCallsBy(x.calls, n);
    if step.Index? {
      MoreIds(x.ids, x.calls[n].item, sel);
      CallMoves(x.calls, n, x.calls[n], sel);
      CallMoves(x.calls, n, y.calls[n], sel);
    } else if step.id in x.ids {
      FewerIds(x.ids, step.id, sel);
      CallMoves(x.calls, n, y.calls[n], sel);
    }
  }

  lemma NextBalanced(c: Config, x: Sys, y: Sys, step: Step, sel: string, leak: nat)
    requires Inv(c, x) && Next(c, x, y, step) && Positive(x.refs) && Balanced(x.refs, x.ids, x.calls, sel, leak)
    ensures Positive(y.refs)
    ensures Balanced(y.refs, y.ids, y.calls, sel, leak + if Misses(x, step) && x.calls[step.n].item.sel == sel then 1 else 0)
  {
    hide Inv, Balanced, ShardFree;
    if step.Index? || step.BeginDelete? {
      IdsBalance(c, x, y, step, sel, leak);
    } else if step.Refer? || step.Unrefer? {
      RefsBalance(c, x, y, step, sel, leak);
    } else {
      CallsBalance(c, x, y, step, sel, leak);
    }
  }

  lemma InitBalanced(x: Sys, sel: string)
    requires Init(x)
    ensures Positive(x.refs) && Balanced(x.refs, x.ids, x.calls, sel, 0)
  {
    assert Users(ItemSels(x.ids), sel) == {} && EndingWith(x.calls, sel) == {} && OwedWith(x.calls, sel) == {};
  }

  lemma {:induction false} RunBalanced(c: Config, xs: seq<Sys>, steps: seq<Step>, k: nat, sel: string)
    requires Run(c, xs, steps) && k <= |steps|
    ensures Positive(xs[k].refs) && Balanced(xs[k].refs, xs[k].ids, xs[k].calls, sel, Leak(xs, steps, k, sel))
  {
    hide Next, Init, Positive, Balanced, Misses, Inv;
    if k == 0 {
      InitBalanced(xs[0], sel);
    } else {
      RunBalanced(c, xs, steps, k - 1, sel);
      RunInv(c, xs, steps, k - 1);
      NextBalanced(c, xs[k - 1], xs[k], steps[k - 1], sel, Leak(xs, steps, k - 1, sel));
    }
  }

  // ---------- the laws ----------

  /** Whenever no call is under way, a selector's count is the number of sessions
      that use it plus the number of deletions that missed it. */
  lemma LeakIsExact(c: Config, xs: seq<Sys>, steps: seq<Step>, k: nat, sel: string)
    requires Run(c, xs, steps) && k <= |steps| && xs[k].calls == map[]
    ensures CountOf(xs[k].refs, sel) == |Users(ItemSels(xs[k].ids), sel)| + Leak(xs, steps, k, sel)
    ensures sel in xs[k].refs <==> CountOf(xs[k].refs, sel) > 0
  {
    RunBalanced(c, xs, steps, k, sel);
    assert EndingWith(map[], sel) == {} && OwedWith(map[], sel) == {};
  }

  lemma {:induction false} NoMissNoLeak(xs: seq<Sys>, steps: seq<Step>, k: nat, sel: string)
    requires k <= |steps| && |xs| == |steps| + 1 && forall i :: 0 <= i < k ==> !Misses(xs[i], steps[i])
    ensures Leak(xs, steps, k, sel) == 0
  {
    if k > 0 { NoMissNoLeak(xs, steps, k - 1, sel); }
  }

  lemma {:induction false} MissLeaks(xs: seq<Sys>, steps: seq<Step>, k: nat, i: nat)
    requires i < k <= |steps| && |xs| == |steps| + 1 && Misses(xs[i], steps[i])
    ensures Leak(xs, steps, k, xs[i].calls[steps[i].n].item.sel) > 0
  {
    if i < k - 1 { MissLeaks(xs, steps, k - 1, i); }
  }

  /** Whenever no call is under way, selector counts are exact if and only if no
      deletion so far found its selector uncounted. */
  lemma CountsAreExactIffNoneMissed(c: Config, xs: seq<Sys>, steps: seq<Step>, k: nat)
    requires Run(c, xs, steps) && k <= |steps| && xs[k].calls == map[]
    ensures Counted(xs[k].refs, ItemSels(xs[k].ids)) <==> forall i :: 0 <= i < k ==> !Misses(xs[i], steps[i])
  {
    hide Misses, Users, Leak;
    forall sel
      ensures CountOf(xs[k].refs, sel) == |Users(ItemSels(xs[k].ids), sel)| + Leak(xs, steps, k, sel)
      ensures sel in xs[k].refs <==> CountOf(xs[k].refs, sel) > 0
    {
      LeakIsExact(c, xs, steps, k, sel);
    }
    if forall i :: 0 <= i < k ==> !Misses(xs[i], steps[i]) {
      forall sel ensures Leak(xs, steps, k, sel) == 0 {
        NoMissNoLeak(xs, steps, k, sel);
      }
      CountedIf(xs[k].refs, ItemSels(xs[k].ids));
    } else {
      var i :| 0 <= i < k && Misses(xs[i], steps[i]);
      MissLeaks(xs, steps, k, i);
      MissIsOfCall(xs[i], steps[i]);
      if Counted(xs[k].refs, ItemSels(xs[k].ids)) {
        CountedOnlyIf(xs[k].refs, ItemSels(xs[k].ids), xs[i].calls[steps[i].n].item.sel);
      }
    }
  }

  lemma MissIsOfCall(x: Sys, step: Step)
    requires Misses(x, step)
    ensures step.Unrefer? && step.n in x.calls
  {
  }

  lemma CountedIf(refs: Refs, sels: Sels)
    requires forall sel :: CountOf(refs, sel) == |Users(sels, sel)| && (sel in refs <==> CountOf(refs, sel) > 0)
    ensures Counted(refs, sels)
  {
    hide Users;
    forall sel ensures sel in refs <==> Users(sels, sel) != {} {
      assert CountOf(refs, sel) == |Users(sels, sel)|;
    }
  }

  lemma CountedOnlyIf(refs: Refs, sels: Sels, sel: string)
    requires Counted(refs, sels)
    ensures CountOf(refs, sel) == |Users(sels, sel)|
  {
  }
}
