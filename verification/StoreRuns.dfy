/** The store's calls as sequences of lock sections, interleaved in any way. */
module StoreRuns {
  import opened Model
  import opened Selectors

  /** A session as the store sees it. */
  datatype Item = Item(id: string, key: string, sel: string)

  /** How far a call has come. A creation holds its shard's lock while Locked and
      Sized; the other phases hold no lock. */
  datatype Phase = Locked | Sized | Keyed | Indexed | Unindexed | Unkeyed | Unsized

  datatype Call = Call(item: Item, phase: Phase)

  /** `used` are the ids ever given to a creation. `place` says of every session
      the counter counts whether the id index has it (None) or a call has. */
  datatype Sys = Sys(
    keys: map<string, Item>, ids: map<string, Item>, length: int, refs: map<string, int>,
    calls: map<nat, Call>, used: set<string>, place: map<string, Option<nat>>)

  datatype Config = Config(shardOf: string -> nat, maxSessions: int)

  datatype Step =
    | BeginCreate(n: nat, item: Item) | Size(n: nat) | Key(n: nat) | Index(n: nat) | Refer(n: nat)
    | BeginDelete(n: nat, id: string) | Unkey(n: nat) | Unsize(n: nat) | Unrefer(n: nat)

  /** The phases in which a creation holds its shard. */
  predicate Locks(call: Call) {
    call.phase == Locked || call.phase == Sized
  }

  ghost predicate ShardFree(c: Config, x: Sys, key: string) {
    forall n :: n in x.calls && Locks(x.calls[n]) ==> c.shardOf(x.calls[n].item.key) != c.shardOf(key)
  }

  ghost predicate InPhase(x: Sys, n: nat, phase: Phase) {
    n in x.calls && x.calls[n].phase == phase
  }

  function To(x: Sys, n: nat, phase: Phase): map<nat, Call>
    requires n in x.calls
  {
    x.calls[n := x.calls[n].(phase := phase)]
  }

  ghost predicate Next(c: Config, x: Sys, y: Sys, step: Step) {
    match step
    case BeginCreate(n, item) =>
      && n !in x.calls && item.id !in x.used && ShardFree(c, x, item.key)
      && y == if item.key in x.keys then x.(used := x.used + {item.id})
              else x.(used := x.used + {item.id}, calls := x.calls[n := Call(item, Locked)])
    case Size(n) =>
      && InPhase(x, n, Locked)
      && y == if c.maxSessions > 0 && x.length >= c.maxSessions then x.(calls := x.calls - {n})
              else x.(length := x.length + 1, calls := To(x, n, Sized), place := x.place[x.calls[n].item.id := Some(n)])
    case Key(n) =>
      InPhase(x, n, Sized) && y == x.(keys := x.keys[x.calls[n].item.key := x.calls[n].item], calls := To(x, n, Keyed))
    case Index(n) =>
      && InPhase(x, n, Keyed)
      && y == x.(ids := x.ids[x.calls[n].item.id := x.calls[n].item], calls := To(x, n, Indexed),
                 place := x.place[x.calls[n].item.id := None])
    case Refer(n) =>
      InPhase(x, n, Indexed) && y == x.(refs := Up(x.refs, x.calls[n].item.sel), calls := x.calls - {n})
    case BeginDelete(n, id) =>
      && n !in x.calls
      && y == if id !in x.ids then x
              else x.(ids := x.ids - {id}, calls := x.calls[n := Call(x.ids[id], Unindexed)], place := x.place[id := Some(n)])
    case Unkey(n) =>
      && InPhase(x, n, Unindexed) && ShardFree(c, x, x.calls[n].item.key)
      && var z := x.calls[n].item;
         y == x.(keys := if z.key in x.keys && x.keys[z.key] == z then x.keys - {z.key} else x.keys, calls := To(x, n, Unkeyed))
    case Unsize(n) =>
      InPhase(x, n, Unkeyed) && y == x.(length := x.length - 1, calls := To(x, n, Unsized), place := x.place - {x.calls[n].item.id})
    case Unrefer(n) =>
      InPhase(x, n, Unsized) && y == x.(refs := Down(x.refs, x.calls[n].item.sel), calls := x.calls - {n})
  }

  ghost predicate Init(x: Sys) {
    x == Sys(map[], map[], 0, map[], map[], {}, map[])
  }

  ghost predicate Run(c: Config, xs: seq<Sys>, steps: seq<Step>) {
    && |xs| == |steps| + 1 && Init(xs[0])
    && forall k :: 0 <= k < |steps| ==> Next(c, xs[k], xs[k + 1], steps[k])
  }

  // ---------- the invariant ----------

  type Items = map<string, Item>
  type Places = map<string, Option<nat>>
  type Calls = map<nat, Call>

  ghost predicate Sizes(c: Config, length: int, place: Places, used: set<string>) {
    length == |place| && (c.maxSessions > 0 ==> length <= c.maxSessions) && place.Keys <= used
  }

  /** Every key entry is a counted session under its own key, the one that the id
      index or a call has. */
  ghost predicate KeysFit(keys: Items, ids: Items, place: Places, calls: Calls) {
    forall k :: k in keys ==>
      && keys[k].key == k && keys[k].id in place
      && match place[keys[k].id]
         case None => keys[k].id in ids && ids[keys[k].id] == keys[k]
         case Some(n) => n in calls && calls[n].item == keys[k]
  }

  ghost predicate IdsFit(keys: Items, ids: Items, place: Places) {
    && (forall id :: id in ids ==> ids[id].id == id && ids[id].key in keys && keys[ids[id].key] == ids[id])
    && (forall id :: id in ids <==> id in place && place[id].None?)
  }

  /** What a call knows about its session. */
  ghost predicate Knows(keys: Items, place: Places, n: nat, z: Item, phase: Phase) {
    match phase
    case Locked => z.key !in keys && z.id !in place
    case Sized => z.key !in keys && z.id in place && place[z.id] == Some(n)
    case Keyed => z.key in keys && keys[z.key] == z && z.id in place && place[z.id] == Some(n)
    case Indexed => true
    case Unindexed => z.key in keys && keys[z.key] == z && z.id in place && place[z.id] == Some(n)
    case Unkeyed => !(z.key in keys && keys[z.key].id == z.id) && z.id in place && place[z.id] == Some(n)
    case Unsized => true
  }

  ghost predicate CallsFit(keys: Items, place: Places, calls: Calls) {
    forall n :: n in calls ==> Knows(keys, place, n, calls[n].item, calls[n].phase)
  }

  /** Ids are used once: a creation that has just begun shares its id with nobody. */
  ghost predicate Fresh(calls: Calls, used: set<string>) {
    && (forall n :: n in calls ==> calls[n].item.id in used)
    && (forall m, n :: m in calls && n in calls && m != n && calls[m].phase == Locked ==> calls[m].item.id != calls[n].item.id)
  }

  ghost predicate LocksFit(c: Config, calls: Calls) {
    forall m, n :: m in calls && n in calls && m != n && Locks(calls[m]) && Locks(calls[n]) ==>
      c.shardOf(calls[m].item.key) != c.shardOf(calls[n].item.key)
  }

  /** A counted session that a call has is the session of that call. */
  ghost predicate PlacesFit(place: Places, calls: Calls) {
    forall id :: id in place && place[id].Some? ==>
      && place[id].value in calls && calls[place[id].value].item.id == id
      && var p := calls[place[id].value].phase;
      && (p == Sized || p == Keyed || p == Unindexed || p == Unkeyed)
  }

  ghost predicate ViewsFit(c: Config, keys: Items, ids: Items, place: Places, calls: Calls, used: set<string>) {
    && KeysFit(keys, ids, place, calls) && IdsFit(keys, ids, place) && CallsFit(keys, place, calls)
    && Fresh(calls, used) && LocksFit(c, calls) && PlacesFit(place, calls)
  }

  ghost predicate Inv(c: Config, x: Sys) {
    Sizes(c, x.length, x.place, x.used) && ViewsFit(c, x.keys, x.ids, x.place, x.calls, x.used)
  }

  // ---------- every step keeps it ----------

  lemma BeginCreateFits(c: Config, keys: Items, ids: Items, place: Places, calls: Calls, used: set<string>, n: nat, z: Item)
    requires ViewsFit(c, keys, ids, place, calls, used) && place.Keys <= used && n !in calls && z.id !in used && z.key !in keys
    requires forall m :: m in calls && Locks(calls[m]) ==> c.shardOf(calls[m].item.key) != c.shardOf(z.key)
    ensures ViewsFit(c, keys, ids, place, calls[n := Call(z, Locked)], used + {z.id})
  {
  }

  /** No other call can be creating a session for the key of one that holds its lock. */
  lemma SizeMaps(c: Config, keys: Items, ids: Items, place: Places, calls: Calls, used: set<string>, n: nat, z: Item)
    requires ViewsFit(c, keys, ids, place, calls, used) && n in calls && calls[n] == Call(z, Locked)
    ensures KeysFit(keys, ids, place[z.id := Some(n)], calls[n := Call(z, Sized)])
    ensures IdsFit(keys, ids, place[z.id := Some(n)]) && PlacesFit(place[z.id := Some(n)], calls[n := Call(z, Sized)])
  {
    hide LocksFit;
  }

  lemma SizeCalls(c: Config, keys: Items, ids: Items, place: Places, calls: Calls, used: set<string>, n: nat, z: Item)
    requires ViewsFit(c, keys, ids, place, calls, used) && n in calls && calls[n] == Call(z, Locked)
    ensures CallsFit(keys, place[z.id := Some(n)], calls[n := Call(z, Sized)])
    ensures Fresh(calls[n := Call(z, Sized)], used) && LocksFit(c, calls[n := Call(z, Sized)])
  {
  }

  lemma SizeFits(c: Config, keys: Items, ids: Items, place: Places, calls: Calls, used: set<string>, n: nat, z: Item)
    requires ViewsFit(c, keys, ids, place, calls, used) && n in calls && calls[n] == Call(z, Locked)
    ensures ViewsFit(c, keys, ids, place[z.id := Some(n)], calls[n := Call(z, Sized)], used)
  {
    SizeMaps(c, keys, ids, place, calls, used, n, z);
    SizeCalls(c, keys, ids, place, calls, used, n, z);
  }

  lemma KeyMaps(c: Config, keys: Items, ids: Items, place: Places, calls: Calls, used: set<string>, n: nat, z: Item)
    requires ViewsFit(c, keys, ids, place, calls, used) && n in calls && calls[n] == Call(z, Sized)
    ensures KeysFit(keys[z.key := z], ids, place, calls[n := Call(z, Keyed)])
    ensures IdsFit(keys[z.key := z], ids, place) && PlacesFit(place, calls[n := Call(z, Keyed)])
  {
    hide LocksFit;
  }

  lemma KeyCalls(c: Config, keys: Items, ids: Items, place: Places, calls: Calls, used: set<string>, n: nat, z: Item)
    requires ViewsFit(c, keys, ids, place, calls, used) && n in calls && calls[n] == Call(z, Sized)
    ensures CallsFit(keys[z.key := z], place, calls[n := Call(z, Keyed)])
    ensures Fresh(calls[n := Call(z, Keyed)], used) && LocksFit(c, calls[n := Call(z, Keyed)])
  {
  }

  lemma KeyFits(c: Config, keys: Items, ids: Items, place: Places, calls: Calls, used: set<string>, n: nat, z: Item)
    requires ViewsFit(c, keys, ids, place, calls, used) && n in calls && calls[n] == Call(z, Sized)
    ensures ViewsFit(c, keys[z.key := z], ids, place, calls[n := Call(z, Keyed)], used)
  {
    KeyMaps(c, keys, ids, place, calls, used, n, z);
    KeyCalls(c, keys, ids, place, calls, used, n, z);
  }

  lemma IndexMaps(c: Config, keys: Items, ids: Items, place: Places, calls: Calls, used: set<string>, n: nat, z: Item)
    requires ViewsFit(c, keys, ids, place, calls, used) && n in calls && calls[n] == Call(z, Keyed)
    ensures KeysFit(keys, ids[z.id := z], place[z.id := None], calls[n := Call(z, Indexed)])
    ensures IdsFit(keys, ids[z.id := z], place[z.id := None]) && PlacesFit(place[z.id := None], calls[n := Call(z, Indexed)])
  {
    hide LocksFit;
  }

  lemma IndexCalls(c: Config, keys: Items, ids: Items, place: Places, calls: Calls, used: set<string>, n: nat, z: Item)
    requires ViewsFit(c, keys, ids, place, calls, used) && n in calls && calls[n] == Call(z, Keyed)
    ensures CallsFit(keys, place[z.id := None], calls[n := Call(z, Indexed)])
    ensures Fresh(calls[n := Call(z, Indexed)], used) && LocksFit(c, calls[n := Call(z, Indexed)])
  {
  }

  lemma IndexFits(c: Config, keys: Items, ids: Items, place: Places, calls: Calls, used: set<string>, n: nat, z: Item)
    requires ViewsFit(c, keys, ids, place, calls, used) && n in calls && calls[n] == Call(z, Keyed)
    ensures ViewsFit(c, keys, ids[z.id := z], place[z.id := None], calls[n := Call(z, Indexed)], used)
  {
    IndexMaps(c, keys, ids, place, calls, used, n, z);
    IndexCalls(c, keys, ids, place, calls, used, n, z);
  }

  lemma DoneFits(c: Config, keys: Items, ids: Items, place: Places, calls: Calls, used: set<string>, n: nat)
    requires ViewsFit(c, keys, ids, place, calls, used) && n in calls
    requires calls[n].phase == Locked || calls[n].phase == Indexed || calls[n].phase == Unsized
    ensures ViewsFit(c, keys, ids, place, calls - {n}, used)
  {
  }

  lemma BeginDeleteMaps(c: Config, keys: Items, ids: Items, place: Places, calls: Calls, used: set<string>, n: nat, z: Item)
    requires ViewsFit(c, keys, ids, place, calls, used) && place.Keys <= used && n !in calls && z.id in ids && ids[z.id] == z
    ensures KeysFit(keys, ids - {z.id}, place[z.id := Some(n)], calls[n := Call(z, Unindexed)])
    ensures IdsFit(keys, ids - {z.id}, place[z.id := Some(n)]) && PlacesFit(place[z.id := Some(n)], calls[n := Call(z, Unindexed)])
  {
    hide LocksFit;
  }

  lemma BeginDeleteCalls(c: Config, keys: Items, ids: Items, place: Places, calls: Calls, used: set<string>, n: nat, z: Item)
    requires ViewsFit(c, keys, ids, place, calls, used) && place.Keys <= used && n !in calls && z.id in ids && ids[z.id] == z
    ensures CallsFit(keys, place[z.id := Some(n)], calls[n := Call(z, Unindexed)])
    ensures Fresh(calls[n := Call(z, Unindexed)], used) && LocksFit(c, calls[n := Call(z, Unindexed)])
  {
  }

  lemma BeginDeleteFits(c: Config, keys: Items, ids: Items, place: Places, calls: Calls, used: set<string>, n: nat, z: Item)
    requires ViewsFit(c, keys, ids, place, calls, used) && place.Keys <= used && n !in calls && z.id in ids && ids[z.id] == z
    ensures ViewsFit(c, keys, ids - {z.id}, place[z.id := Some(n)], calls[n := Call(z, Unindexed)], used)
  {
    BeginDeleteMaps(c, keys, ids, place, calls, used, n, z);
    BeginDeleteCalls(c, keys, ids, place, calls, used, n, z);
  }

  lemma UnkeyMaps(c: Config, keys: Items, ids: Items, place: Places, calls: Calls, used: set<string>, n: nat, z: Item)
    requires ViewsFit(c, keys, ids, place, calls, used) && n in calls && calls[n] == Call(z, Unindexed)
    ensures z.key in keys && keys[z.key] == z
    ensures KeysFit(keys - {z.key}, ids, place, calls[n := Call(z, Unkeyed)])
    ensures IdsFit(keys - {z.key}, ids, place) && PlacesFit(place, calls[n := Call(z, Unkeyed)])
  {
    hide LocksFit;
  }

  lemma UnkeyCalls(c: Config, keys: Items, ids: Items, place: Places, calls: Calls, used: set<string>, n: nat, z: Item)
    requires ViewsFit(c, keys, ids, place, calls, used) && n in calls && calls[n] == Call(z, Unindexed)
    ensures CallsFit(keys - {z.key}, place, calls[n := Call(z, Unkeyed)])
    ensures Fresh(calls[n := Call(z, Unkeyed)], used) && LocksFit(c, calls[n := Call(z, Unkeyed)])
  {
  }

  lemma UnkeyFits(c: Config, keys: Items, ids: Items, place: Places, calls: Calls, used: set<string>, n: nat, z: Item)
    requires ViewsFit(c, keys, ids, place, calls, used) && n in calls && calls[n] == Call(z, Unindexed)
    ensures z.key in keys && keys[z.key] == z
    ensures ViewsFit(c, keys - {z.key}, ids, place, calls[n := Call(z, Unkeyed)], used)
  {
    UnkeyMaps(c, keys, ids, place, calls, used, n, z);
    UnkeyCalls(c, keys, ids, place, calls, used, n, z);
  }

  lemma UnsizeMaps(c: Config, keys: Items, ids: Items, place: Places, calls: Calls, used: set<string>, n: nat, z: Item)
    requires ViewsFit(c, keys, ids, place, calls, used) && n in calls && calls[n] == Call(z, Unkeyed)
    ensures KeysFit(keys, ids, place - {z.id}, calls[n := Call(z, Unsized)])
    ensures IdsFit(keys, ids, place - {z.id}) && PlacesFit(place - {z.id}, calls[n := Call(z, Unsized)])
  {
    hide LocksFit;
  }

  lemma UnsizeCalls(c: Config, keys: Items, ids: Items, place: Places, calls: Calls, used: set<string>, n: nat, z: Item)
    requires ViewsFit(c, keys, ids, place, calls, used) && n in calls && calls[n] == Call(z, Unkeyed)
    ensures CallsFit(keys, place - {z.id}, calls[n := Call(z, Unsized)])
    ensures Fresh(calls[n := Call(z, Unsized)], used) && LocksFit(c, calls[n := Call(z, Unsized)])
  {
  }

  lemma UnsizeFits(c: Config, keys: Items, ids: Items, place: Places, calls: Calls, used: set<string>, n: nat, z: Item)
    requires ViewsFit(c, keys, ids, place, calls, used) && n in calls && calls[n] == Call(z, Unkeyed)
    ensures ViewsFit(c, keys, ids, place - {z.id}, calls[n := Call(z, Unsized)], used)
  {
    UnsizeMaps(c, keys, ids, place, calls, used, n, z);
    UnsizeCalls(c, keys, ids, place, calls, used, n, z);
  }

  lemma CreateKeeps(c: Config, x: Sys, y: Sys, step: Step)
    requires Inv(c, x) && Next(c, x, y, step) && (step.BeginCreate? || step.Size? || step.Key? || step.Index?)
    ensures Inv(c, y)
  {
    hide ViewsFit, Locks;
    PlaceSize(x.place);
    PlaceSize(y.place);
    match step
    case BeginCreate(n, z) =>
      if z.key in x.keys {
        MoreUsed(c, x.keys, x.ids, x.place, x.calls, x.used, z.id);
      } else {
        BeginCreateFits(c, x.keys, x.ids, x.place, x.calls, x.used, n, z);
      }
    case Size(n) =>
      if c.maxSessions > 0 && x.length >= c.maxSessions {
        DoneFits(c, x.keys, x.ids, x.place, x.calls, x.used, n);
      } else {
        CallKnows(c, x, n);
        SizeFits(c, x.keys, x.ids, x.place, x.calls, x.used, n, x.calls[n].item);
      }
    case Key(n) => KeyFits(c, x.keys, x.ids, x.place, x.calls, x.used, n, x.calls[n].item);
    case Index(n) =>
      CallKnows(c, x, n);
      IndexFits(c, x.keys, x.ids, x.place, x.calls, x.used, n, x.calls[n].item);
      assert y.place.Keys == x.place.Keys;
  }

  lemma BeginDeleteKeeps(c: Config, x: Sys, y: Sys, n: nat, id: string)
    requires Inv(c, x) && Next(c, x, y, BeginDelete(n, id))
    ensures Inv(c, y)
  {
    hide ViewsFit, Locks;
    if id in x.ids {
      PlaceSize(x.place);
      PlaceSize(y.place);
      IdKnown(c, x, id);
      BeginDeleteFits(c, x.keys, x.ids, x.place, x.calls, x.used, n, x.ids[id]);
      assert y.place.Keys == x.place.Keys;
    }
  }

  lemma UnsizeKeeps(c: Config, x: Sys, y: Sys, n: nat)
    requires Inv(c, x) && Next(c, x, y, Unsize(n))
    ensures Inv(c, y)
  {
    hide ViewsFit, Locks;
    PlaceSize(x.place);
    PlaceSize(y.place);
    CallKnows(c, x, n);
    UnsizeFits(c, x.keys, x.ids, x.place, x.calls, x.used, n, x.calls[n].item);
    assert y.place.Keys == x.place.Keys - {x.calls[n].item.id};
  }

  lemma NextKeeps(c: Config, x: Sys, y: Sys, step: Step)
    requires Inv(c, x) && Next(c, x, y, step)
    ensures Inv(c, y)
  {
    hide ViewsFit, Locks;
    match step
    case BeginDelete(n, id) => BeginDeleteKeeps(c, x, y, n, id);
    case Unkey(n) => UnkeyFits(c, x.keys, x.ids, x.place, x.calls, x.used, n, x.calls[n].item);
    case Unsize(n) => UnsizeKeeps(c, x, y, n);
    case Refer(n) => DoneFits(c, x.keys, x.ids, x.place, x.calls, x.used, n);
    case Unrefer(n) => DoneFits(c, x.keys, x.ids, x.place, x.calls, x.used, n);
    case _ => CreateKeeps(c, x, y, step);
  }

  lemma PlaceSize(place: Places)
    ensures |place| == |place.Keys|
  {
  }

  lemma MoreUsed(c: Config, keys: Items, ids: Items, place: Places, calls: Calls, used: set<string>, id: string)
    requires ViewsFit(c, keys, ids, place, calls, used)
    ensures ViewsFit(c, keys, ids, place, calls, used + {id})
  {
  }

  lemma CallKnows(c: Config, x: Sys, n: nat)
    requires ViewsFit(c, x.keys, x.ids, x.place, x.calls, x.used) && n in x.calls
    ensures Knows(x.keys, x.place, n, x.calls[n].item, x.calls[n].phase) && x.calls[n].item.id in x.used
  {
  }

  lemma IdKnown(c: Config, x: Sys, id: string)
    requires ViewsFit(c, x.keys, x.ids, x.place, x.calls, x.used) && id in x.ids
    ensures x.ids[id].id == id && id in x.place
  {
  }

  lemma {:induction false} RunInv(c: Config, xs: seq<Sys>, steps: seq<Step>, k: nat)
    requires Run(c, xs, steps) && k < |xs|
    ensures Inv(c, xs[k])
  {
    hide Inv, Next, Init;
    if k == 0 {
      InitInv(c, xs[0]);
    } else {
      RunInv(c, xs, steps, k - 1);
      NextKeeps(c, xs[k - 1], xs[k], steps[k - 1]);
    }
  }

  lemma InitInv(c: Config, x: Sys)
    requires Init(x)
    ensures Inv(c, x)
  {
  }

  // ---------- the laws ----------

  lemma {:induction false} NoMoreKeysThanIds(keys: map<string, Item>, ids: set<string>)
    requires forall k :: k in keys ==> keys[k].key == k && keys[k].id in ids
    requires forall k, l :: k in keys && l in keys && keys[k].id == keys[l].id ==> k == l
    ensures |keys| <= |ids|
    decreases |keys|
  {
    if keys != map[] {
      var k :| k in keys;
      var rest := keys - {k};
      assert rest.Keys == keys.Keys - {k};
      NoMoreKeysThanIds(rest, ids - {keys[k].id});
    }
  }

  lemma KeysDiffer(c: Config, x: Sys)
    requires Inv(c, x)
    ensures forall k, l :: k in x.keys && l in x.keys && x.keys[k].id == x.keys[l].id ==> k == l
  {
  }

  /** In every interleaving of creations and deletions the key map never has more
      entries than the counter says, and the counter never passes its limit. */
  lemma NeverOverLimit(c: Config, xs: seq<Sys>, steps: seq<Step>, k: nat)
    requires Run(c, xs, steps) && k < |xs|
    ensures |xs[k].keys| <= xs[k].length && (c.maxSessions > 0 ==> xs[k].length <= c.maxSessions)
  {
    RunInv(c, xs, steps, k);
    KeysDiffer(c, xs[k]);
    hide Run, CallsFit, LocksFit, PlacesFit, IdsFit, Fresh;
    NoMoreKeysThanIds(xs[k].keys, xs[k].place.Keys);
    assert |xs[k].place| == |xs[k].place.Keys|;
  }

  /** Whenever no call is under way, key map and id index hold the same sessions and
      the counter is their number. */
  lemma QuietViewsAgree(c: Config, xs: seq<Sys>, steps: seq<Step>, k: nat)
    requires Run(c, xs, steps) && k < |xs| && xs[k].calls == map[]
    ensures var x := xs[k];
      && (forall key, z :: key in x.keys && x.keys[key] == z <==> z.id in x.ids && x.ids[z.id] == z && z.key == key)
      && x.length == |x.ids|
  {
    RunInv(c, xs, steps, k);
    hide Run;
    var x := xs[k];
    assert x.place.Keys == x.ids.Keys;
    assert |x.place| == |x.place.Keys| && |x.ids| == |x.ids.Keys|;
  }

  const LATE := Item("s1", "k", "header:X")

  /** A creation overtaken, before its last section, by the deletion of its session. */
  function Late(k: nat): Sys {
    var z := LATE;
    match k
    case 0 => Sys(map[], map[], 0, map[], map[], {}, map[])
    case 1 => Sys(map[], map[], 0, map[], map[0 := Call(z, Locked)], {z.id}, map[])
    case 2 => Sys(map[], map[], 1, map[], map[0 := Call(z, Sized)], {z.id}, map[z.id := Some(0)])
    case 3 => Sys(map[z.key := z], map[], 1, map[], map[0 := Call(z, Keyed)], {z.id}, map[z.id := Some(0)])
    case 4 => Sys(map[z.key := z], map[z.id := z], 1, map[], map[0 := Call(z, Indexed)], {z.id}, map[z.id := None])
    case 5 => Sys(map[z.key := z], map[], 1, map[], map[0 := Call(z, Indexed), 1 := Call(z, Unindexed)], {z.id}, map[z.id := Some(1)])
    case 6 => Sys(map[], map[], 1, map[], map[0 := Call(z, Indexed), 1 := Call(z, Unkeyed)], {z.id}, map[z.id := Some(1)])
    case 7 => Sys(map[], map[], 0, map[], map[0 := Call(z, Indexed), 1 := Call(z, Unsized)], {z.id}, map[])
    case 8 => Sys(map[], map[], 0, map[], map[0 := Call(z, Indexed)], {z.id}, map[])
    case _ => Sys(map[], map[], 0, map[z.sel := 1], map[], {z.id}, map[])
  }

  function LateStep(k: nat): Step {
    match k
    case 0 => BeginCreate(0, LATE)
    case 1 => Size(0)
    case 2 => Key(0)
    case 3 => Index(0)
    case 4 => BeginDelete(1, LATE.id)
    case 5 => Unkey(1)
    case 6 => Unsize(1)
    case 7 => Unrefer(1)
    case _ => Refer(0)
  }

  lemma LateCreates(c: Config, k: nat)
    requires k < 4
    ensures Next(c, Late(k), Late(k + 1), LateStep(k))
  {
  }

  lemma LateDeletes(c: Config, k: nat)
    requires 4 <= k < 9
    ensures Next(c, Late(k), Late(k + 1), LateStep(k))
  {
  }

  /** Selector counts are not exact under interleaving: a deletion that overtakes
      the last section of the creation leaves a count behind for a session that is
      gone, with no call under way. Any limit that admits a session allows it. */
  lemma LateReferLeaks(c: Config) returns (xs: seq<Sys>, steps: seq<Step>)
    ensures Run(c, xs, steps)
    ensures var y := xs[|xs| - 1]; y.calls == map[] && y.ids == map[] && y.keys == map[] && "header:X" in y.refs
  {
    hide Next;
    xs, steps := seq(10, k requires k >= 0 => Late(k)), seq(9, k requires k >= 0 => LateStep(k));
    forall k | 0 <= k < 9 ensures Next(c, xs[k], xs[k + 1], steps[k]) {
      if k < 4 { LateCreates(c, k); } else { LateDeletes(c, k); }
    }
  }
}
