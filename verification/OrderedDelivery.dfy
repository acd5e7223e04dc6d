/** DeliverNow: a session's queued deliveries on demand, in the order asked. */
module OrderedDelivery {
  import opened Model
  import opened Replay
  import opened ReplayOrder
  import Compose

  // ---------- the call ----------

  function OfEvent(s: Shared, sid: Sid, event: string): set<Id> {
    set id | id in Eligible(s, sid) && s.dels[id].event == event
  }

  /** What an item names: the delivery with that id, or else the first in due
      order of that event. */
  ghost function Find(s: Shared, sid: Sid, item: string): Option<Id> {
    if item in Eligible(s, sid) then Some(item) else First(s, OfEvent(s, sid, item))
  }

  /** `missing` is the item of a not-pending error. */
  datatype Sent<E> = Sent(s: Shared, env: E, fired: seq<Fired>, partial: bool, missing: Option<string>)

  ghost function DeliverLoop<E>(w: World<E>, s: Shared, env: E, sid: Sid, items: seq<string>, fired: seq<Fired>): Sent<E>
    decreases |items|
  {
    var i := |fired|;
    if items == [] then Sent(s, env, fired, false, None)
    else if w.expired(i) then Sent(s, env, fired, true, None)
    else
      var found := Find(s, sid, items[0]);
      if sid in s.gone || found.None? then Sent(s, env, fired, false, Some(items[0]))
      else
        var r := Fire(w, Mark(s, found.value), env, found.value, w.clock(2 * i + 1));
        DeliverLoop(w, r.s, r.env, sid, items[1..], fired + [r.fired])
  }

  ghost function DeliverNow<E>(w: World<E>, s: Shared, env: E, sid: Sid, items: seq<string>): Sent<E> {
    var o := DeliverLoop(w, Acquire(s, sid), env, sid, items, []);
    o.(s := Release(o.s, sid))
  }

  // ---------- the choice ----------

  /** An item is matched if some queued delivery has it as id or event, and the
      choice depends on nothing but the deliveries themselves. */
  lemma FindChooses(s: Shared, sid: Sid, item: string)
    requires Numbered(s)
    ensures var f := Find(s, sid, item);
      && (f.None? <==> forall id :: id in Eligible(s, sid) ==> id != item && s.dels[id].event != item)
      && (f.Some? ==> f.value in Eligible(s, sid))
      && (f.Some? && f.value != item ==>
          && s.dels[f.value].event == item && item !in Eligible(s, sid)
          && forall id :: id in Eligible(s, sid) && s.dels[id].event == item && id != f.value ==> Before(s.dels[f.value], s.dels[id]))
  {
    var ids := OfEvent(s, sid, item);
    assert forall id :: id in Eligible(s, sid) && s.dels[id].event == item ==> id in ids;
    if item !in Eligible(s, sid) && ids != {} {
      FirstExists(s, ids);
      var x :| x in ids;
      assert x in Eligible(s, sid);
    }
  }

  // ---------- one item ----------

  lemma FindPending(s: Shared, sid: Sid, item: string)
    ensures Find(s, sid, item).Some? ==> Find(s, sid, item).value in s.PendingOf(sid) && Find(s, sid, item).value in s.dels
  {
  }

  lemma FireSpares<E(!new)>(w: World<E>, s: Shared, env: E, sid: Sid, id: Id, fired: seq<Fired>, j: Id)
    requires Forward(w) && FreshIds(w, s) && Driven(s, sid) && id in s.PendingOf(sid) && j in s.dels
    ensures var r := Fire(w, Mark(s, id), env, id, w.clock(2 * |fired| + 1));
      && Driven(r.s, sid) && FreshIds(w, r.s) && r.fired.id == id && r.s.Off(sid) == s.Off(sid)
      && Spared(s, r.s, sid, fired + [r.fired], |fired|, j)
  {
    hide Driven, Forward, FreshIds, Attempted, Followed, Kept;
    var r := Fire(w, Mark(s, id), env, id, w.clock(2 * |fired| + 1));
    FireRounds(w, s, env, sid, id, w.clock(2 * |fired| + 1));
    assert (fired + [r.fired])[|fired|].id == id;
    if j != id {
      RoundedKeeps(s, r.s, sid, id, w.clock(2 * |fired| + 1), j);
    } else {
      assert Names(fired + [r.fired], |fired|, j);
    }
  }

  /** Nothing pending in the session has this id or this event. */
  ghost predicate Lacks(s: Shared, sid: Sid, item: string) {
    forall id :: id in s.PendingOf(sid) ==> id != item && s.dels[id].event != item
  }

  lemma NoneFound(s: Shared, sid: Sid, item: string)
    requires Driven(s, sid) && Find(s, sid, item).None?
    ensures Lacks(s, sid, item)
  {
    hide Find;
    FindChooses(s, sid, item);
    assert Eligible(s, sid) == s.PendingOf(sid);
  }

  // ---------- the laws ----------

  /** The loop spares what it does not send and leaves the session's clock alone. */
  lemma {:induction false} LoopSends<E(!new)>(w: World<E>, s: Shared, env: E, sid: Sid, items: seq<string>, fired: seq<Fired>, j: Id)
    requires Forward(w) && FreshIds(w, s) && Driven(s, sid) && j in s.dels
    ensures var o := DeliverLoop(w, s, env, sid, items, fired);
      && Driven(o.s, sid) && fired <= o.fired && |o.fired| <= |fired| + |items| && o.s.Off(sid) == s.Off(sid)
      && Spared(s, o.s, sid, o.fired, |fired|, j)
      && (o.missing.Some? ==> |o.fired| < |fired| + |items| && o.missing.value == items[|o.fired| - |fired|])
      && (o.missing.None? && !o.partial ==> |o.fired| == |fired| + |items|)
      && (o.partial <==> |o.fired| < |fired| + |items| && w.expired(|o.fired|)) && (o.partial ==> o.missing.None?)
      && (o.missing.Some? ==> Lacks(o.s, sid, o.missing.value))
    decreases |items|
  {
    hide Driven, Forward, FreshIds, Spared, Find, Fire;
    var i := |fired|;
    if items == [] || w.expired(i) || sid in s.gone || Find(s, sid, items[0]).None? {
      SparedSelf(s, sid, fired, j);
      DrivenStays(s, sid);
      if Find(s, sid, if items == [] then "" else items[0]).None? { NoneFound(s, sid, if items == [] then "" else items[0]); }
    } else {
      var id := Find(s, sid, items[0]).value;
      FindPending(s, sid, items[0]);
      FireSpares(w, s, env, sid, id, fired, j);
      var r := Fire(w, Mark(s, id), env, id, w.clock(2 * i + 1));
      SparedKnown(s, r.s, sid, fired + [r.fired], i, j);
      LoopSends(w, r.s, r.env, sid, items[1..], fired + [r.fired], j);
      var o := DeliverLoop(w, s, env, sid, items, fired);
      assert o.fired[..i + 1] == fired + [r.fired];
      SparedTrans(s, r.s, o.s, sid, o.fired, i, j);
    }
  }

  /** After k items the loop stands where a call with just those k items ends, and
      the next thing it sends is what item k names there. */
  lemma {:induction false} SendsWhatItemsName<E>(w: World<E>, s: Shared, env: E, sid: Sid, items: seq<string>, fired: seq<Fired>, k: nat)
    requires |fired| + k < |DeliverLoop(w, s, env, sid, items, fired).fired| && k < |items|
    ensures var o := DeliverLoop(w, s, env, sid, items, fired);
      var p := DeliverLoop(w, s, env, sid, items[..k], fired);
      && !p.partial && p.missing.None? && |p.fired| == |fired| + k && p.fired == o.fired[..|fired| + k]
      && Find(p.s, sid, items[k]) == Some(o.fired[|fired| + k].id)
    decreases |items|
  {
    hide Find, Fire, First;
    LoopPrefixed(w, s, env, sid, items, fired);
    var i := |fired|;
    var found := Find(s, sid, items[0]);
    assert !w.expired(i) && sid !in s.gone && found.Some?;
    FindPending(s, sid, items[0]);
    FireReports(w, s, env, found.value, w.clock(2 * i + 1));
    var r := Fire(w, Mark(s, found.value), env, found.value, w.clock(2 * i + 1));
    LoopPrefixed(w, r.s, r.env, sid, items[1..], fired + [r.fired]);
    if k > 0 {
      SendsWhatItemsName(w, r.s, r.env, sid, items[1..], fired + [r.fired], k - 1);
      assert items[..k][1..] == items[1..][..k - 1] && items[..k][0] == items[0];
    }
  }

  lemma {:induction false} LoopPrefixed<E>(w: World<E>, s: Shared, env: E, sid: Sid, items: seq<string>, fired: seq<Fired>)
    ensures fired <= DeliverLoop(w, s, env, sid, items, fired).fired
    decreases |items|
  {
    hide Find, Fire;
    if items != [] && !w.expired(|fired|) && sid !in s.gone && Find(s, sid, items[0]).Some? {
      FindPending(s, sid, items[0]);
      var id := Find(s, sid, items[0]).value;
      var r := Fire(w, Mark(s, id), env, id, w.clock(2 * |fired| + 1));
      LoopPrefixed(w, r.s, r.env, sid, items[1..], fired + [r.fired]);
    }
  }

  /** One DeliverNow call: an error at an item means exactly the items before it
      were sent, and that nothing pending then has it as id or event; a call ends
      early without error exactly if its deadline has come by then; otherwise all items
      were sent; the
      session's clock does not move; every delivery pending before and not sent is
      exactly as it was; and the session goes back with everything in the heap. */
  lemma DeliverNowDelivers<E(!new)>(w: World<E>, s: Shared, env: E, sid: Sid, items: seq<string>, j: Id)
    requires Forward(w) && FreshIds(w, s) && Idle(s, sid) && j in s.dels
    ensures var o := DeliverNow(w, s, env, sid, items);
      && Idle(o.s, sid) && |o.fired| <= |items| && o.s.Off(sid) == s.Off(sid)
      && (o.missing.Some? ==> |o.fired| < |items| && o.missing.value == items[|o.fired|])
      && (o.missing.None? && !o.partial ==> |o.fired| == |items|)
      && (o.partial <==> |o.fired| < |items| && w.expired(|o.fired|)) && (o.partial ==> o.missing.None?)
      && (o.missing.Some? ==> Lacks(o.s, sid, o.missing.value))
      && Spared(s, o.s, sid, o.fired, 0, j)
      && (!Names(o.fired, 0, j) ==> o.s.dels[j] == s.dels[j] && (j in o.s.pending <==> j in s.pending))
  {
    hide DeliverLoop, Driven, Idle, Forward, FreshIds, Names;
    var s1 := Acquire(s, sid);
    AcquireDrives(s, sid);
    Compose.AcquireFresh(w, s, sid);
    LoopSends(w, s1, env, sid, items, [], j);
    var o := DeliverLoop(w, s1, env, sid, items, []);
    DrivenStays(o.s, sid);
    ReleaseIdles(o.s, sid);
    ReleaseKeeps(o.s, sid);
    SparedByFrames(s, s1, o.s, Release(o.s, sid), sid, o.fired, j);
  }

  /** When a call ends early, for any session, with deliveries or without. */
  lemma {:induction false} LoopStops<E(!new)>(w: World<E>, s: Shared, env: E, sid: Sid, items: seq<string>, fired: seq<Fired>)
    ensures var o := DeliverLoop(w, s, env, sid, items, fired);
      && |fired| <= |o.fired| <= |fired| + |items|
      && (o.partial <==> |o.fired| < |fired| + |items| && w.expired(|o.fired|))
      && (o.missing.Some? <==> !o.partial && |o.fired| < |fired| + |items|)
    decreases |items|
  {
    hide Find, Fire;
    if items != [] && !w.expired(|fired|) && sid !in s.gone && Find(s, sid, items[0]).Some? {
      FindPending(s, sid, items[0]);
      var id := Find(s, sid, items[0]).value;
      var r := Fire(w, Mark(s, id), env, id, w.clock(2 * |fired| + 1));
      LoopStops(w, r.s, r.env, sid, items[1..], fired + [r.fired]);
    }
  }

  lemma DeliverNowStops<E(!new)>(w: World<E>, s: Shared, env: E, sid: Sid, items: seq<string>)
    ensures var o := DeliverNow(w, s, env, sid, items);
      && (o.partial <==> |o.fired| < |items| && w.expired(|o.fired|))
      && (o.missing.Some? <==> !o.partial && |o.fired| < |items|)
  {
    hide DeliverLoop, Acquire, Release;
    LoopStops(w, Acquire(s, sid), env, sid, items, []);
  }
}
