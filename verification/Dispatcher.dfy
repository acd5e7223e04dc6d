/** The dispatcher object: the heap, the per-session maps and the clocks, changed
    in place. Every method is one section under the mutex (or a synchronous
    composition of such sections) and does to the object exactly what the
    function of the same name in Model.dfy or Replay.dfy does to its value. */
module Dispatching {
  import opened Model
  import opened DeliveryQueue
  import opened Replay
  import Compose
  import Effects
  import OrderedDelivery
  import opened ReplayOrder

  class Dispatcher {
    const heap: DeliveryHeap
    var pending: map<Sid, map<Id, Delivery>>
    var issued: nat
    var offsets: map<Sid, int>
    var exclusive: set<Sid>
    var gone: set<Sid>
    var log: map<Id, Record>
    ghost var known: map<Id, Delivery>  // every delivery ever queued

    constructor ()
      ensures Valid() && fresh(heap) && known == map[] && Abs() == EMPTY
    {
      heap := new DeliveryHeap();
      pending, issued, offsets, exclusive, gone, log := map[], 0, map[], {}, {}, map[];
      known := map[];
    }

    // ---------- representation ----------

    ghost function Objs(): set<Delivery>
      reads this`known
    {
      known.Values
    }

    /** The heap holds known deliveries, and every other known one has index -1. */
    ghost predicate Linked()
      reads this`known, heap, heap.items`index, heap.items`fireAt, known.Values`index
    {
      && heap.Valid()
      && (forall id :: id in known ==> known[id].id == id && (known[id].index == -1 <==> known[id] !in heap.Members()))
      && (forall d :: d in heap.Members() ==> d.id in known && known[d.id] == d)
    }

    /** The session maps hold known deliveries of their own session, under their ids. */
    ghost predicate Filed()
      reads this`known, this`pending
    {
      forall sid :: sid in pending ==> sid != "" && FiledIn(sid, pending[sid])
    }

    ghost predicate FiledIn(sid: Sid, m: map<Id, Delivery>)
      reads this`known
    {
      forall id :: id in m ==> id in known && m[id] == known[id] && known[id].sid == sid
    }

    ghost predicate Valid()
      reads this`known, this`pending, heap, heap.items`index, heap.items`fireAt, known.Values`index
    {
      Linked() && Filed()
    }

    ghost function Dels(): map<Id, Del>
      reads this`known, known.Values`ord, known.Values`attempts, known.Values`fireAt
      reads known.Values`canceled, known.Values`running, known.Values`firstFired
    {
      Vals(known)
    }

    static ghost function Vals(m: map<Id, Delivery>): map<Id, Del>
      reads m.Values`ord, m.Values`attempts, m.Values`fireAt, m.Values`canceled, m.Values`running, m.Values`firstFired
    {
      map id | id in m :: m[id].Val()
    }

    ghost function Queue(): set<Id>
      reads this`known, heap
    {
      set id | id in known && known[id] in heap.Members()
    }

    ghost function PendingIds(): set<Id>
      reads this`known, this`pending
    {
      set id | id in known && known[id].sid in pending && id in pending[known[id].sid]
    }

    ghost function Abs(): Shared
      reads this, heap, known.Values
    {
      Shared(Dels(), Queue(), PendingIds(), offsets, exclusive, gone, issued, log)
    }

    /** The inner map of a session; Go reads a missing one as empty. */
    function Of(sid: Sid): map<Id, Delivery>
      reads this`pending
    {
      if sid in pending then pending[sid] else map[]
    }

    lemma OfPending(sid: Sid)
      requires Valid()
      ensures Of(sid).Keys == Abs().PendingOf(sid)
      ensures forall id :: id in Of(sid) ==> id in known && Of(sid)[id] == known[id] && known[id].sid == sid && sid != ""
    {
    }

    // ---------- the heap ----------

    /** Queues a delivery, unless its session is being driven. */
    method PushLocked(d: Delivery)
      requires heap.Valid() && d !in heap.Members()
      modifies heap, heap.Members()`index, d`index
      ensures heap.Valid()
      ensures d.index == -1 <==> d !in heap.Members()
      ensures d.sid != "" && d.sid in exclusive ==> heap.Members() == old(heap.Members()) && d.index == -1
      ensures !(d.sid != "" && d.sid in exclusive) ==> heap.Members() == old(heap.Members()) + {d} && d.index != -1
    {
      if d.sid != "" && d.sid in exclusive {
        d.index := -1;
        return;
      }
      heap.Push(d);
    }

    // ---------- what a change of the object does to its value ----------

    /** Only delivery `d` and the journal have changed, and `d` keeps its place:
        a delivery in the heap keeps its key. */
    twostate lemma Rewritten(d: Delivery)
      requires old(Valid()) && d.id in known && known[d.id] == d && unchanged(heap)
      requires unchanged(`known) && unchanged(`pending) && unchanged(`issued) && unchanged(`offsets) && unchanged(`exclusive) && unchanged(`gone)
      requires forall id :: id in known && id != d.id ==> unchanged(known[id])
      requires d.index == old(d.index) && (d.fireAt == old(d.fireAt) || d !in heap.Members())
      ensures Valid() && Abs() == old(Abs()).(dels := old(Abs()).dels[d.id := d.Val()], log := log)
    {
      assert Dels() == old(Dels())[d.id := d.Val()];
      assert Queue() == old(Queue()) && PendingIds() == old(PendingIds());
      assert forall x :: x in heap.Members() ==> x.fireAt == old(x.fireAt) && x.index == old(x.index);
      assert heap.Keys() == old(heap.Keys());
    }

    /** Every known delivery is in the heap, or has index -1. */
    ghost predicate Indexed()
      reads this`known, heap, heap.items`index, heap.items`fireAt, known.Values`index
    {
      && heap.Valid() && heap.Members() <= Objs()
      && forall id :: id in known ==> (known[id].index == -1 <==> known[id] !in heap.Members())
    }

    lemma Relinked(queue: set<Id>)
      requires Indexed() && queue <= known.Keys && forall id :: id in known ==> known[id].id == id
      requires forall id :: id in known ==> (id in queue <==> known[id] in heap.Members())
      ensures Linked() && Queue() == queue
    {
    }

    /** `d` is new, and in the heap or not. */
    twostate predicate Admits(new d: Delivery)
      reads this, heap, heap.items, known.Values, d
    {
      && heap.Valid() && d.id !in old(known) && known == old(known)[d.id := d] && d !in old(Objs()) && unchanged(`pending)
      && (forall id :: id in old(known) ==>
            (known[id].index == -1 <==> known[id] !in heap.Members()))
      && (d.index == -1 <==> d !in heap.Members())
      && (heap.Members() == old(heap.Members()) || heap.Members() == old(heap.Members()) + {d})
    }

    twostate lemma AdmittedLinks(new d: Delivery)
      requires old(Valid()) && Admits(d)
      ensures Linked()
    {
    }

    twostate lemma AdmittedFiles(new d: Delivery)
      requires old(Valid()) && Admits(d)
      ensures Filed() && PendingIds() == old(PendingIds())
    {
    }

    lemma ValsMore(m: map<Id, Delivery>, d: Delivery)
      ensures Vals(m[d.id := d]) == Vals(m)[d.id := d.Val()]
    {
    }

    twostate lemma AdmittedQueue(new d: Delivery)
      requires old(Valid()) && Admits(d)
      ensures Queue() == if d in heap.Members() then old(Queue()) + {d.id} else old(Queue())
    {
      assert d !in old(heap.Members());
    }

    // ---------- scheduling ----------

    method Place(d: Delivery)
      requires Indexed() && d !in Objs()
      modifies this`issued, heap, heap.Members()`index, d`ord, d`index
      ensures IndexedWith(d) && issued == old(issued) + 1 && d.ord == issued
      ensures heap.Members() == old(heap.Members()) + (if d.sid != "" && d.sid in exclusive then {} else {d})
    {
      issued := issued + 1;
      d.ord := issued;
      PushLocked(d);
    }

    /** Like Indexed, with `d` one of the known deliveries. */
    ghost predicate IndexedWith(d: Delivery)
      reads this`known, heap, heap.items`index, heap.items`fireAt, known.Values`index, d`index
    {
      && heap.Valid() && (d.index == -1 <==> d !in heap.Members())
      && forall id :: id in known ==> (known[id].index == -1 <==> known[id] !in heap.Members())
    }

    method Adopt(d: Delivery)
      requires Valid() && d.id !in known && d !in Objs()
      modifies this`issued, this`known, heap, heap.Members()`index, d`ord, d`index
      ensures Admits(d) && issued == old(issued) + 1 && d.ord == issued && known == old(known)[d.id := d]
      ensures d in heap.Members() <==> !(d.sid != "" && d.sid in exclusive)
    {
      hide Filed, Linked, Indexed;
      Links();
      Place(d);
      known := known[d.id := d];
    }

    method Admit(d: Delivery)
      requires Valid() && d.id !in known && d !in Objs()
      modifies this`issued, this`known, heap, heap.Members()`index, d
      ensures Valid() && known == old(known)[d.id := d] && issued == old(issued) + 1 && d.Val() == old(d.Val()).(ord := issued)
      ensures Dels() == old(Dels())[d.id := d.Val()] && PendingIds() == old(PendingIds())
      ensures Queue() == if d.sid != "" && d.sid in exclusive then old(Queue()) else old(Queue()) + {d.id}
    {
      hide Vals, Queue, PendingIds, Filed, Linked, Admits;
      Adopt(d);
      AdmittedLinks(d);
      AdmittedFiles(d);
      ValsMore(old(known), d);
      AdmittedQueue(d);
    }

    method File(d: Delivery)
      requires Valid() && d.id in known && known[d.id] == d
      modifies this`pending
      ensures Valid() && Dels() == old(Dels()) && Queue() == old(Queue())
      ensures PendingIds() == if d.sid == "" then old(PendingIds()) else old(PendingIds()) + {d.id}
    {
      hide Linked, Dels, Queue, PendingIds, Filed;
      if d.sid != "" {
        pending := pending[d.sid := Of(d.sid)[d.id := d]];
        FiledMore(d);
      }
    }

    twostate lemma FiledMore(d: Delivery)
      requires old(Filed()) && unchanged(`known) && d.id in known && known[d.id] == d && d.sid != ""
      requires pending == old(pending)[d.sid := old(Of(d.sid))[d.id := d]]
      ensures Filed() && PendingIds() == old(PendingIds()) + {d.id}
    {
      forall id | id in known ensures id in PendingIds() <==> id in old(PendingIds()) || id == d.id {
      }
    }

    lemma Links()
      requires Valid()
      ensures Indexed()
      ensures forall id :: id in known ==> known[id] in Objs() && known[id].id == id && (known[id].index == -1 <==> known[id] !in heap.Members())
    {
    }

    /** The section of Schedule under the lock. */
    method Enqueue(d: Delivery)
      requires Valid() && d.id !in known && d !in Objs()
      modifies this, heap, Objs(), d
      ensures Valid() && known == old(known)[d.id := d]
      ensures Abs() == Model.Enqueue(old(Abs()), d.id, old(d.Val()))
    {
      hide Valid, Dels, Queue, PendingIds;
      MembersKnown();
      Admit(d);
      File(d);
    }

    lemma MembersKnown()
      requires Valid()
      ensures heap.Members() <= Objs() && Abs().dels.Keys == known.Keys && Abs().issued == issued
      ensures Abs().exclusive == exclusive && Abs().gone == gone && Abs().offsets == offsets && Abs().log == log
      ensures forall id :: id in known ==> known[id] in Objs() && known[id].id == id && Abs().dels[id] == known[id].Val()
      ensures forall id :: id in known ==> (id in Abs().queue <==> known[id] in heap.Members())
    {
    }

    // ---------- cancellation ----------

    /** The section of CancelSession under the lock. */
    method DropSession(sid: Sid) returns (dels: map<Id, Delivery>)
      requires Valid()
      modifies this`pending, this`gone, this`offsets
      ensures Valid() && Abs() == Model.CancelSession(old(Abs()), sid)
      ensures dels == old(Of(sid)) && dels.Keys == old(Abs()).PendingOf(sid)
    {
      hide Linked;
      OfPending(sid);
      dels := Of(sid);
      pending := pending - {sid};
      if sid in exclusive {
        gone := gone + {sid};
      } else {
        offsets := offsets - {sid};
      }
      assert PendingIds() == old(PendingIds()) - dels.Keys;
    }

    method Flag(d: Delivery)
      requires Valid() && d.id in known && known[d.id] == d
      modifies this`log, d`canceled
      ensures Valid() && Abs() == Model.Flag(old(Abs()), d.id)
    {
      d.canceled := true;
      if d.id in log {
        log := log[d.id := log[d.id].(status := Canceled, next := None)];
      }
      Rewritten(d);
    }

    /** The clocks in `done` are dropped, or their sessions marked gone. */
    ghost predicate Dropped(offsets0: map<Sid, int>, gone0: set<Sid>, done: set<Sid>)
      reads this`gone, this`offsets, this`exclusive
    {
      && (forall sid :: sid in gone <==> sid in gone0 || (sid in done && sid in exclusive))
      && (forall sid :: sid in offsets <==> sid in offsets0 && (sid in done ==> sid in exclusive))
      && (forall sid :: sid in offsets ==> offsets[sid] == offsets0[sid])
    }

    method DropClock(sid: Sid, ghost offsets0: map<Sid, int>, ghost gone0: set<Sid>, ghost done: set<Sid>)
      requires Dropped(offsets0, gone0, done)
      modifies this`gone, this`offsets
      ensures Dropped(offsets0, gone0, done + {sid})
    {
      if sid in exclusive {
        gone := gone + {sid};
      } else {
        offsets := offsets - {sid};
      }
    }

    lemma DroppedAll(offsets0: map<Sid, int>, gone0: set<Sid>)
      requires Dropped(offsets0, gone0, offsets0.Keys)
      ensures gone == gone0 + (offsets0.Keys * exclusive) && offsets == offsets0 - (offsets0.Keys - exclusive)
    {
    }

    /** Drops every session clock, or marks the session gone if it is being driven. */
    method DropClocks()
      modifies this`gone, this`offsets
      ensures gone == old(gone) + (old(offsets).Keys * exclusive)
      ensures offsets == old(offsets) - (old(offsets).Keys - exclusive)
    {
      var todo := offsets.Keys;
      ghost var done: set<Sid> := {};
      while todo != {}
        invariant done == old(offsets).Keys - todo && todo <= old(offsets).Keys && Dropped(old(offsets), old(gone), done)
        decreases |todo|
      {
        hide Dropped;
        var sid :| sid in todo;
        DropClock(sid, old(offsets), old(gone), done);
        todo, done := todo - {sid}, done + {sid};
      }
      assert done == old(offsets).Keys;
      DroppedAll(old(offsets), old(gone));
    }

    method ClearPending()
      requires Valid()
      modifies this`pending
      ensures Valid() && Dels() == old(Dels()) && Queue() == old(Queue()) && PendingIds() == {}
    {
      hide Linked, Dels, Queue;
      pending := map[];
    }

    /** The section of CancelAll under the lock, and what it takes to flag. */
    method DropAll() returns (queued: set<Delivery>)
      requires Valid()
      modifies this`pending, this`gone, this`offsets
      ensures Valid() && Abs() == Model.CancelAll(old(Abs()))
      ensures queued <= Objs()
      ensures forall id :: id in known ==> (known[id] in queued <==> id in old(Abs()).queue || id in old(Abs()).pending)
    {
      hide Valid, Queue, Dels, PendingIds;
      queued := (set d | d in heap.items) + (set sid, id | sid in pending && id in pending[sid] :: pending[sid][id]);
      QueuedIs(queued);
      ClearPending();
      DropClocks();
    }

    lemma QueuedIs(queued: set<Delivery>)
      requires Valid()
      requires queued == (set d | d in heap.items) + (set sid, id | sid in pending && id in pending[sid] :: pending[sid][id])
      ensures queued <= Objs() && forall id :: id in known ==> (known[id] in queued <==> id in Queue() || id in PendingIds())
    {
      forall d | d in queued ensures d.id in known && known[d.id] == d && (d.id in Queue() || d.id in PendingIds()) {
        if d !in heap.items {
          var sid, id :| sid in pending && id in pending[sid] && pending[sid][id] == d;
          assert FiledIn(sid, pending[sid]);
        }
      }
      forall id | id in known && (id in Queue() || id in PendingIds()) ensures known[id] in queued {
        if id in PendingIds() {
          assert pending[known[id].sid][id] in queued;
        }
      }
    }

    // ---------- taking a session and giving it back ----------

    method TakeOne(d: Delivery)
      requires Indexed() && d in Objs() && d.id in known && known[d.id] == d
      modifies heap, Objs()`index
      ensures Indexed() && heap.Members() == old(heap.Members()) - {d}
    {
      if d.index >= 0 {
        assert d in heap.Members();
        var _ := heap.Remove(d.index);
      }
    }

    method TakeOut(m: map<Id, Delivery>)
      requires Indexed() && forall id :: id in m ==> id in known && m[id] == known[id] && m[id].id == id
      modifies heap, Objs()`index
      ensures Indexed() && heap.Members() == old(heap.Members()) - m.Values
    {
      hide Indexed;
      var todo := m.Keys;
      ghost var out: set<Delivery> := {};
      while todo != {}
        invariant todo <= m.Keys && Indexed() && heap.Members() == old(heap.Members()) - out
        invariant forall id :: id in m ==> (id in todo || m[id] in out)
        invariant out <= m.Values
        decreases |todo|
      {
        var id :| id in todo;
        TakeOne(m[id]);
        out := out + {m[id]};
        todo := todo - {id};
      }
      assert out == m.Values;
    }

    /** The first section of acquire; false if somebody else drives the session. */
    method Take(sid: Sid) returns (ok: bool)
      requires Valid()
      modifies this`exclusive, heap, Objs()`index
      ensures Valid() && ok == (sid !in old(exclusive))
      ensures Abs() == if ok then Model.Acquire(old(Abs()), sid) else old(Abs())
    {
      hide Linked, Filed, Indexed;
      Links();
      OfPending(sid);
      if sid in exclusive { return false; }
      exclusive := exclusive + {sid};
      TakeOut(Of(sid));
      Relinked(old(Queue()) - Of(sid).Keys);
      ok := true;
    }

    method IsBusy(sid: Sid) returns (busy: bool)
      requires Valid()
      ensures busy == Model.Busy(Abs(), sid)
    {
      OfPending(sid);
      MembersKnown();
      var m := Of(sid);
      var todo := m.Keys;
      while todo != {}
        invariant todo <= m.Keys && forall id :: id in m && id !in todo ==> !m[id].running
        decreases |todo|
      {
        var id :| id in todo;
        if m[id].running {
          assert id in Abs().PendingOf(sid) && Abs().dels[id].running;
          return true;
        }
        todo := todo - {id};
      }
      return false;
    }

    /** What release gives back to the heap. */
    ghost predicate Returns(m: map<Id, Delivery>, id: Id)
      reads m.Values`running, m.Values`canceled
    {
      id in m && !m[id].running && !m[id].canceled
    }

    /** The heap holds `was` and what is to be given back of `m` but for `todo`. */
    ghost predicate Given(was: set<Delivery>, m: map<Id, Delivery>, todo: set<Id>)
      reads this`known, heap, m.Values`running, m.Values`canceled
    {
      forall id :: id in known ==> (known[id] in heap.Members() <==> known[id] in was || (id !in todo && Returns(m, id)))
    }

    method PutOne(id: Id, ghost was: set<Delivery>, m: map<Id, Delivery>, ghost todo: set<Id>)
      requires Indexed() && id in m && id in known && m[id] == known[id] && id in todo && Given(was, m, todo)
      requires forall id :: id in known ==> known[id].id == id
      modifies heap, Objs()`index
      ensures Indexed() && Given(was, m, todo - {id})
    {
      var d := m[id];
      if d.index < 0 && !d.running && !d.canceled {
        heap.Push(d);
      }
    }

    method PutBack(m: map<Id, Delivery>)
      requires Indexed() && forall id :: id in m ==> id in known && m[id] == known[id]
      requires forall id :: id in known ==> known[id].id == id
      modifies heap, Objs()`index
      ensures Indexed() && Given(old(heap.Members()), m, {})
    {
      hide Indexed, Given;
      var todo := m.Keys;
      assert Given(heap.Members(), m, todo) by { NoneGiven(m); }
      while todo != {}
        invariant todo <= m.Keys && Indexed() && Given(old(heap.Members()), m, todo)
        decreases |todo|
      {
        var id :| id in todo;
        PutOne(id, old(heap.Members()), m, todo);
        todo := todo - {id};
      }
    }

    lemma NoneGiven(m: map<Id, Delivery>)
      ensures Given(heap.Members(), m, m.Keys)
    {
    }

    lemma ReturningIs(sid: Sid)
      requires Valid()
      ensures forall id :: id in Returning(Abs(), sid) ==> id in known
      ensures forall id :: id in known ==> (id in Returning(Abs(), sid) <==> Returns(Of(sid), id))
    {
      hide Linked, Filed;
      OfPending(sid);
      MembersKnown();
    }

    /** The queue part of release. */
    method Restock(sid: Sid, ghost back: set<Id>)
      requires Valid() && back <= known.Keys && forall id :: id in known ==> (id in back <==> Returns(Of(sid), id))
      modifies heap, Objs()`index
      ensures Valid() && Queue() == old(Queue()) + back
    {
      hide Linked, Filed, Indexed, Returns;
      Links();
      OfPending(sid);
      PutBack(Of(sid));
      Relinked(old(Queue()) + back);
    }

    method Release(sid: Sid)
      requires Valid()
      modifies this`exclusive, this`gone, this`offsets, heap, Objs()`index
      ensures Valid() && Abs() == Model.Release(old(Abs()), sid)
    {
      hide Valid, Dels, Queue, PendingIds, Returns;
      ReturningIs(sid);
      ghost var back := Returning(Abs(), sid);
      exclusive := exclusive - {sid};
      if sid in gone {
        gone := gone - {sid};
        offsets := offsets - {sid};
      }
      Restock(sid, back);
    }

    // ---------- the session clock ----------

    /** The deliveries in `p` are due `step` earlier than `was`, the others as then. */
    ghost predicate Slid(was: map<Id, Del>, p: set<Id>, step: int)
      reads this`known, known.Values`fireAt
    {
      && was.Keys == known.Keys
      && forall id :: id in known ==> known[id].fireAt == was[id].fireAt - (if id in p then step else 0)
    }

    twostate lemma SlidDels(new p: set<Id>, new step: int)
      requires unchanged(`known) && Slid(old(Dels()), p, step)
      requires forall d :: d in Objs() ==> d.Val() == old(d.Val()).(fireAt := d.fireAt)
      ensures Dels() == Earlier(old(Dels()), p, step)
    {
      SlidVals(old(Dels()), p, step);
    }

    /** Deliveries that differ from `was` only in their times, and these by `step`. */
    lemma SlidVals(was: map<Id, Del>, p: set<Id>, step: int)
      requires Slid(was, p, step)
      requires forall id :: id in known ==> known[id].Val() == was[id].(fireAt := known[id].fireAt)
      ensures Dels() == Earlier(was, p, step)
    {
    }

    twostate lemma SlidLinks(new was: map<Id, Del>, new p: set<Id>, new step: int)
      requires old(Linked()) && old(Slid(was, {}, 0)) && Slid(was, p, step) && unchanged(`known) && unchanged(heap)
      requires forall id :: id in p && id in known ==> known[id] !in heap.Members()
      requires forall id :: id in known ==> known[id].index == old(known[id].index)
      ensures Linked()
    {
      forall k | 0 <= k < |heap.items| ensures heap.items[k].fireAt == old(heap.items[k].fireAt) && heap.items[k].index == old(heap.items[k].index) {
        assert heap.items[k] in old(heap.Members());
      }
      assert heap.Keys() == old(heap.Keys());
    }

    /** The journal's update of one record. */
    method ReplanRecord(id: Id, fireAt: int)
      modifies this`log
      ensures log == if id in old(log) then old(log)[id := Model.Replan(old(log)[id], fireAt)] else old(log)
    {
      if id in log {
        log := log[id := if log[id].next.Some? then log[id].(next := Some(fireAt)) else log[id].(fireAt := fireAt)];
      }
    }

    /** Moves one delivery, and its record. */
    method SlideOne(id: Id, d: Delivery, step: int, ghost was: map<Id, Del>, ghost p: set<Id>)
      requires id in known && known[id] == d && id !in p && Slid(was, p, step)
      requires forall id :: id in known ==> known[id].id == id
      modifies this`log, d`fireAt
      ensures Slid(was, p + {id}, step)
      ensures log == if id in old(log) then old(log)[id := Model.Replan(old(log)[id], was[id].fireAt - step)] else old(log)
    {
      d.fireAt := d.fireAt - step;
      ReplanRecord(id, d.fireAt);
    }

    /** Moves each delivery of `m`, and its record. */
    method Slide(m: map<Id, Delivery>, step: int, ghost was: map<Id, Del>)
      requires forall id :: id in m ==> id in known && m[id] == known[id]
      requires forall id :: id in known ==> known[id].id == id
      requires Slid(was, {}, step)
      modifies this`log, m.Values`fireAt
      ensures Slid(was, m.Keys, step) && m.Keys <= was.Keys && log == Replanned(old(log), was, m.Keys, step)
    {
      hide Slid, Replanned;
      SlidKeys(was, step);
      var todo := m.Keys;
      ghost var done: set<Id> := {};
      ReplannedNone(log, was, step);
      while todo != {}
        invariant todo <= m.Keys && done == m.Keys - todo && Slid(was, done, step)
        invariant log == Replanned(old(log), was, done, step)
        decreases |todo|
      {
        var id :| id in todo;
        ReplannedMore(old(log), was, done, id, step);
        SlideOne(id, m[id], step, was, done);
        todo, done := todo - {id}, done + {id};
      }
      assert done == m.Keys;
    }

    lemma SlidKeys(was: map<Id, Del>, step: int)
      requires Slid(was, {}, step)
      ensures was.Keys == known.Keys
    {
    }

    lemma ReplannedNone(log: map<Id, Record>, dels: map<Id, Del>, step: int)
      ensures Replanned(log, dels, {}, step) == log
    {
    }

    lemma ReplannedMore(log: map<Id, Record>, dels: map<Id, Del>, p: set<Id>, id: Id, step: int)
      requires p <= dels.Keys && id in dels && id !in p
      ensures var r := Replanned(log, dels, p, step);
        Replanned(log, dels, p + {id}, step) == if id in r then r[id := Model.Replan(r[id], dels[id].fireAt - step)] else r
    {
    }

    lemma SlideReady(sid: Sid)
      requires Valid() && Abs().PendingOf(sid) !! Abs().queue
      ensures Of(sid).Keys == Abs().PendingOf(sid) <= known.Keys && Of(sid).Values <= Objs() && Abs().Off(sid) == ClockOffset(sid)
      ensures forall id :: id in Of(sid) ==> Of(sid)[id] == known[id] && known[id] !in heap.Members()
      ensures forall id :: id in known ==> known[id] in Objs() && known[id].id == id
      ensures forall step :: Slid(Dels(), {}, step)
    {
      hide Linked, Filed;
      OfPending(sid);
      MembersKnown();
    }

    /** Caller drives the session, so nothing of it is in the heap. */
    method ShiftLocked(sid: Sid, step: int)
      requires Valid() && Abs().PendingOf(sid) !! Abs().queue
      modifies this`offsets, this`log, Objs()`fireAt
      ensures Valid() && Abs() == Model.Shift(old(Abs()), sid, step)
    {
      hide Linked, Filed, Dels, Queue, PendingIds, Slid, Earlier, Replanned;
      if step > 0 {
        SlideReady(sid);
        offsets := offsets[sid := ClockOffset(sid) + step];
        Slide(Of(sid), step, old(Dels()));
        SlidDels(Of(sid).Keys, step);
        SlidLinks(old(Dels()), Of(sid).Keys, step);
      }
    }

    /** The first eligible delivery of `m` that matches, in due order. */
    method Earliest(m: map<Id, Delivery>, any: bool, event: string) returns (best: Delivery?)
      requires forall id :: id in m ==> m[id].id == id
      requires forall a, b :: a in m && b in m && a != b ==> m[a].ord != m[b].ord
      ensures best == null ==> forall id :: id in m ==> !Fits(m[id], any, event)
      ensures best != null ==>
        && best.id in m && m[best.id] == best && Fits(best, any, event)
        && forall id :: id in m && Fits(m[id], any, event) && id != best.id ==> Before(best.Val(), m[id].Val())
    {
      best := null;
      var todo := m.Keys;
      while todo != {}
        invariant todo <= m.Keys
        invariant best == null ==> forall id :: id in m && id !in todo ==> !Fits(m[id], any, event)
        invariant best != null ==>
          && best.id in m && best.id !in todo && m[best.id] == best && Fits(best, any, event)
          && forall id :: id in m && id !in todo && Fits(m[id], any, event) && id != best.id ==> Before(best.Val(), m[id].Val())
        decreases |todo|
      {
        var id :| id in todo;
        todo := todo - {id};
        var d := m[id];
        if Fits(d, any, event) && (best == null || d.fireAt < best.fireAt || (d.fireAt == best.fireAt && d.ord < best.ord)) {
          best := d;
        }
      }
    }

    predicate Fits(d: Delivery, any: bool, event: string)
      reads d
    {
      !d.canceled && !d.running && (any || d.event == event)
    }

    /** What the scan of a session's map finds is first in due order. */
    lemma PickIsFirst(sid: Sid, ids: set<Id>, best: Delivery?, any: bool, event: string)
      requires Valid()
      requires forall id :: id in known ==> (id in ids <==> id in Of(sid) && Fits(known[id], any, event))
      requires ids <= known.Keys
      requires best == null ==> forall id :: id in Of(sid) ==> !Fits(Of(sid)[id], any, event)
      requires best != null ==>
        && best.id in Of(sid) && Of(sid)[best.id] == best && Fits(best, any, event)
        && forall id :: id in Of(sid) && Fits(Of(sid)[id], any, event) && id != best.id ==> Before(best.Val(), Of(sid)[id].Val())
      ensures First(Abs(), ids) == if best == null then None else Some(best.id)
    {
      hide Linked, Filed;
      OfPending(sid);
      MembersKnown();
      if best == null {
        assert ids == {};
      } else {
        assert IsFirst(Abs(), ids, best.id);
        Compose.FirstIsFirst(Abs(), ids, best.id);
      }
    }

    lemma Distinct(sid: Sid)
      requires Valid() && Numbered(Abs())
      ensures forall id :: id in Of(sid) ==> Of(sid)[id].id == id && id in known && known[id] == Of(sid)[id]
      ensures forall a, b :: a in Of(sid) && b in Of(sid) && a != b ==> Of(sid)[a].ord != Of(sid)[b].ord
    {
      OfPending(sid);
      MembersKnown();
      forall a, b | a in Of(sid) && b in Of(sid) && a != b ensures Of(sid)[a].ord != Of(sid)[b].ord {
        assert Abs().dels[a].ord == known[a].ord && Abs().dels[b].ord == known[b].ord;
      }
    }

    lemma EligibleIs(sid: Sid)
      requires Valid()
      ensures Eligible(Abs(), sid) <= known.Keys
      ensures forall id :: id in known ==> (id in Eligible(Abs(), sid) <==> id in Of(sid) && Fits(known[id], true, ""))
    {
      hide Linked, Filed;
      OfPending(sid);
      MembersKnown();
    }

    /** The next delivery of a session in due order. */
    method EarliestLocked(sid: Sid) returns (best: Delivery?)
      requires Valid() && Numbered(Abs())
      ensures First(Abs(), Eligible(Abs(), sid)) == if best == null then None else Some(best.id)
      ensures best != null ==> best.id in known && known[best.id] == best
    {
      hide Valid, Abs, First, Eligible, Before, Numbered, Fits;
      Distinct(sid);
      EligibleIs(sid);
      best := Earliest(Of(sid), true, "");
      PickIsFirst(sid, Eligible(Abs(), sid), best, true, "");
    }

    lemma OfEventIs(sid: Sid, event: string)
      requires Valid()
      ensures OrderedDelivery.OfEvent(Abs(), sid, event) <= known.Keys
      ensures forall id :: id in known ==>
        (id in OrderedDelivery.OfEvent(Abs(), sid, event) <==> id in Of(sid) && Fits(known[id], false, event))
    {
      hide Linked, Filed;
      OfPending(sid);
      MembersKnown();
    }

    /** The delivery an item names: an id first, else the earliest of that event. */
    method FindLocked(sid: Sid, item: string) returns (best: Delivery?)
      requires Valid() && Numbered(Abs())
      ensures OrderedDelivery.Find(Abs(), sid, item) == if best == null then None else Some(best.id)
      ensures best != null ==> best.id in known && known[best.id] == best
    {
      hide Valid, Abs, First, Eligible, Before, Numbered, OrderedDelivery.OfEvent;
      Distinct(sid);
      EligibleIs(sid);
      if item in Of(sid) && !Of(sid)[item].canceled && !Of(sid)[item].running {
        return Of(sid)[item];
      }
      OfEventIs(sid, item);
      best := Earliest(Of(sid), false, item);
      PickIsFirst(sid, OrderedDelivery.OfEvent(Abs(), sid, item), best, false, item);
    }

    // ---------- one attempt ----------

    /** Queues a delivery that has been out of the heap. */
    method Requeue(d: Delivery)
      requires Valid() && d.id in known && known[d.id] == d && d !in heap.Members()
      modifies heap, heap.Members()`index, d`index
      ensures Valid() && Abs() == Model.PushLocked(old(Abs()), d.id)
    {
      hide Filed, Linked, Dels, PendingIds, Queue;
      Links();
      MembersKnown();
      SomeDel(d);
      PushLocked(d);
      Relinked(if d.sid != "" && d.sid in exclusive then old(Queue()) else old(Queue()) + {d.id});
    }

    /** Takes a delivery out of its session's map. */
    method Retire(d: Delivery)
      requires Valid() && d.id in known && known[d.id] == d
      modifies this`pending
      ensures Valid() && Abs() == old(Abs()).(pending := old(Abs()).pending - {d.id})
    {
      hide Linked, Dels, Queue;
      if d.sid in pending {
        var m := pending[d.sid] - {d.id};
        pending := if m == map[] then pending - {d.sid} else pending[d.sid := m];
      }
      RetiredIs(d);
    }

    twostate lemma RetiredIs(d: Delivery)
      requires old(Filed()) && d.id in known && known[d.id] == d && unchanged(`known) && d.id in known && known[d.id].id == d.id
      requires pending == if d.sid !in old(pending) then old(pending)
        else if old(pending)[d.sid] - {d.id} == map[] then old(pending) - {d.sid}
        else old(pending)[d.sid := old(pending)[d.sid] - {d.id}]
      ensures Filed() && PendingIds() == old(PendingIds()) - {d.id}
    {
      forall id | id in known ensures id in PendingIds() <==> id in old(PendingIds()) && id != d.id {
        assert id != d.id && d.sid in old(pending) && id in old(pending)[d.sid] ==> id in old(pending)[d.sid] - {d.id};
      }
    }

    /** The section that requeues a retry or retires the delivery. */
    method Settle(d: Delivery, status: Status)
      requires Valid() && d.id in known && known[d.id] == d && d !in heap.Members()
      modifies this`pending, heap, heap.Members()`index, d`index, d`running
      ensures Valid() && Abs() == Model.Settle(old(Abs()), d.id, status)
    {
      hide Valid, Abs;
      Unmark(d);
      if status == Retrying {
        Requeue(d);
      } else {
        Retire(d);
      }
    }

    method Unmark(d: Delivery)
      requires Valid() && d.id in known && known[d.id] == d
      modifies d`running
      ensures Valid() && Abs() == Model.Unmark(old(Abs()), d.id)
    {
      hide Valid, Abs;
      SomeDel(d);
      d.running := false;
      Rewritten(d);
    }

    lemma SomeDel(d: Delivery)
      requires Valid() && d.id in known && known[d.id] == d
      ensures d.id in Abs().dels && Abs().dels[d.id] == d.Val() && Abs().log == log
      ensures Queue() <= known.Keys && forall id :: id in known ==> known[id].id == id
    {
    }

    method Mark(d: Delivery)
      requires Valid() && d.id in known && known[d.id] == d
      modifies d`running
      ensures Valid() && Abs() == Model.Mark(old(Abs()), d.id)
    {
      hide Valid, Abs;
      SomeDel(d);
      d.running := true;
      Rewritten(d);
    }

    method Begin(d: Delivery)
      requires Valid() && d.id in known && known[d.id] == d
      modifies d`attempts
      ensures Valid() && Abs() == Model.Begin(old(Abs()), d.id)
    {
      hide Valid, Abs;
      SomeDel(d);
      d.attempts := d.attempts + 1;
      Rewritten(d);
    }

    method MarkFirst(d: Delivery)
      requires Valid() && d.id in known && known[d.id] == d
      modifies d`firstFired
      ensures Valid() && Abs() == Model.MarkFirst(old(Abs()), d.id)
    {
      hide Valid, Abs;
      SomeDel(d);
      d.firstFired := true;
      Rewritten(d);
    }

    /** The receiver has answered: the journal notes it, and a retry gets its time. */
    method Note(d: Delivery, t: Try, next: int)
      requires Valid() && d.id in known && known[d.id] == d && d !in heap.Members()
      modifies this`log, d`fireAt
      ensures Valid() && Abs() == Model.Answer(old(Abs()), d.id, t, next)
    {
      hide Valid, Abs;
      SomeDel(d);
      var status := Verdict(t.num, d.maxAttempts, t.ok);
      if d.id in log {
        log := log[d.id := Noted(log[d.id], t, status, next)];
      }
      if status == Retrying {
        d.fireAt := next;
      }
      Rewritten(d);
    }

    /** One attempt at time `at`; a canceled delivery is only put down. */
    method Attempt<E>(w: World<E>, d: Delivery, at: int) returns (num: nat, status: Status)
      requires Valid() && d.id in known && known[d.id] == d && d !in heap.Members()
      modifies this`pending, this`log, heap, heap.Members()`index, d
      ensures Valid()
      ensures Abs() == if old(d.canceled) then Model.Unmark(old(Abs()), d.id) else Attempted(w, old(Abs()), d.id, at)
      ensures num == (if old(d.canceled) then 0 else old(d.attempts) + 1)
      ensures status == if old(d.canceled) then Canceled
        else Verdict(num, d.maxAttempts, w.answer(d.id, num, at + old(Abs()).Off(d.sid)))
    {
      hide Valid, Dels, Queue, PendingIds, Model.Answer, Model.Settle;
      SomeDel(d);
      if d.canceled {
        Unmark(d);
        return 0, Canceled;
      }
      var off := ClockOffset(d.sid);
      Begin(d);
      SomeDel(d);
      num := d.attempts;
      var ok := w.answer(d.id, num, at + off);
      status := Verdict(num, d.maxAttempts, ok);
      BegunKnown(old(Abs()), d.id);
      Note(d, Try(num, at, ok), at + w.retry(d.id, num));
      Settle(d, status);
    }

    lemma BegunKnown(s: Shared, id: Id)
      requires id in s.dels
      ensures Model.Begin(s, id).dels.Keys == s.dels.Keys
    {
    }

    function ClockOffset(sid: Sid): (off: int)
      reads this`offsets
    {
      if sid in offsets then offsets[sid] else 0
    }

    // ---------- the callback's deliveries ----------

    /** Whatever was known still is, and what is new is freshly allocated. */
    twostate predicate Extends()
      reads this
    {
      && (forall id :: id in old(known) ==> id in known && known[id] == old(known[id]))
      && (forall id :: id in known && id !in old(known) ==> fresh(known[id]))
    }

    method Schedule<E>(w: World<E>, sid: Sid, r: Request, now: int)
      requires Valid() && w.newID(issued + 1) !in known
      modifies this, heap, Objs()
      ensures Valid() && Extends() && Abs() == Replay.Schedule(w, old(Abs()), sid, r, now)
    {
      hide Valid, Dels, Queue, PendingIds, Model.Enqueue;
      var d := new Delivery(w.newID(issued + 1), sid, r, now);
      log := log[d.id := Record(d.id, sid, d.target, d.event, Pending, [], d.fireAt, None)];
      Enqueue(d);
    }

    lemma NextIdFresh<E>(w: World<E>)
      requires Valid() && FreshIds(w, Abs())
      ensures w.newID(issued + 1) !in known
    {
      MembersKnown();
    }

    lemma ScheduleKeepsFresh<E>(w: World<E>, s: Shared, sid: Sid, r: Request, now: int)
      requires FreshIds(w, s)
      ensures FreshIds(w, Replay.Schedule(w, s, sid, r, now))
    {
    }

    method ScheduleEach<E>(w: World<E>, sid: Sid, rs: seq<Request>, now: int)
      requires Valid() && FreshIds(w, Abs())
      modifies this, heap, Objs()
      ensures Valid() && Extends() && Abs() == ScheduleAll(w, old(Abs()), sid, rs, now)
    {
      hide Valid, Abs, Replay.Schedule, FreshIds;
      for k := 0 to |rs|
        invariant Valid() && Extends() && FreshIds(w, Abs())
        invariant ScheduleAll(w, Abs(), sid, rs[k..], now) == ScheduleAll(w, old(Abs()), sid, rs, now)
      {
        NextIdFresh(w);
        ScheduleKeepsFresh(w, Abs(), sid, rs[k], now);
        assert rs[k..][1..] == rs[k + 1..] && rs[k..][0] == rs[k];
        Schedule(w, sid, rs[k], now);
      }
      assert rs[|rs|..] == [];
    }

    lemma MarkKeepsFresh<E>(w: World<E>, s: Shared, id: Id)
      requires FreshIds(w, s) && id in s.dels
      ensures FreshIds(w, Model.MarkFirst(s, id))
    {
    }

    /** The callback of a first attempt and what it schedules. */
    method Follow<E>(w: World<E>, env: E, d: Delivery, at: int) returns (env1: E)
      requires Valid() && d.id in known && known[d.id] == d && FreshIds(w, Abs())
      modifies this, heap, Objs()
      ensures Valid() && Extends() && d.id in old(Abs()).dels && (Abs(), env1) == Followed(w, old(Abs()), env, d.id, at)
    {
      hide Valid, Abs, FreshIds, ScheduleAll, Model.MarkFirst;
      SomeDel(d);
      env1 := env;
      if d.attempts == 1 && d.onFirst.Some? && !d.firstFired {
        PendingCountIs(d.sid);
        var reaction := w.react(env, d.onFirst.value, at, ClockOffset(d.sid), PendingCount(d.sid));
        env1 := reaction.0;
        MarkKeepsFresh(w, Abs(), d.id);
        MarkFirst(d);
        ScheduleEach(w, d.sid, reaction.1, at);
      }
    }

    function PendingCount(sid: Sid): nat
      reads this`pending
    {
      |Of(sid)|
    }

    lemma PendingCountIs(sid: Sid)
      requires Valid()
      ensures PendingCount(sid) == |Abs().PendingOf(sid)| && Abs().Off(sid) == ClockOffset(sid)
    {
      OfPending(sid);
      assert |Of(sid)| == |Of(sid).Keys|;
    }

    lemma AttemptKeepsFresh<E>(w: World<E>, s: Shared, id: Id, at: int)
      requires FreshIds(w, s) && id in s.dels
      ensures FreshIds(w, Attempted(w, s, id, at)) && id in Attempted(w, s, id, at).dels
    {
      hide Attempted;
      AttemptTries(w, s, id, at);
      SameFresh(w, s, Attempted(w, s, id, at));
    }

    /** The attempt and the callback of a delivery that is not canceled. */
    method FireLive<E>(w: World<E>, env: E, d: Delivery, at: int) returns (env1: E, num: nat, status: Status)
      requires Valid() && d.id in known && known[d.id] == d && d !in heap.Members() && FreshIds(w, Abs()) && !d.canceled
      modifies this, heap, Objs()
      ensures Valid() && Extends() && d.id in old(Abs()).dels && d.id in Attempted(w, old(Abs()), d.id, at).dels
      ensures (Abs(), env1) == Followed(w, Attempted(w, old(Abs()), d.id, at), env, d.id, at)
      ensures num == old(d.attempts) + 1
      ensures status == Verdict(num, d.maxAttempts, w.answer(d.id, num, at + old(Abs()).Off(d.sid)))
    {
      hide Valid, Abs, FreshIds, Attempted, Followed;
      SomeDel(d);
      MembersKnown();
      AttemptKeepsFresh(w, Abs(), d.id, at);
      num, status := Attempt(w, d, at);
      env1 := Follow(w, env, d, at);
    }

    /** One attempt made by a driver, with its callback, and the report of it. */
    method Fire<E>(w: World<E>, env: E, d: Delivery, at: int) returns (env1: E, fired: Fired)
      requires Valid() && d.id in known && known[d.id] == d && d !in heap.Members() && FreshIds(w, Abs())
      modifies this, heap, Objs()
      ensures Valid() && Extends() && d.id in old(Abs()).dels
      ensures After(Abs(), env1, fired) == Replay.Fire(w, old(Abs()), env, d.id, at)
    {
      hide Valid, Abs, FreshIds, Attempted, Followed, Model.Unmark;
      SomeDel(d);
      PendingCountIs(d.sid);
      MembersKnown();
      var off := ClockOffset(d.sid);
      fired := Fired(d.id, d.event, at + off, 0, Canceled, d.fireAt + off, d.ord);
      if d.canceled {
        Unmark(d);
        env1 := env;
      } else {
        var num, status;
        env1, num, status := FireLive(w, env, d, at);
        fired := fired.(num := num, result := status);
      }
    }

    // ---------- driving a session ----------

    lemma ChosenPlace<E>(w: World<E>, s: Shared, sid: Sid, id: Id)
      requires Driven(s, sid) && FreshIds(w, s) && id in s.PendingOf(sid)
      ensures id in s.dels && id !in s.queue && FreshIds(w, Model.Mark(s, id))
    {
    }

    lemma ShiftedPlace<E>(w: World<E>, s: Shared, sid: Sid, step: nat, id: Id)
      requires Driven(s, sid) && FreshIds(w, s) && First(s, Eligible(s, sid)) == Some(id)
      ensures s.PendingOf(sid) !! s.queue && id in s.dels
      ensures var t := Model.Shift(s, sid, step); Driven(t, sid) && FreshIds(w, t) && id in t.PendingOf(sid)
    {
      hide Driven, Numbered;
      Queueless(s, sid);
      ShiftDriven(s, sid, step);
      ShiftKeepsDue(s, sid, step);
      ShiftKeepsOthers(s, sid, step);
      SameFresh(w, s, Model.Shift(s, sid, step));
    }

    lemma Queueless(s: Shared, sid: Sid)
      requires Driven(s, sid)
      ensures s.PendingOf(sid) !! s.queue && s.pending <= s.dels.Keys && Numbered(s) && sid !in s.gone
    {
    }

    /** Marks a delivery of the driven session and attempts it. */
    method Send<E>(w: World<E>, env: E, sid: Sid, d: Delivery, at: int) returns (env1: E, fired: Fired)
      requires Valid() && d.id in known && known[d.id] == d && Driven(Abs(), sid) && FreshIds(w, Abs()) && d.id in Abs().PendingOf(sid)
      modifies this, heap, Objs()
      ensures Valid() && Extends() && d.id in old(Abs()).dels
      ensures After(Abs(), env1, fired) == Replay.Fire(w, Model.Mark(old(Abs()), d.id), env, d.id, at)
    {
      hide Valid, Abs, Driven, FreshIds, Replay.Fire, Model.Mark;
      ChosenPlace(w, Abs(), sid, d.id);
      MembersKnown();
      Mark(d);
      env1, fired := Fire(w, env, d, at);
    }

    /** One round of the loop of Advance. */
    method Turn<E>(w: World<E>, env: E, sid: Sid, d: Delivery, step: nat, i: nat) returns (env1: E, fired: Fired)
      requires Valid() && d.id in known && known[d.id] == d && Driven(Abs(), sid) && FreshIds(w, Abs())
      requires First(Abs(), Eligible(Abs(), sid)) == Some(d.id)
      modifies this, heap, Objs()
      ensures Valid() && Extends() && d.id in old(Abs()).dels
      ensures After(Abs(), env1, fired) == Round(w, old(Abs()), env, sid, d.id, step, i)
    {
      hide Valid, Abs, Driven, FreshIds, Replay.Fire, Model.Mark, Model.Shift, First;
      ShiftedPlace(w, Abs(), sid, step, d.id);
      ShiftLocked(sid, step);
      env1, fired := Send(w, env, sid, d, w.clock(2 * i + 1));
    }

    lemma TurnKeeps<E(!new)>(w: World<E>, s: Shared, env: E, sid: Sid, id: Id, i: nat)
      requires Forward(w) && FreshIds(w, s) && Driven(s, sid) && First(s, Eligible(s, sid)) == Some(id)
      ensures id in s.dels
      ensures var r := Round(w, s, env, sid, id, StepTo(w.clock(2 * i), s.dels[id].fireAt), i).s; Driven(r, sid) && FreshIds(w, r)
    {
      hide Driven, Forward, FreshIds, Round;
      ReplayOrder.RoundSweeps(w, s, env, sid, id, i);
    }

    /** The next delivery due within `remaining`, and how far off it is. */
    method NextDue(sid: Sid, now: int, remaining: nat) returns (next: Delivery?, step: nat)
      requires Valid() && Numbered(Abs())
      ensures next != null ==>
        && sid !in Abs().gone && First(Abs(), Eligible(Abs(), sid)) == Some(next.id)
        && next.id in known && known[next.id] == next && next.id in Abs().dels
        && step == StepTo(now, Abs().dels[next.id].fireAt) <= remaining
      ensures next == null ==>
        && var first := First(Abs(), Eligible(Abs(), sid));
        && (sid in Abs().gone || first.None?
            || (first.value in Abs().dels && StepTo(now, Abs().dels[first.value].fireAt) > remaining))
    {
      hide Valid, Abs, First, Eligible, Numbered;
      MembersKnown();
      step := 0;
      if sid in gone { return null, 0; }
      next := EarliestLocked(sid);
      if next == null { return; }
      SomeDel(next);
      step := StepTo(now, next.fireAt);
      if step > remaining { next := null; }
    }

    /** The loop of Advance. */
    method AdvanceFrom<E(!new)>(w: World<E>, env: E, sid: Sid, span: nat)
      returns (env1: E, fired: seq<Fired>, partial: bool, remaining: nat)
      requires Valid() && Forward(w) && FreshIds(w, Abs()) && Driven(Abs(), sid)
      modifies this, heap, Objs()
      ensures Valid() && Extends() && Driven(Abs(), sid)
      ensures AdvanceLoop(w, old(Abs()), env, sid, span, []) == Outcome(Abs(), env1, fired, partial, remaining)
    {
      hide Valid, Abs, Forward, FreshIds, Driven, First, Eligible, Round, Numbered;
      env1, fired, remaining := env, [], span;
      ghost var goal := AdvanceLoop(w, Abs(), env, sid, span, []);
      while true
        invariant Valid() && Extends() && FreshIds(w, Abs()) && Driven(Abs(), sid)
        invariant AdvanceLoop(w, Abs(), env1, sid, remaining, fired) == goal
        decreases CAP - |fired|
      {
        var i := |fired|;
        if w.expired(i) || i >= CAP {
          partial := true;
          return;
        }
        Queueless(Abs(), sid);
        partial := false;
        var next, step := NextDue(sid, w.clock(2 * i), remaining);
        if next == null { return; }
        TurnKeeps(w, Abs(), env1, sid, next.id, i);
        var f;
        env1, f := Turn(w, env1, sid, next, step, i);
        remaining, fired := remaining - step, fired + [f];
      }
    }

    lemma IdleAcquires<E>(w: World<E>, s: Shared, sid: Sid)
      requires Idle(s, sid) && FreshIds(w, s)
      ensures sid !in s.exclusive && Driven(Model.Acquire(s, sid), sid) && FreshIds(w, Model.Acquire(s, sid))
    {
      hide FreshIds, Driven;
      AcquireDrives(s, sid);
      Compose.AcquireFresh(w, s, sid);
    }

    /** Moves the clock over what is left of the window. */
    method FinishShift(sid: Sid, partial: bool, remaining: int) returns (offset: int)
      requires Valid() && Driven(Abs(), sid)
      modifies this`offsets, this`log, Objs()`fireAt
      ensures Valid() && Abs() == if !partial && sid !in old(Abs()).gone then Model.Shift(old(Abs()), sid, remaining) else old(Abs())
      ensures offset == Abs().Off(sid)
    {
      hide Valid, Abs, Driven, Model.Shift;
      Queueless(Abs(), sid);
      MembersKnown();
      if !partial && sid !in gone {
        ShiftLocked(sid, remaining);
      }
      PendingCountIs(sid);
      offset := ClockOffset(sid);
    }

    /** Advance, from an acquired and quiet session to its release. */
    method AdvanceHeld<E(!new)>(w: World<E>, env: E, sid: Sid, span: nat) returns (env1: E, res: Advanced)
      requires Valid() && Forward(w) && FreshIds(w, Abs()) && Driven(Abs(), sid)
      modifies this, heap, Objs()
      ensures Valid() && Extends() && res.Advanced?
      ensures var o := AdvanceLoop(w, old(Abs()), env, sid, span, []);
        && Abs() == Model.Release(Finish(o, sid), sid) && env1 == o.env && res.fired == o.fired && res.partial == o.partial
        && res.offset == Finish(o, sid).Off(sid)
    {
      hide Valid, Abs, Forward, FreshIds, Driven, Model.Release, Model.Shift, AdvanceLoop;
      var fired, partial, remaining;
      env1, fired, partial, remaining := AdvanceFrom(w, env, sid, span);
      var offset := FinishShift(sid, partial, remaining);
      MembersKnown();
      Release(sid);
      res := Advanced(fired, partial, offset);
    }

    lemma BusyAcquires(s: Shared, sid: Sid)
      ensures Busy(Model.Acquire(s, sid), sid) == Busy(s, sid)
    {
      assert Model.Acquire(s, sid).PendingOf(sid) == s.PendingOf(sid);
    }

    /** Takes a session for its caller. An attempt of it that is still running is
        waited for; here nobody else acts, so that wait ends with the caller's deadline
        and the session is given back. */
    method Obtain(sid: Sid) returns (why: Option<Refusal>)
      requires Valid()
      modifies this`exclusive, this`gone, this`offsets, heap, Objs()`index
      ensures Valid()
      ensures why == (if sid in old(Abs()).exclusive then Some(SessionBusy) else if Busy(old(Abs()), sid) then Some(DeadlineReached) else None)
      ensures Abs() == Obtained(old(Abs()), sid)
    {
      hide Valid, Abs, Model.Acquire, Model.Release, Busy;
      MembersKnown();
      BusyAcquires(Abs(), sid);
      var ok := Take(sid);
      if !ok { return Some(SessionBusy); }
      var busy := IsBusy(sid);
      if busy {
        Release(sid);
        return Some(DeadlineReached);
      }
      return None;
    }

    /** When a call is cut short, and where it leaves the session's clock. */
    lemma CallEnds<E(!new)>(w: World<E>, s: Shared, env: E, sid: Sid, span: nat)
      requires Forward(w) && FreshIds(w, s) && Idle(s, sid)
      ensures var o, p := AdvanceLoop(w, Model.Acquire(s, sid), env, sid, span, []), Replay.Advance(w, s, env, sid, span);
        && p.fired == o.fired && p.partial == o.partial && (p.partial <==> w.expired(|p.fired|) || |p.fired| >= 1000)
        && Finish(o, sid).Off(sid) == p.s.Off(sid)
    {
      hide AdvanceLoop, Forward, FreshIds, Idle, InOrder, Finish, Model.Acquire, Model.Release;
      AdvanceReplays(w, s, env, sid, span);
      AdvanceOffset(w, s, env, sid, span);
    }

    /** Advance. What is asked of the session is what every run of the protocol keeps. */
    method Advance<E(!new)>(w: World<E>, env: E, sid: Sid, span: int) returns (env1: E, res: Advanced)
      requires Valid() && Forward(w) && FreshIds(w, Abs())
      requires sid != "" && sid !in Abs().exclusive && !Busy(Abs(), sid) ==> Idle(Abs(), sid)
      modifies this, heap, Objs()
      ensures Valid() && Extends()
      ensures res.Refused? <==> sid == "" || span < 0 || sid in old(Abs()).exclusive || Busy(old(Abs()), sid)
      ensures res.Refused? ==> env1 == env && Abs() == if sid == "" || span < 0 then old(Abs()) else Obtained(old(Abs()), sid)
      ensures res.Advanced? ==>
        && var o := Replay.Advance(w, old(Abs()), env, sid, span);
        && Abs() == o.s && env1 == o.env && res.fired == o.fired && res.partial == o.partial && res.offset == Abs().Off(sid)
      ensures res.Advanced? ==> (res.partial <==> w.expired(|res.fired|) || |res.fired| >= 1000)
      ensures sid == "" ==> res == Refused(NoSession)
      ensures sid != "" && span < 0 ==> res == Refused(Backward)
      ensures sid != "" && span >= 0 && sid in old(Abs()).exclusive ==> res == Refused(SessionBusy)
      ensures sid != "" && span >= 0 && sid !in old(Abs()).exclusive && Busy(old(Abs()), sid) ==> res == Refused(DeadlineReached)
    {
      hide Valid, Abs, Forward, FreshIds, Driven, Idle, Model.Acquire, Model.Release, Finish, AdvanceLoop, Busy;
      env1 := env;
      if sid == "" { return env, Refused(NoSession); }
      if span < 0 { return env, Refused(Backward); }
      MembersKnown();
      if sid !in exclusive && !Busy(Abs(), sid) {
        IdleAcquires(w, Abs(), sid);
        CallEnds(w, Abs(), env, sid, span);
      }
      var why := Obtain(sid);
      if why.Some? { return env, Refused(why.value); }
      env1, res := AdvanceHeld(w, env, sid, span);
    }

    lemma SendKeeps<E(!new)>(w: World<E>, s: Shared, env: E, sid: Sid, item: string, fired: seq<Fired>)
      requires Forward(w) && FreshIds(w, s) && Driven(s, sid) && OrderedDelivery.Find(s, sid, item).Some?
      ensures var id := OrderedDelivery.Find(s, sid, item).value;
        && id in s.dels && id in s.PendingOf(sid)
        && var r := Replay.Fire(w, Model.Mark(s, id), env, id, w.clock(2 * |fired| + 1)).s; Driven(r, sid) && FreshIds(w, r)
    {
      hide Driven, Forward, FreshIds, OrderedDelivery.Find, Replay.Fire;
      OrderedDelivery.FindPending(s, sid, item);
      var id := OrderedDelivery.Find(s, sid, item).value;
      OrderedDelivery.FireSpares(w, s, env, sid, id, fired, id);
    }

    /** The loop of DeliverNow. */
    method DeliverFrom<E(!new)>(w: World<E>, env: E, sid: Sid, items: seq<string>)
      returns (env1: E, fired: seq<Fired>, partial: bool, missing: Option<string>)
      requires Valid() && Forward(w) && FreshIds(w, Abs()) && Driven(Abs(), sid)
      modifies this, heap, Objs()
      ensures Valid() && Extends() && Driven(Abs(), sid)
      ensures OrderedDelivery.DeliverLoop(w, old(Abs()), env, sid, items, [])
        == OrderedDelivery.Sent(Abs(), env1, fired, partial, missing)
    {
      hide Valid, Abs, Forward, FreshIds, Driven, First, Replay.Fire, Model.Mark, Numbered, OrderedDelivery.Find;
      env1, fired, partial, missing := env, [], false, None;
      ghost var goal := OrderedDelivery.DeliverLoop(w, Abs(), env, sid, items, []);
      for k := 0 to |items|
        invariant Valid() && Extends() && FreshIds(w, Abs()) && Driven(Abs(), sid) && |fired| == k && !partial && missing == None
        invariant OrderedDelivery.DeliverLoop(w, Abs(), env1, sid, items[k..], fired) == goal
      {
        assert items[k..][0] == items[k] && items[k..][1..] == items[k + 1..];
        if w.expired(k) {
          partial := true;
          return;
        }
        var found := NextNamed(sid, items[k]);
        if found == null {
          missing := Some(items[k]);
          return;
        }
        SendKeeps(w, Abs(), env1, sid, items[k], fired);
        var f;
        env1, f := Send(w, env1, sid, found, w.clock(2 * k + 1));
        fired := fired + [f];
      }
    }

    method NextNamed(sid: Sid, item: string) returns (found: Delivery?)
      requires Valid() && Driven(Abs(), sid)
      ensures OrderedDelivery.Find(Abs(), sid, item) == if found == null then None else Some(found.id)
      ensures sid !in Abs().gone && (found != null ==> found.id in known && known[found.id] == found)
    {
      hide Valid, Abs, Driven, Numbered, OrderedDelivery.Find;
      Queueless(Abs(), sid);
      found := FindLocked(sid, item);
    }

    /** DeliverNow. What is asked of the session is what every run of the protocol keeps. */
    method DeliverNow<E(!new)>(w: World<E>, env: E, sid: Sid, items: seq<string>) returns (env1: E, res: Sending)
      requires Valid() && Forward(w) && FreshIds(w, Abs())
      requires sid != "" && sid !in Abs().exclusive && !Busy(Abs(), sid) ==> Idle(Abs(), sid)
      modifies this, heap, Objs()
      ensures Valid() && Extends()
      ensures res.Denied? <==> sid == "" || items == [] || sid in old(Abs()).exclusive || Busy(old(Abs()), sid)
      ensures res.Denied? ==> env1 == env && Abs() == if sid == "" || items == [] then old(Abs()) else Obtained(old(Abs()), sid)
      ensures res.Sending? ==>
        && var o := OrderedDelivery.DeliverNow(w, old(Abs()), env, sid, items);
        && Abs() == o.s && env1 == o.env && res.fired == o.fired && res.partial == o.partial && res.missing == o.missing
      ensures res.Sending? ==> (res.partial <==> |res.fired| < |items| && w.expired(|res.fired|))
      ensures res.Sending? ==> (res.missing.Some? <==> !res.partial && |res.fired| < |items|)
      ensures sid == "" ==> res == Denied(NoSession)
      ensures sid != "" && items == [] ==> res == Denied(NoItems)
      ensures sid != "" && items != [] && sid in old(Abs()).exclusive ==> res == Denied(SessionBusy)
      ensures sid != "" && items != [] && sid !in old(Abs()).exclusive && Busy(old(Abs()), sid) ==> res == Denied(DeadlineReached)
    {
      hide Valid, Abs, Forward, FreshIds, Driven, Idle, Model.Acquire, Model.Release, OrderedDelivery.DeliverLoop, Busy;
      env1 := env;
      if sid == "" { return env, Denied(NoSession); }
      if items == [] { return env, Denied(NoItems); }
      MembersKnown();
      if sid !in exclusive && !Busy(Abs(), sid) {
        IdleAcquires(w, Abs(), sid);
        OrderedDelivery.DeliverNowStops(w, Abs(), env, sid, items);
      }
      var why := Obtain(sid);
      if why.Some? { return env, Denied(why.value); }
      var fired, partial, missing;
      env1, fired, partial, missing := DeliverFrom(w, env, sid, items);
      MembersKnown();
      Release(sid);
      res := Sending(fired, partial, missing);
    }

    // ---------- the scheduler ----------

    lemma TopFirst()
      requires heap.Valid() && heap.items != []
      ensures heap.items[0] in heap.Members()
      ensures forall d :: d in heap.Members() ==> heap.items[0].fireAt <= d.fireAt
    {
      forall d | d in heap.Members() ensures heap.items[0].fireAt <= d.fireAt {
        var k :| 0 <= k < |heap.items| && heap.items[k] == d;
        RootFirst(heap.Keys(), k, |heap.items|);
        assert heap.Keys()[0] == heap.items[0].fireAt && heap.Keys()[k] == d.fireAt;
      }
    }

    /** Part of the way through a scan of a heap that held `was` and now holds `left`. */
    ghost predicate Scanning(was: set<Delivery>, left: set<Delivery>, now: int, due: seq<Delivery>, dropped: set<Delivery>)
      reads was`fireAt, was`canceled
    {
      var taken := set d | d in due;
      && taken <= was && dropped <= was && taken !! dropped && left == was - taken - dropped
      && (forall i, j :: 0 <= i < j < |due| ==> due[i] != due[j] && due[i].fireAt <= due[j].fireAt)
      && (forall d :: d in due ==> !d.canceled && d.fireAt <= now)
      && (forall d :: d in dropped ==> d.canceled)
      && (forall d, e :: d in due && e in left ==> d.fireAt <= e.fireAt)
    }

    lemma ScanDrops(was: set<Delivery>, left: set<Delivery>, now: int, due: seq<Delivery>, dropped: set<Delivery>, top: Delivery)
      requires Scanning(was, left, now, due, dropped) && top in left && top.canceled
      ensures Scanning(was, left - {top}, now, due, dropped + {top})
    {
    }

    lemma ScanTakes(was: set<Delivery>, left: set<Delivery>, now: int, due: seq<Delivery>, dropped: set<Delivery>, top: Delivery)
      requires Scanning(was, left, now, due, dropped) && top in left && !top.canceled && top.fireAt <= now
      requires forall d :: d in left ==> top.fireAt <= d.fireAt
      ensures Scanning(was, left - {top}, now, due + [top], dropped)
    {
      assert (set d | d in due + [top]) == (set d | d in due) + {top};
    }

    lemma ScanStarts(was: set<Delivery>, now: int)
      ensures Scanning(was, was, now, [], {})
    {
    }

    ghost function Attempting(): set<Delivery>
      reads this`known, known.Values`running
    {
      set d | d in Objs() && d.running
    }

    /** Every delivery has the flag it had in `was`, or is in `due`. */
    ghost predicate Started(objs: set<Delivery>, was: set<Delivery>, due: seq<Delivery>)
      reads objs`running
    {
      forall d :: d in objs ==> d.running == (d in was || d in due)
    }

    /** What the scan's early exit finds at the top. */
    ghost predicate Rests(left: set<Delivery>, now: int, wait: int)
      reads left`fireAt, left`canceled
    {
      && (left == {} ==> wait == HOUR)
      && (left != {} ==> wait > 0 && exists top :: top in left && !top.canceled && top.fireAt == now + wait)
      && (forall d :: d in left ==> d.fireAt >= now + wait)
    }

    method PopTop() returns (d: Delivery)
      requires Indexed() && heap.items != []
      modifies heap, Objs()`index
      ensures Indexed() && d == old(heap.items[0]) && d in Objs() && heap.Members() == old(heap.Members()) - {d}
      ensures |heap.Members()| < |old(heap.Members())|
    {
      TopFirst();
      d := heap.Pop();
    }

    method Start(d: Delivery, ghost objs: set<Delivery>, ghost busy: set<Delivery>, ghost due: seq<Delivery>)
      requires Started(objs, busy, due)
      modifies d`running
      ensures Started(objs, busy, due + [d])
    {
      d.running := true;
    }

    /** Takes the top, which is due. */
    method TakeTop(now: int, due: seq<Delivery>, ghost was: set<Delivery>, ghost dropped: set<Delivery>, ghost busy: set<Delivery>)
      returns (due1: seq<Delivery>)
      requires Indexed() && Scanning(was, heap.Members(), now, due, dropped) && Started(Objs(), busy, due)
      requires heap.items != [] && !heap.items[0].canceled && heap.items[0].fireAt <= now
      modifies heap, Objs()`index, Objs()`running
      ensures Indexed() && Scanning(was, heap.Members(), now, due1, dropped) && Started(Objs(), busy, due1)
      ensures |heap.Members()| < |old(heap.Members())|
    {
      hide Indexed, Scanning, Started, heap.Valid;
      IndexedHeap();
      TopFirst();
      ScanTakes(was, heap.Members(), now, due, dropped, heap.items[0]);
      var d := PopTop();
      Start(d, Objs(), busy, due);
      due1 := due + [d];
    }

    /** Deals with the top of the heap; false if that is to wait. */
    method ScanTop(now: int, due: seq<Delivery>, ghost was: set<Delivery>, ghost dropped: set<Delivery>, ghost busy: set<Delivery>)
      returns (more: bool, due1: seq<Delivery>, ghost dropped1: set<Delivery>, wait: int)
      requires Indexed() && heap.items != [] && Scanning(was, heap.Members(), now, due, dropped) && Started(Objs(), busy, due)
      modifies heap, Objs()`index, Objs()`running
      ensures Indexed() && Scanning(was, heap.Members(), now, due1, dropped1) && Started(Objs(), busy, due1)
      ensures more ==> |heap.Members()| < |old(heap.Members())| && wait == HOUR
      ensures !more ==> Rests(heap.Members(), now, wait)
    {
      hide Indexed, Scanning, Started, heap.Valid;
      more, due1, dropped1, wait := true, due, dropped, HOUR;
      var top := heap.items[0];
      IndexedHeap();
      TopFirst();
      if top.canceled {
        ScanDrops(was, heap.Members(), now, due, dropped, top);
        var _ := PopTop();
        dropped1 := dropped + {top};
      } else if top.fireAt > now {
        more, wait := false, top.fireAt - now;
      } else {
        due1 := TakeTop(now, due, was, dropped, busy);
      }
    }

    /** Empties the heap of what is due or canceled. */
    method Drain(now: int) returns (due: seq<Delivery>, ghost dropped: set<Delivery>, wait: int)
      requires Indexed()
      modifies heap, Objs()`index, Objs()`running
      ensures Indexed() && Scanning(old(heap.Members()), heap.Members(), now, due, dropped) && Rests(heap.Members(), now, wait)
      ensures Started(Objs(), old(Attempting()), due)
    {
      hide Indexed, Scanning;
      due, dropped, wait := [], {}, HOUR;
      ghost var was := heap.Members();
      ghost var busy := Attempting();
      ScanStarts(was, now);
      while |heap.items| > 0
        invariant Indexed() && Scanning(was, heap.Members(), now, due, dropped) && Started(Objs(), busy, due) && wait == HOUR
        decreases |heap.Members()|
      {
        var more;
        more, due, dropped, wait := ScanTop(now, due, was, dropped, busy);
        if !more { return; }
      }
    }

    lemma IndexedHeap()
      requires Indexed()
      ensures heap.Valid()
    {
    }

    function Ids(ds: seq<Delivery>): (r: seq<Id>)
      ensures |r| == |ds| && forall k :: 0 <= k < |ds| ==> r[k] == ds[k].id
    {
      seq(|ds|, k requires 0 <= k < |ds| => ds[k].id)
    }

    ghost function IdsIn(objs: set<Delivery>): set<Id>
      reads this`known
    {
      set id | id in known && known[id] in objs
    }

    lemma IdsOf(ds: seq<Delivery>)
      requires forall d :: d in ds ==> d.id in known && known[d.id] == d
      requires forall id :: id in known ==> known[id].id == id
      ensures forall id :: id in Ids(ds) ==> id in known && known[id] in ds
      ensures forall id :: id in known ==> (id in Ids(ds) <==> known[id] in ds)
    {
      forall id | id in known && known[id] in ds ensures id in Ids(ds) {
        var k :| 0 <= k < |ds| && ds[k] == known[id];
        assert Ids(ds)[k] == id;
      }
    }

    /** What a scan leaves, by id. */
    lemma DrainRests(left: set<Delivery>, now: int, wait: int)
      requires Valid() && left <= heap.Members() && Rests(left, now, wait)
      ensures var s, rest := Abs(), IdsIn(left);
        && rest <= s.dels.Keys
        && (rest == {} ==> wait == HOUR)
        && (rest != {} ==> wait > 0 && exists top :: top in rest && !s.dels[top].canceled && s.dels[top].fireAt == now + wait)
        && (forall id :: id in rest ==> s.dels[id].fireAt >= now + wait)
    {
      hide Linked, Filed, Dels, Queue, PendingIds;
      MembersKnown();
      SomeDels();
      if left != {} {
        var top :| top in left && !top.canceled && top.fireAt == now + wait;
        assert top.id in IdsIn(left) && Abs().dels[top.id] == top.Val();
      }
    }

    lemma DrainFits(was: set<Delivery>, now: int, due: seq<Delivery>, dropped: set<Delivery>, wait: int)
      requires Valid() && forall d :: d in was ==> d.id in known && known[d.id] == d
      requires Scanning(was, heap.Members(), now, due, dropped) && Rests(heap.Members(), now, wait)
      ensures var s := Abs().(queue := IdsIn(was));
        ScanSpec(s, now, Ids(due), IdsIn(dropped), wait)
    {
      hide Linked, Filed, Dels, Queue, PendingIds, Rests;
      MembersKnown();
      IdsOf(due);
      DrainRests(heap.Members(), now, wait);
      var s := Abs().(queue := IdsIn(was));
      assert s.queue - (set id | id in Ids(due)) - IdsIn(dropped) == IdsIn(heap.Members());
      forall i, j | 0 <= i < j < |due| ensures Ids(due)[i] != Ids(due)[j] && s.dels[Ids(due)[i]].fireAt <= s.dels[Ids(due)[j]].fireAt {
        assert due[i] in due && due[j] in due;
      }
    }

    lemma SameScan(s: Shared, t: Shared, now: int, due: seq<Id>, dropped: set<Id>, wait: int)
      requires s.queue == t.queue <= t.dels.Keys && s.dels.Keys == t.dels.Keys
      requires forall id :: id in s.dels ==> s.dels[id].fireAt == t.dels[id].fireAt && s.dels[id].canceled == t.dels[id].canceled
      requires ScanSpec(t, now, due, dropped, wait)
      ensures ScanSpec(s, now, due, dropped, wait)
    {
    }

    twostate lemma DrainedDels(new due: seq<Delivery>)
      requires old(Valid()) && Valid() && unchanged(`known)
      requires Started(Objs(), old(Attempting()), due)
      requires forall d: Delivery :: d in Objs() ==> unchanged(d`ord) && unchanged(d`attempts) && unchanged(d`fireAt)
      requires forall d: Delivery :: d in Objs() ==> unchanged(d`canceled) && unchanged(d`firstFired)
      requires forall d :: d in due ==> d.id in known && known[d.id] == d
      ensures Abs().dels.Keys == old(Abs()).dels.Keys == known.Keys
      ensures forall id :: id in known ==>
        Abs().dels[id] == if id in Ids(due) then old(Abs()).dels[id].(running := true) else old(Abs()).dels[id]
    {
      IdsOf(due);
      forall id | id in known
        ensures Abs().dels[id] == if id in Ids(due) then old(Abs()).dels[id].(running := true) else old(Abs()).dels[id]
      {
        assert known[id] in Objs() && old(Abs()).dels[id] == old(known[id].Val());
      }
    }

    twostate lemma DrainedQueue(new now: int, new due: seq<Delivery>, new dropped: set<Delivery>)
      requires old(Valid()) && Valid() && unchanged(`known)
      requires Scanning(old(heap.Members()), heap.Members(), now, due, dropped)
      ensures forall d :: d in due ==> d.id in known && known[d.id] == d
      ensures Queue() == old(Queue()) - (set id | id in Ids(due)) - IdsIn(dropped)
    {
      IdsOf(due);
    }

    twostate lemma DrainedAbs(new due: seq<Delivery>, new dropped: set<Id>)
      requires old(Valid()) && Valid() && unchanged(`known) && unchanged(`pending) && unchanged(`issued)
      requires unchanged(`offsets) && unchanged(`exclusive) && unchanged(`gone) && unchanged(`log)
      requires forall id :: id in Ids(due) ==> id in known
      requires Queue() == old(Queue()) - (set id | id in Ids(due)) - dropped && PendingIds() == old(PendingIds())
      requires Abs().dels.Keys == old(Abs()).dels.Keys == known.Keys
      requires forall id :: id in known ==>
        Abs().dels[id] == if id in Ids(due) then old(Abs()).dels[id].(running := true) else old(Abs()).dels[id]
      ensures Abs() == Model.Scan(old(Abs()), Ids(due), dropped)
    {
      hide Valid, Queue, PendingIds, Dels;
      assert Abs().dels == Model.Scan(old(Abs()), Ids(due), dropped).dels;
    }

    /** The section of the scheduler under the lock, at time `now`. */
    method ScanHeap(now: int) returns (due: seq<Delivery>, ghost dropped: set<Id>, wait: int)
      requires Valid()
      modifies heap, Objs()`index, Objs()`running
      ensures Valid() && old(Abs()).queue <= old(Abs()).dels.Keys && ScanSpec(old(Abs()), now, Ids(due), dropped, wait)
      ensures forall d :: d in due ==> d.id in known && known[d.id] == d
      ensures Abs() == Model.Scan(old(Abs()), Ids(due), dropped)
    {
      hide Linked, Filed, Dels, Queue, PendingIds, Scanning, Rests, Started, Indexed, ScanSpec, Scan;
      Links();
      MembersKnown();
      SomeDels();
      ghost var lost;
      due, lost, wait := Drain(now);
      dropped := IdsIn(lost);
      Relinked(IdsIn(heap.Members()));
      DrainedQueue(now, due, lost);
      DrainedDels(due);
      IdsOf(due);
      DrainedAbs(due, dropped);
      DrainFits(old(heap.Members()), now, due, lost, wait);
      SameScan(old(Abs()), Abs().(queue := IdsIn(old(heap.Members()))), now, Ids(due), dropped, wait);
    }

    lemma SomeDels()
      requires Valid()
      ensures Queue() == IdsIn(heap.Members()) <= known.Keys
      ensures forall d :: d in heap.Members() ==> d.id in known && known[d.id] == d
    {
    }

    // ---------- whole cancellations ----------

    /** The object is what flagging `done` makes of `was`. */
    ghost predicate Flagged(was: Shared, done: set<Id>)
      reads this, heap, heap.items`index, heap.items`fireAt, known.Values
    {
      Valid() && Abs() == FlagAll(was, done)
    }

    method FlagNext(d: Delivery, ghost was: Shared, ghost done: set<Id>)
      requires Flagged(was, done) && d.id in known && known[d.id] == d && d.id !in done
      modifies this`log, d`canceled
      ensures Flagged(was, done + {d.id})
    {
      hide Valid, Abs, FlagAll, Model.Flag;
      SomeDel(d);
      FlagKeys(was, done);
      FlagMore(was, done, d.id);
      Flag(d);
    }

    lemma FlagKeys(s: Shared, ids: set<Id>)
      ensures FlagAll(s, ids).dels.Keys == s.dels.Keys
    {
    }

    lemma FlaggedNone()
      requires Valid()
      ensures Flagged(Abs(), {}) && forall id :: id in known ==> known[id].id == id
    {
      hide Abs;
      MembersKnown();
      FlagNone(Abs());
    }

    method FlagEach(dels: map<Id, Delivery>)
      requires Valid() && forall id :: id in dels ==> id in known && dels[id] == known[id]
      modifies this`log, dels.Values`canceled
      ensures Valid() && Abs() == FlagAll(old(Abs()), dels.Keys)
    {
      hide Valid, Abs, FlagAll, Flagged;
      FlaggedNone();
      ghost var was := Abs();
      var todo := dels.Keys;
      ghost var done: set<Id> := {};
      while todo != {}
        invariant todo <= dels.Keys && done == dels.Keys - todo && Flagged(was, done)
        decreases |todo|
      {
        var id :| id in todo;
        FlagNext(dels[id], was, done);
        todo, done := todo - {id}, done + {id};
      }
      assert done == dels.Keys;
      FlaggedIs(was, done);
    }

    lemma FlaggedIs(was: Shared, done: set<Id>)
      requires Flagged(was, done)
      ensures Valid() && Abs() == FlagAll(was, done)
    {
    }

    method CancelSession(sid: Sid)
      requires Valid()
      modifies this`pending, this`gone, this`offsets, this`log, Objs()`canceled
      ensures Valid() && Abs() == FlagAll(Model.CancelSession(old(Abs()), sid), old(Abs()).PendingOf(sid))
      ensures Abs().PendingOf(sid) == {} && if sid in exclusive then sid in gone else sid !in offsets
      ensures forall other :: other != sid ==> Abs().Off(other) == old(Abs()).Off(other)
    {
      hide Valid, Abs, FlagAll, Model.CancelSession;
      MembersKnown();
      PendingKnown();
      Effects.CancelSessionDoes(Abs(), sid);
      OfPending(sid);
      var dels := DropSession(sid);
      FlagEach(dels);
      MembersKnown();
    }

    lemma PendingKnown()
      requires Valid()
      ensures Abs().pending <= Abs().dels.Keys
    {
    }

    ghost function Uncanceled(ds: set<Delivery>): set<Id>
      reads this`known, ds`canceled
    {
      set id | id in known && known[id] in ds && !known[id].canceled
    }

    lemma UncanceledLess(ds: set<Delivery>, d: Delivery)
      requires d in ds && d.id in known && known[d.id] == d && forall id :: id in known ==> known[id].id == id
      ensures Uncanceled(ds) == Uncanceled(ds - {d}) + (if d.canceled then {} else {d.id})
      ensures d.id !in Uncanceled(ds - {d})
    {
    }

    method FlagApart(d: Delivery, ghost was: Shared, ghost done: set<Id>, ghost rest: set<Delivery>)
      requires Flagged(was, done) && d.id in known && known[d.id] == d && d.id !in done && d !in rest
      modifies this`log, d`canceled
      ensures Flagged(was, done + {d.id}) && Uncanceled(rest) == old(Uncanceled(rest))
    {
      hide Flagged, Uncanceled;
      FlagNext(d, was, done);
    }

    /** Flags those not flagged yet, and counts them. */
    method FlagFresh(queued: set<Delivery>) returns (n: nat)
      requires Valid() && queued <= Objs()
      modifies this`log, queued`canceled
      ensures Valid() && Abs() == FlagAll(old(Abs()), old(Uncanceled(queued))) && n == |old(Uncanceled(queued))|
    {
      hide Valid, Abs, FlagAll, Flagged, Uncanceled;
      FlaggedNone();
      ghost var was, all := Abs(), Uncanceled(queued);
      var todo := queued;
      ghost var done: set<Id> := {};
      n := 0;
      while todo != {}
        invariant todo <= queued && Flagged(was, done) && n == |done|
        invariant done + Uncanceled(todo) == all && done !! Uncanceled(todo)
        decreases |todo|
      {
        var d :| d in todo;
        UncanceledLess(todo, d);
        todo := todo - {d};
        if !d.canceled {
          FlagApart(d, was, done, todo);
          n := n + 1;
          done := done + {d.id};
        }
      }
      NoneUncanceled();
      FlaggedIs(was, done);
    }

    lemma NoneUncanceled()
      ensures Uncanceled({}) == {}
    {
    }

    /** Answers how many deliveries it was the first to flag. */
    method CancelAll() returns (n: nat)
      requires Valid()
      modifies this`pending, this`gone, this`offsets, this`log, Objs()`canceled
      ensures Valid()
      ensures var s := old(Abs());
        var ids := set id | id in s.dels && (id in s.queue || id in s.pending) && !s.dels[id].canceled;
        Abs() == FlagAll(Model.CancelAll(s), ids) && n == |ids|
      ensures Abs().pending == {} && forall sid :: sid !in exclusive ==> sid !in offsets
    {
      hide Valid, Dels, Queue, PendingIds, FlagAll, Model.CancelAll;
      MembersKnown();
      PendingKnown();
      var queued := DropAll();
      assert Uncanceled(queued) == set id | id in old(Abs()).dels && (id in old(Abs()).queue || id in old(Abs()).pending)
        && !old(Abs()).dels[id].canceled;
      Effects.CancelAllDoes(old(Abs()), Uncanceled(queued));
      n := FlagFresh(queued);
      MembersKnown();
    }
  }

  datatype Refusal = NoSession | Backward | NoItems | SessionBusy | DeadlineReached

  /** What acquire leaves: nothing changed if somebody else has the session, the
      session taken and given back if it stays busy, or the session taken. */
  ghost function Obtained(s: Shared, sid: Sid): Shared {
    if sid in s.exclusive then s
    else if Busy(s, sid) then Model.Release(Model.Acquire(s, sid), sid)
    else Model.Acquire(s, sid)
  }

  /** A call that finds the session busy changes nothing in the end. */
  lemma BusyChangesNothing(s: Shared, sid: Sid)
    requires Busy(s, sid) && (s.gone <= s.exclusive)
    requires forall id :: id in s.PendingOf(sid) ==> (id in s.queue <==> sid !in s.exclusive && !s.dels[id].running && !s.dels[id].canceled)
    ensures Obtained(s, sid) == s
  {
    if sid !in s.exclusive {
      var t := Model.Release(Model.Acquire(s, sid), sid);
      assert t.exclusive == s.exclusive && t.gone == s.gone;
      assert Returning(Model.Acquire(s, sid), sid) == s.PendingOf(sid) * s.queue;
      assert t.queue == s.queue;
    }
  }

  datatype Advanced = Refused(why: Refusal) | Advanced(fired: seq<Fired>, partial: bool, offset: int)

  datatype Sending = Denied(reason: Refusal) | Sending(fired: seq<Fired>, partial: bool, missing: Option<string>)
}
