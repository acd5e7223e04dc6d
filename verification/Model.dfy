/** The dispatcher's shared state as a value, and what each section under its
    mutex does to that state. The class in Dispatcher.dfy implements these
    functions on objects; Protocol.dfy interleaves them; Replay.dfy runs them
    from one driver. Times are wall-clock nanoseconds unless said otherwise. */
module Model {
  datatype Option<+T> = None | Some(value: T)

  type Id = string
  type Sid = string

  /** The closure an enter action leaves with its delivery: where to go after
      the first attempt, and the state-entry count the closure captured. */
  datatype Goto = Goto(epoch: nat, state: string, event: string)

  datatype Status = Pending | Retrying | Delivered | Failed | Canceled

  datatype Try = Try(num: nat, at: int, ok: bool)

  /** One journal record. */
  datatype Record = Record(
    id: Id, sid: Sid, target: string, event: string, status: Status,
    attempts: seq<Try>, fireAt: int, next: Option<int>)
  {
    /** What the journal shows as the time of the next attempt. */
    function Planned(): int { if next.Some? then next.value else fireAt }
  }

  /** The value of one delivery object. */
  datatype Del = Del(
    sid: Sid, target: string, event: string, maxAttempts: int, onFirst: Option<Goto>,
    ord: nat, attempts: nat, fireAt: int,
    canceled: bool, running: bool, firstFired: bool)

  datatype Request = Request(target: string, event: string, maxAttempts: int, onFirst: Option<Goto>, delay: int)

  /** `queue` holds the ids in the heap. `pending` flattens the session map:
      an id is in it when its own session's map has it. `dels` also remembers
      deliveries nothing refers to any more. */
  datatype Shared = Shared(
    dels: map<Id, Del>, queue: set<Id>, pending: set<Id>,
    offsets: map<Sid, int>, exclusive: set<Sid>, gone: set<Sid>,
    issued: nat, log: map<Id, Record>)
  {
    function Off(sid: Sid): int { if sid in offsets then offsets[sid] else 0 }

    function PendingOf(sid: Sid): set<Id> { set id | id in pending && id in dels && dels[id].sid == sid }

    /** Session time at which a delivery is due. */
    function Due(id: Id): int
      requires id in dels
    {
      dels[id].fireAt + Off(dels[id].sid)
    }
  }

  const EMPTY := Shared(map[], {}, {}, map[], {}, {}, 0, map[])

  // ---------- the journal as the dispatcher uses it ----------

  function LogAdd(s: Shared, id: Id, d: Del): Shared {
    s.(log := s.log[id := Record(id, d.sid, d.target, d.event, Pending, [], d.fireAt, None)])
  }

  function Logged(log: map<Id, Record>, id: Id, r: Record -> Record): map<Id, Record> {
    if id in log then log[id := r(log[id])] else log
  }

  // ---------- scheduling ----------

  /** A delivery as built before the lock is taken. */
  function Draft(sid: Sid, r: Request, now: int): Del {
    Del(sid, r.target, r.event, r.maxAttempts, r.onFirst, 0, 0, now + r.delay, false, false, false)
  }

  function PushLocked(s: Shared, id: Id): Shared
    requires id in s.dels
  {
    var sid := s.dels[id].sid;
    if sid != "" && sid in s.exclusive then s else s.(queue := s.queue + {id})
  }

  function Enqueue(s: Shared, id: Id, d: Del): Shared {
    var s1 := PushLocked(s.(issued := s.issued + 1, dels := s.dels[id := d.(ord := s.issued + 1)]), id);
    if d.sid == "" then s1 else s1.(pending := s1.pending + {id})
  }

  // ---------- cancellation ----------

  /** The section of CancelSession under the lock; the flags are set later. */
  function CancelSession(s: Shared, sid: Sid): Shared {
    var s1 := s.(pending := s.pending - s.PendingOf(sid));
    if sid in s.exclusive then s1.(gone := s.gone + {sid}) else s1.(offsets := s.offsets - {sid})
  }

  function CancelAll(s: Shared): Shared {
    s.(pending := {},
       gone := s.gone + (s.offsets.Keys * s.exclusive),
       offsets := s.offsets - (s.offsets.Keys - s.exclusive))
  }

  function Flag(s: Shared, id: Id): Shared
    requires id in s.dels
  {
    s.(dels := s.dels[id := s.dels[id].(canceled := true)],
       log := Logged(s.log, id, (r: Record) => r.(status := Canceled, next := None)))
  }

  /** Flagging several deliveries, in any order. */
  function FlagAll(s: Shared, ids: set<Id>): Shared {
    s.(dels := map id | id in s.dels :: if id in ids then s.dels[id].(canceled := true) else s.dels[id],
       log := map id | id in s.log :: if id in ids then s.log[id].(status := Canceled, next := None) else s.log[id])
  }

  lemma FlagNone(s: Shared)
    ensures FlagAll(s, {}) == s
  {
    assert FlagAll(s, {}).dels == s.dels && FlagAll(s, {}).log == s.log;
  }

  lemma FlagMore(s: Shared, ids: set<Id>, id: Id)
    requires id in s.dels && id !in ids
    ensures FlagAll(s, ids + {id}) == Flag(FlagAll(s, ids), id)
  {
    var t, u := FlagAll(s, ids + {id}), Flag(FlagAll(s, ids), id);
    assert t.dels == u.dels && t.log == u.log;
  }

  // ---------- one attempt ----------

  function Mark(s: Shared, id: Id): Shared
    requires id in s.dels
  {
    s.(dels := s.dels[id := s.dels[id].(running := true)])
  }

  function Unmark(s: Shared, id: Id): Shared
    requires id in s.dels
  {
    s.(dels := s.dels[id := s.dels[id].(running := false)])
  }

  function Begin(s: Shared, id: Id): Shared
    requires id in s.dels
  {
    s.(dels := s.dels[id := s.dels[id].(attempts := s.dels[id].attempts + 1)])
  }

  function Verdict(num: nat, maxAttempts: int, ok: bool): Status {
    if ok then Delivered else if num < maxAttempts then Retrying else Failed
  }

  function Noted(r: Record, t: Try, status: Status, next: int): Record {
    r.(attempts := r.attempts + [t], status := status,
       next := if status == Retrying then Some(next) else None)
  }

  /** The receiver has answered attempt `t`; `next` is the retry time, used
      when the verdict is a retry. */
  function Answer(s: Shared, id: Id, t: Try, next: int): Shared
    requires id in s.dels
  {
    var d := s.dels[id];
    var status := Verdict(t.num, d.maxAttempts, t.ok);
    s.(dels := if status == Retrying then s.dels[id := d.(fireAt := next)] else s.dels,
       log := Logged(s.log, id, (r: Record) => Noted(r, t, status, next)))
  }

  /** The section that requeues a retry or retires the delivery. */
  function Settle(s: Shared, id: Id, status: Status): Shared
    requires id in s.dels
  {
    var s1 := Unmark(s, id);
    if status == Retrying then PushLocked(s1, id) else s1.(pending := s1.pending - {id})
  }

  function MarkFirst(s: Shared, id: Id): Shared
    requires id in s.dels
  {
    s.(dels := s.dels[id := s.dels[id].(firstFired := true)])
  }

  // ---------- driving a session ----------

  function Acquire(s: Shared, sid: Sid): Shared {
    s.(exclusive := s.exclusive + {sid}, queue := s.queue - s.PendingOf(sid))
  }

  predicate Busy(s: Shared, sid: Sid) {
    exists id :: id in s.PendingOf(sid) && s.dels[id].running
  }

  function Returning(s: Shared, sid: Sid): set<Id> {
    set id | id in s.PendingOf(sid) && !s.dels[id].running && !s.dels[id].canceled
  }

  function Release(s: Shared, sid: Sid): Shared {
    s.(exclusive := s.exclusive - {sid},
       gone := s.gone - {sid},
       offsets := if sid in s.gone then s.offsets - {sid} else s.offsets,
       queue := s.queue + Returning(s, sid))
  }

  function Replan(r: Record, fireAt: int): Record {
    if r.next.Some? then r.(next := Some(fireAt)) else r.(fireAt := fireAt)
  }

  function Earlier(dels: map<Id, Del>, p: set<Id>, step: int): map<Id, Del> {
    map id | id in dels :: if id in p then dels[id].(fireAt := dels[id].fireAt - step) else dels[id]
  }

  function Replanned(log: map<Id, Record>, dels: map<Id, Del>, p: set<Id>, step: int): map<Id, Record>
    requires p <= dels.Keys
  {
    map id | id in log :: if id in p then Replan(log[id], dels[id].fireAt - step) else log[id]
  }

  function Shift(s: Shared, sid: Sid, step: int): Shared {
    if step <= 0 then s else
    var p := s.PendingOf(sid);
    s.(offsets := s.offsets[sid := s.Off(sid) + step],
       dels := Earlier(s.dels, p, step),
       log := Replanned(s.log, s.dels, p, step))
  }

  /** What earliestLocked and findLocked skip: canceled or already held. */
  function Eligible(s: Shared, sid: Sid): set<Id> {
    set id | id in s.PendingOf(sid) && !s.dels[id].canceled && !s.dels[id].running
  }

  /** Due order: earlier fireAt first, then scheduling order. */
  predicate Before(a: Del, b: Del) {
    a.fireAt < b.fireAt || (a.fireAt == b.fireAt && a.ord < b.ord)
  }

  ghost predicate IsFirst(s: Shared, ids: set<Id>, id: Id) {
    && ids <= s.dels.Keys
    && id in ids
    && forall j :: j in ids && j != id ==> Before(s.dels[id], s.dels[j])
  }

  /** Scheduling numbers identify deliveries. */
  ghost predicate Numbered(s: Shared) {
    && (forall id :: id in s.dels ==> s.dels[id].ord <= s.issued)
    && (forall a, b :: a in s.dels && b in s.dels && a != b ==> s.dels[a].ord != s.dels[b].ord)
  }

  lemma {:induction false} FirstExists(s: Shared, ids: set<Id>)
    requires Numbered(s) && ids <= s.dels.Keys && ids != {}
    ensures exists id :: IsFirst(s, ids, id)
  {
    var x :| x in ids;
    if ids == {x} {
      assert IsFirst(s, ids, x);
    } else {
      FirstExists(s, ids - {x});
      var y :| IsFirst(s, ids - {x}, y);
      assert IsFirst(s, ids, if Before(s.dels[x], s.dels[y]) then x else y);
    }
  }

  /** The first of `ids` in due order. */
  ghost function First(s: Shared, ids: set<Id>): (r: Option<Id>) {
    if exists id :: IsFirst(s, ids, id) then
      var id :| IsFirst(s, ids, id);
      Some(id)
    else None
  }

  // ---------- the scheduler's scan ----------

  const HOUR: int := 3_600_000_000_000

  /** One pass of the scheduler over the heap at time `now`: it takes `due` in
      fireAt order, throws away `dropped`, and would sleep for `wait`. */
  ghost predicate ScanSpec(s: Shared, now: int, due: seq<Id>, dropped: set<Id>, wait: int)
    requires s.queue <= s.dels.Keys
  {
    var taken := set id | id in due;
    var rest := s.queue - taken - dropped;
    && taken <= s.queue && dropped <= s.queue && taken !! dropped
    && (forall i, j :: 0 <= i < j < |due| ==> due[i] != due[j] && s.dels[due[i]].fireAt <= s.dels[due[j]].fireAt)
    && (forall id :: id in due ==> !s.dels[id].canceled && s.dels[id].fireAt <= now)
    && (forall id :: id in dropped ==> s.dels[id].canceled)
    && (rest == {} ==> wait == HOUR)
    && (rest != {} ==> wait > 0 && exists top :: top in rest && !s.dels[top].canceled && s.dels[top].fireAt == now + wait)
    && (forall id :: id in rest ==> s.dels[id].fireAt >= now + wait)
  }

  function Scan(s: Shared, due: seq<Id>, dropped: set<Id>): Shared
    requires forall id :: id in due ==> id in s.dels
  {
    var taken := set id | id in due;
    s.(queue := s.queue - taken - dropped,
       dels := map id | id in s.dels :: if id in taken then s.dels[id].(running := true) else s.dels[id])
  }
}
