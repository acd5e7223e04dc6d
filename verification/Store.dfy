/** The session store: a key map in sixteen shards, an id index, a length counter
    and counted selectors, changed in place. Calls are taken one at a time here;
    StoreRuns.dfy interleaves their lock sections. */
module SessionStore {
  import opened Model
  import opened Selectors

  class Stored {
    const id: string
    const key: string
    const sel: string
    var expiresAt: int

    constructor (id: string, key: string, sel: string, expiresAt: int)
      ensures this.id == id && this.key == key && this.sel == sel && this.expiresAt == expiresAt
    {
      this.id, this.key, this.sel, this.expiresAt := id, key, sel, expiresAt;
    }
  }

  class Shard {
    var byKey: map<string, Stored>

    constructor ()
      ensures byKey == map[]
    {
      byKey := map[];
    }
  }

  const SHARDS := 16

  datatype Creation = Taken(cur: Stored) | LimitReached | Inserted

  function SelsOf(byID: map<string, Stored>): Sels {
    map id | id in byID :: byID[id].sel
  }

  type Keys = map<string, Stored>

  /** The shards hold the sessions of `byID` under their keys, each in the shard of
      its key. */
  ghost predicate Sharded(maps: seq<Keys>, hash: string -> nat, byID: map<string, Stored>) {
    && |maps| == SHARDS
    && (forall i, k :: 0 <= i < SHARDS && k in maps[i] ==>
          && hash(k) % SHARDS == i && maps[i][k].key == k && maps[i][k].id in byID && byID[maps[i][k].id] == maps[i][k])
    && (forall id :: id in byID ==>
          && byID[id].id == id && byID[id].key in maps[hash(byID[id].key) % SHARDS]
          && maps[hash(byID[id].key) % SHARDS][byID[id].key] == byID[id])
  }

  lemma ShardedPut(maps: seq<Keys>, hash: string -> nat, byID: map<string, Stored>, z: Stored)
    requires Sharded(maps, hash, byID) && z.id !in byID && z.key !in maps[hash(z.key) % SHARDS]
    ensures var i := hash(z.key) % SHARDS;
      Sharded(maps[i := maps[i][z.key := z]], hash, byID[z.id := z])
  {
    var i := hash(z.key) % SHARDS;
    var maps': seq<Keys>, byID' := maps[i := maps[i][z.key := z]], byID[z.id := z];
    forall j, k | 0 <= j < SHARDS && k in maps'[j]
      ensures hash(k) % SHARDS == j && maps'[j][k].key == k && maps'[j][k].id in byID' && byID'[maps'[j][k].id] == maps'[j][k]
    {
      if !(j == i && k == z.key) { assert k in maps[j] && maps'[j][k] == maps[j][k]; }
    }
    forall id | id in byID'
      ensures byID'[id].id == id && byID'[id].key in maps'[hash(byID'[id].key) % SHARDS]
      ensures maps'[hash(byID'[id].key) % SHARDS][byID'[id].key] == byID'[id]
    {
      if id != z.id { assert byID[id].key in maps[hash(byID[id].key) % SHARDS]; }
    }
  }

  lemma ShardedDrop(maps: seq<Keys>, hash: string -> nat, byID: map<string, Stored>, id: string)
    requires Sharded(maps, hash, byID) && id in byID
    ensures var z := byID[id];
      var i := hash(z.key) % SHARDS;
      && z.key in maps[i] && maps[i][z.key] == z
      && Sharded(maps[i := maps[i] - {z.key}], hash, byID - {id})
  {
  }

  lemma EntryKnown(maps: seq<Keys>, hash: string -> nat, byID: map<string, Stored>, i: nat, key: string)
    requires Sharded(maps, hash, byID) && i < SHARDS && key in maps[i]
    ensures maps[i][key].id in byID && byID[maps[i][key].id] == maps[i][key]
  {
    assert hash(key) % SHARDS == i;
  }

  /** A key is in its shard exactly if some session has it. */
  lemma KeyKnown(maps: seq<Keys>, hash: string -> nat, byID: map<string, Stored>, key: string)
    requires Sharded(maps, hash, byID)
    ensures var m := maps[hash(key) % SHARDS];
      && (key in m <==> exists id :: id in byID && byID[id].key == key)
      && (key in m ==> m[key].key == key && m[key].id in byID && byID[m[key].id] == m[key])
  {
  }

  class Store {
    const shards: seq<Shard>
    const hash: string -> nat
    const maxSessions: int
    var byID: map<string, Stored>
    var selectors: Refs
    var length: int

    ghost function Maps(): (r: seq<Keys>)
      reads shards
      ensures |r| == |shards| && forall i :: 0 <= i < |r| ==> r[i] == shards[i].byKey
    {
      seq(|shards|, i requires 0 <= i < |shards| reads shards => shards[i].byKey)
    }

    /** The key map and the id index hold the same sessions, `length` is their
        number and within the limit, and selectors are counted exactly. */
    ghost predicate Valid()
      reads this, shards
    {
      && Apart() && Sharded(Maps(), hash, byID)
      && length == |byID| && (maxSessions > 0 ==> length <= maxSessions)
      && Counted(selectors, SelsOf(byID))
    }

    ghost predicate Apart() {
      |shards| == SHARDS && forall i, j :: 0 <= i < j < SHARDS ==> shards[i] != shards[j]
    }

    constructor (hash: string -> nat, maxSessions: int)
      ensures Valid() && byID == map[] && this.hash == hash && this.maxSessions == maxSessions && |shards| == 16
    {
      this.hash, this.maxSessions := hash, maxSessions;
      byID, selectors, length := map[], map[], 0;
      var all: seq<Shard> := [];
      for i := 0 to SHARDS
        invariant |all| == i && (forall j, k :: 0 <= j < k < i ==> all[j] != all[k]) && forall j :: 0 <= j < i ==> all[j].byKey == map[]
      {
        var shard := new Shard();
        all := all + [shard];
      }
      shards := all;
    }

    method GetByKey(key: string) returns (r: Option<Stored>)
      requires Valid()
      ensures r.Some? ==> r.value.key == key && r.value.id in byID && byID[r.value.id] == r.value
      ensures r.None? ==> forall id :: id in byID ==> byID[id].key != key
    {
      hide Sharded, Counted;
      KeyKnown(Maps(), hash, byID, key);
      var sh := shards[hash(key) % SHARDS];
      r := if key in sh.byKey then Some(sh.byKey[key]) else None;
    }

    /** Writes one shard's map. */
    method SetKeys(i: nat, m: Keys)
      requires Apart() && i < SHARDS
      modifies shards
      ensures Maps() == old(Maps())[i := m]
    {
      shards[i].byKey := m;
    }

    /** Finds a session by id; its key finds the same session. */
    method GetByID(id: string) returns (r: Option<Stored>)
      requires Valid()
      ensures r.Some? ==> r.value.id == id && r.value.key in ShardOf(r.value.key) && ShardOf(r.value.key)[r.value.key] == r.value
      ensures r.None? ==> forall i, k :: 0 <= i < SHARDS && k in shards[i].byKey ==> shards[i].byKey[k].id != id
    {
      hide Counted;
      r := if id in byID then Some(byID[id]) else None;
      forall i, k | 0 <= i < SHARDS && k in shards[i].byKey ensures shards[i].byKey[k].id in byID {
        assert k in Maps()[i];
        EntryKnown(Maps(), hash, byID, i, k);
      }
    }

    /** The map a key is looked up in. */
    ghost function ShardOf(key: string): Keys
      requires |shards| == SHARDS
      reads shards
    {
      shards[hash(key) % SHARDS].byKey
    }

    method CountUp(sel: string)
      modifies this`selectors
      ensures selectors == Up(old(selectors), sel)
    {
      if sel in selectors {
        selectors := selectors[sel := selectors[sel] + 1];
      } else {
        selectors := selectors[sel := 1];
      }
    }

    method CountDown(sel: string)
      modifies this`selectors
      ensures selectors == Down(old(selectors), sel)
    {
      if sel in selectors {
        var n := selectors[sel] - 1;
        selectors := selectors[sel := n];
        if n <= 0 {
          selectors := selectors - {sel};
        }
      }
    }

    /** Inserts a session unless its key is taken or the store is full. */
    method Create(sess: Stored) returns (r: Creation)
      requires Valid() && sess.id !in byID
      modifies this`byID, this`length, this`selectors, shards
      ensures Valid()
      ensures r.Taken? <==> exists id :: id in old(byID) && old(byID)[id].key == sess.key
      ensures r.Taken? ==> r.cur.key == sess.key && r.cur.id in byID && byID[r.cur.id] == r.cur
      ensures !r.Taken? ==> (r.LimitReached? <==> maxSessions > 0 && |old(byID)| >= maxSessions)
      ensures byID == if r.Inserted? then old(byID)[sess.id := sess] else old(byID)
    {
      hide Counted, Sharded, Up, Down, SelsOf;
      KeyKnown(Maps(), hash, byID, sess.key);
      var i := hash(sess.key) % SHARDS;
      if sess.key in shards[i].byKey {
        return Taken(shards[i].byKey[sess.key]);
      }
      if maxSessions > 0 && length >= maxSessions {
        return LimitReached;
      }
      ShardedPut(Maps(), hash, byID, sess);
      SelsMore(byID, sess);
      CountedMore(selectors, SelsOf(byID), sess.id, sess.sel);
      length := length + 1;
      SetKeys(i, shards[i].byKey[sess.key := sess]);
      byID := byID[sess.id := sess];
      CountUp(sess.sel);
      r := Inserted;
    }

    /** Removes a session and answers it, or None. */
    method Delete(id: string) returns (r: Option<Stored>)
      requires Valid()
      modifies this`byID, this`length, this`selectors, shards
      ensures Valid() && byID == old(byID) - {id}
      ensures r == if id in old(byID) then Some(old(byID)[id]) else None
    {
      hide Counted, Sharded, Up, Down, SelsOf;
      if id !in byID {
        assert byID == byID - {id};
        return None;
      }
      var sess := byID[id];
      ShardedDrop(Maps(), hash, byID, id);
      SelsLess(byID, id);
      CountedLess(selectors, SelsOf(byID), id);
      FewerIDs(byID, id);
      byID := byID - {id};
      var i := hash(sess.key) % SHARDS;
      if sess.key in shards[i].byKey && shards[i].byKey[sess.key] == sess {
        SetKeys(i, shards[i].byKey - {sess.key});
      }
      length := length - 1;
      CountDown(sess.sel);
      r := Some(sess);
    }

    /** Removes exactly the sessions that have expired, and answers them. */
    method Sweep(now: int) returns (expired: set<Stored>)
      requires Valid()
      modifies this`byID, this`length, this`selectors, shards
      ensures Valid()
      ensures expired == set id | id in old(byID) && old(byID)[id].expiresAt < now :: old(byID)[id]
      ensures byID == map id | id in old(byID) && !(old(byID)[id].expiresAt < now) :: old(byID)[id]
    {
      hide Valid;
      var gone := Expired(now);
      expired := set id | id in gone :: byID[id];
      var todo := gone;
      while todo != {}
        invariant Valid() && todo <= gone && byID == old(byID) - (gone - todo)
        decreases |todo|
      {
        var id :| id in todo;
        var _ := Delete(id);
        todo := todo - {id};
      }
      assert gone - todo == gone;
      assert forall id :: id in old(byID) ==> (id in gone <==> old(byID)[id].expiresAt < now);
    }

    method Expired(now: int) returns (gone: set<string>)
      ensures gone == set id | id in byID && byID[id].expiresAt < now
    {
      var ids := byID.Keys;
      gone := {};
      while ids != {}
        invariant ids <= byID.Keys && gone == set id | id in byID && id !in ids && byID[id].expiresAt < now
        decreases |ids|
      {
        var id :| id in ids;
        if byID[id].expiresAt < now { gone := gone + {id}; }
        ids := ids - {id};
      }
    }
  }

  lemma FewerIDs(byID: map<string, Stored>, id: string)
    requires id in byID
    ensures |byID - {id}| == |byID| - 1
  {
    assert (byID - {id}).Keys == byID.Keys - {id};
    assert |byID - {id}| == |(byID - {id}).Keys| && |byID| == |byID.Keys|;
  }

  lemma SelsMore(byID: map<string, Stored>, z: Stored)
    ensures SelsOf(byID[z.id := z]) == SelsOf(byID)[z.id := z.sel] && (z.id !in byID ==> z.id !in SelsOf(byID))
  {
  }

  lemma SelsLess(byID: map<string, Stored>, id: string)
    ensures SelsOf(byID - {id}) == SelsOf(byID) - {id} && (id in byID ==> id in SelsOf(byID) && SelsOf(byID)[id] == byID[id].sel)
  {
  }
}
