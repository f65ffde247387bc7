/** The pending lists and deferred sets of the Redis broker as its calls update them
    (src/aioq/backends/redis.py), beside the one flat queue that they implement. */
module RedisQueues {
  import opened Jobs
  import opened RedisLists

  class Queues {
    var pending: Lists
    var deferred: SortedSets
    /** What the lists mean; only the proof needs it. */
    ghost var flat: Flat

    constructor ()
      ensures Valid() && flat == [] && deferred == map[]
    {
      pending, deferred, flat := map[], map[], [];
    }

    ghost predicate Valid()
      reads this
    {
      GoodQueues(pending, deferred, flat)
    }

    /** Queueing a job that was just written: into the future, or onto its tier's list. */
    method Push(id: string, queue: string, priority: int, runAt: Option<real>, now: real)
      requires Valid()
      modifies this
      ensures Valid()
      ensures (flat, deferred) == Queued(old(flat), old(deferred), id, KeyOf(queue, priority), runAt, now)
    {
      var k := KeyOf(queue, priority);
      if runAt.Some? && runAt.value > now {
        DeferKeepsGood(pending, deferred, flat, k, Entry(id, runAt.value));
        deferred := deferred[k := ZAdd(SetAt(deferred, k), Entry(id, runAt.value))];
      } else {
        PushKeepsGood(pending, deferred, flat, k, id);
        pending := pending[k := [id] + ListAt(pending, k)];
        flat := flat + [Arrival(id, k)];
      }
    }

    /** The script's loop body for one pair of keys. */
    method PromoteKey(k: Key, now: real) returns (moved: nat)
      requires Valid() && k.tier in TIERS
      modifies this
      ensures Valid() && moved == |RangeByScore(SetAt(old(deferred), k), now)|
      ensures deferred == MoveSet(old(deferred), k, now)
      ensures pending == MoveList(old(pending), old(deferred), k, now)
      ensures flat == old(flat) + Arrivals(k, RangeByScore(SetAt(old(deferred), k), now))
    {
      ghost var sets, lists := deferred, pending;
      var ids := RangeByScore(SetAt(deferred, k), now);
      AllChunksMove(lists, sets, k, now);
      MoveKeepsGood(lists, sets, flat, k, now);
      MoveChunks(k, ids);
      flat := flat + Arrivals(k, ids);
      return |ids|;
    }

    /** ZREM and LPUSH of the leading members of the set, chunk by chunk. */
    method MoveChunks(k: Key, ids: seq<string>)
      requires IsSortedSet(SetAt(deferred, k))
      requires |ids| <= |SetAt(deferred, k)| && ids == Ids(SetAt(deferred, k)[..|ids|])
      modifies `pending, `deferred
      ensures deferred == Shortened(old(deferred), k, |ids|) && pending == Extended(old(pending), k, ids)
    {
      ghost var sets, lists := deferred, pending;
      var n := |ids|;
      var j := 0;
      while j < n
        invariant 0 <= j <= n
        invariant deferred == Shortened(sets, k, j)
        invariant pending == Extended(lists, k, ids[..j])
      {
        var last := if j + CHUNK < n then j + CHUNK else n;
        ChunkMoves(sets, lists, k, ids, j, last);
        deferred := deferred[k := Remove(SetAt(deferred, k), ids[j..last])];
        pending := pending[k := LeftPush(ListAt(pending, k), ids[j..last])];
        j := last;
      }
      assert ids[..n] == ids;
    }

    /** The script: every due id of the given keys moves exactly once to the list of its own key,
        everything else stays, and the number moved is returned. */
    method PromoteScript(keys: seq<Key>, now: real) returns (moved: nat)
      requires Valid() && forall k | k in keys :: k.tier in TIERS
      modifies this
      ensures Valid()
      ensures ScriptDone(keys, now, old(pending), old(deferred), old(flat), pending, deferred, flat, moved)
    {
      moved := 0;
      var i := 0;
      while i < |keys|
        invariant 0 <= i <= |keys| && Valid()
        invariant ScriptDone(keys[..i], now, old(pending), old(deferred), old(flat), pending, deferred, flat, moved)
      {
        ScriptNext(keys, i, now, old(pending), old(deferred), old(flat), pending, deferred, flat, moved);
        var n := PromoteKey(keys[i], now);
        moved := moved + n;
        i := i + 1;
      }
      assert keys[..i] == keys;
    }

    /** Hands every tier of every queue to the script. */
    method PromoteDeferred(queues: seq<string>, now: real) returns (ghost keys: seq<Key>, ghost moved: nat)
      requires Valid()
      modifies this
      ensures Valid() && forall k :: k in keys <==> k.queue in queues && k.tier in TIERS
      ensures ScriptDone(keys, now, old(pending), old(deferred), old(flat), pending, deferred, flat, moved)
    {
      var all: seq<Key> := [];
      var i := 0;
      while i < |queues|
        invariant 0 <= i <= |queues|
        invariant forall k :: k in all <==> k.queue in queues[..i] && k.tier in TIERS
      {
        var t := 0;
        while t < |TIERS|
          invariant 0 <= t <= |TIERS|
          invariant forall k :: k in all <==>
                      k.tier in TIERS && (k.queue in queues[..i] || (k.queue == queues[i] && k.tier in TIERS[..t]))
        {
          all := all + [Key(queues[i], TIERS[t])];
          t := t + 1;
        }
        i := i + 1;
      }
      var n := PromoteScript(all, now);
      keys, moved := all, n;
    }

    /** The blocking pop on the priority-major key list, when it does not have to wait. */
    method Pop(queues: seq<string>) returns (id: Option<string>)
      requires Valid()
      modifies `pending, `flat
      ensures Valid()
      ensures TakesNext(old(flat), queues, id, flat)
    {
      var keys := ScanKeys(queues);
      var m := FirstNonEmpty(pending, keys);
      if m == |keys| {
        EmptyScanTakesNothing(pending, flat, queues);
        return None;
      }
      ghost var flat' := PopEffect(pending, deferred, flat, queues);
      var list := ListAt(pending, keys[m]);
      pending := pending[keys[m] := list[..|list| - 1]];
      flat := flat';
      return Some(list[|list| - 1]);
    }

    /** What a dequeue does before it reads the record. */
    method Take(queues: seq<string>, now: real) returns (id: Option<string>, ghost keys: seq<Key>)
      requires Valid()
      modifies this
      ensures Valid() && forall k :: k in keys <==> k.queue in queues && k.tier in TIERS
      ensures TakesNext(old(flat) + Moved(old(deferred), keys, now), queues, id, flat)
      ensures DueLeave(keys, now, old(deferred), deferred)
    {
      ghost var moved;
      keys, moved := PromoteDeferred(queues, now);
      DeferredAfter(keys, now, old(pending), old(deferred), pending, deferred);
      id := Pop(queues);
    }
  }
}
