/** Pending lists and deferred sorted sets of the Redis broker (src/aioq/backends/redis.py), one of
    each per queue and priority tier. */
module RedisLists {
  import opened Jobs

  // ---------------------------------------------------------------- tiers and keys

  const TIERS: seq<int> := [10, 5, 0]

  /** Snaps a priority to the least supported tier that is not below it, or to the highest tier. */
  function ClampPriority(priority: int): (tier: int)
    ensures tier in TIERS
    ensures forall t | t in TIERS && priority <= t :: priority <= tier <= t
    ensures (forall t | t in TIERS :: t < priority) ==> forall t | t in TIERS :: t <= tier
  {
    if priority <= 0 then 0 else if priority <= 5 then 5 else 10
  }

  lemma ClampMonotone(p: int, q: int)
    requires p <= q
    ensures ClampPriority(p) <= ClampPriority(q)
  {
  }

  /** A queue name and one of its tiers. */
  datatype Key = Key(queue: string, tier: int)

  function KeyOf(queue: string, priority: int): Key {
    Key(queue, ClampPriority(priority))
  }

  function TierText(tier: int): string {
    if tier == 10 then "10" else if tier == 5 then "5" else "0"
  }

  function PendingName(k: Key): string {
    "aioq:queue:" + k.queue + ":p" + TierText(k.tier) + ":pending"
  }

  function DeferredName(k: Key): string {
    "aioq:queue:" + k.queue + ":p" + TierText(k.tier) + ":deferred"
  }

  lemma TierShows(queue: string, tier: int, suffix: string)
    requires tier in TIERS
    ensures var s := "aioq:queue:" + queue + ":p" + TierText(tier) + suffix;
            var n := |s| - |suffix|;
            && s[n..] == suffix
            && (tier == 5 <==> s[n - 1] == '5') && (tier == 10 <==> s[n - 2] == '1')
            && s[|"aioq:queue:"|..n - 3 - (if tier == 10 then 1 else 0)] == queue
  {
    var head := "aioq:queue:" + queue;
    var s := head + ":p" + TierText(tier) + suffix;
    var n := |s| - |suffix|;
    assert s == head + (":p" + TierText(tier)) + suffix;
    assert s[|head|..n] == ":p" + TierText(tier);
    assert s[n - 1] == s[|head|..n][n - 1 - |head|] && s[n - 2] == s[|head|..n][n - 2 - |head|];
    assert s[..|head|] == head;
    assert head[|"aioq:queue:"|..] == queue;
    assert s[|"aioq:queue:"|..|head|] == queue;
  }

  /** Whatever the queue names, two lists share a Redis key only if they are the same list. */
  lemma PendingNamesDiffer(a: Key, b: Key)
    requires a.tier in TIERS && b.tier in TIERS && PendingName(a) == PendingName(b)
    ensures a == b
  {
    TierShows(a.queue, a.tier, ":pending");
    TierShows(b.queue, b.tier, ":pending");
  }

  lemma DeferredNamesDiffer(a: Key, b: Key)
    requires a.tier in TIERS && b.tier in TIERS && DeferredName(a) == DeferredName(b)
    ensures a == b
  {
    TierShows(a.queue, a.tier, ":deferred");
    TierShows(b.queue, b.tier, ":deferred");
  }

  lemma PendingIsNotDeferred(a: Key, b: Key)
    ensures PendingName(a) != DeferredName(b)
  {
    var p, d := PendingName(a), DeferredName(b);
    assert p[|p| - 1] == 'g' && d[|d| - 1] == 'd';
  }

  // ---------------------------------------------------------------- lists

  type Lists = map<Key, seq<string>>

  function ListAt(lists: Lists, k: Key): seq<string> {
    if k in lists then lists[k] else []
  }

  function Reverse(ids: seq<string>): (r: seq<string>)
    ensures |r| == |ids| && forall i | 0 <= i < |r| :: r[i] == ids[|ids| - 1 - i]
  {
    if ids == [] then [] else Reverse(ids[1..]) + [ids[0]]
  }

  lemma ReverseConcat(a: seq<string>, b: seq<string>)
    ensures Reverse(a + b) == Reverse(b) + Reverse(a)
  {
  }

  /** LPUSH with several values pushes them one after the other on the left. */
  function LeftPush(list: seq<string>, ids: seq<string>): seq<string> {
    Reverse(ids) + list
  }

  /** Popping from the right gives the old entries first, oldest push first, and then the pushed ones in order. */
  lemma PopsOldThenPushed(list: seq<string>, ids: seq<string>)
    ensures Reverse(LeftPush(list, ids)) == Reverse(list) + ids
  {
  }

  // ---------------------------------------------------------------- sorted sets

  datatype Entry = Entry(id: string, score: real)

  /** A sorted set is kept by score; ties are in some fixed order of the members. */
  type SortedSet = seq<Entry>

  ghost predicate IsSortedSet(z: SortedSet) {
    && (forall i, j | 0 <= i < j < |z| :: z[i].score <= z[j].score)
    && (forall i, j | 0 <= i < j < |z| :: z[i].id != z[j].id)
  }

  type SortedSets = map<Key, SortedSet>

  function SetAt(sets: SortedSets, k: Key): SortedSet {
    if k in sets then sets[k] else []
  }

  /** How many leading entries have a score of at most `now`. */
  function DueCount(z: SortedSet, now: real): (n: nat)
    ensures n <= |z|
    ensures forall i | 0 <= i < n :: z[i].score <= now
    ensures n < |z| ==> z[n].score > now
  {
    if z == [] || z[0].score > now then 0 else 1 + DueCount(z[1..], now)
  }

  function Ids(z: SortedSet): (ids: seq<string>)
    ensures |ids| == |z| && forall i | 0 <= i < |z| :: ids[i] == z[i].id
  {
    seq(|z|, i requires 0 <= i < |z| => z[i].id)
  }

  /** ZRANGEBYSCORE key -inf now. */
  function RangeByScore(z: SortedSet, now: real): seq<string> {
    Ids(z[..DueCount(z, now)])
  }

  /** The range holds exactly the due members. */
  lemma RangeIsDue(z: SortedSet, now: real, i: nat)
    requires IsSortedSet(z) && i < |z|
    ensures z[i].score <= now <==> i < DueCount(z, now)
    ensures z[i].score <= now <==> z[i].id in RangeByScore(z, now)
  {
    var n := DueCount(z, now);
    if i < n {
      assert RangeByScore(z, now)[i] == z[i].id;
    } else {
      assert n < |z| && z[n].score <= z[i].score;
      assert forall k | 0 <= k < n :: RangeByScore(z, now)[k] == z[k].id;
    }
  }

  /** ZREM key ids. */
  function Remove(z: SortedSet, ids: seq<string>): SortedSet {
    if z == [] then []
    else if z[0].id in ids then Remove(z[1..], ids)
    else [z[0]] + Remove(z[1..], ids)
  }

  lemma {:induction false} RemoveNone(z: SortedSet, ids: seq<string>)
    requires forall i | 0 <= i < |z| :: z[i].id !in ids
    ensures Remove(z, ids) == z
  {
    if z != [] {
      RemoveNone(z[1..], ids);
    }
  }

  lemma {:induction false} RemovePrefix(z: SortedSet, n: nat, ids: seq<string>)
    requires n <= |z| && (forall i, j | 0 <= i < j < |z| :: z[i].id != z[j].id)
    requires forall i | 0 <= i < |z| :: z[i].id in ids <==> i < n
    ensures Remove(z, ids) == z[n..]
  {
    if n == 0 {
      RemoveNone(z, ids);
    } else {
      RemovePrefix(z[1..], n - 1, ids);
    }
  }

  function InsertByScore(z: SortedSet, e: Entry): SortedSet {
    if z == [] || e.score < z[0].score || (e.score == z[0].score && StringLess(e.id, z[0].id)) then [e] + z
    else [z[0]] + InsertByScore(z[1..], e)
  }

  /** ZADD key score id: a member already there gets the new score. */
  function ZAdd(z: SortedSet, e: Entry): SortedSet {
    InsertByScore(Remove(z, [e.id]), e)
  }

  lemma ConsSorted(x: Entry, r: SortedSet)
    requires IsSortedSet(r) && forall e | e in r :: x.score <= e.score && x.id != e.id
    ensures IsSortedSet([x] + r)
  {
    var z := [x] + r;
    forall i, j | 0 <= i < j < |z|
      ensures z[i].score <= z[j].score && z[i].id != z[j].id
    {
      assert z[j] == r[j - 1] && r[j - 1] in r;
    }
  }

  lemma HeadIsLeast(z: SortedSet)
    requires IsSortedSet(z) && z != []
    ensures IsSortedSet(z[1..]) && forall e | e in z[1..] :: z[0].score <= e.score && z[0].id != e.id
  {
    SuffixIsSortedSet(z, 1);
  }

  lemma {:induction false} RemoveMembers(z: SortedSet, ids: seq<string>, x: Entry)
    ensures x in Remove(z, ids) <==> x in z && x.id !in ids
  {
    if z != [] {
      RemoveMembers(z[1..], ids, x);
      assert z == [z[0]] + z[1..];
    }
  }

  lemma {:induction false} RemoveKeeps(z: SortedSet, ids: seq<string>)
    requires IsSortedSet(z)
    ensures IsSortedSet(Remove(z, ids))
  {
    if z != [] {
      HeadIsLeast(z);
      RemoveKeeps(z[1..], ids);
      forall e | e in Remove(z[1..], ids)
        ensures z[0].score <= e.score && z[0].id != e.id
      {
        RemoveMembers(z[1..], ids, e);
      }
      ConsIfSorted(z[0], Remove(z[1..], ids));
    }
  }

  lemma ConsIfSorted(x: Entry, r: SortedSet)
    requires IsSortedSet(r)
    ensures (forall e | e in r :: x.score <= e.score && x.id != e.id) ==> IsSortedSet([x] + r)
  {
    if forall e | e in r :: x.score <= e.score && x.id != e.id {
      ConsSorted(x, r);
    }
  }

  lemma {:induction false} InsertMembers(z: SortedSet, e: Entry, x: Entry)
    ensures x in InsertByScore(z, e) <==> x == e || x in z
  {
    if z != [] {
      InsertMembers(z[1..], e, x);
      assert z == [z[0]] + z[1..];
    }
  }

  lemma {:induction false} InsertKeeps(z: SortedSet, e: Entry)
    requires IsSortedSet(z) && forall x | x in z :: x.id != e.id
    ensures IsSortedSet(InsertByScore(z, e))
  {
    if z == [] {
    } else if e.score < z[0].score || (e.score == z[0].score && StringLess(e.id, z[0].id)) {
      assert forall x | x in z :: e.score <= x.score;
      ConsSorted(e, z);
    } else {
      HeadIsLeast(z);
      InsertKeeps(z[1..], e);
      forall x | x in InsertByScore(z[1..], e)
        ensures z[0].score <= x.score && z[0].id != x.id
      {
        InsertMembers(z[1..], e, x);
      }
      ConsSorted(z[0], InsertByScore(z[1..], e));
    }
  }

  lemma ZAddKeeps(z: SortedSet, e: Entry)
    requires IsSortedSet(z)
    ensures IsSortedSet(ZAdd(z, e))
    ensures forall x :: x in ZAdd(z, e) <==> x == e || (x in z && x.id != e.id)
  {
    var r := Remove(z, [e.id]);
    RemoveKeeps(z, [e.id]);
    forall x
      ensures x in r <==> x in z && x.id != e.id
      ensures x in ZAdd(z, e) <==> x == e || x in r
    {
      RemoveMembers(z, [e.id], x);
      InsertMembers(r, e, x);
    }
    InsertKeeps(r, e);
  }

  // ---------------------------------------------------------------- the promotion script

  const CHUNK := 500

  /** The unchunked move: due members leave the sorted set for the left end of the list. */
  function StillDeferred(z: SortedSet, now: real): SortedSet {
    z[DueCount(z, now)..]
  }

  function AfterPromotion(list: seq<string>, z: SortedSet, now: real): seq<string> {
    LeftPush(list, RangeByScore(z, now))
  }

  lemma RemovesLeading(z: SortedSet, n: nat)
    requires n <= |z| && forall i, j | 0 <= i < j < |z| :: z[i].id != z[j].id
    ensures Remove(z, Ids(z[..n])) == z[n..]
  {
    var ids := Ids(z[..n]);
    assert forall m | 0 <= m < n :: ids[m] == z[m].id;
    forall i | 0 <= i < |z|
      ensures z[i].id in ids <==> i < n
    {
      if i < n {
        assert ids[i] == z[i].id;
      }
    }
    RemovePrefix(z, n, ids);
  }

  /** The sorted sets after the first `n` members of `k` are gone, and the lists after a push on `k`. */
  function Shortened(sets: SortedSets, k: Key, n: nat): SortedSets
    requires n <= |SetAt(sets, k)|
  {
    if n == 0 then sets else sets[k := SetAt(sets, k)[n..]]
  }

  function Extended(lists: Lists, k: Key, ids: seq<string>): Lists {
    if ids == [] then lists else lists[k := LeftPush(ListAt(lists, k), ids)]
  }

  /** Moving ids[from..to] after ids[..from] is moving ids[..to]. */
  lemma ChunkMoves(sets: SortedSets, lists: Lists, k: Key, ids: seq<string>, from: nat, to: nat)
    requires IsSortedSet(SetAt(sets, k)) && from < to <= |ids| <= |SetAt(sets, k)|
    requires ids == Ids(SetAt(sets, k)[..|ids|])
    ensures var now, lists' := Shortened(sets, k, from), Extended(lists, k, ids[..from]);
            && now[k := Remove(SetAt(now, k), ids[from..to])] == Shortened(sets, k, to)
            && lists'[k := LeftPush(ListAt(lists', k), ids[from..to])] == Extended(lists, k, ids[..to])
  {
    var z, list := SetAt(sets, k), ListAt(lists, k);
    ChunkLeaves(z, ids, from, to);
    PushesChunk(list, ids, from, to);
    assert ids[..to] != [];
    if from == 0 {
      assert z[0..] == z && ids[..0] == [] && LeftPush(list, []) == list;
    }
  }

  lemma ChunkLeaves(z: SortedSet, ids: seq<string>, from: nat, to: nat)
    requires IsSortedSet(z) && from <= to <= |ids| <= |z| && ids == Ids(z[..|ids|])
    ensures Remove(z[from..], ids[from..to]) == z[to..]
  {
    var rest := z[from..];
    assert ids[from..to] == Ids(rest[..to - from]);
    assert forall i | 0 <= i < |rest| :: rest[i] == z[from + i];
    RemovesLeading(rest, to - from);
    assert rest[to - from..] == z[to..];
  }

  lemma PushesChunk(list: seq<string>, ids: seq<string>, from: nat, to: nat)
    requires from <= to <= |ids|
    ensures LeftPush(LeftPush(list, ids[..from]), ids[from..to]) == LeftPush(list, ids[..to])
  {
    assert ids[..to] == ids[..from] + ids[from..to];
    ReverseConcat(ids[..from], ids[from..to]);
  }

  lemma SuffixIsSortedSet(z: SortedSet, n: nat)
    requires IsSortedSet(z) && n <= |z|
    ensures IsSortedSet(z[n..])
  {
    assert forall i | 0 <= i < |z[n..]| :: z[n..][i] == z[n + i];
  }

  /** The sorted sets and lists after the unchunked move on one key. */
  function MoveSet(sets: SortedSets, k: Key, now: real): SortedSets {
    var z := SetAt(sets, k);
    if DueCount(z, now) == 0 then sets else sets[k := StillDeferred(z, now)]
  }

  function MoveList(lists: Lists, sets: SortedSets, k: Key, now: real): Lists {
    var z := SetAt(sets, k);
    if DueCount(z, now) == 0 then lists else lists[k := AfterPromotion(ListAt(lists, k), z, now)]
  }

  lemma MoveAt(lists: Lists, sets: SortedSets, k: Key, now: real, o: Key)
    ensures SetAt(MoveSet(sets, k, now), o) == if o == k then StillDeferred(SetAt(sets, k), now) else SetAt(sets, o)
    ensures ListAt(MoveList(lists, sets, k, now), o)
         == if o == k then AfterPromotion(ListAt(lists, k), SetAt(sets, k), now) else ListAt(lists, o)
  {
    if DueCount(SetAt(sets, k), now) == 0 {
      assert RangeByScore(SetAt(sets, k), now) == [];
    }
  }

  /** What the script leaves on one key: its due members moved if it was listed. */
  ghost predicate PromotedAt(k: Key, keys: seq<Key>, now: real, lists: Lists, sets: SortedSets, lists': Lists,
                             sets': SortedSets) {
    && SetAt(sets', k) == (if k in keys then StillDeferred(SetAt(sets, k), now) else SetAt(sets, k))
    && ListAt(lists', k) == if k in keys then AfterPromotion(ListAt(lists, k), SetAt(sets, k), now)
                            else ListAt(lists, k)
  }

  /** Exactly the listed keys had their due members moved. */
  ghost predicate PromotedOn(keys: seq<Key>, now: real, lists: Lists, sets: SortedSets, lists': Lists,
                             sets': SortedSets) {
    forall k :: PromotedAt(k, keys, now, lists, sets, lists', sets')
  }

  /** Exactly the due members of the listed keys left their deferred sets. */
  ghost predicate DueLeave(keys: seq<Key>, now: real, sets: SortedSets, sets': SortedSets) {
    forall k :: SetAt(sets', k) == if k in keys then StillDeferred(SetAt(sets, k), now) else SetAt(sets, k)
  }

  lemma DeferredAfter(keys: seq<Key>, now: real, lists: Lists, sets: SortedSets, lists': Lists, sets': SortedSets)
    requires PromotedOn(keys, now, lists, sets, lists', sets')
    ensures DueLeave(keys, now, sets, sets')
  {
    forall k
      ensures SetAt(sets', k) == if k in keys then StillDeferred(SetAt(sets, k), now) else SetAt(sets, k)
    {
      assert PromotedAt(k, keys, now, lists, sets, lists', sets');
    }
  }

  lemma PromotedAtNext(keys: seq<Key>, i: nat, o: Key, now: real, lists: Lists, sets: SortedSets, lists': Lists,
                       sets': SortedSets)
    requires i < |keys| && PromotedAt(o, keys[..i], now, lists, sets, lists', sets')
    ensures PromotedAt(o, keys[..i + 1], now, lists, sets,
                       MoveList(lists', sets', keys[i], now), MoveSet(sets', keys[i], now))
  {
    assert keys[..i + 1] == keys[..i] + [keys[i]];
    MoveAt(lists', sets', keys[i], now, o);
    NothingLeftDue(SetAt(sets, o), now);
  }

  lemma PromotedOnNext(keys: seq<Key>, i: nat, now: real, lists: Lists, sets: SortedSets, lists': Lists,
                       sets': SortedSets)
    requires i < |keys| && PromotedOn(keys[..i], now, lists, sets, lists', sets')
    ensures PromotedOn(keys[..i + 1], now, lists, sets,
                       MoveList(lists', sets', keys[i], now), MoveSet(sets', keys[i], now))
  {
    var more, lists2, sets2 := keys[..i + 1], MoveList(lists', sets', keys[i], now), MoveSet(sets', keys[i], now);
    forall o
      ensures PromotedAt(o, more, now, lists, sets, lists2, sets2)
    {
      assert PromotedAt(o, keys[..i], now, lists, sets, lists', sets');
      PromotedAtNext(keys, i, o, now, lists, sets, lists', sets');
    }
  }

  lemma NothingLeftDue(z: SortedSet, now: real)
    ensures DueCount(StillDeferred(z, now), now) == 0
    ensures StillDeferred(StillDeferred(z, now), now) == StillDeferred(z, now)
    ensures forall list :: AfterPromotion(list, StillDeferred(z, now), now) == list
  {
    assert RangeByScore(StillDeferred(z, now), now) == [];
  }

  /** Nothing is lost, doubled or invented by the move. */
  lemma PromotionConserves(list: seq<string>, z: SortedSet, now: real)
    ensures multiset(AfterPromotion(list, z, now)) + multiset(Ids(StillDeferred(z, now)))
            == multiset(list) + multiset(Ids(z))
  {
    var n := DueCount(z, now);
    assert Ids(z) == Ids(z[..n]) + Ids(z[n..]);
    ReverseMultiset(RangeByScore(z, now));
  }

  lemma {:induction false} ReverseMultiset(ids: seq<string>)
    ensures multiset(Reverse(ids)) == multiset(ids)
  {
    if ids != [] {
      ReverseMultiset(ids[1..]);
      assert ids == [ids[0]] + ids[1..];
    }
  }

  // ---------------------------------------------------------------- one flat queue

  /** One flat queue that remembers for every queued id when it arrived: the lists as one sequence. */
  datatype Arrival = Arrival(id: string, key: Key)

  type Flat = seq<Arrival>

  function IdsFor(flat: Flat, k: Key): seq<string> {
    if flat == [] then []
    else
      var n := |flat| - 1;
      IdsFor(flat[..n], k) + (if flat[n].key == k then [flat[n].id] else [])
  }

  /** The lists show the flat queue: each one its own arrivals, the newest on the left. */
  ghost predicate Shows(lists: Lists, flat: Flat) {
    forall k :: ListAt(lists, k) == Reverse(IdsFor(flat, k))
  }

  function Arrivals(k: Key, ids: seq<string>): (r: Flat)
    ensures |r| == |ids| && forall i | 0 <= i < |r| :: r[i] == Arrival(ids[i], k)
  {
    seq(|ids|, i requires 0 <= i < |ids| => Arrival(ids[i], k))
  }

  lemma {:induction false} IdsForConcat(a: Flat, b: Flat, k: Key)
    ensures IdsFor(a + b, k) == IdsFor(a, k) + IdsFor(b, k)
  {
    if b == [] {
      assert a + b == a;
    } else {
      var n := |b| - 1;
      IdsForConcat(a, b[..n], k);
      assert (a + b)[..|a| + n] == a + b[..n];
    }
  }

  lemma {:induction false} IdsForArrivals(k: Key, ids: seq<string>, o: Key)
    ensures IdsFor(Arrivals(k, ids), o) == if o == k then ids else []
  {
    if ids != [] {
      var n := |ids| - 1;
      IdsForArrivals(k, ids[..n], o);
      assert Arrivals(k, ids)[..n] == Arrivals(k, ids[..n]);
      assert ids == ids[..n] + [ids[n]];
    }
  }

  lemma PushShowsAt(list: seq<string>, flat: Flat, k: Key, ids: seq<string>, o: Key)
    requires list == Reverse(IdsFor(flat, o))
    ensures Reverse(IdsFor(flat + Arrivals(k, ids), o)) == if o == k then LeftPush(list, ids) else list
  {
    IdsForConcat(flat, Arrivals(k, ids), o);
    IdsForArrivals(k, ids, o);
    ReverseConcat(IdsFor(flat, o), IdsFor(Arrivals(k, ids), o));
    assert IdsFor(flat, o) + [] == IdsFor(flat, o);
  }

  lemma PushShows(lists: Lists, flat: Flat, k: Key, ids: seq<string>)
    requires Shows(lists, flat)
    ensures Shows(lists[k := LeftPush(ListAt(lists, k), ids)], flat + Arrivals(k, ids))
  {
    var flat', lists' := flat + Arrivals(k, ids), lists[k := LeftPush(ListAt(lists, k), ids)];
    forall o
      ensures ListAt(lists', o) == Reverse(IdsFor(flat', o))
    {
      PushShowsAt(ListAt(lists, o), flat, k, ids, o);
    }
  }

  /** The arrivals a promotion makes, key after key in score order, a repeated key once. */
  function Moved(sets: SortedSets, keys: seq<Key>, now: real): Flat {
    if keys == [] then []
    else
      var n := |keys| - 1;
      Moved(sets, keys[..n], now)
      + (if keys[n] in keys[..n] then [] else Arrivals(keys[n], RangeByScore(SetAt(sets, keys[n]), now)))
  }

  lemma MovedMore(keys: seq<Key>, k: Key, now: real, sets: SortedSets)
    ensures Moved(sets, keys + [k], now)
         == Moved(sets, keys, now) + (if k in keys then [] else Arrivals(k, RangeByScore(SetAt(sets, k), now)))
  {
    var more := keys + [k];
    assert more[..|more| - 1] == keys;
  }

  lemma MovedUnfolds(keys: seq<Key>, i: nat, now: real, sets: SortedSets)
    requires i < |keys|
    ensures Moved(sets, keys[..i + 1], now) == Moved(sets, keys[..i], now)
         + (if keys[i] in keys[..i] then [] else Arrivals(keys[i], RangeByScore(SetAt(sets, keys[i]), now)))
  {
    assert keys[..i + 1] == keys[..i] + [keys[i]];
    MovedMore(keys[..i], keys[i], now, sets);
  }

  lemma NothingMovedAgain(z: SortedSet, k: Key, now: real)
    ensures Arrivals(k, RangeByScore(StillDeferred(z, now), now)) == []
  {
    NothingLeftDue(z, now);
  }

  lemma MovedNext(keys: seq<Key>, i: nat, now: real, sets: SortedSets, z: SortedSet)
    requires i < |keys|
    requires z == if keys[i] in keys[..i] then StillDeferred(SetAt(sets, keys[i]), now) else SetAt(sets, keys[i])
    ensures Moved(sets, keys[..i + 1], now)
         == Moved(sets, keys[..i], now) + Arrivals(keys[i], RangeByScore(z, now))
  {
    MovedUnfolds(keys, i, now, sets);
    NothingMovedAgain(SetAt(sets, keys[i]), keys[i], now);
  }

  /** The whole effect of the script on the lists, the sorted sets and the flat queue. */
  ghost predicate ScriptDone(keys: seq<Key>, now: real, lists: Lists, sets: SortedSets, flat: Flat,
                             lists': Lists, sets': SortedSets, flat': Flat, moved: nat)
  {
    && PromotedOn(keys, now, lists, sets, lists', sets')
    && flat' == flat + Moved(sets, keys, now) && moved == |Moved(sets, keys, now)|
  }

  lemma ScriptNext(keys: seq<Key>, i: nat, now: real, lists: Lists, sets: SortedSets, flat: Flat,
                   lists': Lists, sets': SortedSets, flat': Flat, moved: nat)
    requires i < |keys| && ScriptDone(keys[..i], now, lists, sets, flat, lists', sets', flat', moved)
    ensures var ids := RangeByScore(SetAt(sets', keys[i]), now);
            ScriptDone(keys[..i + 1], now, lists, sets, flat, MoveList(lists', sets', keys[i], now),
                       MoveSet(sets', keys[i], now), flat' + Arrivals(keys[i], ids), moved + |ids|)
  {
    PromotedOnNext(keys, i, now, lists, sets, lists', sets');
    assert PromotedAt(keys[i], keys[..i], now, lists, sets, lists', sets');
    FlatNext(keys, i, now, sets, flat, SetAt(sets', keys[i]));
  }

  lemma FlatNext(keys: seq<Key>, i: nat, now: real, sets: SortedSets, flat: Flat, z: SortedSet)
    requires i < |keys|
    requires z == if keys[i] in keys[..i] then StillDeferred(SetAt(sets, keys[i]), now) else SetAt(sets, keys[i])
    ensures var ids := RangeByScore(z, now);
            && flat + Moved(sets, keys[..i + 1], now) == flat + Moved(sets, keys[..i], now) + Arrivals(keys[i], ids)
            && |Moved(sets, keys[..i + 1], now)| == |Moved(sets, keys[..i], now)| + |ids|
  {
    MovedNext(keys, i, now, sets, z);
    ConcatIsAssociative(flat, Moved(sets, keys[..i], now), Arrivals(keys[i], RangeByScore(z, now)));
  }

  lemma ConcatIsAssociative(a: Flat, b: Flat, c: Flat)
    ensures a + (b + c) == a + b + c
  {
  }

  /** Queueing one id: into the future, or onto its tier's list. */
  function Queued(flat: Flat, sets: SortedSets, id: string, k: Key, runAt: Option<real>, now: real): (Flat,
                  SortedSets) {
    if runAt.Some? && runAt.value > now then (flat, sets[k := ZAdd(SetAt(sets, k), Entry(id, runAt.value))])
    else (flat + [Arrival(id, k)], sets)
  }

  /** What holds of the lists, the sorted sets and the flat queue between calls. */
  ghost predicate GoodQueues(lists: Lists, sets: SortedSets, flat: Flat) {
    && Shows(lists, flat) && (forall j: nat | j < |flat| :: flat[j].key.tier in TIERS)
    && forall k | k in sets :: IsSortedSet(sets[k])
  }

  lemma DeferKeepsGood(lists: Lists, sets: SortedSets, flat: Flat, k: Key, e: Entry)
    requires GoodQueues(lists, sets, flat)
    ensures GoodQueues(lists, sets[k := ZAdd(SetAt(sets, k), e)], flat)
  {
    ZAddKeeps(SetAt(sets, k), e);
  }

  lemma PushKeepsGood(lists: Lists, sets: SortedSets, flat: Flat, k: Key, id: string)
    requires GoodQueues(lists, sets, flat) && k.tier in TIERS
    ensures GoodQueues(lists[k := [id] + ListAt(lists, k)], sets, flat + [Arrival(id, k)])
  {
    PushShows(lists, flat, k, [id]);
    assert Arrivals(k, [id]) == [Arrival(id, k)] && Reverse([id]) == [id];
  }

  /** Shortening the set and extending the list by all due members is the unchunked move. */
  lemma AllChunksMove(lists: Lists, sets: SortedSets, k: Key, now: real)
    ensures var ids := RangeByScore(SetAt(sets, k), now);
            && |ids| <= |SetAt(sets, k)| && Shortened(sets, k, |ids|) == MoveSet(sets, k, now)
            && Extended(lists, k, ids) == MoveList(lists, sets, k, now)
  {
  }

  lemma MoveKeepsGood(lists: Lists, sets: SortedSets, flat: Flat, k: Key, now: real)
    requires GoodQueues(lists, sets, flat) && k.tier in TIERS
    ensures GoodQueues(MoveList(lists, sets, k, now), MoveSet(sets, k, now),
                       flat + Arrivals(k, RangeByScore(SetAt(sets, k), now)))
  {
    var z := SetAt(sets, k);
    PushShows(lists, flat, k, RangeByScore(z, now));
    SuffixIsSortedSet(z, DueCount(z, now));
    if DueCount(z, now) == 0 {
      assert flat + Arrivals(k, RangeByScore(z, now)) == flat;
    }
  }

  // ---------------------------------------------------------------- the order of a blocking pop

  function FirstIndex(queues: seq<string>, q: string): (i: nat)
    requires q in queues
    ensures i < |queues| && queues[i] == q && forall j | 0 <= j < i :: queues[j] != q
  {
    if queues[0] == q then 0 else 1 + FirstIndex(queues[1..], q)
  }

  /** Higher tiers first, and within a tier the queues in the order they are listed. */
  ghost predicate Before(queues: seq<string>, a: Key, b: Key)
    requires a.queue in queues && b.queue in queues
  {
    a.tier > b.tier || (a.tier == b.tier && FirstIndex(queues, a.queue) < FirstIndex(queues, b.queue))
  }

  /** Entry `i` is what a priority queue ordered by (tier descending, queue position, arrival) returns. */
  ghost predicate IsNext(flat: Flat, queues: seq<string>, i: nat) {
    && i < |flat| && flat[i].key.queue in queues
    && forall j: nat | j < |flat| && flat[j].key.queue in queues ::
         j == i || Before(queues, flat[i].key, flat[j].key) || (flat[i].key == flat[j].key && i < j)
  }

  /** A pop for these queues: the next entry, or there is none for them. */
  ghost predicate TakesNext(flat: Flat, queues: seq<string>, id: Option<string>, flat': Flat) {
    match id
    case None => flat' == flat && forall j: nat | j < |flat| :: flat[j].key.queue !in queues
    case Some(value) => exists i: nat :: IsNext(flat, queues, i) && flat[i].id == value && flat' == Without(flat, i)
  }

  /** A pop never takes a job while one of a higher band of priorities is listed for its queues: the bands end at
      0 and at 5. */
  lemma HigherBandFirst(flat: Flat, queues: seq<string>, i: nat, j: nat, a: string, p: int, b: string, q: int)
    requires IsNext(flat, queues, i) && j < |flat|
    requires flat[i].key == KeyOf(a, p) && flat[j].key == KeyOf(b, q) && b in queues
    ensures !(p <= 0 < q) && !(p <= 5 < q)
  {
    assert 0 in TIERS && 5 in TIERS && 10 in TIERS;
  }

  lemma NextIsUnique(flat: Flat, queues: seq<string>, i: nat, j: nat)
    requires IsNext(flat, queues, i) && IsNext(flat, queues, j)
    ensures i == j
  {
  }

  function KeysOfTier(queues: seq<string>, tier: int): (keys: seq<Key>)
    ensures |keys| == |queues| && forall i | 0 <= i < |keys| :: keys[i] == Key(queues[i], tier)
  {
    seq(|queues|, i requires 0 <= i < |queues| => Key(queues[i], tier))
  }

  /** Priority-major: every queue's list of one tier before any list of the next tier. */
  function ScanKeys(queues: seq<string>): seq<Key> {
    KeysOfTier(queues, TIERS[0]) + KeysOfTier(queues, TIERS[1]) + KeysOfTier(queues, TIERS[2])
  }

  /** Where BRPOP stops: the first key with a non-empty list, or the end. */
  function FirstNonEmpty(lists: Lists, keys: seq<Key>): (m: nat)
    ensures m <= |keys| && forall i | 0 <= i < m :: ListAt(lists, keys[i]) == []
    ensures m < |keys| ==> ListAt(lists, keys[m]) != []
  {
    if keys == [] || ListAt(lists, keys[0]) != [] then 0 else 1 + FirstNonEmpty(lists, keys[1..])
  }

  function ScanPosition(queues: seq<string>, k: Key): (m: nat)
    requires k.queue in queues && k.tier in TIERS
    ensures m < |ScanKeys(queues)| && ScanKeys(queues)[m] == k
  {
    (if k.tier == 10 then 0 else if k.tier == 5 then |queues| else 2 * |queues|) + FirstIndex(queues, k.queue)
  }

  lemma ScanIsOrdered(queues: seq<string>, m: nat, b: Key)
    requires m < |ScanKeys(queues)| && b.queue in queues && b.tier in TIERS
    ensures var a := ScanKeys(queues)[m];
            && a.queue in queues && a.tier in TIERS && ScanPosition(queues, a) <= m
            && (ScanPosition(queues, a) < ScanPosition(queues, b) <==> Before(queues, a, b))
  {
    var a, n := ScanKeys(queues)[m], |queues|;
    var p := if m < n then m else if m < 2 * n then m - n else m - 2 * n;
    assert a.queue == queues[p];
  }

  /** The first arrival of a key is the right end of its list, and popping it removes that arrival. */
  lemma {:induction false} OldestOf(flat: Flat, k: Key) returns (i: nat)
    requires IdsFor(flat, k) != []
    ensures i < |flat| && flat[i].key == k && flat[i].id == IdsFor(flat, k)[0]
    ensures forall j: nat | j < i :: flat[j].key != k
  {
    var n := |flat| - 1;
    if IdsFor(flat[..n], k) != [] {
      i := OldestOf(flat[..n], k);
    } else {
      NoneOf(flat[..n], k);
      i := n;
    }
  }

  lemma {:induction false} NoneOf(flat: Flat, k: Key)
    ensures IdsFor(flat, k) == [] <==> forall j: nat | j < |flat| :: flat[j].key != k
  {
    if flat != [] {
      NoneOf(flat[..|flat| - 1], k);
    }
  }

  /** One entry out of the flat queue. */
  function Without(flat: Flat, i: nat): Flat
    requires i < |flat|
  {
    flat[..i] + flat[i + 1..]
  }

  lemma IdsForOne(x: Arrival, o: Key)
    ensures IdsFor([x], o) == if x.key == o then [x.id] else []
  {
    assert [x][..0] == [];
  }

  lemma IdsForSplit(flat: Flat, i: nat, o: Key)
    requires i < |flat|
    ensures IdsFor(flat, o) == IdsFor(flat[..i], o) + (IdsFor([flat[i]], o) + IdsFor(flat[i + 1..], o))
    ensures IdsFor(Without(flat, i), o) == IdsFor(flat[..i], o) + IdsFor(flat[i + 1..], o)
  {
    assert flat == flat[..i] + ([flat[i]] + flat[i + 1..]);
    IdsForConcat(flat[..i], [flat[i]] + flat[i + 1..], o);
    IdsForConcat([flat[i]], flat[i + 1..], o);
    IdsForConcat(flat[..i], flat[i + 1..], o);
  }

  lemma IdsForWithout(flat: Flat, i: nat, o: Key)
    requires i < |flat|
    requires forall j: nat | j < i :: flat[j].key != flat[i].key
    ensures o == flat[i].key ==> IdsFor(flat, o) == [flat[i].id] + IdsFor(Without(flat, i), o)
    ensures o != flat[i].key ==> IdsFor(flat, o) == IdsFor(Without(flat, i), o)
  {
    IdsForSplit(flat, i, o);
    IdsForOne(flat[i], o);
    NoneOf(flat[..i], flat[i].key);
  }

  lemma DropsOldest(list: seq<string>, id: string, rest: seq<string>)
    requires list == Reverse([id] + rest)
    ensures list != [] && list[|list| - 1] == id && list[..|list| - 1] == Reverse(rest)
  {
    ReverseConcat([id], rest);
  }

  lemma PopShows(lists: Lists, flat: Flat, k: Key, i: nat)
    requires Shows(lists, flat) && i < |flat| && flat[i].key == k
    requires forall j: nat | j < i :: flat[j].key != k
    ensures var list := ListAt(lists, k);
            && list != [] && list[|list| - 1] == flat[i].id
            && Shows(lists[k := list[..|list| - 1]], Without(flat, i))
  {
    var list, rest := ListAt(lists, k), Without(flat, i);
    IdsForWithout(flat, i, k);
    DropsOldest(list, flat[i].id, IdsFor(rest, k));
    var lists' := lists[k := list[..|list| - 1]];
    forall o
      ensures ListAt(lists', o) == Reverse(IdsFor(rest, o))
    {
      if o != k {
        IdsForWithout(flat, i, o);
        assert ListAt(lists, o) == Reverse(IdsFor(flat, o));
      }
    }
  }

  /** The scan stops at the list of the entry that the flat queue would return. */
  lemma ScanFindsNext(lists: Lists, flat: Flat, queues: seq<string>) returns (i: nat)
    requires Shows(lists, flat) && (forall j: nat | j < |flat| :: flat[j].key.tier in TIERS)
    requires FirstNonEmpty(lists, ScanKeys(queues)) < |ScanKeys(queues)|
    ensures IsNext(flat, queues, i) && flat[i].key == ScanKeys(queues)[FirstNonEmpty(lists, ScanKeys(queues))]
    ensures forall j: nat | j < i :: flat[j].key != flat[i].key
  {
    var m := FirstNonEmpty(lists, ScanKeys(queues));
    var k := ScanKeys(queues)[m];
    ScanIsOrdered(queues, m, Key(k.queue, k.tier));
    i := OldestOf(flat, k);
    forall j: nat | j < |flat| && flat[j].key.queue in queues
      ensures j == i || Before(queues, k, flat[j].key) || (k == flat[j].key && i < j)
    {
      NonEmptyIsLater(lists, flat, queues, m, j);
    }
  }

  lemma NonEmptyIsLater(lists: Lists, flat: Flat, queues: seq<string>, m: nat, j: nat)
    requires Shows(lists, flat) && m == FirstNonEmpty(lists, ScanKeys(queues)) < |ScanKeys(queues)|
    requires j < |flat| && flat[j].key.queue in queues && flat[j].key.tier in TIERS
    ensures var k := ScanKeys(queues)[m];
            k.queue in queues && (k == flat[j].key || Before(queues, k, flat[j].key))
  {
    var k, b := ScanKeys(queues)[m], flat[j].key;
    ScanIsOrdered(queues, m, b);
    NoneOf(flat, b);
    assert ListAt(lists, b) == Reverse(IdsFor(flat, b)) != [];
    assert ScanPosition(queues, b) >= m;
    if ScanPosition(queues, b) == ScanPosition(queues, k) {
      assert b == k;
    }
  }

  /** What a pop from the first non-empty list does to the lists and the flat queue. */
  lemma PopEffect(lists: Lists, sets: SortedSets, flat: Flat, queues: seq<string>) returns (flat': Flat)
    requires GoodQueues(lists, sets, flat) && FirstNonEmpty(lists, ScanKeys(queues)) < |ScanKeys(queues)|
    ensures var k := ScanKeys(queues)[FirstNonEmpty(lists, ScanKeys(queues))];
            var list := ListAt(lists, k);
            && list != [] && TakesNext(flat, queues, Some(list[|list| - 1]), flat')
            && GoodQueues(lists[k := list[..|list| - 1]], sets, flat')
  {
    var k := ScanKeys(queues)[FirstNonEmpty(lists, ScanKeys(queues))];
    var i := ScanFindsNext(lists, flat, queues);
    PopShows(lists, flat, k, i);
    flat' := Without(flat, i);
    WithoutKeepsTiers(flat, i);
  }

  lemma WithoutKeepsTiers(flat: Flat, i: nat)
    requires i < |flat| && forall j: nat | j < |flat| :: flat[j].key.tier in TIERS
    ensures forall j: nat | j < |Without(flat, i)| :: Without(flat, i)[j].key.tier in TIERS
  {
    var rest := Without(flat, i);
    forall j: nat | j < |rest|
      ensures rest[j].key.tier in TIERS
    {
      assert rest[j] == if j < i then flat[j] else flat[j + 1];
    }
  }

  lemma EmptyScanTakesNothing(lists: Lists, flat: Flat, queues: seq<string>)
    requires Shows(lists, flat) && FirstNonEmpty(lists, ScanKeys(queues)) == |ScanKeys(queues)|
    requires forall j: nat | j < |flat| :: flat[j].key.tier in TIERS
    ensures TakesNext(flat, queues, None, flat)
  {
    forall j: nat | j < |flat|
      ensures flat[j].key.queue !in queues
    {
      EmptyScanMeansNothing(lists, flat, queues, j);
    }
  }

  /** An empty scan means the flat queue has nothing for these queues. */
  lemma EmptyScanMeansNothing(lists: Lists, flat: Flat, queues: seq<string>, j: nat)
    requires Shows(lists, flat) && FirstNonEmpty(lists, ScanKeys(queues)) == |ScanKeys(queues)|
    requires j < |flat| && flat[j].key.tier in TIERS
    ensures flat[j].key.queue !in queues
  {
    var b := flat[j].key;
    NoneOf(flat, b);
    assert ListAt(lists, b) == Reverse(IdsFor(flat, b)) != [];
    if b.queue in queues {
      var m := ScanPosition(queues, b);
    }
  }
}
