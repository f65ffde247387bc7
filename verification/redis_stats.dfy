/** queue_stats of the Redis broker (src/aioq/backends/redis.py): one flat list of set intersections,
    sliced per queue. */
module RedisStats {
  import opened Jobs
  import opened RedisIndex
  import opened Statistics

  /** Counts per queue in the flat list. */
  const WIDTH: nat := 8

  function Position(st: Status): (k: nat)
    ensures k < WIDTH == |ALL_STATUSES| && ALL_STATUSES[k] == st
  {
    match st
    case Pending => 0
    case Waiting => 1
    case Running => 2
    case Completed => 3
    case Failed => 4
    case Retrying => 5
    case Cancelled => 6
    case Dead => 7
  }

  function Shared(ix: Index, q: string, st: Status): set<string> {
    set p | p in ix.byQueue && p.0 == q && (st, p.1) in ix.byStatus :: p.1
  }

  /** SINTERCARD of a queue set and a status set. */
  function Card(ix: Index, q: string, st: Status): nat {
    |Shared(ix, q, st)|
  }

  /** The counts of one queue, in the order of the statuses. */
  ghost predicate RowOf(row: seq<nat>, ix: Index, q: string) {
    |row| == WIDTH && forall st :: row[Position(st)] == Card(ix, q, st)
  }

  ghost predicate RowsOf(counts: seq<nat>, ix: Index, names: seq<string>) {
    && |counts| == WIDTH * |names|
    && forall i: nat | i < |names| :: RowOf(counts[WIDTH * i..WIDTH * i + WIDTH], ix, names[i])
  }

  /** The key of the queue's set exists. */
  ghost predicate HasSet(ix: Index, q: string) {
    exists id :: (q, id) in ix.byQueue
  }

  /** The queues that have a set, in some order. */
  method QueueNames(ix: Index) returns (names: seq<string>)
    ensures forall q :: q in names <==> HasSet(ix, q)
  {
    names := [];
    var todo := set p | p in ix.byQueue :: p.0;
    forall q, id | (q, id) in ix.byQueue
      ensures q in todo
    {
      assert (q, id).0 in todo;
    }
    while todo != {}
      invariant forall q :: q in names || q in todo <==> HasSet(ix, q)
      decreases todo
    {
      var q :| q in todo;
      names, todo := names + [q], todo - {q};
    }
  }

  method PipelineCounts(ix: Index, names: seq<string>) returns (counts: seq<nat>)
    ensures RowsOf(counts, ix, names)
  {
    counts := [];
    var i := 0;
    while i < |names|
      invariant 0 <= i <= |names| && RowsOf(counts, ix, names[..i])
    {
      var row: seq<nat> := [];
      var k := 0;
      while k < WIDTH
        invariant 0 <= k <= WIDTH == |ALL_STATUSES| && |row| == k
        invariant forall st :: Position(st) < k ==> row[Position(st)] == Card(ix, names[i], st)
      {
        row := row + [Card(ix, names[i], ALL_STATUSES[k])];
        k := k + 1;
      }
      RowsNext(counts, row, ix, names[..i], names[i]);
      assert names[..i + 1] == names[..i] + [names[i]];
      counts := counts + row;
      i := i + 1;
    }
    assert names[..i] == names;
  }

  lemma RowsNext(counts: seq<nat>, row: seq<nat>, ix: Index, names: seq<string>, q: string)
    requires RowsOf(counts, ix, names) && RowOf(row, ix, q)
    ensures RowsOf(counts + row, ix, names + [q])
  {
    forall i: nat | i < |names + [q]|
      ensures RowOf((counts + row)[WIDTH * i..WIDTH * i + WIDTH], ix, (names + [q])[i])
    {
      if i < |names| {
        assert (counts + row)[WIDTH * i..WIDTH * i + WIDTH] == counts[WIDTH * i..WIDTH * i + WIDTH];
      } else {
        assert (counts + row)[WIDTH * i..WIDTH * i + WIDTH] == row;
      }
    }
  }

  /** The positive counts of one slice, under their statuses. */
  function PerStatus(row: seq<nat>): (r: map<Status, nat>)
    requires |row| == WIDTH
    ensures forall st :: st in r <==> row[Position(st)] > 0
    ensures forall st | st in r :: r[st] == row[Position(st)]
  {
    map st | st in ALL_STATUSES && row[Position(st)] > 0 :: row[Position(st)]
  }

  /** Under each queue the positive counts of its own row. */
  ghost predicate StatsOf(stats: Stats, ix: Index, names: seq<string>) {
    && (forall q :: q in stats <==> q in names)
    && (forall q, st | q in stats :: Count(stats, q, st) == Card(ix, q, st))
    && (forall q, st | q in stats && st in stats[q] :: stats[q][st] > 0)
  }

  method SliceCounts(ix: Index, names: seq<string>, counts: seq<nat>) returns (stats: Stats)
    requires RowsOf(counts, ix, names)
    ensures StatsOf(stats, ix, names)
  {
    stats := map[];
    var i := 0;
    while i < |names|
      invariant 0 <= i <= |names| && StatsOf(stats, ix, names[..i])
    {
      assert RowOf(counts[WIDTH * i..WIDTH * i + WIDTH], ix, names[i]);
      var perStatus := PerStatus(counts[WIDTH * i..WIDTH * (i + 1)]);
      StatsNext(stats, ix, names[..i], names[i], counts[WIDTH * i..WIDTH * (i + 1)]);
      assert names[..i + 1] == names[..i] + [names[i]];
      stats := stats[names[i] := perStatus];
      i := i + 1;
    }
    assert names[..i] == names;
  }

  lemma StatsNext(stats: Stats, ix: Index, names: seq<string>, q: string, row: seq<nat>)
    requires StatsOf(stats, ix, names) && RowOf(row, ix, q)
    ensures StatsOf(stats[q := PerStatus(row)], ix, names + [q])
  {
    var stats' := stats[q := PerStatus(row)];
    forall o, st | o in stats'
      ensures Count(stats', o, st) == Card(ix, o, st)
      ensures st in stats'[o] ==> stats'[o][st] > 0
    {
      if o == q {
        assert row[Position(st)] == Card(ix, q, st);
      } else {
        assert Count(stats, o, st) == Card(ix, o, st);
      }
    }
  }

  /** On an exact index the sliced counts are what a full scan of the records would give. */
  lemma StatsCount(stats: Stats, names: seq<string>, ix: Index)
    requires StatsOf(stats, ix, names) && Exact(ix)
    requires forall q :: q in names <==> HasSet(ix, q)
    ensures CountsEveryJob(stats, ix.records)
  {
    forall q
      ensures HasSet(ix, q) <==> exists id :: id in ix.records && ix.records[id].queue == q
    {
      assert forall id :: (q, id) in ix.byQueue <==> id in ix.records && ix.records[id].queue == q;
    }
    forall q, st
      ensures Count(stats, q, st) == |Matching(ix.records, q, st)|
    {
      SharedIsMatching(ix, q, st);
      if q !in names {
        assert Matching(ix.records, q, st) == {};
      }
    }
  }

  lemma SharedIsMatching(ix: Index, q: string, st: Status)
    requires Exact(ix)
    ensures Shared(ix, q, st) == Matching(ix.records, q, st)
  {
    forall id
      ensures id in Shared(ix, q, st) <==> id in Matching(ix.records, q, st)
    {
      if id in Matching(ix.records, q, st) {
        assert (q, id) in ix.byQueue && (q, id).1 in Shared(ix, q, st);
      }
    }
  }
}
