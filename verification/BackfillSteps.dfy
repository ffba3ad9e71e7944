/** Backfill as its loops run it: page by page and shard by shard, up to the first insert whose
    target is not in the cluster. */
module BackfillSteps {
  import opened Sharding
  import opened MessageTable
  import opened ClusterConfig
  import opened ReshardingProtocol
  import opened BackfillPlan

  /** How many source shards the loops can visit. */
  function Sources(readN: int, n: nat): (k: nat)
    ensures k <= n
  {
    if readN <= 0 then 0 else if readN <= n then readN else n
  }

  /** Position of the first move that leaves the cluster, or the number of moves. */
  function FirstOutside(ms: seq<Move>, n: nat): (k: nat)
    ensures k <= |ms|
    ensures InCluster(ms[..k], n)
    ensures k < |ms| ==> ms[k].dst >= n
  {
    if ms == [] || ms[0].dst >= n then 0 else FirstOutside(ms[1..], n) + 1
  }

  function ApplyUpTo(shards: seq<Table>, ms: seq<Move>): seq<Table> {
    ApplyMoves(shards, ms[..FirstOutside(ms, |shards|)])
  }

  function Outcome(ms: seq<Move>, n: nat): Result<nat> {
    if FirstOutside(ms, n) == |ms| then Ok(|ms|) else Err(NoSuchShard)
  }

  lemma {:induction false} FirstOutsideIs(ms: seq<Move>, n: nat, k: nat)
    requires k <= |ms| && InCluster(ms[..k], n) && (k < |ms| ==> ms[k].dst >= n)
    ensures FirstOutside(ms, n) == k
  {
    if k > 0 {
      assert ms[0] == ms[..k][0];
      assert ms[1..][..k - 1] == ms[..k][1..];
      FirstOutsideIs(ms[1..], n, k - 1);
    }
  }

  lemma {:induction false} AllInside(ms: seq<Move>, n: nat)
    requires InCluster(ms, n)
    ensures FirstOutside(ms, n) == |ms| && ms[..|ms|] == ms
  {
    assert ms[..|ms|] == ms;
    FirstOutsideIs(ms, n, |ms|);
  }

  lemma {:induction false} FirstOutsideOfPrefix(a: seq<Move>, ms: seq<Move>, n: nat)
    requires a <= ms && FirstOutside(a, n) < |a|
    ensures FirstOutside(ms, n) == FirstOutside(a, n)
    ensures ms[..FirstOutside(ms, n)] == a[..FirstOutside(a, n)]
  {
    var k := FirstOutside(a, n);
    assert ms[..k] == a[..k];
    FirstOutsideIs(ms, n, k);
  }

  /** Two stretches of moves, applied one after the other. */
  lemma {:induction false} ApplyInSteps(shards: seq<Table>, a: seq<Move>, b: seq<Move>)
    requires InCluster(a, |shards|)
    ensures FirstOutside(a + b, |shards|) == |a| + FirstOutside(b, |shards|)
    ensures ApplyUpTo(shards, a + b) == ApplyUpTo(ApplyMoves(shards, a), b)
    ensures Outcome(b, |shards|).Ok? ==>
              && InCluster(a + b, |shards|)
              && ApplyMoves(shards, a + b) == ApplyUpTo(ApplyMoves(shards, a), b)
  {
    var n, k := |shards|, FirstOutside(b, |shards|);
    assert (a + b)[..|a| + k] == a + b[..k];
    FirstOutsideIs(a + b, n, |a| + k);
    ApplyConcat(shards, a, b[..k]);
    if k == |b| {
      assert b[..k] == b;
    }
  }

  /** Applying the next stretch `b` of the moves `all`: either the applied part grows by it, or
      the outcome of the whole is decided inside it. */
  ghost predicate Advances(start: seq<Table>, a: seq<Move>, b: seq<Move>, all: seq<Move>)
    requires InCluster(a, |start|)
  {
    var mid := ApplyMoves(start, a);
    && (Outcome(b, |start|).Ok? ==> InCluster(a + b, |start|) && ApplyMoves(start, a + b) == ApplyUpTo(mid, b))
    && (Outcome(b, |start|).Err? ==> ApplyUpTo(start, all) == ApplyUpTo(mid, b) && Outcome(all, |start|).Err?)
  }

  lemma StretchAdvances(start: seq<Table>, a: seq<Move>, b: seq<Move>, all: seq<Move>)
    requires InCluster(a, |start|) && a + b <= all
    ensures Advances(start, a, b, all)
  {
    ApplyInSteps(start, a, b);
    if Outcome(b, |start|).Err? {
      FirstOutsideOfPrefix(a + b, all, |start|);
    }
  }

  /** The cursor stands after the first `p` rows. */
  ghost predicate AtCursor(rows: seq<Row>, lastId: nat, p: nat) {
    && p <= |rows| && Increasing(rows)
    && (forall i :: 0 <= i < p ==> rows[i].id <= lastId)
    && (forall i :: p <= i < |rows| ==> rows[i].id > lastId)
  }

  lemma PageBlock(rows: seq<Row>, lastId: nat, p: nat)
    requires AtCursor(rows, lastId, p)
    ensures var page := Page(rows, lastId, BATCH);
            && p + |page| <= |rows| && page == rows[p..p + |page|]
            && (page == [] ==> p == |rows|)
            && (page != [] ==> AtCursor(rows, page[|page| - 1].id, p + |page|))
  {
    RowsAfterIsSuffix(rows, lastId, p);
  }

  lemma {:induction false} MovesOfBlock(rows: seq<Row>, p: nat, page: seq<Row>, src: nat, newN: nat)
    requires newN > 0 && p + |page| <= |rows| && page == rows[p..p + |page|]
    ensures MovesOf(rows[..p + |page|], src, newN) == MovesOf(rows[..p], src, newN) + MovesOf(page, src, newN)
  {
    assert rows[..p + |page|] == rows[..p] + page;
    MovesOfConcat(rows[..p], page, src, newN);
  }

  /** The copies of the first `p` rows have been made. */
  ghost predicate CopiedTo(start: seq<Table>, rows: seq<Row>, src: nat, newN: nat, p: nat,
                           cur: seq<Table>, moved: nat)
    requires newN > 0
  {
    && p <= |rows|
    && var done := MovesOf(rows[..p], src, newN);
    && InCluster(done, |start|) && cur == ApplyMoves(start, done) && moved == |done|
  }

  lemma NothingCopied(start: seq<Table>, rows: seq<Row>, src: nat, newN: nat)
    requires newN > 0
    ensures CopiedTo(start, rows, src, newN, 0, start, 0)
  {
  }

  lemma {:induction false} AllCopied(start: seq<Table>, rows: seq<Row>, src: nat, newN: nat, cur: seq<Table>, moved: nat)
    requires newN > 0 && CopiedTo(start, rows, src, newN, |rows|, cur, moved)
    ensures cur == ApplyUpTo(start, MovesOf(rows, src, newN))
    ensures Outcome(MovesOf(rows, src, newN), |start|) == Ok(moved)
  {
    assert rows[..|rows|] == rows;
    AllInside(MovesOf(rows, src, newN), |start|);
  }

  lemma {:induction false} OneMoreMove(rows: seq<Row>, j: nat, src: nat, newN: nat)
    requires newN > 0 && j < |rows|
    ensures var e := rows[j].entry;
            MovesOf(rows[..j + 1], src, newN)
            == MovesOf(rows[..j], src, newN)
               + if Shard(e.msg.chat, newN) == src then [] else [Move(Shard(e.msg.chat, newN), e)]
  {
    assert rows[..j + 1][..j] == rows[..j];
  }

  /** One row more, or the end at a target outside the cluster. */
  lemma {:induction false} RowCopied(start: seq<Table>, rows: seq<Row>, src: nat, newN: nat, j: nat,
                                     cur: seq<Table>, moved: nat)
    requires newN > 0 && j < |rows| && CopiedTo(start, rows, src, newN, j, cur, moved)
    ensures var e := rows[j].entry;
            var home := Shard(e.msg.chat, newN);
            && (home == src ==> CopiedTo(start, rows, src, newN, j + 1, cur, moved))
            && (home != src && home < |start| ==>
                  |cur| == |start| && CopiedTo(start, rows, src, newN, j + 1, InsertAt(cur, home, e), moved + 1))
            && (home != src && home >= |start| ==>
                  cur == ApplyUpTo(start, MovesOf(rows, src, newN)) && Outcome(MovesOf(rows, src, newN), |start|).Err?)
  {
    OneMoreMove(rows, j, src, newN);
    var before, after := MovesOf(rows[..j], src, newN), MovesOf(rows[..j + 1], src, newN);
    if after != before {
      assert after[..|before|] == before;
      if after[|before|].dst >= |start| {
        FirstOutsideIs(after, |start|, |before|);
        MovesOfPrefix(rows, j + 1, src, newN);
        FirstOutsideOfPrefix(after, MovesOf(rows, src, newN), |start|);
      }
    }
  }

  /** The loop over pages stands before row `p`. */
  ghost predicate InPages(start: seq<Table>, rows: seq<Row>, src: nat, newN: nat, p: nat, lastId: nat,
                          cur: seq<Table>, moved: nat)
    requires newN > 0
  {
    AtCursor(rows, lastId, p) && CopiedTo(start, rows, src, newN, p, cur, moved)
  }

  /** One page more: `c` and `cur` are what copying it returned and left. */
  lemma {:induction false} PageCopied(start: seq<Table>, rows: seq<Row>, src: nat, newN: nat, p: nat, lastId: nat,
                                      mid: seq<Table>, moved: nat, c: Result<nat>, cur: seq<Table>)
    requires newN > 0 && |mid| == |start| && InPages(start, rows, src, newN, p, lastId, mid, moved)
    requires var here := MovesOf(Page(rows, lastId, BATCH), src, newN);
             c == Outcome(here, |mid|) && cur == ApplyUpTo(mid, here)
    ensures var page := Page(rows, lastId, BATCH);
            c.Ok? && page != [] ==>
              && p + |page| <= |rows|
              && InPages(start, rows, src, newN, p + |page|, page[|page| - 1].id, cur, moved + c.value)
    ensures c.Err? ==> cur == ApplyUpTo(start, MovesOf(rows, src, newN)) && c == Outcome(MovesOf(rows, src, newN), |start|)
  {
    var page := Page(rows, lastId, BATCH);
    PageBlock(rows, lastId, p);
    MovesOfBlock(rows, p, page, src, newN);
    MovesOfPrefix(rows, p + |page|, src, newN);
    StretchAdvances(start, MovesOf(rows[..p], src, newN), MovesOf(page, src, newN), MovesOf(rows, src, newN));
  }

  lemma {:induction false} NoPageLeft(start: seq<Table>, rows: seq<Row>, src: nat, newN: nat, p: nat, lastId: nat,
                                      cur: seq<Table>, moved: nat)
    requires newN > 0 && InPages(start, rows, src, newN, p, lastId, cur, moved) && Page(rows, lastId, BATCH) == []
    ensures cur == ApplyUpTo(start, MovesOf(rows, src, newN))
    ensures Outcome(MovesOf(rows, src, newN), |start|) == Ok(moved)
  {
    PageBlock(rows, lastId, p);
    AllCopied(start, rows, src, newN, cur, moved);
  }

  /** The first `src` shards have been copied. */
  ghost predicate CopiedShards(start: seq<Table>, newN: nat, src: nat, cur: seq<Table>, moved: nat)
    requires newN > 0
  {
    && src <= |start|
    && var done := Moves(start, src, newN);
    && InCluster(done, |start|) && cur == ApplyMoves(start, done) && moved == |done|
  }

  lemma {:induction false} AllShardsCopied(start: seq<Table>, newN: nat, src: nat, cur: seq<Table>, moved: nat)
    requires newN > 0 && CopiedShards(start, newN, src, cur, moved)
    ensures cur == ApplyUpTo(start, Moves(start, src, newN))
    ensures Outcome(Moves(start, src, newN), |start|) == Ok(moved)
  {
    AllInside(Moves(start, src, newN), |start|);
  }

  /** One shard more: `c` and `cur` are what copying it returned and left. The moves of a source shard
      are still the same when its turn comes. */
  lemma {:induction false} ShardCopied(start: seq<Table>, newN: nat, src: nat, last: nat, mid: seq<Table>, moved: nat,
                                       c: Result<nat>, cur: seq<Table>)
    requires newN > 0 && src < last <= |start| == |mid|
    requires forall i :: 0 <= i < |start| ==> Valid(start[i])
    requires CopiedShards(start, newN, src, mid, moved)
    requires var here := MovesOf(mid[src].rows, src, newN);
             c == Outcome(here, |mid|) && cur == ApplyUpTo(mid, here)
    ensures c.Ok? ==> CopiedShards(start, newN, src + 1, cur, moved + c.value)
    ensures c.Err? ==> cur == ApplyUpTo(start, Moves(start, last, newN)) && c == Outcome(Moves(start, last, newN), |start|)
  {
    var before, here := Moves(start, src, newN), MovesOf(start[src].rows, src, newN);
    MovesHomeward(start, src, newN);
    ApplyGrows(start, before, newN, src);
    MovesPrefix(start, src + 1, last, newN);
    StretchAdvances(start, before, here, Moves(start, last, newN));
  }

  lemma {:induction false} ApplyConcat(shards: seq<Table>, a: seq<Move>, b: seq<Move>)
    requires InCluster(a, |shards|) && InCluster(b, |shards|)
    ensures ApplyMoves(shards, a + b) == ApplyMoves(ApplyMoves(shards, a), b)
  {
    if b == [] {
      assert a + b == a;
    } else {
      assert (a + b)[..|a + b| - 1] == a + b[..|b| - 1];
      ApplyConcat(shards, a, b[..|b| - 1]);
    }
  }

  lemma {:induction false} MovesPrefix(shards: seq<Table>, a: nat, b: nat, newN: nat)
    requires a <= b <= |shards| && newN > 0
    ensures Moves(shards, a, newN) <= Moves(shards, b, newN)
    decreases b
  {
    if a < b {
      MovesPrefix(shards, a, b - 1, newN);
    }
  }

  lemma {:induction false} MovesOfConcat(a: seq<Row>, b: seq<Row>, src: nat, newN: nat)
    requires newN > 0
    ensures MovesOf(a + b, src, newN) == MovesOf(a, src, newN) + MovesOf(b, src, newN)
  {
    if b == [] {
      assert a + b == a;
    } else {
      assert (a + b)[..|a + b| - 1] == a + b[..|b| - 1];
      MovesOfConcat(a, b[..|b| - 1], src, newN);
    }
  }

  lemma {:induction false} MovesOfPrefix(rows: seq<Row>, p: nat, src: nat, newN: nat)
    requires p <= |rows| && newN > 0
    ensures MovesOf(rows[..p], src, newN) <= MovesOf(rows, src, newN)
  {
    assert rows == rows[..p] + rows[p..];
    MovesOfConcat(rows[..p], rows[p..], src, newN);
  }
}
