/** What an undisturbed backfill does, as a list of inserts; why stopping and repeating it is
    harmless; and why listings survive the migration. */
module BackfillPlan {
  import opened Sharding
  import opened MessageTable
  import opened DialogList
  import opened ReshardingProtocol

  /** One INSERT of backfill: copy `entry` to shard `dst`. */
  datatype Move = Move(dst: nat, entry: Entry)

  /** The rows of shard `src` whose chat lives elsewhere over `newN` shards, in id order. */
  function MovesOf(rows: seq<Row>, src: nat, newN: nat): seq<Move>
    requires newN > 0
  {
    if rows == [] then []
    else
      var front, e := MovesOf(rows[..|rows| - 1], src, newN), rows[|rows| - 1].entry;
      if Shard(e.msg.chat, newN) == src then front else front + [Move(Shard(e.msg.chat, newN), e)]
  }

  /** The moves of the first `n` shards, shard after shard. */
  function Moves(shards: seq<Table>, n: nat, newN: nat): seq<Move>
    requires n <= |shards| && newN > 0
  {
    if n == 0 then []
    else Moves(shards, n - 1, newN) + MovesOf(shards[n - 1].rows, n - 1, newN)
  }

  predicate InCluster(ms: seq<Move>, n: nat) {
    forall i :: 0 <= i < |ms| ==> ms[i].dst < n
  }

  function ApplyMoves(shards: seq<Table>, ms: seq<Move>): (shards': seq<Table>)
    requires InCluster(ms, |shards|)
    ensures |shards'| == |shards|
  {
    if ms == [] then shards
    else InsertAt(ApplyMoves(shards, ms[..|ms| - 1]), ms[|ms| - 1].dst, ms[|ms| - 1].entry)
  }

  /** What the moves send to shard `d`. */
  function SentTo(ms: seq<Move>, d: nat): seq<Entry> {
    if ms == [] then []
    else
      var front, last := SentTo(ms[..|ms| - 1], d), ms[|ms| - 1];
      if last.dst == d then front + [last.entry] else front
  }

  /** Every move goes to its chat's home over `newN` shards. */
  ghost predicate Homeward(ms: seq<Move>, newN: nat)
    requires newN > 0
  {
    forall i :: 0 <= i < |ms| ==> ms[i].dst == Shard(ms[i].entry.msg.chat, newN)
  }

  // ---------------------------------------------------------------- moves, shard by shard

  lemma {:induction false} ApplyOnLog(shards: seq<Table>, ms: seq<Move>, d: nat)
    requires InCluster(ms, |shards|) && d < |shards|
    ensures Log(ApplyMoves(shards, ms)[d].rows) == AddAll(Log(shards[d].rows), SentTo(ms, d))
  {
    if ms != [] {
      var front, last := ms[..|ms| - 1], ms[|ms| - 1];
      ApplyOnLog(shards, front, d);
      if last.dst == d {
        InsertOnLog(ApplyMoves(shards, front)[d], last.entry);
        assert SentTo(ms, d)[..|SentTo(ms, d)| - 1] == SentTo(front, d);
      }
    }
  }

  /** Tables stay valid and only grow, by rows that are at home. */
  lemma {:induction false} ApplyGrows(shards: seq<Table>, ms: seq<Move>, newN: nat, d: nat)
    requires newN > 0 && InCluster(ms, |shards|) && Homeward(ms, newN) && d < |shards|
    requires forall i :: 0 <= i < |shards| ==> Valid(shards[i])
    ensures Valid(ApplyMoves(shards, ms)[d])
    ensures shards[d].rows <= ApplyMoves(shards, ms)[d].rows
    ensures MovesOf(ApplyMoves(shards, ms)[d].rows, d, newN) == MovesOf(shards[d].rows, d, newN)
  {
    if ms != [] {
      var front, last := ms[..|ms| - 1], ms[|ms| - 1];
      ApplyGrows(shards, front, newN, d);
      if last.dst == d {
        var t := ApplyMoves(shards, front)[d];
        InsertFacts(t, last.entry);
        assert (t.rows + [Row(t.nextId, last.entry)])[..|t.rows|] == t.rows;
      }
    }
  }

  lemma {:induction false} MovesStable(shards: seq<Table>, ms: seq<Move>, n: nat, newN: nat)
    requires newN > 0 && InCluster(ms, |shards|) && Homeward(ms, newN) && n <= |shards|
    requires forall i :: 0 <= i < |shards| ==> Valid(shards[i])
    ensures Moves(ApplyMoves(shards, ms), n, newN) == Moves(shards, n, newN)
  {
    if n > 0 {
      MovesStable(shards, ms, n - 1, newN);
      ApplyGrows(shards, ms, newN, n - 1);
    }
  }

  lemma {:induction false} MovesOfHomeward(rows: seq<Row>, src: nat, newN: nat)
    requires newN > 0
    ensures Homeward(MovesOf(rows, src, newN), newN)
    ensures forall mv :: mv in MovesOf(rows, src, newN) ==> mv.dst != src && mv.entry in Log(rows)
  {
    if rows != [] {
      MovesOfHomeward(rows[..|rows| - 1], src, newN);
      assert Log(rows) == Log(rows[..|rows| - 1]) + [rows[|rows| - 1].entry];
    }
  }

  lemma {:induction false} MovesHomeward(shards: seq<Table>, n: nat, newN: nat)
    requires n <= |shards| && newN > 0
    ensures Homeward(Moves(shards, n, newN), newN)
  {
    if n > 0 {
      MovesHomeward(shards, n - 1, newN);
      MovesOfHomeward(shards[n - 1].rows, n - 1, newN);
    }
  }

  lemma HomewardInCluster(ms: seq<Move>, newN: nat, n: nat)
    requires newN > 0 && Homeward(ms, newN) && newN <= n
    ensures InCluster(ms, n)
  {
  }

  lemma {:induction false} MovesInCluster(shards: seq<Table>, n: nat, newN: nat)
    requires 0 < newN <= |shards| && n <= |shards|
    ensures InCluster(Moves(shards, n, newN), |shards|)
  {
    MovesHomeward(shards, n, newN);
    HomewardInCluster(Moves(shards, n, newN), newN, |shards|);
  }

  lemma {:induction false} SentToConcat(a: seq<Move>, b: seq<Move>, d: nat)
    ensures SentTo(a + b, d) == SentTo(a, d) + SentTo(b, d)
  {
    if b == [] {
      assert a + b == a;
    } else {
      assert (a + b)[..|a + b| - 1] == a + b[..|b| - 1];
      SentToConcat(a, b[..|b| - 1], d);
    }
  }

  // ---------------------------------------------------------------- stopping and repeating

  /** The tables without ids: what two runs are compared by. */
  ghost predicate SameLogs(a: seq<Table>, b: seq<Table>) {
    |a| == |b| && forall d :: 0 <= d < |a| ==> Log(a[d].rows) == Log(b[d].rows)
  }

  lemma {:induction false} RedoOnShard(shards: seq<Table>, ms: seq<Move>, k: nat, d: nat)
    requires k <= |ms| && InCluster(ms, |shards|) && d < |shards|
    ensures InCluster(ms[..k], |shards|)
    ensures Log(ApplyMoves(ApplyMoves(shards, ms[..k]), ms)[d].rows) == Log(ApplyMoves(shards, ms)[d].rows)
  {
    ApplyOnLog(shards, ms[..k], d);
    ApplyOnLog(ApplyMoves(shards, ms[..k]), ms, d);
    ApplyOnLog(shards, ms, d);
    assert ms == ms[..k] + ms[k..];
    SentToConcat(ms[..k], ms[k..], d);
    var part := SentTo(ms[..k], d);
    assert SentTo(ms, d)[..|part|] == part;
    AddAllRedo(Log(shards[d].rows), SentTo(ms, d), |part|);
  }

  /** Backfill stopped after any number of inserts and started again ends with the same messages
      in the same order on every shard as one that was never stopped. */
  lemma {:induction false} RestartIsHarmless(shards: seq<Table>, oldN: nat, newN: nat, k: nat)
    requires 0 < newN <= |shards| && oldN <= |shards|
    requires forall i :: 0 <= i < |shards| ==> Valid(shards[i])
    requires k <= |Moves(shards, oldN, newN)|
    ensures var ms := Moves(shards, oldN, newN);
            && InCluster(ms, |shards|)
            && var stopped := ApplyMoves(shards, ms[..k]);
            && InCluster(Moves(stopped, oldN, newN), |shards|)
            && SameLogs(ApplyMoves(stopped, Moves(stopped, oldN, newN)), ApplyMoves(shards, ms))
  {
    var ms := Moves(shards, oldN, newN);
    MovesHomeward(shards, oldN, newN);
    HomewardInCluster(ms, newN, |shards|);
    var stopped := ApplyMoves(shards, ms[..k]);
    MovesStable(shards, ms[..k], oldN, newN);
    forall d | 0 <= d < |shards|
      ensures Log(ApplyMoves(stopped, ms)[d].rows) == Log(ApplyMoves(shards, ms)[d].rows)
    {
      RedoOnShard(shards, ms, k, d);
    }
  }

  /** Once backfill has finished, running it again adds nothing to any table. */
  lemma {:induction false} RepeatAddsNothing(shards: seq<Table>, oldN: nat, newN: nat)
    requires 0 < newN <= |shards| && oldN <= |shards|
    requires forall i :: 0 <= i < |shards| ==> Valid(shards[i])
    ensures var ms := Moves(shards, oldN, newN);
            && InCluster(ms, |shards|)
            && var done := ApplyMoves(shards, ms);
            && InCluster(Moves(done, oldN, newN), |shards|)
            && forall d :: 0 <= d < |shards| ==>
                 ApplyMoves(done, Moves(done, oldN, newN))[d].rows == done[d].rows
  {
    var ms := Moves(shards, oldN, newN);
    RestartIsHarmless(shards, oldN, newN, |ms|);
    assert ms[..|ms|] == ms;
    var done := ApplyMoves(shards, ms);
    MovesHomeward(shards, oldN, newN);
    MovesStable(shards, ms, oldN, newN);
    forall i | 0 <= i < |done|
      ensures Valid(done[i])
    {
      ApplyGrows(shards, ms, newN, i);
    }
    forall d | 0 <= d < |shards|
      ensures ApplyMoves(done, ms)[d].rows == done[d].rows
    {
      ApplyGrows(done, ms, newN, d);
      var a, b := done[d].rows, ApplyMoves(done, ms)[d].rows;
      assert |a| == |Log(a)| == |Log(b)| == |b|;
    }
  }

  // ---------------------------------------------------------------- listings

  /** Every row on its chat's home over `oldN` shards, and no message on two shards. */
  ghost predicate WellPlaced(shards: seq<Table>, oldN: nat)
    requires oldN > 0
  {
    && (forall i :: 0 <= i < |shards| ==> Valid(shards[i]))
    && (forall i, r :: 0 <= i < |shards| && r in shards[i].rows ==> i == Shard(r.entry.msg.chat, oldN))
    && (forall i, j :: 0 <= i < j < |shards| ==> Mids(shards[i].rows) !! Mids(shards[j].rows))
  }

  /** What cleanup leaves of shard `i`. */
  function CleanTable(t: Table, i: nat, newN: nat): Table
    requires newN > 0
  {
    Table(DeleteIds(t.rows, DoomedIds(t.rows, i, newN)), t.nextId)
  }

  ghost predicate DistinctMoves(ms: seq<Move>) {
    forall i, j :: 0 <= i < j < |ms| ==> ms[i].entry.msg.mid != ms[j].entry.msg.mid
  }

  lemma {:induction false} MovesOfDistinct(rows: seq<Row>, src: nat, newN: nat)
    requires newN > 0 && DistinctMids(rows)
    ensures DistinctMoves(MovesOf(rows, src, newN))
    ensures forall mv :: mv in MovesOf(rows, src, newN) ==> mv.entry.msg.mid in Mids(rows)
  {
    if rows != [] {
      var front, last := rows[..|rows| - 1], rows[|rows| - 1];
      MovesOfDistinct(front, src, newN);
      assert rows == front + [last];
      assert Mids(rows) == Mids(front) + {last.entry.msg.mid};
      assert last.entry.msg.mid !in Mids(front);
      var fm := MovesOf(front, src, newN);
      forall i | 0 <= i < |fm|
        ensures fm[i].entry.msg.mid != last.entry.msg.mid
      {
        assert fm[i] in fm;
      }
    }
  }

  ghost predicate FromElsewhere(shards: seq<Table>, n: nat, mv: Move)
    requires n <= |shards|
  {
    exists i :: 0 <= i < n && i != mv.dst && mv.entry.msg.mid in Mids(shards[i].rows)
  }

  lemma {:induction false} MovesComeFromElsewhere(shards: seq<Table>, n: nat, newN: nat)
    requires newN > 0 && n <= |shards|
    requires forall i :: 0 <= i < |shards| ==> Valid(shards[i])
    ensures forall mv :: mv in Moves(shards, n, newN) ==> FromElsewhere(shards, n, mv)
  {
    if n > 0 {
      MovesComeFromElsewhere(shards, n - 1, newN);
      MovesOfDistinct(shards[n - 1].rows, n - 1, newN);
      MovesOfHomeward(shards[n - 1].rows, n - 1, newN);
      forall mv | mv in Moves(shards, n, newN)
        ensures FromElsewhere(shards, n, mv)
      {
        if mv in Moves(shards, n - 1, newN) {
          assert FromElsewhere(shards, n - 1, mv);
        }
      }
    }
  }

  /** From a well-placed start the moves carry distinct messages. */
  lemma {:induction false} MovesDistinct(shards: seq<Table>, oldN: nat, n: nat, newN: nat)
    requires oldN > 0 && newN > 0 && n <= |shards| && WellPlaced(shards, oldN)
    ensures DistinctMoves(Moves(shards, n, newN))
  {
    if n > 0 {
      var front, last := Moves(shards, n - 1, newN), MovesOf(shards[n - 1].rows, n - 1, newN);
      MovesDistinct(shards, oldN, n - 1, newN);
      MovesComeFromElsewhere(shards, n - 1, newN);
      MovesOfDistinct(shards[n - 1].rows, n - 1, newN);
      forall i, j | 0 <= i < |front| && 0 <= j < |last|
        ensures front[i].entry.msg.mid != last[j].entry.msg.mid
      {
        assert front[i] in front && last[j] in last;
        assert FromElsewhere(shards, n - 1, front[i]);
      }
    }
  }

  /** What a list of moves carries of one chat. */
  lemma {:induction false} ChatOfMovesOf(rows: seq<Row>, src: nat, newN: nat, chat: ChatId, d: nat)
    requires newN > 0
    ensures ChatLog(SentTo(MovesOf(rows, src, newN), d), chat)
         == if d == Shard(chat, newN) && d != src then ChatLog(Log(rows), chat) else []
  {
    if rows != [] {
      var front, e := rows[..|rows| - 1], rows[|rows| - 1].entry;
      ChatOfMovesOf(front, src, newN, chat, d);
      assert Log(rows)[..|rows| - 1] == Log(front);
      var home := Shard(e.msg.chat, newN);
      if home != src {
        var ms := MovesOf(rows, src, newN);
        assert ms[..|ms| - 1] == MovesOf(front, src, newN);
        if home == d {
          var es := SentTo(ms, d);
          assert es[..|es| - 1] == SentTo(MovesOf(front, src, newN), d);
        }
      }
    }
  }

  lemma {:induction false} ChatElsewhere(shards: seq<Table>, oldN: nat, i: nat, chat: ChatId)
    requires oldN > 0 && i < |shards| && WellPlaced(shards, oldN) && i != Shard(chat, oldN)
    ensures ChatLog(Log(shards[i].rows), chat) == []
  {
    var log := Log(shards[i].rows);
    forall e | e in log
      ensures e.msg.chat != chat
    {
      var k :| 0 <= k < |log| && log[k] == e;
      assert shards[i].rows[k] in shards[i].rows;
    }
    ChatLogNone(log, chat);
  }

  /** What the first `n` shards hold of a chat away from shard `d`, if `d` is its new home. */
  ghost function Bound(shards: seq<Table>, n: nat, newN: nat, chat: ChatId, d: nat): seq<Entry>
    requires newN > 0 && n <= |shards|
  {
    if n == 0 || d != Shard(chat, newN) then []
    else if d == n - 1 then Bound(shards, n - 1, newN, chat, d)
    else Bound(shards, n - 1, newN, chat, d) + ChatLog(Log(shards[n - 1].rows), chat)
  }

  lemma {:induction false} MovesCarryBound(shards: seq<Table>, n: nat, newN: nat, chat: ChatId, d: nat)
    requires newN > 0 && n <= |shards|
    ensures ChatLog(SentTo(Moves(shards, n, newN), d), chat) == Bound(shards, n, newN, chat, d)
  {
    if n > 0 {
      var front, last := Moves(shards, n - 1, newN), MovesOf(shards[n - 1].rows, n - 1, newN);
      MovesCarryBound(shards, n - 1, newN, chat, d);
      ChatOfMovesOf(shards[n - 1].rows, n - 1, newN, chat, d);
      SentToConcat(front, last, d);
      ChatLogConcat(SentTo(front, d), SentTo(last, d), chat);
      assert ChatLog(SentTo(front, d), chat) + [] == ChatLog(SentTo(front, d), chat);
    }
  }

  lemma {:induction false} BoundFromOneShard(shards: seq<Table>, src: nat, n: nat, newN: nat, chat: ChatId, d: nat)
    requires newN > 0 && n <= |shards|
    requires forall i :: 0 <= i < |shards| && i != src ==> ChatLog(Log(shards[i].rows), chat) == []
    ensures Bound(shards, n, newN, chat, d)
         == if d == Shard(chat, newN) && d != src && src < n then ChatLog(Log(shards[src].rows), chat) else []
  {
    if n > 0 {
      BoundFromOneShard(shards, src, n - 1, newN, chat, d);
    }
  }

  /** If only shard `src` holds the chat, the moves carry all of it to its new home. */
  lemma {:induction false} ChatOfMoves(shards: seq<Table>, src: nat, n: nat, newN: nat, chat: ChatId, d: nat)
    requires newN > 0 && n <= |shards|
    requires forall i :: 0 <= i < |shards| && i != src ==> ChatLog(Log(shards[i].rows), chat) == []
    ensures var carried := ChatLog(SentTo(Moves(shards, n, newN), d), chat);
            && (d == Shard(chat, newN) && d != src && src < n ==> carried == ChatLog(Log(shards[src].rows), chat))
            && (d != Shard(chat, newN) || d == src || src >= n ==> carried == [])
  {
    MovesCarryBound(shards, n, newN, chat, d);
    BoundFromOneShard(shards, src, n, newN, chat, d);
  }

  lemma {:induction false} SentToIsDistinct(ms: seq<Move>, d: nat)
    requires DistinctMoves(ms)
    ensures forall e :: e in SentTo(ms, d) ==> Move(d, e) in ms
    ensures forall i, j :: 0 <= i < j < |SentTo(ms, d)| ==> SentTo(ms, d)[i].msg.mid != SentTo(ms, d)[j].msg.mid
  {
    if ms != [] {
      var front, last := ms[..|ms| - 1], ms[|ms| - 1];
      SentToIsDistinct(front, d);
      assert ms == front + [last];
      var es := SentTo(front, d);
      forall i | 0 <= i < |es|
        ensures es[i].msg.mid != last.entry.msg.mid
      {
        assert es[i] in es;
        var j :| 0 <= j < |front| && front[j] == Move(d, es[i]);
        assert ms[j] == front[j];
      }
    }
  }

  /** After backfill each table is its old log followed by the moved entries of every chat that
      now lives there, in their old order. */
  lemma {:induction false} BackfillAppends(shards: seq<Table>, oldN: nat, newN: nat, d: nat)
    requires 0 < oldN <= |shards| && 0 < newN <= |shards| && d < |shards| && WellPlaced(shards, oldN)
    ensures var ms := Moves(shards, oldN, newN);
            && InCluster(ms, |shards|)
            && Log(ApplyMoves(shards, ms)[d].rows) == Log(shards[d].rows) + SentTo(ms, d)
  {
    var ms := Moves(shards, oldN, newN);
    MovesHomeward(shards, oldN, newN);
    HomewardInCluster(ms, newN, |shards|);
    MovesDistinct(shards, oldN, oldN, newN);
    MovesComeFromElsewhere(shards, oldN, newN);
    SentToIsDistinct(ms, d);
    var es := SentTo(ms, d);
    forall i | 0 <= i < |es|
      ensures !LogHas(Log(shards[d].rows), es[i].msg.mid)
    {
      assert es[i] in es;
      assert FromElsewhere(shards, oldN, Move(d, es[i]));
      LogHasIsHasMid(shards[d].rows, es[i].msg.mid);
    }
    ApplyOnLog(shards, ms, d);
    AddAllFresh(Log(shards[d].rows), es);
  }

  lemma {:induction false} ChatLogOfFirst(e: Entry, rest: seq<Entry>, chat: ChatId)
    ensures e.msg.chat == chat ==> ChatLog([e] + rest, chat) == [e] + ChatLog(rest, chat)
    ensures e.msg.chat != chat ==> ChatLog([e] + rest, chat) == ChatLog(rest, chat)
  {
    ChatLogConcat([e], rest, chat);
    assert [e][..0] == [];
    assert ChatLog([e], chat) == if e.msg.chat == chat then [e] else [];
    assert [] + ChatLog(rest, chat) == ChatLog(rest, chat);
  }

  lemma {:induction false} LogOfFirst(rows: seq<Row>)
    requires rows != []
    ensures Log(rows) == [rows[0].entry] + Log(rows[1..])
  {
  }

  lemma {:induction false} DeleteSparesChat(rows: seq<Row>, ids: set<nat>, chat: ChatId)
    requires forall r :: r in rows && r.entry.msg.chat == chat ==> r.id !in ids
    ensures ChatLog(Log(DeleteIds(rows, ids)), chat) == ChatLog(Log(rows), chat)
  {
    if rows != [] {
      var first, rest, kept := rows[0], rows[1..], DeleteIds(rows[1..], ids);
      assert first in rows;
      DeleteSparesChat(rest, ids, chat);
      LogOfFirst(rows);
      ChatLogOfFirst(first.entry, Log(rest), chat);
      if first.id !in ids {
        assert ([first] + kept)[1..] == kept;
        LogOfFirst([first] + kept);
        ChatLogOfFirst(first.entry, Log(kept), chat);
      }
    }
  }

  /** With no sends in between, every page of every dialog reads the same before the migration,
      on the old shard after backfill, on the new shard after the switch, and after cleanup. */
  lemma {:induction false} ListingsSurvive(m: Migration, shards: seq<Table>, chat: ChatId, limit: nat, offset: nat)
    requires |shards| == m.pools && WellPlaced(shards, m.oldN)
    ensures var oldHome, newHome := OldHome(m, chat), NewHome(m, chat);
            var ms := Moves(shards, m.oldN, m.newN);
            && InCluster(ms, |shards|)
            && var copied := ApplyMoves(shards, ms);
            && ListChat(copied[oldHome], chat, limit, offset) == ListChat(shards[oldHome], chat, limit, offset)
            && ListChat(copied[newHome], chat, limit, offset) == ListChat(shards[oldHome], chat, limit, offset)
            && ListChat(CleanTable(copied[newHome], newHome, m.newN), chat, limit, offset)
               == ListChat(shards[oldHome], chat, limit, offset)
  {
    var oldHome, newHome := OldHome(m, chat), NewHome(m, chat);
    var ms := Moves(shards, m.oldN, m.newN);
    BackfillAppends(shards, m.oldN, m.newN, oldHome);
    BackfillAppends(shards, m.oldN, m.newN, newHome);
    var copied := ApplyMoves(shards, ms);
    MovesHomeward(shards, m.oldN, m.newN);
    ApplyGrows(shards, ms, m.newN, oldHome);
    ApplyGrows(shards, ms, m.newN, newHome);
    ChatOnBothHomes(m, shards, chat);
    ListingNeedsOnlyTheLog(copied[oldHome], shards[oldHome], chat, limit, offset);
    ListingNeedsOnlyTheLog(copied[newHome], shards[oldHome], chat, limit, offset);
    var t := copied[newHome];
    CleaningSparesHome(m, t, newHome, chat);
    ListingNeedsOnlyTheLog(CleanTable(t, newHome, m.newN), shards[oldHome], chat, limit, offset);
  }

  lemma {:induction false} ChatOnBothHomes(m: Migration, shards: seq<Table>, chat: ChatId)
    requires |shards| == m.pools && WellPlaced(shards, m.oldN)
    requires InCluster(Moves(shards, m.oldN, m.newN), |shards|)
    ensures var oldHome, newHome := OldHome(m, chat), NewHome(m, chat);
            var copied := ApplyMoves(shards, Moves(shards, m.oldN, m.newN));
            && ChatLog(Log(copied[oldHome].rows), chat) == ChatLog(Log(shards[oldHome].rows), chat)
            && ChatLog(Log(copied[newHome].rows), chat) == ChatLog(Log(shards[oldHome].rows), chat)
  {
    var oldHome, newHome := OldHome(m, chat), NewHome(m, chat);
    var ms := Moves(shards, m.oldN, m.newN);
    BackfillAppends(shards, m.oldN, m.newN, oldHome);
    BackfillAppends(shards, m.oldN, m.newN, newHome);
    forall i | 0 <= i < |shards| && i != oldHome
      ensures ChatLog(Log(shards[i].rows), chat) == []
    {
      ChatElsewhere(shards, m.oldN, i, chat);
    }
    ChatOfMoves(shards, oldHome, m.oldN, m.newN, chat, oldHome);
    ChatOfMoves(shards, oldHome, m.oldN, m.newN, chat, newHome);
    ChatLogConcat(Log(shards[oldHome].rows), SentTo(ms, oldHome), chat);
    ChatLogConcat(Log(shards[newHome].rows), SentTo(ms, newHome), chat);
  }

  lemma {:induction false} CleaningSparesHome(m: Migration, t: Table, home: nat, chat: ChatId)
    requires Valid(t) && home == NewHome(m, chat)
    ensures Increasing(CleanTable(t, home, m.newN).rows)
    ensures ChatLog(Log(CleanTable(t, home, m.newN).rows), chat) == ChatLog(Log(t.rows), chat)
  {
    var ids := DoomedIds(t.rows, home, m.newN);
    forall r | r in t.rows && r.entry.msg.chat == chat
      ensures r.id !in ids
    {
      IdsIdentifyRows(t);
    }
    DeleteSparesChat(t.rows, ids, chat);
    DeleteKeepsIncreasing(t.rows, ids);
  }

  lemma IdsIdentifyRows(t: Table)
    requires Valid(t)
    ensures forall r, q :: r in t.rows && q in t.rows && r.id == q.id ==> r == q
  {
  }
}
