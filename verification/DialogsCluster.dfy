/** The cluster object (app/dialogs/cluster.py), the repository that sends and lists through it
    (app/dialogs/pg_repository.py), and the commands of scripts/resharding.py as they run with no
    other traffic. */
module DialogsCluster {
  import opened Sharding
  import opened MessageTable
  import opened DialogList
  import opened ClusterConfig
  import opened ReshardingProtocol
  import opened BackfillPlan
  import opened BackfillSteps

  class Cluster {
    var shards: seq<Table>
    var readN: int
    var writeN: int
    var dualWrite: bool

    ghost predicate ValidTables()
      reads this
    {
      forall i :: 0 <= i < |shards| ==> Valid(shards[i])
    }

    function Flags(): Config
      reads this
    {
      Config(readN, writeN, dualWrite)
    }

    /** `reconfigure`: the given flags are assigned whether or not the result is accepted. */
    method Reconfigure(newReadN: Option<int>, newWriteN: Option<int>, newDualWrite: Option<bool>)
      returns (r: Result<()>)
      modifies this
      ensures shards == old(shards)
      ensures readN == (if newReadN.Some? then newReadN.value else old(readN))
      ensures writeN == (if newWriteN.Some? then newWriteN.value else old(writeN))
      ensures dualWrite == (if newDualWrite.Some? then newDualWrite.value else old(dualWrite))
      ensures Flags() == Assigned(old(Flags()), newReadN, newWriteN, newDualWrite)
      ensures r == if 1 <= readN <= |shards| && 1 <= writeN <= |shards| then Ok(()) else Err(FlagOutOfRange)
    {
      if newReadN.Some? {
        readN := newReadN.value;
      }
      if newWriteN.Some? {
        writeN := newWriteN.value;
      }
      if newDualWrite.Some? {
        dualWrite := newDualWrite.value;
      }
      if 1 <= readN <= |shards| && 1 <= writeN <= |shards| {
        r := Ok(());
      } else {
        r := Err(FlagOutOfRange);
      }
    }

    /** One send: insert into each write shard in turn. Routing errors come before the first
        insert; otherwise each write home gets this message with its own timestamp, and no other
        table changes. `now` is the clock of each shard. */
    method Send(msg: Msg, now: nat -> int) returns (r: Result<()>)
      requires ValidTables()
      modifies this`shards
      ensures |shards| == |old(shards)| && ValidTables()
      ensures r == SendOutcome(Flags(), msg.chat, |shards|)
      ensures shards == [] ==> r == Err(NotInitialised)
      ensures shards != [] && (writeN <= 0 || (dualWrite && readN <= 0)) ==> r == Err(Routing(NoShards))
      ensures shards != [] && writeN > 0 && (dualWrite ==> readN > 0) ==>
                r == if Shard(msg.chat, writeN) < |shards| && (dualWrite ==> Shard(msg.chat, readN) < |shards|) then Ok(())
                     else Err(NoSuchShard)
      ensures r.Err? ==> shards == old(shards)
      ensures r.Ok? ==>
                forall i :: 0 <= i < |shards| ==>
                  shards[i] == if i == Shard(msg.chat, writeN) || (dualWrite && i == Shard(msg.chat, readN))
                               then Insert(old(shards)[i], Entry(msg, now(i)))
                               else old(shards)[i]
    {
      if shards == [] {
        return Err(NotInitialised);
      }
      if !CanRoute(Flags()) {
        return Err(Routing(NoShards));
      }
      var homes := WriteHomes(Flags(), msg.chat);
      WriteHomesAre(Flags(), msg.chat);
      SendOutcomeIs(Flags(), msg.chat, |shards|);
      if exists h | h in homes :: h >= |shards| {
        return Err(NoSuchShard);
      }
      WriteHomesDistinct(Flags(), msg.chat);
      InsertEachMeans(shards, homes, msg, now);
      for j := 0 to |homes|
        invariant shards == InsertEach(old(shards), homes[..j], msg, now)
      {
        var i := homes[j];
        assert i in homes && homes[..j + 1][..j] == homes[..j];
        shards := InsertAt(shards, i, Entry(msg, now(i)));
      }
      assert homes[..|homes|] == homes;
      r := Ok(());
    }

    /** `list` for one chat key. */
    method List(chat: ChatId, limit: nat, offset: nat) returns (r: Result<seq<Dto>>)
      ensures shards == [] ==> r == Err(NotInitialised)
      ensures shards != [] && readN <= 0 ==> r == Err(Routing(NoShards))
      ensures shards != [] && readN > 0 ==>
                var home := ReadHome(Flags(), chat);
                r == if home < |shards| then Ok(ListChat(shards[home], chat, limit, offset)) else Err(NoSuchShard)
      ensures r.Ok? && ValidTables() ==> AnswersQuery(shards[ReadHome(Flags(), chat)].rows, chat, limit, offset, r.value)
    {
      if shards == [] {
        return Err(NotInitialised);
      }
      if readN <= 0 {
        return Err(Routing(NoShards));
      }
      var idx := Shard(chat, readN);
      if idx >= |shards| {
        return Err(NoSuchShard);
      }
      if ValidTables() {
        ListChatAnswers(shards[idx], chat, limit, offset);
      }
      r := Ok(ListChat(shards[idx], chat, limit, offset));
    }

    // -------------------------------------------------------------- migration commands

    method EnableDualWrite(newN: nat) returns (r: Result<()>)
      modifies this
      ensures shards == old(shards) && Flags() == Config(old(readN), newN, true)
      ensures r == if InRange(Flags(), |shards|) then Ok(()) else Err(FlagOutOfRange)
    {
      r := Reconfigure(None, Some(newN), Some(true));
    }

    method SwitchRead(newN: nat) returns (r: Result<()>)
      modifies this
      ensures shards == old(shards) && Flags() == Config(newN, old(writeN), old(dualWrite))
      ensures r == if InRange(Flags(), |shards|) then Ok(()) else Err(FlagOutOfRange)
    {
      r := Reconfigure(Some(newN), None, None);
    }

    method DisableDualWrite() returns (r: Result<()>)
      modifies this
      ensures shards == old(shards) && Flags() == Config(old(readN), old(writeN), false)
      ensures r == if InRange(Flags(), |shards|) then Ok(()) else Err(FlagOutOfRange)
    {
      r := Reconfigure(None, None, Some(false));
    }

    /** The inner loop of `cmd_backfill`: copy the rows of one page that live elsewhere. */
    method CopyPage(page: seq<Row>, src: nat, newN: nat) returns (r: Result<nat>)
      requires newN > 0 && src < |shards| && ValidTables()
      modifies this`shards
      ensures |shards| == |old(shards)| && ValidTables() && shards[src] == old(shards)[src]
      ensures shards == ApplyUpTo(old(shards), MovesOf(page, src, newN))
      ensures r == Outcome(MovesOf(page, src, newN), |shards|)
    {
      ghost var start := shards;
      var moved := 0;
      NothingCopied(start, page, src, newN);
      for j := 0 to |page|
        invariant |shards| == |start| && ValidTables() && shards[src] == start[src]
        invariant CopiedTo(start, page, src, newN, j, shards, moved)
      {
        var row := page[j];
        var newIdx := Shard(row.entry.msg.chat, newN);
        RowCopied(start, page, src, newN, j, shards, moved);
        if newIdx != src {
          if newIdx >= |shards| {
            return Err(NoSuchShard);
          }
          InsertFacts(shards[newIdx], row.entry);
          shards := InsertAt(shards, newIdx, row.entry);
          moved := moved + 1;
        }
      }
      AllCopied(start, page, src, newN, shards, moved);
      r := Ok(moved);
    }

    /** The paging loop of `cmd_backfill` over one source shard. */
    method CopyShard(src: nat, newN: nat) returns (r: Result<nat>)
      requires newN > 0 && src < |shards| && ValidTables()
      modifies this`shards
      ensures |shards| == |old(shards)| && ValidTables()
      ensures shards == ApplyUpTo(old(shards), MovesOf(old(shards)[src].rows, src, newN))
      ensures r == Outcome(MovesOf(old(shards)[src].rows, src, newN), |shards|)
    {
      ghost var start, rows, p := shards, shards[src].rows, 0;
      var moved, lastId := 0, 0;
      NothingCopied(start, rows, src, newN);
      while true
        invariant |shards| == |start| && ValidTables() && shards[src].rows == rows
        invariant InPages(start, rows, src, newN, p, lastId, shards, moved)
        decreases |rows| - p
      {
        var page := Page(shards[src].rows, lastId, BATCH);
        if page == [] {
          NoPageLeft(start, rows, src, newN, p, lastId, shards, moved);
          return Ok(moved);
        }
        ghost var before := shards;
        var c := CopyPage(page, src, newN);
        PageCopied(start, rows, src, newN, p, lastId, before, moved, c, shards);
        if c.Err? {
          return c;
        }
        lastId := page[|page| - 1].id;
        moved := moved + c.value;
        p := p + |page|;
      }
    }

    /** `cmd_backfill`. The inserts it makes are the moves of the starting state, in order, up to
        the first whose target is not in the cluster. */
    method Backfill(newN: nat) returns (r: Result<nat>)
      requires newN > 0 && ValidTables()
      modifies this`shards
      ensures !dualWrite ==> r == Err(NotDualWrite) && shards == old(shards)
      ensures dualWrite ==>
                var ms := Moves(old(shards), Sources(readN, |old(shards)|), newN);
                && shards == ApplyUpTo(old(shards), ms)
                && r == if readN <= |old(shards)| then Outcome(ms, |old(shards)|) else Err(NoSuchShard)
    {
      if !dualWrite {
        return Err(NotDualWrite);
      }
      r := CopyShards(newN);
    }

    /** The outer loop of `cmd_backfill`. */
    method CopyShards(newN: nat) returns (r: Result<nat>)
      requires newN > 0 && ValidTables()
      modifies this`shards
      ensures shards == ApplyUpTo(old(shards), Moves(old(shards), Sources(readN, |old(shards)|), newN))
      ensures r == if readN <= |old(shards)| then Outcome(Moves(old(shards), Sources(readN, |old(shards)|), newN), |old(shards)|)
                   else Err(NoSuchShard)
    {
      ghost var start, last := shards, Sources(readN, |shards|);
      var moved, src := 0, 0;
      while src < readN
        invariant |shards| == |start| && ValidTables()
        invariant 0 <= src <= last
        invariant CopiedShards(start, newN, src, shards, moved)
      {
        if src >= |shards| {
          AllShardsCopied(start, newN, last, shards, moved);
          return Err(NoSuchShard);
        }
        ghost var before := shards;
        var c := CopyShard(src, newN);
        ShardCopied(start, newN, src, last, before, moved, c, shards);
        if c.Err? {
          return c;
        }
        moved := moved + c.value;
        src := src + 1;
      }
      AllShardsCopied(start, newN, last, shards, moved);
      r := Ok(moved);
    }

    /** The inner loop of `cmd_verify`: count the rows of one shard that have no copy at home. */
    method CountMissing(src: nat, newN: nat) returns (r: Result<nat>)
      requires newN > 0 && src < |shards|
      ensures r == MissingOutcome(shards, MovesOf(shards[src].rows, src, newN))
    {
      var rows := shards[src].rows;
      var missing := 0;
      for j := 0 to |rows|
        invariant MissingOutcome(shards, MovesOf(rows[..j], src, newN)) == Ok(missing)
      {
        var row := rows[j];
        var newIdx := Shard(row.entry.msg.chat, newN);
        RowCounted(shards, rows, j, src, newN, missing);
        if newIdx != src {
          if newIdx >= |shards| {
            return Err(NoSuchShard);
          }
          if !HasMid(shards[newIdx], row.entry.msg.mid) {
            missing := missing + 1;
          }
        }
      }
      assert rows[..|rows|] == rows;
      r := Ok(missing);
    }

    /** `cmd_verify`: raises with the number of rows of the read shards that have no copy on their
        new home, and passes exactly when there is none. */
    method Verify(newN: nat) returns (r: Result<()>)
      requires newN > 0
      ensures var ms := Moves(shards, Sources(readN, |shards|), newN);
              r == if readN > |shards| || !InCluster(ms, |shards|) then Err(NoSuchShard)
                   else if Missing(shards, ms) > 0 then Err(MissingCopies(Missing(shards, ms)))
                   else Ok(())
      ensures ValidTables() && readN <= |shards| && newN <= |shards| ==>
                VerifyAnswers(shards, Sources(readN, |shards|), newN, r)
    {
      if ValidTables() && newN <= |shards| {
        MissingCountsCopyless(shards, Sources(readN, |shards|), newN);
        VerifyMeansCopiesInPlace(shards, Sources(readN, |shards|), newN);
      }
      r := CountAllMissing(newN);
    }

    /** The loop over the read shards. */
    method CountAllMissing(newN: nat) returns (r: Result<()>)
      requires newN > 0
      ensures var ms := Moves(shards, Sources(readN, |shards|), newN);
              r == if readN > |shards| || !InCluster(ms, |shards|) then Err(NoSuchShard)
                   else if Missing(shards, ms) > 0 then Err(MissingCopies(Missing(shards, ms)))
                   else Ok(())
    {
      var missing, src := 0, 0;
      while src < readN
        invariant 0 <= src <= Sources(readN, |shards|)
        invariant InCluster(Moves(shards, src, newN), |shards|)
        invariant missing == Missing(shards, Moves(shards, src, newN))
      {
        if src >= |shards| {
          return Err(NoSuchShard);
        }
        MissingStep(shards, src, Sources(readN, |shards|), newN);
        ghost var here := MovesOf(shards[src].rows, src, newN);
        var c := CountMissing(src, newN);
        if c.Err? {
          assert !InCluster(here, |shards|);
          return Err(NoSuchShard);
        }
        assert InCluster(here, |shards|) && c.value == Missing(shards, here);
        missing := missing + c.value;
        src := src + 1;
      }
      r := if missing > 0 then Err(MissingCopies(missing)) else Ok(());
    }

    /** `cmd_cleanup`: refuses while dual-write is on; otherwise each of the first `newN` shards
        loses exactly the rows whose chat lives elsewhere, and the count of them is returned. */
    method Cleanup(newN: nat) returns (r: Result<nat>)
      requires newN > 0 && ValidTables()
      modifies this`shards
      ensures |shards| == |old(shards)| && ValidTables()
      ensures dualWrite ==> r == Err(StillDualWrite) && shards == old(shards)
      ensures !dualWrite ==>
                && (forall i :: 0 <= i < |shards| ==>
                      shards[i] == if i < newN then CleanTable(old(shards)[i], i, newN) else old(shards)[i])
                && r == if newN <= |shards| then Ok(TotalRows(old(shards)) - TotalRows(shards))
                        else Err(NoSuchShard)
      ensures !dualWrite ==>
                forall i :: 0 <= i < |shards| && i < newN ==> KeepsHomeRows(old(shards)[i].rows, shards[i].rows, i, newN)
    {
      if dualWrite {
        return Err(StillDualWrite);
      }
      CleanTablesKeepHomeRows(shards, newN);
      r := CleanShards(newN);
    }

    /** The loop over the new shards. */
    method CleanShards(newN: nat) returns (r: Result<nat>)
      requires newN > 0 && ValidTables()
      modifies this`shards
      ensures ValidTables() && CleanedTo(old(shards), newN, newN, shards)
      ensures r == if newN <= |shards| then Ok(TotalRows(old(shards)) - TotalRows(shards)) else Err(NoSuchShard)
    {
      var deleted: nat := 0;
      for i := 0 to newN
        invariant i <= |shards| && ValidTables() && CleanedTo(old(shards), newN, i, shards)
        invariant deleted == TotalRows(old(shards)) - TotalRows(shards)
      {
        if i >= |shards| {
          return Err(NoSuchShard);
        }
        var t := shards[i];
        var ids := DoomedIds(t.rows, i, newN);
        DeleteKeepsValid(t, ids);
        DoomedAreDeleted(t, i, newN);
        TotalRowsUpdate(shards, i, CleanTable(t, i, newN));
        shards := shards[i := Table(DeleteIds(t.rows, ids), t.nextId)];
        deleted := deleted + |ids|;
      }
      r := Ok(deleted);
    }
  }

  /** Whether a send is routed, before anything is written. */
  function SendOutcome(cfg: Config, chat: ChatId, n: nat): Result<()> {
    if n == 0 then Err(NotInitialised)
    else if !CanRoute(cfg) then Err(Routing(NoShards))
    else if exists h | h in WriteHomes(cfg, chat) :: h >= n then Err(NoSuchShard)
    else Ok(())
  }

  lemma {:induction false} SendOutcomeIs(cfg: Config, chat: ChatId, n: nat)
    requires n > 0 && CanRoute(cfg)
    ensures SendOutcome(cfg, chat, n)
         == if Shard(chat, cfg.writeN) < n && (cfg.dualWrite ==> Shard(chat, cfg.readN) < n) then Ok(()) else Err(NoSuchShard)
  {
    WriteHomesAre(cfg, chat);
    if Shard(chat, cfg.writeN) >= n {
      assert Shard(chat, cfg.writeN) in WriteHomes(cfg, chat);
    } else if cfg.dualWrite && Shard(chat, cfg.readN) >= n {
      assert Shard(chat, cfg.readN) in WriteHomes(cfg, chat);
    }
  }

  /** The inserts of one send, one shard after another. */
  function InsertEach(shards: seq<Table>, homes: seq<nat>, msg: Msg, now: nat -> int): (shards': seq<Table>)
    ensures |shards'| == |shards|
  {
    if homes == [] then shards
    else
      var done, i := InsertEach(shards, homes[..|homes| - 1], msg, now), homes[|homes| - 1];
      if i < |shards| then InsertAt(done, i, Entry(msg, now(i))) else done
  }

  lemma {:induction false} InsertEachMeans(shards: seq<Table>, homes: seq<nat>, msg: Msg, now: nat -> int)
    requires forall i :: 0 <= i < |shards| ==> Valid(shards[i])
    requires forall i, j :: 0 <= i < j < |homes| ==> homes[i] != homes[j]
    ensures forall i :: 0 <= i < |shards| ==>
              && Valid(InsertEach(shards, homes, msg, now)[i])
              && InsertEach(shards, homes, msg, now)[i]
                 == if i in homes then Insert(shards[i], Entry(msg, now(i))) else shards[i]
  {
    if homes != [] {
      var front, last := homes[..|homes| - 1], homes[|homes| - 1];
      InsertEachMeans(shards, front, msg, now);
      assert homes == front + [last];
      if last < |shards| {
        assert last !in front;
        InsertFacts(shards[last], Entry(msg, now(last)));
      }
    }
  }

  /** A send that succeeds with flags in range can be read back from the shard reads select exactly
      when both homes were written or the schemes agree on the chat. */
  lemma SentIsListed(cfg: Config, msg: Msg, before: seq<Table>, after: seq<Table>, now: nat -> int)
    requires InRange(cfg, |before|) && |after| == |before|
    requires forall i :: 0 <= i < |before| ==> Valid(before[i]) && !HasMid(before[i], msg.mid)
    requires forall i :: 0 <= i < |before| ==>
               after[i] == if i in WriteHomes(cfg, msg.chat) then Insert(before[i], Entry(msg, now(i))) else before[i]
    ensures SendOutcome(cfg, msg.chat, |before|) == Ok(())
    ensures HasMid(after[ReadHome(cfg, msg.chat)], msg.mid)
       <==> cfg.dualWrite || Shard(msg.chat, cfg.readN) == Shard(msg.chat, cfg.writeN)
  {
    SendIsReadable(cfg, msg.chat);
    var home := ReadHome(cfg, msg.chat);
    InsertFacts(before[home], Entry(msg, now(home)));
  }

  // ---------------------------------------------------------------- verify

  /** How many moves have not been made. */
  function Missing(shards: seq<Table>, ms: seq<Move>): nat
    requires InCluster(ms, |shards|)
  {
    if ms == [] then 0
    else
      var last := ms[|ms| - 1];
      Missing(shards, ms[..|ms| - 1]) + if HasMid(shards[last.dst], last.entry.msg.mid) then 0 else 1
  }

  ghost function MissingOutcome(shards: seq<Table>, ms: seq<Move>): Result<nat> {
    if InCluster(ms, |shards|) then Ok(Missing(shards, ms)) else Err(NoSuchShard)
  }

  lemma {:induction false} MissingOneMore(shards: seq<Table>, ms: seq<Move>, mv: Move)
    requires InCluster(ms, |shards|) && mv.dst < |shards|
    ensures InCluster(ms + [mv], |shards|)
    ensures Missing(shards, ms + [mv]) == Missing(shards, ms) + if HasMid(shards[mv.dst], mv.entry.msg.mid) then 0 else 1
  {
    assert (ms + [mv])[..|ms|] == ms;
  }

  /** A move that leaves the cluster decides the whole. */
  lemma {:induction false} RowOutside(shards: seq<Table>, rows: seq<Row>, j: nat, src: nat, newN: nat)
    requires newN > 0 && j < |rows|
    requires Shard(rows[j].entry.msg.chat, newN) != src && Shard(rows[j].entry.msg.chat, newN) >= |shards|
    ensures !InCluster(MovesOf(rows, src, newN), |shards|)
  {
    OneMoreMove(rows, j, src, newN);
    MovesOfPrefix(rows, j + 1, src, newN);
    var k := |MovesOf(rows[..j], src, newN)|;
    assert MovesOf(rows, src, newN)[k] == MovesOf(rows[..j + 1], src, newN)[k];
  }

  lemma {:induction false} RowCounted(shards: seq<Table>, rows: seq<Row>, j: nat, src: nat, newN: nat, missing: nat)
    requires newN > 0 && j < |rows| && MissingOutcome(shards, MovesOf(rows[..j], src, newN)) == Ok(missing)
    ensures var msg := rows[j].entry.msg;
            var home := Shard(msg.chat, newN);
            && (home != src && home >= |shards| ==> MissingOutcome(shards, MovesOf(rows, src, newN)).Err?)
            && (home == src || home < |shards| ==>
                  MissingOutcome(shards, MovesOf(rows[..j + 1], src, newN))
                  == Ok(missing + if home == src || HasMid(shards[home], msg.mid) then 0 else 1))
  {
    var e := rows[j].entry;
    var home := Shard(e.msg.chat, newN);
    OneMoreMove(rows, j, src, newN);
    if home == src {
      assert MovesOf(rows[..j], src, newN) + [] == MovesOf(rows[..j], src, newN);
    } else if home < |shards| {
      MissingOneMore(shards, MovesOf(rows[..j], src, newN), Move(home, e));
    } else {
      RowOutside(shards, rows, j, src, newN);
    }
  }

  lemma {:induction false} MissingConcat(shards: seq<Table>, a: seq<Move>, b: seq<Move>)
    requires InCluster(a, |shards|) && InCluster(b, |shards|)
    ensures Missing(shards, a + b) == Missing(shards, a) + Missing(shards, b)
  {
    if b == [] {
      assert a + b == a;
    } else {
      assert (a + b)[..|a + b| - 1] == a + b[..|b| - 1];
      MissingConcat(shards, a, b[..|b| - 1]);
    }
  }

  /** One more shard to verify: its count is added, or a target outside the cluster decides. */
  lemma MissingStep(shards: seq<Table>, src: nat, last: nat, newN: nat)
    requires newN > 0 && src < last <= |shards| && InCluster(Moves(shards, src, newN), |shards|)
    ensures var before, here := Moves(shards, src, newN), MovesOf(shards[src].rows, src, newN);
            && (InCluster(here, |shards|) ==>
                  && InCluster(Moves(shards, src + 1, newN), |shards|)
                  && Missing(shards, Moves(shards, src + 1, newN)) == Missing(shards, before) + Missing(shards, here))
            && (!InCluster(here, |shards|) ==> !InCluster(Moves(shards, last, newN), |shards|))
  {
    var before, here := Moves(shards, src, newN), MovesOf(shards[src].rows, src, newN);
    if InCluster(here, |shards|) {
      MissingConcat(shards, before, here);
    } else {
      MovesPrefix(shards, src + 1, last, newN);
      OutsideInPart(before, here, Moves(shards, last, newN), |shards|);
    }
  }

  lemma OutsideInPart(a: seq<Move>, b: seq<Move>, all: seq<Move>, n: nat)
    requires a + b <= all && !InCluster(b, n)
    ensures !InCluster(all, n)
  {
    var i :| 0 <= i < |b| && b[i].dst >= n;
    assert all[|a| + i] == b[i];
  }

  /** Every row of the first `n` shards has its message id on its chat's home over `newN` shards. */
  ghost predicate CopiesInPlace(shards: seq<Table>, n: nat, newN: nat)
    requires 0 < newN <= |shards| && n <= |shards|
  {
    forall i :: 0 <= i < n ==> ShardInPlace(shards, i, newN)
  }

  ghost predicate ShardInPlace(shards: seq<Table>, i: nat, newN: nat)
    requires 0 < newN <= |shards| && i < |shards|
  {
    forall r :: r in shards[i].rows ==> HasMid(shards[Shard(r.entry.msg.chat, newN)], r.entry.msg.mid)
  }

  /** The rows whose message id is not on their chat's home over `newN` shards. */
  function Copyless(shards: seq<Table>, rows: seq<Row>, newN: nat): set<Row>
    requires 0 < newN <= |shards|
  {
    set r | r in rows && !HasMid(shards[Shard(r.entry.msg.chat, newN)], r.entry.msg.mid)
  }

  /** How many there are on the first `n` shards. */
  function CountCopyless(shards: seq<Table>, n: nat, newN: nat): nat
    requires 0 < newN <= |shards| && n <= |shards|
  {
    if n == 0 then 0 else CountCopyless(shards, n - 1, newN) + |Copyless(shards, shards[n - 1].rows, newN)|
  }

  /** What verify answers when all counts are in range: it passes exactly when every row of the first `n`
      shards has its message id on its new home, and raises with the number of the others. */
  ghost predicate VerifyAnswers(shards: seq<Table>, n: nat, newN: nat, r: Result<()>)
    requires 0 < newN <= |shards| && n <= |shards|
  {
    && (r.Ok? <==> CopiesInPlace(shards, n, newN))
    && (r.Err? ==> CountCopyless(shards, n, newN) > 0 && r == Err(MissingCopies(CountCopyless(shards, n, newN))))
  }

  lemma {:induction false} CopylessOneMore(shards: seq<Table>, front: seq<Row>, r: Row, newN: nat)
    requires 0 < newN <= |shards| && r !in front
    ensures |Copyless(shards, front + [r], newN)|
         == |Copyless(shards, front, newN)| + if HasMid(shards[Shard(r.entry.msg.chat, newN)], r.entry.msg.mid) then 0 else 1
  {
    var before := Copyless(shards, front, newN);
    assert Copyless(shards, front + [r], newN)
        == if HasMid(shards[Shard(r.entry.msg.chat, newN)], r.entry.msg.mid) then before else before + {r};
  }

  /** Rows at home count as copied. */
  ghost predicate HomeIsCopied(shards: seq<Table>, rows: seq<Row>, src: nat, newN: nat)
    requires 0 < newN <= |shards|
  {
    forall i :: 0 <= i < |rows| ==>
      (Shard(rows[i].entry.msg.chat, newN) == src ==> HasMid(shards[Shard(rows[i].entry.msg.chat, newN)], rows[i].entry.msg.mid))
  }

  lemma {:induction false} MissingOfRows(shards: seq<Table>, rows: seq<Row>, src: nat, newN: nat)
    requires 0 < newN <= |shards| && HomeIsCopied(shards, rows, src, newN)
    requires forall i, j :: 0 <= i < j < |rows| ==> rows[i] != rows[j]
    ensures InCluster(MovesOf(rows, src, newN), |shards|)
    ensures Missing(shards, MovesOf(rows, src, newN)) == |Copyless(shards, rows, newN)|
  {
    if rows != [] {
      var front, last := rows[..|rows| - 1], rows[|rows| - 1];
      MissingOfRows(shards, front, src, newN);
      assert rows == front + [last];
      CopylessOneMore(shards, front, last, newN);
      var home := Shard(last.entry.msg.chat, newN);
      if home != src {
        MissingOneMore(shards, MovesOf(front, src, newN), Move(home, last.entry));
      }
    }
  }

  lemma {:induction false} MissingOnShard(shards: seq<Table>, i: nat, newN: nat)
    requires 0 < newN <= |shards| && i < |shards| && Increasing(shards[i].rows)
    ensures InCluster(MovesOf(shards[i].rows, i, newN), |shards|)
    ensures Missing(shards, MovesOf(shards[i].rows, i, newN)) == |Copyless(shards, shards[i].rows, newN)|
  {
    var rows := shards[i].rows;
    forall k | 0 <= k < |rows|
      ensures rows[k].entry.msg.mid in Mids(rows)
    {
      MidOfRow(rows, rows[k]);
    }
    MissingOfRows(shards, rows, i, newN);
  }

  ghost predicate AllIncreasing(shards: seq<Table>) {
    forall i :: 0 <= i < |shards| ==> Increasing(shards[i].rows)
  }

  /** What verify counts is exactly the rows without a copy on their new home. */
  lemma {:induction false} MissingCountsCopyless(shards: seq<Table>, n: nat, newN: nat)
    requires 0 < newN <= |shards| && n <= |shards| && AllIncreasing(shards)
    ensures InCluster(Moves(shards, n, newN), |shards|)
    ensures Missing(shards, Moves(shards, n, newN)) == CountCopyless(shards, n, newN)
  {
    MovesHomeward(shards, n, newN);
    HomewardInCluster(Moves(shards, n, newN), newN, |shards|);
    if n > 0 {
      MissingCountsCopyless(shards, n - 1, newN);
      MissingOnShard(shards, n - 1, newN);
      MissingConcat(shards, Moves(shards, n - 1, newN), MovesOf(shards[n - 1].rows, n - 1, newN));
    }
  }

  lemma {:induction false} NoneMissing(shards: seq<Table>, ms: seq<Move>)
    requires InCluster(ms, |shards|)
    ensures Missing(shards, ms) == 0 <==> AllMade(shards, ms)
  {
    if ms != [] {
      var front := ms[..|ms| - 1];
      NoneMissing(shards, front);
      assert forall i :: 0 <= i < |front| ==> ms[i] == front[i];
    }
  }

  lemma {:induction false} MovesOfIsEveryMover(rows: seq<Row>, src: nat, newN: nat)
    requires newN > 0
    ensures forall mv :: mv in MovesOf(rows, src, newN) <==>
              exists r :: r in rows && Shard(r.entry.msg.chat, newN) != src
                       && mv == Move(Shard(r.entry.msg.chat, newN), r.entry)
  {
    if rows != [] {
      var front, last := rows[..|rows| - 1], rows[|rows| - 1];
      MovesOfIsEveryMover(front, src, newN);
      assert rows == front + [last];
      assert forall r :: r in rows <==> r in front || r == last;
    }
  }

  /** Verify counts no missing copy exactly when the copies are in place. */
  lemma {:induction false} VerifyMeansCopiesInPlace(shards: seq<Table>, n: nat, newN: nat)
    requires 0 < newN <= |shards| && n <= |shards|
    requires InCluster(Moves(shards, n, newN), |shards|)
    ensures Missing(shards, Moves(shards, n, newN)) == 0 <==> CopiesInPlace(shards, n, newN)
  {
    if n > 0 {
      MovesInCluster(shards, n - 1, newN);
      ShardMovesInCluster(shards, n - 1, newN);
      VerifyMeansCopiesInPlace(shards, n - 1, newN);
      OneShardMissing(shards, n - 1, newN);
      MissingConcat(shards, Moves(shards, n - 1, newN), MovesOf(shards[n - 1].rows, n - 1, newN));
      InPlaceOneMore(shards, n, newN);
    }
  }

  lemma {:induction false} InPlaceOneMore(shards: seq<Table>, n: nat, newN: nat)
    requires 0 < newN <= |shards| && 0 < n <= |shards|
    ensures CopiesInPlace(shards, n, newN) <==> CopiesInPlace(shards, n - 1, newN) && ShardInPlace(shards, n - 1, newN)
  {
  }

  lemma {:induction false} ShardMovesInCluster(shards: seq<Table>, src: nat, newN: nat)
    requires 0 < newN <= |shards| && src < |shards|
    ensures InCluster(MovesOf(shards[src].rows, src, newN), |shards|)
  {
    MovesOfHomeward(shards[src].rows, src, newN);
    HomewardInCluster(MovesOf(shards[src].rows, src, newN), newN, |shards|);
  }

  lemma {:induction false} OneShardMissing(shards: seq<Table>, src: nat, newN: nat)
    requires 0 < newN <= |shards| && src < |shards|
    requires InCluster(MovesOf(shards[src].rows, src, newN), |shards|)
    ensures Missing(shards, MovesOf(shards[src].rows, src, newN)) == 0 <==> ShardInPlace(shards, src, newN)
  {
    NoneMissing(shards, MovesOf(shards[src].rows, src, newN));
    OneShardInPlace(shards, src, newN);
  }

  ghost predicate AllMade(shards: seq<Table>, ms: seq<Move>)
    requires InCluster(ms, |shards|)
  {
    forall i :: 0 <= i < |ms| ==> HasMid(shards[ms[i].dst], ms[i].entry.msg.mid)
  }

  lemma {:induction false} OneShardInPlace(shards: seq<Table>, src: nat, newN: nat)
    requires 0 < newN <= |shards| && src < |shards|
    requires InCluster(MovesOf(shards[src].rows, src, newN), |shards|)
    ensures AllMade(shards, MovesOf(shards[src].rows, src, newN)) <==> ShardInPlace(shards, src, newN)
  {
    var rows := shards[src].rows;
    var ms := MovesOf(rows, src, newN);
    MovesOfIsEveryMover(rows, src, newN);
    if AllMade(shards, ms) {
      forall r | r in rows
        ensures HasMid(shards[Shard(r.entry.msg.chat, newN)], r.entry.msg.mid)
      {
        var home := Shard(r.entry.msg.chat, newN);
        if home != src {
          var mv := Move(home, r.entry);
          assert mv in ms;
          var i :| 0 <= i < |ms| && ms[i] == mv;
        }
      }
    } else {
      var i :| 0 <= i < |ms| && !HasMid(shards[ms[i].dst], ms[i].entry.msg.mid);
      assert ms[i] in ms;
    }
  }

  // ---------------------------------------------------------------- cleanup

  /** Cleanup has done the first `n` shards. */
  ghost predicate CleanedTo(before: seq<Table>, newN: nat, n: nat, after: seq<Table>)
    requires newN > 0
  {
    && |after| == |before|
    && forall j :: 0 <= j < |before| ==> after[j] == if j < n then CleanTable(before[j], j, newN) else before[j]
  }

  /** Of the rows of shard `i` exactly those stay whose chat lives there. */
  ghost predicate KeepsHomeRows(before: seq<Row>, after: seq<Row>, i: nat, newN: nat)
    requires newN > 0
  {
    forall r :: r in after <==> r in before && Shard(r.entry.msg.chat, newN) == i
  }

  lemma {:induction false} CleanTableKeepsHomeRows(t: Table, i: nat, newN: nat)
    requires newN > 0 && Valid(t)
    ensures KeepsHomeRows(t.rows, CleanTable(t, i, newN).rows, i, newN)
  {
    var ids := DoomedIds(t.rows, i, newN);
    DeleteIdsFacts(t.rows, ids);
    IdsIdentifyRows(t);
    assert forall r :: r in t.rows && Shard(r.entry.msg.chat, newN) != i ==> r.id in ids;
  }

  lemma {:induction false} CleanTablesKeepHomeRows(shards: seq<Table>, newN: nat)
    requires newN > 0 && forall i :: 0 <= i < |shards| ==> Valid(shards[i])
    ensures forall i :: 0 <= i < |shards| ==> KeepsHomeRows(shards[i].rows, CleanTable(shards[i], i, newN).rows, i, newN)
  {
    forall i | 0 <= i < |shards|
      ensures KeepsHomeRows(shards[i].rows, CleanTable(shards[i], i, newN).rows, i, newN)
    {
      CleanTableKeepsHomeRows(shards[i], i, newN);
    }
  }

  /** Cleanup deletes one row per doomed id. */
  lemma DoomedAreDeleted(t: Table, i: nat, newN: nat)
    requires newN > 0 && Valid(t)
    ensures |DoomedIds(t.rows, i, newN)| == |t.rows| - |CleanTable(t, i, newN).rows|
  {
    var ids := DoomedIds(t.rows, i, newN);
    DeletedCount(t.rows, ids);
    assert ids == HitIds(t.rows, ids);
  }

  function HitIds(rows: seq<Row>, ids: set<nat>): set<nat> {
    set r | r in rows && r.id in ids :: r.id
  }

  lemma {:induction false} HitOneMore(first: Row, rest: seq<Row>, ids: set<nat>)
    requires forall r :: r in rest ==> r.id != first.id
    ensures |HitIds([first] + rest, ids)| == |HitIds(rest, ids)| + if first.id in ids then 1 else 0
  {
    assert first.id !in HitIds(rest, ids);
    assert HitIds([first] + rest, ids) == if first.id in ids then HitIds(rest, ids) + {first.id} else HitIds(rest, ids);
  }

  lemma {:induction false} DeletedCount(rows: seq<Row>, ids: set<nat>)
    requires Increasing(rows)
    ensures |HitIds(rows, ids)| == |rows| - |DeleteIds(rows, ids)|
  {
    if rows == [] {
      assert HitIds(rows, ids) == {};
    } else {
      DeletedCount(rows[1..], ids);
      assert rows == [rows[0]] + rows[1..];
      HitOneMore(rows[0], rows[1..], ids);
    }
  }

  lemma {:induction false} TotalRowsUpdate(shards: seq<Table>, i: nat, t: Table)
    requires i < |shards|
    ensures TotalRows(shards[i := t]) == TotalRows(shards) - |shards[i].rows| + |t.rows|
  {
    var front := shards[..|shards| - 1];
    if i == |shards| - 1 {
      assert shards[i := t][..|shards| - 1] == front;
    } else {
      TotalRowsUpdate(front, i, t);
      assert shards[i := t][..|shards| - 1] == front[i := t];
    }
  }

  /** Rows lie on the old or new home of their chat and a message id names one message. */
  ghost predicate OnHomes(m: Migration, shards: seq<Table>) {
    && |shards| == m.pools
    && (forall i :: 0 <= i < |shards| ==> Valid(shards[i]))
    && (forall i, r :: 0 <= i < |shards| && r in shards[i].rows ==>
          i == OldHome(m, r.entry.msg.chat) || i == NewHome(m, r.entry.msg.chat))
    && (forall i, r, j, q :: 0 <= i < |shards| && 0 <= j < |shards| && r in shards[i].rows && q in shards[j].rows ==>
          (r.entry.msg.mid == q.entry.msg.mid ==> r.entry.msg == q.entry.msg))
  }

  /** After a passing verify, cleanup removes no message's last copy: each message found anywhere
      before is still on its new home afterwards. */
  lemma {:induction false} CleanupKeepsEveryMessage(m: Migration, before: seq<Table>, after: seq<Table>, i: nat, r: Row)
    requires OnHomes(m, before) && CleanedTo(before, m.newN, m.newN, after)
    requires InCluster(Moves(before, m.oldN, m.newN), |before|) && Missing(before, Moves(before, m.oldN, m.newN)) == 0
    requires i < |before| && r in before[i].rows
    ensures exists q :: q in after[NewHome(m, r.entry.msg.chat)].rows && q.entry.msg == r.entry.msg
  {
    VerifyMeansCopiesInPlace(before, m.oldN, m.newN);
    var home := NewHome(m, r.entry.msg.chat);
    MidOfRow(before[i].rows, r);
    assert i < m.oldN ==> ShardInPlace(before, i, m.newN);
    assert HasMid(before[home], r.entry.msg.mid);
    var q := RowOfMid(before[home].rows, r.entry.msg.mid);
    var ids := DoomedIds(before[home].rows, home, m.newN);
    IdsIdentifyRows(before[home]);
    assert q.id !in ids;
    DeleteIdsFacts(before[home].rows, ids);
    assert q in after[home].rows;
  }
}
