/** The two views of the migration agree: left alone, the protocol's backfill always finishes, in the
    state the `Backfill` method computes, and the `Verify` method's verdict is what makes the switch
    safe. And dialogs stay apart in every reachable state. */
module QuietMigration {
  import opened Sharding
  import opened MessageTable
  import opened DialogList
  import opened ClusterConfig
  import opened ReshardingProtocol
  import opened ReshardingSafety
  import opened ReshardingOutcome
  import opened BackfillPlan
  import opened BackfillSteps
  import DialogsCluster

  /** Backfill has made its copies up to position `p` of the current source shard. */
  ghost predicate QuietAt(m: Migration, start: seq<Table>, s: State, p: nat) {
    && |start| == m.pools && |s.shards| == m.pools
    && (forall i :: 0 <= i < |start| ==> Valid(start[i]))
    && s.phase.Copying? && s.phase.src < m.oldN
    && var src, page, rows := s.phase.src, s.phase.page, s.shards[s.phase.src].rows;
    && p + |page| <= |rows| && page == rows[p..p + |page|]
    && AtCursor(rows, s.phase.lastId, p + |page|)
    && s.shards == CopiesUpTo(m, start, rows, src, p)
  }

  /** The tables after the copies of the first `src` shards and of the first `p` of `rows`. */
  ghost function CopiesUpTo(m: Migration, start: seq<Table>, rows: seq<Row>, src: nat, p: nat): seq<Table>
    requires |start| == m.pools && src < m.oldN && p <= |rows|
  {
    MovesInCluster(start, src, m.newN);
    MovesOfInCluster(m, rows[..p], src);
    ApplyMoves(start, Moves(start, src, m.newN) + MovesOf(rows[..p], src, m.newN))
  }

  lemma {:induction false} MovesOfInCluster(m: Migration, rows: seq<Row>, src: nat)
    ensures InCluster(MovesOf(rows, src, m.newN), m.pools)
  {
    MovesOfHomeward(rows, src, m.newN);
  }

  lemma CopyOneRow(m: Migration, start: seq<Table>, rows: seq<Row>, src: nat, p: nat)
    requires |start| == m.pools && src < m.oldN && p < |rows|
    ensures var dst := NewHome(m, rows[p].entry.msg.chat);
            CopiesUpTo(m, start, rows, src, p + 1)
            == if dst == src then CopiesUpTo(m, start, rows, src, p)
               else InsertAt(CopiesUpTo(m, start, rows, src, p), dst, rows[p].entry)
  {
    var dst := NewHome(m, rows[p].entry.msg.chat);
    assert rows[..p + 1][..p] == rows[..p];
    if dst != src {
      var before := Moves(start, src, m.newN) + MovesOf(rows[..p], src, m.newN);
      var mv := Move(dst, rows[p].entry);
      assert MovesOf(rows[..p + 1], src, m.newN) == MovesOf(rows[..p], src, m.newN) + [mv];
      var after := Moves(start, src, m.newN) + MovesOf(rows[..p + 1], src, m.newN);
      assert after == before + [mv] && after[..|after| - 1] == before;
    }
  }

  /** All rows of shard `src` copied is the same as none of shard `src + 1`. */
  lemma {:induction false} ShardEnds(m: Migration, start: seq<Table>, rows: seq<Row>, src: nat)
    requires |start| == m.pools && src < m.oldN
    requires forall i :: 0 <= i < |start| ==> Valid(start[i])
    requires rows == CopiesUpTo(m, start, rows, src, |rows|)[src].rows
    ensures InCluster(Moves(start, src + 1, m.newN), |start|)
    ensures CopiesUpTo(m, start, rows, src, |rows|) == ApplyMoves(start, Moves(start, src + 1, m.newN))
  {
    assert rows[..|rows|] == rows;
    var before, here := Moves(start, src, m.newN), MovesOf(rows, src, m.newN);
    MovesInCluster(start, src, m.newN);
    MovesInCluster(start, src + 1, m.newN);
    MovesOfInCluster(m, rows, src);
    MovesHomeward(start, src, m.newN);
    MovesOfHomeward(rows, src, m.newN);
    ApplyGrows(start, before + here, m.newN, src);
  }

  predicate BackfillStep(a: Action) {
    a.ReadPage? || a.CopyRow?
  }

  ghost predicate BackfillOnly(acts: seq<Action>) {
    forall i :: 0 <= i < |acts| ==> BackfillStep(acts[i])
  }

  lemma CopyStep(m: Migration, start: seq<Table>, s: State, p: nat)
    requires QuietAt(m, start, s, p) && s.phase.page != []
    ensures CanStep(m, s, CopyRow) && QuietAt(m, start, Step(m, s, CopyRow), p + 1)
    ensures Step(m, s, CopyRow).phase.page == s.phase.page[1..]
    ensures Step(m, s, CopyRow).shards[s.phase.src] == s.shards[s.phase.src]
  {
    var src, page, rows := s.phase.src, s.phase.page, s.shards[s.phase.src].rows;
    assert page[0] == rows[p];
    CopyOneRow(m, start, rows, src, p);
    var s' := Step(m, s, CopyRow);
    assert s'.phase.page == rows[p + 1..p + |page|];
    assert s'.shards[src].rows == rows;
  }

  lemma ReadNextPage(m: Migration, start: seq<Table>, s: State, p: nat)
    requires QuietAt(m, start, s, p) && s.phase.page == [] && p < |s.shards[s.phase.src].rows|
    ensures CanStep(m, s, ReadPage)
    ensures var s' := Step(m, s, ReadPage);
            && QuietAt(m, start, s', p) && s'.shards == s.shards
            && s'.phase.src == s.phase.src && s'.phase.page != []
  {
    PageBlock(s.shards[s.phase.src].rows, s.phase.lastId, p);
  }

  lemma {:induction false} ReadPastEnd(m: Migration, start: seq<Table>, s: State, p: nat)
    requires QuietAt(m, start, s, p) && s.phase.page == [] && p == |s.shards[s.phase.src].rows|
    ensures CanStep(m, s, ReadPage) && Step(m, s, ReadPage).shards == s.shards
    ensures s.phase.src + 1 < m.oldN ==>
              QuietAt(m, start, Step(m, s, ReadPage), 0) && Step(m, s, ReadPage).phase.src == s.phase.src + 1
    ensures s.phase.src + 1 >= m.oldN ==>
              && Step(m, s, ReadPage).phase.Copied?
              && InCluster(Moves(start, m.oldN, m.newN), |start|)
              && s.shards == ApplyMoves(start, Moves(start, m.oldN, m.newN))
  {
    var src, rows := s.phase.src, s.shards[s.phase.src].rows;
    PageBlock(rows, s.phase.lastId, p);
    ShardEnds(m, start, rows, src);
    if src + 1 < m.oldN {
      NextShardStarts(m, start, s.shards, src + 1);
    }
  }

  lemma {:induction false} NextShardStarts(m: Migration, start: seq<Table>, shards: seq<Table>, src: nat)
    requires |start| == m.pools && src < m.oldN
    requires forall i :: 0 <= i < |start| ==> Valid(start[i])
    requires InCluster(Moves(start, src, m.newN), |start|) && shards == ApplyMoves(start, Moves(start, src, m.newN))
    ensures AtCursor(shards[src].rows, 0, 0)
    ensures shards == CopiesUpTo(m, start, shards[src].rows, src, 0)
  {
    MovesHomeward(start, src, m.newN);
    ApplyGrows(start, Moves(start, src, m.newN), m.newN, src);
    var rows := shards[src].rows;
    assert rows[..0] == [];
    assert Moves(start, src, m.newN) + [] == Moves(start, src, m.newN);
  }

  /** The two states differ at most in tables and phase. */
  ghost predicate SameBook(s: State, s': State) {
    s' == s.(shards := s'.shards, phase := s'.phase)
  }

  lemma {:induction false} RunOneMore(m: Migration, s: State, a: Action, rest: seq<Action>)
    requires BackfillStep(a) && CanStep(m, s, a)
    requires BackfillOnly(rest) && CanRun(m, Step(m, s, a), rest)
    requires SameBook(Step(m, s, a), Run(m, Step(m, s, a), rest))
    ensures BackfillOnly([a] + rest) && CanRun(m, s, [a] + rest)
    ensures Run(m, s, [a] + rest) == Run(m, Step(m, s, a), rest)
    ensures SameBook(s, Run(m, s, [a] + rest))
  {
    var acts := [a] + rest;
    assert acts[1..] == rest;
  }

  /** From any point of an undisturbed backfill its own steps lead to the end, by the measure
      (shards left, rows above the cursor, rows of the page), and to the method's result. */
  lemma {:induction false} BackfillFinishes(m: Migration, start: seq<Table>, s: State, p: nat)
    returns (acts: seq<Action>)
    requires QuietAt(m, start, s, p)
    ensures BackfillOnly(acts) && CanRun(m, s, acts) && SameBook(s, Run(m, s, acts))
    ensures InCluster(Moves(start, m.oldN, m.newN), |start|)
    ensures Run(m, s, acts).phase.Copied?
    ensures Run(m, s, acts).shards == ApplyMoves(start, Moves(start, m.oldN, m.newN))
    decreases m.oldN - s.phase.src, |s.shards[s.phase.src].rows| - p - |s.phase.page|, |s.phase.page|
  {
    var a := if s.phase.page != [] then CopyRow else ReadPage;
    var p' := p;
    if s.phase.page != [] {
      CopyStep(m, start, s, p);
      p' := p + 1;
    } else if p < |s.shards[s.phase.src].rows| {
      ReadNextPage(m, start, s, p);
    } else {
      ReadPastEnd(m, start, s, p);
      p' := 0;
    }
    var s' := Step(m, s, a);
    var rest := [];
    if !s'.phase.Copied? {
      rest := BackfillFinishes(m, start, s', p');
    }
    acts := [a] + rest;
    RunOneMore(m, s, a, rest);
  }

  /** In every reachable state with dual-write on, starting backfill and leaving it alone ends with
      exactly the tables that `Cluster.Backfill` leaves, and nothing else changed. */
  lemma ProtocolMatchesMethod(m: Migration, s: State) returns (acts: seq<Action>)
    requires Sound(m, s) && s.phase.Enabled?
    ensures |acts| > 0 && acts[0] == StartBackfill && BackfillOnly(acts[1..]) && CanRun(m, s, acts)
    ensures Run(m, s, acts)
         == s.(shards := ApplyUpTo(s.shards, Moves(s.shards, Sources(s.cfg.readN, |s.shards|), m.newN)), phase := Copied)
  {
    var s1 := Step(m, s, StartBackfill);
    MovesInCluster(s.shards, 0, m.newN);
    NextShardStarts(m, s.shards, s.shards, 0);
    assert s.shards[0].rows[0..0] == [];
    var rest := BackfillFinishes(m, s.shards, s1, 0);
    acts := [StartBackfill] + rest;
    assert acts[1..] == rest;
    AllInside(Moves(s.shards, m.oldN, m.newN), |s.shards|);
  }

  /** The answer `r` of the `Verify` method decides the protocol's switch: with no send under way that was
      routed before dual-write, if it passes the switch loses nothing; and with none under way and none
      raised, only then. */
  lemma {:induction false} VerifyCommandDecides(m: Migration, s: State, r: Result<()>)
    requires Sound(m, s) && s.phase.Copied?
    requires DialogsCluster.VerifyAnswers(s.shards, Sources(s.cfg.readN, |s.shards|), m.newN, r)
    ensures NoStaleSend(m, s) && r.Ok? ==> SwitchReady(m, s)
    ensures s.flights == map[] && s.failed == {} ==> (r.Ok? <==> SwitchReady(m, s))
  {
    VerifyDecidesTheSwitch(m, s);
    InPlaceIsVerified(m, s);
  }

  lemma {:induction false} InPlaceIsVerified(m: Migration, s: State)
    requires Sound(m, s)
    ensures DialogsCluster.CopiesInPlace(s.shards, m.oldN, m.newN) <==> Verified(m, s)
  {
    if Verified(m, s) {
      forall i | 0 <= i < m.oldN
        ensures DialogsCluster.ShardInPlace(s.shards, i, m.newN)
      {
      }
    }
    if DialogsCluster.CopiesInPlace(s.shards, m.oldN, m.newN) {
      forall i, r | 0 <= i < |s.shards| && i < m.oldN && r in s.shards[i].rows
        ensures At(s, NewHome(m, r.entry.msg.chat), r.entry.msg.mid)
      {
        assert DialogsCluster.ShardInPlace(s.shards, i, m.newN);
      }
    }
  }

  /** Every message any send has brought in is filed under its own two users. */
  ghost predicate SendsFiled(hash: seq<byte> -> ChatId, s: State) {
    forall k :: k in s.sent ==> Filed(hash, s.sent[k])
  }

  /** If every send files its message under its own two users, then in every state any run reaches,
      both users read the same listing and it holds only messages between the two. */
  lemma {:induction false} DialogsStayApart(hash: seq<byte> -> ChatId, m: Migration, s0: State, acts: seq<Action>,
                                            a: UserId, b: UserId, limit: nat, offset: nat)
    requires CollisionFree(hash)
    requires Init(m, s0) && CanRun(m, s0, acts) && SendsFiled(hash, Run(m, s0, acts))
    ensures var s := Run(m, s0, acts);
            var ab, ba := ComputeChatId(hash, a, b), ComputeChatId(hash, b, a);
            && s.cfg.readN > 0 && ReadHome(s.cfg, ab) < |s.shards| && ReadHome(s.cfg, ba) < |s.shards|
            && var listed := ListChat(s.shards[ReadHome(s.cfg, ab)], ab, limit, offset);
            && listed == ListChat(s.shards[ReadHome(s.cfg, ba)], ba, limit, offset)
            && forall d :: d in listed ==> {d.fromUser, d.toUser} == {a, b}
  {
    InitIsSound(m, s0);
    SoundRun(m, s0, acts);
    var s := Run(m, s0, acts);
    PayloadNamesThePair(a, b, b, a);
    var home := ReadHome(s.cfg, ComputeChatId(hash, a, b));
    ListingIsTheDialog(hash, s.shards[home], a, b, limit, offset);
  }
}
