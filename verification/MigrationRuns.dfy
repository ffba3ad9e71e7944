/** Runs that exist: a quiet migration always reaches its end, and each way the protocol can fail is
    reached by some run whenever the two schemes differ on some chat. */
module MigrationRuns {
  import opened Sharding
  import opened MessageTable
  import opened DialogList
  import opened ClusterConfig
  import opened ReshardingProtocol
  import opened ReshardingSafety
  import opened ReshardingOutcome
  import opened QuietMigration

  // ---------------------------------------------------------------- putting runs together

  ghost predicate Leads(m: Migration, s: State, acts: seq<Action>, s': State) {
    CanRun(m, s, acts) && Run(m, s, acts) == s'
  }

  /** A run that respects both grace periods. */
  ghost predicate Runs(m: Migration, s: State, acts: seq<Action>, s': State) {
    Leads(m, s, acts, s') && Drained(m, s, acts) && CleanupDrained(m, s, acts)
  }

  lemma {:induction false} Joined(m: Migration, s: State, a: seq<Action>, s1: State, b: seq<Action>, s2: State)
    requires Leads(m, s, a, s1) && Leads(m, s1, b, s2)
    ensures Leads(m, s, a + b, s2)
    ensures Runs(m, s, a, s1) && Runs(m, s1, b, s2) ==> Runs(m, s, a + b, s2)
    decreases |a|
  {
    if a == [] {
      assert a + b == b;
    } else {
      Joined(m, Step(m, s, a[0]), a[1..], s1, b, s2);
      assert (a + b)[1..] == a[1..] + b;
    }
  }

  lemma {:induction false} OneStep(m: Migration, s: State, a: Action)
    requires CanStep(m, s, a)
    ensures Leads(m, s, [a], Step(m, s, a))
    ensures (a.StartBackfill? ==> NoStaleSend(m, s)) && (a.StartCleanup? ==> NoOldSend(m, s)) ==> Runs(m, s, [a], Step(m, s, a))
  {
    assert [a][1..] == [];
    var s' := Step(m, s, a);
    assert Drained(m, s', []) && CleanupDrained(m, s', []);
  }

  /** One more step. */
  lemma {:induction false} Then(m: Migration, s: State, acts: seq<Action>, s1: State, a: Action)
    requires Leads(m, s, acts, s1) && CanStep(m, s1, a)
    ensures Leads(m, s, acts + [a], Step(m, s1, a))
    ensures Runs(m, s, acts, s1) && (a.StartBackfill? ==> NoStaleSend(m, s1)) && (a.StartCleanup? ==> NoOldSend(m, s1)) ==>
              Runs(m, s, acts + [a], Step(m, s1, a))
  {
    OneStep(m, s1, a);
    Joined(m, s, acts, s1, [a], Step(m, s1, a));
  }

  predicate Starts(a: Action) {
    a.StartBackfill? || a.StartCleanup?
  }

  lemma {:induction false} NothingStarts(m: Migration, s: State, acts: seq<Action>)
    requires CanRun(m, s, acts) && forall i :: 0 <= i < |acts| ==> !Starts(acts[i])
    ensures Runs(m, s, acts, Run(m, s, acts))
    decreases |acts|
  {
    if acts != [] {
      NothingStarts(m, Step(m, s, acts[0]), acts[1..]);
    }
  }

  // ---------------------------------------------------------------- a quiet migration reaches its end

  lemma {:induction false} QuietBackfill(m: Migration, s0: State) returns (acts: seq<Action>, s: State)
    requires Init(m, s0)
    ensures Runs(m, s0, acts, s) && Inv(m, s) && s.phase.Copied?
    ensures s.sent == s0.sent && s.flights == map[] && s.failed == {}
  {
    InitIsSound(m, s0);
    InvStep(m, s0, EnableDualWrite);
    var s1 := Step(m, s0, EnableDualWrite);
    Then(m, s0, [], s0, EnableDualWrite);
    var fill := ProtocolMatchesMethod(m, s1);
    s := Run(m, s1, fill);
    NothingStarts(m, Step(m, s1, StartBackfill), fill[1..]);
    InvRun(m, s1, fill);
    acts := [] + [EnableDualWrite] + fill;
    Joined(m, s0, [] + [EnableDualWrite], s1, fill, s);
  }

  lemma {:induction false} QuietSwitch(m: Migration, s0: State) returns (acts: seq<Action>, s: State)
    requires Init(m, s0)
    ensures Runs(m, s0, acts, s) && Inv(m, s) && s.phase.Switched?
    ensures s.sent == s0.sent && s.flights == map[] && s.failed == {}
  {
    var fill, s1 := QuietBackfill(m, s0);
    InvStep(m, s1, SwitchRead);
    s := Step(m, s1, SwitchRead);
    Then(m, s0, fill, s1, SwitchRead);
    acts := fill + [SwitchRead];
  }

  lemma {:induction false} QuietCleanup(m: Migration, s: State) returns (acts: seq<Action>, s': State)
    requires |s.shards| == m.pools && s.phase.Cleaning? && s.phase.doomed.None? && s.phase.shard <= m.newN
    ensures Runs(m, s, acts, s') && s'.phase.Cleaned?
    ensures s'.sent == s.sent && s'.flights == s.flights && s'.failed == s.failed
    decreases m.newN - s.phase.shard
  {
    if s.phase.shard == m.newN {
      s' := Step(m, s, FinishCleanup);
      Then(m, s, [], s, FinishCleanup);
      acts := [] + [FinishCleanup];
    } else {
      var s1 := Step(m, s, FetchDoomed);
      var s2 := Step(m, s1, DeleteDoomed);
      Then(m, s, [], s, FetchDoomed);
      Then(m, s, [] + [FetchDoomed], s1, DeleteDoomed);
      var rest, end := QuietCleanup(m, s2);
      s' := end;
      acts := [] + [FetchDoomed] + [DeleteDoomed] + rest;
      Joined(m, s, [] + [FetchDoomed] + [DeleteDoomed], s2, rest, s');
    }
  }

  /** From every starting state the operator can take the migration to its end. */
  lemma {:induction false} QuietMigrationCompletes(m: Migration, s0: State) returns (acts: seq<Action>)
    requires Init(m, s0)
    ensures CanRun(m, s0, acts) && Finished(m, s0, acts)
    ensures Run(m, s0, acts).sent == s0.sent && Run(m, s0, acts).failed == {}
  {
    var switch, s1 := QuietSwitch(m, s0);
    var s2 := Step(m, s1, DisableDualWrite);
    Then(m, s0, switch, s1, DisableDualWrite);
    var s3 := Step(m, s2, StartCleanup);
    Then(m, s0, switch + [DisableDualWrite], s2, StartCleanup);
    var rest, s := QuietCleanup(m, s3);
    acts := switch + [DisableDualWrite] + [StartCleanup] + rest;
    Joined(m, s0, switch + [DisableDualWrite] + [StartCleanup], s3, rest, s);
  }

  // ---------------------------------------------------------------- rows left behind

  /** Hence wherever a row starts out beyond the new shards, the completed migration leaves it. */
  lemma {:induction false} ShrinkingHappens(m: Migration, s0: State, i: nat) returns (acts: seq<Action>)
    requires Init(m, s0) && m.newN <= i < m.pools && s0.shards[i].rows != []
    ensures CanRun(m, s0, acts) && Finished(m, s0, acts)
    ensures TotalRows(Run(m, s0, acts).shards) > |s0.sent|
  {
    acts := QuietMigrationCompletes(m, s0);
    ShrinkingLeavesRows(m, s0, acts, i);
    EachMessageIsHome(m, s0, acts);
    StoredAre(m, Run(m, s0, acts));
  }

  /** One stored message on the second of two shards. */
  function OneRow(msg: Msg): State {
    State([EMPTY, Insert(EMPTY, Entry(msg, 0))], Config(2, 2, false), Before, map[msg.mid := msg], map[], {msg.mid}, {})
  }

  lemma {:induction false} ShrinkingExample(msg: Msg) returns (acts: seq<Action>)
    requires msg.chat == ChatInBucket(1)
    ensures Init(Params(2, 1, 2), OneRow(msg))
    ensures CanRun(Params(2, 1, 2), OneRow(msg), acts) && Finished(Params(2, 1, 2), OneRow(msg), acts)
    ensures TotalRows(Run(Params(2, 1, 2), OneRow(msg), acts).shards) > |OneRow(msg).sent|
  {
    OneRowIsStart(msg);
    acts := ShrinkingHappens(Params(2, 1, 2), OneRow(msg), 1);
  }

  lemma {:induction false} OneRowIsStart(msg: Msg)
    requires msg.chat == ChatInBucket(1)
    ensures Init(Params(2, 1, 2), OneRow(msg)) && OneRow(msg).shards[1].rows != []
  {
    var m: Migration := Params(2, 1, 2);
    InBucketOne();
    var t := Insert(EMPTY, Entry(msg, 0));
    assert t.rows == [Row(1, Entry(msg, 0))];
    assert t.rows[0] in t.rows;
  }

  lemma {:induction false} InBucketOne()
    ensures Shard(ChatInBucket(1), 2) == 1
  {
    assert Pow256(8) > 1;
    BucketIsGiven(1);
  }

  // ---------------------------------------------------------------- without the first grace period

  ghost predicate Nowhere(s: State, k: nat) {
    forall i :: 0 <= i < |s.shards| ==> k !in Mids(s.shards[i].rows)
  }

  lemma {:induction false} BackfillAddsNoMessage(m: Migration, s: State, acts: seq<Action>, k: nat)
    requires Sound(m, s) && BackfillOnly(acts) && CanRun(m, s, acts) && Nowhere(s, k)
    ensures Nowhere(Run(m, s, acts), k)
    ensures Run(m, s, acts).flights == s.flights && Run(m, s, acts).sent == s.sent
    decreases |acts|
  {
    if acts != [] {
      SoundStep(m, s, acts[0]);
      assert BackfillStep(acts[0]);
      if acts[0].CopyRow? {
        CopyAddsNoMessage(m, s, k);
      }
      BackfillAddsNoMessage(m, Step(m, s, acts[0]), acts[1..], k);
    }
  }

  lemma {:induction false} CopyAddsNoMessage(m: Migration, s: State, k: nat)
    requires Sound(m, s) && CanStep(m, s, CopyRow) && Nowhere(s, k)
    ensures Nowhere(Step(m, s, CopyRow), k)
  {
    var r := s.phase.page[0];
    var dst := NewHome(m, r.entry.msg.chat);
    assert r in s.phase.page;
    MidOfRow(s.shards[s.phase.src].rows, r);
    if dst != s.phase.src {
      InsertFacts(s.shards[dst], r.entry);
    }
  }

  /** A send routed before dual-write is on, and dual-write switched on while it is under way. */
  lemma {:induction false} StaleSend(m: Migration, s0: State, msg: Msg) returns (acts: seq<Action>, s: State)
    requires Init(m, s0) && msg.mid !in s0.sent
    ensures Leads(m, s0, acts, s) && Sound(m, s) && s.phase.Enabled?
    ensures msg.mid in s.flights && s.flights[msg.mid] == Flight({}, [OldHome(m, msg.chat)])
    ensures msg.mid in s.sent && s.sent[msg.mid] == msg && Nowhere(s, msg.mid)
  {
    InitIsSound(m, s0);
    var s1 := Step(m, s0, StartSend(msg));
    SoundStep(m, s0, StartSend(msg));
    s := Step(m, s1, EnableDualWrite);
    SoundStep(m, s1, EnableDualWrite);
    Then(m, s0, [], s0, StartSend(msg));
    Then(m, s0, [] + [StartSend(msg)], s1, EnableDualWrite);
    acts := [] + [StartSend(msg)] + [EnableDualWrite];
    forall i | 0 <= i < |s0.shards|
      ensures msg.mid !in Mids(s0.shards[i].rows)
    {
      UnknownIsNowhere(m, s0, i, msg.mid);
      assert !At(s0, i, msg.mid);
    }
  }

  lemma {:induction false} StaleSendOutlasts(m: Migration, s: State, k: nat) returns (acts: seq<Action>, s': State)
    requires Sound(m, s) && s.phase.Enabled? && k in s.flights && k in s.sent && Nowhere(s, k)
    ensures Leads(m, s, acts, s') && s'.phase.Copied? && Nowhere(s', k)
    ensures s'.flights == s.flights && s'.sent == s.sent && Sound(m, s')
  {
    acts := ProtocolMatchesMethod(m, s);
    s' := Run(m, s, acts);
    SoundStep(m, s, StartBackfill);
    BackfillAddsNoMessage(m, Step(m, s, StartBackfill), acts[1..], k);
    SoundRun(m, s, acts);
  }

  /** Without the grace period backfill can return while a send routed before dual-write is still
      under way, and that send's message is neither on its new home nor bound for it. */
  lemma {:induction false} StaleSendOutlastsBackfill(m: Migration, s0: State, msg: Msg) returns (acts: seq<Action>)
    requires Init(m, s0) && msg.mid !in s0.sent && OldHome(m, msg.chat) != NewHome(m, msg.chat)
    ensures CanRun(m, s0, acts) && Run(m, s0, acts).phase.Copied? && !SwitchReady(m, Run(m, s0, acts))
  {
    var start, s1 := StaleSend(m, s0, msg);
    var fill, s := StaleSendOutlasts(m, s1, msg.mid);
    acts := start + fill;
    Joined(m, s0, start, s1, fill, s);
    assert !Ready(m, s, msg.mid);
    assert msg.mid in s.flights.Keys;
  }

  /** So whenever some chat moves, an operator who does not wait can lose an acknowledged message. */
  lemma {:induction false} UndrainedMigrationLoses(m: Migration, s0: State, msg: Msg) returns (acts: seq<Action>)
    requires Init(m, s0) && msg.mid !in s0.sent && OldHome(m, msg.chat) != NewHome(m, msg.chat)
    ensures CanRun(m, s0, acts) && !Safe(Run(m, s0, acts))
  {
    var before := StaleSendOutlastsBackfill(m, s0, msg);
    InitIsSound(m, s0);
    SoundRun(m, s0, before);
    var s := Run(m, s0, before);
    var after := UnreadySwitchLoses(m, s);
    acts := before + after;
    Joined(m, s0, before, s, after, Run(m, s, after));
  }

  // ---------------------------------------------------------------- rollback after the switch

  /** And whenever some chat moves, a rollback after the switch can lose one, even if all waits were
      observed. */
  lemma {:induction false} LateRollbackLoses(m: Migration, s0: State, msg: Msg) returns (acts: seq<Action>)
    requires Init(m, s0) && msg.mid !in s0.sent && OldHome(m, msg.chat) != NewHome(m, msg.chat)
    ensures CanRun(m, s0, acts) && Drained(m, s0, acts) && msg.mid in Run(m, s0, acts).acked
    ensures var back := Run(m, s0, acts).(cfg := Assigned(Run(m, s0, acts).cfg, Some(m.oldN), None, None));
            !Readable(back, msg)
  {
    var switch, s1 := QuietSwitch(m, s0);
    RollbackAfterSwitch(m, s1, msg, 0);
    var send := [StartSend(msg), InsertNext(msg.mid, 0), Acknowledge(msg.mid)];
    NothingStarts(m, s1, send);
    acts := switch + send;
    Joined(m, s0, switch, s1, send, Run(m, s1, send));
  }

  // ---------------------------------------------------------------- sends that overtake each other

  /** Two sends to the same moving dialog begin under dual-write. */
  lemma {:induction false} BothBegin(m: Migration, s: State, a: Msg, b: Msg) returns (acts: seq<Action>, s': State)
    requires Sound(m, s) && s.phase.Enabled? && a.mid !in s.sent && b.mid !in s.sent && a.mid != b.mid
    requires a.chat == b.chat && OldHome(m, a.chat) != NewHome(m, a.chat)
    ensures Leads(m, s, acts, s') && s'.shards == s.shards && |s.shards| == m.pools
    ensures a.mid in s'.sent && s'.sent[a.mid] == a && b.mid in s'.sent && s'.sent[b.mid] == b
    ensures a.mid in s'.flights && s'.flights[a.mid] == Flight({}, [OldHome(m, a.chat), NewHome(m, a.chat)])
    ensures b.mid in s'.flights && s'.flights[b.mid] == Flight({}, [OldHome(m, a.chat), NewHome(m, a.chat)])
  {
    var s1 := Step(m, s, StartSend(a));
    s' := Step(m, s1, StartSend(b));
    Then(m, s, [], s, StartSend(a));
    Then(m, s, [] + [StartSend(a)], s1, StartSend(b));
    acts := [] + [StartSend(a)] + [StartSend(b)];
  }

  lemma {:induction false} TwoInserts(m: Migration, s: State, first: Msg, second: Msg, time: int, home: nat)
    returns (acts: seq<Action>, s': State)
    requires first.mid != second.mid && home < |s.shards|
    requires first.mid in s.sent && s.sent[first.mid] == first && second.mid in s.sent && s.sent[second.mid] == second
    requires first.mid in s.flights && s.flights[first.mid].todo != [] && s.flights[first.mid].todo[0] == home
    requires second.mid in s.flights && s.flights[second.mid].todo != [] && s.flights[second.mid].todo[0] == home
    ensures Leads(m, s, acts, s') && s'.sent == s.sent
    ensures s'.shards == s.shards[home := Insert(Insert(s.shards[home], Entry(first, time)), Entry(second, time))]
    ensures first.mid in s'.flights && s'.flights[first.mid].todo == s.flights[first.mid].todo[1..]
    ensures second.mid in s'.flights && s'.flights[second.mid].todo == s.flights[second.mid].todo[1..]
  {
    var s1 := Step(m, s, InsertNext(first.mid, time));
    s' := Step(m, s1, InsertNext(second.mid, time));
    Then(m, s, [], s, InsertNext(first.mid, time));
    Then(m, s, [] + [InsertNext(first.mid, time)], s1, InsertNext(second.mid, time));
    acts := [] + [InsertNext(first.mid, time)] + [InsertNext(second.mid, time)];
  }

  /** Under dual-write two sends to a moving dialog can reach its two homes in opposite orders. */
  lemma {:induction false} SendsOvertake(m: Migration, s: State, a: Msg, b: Msg, time: int) returns (acts: seq<Action>)
    requires Sound(m, s) && s.phase.Enabled? && a.mid !in s.sent && b.mid !in s.sent && a.mid != b.mid
    requires a.chat == b.chat && OldHome(m, a.chat) != NewHome(m, a.chat)
    ensures CanRun(m, s, acts)
    ensures var s' := Run(m, s, acts);
            var oldHome, newHome := OldHome(m, a.chat), NewHome(m, a.chat);
            && |s.shards| == |s'.shards| == m.pools
            && s'.shards[oldHome] == Arrived(s.shards[oldHome], a, b, Arrival(time, time, true))
            && s'.shards[newHome] == Arrived(s.shards[newHome], a, b, Arrival(time, time, false))
  {
    var start, s1 := BothBegin(m, s, a, b);
    var onOld, s2 := TwoInserts(m, s1, a, b, time, OldHome(m, a.chat));
    var onNew, s3 := TwoInserts(m, s2, b, a, time, NewHome(m, a.chat));
    Joined(m, s, start, s1, onOld, s2);
    Joined(m, s, start + onOld, s2, onNew, s3);
    acts := start + onOld + onNew;
  }
}
