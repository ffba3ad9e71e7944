/** When switching reads is safe, what backfill leaves untouched, and where every message ends up. */
module ReshardingOutcome {
  import opened Sharding
  import opened MessageTable
  import opened ClusterConfig
  import opened ReshardingProtocol
  import opened ReshardingSafety

  // ---------------------------------------------------------------- backfill under live traffic

  lemma {:induction false} PhaseStaysPostSwitch(m: Migration, s: State, acts: seq<Action>)
    requires CanRun(m, s, acts) && !PreSwitch(s.phase)
    ensures !PreSwitch(Run(m, s, acts).phase)
    decreases |acts|
  {
    if acts != [] {
      PhaseStaysPostSwitch(m, Step(m, s, acts[0]), acts[1..]);
    }
  }

  lemma StepKeepsRows(m: Migration, s: State, a: Action)
    requires Sound(m, s) && CanStep(m, s, a) && !a.DeleteDoomed?
    ensures |Step(m, s, a).shards| == |s.shards|
    ensures forall i :: 0 <= i < |s.shards| ==> s.shards[i].rows <= Step(m, s, a).shards[i].rows
  {
    match a
    case InsertNext(mid, now) =>
      InsertFacts(s.shards[s.flights[mid].todo[0]], Entry(s.sent[mid], now));
    case CopyRow =>
      InsertFacts(s.shards[NewHome(m, s.phase.page[0].entry.msg.chat)], s.phase.page[0].entry);
    case _ =>
  }

  /** Until reads are switched, nothing removes, alters or reorders a stored row: every table only
      grows at its end. */
  lemma {:induction false} NothingRemovedBeforeSwitch(m: Migration, s: State, acts: seq<Action>)
    requires Sound(m, s) && CanRun(m, s, acts) && PreSwitch(Run(m, s, acts).phase)
    ensures |Run(m, s, acts).shards| == |s.shards|
    ensures forall i :: 0 <= i < |s.shards| ==> s.shards[i].rows <= Run(m, s, acts).shards[i].rows
    decreases |acts|
  {
    if acts != [] {
      if !PreSwitch(s.phase) {
        PhaseStaysPostSwitch(m, s, acts);
      }
      StepKeepsRows(m, s, acts[0]);
      SoundStep(m, s, acts[0]);
      NothingRemovedBeforeSwitch(m, Step(m, s, acts[0]), acts[1..]);
    }
  }

  /** The row is where its chat lives, and its message is on the chat's new home, unaltered, unless its
      send is still to write there or has raised. */
  ghost predicate RowCovered(m: Migration, s: State, i: nat, r: Row) {
    var k, newHome := r.entry.msg.mid, NewHome(m, r.entry.msg.chat);
    && newHome < |s.shards|
    && (i == OldHome(m, r.entry.msg.chat) || i == newHome)
    && (|| (exists q :: q in s.shards[newHome].rows && q.entry.msg == r.entry.msg)
        || (k in s.flights && newHome in s.flights[k].todo)
        || k in s.failed)
  }

  lemma SwitchReadyCoversRow(m: Migration, s: State, i: nat, r: Row)
    requires Sound(m, s) && SwitchReady(m, s) && i < |s.shards| && r in s.shards[i].rows
    ensures RowCovered(m, s, i, r)
  {
    var k, newHome := r.entry.msg.mid, NewHome(m, r.entry.msg.chat);
    assert OwnedRow(m, s.sent, i, r);
    assert k in s.sent.Keys;
    if k !in s.failed {
      assert Ready(m, s, k);
      if At(s, newHome, k) {
        var q := RowOfMid(s.shards[newHome].rows, k);
        assert OwnedRow(m, s.sent, newHome, q);
      }
    }
  }

  /** When a drained backfill has returned, every row is covered. */
  lemma {:induction false} BackfillCovers(m: Migration, s0: State, acts: seq<Action>)
    requires Init(m, s0) && CanRun(m, s0, acts) && Drained(m, s0, acts)
    requires Run(m, s0, acts).phase.Copied?
    ensures var s := Run(m, s0, acts);
            forall i, r :: 0 <= i < |s.shards| && r in s.shards[i].rows ==> RowCovered(m, s, i, r)
  {
    InitIsSound(m, s0);
    InvRun(m, s0, acts);
    var s := Run(m, s0, acts);
    forall i, r | 0 <= i < |s.shards| && r in s.shards[i].rows
      ensures RowCovered(m, s, i, r)
    {
      SwitchReadyCoversRow(m, s, i, r);
    }
  }

  // ---------------------------------------------------------------- exactly when the switch is safe

  lemma ReadableIsAt(s: State, msg: Msg)
    requires s.cfg.readN > 0
    ensures Readable(s, msg) ==> At(s, ReadHome(s.cfg, msg.chat), msg.mid)
  {
  }

  lemma MissingIsUnsafe(m: Migration, s: State, k: nat)
    requires Sound(m, s) && s.phase.Switched? && k in s.acked && k in s.sent
    requires !At(s, NewHome(m, s.sent[k].chat), k)
    ensures !Safe(s)
  {
    ReadableIsAt(s, s.sent[k]);
  }

  /** After the switch, a send that was routed without the new home finishes, is acknowledged, and
      cannot be read. */
  lemma {:induction false} StaleSendFinishesLost(m: Migration, s: State, k: nat) returns (acts: seq<Action>)
    requires Sound(m, s) && s.phase.Switched? && k in s.flights && k in s.sent
    requires !Ready(m, s, k)
    ensures CanRun(m, s, acts) && Drained(m, s, acts) && !Safe(Run(m, s, acts))
    decreases |s.flights[k].todo|
  {
    var f := s.flights[k];
    if f.todo == [] {
      var a := Acknowledge(k);
      acts := [a];
      SoundStep(m, s, a);
      var s' := Step(m, s, a);
      assert !At(s', NewHome(m, s.sent[k].chat), k);
      MissingIsUnsafe(m, s', k);
      assert acts[1..] == [];
    } else {
      assert PlannedSend(m, s, k, f);
      assert f.todo[0] in f.todo;
      var a := InsertNext(k, 0);
      SoundStep(m, s, a);
      var s' := Step(m, s, a);
      AtAfterInsert(s, s', f.todo[0], Entry(s.sent[k], 0));
      assert f.todo == [f.todo[0]] + f.todo[1..];
      var rest := StaleSendFinishesLost(m, s', k);
      acts := [a] + rest;
      assert acts[1..] == rest;
    }
  }

  lemma UnreadySwitchLoses(m: Migration, s: State) returns (acts: seq<Action>)
    requires Sound(m, s) && s.phase.Copied? && !SwitchReady(m, s)
    ensures CanRun(m, s, acts) && Drained(m, s, acts) && !Safe(Run(m, s, acts))
  {
    var k :| k in s.acked + s.flights.Keys && k in s.sent && !Ready(m, s, k);
    SoundStep(m, s, SwitchRead);
    var s' := Step(m, s, SwitchRead);
    assert !Ready(m, s', k);
    if k in s.acked {
      acts := [SwitchRead];
      assert acts[1..] == [];
      MissingIsUnsafe(m, s', k);
    } else {
      var rest := StaleSendFinishesLost(m, s', k);
      acts := [SwitchRead] + rest;
      assert acts[1..] == rest;
    }
  }

  /** Take any state in which backfill has returned, drained or not. Every continuation keeps every
      acknowledged message readable exactly when each message acknowledged or under way is on its
      new home or will be written there by its own send. */
  lemma {:induction false} SwitchIsSafeExactlyWhenReady(m: Migration, s0: State, before: seq<Action>)
    requires Init(m, s0) && CanRun(m, s0, before) && Run(m, s0, before).phase.Copied?
    ensures var s := Run(m, s0, before);
            SwitchReady(m, s) <==>
              (forall acts :: CanRun(m, s, acts) && Drained(m, s, acts) ==> Safe(Run(m, s, acts)))
  {
    InitIsSound(m, s0);
    SoundRun(m, s0, before);
    var s := Run(m, s0, before);
    if SwitchReady(m, s) {
      forall acts | CanRun(m, s, acts) && Drained(m, s, acts)
        ensures Safe(Run(m, s, acts))
      {
        InvRun(m, s, acts);
        InvIsSafe(m, Run(m, s, acts));
      }
    } else {
      var acts := UnreadySwitchLoses(m, s);
    }
  }

  /** What `verify` looks for: every row of the old shards has its message id on its new home. */
  ghost predicate Verified(m: Migration, s: State) {
    forall i, r :: 0 <= i < |s.shards| && i < m.oldN && r in s.shards[i].rows ==>
      At(s, NewHome(m, r.entry.msg.chat), r.entry.msg.mid)
  }

  /** Once no send routed before dual-write is under way, a passing `verify` makes the switch safe, also
      while dual-writing sends are. */
  lemma {:induction false} VerifyAllowsTheSwitch(m: Migration, s: State)
    requires Sound(m, s) && s.phase.Copied? && NoStaleSend(m, s) && Verified(m, s)
    ensures SwitchReady(m, s)
  {
    forall k | k in s.acked + s.flights.Keys && k in s.sent
      ensures Ready(m, s, k)
    {
      if k in s.flights {
        CoveringIsReady(m, s, k);
      } else {
        var home := OldHome(m, s.sent[k].chat);
        assert At(s, home, k);
        var r := RowOfMid(s.shards[home].rows, k);
        assert OwnedRow(m, s.sent, home, r);
      }
    }
  }

  lemma {:induction false} ReadyIsVerified(m: Migration, s: State)
    requires Sound(m, s) && s.flights == map[] && s.failed == {} && SwitchReady(m, s)
    ensures Verified(m, s)
  {
    forall i, r | 0 <= i < |s.shards| && i < m.oldN && r in s.shards[i].rows
      ensures At(s, NewHome(m, r.entry.msg.chat), r.entry.msg.mid)
    {
      assert OwnedRow(m, s.sent, i, r);
      assert r.entry.msg.mid in s.sent.Keys;
      assert Ready(m, s, r.entry.msg.mid);
    }
  }

  /** And when no send is under way and none has raised, it is also necessary. */
  lemma {:induction false} VerifyDecidesTheSwitch(m: Migration, s: State)
    requires Sound(m, s) && s.phase.Copied?
    ensures NoStaleSend(m, s) && Verified(m, s) ==> SwitchReady(m, s)
    ensures s.flights == map[] ==> NoStaleSend(m, s)
    ensures s.flights == map[] && s.failed == {} ==> (Verified(m, s) <==> SwitchReady(m, s))
  {
    if NoStaleSend(m, s) && Verified(m, s) {
      VerifyAllowsTheSwitch(m, s);
    }
    if s.flights == map[] && s.failed == {} && SwitchReady(m, s) {
      ReadyIsVerified(m, s);
    }
  }

  // ---------------------------------------------------------------- rollback after the switch

  lemma {:induction false} UnknownIsNowhere(m: Migration, s: State, i: nat, mid: nat)
    requires Sound(m, s) && mid !in s.sent
    ensures !At(s, i, mid)
  {
    if i < |s.shards| {
      assert forall r :: r in s.shards[i].rows ==> OwnedRow(m, s.sent, i, r);
    }
  }

  /** After the switch a send writes one shard only, although dual-write is still on. So if reads go
      back to the old scheme, a message sent and acknowledged in between is found exactly when its
      chat does not move. */
  lemma {:induction false} RollbackAfterSwitch(m: Migration, s: State, msg: Msg, now: int)
    requires Sound(m, s) && s.phase.Switched? && msg.mid !in s.sent
    ensures var acts := [StartSend(msg), InsertNext(msg.mid, now), Acknowledge(msg.mid)];
            && CanRun(m, s, acts)
            && var done := Run(m, s, acts);
            && msg.mid in done.acked && s.cfg.dualWrite
            && var back := done.(cfg := Assigned(done.cfg, Some(m.oldN), None, None));
            (Readable(back, msg) <==> OldHome(m, msg.chat) == NewHome(m, msg.chat))
  {
    var acts := [StartSend(msg), InsertNext(msg.mid, now), Acknowledge(msg.mid)];
    var s1 := Step(m, s, acts[0]);
    assert s1.flights[msg.mid] == Flight({}, [NewHome(m, msg.chat)]);
    SoundStep(m, s, acts[0]);
    var s2 := Step(m, s1, acts[1]);
    assert s2.flights[msg.mid].todo == [];
    var s3 := Step(m, s2, acts[2]);
    assert acts[1..][1..] == [acts[2]] && acts[1..][0] == acts[1] && acts[2..][1..] == [];
    RunThree(m, s, acts[0], acts[1], acts[2]);
    var home := OldHome(m, msg.chat);
    AtAfterInsert(s1, s2, NewHome(m, msg.chat), Entry(msg, now));
    UnknownIsNowhere(m, s, home, msg.mid);
    assert At(s1, home, msg.mid) <==> At(s, home, msg.mid);
    var back := s3.(cfg := Assigned(s3.cfg, Some(m.oldN), None, None));
    ReadableIsAt(back, msg);
    if home == NewHome(m, msg.chat) {
      assert Row(s1.shards[home].nextId, Entry(msg, now)) in s2.shards[home].rows by {
        assert !HasMid(s1.shards[home], msg.mid);
      }
    }
  }

  lemma {:induction false} RunThree(m: Migration, s: State, a: Action, b: Action, c: Action)
    requires CanStep(m, s, a) && CanStep(m, Step(m, s, a), b) && CanStep(m, Step(m, Step(m, s, a), b), c)
    ensures CanRun(m, s, [a, b, c]) && Run(m, s, [a, b, c]) == Step(m, Step(m, Step(m, s, a), b), c)
  {
    var s1 := Step(m, s, a);
    var s2 := Step(m, s1, b);
    var s3 := Step(m, s2, c);
    assert [a, b, c][1..] == [b, c] && [b, c][1..] == [c] && [c][1..] == [];
    assert CanRun(m, s3, []) && Run(m, s3, []) == s3;
    assert CanRun(m, s2, [c]) && Run(m, s2, [c]) == s3;
    assert CanRun(m, s1, [b, c]) && Run(m, s1, [b, c]) == s3;
  }

  // ---------------------------------------------------------------- after cleanup

  /** No send under way is still going to write anywhere but its new home. */
  ghost predicate NoOldSend(m: Migration, s: State) {
    forall k, i :: k in s.flights && k in s.sent && i in s.flights[k].todo ==> i == NewHome(m, s.sent[k].chat)
  }

  /** The second grace period: cleanup starts only once the dual-writing sends have finished. */
  ghost predicate CleanupDrained(m: Migration, s: State, acts: seq<Action>)
    requires CanRun(m, s, acts)
    decreases |acts|
  {
    acts == [] || (
      && (acts[0].StartCleanup? ==> NoOldSend(m, s))
      && CleanupDrained(m, Step(m, s, acts[0]), acts[1..]))
  }

  ghost predicate CleanProgress(m: Migration, s: State) {
    s.phase.Cleaning? || s.phase.Cleaned? ==>
      && NoOldSend(m, s)
      && (forall i, r :: 0 <= i < |s.shards| && r in s.shards[i].rows && CleanedShard(m, s.phase, i) ==>
            NewHome(m, r.entry.msg.chat) == i)
      && (s.phase.Cleaning? && s.phase.doomed.Some? && s.phase.shard < |s.shards| ==>
            forall r :: r in s.shards[s.phase.shard].rows && NewHome(m, r.entry.msg.chat) != s.phase.shard ==>
              r.id in s.phase.doomed.value)
  }

  predicate CleanedShard(m: Migration, phase: Phase, i: nat) {
    i < m.newN && (phase.Cleaned? || (phase.Cleaning? && i < phase.shard))
  }

  lemma SendKeepsClean(m: Migration, s: State, a: Action)
    requires a.StartSend? || a.Acknowledge? || a.FailSend?
    requires Sound(m, s) && CleanProgress(m, s) && CanStep(m, s, a)
    ensures CleanProgress(m, Step(m, s, a))
  {
    var s' := Step(m, s, a);
    if s.phase.Cleaning? || s.phase.Cleaned? {
      forall k, i | k in s'.flights && k in s'.sent && i in s'.flights[k].todo
        ensures i == NewHome(m, s'.sent[k].chat)
      {
        if a.StartSend? && k == a.msg.mid {
          assert s'.flights[k].todo == WriteHomes(s.cfg, a.msg.chat);
        } else {
          assert k in s.flights;
        }
      }
    }
  }

  lemma InsertKeepsClean(m: Migration, s: State, mid: nat, now: int)
    requires Sound(m, s) && CleanProgress(m, s) && CanStep(m, s, InsertNext(mid, now))
    ensures CleanProgress(m, Step(m, s, InsertNext(mid, now)))
  {
    var s' := Step(m, s, InsertNext(mid, now));
    var f := s.flights[mid];
    if s.phase.Cleaning? || s.phase.Cleaned? {
      assert f.todo[0] in f.todo;
      AtAfterInsert(s, s', f.todo[0], Entry(s.sent[mid], now));
      assert f.todo == [f.todo[0]] + f.todo[1..];
      forall k, i | k in s'.flights && k in s'.sent && i in s'.flights[k].todo
        ensures i == NewHome(m, s'.sent[k].chat)
      {
        assert i in s.flights[k].todo;
      }
    }
  }

  lemma DeleteKeepsClean(m: Migration, s: State)
    requires CleanProgress(m, s) && CanStep(m, s, DeleteDoomed)
    ensures CleanProgress(m, Step(m, s, DeleteDoomed))
  {
    DeleteIdsFacts(s.shards[s.phase.shard].rows, s.phase.doomed.value);
  }

  lemma CommandKeepsClean(m: Migration, s: State, a: Action)
    requires !a.StartSend? && !a.Acknowledge? && !a.FailSend? && !a.InsertNext? && !a.DeleteDoomed?
    requires CleanProgress(m, s) && CanStep(m, s, a)
    requires a.StartCleanup? ==> NoOldSend(m, s)
    ensures CleanProgress(m, Step(m, s, a))
  {
  }

  lemma {:induction false} CleanStep(m: Migration, s: State, a: Action)
    requires Sound(m, s) && CleanProgress(m, s) && CanStep(m, s, a)
    requires a.StartCleanup? ==> NoOldSend(m, s)
    ensures CleanProgress(m, Step(m, s, a))
  {
    if a.InsertNext? {
      InsertKeepsClean(m, s, a.mid, a.now);
    } else if a.StartSend? || a.Acknowledge? || a.FailSend? {
      SendKeepsClean(m, s, a);
    } else if a.DeleteDoomed? {
      DeleteKeepsClean(m, s);
    } else {
      CommandKeepsClean(m, s, a);
    }
  }

  lemma {:induction false} CleanRun(m: Migration, s: State, acts: seq<Action>)
    requires Sound(m, s) && CleanProgress(m, s) && CanRun(m, s, acts) && CleanupDrained(m, s, acts)
    ensures CleanProgress(m, Run(m, s, acts))
    decreases |acts|
  {
    if acts != [] {
      SoundStep(m, s, acts[0]);
      CleanStep(m, s, acts[0]);
      CleanRun(m, Step(m, s, acts[0]), acts[1..]);
    }
  }

  // ---------------------------------------------------------------- shards beyond the new ones

  /** Cleanup works on the new shards only. */
  ghost predicate DoomedInside(m: Migration, s: State) {
    s.phase.Cleaning? && s.phase.doomed.Some? ==> s.phase.shard < m.newN
  }

  lemma {:induction false} RestOnlyGrows(m: Migration, s: State, a: Action)
    requires Sound(m, s) && DoomedInside(m, s) && CanStep(m, s, a)
    ensures DoomedInside(m, Step(m, s, a)) && |Step(m, s, a).shards| == |s.shards|
    ensures forall i :: m.newN <= i < |s.shards| ==> s.shards[i].rows <= Step(m, s, a).shards[i].rows
  {
    if !a.DeleteDoomed? {
      StepKeepsRows(m, s, a);
    }
  }

  /** Nothing ever removes a row from a shard beyond the new ones. */
  lemma {:induction false} RestIsKept(m: Migration, s: State, acts: seq<Action>)
    requires Sound(m, s) && DoomedInside(m, s) && CanRun(m, s, acts)
    ensures |Run(m, s, acts).shards| == |s.shards|
    ensures forall i :: m.newN <= i < |s.shards| ==> s.shards[i].rows <= Run(m, s, acts).shards[i].rows
    ensures DoomedInside(m, Run(m, s, acts))
    decreases |acts|
  {
    if acts != [] {
      RestOnlyGrows(m, s, acts[0]);
      SoundStep(m, s, acts[0]);
      RestIsKept(m, Step(m, s, acts[0]), acts[1..]);
    }
  }

  lemma {:induction false} CleanupKeepsRest(m: Migration, s: State, a: Action)
    requires Sound(m, s) && CleanProgress(m, s) && DoomedInside(m, s) && CanStep(m, s, a)
    requires s.phase.Cleaning? || s.phase.Cleaned?
    ensures var s' := Step(m, s, a);
            && (s'.phase.Cleaning? || s'.phase.Cleaned?)
            && forall i :: m.newN <= i < |s.shards| ==> s'.shards[i].rows == s.shards[i].rows
  {
    if a.InsertNext? {
      assert s.flights[a.mid].todo[0] in s.flights[a.mid].todo;
    }
  }

  /** Once a drained cleanup has begun, nothing is added to them either. */
  lemma {:induction false} RestIsFixed(m: Migration, s: State, acts: seq<Action>)
    requires Sound(m, s) && CleanProgress(m, s) && DoomedInside(m, s)
    requires s.phase.Cleaning? || s.phase.Cleaned?
    requires CanRun(m, s, acts) && CleanupDrained(m, s, acts)
    ensures |Run(m, s, acts).shards| == |s.shards|
    ensures forall i :: m.newN <= i < |s.shards| ==> Run(m, s, acts).shards[i].rows == s.shards[i].rows
    decreases |acts|
  {
    if acts != [] {
      CleanupKeepsRest(m, s, acts[0]);
      RestOnlyGrows(m, s, acts[0]);
      SoundStep(m, s, acts[0]);
      CleanStep(m, s, acts[0]);
      RestIsFixed(m, Step(m, s, acts[0]), acts[1..]);
    }
  }

  // ---------------------------------------------------------------- main result

  /** The end of a fully drained migration. */
  ghost predicate Finished(m: Migration, s0: State, acts: seq<Action>)
    requires CanRun(m, s0, acts)
  {
    var s := Run(m, s0, acts);
    && Init(m, s0) && Drained(m, s0, acts) && CleanupDrained(m, s0, acts)
    && s.phase.Cleaned? && s.flights == map[]
  }

  /** Among the new shards each acknowledged message is on exactly one, its new home, and one whose
      send has raised is there or nowhere. */
  ghost predicate AllHome(m: Migration, s: State) {
    && (forall k :: k in s.acked && k in s.sent ==> At(s, NewHome(m, s.sent[k].chat), k))
    && (forall k, i :: k in s.sent && 0 <= i < m.newN && At(s, i, k) ==> i == NewHome(m, s.sent[k].chat))
  }

  lemma CleanIsHome(m: Migration, s: State)
    requires Inv(m, s) && CleanProgress(m, s) && s.phase.Cleaned? && s.flights == map[]
    ensures AllHome(m, s)
  {
    forall k | k in s.acked && k in s.sent
      ensures At(s, NewHome(m, s.sent[k].chat), k)
    {
      assert Ready(m, s, k);
    }
    forall k, i | k in s.sent && 0 <= i < m.newN && At(s, i, k)
      ensures i == NewHome(m, s.sent[k].chat)
    {
      var r := RowOfMid(s.shards[i].rows, k);
      assert OwnedRow(m, s.sent, i, r);
    }
  }

  lemma {:induction false} EachMessageIsHome(m: Migration, s0: State, acts: seq<Action>)
    requires CanRun(m, s0, acts) && Finished(m, s0, acts)
    ensures Sound(m, Run(m, s0, acts)) && AllHome(m, Run(m, s0, acts))
  {
    InitIsSound(m, s0);
    InvRun(m, s0, acts);
    CleanRun(m, s0, acts);
    CleanIsHome(m, Run(m, s0, acts));
  }

  lemma NewShardsShareNothing(m: Migration, s: State, i: nat, j: nat)
    requires Sound(m, s) && AllHome(m, s) && i < j < m.newN
    ensures Mids(s.shards[i].rows) !! Mids(s.shards[j].rows)
  {
    MessagesOfNewShards(m, s);
    forall k | k in Mids(s.shards[i].rows)
      ensures k !in Mids(s.shards[j].rows)
    {
      assert k in s.sent.Keys;
      assert At(s, i, k);
      assert !At(s, j, k);
    }
  }

  /** The messages that are on their new home. */
  ghost function Stored(m: Migration, s: State): set<nat> {
    set k | k in s.sent && At(s, NewHome(m, s.sent[k].chat), k)
  }

  /** All acknowledged messages are stored, and besides them only some whose send has raised. */
  lemma {:induction false} StoredAre(m: Migration, s: State)
    requires Sound(m, s) && AllHome(m, s) && s.flights == map[]
    ensures s.acked <= Stored(m, s) <= s.acked + s.failed
    ensures s.failed == {} ==> |Stored(m, s)| == |s.sent|
  {
    assert s.sent.Keys == s.acked + s.failed;
    if s.failed == {} {
      assert Stored(m, s) == s.sent.Keys;
    }
  }

  lemma NewShardsCount(m: Migration, s: State)
    requires Sound(m, s) && AllHome(m, s)
    ensures TotalRows(s.shards[..m.newN]) == |Stored(m, s)|
  {
    var low := s.shards[..m.newN];
    MessagesOfNewShards(m, s);
    forall i, j | 0 <= i < j < |low|
      ensures Mids(low[i].rows) !! Mids(low[j].rows)
    {
      NewShardsShareNothing(m, s, i, j);
    }
    DisjointTablesCount(low);
  }

  lemma GrowingLeavesNoRest(m: Migration, s: State, i: nat)
    requires Sound(m, s) && m.oldN <= m.newN <= i < m.pools
    ensures s.shards[i].rows == []
  {
    EmptyOrFirst(s.shards[i].rows);
    assert forall r :: r in s.shards[i].rows ==> OwnedRow(m, s.sent, i, r);
  }

  /** No row lies on a shard beyond the new ones. */
  ghost predicate NoRest(m: Migration, s: State) {
    forall i :: m.newN <= i < |s.shards| ==> s.shards[i].rows == []
  }

  lemma RestCounts(m: Migration, s: State)
    requires Sound(m, s) && AllHome(m, s)
    ensures TotalRows(s.shards[..m.newN]) == |Stored(m, s)|
    ensures TotalRows(s.shards) >= |Stored(m, s)|
    ensures TotalRows(s.shards) == |Stored(m, s)| <==> NoRest(m, s)
  {
    NewShardsCount(m, s);
    TotalRowsSplit(s.shards, m.newN);
    NoRows(s.shards[m.newN..]);
    RestIsTail(m, s);
  }

  lemma {:induction false} RestIsTail(m: Migration, s: State)
    requires m.newN <= |s.shards|
    ensures var rest := s.shards[m.newN..];
            NoRest(m, s) <==> forall i :: 0 <= i < |rest| ==> rest[i].rows == []
  {
    var rest := s.shards[m.newN..];
    assert forall i :: m.newN <= i < |s.shards| ==> s.shards[i] == rest[i - m.newN];
  }

  lemma {:induction false} AfterSwitchIsDrained(m: Migration, s: State, acts: seq<Action>)
    requires CanRun(m, s, acts) && !PreSwitch(s.phase)
    ensures Drained(m, s, acts)
    decreases |acts|
  {
    if acts != [] {
      AfterSwitchIsDrained(m, Step(m, s, acts[0]), acts[1..]);
    }
  }

  /** Take a drained migration up to a point where cleanup is about to start, and from there to its
      end. The new shards then hold exactly one row for each message on its new home, which are all
      acknowledged ones and none but those whose send has raised besides. The whole cluster holds no
      more exactly when, before that cleanup, no row lay on a shard beyond the new ones, as is always
      so when the cluster grows. */
  lemma {:induction false} RowsAreConserved(m: Migration, s0: State, acts: seq<Action>, cleanup: seq<Action>)
    requires Init(m, s0) && CanRun(m, s0, acts) && Drained(m, s0, acts) && CleanupDrained(m, s0, acts)
    requires cleanup != [] && cleanup[0].StartCleanup?
    requires CanRun(m, Run(m, s0, acts), cleanup) && CleanupDrained(m, Run(m, s0, acts), cleanup)
    requires var s := Run(m, Run(m, s0, acts), cleanup); s.phase.Cleaned? && s.flights == map[]
    ensures var s1 := Run(m, s0, acts);
            var s := Run(m, s1, cleanup);
            && |s.shards| == m.pools
            && TotalRows(s.shards[..m.newN]) == |Stored(m, s)|
            && s.acked <= Stored(m, s) <= s.acked + s.failed
            && (s.failed == {} ==> |Stored(m, s)| == |s.sent|)
            && (TotalRows(s.shards) == |Stored(m, s)| <==> NoRest(m, s1))
            && (m.oldN <= m.newN ==> NoRest(m, s1))
  {
    var s1 := Run(m, s0, acts);
    CleanupEnds(m, s0, acts, cleanup);
    var s := Run(m, s1, cleanup);
    RestCounts(m, s);
    StoredAre(m, s);
    if m.oldN <= m.newN {
      forall i | m.newN <= i < m.pools
        ensures s1.shards[i].rows == []
      {
        GrowingLeavesNoRest(m, s1, i);
      }
    }
  }

  lemma {:induction false} CleanupEnds(m: Migration, s0: State, acts: seq<Action>, cleanup: seq<Action>)
    requires Init(m, s0) && CanRun(m, s0, acts) && Drained(m, s0, acts) && CleanupDrained(m, s0, acts)
    requires cleanup != [] && cleanup[0].StartCleanup?
    requires CanRun(m, Run(m, s0, acts), cleanup) && CleanupDrained(m, Run(m, s0, acts), cleanup)
    requires var s := Run(m, Run(m, s0, acts), cleanup); s.phase.Cleaned? && s.flights == map[]
    ensures var s1 := Run(m, s0, acts);
            var s := Run(m, s1, cleanup);
            && Sound(m, s1) && Sound(m, s) && AllHome(m, s)
            && (NoRest(m, s) <==> NoRest(m, s1))
  {
    var s1 := Run(m, s0, acts);
    InitIsSound(m, s0);
    InvRun(m, s0, acts);
    CleanRun(m, s0, acts);
    RestIsKept(m, s0, acts);
    AfterSwitchIsDrained(m, s1, cleanup);
    InvRun(m, s1, cleanup);
    CleanRun(m, s1, cleanup);
    CleanIsHome(m, Run(m, s1, cleanup));
    SoundStep(m, s1, StartCleanup);
    CleanStep(m, s1, StartCleanup);
    RestIsFixed(m, Step(m, s1, StartCleanup), cleanup[1..]);
  }

  /** So a migration to fewer shards keeps for ever what lay beyond them: with a row there at the
      start, the cluster ends with more rows than messages. */
  lemma {:induction false} ShrinkingLeavesRows(m: Migration, s0: State, acts: seq<Action>, i: nat)
    requires CanRun(m, s0, acts) && Finished(m, s0, acts)
    requires m.newN <= i < m.pools && s0.shards[i].rows != []
    ensures var s := Run(m, s0, acts);
            && i < |s.shards| && s0.shards[i].rows <= s.shards[i].rows
            && TotalRows(s.shards) > |Stored(m, s)|
  {
    InitIsSound(m, s0);
    RestIsKept(m, s0, acts);
    EachMessageIsHome(m, s0, acts);
    RestCounts(m, Run(m, s0, acts));
  }

  lemma EmptyOrFirst(rows: seq<Row>)
    ensures rows == [] || rows[0] in rows
  {
  }

  lemma MessagesOfNewShards(m: Migration, s: State)
    requires Sound(m, s) && AllHome(m, s)
    ensures AllMids(s.shards[..m.newN]) == Stored(m, s)
    ensures forall i, k :: 0 <= i < m.newN && k in Mids(s.shards[i].rows) ==> k in s.sent.Keys
  {
    var low := s.shards[..m.newN];
    forall i, k | 0 <= i < m.newN && k in Mids(s.shards[i].rows)
      ensures k in s.sent.Keys
    {
      var r := RowOfMid(s.shards[i].rows, k);
      assert OwnedRow(m, s.sent, i, r);
    }
    forall k | k in AllMids(low)
      ensures k in Stored(m, s)
    {
      var i := AllMidsFrom(low, k);
      assert k in Mids(s.shards[i].rows);
      assert At(s, i, k);
    }
    forall k | k in Stored(m, s)
      ensures k in AllMids(low)
    {
      var home := NewHome(m, s.sent[k].chat);
      var r := RowOfMid(s.shards[home].rows, k);
      assert r in low[home].rows;
    }
  }
}
