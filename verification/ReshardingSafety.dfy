/** Safety of the migration: what every step keeps, and that no acknowledged message is ever
    missing from reads. */
module ReshardingSafety {
  import opened Sharding
  import opened MessageTable
  import opened ClusterConfig
  import opened ReshardingProtocol

  // ---------------------------------------------------------------- invariants

  ghost predicate Shaped(m: Migration, s: State) {
    && |s.shards| == m.pools
    && (forall i :: 0 <= i < |s.shards| ==> Valid(s.shards[i]))
    && s.cfg == FlagsIn(m, s.phase)
    && (s.phase.Copying? ==> s.phase.src < m.oldN)
  }

  function FlagsIn(m: Migration, phase: Phase): Config {
    match phase
    case Before => Config(m.oldN, m.oldN, false)
    case Enabled => Config(m.oldN, m.newN, true)
    case Copying(_, _, _) => Config(m.oldN, m.newN, true)
    case Copied => Config(m.oldN, m.newN, true)
    case Switched => Config(m.newN, m.newN, true)
    case _ => Config(m.newN, m.newN, false)
  }

  /** Every row belongs to a send the system knows, unaltered, and lies on its chat's old or new home. */
  ghost predicate Owned(m: Migration, s: State) {
    forall i, r :: 0 <= i < |s.shards| && r in s.shards[i].rows ==> OwnedRow(m, s.sent, i, r)
  }

  ghost predicate OwnedRow(m: Migration, sent: map<nat, Msg>, i: nat, r: Row) {
    var msg := r.entry.msg;
    msg.mid in sent && sent[msg.mid] == msg && (i == OldHome(m, msg.chat) || i == NewHome(m, msg.chat))
  }

  /** Each send is in exactly one of: under way, acknowledged, failed. */
  ghost predicate Booked(s: State) {
    && s.sent.Keys == s.flights.Keys + s.acked + s.failed
    && s.flights.Keys !! s.acked && s.flights.Keys !! s.failed && s.acked !! s.failed
    && forall k :: k in s.sent ==> s.sent[k].mid == k
  }

  predicate At(s: State, i: nat, k: nat) {
    i < |s.shards| && k in Mids(s.shards[i].rows)
  }

  /** A send under way goes to its chat's homes only, before the switch always to the old one, and
      what it wrote is there. */
  ghost predicate Planned(m: Migration, s: State) {
    forall k :: k in s.flights && k in s.sent ==> PlannedSend(m, s, k, s.flights[k])
  }

  ghost predicate PlannedSend(m: Migration, s: State, k: nat, f: Flight)
    requires k in s.sent
  {
    var oldHome, newHome := OldHome(m, s.sent[k].chat), NewHome(m, s.sent[k].chat);
    && (forall i :: i in f.todo ==> i == oldHome || i == newHome)
    && (PreSwitch(s.phase) ==> Covers(f, oldHome))
    && (PreSwitch(s.phase) && oldHome in f.wrote ==> At(s, oldHome, k))
    && (newHome in f.wrote ==> At(s, newHome, k))
  }

  /** Before the switch every acknowledged message is on its old home. */
  ghost predicate OnOldHome(m: Migration, s: State) {
    PreSwitch(s.phase) ==> forall k :: k in s.acked && k in s.sent ==> At(s, OldHome(m, s.sent[k].chat), k)
  }

  /** The rows a cleanup is about to delete are not at home, and later rows have larger ids. */
  ghost predicate DoomedAway(m: Migration, s: State) {
    s.phase.Cleaning? && s.phase.doomed.Some? && s.phase.shard < |s.shards| ==>
      && (forall r :: r in s.shards[s.phase.shard].rows && r.id in s.phase.doomed.value ==>
            NewHome(m, r.entry.msg.chat) != s.phase.shard)
      && (forall id :: id in s.phase.doomed.value ==> id < s.shards[s.phase.shard].nextId)
  }

  /** Backfill's page holds rows that are still on its source shard. */
  ghost predicate PageOnSource(s: State) {
    s.phase.Copying? ==>
      && s.phase.src < |s.shards|
      && s.phase.lastId < s.shards[s.phase.src].nextId
      && forall r :: r in s.phase.page ==> r in s.shards[s.phase.src].rows
  }

  /** Kept by every step of every run, drained or not. */
  ghost predicate Sound(m: Migration, s: State) {
    && Shaped(m, s) && Owned(m, s) && Booked(s) && Planned(m, s) && OnOldHome(m, s)
    && DoomedAway(m, s) && PageOnSource(s)
  }

  /** The message is on its new home, or its own send is still going to write it there. */
  ghost predicate Ready(m: Migration, s: State, k: nat)
    requires k in s.sent
  {
    var newHome := NewHome(m, s.sent[k].chat);
    At(s, newHome, k) || (k in s.flights && newHome in s.flights[k].todo)
  }

  /** What `verify` is for: switching reads now loses nothing. */
  ghost predicate SwitchReady(m: Migration, s: State) {
    forall k :: k in s.acked + s.flights.Keys && k in s.sent ==> Ready(m, s, k)
  }

  /** Rows backfill has dealt with: earlier shards, and the current one up to the cursor. */
  predicate Passed(phase: Phase, i: nat, r: Row)
    requires phase.Copying?
  {
    i < phase.src || (i == phase.src && r.id <= phase.lastId && r !in phase.page)
  }

  ghost predicate Settled(m: Migration, s: State, k: nat) {
    k in s.failed || (k in s.sent && Ready(m, s, k))
  }

  /** Backfill's loop invariant under live traffic. */
  ghost predicate CopyProgress(m: Migration, s: State) {
    s.phase.Copying? ==>
      && NoStaleSend(m, s)
      && (forall i, r :: 0 <= i < |s.shards| && i < m.oldN && r in s.shards[i].rows && Passed(s.phase, i, r) ==>
            Settled(m, s, r.entry.msg.mid))
  }

  predicate AfterCopy(phase: Phase) {
    !phase.Before? && !phase.Enabled? && !phase.Copying?
  }

  /** Kept by every drained run. */
  ghost predicate Inv(m: Migration, s: State) {
    && Sound(m, s)
    && CopyProgress(m, s)
    && (AfterCopy(s.phase) ==> SwitchReady(m, s))
  }

  // ---------------------------------------------------------------- facts about inserts

  lemma AtAfterInsert(s: State, s': State, i: nat, e: Entry)
    requires i < |s.shards| && Valid(s.shards[i])
    requires s'.shards == InsertAt(s.shards, i, e)
    ensures Valid(s'.shards[i])
    ensures forall j, k :: At(s', j, k) <==> At(s, j, k) || (j == i && k == e.msg.mid)
    ensures forall j, r :: 0 <= j < |s.shards| && r in s'.shards[j].rows ==>
              r in s.shards[j].rows || (j == i && r == Row(s.shards[i].nextId, e))
    ensures forall j, r :: 0 <= j < |s.shards| && r in s.shards[j].rows ==> r in s'.shards[j].rows
  {
    InsertFacts(s.shards[i], e);
  }

  // ---------------------------------------------------------------- Sound is kept by every step

  lemma InitIsSound(m: Migration, s: State)
    requires Init(m, s)
    ensures Inv(m, s)
  {
  }

  lemma StartSendKeepsBooked(m: Migration, s: State, msg: Msg)
    requires Booked(s) && CanStep(m, s, StartSend(msg))
    ensures Booked(Step(m, s, StartSend(msg)))
  {
    var s' := Step(m, s, StartSend(msg));
    assert s'.sent.Keys == s.sent.Keys + {msg.mid};
    assert s'.flights.Keys == s.flights.Keys + {msg.mid};
  }

  lemma StartSendKeepsOwned(m: Migration, s: State, msg: Msg)
    requires Owned(m, s) && CanStep(m, s, StartSend(msg))
    ensures Owned(m, Step(m, s, StartSend(msg)))
  {
    var s' := Step(m, s, StartSend(msg));
    forall i, r | 0 <= i < |s'.shards| && r in s'.shards[i].rows
      ensures OwnedRow(m, s'.sent, i, r)
    {
      assert OwnedRow(m, s.sent, i, r);
    }
  }

  lemma StartSendKeepsPlanned(m: Migration, s: State, msg: Msg)
    requires Shaped(m, s) && Planned(m, s) && CanStep(m, s, StartSend(msg))
    ensures Planned(m, Step(m, s, StartSend(msg)))
  {
    var s' := Step(m, s, StartSend(msg));
    forall k | k in s'.flights && k in s'.sent
      ensures PlannedSend(m, s', k, s'.flights[k])
    {
      assert k != msg.mid && k in s.sent ==> PlannedSend(m, s, k, s.flights[k]);
    }
  }

  lemma StartSendKeepsSound(m: Migration, s: State, msg: Msg)
    requires Sound(m, s) && CanStep(m, s, StartSend(msg))
    ensures Sound(m, Step(m, s, StartSend(msg)))
  {
    StartSendKeepsBooked(m, s, msg);
    StartSendKeepsOwned(m, s, msg);
    StartSendKeepsPlanned(m, s, msg);
  }

  lemma InsertNextKeepsSound(m: Migration, s: State, mid: nat, now: int)
    requires Sound(m, s) && CanStep(m, s, InsertNext(mid, now))
    ensures Sound(m, Step(m, s, InsertNext(mid, now)))
  {
    var s' := Step(m, s, InsertNext(mid, now));
    var i := s.flights[mid].todo[0];
    var e := Entry(s.sent[mid], now);
    AtAfterInsert(s, s', i, e);
    assert i in s.flights[mid].todo;
    InsertNextKeepsPlanned(m, s, mid, now);
    InsertNextKeepsOwned(m, s, mid, now);
    assert s'.flights.Keys == s.flights.Keys;
  }

  lemma InsertNextKeepsOwned(m: Migration, s: State, mid: nat, now: int)
    requires Shaped(m, s) && Owned(m, s) && Planned(m, s) && Booked(s) && CanStep(m, s, InsertNext(mid, now))
    ensures Owned(m, Step(m, s, InsertNext(mid, now)))
  {
    var s' := Step(m, s, InsertNext(mid, now));
    var i0 := s.flights[mid].todo[0];
    assert PlannedSend(m, s, mid, s.flights[mid]);
    assert i0 in s.flights[mid].todo;
    AtAfterInsert(s, s', i0, Entry(s.sent[mid], now));
    forall i, r | 0 <= i < |s'.shards| && r in s'.shards[i].rows
      ensures OwnedRow(m, s'.sent, i, r)
    {
      assert r in s.shards[i].rows ==> OwnedRow(m, s.sent, i, r);
    }
  }

  lemma InsertNextKeepsPlanned(m: Migration, s: State, mid: nat, now: int)
    requires Sound(m, s) && CanStep(m, s, InsertNext(mid, now))
    ensures Planned(m, Step(m, s, InsertNext(mid, now)))
  {
    var s' := Step(m, s, InsertNext(mid, now));
    var f := s.flights[mid];
    AtAfterInsert(s, s', f.todo[0], Entry(s.sent[mid], now));
    forall k | k in s'.flights && k in s'.sent
      ensures PlannedSend(m, s', k, s'.flights[k])
    {
      assert PlannedSend(m, s, k, s.flights[k]);
      if k == mid {
        AdvancedSend(m, s, s', mid, f);
      }
    }
  }

  lemma AdvancedSend(m: Migration, s: State, s': State, k: nat, f: Flight)
    requires k in s.sent && s'.sent == s.sent && s'.phase == s.phase
    requires PlannedSend(m, s, k, f) && f.todo != []
    requires forall j :: At(s', j, k) <==> At(s, j, k) || j == f.todo[0]
    ensures PlannedSend(m, s', k, Flight(f.wrote + {f.todo[0]}, f.todo[1..]))
  {
    assert f.todo == [f.todo[0]] + f.todo[1..];
    var g := Flight(f.wrote + {f.todo[0]}, f.todo[1..]);
    assert forall h :: Covers(g, h) <==> Covers(f, h);
    assert forall i :: i in g.todo ==> i in f.todo;
  }

  lemma FinishSendKeepsBooked(m: Migration, s: State, a: Action)
    requires a.Acknowledge? || a.FailSend?
    requires Booked(s) && CanStep(m, s, a)
    ensures Booked(Step(m, s, a))
  {
    assert a.mid in s.sent.Keys;
    assert Step(m, s, a).flights.Keys == s.flights.Keys - {a.mid};
  }

  lemma FinishSendKeepsSound(m: Migration, s: State, a: Action)
    requires a.Acknowledge? || a.FailSend?
    requires Sound(m, s) && CanStep(m, s, a)
    ensures Sound(m, Step(m, s, a))
  {
    var s' := Step(m, s, a);
    FinishSendKeepsBooked(m, s, a);
    forall k | k in s'.flights && k in s'.sent
      ensures PlannedSend(m, s', k, s'.flights[k])
    {
      assert PlannedSend(m, s, k, s.flights[k]);
    }
    if a.Acknowledge? && PreSwitch(s.phase) {
      assert PlannedSend(m, s, a.mid, s.flights[a.mid]);
    }
  }

  lemma CopyRowKeepsOwned(m: Migration, s: State)
    requires Shaped(m, s) && Owned(m, s) && PageOnSource(s) && CanStep(m, s, CopyRow)
    ensures Owned(m, Step(m, s, CopyRow))
  {
    var s' := Step(m, s, CopyRow);
    var r := s.phase.page[0];
    var dst := NewHome(m, r.entry.msg.chat);
    assert OwnedRow(m, s.sent, s.phase.src, r);
    if dst != s.phase.src {
      AtAfterInsert(s, s', dst, r.entry);
      forall i, q | 0 <= i < |s'.shards| && q in s'.shards[i].rows
        ensures OwnedRow(m, s'.sent, i, q)
      {
        assert q in s.shards[i].rows ==> OwnedRow(m, s.sent, i, q);
      }
    }
  }

  lemma CopyRowKeepsPlanned(m: Migration, s: State)
    requires Shaped(m, s) && Planned(m, s) && OnOldHome(m, s) && CanStep(m, s, CopyRow)
    ensures Planned(m, Step(m, s, CopyRow)) && OnOldHome(m, Step(m, s, CopyRow))
  {
    var s' := Step(m, s, CopyRow);
    var r := s.phase.page[0];
    var dst := NewHome(m, r.entry.msg.chat);
    if dst != s.phase.src {
      AtAfterInsert(s, s', dst, r.entry);
    }
    assert forall j, k :: At(s, j, k) ==> At(s', j, k);
    forall k | k in s'.flights && k in s'.sent
      ensures PlannedSend(m, s', k, s'.flights[k])
    {
      assert PlannedSend(m, s, k, s.flights[k]);
    }
  }

  lemma CopyRowKeepsSound(m: Migration, s: State)
    requires Sound(m, s) && CanStep(m, s, CopyRow)
    ensures Sound(m, Step(m, s, CopyRow))
  {
    var s' := Step(m, s, CopyRow);
    var r := s.phase.page[0];
    var dst := NewHome(m, r.entry.msg.chat);
    CopyRowKeepsOwned(m, s);
    CopyRowKeepsPlanned(m, s);
    if dst != s.phase.src {
      AtAfterInsert(s, s', dst, r.entry);
    }
    assert s.phase.page == [r] + s'.phase.page;
  }

  /** Neither a table nor a send has changed, and the switch has not been undone. */
  lemma SameSendsPlanned(m: Migration, s: State, s': State)
    requires Planned(m, s) && s'.shards == s.shards && s'.flights == s.flights && s'.sent == s.sent
    requires PreSwitch(s'.phase) ==> PreSwitch(s.phase)
    ensures Planned(m, s')
  {
    forall k | k in s'.flights && k in s'.sent
      ensures PlannedSend(m, s', k, s'.flights[k])
    {
      assert PlannedSend(m, s, k, s.flights[k]);
    }
  }

  lemma CommandKeepsSound(m: Migration, s: State, a: Action)
    requires a.EnableDualWrite? || a.StartBackfill? || a.StopBackfill? || a.Rollback?
          || a.SwitchRead? || a.DisableDualWrite? || a.StartCleanup? || a.FinishCleanup?
    requires Sound(m, s) && CanStep(m, s, a)
    ensures Sound(m, Step(m, s, a))
  {
    var s' := Step(m, s, a);
    assert s'.shards == s.shards && s'.flights == s.flights && s'.sent == s.sent;
    assert PreSwitch(s'.phase) ==> PreSwitch(s.phase);
    SameSendsPlanned(m, s, s');
  }

  lemma ReadPageKeepsSound(m: Migration, s: State)
    requires Sound(m, s) && CanStep(m, s, ReadPage)
    ensures Sound(m, Step(m, s, ReadPage))
  {
    var s' := Step(m, s, ReadPage);
    var rows := s.shards[s.phase.src].rows;
    PageIsComplete(rows, s.phase.lastId, BATCH);
    var page := Page(rows, s.phase.lastId, BATCH);
    if page != [] {
      assert page[|page| - 1] in rows;
    }
    SameSendsPlanned(m, s, s');
  }

  lemma FetchDoomedKeepsSound(m: Migration, s: State)
    requires Sound(m, s) && CanStep(m, s, FetchDoomed)
    ensures Sound(m, Step(m, s, FetchDoomed))
  {
    var s' := Step(m, s, FetchDoomed);
    var i := s.phase.shard;
    forall r, q | r in s.shards[i].rows && q in s.shards[i].rows && r.id == q.id
      ensures r == q
    {
    }
    SameSendsPlanned(m, s, s');
  }

  lemma DeleteDoomedKeepsSound(m: Migration, s: State)
    requires Sound(m, s) && CanStep(m, s, DeleteDoomed)
    ensures Sound(m, Step(m, s, DeleteDoomed))
  {
    var s' := Step(m, s, DeleteDoomed);
    var i := s.phase.shard;
    DeleteIdsFacts(s.shards[i].rows, s.phase.doomed.value);
    DeleteKeepsValid(s.shards[i], s.phase.doomed.value);
    forall k | k in s.sent && At(s, NewHome(m, s.sent[k].chat), k)
      ensures At(s', NewHome(m, s.sent[k].chat), k)
    {
      DeletionSparesHome(m, s, k);
    }
  }

  /** Cleanup never deletes a message from its new home. */
  lemma DeletionSparesHome(m: Migration, s: State, k: nat)
    requires Sound(m, s) && CanStep(m, s, DeleteDoomed)
    requires k in s.sent && At(s, NewHome(m, s.sent[k].chat), k)
    ensures At(Step(m, s, DeleteDoomed), NewHome(m, s.sent[k].chat), k)
  {
    var s' := Step(m, s, DeleteDoomed);
    var home := NewHome(m, s.sent[k].chat);
    var r := RowOfMid(s.shards[home].rows, k);
    assert OwnedRow(m, s.sent, home, r);
    DeleteIdsFacts(s.shards[s.phase.shard].rows, s.phase.doomed.value);
    assert r in s'.shards[home].rows;
  }

  lemma SoundStep(m: Migration, s: State, a: Action)
    requires Sound(m, s) && CanStep(m, s, a)
    ensures Sound(m, Step(m, s, a))
  {
    match a
    case StartSend(msg) => StartSendKeepsSound(m, s, msg);
    case InsertNext(mid, now) => InsertNextKeepsSound(m, s, mid, now);
    case Acknowledge(_) => FinishSendKeepsSound(m, s, a);
    case FailSend(_) => FinishSendKeepsSound(m, s, a);
    case ReadPage => ReadPageKeepsSound(m, s);
    case CopyRow => CopyRowKeepsSound(m, s);
    case FetchDoomed => FetchDoomedKeepsSound(m, s);
    case DeleteDoomed => DeleteDoomedKeepsSound(m, s);
    case _ => CommandKeepsSound(m, s, a);
  }

  // ---------------------------------------------------------------- drained runs keep Inv

  /** A send that covers its new home is ready as soon as it is planned soundly. */
  lemma CoveringIsReady(m: Migration, s: State, k: nat)
    requires Planned(m, s) && k in s.flights && k in s.sent
    requires Covers(s.flights[k], NewHome(m, s.sent[k].chat))
    ensures Ready(m, s, k)
  {
    assert PlannedSend(m, s, k, s.flights[k]);
  }

  lemma {:induction false} StartSendKeepsReady(m: Migration, s: State, msg: Msg)
    requires Booked(s) && CanStep(m, s, StartSend(msg))
    ensures var s' := Step(m, s, StartSend(msg));
            && (forall k :: k in s.sent && Ready(m, s, k) ==> Ready(m, s', k))
            && (forall k :: Settled(m, s, k) ==> Settled(m, s', k))
  {
    var s' := Step(m, s, StartSend(msg));
    assert msg.mid !in s.flights;
    assert forall j, k :: At(s', j, k) <==> At(s, j, k);
  }

  lemma {:induction false} StartSendKeepsProgress(m: Migration, s: State, msg: Msg)
    requires Shaped(m, s) && Booked(s) && CopyProgress(m, s) && CanStep(m, s, StartSend(msg))
    ensures CopyProgress(m, Step(m, s, StartSend(msg)))
  {
    var s' := Step(m, s, StartSend(msg));
    StartSendKeepsReady(m, s, msg);
    if s.phase.Copying? {
      forall k | k in s'.flights && k in s'.sent
        ensures Covers(s'.flights[k], NewHome(m, s'.sent[k].chat))
      {
        assert k != msg.mid ==> Covers(s.flights[k], NewHome(m, s.sent[k].chat));
      }
      forall i, r | 0 <= i < |s'.shards| && i < m.oldN && r in s'.shards[i].rows && Passed(s'.phase, i, r)
        ensures Settled(m, s', r.entry.msg.mid)
      {
        assert Settled(m, s, r.entry.msg.mid);
      }
    }
  }

  lemma {:induction false} StartSendKeepsSwitchReady(m: Migration, s: State, msg: Msg)
    requires Shaped(m, s) && Booked(s) && AfterCopy(s.phase) && SwitchReady(m, s) && CanStep(m, s, StartSend(msg))
    ensures SwitchReady(m, Step(m, s, StartSend(msg)))
  {
    var s' := Step(m, s, StartSend(msg));
    StartSendKeepsReady(m, s, msg);
    forall k | k in s'.acked + s'.flights.Keys && k in s'.sent
      ensures Ready(m, s', k)
    {
      if k == msg.mid {
        assert NewHome(m, msg.chat) in s'.flights[k].todo;
      } else {
        assert Ready(m, s, k);
      }
    }
  }

  lemma {:induction false} StartSendKeepsInv(m: Migration, s: State, msg: Msg)
    requires Inv(m, s) && CanStep(m, s, StartSend(msg))
    ensures Inv(m, Step(m, s, StartSend(msg)))
  {
    SoundStep(m, s, StartSend(msg));
    StartSendKeepsProgress(m, s, msg);
    if AfterCopy(s.phase) {
      StartSendKeepsSwitchReady(m, s, msg);
    }
  }

  lemma InsertNextKeepsReady(m: Migration, s: State, mid: nat, now: int)
    requires Sound(m, s) && CanStep(m, s, InsertNext(mid, now))
    ensures var s' := Step(m, s, InsertNext(mid, now));
            forall k :: k in s.sent && Ready(m, s, k) ==> Ready(m, s', k)
  {
    var s' := Step(m, s, InsertNext(mid, now));
    var f := s.flights[mid];
    AtAfterInsert(s, s', f.todo[0], Entry(s.sent[mid], now));
    assert f.todo == [f.todo[0]] + f.todo[1..];
  }

  lemma InsertNextKeepsCovering(m: Migration, s: State, mid: nat, now: int)
    requires CanStep(m, s, InsertNext(mid, now)) && NoStaleSend(m, s)
    ensures NoStaleSend(m, Step(m, s, InsertNext(mid, now)))
  {
    var s' := Step(m, s, InsertNext(mid, now));
    var f := s.flights[mid];
    assert f.todo == [f.todo[0]] + f.todo[1..];
    forall k | k in s'.flights && k in s'.sent
      ensures Covers(s'.flights[k], NewHome(m, s'.sent[k].chat))
    {
      assert Covers(s.flights[k], NewHome(m, s.sent[k].chat));
    }
  }

  lemma InsertNextKeepsProgress(m: Migration, s: State, mid: nat, now: int)
    requires Inv(m, s) && CanStep(m, s, InsertNext(mid, now))
    ensures CopyProgress(m, Step(m, s, InsertNext(mid, now)))
  {
    var s' := Step(m, s, InsertNext(mid, now));
    if s.phase.Copying? {
      SoundStep(m, s, InsertNext(mid, now));
      InsertNextKeepsCovering(m, s, mid, now);
      InsertNextKeepsReady(m, s, mid, now);
      CoveringIsReady(m, s', mid);
      var i0 := s.flights[mid].todo[0];
      AtAfterInsert(s, s', i0, Entry(s.sent[mid], now));
      forall i, r | 0 <= i < |s'.shards| && i < m.oldN && r in s'.shards[i].rows && Passed(s'.phase, i, r)
        ensures Settled(m, s', r.entry.msg.mid)
      {
        if r in s.shards[i].rows {
          assert Settled(m, s, r.entry.msg.mid);
        } else {
          assert s.sent[mid].mid == mid;
        }
      }
    }
  }

  lemma InsertNextKeepsInv(m: Migration, s: State, mid: nat, now: int)
    requires Inv(m, s) && CanStep(m, s, InsertNext(mid, now))
    ensures Inv(m, Step(m, s, InsertNext(mid, now)))
  {
    SoundStep(m, s, InsertNext(mid, now));
    InsertNextKeepsReady(m, s, mid, now);
    InsertNextKeepsProgress(m, s, mid, now);
  }

  lemma FinishSendKeepsReady(m: Migration, s: State, a: Action)
    requires a.Acknowledge? || a.FailSend?
    requires CanStep(m, s, a)
    ensures var s' := Step(m, s, a);
            && (forall k :: k in s.sent && Ready(m, s, k) && (a.Acknowledge? || k != a.mid) ==> Ready(m, s', k))
            && (forall k :: Settled(m, s, k) ==> Settled(m, s', k))
  {
    var s' := Step(m, s, a);
    assert forall j, k :: At(s', j, k) <==> At(s, j, k);
  }

  lemma FinishSendKeepsProgress(m: Migration, s: State, a: Action)
    requires a.Acknowledge? || a.FailSend?
    requires CopyProgress(m, s) && CanStep(m, s, a)
    ensures CopyProgress(m, Step(m, s, a))
  {
    var s' := Step(m, s, a);
    FinishSendKeepsReady(m, s, a);
    if s.phase.Copying? {
      assert forall k :: k in s'.flights ==> k in s.flights && s'.flights[k] == s.flights[k];
      forall i, r | 0 <= i < |s'.shards| && i < m.oldN && r in s'.shards[i].rows && Passed(s'.phase, i, r)
        ensures Settled(m, s', r.entry.msg.mid)
      {
        assert Settled(m, s, r.entry.msg.mid);
      }
    }
  }

  lemma FinishSendKeepsInv(m: Migration, s: State, a: Action)
    requires a.Acknowledge? || a.FailSend?
    requires Inv(m, s) && CanStep(m, s, a)
    ensures Inv(m, Step(m, s, a))
  {
    SoundStep(m, s, a);
    FinishSendKeepsReady(m, s, a);
    FinishSendKeepsProgress(m, s, a);
  }

  lemma CopyRowKeepsSettled(m: Migration, s: State)
    requires Shaped(m, s) && PageOnSource(s) && Owned(m, s) && CanStep(m, s, CopyRow)
    ensures var s' := Step(m, s, CopyRow);
            && (forall k :: Settled(m, s, k) ==> Settled(m, s', k))
            && Settled(m, s', s.phase.page[0].entry.msg.mid)
  {
    var s' := Step(m, s, CopyRow);
    var src, r := s.phase.src, s.phase.page[0];
    var dst := NewHome(m, r.entry.msg.chat);
    assert OwnedRow(m, s.sent, src, r);
    if dst != src {
      AtAfterInsert(s, s', dst, r.entry);
    } else {
      MidOfRow(s.shards[src].rows, r);
    }
    assert At(s', dst, r.entry.msg.mid);
    assert forall j, k :: At(s, j, k) ==> At(s', j, k);
  }

  lemma CopyRowKeepsProgress(m: Migration, s: State)
    requires Shaped(m, s) && PageOnSource(s) && Owned(m, s) && CopyProgress(m, s) && CanStep(m, s, CopyRow)
    ensures CopyProgress(m, Step(m, s, CopyRow))
  {
    var s' := Step(m, s, CopyRow);
    CopyRowKeepsSettled(m, s);
    var src, r := s.phase.src, s.phase.page[0];
    var dst := NewHome(m, r.entry.msg.chat);
    if dst != src {
      AtAfterInsert(s, s', dst, r.entry);
    }
    assert s.phase.page == [r] + s'.phase.page;
    forall i, q | 0 <= i < |s'.shards| && i < m.oldN && q in s'.shards[i].rows && Passed(s'.phase, i, q)
      ensures Settled(m, s', q.entry.msg.mid)
    {
      if q in s.shards[i].rows && q != r {
        assert Passed(s.phase, i, q);
        assert Settled(m, s, q.entry.msg.mid);
      }
    }
  }

  lemma CopyRowKeepsInv(m: Migration, s: State)
    requires Inv(m, s) && CanStep(m, s, CopyRow)
    ensures Inv(m, Step(m, s, CopyRow))
  {
    SoundStep(m, s, CopyRow);
    CopyRowKeepsProgress(m, s);
  }

  lemma ReadPageKeepsInv(m: Migration, s: State)
    requires Inv(m, s) && CanStep(m, s, ReadPage)
    ensures Inv(m, Step(m, s, ReadPage))
  {
    var s' := Step(m, s, ReadPage);
    SoundStep(m, s, ReadPage);
    var src := s.phase.src;
    var rows := s.shards[src].rows;
    PageIsComplete(rows, s.phase.lastId, BATCH);
    assert forall k :: k in s.sent ==> (Ready(m, s, k) <==> Ready(m, s', k));
    if s'.phase.Copying? {
      forall i, r | 0 <= i < |s'.shards| && i < m.oldN && r in s'.shards[i].rows && Passed(s'.phase, i, r)
        ensures Settled(m, s', r.entry.msg.mid)
      {
        assert Passed(s.phase, i, r);
        assert Settled(m, s, r.entry.msg.mid);
      }
    } else {
      CopyEndsReady(m, s);
    }
  }

  /** When the last source shard is exhausted, everything is ready. */
  lemma CopyEndsReady(m: Migration, s: State)
    requires Inv(m, s) && s.phase.Copying? && s.phase.page == [] && s.phase.src + 1 >= m.oldN
    requires forall r :: r in s.shards[s.phase.src].rows ==> r.id <= s.phase.lastId
    ensures SwitchReady(m, s)
  {
    forall k | k in s.acked + s.flights.Keys && k in s.sent
      ensures Ready(m, s, k)
    {
      if k in s.flights {
        CoveringIsReady(m, s, k);
      } else {
        var home := OldHome(m, s.sent[k].chat);
        assert At(s, home, k);
        var r := RowOfMid(s.shards[home].rows, k);
        assert Passed(s.phase, home, r);
        assert Settled(m, s, k);
      }
    }
  }

  lemma DeleteDoomedKeepsInv(m: Migration, s: State)
    requires Inv(m, s) && CanStep(m, s, DeleteDoomed)
    ensures Inv(m, Step(m, s, DeleteDoomed))
  {
    var s' := Step(m, s, DeleteDoomed);
    SoundStep(m, s, DeleteDoomed);
    forall k | k in s.acked + s.flights.Keys && k in s.sent
      ensures Ready(m, s', k)
    {
      assert Ready(m, s, k);
      if At(s, NewHome(m, s.sent[k].chat), k) {
        DeletionSparesHome(m, s, k);
      }
    }
  }

  lemma CommandKeepsInv(m: Migration, s: State, a: Action)
    requires a.EnableDualWrite? || a.StartBackfill? || a.StopBackfill? || a.Rollback?
          || a.SwitchRead? || a.DisableDualWrite? || a.StartCleanup? || a.FetchDoomed? || a.FinishCleanup?
    requires Inv(m, s) && CanStep(m, s, a)
    requires a.StartBackfill? ==> NoStaleSend(m, s)
    ensures Inv(m, Step(m, s, a))
  {
    var s' := Step(m, s, a);
    SoundStep(m, s, a);
    if AfterCopy(s'.phase) {
      assert s'.shards == s.shards && s'.flights == s.flights && s'.sent == s.sent && s'.acked == s.acked;
      assert AfterCopy(s.phase) && SwitchReady(m, s);
      forall k | k in s'.acked + s'.flights.Keys && k in s'.sent
        ensures Ready(m, s', k)
      {
        assert Ready(m, s, k);
      }
    }
  }

  lemma InvStep(m: Migration, s: State, a: Action)
    requires Inv(m, s) && CanStep(m, s, a)
    requires a.StartBackfill? ==> NoStaleSend(m, s)
    ensures Inv(m, Step(m, s, a))
  {
    match a
    case StartSend(msg) => StartSendKeepsInv(m, s, msg);
    case InsertNext(mid, now) => InsertNextKeepsInv(m, s, mid, now);
    case Acknowledge(_) => FinishSendKeepsInv(m, s, a);
    case FailSend(_) => FinishSendKeepsInv(m, s, a);
    case ReadPage => ReadPageKeepsInv(m, s);
    case CopyRow => CopyRowKeepsInv(m, s);
    case DeleteDoomed => DeleteDoomedKeepsInv(m, s);
    case _ => CommandKeepsInv(m, s, a);
  }

  lemma InvIsSafe(m: Migration, s: State)
    requires Inv(m, s)
    ensures Safe(s)
  {
    forall k | k in s.acked
      ensures k in s.sent && Readable(s, s.sent[k])
    {
      assert k in s.sent;
      var home := ReadHome(s.cfg, s.sent[k].chat);
      if !PreSwitch(s.phase) {
        assert Ready(m, s, k);
      }
      assert At(s, home, k);
      var r := RowOfMid(s.shards[home].rows, k);
      assert OwnedRow(m, s.sent, home, r);
    }
  }

  // ---------------------------------------------------------------- main results

  lemma {:induction false} SoundRun(m: Migration, s: State, acts: seq<Action>)
    requires Sound(m, s) && CanRun(m, s, acts)
    ensures Sound(m, Run(m, s, acts))
    decreases |acts|
  {
    if acts != [] {
      SoundStep(m, s, acts[0]);
      SoundRun(m, Step(m, s, acts[0]), acts[1..]);
    }
  }

  lemma {:induction false} InvRun(m: Migration, s: State, acts: seq<Action>)
    requires Inv(m, s) && CanRun(m, s, acts) && Drained(m, s, acts)
    ensures Inv(m, Run(m, s, acts))
    decreases |acts|
  {
    if acts != [] {
      InvStep(m, s, acts[0]);
      InvRun(m, Step(m, s, acts[0]), acts[1..]);
    }
  }

  /** In every state reachable by a drained migration, with sends interleaved at every insert and
      failing anywhere, with backfill stopped and restarted and the migration rolled back and begun
      again, every acknowledged message is on the shard that reads select, unaltered. */
  lemma {:induction false} NoAcknowledgedMessageIsLost(m: Migration, s: State, acts: seq<Action>)
    requires Init(m, s) && CanRun(m, s, acts) && Drained(m, s, acts)
    ensures Safe(Run(m, s, acts))
  {
    InitIsSound(m, s);
    InvRun(m, s, acts);
    InvIsSafe(m, Run(m, s, acts));
  }

  lemma {:induction false} SoundIsSafe(m: Migration, s: State)
    requires Sound(m, s) && PreSwitch(s.phase)
    ensures Safe(s)
  {
    forall k | k in s.acked
      ensures k in s.sent && Readable(s, s.sent[k])
    {
      assert k in s.sent.Keys;
      var home := OldHome(m, s.sent[k].chat);
      assert At(s, home, k);
      var r := RowOfMid(s.shards[home].rows, k);
      assert OwnedRow(m, s.sent, home, r);
    }
  }

  /** Draining matters only from the switch on. Until reads are switched no run loses an acknowledged
      message, whatever the operator waited for, also after the migration is rolled back. */
  lemma {:induction false} NothingIsLostBeforeSwitch(m: Migration, s: State, acts: seq<Action>)
    requires Init(m, s) && CanRun(m, s, acts) && PreSwitch(Run(m, s, acts).phase)
    ensures Safe(Run(m, s, acts))
  {
    InitIsSound(m, s);
    SoundRun(m, s, acts);
    SoundIsSafe(m, Run(m, s, acts));
  }
}
