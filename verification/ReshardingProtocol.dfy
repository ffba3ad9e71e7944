/** The migration as a transition system: live sends advance one single-shard insert at a time
    while the operator runs the commands of scripts/resharding.py in their documented order, with
    backfill and cleanup advancing one statement at a time.

    A single-shard statement is atomic and ids grow in commit order; a send that raises is never
    acknowledged. Nothing below orders the sends against the operator. */
module ReshardingProtocol {
  import opened Sharding
  import opened MessageTable
  import opened ClusterConfig

  const BATCH: nat := 500

  datatype Params = Params(oldN: nat, newN: nat, pools: nat)

  type Migration = p: Params | 1 <= p.oldN <= p.pools && 1 <= p.newN <= p.pools
    witness Params(1, 1, 1)

  function OldHome(m: Migration, chat: ChatId): (i: nat)
    ensures i < m.oldN
  {
    Shard(chat, m.oldN)
  }

  function NewHome(m: Migration, chat: ChatId): (i: nat)
    ensures i < m.newN
  {
    Shard(chat, m.newN)
  }

  /** A send in progress: shards it has inserted into and shards still to come. */
  datatype Flight = Flight(wrote: set<nat>, todo: seq<nat>)

  datatype Phase =
    | Before
    | Enabled
    | Copying(src: nat, lastId: nat, page: seq<Row>)
    | Copied
    | Switched
    | Single
    | Cleaning(shard: nat, doomed: Option<set<nat>>)
    | Cleaned

  datatype State = State(
    shards: seq<Table>,
    cfg: Config,
    phase: Phase,
    sent: map<nat, Msg>,
    flights: map<nat, Flight>,
    acked: set<nat>,
    failed: set<nat>)

  datatype Action =
    | StartSend(msg: Msg)
    | InsertNext(mid: nat, now: int)
    | Acknowledge(mid: nat)
    | FailSend(mid: nat)
    | EnableDualWrite
    | StartBackfill
    | ReadPage
    | CopyRow
    | StopBackfill
    | Rollback
    | SwitchRead
    | DisableDualWrite
    | StartCleanup
    | FetchDoomed
    | DeleteDoomed
    | FinishCleanup

  predicate PreSwitch(phase: Phase) {
    phase.Before? || phase.Enabled? || phase.Copying? || phase.Copied?
  }

  // ---------------------------------------------------------------- steps

  predicate CanStep(m: Migration, s: State, a: Action) {
    match a
    case StartSend(msg) => msg.mid !in s.sent && InRange(s.cfg, m.pools)
    case InsertNext(mid, _) =>
      mid in s.flights && s.flights[mid].todo != [] && s.flights[mid].todo[0] < |s.shards| && mid in s.sent
    case Acknowledge(mid) => mid in s.flights && s.flights[mid].todo == []
    case FailSend(mid) => mid in s.flights
    case EnableDualWrite => s.phase.Before?
    case StartBackfill => s.phase.Enabled? || s.phase.Copied?
    case ReadPage => s.phase.Copying? && s.phase.page == [] && s.phase.src < |s.shards|
    case CopyRow =>
      s.phase.Copying? && s.phase.page != [] && NewHome(m, s.phase.page[0].entry.msg.chat) < |s.shards|
    case StopBackfill => s.phase.Copying?
    case Rollback => s.phase.Enabled? || s.phase.Copied?
    case SwitchRead => s.phase.Copied?
    case DisableDualWrite => s.phase.Switched?
    case StartCleanup => (s.phase.Single? || s.phase.Cleaned?) && !s.cfg.dualWrite
    case FetchDoomed =>
      s.phase.Cleaning? && s.phase.doomed.None? && s.phase.shard < m.newN && s.phase.shard < |s.shards|
    case DeleteDoomed => s.phase.Cleaning? && s.phase.doomed.Some? && s.phase.shard < |s.shards|
    case FinishCleanup => s.phase.Cleaning? && s.phase.doomed.None? && s.phase.shard >= m.newN
  }

  function Step(m: Migration, s: State, a: Action): State
    requires CanStep(m, s, a)
  {
    match a
    case StartSend(msg) =>
      s.(sent := s.sent[msg.mid := msg],
         flights := s.flights[msg.mid := Flight({}, WriteHomes(s.cfg, msg.chat))])
    case InsertNext(mid, now) =>
      var f := s.flights[mid];
      var i := f.todo[0];
      s.(shards := InsertAt(s.shards, i, Entry(s.sent[mid], now)),
         flights := s.flights[mid := Flight(f.wrote + {i}, f.todo[1..])])
    case Acknowledge(mid) => s.(flights := s.flights - {mid}, acked := s.acked + {mid})
    case FailSend(mid) => s.(flights := s.flights - {mid}, failed := s.failed + {mid})
    case EnableDualWrite =>
      s.(cfg := Assigned(s.cfg, None, Some(m.newN), Some(true)), phase := Enabled)
    case StartBackfill => s.(phase := Copying(0, 0, []))
    case ReadPage => s.(phase := AfterRead(m, s.shards[s.phase.src].rows, s.phase.src, s.phase.lastId))
    case CopyRow =>
      var r := s.phase.page[0];
      var dst := NewHome(m, r.entry.msg.chat);
      var next := s.(phase := s.phase.(page := s.phase.page[1..]));
      if dst == s.phase.src then next else next.(shards := InsertAt(s.shards, dst, r.entry))
    case StopBackfill => s.(phase := Enabled)
    case Rollback =>
      s.(cfg := Assigned(s.cfg, None, Some(m.oldN), Some(false)), phase := Before)
    case SwitchRead => s.(cfg := Assigned(s.cfg, Some(m.newN), None, None), phase := Switched)
    case DisableDualWrite => s.(cfg := Assigned(s.cfg, None, None, Some(false)), phase := Single)
    case StartCleanup => s.(phase := Cleaning(0, None))
    case FetchDoomed =>
      s.(phase := Cleaning(s.phase.shard, Some(DoomedIds(s.shards[s.phase.shard].rows, s.phase.shard, m.newN))))
    case DeleteDoomed =>
      var i := s.phase.shard;
      s.(shards := s.shards[i := Table(DeleteIds(s.shards[i].rows, s.phase.doomed.value), s.shards[i].nextId)],
         phase := Cleaning(i + 1, None))
    case FinishCleanup => s.(phase := Cleaned)
  }

  function InsertAt(shards: seq<Table>, i: nat, e: Entry): seq<Table>
    requires i < |shards|
  {
    shards[i := Insert(shards[i], e)]
  }

  /** Backfill's cursor after one SELECT: the next page, the next source shard, or the end. */
  function AfterRead(m: Migration, rows: seq<Row>, src: nat, lastId: nat): Phase {
    var page := Page(rows, lastId, BATCH);
    if page != [] then Copying(src, page[|page| - 1].id, page)
    else if src + 1 < m.oldN then Copying(src + 1, 0, [])
    else Copied
  }

  /** The ids cleanup selects on `shard`: rows whose chat lives elsewhere. */
  function DoomedIds(rows: seq<Row>, shard: nat, newN: nat): set<nat>
    requires newN > 0
  {
    set r | r in rows && Shard(r.entry.msg.chat, newN) != shard :: r.id
  }

  // ---------------------------------------------------------------- runs

  /** A start: reads and writes over `oldN` shards, no send under way, every stored message on its
      old home shard and already acknowledged. */
  ghost predicate Init(m: Migration, s: State) {
    && |s.shards| == m.pools
    && (forall i :: 0 <= i < |s.shards| ==> Valid(s.shards[i]))
    && s.cfg == Config(m.oldN, m.oldN, false)
    && s.phase == Before
    && s.flights == map[] && s.failed == {} && s.acked == s.sent.Keys
    && (forall k :: k in s.sent ==> s.sent[k].mid == k && k in Mids(s.shards[OldHome(m, s.sent[k].chat)].rows))
    && (forall i, r :: 0 <= i < |s.shards| && r in s.shards[i].rows ==>
          && r.entry.msg.mid in s.sent && s.sent[r.entry.msg.mid] == r.entry.msg
          && i == OldHome(m, r.entry.msg.chat))
  }

  ghost predicate CanRun(m: Migration, s: State, acts: seq<Action>)
    decreases |acts|
  {
    acts == [] || (CanStep(m, s, acts[0]) && CanRun(m, Step(m, s, acts[0]), acts[1..]))
  }

  ghost function Run(m: Migration, s: State, acts: seq<Action>): State
    requires CanRun(m, s, acts)
    decreases |acts|
  {
    if acts == [] then s else Run(m, Step(m, s, acts[0]), acts[1..])
  }

  /** No send under way was routed without its chat's new home shard. */
  ghost predicate NoStaleSend(m: Migration, s: State) {
    forall k :: k in s.flights && k in s.sent ==> Covers(s.flights[k], NewHome(m, s.sent[k].chat))
  }

  predicate Covers(f: Flight, shard: nat) {
    shard in f.wrote || shard in f.todo
  }

  /** The operator's grace period: backfill starts only once the sends routed before dual-write was
      enabled have finished. */
  ghost predicate Drained(m: Migration, s: State, acts: seq<Action>)
    requires CanRun(m, s, acts)
    decreases |acts|
  {
    acts == [] || (
      && (acts[0].StartBackfill? ==> NoStaleSend(m, s))
      && Drained(m, Step(m, s, acts[0]), acts[1..]))
  }

  // ---------------------------------------------------------------- what must hold

  /** The shard reads select for the chat holds exactly this message. */
  ghost predicate Readable(s: State, msg: Msg)
    requires s.cfg.readN > 0
  {
    var home := ReadHome(s.cfg, msg.chat);
    home < |s.shards| && exists r :: r in s.shards[home].rows && r.entry.msg == msg
  }

  /** No acknowledged message is missing from reads. */
  ghost predicate Safe(s: State) {
    s.cfg.readN > 0 && forall k :: k in s.acked ==> k in s.sent && Readable(s, s.sent[k])
  }
}
