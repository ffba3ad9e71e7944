/** The methods of `Cluster` and the transition system agree: a send, a switch of flags and a cleanup that
    run alone are runs of the system that end with the very tables and flags the methods leave. (Backfill and
    verify are in QuietMigration.) */
module CommandRuns {
  import opened Sharding
  import opened MessageTable
  import opened ClusterConfig
  import opened ReshardingProtocol
  import opened ReshardingSafety
  import opened BackfillPlan
  import opened MigrationRuns
  import opened DialogsCluster

  // ---------------------------------------------------------------- a send

  lemma {:induction false} InsertFirst(shards: seq<Table>, homes: seq<nat>, msg: Msg, now: nat -> int)
    requires homes != [] && forall i :: 0 <= i < |homes| ==> homes[i] < |shards|
    ensures InsertEach(shards, homes, msg, now)
         == InsertEach(InsertAt(shards, homes[0], Entry(msg, now(homes[0]))), homes[1..], msg, now)
  {
    var front, last := homes[..|homes| - 1], homes[|homes| - 1];
    if front == [] {
      assert homes[1..] == [];
    } else {
      InsertFirst(shards, front, msg, now);
      assert homes[1..][..|homes[1..]| - 1] == front[1..];
    }
  }

  /** The inserts a send still has to make. */
  lemma {:induction false} RestOfSend(m: Migration, s: State, mid: nat, now: nat -> int) returns (acts: seq<Action>, s': State)
    requires mid in s.flights && mid in s.sent
    requires forall i :: 0 <= i < |s.flights[mid].todo| ==> s.flights[mid].todo[i] < |s.shards|
    ensures Leads(m, s, acts, s')
    ensures mid in s'.flights && s'.flights[mid].todo == [] && s'.flights - {mid} == s.flights - {mid}
    ensures s' == s.(shards := InsertEach(s.shards, s.flights[mid].todo, s.sent[mid], now), flights := s'.flights)
    decreases |s.flights[mid].todo|
  {
    var todo := s.flights[mid].todo;
    if todo == [] {
      acts, s' := [], s;
    } else {
      var a := InsertNext(mid, now(todo[0]));
      var mid1 := Step(m, s, a);
      OneStep(m, s, a);
      var rest;
      rest, s' := RestOfSend(m, mid1, mid, now);
      Joined(m, s, [a], mid1, rest, s');
      acts := [a] + rest;
      InsertFirst(s.shards, todo, s.sent[mid], now);
    }
  }

  /** What the tables of a state become by a send, as `Cluster.Send` says it. */
  ghost predicate SentTo(cfg: Config, msg: Msg, now: nat -> int, before: seq<Table>, after: seq<Table>)
    requires CanRoute(cfg)
  {
    && |after| == |before|
    && forall i :: 0 <= i < |before| ==>
         after[i] == if i == Shard(msg.chat, cfg.writeN) || (cfg.dualWrite && i == Shard(msg.chat, cfg.readN))
                     then Insert(before[i], Entry(msg, now(i))) else before[i]
  }

  lemma {:induction false} InsertEachSends(cfg: Config, msg: Msg, now: nat -> int, shards: seq<Table>)
    requires CanRoute(cfg) && forall i :: 0 <= i < |shards| ==> Valid(shards[i])
    ensures SentTo(cfg, msg, now, shards, InsertEach(shards, WriteHomes(cfg, msg.chat), msg, now))
  {
    WriteHomesDistinct(cfg, msg.chat);
    WriteHomesAre(cfg, msg.chat);
    InsertEachMeans(shards, WriteHomes(cfg, msg.chat), msg, now);
  }

  /** From every sound state a send that runs alone succeeds, is acknowledged, and leaves the tables that
      `Cluster.Send` leaves. */
  lemma {:induction false} SendIsRun(m: Migration, s: State, msg: Msg, now: nat -> int)
    returns (acts: seq<Action>, s': State)
    requires Sound(m, s) && msg.mid !in s.sent
    ensures CanRoute(s.cfg) && SendOutcome(s.cfg, msg.chat, |s.shards|) == Ok(())
    ensures Leads(m, s, acts, s') && SentTo(s.cfg, msg, now, s.shards, s'.shards)
    ensures s' == s.(shards := s'.shards, sent := s.sent[msg.mid := msg], acked := s.acked + {msg.mid})
  {
    SendOutcomeIs(s.cfg, msg.chat, |s.shards|);
    WriteHomesAre(s.cfg, msg.chat);
    InsertEachSends(s.cfg, msg, now, s.shards);
    var s1 := Step(m, s, StartSend(msg));
    OneStep(m, s, StartSend(msg));
    assert forall i :: 0 <= i < |s1.flights[msg.mid].todo| ==> s1.flights[msg.mid].todo[i] in WriteHomes(s.cfg, msg.chat);
    var rest, s2 := RestOfSend(m, s1, msg.mid, now);
    Joined(m, s, [StartSend(msg)], s1, rest, s2);
    s' := Step(m, s2, Acknowledge(msg.mid));
    Then(m, s, [StartSend(msg)] + rest, s2, Acknowledge(msg.mid));
    acts := [StartSend(msg)] + rest + [Acknowledge(msg.mid)];
    assert msg.mid !in s.flights.Keys;
    assert s1.flights - {msg.mid} == s.flights;
  }

  // ---------------------------------------------------------------- cleanup

  /** Shards from `from` on below the new count are clean. */
  ghost predicate CleansFrom(m: Migration, from: nat, before: seq<Table>, after: seq<Table>) {
    && |after| == |before|
    && forall i :: 0 <= i < |before| ==>
         after[i] == if from <= i < m.newN then CleanTable(before[i], i, m.newN) else before[i]
  }

  lemma {:induction false} RestOfCleanup(m: Migration, s: State) returns (acts: seq<Action>, s': State)
    requires |s.shards| == m.pools && s.phase.Cleaning? && s.phase.doomed.None? && s.phase.shard <= m.newN
    ensures Leads(m, s, acts, s') && CleansFrom(m, s.phase.shard, s.shards, s'.shards)
    ensures s' == s.(shards := s'.shards, phase := Cleaned)
    decreases m.newN - s.phase.shard
  {
    if s.phase.shard == m.newN {
      OneStep(m, s, FinishCleanup);
      acts, s' := [FinishCleanup], Step(m, s, FinishCleanup);
    } else {
      var s1 := Step(m, s, FetchDoomed);
      var s2 := Step(m, s1, DeleteDoomed);
      OneStep(m, s, FetchDoomed);
      Then(m, s, [FetchDoomed], s1, DeleteDoomed);
      var rest;
      rest, s' := RestOfCleanup(m, s2);
      Joined(m, s, [FetchDoomed] + [DeleteDoomed], s2, rest, s');
      acts := [FetchDoomed] + [DeleteDoomed] + rest;
    }
  }

  /** A cleanup that runs alone ends with the tables that `Cluster.Cleanup` leaves, and changes nothing else. */
  lemma {:induction false} CleanupIsRun(m: Migration, s: State) returns (acts: seq<Action>, s': State)
    requires |s.shards| == m.pools && (s.phase.Single? || s.phase.Cleaned?) && !s.cfg.dualWrite
    ensures Leads(m, s, acts, s') && s' == s.(shards := s'.shards, phase := Cleaned)
    ensures CleanedTo(s.shards, m.newN, m.newN, s'.shards)
  {
    var s1 := Step(m, s, StartCleanup);
    OneStep(m, s, StartCleanup);
    var rest;
    rest, s' := RestOfCleanup(m, s1);
    Joined(m, s, [StartCleanup], s1, rest, s');
    acts := [StartCleanup] + rest;
  }

  // ---------------------------------------------------------------- the flags

  /** Each command that only sets flags sets in the system what its method sets in the cluster. */
  lemma {:induction false} FlagsAreTheMethods(m: Migration, s: State)
    ensures s.phase.Before? ==>
              CanStep(m, s, EnableDualWrite) && Step(m, s, EnableDualWrite).cfg == Config(s.cfg.readN, m.newN, true)
    ensures s.phase.Copied? ==>
              CanStep(m, s, SwitchRead) && Step(m, s, SwitchRead).cfg == Config(m.newN, s.cfg.writeN, s.cfg.dualWrite)
    ensures s.phase.Switched? ==>
              CanStep(m, s, DisableDualWrite) && Step(m, s, DisableDualWrite).cfg == Config(s.cfg.readN, s.cfg.writeN, false)
  {
  }
}
