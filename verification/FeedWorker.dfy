/** The Redis Streams worker (app/workers/feed_worker.py): events are acknowledged only after their
    handler returned, what a crash leaves pending is retried on restart, and retries are harmless. */
module FeedWorker {
  import opened FeedOrder
  import opened FeedWorld

  /** How handling and acknowledging one entry ends. `AckLost`: the XACK took effect but its reply
      did not arrive, which the worker cannot tell from `AckFails`. */
  datatype Outcome = Done | HandlerFails | AckFails | AckLost

  predicate LeavesPending(o: Outcome) {
    o.HandlerFails? || o.AckFails?
  }

  // ---------------------------------------------------------------- the recovery loop

  ghost predicate Ascending(ids: seq<nat>) {
    forall i, j :: 0 <= i < j < |ids| ==> ids[i] < ids[j]
  }

  /** XREADGROUP with an id: this consumer's pending entries above the cursor, at most `batch`. */
  function PendingAfter(pending: seq<nat>, cursor: nat): seq<nat> {
    if pending == [] then []
    else if pending[0] > cursor then [pending[0]] + PendingAfter(pending[1..], cursor)
    else PendingAfter(pending[1..], cursor)
  }

  function ReadPending(pending: seq<nat>, cursor: nat, batch: nat): seq<nat> {
    var after := PendingAfter(pending, cursor);
    if batch < |after| then after[..batch] else after
  }

  /** A read returns pending entries above the cursor, and all of them unless it returns a full batch. */
  lemma {:induction false} ReadPendingIs(pending: seq<nat>, cursor: nat, batch: nat)
    ensures var read := ReadPending(pending, cursor, batch);
            && |read| <= batch && (forall id :: id in read ==> id in pending && id > cursor)
            && (|read| == batch || forall id :: id in pending && id > cursor ==> id in read)
  {
    PendingAfterIs(pending, cursor);
    var after := PendingAfter(pending, cursor);
    assert forall id :: id in ReadPending(pending, cursor, batch) ==> id in after;
  }

  lemma {:induction false} PendingAfterIs(pending: seq<nat>, cursor: nat)
    ensures forall id :: id in PendingAfter(pending, cursor) <==> id in pending && id > cursor
  {
    if pending != [] {
      PendingAfterIs(pending[1..], cursor);
      assert forall id :: id in pending <==> id == pending[0] || id in pending[1..];
    }
  }

  /** How many reads it takes to read `n` pending entries to the end, the empty answer included. */
  function ReadsNeeded(n: nat, batch: nat): (times: nat)
    requires batch > 0
    ensures times >= 1
  {
    if n == 0 then 1 else if n <= batch then 2 else 1 + ReadsNeeded(n - batch, batch)
  }

  /** How many of `n` pending entries `times` reads return. */
  function InReads(n: nat, batch: nat, times: nat): (k: nat)
    requires batch > 0
    ensures k <= n
  {
    if times == 0 then 0 else if n <= batch then n else batch + InReads(n - batch, batch, times - 1)
  }

  lemma {:induction false} OneRead(n: nat, batch: nat, times: nat)
    requires batch > 0 && times > 0
    ensures var k := if n <= batch then n else batch;
            && InReads(n, batch, times) == k + InReads(n - k, batch, times - 1)
            && (times < ReadsNeeded(n, batch) <==> n > 0 && times - 1 < ReadsNeeded(n - k, batch))
  {
  }

  /** With no read error, all are read; one read per entry and one more are always enough. */
  lemma {:induction false} EnoughReads(n: nat, batch: nat, times: nat)
    requires batch > 0
    ensures times >= ReadsNeeded(n, batch) ==> InReads(n, batch, times) == n
    ensures times > n ==> times >= ReadsNeeded(n, batch)
  {
    if times > 0 && n > batch {
      EnoughReads(n - batch, batch, times - 1);
    }
  }

  /** XACK of some ids. */
  function Without(ids: seq<nat>, gone: set<nat>): seq<nat> {
    if ids == [] then []
    else if ids[0] in gone then Without(ids[1..], gone)
    else [ids[0]] + Without(ids[1..], gone)
  }

  /** The entries that were handled and acknowledged. */
  function Finished(ids: seq<nat>, outcome: nat -> Outcome): set<nat> {
    set id | id in ids && !LeavesPending(outcome(id))
  }

  /** An entry stays pending exactly if it was pending and was not visited, or its handler raised, or its
      acknowledgement did not take effect. */
  ghost predicate StayPending(before: seq<nat>, visited: seq<nat>, outcome: nat -> Outcome, after: seq<nat>) {
    forall id :: id in after <==>
      id in before && (id in visited ==> outcome(id) == HandlerFails || outcome(id) == AckFails)
  }

  lemma {:induction false} WithoutIs(ids: seq<nat>, gone: set<nat>)
    ensures forall id :: id in Without(ids, gone) <==> id in ids && id !in gone
  {
    if ids != [] {
      WithoutIs(ids[1..], gone);
      assert forall id :: id in ids <==> id == ids[0] || id in ids[1..];
    }
  }

  class Consumer {
    /** Entries delivered to this consumer and not acknowledged, by id. */
    var pending: seq<nat>

    /** `_drain_entries`: each entry is handled once, in order, and acknowledged if that succeeded. */
    method DrainEntries(entries: seq<nat>, outcome: nat -> Outcome)
      modifies this
      ensures pending == Without(old(pending), Finished(entries, outcome))
      ensures StayPending(old(pending), entries, outcome, pending)
    {
      WithoutIs(pending, Finished(entries, outcome));
      WithoutNone(pending);
      assert Finished(entries[..0], outcome) == {};
      for i := 0 to |entries|
        invariant pending == Without(old(pending), Finished(entries[..i], outcome))
      {
        var id := entries[i];
        assert entries[..i + 1] == entries[..i] + [id];
        if !LeavesPending(outcome(id)) {
          WithoutTwice(old(pending), Finished(entries[..i], outcome), {id});
          pending := Without(pending, {id});
          assert Finished(entries[..i + 1], outcome) == Finished(entries[..i], outcome) + {id};
        } else {
          assert Finished(entries[..i + 1], outcome) == Finished(entries[..i], outcome);
        }
      }
      assert entries[..|entries|] == entries;
    }

    /** `_recover_pending`, where the first `readsLeft` reads succeed and the next one fails.
        `visited` lists the entries handed to the handler, in order. */
    method RecoverPending(batch: nat, outcome: nat -> Outcome, readsLeft: nat)
      returns (visited: seq<nat>, readError: bool)
      requires batch > 0 && PendingIds(pending)
      modifies this
      ensures RecoveryEnds(old(pending), visited, batch, readsLeft)
      ensures pending == Without(old(pending), Finished(visited, outcome))
      ensures StayPending(old(pending), visited, outcome, pending)
      ensures readError <==> readsLeft < ReadsNeeded(|old(pending)|, batch)
    {
      var cursor, left: nat := 0, readsLeft;
      visited, readError := [], false;
      ghost var start := pending;
      FirstRound(start, outcome, batch, left);
      while true
        invariant !readError && cursor == LastOf(visited)
        invariant InRound(start, visited, pending, outcome, batch, left, readsLeft)
        decreases left
      {
        if left == 0 {
          OutOfReads(start, visited, pending, outcome, batch, readsLeft);
          WithoutIs(start, Finished(visited, outcome));
          readError := true;
          return;
        }
        var more;
        more, visited, cursor := ReadRound(batch, outcome, visited, cursor, start, left, readsLeft);
        if !more {
          WithoutIs(start, Finished(visited, outcome));
          return;
        }
        left := left - 1;
      }
    }

    /** One round: read above the cursor, handle what came, and go to its last id. `seen` and `last`
        are what has been visited and the cursor afterwards. */
    method ReadRound(batch: nat, outcome: nat -> Outcome, visited: seq<nat>, cursor: nat,
                     ghost start: seq<nat>, ghost left: nat, ghost total: nat)
      returns (more: bool, seen: seq<nat>, last: nat)
      requires batch > 0 && left > 0 && PendingIds(start)
      requires InRound(start, visited, pending, outcome, batch, left, total)
      requires cursor == LastOf(visited)
      modifies this
      ensures last == LastOf(seen)
      ensures more ==> InRound(start, seen, pending, outcome, batch, left - 1, total)
      ensures !more ==> RoundsEnd(start, seen, pending, outcome, batch, total)
    {
      var entries := ReadPending(pending, cursor, batch);
      if entries == [] {
        LastRound(start, visited, pending, cursor, outcome, batch, left, total);
      } else {
        NextRound(start, visited, pending, cursor, outcome, batch, left, total, entries);
      }
      DrainEntries(entries, outcome);
      more, seen := entries != [], visited + entries;
      last := if more then entries[|entries| - 1] else cursor;
      LastOfMore(visited, entries);
      assert !more ==> seen == visited;
    }
  }

  /** A pending list in id order. */
  ghost predicate PendingIds(ids: seq<nat>) {
    Ascending(ids) && forall id :: id in ids ==> id > 0
  }

  function LastOf(ids: seq<nat>): nat {
    if ids == [] then 0 else ids[|ids| - 1]
  }

  lemma {:induction false} LastOfMore(ids: seq<nat>, more: seq<nat>)
    ensures LastOf(ids + more) == if more == [] then LastOf(ids) else more[|more| - 1]
  {
    assert more == [] ==> ids + more == ids;
  }

  /** Between two reads of the recovery loop: what was visited is a prefix of what was pending at the
      start, what it left is pending, and the reads left are those that
      the rest of the list still has. */
  ghost predicate InRound(start: seq<nat>, visited: seq<nat>, pending: seq<nat>, outcome: nat -> Outcome,
                          batch: nat, left: nat, total: nat)
    requires batch > 0
  {
    && visited <= start
    && pending == Without(start, Finished(visited, outcome))
    && OnCourse(|visited|, |start| - |visited|, batch, left, total)
  }

  /** With `seen` entries read and `rest` to go, the reads left do what all of them would from the start. */
  ghost predicate OnCourse(seen: nat, rest: nat, batch: nat, left: nat, total: nat)
    requires batch > 0
  {
    && seen + InReads(rest, batch, left) == InReads(seen + rest, batch, total)
    && (left < ReadsNeeded(rest, batch) <==> total < ReadsNeeded(seen + rest, batch))
  }

  lemma {:induction false} FirstRound(start: seq<nat>, outcome: nat -> Outcome, batch: nat, total: nat)
    requires batch > 0
    ensures InRound(start, [], start, outcome, batch, total, total)
  {
    WithoutNone(start);
    assert Finished([], outcome) == {};
  }

  /** Exactly what `total` reads return has been visited: everything, if they suffice. */
  ghost predicate RecoveryEnds(start: seq<nat>, visited: seq<nat>, batch: nat, total: nat)
    requires batch > 0
  {
    && visited == start[..InReads(|start|, batch, total)]
    && (total >= ReadsNeeded(|start|, batch) ==> visited == start)
  }

  /** Nothing is left to read. */
  ghost predicate RoundsEnd(start: seq<nat>, visited: seq<nat>, pending: seq<nat>, outcome: nat -> Outcome, batch: nat, total: nat)
    requires batch > 0
  {
    && RecoveryEnds(start, visited, batch, total) && total >= ReadsNeeded(|start|, batch)
    && pending == Without(start, Finished(visited, outcome))
  }

  lemma {:induction false} OutOfReads(start: seq<nat>, visited: seq<nat>, pending: seq<nat>,
                                      outcome: nat -> Outcome, batch: nat, total: nat)
    requires batch > 0 && InRound(start, visited, pending, outcome, batch, 0, total)
    ensures RecoveryEnds(start, visited, batch, total) && total < ReadsNeeded(|start|, batch)
  {
    assert visited == start[..|visited|];
  }

  /** A read that returns something: the loop stands again after it. */
  lemma {:induction false} NextRound(start: seq<nat>, visited: seq<nat>, pending: seq<nat>, cursor: nat,
                                     outcome: nat -> Outcome, batch: nat, left: nat, total: nat, entries: seq<nat>)
    requires batch > 0 && left > 0 && PendingIds(start)
    requires InRound(start, visited, pending, outcome, batch, left, total)
    requires cursor == LastOf(visited) && entries == ReadPending(pending, cursor, batch) && entries != []
    ensures InRound(start, visited + entries, Without(pending, Finished(entries, outcome)), outcome, batch, left - 1, total)
  {
    NextEntries(start, visited, outcome, cursor);
    VisitedMore(start, visited, entries, outcome);
    OneRead(|start| - |visited|, batch, left);
  }

  /** A read that returns nothing: all have been visited. */
  lemma {:induction false} LastRound(start: seq<nat>, visited: seq<nat>, pending: seq<nat>, cursor: nat,
                                     outcome: nat -> Outcome, batch: nat, left: nat, total: nat)
    requires batch > 0 && left > 0 && PendingIds(start)
    requires InRound(start, visited, pending, outcome, batch, left, total)
    requires cursor == LastOf(visited) && ReadPending(pending, cursor, batch) == []
    ensures RoundsEnd(start, visited, Without(pending, Finished([], outcome)), outcome, batch, total)
  {
    NextEntries(start, visited, outcome, cursor);
    assert visited == start;
    EnoughReads(|start|, batch, total);
    assert Finished([], outcome) == {};
    WithoutNone(pending);
  }

  lemma {:induction false} WithoutNone(ids: seq<nat>)
    ensures Without(ids, {}) == ids
  {
    if ids != [] {
      WithoutNone(ids[1..]);
    }
  }

  lemma {:induction false} WithoutTwice(ids: seq<nat>, a: set<nat>, b: set<nat>)
    ensures Without(Without(ids, a), b) == Without(ids, a + b)
  {
    if ids != [] {
      WithoutTwice(ids[1..], a, b);
      if ids[0] !in a {
        assert Without(ids, a)[1..] == Without(ids[1..], a);
      }
    }
  }

  lemma {:induction false} AboveCursor(q: seq<nat>, gone: set<nat>, cursor: nat, v: nat)
    requires v <= |q|
    requires forall i :: 0 <= i < v ==> q[i] <= cursor
    requires forall i :: v <= i < |q| ==> q[i] > cursor && q[i] !in gone
    ensures PendingAfter(Without(q, gone), cursor) == q[v..]
  {
    if q != [] {
      var rest, v' := q[1..], if v == 0 then 0 else v - 1;
      assert forall i :: 0 <= i < |rest| ==> rest[i] == q[i + 1];
      AboveCursor(rest, gone, cursor, v');
      if q[0] !in gone {
        assert Without(q, gone)[1..] == Without(rest, gone);
      }
      if v > 0 {
        assert rest[v - 1..] == q[v..];
      } else {
        assert q[0..] == [q[0]] + rest[0..];
      }
    }
  }

  /** What the next read can return: the entries not yet visited, from the first on. */
  lemma {:induction false} NextEntries(start: seq<nat>, visited: seq<nat>, outcome: nat -> Outcome, cursor: nat)
    requires Ascending(start) && visited <= start && forall id :: id in start ==> id > 0
    requires cursor == LastOf(visited)
    ensures PendingAfter(Without(start, Finished(visited, outcome)), cursor) == start[|visited|..]
  {
    var v := |visited|;
    forall i | v <= i < |start|
      ensures start[i] > cursor && start[i] !in Finished(visited, outcome)
    {
      assert start[i] in start;
      assert v > 0 ==> start[v - 1] == cursor;
      forall k | 0 <= k < v
        ensures visited[k] != start[i]
      {
        assert visited[k] == start[k];
      }
    }
    forall i | 0 <= i < v
      ensures start[i] <= cursor
    {
      assert start[v - 1] == cursor;
    }
    AboveCursor(start, Finished(visited, outcome), cursor, v);
  }

  lemma {:induction false} VisitedMore(start: seq<nat>, visited: seq<nat>, entries: seq<nat>, outcome: nat -> Outcome)
    requires visited <= start && entries <= start[|visited|..]
    ensures visited + entries <= start
    ensures Without(Without(start, Finished(visited, outcome)), Finished(entries, outcome))
         == Without(start, Finished(visited + entries, outcome))
  {
    WithoutTwice(start, Finished(visited, outcome), Finished(entries, outcome));
    assert Finished(visited + entries, outcome) == Finished(visited, outcome) + Finished(entries, outcome);
    assert start == visited + start[|visited|..];
  }

  // ---------------------------------------------------------------- runs with failures and crashes

  datatype Note = Handled(id: nat) | Acknowledged(id: nat)

  datatype Mode = Recovering(cursor: nat) | Live

  /** `published`: every entry ever added to the stream; `unread`: those not yet delivered to the
      group; `batch`: entries read and not yet dealt with; `returned`: the handler of the first of
      them has returned; `tried`: entries this process has begun to handle; `readError`: its
      recovery was cut short. */
  datatype Stream = Stream(
    published: set<nat>,
    unread: seq<nat>,
    pending: set<nat>,
    acked: set<nat>,
    mode: Mode,
    batch: seq<nat>,
    returned: bool,
    tried: set<nat>,
    readError: bool,
    log: seq<Note>)

  datatype Event =
    | Publish(id: nat)
    | Crash
    | ReadTail
    | RecoveryReadFails
    | ReadNew(n: nat)
    | HandlerReturns
    | HandlerRaises
    | AckReply
    | AckError(applied: bool)

  /** The answer to a read of this consumer's pending entries above the cursor: the lowest of them. */
  ghost predicate NextTail(s: Stream, tail: seq<nat>)
    requires s.mode.Recovering?
  {
    && Ascending(tail)
    && (forall id :: id in tail ==> id in s.pending && id > s.mode.cursor)
    && (forall id :: id in s.pending && id > s.mode.cursor && id !in tail ==> tail != [] && id > tail[|tail| - 1])
  }

  /** One step of the group and the worker process, as a relation. */
  ghost predicate Next(s: Stream, e: Event, s': Stream) {
    match e
    case Publish(id) =>
      && id > 0 && id !in s.published
      && s' == s.(published := s.published + {id}, unread := s.unread + [id])
    case Crash =>
      s' == s.(mode := Recovering(0), batch := [], returned := false, tried := {}, readError := false)
    case ReadTail =>
      && s.mode.Recovering? && s.batch == []
      && exists tail :: NextTail(s, tail) &&
           s' == if tail == [] then s.(mode := Live) else s.(mode := Recovering(tail[|tail| - 1]), batch := tail)
    case RecoveryReadFails =>
      s.mode.Recovering? && s.batch == [] && s' == s.(mode := Live, readError := true)
    case ReadNew(n) =>
      && s.mode.Live? && s.batch == [] && n <= |s.unread|
      && s' == s.(unread := s.unread[n..], pending := s.pending + Elements(s.unread[..n]), batch := s.unread[..n])
    case HandlerReturns =>
      && s.batch != [] && !s.returned
      && s' == s.(returned := true, tried := s.tried + {s.batch[0]}, log := s.log + [Handled(s.batch[0])])
    case HandlerRaises =>
      && s.batch != [] && !s.returned
      && s' == s.(batch := s.batch[1..], tried := s.tried + {s.batch[0]})
    case AckReply =>
      s.batch != [] && s.returned && s' == AfterAck(s)
    case AckError(applied) =>
      && s.batch != [] && s.returned
      && s' == if applied then AfterAck(s) else s.(batch := s.batch[1..], returned := false)
  }

  function AfterAck(s: Stream): Stream
    requires s.batch != []
  {
    var id := s.batch[0];
    s.(pending := s.pending - {id}, acked := s.acked + {id}, batch := s.batch[1..], returned := false,
       log := s.log + [Acknowledged(id)])
  }

  ghost predicate Start(s: Stream) {
    && s.published == Elements(s.unread)
    && s.pending == {} && s.acked == {} && s.mode == Recovering(0) && s.batch == [] && !s.returned
    && s.tried == {} && !s.readError && s.log == []
    && (forall id :: id in s.unread ==> id > 0)
    && forall i, j :: 0 <= i < j < |s.unread| ==> s.unread[i] != s.unread[j]
  }

  /** Every acknowledgement in the log comes after a normal return of the entry's handler. */
  ghost predicate HandledFirst(log: seq<Note>) {
    forall j :: 0 <= j < |log| && log[j].Acknowledged? ==> HandledBefore(log, j, log[j].id)
  }

  ghost predicate HandledBefore(log: seq<Note>, j: nat, id: nat)
    requires j <= |log|
  {
    exists i :: 0 <= i < j && log[i] == Handled(id)
  }

  ghost predicate StreamInv(s: Stream) {
    && s.published == Elements(s.unread) + s.pending + s.acked
    && s.pending !! s.acked
    && (forall id :: id in s.unread ==> id > 0 && id !in s.pending && id !in s.acked)
    && (forall i, j :: 0 <= i < j < |s.unread| ==> s.unread[i] != s.unread[j])
    && (forall id :: id in s.pending ==> id > 0)
    && (forall id :: id in s.batch ==> id in s.pending)
    && (forall i, j :: 0 <= i < j < |s.batch| ==> s.batch[i] != s.batch[j])
    && (s.returned ==> s.batch != [] && HandledBefore(s.log, |s.log|, s.batch[0]))
    && HandledFirst(s.log)
    && (forall id :: id in s.acked ==> exists j :: 0 <= j < |s.log| && s.log[j] == Acknowledged(id))
  }

  /** Since its start the process has taken up every pending entry its reads have passed. */
  ghost predicate NothingSkipped(s: Stream) {
    && (s.returned ==> s.batch != [] && s.batch[0] in s.tried)
    && (s.mode.Recovering? ==>
          forall id :: id in s.pending && id <= s.mode.cursor ==> id in s.tried || id in s.batch)
    && (s.mode.Live? && !s.readError ==> forall id :: id in s.pending ==> id in s.tried || id in s.batch)
  }

  lemma {:induction false} LogGrows(log: seq<Note>, note: Note)
    requires HandledFirst(log)
    requires note.Acknowledged? ==> HandledBefore(log, |log|, note.id)
    ensures HandledFirst(log + [note])
    ensures forall id :: HandledBefore(log, |log|, id) ==> HandledBefore(log + [note], |log| + 1, id)
  {
    var log' := log + [note];
    forall j | 0 <= j < |log'| && log'[j].Acknowledged?
      ensures HandledBefore(log', j, log'[j].id)
    {
      assert HandledBefore(log, j, log'[j].id);
      var i :| 0 <= i < j && log[i] == Handled(log'[j].id);
      assert log'[i] == log[i];
    }
    forall id | HandledBefore(log, |log|, id)
      ensures HandledBefore(log', |log| + 1, id)
    {
      var i :| 0 <= i < |log| && log[i] == Handled(id);
      assert log'[i] == log[i];
    }
  }

  lemma {:induction false} AckKeepsInv(s: Stream)
    requires StreamInv(s) && s.batch != [] && s.returned
    ensures StreamInv(AfterAck(s))
  {
    var s' := AfterAck(s);
    var id := s.batch[0];
    assert id in s.batch;
    LogGrows(s.log, Acknowledged(id));
    forall x | x in s'.batch
      ensures x in s'.pending
    {
      var k :| 0 <= k < |s'.batch| && s'.batch[k] == x;
      assert s.batch[k + 1] == x;
    }
    forall x | x in s'.acked
      ensures exists j :: 0 <= j < |s'.log| && s'.log[j] == Acknowledged(x)
    {
      if x == id {
        assert s'.log[|s.log|] == Acknowledged(id);
      } else {
        var j :| 0 <= j < |s.log| && s.log[j] == Acknowledged(x);
        assert s'.log[j] == s.log[j];
      }
    }
  }

  lemma {:induction false} ReturnKeepsInv(s: Stream, s': Stream)
    requires StreamInv(s) && Next(s, HandlerReturns, s')
    ensures StreamInv(s')
  {
    var note := Handled(s.batch[0]);
    LogGrows(s.log, note);
    assert s'.log[|s.log|] == note;
    forall x | x in s'.acked
      ensures exists j :: 0 <= j < |s'.log| && s'.log[j] == Acknowledged(x)
    {
      var j :| 0 <= j < |s.log| && s.log[j] == Acknowledged(x);
      assert s'.log[j] == s.log[j];
    }
  }

  lemma {:induction false} FrontOfUnread(unread: seq<nat>, n: nat)
    requires n <= |unread|
    requires forall i, j :: 0 <= i < j < |unread| ==> unread[i] != unread[j]
    ensures Elements(unread) == Elements(unread[..n]) + Elements(unread[n..])
    ensures forall id :: id in unread[n..] ==> id in unread && id !in unread[..n]
    ensures forall i, j :: 0 <= i < j < |unread[..n]| ==> unread[..n][i] != unread[..n][j]
    ensures forall i, j :: 0 <= i < j < |unread[n..]| ==> unread[n..][i] != unread[n..][j]
  {
    var front, rest := unread[..n], unread[n..];
    assert unread == front + rest;
    forall id | id in rest
      ensures id in unread && id !in front
    {
      var k :| 0 <= k < |rest| && rest[k] == id;
      assert unread[n + k] == id;
    }
  }

  lemma {:induction false} ReadNewKeepsInv(s: Stream, n: nat, s': Stream)
    requires StreamInv(s) && Next(s, ReadNew(n), s')
    ensures StreamInv(s')
  {
    FrontOfUnread(s.unread, n);
  }

  lemma {:induction false} PublishKeepsInv(s: Stream, id: nat, s': Stream)
    requires StreamInv(s) && Next(s, Publish(id), s')
    ensures StreamInv(s')
  {
    assert Elements(s'.unread) == Elements(s.unread) + {id};
    assert id !in Elements(s.unread);
  }

  lemma {:induction false} DroppingKeepsInv(s: Stream, s': Stream)
    requires StreamInv(s) && s.batch != []
    requires s' == s.(batch := s.batch[1..], returned := false, tried := s'.tried)
    ensures StreamInv(s')
  {
    forall x | x in s'.batch
      ensures x in s'.pending
    {
      var k :| 0 <= k < |s'.batch| && s'.batch[k] == x;
      assert s.batch[k + 1] == x;
    }
  }

  lemma {:induction false} StepKeepsInv(s: Stream, e: Event, s': Stream)
    requires StreamInv(s) && Next(s, e, s')
    ensures StreamInv(s')
  {
    match e
    case Publish(id) => PublishKeepsInv(s, id, s');
    case HandlerReturns => ReturnKeepsInv(s, s');
    case HandlerRaises => DroppingKeepsInv(s, s');
    case ReadNew(n) => ReadNewKeepsInv(s, n, s');
    case AckReply => AckKeepsInv(s);
    case AckError(applied) =>
      if applied {
        AckKeepsInv(s);
      } else {
        DroppingKeepsInv(s, s');
      }
    case _ =>
  }

  lemma {:induction false} StepSkipsNothing(s: Stream, e: Event, s': Stream)
    requires StreamInv(s) && NothingSkipped(s) && Next(s, e, s')
    ensures NothingSkipped(s')
  {
    if e.ReadTail? {
      var tail :| NextTail(s, tail) &&
        s' == if tail == [] then s.(mode := Live) else s.(mode := Recovering(tail[|tail| - 1]), batch := tail);
    } else if e.HandlerRaises? || e.AckReply? || e.AckError? {
      assert s.batch == [s.batch[0]] + s.batch[1..];
    } else if e.ReadNew? {
      assert forall id :: id in Elements(s.unread[..e.n]) ==> id in s'.batch;
    }
  }

  /** A run: the states it passes and the events between them. */
  ghost predicate StreamRun(ss: seq<Stream>, es: seq<Event>) {
    Steps(ss, es) && Start(ss[0])
  }

  ghost predicate Steps(ss: seq<Stream>, es: seq<Event>) {
    |ss| == |es| + 1 && forall i :: 0 <= i < |es| ==> Next(ss[i], es[i], ss[i + 1])
  }

  lemma {:induction false} RunKeepsInv(ss: seq<Stream>, es: seq<Event>, k: nat)
    requires StreamRun(ss, es) && k <= |es|
    ensures StreamInv(ss[k]) && NothingSkipped(ss[k])
  {
    if k > 0 {
      RunKeepsInv(ss, es, k - 1);
      StepKeepsInv(ss[k - 1], es[k - 1], ss[k]);
      StepSkipsNothing(ss[k - 1], es[k - 1], ss[k]);
    }
  }

  /** No event is lost and none is acknowledged unhandled: at every point of every run, whatever
      fails and whenever the worker crashes, each published event is unread, pending, or was
      acknowledged after its handler had returned. */
  lemma {:induction false} AtLeastOnce(ss: seq<Stream>, es: seq<Event>, k: nat, id: nat)
    requires StreamRun(ss, es) && k <= |es| && id in ss[k].published
    ensures var s := ss[k];
            || id in s.unread
            || id in s.pending
            || (exists i, j :: 0 <= i < j < |s.log| && s.log[i] == Handled(id) && s.log[j] == Acknowledged(id))
  {
    RunKeepsInv(ss, es, k);
    var s := ss[k];
    if id in s.acked {
      var j :| 0 <= j < |s.log| && s.log[j] == Acknowledged(id);
      assert HandledBefore(s.log, j, id);
    }
  }

  /** A restarted worker takes up everything it had left pending before it reads new entries, unless
      reading its own tail failed. */
  lemma {:induction false} TailBeforeNews(ss: seq<Stream>, es: seq<Event>, k: nat, id: nat)
    requires StreamRun(ss, es) && k < |es| && es[k].ReadNew? && !ss[k].readError
    requires id in ss[k].pending
    ensures id in ss[k].tried
  {
    RunKeepsInv(ss, es, k);
    assert Next(ss[k], es[k], ss[k + 1]);
  }

  // ---------------------------------------------------------------- retries are harmless

  lemma {:induction false} AddKeptAgain(s: set<Entry>, e: Entry, cap: nat)
    requires e in s
    ensures Top(Top(s, cap) + {e}, cap) == Top(s, cap)
  {
    if cap == 0 {
      assert Top(Top(s, 0) + {e}, 0) == {} && Top(s, 0) == {};
    } else {
      TopOfSmall({e}, cap);
      TopOfUnion(s, {e}, cap);
      assert s + {e} == s;
    }
  }

  lemma {:induction false} ZaddTwice(feed: set<Entry>, e: Entry, cap: nat)
    ensures Top(Zadd(Top(Zadd(feed, e), cap), e), cap) == Top(Zadd(feed, e), cap)
  {
    var once := Zadd(feed, e);
    var kept := Top(once, cap);
    assert forall x :: x in kept && x.pid == e.pid ==> x == e;
    assert Zadd(kept, e) == kept + {e};
    AddKeptAgain(once, e, cap);
  }

  /** Handling a created event again changes no feed. */
  lemma {:induction false} FanOutTwice(cap: nat, w: World, e: Entry, author: nat, u: nat)
    ensures var once := FanOut(cap, w, e, author);
            FeedOf(FanOut(cap, once, e, author), u) == FeedOf(once, u)
  {
    var once := FanOut(cap, w, e, author);
    assert Followers(once, author) == Followers(w, author);
    if u in Followers(w, author) {
      ZaddTwice(FeedOf(w, u), e, cap);
    }
  }

  /** Neither does handling a deleted event again. */
  lemma {:induction false} FanRemoveTwice(w: World, p: nat, author: nat, u: nat)
    ensures var once := FanRemove(w, p, author);
            FeedOf(FanRemove(once, p, author), u) == FeedOf(once, u)
  {
    var once := FanRemove(w, p, author);
    assert Followers(once, author) == Followers(w, author);
    if u in Followers(w, author) {
      assert Zrem(Zrem(FeedOf(w, u), p), p) == Zrem(FeedOf(w, u), p);
    }
  }

  /** If a created event is retried after its post was deleted, the feed regains a dead entry, but
      no read shows it, and a read whose page covers it removes it. */
  lemma {:induction false} RetryAfterDelete(cap: nat, w: World, p: nat, at: int, author: nat, u: nat, offset: nat, limit: nat)
    requires p !in w.posts && p !in w.hashes && limit >= 1
    ensures var late := FanOut(cap, w, Entry(at, p), author);
            var (after, items) := ReadFeed(cap, late, u, offset, limit);
            && (forall x :: x in items ==> x.id != p)
            && (forall e :: e in Zrevrange(FeedOf(RefreshedForRead(cap, late, u), u), offset, limit) && e.pid == p ==>
                  e !in FeedOf(after, u))
  {
    var late := FanOut(cap, w, Entry(at, p), author);
    var w' := RefreshedForRead(cap, late, u);
    assert p !in w'.hashes;
    BodiesHaveHashes(w', Zrevrange(FeedOf(w', u), offset, limit));
  }
}
