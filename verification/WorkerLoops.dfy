/** The loops of the stream worker, `Consumer.DrainEntries` and `Consumer.RecoverPending`, take steps of
    the stream's relation: whatever they leave pending a run of that relation leaves pending, so no event
    is lost by the loops themselves. */
module WorkerLoops {
  import opened FeedOrder
  import opened FeedWorker

  // ---------------------------------------------------------------- runs put together

  lemma {:induction false} OneStep(s: Stream, e: Event, s': Stream)
    requires Next(s, e, s')
    ensures Steps([s, s'], [e])
  {
  }

  /** A run followed by another from where it ended. */
  lemma {:induction false} StepsOn(ss: seq<Stream>, es: seq<Event>, tt: seq<Stream>, fs: seq<Event>)
    requires Steps(ss, es) && Steps(tt, fs) && ss[|es|] == tt[0]
    ensures Steps(ss + tt[1..], es + fs)
    ensures (ss + tt[1..])[0] == ss[0] && (ss + tt[1..])[|es| + |fs|] == tt[|fs|]
  {
    var all, events := ss + tt[1..], es + fs;
    forall i | 0 <= i < |events|
      ensures Next(all[i], events[i], all[i + 1])
    {
      if i < |es| {
        assert Next(ss[i], es[i], ss[i + 1]);
      } else {
        assert Next(tt[i - |es|], fs[i - |es|], tt[i - |es| + 1]);
      }
    }
  }

  /** `es` takes `s` to `s'`. */
  ghost predicate Leads(s: Stream, ss: seq<Stream>, es: seq<Event>, s': Stream) {
    Steps(ss, es) && ss[0] == s && ss[|es|] == s'
  }

  lemma {:induction false} LeadsOn(s: Stream, ss: seq<Stream>, es: seq<Event>, mid: Stream,
                                   tt: seq<Stream>, fs: seq<Event>, s': Stream)
    requires Leads(s, ss, es, mid) && Leads(mid, tt, fs, s')
    ensures Leads(s, ss + tt[1..], es + fs, s')
  {
    StepsOn(ss, es, tt, fs);
  }

  // ---------------------------------------------------------------- one entry

  function AckOf(o: Outcome): Event {
    if o == Done then AckReply else AckError(o == AckLost)
  }

  /** Handling and acknowledging the first entry of the batch. */
  lemma {:induction false} EntryIsRun(s: Stream, o: Outcome) returns (ss: seq<Stream>, es: seq<Event>, s': Stream)
    requires s.batch != [] && !s.returned
    ensures Leads(s, ss, es, s')
    ensures s'.batch == s.batch[1..] && !s'.returned && s'.mode == s.mode && s'.readError == s.readError
    ensures s'.published == s.published && s'.unread == s.unread
    ensures s'.pending == if o == HandlerFails || o == AckFails then s.pending else s.pending - {s.batch[0]}
  {
    if o == HandlerFails {
      s' := s.(batch := s.batch[1..], tried := s.tried + {s.batch[0]});
      OneStep(s, HandlerRaises, s');
      ss, es := [s, s'], [HandlerRaises];
    } else {
      var mid := s.(returned := true, tried := s.tried + {s.batch[0]}, log := s.log + [Handled(s.batch[0])]);
      s' := if o == AckFails then mid.(batch := s.batch[1..], returned := false) else AfterAck(mid);
      OneStep(s, HandlerReturns, mid);
      OneStep(mid, AckOf(o), s');
      LeadsOn(s, [s, mid], [HandlerReturns], mid, [mid, s'], [AckOf(o)], s');
      ss, es := [s, mid] + [mid, s'][1..], [HandlerReturns] + [AckOf(o)];
    }
  }

  // ---------------------------------------------------------------- a batch

  /** What a drained batch leaves: everything but the entries handled and acknowledged. */
  ghost predicate BatchDone(s: Stream, outcome: nat -> Outcome, s': Stream) {
    && s'.batch == [] && !s'.returned && s'.mode == s.mode && s'.readError == s.readError
    && s'.published == s.published && s'.unread == s.unread
    && forall id :: id in s'.pending <==>
         id in s.pending && (id in s.batch ==> outcome(id) == HandlerFails || outcome(id) == AckFails)
  }

  /** What `DrainEntries` does to a batch is a run of the stream's relation. */
  lemma {:induction false} DrainIsRun(s: Stream, outcome: nat -> Outcome)
    returns (ss: seq<Stream>, es: seq<Event>, s': Stream)
    requires !s.returned
    ensures Leads(s, ss, es, s') && BatchDone(s, outcome, s')
    decreases |s.batch|
  {
    if s.batch == [] {
      ss, es, s' := [s], [], s;
    } else {
      var first, events, mid := EntryIsRun(s, outcome(s.batch[0]));
      var rest, more;
      rest, more, s' := DrainIsRun(mid, outcome);
      LeadsOn(s, first, events, mid, rest, more, s');
      ss, es := first + rest[1..], events + more;
      assert s.batch == [s.batch[0]] + mid.batch;
    }
  }

  // ---------------------------------------------------------------- the recovery loop

  /** The answer to a read of the tail is one the relation allows. */
  lemma {:induction false} ReadIsTail(s: Stream, start: seq<nat>, visited: seq<nat>, pending: seq<nat>,
                                      outcome: nat -> Outcome, batch: nat)
    requires batch > 0 && PendingIds(start) && visited <= start && pending == Without(start, Finished(visited, outcome))
    requires s.mode == Recovering(LastOf(visited)) && s.pending == Elements(pending)
    ensures NextTail(s, ReadPending(pending, LastOf(visited), batch))
  {
    var cursor := LastOf(visited);
    var after, tail := PendingAfter(pending, cursor), ReadPending(pending, cursor, batch);
    NextEntries(start, visited, outcome, cursor);
    PendingAfterIs(pending, cursor);
    forall i, j | 0 <= i < j < |tail|
      ensures tail[i] < tail[j]
    {
      assert after[i] == start[|visited| + i] && after[j] == start[|visited| + j];
    }
    forall id | id in s.pending && id > cursor && id !in tail
      ensures tail != [] && id > tail[|tail| - 1]
    {
      assert id in after;
      var k :| 0 <= k < |after| && after[k] == id;
      assert k >= |tail|;
      assert after[|tail| - 1] == start[|visited| + |tail| - 1] && after[k] == start[|visited| + k];
    }
    assert forall id :: id in tail ==> id in after;
  }

  /** What the recovery loop leaves: what it visited is what `total` reads return. */
  ghost predicate RecoveryDone(s: Stream, start: seq<nat>, outcome: nat -> Outcome, batch: nat, total: nat, s': Stream)
    requires batch > 0
  {
    && s'.mode == Live && s'.batch == [] && !s'.returned
    && s'.published == s.published && s'.unread == s.unread
    && s'.readError == (s.readError || total < ReadsNeeded(|start|, batch))
    && s'.pending == Elements(Without(start, Finished(start[..InReads(|start|, batch, total)], outcome)))
  }

  /** Between two reads the stream is where the loop is. */
  ghost predicate AtRead(s: Stream, visited: seq<nat>, pending: seq<nat>) {
    && s.mode == Recovering(LastOf(visited)) && s.batch == [] && !s.returned
    && s.pending == Elements(pending)
  }

  lemma {:induction false} ReadFailsIsRun(s: Stream, start: seq<nat>, visited: seq<nat>, pending: seq<nat>,
                                          outcome: nat -> Outcome, batch: nat, total: nat)
    returns (ss: seq<Stream>, es: seq<Event>, s': Stream)
    requires batch > 0 && InRound(start, visited, pending, outcome, batch, 0, total) && AtRead(s, visited, pending)
    ensures Leads(s, ss, es, s') && RecoveryDone(s, start, outcome, batch, total, s')
  {
    OutOfReads(start, visited, pending, outcome, batch, total);
    s' := s.(mode := Live, readError := true);
    OneStep(s, RecoveryReadFails, s');
    ss, es := [s, s'], [RecoveryReadFails];
  }

  lemma {:induction false} LastReadIsRun(s: Stream, start: seq<nat>, visited: seq<nat>, pending: seq<nat>,
                                         outcome: nat -> Outcome, batch: nat, left: nat, total: nat)
    returns (ss: seq<Stream>, es: seq<Event>, s': Stream)
    requires batch > 0 && left > 0 && PendingIds(start) && AtRead(s, visited, pending)
    requires InRound(start, visited, pending, outcome, batch, left, total)
    requires ReadPending(pending, LastOf(visited), batch) == []
    ensures Leads(s, ss, es, s') && RecoveryDone(s, start, outcome, batch, total, s')
  {
    LastRound(start, visited, pending, LastOf(visited), outcome, batch, left, total);
    ReadIsTail(s, start, visited, pending, outcome, batch);
    s' := s.(mode := Live);
    OneStep(s, ReadTail, s');
    ss, es := [s, s'], [ReadTail];
  }

  lemma {:induction false} AfterBatch(mid: Stream, s': Stream, visited: seq<nat>, pending: seq<nat>,
                                      outcome: nat -> Outcome, entries: seq<nat>)
    requires entries != [] && mid.mode == Recovering(entries[|entries| - 1]) && mid.batch == entries
    requires mid.pending == Elements(pending) && BatchDone(mid, outcome, s')
    ensures AtRead(s', visited + entries, Without(pending, Finished(entries, outcome)))
  {
    WithoutIs(pending, Finished(entries, outcome));
    LastOfMore(visited, entries);
  }

  lemma {:induction false} TailStep(s: Stream, tail: seq<nat>)
    requires s.mode.Recovering? && s.batch == [] && NextTail(s, tail) && tail != []
    ensures var mid := s.(mode := Recovering(tail[|tail| - 1]), batch := tail);
            Leads(s, [s, mid], [ReadTail], mid)
  {
    OneStep(s, ReadTail, s.(mode := Recovering(tail[|tail| - 1]), batch := tail));
  }

  /** A read that returns entries, and their handling. */
  lemma {:induction false} RoundIsRun(s: Stream, start: seq<nat>, visited: seq<nat>, pending: seq<nat>,
                                      outcome: nat -> Outcome, batch: nat, entries: seq<nat>)
    returns (ss: seq<Stream>, es: seq<Event>, s': Stream)
    requires batch > 0 && PendingIds(start) && visited <= start && pending == Without(start, Finished(visited, outcome))
    requires AtRead(s, visited, pending) && entries == ReadPending(pending, LastOf(visited), batch) && entries != []
    ensures Leads(s, ss, es, s')
    ensures AtRead(s', visited + entries, Without(pending, Finished(entries, outcome)))
    ensures s'.published == s.published && s'.unread == s.unread && s'.readError == s.readError
  {
    ReadIsTail(s, start, visited, pending, outcome, batch);
    var mid := s.(mode := Recovering(entries[|entries| - 1]), batch := entries);
    TailStep(s, entries);
    var rest, more;
    rest, more, s' := DrainIsRun(mid, outcome);
    LeadsOn(s, [s, mid], [ReadTail], mid, rest, more, s');
    ss, es := [s, mid] + rest[1..], [ReadTail] + more;
    AfterBatch(mid, s', visited, pending, outcome, entries);
  }

  lemma {:induction false} RecoveryIsRun(s: Stream, start: seq<nat>, visited: seq<nat>, pending: seq<nat>,
                                         outcome: nat -> Outcome, batch: nat, left: nat, total: nat)
    returns (ss: seq<Stream>, es: seq<Event>, s': Stream)
    requires batch > 0 && PendingIds(start) && AtRead(s, visited, pending)
    requires InRound(start, visited, pending, outcome, batch, left, total)
    ensures Leads(s, ss, es, s') && RecoveryDone(s, start, outcome, batch, total, s')
    decreases left
  {
    var entries := ReadPending(pending, LastOf(visited), batch);
    if left == 0 {
      ss, es, s' := ReadFailsIsRun(s, start, visited, pending, outcome, batch, total);
    } else if entries == [] {
      ss, es, s' := LastReadIsRun(s, start, visited, pending, outcome, batch, left, total);
    } else {
      var round, events, mid := RoundIsRun(s, start, visited, pending, outcome, batch, entries);
      NextRound(start, visited, pending, LastOf(visited), outcome, batch, left, total, entries);
      var rest, more;
      rest, more, s' := RecoveryIsRun(mid, start, visited + entries, Without(pending, Finished(entries, outcome)),
                                      outcome, batch, left - 1, total);
      LeadsOn(s, round, events, mid, rest, more, s');
      ss, es := round + rest[1..], events + more;
    }
  }

  // ---------------------------------------------------------------- no event is lost by the loops

  /** The event waits in the stream, or in this consumer's list, or was acknowledged after its handler returned. */
  ghost predicate Kept(s: Stream, pending: seq<nat>, id: nat) {
    || id in s.unread
    || id in pending
    || (exists i, j :: 0 <= i < j < |s.log| && s.log[i] == Handled(id) && s.log[j] == Acknowledged(id))
  }

  ghost predicate NothingLost(s: Stream, pending: seq<nat>) {
    forall id :: id in s.published ==> Kept(s, pending, id)
  }

  lemma {:induction false} RunLosesNothing(ss: seq<Stream>, es: seq<Event>, pending: seq<nat>)
    requires StreamRun(ss, es) && ss[|es|].pending == Elements(pending)
    ensures NothingLost(ss[|es|], pending)
  {
    forall id | id in ss[|es|].published
      ensures Kept(ss[|es|], pending, id)
    {
      AtLeastOnce(ss, es, |es|, id);
    }
  }

  /** However a run came to a batch, `DrainEntries` takes it on to a state of the relation that has the very
      pending list the method leaves, and every published event is unread, in that list, or was acknowledged
      after its handler returned. */
  lemma {:induction false} DrainLosesNothing(ss: seq<Stream>, es: seq<Event>, outcome: nat -> Outcome,
                                             before: seq<nat>, after: seq<nat>)
    returns (tt: seq<Stream>, fs: seq<Event>)
    requires StreamRun(ss, es) && !ss[|es|].returned && ss[|es|].pending == Elements(before)
    requires StayPending(before, ss[|es|].batch, outcome, after)
    ensures StreamRun(tt, fs) && es <= fs && ss <= tt
    ensures tt[|fs|].batch == [] && tt[|fs|].published == ss[|es|].published
    ensures tt[|fs|].pending == Elements(after) && NothingLost(tt[|fs|], after)
  {
    var rest, more, s' := DrainIsRun(ss[|es|], outcome);
    StepsOn(ss, es, rest, more);
    tt, fs := ss + rest[1..], es + more;
    RunLosesNothing(tt, fs, after);
  }

  /** And `RecoverPending`, however many of its reads succeed, takes a restarted worker on to such a state. */
  lemma {:induction false} RecoveryLosesNothing(ss: seq<Stream>, es: seq<Event>, outcome: nat -> Outcome, batch: nat,
                                                total: nat, before: seq<nat>, visited: seq<nat>, readError: bool, after: seq<nat>)
    returns (tt: seq<Stream>, fs: seq<Event>)
    requires batch > 0 && StreamRun(ss, es) && PendingIds(before)
    requires AtRead(ss[|es|], [], before) && !ss[|es|].readError
    requires RecoveryEnds(before, visited, batch, total) && StayPending(before, visited, outcome, after)
    requires readError <==> total < ReadsNeeded(|before|, batch)
    ensures StreamRun(tt, fs) && es <= fs && ss <= tt
    ensures tt[|fs|].mode == Live && tt[|fs|].batch == [] && tt[|fs|].published == ss[|es|].published
    ensures tt[|fs|].readError == readError
    ensures tt[|fs|].pending == Elements(after) && NothingLost(tt[|fs|], after)
  {
    FirstRound(before, outcome, batch, total);
    var rest, more, s' := RecoveryIsRun(ss[|es|], before, [], before, outcome, batch, total, total);
    StepsOn(ss, es, rest, more);
    tt, fs := ss + rest[1..], es + more;
    WithoutIs(before, Finished(visited, outcome));
    RunLosesNothing(tt, fs, after);
  }
}
