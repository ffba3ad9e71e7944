/** One shard's `messages` table (migrations/dialogs/001_messages.sql) and the two statements the
    program runs on it: the idempotent INSERT and the paged, ordered reads. */
module MessageTable {
  import opened Sharding

  datatype Msg = Msg(mid: nat, chat: ChatId, sender: UserId, recipient: UserId, body: string)

  /** A row without its shard-local key. */
  datatype Entry = Entry(msg: Msg, createdAt: int)

  datatype Row = Row(id: nat, entry: Entry)

  /** Rows in insertion order; `nextId` is the next value of the BIGSERIAL sequence. */
  datatype Table = Table(rows: seq<Row>, nextId: nat)

  const EMPTY := Table([], 1)

  ghost predicate Valid(t: Table) {
    && t.nextId >= 1
    && IdsBelow(t.rows, t.nextId)
    && Increasing(t.rows)
    && DistinctMids(t.rows)
  }

  ghost predicate IdsBelow(rows: seq<Row>, bound: nat) {
    forall i :: 0 <= i < |rows| ==> 1 <= rows[i].id < bound
  }

  ghost predicate Increasing(rows: seq<Row>) {
    forall i, j :: 0 <= i < j < |rows| ==> rows[i].id < rows[j].id
  }

  ghost predicate DistinctMids(rows: seq<Row>) {
    forall i, j :: 0 <= i < j < |rows| ==> rows[i].entry.msg.mid != rows[j].entry.msg.mid
  }

  // ---------------------------------------------------------------- INSERT .. ON CONFLICT DO NOTHING

  function Mids(rows: seq<Row>): set<nat> {
    set r | r in rows :: r.entry.msg.mid
  }

  predicate HasMid(t: Table, mid: nat) {
    mid in Mids(t.rows)
  }

  /** A conflict keeps the rows but still consumes a sequence value. */
  function Insert(t: Table, e: Entry): Table {
    if HasMid(t, e.msg.mid) then t.(nextId := t.nextId + 1)
    else Table(t.rows + [Row(t.nextId, e)], t.nextId + 1)
  }

  /** An insert keeps the table valid and consumes one id, keeps every row, leaves exactly one row under the new
      message id, and adds at most the row it was given. */
  lemma InsertFacts(t: Table, e: Entry)
    requires Valid(t)
    ensures Valid(Insert(t, e)) && Insert(t, e).nextId == t.nextId + 1
    ensures t.rows <= Insert(t, e).rows
    ensures Mids(Insert(t, e).rows) == Mids(t.rows) + {e.msg.mid}
    ensures forall r :: r in Insert(t, e).rows ==>
              r in t.rows || (r == Row(t.nextId, e) && !HasMid(t, e.msg.mid))
    ensures forall r :: r in t.rows ==> r in Insert(t, e).rows
  {
    var t' := Insert(t, e);
    if !HasMid(t, e.msg.mid) {
      forall i, j | 0 <= i < j < |t'.rows|
        ensures t'.rows[i].entry.msg.mid != t'.rows[j].entry.msg.mid
      {
        if j == |t.rows| {
          assert t.rows[i] in t.rows;
        }
      }
      forall mid | mid in Mids(t.rows) + {e.msg.mid}
        ensures mid in Mids(t'.rows)
      {
        if mid == e.msg.mid {
          assert Row(t.nextId, e) in t'.rows;
        } else {
          var r :| r in t.rows && r.entry.msg.mid == mid;
          assert r in t'.rows;
        }
      }
    }
  }

  lemma RowOfMid(rows: seq<Row>, mid: nat) returns (r: Row)
    requires mid in Mids(rows)
    ensures r in rows && r.entry.msg.mid == mid
  {
    r :| r in rows && r.entry.msg.mid == mid;
  }

  lemma MidOfRow(rows: seq<Row>, r: Row)
    requires r in rows
    ensures r.entry.msg.mid in Mids(rows)
  {
  }

  // ---------------------------------------------------------------- SELECT .. WHERE id > $1 ORDER BY id LIMIT $2

  function RowsAfter(rows: seq<Row>, lastId: nat): (after: seq<Row>)
    ensures |after| <= |rows|
  {
    if rows == [] then []
    else if rows[0].id > lastId then [rows[0]] + RowsAfter(rows[1..], lastId)
    else RowsAfter(rows[1..], lastId)
  }

  function Page(rows: seq<Row>, lastId: nat, batch: nat): (page: seq<Row>) {
    var after := RowsAfter(rows, lastId);
    if |after| <= batch then after else after[..batch]
  }

  /** On a table in id order, a page is the block of rows that follows the cursor. */
  lemma {:induction false} RowsAfterIsSuffix(rows: seq<Row>, lastId: nat, p: nat)
    requires Increasing(rows) && p <= |rows|
    requires forall i :: 0 <= i < p ==> rows[i].id <= lastId
    requires forall i :: p <= i < |rows| ==> rows[i].id > lastId
    ensures RowsAfter(rows, lastId) == rows[p..]
  {
    if rows != [] {
      assert forall i :: 0 <= i < |rows[1..]| ==> rows[1..][i] == rows[i + 1];
      if p == 0 {
        RowsAfterIsSuffix(rows[1..], lastId, 0);
        assert rows[1..][0..] == rows[1..];
      } else {
        RowsAfterIsSuffix(rows[1..], lastId, p - 1);
        assert rows[1..][p - 1..] == rows[p..];
      }
    }
  }

  /** The number of rows at or below the cursor: where the suffix starts. */
  lemma {:induction false} CursorPosition(rows: seq<Row>, lastId: nat) returns (p: nat)
    requires Increasing(rows)
    ensures p <= |rows|
    ensures forall i :: 0 <= i < p ==> rows[i].id <= lastId
    ensures forall i :: p <= i < |rows| ==> rows[i].id > lastId
  {
    p := 0;
    while p < |rows| && rows[p].id <= lastId
      invariant p <= |rows|
      invariant forall i :: 0 <= i < p ==> rows[i].id <= lastId
    {
      p := p + 1;
    }
  }

  /** Paging skips nothing: a row above the old cursor and at most the last id of the page is on
      the page; an empty page means there is no such row at all. */
  lemma PageIsComplete(rows: seq<Row>, lastId: nat, batch: nat)
    requires Increasing(rows) && batch > 0
    ensures var page := Page(rows, lastId, batch);
            && (forall r :: r in page ==> r in rows && r.id > lastId)
            && Increasing(page)
            && (page == [] ==> forall r :: r in rows ==> r.id <= lastId)
            && (page != [] ==> forall r :: r in rows && r.id <= page[|page| - 1].id ==>
                                  r.id <= lastId || r in page)
  {
    var p := CursorPosition(rows, lastId);
    RowsAfterIsSuffix(rows, lastId, p);
    var page := Page(rows, lastId, batch);
    assert forall k :: 0 <= k < |page| ==> page[k] == rows[p + k];
    forall r | r in rows
      ensures page == [] ==> r.id <= lastId
      ensures page != [] && r.id <= page[|page| - 1].id ==> r.id <= lastId || r in page
    {
      var i :| 0 <= i < |rows| && rows[i] == r;
      if i >= p && page != [] && r.id <= page[|page| - 1].id {
        assert page[|page| - 1] == rows[p + |page| - 1];
        assert i - p < |page|;
        assert page[i - p] == r;
      }
    }
  }

  // ---------------------------------------------------------------- DELETE .. WHERE id = ANY($1)

  function DeleteIds(rows: seq<Row>, ids: set<nat>): seq<Row> {
    if rows == [] then []
    else if rows[0].id in ids then DeleteIds(rows[1..], ids)
    else [rows[0]] + DeleteIds(rows[1..], ids)
  }

  lemma {:induction false} DeleteIdsFacts(rows: seq<Row>, ids: set<nat>)
    ensures forall r :: r in DeleteIds(rows, ids) <==> r in rows && r.id !in ids
    ensures |DeleteIds(rows, ids)| <= |rows|
  {
    if rows != [] {
      DeleteIdsFacts(rows[1..], ids);
      assert rows == [rows[0]] + rows[1..];
      assert forall r :: r in rows <==> r == rows[0] || r in rows[1..];
    }
  }

  lemma {:induction false} DeleteKeepsIncreasing(rows: seq<Row>, ids: set<nat>)
    requires Increasing(rows)
    ensures Increasing(DeleteIds(rows, ids))
  {
    if rows != [] {
      DeleteKeepsIncreasing(rows[1..], ids);
      DeleteIdsFacts(rows[1..], ids);
      var kept := DeleteIds(rows[1..], ids);
      forall i | 0 <= i < |kept|
        ensures rows[0].id < kept[i].id
      {
        assert kept[i] in rows[1..];
      }
    }
  }

  lemma {:induction false} DeleteKeepsDistinct(rows: seq<Row>, ids: set<nat>)
    requires DistinctMids(rows)
    ensures DistinctMids(DeleteIds(rows, ids))
  {
    if rows != [] {
      DeleteKeepsDistinct(rows[1..], ids);
      DeleteIdsFacts(rows[1..], ids);
      var kept := DeleteIds(rows[1..], ids);
      forall i | 0 <= i < |kept|
        ensures rows[0].entry.msg.mid != kept[i].entry.msg.mid
      {
        assert kept[i] in rows[1..];
      }
    }
  }

  lemma {:induction false} DeleteKeepsValid(t: Table, ids: set<nat>)
    requires Valid(t)
    ensures Valid(Table(DeleteIds(t.rows, ids), t.nextId))
  {
    DeleteKeepsIncreasing(t.rows, ids);
    DeleteKeepsDistinct(t.rows, ids);
    DeleteIdsFacts(t.rows, ids);
    var kept := DeleteIds(t.rows, ids);
    forall i | 0 <= i < |kept|
      ensures 1 <= kept[i].id < t.nextId
    {
      assert kept[i] in t.rows;
    }
  }

  // ---------------------------------------------------------------- logs: a table without its ids

  function Log(rows: seq<Row>): (log: seq<Entry>)
    ensures |log| == |rows|
    ensures forall i :: 0 <= i < |rows| ==> log[i] == rows[i].entry
  {
    seq(|rows|, i requires 0 <= i < |rows| => rows[i].entry)
  }

  predicate LogHas(log: seq<Entry>, mid: nat) {
    exists i :: 0 <= i < |log| && log[i].msg.mid == mid
  }

  /** The effect of an insert on the log. */
  function Add(log: seq<Entry>, e: Entry): seq<Entry> {
    if LogHas(log, e.msg.mid) then log else log + [e]
  }

  /** The effect of inserting `es` from left to right. */
  function AddAll(log: seq<Entry>, es: seq<Entry>): seq<Entry> {
    if es == [] then log else Add(AddAll(log, es[..|es| - 1]), es[|es| - 1])
  }

  lemma LogHasIsHasMid(rows: seq<Row>, mid: nat)
    ensures LogHas(Log(rows), mid) <==> mid in Mids(rows)
  {
    if LogHas(Log(rows), mid) {
      var i :| 0 <= i < |rows| && Log(rows)[i].msg.mid == mid;
      assert rows[i] in rows;
    }
    if mid in Mids(rows) {
      var r :| r in rows && r.entry.msg.mid == mid;
      var i :| 0 <= i < |rows| && rows[i] == r;
      assert Log(rows)[i].msg.mid == mid;
    }
  }

  lemma InsertOnLog(t: Table, e: Entry)
    ensures Log(Insert(t, e).rows) == Add(Log(t.rows), e)
  {
    LogHasIsHasMid(t.rows, e.msg.mid);
  }

  lemma AddKeepsHas(log: seq<Entry>, e: Entry, mid: nat)
    ensures LogHas(Add(log, e), mid) <==> LogHas(log, mid) || e.msg.mid == mid
  {
    var log' := Add(log, e);
    if LogHas(log, mid) {
      var i :| 0 <= i < |log| && log[i].msg.mid == mid;
      assert log'[i].msg.mid == mid;
    }
    if e.msg.mid == mid && !LogHas(log, mid) {
      assert log'[|log|].msg.mid == mid;
    }
  }

  lemma {:induction false} AddAllHas(log: seq<Entry>, es: seq<Entry>, mid: nat)
    ensures LogHas(AddAll(log, es), mid) <==> LogHas(log, mid) || LogHas(es, mid)
  {
    if es != [] {
      var front, last := es[..|es| - 1], es[|es| - 1];
      AddAllHas(log, front, mid);
      AddKeepsHas(AddAll(log, front), last, mid);
      assert es == front + [last];
      assert LogHas(es, mid) <==> LogHas(front, mid) || last.msg.mid == mid by {
        if LogHas(front, mid) {
          var i :| 0 <= i < |front| && front[i].msg.mid == mid;
          assert es[i].msg.mid == mid;
        }
        if last.msg.mid == mid {
          assert es[|es| - 1].msg.mid == mid;
        }
        if LogHas(es, mid) {
          var i :| 0 <= i < |es| && es[i].msg.mid == mid;
          if i < |front| {
            assert front[i].msg.mid == mid;
          }
        }
      }
    }
  }

  lemma {:induction false} AddAllConcat(log: seq<Entry>, es: seq<Entry>, fs: seq<Entry>)
    ensures AddAll(log, es + fs) == AddAll(AddAll(log, es), fs)
  {
    if fs == [] {
      assert es + fs == es;
    } else {
      var front := fs[..|fs| - 1];
      assert (es + fs)[..|es + fs| - 1] == es + front;
      AddAllConcat(log, es, front);
    }
  }

  /** Entries already present are skipped. */
  lemma {:induction false} AddAllPresent(log: seq<Entry>, es: seq<Entry>)
    requires forall e :: e in es ==> LogHas(log, e.msg.mid)
    ensures AddAll(log, es) == log
  {
    if es != [] {
      AddAllPresent(log, es[..|es| - 1]);
    }
  }

  /** Redoing a prefix of the inserts, or all of them, changes nothing. */
  lemma {:induction false} AddAllRedo(log: seq<Entry>, es: seq<Entry>, k: nat)
    requires k <= |es|
    ensures AddAll(AddAll(log, es[..k]), es) == AddAll(log, es)
  {
    var part := AddAll(log, es[..k]);
    assert es == es[..k] + es[k..];
    AddAllConcat(log, es[..k], es[k..]);
    AddAllConcat(part, es[..k], es[k..]);
    forall e | e in es[..k]
      ensures LogHas(part, e.msg.mid)
    {
      var i :| 0 <= i < k && es[i] == e;
      assert es[..k][i].msg.mid == e.msg.mid;
      AddAllHas(log, es[..k], e.msg.mid);
    }
    AddAllPresent(part, es[..k]);
  }

  // ---------------------------------------------------------------- one chat's part of a log

  function ChatLog(log: seq<Entry>, chat: ChatId): seq<Entry> {
    if log == [] then []
    else
      var front, last := ChatLog(log[..|log| - 1], chat), log[|log| - 1];
      if last.msg.chat == chat then front + [last] else front
  }

  lemma {:induction false} ChatLogConcat(a: seq<Entry>, b: seq<Entry>, chat: ChatId)
    ensures ChatLog(a + b, chat) == ChatLog(a, chat) + ChatLog(b, chat)
  {
    if b == [] {
      assert a + b == a;
    } else {
      assert (a + b)[..|a + b| - 1] == a + b[..|b| - 1];
      ChatLogConcat(a, b[..|b| - 1], chat);
    }
  }

  lemma {:induction false} ChatLogNone(log: seq<Entry>, chat: ChatId)
    requires forall e :: e in log ==> e.msg.chat != chat
    ensures ChatLog(log, chat) == []
  {
    if log != [] {
      ChatLogNone(log[..|log| - 1], chat);
    }
  }

  /** Inserting entries that are new and distinct appends exactly them, chat by chat in order. */
  lemma {:induction false} AddAllFresh(log: seq<Entry>, es: seq<Entry>)
    requires forall i :: 0 <= i < |es| ==> !LogHas(log, es[i].msg.mid)
    requires forall i, j :: 0 <= i < j < |es| ==> es[i].msg.mid != es[j].msg.mid
    ensures AddAll(log, es) == log + es
  {
    if es != [] {
      var front, last := es[..|es| - 1], es[|es| - 1];
      AddAllFresh(log, front);
      AddAllHas(log, front, last.msg.mid);
      assert es == front + [last];
    } else {
      assert log + es == log;
    }
  }

  // ---------------------------------------------------------------- counting

  function TotalRows(shards: seq<Table>): nat {
    if shards == [] then 0 else TotalRows(shards[..|shards| - 1]) + |shards[|shards| - 1].rows|
  }

  function AllMids(shards: seq<Table>): set<nat> {
    set i, r | 0 <= i < |shards| && r in shards[i].rows :: r.entry.msg.mid
  }

  lemma {:induction false} DistinctMidsCount(rows: seq<Row>)
    requires DistinctMids(rows)
    ensures |Mids(rows)| == |rows|
  {
    if rows != [] {
      var front, last := rows[..|rows| - 1], rows[|rows| - 1];
      DistinctMidsCount(front);
      assert rows == front + [last];
      assert Mids(rows) == Mids(front) + {last.entry.msg.mid};
      assert last.entry.msg.mid !in Mids(front);
    }
  }

  lemma AllMidsSplit(shards: seq<Table>)
    requires shards != []
    ensures AllMids(shards) == AllMids(shards[..|shards| - 1]) + Mids(shards[|shards| - 1].rows)
  {
    var front, last := shards[..|shards| - 1], shards[|shards| - 1];
    forall k | k in AllMids(front)
      ensures k in AllMids(shards)
    {
      var i, r :| 0 <= i < |front| && r in front[i].rows && r.entry.msg.mid == k;
      assert r in shards[i].rows;
    }
    forall k | k in AllMids(shards)
      ensures k in AllMids(front) + Mids(last.rows)
    {
      var i, r :| 0 <= i < |shards| && r in shards[i].rows && r.entry.msg.mid == k;
      if i < |front| {
        assert r in front[i].rows;
      }
    }
  }

  lemma AllMidsFrom(shards: seq<Table>, k: nat) returns (i: nat)
    requires k in AllMids(shards)
    ensures i < |shards| && k in Mids(shards[i].rows)
  {
    var j, r :| 0 <= j < |shards| && r in shards[j].rows && r.entry.msg.mid == k;
    i := j;
  }

  /** Tables that share no message hold as many rows as there are messages. */
  lemma {:induction false} DisjointTablesCount(shards: seq<Table>)
    requires forall i :: 0 <= i < |shards| ==> DistinctMids(shards[i].rows)
    requires forall i, j :: 0 <= i < j < |shards| ==> Mids(shards[i].rows) !! Mids(shards[j].rows)
    ensures TotalRows(shards) == |AllMids(shards)|
  {
    if shards != [] {
      var front, last := shards[..|shards| - 1], shards[|shards| - 1];
      DisjointTablesCount(front);
      DistinctMidsCount(last.rows);
      AllMidsSplit(shards);
      forall k | k in AllMids(front)
        ensures k !in Mids(last.rows)
      {
        var i := AllMidsFrom(front, k);
        assert Mids(shards[i].rows) !! Mids(last.rows);
      }
    }
  }

  lemma {:induction false} TotalRowsSplit(shards: seq<Table>, n: nat)
    requires n <= |shards|
    ensures TotalRows(shards) == TotalRows(shards[..n]) + TotalRows(shards[n..])
  {
    if n == |shards| {
      assert shards[..n] == shards;
    } else {
      var front := shards[..|shards| - 1];
      TotalRowsSplit(front, n);
      assert front[..n] == shards[..n];
      assert shards[n..][..|shards| - n - 1] == front[n..];
    }
  }

  lemma {:induction false} NoRows(shards: seq<Table>)
    ensures TotalRows(shards) == 0 <==> forall i :: 0 <= i < |shards| ==> shards[i].rows == []
  {
    if shards != [] {
      NoRows(shards[..|shards| - 1]);
      assert shards == shards[..|shards| - 1] + [shards[|shards| - 1]];
    }
  }
}
