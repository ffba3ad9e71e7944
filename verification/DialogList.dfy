/** `PgDialogRepository.list`: the rows of one chat, newest first with the row id as tie-breaker,
    one page of them (app/dialogs/pg_repository.py). */
module DialogList {
  import opened Sharding
  import opened MessageTable
  import opened Paging

  datatype Dto = Dto(fromUser: UserId, toUser: UserId, text: string, createdAt: int)

  /** ORDER BY created_at DESC, id DESC. */
  predicate Before(a: Row, b: Row) {
    a.entry.createdAt > b.entry.createdAt || (a.entry.createdAt == b.entry.createdAt && a.id > b.id)
  }

  ghost predicate Listed(rows: seq<Row>) {
    forall i, j :: 0 <= i < j < |rows| ==> Before(rows[i], rows[j])
  }

  function Place(r: Row, listed: seq<Row>): seq<Row> {
    if listed == [] || Before(r, listed[0]) then [r] + listed
    else [listed[0]] + Place(r, listed[1..])
  }

  function OrderRows(rows: seq<Row>): seq<Row> {
    if rows == [] then [] else Place(rows[|rows| - 1], OrderRows(rows[..|rows| - 1]))
  }

  /** WHERE chat_id = $1. */
  function ChatRows(rows: seq<Row>, chat: ChatId): seq<Row> {
    if rows == [] then []
    else
      var front, last := ChatRows(rows[..|rows| - 1], chat), rows[|rows| - 1];
      if last.entry.msg.chat == chat then front + [last] else front
  }

  function ToDto(e: Entry): Dto {
    Dto(e.msg.sender, e.msg.recipient, e.msg.body, e.createdAt)
  }

  function ToDtos(log: seq<Entry>): (dtos: seq<Dto>)
    ensures |dtos| == |log|
  {
    seq(|log|, i requires 0 <= i < |log| => ToDto(log[i]))
  }

  function ListChat(t: Table, chat: ChatId, limit: nat, offset: nat): seq<Dto> {
    ToDtos(Log(Window(OrderRows(ChatRows(t.rows, chat)), offset, limit)))
  }

  // ---------------------------------------------------------------- the query's own meaning

  lemma {:induction false} ChatRowsAreTheChat(rows: seq<Row>, chat: ChatId)
    ensures forall r :: r in ChatRows(rows, chat) <==> r in rows && r.entry.msg.chat == chat
  {
    if rows != [] {
      var front, last := rows[..|rows| - 1], rows[|rows| - 1];
      ChatRowsAreTheChat(front, chat);
      assert rows == front + [last];
      assert forall r :: r in rows <==> r in front || r == last;
    }
  }

  lemma {:induction false} ChatRowsKeepOrder(rows: seq<Row>, chat: ChatId)
    requires Increasing(rows)
    ensures Increasing(ChatRows(rows, chat))
  {
    if rows != [] {
      var front, last := rows[..|rows| - 1], rows[|rows| - 1];
      ChatRowsKeepOrder(front, chat);
      ChatRowsAreTheChat(front, chat);
      var kept := ChatRows(front, chat);
      forall i | 0 <= i < |kept|
        ensures kept[i].id < last.id
      {
        assert kept[i] in front;
      }
    }
  }

  lemma {:induction false} ChatRowsLog(rows: seq<Row>, chat: ChatId)
    ensures Log(ChatRows(rows, chat)) == ChatLog(Log(rows), chat)
  {
    if rows != [] {
      var front := rows[..|rows| - 1];
      ChatRowsLog(front, chat);
      assert Log(rows)[..|rows| - 1] == Log(front);
    }
  }

  lemma {:induction false} PlaceFacts(r: Row, listed: seq<Row>)
    requires Listed(listed)
    requires forall x :: x in listed ==> x.id != r.id
    ensures Listed(Place(r, listed))
    ensures multiset(Place(r, listed)) == multiset(listed) + multiset{r}
  {
    if listed == [] || Before(r, listed[0]) {
    } else {
      var rest := listed[1..];
      PlaceFacts(r, rest);
      assert listed == [listed[0]] + rest;
      var placed := Place(r, rest);
      forall x | x in placed
        ensures Before(listed[0], x)
      {
        assert x in multiset(rest) + multiset{r};
        if x != r {
          assert x in rest;
        } else {
          assert listed[0] in listed;
        }
      }
    }
  }

  /** The order function returns the query's answer: the same rows, listed in order. */
  lemma {:induction false} OrderRowsAnswersTheQuery(rows: seq<Row>)
    requires forall i, j :: 0 <= i < j < |rows| ==> rows[i].id != rows[j].id
    ensures Listed(OrderRows(rows))
    ensures multiset(OrderRows(rows)) == multiset(rows)
  {
    if rows != [] {
      var front, last := rows[..|rows| - 1], rows[|rows| - 1];
      OrderRowsAnswersTheQuery(front);
      assert rows == front + [last];
      forall x | x in OrderRows(front)
        ensures x.id != last.id
      {
        assert x in multiset(front);
      }
      PlaceFacts(last, OrderRows(front));
    }
  }

  lemma {:induction false} FirstIsSame(a: seq<Row>, b: seq<Row>)
    requires Listed(a) && Listed(b) && multiset(a) == multiset(b) && a != []
    ensures b != [] && a[0] == b[0]
  {
    assert a[0] in multiset(b);
    assert a[0] in b;
    assert b[0] in multiset(a);
    assert b[0] in a;
  }

  lemma {:induction false} RestOfRows(a: seq<Row>)
    requires a != []
    ensures multiset(a[1..]) == multiset(a) - multiset{a[0]}
  {
    assert a == [a[0]] + a[1..];
  }

  /** There is only one answer. */
  lemma {:induction false} ListedIsUnique(a: seq<Row>, b: seq<Row>)
    requires Listed(a) && Listed(b) && multiset(a) == multiset(b)
    ensures a == b
  {
    if a == [] {
      assert |multiset(b)| == 0;
    } else {
      FirstIsSame(a, b);
      RestOfRows(a);
      RestOfRows(b);
      ListedIsUnique(a[1..], b[1..]);
      assert a == [a[0]] + a[1..] && b == [b[0]] + b[1..];
    }
  }

  // ---------------------------------------------------------------- what a page holds

  /** The item names the row's sender, recipient, text and time. */
  ghost predicate Carries(d: Dto, r: Row) {
    && d.fromUser == r.entry.msg.sender && d.toUser == r.entry.msg.recipient
    && d.text == r.entry.msg.body && d.createdAt == r.entry.createdAt
  }

  /** The rows of the chat that come before the row: later ones, and of equal time those with the larger id. */
  ghost function RowsBefore(rows: seq<Row>, chat: ChatId, r: Row): set<Row> {
    set x | x in rows && x.entry.msg.chat == chat
            && (x.entry.createdAt > r.entry.createdAt || (x.entry.createdAt == r.entry.createdAt && x.id > r.id))
  }

  /** The item at position i is that of a row of the chat with exactly offset + i rows before it, and each
      such row within the limit is listed at its position. */
  ghost predicate AnswersQuery(rows: seq<Row>, chat: ChatId, limit: nat, offset: nat, dtos: seq<Dto>) {
    && |dtos| <= limit
    && (forall i :: 0 <= i < |dtos| ==> ListsRow(rows, chat, dtos[i], offset + i))
    && (forall r :: r in rows && r.entry.msg.chat == chat ==> ListedInPlace(rows, chat, limit, offset, dtos, r))
  }

  ghost predicate ListsRow(rows: seq<Row>, chat: ChatId, d: Dto, rank: nat) {
    exists r :: r in rows && r.entry.msg.chat == chat && |RowsBefore(rows, chat, r)| == rank && Carries(d, r)
  }

  ghost predicate ListedInPlace(rows: seq<Row>, chat: ChatId, limit: nat, offset: nat, dtos: seq<Dto>, r: Row) {
    var rank := |RowsBefore(rows, chat, r)|;
    offset <= rank < offset + limit ==> rank - offset < |dtos| && Carries(dtos[rank - offset], r)
  }

  lemma {:induction false} DistinctRowCount(q: seq<Row>)
    requires Listed(q)
    ensures |set x | x in q| == |q|
  {
    if q != [] {
      var front, last := q[..|q| - 1], q[|q| - 1];
      DistinctRowCount(front);
      assert q == front + [last];
      assert (set x | x in q) == (set x | x in front) + {last};
      assert last !in front;
    }
  }

  /** The row at position i of an ordered listing has exactly i rows before it. */
  lemma {:induction false} ListedRank(rows: seq<Row>, chat: ChatId, q: seq<Row>, i: nat)
    requires Listed(q) && i < |q|
    requires forall r :: r in q <==> r in rows && r.entry.msg.chat == chat
    ensures |RowsBefore(rows, chat, q[i])| == i
  {
    var front := q[..i];
    DistinctRowCount(front);
    forall x | x in RowsBefore(rows, chat, q[i])
      ensures x in front
    {
      var k :| 0 <= k < |q| && q[k] == x;
      assert k < i ==> front[k] == x;
    }
    forall x | x in front
      ensures x in RowsBefore(rows, chat, q[i])
    {
      var k :| 0 <= k < i && front[k] == x;
      assert q[k] == x && q[k] in q;
    }
    assert RowsBefore(rows, chat, q[i]) == set x | x in front;
  }

  lemma {:induction false} QueryRows(rows: seq<Row>, chat: ChatId)
    requires Increasing(rows)
    ensures Listed(OrderRows(ChatRows(rows, chat)))
    ensures forall r :: r in OrderRows(ChatRows(rows, chat)) <==> r in rows && r.entry.msg.chat == chat
  {
    var kept := ChatRows(rows, chat);
    ChatRowsAreTheChat(rows, chat);
    ChatRowsKeepOrder(rows, chat);
    OrderRowsAnswersTheQuery(kept);
    assert forall r :: r in OrderRows(kept) <==> r in multiset(kept);
  }

  lemma {:induction false} ListedItems(t: Table, chat: ChatId, limit: nat, offset: nat, q: seq<Row>)
    requires q == OrderRows(ChatRows(t.rows, chat))
    ensures var dtos := ListChat(t, chat, limit, offset);
            && |dtos| <= limit
            && (forall i :: 0 <= i < |dtos| ==> offset + i < |q| && Carries(dtos[i], q[offset + i]))
            && (|dtos| == limit || |q| <= offset + |dtos|)
  {
    WindowIs(q, offset, limit);
  }

  /** Every page of a listing answers its query: each item carries the fields of the row at its rank, and
      no row within the limit is left out. */
  lemma {:induction false} ListChatAnswers(t: Table, chat: ChatId, limit: nat, offset: nat)
    requires Increasing(t.rows)
    ensures AnswersQuery(t.rows, chat, limit, offset, ListChat(t, chat, limit, offset))
  {
    var q, dtos := OrderRows(ChatRows(t.rows, chat)), ListChat(t, chat, limit, offset);
    QueryRows(t.rows, chat);
    ListedItems(t, chat, limit, offset, q);
    forall i | 0 <= i < |dtos|
      ensures ListsRow(t.rows, chat, dtos[i], offset + i)
    {
      ListedRank(t.rows, chat, q, offset + i);
      assert q[offset + i] in q;
    }
    forall r | r in t.rows && r.entry.msg.chat == chat
      ensures ListedInPlace(t.rows, chat, limit, offset, dtos, r)
    {
      var k :| 0 <= k < |q| && q[k] == r;
      ListedRank(t.rows, chat, q, k);
    }
  }

  // ---------------------------------------------------------------- a listing does not depend on ids

  lemma {:induction false} PlaceInParallel(r: Row, a: seq<Row>, s: Row, b: seq<Row>)
    requires r.entry == s.entry && |a| == |b|
    requires forall i :: 0 <= i < |a| ==> a[i].entry == b[i].entry
    requires forall i :: 0 <= i < |a| ==> a[i].id < r.id && b[i].id < s.id
    ensures |Place(r, a)| == |Place(s, b)|
    ensures forall i :: 0 <= i < |Place(r, a)| ==> Place(r, a)[i].entry == Place(s, b)[i].entry
  {
    if a != [] && !Before(r, a[0]) {
      PlaceInParallel(r, a[1..], s, b[1..]);
    }
  }

  lemma {:induction false} OrderInParallel(a: seq<Row>, b: seq<Row>)
    requires Increasing(a) && Increasing(b) && Log(a) == Log(b)
    ensures Log(OrderRows(a)) == Log(OrderRows(b))
  {
    assert |a| == |Log(a)| == |Log(b)| == |b|;
    if a != [] {
      var fa, fb := a[..|a| - 1], b[..|b| - 1];
      assert Log(fa) == Log(a)[..|a| - 1] == Log(b)[..|b| - 1] == Log(fb);
      OrderInParallel(fa, fb);
      OrderRowsAnswersTheQuery(fa);
      OrderRowsAnswersTheQuery(fb);
      forall x | x in OrderRows(fa)
        ensures x.id < a[|a| - 1].id
      {
        assert x in multiset(fa);
      }
      forall x | x in OrderRows(fb)
        ensures x.id < b[|b| - 1].id
      {
        assert x in multiset(fb);
      }
      assert Log(a)[|a| - 1] == Log(b)[|b| - 1];
      var oa, ob := OrderRows(fa), OrderRows(fb);
      assert |oa| == |Log(oa)| == |Log(ob)| == |ob|;
      forall i | 0 <= i < |oa|
        ensures oa[i].entry == ob[i].entry
        ensures oa[i].id < a[|a| - 1].id && ob[i].id < b[|b| - 1].id
      {
        assert oa[i].entry == Log(oa)[i] == Log(ob)[i] == ob[i].entry;
        assert oa[i] in oa && ob[i] in ob;
      }
      PlaceInParallel(a[|a| - 1], OrderRows(fa), b[|b| - 1], OrderRows(fb));
    }
  }

  lemma LogOfWindow(rows: seq<Row>, offset: nat, limit: nat)
    ensures Log(Window(rows, offset, limit)) == Window(Log(rows), offset, limit)
  {
  }

  /** Two tables that hold the same entries of a chat in the same order of arrival answer every
      page of its listing alike, whatever their local ids are. */
  lemma {:induction false} ListingNeedsOnlyTheLog(t: Table, u: Table, chat: ChatId, limit: nat, offset: nat)
    requires Increasing(t.rows) && Increasing(u.rows)
    requires ChatLog(Log(t.rows), chat) == ChatLog(Log(u.rows), chat)
    ensures ListChat(t, chat, limit, offset) == ListChat(u, chat, limit, offset)
  {
    var a, b := ChatRows(t.rows, chat), ChatRows(u.rows, chat);
    ChatRowsKeepOrder(t.rows, chat);
    ChatRowsKeepOrder(u.rows, chat);
    ChatRowsLog(t.rows, chat);
    ChatRowsLog(u.rows, chat);
    OrderInParallel(a, b);
    LogOfWindow(OrderRows(a), offset, limit);
    LogOfWindow(OrderRows(b), offset, limit);
  }

  // ---------------------------------------------------------------- isolation of dialogs

  /** The message is filed under the chat key of its own two users. */
  ghost predicate Filed(hash: seq<byte> -> ChatId, msg: Msg) {
    msg.chat == ComputeChatId(hash, msg.sender, msg.recipient)
  }

  ghost predicate AllFiled(hash: seq<byte> -> ChatId, rows: seq<Row>) {
    forall r :: r in rows ==> Filed(hash, r.entry.msg)
  }

  /** Both users see the same listing, and every message in it is between the two of them. */
  lemma ListingIsTheDialog(hash: seq<byte> -> ChatId, t: Table, a: UserId, b: UserId, limit: nat, offset: nat)
    requires CollisionFree(hash) && AllFiled(hash, t.rows) && Increasing(t.rows)
    ensures ListChat(t, ComputeChatId(hash, a, b), limit, offset)
         == ListChat(t, ComputeChatId(hash, b, a), limit, offset)
    ensures forall d :: d in ListChat(t, ComputeChatId(hash, a, b), limit, offset) ==>
              {d.fromUser, d.toUser} == {a, b} && exists r :: r in t.rows && Carries(d, r)
  {
    PayloadNamesThePair(a, b, b, a);
    var chat := ComputeChatId(hash, a, b);
    ListChatAnswers(t, chat, limit, offset);
    forall d | d in ListChat(t, chat, limit, offset)
      ensures {d.fromUser, d.toUser} == {a, b} && exists r :: r in t.rows && Carries(d, r)
    {
      var listed := ListChat(t, chat, limit, offset);
      var i :| 0 <= i < |listed| && d == listed[i];
      assert ListsRow(t.rows, chat, listed[i], offset + i);
      var r :| r in t.rows && r.entry.msg.chat == chat && |RowsBefore(t.rows, chat, r)| == offset + i && Carries(d, r);
      assert Filed(hash, r.entry.msg);
      ChatIdNamesThePair(hash, r.entry.msg.sender, r.entry.msg.recipient, a, b);
    }
  }

  // ---------------------------------------------------------------- dual-written messages

  function MidsOf(rows: seq<Row>): (mids: seq<nat>) {
    seq(|rows|, i requires 0 <= i < |rows| => rows[i].entry.msg.mid)
  }

  /** The messages of a listing, in its order. */
  function ListedMids(t: Table, chat: ChatId): (mids: seq<nat>) {
    MidsOf(OrderRows(ChatRows(t.rows, chat)))
  }

  /** Any two messages are ordered alike by their rows in `x` and by their rows in `y`. */
  ghost predicate OrderedAlike(x: seq<Row>, y: seq<Row>) {
    forall a, b, c, d ::
      a in x && b in x && c in y && d in y && a.entry.msg.mid == c.entry.msg.mid && b.entry.msg.mid == d.entry.msg.mid
      ==> (Before(a, b) <==> Before(c, d))
  }

  lemma {:induction false} IndexOfMid(x: seq<Row>, mid: nat) returns (i: nat)
    requires mid in Mids(x)
    ensures i < |x| && x[i].entry.msg.mid == mid
  {
    var r := RowOfMid(x, mid);
    i :| 0 <= i < |x| && x[i] == r;
  }

  lemma {:induction false} OrderedAt(x: seq<Row>, y: seq<Row>, i: nat, k: nat, j: nat, l: nat)
    requires OrderedAlike(x, y) && i < |x| && k < |x| && j < |y| && l < |y|
    requires x[i].entry.msg.mid == y[j].entry.msg.mid && x[k].entry.msg.mid == y[l].entry.msg.mid
    ensures Before(x[i], x[k]) <==> Before(y[j], y[l])
  {
    assert x[i] in x && x[k] in x && y[j] in y && y[l] in y;
  }

  /** Two listings of the same messages that order them alike agree at each position. */
  lemma {:induction false} PositionListsTheSame(x: seq<Row>, y: seq<Row>, i: nat)
    requires Listed(x) && Listed(y) && DistinctMids(x) && DistinctMids(y) && Mids(x) == Mids(y)
    requires OrderedAlike(x, y) && i < |x| == |y|
    requires forall k :: 0 <= k < i ==> x[k].entry.msg.mid == y[k].entry.msg.mid
    ensures x[i].entry.msg.mid == y[i].entry.msg.mid
  {
    MidOfRow(x, x[i]);
    MidOfRow(y, y[i]);
    var j := IndexOfMid(y, x[i].entry.msg.mid);
    var k := IndexOfMid(x, y[i].entry.msg.mid);
    LaterMatch(x, y, i, j);
    LaterMatch(y, x, i, k);
    if j != i {
      OrderedAt(x, y, i, k, j, i);
      BeforeIsPosition(x, i, k);
      BeforeIsPosition(y, j, i);
    }
  }

  lemma {:induction false} LaterMatch(x: seq<Row>, y: seq<Row>, i: nat, j: nat)
    requires DistinctMids(x) && i < |x| == |y| && j < |y|
    requires forall k :: 0 <= k < i ==> x[k].entry.msg.mid == y[k].entry.msg.mid
    requires x[i].entry.msg.mid == y[j].entry.msg.mid
    ensures i <= j
  {
  }

  lemma {:induction false} AlikeListsTheSame(x: seq<Row>, y: seq<Row>)
    requires Listed(x) && Listed(y) && DistinctMids(x) && DistinctMids(y) && Mids(x) == Mids(y)
    requires OrderedAlike(x, y)
    ensures MidsOf(x) == MidsOf(y)
  {
    DistinctMidsCount(x);
    DistinctMidsCount(y);
    for i := 0 to |x|
      invariant forall k :: 0 <= k < i ==> x[k].entry.msg.mid == y[k].entry.msg.mid
    {
      PositionListsTheSame(x, y, i);
    }
  }

  lemma {:induction false} SameListIsAlike(x: seq<Row>, y: seq<Row>)
    requires Listed(x) && Listed(y) && DistinctMids(x) && DistinctMids(y)
    requires MidsOf(x) == MidsOf(y)
    ensures OrderedAlike(x, y)
  {
    assert |x| == |MidsOf(x)| == |MidsOf(y)| == |y|;
    assert forall i :: 0 <= i < |x| ==> x[i].entry.msg.mid == MidsOf(x)[i] == MidsOf(y)[i] == y[i].entry.msg.mid;
    forall a, b, c, d |
      a in x && b in x && c in y && d in y && a.entry.msg.mid == c.entry.msg.mid && b.entry.msg.mid == d.entry.msg.mid
      ensures Before(a, b) <==> Before(c, d)
    {
      var i :| 0 <= i < |x| && x[i] == a;
      var j :| 0 <= j < |x| && x[j] == b;
      assert y[i] == c && y[j] == d;
      BeforeIsPosition(x, i, j);
      BeforeIsPosition(y, i, j);
    }
  }

  lemma {:induction false} BeforeIsPosition(x: seq<Row>, i: nat, j: nat)
    requires Listed(x) && i < |x| && j < |x|
    ensures Before(x[i], x[j]) <==> i < j
  {
  }

  lemma {:induction false} ChatMidsDistinct(rows: seq<Row>, chat: ChatId)
    requires DistinctMids(rows)
    ensures DistinctMids(ChatRows(rows, chat))
  {
    if rows != [] {
      var front, last := rows[..|rows| - 1], rows[|rows| - 1];
      ChatMidsDistinct(front, chat);
      ChatRowsAreTheChat(front, chat);
      var kept := ChatRows(front, chat);
      forall i | 0 <= i < |kept|
        ensures kept[i].entry.msg.mid != last.entry.msg.mid
      {
        assert kept[i] in front;
      }
    }
  }

  lemma {:induction false} SameRowsDistinct(x: seq<Row>, q: seq<Row>)
    requires DistinctMids(x) && Listed(q) && forall r :: r in q ==> r in x
    ensures DistinctMids(q)
  {
    forall i, j | 0 <= i < j < |q|
      ensures q[i].entry.msg.mid != q[j].entry.msg.mid
    {
      assert q[i] in x && q[j] in x && Before(q[i], q[j]);
    }
  }

  /** The listing of a chat: its rows, each message once, in the query's order. */
  lemma {:induction false} ChatListing(t: Table, chat: ChatId)
    requires Valid(t)
    ensures var rows, q := ChatRows(t.rows, chat), OrderRows(ChatRows(t.rows, chat));
            && Listed(q) && DistinctMids(q) && Mids(q) == Mids(rows)
            && (forall r :: r in q <==> r in rows)
  {
    var rows, q := ChatRows(t.rows, chat), OrderRows(ChatRows(t.rows, chat));
    ChatRowsKeepOrder(t.rows, chat);
    ChatMidsDistinct(t.rows, chat);
    OrderRowsAnswersTheQuery(rows);
    SameMembers(q, rows);
    SameRowsDistinct(rows, q);
  }

  lemma {:induction false} SameMembers(x: seq<Row>, y: seq<Row>)
    requires multiset(x) == multiset(y)
    ensures (forall r :: r in x <==> r in y) && Mids(x) == Mids(y)
  {
    assert forall r :: r in x <==> r in multiset(x);
    assert forall r :: r in y <==> r in multiset(y);
  }

  /** Two shards that hold the same messages of a dialog, each with its own stamps and ids, list them
      in the same order exactly when, for every two of the messages, the shards agree on which is
      newer by stamp and then by id. */
  lemma {:induction false} ShardsListAlike(t: Table, u: Table, chat: ChatId)
    requires Valid(t) && Valid(u)
    requires Mids(ChatRows(t.rows, chat)) == Mids(ChatRows(u.rows, chat))
    ensures ListedMids(t, chat) == ListedMids(u, chat)
       <==> OrderedAlike(ChatRows(t.rows, chat), ChatRows(u.rows, chat))
  {
    var x, y := OrderRows(ChatRows(t.rows, chat)), OrderRows(ChatRows(u.rows, chat));
    ChatListing(t, chat);
    ChatListing(u, chat);
    assert OrderedAlike(x, y) <==> OrderedAlike(ChatRows(t.rows, chat), ChatRows(u.rows, chat));
    if MidsOf(x) == MidsOf(y) {
      SameListIsAlike(x, y);
    }
    if OrderedAlike(x, y) {
      AlikeListsTheSame(x, y);
    }
  }

  /** Two messages that reached a shard in a given order, with the shard's own stamps: the first is
      listed above the second exactly if its stamp is later, or equal and it arrived second. */
  datatype Arrival = Arrival(timeA: int, timeB: int, aFirst: bool)

  predicate NewerA(x: Arrival) {
    x.timeA > x.timeB || (x.timeA == x.timeB && !x.aFirst)
  }

  /** A shard after the two inserts. */
  function Arrived(t: Table, a: Msg, b: Msg, x: Arrival): Table {
    if x.aFirst then Insert(Insert(t, Entry(a, x.timeA)), Entry(b, x.timeB))
    else Insert(Insert(t, Entry(b, x.timeB)), Entry(a, x.timeA))
  }

  lemma {:induction false} InsertNew(t: Table, e: Entry, chat: ChatId)
    requires Valid(t) && !HasMid(t, e.msg.mid) && e.msg.chat == chat
    ensures Valid(Insert(t, e)) && Insert(t, e).nextId == t.nextId + 1
    ensures Mids(Insert(t, e).rows) == Mids(t.rows) + {e.msg.mid}
    ensures ChatRows(Insert(t, e).rows, chat) == ChatRows(t.rows, chat) + [Row(t.nextId, e)]
  {
    InsertFacts(t, e);
    assert (t.rows + [Row(t.nextId, e)])[..|t.rows|] == t.rows;
  }

  /** The rows of the two messages, in order of arrival. */
  function TwoRows(a: Msg, b: Msg, x: Arrival): (rows: seq<Row>)
    ensures |rows| == 2
  {
    if x.aFirst then [Row(1, Entry(a, x.timeA)), Row(2, Entry(b, x.timeB))]
    else [Row(1, Entry(b, x.timeB)), Row(2, Entry(a, x.timeA))]
  }

  lemma {:induction false} TwoInserted(first: Entry, second: Entry)
    requires first.msg.mid != second.msg.mid && first.msg.chat == second.msg.chat
    ensures var t := Insert(Insert(EMPTY, first), second);
            Valid(t) && ChatRows(t.rows, first.msg.chat) == [Row(1, first), Row(2, second)]
  {
    InsertNew(EMPTY, first, first.msg.chat);
    InsertNew(Insert(EMPTY, first), second, first.msg.chat);
  }

  lemma {:induction false} ArrivedRows(a: Msg, b: Msg, x: Arrival)
    requires a.mid != b.mid && a.chat == b.chat
    ensures Valid(Arrived(EMPTY, a, b, x))
    ensures ChatRows(Arrived(EMPTY, a, b, x).rows, a.chat) == TwoRows(a, b, x)
  {
    if x.aFirst {
      TwoInserted(Entry(a, x.timeA), Entry(b, x.timeB));
    } else {
      TwoInserted(Entry(b, x.timeB), Entry(a, x.timeA));
    }
  }

  lemma {:induction false} TwoMids(a: Msg, b: Msg, x: Arrival)
    ensures Mids(TwoRows(a, b, x)) == {a.mid, b.mid}
  {
    var rows := TwoRows(a, b, x);
    assert rows[0] in rows && rows[1] in rows;
  }

  lemma {:induction false} TwoAlike(a: Msg, b: Msg, x: Arrival, y: Arrival)
    requires a.mid != b.mid
    ensures OrderedAlike(TwoRows(a, b, x), TwoRows(a, b, y)) <==> (NewerA(x) <==> NewerA(y))
  {
    var p, q := TwoRows(a, b, x), TwoRows(a, b, y);
    var ia, ja := if x.aFirst then 0 else 1, if y.aFirst then 0 else 1;
    assert Before(p[ia], p[1 - ia]) <==> NewerA(x);
    assert Before(q[ja], q[1 - ja]) <==> NewerA(y);
    if OrderedAlike(p, q) {
      OrderedAt(p, q, ia, 1 - ia, ja, 1 - ja);
    }
  }

  /** So two dual-written messages, inserted one shard at a time and stamped by each shard, are listed
      alike on the old and the new shard exactly when both shards find the same one newer. Sends that
      interleave can arrive in opposite orders. */
  lemma {:induction false} DualWriteKeepsOrder(a: Msg, b: Msg, onOld: Arrival, onNew: Arrival)
    requires a.mid != b.mid && a.chat == b.chat
    ensures ListedMids(Arrived(EMPTY, a, b, onOld), a.chat) == ListedMids(Arrived(EMPTY, a, b, onNew), a.chat)
       <==> (NewerA(onOld) <==> NewerA(onNew))
  {
    ArrivedRows(a, b, onOld);
    ArrivedRows(a, b, onNew);
    TwoMids(a, b, onOld);
    TwoMids(a, b, onNew);
    ShardsListAlike(Arrived(EMPTY, a, b, onOld), Arrived(EMPTY, a, b, onNew), a.chat);
    TwoAlike(a, b, onOld, onNew);
  }

  /** As when both shards give both messages the same stamp. */
  lemma {:induction false} OppositeArrivalsReorder(a: Msg, b: Msg, time: int)
    requires a.mid != b.mid && a.chat == b.chat
    ensures ListedMids(Arrived(EMPTY, a, b, Arrival(time, time, true)), a.chat)
         != ListedMids(Arrived(EMPTY, a, b, Arrival(time, time, false)), a.chat)
  {
    DualWriteKeepsOrder(a, b, Arrival(time, time, true), Arrival(time, time, false));
  }
}
