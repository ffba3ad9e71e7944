/** The rows a query hands to the feed cache, and what storing them one by one does to a sorted set
    and to the stored bodies. */
module FeedRows {
  import opened FeedOrder
  import opened FeedWorld

  /** ORDER BY created_at DESC LIMIT n. */
  function NewestRows(s: set<Entry>, n: nat): (rows: seq<Entry>)
    ensures |rows| <= |s|
  {
    if n < |s| then Sorted(s)[..n] else Sorted(s)
  }

  lemma NewestRowsAreTop(s: set<Entry>, n: nat)
    ensures Elements(NewestRows(s, n)) == Top(s, n)
    ensures |NewestRows(s, n)| == |Top(s, n)|
    ensures NewestFirst(NewestRows(s, n))
  {
    TopIsPrefix(s, n);
    SortedIsNewestFirst(s);
    assert Sorted(s)[..|s|] == Sorted(s);
  }

  lemma RowsAreTop(w: World, u: nat, cap: nat, rows: seq<Entry>)
    requires rows == NewestRows(FriendPosts(w, u), cap)
    ensures Elements(rows) == Top(FriendPosts(w, u), cap) && |rows| == |Top(FriendPosts(w, u), cap)|
    ensures rows == [] <==> FriendPosts(w, u) == {} || cap == 0
    ensures forall i, j :: 0 <= i < j < |rows| ==> rows[i].pid != rows[j].pid
    ensures forall e :: e in rows ==> IsRow(w, e)
  {
    NewestRowsAreTop(FriendPosts(w, u), cap);
    FriendPostsAre(w, u);
    forall e | e in rows
      ensures IsRow(w, e)
    {
      assert e in Elements(rows);
    }
  }

  lemma FriendRows(w: World, f: nat, cap: nat, rows: seq<Entry>)
    requires rows == NewestRows(PostsOf(w, f), cap)
    ensures Elements(rows) == Top(PostsOf(w, f), cap)
    ensures rows == [] <==> Top(PostsOf(w, f), cap) == {}
    ensures forall i, j :: 0 <= i < j < |rows| ==> rows[i].pid != rows[j].pid
    ensures forall e :: e in rows ==> IsRow(w, e)
  {
    NewestRowsAreTop(PostsOf(w, f), cap);
    PostsOfAre(w, f);
    forall e | e in rows
      ensures IsRow(w, e)
    {
      assert e in Elements(rows);
    }
  }

  // ---------------------------------------------------------------- rows stored one by one

  function ZaddEach(z: set<Entry>, rows: seq<Entry>): set<Entry> {
    if rows == [] then z else Zadd(ZaddEach(z, rows[..|rows| - 1]), rows[|rows| - 1])
  }

  lemma {:induction false} ZaddEachIsZaddAll(z: set<Entry>, rows: seq<Entry>)
    requires forall i, j :: 0 <= i < j < |rows| ==> rows[i].pid != rows[j].pid
    ensures ZaddEach(z, rows) == ZaddAll(z, Elements(rows))
    ensures ZaddEach({}, rows) == Elements(rows)
  {
    if rows != [] {
      var front, last := rows[..|rows| - 1], rows[|rows| - 1];
      ZaddEachIsZaddAll(z, front);
      OneMoreElement(rows, |rows| - 1);
      assert rows[..|rows|] == rows;
    }
  }

  function PutBodies(hashes: map<nat, Post>, posts: map<nat, Post>, rows: seq<Entry>): map<nat, Post> {
    if rows == [] then hashes
    else
      var done, p := PutBodies(hashes, posts, rows[..|rows| - 1]), rows[|rows| - 1].pid;
      if p in posts then done[p := posts[p]] else done
  }

  lemma {:induction false} PutBodiesIsBodiesOf(w: World, rows: seq<Entry>)
    requires forall e :: e in rows ==> IsRow(w, e)
    ensures PutBodies(w.hashes, w.posts, rows) == w.hashes + BodiesOf(w, Elements(rows))
  {
    if rows != [] {
      var front, last := rows[..|rows| - 1], rows[|rows| - 1];
      PutBodiesIsBodiesOf(w, front);
      assert last in rows;
      OneMoreElement(rows, |rows| - 1);
      assert rows[..|rows|] == rows;
    } else {
      assert BodiesOf(w, Elements(rows)) == map[];
    }
  }

  lemma {:induction false} AddedRows(cap: nat, w: World, u: nat, f: nat, rows: seq<Entry>)
    requires rows == NewestRows(PostsOf(w, f), cap) && rows != []
    ensures var z := ZaddEach(FeedOf(w, u), rows);
            AddFriendPosts(cap, w, u, f)
            == w.(feeds := w.feeds[u := z][u := Top(z, cap)], hashes := PutBodies(w.hashes, w.posts, rows))
  {
    FriendRows(w, f, cap, rows);
    ZaddEachIsZaddAll(FeedOf(w, u), rows);
    PutBodiesIsBodiesOf(w, rows);
  }

  lemma {:induction false} RebuiltFromRows(cap: nat, w: World, u: nat, rows: seq<Entry>)
    requires rows == NewestRows(FriendPosts(w, u), cap)
    ensures ZaddEach({}, rows) == Top(FriendPosts(w, u), cap)
    ensures Rebuild(cap, w, u)
         == w.(feeds := w.feeds[u := ZaddEach({}, rows)], hashes := PutBodies(w.hashes, w.posts, rows))
  {
    RowsAreTop(w, u, cap, rows);
    ZaddEachIsZaddAll({}, rows);
    PutBodiesIsBodiesOf(w, rows);
  }

  lemma OneMoreElement<T>(q: seq<T>, i: nat)
    requires i < |q|
    ensures Elements(q[..i + 1]) == Elements(q[..i]) + {q[i]}
    ensures (forall a, b :: 0 <= a < b < |q| ==> q[a] != q[b]) ==> q[i] !in Elements(q[..i])
  {
    assert q[..i + 1] == q[..i] + [q[i]];
  }

  /** Every body was there before or is the database's. */
  ghost predicate BodiesFrom(now: map<nat, Post>, before: map<nat, Post>, posts: map<nat, Post>) {
    forall p :: p in now ==> (p in before && now[p] == before[p]) || (p in posts && now[p] == posts[p])
  }

  lemma {:induction false} PutBodiesAreFrom(w: World, rows: seq<Entry>)
    ensures BodiesFrom(PutBodies(w.hashes, w.posts, rows), w.hashes, w.posts)
  {
    if rows != [] {
      PutBodiesAreFrom(w, rows[..|rows| - 1]);
    }
  }

  lemma {:induction false} FilledOneMore(before: map<nat, Post>, now: map<nat, Post>, posts: map<nat, Post>, rows: seq<Entry>, i: nat)
    requires i < |rows| && rows[i].pid in posts
    ensures ZaddEach({}, rows[..i + 1]) == Zadd(ZaddEach({}, rows[..i]), rows[i])
    ensures PutBodies(before, posts, rows[..i + 1]) == PutBodies(before, posts, rows[..i])[rows[i].pid := posts[rows[i].pid]]
    ensures BodiesFrom(now, before, posts) ==> BodiesFrom(now[rows[i].pid := posts[rows[i].pid]], before, posts)
  {
    assert rows[..i + 1][..i] == rows[..i];
  }
}
