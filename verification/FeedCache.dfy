/** The functions of app/feed_cache.py and the request handlers over them, as they change Redis and
    the database in place, each against the effect FeedWorld gives it. */
module FeedCache {
  import opened FeedOrder
  import opened FeedWorld
  import opened FeedRows
  import opened FeedRebuild
  import opened FeedReads

  class Feeds {
    // the database
    var users: set<nat>
    var posts: map<nat, Post>
    var friends: set<(nat, nat)>
    // Redis: feed:{user}, post:{id}, and the temporary key of a rebuild
    var feeds: map<nat, set<Entry>>
    var hashes: map<nat, Post>
    var temp: set<Entry>

    function W(): World
      reads this
    {
      World(users, posts, friends, feeds, hashes)
    }

    /** `fan_out_post`. */
    method FanOutPost(cap: nat, e: Entry, author: nat)
      modifies this`feeds
      ensures W() == FanOut(cap, old(W()), e, author)
    {
      var followers := Enumerate(Followers(W(), author));
      ghost var before := W();
      for i := 0 to |followers|
        invariant feeds == FanOutEach(cap, before.feeds, e, followers[..i])
      {
        var u := followers[i];
        FanOutEachNext(cap, before.feeds, e, followers, i);
        var z := Zadd(if u in feeds then feeds[u] else {}, e);
        feeds := feeds[u := z];
        feeds := feeds[u := Top(z, cap)];
      }
      assert followers[..|followers|] == followers;
      FanOutEachIsFanOut(cap, before, e, followers);
    }

    /** `remove_post_from_all_feeds`. */
    method RemovePostFromAllFeeds(p: nat, author: nat)
      modifies this`feeds
      ensures W() == FanRemove(old(W()), p, author)
    {
      var followers := Enumerate(Followers(W(), author));
      ghost var before := W();
      for i := 0 to |followers|
        invariant feeds == FanRemoveEach(before.feeds, p, followers[..i])
      {
        var u := followers[i];
        assert followers[..i + 1][..i] == followers[..i];
        feeds := feeds[u := Zrem(if u in feeds then feeds[u] else {}, p)];
      }
      assert followers[..|followers|] == followers;
      FanRemoveEachIsFanRemove(before, p, followers);
    }

    /** `add_friend_posts_to_feed`. */
    method AddFriendPostsToFeed(cap: nat, u: nat, f: nat)
      modifies this`feeds, this`hashes
      ensures W() == AddFriendPosts(cap, old(W()), u, f)
    {
      var rows := NewestRows(PostsOf(W(), f), cap);
      ghost var before := W();
      FriendRows(before, f, cap, rows);
      if rows == [] {
        return;
      }
      StoreRowsOf(u, rows);
      feeds := feeds[u := Top(feeds[u], cap)];
      AddedRows(cap, before, u, f, rows);
    }

    /** The pipeline of `add_friend_posts_to_feed`: one ZADD and one HSET per row. */
    method StoreRowsOf(u: nat, rows: seq<Entry>)
      requires rows != [] && forall e :: e in rows ==> e.pid in posts
      modifies this`feeds, this`hashes
      ensures feeds == old(feeds)[u := ZaddEach(FeedOf(old(W()), u), rows)]
      ensures hashes == PutBodies(old(hashes), posts, rows)
    {
      ghost var feed := FeedOf(W(), u);
      for i := 0 to |rows|
        invariant feeds == if i == 0 then old(feeds) else old(feeds)[u := ZaddEach(feed, rows[..i])]
        invariant hashes == PutBodies(old(hashes), posts, rows[..i])
      {
        var row := rows[i];
        assert rows[..i + 1][..i] == rows[..i];
        assert row in rows;
        feeds := feeds[u := Zadd(if u in feeds then feeds[u] else {}, row)];
        assert feeds == old(feeds)[u := ZaddEach(feed, rows[..i + 1])];
        hashes := hashes[row.pid := posts[row.pid]];
      }
      assert rows[..|rows|] == rows;
    }

    /** `remove_friend_posts_from_feed`: authors are looked up in the stored bodies. */
    method RemoveFriendPostsFromFeed(u: nat, f: nat)
      modifies this`feeds
      ensures W() == SetFeed(old(W()), u, FeedOf(old(W()), u) - ByHash(old(W()), FeedOf(old(W()), u), f))
    {
      var toRemove := WrittenBy(Sorted(FeedOf(W(), u)), f);
      assert Elements(Sorted(FeedOf(W(), u))) == FeedOf(W(), u);
      feeds := feeds[u := FeedOf(W(), u) - toRemove];
    }

    /** The ids whose stored body names `f` as the author. */
    method WrittenBy(ids: seq<Entry>, f: nat) returns (found: set<Entry>)
      ensures found == ByHash(W(), Elements(ids), f)
    {
      found := {};
      for i := 0 to |ids|
        invariant found == ByHash(W(), Elements(ids[..i]), f)
      {
        OneMoreElement(ids, i);
        if ids[i].pid in hashes && hashes[ids[i].pid].author == f {
          found := found + {ids[i]};
        }
      }
      assert ids[..|ids|] == ids;
    }

    /** `rebuild_feed_for_user`, where command number k reports an error, without taking effect, if
        `errs(k)`. `trace` lists the states between its commands, which follow the command relation of
        FeedRebuild from the state at the call to the state at the end. */
    method RebuildFeedForUser(cap: nat, u: nat, errs: nat -> bool)
      returns (loaded: nat, failed: bool, ghost trace: seq<Progress>)
      requires temp == {}
      modifies this`feeds, this`hashes, this`temp
      ensures temp == {}
      ensures !failed ==> W() == Rebuild(cap, old(W()), u)
      ensures !failed ==> loaded == |Top(FriendPosts(old(W()), u), cap)|
      ensures failed ==> feeds == old(feeds) && BodiesFrom(hashes, old(hashes), posts)
      ensures var n := |Top(FriendPosts(old(W()), u), cap)|;
              failed <==> n > 0 && AnyError(errs, 2 * n + 1)
      ensures RebuildRun(u, NewestRows(FriendPosts(old(W()), u), cap), trace)
      ensures trace[0] == Begin(old(W())) && Ended(trace, W(), failed)
    {
      var rows := NewestRows(FriendPosts(W(), u), cap);
      RowsAreTop(W(), u, cap, rows);
      RebuiltFromRows(cap, W(), u, rows);
      if rows == [] {
        assert Rebuild(cap, W(), u) == W().(feeds := feeds[u := {}]);
        trace := ClearFeed(u);
        loaded, failed := 0, false;
      } else {
        loaded, failed, trace := ReplaceFeed(u, rows, errs);
      }
    }

    /** Nothing to show: DEL of the feed. */
    method ClearFeed(u: nat) returns (ghost trace: seq<Progress>)
      requires temp == {}
      modifies this`feeds
      ensures W() == old(W()).(feeds := old(feeds)[u := {}])
      ensures RebuildRun(u, [], trace)
      ensures trace[0] == Begin(old(W())) && Ended(trace, W(), false)
    {
      trace := [Begin(W())];
      feeds := feeds[u := {}];
      trace := Then(u, [], trace, Progress(W(), {}, Finished(true), true, false));
    }

    /** Fill the temporary key, RENAME it over the feed, and drop it in any case. */
    method ReplaceFeed(u: nat, rows: seq<Entry>, errs: nat -> bool)
      returns (loaded: nat, failed: bool, ghost trace: seq<Progress>)
      requires temp == {} && rows != []
      requires forall e :: e in rows ==> e.pid in posts
      modifies this`feeds, this`hashes, this`temp
      ensures temp == {} && loaded == |rows|
      ensures !failed ==>
                W() == old(W()).(feeds := old(feeds)[u := ZaddEach({}, rows)], hashes := PutBodies(old(hashes), posts, rows))
      ensures failed ==> feeds == old(feeds) && BodiesFrom(hashes, old(hashes), posts)
      ensures failed <==> AnyError(errs, 2 * |rows| + 1)
      ensures RebuildRun(u, rows, trace)
      ensures trace[0] == Begin(old(W())) && Ended(trace, W(), failed)
    {
      failed, trace := FillTemp(u, rows, errs);
      OneMoreCommand(errs, 2 * |rows|);
      loaded := |rows|;
      if failed || errs(2 * |rows|) {
        trace := Then(u, rows, trace, trace[|trace| - 1].(stage := Failed));
        failed := true;
        temp := {};
        trace := Then(u, rows, trace, Progress(W(), {}, Finished(false), false, trace[|trace| - 1].broken));
        return;
      }
      feeds, temp := feeds[u := temp], {};
      trace := Then(u, rows, trace, Progress(W(), {}, Renamed, true, false));
      temp := {};
      trace := Then(u, rows, trace, Progress(W(), {}, Finished(true), true, false));
    }

    /** The pipeline of a rebuild: one ZADD to the temporary key and one HSET per row, all of them sent
        whatever the others report. */
    method FillTemp(u: nat, rows: seq<Entry>, errs: nat -> bool) returns (failed: bool, ghost trace: seq<Progress>)
      requires temp == {} && rows != []
      requires forall e :: e in rows ==> e.pid in posts
      modifies this`hashes, this`temp
      ensures BodiesFrom(hashes, old(hashes), posts)
      ensures failed <==> AnyError(errs, 2 * |rows|)
      ensures !failed ==> hashes == PutBodies(old(hashes), posts, rows) && temp == ZaddEach({}, rows)
      ensures RebuildRun(u, rows, trace) && trace[0] == Begin(old(W()))
      ensures trace[|trace| - 1] == Progress(W(), temp, Filling(|rows|), false, failed)
    {
      trace := [Begin(W())];
      failed := false;
      ghost var start := W();
      for i := 0 to |rows|
        invariant posts == start.posts && FilledTo(start, u, rows, errs, i, W(), temp, failed, trace)
      {
        ghost var w, t, f, ss := W(), temp, failed, trace;
        assert rows[i] in rows;
        failed, trace := SendRow(u, rows, i, errs, failed, trace);
        FilledNext(start, u, rows, errs, i, w, t, f, ss, W(), temp, failed, trace);
      }
      assert rows[..|rows|] == rows;
    }

    /** The two commands of one row. */
    method SendRow(u: nat, rows: seq<Entry>, i: nat, errs: nat -> bool, failedBefore: bool, ghost before: seq<Progress>)
      returns (failed: bool, ghost trace: seq<Progress>)
      requires i < |rows| && rows[i].pid in posts
      requires RebuildRun(u, rows, before) && before[|before| - 1] == Progress(W(), temp, Filling(i), false, failedBefore)
      modifies this`hashes, this`temp
      ensures temp == if errs(2 * i) then old(temp) else Zadd(old(temp), rows[i])
      ensures hashes == if errs(2 * i + 1) then old(hashes) else old(hashes)[rows[i].pid := posts[rows[i].pid]]
      ensures failed == (failedBefore || errs(2 * i) || errs(2 * i + 1))
      ensures RebuildRun(u, rows, trace) && trace[0] == before[0]
      ensures trace[|trace| - 1] == Progress(W(), temp, Filling(i + 1), false, failed)
    {
      failed := failedBefore || errs(2 * i);
      if !errs(2 * i) {
        temp := Zadd(temp, rows[i]);
      }
      trace := Then(u, rows, before, Progress(W(), temp, Storing(i), false, failed));
      if !errs(2 * i + 1) {
        hashes := hashes[rows[i].pid := posts[rows[i].pid]];
      }
      failed := failed || errs(2 * i + 1);
      trace := Then(u, rows, trace, Progress(W(), temp, Filling(i + 1), false, failed));
    }

    /** `read_feed`. */
    method ReadFeed(cap: nat, u: nat, offset: nat, limit: nat) returns (result: seq<Item>)
      requires temp == {} && limit >= 1
      modifies this`feeds, this`hashes, this`temp
      ensures temp == {}
      ensures (W(), result) == FeedWorld.ReadFeed(cap, old(W()), u, offset, limit)
      ensures forall removed: nat ::
                && GoodFeed(cap, old(W()), u, removed)
                && offset + limit <= Less(cap, if FeedOf(old(W()), u) == {} then 0 else removed) ==>
                ShowsByRank(old(W()), u, offset, limit, result)
    {
      if FeedOf(W(), u) == {} {
        var _, _, _ := RebuildFeedForUser(cap, u, k => false);
      }
      var page := Zrevrange(FeedOf(W(), u), offset, limit);
      var stale;
      result, stale := LoadBodies(page);
      feeds := feeds[u := FeedOf(W(), u) - stale];
      ReadsShowByRank(cap, old(W()), u, offset, limit);
    }

    /** The bodies of a page of ids, and the ids that have none. */
    method LoadBodies(page: seq<Entry>) returns (result: seq<Item>, stale: set<Entry>)
      ensures result == Bodies(W(), page) && stale == Stale(W(), page)
    {
      result, stale := [], {};
      for i := 0 to |page|
        invariant result == Bodies(W(), page[..i])
        invariant stale == Stale(W(), page[..i])
      {
        assert page[..i + 1][..i] == page[..i];
        assert page[..i + 1] == page[..i] + [page[i]];
        if page[i].pid !in hashes {
          stale := stale + {page[i]};
        } else {
          var body := hashes[page[i].pid];
          result := result + [Item(page[i].pid, body.text, body.author)];
        }
      }
      assert page[..|page|] == page;
    }

    // -------------------------------------------------------------- request handlers

    /** `create_post`: row, then body, then fan-out. The id and time come from the database. */
    method CreatePost(cap: nat, p: nat, author: nat, text: string, at: int)
      requires p !in posts
      modifies this`posts, this`hashes, this`feeds
      ensures W() == FeedWorld.CreatePost(cap, old(W()), p, author, text, at)
      ensures posts == old(posts)[p := Post(author, text, at)] && hashes == old(hashes)[p := Post(author, text, at)]
    {
      posts := posts[p := Post(author, text, at)];
      hashes := hashes[p := Post(author, text, at)];
      FanOutPost(cap, Entry(at, p), author);
    }

    /** `update_post`: row, then body; refused for a post that is not the user's. */
    method UpdatePost(p: nat, user: nat, text: string) returns (ok: bool)
      modifies this`posts, this`hashes
      ensures ok == Owns(old(W()), p, user)
      ensures W() == FeedWorld.UpdatePost(old(W()), p, user, text)
      ensures ok <==> p in old(posts) && old(posts)[p].author == user
      ensures ok ==> var post := Post(user, text, old(posts)[p].createdAt);
                     posts == old(posts)[p := post] && hashes == old(hashes)[p := post]
      ensures !ok ==> W() == old(W())
    {
      ok := p in posts && posts[p].author == user;
      if ok {
        posts := posts[p := posts[p].(text := text)];
        hashes := hashes[p := Post(user, text, posts[p].createdAt)];
      }
    }

    /** `delete_post`: row, then body, then the feeds. */
    method DeletePost(p: nat, user: nat) returns (ok: bool)
      modifies this`posts, this`hashes, this`feeds
      ensures ok == Owns(old(W()), p, user)
      ensures W() == FeedWorld.DeletePost(old(W()), p, user)
      ensures ok <==> p in old(posts) && old(posts)[p].author == user
      ensures ok ==> posts == old(posts) - {p} && hashes == old(hashes) - {p}
      ensures !ok ==> W() == old(W())
    {
      ok := p in posts && posts[p].author == user;
      if ok {
        posts := posts - {p};
        hashes := hashes - {p};
        RemovePostFromAllFeeds(p, user);
      }
    }

    /** `set_friend`. */
    method SetFriend(cap: nat, u: nat, f: nat) returns (ok: bool)
      modifies this`friends, this`feeds, this`hashes
      ensures ok == (f != u && f in users)
      ensures W() == FeedWorld.SetFriend(cap, old(W()), u, f)
      ensures friends == if ok then old(friends) + {(u, f)} else old(friends)
      ensures !ok ==> W() == old(W())
    {
      ok := f != u && f in users;
      if ok {
        friends := friends + {(u, f)};
        AddFriendPostsToFeed(cap, u, f);
      }
    }

    /** `delete_friend`. */
    method DeleteFriend(u: nat, f: nat)
      modifies this`friends, this`feeds
      ensures W() == FeedWorld.DeleteFriend(old(W()), u, f)
      ensures friends == old(friends) - {(u, f)}
    {
      friends := friends - {(u, f)};
      RemoveFriendPostsFromFeed(u, f);
    }
  }

  /** A query without ORDER BY: each element once, in any order. */
  method Enumerate(s: set<nat>) returns (q: seq<nat>)
    ensures Elements(q) == s
    ensures forall i, j :: 0 <= i < j < |q| ==> q[i] != q[j]
  {
    q := [];
    var rest := s;
    while rest != {}
      invariant Elements(q) + rest == s && Elements(q) !! rest
      invariant forall i, j :: 0 <= i < j < |q| ==> q[i] != q[j]
      decreases rest
    {
      var x :| x in rest;
      assert x !in Elements(q);
      assert Elements(q + [x]) == Elements(q) + {x};
      q := q + [x];
      rest := rest - {x};
    }
  }

  // ---------------------------------------------------------------- the loops, one element at a time

  function FanOutEach(cap: nat, feeds: map<nat, set<Entry>>, e: Entry, us: seq<nat>): map<nat, set<Entry>> {
    if us == [] then feeds
    else
      var done, u := FanOutEach(cap, feeds, e, us[..|us| - 1]), us[|us| - 1];
      done[u := Top(Zadd(if u in done then done[u] else {}, e), cap)]
  }

  lemma {:induction false} FanOutEachNext(cap: nat, feeds: map<nat, set<Entry>>, e: Entry, us: seq<nat>, i: nat)
    requires i < |us|
    ensures var done := FanOutEach(cap, feeds, e, us[..i]);
            var z := Zadd(if us[i] in done then done[us[i]] else {}, e);
            FanOutEach(cap, feeds, e, us[..i + 1]) == done[us[i] := z][us[i] := Top(z, cap)]
  {
    assert us[..i + 1][..i] == us[..i];
    var done := FanOutEach(cap, feeds, e, us[..i]);
    var z := Zadd(if us[i] in done then done[us[i]] else {}, e);
    assert done[us[i] := z][us[i] := Top(z, cap)] == done[us[i] := Top(z, cap)];
  }

  lemma {:induction false} FanOutEachIsFanOut(cap: nat, w: World, e: Entry, us: seq<nat>)
    requires forall i, j :: 0 <= i < j < |us| ==> us[i] != us[j]
    ensures FanOutEach(cap, w.feeds, e, us) == FanOutTo(cap, w, e, Elements(us)).feeds
  {
    if us != [] {
      var front, u := us[..|us| - 1], us[|us| - 1];
      FanOutEachIsFanOut(cap, w, e, front);
      OneMoreElement(us, |us| - 1);
      assert us[..|us|] == us;
      FanOutStep(cap, w, e, Elements(front), u);
    } else {
      assert Elements(us) == {};
    }
  }

  lemma {:induction false} FanOutStep(cap: nat, w: World, e: Entry, done: set<nat>, u: nat)
    requires u !in done
    ensures var feeds := FanOutTo(cap, w, e, done).feeds;
            feeds[u := Top(Zadd(if u in feeds then feeds[u] else {}, e), cap)] == FanOutTo(cap, w, e, done + {u}).feeds
  {
    FanOutOneMore(cap, w, e, done, u);
    var before := FanOutTo(cap, w, e, done);
    assert (if u in before.feeds then before.feeds[u] else {}) == FeedOf(before, u);
  }

  function FanRemoveEach(feeds: map<nat, set<Entry>>, p: nat, us: seq<nat>): map<nat, set<Entry>> {
    if us == [] then feeds
    else
      var done, u := FanRemoveEach(feeds, p, us[..|us| - 1]), us[|us| - 1];
      done[u := Zrem(if u in done then done[u] else {}, p)]
  }

  lemma {:induction false} FanRemoveEachIsFanRemove(w: World, p: nat, us: seq<nat>)
    requires forall i, j :: 0 <= i < j < |us| ==> us[i] != us[j]
    ensures FanRemoveEach(w.feeds, p, us) == FanRemoveFrom(w, p, Elements(us)).feeds
  {
    if us != [] {
      var front, u := us[..|us| - 1], us[|us| - 1];
      FanRemoveEachIsFanRemove(w, p, front);
      OneMoreElement(us, |us| - 1);
      assert us[..|us|] == us;
      FanRemoveOneMore(w, p, Elements(front), u);
    } else {
      assert Elements(us) == {};
    }
  }

  lemma FanOutOneMore(cap: nat, w: World, e: Entry, done: set<nat>, u: nat)
    requires u !in done
    ensures FeedOf(FanOutTo(cap, w, e, done), u) == FeedOf(w, u)
    ensures FanOutTo(cap, w, e, done + {u}) == SetFeed(FanOutTo(cap, w, e, done), u, Top(Zadd(FeedOf(w, u), e), cap))
  {
  }

  lemma FanRemoveOneMore(w: World, p: nat, done: set<nat>, u: nat)
    requires u !in done
    ensures FeedOf(FanRemoveFrom(w, p, done), u) == FeedOf(w, u)
    ensures FanRemoveFrom(w, p, done + {u}) == SetFeed(FanRemoveFrom(w, p, done), u, Zrem(FeedOf(w, u), p))
  {
  }
}
