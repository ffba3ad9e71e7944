/** Posts and friendships in the database, feeds and post bodies in Redis, and the effect of each
    request on them, one request at a time with synchronous fan-out (app/routes/posts.py,
    app/routes/friends.py, app/feed_cache.py).

    No key expires or is evicted, and rows with equal creation times are listed in the order Redis
    gives their ids. */
module FeedWorld {
  import opened FeedOrder
  import opened Paging

  /** A post row, which is also what its hash in Redis holds. */
  datatype Post = Post(author: nat, text: string, createdAt: int)

  datatype World = World(
    users: set<nat>,
    posts: map<nat, Post>,
    friends: set<(nat, nat)>,
    feeds: map<nat, set<Entry>>,
    hashes: map<nat, Post>)

  /** What a reader gets for one post. */
  datatype Item = Item(id: nat, text: string, author: nat)

  /** A sorted set; an absent key and an empty one are the same to Redis. */
  function FeedOf(w: World, u: nat): set<Entry> {
    if u in w.feeds then w.feeds[u] else {}
  }

  function Followers(w: World, author: nat): set<nat> {
    set f | f in w.friends && f.1 == author :: f.0
  }

  function PostsOf(w: World, author: nat): set<Entry> {
    set p | p in w.posts && w.posts[p].author == author :: Entry(w.posts[p].createdAt, p)
  }

  /** The join of posts with the user's friendships: what the feed is an index of. */
  function FriendPosts(w: World, u: nat): set<Entry> {
    set p | p in w.posts && (u, w.posts[p].author) in w.friends :: Entry(w.posts[p].createdAt, p)
  }

  // ---------------------------------------------------------------- Redis commands

  function Zadd(z: set<Entry>, e: Entry): set<Entry> {
    (set x | x in z && x.pid != e.pid) + {e}
  }

  /** Several ZADDs of different members. */
  function ZaddAll(z: set<Entry>, rows: set<Entry>): set<Entry> {
    (set x | x in z && forall r :: r in rows ==> r.pid != x.pid) + rows
  }

  function Zrem(z: set<Entry>, p: nat): set<Entry> {
    set x | x in z && x.pid != p
  }

  /** ZREVRANGE offset offset+limit-1. */
  function Zrevrange(z: set<Entry>, offset: nat, limit: nat): seq<Entry> {
    Window(Sorted(z), offset, limit)
  }

  // ---------------------------------------------------------------- requests

  function SetFeed(w: World, u: nat, z: set<Entry>): World {
    w.(feeds := w.feeds[u := z])
  }

  /** `fan_out_post`: every follower's feed takes the entry and is trimmed to the cap. */
  function FanOut(cap: nat, w: World, e: Entry, author: nat): World {
    FanOutTo(cap, w, e, Followers(w, author))
  }

  function FanOutTo(cap: nat, w: World, e: Entry, us: set<nat>): World {
    w.(feeds := map u | u in w.feeds.Keys + us ::
        if u in us then Top(Zadd(FeedOf(w, u), e), cap) else FeedOf(w, u))
  }

  /** `remove_post_from_all_feeds`. */
  function FanRemove(w: World, p: nat, author: nat): World {
    FanRemoveFrom(w, p, Followers(w, author))
  }

  function FanRemoveFrom(w: World, p: nat, us: set<nat>): World {
    w.(feeds := map u | u in w.feeds.Keys + us ::
        if u in us then Zrem(FeedOf(w, u), p) else FeedOf(w, u))
  }

  function CreatePost(cap: nat, w: World, p: nat, author: nat, text: string, at: int): World {
    var post := Post(author, text, at);
    FanOut(cap, w.(posts := w.posts[p := post], hashes := w.hashes[p := post]), Entry(at, p), author)
  }

  predicate Owns(w: World, p: nat, user: nat) {
    p in w.posts && w.posts[p].author == user
  }

  /** A post that is missing or not the user's is refused and nothing changes. */
  function UpdatePost(w: World, p: nat, user: nat, text: string): World {
    if !Owns(w, p, user) then w
    else
      var post := w.posts[p].(text := text);
      w.(posts := w.posts[p := post], hashes := w.hashes[p := post])
  }

  function DeletePost(w: World, p: nat, user: nat): World {
    if !Owns(w, p, user) then w
    else FanRemove(w.(posts := w.posts - {p}, hashes := w.hashes - {p}), p, user)
  }

  function BodiesOf(w: World, rows: set<Entry>): map<nat, Post> {
    map p | p in w.posts && Entry(w.posts[p].createdAt, p) in rows :: w.posts[p]
  }

  /** Entries and bodies of some rows stored, before any trimming. */
  function StoreRows(w: World, u: nat, rows: set<Entry>): World {
    if rows == {} then w
    else SetFeed(w, u, ZaddAll(FeedOf(w, u), rows)).(hashes := w.hashes + BodiesOf(w, rows))
  }

  /** `add_friend_posts_to_feed`. */
  function AddFriendPosts(cap: nat, w: World, u: nat, f: nat): World {
    var rows := Top(PostsOf(w, f), cap);
    if rows == {} then w
    else
      var w' := StoreRows(w, u, rows);
      SetFeed(w', u, Top(FeedOf(w', u), cap))
  }

  /** `set_friend`: oneself and unknown users are refused. */
  function SetFriend(cap: nat, w: World, u: nat, f: nat): World {
    if f == u || f !in w.users then w
    else AddFriendPosts(cap, w.(friends := w.friends + {(u, f)}), u, f)
  }

  /** The entries whose stored body names `f` as the author. */
  function ByHash(w: World, z: set<Entry>, f: nat): set<Entry> {
    set e | e in z && e.pid in w.hashes && w.hashes[e.pid].author == f
  }

  function DeleteFriend(w: World, u: nat, f: nat): World {
    SetFeed(w, u, FeedOf(w, u) - ByHash(w, FeedOf(w, u), f)).(friends := w.friends - {(u, f)})
  }

  /** `rebuild_feed_for_user`. */
  function Rebuild(cap: nat, w: World, u: nat): World {
    var rows := Top(FriendPosts(w, u), cap);
    SetFeed(w, u, rows).(hashes := w.hashes + BodiesOf(w, rows))
  }

  function RefreshedForRead(cap: nat, w: World, u: nat): World {
    if FeedOf(w, u) == {} then Rebuild(cap, w, u) else w
  }

  /** The page of a feed whose bodies are stored. */
  function Bodies(w: World, page: seq<Entry>): seq<Item> {
    if page == [] then []
    else
      var front, e := Bodies(w, page[..|page| - 1]), page[|page| - 1];
      if e.pid in w.hashes then front + [Item(e.pid, w.hashes[e.pid].text, w.hashes[e.pid].author)] else front
  }

  lemma {:induction false} BodiesHaveHashes(w: World, page: seq<Entry>)
    ensures forall x :: x in Bodies(w, page) ==> x.id in w.hashes
  {
    if page != [] {
      BodiesHaveHashes(w, page[..|page| - 1]);
    }
  }

  function Stale(w: World, page: seq<Entry>): set<Entry> {
    set e | e in page && e.pid !in w.hashes
  }

  /** `read_feed`: the world it leaves and the items it returns. */
  function ReadFeed(cap: nat, w: World, u: nat, offset: nat, limit: nat): (World, seq<Item>) {
    var w' := RefreshedForRead(cap, w, u);
    var page := Zrevrange(FeedOf(w', u), offset, limit);
    (SetFeed(w', u, FeedOf(w', u) - Stale(w', page)), Bodies(w', page))
  }

  // ---------------------------------------------------------------- the graded invariant

  /** The feed holds only live posts of current friends, with their bodies; it is within the cap;
      and it holds the newest `cap - removed` of them. */
  ghost predicate GoodFeed(cap: nat, w: World, u: nat, removed: nat) {
    Graded(cap, FeedOf(w, u), FriendPosts(w, u), removed) && BodiesStored(w, FeedOf(w, u))
  }

  ghost predicate Graded(cap: nat, feed: set<Entry>, all: set<Entry>, removed: nat) {
    Top(all, Less(cap, removed)) <= feed <= all && |feed| <= cap
  }

  ghost predicate BodiesStored(w: World, feed: set<Entry>) {
    forall e :: e in feed ==> e.pid in w.hashes && e.pid in w.posts && w.hashes[e.pid] == w.posts[e.pid]
  }

  predicate IsRow(w: World, e: Entry) {
    e.pid in w.posts && e.score == w.posts[e.pid].createdAt
  }

  lemma FriendPostsAre(w: World, u: nat)
    ensures forall e :: e in FriendPosts(w, u) <==> IsRow(w, e) && (u, w.posts[e.pid].author) in w.friends
  {
    forall e | IsRow(w, e) && (u, w.posts[e.pid].author) in w.friends
      ensures e in FriendPosts(w, u)
    {
      assert e == Entry(w.posts[e.pid].createdAt, e.pid);
    }
  }

  lemma PostsOfAre(w: World, f: nat)
    ensures forall e :: e in PostsOf(w, f) <==> IsRow(w, e) && w.posts[e.pid].author == f
  {
    forall e | IsRow(w, e) && w.posts[e.pid].author == f
      ensures e in PostsOf(w, f)
    {
      assert e == Entry(w.posts[e.pid].createdAt, e.pid);
    }
  }

  lemma IsFollower(w: World, u: nat, author: nat)
    ensures u in Followers(w, author) <==> (u, author) in w.friends
  {
    if (u, author) in w.friends {
      assert (u, author).0 in Followers(w, author);
    }
  }

  // create

  lemma CreateEffect(cap: nat, w: World, u: nat, p: nat, author: nat, text: string, at: int)
    requires p !in w.posts
    ensures var w' := CreatePost(cap, w, p, author, text, at);
            if (u, author) in w.friends then
              && FriendPosts(w', u) == FriendPosts(w, u) + {Entry(at, p)}
              && FeedOf(w', u) == Top(Zadd(FeedOf(w, u), Entry(at, p)), cap)
            else FriendPosts(w', u) == FriendPosts(w, u) && FeedOf(w', u) == FeedOf(w, u)
  {
    var w' := CreatePost(cap, w, p, author, text, at);
    FriendPostsAre(w, u);
    FriendPostsAre(w', u);
    IsFollower(w, u, author);
    assert forall e :: IsRow(w', e) <==> IsRow(w, e) || e == Entry(at, p);
  }

  lemma ZaddNew(feed: set<Entry>, e: Entry)
    requires forall x :: x in feed ==> x.pid != e.pid
    ensures Zadd(feed, e) == feed + {e}
  {
  }

  lemma CreateKeepsGood(cap: nat, w: World, u: nat, removed: nat, p: nat, author: nat, text: string, at: int)
    requires GoodFeed(cap, w, u, removed) && p !in w.posts
    ensures GoodFeed(cap, CreatePost(cap, w, p, author, text, at), u, removed)
  {
    var e := Entry(at, p);
    var feed, all := FeedOf(w, u), FriendPosts(w, u);
    CreateEffect(cap, w, u, p, author, text, at);
    ZaddNew(feed, e);
    AddThenTrim(feed, all, {e}, {e}, cap, Less(cap, removed));
  }

  // update

  /** Row and body get the new text and keep author and time, for the owner only. */
  lemma UpdateWrites(w: World, p: nat, user: nat, text: string)
    ensures var w' := UpdatePost(w, p, user, text);
            if p in w.posts && w.posts[p].author == user then
              var post := Post(user, text, w.posts[p].createdAt);
              w'.posts == w.posts[p := post] && w'.hashes == w.hashes[p := post]
            else w' == w
  {
  }

  lemma UpdateKeepsGood(cap: nat, w: World, u: nat, removed: nat, p: nat, user: nat, text: string)
    requires GoodFeed(cap, w, u, removed)
    ensures GoodFeed(cap, UpdatePost(w, p, user, text), u, removed)
  {
    var w' := UpdatePost(w, p, user, text);
    FriendPostsAre(w, u);
    FriendPostsAre(w', u);
    assert forall e :: IsRow(w', e) <==> IsRow(w, e);
    assert FriendPosts(w', u) == FriendPosts(w, u);
  }

  // delete

  lemma DeleteEffect(w: World, u: nat, p: nat, user: nat)
    requires Owns(w, p, user)
    ensures var w' := DeletePost(w, p, user);
            var e := Entry(w.posts[p].createdAt, p);
            if (u, user) in w.friends then
              FriendPosts(w', u) == FriendPosts(w, u) - {e} && FeedOf(w', u) == Zrem(FeedOf(w, u), p)
            else FriendPosts(w', u) == FriendPosts(w, u) && FeedOf(w', u) == FeedOf(w, u)
  {
    var w' := DeletePost(w, p, user);
    FriendPostsAre(w, u);
    FriendPostsAre(w', u);
    IsFollower(w, u, user);
    assert forall x :: IsRow(w', x) <==> IsRow(w, x) && x.pid != p;
  }

  lemma ZremOfRow(w: World, u: nat, feed: set<Entry>, p: nat)
    requires feed <= FriendPosts(w, u) && p in w.posts
    ensures Zrem(feed, p) == feed - {Entry(w.posts[p].createdAt, p)}
    ensures (u, w.posts[p].author) !in w.friends ==> Zrem(feed, p) == feed
  {
    FriendPostsAre(w, u);
    forall x | x in feed && x.pid == p
      ensures x == Entry(w.posts[p].createdAt, p)
      ensures (u, w.posts[p].author) in w.friends
    {
    }
  }

  lemma DeleteKeepsGraded(cap: nat, feed: set<Entry>, all: set<Entry>, gone: set<Entry>, removed: nat)
    requires Graded(cap, feed, all, removed)
    ensures feed - (feed - gone) == feed * gone
    ensures Graded(cap, feed - gone, all - gone, removed + |feed * gone|)
  {
    RemoveMany(feed, all, gone, Less(cap, removed));
    SubsetCount(feed - gone, feed);
    assert feed - (feed - gone) == feed * gone;
  }

  lemma DeleteOwnedKeepsGood(cap: nat, w: World, u: nat, removed: nat, p: nat, user: nat)
    requires GoodFeed(cap, w, u, removed) && Owns(w, p, user)
    ensures var w' := DeletePost(w, p, user);
            GoodFeed(cap, w', u, removed + |FeedOf(w, u) - FeedOf(w', u)|)
  {
    var w' := DeletePost(w, p, user);
    var feed, all := FeedOf(w, u), FriendPosts(w, u);
    DeleteEffect(w, u, p, user);
    ZremOfRow(w, u, feed, p);
    assert FeedOf(w', u) == Zrem(feed, p);
    if (u, user) in w.friends {
      DeleteKeepsGraded(cap, feed, all, {Entry(w.posts[p].createdAt, p)}, removed);
    } else {
      assert feed - FeedOf(w', u) == {};
    }
  }

  lemma DeleteKeepsGood(cap: nat, w: World, u: nat, removed: nat, p: nat, user: nat)
    requires GoodFeed(cap, w, u, removed)
    ensures var w' := DeletePost(w, p, user);
            GoodFeed(cap, w', u, removed + |FeedOf(w, u) - FeedOf(w', u)|)
  {
    if Owns(w, p, user) {
      DeleteOwnedKeepsGood(cap, w, u, removed, p, user);
    } else {
      assert FeedOf(w, u) - FeedOf(w, u) == {};
    }
  }

  // befriend

  lemma BefriendPosts(cap: nat, w: World, u: nat, f: nat)
    requires f != u && f in w.users
    ensures FriendPosts(SetFriend(cap, w, u, f), u) == FriendPosts(w, u) + PostsOf(w, f)
  {
    var w' := SetFriend(cap, w, u, f);
    FriendPostsAre(w, u);
    FriendPostsAre(w', u);
    PostsOfAre(w, f);
    assert w'.posts == w.posts && w'.friends == w.friends + {(u, f)};
  }

  lemma {:induction false} ZaddAllNew(feed: set<Entry>, rows: set<Entry>)
    requires OneKeyPerId(feed + rows)
    ensures ZaddAll(feed, rows) == feed + rows
  {
    forall x, r | x in feed && r in rows && r.pid == x.pid
      ensures x == r
    {
      assert x in feed + rows && r in feed + rows;
    }
  }

  lemma {:induction false} RowsHaveOneKey(w: World, s: set<Entry>)
    requires forall e :: e in s ==> IsRow(w, e)
    ensures OneKeyPerId(s)
  {
  }

  lemma {:induction false} AddedRowsAreNew(cap: nat, feed: set<Entry>, all: set<Entry>)
    requires OneKeyPerId(feed + all)
    ensures ZaddAll(feed, Top(all, cap)) == feed + Top(all, cap)
  {
    TopIsPrefix(all, cap);
    assert Top(all, cap) <= all;
    OneKeyOfPart(feed + Top(all, cap), feed + all);
    ZaddAllNew(feed, Top(all, cap));
  }

  lemma {:induction false} NothingToAdd(cap: nat, w: World, u: nat)
    requires |FeedOf(w, u)| <= cap
    ensures Top(FeedOf(w, u) + {}, cap) == FeedOf(w, u) && w.hashes + BodiesOf(w, {}) == w.hashes
  {
    assert FeedOf(w, u) + {} == FeedOf(w, u);
    TopOfSmall(FeedOf(w, u), cap);
    assert BodiesOf(w, {}) == map[];
  }

  lemma {:induction false} AddFriendEffect(cap: nat, w: World, u: nat, f: nat)
    requires |FeedOf(w, u)| <= cap && OneKeyPerId(FeedOf(w, u) + PostsOf(w, f))
    ensures var w' := AddFriendPosts(cap, w, u, f);
            && FeedOf(w', u) == Top(FeedOf(w, u) + Top(PostsOf(w, f), cap), cap)
            && w'.posts == w.posts && w'.hashes == w.hashes + BodiesOf(w, Top(PostsOf(w, f), cap))
  {
    AddedRowsAreNew(cap, FeedOf(w, u), PostsOf(w, f));
    if Top(PostsOf(w, f), cap) == {} {
      NothingToAdd(cap, w, u);
    }
  }

  lemma BefriendEffect(cap: nat, w: World, u: nat, f: nat)
    requires f != u && f in w.users && |FeedOf(w, u)| <= cap
    requires OneKeyPerId(FeedOf(w, u) + PostsOf(w, f))
    ensures var w' := SetFriend(cap, w, u, f);
            && FeedOf(w', u) == Top(FeedOf(w, u) + Top(PostsOf(w, f), cap), cap)
            && w'.posts == w.posts && w'.hashes == w.hashes + BodiesOf(w, Top(PostsOf(w, f), cap))
  {
    var w1 := w.(friends := w.friends + {(u, f)});
    assert PostsOf(w1, f) == PostsOf(w, f);
    assert forall rows :: BodiesOf(w1, rows) == BodiesOf(w, rows);
    AddFriendEffect(cap, w1, u, f);
  }

  lemma BefriendOther(cap: nat, w: World, u: nat, v: nat, f: nat)
    requires u != v || f == v || f !in w.users
    ensures var w' := SetFriend(cap, w, v, f);
            FriendPosts(w', u) == FriendPosts(w, u) && FeedOf(w', u) == FeedOf(w, u)
  {
    var w' := SetFriend(cap, w, v, f);
    FriendPostsAre(w, u);
    FriendPostsAre(w', u);
  }

  /** Storing the bodies of some rows keeps stored bodies right and adds those of the rows. */
  lemma StoringBodies(w: World, w': World, feed: set<Entry>, rows: set<Entry>)
    requires BodiesStored(w, feed) && w'.posts == w.posts && w'.hashes == w.hashes + BodiesOf(w, rows)
    requires forall e :: e in rows ==> IsRow(w, e)
    ensures BodiesStored(w', feed + rows)
  {
  }

  lemma BefriendKeepsGood(cap: nat, w: World, u: nat, removed: nat, v: nat, f: nat)
    requires GoodFeed(cap, w, u, removed)
    ensures GoodFeed(cap, SetFriend(cap, w, v, f), u, removed)
  {
    var w' := SetFriend(cap, w, v, f);
    var feed, all, more := FeedOf(w, u), FriendPosts(w, u), PostsOf(w, f);
    if u == v && f != v && f in w.users {
      var rows := Top(more, cap);
      FriendPostsAre(w, u);
      PostsOfAre(w, f);
      RowsHaveOneKey(w, feed + more);
      BefriendEffect(cap, w, u, f);
      BefriendPosts(cap, w, u, f);
      TopGrows(more, Less(cap, removed), cap);
      AddThenTrim(feed, all, rows, more, cap, Less(cap, removed));
      PostsOfAre(w, f);
      StoringBodies(w, w', feed, rows);
    } else {
      BefriendOther(cap, w, u, v, f);
      PostsOfAre(w, f);
      assert BodiesStored(w', feed);
    }
  }

  /** The friendship is entered unless it is with oneself or an unknown user. */
  lemma BefriendWrites(cap: nat, w: World, u: nat, f: nat)
    ensures SetFriend(cap, w, u, f).posts == w.posts && SetFriend(cap, w, u, f).users == w.users
    ensures SetFriend(cap, w, u, f).friends == if f != u && f in w.users then w.friends + {(u, f)} else w.friends
  {
  }

  // unfriend

  lemma UnfriendEffect(w: World, u: nat, f: nat)
    requires FeedOf(w, u) <= FriendPosts(w, u) && BodiesStored(w, FeedOf(w, u))
    ensures var w' := DeleteFriend(w, u, f);
            && FriendPosts(w', u) == FriendPosts(w, u) - PostsOf(w, f)
            && FeedOf(w', u) == FeedOf(w, u) - PostsOf(w, f)
  {
    var w' := DeleteFriend(w, u, f);
    FriendPostsAre(w, u);
    FriendPostsAre(w', u);
    PostsOfAre(w, f);
    assert forall e :: e in FeedOf(w, u) ==> (e in ByHash(w, FeedOf(w, u), f) <==> e in PostsOf(w, f));
  }

  lemma UnfriendOther(w: World, u: nat, v: nat, f: nat)
    requires u != v
    ensures var w' := DeleteFriend(w, v, f);
            FriendPosts(w', u) == FriendPosts(w, u) && FeedOf(w', u) == FeedOf(w, u)
  {
    var w' := DeleteFriend(w, v, f);
    FriendPostsAre(w, u);
    FriendPostsAre(w', u);
  }

  lemma UnfriendKeepsGood(cap: nat, w: World, u: nat, removed: nat, v: nat, f: nat)
    requires GoodFeed(cap, w, u, removed)
    ensures var w' := DeleteFriend(w, v, f);
            GoodFeed(cap, w', u, removed + |FeedOf(w, u) - FeedOf(w', u)|)
  {
    var w' := DeleteFriend(w, v, f);
    var feed, all := FeedOf(w, u), FriendPosts(w, u);
    if u == v {
      UnfriendEffect(w, u, f);
      DeleteKeepsGraded(cap, feed, all, PostsOf(w, f), removed);
    } else {
      UnfriendOther(w, u, v, f);
      assert feed - FeedOf(w', u) == {};
    }
  }

  // rebuild and read

  /** A rebuild needs no invariant: it restores the full guarantee from any state. */
  lemma RebuildIsGood(cap: nat, w: World, u: nat)
    ensures GoodFeed(cap, Rebuild(cap, w, u), u, 0)
    ensures FriendPosts(Rebuild(cap, w, u), u) == FriendPosts(w, u)
  {
    var w' := Rebuild(cap, w, u);
    FriendPostsAre(w, u);
    FriendPostsAre(w', u);
    TopIsPrefix(FriendPosts(w, u), cap);
    StoringBodies(w, w', {}, Top(FriendPosts(w, u), cap));
    assert {} + Top(FriendPosts(w, u), cap) == FeedOf(w', u);
  }

  lemma RebuildKeepsOthers(cap: nat, w: World, u: nat, removed: nat, v: nat)
    requires GoodFeed(cap, w, u, removed) && u != v
    ensures GoodFeed(cap, Rebuild(cap, w, v), u, removed)
  {
    var w' := Rebuild(cap, w, v);
    FriendPostsAre(w, u);
    FriendPostsAre(w', u);
    assert FriendPosts(w', u) == FriendPosts(w, u);
    FriendPostsAre(w, v);
    assert BodiesStored(w', FeedOf(w, u));
  }

  lemma SortedInFeed(z: set<Entry>, offset: nat, limit: nat)
    ensures forall e :: e in Zrevrange(z, offset, limit) ==> e in z
  {
    var q := Sorted(z);
    forall e | e in Zrevrange(z, offset, limit)
      ensures e in q
    {
    }
  }

  /** Reading a feed whose bodies are stored finds nothing stale. */
  lemma NothingStale(w: World, u: nat, offset: nat, limit: nat)
    requires BodiesStored(w, FeedOf(w, u))
    ensures Stale(w, Zrevrange(FeedOf(w, u), offset, limit)) == {}
  {
    SortedInFeed(FeedOf(w, u), offset, limit);
  }

  /** A read leaves the feeds as the possible rebuild left them. */
  lemma ReadLeavesFeeds(cap: nat, w: World, u: nat, offset: nat, limit: nat)
    requires BodiesStored(w, FeedOf(w, u))
    ensures var w' := RefreshedForRead(cap, w, u);
            ReadFeed(cap, w, u, offset, limit).0 == SetFeed(w', u, FeedOf(w', u))
  {
    var w' := RefreshedForRead(cap, w, u);
    RebuildIsGood(cap, w, u);
    NothingStale(w', u, offset, limit);
    assert FeedOf(w', u) - {} == FeedOf(w', u);
  }

  lemma ReadKeepsDatabase(cap: nat, w: World, u: nat, offset: nat, limit: nat)
    ensures var after := ReadFeed(cap, w, u, offset, limit).0;
            after.posts == w.posts && after.users == w.users && after.friends == w.friends
  {
  }

  // events handled again

  ghost predicate BodyIsCurrent(w: World, p: nat)
    requires p in w.posts
  {
    p in w.hashes && w.hashes[p] == w.posts[p]
  }

  /** The body of every live post is stored. */
  ghost predicate BodiesAreCurrent(w: World) {
    forall p :: p in w.posts ==> BodyIsCurrent(w, p)
  }

  /** The worker handles the created event of a live post once more. */
  function FanOutAgain(cap: nat, w: World, p: nat): World {
    if p in w.posts then FanOut(cap, w, Entry(w.posts[p].createdAt, p), w.posts[p].author) else w
  }

  lemma {:induction false} FanOutAgainEffect(cap: nat, w: World, u: nat, p: nat)
    requires p in w.posts && FeedOf(w, u) <= FriendPosts(w, u)
    ensures var w' := FanOutAgain(cap, w, p);
            var e := Entry(w.posts[p].createdAt, p);
            && FriendPosts(w', u) == FriendPosts(w, u)
            && if (u, w.posts[p].author) in w.friends
               then e in FriendPosts(w, u) && FeedOf(w', u) == Top(FeedOf(w, u) + {e}, cap)
               else FeedOf(w', u) == FeedOf(w, u)
  {
    var w' := FanOutAgain(cap, w, p);
    var e := Entry(w.posts[p].createdAt, p);
    FriendPostsAre(w, u);
    FriendPostsAre(w', u);
    IsFollower(w, u, w.posts[p].author);
    assert forall x :: x in FeedOf(w, u) && x.pid == p ==> x == e;
    assert Zadd(FeedOf(w, u), e) == FeedOf(w, u) + {e};
  }

  lemma {:induction false} CurrentBodiesAreStored(w: World, u: nat)
    requires BodiesAreCurrent(w) && FeedOf(w, u) <= FriendPosts(w, u)
    ensures BodiesStored(w, FeedOf(w, u))
  {
    forall e | e in FeedOf(w, u)
      ensures e.pid in w.posts && BodyIsCurrent(w, e.pid)
    {
      assert e in FriendPosts(w, u);
    }
  }

  lemma {:induction false} AddingAgainKeepsGraded(cap: nat, feed: set<Entry>, all: set<Entry>, removed: nat, e: Entry)
    requires Graded(cap, feed, all, removed) && e in all
    ensures Graded(cap, Top(feed + {e}, cap), all, removed)
  {
    assert all + {e} == all;
    AddThenTrim(feed, all, {e}, {e}, cap, Less(cap, removed));
  }

  /** Whatever happened since it was created, this keeps every feed good. */
  lemma {:induction false} FanOutAgainKeepsGood(cap: nat, w: World, u: nat, removed: nat, p: nat)
    requires GoodFeed(cap, w, u, removed) && p in w.posts && BodiesAreCurrent(w)
    ensures GoodFeed(cap, FanOutAgain(cap, w, p), u, removed)
  {
    var w' := FanOutAgain(cap, w, p);
    FanOutAgainEffect(cap, w, u, p);
    if (u, w.posts[p].author) in w.friends {
      AddingAgainKeepsGraded(cap, FeedOf(w, u), FriendPosts(w, u), removed, Entry(w.posts[p].createdAt, p));
    }
    assert BodiesAreCurrent(w') by {
      assert forall q :: q in w.posts ==> BodyIsCurrent(w, q);
    }
    CurrentBodiesAreStored(w', u);
  }

  /** The worker handles the deleted event of a post that is gone once more: no good feed changes. */
  lemma {:induction false} FanRemoveAgainKeepsGood(cap: nat, w: World, u: nat, removed: nat, p: nat, author: nat)
    requires GoodFeed(cap, w, u, removed) && p !in w.posts
    ensures FeedOf(FanRemove(w, p, author), u) == FeedOf(w, u)
    ensures GoodFeed(cap, FanRemove(w, p, author), u, removed)
  {
    var w' := FanRemove(w, p, author);
    FriendPostsAre(w, u);
    FriendPostsAre(w', u);
    assert FriendPosts(w', u) == FriendPosts(w, u);
    assert Zrem(FeedOf(w, u), p) == FeedOf(w, u);
  }

  // ---------------------------------------------------------------- runs

  datatype Request =
    | Create(p: nat, author: nat, text: string, at: int)
    | Update(p: nat, user: nat, text: string)
    | Delete(p: nat, user: nat)
    | Befriend(u: nat, f: nat)
    | Unfriend(u: nat, f: nat)
    | RebuildFeed(u: nat)
    | Read(u: nat, offset: nat, limit: nat)
    | CreatedAgain(p: nat)
    | DeletedAgain(p: nat, author: nat)

  /** How many entries each feed has lost since it was last rebuilt. */
  type Ledger = nat -> nat

  function NothingLost(u: nat): nat {
    0
  }

  /** The database gives a new post an unused id; a read asks for at least one post; an event is
      handled again at any later time, that of a creation while the post lives. */
  predicate CanServe(w: World, r: Request) {
    && (r.Create? ==> r.p !in w.posts)
    && (r.Read? ==> r.limit >= 1)
    && (r.CreatedAgain? ==> r.p in w.posts)
    && (r.DeletedAgain? ==> r.p !in w.posts)
  }

  function Serve(cap: nat, w: World, r: Request): World {
    match r
    case Create(p, author, text, at) => CreatePost(cap, w, p, author, text, at)
    case Update(p, user, text) => UpdatePost(w, p, user, text)
    case Delete(p, user) => DeletePost(w, p, user)
    case Befriend(u, f) => SetFriend(cap, w, u, f)
    case Unfriend(u, f) => DeleteFriend(w, u, f)
    case RebuildFeed(u) => Rebuild(cap, w, u)
    case Read(u, offset, limit) => ReadFeed(cap, w, u, offset, limit).0
    case CreatedAgain(p) => FanOutAgain(cap, w, p)
    case DeletedAgain(p, author) => FanRemove(w, p, author)
  }

  ghost function Charge(cap: nat, w: World, d: Ledger, r: Request): Ledger {
    var w' := Serve(cap, w, r);
    (v: nat) =>
      if (r.RebuildFeed? || (r.Read? && FeedOf(w, r.u) == {})) && v == r.u then 0
      else if r.Delete? || r.Unfriend? then d(v) + |FeedOf(w, v) - FeedOf(w', v)|
      else d(v)
  }

  ghost predicate CanServeAll(cap: nat, w: World, rs: seq<Request>)
    decreases |rs|
  {
    rs == [] || (CanServe(w, rs[0]) && CanServeAll(cap, Serve(cap, w, rs[0]), rs[1..]))
  }

  /** The world and ledger after a run of requests. */
  ghost function After(cap: nat, w: World, d: Ledger, rs: seq<Request>): (World, Ledger)
    decreases |rs|
  {
    if rs == [] then (w, d) else After(cap, Serve(cap, w, rs[0]), Charge(cap, w, d, rs[0]), rs[1..])
  }

  ghost predicate Good(cap: nat, w: World, d: Ledger) {
    BodiesAreCurrent(w) && forall u :: GoodFeed(cap, w, u, d(u))
  }

  lemma {:induction false} ServeKeepsBodies(cap: nat, w: World, r: Request)
    requires BodiesAreCurrent(w) && CanServe(w, r)
    ensures BodiesAreCurrent(Serve(cap, w, r))
  {
    var w' := Serve(cap, w, r);
    forall p | p in w'.posts
      ensures BodyIsCurrent(w', p)
    {
      assert p in w.posts ==> BodyIsCurrent(w, p);
    }
  }

  lemma SameFeedIsGood(cap: nat, w: World, u: nat, v: nat, removed: nat)
    requires GoodFeed(cap, w, u, removed)
    ensures GoodFeed(cap, SetFeed(w, v, FeedOf(w, v)), u, removed)
  {
    var w' := SetFeed(w, v, FeedOf(w, v));
    FriendPostsAre(w, u);
    FriendPostsAre(w', u);
    assert FriendPosts(w', u) == FriendPosts(w, u) && FeedOf(w', u) == FeedOf(w, u);
  }

  lemma {:induction false} RefreshKeepsGood(cap: nat, w: World, u: nat, removed: nat, v: nat)
    requires GoodFeed(cap, w, u, removed)
    ensures GoodFeed(cap, RefreshedForRead(cap, w, v), u, if v == u && FeedOf(w, v) == {} then 0 else removed)
  {
    if FeedOf(w, v) == {} {
      if u == v {
        RebuildIsGood(cap, w, v);
      } else {
        RebuildKeepsOthers(cap, w, u, removed, v);
      }
    }
  }

  lemma {:induction false} ReadFeedKeepsGood(cap: nat, w: World, u: nat, removed: nat, v: nat, offset: nat, limit: nat)
    requires GoodFeed(cap, w, u, removed) && BodiesStored(w, FeedOf(w, v))
    ensures GoodFeed(cap, ReadFeed(cap, w, v, offset, limit).0, u, if v == u && FeedOf(w, v) == {} then 0 else removed)
  {
    RefreshKeepsGood(cap, w, u, removed, v);
    ReadLeavesFeeds(cap, w, v, offset, limit);
    SameFeedIsGood(cap, RefreshedForRead(cap, w, v), u, v, if v == u && FeedOf(w, v) == {} then 0 else removed);
  }

  lemma {:induction false} ReadKeepsGood(cap: nat, w: World, d: Ledger, u: nat, r: Request)
    requires Good(cap, w, d) && r.Read?
    ensures GoodFeed(cap, Serve(cap, w, r), u, Charge(cap, w, d, r)(u))
  {
    assert GoodFeed(cap, w, u, d(u));
    assert GoodFeed(cap, w, r.u, d(r.u));
    ReadFeedKeepsGood(cap, w, u, d(u), r.u, r.offset, r.limit);
  }

  lemma ChargeIs(cap: nat, w: World, d: Ledger, r: Request, u: nat)
    ensures r.Create? || r.Update? || r.Befriend? || r.CreatedAgain? || r.DeletedAgain? ==> Charge(cap, w, d, r)(u) == d(u)
    ensures r.Delete? || r.Unfriend? ==>
              Charge(cap, w, d, r)(u) == d(u) + |FeedOf(w, u) - FeedOf(Serve(cap, w, r), u)|
    ensures r.RebuildFeed? ==> Charge(cap, w, d, r)(u) == if u == r.u then 0 else d(u)
  {
  }

  lemma {:induction false} CreateRequestKeepsGood(cap: nat, w: World, d: Ledger, r: Request, u: nat)
    requires r.Create? && GoodFeed(cap, w, u, d(u)) && CanServe(w, r)
    ensures GoodFeed(cap, Serve(cap, w, r), u, Charge(cap, w, d, r)(u))
  {
    ChargeIs(cap, w, d, r, u);
    CreateKeepsGood(cap, w, u, d(u), r.p, r.author, r.text, r.at);
  }

  lemma {:induction false} UpdateRequestKeepsGood(cap: nat, w: World, d: Ledger, r: Request, u: nat)
    requires r.Update? && GoodFeed(cap, w, u, d(u))
    ensures GoodFeed(cap, Serve(cap, w, r), u, Charge(cap, w, d, r)(u))
  {
    ChargeIs(cap, w, d, r, u);
    UpdateKeepsGood(cap, w, u, d(u), r.p, r.user, r.text);
  }

  lemma {:induction false} DeleteRequestKeepsGood(cap: nat, w: World, d: Ledger, r: Request, u: nat)
    requires r.Delete? && GoodFeed(cap, w, u, d(u))
    ensures GoodFeed(cap, Serve(cap, w, r), u, Charge(cap, w, d, r)(u))
  {
    ChargeIs(cap, w, d, r, u);
    DeleteKeepsGood(cap, w, u, d(u), r.p, r.user);
  }

  lemma FriendRequestKeepsGood(cap: nat, w: World, d: Ledger, r: Request, u: nat)
    requires r.Befriend? || r.Unfriend?
    requires GoodFeed(cap, w, u, d(u))
    ensures GoodFeed(cap, Serve(cap, w, r), u, Charge(cap, w, d, r)(u))
  {
    ChargeIs(cap, w, d, r, u);
    if r.Befriend? {
      BefriendKeepsGood(cap, w, u, d(u), r.u, r.f);
    } else {
      UnfriendKeepsGood(cap, w, u, d(u), r.u, r.f);
    }
  }

  lemma RebuildRequestKeepsGood(cap: nat, w: World, d: Ledger, r: Request, u: nat)
    requires r.RebuildFeed? && GoodFeed(cap, w, u, d(u))
    ensures GoodFeed(cap, Serve(cap, w, r), u, Charge(cap, w, d, r)(u))
  {
    ChargeIs(cap, w, d, r, u);
    if u == r.u {
      RebuildIsGood(cap, w, u);
    } else {
      RebuildKeepsOthers(cap, w, u, d(u), r.u);
    }
  }

  lemma AgainKeepsGood(cap: nat, w: World, d: Ledger, r: Request, u: nat)
    requires r.CreatedAgain? || r.DeletedAgain?
    requires Good(cap, w, d) && CanServe(w, r)
    ensures GoodFeed(cap, Serve(cap, w, r), u, Charge(cap, w, d, r)(u))
  {
    ChargeIs(cap, w, d, r, u);
    assert GoodFeed(cap, w, u, d(u));
    if r.CreatedAgain? {
      FanOutAgainKeepsGood(cap, w, u, d(u), r.p);
    } else {
      FanRemoveAgainKeepsGood(cap, w, u, d(u), r.p, r.author);
    }
  }

  lemma ServeKeepsGood(cap: nat, w: World, d: Ledger, r: Request, u: nat)
    requires Good(cap, w, d) && CanServe(w, r)
    ensures GoodFeed(cap, Serve(cap, w, r), u, Charge(cap, w, d, r)(u))
  {
    assert GoodFeed(cap, w, u, d(u));
    if r.Create? {
      CreateRequestKeepsGood(cap, w, d, r, u);
    } else if r.Update? {
      UpdateRequestKeepsGood(cap, w, d, r, u);
    } else if r.Delete? {
      DeleteRequestKeepsGood(cap, w, d, r, u);
    } else if r.Befriend? || r.Unfriend? {
      FriendRequestKeepsGood(cap, w, d, r, u);
    } else if r.RebuildFeed? {
      RebuildRequestKeepsGood(cap, w, d, r, u);
    } else if r.CreatedAgain? || r.DeletedAgain? {
      AgainKeepsGood(cap, w, d, r, u);
    } else {
      ReadKeepsGood(cap, w, d, u, r);
    }
  }

  /** Nobody has friends, posts or feeds yet. */
  ghost predicate Fresh(w: World) {
    w.posts == map[] && w.friends == {} && w.feeds == map[] && w.hashes == map[]
  }

  lemma FreshIsGood(cap: nat, w: World)
    requires Fresh(w)
    ensures Good(cap, w, (u: nat) => 0)
  {
    forall u: nat
      ensures GoodFeed(cap, w, u, 0)
    {
      assert FriendPosts(w, u) == {} && FeedOf(w, u) == {};
    }
  }

  lemma {:induction false} RunKeepsGood(cap: nat, w: World, d: Ledger, rs: seq<Request>)
    requires Good(cap, w, d) && CanServeAll(cap, w, rs)
    ensures Good(cap, After(cap, w, d, rs).0, After(cap, w, d, rs).1)
    decreases |rs|
  {
    if rs != [] {
      forall u: nat
        ensures GoodFeed(cap, Serve(cap, w, rs[0]), u, Charge(cap, w, d, rs[0])(u))
      {
        ServeKeepsGood(cap, w, d, rs[0], u);
      }
      ServeKeepsBodies(cap, w, rs[0]);
      RunKeepsGood(cap, Serve(cap, w, rs[0]), Charge(cap, w, d, rs[0]), rs[1..]);
    }
  }

  /** In every run of requests each user's feed has at most `cap` entries, only live posts of
      current friends with their current bodies, and the newest `cap - d` of those, where d counts
      the entries the feed lost since its last rebuild. */
  lemma {:induction false} FeedsStayGood(cap: nat, w: World, rs: seq<Request>, u: nat)
    requires Fresh(w) && CanServeAll(cap, w, rs)
    ensures var (w', d) := After(cap, w, NothingLost, rs);
            GoodFeed(cap, w', u, d(u))
  {
    FreshIsGood(cap, w);
    RunKeepsGood(cap, w, NothingLost, rs);
  }

  // ---------------------------------------------------------------- reads are exact

  /** What the database itself answers: the friends' posts, newest first, one window. */
  function DatabasePage(w: World, u: nat, offset: nat, limit: nat): seq<Item> {
    FromRows(w, Window(Sorted(FriendPosts(w, u)), offset, limit))
  }

  function FromRows(w: World, page: seq<Entry>): seq<Item> {
    if page == [] then []
    else
      var front, e := FromRows(w, page[..|page| - 1]), page[|page| - 1];
      if e.pid in w.posts then front + [Item(e.pid, w.posts[e.pid].text, w.posts[e.pid].author)] else front
  }

  lemma {:induction false} BodiesAreRows(w: World, page: seq<Entry>)
    requires forall e :: e in page ==> e.pid in w.hashes && e.pid in w.posts && w.hashes[e.pid] == w.posts[e.pid]
    ensures Bodies(w, page) == FromRows(w, page)
  {
    if page != [] {
      BodiesAreRows(w, page[..|page| - 1]);
      assert page[|page| - 1] in page;
    }
  }

  lemma WindowsAgree<T>(a: seq<T>, b: seq<T>, k: nat, offset: nat, limit: nat)
    requires k <= |a| && k <= |b| && a[..k] == b[..k]
    requires offset + limit <= k || (|a| == k && |b| == k)
    ensures Window(a, offset, limit) == Window(b, offset, limit)
  {
    if offset + limit <= k {
      if limit > 0 {
        assert a[offset..offset + limit] == a[..k][offset..offset + limit];
        assert b[offset..offset + limit] == b[..k][offset..offset + limit];
      } else {
        assert Window(a, offset, 0) == [] && Window(b, offset, 0) == [];
      }
    } else {
      assert a == a[..k] && b == b[..k];
    }
  }

  /** A set between the newest n and the whole answers windows within the first n as the whole. */
  lemma {:induction false} WindowOfNewest(feed: set<Entry>, all: set<Entry>, n: nat, offset: nat, limit: nat)
    requires Top(all, n) <= feed <= all && offset + limit <= n
    ensures Window(Sorted(feed), offset, limit) == Window(Sorted(all), offset, limit)
  {
    PrefixAgrees(feed, all, n);
    SubsetCount(feed, all);
    WindowsAgree(Sorted(feed), Sorted(all), if n < |all| then n else |all|, offset, limit);
  }

  /** A good feed answers the windows it guarantees as the database would. */
  lemma {:induction false} GoodFeedIsExact(cap: nat, w: World, u: nat, removed: nat, offset: nat, limit: nat)
    requires GoodFeed(cap, w, u, removed) && offset + limit <= Less(cap, removed)
    ensures Bodies(w, Zrevrange(FeedOf(w, u), offset, limit)) == DatabasePage(w, u, offset, limit)
  {
    var feed, all, n := FeedOf(w, u), FriendPosts(w, u), Less(cap, removed);
    WindowOfNewest(feed, all, n, offset, limit);
    SortedInFeed(feed, offset, limit);
    BodiesAreRows(w, Zrevrange(feed, offset, limit));
  }

  lemma {:induction false} FromRowsSame(w: World, w': World, page: seq<Entry>)
    requires w.posts == w'.posts
    ensures FromRows(w, page) == FromRows(w', page)
  {
    if page != [] {
      FromRowsSame(w, w', page[..|page| - 1]);
    }
  }

  lemma {:induction false} ReadOfGoodFeed(cap: nat, w: World, u: nat, removed: nat, offset: nat, limit: nat)
    requires GoodFeed(cap, w, u, removed) && limit >= 1
    requires offset + limit <= Less(cap, if FeedOf(w, u) == {} then 0 else removed)
    ensures ReadFeed(cap, w, u, offset, limit).1 == DatabasePage(w, u, offset, limit)
  {
    var w' := RefreshedForRead(cap, w, u);
    RebuildIsGood(cap, w, u);
    GoodFeedIsExact(cap, w', u, if FeedOf(w, u) == {} then 0 else removed, offset, limit);
    FromRowsSame(w, w', Window(Sorted(FriendPosts(w, u)), offset, limit));
  }

  /** A read that stays within the newest `cap - d` returns exactly the database's page, in order,
      with current texts and authors; after a cache miss d is zero. */
  lemma ReadIsExact(cap: nat, w: World, d: Ledger, u: nat, offset: nat, limit: nat)
    requires Good(cap, w, d) && limit >= 1
    requires offset + limit <= Less(cap, if FeedOf(w, u) == {} then 0 else d(u))
    ensures ReadFeed(cap, w, u, offset, limit).1 == DatabasePage(w, u, offset, limit)
  {
    assert GoodFeed(cap, w, u, d(u));
    ReadOfGoodFeed(cap, w, u, d(u), offset, limit);
  }

  /** The guarantee is tight. A deletion leaves the feed with the newest `cap` exactly unless it
      takes an entry out of the feed while the user's friends have more posts than the cap. */
  lemma {:induction false} DeletionLeavesAGap(cap: nat, w: World, u: nat, p: nat, user: nat)
    requires GoodFeed(cap, w, u, 0) && Owns(w, p, user)
    ensures var w' := DeletePost(w, p, user);
            (Top(FriendPosts(w', u), cap) <= FeedOf(w', u)
             <==> !(Entry(w.posts[p].createdAt, p) in FeedOf(w, u) && |FriendPosts(w, u)| > cap))
  {
    var e := Entry(w.posts[p].createdAt, p);
    var feed, all := FeedOf(w, u), FriendPosts(w, u);
    FriendPostsAre(w, u);
    DeleteEffect(w, u, p, user);
    if (u, user) in w.friends {
      ZremOfRow(w, u, feed, p);
      GapOfOne(cap, feed, all, e);
    }
  }

  lemma {:induction false} GapOfOne(cap: nat, feed: set<Entry>, all: set<Entry>, e: Entry)
    requires Graded(cap, feed, all, 0)
    ensures Top(all - {e}, cap) <= feed - {e} <==> !(e in feed && |all| > cap)
  {
    if e !in feed {
      RemoveOne(feed, all, e, cap);
    } else if |all| <= cap {
      TopOfSmall(all, cap);
    } else {
      TopIsPrefix(all - {e}, cap);
      NotWithin(Top(all - {e}, cap), feed - {e});
    }
  }

  lemma NotWithin(a: set<Entry>, b: set<Entry>)
    requires |a| > |b|
    ensures !(a <= b)
  {
    if a <= b {
      SubsetCount(a, b);
    }
  }

  // ---------------------------------------------------------------- a run that leaves a gap

  lemma {:induction false} OneMoreRequest(cap: nat, w: World, d: Ledger, rs: seq<Request>, r: Request)
    requires CanServeAll(cap, w, rs) && CanServe(After(cap, w, d, rs).0, r)
    ensures CanServeAll(cap, w, rs + [r])
    ensures var (w1, d1) := After(cap, w, d, rs);
            After(cap, w, d, rs + [r]) == (Serve(cap, w1, r), Charge(cap, w1, d1, r))
    decreases |rs|
  {
    if rs == [] {
      assert [r][1..] == [] && [] + [r] == [r];
    } else {
      OneMoreRequest(cap, Serve(cap, w, rs[0]), Charge(cap, w, d, rs[0]), rs[1..], r);
      assert (rs + [r])[1..] == rs[1..] + [r];
    }
  }

  /** User 1 follows user 2, whose posts 1 to n were created in this order. */
  ghost predicate Followed(w: World, n: nat) {
    && w.friends == {(1, 2)}
    && (forall i :: i in w.posts <==> 1 <= i <= n)
    && (forall i :: i in w.posts ==> w.posts[i].author == 2 && w.posts[i].createdAt == i)
  }

  lemma {:induction false} FollowedCount(w: World, n: nat)
    requires Followed(w, n)
    ensures |FriendPosts(w, 1)| == n
  {
    FriendPostsAre(w, 1);
    EntriesUpTo(n);
    assert FriendPosts(w, 1) == set i | 1 <= i <= n :: Entry(i, i);
  }

  lemma {:induction false} EntriesUpTo(n: nat)
    ensures |set i | 1 <= i <= n :: Entry(i, i)| == n
  {
    var all := set i | 1 <= i <= n :: Entry(i, i);
    if n == 0 {
      assert all == {};
    } else {
      EntriesUpTo(n - 1);
      assert all == (set i | 1 <= i <= n - 1 :: Entry(i, i)) + {Entry(n, n)};
    }
  }

  lemma {:induction false} OneMorePost(cap: nat, w: World, n: nat)
    requires Followed(w, n)
    ensures Followed(CreatePost(cap, w, n + 1, 2, "", n + 1), n + 1)
  {
  }

  lemma {:induction false} FirstFriend(cap: nat, w: World)
    requires Fresh(w) && 2 in w.users
    ensures Followed(SetFriend(cap, w, 1, 2), 0)
  {
  }

  ghost predicate FollowedAfter(cap: nat, w: World, rs: seq<Request>, n: nat) {
    var (w1, d1) := After(cap, w, NothingLost, rs);
    CanServeAll(cap, w, rs) && Followed(w1, n) && d1(1) == 0
  }

  lemma {:induction false} PostOnceMore(cap: nat, w: World, rs: seq<Request>, n: nat)
    requires FollowedAfter(cap, w, rs, n)
    ensures FollowedAfter(cap, w, rs + [Create(n + 1, 2, "", n + 1)], n + 1)
  {
    var (w1, d1) := After(cap, w, NothingLost, rs);
    var r := Create(n + 1, 2, "", n + 1);
    OneMoreRequest(cap, w, NothingLost, rs, r);
    OneMorePost(cap, w1, n);
    ChargeIs(cap, w1, d1, r, 1);
  }

  lemma {:induction false} FollowFirst(cap: nat, w: World)
    requires Fresh(w) && 2 in w.users
    ensures FollowedAfter(cap, w, [] + [Befriend(1, 2)], 0)
  {
    OneMoreRequest(cap, w, NothingLost, [], Befriend(1, 2));
    FirstFriend(cap, w);
    ChargeIs(cap, w, NothingLost, Befriend(1, 2), 1);
  }

  lemma {:induction false} ManyPosts(cap: nat, w: World, n: nat) returns (rs: seq<Request>)
    requires Fresh(w) && 2 in w.users
    ensures FollowedAfter(cap, w, rs, n)
  {
    if n == 0 {
      FollowFirst(cap, w);
      rs := [] + [Befriend(1, 2)];
    } else {
      var before := ManyPosts(cap, w, n - 1);
      PostOnceMore(cap, w, before, n - 1);
      rs := before + [Create(n, 2, "", n)];
    }
  }

  lemma {:induction false} NewestIsFed(cap: nat, w: World, n: nat)
    requires cap > 0 && n > 0 && Followed(w, n) && GoodFeed(cap, w, 1, 0)
    ensures Owns(w, n, 2) && Entry(n, n) in FeedOf(w, 1)
  {
    var e := Entry(n, n);
    FriendPostsAre(w, 1);
    assert NewerIn(FriendPosts(w, 1), e) == {};
    assert e in Top(FriendPosts(w, 1), cap);
  }

  /** For every cap some run of requests from nothing reaches such a deletion. */
  lemma {:induction false} GapHappens(cap: nat, w: World) returns (rs: seq<Request>)
    requires cap > 0 && Fresh(w) && 2 in w.users
    ensures CanServeAll(cap, w, rs)
    ensures var w1 := After(cap, w, NothingLost, rs).0;
            var w2 := DeletePost(w1, cap + 1, 2);
            GoodFeed(cap, w1, 1, 0) && !(Top(FriendPosts(w2, 1), cap) <= FeedOf(w2, 1))
  {
    rs := ManyPosts(cap, w, cap + 1);
    var w1 := After(cap, w, NothingLost, rs).0;
    FeedsStayGood(cap, w, rs, 1);
    NewestIsFed(cap, w1, cap + 1);
    FollowedCount(w1, cap + 1);
    DeletionLeavesAGap(cap, w1, 1, cap + 1, 2);
  }
}
