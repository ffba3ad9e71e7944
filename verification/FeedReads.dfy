/** What a reader of the feed sees, post by post: which post stands at which place of a page, and what
    the requests before it did to that. */
module FeedReads {
  import opened FeedOrder
  import opened Paging
  import opened FeedWorld

  // ---------------------------------------------------------------- places on a page

  ghost predicate FriendsPost(w: World, u: nat, p: nat) {
    p in w.posts && (u, w.posts[p].author) in w.friends
  }

  /** The friends' posts that come before the post: later ones, and of equal time those with the larger id. */
  ghost function PostsBefore(w: World, u: nat, p: nat): set<nat>
    requires p in w.posts
  {
    set q | q in w.posts && (u, w.posts[q].author) in w.friends
            && (w.posts[q].createdAt > w.posts[p].createdAt || (w.posts[q].createdAt == w.posts[p].createdAt && q > p))
  }

  /** The item names the post with its present text and author. */
  ghost predicate Shows(w: World, x: Item, p: nat) {
    p in w.posts && x.id == p && x.text == w.posts[p].text && x.author == w.posts[p].author
  }

  /** The item at position i is the friend's post with exactly offset + i friends' posts before it, and each
      such post within the limit is at its position. */
  ghost predicate ShowsByRank(w: World, u: nat, offset: nat, limit: nat, items: seq<Item>) {
    && |items| <= limit
    && (forall i :: 0 <= i < |items| ==> AtRank(w, u, items[i], offset + i))
    && (forall p :: FriendsPost(w, u, p) ==> InPlace(w, u, offset, limit, items, p))
  }

  ghost predicate AtRank(w: World, u: nat, x: Item, rank: nat) {
    FriendsPost(w, u, x.id) && Shows(w, x, x.id) && |PostsBefore(w, u, x.id)| == rank
  }

  ghost predicate InPlace(w: World, u: nat, offset: nat, limit: nat, items: seq<Item>, p: nat)
    requires p in w.posts
  {
    var rank := |PostsBefore(w, u, p)|;
    offset <= rank < offset + limit ==> rank - offset < |items| && Shows(w, items[rank - offset], p)
  }

  lemma {:induction false} IdsCount(s: set<Entry>)
    requires OneKeyPerId(s)
    ensures |set e | e in s :: e.pid| == |s|
  {
    if s != {} {
      var e :| e in s;
      var rest := s - {e};
      IdsCount(rest);
      assert (set x | x in s :: x.pid) == (set x | x in rest :: x.pid) + {e.pid};
    }
  }

  lemma {:induction false} RankOfPost(w: World, u: nat, p: nat)
    requires FriendsPost(w, u, p)
    ensures var e := Entry(w.posts[p].createdAt, p);
            e in FriendPosts(w, u) && |NewerIn(FriendPosts(w, u), e)| == |PostsBefore(w, u, p)|
  {
    var e := Entry(w.posts[p].createdAt, p);
    var newer := NewerIn(FriendPosts(w, u), e);
    IdsCount(newer);
    forall q | q in PostsBefore(w, u, p)
      ensures q in set x | x in newer :: x.pid
    {
      assert Entry(w.posts[q].createdAt, q) in newer;
    }
    assert PostsBefore(w, u, p) == set x | x in newer :: x.pid;
  }

  lemma {:induction false} FromRowsAt(w: World, page: seq<Entry>)
    requires forall e :: e in page ==> e.pid in w.posts
    ensures |FromRows(w, page)| == |page|
    ensures forall i :: 0 <= i < |page| ==> Shows(w, FromRows(w, page)[i], page[i].pid)
  {
    if page != [] {
      FromRowsAt(w, page[..|page| - 1]);
      assert page[|page| - 1] in page;
    }
  }

  ghost predicate ShowsAt(w: World, x: Item, q: seq<Entry>, k: nat) {
    k < |q| && Shows(w, x, q[k].pid)
  }

  lemma {:induction false} DatabaseItems(w: World, u: nat, offset: nat, limit: nat, q: seq<Entry>)
    requires q == Sorted(FriendPosts(w, u))
    ensures var items := DatabasePage(w, u, offset, limit);
            && |items| <= limit
            && (forall i :: 0 <= i < |items| ==> ShowsAt(w, items[i], q, offset + i))
            && (|items| == limit || |q| <= offset + |items|)
  {
    var page := Window(q, offset, limit);
    WindowIs(q, offset, limit);
    FriendPostsAre(w, u);
    forall e | e in page
      ensures e.pid in w.posts
    {
      var i :| 0 <= i < |page| && page[i] == e;
      assert q[offset + i] in q;
    }
    FromRowsAt(w, page);
  }

  /** Item by item, the page the database would list. */
  lemma {:induction false} DatabasePageByRank(w: World, u: nat, offset: nat, limit: nat)
    ensures ShowsByRank(w, u, offset, limit, DatabasePage(w, u, offset, limit))
  {
    var q, items := Sorted(FriendPosts(w, u)), DatabasePage(w, u, offset, limit);
    DatabaseItems(w, u, offset, limit, q);
    forall i | 0 <= i < |items|
      ensures AtRank(w, u, items[i], offset + i)
    {
      assert ShowsAt(w, items[i], q, offset + i);
      ItemAtRank(w, u, offset + i, items[i]);
    }
    forall p | FriendsPost(w, u, p)
      ensures InPlace(w, u, offset, limit, items, p)
    {
      PositionOfPost(w, u, p);
      PostInPlace(w, u, offset, limit, q, items, p);
    }
  }

  lemma {:induction false} ItemAtRank(w: World, u: nat, k: nat, x: Item)
    requires k < |Sorted(FriendPosts(w, u))| && Shows(w, x, Sorted(FriendPosts(w, u))[k].pid)
    ensures AtRank(w, u, x, k)
  {
    PostAtPosition(w, u, k);
  }

  lemma {:induction false} PostInPlace(w: World, u: nat, offset: nat, limit: nat, q: seq<Entry>, items: seq<Item>, p: nat)
    requires p in w.posts && |PostsBefore(w, u, p)| < |q| && q[|PostsBefore(w, u, p)|].pid == p
    requires forall i :: 0 <= i < |items| ==> ShowsAt(w, items[i], q, offset + i)
    requires |items| == limit || |q| <= offset + |items|
    ensures InPlace(w, u, offset, limit, items, p)
  {
    var rank := |PostsBefore(w, u, p)|;
    if offset <= rank < offset + limit {
      assert ShowsAt(w, items[rank - offset], q, offset + (rank - offset));
    }
  }

  lemma {:induction false} PostAtPosition(w: World, u: nat, i: nat)
    requires i < |Sorted(FriendPosts(w, u))|
    ensures var p := Sorted(FriendPosts(w, u))[i].pid;
            FriendsPost(w, u, p) && |PostsBefore(w, u, p)| == i
  {
    var e := Sorted(FriendPosts(w, u))[i];
    assert e in Sorted(FriendPosts(w, u));
    FriendPostsAre(w, u);
    RankOfPost(w, u, e.pid);
    PositionIsRank(FriendPosts(w, u), i);
  }

  lemma {:induction false} PositionOfPost(w: World, u: nat, p: nat)
    requires FriendsPost(w, u, p)
    ensures var i := |PostsBefore(w, u, p)|;
            i < |Sorted(FriendPosts(w, u))| && Sorted(FriendPosts(w, u))[i].pid == p
  {
    RankOfPost(w, u, p);
    RankIsPosition(FriendPosts(w, u), Entry(w.posts[p].createdAt, p));
  }

  /** A read of a good feed within the guaranteed depth shows, at position i, the friend's post with exactly
      offset + i friends' posts before it. */
  lemma {:induction false} ReadShowsByRank(cap: nat, w: World, u: nat, removed: nat, offset: nat, limit: nat)
    requires GoodFeed(cap, w, u, removed) && limit >= 1
    requires offset + limit <= Less(cap, if FeedOf(w, u) == {} then 0 else removed)
    ensures ShowsByRank(w, u, offset, limit, ReadFeed(cap, w, u, offset, limit).1)
  {
    ReadOfGoodFeed(cap, w, u, removed, offset, limit);
    DatabasePageByRank(w, u, offset, limit);
  }

  lemma {:induction false} ReadsShowByRank(cap: nat, w: World, u: nat, offset: nat, limit: nat)
    requires limit >= 1
    ensures forall removed: nat ::
              GoodFeed(cap, w, u, removed) && offset + limit <= Less(cap, if FeedOf(w, u) == {} then 0 else removed) ==>
              ShowsByRank(w, u, offset, limit, ReadFeed(cap, w, u, offset, limit).1)
  {
    forall removed: nat | GoodFeed(cap, w, u, removed) && offset + limit <= Less(cap, if FeedOf(w, u) == {} then 0 else removed)
      ensures ShowsByRank(w, u, offset, limit, ReadFeed(cap, w, u, offset, limit).1)
    {
      ReadShowsByRank(cap, w, u, removed, offset, limit);
    }
  }

  // ---------------------------------------------------------------- what is written is what is read

  lemma {:induction false} BodiesAt(w: World, page: seq<Entry>)
    requires forall e :: e in page ==> e.pid in w.hashes
    ensures |Bodies(w, page)| == |page|
    ensures forall i :: 0 <= i < |page| ==>
              Bodies(w, page)[i] == Item(page[i].pid, w.hashes[page[i].pid].text, w.hashes[page[i].pid].author)
  {
    if page != [] {
      BodiesAt(w, page[..|page| - 1]);
      assert page[|page| - 1] in page;
    }
  }

  lemma {:induction false} CreatePostStores(cap: nat, w: World, p: nat, author: nat, text: string, at: int)
    ensures var w' := CreatePost(cap, w, p, author, text, at);
            && w'.posts == w.posts[p := Post(author, text, at)]
            && w'.hashes == w.hashes[p := Post(author, text, at)]
            && w'.users == w.users && w'.friends == w.friends
  {
  }

  lemma {:induction false} NewestIsFirst(feed: set<Entry>, e: Entry, limit: nat)
    requires e in feed && limit >= 1 && forall x :: x in feed && x != e ==> Newer(e, x)
    ensures Zrevrange(feed, 0, limit) != [] && Zrevrange(feed, 0, limit)[0] == e
  {
    assert NewerIn(feed, e) == {};
    RankIsPosition(feed, e);
    WindowIs(Sorted(feed), 0, limit);
  }

  /** A new post that is newer than all the other friends' posts is the first item of the next read of every
      follower, with the text and the author it was posted with, however deep the feed is otherwise kept. */
  lemma {:induction false} NewPostIsReadFirst(cap: nat, w: World, u: nat, removed: nat,
                                              p: nat, author: nat, text: string, at: int, limit: nat)
    requires cap > 0 && limit >= 1 && GoodFeed(cap, w, u, removed) && p !in w.posts && (u, author) in w.friends
    requires forall q: nat :: FriendsPost(w, u, q) ==>
               w.posts[q].createdAt < at || (w.posts[q].createdAt == at && q < p)
    ensures var items := ReadFeed(cap, CreatePost(cap, w, p, author, text, at), u, 0, limit).1;
            items != [] && items[0] == Item(p, text, author)
  {
    var w', e := CreatePost(cap, w, p, author, text, at), Entry(at, p);
    CreatePostStores(cap, w, p, author, text, at);
    CreateKeepsGood(cap, w, u, removed, p, author, text, at);
    NewPostIsFed(cap, w, u, removed, p, author, text, at);
    var feed := FeedOf(w', u);
    FriendPostsAre(w', u);
    NewestIsFirst(feed, e, limit);
    SortedInFeed(feed, 0, limit);
    BodiesAt(w', Zrevrange(feed, 0, limit));
  }

  lemma {:induction false} NewPostIsFed(cap: nat, w: World, u: nat, removed: nat, p: nat, author: nat, text: string, at: int)
    requires cap > 0 && GoodFeed(cap, w, u, removed) && p !in w.posts && (u, author) in w.friends
    requires forall q: nat :: FriendsPost(w, u, q) ==>
               w.posts[q].createdAt < at || (w.posts[q].createdAt == at && q < p)
    ensures Entry(at, p) in FeedOf(CreatePost(cap, w, p, author, text, at), u)
    ensures forall x :: x in FeedOf(CreatePost(cap, w, p, author, text, at), u) && x != Entry(at, p) ==> Newer(Entry(at, p), x)
  {
    var feed, e := FeedOf(w, u), Entry(at, p);
    IsFollower(w, u, author);
    FriendPostsAre(w, u);
    var added := Zadd(feed, e);
    assert FeedOf(CreatePost(cap, w, p, author, text, at), u) == Top(added, cap);
    forall x | x in added && x != e
      ensures Newer(e, x)
    {
      assert x in FriendPosts(w, u);
    }
    assert NewerIn(added, e) == {};
  }

  lemma {:induction false} PageShowsFriendsPosts(cap: nat, w: World, u: nat, removed: nat, offset: nat, limit: nat)
    requires GoodFeed(cap, w, u, removed)
    ensures forall x :: x in Bodies(w, Zrevrange(FeedOf(w, u), offset, limit)) ==> FriendsPost(w, u, x.id) && Shows(w, x, x.id)
  {
    FriendPostsAre(w, u);
    var feed, page := FeedOf(w, u), Zrevrange(FeedOf(w, u), offset, limit);
    SortedInFeed(feed, offset, limit);
    BodiesAt(w, page);
    forall i | 0 <= i < |page|
      ensures FriendsPost(w, u, page[i].pid) && Shows(w, Bodies(w, page)[i], page[i].pid)
    {
      assert page[i] in feed;
    }
  }

  /** At any depth a read of a good feed shows friends' posts only, each with its present text and author. */
  lemma {:induction false} ReadShowsFriendsPosts(cap: nat, w: World, u: nat, removed: nat, offset: nat, limit: nat)
    requires GoodFeed(cap, w, u, removed)
    ensures forall x :: x in ReadFeed(cap, w, u, offset, limit).1 ==> FriendsPost(w, u, x.id) && Shows(w, x, x.id)
  {
    var w' := RefreshedForRead(cap, w, u);
    RebuildIsGood(cap, w, u);
    PageShowsFriendsPosts(cap, w', u, if FeedOf(w, u) == {} then 0 else removed, offset, limit);
    assert w'.posts == w.posts && w'.friends == w.friends;
  }

  /** After its author edits a post every read that shows it shows the new text. */
  lemma {:induction false} EditIsRead(cap: nat, w: World, u: nat, removed: nat, p: nat, user: nat, text: string,
                                      offset: nat, limit: nat)
    requires GoodFeed(cap, w, u, removed) && Owns(w, p, user)
    ensures forall x :: x in ReadFeed(cap, UpdatePost(w, p, user, text), u, offset, limit).1 ==>
              x.id in w.posts && x.author == w.posts[x.id].author && x.text == if x.id == p then text else w.posts[x.id].text
  {
    UpdateKeepsGood(cap, w, u, removed, p, user, text);
    ReadShowsFriendsPosts(cap, UpdatePost(w, p, user, text), u, removed, offset, limit);
  }

  /** After its author deletes a post no read shows it. */
  lemma {:induction false} DeletionIsRead(cap: nat, w: World, u: nat, removed: nat, p: nat, user: nat, offset: nat, limit: nat)
    requires GoodFeed(cap, w, u, removed) && Owns(w, p, user)
    ensures forall x :: x in ReadFeed(cap, DeletePost(w, p, user), u, offset, limit).1 ==> x.id != p && x.id in w.posts
  {
    var w' := DeletePost(w, p, user);
    DeleteKeepsGood(cap, w, u, removed, p, user);
    ReadShowsFriendsPosts(cap, w', u, removed + |FeedOf(w, u) - FeedOf(w', u)|, offset, limit);
  }

  /** After a friend is removed no read shows a post by that user. */
  lemma {:induction false} UnfriendingIsRead(cap: nat, w: World, u: nat, removed: nat, f: nat, offset: nat, limit: nat)
    requires GoodFeed(cap, w, u, removed)
    ensures forall x :: x in ReadFeed(cap, DeleteFriend(w, u, f), u, offset, limit).1 ==> x.author != f
  {
    var w' := DeleteFriend(w, u, f);
    UnfriendKeepsGood(cap, w, u, removed, u, f);
    ReadShowsFriendsPosts(cap, w', u, removed + |FeedOf(w, u) - FeedOf(w', u)|, offset, limit);
  }

  /** After a friend is added the newest of that friend's posts come up: a read of a fully kept feed within
      the cap shows each of the friends' posts at its rank, the new friend's among them. */
  lemma {:induction false} BefriendingIsRead(cap: nat, w: World, u: nat, removed: nat, f: nat, offset: nat, limit: nat)
    requires GoodFeed(cap, w, u, removed) && f != u && f in w.users && limit >= 1
    requires offset + limit <= Less(cap, removed)
    ensures var w' := SetFriend(cap, w, u, f);
            && (forall p :: p in w.posts && w.posts[p].author == f ==> FriendsPost(w', u, p))
            && ShowsByRank(w', u, offset, limit, ReadFeed(cap, w', u, offset, limit).1)
  {
    BefriendKeepsGood(cap, w, u, removed, u, f);
    ReadShowsByRank(cap, SetFriend(cap, w, u, f), u, removed, offset, limit);
  }

  // ---------------------------------------------------------------- what each request of a run writes

  /** The posts after each request of a run. */
  lemma {:induction false} ServePosts(cap: nat, w: World, r: Request)
    requires CanServe(w, r)
    ensures r.Create? ==> Serve(cap, w, r).posts == w.posts[r.p := Post(r.author, r.text, r.at)]
    ensures r.Update? ==>
              Serve(cap, w, r).posts
              == if r.p in w.posts && w.posts[r.p].author == r.user then w.posts[r.p := Post(r.user, r.text, w.posts[r.p].createdAt)] else w.posts
    ensures r.Delete? ==> Serve(cap, w, r).posts == if r.p in w.posts && w.posts[r.p].author == r.user then w.posts - {r.p} else w.posts
    ensures !r.Create? && !r.Update? && !r.Delete? ==> Serve(cap, w, r).posts == w.posts
  {
    if r.Update? {
      UpdateWrites(w, r.p, r.user, r.text);
    } else if !r.Create? && !r.Delete? {
      OtherRequestsKeepPosts(cap, w, r);
    }
  }

  lemma {:induction false} OtherRequestsKeepPosts(cap: nat, w: World, r: Request)
    requires !r.Create? && !r.Update? && !r.Delete?
    ensures Serve(cap, w, r).posts == w.posts
  {
    match r
    case Befriend(u, f) => BefriendWrites(cap, w, u, f);
    case Unfriend(_, _) =>
    case RebuildFeed(_) =>
    case Read(u, offset, limit) => ReadKeepsDatabase(cap, w, u, offset, limit);
    case CreatedAgain(_) =>
    case DeletedAgain(_, _) =>
  }

  /** The friendships after each request of a run. */
  lemma {:induction false} ServeFriends(cap: nat, w: World, r: Request)
    requires CanServe(w, r)
    ensures r.Befriend? ==>
              Serve(cap, w, r).friends == if r.f != r.u && r.f in w.users then w.friends + {(r.u, r.f)} else w.friends
    ensures r.Unfriend? ==> Serve(cap, w, r).friends == w.friends - {(r.u, r.f)}
    ensures !r.Befriend? && !r.Unfriend? ==> Serve(cap, w, r).friends == w.friends
    ensures Serve(cap, w, r).users == w.users
  {
    match r
    case Create(_, _, _, _) =>
    case Update(_, _, _) =>
    case Delete(_, _) =>
    case Befriend(u, f) => BefriendWrites(cap, w, u, f);
    case Unfriend(_, _) =>
    case RebuildFeed(_) =>
    case Read(u, offset, limit) => ReadKeepsDatabase(cap, w, u, offset, limit);
    case CreatedAgain(_) =>
    case DeletedAgain(_, _) =>
  }

  /** The feeds after the requests that are about feeds only. */
  lemma {:induction false} ServeFeeds(cap: nat, w: World, r: Request, u: nat)
    requires CanServe(w, r)
    ensures r.RebuildFeed? && r.u == u ==> FeedOf(Serve(cap, w, r), u) == Top(FriendPosts(w, u), cap)
    ensures r.Read? && r.u == u && FeedOf(w, u) == {} ==> FeedOf(Serve(cap, w, r), u) == Top(FriendPosts(w, u), cap)
    ensures r.DeletedAgain? && (u, r.author) in w.friends ==> forall e :: e in FeedOf(Serve(cap, w, r), u) ==> e.pid != r.p
    ensures r.CreatedAgain? && (u, w.posts[r.p].author) in w.friends && cap > 0
            && (forall e :: e in FeedOf(w, u) && e.pid != r.p ==> Newer(Entry(w.posts[r.p].createdAt, r.p), e)) ==>
              Entry(w.posts[r.p].createdAt, r.p) in FeedOf(Serve(cap, w, r), u)
  {
    if r.Read? && r.u == u && FeedOf(w, u) == {} {
      RebuildIsGood(cap, w, u);
      ReadLeavesFeeds(cap, w, u, r.offset, r.limit);
    } else if r.DeletedAgain? {
      IsFollower(w, u, r.author);
    } else if r.CreatedAgain? && (u, w.posts[r.p].author) in w.friends {
      AgainIsFed(cap, w, r.p, u);
    }
  }

  lemma {:induction false} AgainIsFed(cap: nat, w: World, p: nat, u: nat)
    requires p in w.posts && (u, w.posts[p].author) in w.friends
    ensures var e := Entry(w.posts[p].createdAt, p);
            cap > 0 && (forall x :: x in FeedOf(w, u) && x.pid != p ==> Newer(e, x)) ==> e in FeedOf(FanOutAgain(cap, w, p), u)
  {
    var e := Entry(w.posts[p].createdAt, p);
    IsFollower(w, u, w.posts[p].author);
    var added := Zadd(FeedOf(w, u), e);
    if forall x :: x in FeedOf(w, u) && x.pid != p ==> Newer(e, x) {
      assert NewerIn(added, e) == {};
    }
  }
}
