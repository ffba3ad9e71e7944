/** What merged reads show in the runs of HybridFeed: exactly when it is true, and exactly when it is the
    database's own page. */
module HybridReads {
  import opened FeedOrder
  import opened Paging
  import opened FeedWorld
  import opened FeedRows
  import opened FeedMerge
  import opened HybridFeed

  // ---------------------------------------------------------------- merged reads in a run

  lemma {:induction false} FilledForRead(w: World, after: World, flags: map<nat, bool>, threshold: nat, u: nat)
    requires after.friends == w.friends
    ensures var filled := Filled(w, flags, threshold, u);
            && (forall a :: a in filled <==> a in flags || a in FriendsOf(after, u))
            && (forall a :: a in filled ==> filled[a] == CelebrityFlag(after, flags, threshold, a))
  {
    assert FriendsOf(after, u) == FriendsOf(w, u);
    forall a | a in Filled(w, flags, threshold, u)
      ensures Followers(after, a) == Followers(w, a)
    {
    }
  }

  /** A merged read of a run leaves and answers what `FeedMerge.ReadFeedMerged` does. */
  lemma {:induction false} ReadIsTheMethods(cap: nat, threshold: nat, s: Hybrid, u: nat, offset: nat, limit: nat,
                                            after: World, flags: map<nat, bool>)
    requires limit >= 1 && Do(cap, threshold, s, ReadMerged(u, offset, limit)) == s.(w := after, flags := flags)
    ensures ReadsMerged(cap, threshold, s.w, s.flags, u, offset, limit, after, flags, Answer(cap, threshold, s, u, offset, limit))
  {
    assert after == ReadFeed(cap, s.w, u, 0, offset + limit).0;
    assert flags == Filled(s.w, s.flags, threshold, u);
    FilledForRead(s.w, after, s.flags, threshold, u);
  }

  /** The friends a merged read takes for celebrities. */
  function Pulled(s: Hybrid, threshold: nat, u: nat): set<nat> {
    CelebrityFriends(s.w, s.flags, threshold, u)
  }

  /** What `read_feed_merged` answers: `FeedMerge.ReadFeedMerged` returns just this. */
  function Answer(cap: nat, threshold: nat, s: Hybrid, u: nat, offset: nat, limit: nat): seq<Item> {
    var w := RefreshedForRead(cap, s.w, u);
    MergedPage(w, u, CelebrityFriends(w, s.flags, threshold, u), offset, limit)
  }

  ghost function Guaranteed(cap: nat, s: Hybrid, b: Books, u: nat): nat {
    Less(cap, LostForRead(s, b.lost(u), u))
  }

  /** What a read of the newest `n` takes from the feed: the newest `n` it indexes, if they have bodies. */
  ghost function FromFeed(cap: nat, s: Hybrid, b: Books, u: nat, n: nat): set<Entry> {
    WithBodies(RefreshedForRead(cap, s.w, u), Top(IndexForRead(s, b.index(u), u), n))
  }

  /** All it can show: those and the posts of flagged friends. */
  ghost function Known(cap: nat, threshold: nat, s: Hybrid, b: Books, u: nat, n: nat): set<Entry> {
    FromFeed(cap, s, b, u, n) + PostsOfAll(s.w, Pulled(s, threshold, u))
  }

  lemma {:induction false} ReadyForRead(cap: nat, threshold: nat, s: Hybrid, b: Books, u: nat)
    requires Keeps(cap, s, b)
    ensures var w := RefreshedForRead(cap, s.w, u);
            && Holds(cap, w, s.created, u, IndexForRead(s, b.index(u), u), LostForRead(s, b.lost(u), u))
            && Sane(w, s.created) && Tracks(w, s.created, WrongForRead(cap, s, b.wrong, u))
            && w.posts == s.w.posts && w.friends == s.w.friends
            && CelebrityFriends(w, s.flags, threshold, u) == Pulled(s, threshold, u)
            && PostsOfAll(w, Pulled(s, threshold, u)) == PostsOfAll(s.w, Pulled(s, threshold, u))
  {
    assert Holds(cap, s.w, s.created, u, b.index(u), b.lost(u));
    RefreshHolds(cap, s, b.index(u), b.lost(u), u);
    RefreshTracks(cap, s, b.wrong, u);
    SameFriends(RefreshedForRead(cap, s.w, u), s.w, s.flags, threshold, u);
  }

  lemma {:induction false} NamedBodyTimes(w: World, born: map<nat, Post>, index: set<Entry>)
    requires Sane(w, born) && NamedEntries(born, index)
    ensures BodyTimes(w, index)
  {
    forall e | e in index && e.pid in w.hashes
      ensures w.hashes[e.pid].createdAt == e.score
    {
      assert NamedPost(born, e.pid, w.hashes[e.pid]);
    }
  }

  lemma {:induction false} PostsOfAllAreNamed(w: World, born: map<nat, Post>, authors: set<nat>)
    requires Named(born, w.posts)
    ensures NamedEntries(born, PostsOfAll(w, authors))
  {
    PostsOfAllAre(w, authors);
    forall e | e in PostsOfAll(w, authors)
      ensures e.pid in born && e.score == born[e.pid].createdAt
    {
      assert NamedPost(born, e.pid, w.posts[e.pid]);
    }
  }

  lemma {:induction false} KnownAreNamed(cap: nat, threshold: nat, s: Hybrid, b: Books, u: nat, n: nat)
    requires Keeps(cap, s, b)
    ensures NamedEntries(s.created, Known(cap, threshold, s, b, u, n))
    ensures OneKeyPerId(Known(cap, threshold, s, b, u, n))
  {
    ReadyForRead(cap, threshold, s, b, u);
    PostsOfAllAreNamed(s.w, s.created, Pulled(s, threshold, u));
    assert FromFeed(cap, s, b, u, n) <= IndexForRead(s, b.index(u), u);
    NamedBoth(s.created, FromFeed(cap, s, b, u, n), PostsOfAll(s.w, Pulled(s, threshold, u)));
    NamedHaveOneKey(s.created, Known(cap, threshold, s, b, u, n));
  }

  lemma {:induction false} ShallowIsFed(cap: nat, w: World, born: map<nat, Post>, u: nat, index: set<Entry>, lost: nat, n: nat)
    requires Holds(cap, w, born, u, index, lost) && n <= Less(cap, lost)
    ensures Top(index, n) <= FeedOf(w, u) <= index
  {
    TopGrows(index, n, Less(cap, lost));
  }

  /** In every reachable state a merged read within the guaranteed depth returns exactly the window of
      the known posts, newest first and none twice: those from the feed as their stored bodies have them,
      the others as the database has them. */
  lemma {:induction false} MergedReadInRun(cap: nat, threshold: nat, s: Hybrid, b: Books, u: nat, offset: nat, limit: nat)
    requires Keeps(cap, s, b) && offset + limit <= Guaranteed(cap, s, b, u)
    requires DistinctTimes(Known(cap, threshold, s, b, u, offset + limit))
    ensures Answer(cap, threshold, s, u, offset, limit)
         == ShownPage(RefreshedForRead(cap, s.w, u), FromFeed(cap, s, b, u, offset + limit),
                      Window(Sorted(Known(cap, threshold, s, b, u, offset + limit)), offset, limit))
  {
    var w, index := RefreshedForRead(cap, s.w, u), IndexForRead(s, b.index(u), u);
    ReadyForRead(cap, threshold, s, b, u);
    ShallowIsFed(cap, w, s.created, u, index, LostForRead(s, b.lost(u), u), offset + limit);
    NamedBodyTimes(w, s.created, index);
    KnownAreNamed(cap, threshold, s, b, u, offset + limit);
    MergedReadShows(w, u, index, Pulled(s, threshold, u), offset, limit);
  }

  // ---------------------------------------------------------------- exactly when reads tell the truth

  /** Each entry of a page can be shown. */
  ghost predicate Showable(w: World, pushed: set<Entry>, q: seq<Entry>) {
    forall e :: e in q ==> if e in pushed then e.pid in w.hashes else IsRow(w, e)
  }

  lemma {:induction false} ShownIds(w: World, pushed: set<Entry>, q: seq<Entry>)
    requires Showable(w, pushed, q)
    ensures |ShownPage(w, pushed, q)| == |q|
    ensures forall i :: 0 <= i < |q| ==> ShownPage(w, pushed, q)[i].id == q[i].pid
  {
    if q != [] {
      ShownIds(w, pushed, q[..|q| - 1]);
      assert q[|q| - 1] in q;
    }
  }

  lemma {:induction false} RowsAreFewer(w: World, q: seq<Entry>)
    ensures |FromRows(w, q)| <= |q|
  {
    if q != [] {
      RowsAreFewer(w, q[..|q| - 1]);
    }
  }

  lemma {:induction false} SameLast<T>(a: seq<T>, b: seq<T>, x: T, y: T)
    ensures a + [x] == b + [y] <==> a == b && x == y
  {
    if a + [x] == b + [y] {
      assert (a + [x])[..|a + [x]| - 1] == a && (b + [y])[..|b + [y]| - 1] == b;
      assert (a + [x])[|a + [x]| - 1] == x && (b + [y])[|b + [y]| - 1] == y;
    }
  }

  /** A page shows what the database has exactly if no shown body is wrong. */
  lemma {:induction false} ShownIsTrue(w: World, born: map<nat, Post>, pushed: set<Entry>, q: seq<Entry>)
    requires Sane(w, born) && Showable(w, pushed, q)
    ensures ShownPage(w, pushed, q) == FromRows(w, q) <==> forall e :: e in q && e in pushed ==> !BodyWrong(w, e.pid)
  {
    if q != [] {
      var front, e := q[..|q| - 1], q[|q| - 1];
      assert q == front + [e];
      assert e in q && forall x :: x in q <==> x in front || x == e;
      ShownIsTrue(w, born, pushed, front);
      ShownIds(w, pushed, q);
      RowsAreFewer(w, front);
      LastIsTrue(w, born, pushed, front, e);
    }
  }

  lemma {:induction false} LastIsTrue(w: World, born: map<nat, Post>, pushed: set<Entry>, front: seq<Entry>, e: Entry)
    requires Sane(w, born) && if e in pushed then e.pid in w.hashes else IsRow(w, e)
    requires |ShownPage(w, pushed, front)| == |front| && |FromRows(w, front)| <= |front|
    ensures ShownPage(w, pushed, front + [e]) == FromRows(w, front + [e])
       <==> ShownPage(w, pushed, front) == FromRows(w, front) && (e in pushed ==> !BodyWrong(w, e.pid))
  {
    var q := front + [e];
    assert q[..|q| - 1] == front;
    if e.pid in w.posts {
      var row := Item(e.pid, w.posts[e.pid].text, w.posts[e.pid].author);
      var shown := if e in pushed then Item(e.pid, w.hashes[e.pid].text, w.hashes[e.pid].author) else row;
      SameLast(ShownPage(w, pushed, front), FromRows(w, front), shown, row);
      assert NamedPost(born, e.pid, w.posts[e.pid]);
      assert e in pushed ==> NamedPost(born, e.pid, w.hashes[e.pid]);
    }
  }

  lemma {:induction false} KnownAreShowable(cap: nat, threshold: nat, s: Hybrid, b: Books, u: nat, n: nat, q: seq<Entry>)
    requires Keeps(cap, s, b) && forall e :: e in q ==> e in Known(cap, threshold, s, b, u, n)
    ensures Showable(RefreshedForRead(cap, s.w, u), FromFeed(cap, s, b, u, n), q)
  {
    ReadyForRead(cap, threshold, s, b, u);
    PostsOfAllAre(s.w, Pulled(s, threshold, u));
  }

  /** The posts a read shows. */
  ghost function Page(cap: nat, threshold: nat, s: Hybrid, b: Books, u: nat, offset: nat, limit: nat): seq<Entry> {
    Zrevrange(Known(cap, threshold, s, b, u, offset + limit), offset, limit)
  }

  /** In every reachable state a merged read shows the current texts of existing posts exactly if none of
      the posts it shows from the feed is a wrong one, that is, if the last write to the body of each
      carried the text the post has now. */
  lemma {:induction false} ReadIsTrueExactly(cap: nat, threshold: nat, s: Hybrid, b: Books, u: nat, offset: nat, limit: nat)
    requires Keeps(cap, s, b) && offset + limit <= Guaranteed(cap, s, b, u)
    requires DistinctTimes(Known(cap, threshold, s, b, u, offset + limit))
    ensures Answer(cap, threshold, s, u, offset, limit) == FromRows(s.w, Page(cap, threshold, s, b, u, offset, limit))
       <==> forall e :: e in Page(cap, threshold, s, b, u, offset, limit) && e in FromFeed(cap, s, b, u, offset + limit) ==>
              e.pid !in WrongForRead(cap, s, b.wrong, u)
  {
    var w, q := RefreshedForRead(cap, s.w, u), Page(cap, threshold, s, b, u, offset, limit);
    MergedReadInRun(cap, threshold, s, b, u, offset, limit);
    ReadyForRead(cap, threshold, s, b, u);
    SortedInFeed(Known(cap, threshold, s, b, u, offset + limit), offset, limit);
    KnownAreShowable(cap, threshold, s, b, u, offset + limit, q);
    KnownAreNamed(cap, threshold, s, b, u, offset + limit);
    ShownIsTrue(w, s.created, FromFeed(cap, s, b, u, offset + limit), q);
    FromRowsSame(w, s.w, q);
    assert forall e :: e in q ==> (BodyWrong(w, e.pid) <==> e.pid in WrongForRead(cap, s, b.wrong, u));
  }

  /** And it is the database's own page exactly if moreover the posts are the newest of the friends'. */
  lemma {:induction false} ReadIsDatabasesExactly(cap: nat, threshold: nat, s: Hybrid, b: Books, u: nat, offset: nat, limit: nat)
    requires Keeps(cap, s, b) && offset + limit <= Guaranteed(cap, s, b, u)
    requires DistinctTimes(Known(cap, threshold, s, b, u, offset + limit))
    ensures Answer(cap, threshold, s, u, offset, limit) == DatabasePage(s.w, u, offset, limit)
       <==> && Page(cap, threshold, s, b, u, offset, limit) == Zrevrange(FriendPosts(s.w, u), offset, limit)
            && (forall e :: e in Page(cap, threshold, s, b, u, offset, limit) && e in FromFeed(cap, s, b, u, offset + limit) ==>
                  e.pid !in WrongForRead(cap, s, b.wrong, u))
  {
    var q, all := Page(cap, threshold, s, b, u, offset, limit), Zrevrange(FriendPosts(s.w, u), offset, limit);
    ReadIsTrueExactly(cap, threshold, s, b, u, offset, limit);
    if Answer(cap, threshold, s, u, offset, limit) == DatabasePage(s.w, u, offset, limit) {
      AnswerIds(cap, threshold, s, b, u, offset, limit);
      DatabaseIds(cap, s, b, u, offset, limit);
      KnownAreNamed(cap, threshold, s, b, u, offset + limit);
      SortedInFeed(Known(cap, threshold, s, b, u, offset + limit), offset, limit);
      SamePids(s.created, q, all);
    }
  }

  lemma {:induction false} AnswerIds(cap: nat, threshold: nat, s: Hybrid, b: Books, u: nat, offset: nat, limit: nat)
    requires Keeps(cap, s, b) && offset + limit <= Guaranteed(cap, s, b, u)
    requires DistinctTimes(Known(cap, threshold, s, b, u, offset + limit))
    ensures var q := Page(cap, threshold, s, b, u, offset, limit);
            && |Answer(cap, threshold, s, u, offset, limit)| == |q|
            && forall i :: 0 <= i < |q| ==> Answer(cap, threshold, s, u, offset, limit)[i].id == q[i].pid
  {
    var q := Page(cap, threshold, s, b, u, offset, limit);
    MergedReadInRun(cap, threshold, s, b, u, offset, limit);
    SortedInFeed(Known(cap, threshold, s, b, u, offset + limit), offset, limit);
    KnownAreShowable(cap, threshold, s, b, u, offset + limit, q);
    ShownIds(RefreshedForRead(cap, s.w, u), FromFeed(cap, s, b, u, offset + limit), q);
  }

  lemma {:induction false} DatabaseIds(cap: nat, s: Hybrid, b: Books, u: nat, offset: nat, limit: nat)
    requires Keeps(cap, s, b)
    ensures var q := Zrevrange(FriendPosts(s.w, u), offset, limit);
            && |DatabasePage(s.w, u, offset, limit)| == |q|
            && (forall i :: 0 <= i < |q| ==> DatabasePage(s.w, u, offset, limit)[i].id == q[i].pid)
            && NamedEntries(s.created, Elements(q))
  {
    var q := Zrevrange(FriendPosts(s.w, u), offset, limit);
    FriendPostsAre(s.w, u);
    SortedInFeed(FriendPosts(s.w, u), offset, limit);
    FromRowsIds(s.w, q);
    PostsAreNamed(s.w, s.created, u);
  }

  lemma {:induction false} SamePids(born: map<nat, Post>, a: seq<Entry>, b: seq<Entry>)
    requires forall e :: e in a || e in b ==> e.pid in born && e.score == born[e.pid].createdAt
    requires |a| == |b| && forall i :: 0 <= i < |a| ==> a[i].pid == b[i].pid
    ensures a == b
  {
    forall i | 0 <= i < |a|
      ensures a[i] == b[i]
    {
      assert a[i] in a && b[i] in b;
    }
  }

  /** A deleted post is shown exactly if its entry is on the page of known posts, and it is known exactly
      if it is among the newest the feed indexes and a created event has brought its body back. */
  lemma {:induction false} DeadIsShownExactly(cap: nat, threshold: nat, s: Hybrid, b: Books, u: nat, offset: nat, limit: nat, p: nat)
    requires Keeps(cap, s, b) && offset + limit <= Guaranteed(cap, s, b, u)
    requires DistinctTimes(Known(cap, threshold, s, b, u, offset + limit))
    requires p in s.created && p !in s.w.posts
    ensures (exists x :: x in Answer(cap, threshold, s, u, offset, limit) && x.id == p)
       <==> EntryOf(p, s.created[p]) in Page(cap, threshold, s, b, u, offset, limit)
    ensures EntryOf(p, s.created[p]) in Known(cap, threshold, s, b, u, offset + limit)
       <==> EntryOf(p, s.created[p]) in Top(IndexForRead(s, b.index(u), u), offset + limit)
            && p in WrongForRead(cap, s, b.wrong, u)
  {
    DeadOnPage(cap, threshold, s, b, u, offset, limit, p);
    ReadyForRead(cap, threshold, s, b, u);
    PostsOfAllAre(s.w, Pulled(s, threshold, u));
    assert BodyWrong(RefreshedForRead(cap, s.w, u), p) <==> p in RefreshedForRead(cap, s.w, u).hashes;
  }

  lemma {:induction false} DeadOnPage(cap: nat, threshold: nat, s: Hybrid, b: Books, u: nat, offset: nat, limit: nat, p: nat)
    requires Keeps(cap, s, b) && offset + limit <= Guaranteed(cap, s, b, u)
    requires DistinctTimes(Known(cap, threshold, s, b, u, offset + limit))
    requires p in s.created
    ensures (exists x :: x in Answer(cap, threshold, s, u, offset, limit) && x.id == p)
       <==> EntryOf(p, s.created[p]) in Page(cap, threshold, s, b, u, offset, limit)
  {
    var items, q := Answer(cap, threshold, s, u, offset, limit), Page(cap, threshold, s, b, u, offset, limit);
    AnswerIds(cap, threshold, s, b, u, offset, limit);
    KnownAreNamed(cap, threshold, s, b, u, offset + limit);
    SortedInFeed(Known(cap, threshold, s, b, u, offset + limit), offset, limit);
    IdsAreEntries(s.created, items, q, p);
  }

  lemma {:induction false} IdsAreEntries(born: map<nat, Post>, items: seq<Item>, q: seq<Entry>, p: nat)
    requires |items| == |q| && forall i :: 0 <= i < |q| ==> items[i].id == q[i].pid
    requires p in born && forall e :: e in q ==> e.pid in born && e.score == born[e.pid].createdAt
    ensures (exists x :: x in items && x.id == p) <==> EntryOf(p, born[p]) in q
  {
    if EntryOf(p, born[p]) in q {
      var i :| 0 <= i < |q| && q[i] == EntryOf(p, born[p]);
      assert items[i] in items;
    }
    if exists x :: x in items && x.id == p {
      var x :| x in items && x.id == p;
      var i :| 0 <= i < |items| && items[i] == x;
      assert q[i] in q;
    }
  }

  // ---------------------------------------------------------------- as long as no flag goes

  /** Every friend's post the feed does not index waits for its worker or is by a flagged author. */
  ghost predicate Covered(s: Hybrid, index: set<Entry>, u: nat) {
    forall e :: e in FriendPosts(s.w, u) - index ==> e.pid in s.unhandled || Flagged(s, e.pid)
  }

  predicate Flagged(s: Hybrid, p: nat) {
    p in s.w.posts && s.w.posts[p].author in s.flags && s.flags[s.w.posts[p].author]
  }

  /** What an event other than a lost flag keeps. */
  ghost predicate CoveredAfter(cap: nat, threshold: nat, s: Hybrid, index: set<Entry>, x: Event, v: nat)
    requires CanDo(s, x)
  {
    Covered(Do(cap, threshold, s, x), IndexAfter(cap, threshold, s, index, x, v), v)
  }

  lemma {:induction false} SamePostsSameFriends(w: World, w': World, v: nat)
    requires w'.posts == w.posts && w'.friends == w.friends
    ensures FriendPosts(w', v) == FriendPosts(w, v)
  {
    FriendPostsAre(w, v);
    FriendPostsAre(w', v);
  }

  lemma {:induction false} RowIsEntry(w: World, born: map<nat, Post>, p: nat, v: nat)
    requires Named(born, w.posts) && p in born
    ensures forall e :: e in FriendPosts(w, v) && e.pid == p ==> e == EntryOf(p, born[p]) && (v, born[p].author) in w.friends
  {
    FriendPostsAre(w, v);
    if p in w.posts {
      assert NamedPost(born, p, w.posts[p]);
    }
  }

  lemma {:induction false} HandleKeepsCovered(cap: nat, threshold: nat, s: Hybrid, index: set<Entry>, p: nat, v: nat)
    requires Sane(s.w, s.created) && p in s.created && Covered(s, index, v)
    ensures CoveredAfter(cap, threshold, s, index, Event.Handle(p), v)
  {
    var s' := Handled(cap, threshold, s, p);
    HandledBodies(cap, threshold, s, p);
    SamePostsSameFriends(s.w, s'.w, v);
    RowIsEntry(s.w, s.created, p, v);
    assert p in s.w.posts ==> NamedPost(s.created, p, s.w.posts[p]);
    assert forall q :: Flagged(s, q) ==> Flagged(s', q);
  }

  lemma {:induction false} CreateKeepsCovered(cap: nat, threshold: nat, s: Hybrid, index: set<Entry>, x: Event, v: nat)
    requires x.Create? && CanDo(s, x) && Named(s.created, s.w.posts) && Covered(s, index, v)
    ensures CoveredAfter(cap, threshold, s, index, x, v)
  {
    assert x.p in s.w.posts ==> NamedPost(s.created, x.p, s.w.posts[x.p]);
    FriendPostsAre(s.w, v);
    FriendPostsAre(Do(cap, threshold, s, x).w, v);
  }

  lemma {:induction false} UpdateKeepsCovered(cap: nat, threshold: nat, s: Hybrid, index: set<Entry>, x: Event, v: nat)
    requires x.Update? && Covered(s, index, v)
    ensures CoveredAfter(cap, threshold, s, index, x, v)
  {
    FriendPostsAre(s.w, v);
    FriendPostsAre(Do(cap, threshold, s, x).w, v);
  }

  lemma {:induction false} DeleteKeepsCovered(cap: nat, threshold: nat, s: Hybrid, index: set<Entry>, x: Event, v: nat)
    requires x.Delete? && Covered(s, index, v)
    ensures CoveredAfter(cap, threshold, s, index, x, v)
  {
    FriendPostsAre(s.w, v);
    FriendPostsAre(Do(cap, threshold, s, x).w, v);
  }

  lemma {:induction false} HandleDeletedKeepsCovered(cap: nat, threshold: nat, s: Hybrid, index: set<Entry>, x: Event, v: nat)
    requires x.HandleDeleted? && CanDo(s, x) && Covered(s, index, v)
    ensures CoveredAfter(cap, threshold, s, index, x, v)
  {
    FriendPostsAre(s.w, v);
    SamePostsSameFriends(s.w, Do(cap, threshold, s, x).w, v);
  }

  lemma {:induction false} BefriendAddsPosts(cap: nat, w: World, u: nat, f: nat, v: nat)
    ensures FriendPosts(SetFriend(cap, w, u, f), v)
         == if v == u && f != u && f in w.users then FriendPosts(w, v) + PostsOf(w, f) else FriendPosts(w, v)
  {
    if v == u && f != u && f in w.users {
      BefriendPosts(cap, w, u, f);
    } else {
      BefriendOther(cap, w, v, u, f);
    }
  }

  lemma {:induction false} BefriendKeepsCovered(cap: nat, threshold: nat, s: Hybrid, index: set<Entry>, x: Event, v: nat)
    requires x.Befriend? && Covered(s, index, v)
    ensures CoveredAfter(cap, threshold, s, index, x, v)
  {
    BefriendAddsPosts(cap, s.w, x.u, x.f, v);
    if x.f != x.u && x.f in s.w.users {
      BefriendBodies(cap, s.w, x.u, x.f);
    }
  }

  lemma {:induction false} UnfriendTakesPosts(w: World, born: map<nat, Post>, index: set<Entry>, u: nat, f: nat)
    requires Sane(w, born)
    ensures forall e :: e in FriendPosts(DeleteFriend(w, u, f), u) ==> e in FriendPosts(w, u) && e !in ByHash(w, index, f)
  {
    FriendPostsAre(w, u);
    FriendPostsAre(DeleteFriend(w, u, f), u);
    forall e | e in FriendPosts(DeleteFriend(w, u, f), u)
      ensures e in FriendPosts(w, u) && e !in ByHash(w, index, f)
    {
      assert NamedPost(born, e.pid, w.posts[e.pid]) && NamedPost(born, e.pid, w.hashes[e.pid]);
    }
  }

  lemma {:induction false} UnfriendKeepsCovered(cap: nat, threshold: nat, s: Hybrid, index: set<Entry>, x: Event, v: nat)
    requires x.Unfriend? && Sane(s.w, s.created) && Covered(s, index, v)
    ensures CoveredAfter(cap, threshold, s, index, x, v)
  {
    if v == x.u {
      UnfriendTakesPosts(s.w, s.created, index, v, x.f);
    } else {
      UnfriendOther(s.w, v, x.u, x.f);
    }
  }

  lemma {:induction false} DroppedAreDead(cap: nat, s: Hybrid, u: nat, n: nat)
    requires Sane(s.w, s.created)
    ensures forall e :: e in Dropped(cap, s.w, u, n) ==> e !in FriendPosts(s.w, u)
  {
    FriendPostsAre(s.w, u);
    FriendPostsAre(RefreshedForRead(cap, s.w, u), u);
  }

  lemma {:induction false} IndexOfRead(cap: nat, s: Hybrid, index: set<Entry>, u: nat, n: nat)
    requires Sane(s.w, s.created)
    ensures forall e :: e in FriendPosts(s.w, u) - (IndexForRead(s, index, u) - Dropped(cap, s.w, u, n)) ==>
              e in FriendPosts(s.w, u) - index
  {
    DroppedAreDead(cap, s, u, n);
  }

  lemma {:induction false} ReadKeepsRows(cap: nat, w: World, u: nat, n: nat)
    ensures ReadFeed(cap, w, u, 0, n).0.posts == w.posts && ReadFeed(cap, w, u, 0, n).0.friends == w.friends
  {
  }

  lemma {:induction false} ReadKeepsPosts(cap: nat, threshold: nat, s: Hybrid, x: Event, v: nat)
    requires x.ReadMerged? && CanDo(s, x)
    ensures var s' := Do(cap, threshold, s, x);
            && FriendPosts(s'.w, v) == FriendPosts(s.w, v) && s'.unhandled == s.unhandled
            && forall p :: Flagged(s, p) ==> Flagged(s', p)
  {
    var s' := Do(cap, threshold, s, x);
    ReadKeepsRows(cap, s.w, x.u, x.offset + x.limit);
    SamePostsSameFriends(s.w, s'.w, v);
    FilledKeepsFlags(s, s', threshold, x.u);
  }

  lemma {:induction false} FilledKeepsFlags(s: Hybrid, s': Hybrid, threshold: nat, u: nat)
    requires s'.w.posts == s.w.posts && s'.flags == Filled(s.w, s.flags, threshold, u)
    ensures forall p :: Flagged(s, p) ==> Flagged(s', p)
  {
  }

  lemma {:induction false} ReadKeepsCovered(cap: nat, threshold: nat, s: Hybrid, index: set<Entry>, x: Event, v: nat)
    requires x.ReadMerged? && CanDo(s, x) && Sane(s.w, s.created) && Covered(s, index, v)
    ensures CoveredAfter(cap, threshold, s, index, x, v)
  {
    ReadKeepsPosts(cap, threshold, s, x, v);
    IndexOfRead(cap, s, index, v, x.offset + x.limit);
  }

  lemma {:induction false} RebuildKeepsCovered(cap: nat, threshold: nat, s: Hybrid, index: set<Entry>, x: Event, v: nat)
    requires x.RebuildFeed? && Covered(s, index, v)
    ensures CoveredAfter(cap, threshold, s, index, x, v)
  {
    SamePostsSameFriends(s.w, Do(cap, threshold, s, x).w, v);
  }

  lemma {:induction false} DoKeepsCovered(cap: nat, threshold: nat, s: Hybrid, index: set<Entry>, x: Event, v: nat)
    requires Sane(s.w, s.created) && CanDo(s, x) && !x.DropFlag? && Covered(s, index, v)
    ensures CoveredAfter(cap, threshold, s, index, x, v)
  {
    match x
    case Create(_, _, _, _) => CreateKeepsCovered(cap, threshold, s, index, x, v);
    case Handle(p) => HandleKeepsCovered(cap, threshold, s, index, p, v);
    case Update(_, _, _) => UpdateKeepsCovered(cap, threshold, s, index, x, v);
    case Delete(_, _) => DeleteKeepsCovered(cap, threshold, s, index, x, v);
    case HandleDeleted(_) => HandleDeletedKeepsCovered(cap, threshold, s, index, x, v);
    case Befriend(_, _) => BefriendKeepsCovered(cap, threshold, s, index, x, v);
    case Unfriend(_, _) => UnfriendKeepsCovered(cap, threshold, s, index, x, v);
    case RebuildFeed(_) => RebuildKeepsCovered(cap, threshold, s, index, x, v);
    case ReadMerged(_, _, _) => ReadKeepsCovered(cap, threshold, s, index, x, v);
  }

  // ---------------------------------------------------------------- when reads are the database's

  /** The feed indexes only friends' posts, none with a wrong body, and all the others wait for their
      worker or are by flagged authors. */
  ghost predicate Settled(s: Hybrid, b: Books, u: nat) {
    && b.index(u) <= FriendPosts(s.w, u) && Covered(s, b.index(u), u)
    && forall e :: e in b.index(u) ==> e.pid !in b.wrong
  }

  lemma {:induction false} CoveredIsKnown(threshold: nat, s: Hybrid, index: set<Entry>, u: nat)
    requires Covered(s, index, u) && index <= FriendPosts(s.w, u)
    requires forall e :: e in FriendPosts(s.w, u) ==> e.pid !in s.unhandled
    ensures index + PostsOfAll(s.w, Pulled(s, threshold, u)) == FriendPosts(s.w, u)
  {
    PostsOfAllAre(s.w, Pulled(s, threshold, u));
    FriendPostsAre(s.w, u);
    forall f | f in FriendsOf(s.w, u)
      ensures (u, f) in s.w.friends
    {
      var x :| x in s.w.friends && x.0 == u && x.1 == f;
      assert x == (u, f);
    }
    forall e | e in FriendPosts(s.w, u) - index
      ensures e in PostsOfAll(s.w, Pulled(s, threshold, u))
    {
      assert Flagged(s, e.pid);
      assert (u, s.w.posts[e.pid].author).1 in FriendsOf(s.w, u);
    }
  }

  lemma {:induction false} NewestAreKnown(index: set<Entry>, pulled: set<Entry>, known: set<Entry>, all: set<Entry>, n: nat,
                                          offset: nat, limit: nat)
    requires known == Top(index, n) + pulled && all == index + pulled && offset + limit <= n
    ensures Zrevrange(known, offset, limit) == Zrevrange(all, offset, limit) && known <= all
  {
    TopOfUnion(index, pulled, n);
    assert Top(pulled, n) <= pulled && Top(index, n) <= index;
    WindowOfNewest(known, all, n, offset, limit);
  }

  lemma {:induction false} LiveHaveBodies(w: World, born: map<nat, Post>, u: nat, some: set<Entry>)
    requires Sane(w, born) && some <= FriendPosts(w, u)
    ensures WithBodies(w, some) == some
  {
    FriendPostsAre(w, u);
  }

  lemma {:induction false} SettledKnown(cap: nat, threshold: nat, s: Hybrid, b: Books, u: nat, n: nat)
    requires Keeps(cap, s, b) && Settled(s, b, u)
    requires forall e :: e in FriendPosts(s.w, u) ==> e.pid !in s.unhandled
    ensures var index := IndexForRead(s, b.index(u), u);
            && Known(cap, threshold, s, b, u, n) == Top(index, n) + PostsOfAll(s.w, Pulled(s, threshold, u))
            && index + PostsOfAll(s.w, Pulled(s, threshold, u)) == FriendPosts(s.w, u)
  {
    var index, w := IndexForRead(s, b.index(u), u), RefreshedForRead(cap, s.w, u);
    ReadyForRead(cap, threshold, s, b, u);
    SamePostsSameFriends(s.w, w, u);
    CoveredIsKnown(threshold, s, index, u);
    assert Top(index, n) <= index;
    LiveHaveBodies(w, s.created, u, Top(index, n));
  }

  lemma {:induction false} SettledPage(cap: nat, threshold: nat, s: Hybrid, b: Books, u: nat, offset: nat, limit: nat,
                                       known: set<Entry>, all: set<Entry>)
    requires Keeps(cap, s, b) && Settled(s, b, u)
    requires forall e :: e in FriendPosts(s.w, u) ==> e.pid !in s.unhandled
    requires known == Known(cap, threshold, s, b, u, offset + limit) && all == FriendPosts(s.w, u)
    ensures Zrevrange(known, offset, limit) == Zrevrange(all, offset, limit) && known <= all
  {
    var n := offset + limit;
    SettledKnown(cap, threshold, s, b, u, n);
    NewestAreKnown(IndexForRead(s, b.index(u), u), PostsOfAll(s.w, Pulled(s, threshold, u)), known, all, n, offset, limit);
  }

  /** After a rebuild for the read, too, no indexed body is wrong that can be shown. */
  lemma {:induction false} SettledBodies(cap: nat, threshold: nat, s: Hybrid, b: Books, u: nat, n: nat)
    requires Keeps(cap, s, b) && Settled(s, b, u) && n <= cap
    ensures forall e :: e in FromFeed(cap, s, b, u, n) ==> e.pid !in WrongForRead(cap, s, b.wrong, u)
  {
    var all := FriendPosts(s.w, u);
    TopGrows(all, n, cap);
    forall e | e in FromFeed(cap, s, b, u, n)
      ensures e.pid !in WrongForRead(cap, s, b.wrong, u)
    {
      if FeedOf(s.w, u) == {} {
        assert e in Top(all, cap);
      }
    }
  }

  lemma {:induction false} FewerTimes(some: set<Entry>, all: set<Entry>)
    requires some <= all && DistinctTimes(all)
    ensures DistinctTimes(some)
  {
  }

  /** For a settled user whose friends' posts have been handled, every merged read within the guaranteed
      depth is the database's own page. */
  lemma {:induction false} SettledReadIsDatabases(cap: nat, threshold: nat, s: Hybrid, b: Books, u: nat, offset: nat, limit: nat)
    requires Keeps(cap, s, b) && Settled(s, b, u) && offset + limit <= Guaranteed(cap, s, b, u)
    requires forall e :: e in FriendPosts(s.w, u) ==> e.pid !in s.unhandled
    requires DistinctTimes(FriendPosts(s.w, u))
    ensures Answer(cap, threshold, s, u, offset, limit) == DatabasePage(s.w, u, offset, limit)
  {
    SettledPage(cap, threshold, s, b, u, offset, limit, Known(cap, threshold, s, b, u, offset + limit), FriendPosts(s.w, u));
    FewerTimes(Known(cap, threshold, s, b, u, offset + limit), FriendPosts(s.w, u));
    SettledBodies(cap, threshold, s, b, u, offset + limit);
    ReadIsDatabasesExactly(cap, threshold, s, b, u, offset, limit);
  }

  // ---------------------------------------------------------------- orderly runs

  /** No flag goes, and a created event is handled, at any time and any number of times, while its post
      lives with the text it carries. */
  predicate Timely(s: Hybrid, x: Event) {
    && !x.DropFlag?
    && (x.Handle? ==> x.p in s.created && x.p in s.w.posts
                      && (s.created[x.p].text == "" || s.created[x.p].text == s.w.posts[x.p].text))
  }

  predicate Deletes(s: Hybrid, x: Event) {
    x.Delete? && Owns(s.w, x.p, x.user)
  }

  /** Timely events only, and each deleted event is handled at once. */
  ghost predicate Orderly(cap: nat, threshold: nat, s: Hybrid, xs: seq<Event>)
    requires CanDoAll(cap, threshold, s, xs)
    decreases |xs|
  {
    xs == [] ||
      (&& Timely(s, xs[0])
       && (Deletes(s, xs[0]) ==> |xs| > 1 && xs[1] == HandleDeleted(xs[0].p))
       && Orderly(cap, threshold, Do(cap, threshold, s, xs[0]), xs[1..]))
  }

  /** A feed indexes only friends' posts, except those just deleted whose event is next. */
  ghost predicate IndexesFriends(s: Hybrid, index: set<Entry>, pending: set<nat>, v: nat) {
    forall e :: e in index ==>
      e in FriendPosts(s.w, v)
      || (e.pid in pending && e.pid in s.created && (v, s.created[e.pid].author) in s.w.friends)
  }

  ghost predicate Tidy(s: Hybrid, b: Books, pending: set<nat>) {
    b.wrong == {} && forall v :: IndexesFriends(s, b.index(v), pending, v) && Covered(s, b.index(v), v)
  }

  function Pending(s: Hybrid, x: Event): set<nat> {
    if Deletes(s, x) then {x.p} else {}
  }

  ghost predicate TidyAfter(cap: nat, threshold: nat, s: Hybrid, index: set<Entry>, x: Event, v: nat)
    requires CanDo(s, x)
  {
    IndexesFriends(Do(cap, threshold, s, x), IndexAfter(cap, threshold, s, index, x, v), Pending(s, x), v)
  }

  lemma {:induction false} PostEventTidy(cap: nat, threshold: nat, s: Hybrid, index: set<Entry>, x: Event, v: nat)
    requires x.Create? || x.Update? || x.Delete?
    requires Sane(s.w, s.created) && CanDo(s, x) && IndexesFriends(s, index, {}, v)
    ensures TidyAfter(cap, threshold, s, index, x, v)
  {
    FriendPostsAre(s.w, v);
    FriendPostsAre(Do(cap, threshold, s, x).w, v);
    assert x.p in s.w.posts ==> NamedPost(s.created, x.p, s.w.posts[x.p]);
  }

  lemma {:induction false} HandleTidy(cap: nat, threshold: nat, s: Hybrid, index: set<Entry>, p: nat, v: nat)
    requires Sane(s.w, s.created) && Timely(s, Event.Handle(p)) && IndexesFriends(s, index, {}, v)
    ensures TidyAfter(cap, threshold, s, index, Event.Handle(p), v)
  {
    var s' := Handled(cap, threshold, s, p);
    HandledBodies(cap, threshold, s, p);
    SamePostsSameFriends(s.w, s'.w, v);
    FriendPostsAre(s.w, v);
    assert NamedPost(s.created, p, s.w.posts[p]);
  }

  /** Handling a deleted event removes the post from all feeds that still index it. */
  lemma {:induction false} HandleDeletedTidy(cap: nat, threshold: nat, s: Hybrid, index: set<Entry>, p: nat, v: nat)
    requires Sane(s.w, s.created) && CanDo(s, HandleDeleted(p)) && IndexesFriends(s, index, {p}, v)
    requires NamedEntries(s.created, index)
    ensures TidyAfter(cap, threshold, s, index, Event.HandleDeleted(p), v)
  {
    SamePostsSameFriends(s.w, Do(cap, threshold, s, HandleDeleted(p)).w, v);
  }

  lemma {:induction false} FriendEventTidy(cap: nat, threshold: nat, s: Hybrid, index: set<Entry>, x: Event, v: nat)
    requires x.Befriend? || x.Unfriend?
    requires Sane(s.w, s.created) && IndexesFriends(s, index, {}, v)
    ensures TidyAfter(cap, threshold, s, index, x, v)
  {
    if x.Befriend? {
      BefriendAddsPosts(cap, s.w, x.u, x.f, v);
    } else if v == x.u {
      UnfriendKeepsOthers(s.w, index, v, x.f, s.created);
    } else {
      UnfriendOther(s.w, v, x.u, x.f);
    }
  }

  lemma {:induction false} UnfriendKeepsOthers(w: World, index: set<Entry>, u: nat, f: nat, born: map<nat, Post>)
    requires Sane(w, born)
    ensures forall e :: e in FriendPosts(w, u) && e in index - ByHash(w, index, f) ==> e in FriendPosts(DeleteFriend(w, u, f), u)
  {
    FriendPostsAre(w, u);
    FriendPostsAre(DeleteFriend(w, u, f), u);
    forall e | e in FriendPosts(w, u) && e in index - ByHash(w, index, f)
      ensures e in FriendPosts(DeleteFriend(w, u, f), u)
    {
      assert NamedPost(born, e.pid, w.posts[e.pid]) && NamedPost(born, e.pid, w.hashes[e.pid]);
    }
  }

  lemma {:induction false} RebuildTidy(cap: nat, threshold: nat, s: Hybrid, index: set<Entry>, x: Event, v: nat)
    requires x.RebuildFeed? && IndexesFriends(s, index, {}, v)
    ensures TidyAfter(cap, threshold, s, index, x, v)
  {
    SamePostsSameFriends(s.w, Do(cap, threshold, s, x).w, v);
  }

  lemma {:induction false} ReadTidy(cap: nat, threshold: nat, s: Hybrid, index: set<Entry>, x: Event, v: nat)
    requires x.ReadMerged? && CanDo(s, x) && IndexesFriends(s, index, {}, v)
    ensures TidyAfter(cap, threshold, s, index, x, v)
  {
    ReadKeepsPosts(cap, threshold, s, x, v);
    assert IndexForRead(s, index, v) - Dropped(cap, s.w, v, x.offset + x.limit) <= IndexForRead(s, index, v);
    forall e | e in IndexAfter(cap, threshold, s, index, x, v)
      ensures e in FriendPosts(s.w, v)
    {
      assert e in IndexForRead(s, index, v) || e in index;
    }
  }

  lemma {:induction false} EventTidy(cap: nat, threshold: nat, s: Hybrid, index: set<Entry>, x: Event, pending: set<nat>, v: nat)
    requires Sane(s.w, s.created) && CanDo(s, x) && Timely(s, x) && NamedEntries(s.created, index)
    requires IndexesFriends(s, index, pending, v)
    requires pending == {} || (x.HandleDeleted? && pending == {x.p})
    ensures TidyAfter(cap, threshold, s, index, x, v)
  {
    match x
    case Create(_, _, _, _) => PostEventTidy(cap, threshold, s, index, x, v);
    case Update(_, _, _) => PostEventTidy(cap, threshold, s, index, x, v);
    case Delete(_, _) => PostEventTidy(cap, threshold, s, index, x, v);
    case Handle(p) => HandleTidy(cap, threshold, s, index, p, v);
    case HandleDeleted(p) => HandleDeletedTidy(cap, threshold, s, index, p, v);
    case Befriend(_, _) => FriendEventTidy(cap, threshold, s, index, x, v);
    case Unfriend(_, _) => FriendEventTidy(cap, threshold, s, index, x, v);
    case RebuildFeed(_) => RebuildTidy(cap, threshold, s, index, x, v);
    case ReadMerged(_, _, _) => ReadTidy(cap, threshold, s, index, x, v);
  }

  lemma {:induction false} TimelyKeepsBodies(cap: nat, s: Hybrid, x: Event)
    requires CanDo(s, x) && Timely(s, x)
    ensures WrongAfter(cap, s, {}, x) == {}
  {
  }

  lemma {:induction false} TidyForUser(cap: nat, threshold: nat, s: Hybrid, b: Books, x: Event, pending: set<nat>, v: nat)
    requires Keeps(cap, s, b) && CanDo(s, x) && Timely(s, x) && Tidy(s, b, pending)
    requires pending == {} || (x.HandleDeleted? && pending == {x.p})
    ensures TidyAfter(cap, threshold, s, b.index(v), x, v) && CoveredAfter(cap, threshold, s, b.index(v), x, v)
  {
    assert Holds(cap, s.w, s.created, v, b.index(v), b.lost(v));
    assert IndexesFriends(s, b.index(v), pending, v) && Covered(s, b.index(v), v);
    EventTidy(cap, threshold, s, b.index(v), x, pending, v);
    DoKeepsCovered(cap, threshold, s, b.index(v), x, v);
  }

  lemma {:induction false} TidyNext(cap: nat, threshold: nat, s: Hybrid, b: Books, x: Event)
    requires CanDo(s, x) && WrongAfter(cap, s, b.wrong, x) == {}
    requires forall v: nat :: TidyAfter(cap, threshold, s, b.index(v), x, v) && CoveredAfter(cap, threshold, s, b.index(v), x, v)
    ensures Tidy(Do(cap, threshold, s, x), Record(cap, threshold, s, b, x), Pending(s, x))
  {
    var s', b' := Do(cap, threshold, s, x), Record(cap, threshold, s, b, x);
    RecordIs(cap, threshold, s, b, x, 0);
    forall v: nat
      ensures IndexesFriends(s', b'.index(v), Pending(s, x), v) && Covered(s', b'.index(v), v)
    {
      RecordIs(cap, threshold, s, b, x, v);
      assert TidyAfter(cap, threshold, s, b.index(v), x, v) && CoveredAfter(cap, threshold, s, b.index(v), x, v);
    }
  }

  lemma {:induction false} TidyStep(cap: nat, threshold: nat, s: Hybrid, b: Books, x: Event, pending: set<nat>)
    requires Keeps(cap, s, b) && CanDo(s, x) && Timely(s, x) && Tidy(s, b, pending)
    requires pending == {} || (x.HandleDeleted? && pending == {x.p})
    ensures Tidy(Do(cap, threshold, s, x), Record(cap, threshold, s, b, x), Pending(s, x))
  {
    TimelyKeepsBodies(cap, s, x);
    forall v: nat
      ensures TidyAfter(cap, threshold, s, b.index(v), x, v) && CoveredAfter(cap, threshold, s, b.index(v), x, v)
    {
      TidyForUser(cap, threshold, s, b, x, pending, v);
    }
    TidyNext(cap, threshold, s, b, x);
  }

  lemma {:induction false} OrderlyRunIsTidy(cap: nat, threshold: nat, s: Hybrid, b: Books, xs: seq<Event>, pending: set<nat>)
    requires Keeps(cap, s, b) && Tidy(s, b, pending) && CanDoAll(cap, threshold, s, xs) && Orderly(cap, threshold, s, xs)
    requires pending == {} || (xs != [] && xs[0].HandleDeleted? && pending == {xs[0].p})
    ensures Keeps(cap, Reached(cap, threshold, s, b, xs).0, Reached(cap, threshold, s, b, xs).1)
    ensures Tidy(Reached(cap, threshold, s, b, xs).0, Reached(cap, threshold, s, b, xs).1, {})
    decreases |xs|
  {
    if xs != [] {
      DoKeeps(cap, threshold, s, b, xs[0]);
      TidyStep(cap, threshold, s, b, xs[0], pending);
      OrderlyRunIsTidy(cap, threshold, Do(cap, threshold, s, xs[0]), Record(cap, threshold, s, b, xs[0]), xs[1..],
                       Pending(s, xs[0]));
    }
  }

  lemma {:induction false} EmptyIsTidy(s: Hybrid)
    requires Empty(s)
    ensures Tidy(s, NoBooks(), {})
  {
    forall v: nat
      ensures FriendPosts(s.w, v) == {}
    {
    }
  }

  lemma {:induction false} TidyIsSettled(s: Hybrid, b: Books, u: nat)
    requires Tidy(s, b, {})
    ensures Settled(s, b, u)
  {
    assert IndexesFriends(s, b.index(u), {}, u) && Covered(s, b.index(u), u);
  }

  /** In every orderly run, once the posts of a user's friends have been handled, every merged read within
      the guaranteed depth is the database's own page. */
  lemma {:induction false} HybridReadIsDatabases(cap: nat, threshold: nat, s0: Hybrid, xs: seq<Event>,
                                                 u: nat, offset: nat, limit: nat)
    requires Empty(s0) && CanDoAll(cap, threshold, s0, xs) && Orderly(cap, threshold, s0, xs)
    requires var (s, b) := Reached(cap, threshold, s0, NoBooks(), xs);
             && (forall e :: e in FriendPosts(s.w, u) ==> e.pid !in s.unhandled)
             && DistinctTimes(FriendPosts(s.w, u))
             && offset + limit <= Guaranteed(cap, s, b, u)
    ensures var (s, b) := Reached(cap, threshold, s0, NoBooks(), xs);
            Answer(cap, threshold, s, u, offset, limit) == DatabasePage(s.w, u, offset, limit)
  {
    EmptyKeeps(cap, s0);
    EmptyIsTidy(s0);
    OrderlyRunIsTidy(cap, threshold, s0, NoBooks(), xs, {});
    var (s, b) := Reached(cap, threshold, s0, NoBooks(), xs);
    TidyIsSettled(s, b, u);
    SettledReadIsDatabases(cap, threshold, s, b, u, offset, limit);
  }
}
