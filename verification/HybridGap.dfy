/** Three runs of the hybrid feed whose merged reads are not the database's: a flag goes and a post is
    missing; a created event is handled after an edit and the old text is shown; a created event is
    handled after the deletion and the deleted post is shown. */
module HybridGap {
  import opened FeedOrder
  import opened Paging
  import opened FeedWorld
  import opened FeedMerge
  import opened HybridFeed
  import opened HybridReads

  lemma {:induction false} FirstEvent(cap: nat, threshold: nat, s: Hybrid, b: Books, x: Event, rest: seq<Event>)
    requires CanDo(s, x) && CanDoAll(cap, threshold, Do(cap, threshold, s, x), rest)
    ensures CanDoAll(cap, threshold, s, [x] + rest)
    ensures Reached(cap, threshold, s, b, [x] + rest)
         == Reached(cap, threshold, Do(cap, threshold, s, x), Record(cap, threshold, s, b, x), rest)
  {
    assert ([x] + rest)[1..] == rest;
  }

  lemma {:induction false} NoEvent(cap: nat, threshold: nat, s: Hybrid, b: Books)
    ensures CanDoAll(cap, threshold, s, []) && Reached(cap, threshold, s, b, []) == (s, b)
  {
  }

  ghost predicate Runs(cap: nat, s: Hybrid, b: Books, xs: seq<Event>, s': Hybrid, b': Books) {
    CanDoAll(cap, 2, s, xs) && Reached(cap, 2, s, b, xs) == (s', b')
  }

  /** What leads on after the event leads on from before it. */
  ghost predicate Precedes(cap: nat, s: Hybrid, b: Books, x: Event, s1: Hybrid, b1: Books) {
    forall rest, s', b' :: Runs(cap, s1, b1, rest, s', b') ==> Runs(cap, s, b, [x] + rest, s', b')
  }

  lemma {:induction false} EventPrecedes(cap: nat, s: Hybrid, b: Books, x: Event)
    requires CanDo(s, x)
    ensures Precedes(cap, s, b, x, Do(cap, 2, s, x), Record(cap, 2, s, b, x))
  {
    var s1, b1 := Do(cap, 2, s, x), Record(cap, 2, s, b, x);
    forall rest, s', b' | Runs(cap, s1, b1, rest, s', b')
      ensures Runs(cap, s, b, [x] + rest, s', b')
    {
      FirstEvent(cap, 2, s, b, x, rest);
    }
  }

  // ---------------------------------------------------------------- scenes

  /** What a run has left around user 1; two followers make a celebrity. */
  datatype Scene = Scene(friends: set<(nat, nat)>, posts: map<nat, Post>, hashes: map<nat, Post>, created: map<nat, Post>,
                         flags: map<nat, bool>, feed: set<Entry>, wrong: set<nat>, unhandled: set<nat>)

  ghost predicate Shows(s: Hybrid, b: Books, c: Scene) {
    && 2 in s.w.users && s.w.friends == c.friends && s.w.posts == c.posts && s.w.hashes == c.hashes
    && s.created == c.created && s.flags == c.flags && s.unhandled == c.unhandled
    && FeedOf(s.w, 1) == c.feed == b.index(1) && b.lost(1) == 0 && b.wrong == c.wrong
  }

  const FIRST := Post(2, "a", 5)
  const EDITED := Post(2, "b", 5)
  const SECOND := Post(2, "b", 7)
  const E5 := Entry(5, 5)
  const E7 := Entry(7, 7)

  const NOTHING := Scene({}, map[], map[], map[], map[], {}, {}, {})
  const POSTED := Scene({}, map[5 := FIRST], map[5 := FIRST], map[5 := FIRST], map[], {}, {}, {5})
  const FOLLOWED := POSTED.(friends := {(1, 2)}, feed := {E5})
  const POPULAR := FOLLOWED.(friends := {(1, 2), (3, 2)})

  lemma {:induction false} OneFollower(w: World)
    requires w.friends == {(1, 2)}
    ensures Followers(w, 2) == {1} && FriendsOf(w, 1) == {2}
  {
  }

  lemma {:induction false} TwoFollowers(w: World)
    requires w.friends == {(1, 2), (3, 2)}
    ensures Followers(w, 2) == {1, 3}
  {
  }

  lemma {:induction false} SceneCreate(cap: nat, s: Hybrid, b: Books, c: Scene, p: nat, text: string)
    returns (s1: Hybrid, b1: Books)
    requires Shows(s, b, c) && p !in c.created
    ensures Shows(s1, b1, c.(posts := c.posts[p := Post(2, text, p)], hashes := c.hashes[p := Post(2, text, p)],
                             created := c.created[p := Post(2, text, p)], unhandled := c.unhandled + {p}))
    ensures Precedes(cap, s, b, Event.Create(p, 2, text, p), s1, b1)
  {
    var x := Event.Create(p, 2, text, p);
    EventPrecedes(cap, s, b, x);
    s1, b1 := Do(cap, 2, s, x), Record(cap, 2, s, b, x);
  }

  lemma {:induction false} OnePost(w: World)
    requires w.posts == map[5 := FIRST]
    ensures PostsOf(w, 2) == {E5}
  {
    PostsOfAre(w, 2);
  }

  lemma {:induction false} FollowFeeds(cap: nat, w: World)
    requires cap > 0 && 2 in w.users && w.posts == map[5 := FIRST] && FeedOf(w, 1) == {}
    ensures FeedOf(SetFriend(cap, w, 1, 2), 1) == {E5}
  {
    OnePost(w);
    RowsHaveOneKey(w, {} + PostsOf(w, 2));
    BefriendEffect(cap, w, 1, 2);
    TopOfSmall({E5}, cap);
    assert {} + {E5} == {E5};
  }

  lemma {:induction false} BooksOfFollow(cap: nat, s: Hybrid, b: Books)
    requires 2 in s.w.users && s.w.posts == map[5 := FIRST] && b.index(1) == {} && b.lost(1) == 0 && b.wrong == {}
    ensures var b1 := Record(cap, 2, s, b, Event.Befriend(1, 2));
            b1.index(1) == {E5} && b1.lost(1) == 0 && b1.wrong == {}
  {
    RecordIs(cap, 2, s, b, Event.Befriend(1, 2), 1);
    OnePost(s.w);
    assert {} + {E5} == {E5};
  }

  lemma {:induction false} BefriendKeepsRest(cap: nat, w: World, u: nat, f: nat)
    requires f != u && f in w.users && w.hashes == w.posts
    ensures var w' := SetFriend(cap, w, u, f);
            && w'.users == w.users && w'.posts == w.posts && w'.friends == w.friends + {(u, f)}
            && w'.hashes == w.hashes
  {
    BefriendBodies(cap, w, u, f);
    assert w.hashes + BodiesOf(w, Top(PostsOf(w, f), cap)) == w.hashes;
  }

  lemma {:induction false} SceneFollow(cap: nat, s: Hybrid, b: Books) returns (s1: Hybrid, b1: Books)
    requires cap > 0 && Shows(s, b, POSTED)
    ensures Shows(s1, b1, FOLLOWED) && Precedes(cap, s, b, Event.Befriend(1, 2), s1, b1)
  {
    FollowFeeds(cap, s.w);
    BefriendKeepsRest(cap, s.w, 1, 2);
    BooksOfFollow(cap, s, b);
    EventPrecedes(cap, s, b, Event.Befriend(1, 2));
    s1, b1 := Do(cap, 2, s, Event.Befriend(1, 2)), Record(cap, 2, s, b, Event.Befriend(1, 2));
  }

  /** User 2 writes a post and user 1 follows. */
  lemma {:induction false} PlayStart(cap: nat, s: Hybrid, b: Books) returns (s2: Hybrid, b2: Books)
    requires cap > 0 && Shows(s, b, NOTHING)
    ensures Shows(s2, b2, FOLLOWED)
    ensures forall rest, s', b' :: Runs(cap, s2, b2, rest, s', b') ==>
              Runs(cap, s, b, [Event.Create(5, 2, "a", 5)] + ([Event.Befriend(1, 2)] + rest), s', b')
  {
    var s1, b1 := SceneCreate(cap, s, b, NOTHING, 5, "a");
    assert NOTHING.(posts := NOTHING.posts[5 := Post(2, "a", 5)], hashes := NOTHING.hashes[5 := Post(2, "a", 5)],
                    created := NOTHING.created[5 := Post(2, "a", 5)], unhandled := NOTHING.unhandled + {5}) == POSTED;
    s2, b2 := SceneFollow(cap, s1, b1);
  }

  lemma {:induction false} EmptyShowsNothing(s: Hybrid)
    requires Empty(s) && 2 in s.w.users
    ensures Shows(s, NoBooks(), NOTHING)
  {
    assert FeedOf(s.w, 1) == {};
  }

  lemma {:induction false} RunsKeep(cap: nat, s0: Hybrid, xs: seq<Event>, s: Hybrid, b: Books)
    requires Empty(s0) && Runs(cap, s0, NoBooks(), xs, s, b)
    ensures Keeps(cap, s, b)
  {
    EmptyKeeps(cap, s0);
    RunKeepsBooks(cap, 2, s0, NoBooks(), xs);
  }

  // ---------------------------------------------------------------- a created event handled too late

  lemma {:induction false} HandledPushes(cap: nat, s: Hybrid)
    requires s.w.friends == {(1, 2)} && s.flags == map[] && 5 in s.created && s.created[5] == FIRST
    ensures Handled(cap, 2, s, 5)
         == Hybrid(FanOut(cap, s.w.(hashes := s.w.hashes[5 := FIRST]), E5, 2), map[2 := false], s.created, s.unhandled - {5})
    ensures Pushes(2, s, 2)
  {
    OneFollower(s.w);
    assert !CelebrityFlag(s.w, s.flags, 2, 2);
  }

  lemma {:induction false} PushesAgain(cap: nat, w: World)
    requires cap > 0 && w.friends == {(1, 2)} && FeedOf(w, 1) == {E5}
    ensures FeedOf(FanOut(cap, w, E5, 2), 1) == {E5}
  {
    FedBy(w, E5, cap, 2, 1);
    assert Zadd({E5}, E5) == {E5};
    TopOfSmall({E5}, cap);
  }

  lemma {:induction false} IndexOfLateHandling(cap: nat, s: Hybrid)
    requires s.w.friends == {(1, 2)} && s.flags == map[] && 5 in s.created && s.created[5] == FIRST
    ensures IndexAfter(cap, 2, s, {E5}, Event.Handle(5), 1) == {E5}
  {
    HandledPushes(cap, s);
    assert {E5} + {E5} == {E5};
  }

  lemma {:induction false} BooksOfLateHandling(cap: nat, s: Hybrid, b: Books)
    requires s.w.friends == {(1, 2)} && s.flags == map[] && 5 in s.created && s.created[5] == FIRST
    requires (5 in s.w.posts ==> s.w.posts[5].text != "a") && b.index(1) == {E5}
    ensures var b1 := Record(cap, 2, s, b, Event.Handle(5));
            b1.index(1) == {E5} && b1.lost(1) == b.lost(1) && b1.wrong == b.wrong + {5}
  {
    RecordIs(cap, 2, s, b, Event.Handle(5), 1);
    IndexOfLateHandling(cap, s);
  }

  lemma {:induction false} SceneLate(cap: nat, s: Hybrid, b: Books, c: Scene) returns (s1: Hybrid, b1: Books)
    requires cap > 0 && Shows(s, b, c) && c.friends == {(1, 2)} && c.flags == map[] && c.feed == {E5}
    requires 5 in c.created && c.created[5] == FIRST && (5 in c.posts ==> c.posts[5].text != "a")
    ensures Shows(s1, b1, c.(hashes := c.hashes[5 := FIRST], flags := map[2 := false], wrong := c.wrong + {5},
                             unhandled := c.unhandled - {5}))
    ensures Precedes(cap, s, b, Event.Handle(5), s1, b1)
  {
    HandledPushes(cap, s);
    PushesAgain(cap, s.w.(hashes := s.w.hashes[5 := FIRST]));
    BooksOfLateHandling(cap, s, b);
    EventPrecedes(cap, s, b, Event.Handle(5));
    s1, b1 := Do(cap, 2, s, Event.Handle(5)), Record(cap, 2, s, b, Event.Handle(5));
  }

  lemma {:induction false} SceneEdit(cap: nat, s: Hybrid, b: Books) returns (s1: Hybrid, b1: Books)
    requires Shows(s, b, FOLLOWED)
    ensures Shows(s1, b1, FOLLOWED.(posts := map[5 := EDITED], hashes := map[5 := EDITED]))
    ensures Precedes(cap, s, b, Event.Update(5, 2, "b"), s1, b1)
  {
    EventPrecedes(cap, s, b, Event.Update(5, 2, "b"));
    s1, b1 := Do(cap, 2, s, Event.Update(5, 2, "b")), Record(cap, 2, s, b, Event.Update(5, 2, "b"));
  }

  lemma {:induction false} SceneDelete(cap: nat, s: Hybrid, b: Books) returns (s1: Hybrid, b1: Books)
    requires Shows(s, b, FOLLOWED)
    ensures Shows(s1, b1, FOLLOWED.(posts := map[], hashes := map[]))
    ensures Precedes(cap, s, b, Event.Delete(5, 2), s1, b1)
  {
    EventPrecedes(cap, s, b, Event.Delete(5, 2));
    s1, b1 := Do(cap, 2, s, Event.Delete(5, 2)), Record(cap, 2, s, b, Event.Delete(5, 2));
  }

  /** The stored body of the first post says "a" and its entry is all there is to read. */
  ghost predicate ShowsOld(s: Hybrid, b: Books) {
    && s.w.friends == {(1, 2)} && s.w.hashes == map[5 := FIRST] && s.flags == map[2 := false]
    && FeedOf(s.w, 1) == {E5} == b.index(1) && b.lost(1) == 0
  }

  lemma {:induction false} SortedOne(e: Entry)
    ensures Zrevrange({e}, 0, 1) == [e]
  {
    assert Sorted({e})[0] in Sorted({e});
  }

  lemma {:induction false} OldIsKnown(cap: nat, s: Hybrid, b: Books)
    requires ShowsOld(s, b)
    ensures FromFeed(cap, s, b, 1, 1) == {E5} && Known(cap, 2, s, b, 1, 1) == {E5}
  {
    TopOfSmall({E5}, 1);
    OneFollower(s.w);
    assert Pulled(s, 2, 1) == {};
    assert PostsOfAll(s.w, {}) == {};
  }

  lemma {:induction false} OldIsRead(cap: nat, s: Hybrid, b: Books)
    requires cap > 0 && Keeps(cap, s, b) && ShowsOld(s, b)
    ensures Answer(cap, 2, s, 1, 0, 1) == [Item(5, "a", 2)]
  {
    OldIsKnown(cap, s, b);
    MergedReadInRun(cap, 2, s, b, 1, 0, 1);
    SortedOne(E5);
    assert [E5][..0] == [] && ShownPage(s.w, {E5}, []) == [];
    assert ShownPage(s.w, {E5}, [E5]) == [] + [Item(5, "a", 2)];
  }

  /** For every cap some run from nothing ends with a merged read that shows the text a post had before
      its last edit. */
  lemma {:induction false} OldTextHappens(cap: nat, s0: Hybrid) returns (xs: seq<Event>, s: Hybrid, b: Books)
    requires cap > 0 && Empty(s0) && 2 in s0.w.users
    ensures Runs(cap, s0, NoBooks(), xs, s, b)
    ensures 5 in s.w.posts && s.w.posts[5].text == "b" && Answer(cap, 2, s, 1, 0, 1) == [Item(5, "a", 2)]
  {
    EmptyShowsNothing(s0);
    var s2, b2 := PlayStart(cap, s0, NoBooks());
    xs, s, b := PlayEdit(cap, s2, b2);
    xs := [Event.Create(5, 2, "a", 5)] + ([Event.Befriend(1, 2)] + xs);
    RunsKeep(cap, s0, xs, s, b);
    OldIsRead(cap, s, b);
  }

  lemma {:induction false} PlayLate(cap: nat, s: Hybrid, b: Books, c: Scene) returns (xs: seq<Event>, s': Hybrid, b': Books)
    requires cap > 0 && Shows(s, b, c) && c.friends == {(1, 2)} && c.flags == map[] && c.feed == {E5}
    requires 5 in c.created && c.created[5] == FIRST && (5 in c.posts ==> c.posts[5].text != "a")
    requires c.hashes[5 := FIRST] == map[5 := FIRST]
    ensures Runs(cap, s, b, xs, s', b') && ShowsOld(s', b') && s'.w.posts == c.posts
  {
    s', b' := SceneLate(cap, s, b, c);
    NoEvent(cap, 2, s', b');
    xs := [Event.Handle(5)] + [];
  }

  lemma {:induction false} PlayEdit(cap: nat, s: Hybrid, b: Books) returns (xs: seq<Event>, s': Hybrid, b': Books)
    requires cap > 0 && Shows(s, b, FOLLOWED)
    ensures Runs(cap, s, b, xs, s', b')
    ensures ShowsOld(s', b') && s'.w.posts == map[5 := EDITED]
  {
    var s1, b1 := SceneEdit(cap, s, b);
    xs, s', b' := PlayLate(cap, s1, b1, FOLLOWED.(posts := map[5 := EDITED], hashes := map[5 := EDITED]));
    xs := [Event.Update(5, 2, "b")] + xs;
  }

  /** And some run ends with one that shows a deleted post. */
  lemma {:induction false} DeadPostHappens(cap: nat, s0: Hybrid) returns (xs: seq<Event>, s: Hybrid, b: Books)
    requires cap > 0 && Empty(s0) && 2 in s0.w.users
    ensures Runs(cap, s0, NoBooks(), xs, s, b)
    ensures 5 !in s.w.posts && Answer(cap, 2, s, 1, 0, 1) == [Item(5, "a", 2)]
  {
    EmptyShowsNothing(s0);
    var s2, b2 := PlayStart(cap, s0, NoBooks());
    xs, s, b := PlayDelete(cap, s2, b2);
    xs := [Event.Create(5, 2, "a", 5)] + ([Event.Befriend(1, 2)] + xs);
    RunsKeep(cap, s0, xs, s, b);
    OldIsRead(cap, s, b);
  }

  lemma {:induction false} PlayDelete(cap: nat, s: Hybrid, b: Books) returns (xs: seq<Event>, s': Hybrid, b': Books)
    requires cap > 0 && Shows(s, b, FOLLOWED)
    ensures Runs(cap, s, b, xs, s', b')
    ensures ShowsOld(s', b') && s'.w.posts == map[]
  {
    var s1, b1 := SceneDelete(cap, s, b);
    xs, s', b' := PlayLate(cap, s1, b1, FOLLOWED.(posts := map[], hashes := map[]));
    xs := [Event.Delete(5, 2)] + xs;
  }

  // ---------------------------------------------------------------- a flag that goes

  lemma {:induction false} BooksOfOther(cap: nat, s: Hybrid, b: Books)
    requires b.wrong == {}
    ensures var b1 := Record(cap, 2, s, b, Event.Befriend(3, 2));
            b1.index(1) == b.index(1) && b1.lost(1) == b.lost(1) && b1.wrong == {}
  {
    RecordIs(cap, 2, s, b, Event.Befriend(3, 2), 1);
  }

  lemma {:induction false} SceneOtherFollows(cap: nat, s: Hybrid, b: Books, c: Scene) returns (s1: Hybrid, b1: Books)
    requires Shows(s, b, c) && c.hashes == c.posts && c.wrong == {}
    ensures Shows(s1, b1, c.(friends := c.friends + {(3, 2)})) && Precedes(cap, s, b, Event.Befriend(3, 2), s1, b1)
  {
    OthersKeepFeeds(cap, s.w, 3, 2, 1, 1);
    BefriendKeepsRest(cap, s.w, 3, 2);
    BooksOfOther(cap, s, b);
    EventPrecedes(cap, s, b, Event.Befriend(3, 2));
    s1, b1 := Do(cap, 2, s, Event.Befriend(3, 2)), Record(cap, 2, s, b, Event.Befriend(3, 2));
  }

  lemma {:induction false} HandledSkips(cap: nat, s: Hybrid)
    requires s.w.friends == {(1, 2), (3, 2)} && s.flags == map[] && 7 in s.created && s.created[7] == SECOND
    requires 7 in s.w.hashes && s.w.hashes[7] == SECOND
    ensures Handled(cap, 2, s, 7) == Hybrid(s.w, map[2 := true], s.created, s.unhandled - {7})
    ensures !Pushes(2, s, 2)
  {
    TwoFollowers(s.w);
    assert CelebrityFlag(s.w, s.flags, 2, 2);
    assert s.w.hashes[7 := SECOND] == s.w.hashes;
  }

  lemma {:induction false} SceneSkip(cap: nat, s: Hybrid, b: Books, c: Scene) returns (s1: Hybrid, b1: Books)
    requires Shows(s, b, c) && c.friends == {(1, 2), (3, 2)} && c.flags == map[] && c.wrong == {}
    requires 7 in c.created && c.created[7] == SECOND && 7 in c.hashes && c.hashes[7] == SECOND
    requires 7 in c.posts && c.posts[7] == SECOND
    ensures Shows(s1, b1, c.(flags := map[2 := true], unhandled := c.unhandled - {7}))
    ensures Precedes(cap, s, b, Event.Handle(7), s1, b1)
  {
    HandledSkips(cap, s);
    RecordIs(cap, 2, s, b, Event.Handle(7), 1);
    EventPrecedes(cap, s, b, Event.Handle(7));
    s1, b1 := Do(cap, 2, s, Event.Handle(7)), Record(cap, 2, s, b, Event.Handle(7));
  }

  lemma {:induction false} SceneOtherLeaves(cap: nat, s: Hybrid, b: Books, c: Scene) returns (s1: Hybrid, b1: Books)
    requires Shows(s, b, c)
    ensures Shows(s1, b1, c.(friends := c.friends - {(3, 2)})) && Precedes(cap, s, b, Event.Unfriend(3, 2), s1, b1)
  {
    OthersKeepFeeds(cap, s.w, 3, 2, 1, 1);
    RecordIs(cap, 2, s, b, Event.Unfriend(3, 2), 1);
    EventPrecedes(cap, s, b, Event.Unfriend(3, 2));
    s1, b1 := Do(cap, 2, s, Event.Unfriend(3, 2)), Record(cap, 2, s, b, Event.Unfriend(3, 2));
  }

  lemma {:induction false} SceneDrop(cap: nat, s: Hybrid, b: Books, c: Scene) returns (s1: Hybrid, b1: Books)
    requires Shows(s, b, c)
    ensures Shows(s1, b1, c.(flags := c.flags - {2})) && Precedes(cap, s, b, Event.DropFlag(2), s1, b1)
  {
    EventPrecedes(cap, s, b, Event.DropFlag(2));
    s1, b1 := Do(cap, 2, s, Event.DropFlag(2)), Record(cap, 2, s, b, Event.DropFlag(2));
  }

  const BOTH := map[5 := FIRST, 7 := SECOND]
  const BUSY := POPULAR.(posts := BOTH, hashes := BOTH, created := BOTH, unhandled := {5, 7})
  const SKIPPED := BUSY.(flags := map[2 := true], unhandled := {5})
  const FORGOTTEN := SKIPPED.(friends := {(1, 2)}, flags := map[])

  /** User 3 follows too, which makes 2 a celebrity, and 2 writes again. */
  lemma {:induction false} PlayPopular(cap: nat, s: Hybrid, b: Books) returns (s2: Hybrid, b2: Books)
    requires Shows(s, b, FOLLOWED)
    ensures Shows(s2, b2, BUSY)
    ensures forall rest, s', b' :: Runs(cap, s2, b2, rest, s', b') ==>
              Runs(cap, s, b, [Event.Befriend(3, 2)] + ([Event.Create(7, 2, "b", 7)] + rest), s', b')
  {
    var s1, b1 := SceneOtherFollows(cap, s, b, FOLLOWED);
    assert FOLLOWED.friends + {(3, 2)} == {(1, 2), (3, 2)};
    s2, b2 := SceneCreate(cap, s1, b1, POPULAR, 7, "b");
    assert POPULAR.posts[7 := Post(2, "b", 7)] == BOTH && POPULAR.unhandled + {7} == {5, 7};
  }

  /** The flag goes. */
  lemma {:induction false} PlayForget(cap: nat, s: Hybrid, b: Books) returns (xs: seq<Event>, s': Hybrid, b': Books)
    requires Shows(s, b, SKIPPED.(friends := {(1, 2)}))
    ensures Runs(cap, s, b, xs, s', b') && Shows(s', b', FORGOTTEN)
  {
    s', b' := SceneDrop(cap, s, b, SKIPPED.(friends := {(1, 2)}));
    assert SKIPPED.flags - {2} == map[];
    NoEvent(cap, 2, s', b');
    xs := [Event.DropFlag(2)] + [];
  }

  /** User 3 leaves. */
  lemma {:induction false} PlayLeave(cap: nat, s: Hybrid, b: Books) returns (xs: seq<Event>, s': Hybrid, b': Books)
    requires Shows(s, b, SKIPPED)
    ensures Runs(cap, s, b, xs, s', b') && Shows(s', b', FORGOTTEN)
  {
    var s1, b1 := SceneOtherLeaves(cap, s, b, SKIPPED);
    assert SKIPPED.friends - {(3, 2)} == {(1, 2)};
    xs, s', b' := PlayForget(cap, s1, b1);
    xs := [Event.Unfriend(3, 2)] + xs;
  }

  /** The second post is not pushed. */
  lemma {:induction false} PlaySkip(cap: nat, s: Hybrid, b: Books) returns (xs: seq<Event>, s': Hybrid, b': Books)
    requires Shows(s, b, BUSY)
    ensures Runs(cap, s, b, xs, s', b') && Shows(s', b', FORGOTTEN)
  {
    var s1, b1 := SceneSkip(cap, s, b, BUSY);
    assert BUSY.unhandled - {7} == {5};
    xs, s', b' := PlayLeave(cap, s1, b1);
    xs := [Event.Handle(7)] + xs;
  }

  /** The second post is neither indexed nor pulled. */
  lemma {:induction false} SkippedIsUnknown(cap: nat, s: Hybrid, b: Books)
    requires Shows(s, b, FORGOTTEN)
    ensures Known(cap, 2, s, b, 1, 1) == {E5}
  {
    TopOfSmall({E5}, 1);
    OneFollower(s.w);
    assert !CelebrityFlag(s.w, s.flags, 2, 2);
    assert Pulled(s, 2, 1) == {};
    assert PostsOfAll(s.w, {}) == {};
  }

  lemma {:induction false} LastPosts(w: World)
    requires w.friends == {(1, 2)} && w.posts == BOTH
    ensures Zrevrange(FriendPosts(w, 1), 0, 1) != [E5]
  {
    FriendPostsAre(w, 1);
    assert E7 in FriendPosts(w, 1);
    PageIsTop(FriendPosts(w, 1), 1);
    assert NewerIn(FriendPosts(w, 1), E7) == {};
    assert E7 in Top(FriendPosts(w, 1), 1);
  }

  lemma {:induction false} SkippedIsMissed(cap: nat, s: Hybrid, b: Books)
    requires cap > 0 && Keeps(cap, s, b) && Shows(s, b, FORGOTTEN)
    ensures Answer(cap, 2, s, 1, 0, 1) != DatabasePage(s.w, 1, 0, 1)
  {
    SkippedIsUnknown(cap, s, b);
    SortedOne(E5);
    LastPosts(s.w);
    ReadIsDatabasesExactly(cap, 2, s, b, 1, 0, 1);
  }

  /** For every cap some run from nothing, in which a flag goes, ends with a merged read that misses the
      newest post although it has been handled. */
  lemma {:induction false} SkippedPostHappens(cap: nat, s0: Hybrid) returns (xs: seq<Event>, s: Hybrid, b: Books)
    requires cap > 0 && Empty(s0) && 2 in s0.w.users
    ensures Runs(cap, s0, NoBooks(), xs, s, b)
    ensures 7 in s.w.posts && 7 !in s.unhandled
    ensures Answer(cap, 2, s, 1, 0, 1) != DatabasePage(s.w, 1, 0, 1)
  {
    EmptyShowsNothing(s0);
    var s2, b2 := PlayStart(cap, s0, NoBooks());
    xs, s, b := PlayCelebrity(cap, s2, b2);
    xs := [Event.Create(5, 2, "a", 5)] + ([Event.Befriend(1, 2)] + xs);
    RunsKeep(cap, s0, xs, s, b);
    SkippedIsMissed(cap, s, b);
  }

  lemma {:induction false} PlayCelebrity(cap: nat, s: Hybrid, b: Books) returns (xs: seq<Event>, s': Hybrid, b': Books)
    requires Shows(s, b, FOLLOWED)
    ensures Runs(cap, s, b, xs, s', b') && Shows(s', b', FORGOTTEN)
  {
    var s2, b2 := PlayPopular(cap, s, b);
    xs, s', b' := PlaySkip(cap, s2, b2);
    xs := [Event.Befriend(3, 2)] + ([Event.Create(7, 2, "b", 7)] + xs);
  }
}
