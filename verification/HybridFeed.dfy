/** Runs of the hybrid feed (feed_transport "rabbitmq"): created and deleted events are handled at any
    later time, in any order and any number of times, with the text the created event was published
    with; celebrities are not pushed, celebrity flags expire, and feeds are read merged. */
module HybridFeed {
  import opened FeedOrder
  import opened Paging
  import opened FeedWorld
  import opened FeedRows
  import opened FeedMerge

  /** The stores; the cached celebrity flags; what each created event says; and the posts whose created
      event no worker has handled yet. */
  datatype Hybrid = Hybrid(w: World, flags: map<nat, bool>, created: map<nat, Post>, unhandled: set<nat>)

  datatype Event =
    | Create(p: nat, author: nat, text: string, at: int)
    | Handle(p: nat)
    | Update(p: nat, user: nat, text: string)
    | Delete(p: nat, user: nat)
    | HandleDeleted(p: nat)
    | Befriend(u: nat, f: nat)
    | Unfriend(u: nat, f: nat)
    | RebuildFeed(u: nat)
    | ReadMerged(u: nat, offset: nat, limit: nat)
    | DropFlag(author: nat)

  /** An id is used once; an event is handled after it was published; a read asks for a post. */
  predicate CanDo(s: Hybrid, x: Event) {
    match x
    case Create(p, _, _, _) => p !in s.created
    case Handle(p) => p in s.created
    case HandleDeleted(p) => p in s.created && p !in s.w.posts
    case ReadMerged(_, _, limit) => limit >= 1
    case _ => true
  }

  function WithPost(w: World, p: nat, post: Post): World {
    w.(posts := w.posts[p := post], hashes := w.hashes[p := post])
  }

  /** `delete_post` before its event is handled. */
  function WithoutPost(w: World, p: nat, user: nat): World {
    if Owns(w, p, user) then w.(posts := w.posts - {p}, hashes := w.hashes - {p}) else w
  }

  /** The flags after `get_celebrity_friends`. */
  function Filled(w: World, flags: map<nat, bool>, threshold: nat, u: nat): map<nat, bool> {
    map a | a in flags.Keys + FriendsOf(w, u) :: CelebrityFlag(w, flags, threshold, a)
  }

  /** The entry of a post, by what its created event says. */
  function EntryOf(p: nat, post: Post): Entry {
    Entry(post.createdAt, p)
  }

  function Pushes(threshold: nat, s: Hybrid, author: nat): bool {
    !CelebrityFlag(s.w, s.flags, threshold, author)
  }

  /** `_handle_created`: what `FeedMerge.HandleCreated` does. */
  function Handled(cap: nat, threshold: nat, s: Hybrid, p: nat): Hybrid
    requires p in s.created
  {
    var post := s.created[p];
    var w1 := WithBody(s.w, p, post.author, post.text, post.createdAt);
    Hybrid(if Pushes(threshold, s, post.author) then FanOut(cap, w1, EntryOf(p, post), post.author) else w1,
           s.flags[post.author := !Pushes(threshold, s, post.author)], s.created, s.unhandled - {p})
  }

  function Do(cap: nat, threshold: nat, s: Hybrid, x: Event): Hybrid
    requires CanDo(s, x)
  {
    match x
    case Create(p, author, text, at) =>
      var post := Post(author, text, at);
      Hybrid(WithPost(s.w, p, post), s.flags, s.created[p := post], s.unhandled + {p})
    case Handle(p) => Handled(cap, threshold, s, p)
    case Update(p, user, text) => s.(w := UpdatePost(s.w, p, user, text))
    case Delete(p, user) => s.(w := WithoutPost(s.w, p, user))
    case HandleDeleted(p) => s.(w := FanRemove(s.w, p, s.created[p].author))
    case Befriend(u, f) => s.(w := SetFriend(cap, s.w, u, f))
    case Unfriend(u, f) => s.(w := DeleteFriend(s.w, u, f))
    case RebuildFeed(u) => s.(w := Rebuild(cap, s.w, u))
    case ReadMerged(u, offset, limit) =>
      s.(w := ReadFeed(cap, s.w, u, 0, offset + limit).0, flags := Filled(s.w, s.flags, threshold, u))
    case DropFlag(a) => s.(flags := s.flags - {a})
  }

  /** A created event does in a run what `FeedMerge.HandleCreated` does. */
  lemma {:induction false} HandlingIsTheHandlers(cap: nat, threshold: nat, s: Hybrid, p: nat)
    requires p in s.created
    ensures var s', post := Do(cap, threshold, s, Event.Handle(p)), s.created[p];
            HandlesCreated(cap, threshold, s.w, s.flags, p, post.author, post.text, post.createdAt, s'.w, s'.flags,
                           !CelebrityFlag(s.w, s.flags, threshold, post.author))
  {
  }

  /** A creation whose event is handled at once does what the synchronous handler does. */
  lemma {:induction false} CreationIsTheHandlers(cap: nat, threshold: nat, s: Hybrid, p: nat, author: nat, text: string, at: int)
    requires p !in s.created && !CelebrityFlag(s.w, s.flags, threshold, author)
    ensures var s1 := Do(cap, threshold, s, Event.Create(p, author, text, at));
            Do(cap, threshold, s1, Event.Handle(p)).w == CreatePost(cap, s.w, p, author, text, at)
  {
    var s1 := Do(cap, threshold, s, Event.Create(p, author, text, at));
    assert WithBody(s1.w, p, author, text, at).hashes == s1.w.hashes;
    assert Followers(s1.w, author) == Followers(s.w, author);
  }

  /** And so does a deletion. */
  lemma {:induction false} DeletionIsTheHandlers(cap: nat, threshold: nat, s: Hybrid, p: nat, user: nat)
    requires p in s.created && Owns(s.w, p, user) && s.created[p].author == user
    ensures var s1 := Do(cap, threshold, s, Event.Delete(p, user));
            Do(cap, threshold, s1, Event.HandleDeleted(p)).w == DeletePost(s.w, p, user)
  {
  }

  /** The posts after each event of a run. */
  lemma {:induction false} EventPosts(cap: nat, threshold: nat, s: Hybrid, x: Event)
    requires CanDo(s, x)
    ensures x.Create? ==> Do(cap, threshold, s, x).w.posts == s.w.posts[x.p := Post(x.author, x.text, x.at)]
    ensures x.Update? ==>
              Do(cap, threshold, s, x).w.posts
              == if x.p in s.w.posts && s.w.posts[x.p].author == x.user
                 then s.w.posts[x.p := Post(x.user, x.text, s.w.posts[x.p].createdAt)] else s.w.posts
    ensures x.Delete? ==>
              Do(cap, threshold, s, x).w.posts
              == if x.p in s.w.posts && s.w.posts[x.p].author == x.user then s.w.posts - {x.p} else s.w.posts
    ensures !x.Create? && !x.Update? && !x.Delete? ==> Do(cap, threshold, s, x).w.posts == s.w.posts
  {
    if x.Update? {
      UpdateWrites(s.w, x.p, x.user, x.text);
    } else if !x.Create? && !x.Delete? {
      OtherEventsKeepPosts(cap, threshold, s, x);
    }
  }

  lemma {:induction false} OtherEventsKeepPosts(cap: nat, threshold: nat, s: Hybrid, x: Event)
    requires CanDo(s, x) && !x.Create? && !x.Update? && !x.Delete?
    ensures Do(cap, threshold, s, x).w.posts == s.w.posts
  {
    match x
    case Handle(p) => assert Handled(cap, threshold, s, p).w.posts == s.w.posts;
    case HandleDeleted(_) =>
    case Befriend(u, f) => BefriendWrites(cap, s.w, u, f);
    case Unfriend(_, _) =>
    case RebuildFeed(_) =>
    case ReadMerged(u, offset, limit) => ReadKeepsDatabase(cap, s.w, u, 0, offset + limit);
    case DropFlag(_) =>
  }

  /** The friendships after each event of a run. */
  lemma {:induction false} EventFriends(cap: nat, threshold: nat, s: Hybrid, x: Event)
    requires CanDo(s, x)
    ensures x.Befriend? ==>
              Do(cap, threshold, s, x).w.friends
              == if x.f != x.u && x.f in s.w.users then s.w.friends + {(x.u, x.f)} else s.w.friends
    ensures x.Unfriend? ==> Do(cap, threshold, s, x).w.friends == s.w.friends - {(x.u, x.f)}
    ensures !x.Befriend? && !x.Unfriend? ==> Do(cap, threshold, s, x).w.friends == s.w.friends
  {
    match x
    case Create(_, _, _, _) =>
    case Handle(p) => assert Handled(cap, threshold, s, p).w.friends == s.w.friends;
    case Update(_, _, _) =>
    case Delete(_, _) =>
    case HandleDeleted(_) =>
    case Befriend(u, f) => BefriendWrites(cap, s.w, u, f);
    case Unfriend(_, _) =>
    case RebuildFeed(_) =>
    case ReadMerged(u, offset, limit) => ReadKeepsDatabase(cap, s.w, u, 0, offset + limit);
    case DropFlag(_) =>
  }

  /** The published events and those not handled yet. */
  lemma {:induction false} EventsWaiting(cap: nat, threshold: nat, s: Hybrid, x: Event)
    requires CanDo(s, x)
    ensures Do(cap, threshold, s, x).created == if x.Create? then s.created[x.p := Post(x.author, x.text, x.at)] else s.created
    ensures Do(cap, threshold, s, x).unhandled
         == if x.Create? then s.unhandled + {x.p} else if x.Handle? then s.unhandled - {x.p} else s.unhandled
  {
  }

  // ---------------------------------------------------------------- what a history remembers

  /** Of each feed: the posts put into it since its last rebuild or before, less those taken out again,
      and how many entries were taken out of it. And `wrong`: the posts whose body was last written by a
      created event handled after the post got another text or was deleted. */
  datatype Books = Books(index: nat -> set<Entry>, lost: nat -> nat, wrong: set<nat>)

  function Pids(s: set<Entry>): set<nat> {
    set e | e in s :: e.pid
  }

  /** What `read_feed` finds on a page and drops. */
  function Dropped(cap: nat, w: World, u: nat, n: nat): set<Entry> {
    var w1 := RefreshedForRead(cap, w, u);
    Stale(w1, Zrevrange(FeedOf(w1, u), 0, n))
  }

  /** What the feed of `u` indexes, has lost, and which bodies are wrong, once a read has rebuilt it if
      it was empty. */
  ghost function IndexForRead(s: Hybrid, index: set<Entry>, u: nat): set<Entry> {
    if FeedOf(s.w, u) == {} then FriendPosts(s.w, u) else index
  }

  ghost function LostForRead(s: Hybrid, lost: nat, u: nat): nat {
    if FeedOf(s.w, u) == {} then 0 else lost
  }

  ghost function WrongForRead(cap: nat, s: Hybrid, wrong: set<nat>, u: nat): set<nat> {
    if FeedOf(s.w, u) == {} then wrong - Pids(Top(FriendPosts(s.w, u), cap)) else wrong
  }

  ghost function IndexAfter(cap: nat, threshold: nat, s: Hybrid, index: set<Entry>, x: Event, v: nat): set<Entry>
    requires CanDo(s, x)
  {
    match x
    case Handle(p) =>
      var post := s.created[p];
      if Pushes(threshold, s, post.author) && (v, post.author) in s.w.friends then index + {EntryOf(p, post)} else index
    case HandleDeleted(p) =>
      if (v, s.created[p].author) in s.w.friends then index - {EntryOf(p, s.created[p])} else index
    case Befriend(u, f) => if v == u && f != u && f in s.w.users then index + PostsOf(s.w, f) else index
    case Unfriend(u, f) => if v == u then index - ByHash(s.w, index, f) else index
    case RebuildFeed(u) => if v == u then FriendPosts(s.w, v) else index
    case ReadMerged(u, offset, limit) =>
      if v == u then IndexForRead(s, index, v) - Dropped(cap, s.w, v, offset + limit) else index
    case _ => index
  }

  ghost function LostAfter(cap: nat, s: Hybrid, lost: nat, x: Event, v: nat): nat
    requires CanDo(s, x)
  {
    match x
    case HandleDeleted(p) => lost + |FeedOf(s.w, v) - FeedOf(FanRemove(s.w, p, s.created[p].author), v)|
    case Unfriend(u, f) => if v == u then lost + |ByHash(s.w, FeedOf(s.w, v), f)| else lost
    case RebuildFeed(u) => if v == u then 0 else lost
    case ReadMerged(u, offset, limit) =>
      if v == u then LostForRead(s, lost, v) + |Dropped(cap, s.w, v, offset + limit)| else lost
    case _ => lost
  }

  ghost function WrongAfter(cap: nat, s: Hybrid, wrong: set<nat>, x: Event): set<nat>
    requires CanDo(s, x)
  {
    match x
    case Handle(p) =>
      if s.created[p].text == "" then wrong
      else if p in s.w.posts && s.w.posts[p].text == s.created[p].text then wrong - {p}
      else wrong + {p}
    case Update(p, user, _) => if Owns(s.w, p, user) then wrong - {p} else wrong
    case Delete(p, user) => if Owns(s.w, p, user) then wrong - {p} else wrong
    case Befriend(u, f) => if f != u && f in s.w.users then wrong - Pids(Top(PostsOf(s.w, f), cap)) else wrong
    case RebuildFeed(u) => wrong - Pids(Top(FriendPosts(s.w, u), cap))
    case ReadMerged(u, _, _) => WrongForRead(cap, s, wrong, u)
    case _ => wrong
  }

  ghost function Record(cap: nat, threshold: nat, s: Hybrid, b: Books, x: Event): Books
    requires CanDo(s, x)
  {
    Books((v: nat) => IndexAfter(cap, threshold, s, b.index(v), x, v), (v: nat) => LostAfter(cap, s, b.lost(v), x, v),
          WrongAfter(cap, s, b.wrong, x))
  }

  // ---------------------------------------------------------------- the invariant

  /** Authors and times are those of the created events. */
  ghost predicate Named(born: map<nat, Post>, posts: map<nat, Post>) {
    forall p :: p in posts ==> NamedPost(born, p, posts[p])
  }

  predicate NamedPost(born: map<nat, Post>, p: nat, post: Post) {
    p in born && post.author == born[p].author && post.createdAt == born[p].createdAt
  }

  ghost predicate NamedEntries(born: map<nat, Post>, s: set<Entry>) {
    forall e :: e in s ==> e.pid in born && e.score == born[e.pid].createdAt
  }

  /** Rows and bodies are named, and every row has a body. */
  ghost predicate Sane(w: World, born: map<nat, Post>) {
    Named(born, w.posts) && Named(born, w.hashes) && w.posts.Keys <= w.hashes.Keys
  }

  /** The stored body is not what the database has. */
  predicate BodyWrong(w: World, p: nat) {
    p in w.hashes && (p !in w.posts || w.hashes[p] != w.posts[p])
  }

  ghost predicate Tracks(w: World, born: map<nat, Post>, wrong: set<nat>) {
    wrong <= born.Keys && forall p :: p in born ==> (BodyWrong(w, p) <==> p in wrong)
  }

  /** The feed holds the newest `cap - lost` of what it indexes. */
  ghost predicate Holds(cap: nat, w: World, born: map<nat, Post>, u: nat, index: set<Entry>, lost: nat) {
    Graded(cap, FeedOf(w, u), index, lost) && NamedEntries(born, index)
  }

  ghost predicate Keeps(cap: nat, s: Hybrid, b: Books) {
    && Sane(s.w, s.created) && Tracks(s.w, s.created, b.wrong)
    && forall u :: Holds(cap, s.w, s.created, u, b.index(u), b.lost(u))
  }

  // ---------------------------------------------------------------- feeds

  lemma {:induction false} NamedHaveOneKey(born: map<nat, Post>, s: set<Entry>)
    requires NamedEntries(born, s)
    ensures OneKeyPerId(s)
  {
  }

  lemma {:induction false} NamedBoth(born: map<nat, Post>, a: set<Entry>, b: set<Entry>)
    requires NamedEntries(born, a) && NamedEntries(born, b)
    ensures NamedEntries(born, a + b)
  {
  }

  lemma {:induction false} PostsAreNamed(w: World, born: map<nat, Post>, u: nat)
    requires Named(born, w.posts)
    ensures NamedEntries(born, PostsOf(w, u)) && NamedEntries(born, FriendPosts(w, u))
  {
    PostsOfAre(w, u);
    FriendPostsAre(w, u);
    forall e | e in PostsOf(w, u) || e in FriendPosts(w, u)
      ensures e.pid in born && e.score == born[e.pid].createdAt
    {
      assert NamedPost(born, e.pid, w.posts[e.pid]);
    }
  }

  lemma {:induction false} AddOne(cap: nat, feed: set<Entry>, index: set<Entry>, lost: nat, e: Entry)
    requires Graded(cap, feed, index, lost)
    ensures Graded(cap, Top(feed + {e}, cap), index + {e}, lost)
  {
    AddThenTrim(feed, index, {e}, {e}, cap, Less(cap, lost));
  }

  lemma {:induction false} ZaddNamed(born: map<nat, Post>, feed: set<Entry>, p: nat)
    requires NamedEntries(born, feed) && p in born
    ensures Zadd(feed, EntryOf(p, born[p])) == feed + {EntryOf(p, born[p])}
    ensures Zrem(feed, p) == feed - {EntryOf(p, born[p])}
  {
  }

  lemma {:induction false} FedBy(w: World, e: Entry, cap: nat, author: nat, v: nat)
    ensures FeedOf(FanOut(cap, w, e, author), v)
         == if (v, author) in w.friends then Top(Zadd(FeedOf(w, v), e), cap) else FeedOf(w, v)
    ensures FeedOf(FanRemove(w, e.pid, author), v)
         == if (v, author) in w.friends then Zrem(FeedOf(w, v), e.pid) else FeedOf(w, v)
  {
    IsFollower(w, v, author);
  }

  lemma {:induction false} PushHolds(cap: nat, w: World, born: map<nat, Post>, v: nat, index: set<Entry>, lost: nat, p: nat)
    requires Holds(cap, w, born, v, index, lost) && p in born
    ensures Holds(cap, FanOut(cap, w, EntryOf(p, born[p]), born[p].author), born, v,
                  if (v, born[p].author) in w.friends then index + {EntryOf(p, born[p])} else index, lost)
  {
    FedBy(w, EntryOf(p, born[p]), cap, born[p].author, v);
    ZaddNamed(born, FeedOf(w, v), p);
    AddOne(cap, FeedOf(w, v), index, lost, EntryOf(p, born[p]));
  }

  lemma {:induction false} RemovalHolds(cap: nat, w: World, born: map<nat, Post>, v: nat, index: set<Entry>, lost: nat, p: nat)
    requires Holds(cap, w, born, v, index, lost) && p in born
    ensures var w' := FanRemove(w, p, born[p].author);
            Holds(cap, w', born, v, if (v, born[p].author) in w.friends then index - {EntryOf(p, born[p])} else index,
                  lost + |FeedOf(w, v) - FeedOf(w', v)|)
  {
    FedBy(w, EntryOf(p, born[p]), cap, born[p].author, v);
    ZaddNamed(born, FeedOf(w, v), p);
    DeleteKeepsGraded(cap, FeedOf(w, v), index, {EntryOf(p, born[p])}, lost);
    assert FeedOf(w, v) - FeedOf(w, v) == {};
  }

  lemma {:induction false} BefriendHolds(cap: nat, w: World, born: map<nat, Post>, u: nat, index: set<Entry>, lost: nat, f: nat)
    requires Holds(cap, w, born, u, index, lost) && Named(born, w.posts) && f != u && f in w.users
    ensures Holds(cap, SetFriend(cap, w, u, f), born, u, index + PostsOf(w, f), lost)
  {
    var feed, more := FeedOf(w, u), PostsOf(w, f);
    PostsAreNamed(w, born, f);
    NamedBoth(born, feed, more);
    NamedHaveOneKey(born, feed + more);
    BefriendEffect(cap, w, u, f);
    TopGrows(more, Less(cap, lost), cap);
    AddThenTrim(feed, index, Top(more, cap), more, cap, Less(cap, lost));
    NamedBoth(born, index, more);
  }

  lemma {:induction false} TakingOut(cap: nat, feed: set<Entry>, index: set<Entry>, lost: nat, gone: set<Entry>, taken: set<Entry>)
    requires Graded(cap, feed, index, lost) && taken == feed * gone
    ensures Graded(cap, feed - taken, index - gone, lost + |taken|)
  {
    DeleteKeepsGraded(cap, feed, index, gone, lost);
    assert feed - taken == feed - gone;
  }

  lemma {:induction false} UnfriendHolds(cap: nat, w: World, born: map<nat, Post>, u: nat, index: set<Entry>, lost: nat, f: nat)
    requires Holds(cap, w, born, u, index, lost)
    ensures Holds(cap, DeleteFriend(w, u, f), born, u, index - ByHash(w, index, f), lost + |ByHash(w, FeedOf(w, u), f)|)
  {
    assert ByHash(w, FeedOf(w, u), f) == FeedOf(w, u) * ByHash(w, index, f);
    TakingOut(cap, FeedOf(w, u), index, lost, ByHash(w, index, f), ByHash(w, FeedOf(w, u), f));
  }

  lemma {:induction false} RebuildHolds(cap: nat, w: World, born: map<nat, Post>, u: nat)
    requires Named(born, w.posts)
    ensures Holds(cap, Rebuild(cap, w, u), born, u, FriendPosts(w, u), 0)
  {
    PostsAreNamed(w, born, u);
    TopIsPrefix(FriendPosts(w, u), cap);
  }

  lemma {:induction false} RefreshHolds(cap: nat, s: Hybrid, index: set<Entry>, lost: nat, u: nat)
    requires Named(s.created, s.w.posts) && Holds(cap, s.w, s.created, u, index, lost)
    ensures Holds(cap, RefreshedForRead(cap, s.w, u), s.created, u, IndexForRead(s, index, u), LostForRead(s, lost, u))
  {
    RebuildHolds(cap, s.w, s.created, u);
  }

  lemma {:induction false} DroppedWereFed(cap: nat, w: World, u: nat, n: nat)
    ensures Dropped(cap, w, u, n) == FeedOf(RefreshedForRead(cap, w, u), u) * Dropped(cap, w, u, n)
  {
    SortedInFeed(FeedOf(RefreshedForRead(cap, w, u), u), 0, n);
  }

  lemma {:induction false} ReadFeeds(cap: nat, w: World, u: nat, n: nat)
    ensures FeedOf(ReadFeed(cap, w, u, 0, n).0, u) == FeedOf(RefreshedForRead(cap, w, u), u) - Dropped(cap, w, u, n)
  {
  }

  lemma {:induction false} ReadHolds(cap: nat, s: Hybrid, index: set<Entry>, lost: nat, u: nat, n: nat)
    requires Named(s.created, s.w.posts) && Holds(cap, s.w, s.created, u, index, lost)
    ensures Holds(cap, ReadFeed(cap, s.w, u, 0, n).0, s.created, u,
                  IndexForRead(s, index, u) - Dropped(cap, s.w, u, n), LostForRead(s, lost, u) + |Dropped(cap, s.w, u, n)|)
  {
    var gone := Dropped(cap, s.w, u, n);
    RefreshHolds(cap, s, index, lost, u);
    DroppedWereFed(cap, s.w, u, n);
    ReadFeeds(cap, s.w, u, n);
    TakingOut(cap, FeedOf(RefreshedForRead(cap, s.w, u), u), IndexForRead(s, index, u), LostForRead(s, lost, u), gone, gone);
  }

  lemma {:induction false} OthersKeepFeeds(cap: nat, w: World, u: nat, f: nat, n: nat, v: nat)
    requires v != u
    ensures FeedOf(SetFriend(cap, w, u, f), v) == FeedOf(w, v)
    ensures FeedOf(DeleteFriend(w, u, f), v) == FeedOf(w, v)
    ensures FeedOf(Rebuild(cap, w, u), v) == FeedOf(w, v)
    ensures FeedOf(ReadFeed(cap, w, u, 0, n).0, v) == FeedOf(w, v)
  {
  }

  // ---------------------------------------------------------------- bodies

  lemma {:induction false} RowBodies(w: World, rows: set<Entry>, p: nat)
    requires forall e :: e in rows ==> IsRow(w, e)
    ensures p in BodiesOf(w, rows) <==> p in Pids(rows)
    ensures p in Pids(rows) ==> p in w.posts && BodiesOf(w, rows)[p] == w.posts[p]
  {
    if p in Pids(rows) {
      var e :| e in rows && e.pid == p;
      assert e == Entry(w.posts[p].createdAt, p);
    }
  }

  /** Bodies written from rows are right. */
  lemma {:induction false} RowBodiesTrack(w: World, w': World, born: map<nat, Post>, wrong: set<nat>, rows: set<Entry>)
    requires Sane(w, born) && Tracks(w, born, wrong) && forall e :: e in rows ==> IsRow(w, e)
    requires w'.posts == w.posts && w'.hashes == w.hashes + BodiesOf(w, rows)
    ensures Sane(w', born) && Tracks(w', born, wrong - Pids(rows))
  {
    forall p
      ensures p in w'.hashes ==> NamedPost(born, p, w'.hashes[p])
      ensures p in born ==> (BodyWrong(w', p) <==> p in wrong && p !in Pids(rows))
    {
      RowBodies(w, rows, p);
      assert p in w.hashes ==> NamedPost(born, p, w.hashes[p]);
      assert p in w.posts ==> NamedPost(born, p, w.posts[p]);
      assert p in born ==> (BodyWrong(w, p) <==> p in wrong);
    }
  }

  /** One post's row and body change. */
  lemma {:induction false} OneBodyTracks(w: World, w': World, born: map<nat, Post>, wrong: set<nat>, wrong': set<nat>, p: nat)
    requires Sane(w, born) && Tracks(w, born, wrong) && p in born
    requires forall q :: q != p ==> (q in w'.posts <==> q in w.posts) && (q in w'.hashes <==> q in w.hashes)
    requires forall q :: q != p && q in w.posts ==> w'.posts[q] == w.posts[q]
    requires forall q :: q != p && q in w.hashes ==> w'.hashes[q] == w.hashes[q]
    requires p in w'.posts ==> p in w'.hashes && NamedPost(born, p, w'.posts[p])
    requires p in w'.hashes ==> NamedPost(born, p, w'.hashes[p])
    requires wrong' == if BodyWrong(w', p) then wrong + {p} else wrong - {p}
    ensures Sane(w', born) && Tracks(w', born, wrong')
  {
    forall q
      ensures q in w'.posts ==> q in w'.hashes && NamedPost(born, q, w'.posts[q])
      ensures q in w'.hashes ==> NamedPost(born, q, w'.hashes[q])
      ensures q in born ==> (BodyWrong(w', q) <==> q in wrong')
    {
      if q != p {
        assert q in w.hashes ==> NamedPost(born, q, w.hashes[q]);
        assert q in w.posts ==> NamedPost(born, q, w.posts[q]);
        assert q in born ==> (BodyWrong(w, q) <==> q in wrong);
      }
    }
  }

  lemma {:induction false} SameBodiesTrack(w: World, w': World, born: map<nat, Post>, wrong: set<nat>)
    requires Sane(w, born) && Tracks(w, born, wrong) && w'.posts == w.posts && w'.hashes == w.hashes
    ensures Sane(w', born) && Tracks(w', born, wrong)
  {
    assert forall p :: BodyWrong(w', p) <==> BodyWrong(w, p);
  }

  ghost predicate TracksAfter(cap: nat, threshold: nat, s: Hybrid, wrong: set<nat>, x: Event)
    requires CanDo(s, x)
  {
    var s' := Do(cap, threshold, s, x);
    Sane(s'.w, s'.created) && Tracks(s'.w, s'.created, WrongAfter(cap, s, wrong, x))
  }

  lemma {:induction false} BornMore(w: World, born: map<nat, Post>, wrong: set<nat>, p: nat, post: Post)
    requires Sane(w, born) && Tracks(w, born, wrong) && p !in born
    ensures Sane(w, born[p := post]) && Tracks(w, born[p := post], wrong)
    ensures p !in w.posts && p !in w.hashes && p !in wrong
  {
    forall q
      ensures q in w.posts ==> NamedPost(born[p := post], q, w.posts[q])
      ensures q in w.hashes ==> NamedPost(born[p := post], q, w.hashes[q])
    {
      assert q in w.posts ==> NamedPost(born, q, w.posts[q]);
      assert q in w.hashes ==> NamedPost(born, q, w.hashes[q]);
    }
  }

  lemma {:induction false} CreateTracks(cap: nat, threshold: nat, s: Hybrid, wrong: set<nat>, p: nat, author: nat, text: string, at: int)
    requires Sane(s.w, s.created) && Tracks(s.w, s.created, wrong) && p !in s.created
    ensures TracksAfter(cap, threshold, s, wrong, Event.Create(p, author, text, at))
  {
    var post := Post(author, text, at);
    BornMore(s.w, s.created, wrong, p, post);
    OneBodyTracks(s.w, WithPost(s.w, p, post), s.created[p := post], wrong, wrong - {p}, p);
    assert wrong - {p} == wrong;
  }

  lemma {:induction false} BodyOfEventTracks(w: World, born: map<nat, Post>, wrong: set<nat>, p: nat)
    requires Sane(w, born) && Tracks(w, born, wrong) && p in born && born[p].text != ""
    ensures var w' := WithBody(w, p, born[p].author, born[p].text, born[p].createdAt);
            && Sane(w', born)
            && Tracks(w', born, if p in w.posts && w.posts[p].text == born[p].text then wrong - {p} else wrong + {p})
  {
    var w' := WithBody(w, p, born[p].author, born[p].text, born[p].createdAt);
    assert p in w.posts ==> NamedPost(born, p, w.posts[p]);
    OneBodyTracks(w, w', born, wrong, if BodyWrong(w', p) then wrong + {p} else wrong - {p}, p);
  }

  lemma {:induction false} HandledBodies(cap: nat, threshold: nat, s: Hybrid, p: nat)
    requires p in s.created
    ensures var post := s.created[p];
            var w1 := WithBody(s.w, p, post.author, post.text, post.createdAt);
            var s' := Handled(cap, threshold, s, p);
            s'.w.posts == w1.posts && s'.w.hashes == w1.hashes && s'.created == s.created
  {
  }

  lemma {:induction false} HandleTracks(cap: nat, threshold: nat, s: Hybrid, wrong: set<nat>, p: nat)
    requires Sane(s.w, s.created) && Tracks(s.w, s.created, wrong) && p in s.created
    ensures Sane(Handled(cap, threshold, s, p).w, s.created)
    ensures Tracks(Handled(cap, threshold, s, p).w, s.created, WrongAfter(cap, s, wrong, Handle(p)))
  {
    var post := s.created[p];
    if post.text != "" {
      BodyOfEventTracks(s.w, s.created, wrong, p);
    }
    HandledBodies(cap, threshold, s, p);
    SameBodiesTrack(WithBody(s.w, p, post.author, post.text, post.createdAt), Handled(cap, threshold, s, p).w, s.created,
                    WrongAfter(cap, s, wrong, Handle(p)));
  }

  lemma {:induction false} UpdateTracks(cap: nat, threshold: nat, s: Hybrid, wrong: set<nat>, p: nat, user: nat, text: string)
    requires Sane(s.w, s.created) && Tracks(s.w, s.created, wrong)
    ensures TracksAfter(cap, threshold, s, wrong, Event.Update(p, user, text))
  {
    if Owns(s.w, p, user) {
      assert NamedPost(s.created, p, s.w.posts[p]);
      OneBodyTracks(s.w, UpdatePost(s.w, p, user, text), s.created, wrong, wrong - {p}, p);
    }
  }

  lemma {:induction false} DeleteTracks(cap: nat, threshold: nat, s: Hybrid, wrong: set<nat>, p: nat, user: nat)
    requires Sane(s.w, s.created) && Tracks(s.w, s.created, wrong)
    ensures TracksAfter(cap, threshold, s, wrong, Event.Delete(p, user))
  {
    if Owns(s.w, p, user) {
      assert NamedPost(s.created, p, s.w.posts[p]);
      OneBodyTracks(s.w, WithoutPost(s.w, p, user), s.created, wrong, wrong - {p}, p);
    }
  }

  lemma {:induction false} BefriendBodies(cap: nat, w: World, u: nat, f: nat)
    requires f != u && f in w.users
    ensures SetFriend(cap, w, u, f).posts == w.posts
    ensures SetFriend(cap, w, u, f).hashes == w.hashes + BodiesOf(w, Top(PostsOf(w, f), cap))
  {
    var w1 := w.(friends := w.friends + {(u, f)});
    var rows := Top(PostsOf(w, f), cap);
    assert PostsOf(w1, f) == PostsOf(w, f) && BodiesOf(w1, rows) == BodiesOf(w, rows);
    if rows == {} {
      assert BodiesOf(w, {}) == map[];
    }
  }

  lemma {:induction false} BefriendTracks(cap: nat, threshold: nat, s: Hybrid, wrong: set<nat>, u: nat, f: nat)
    requires Sane(s.w, s.created) && Tracks(s.w, s.created, wrong)
    ensures TracksAfter(cap, threshold, s, wrong, Event.Befriend(u, f))
  {
    if f != u && f in s.w.users {
      BefriendBodies(cap, s.w, u, f);
      PostsOfAre(s.w, f);
      RowBodiesTrack(s.w, SetFriend(cap, s.w, u, f), s.created, wrong, Top(PostsOf(s.w, f), cap));
    }
  }

  lemma {:induction false} RefreshTracks(cap: nat, s: Hybrid, wrong: set<nat>, u: nat)
    requires Sane(s.w, s.created) && Tracks(s.w, s.created, wrong)
    ensures Sane(Rebuild(cap, s.w, u), s.created)
    ensures Tracks(Rebuild(cap, s.w, u), s.created, wrong - Pids(Top(FriendPosts(s.w, u), cap)))
    ensures Sane(RefreshedForRead(cap, s.w, u), s.created)
    ensures Tracks(RefreshedForRead(cap, s.w, u), s.created, WrongForRead(cap, s, wrong, u))
  {
    FriendPostsAre(s.w, u);
    RowBodiesTrack(s.w, Rebuild(cap, s.w, u), s.created, wrong, Top(FriendPosts(s.w, u), cap));
  }

  lemma {:induction false} ReadTracks(cap: nat, threshold: nat, s: Hybrid, wrong: set<nat>, u: nat, offset: nat, limit: nat)
    requires Sane(s.w, s.created) && Tracks(s.w, s.created, wrong) && limit >= 1
    ensures TracksAfter(cap, threshold, s, wrong, Event.ReadMerged(u, offset, limit))
  {
    RefreshTracks(cap, s, wrong, u);
    SameBodiesTrack(RefreshedForRead(cap, s.w, u), ReadFeed(cap, s.w, u, 0, offset + limit).0, s.created,
                    WrongForRead(cap, s, wrong, u));
  }

  lemma {:induction false} OthersTrack(cap: nat, threshold: nat, s: Hybrid, wrong: set<nat>, x: Event)
    requires x.HandleDeleted? || x.Unfriend? || x.DropFlag?
    requires Sane(s.w, s.created) && Tracks(s.w, s.created, wrong) && CanDo(s, x)
    ensures TracksAfter(cap, threshold, s, wrong, x)
  {
    SameBodiesTrack(s.w, Do(cap, threshold, s, x).w, s.created, wrong);
  }

  lemma {:induction false} EventTracks(cap: nat, threshold: nat, s: Hybrid, wrong: set<nat>, x: Event)
    requires Sane(s.w, s.created) && Tracks(s.w, s.created, wrong) && CanDo(s, x)
    ensures TracksAfter(cap, threshold, s, wrong, x)
  {
    match x
    case Create(p, author, text, at) => CreateTracks(cap, threshold, s, wrong, p, author, text, at);
    case Handle(p) => HandleTracks(cap, threshold, s, wrong, p);
    case Update(p, user, text) => UpdateTracks(cap, threshold, s, wrong, p, user, text);
    case Delete(p, user) => DeleteTracks(cap, threshold, s, wrong, p, user);
    case Befriend(u, f) => BefriendTracks(cap, threshold, s, wrong, u, f);
    case RebuildFeed(u) => RefreshTracks(cap, s, wrong, u);
    case ReadMerged(u, offset, limit) => ReadTracks(cap, threshold, s, wrong, u, offset, limit);
    case HandleDeleted(_) => OthersTrack(cap, threshold, s, wrong, x);
    case Unfriend(_, _) => OthersTrack(cap, threshold, s, wrong, x);
    case DropFlag(_) => OthersTrack(cap, threshold, s, wrong, x);
  }

  // ---------------------------------------------------------------- every event

  ghost predicate HoldsAfter(cap: nat, threshold: nat, s: Hybrid, index: set<Entry>, lost: nat, x: Event, v: nat)
    requires CanDo(s, x)
  {
    var s' := Do(cap, threshold, s, x);
    Holds(cap, s'.w, s'.created, v, IndexAfter(cap, threshold, s, index, x, v), LostAfter(cap, s, lost, x, v))
  }

  lemma {:induction false} HandleHolds(cap: nat, threshold: nat, s: Hybrid, index: set<Entry>, lost: nat, p: nat, v: nat)
    requires Holds(cap, s.w, s.created, v, index, lost) && p in s.created
    ensures HoldsAfter(cap, threshold, s, index, lost, Event.Handle(p), v)
  {
    var post := s.created[p];
    var w1 := WithBody(s.w, p, post.author, post.text, post.createdAt);
    assert Holds(cap, w1, s.created, v, index, lost);
    PushHolds(cap, w1, s.created, v, index, lost, p);
  }

  lemma {:induction false} HandleDeletedHolds(cap: nat, threshold: nat, s: Hybrid, index: set<Entry>, lost: nat, p: nat, v: nat)
    requires Holds(cap, s.w, s.created, v, index, lost) && CanDo(s, HandleDeleted(p))
    ensures HoldsAfter(cap, threshold, s, index, lost, Event.HandleDeleted(p), v)
  {
    RemovalHolds(cap, s.w, s.created, v, index, lost, p);
  }

  lemma {:induction false} PostEventHolds(cap: nat, threshold: nat, s: Hybrid, index: set<Entry>, lost: nat, x: Event, v: nat)
    requires x.Create? || x.Update? || x.Delete? || x.DropFlag?
    requires Holds(cap, s.w, s.created, v, index, lost) && CanDo(s, x)
    ensures HoldsAfter(cap, threshold, s, index, lost, x, v)
  {
  }

  lemma {:induction false} BefriendHoldsFor(cap: nat, w: World, born: map<nat, Post>, u: nat, index: set<Entry>, lost: nat, f: nat, v: nat)
    requires Holds(cap, w, born, v, index, lost) && Named(born, w.posts)
    ensures Holds(cap, SetFriend(cap, w, u, f), born, v,
                  if v == u && f != u && f in w.users then index + PostsOf(w, f) else index, lost)
  {
    if v != u {
      OthersKeepFeeds(cap, w, u, f, 1, v);
    } else if f != u && f in w.users {
      BefriendHolds(cap, w, born, u, index, lost, f);
    }
  }

  lemma {:induction false} BefriendEventHolds(cap: nat, threshold: nat, s: Hybrid, index: set<Entry>, lost: nat, u: nat, f: nat, v: nat)
    requires Holds(cap, s.w, s.created, v, index, lost) && Named(s.created, s.w.posts)
    ensures HoldsAfter(cap, threshold, s, index, lost, Event.Befriend(u, f), v)
  {
    BefriendHoldsFor(cap, s.w, s.created, u, index, lost, f, v);
  }

  lemma {:induction false} UnfriendHoldsFor(cap: nat, w: World, born: map<nat, Post>, u: nat, index: set<Entry>, lost: nat, f: nat, v: nat)
    requires Holds(cap, w, born, v, index, lost)
    ensures Holds(cap, DeleteFriend(w, u, f), born, v, if v == u then index - ByHash(w, index, f) else index,
                  if v == u then lost + |ByHash(w, FeedOf(w, v), f)| else lost)
  {
    if v != u {
      OthersKeepFeeds(cap, w, u, f, 1, v);
    } else {
      UnfriendHolds(cap, w, born, u, index, lost, f);
    }
  }

  lemma {:induction false} UnfriendEventHolds(cap: nat, threshold: nat, s: Hybrid, index: set<Entry>, lost: nat, u: nat, f: nat, v: nat)
    requires Holds(cap, s.w, s.created, v, index, lost)
    ensures HoldsAfter(cap, threshold, s, index, lost, Event.Unfriend(u, f), v)
  {
    UnfriendHoldsFor(cap, s.w, s.created, u, index, lost, f, v);
  }

  lemma {:induction false} RebuildHoldsFor(cap: nat, w: World, born: map<nat, Post>, u: nat, index: set<Entry>, lost: nat, v: nat)
    requires Holds(cap, w, born, v, index, lost) && Named(born, w.posts)
    ensures Holds(cap, Rebuild(cap, w, u), born, v, if v == u then FriendPosts(w, v) else index, if v == u then 0 else lost)
  {
    if v != u {
      OthersKeepFeeds(cap, w, u, u, 1, v);
    } else {
      RebuildHolds(cap, w, born, u);
    }
  }

  lemma {:induction false} RebuildEventHolds(cap: nat, threshold: nat, s: Hybrid, index: set<Entry>, lost: nat, u: nat, v: nat)
    requires Holds(cap, s.w, s.created, v, index, lost) && Named(s.created, s.w.posts)
    ensures HoldsAfter(cap, threshold, s, index, lost, Event.RebuildFeed(u), v)
  {
    RebuildHoldsFor(cap, s.w, s.created, u, index, lost, v);
  }

  lemma {:induction false} ReadHoldsFor(cap: nat, s: Hybrid, index: set<Entry>, lost: nat, u: nat, n: nat, v: nat)
    requires Holds(cap, s.w, s.created, v, index, lost) && Named(s.created, s.w.posts)
    ensures Holds(cap, ReadFeed(cap, s.w, u, 0, n).0, s.created, v,
                  if v == u then IndexForRead(s, index, v) - Dropped(cap, s.w, v, n) else index,
                  if v == u then LostForRead(s, lost, v) + |Dropped(cap, s.w, v, n)| else lost)
  {
    if v != u {
      OthersKeepFeeds(cap, s.w, u, u, n, v);
    } else {
      ReadHolds(cap, s, index, lost, u, n);
    }
  }

  lemma {:induction false} ReadDoes(cap: nat, threshold: nat, s: Hybrid, x: Event)
    requires x.ReadMerged? && CanDo(s, x)
    ensures Do(cap, threshold, s, x).w == ReadFeed(cap, s.w, x.u, 0, x.offset + x.limit).0
    ensures Do(cap, threshold, s, x).created == s.created
  {
  }

  lemma {:induction false} ReadIndexes(cap: nat, threshold: nat, s: Hybrid, index: set<Entry>, x: Event, v: nat)
    requires x.ReadMerged? && CanDo(s, x)
    ensures IndexAfter(cap, threshold, s, index, x, v)
         == if v == x.u then IndexForRead(s, index, v) - Dropped(cap, s.w, v, x.offset + x.limit) else index
  {
  }

  lemma {:induction false} ReadLoses(cap: nat, s: Hybrid, lost: nat, x: Event, v: nat)
    requires x.ReadMerged? && CanDo(s, x)
    ensures LostAfter(cap, s, lost, x, v)
         == if v == x.u then LostForRead(s, lost, v) + |Dropped(cap, s.w, v, x.offset + x.limit)| else lost
  {
  }

  lemma {:induction false} ReadHoldsAs(cap: nat, s: Hybrid, index: set<Entry>, lost: nat, u: nat, n: nat, v: nat,
                                       w': World, index': set<Entry>, lost': nat)
    requires Holds(cap, s.w, s.created, v, index, lost) && Named(s.created, s.w.posts)
    requires w' == ReadFeed(cap, s.w, u, 0, n).0
    requires index' == if v == u then IndexForRead(s, index, v) - Dropped(cap, s.w, v, n) else index
    requires lost' == if v == u then LostForRead(s, lost, v) + |Dropped(cap, s.w, v, n)| else lost
    ensures Holds(cap, w', s.created, v, index', lost')
  {
    ReadHoldsFor(cap, s, index, lost, u, n, v);
  }

  lemma {:induction false} ReadEventHolds(cap: nat, threshold: nat, s: Hybrid, index: set<Entry>, lost: nat,
                                          x: Event, v: nat)
    requires Holds(cap, s.w, s.created, v, index, lost) && Named(s.created, s.w.posts) && x.ReadMerged? && CanDo(s, x)
    ensures HoldsAfter(cap, threshold, s, index, lost, x, v)
  {
    ReadDoes(cap, threshold, s, x);
    ReadIndexes(cap, threshold, s, index, x, v);
    ReadLoses(cap, s, lost, x, v);
    ReadHoldsAs(cap, s, index, lost, x.u, x.offset + x.limit, v, Do(cap, threshold, s, x).w,
                IndexAfter(cap, threshold, s, index, x, v), LostAfter(cap, s, lost, x, v));
  }

  lemma {:induction false} EventHolds(cap: nat, threshold: nat, s: Hybrid, index: set<Entry>, lost: nat, x: Event, v: nat)
    requires Holds(cap, s.w, s.created, v, index, lost) && Named(s.created, s.w.posts) && CanDo(s, x)
    ensures HoldsAfter(cap, threshold, s, index, lost, x, v)
  {
    match x
    case Handle(p) => HandleHolds(cap, threshold, s, index, lost, p, v);
    case HandleDeleted(p) => HandleDeletedHolds(cap, threshold, s, index, lost, p, v);
    case Befriend(u, f) => BefriendEventHolds(cap, threshold, s, index, lost, u, f, v);
    case Unfriend(u, f) => UnfriendEventHolds(cap, threshold, s, index, lost, u, f, v);
    case RebuildFeed(u) => RebuildEventHolds(cap, threshold, s, index, lost, u, v);
    case ReadMerged(_, _, _) => ReadEventHolds(cap, threshold, s, index, lost, x, v);
    case Create(_, _, _, _) => PostEventHolds(cap, threshold, s, index, lost, x, v);
    case Update(_, _, _) => PostEventHolds(cap, threshold, s, index, lost, x, v);
    case Delete(_, _) => PostEventHolds(cap, threshold, s, index, lost, x, v);
    case DropFlag(_) => PostEventHolds(cap, threshold, s, index, lost, x, v);
  }

  lemma {:induction false} RecordIs(cap: nat, threshold: nat, s: Hybrid, b: Books, x: Event, v: nat)
    requires CanDo(s, x)
    ensures Record(cap, threshold, s, b, x).index(v) == IndexAfter(cap, threshold, s, b.index(v), x, v)
    ensures Record(cap, threshold, s, b, x).lost(v) == LostAfter(cap, s, b.lost(v), x, v)
    ensures Record(cap, threshold, s, b, x).wrong == WrongAfter(cap, s, b.wrong, x)
  {
  }

  lemma {:induction false} DoKeepsFor(cap: nat, threshold: nat, s: Hybrid, b: Books, x: Event, v: nat)
    requires Keeps(cap, s, b) && CanDo(s, x)
    ensures HoldsAfter(cap, threshold, s, b.index(v), b.lost(v), x, v)
  {
    assert Holds(cap, s.w, s.created, v, b.index(v), b.lost(v));
    EventHolds(cap, threshold, s, b.index(v), b.lost(v), x, v);
  }

  lemma {:induction false} KeptFor(cap: nat, threshold: nat, s: Hybrid, b: Books, x: Event)
    requires CanDo(s, x) && TracksAfter(cap, threshold, s, b.wrong, x)
    requires forall v: nat :: HoldsAfter(cap, threshold, s, b.index(v), b.lost(v), x, v)
    ensures Keeps(cap, Do(cap, threshold, s, x), Record(cap, threshold, s, b, x))
  {
    var s', b' := Do(cap, threshold, s, x), Record(cap, threshold, s, b, x);
    forall v: nat
      ensures Holds(cap, s'.w, s'.created, v, b'.index(v), b'.lost(v))
    {
      RecordIs(cap, threshold, s, b, x, v);
      assert HoldsAfter(cap, threshold, s, b.index(v), b.lost(v), x, v);
    }
  }

  lemma {:induction false} DoKeeps(cap: nat, threshold: nat, s: Hybrid, b: Books, x: Event)
    requires Keeps(cap, s, b) && CanDo(s, x)
    ensures Keeps(cap, Do(cap, threshold, s, x), Record(cap, threshold, s, b, x))
  {
    EventTracks(cap, threshold, s, b.wrong, x);
    forall v: nat
      ensures HoldsAfter(cap, threshold, s, b.index(v), b.lost(v), x, v)
    {
      DoKeepsFor(cap, threshold, s, b, x, v);
    }
    KeptFor(cap, threshold, s, b, x);
  }

  // ---------------------------------------------------------------- runs

  ghost predicate CanDoAll(cap: nat, threshold: nat, s: Hybrid, xs: seq<Event>)
    decreases |xs|
  {
    xs == [] || (CanDo(s, xs[0]) && CanDoAll(cap, threshold, Do(cap, threshold, s, xs[0]), xs[1..]))
  }

  ghost function Reached(cap: nat, threshold: nat, s: Hybrid, b: Books, xs: seq<Event>): (Hybrid, Books)
    requires CanDoAll(cap, threshold, s, xs)
    decreases |xs|
  {
    if xs == [] then (s, b)
    else Reached(cap, threshold, Do(cap, threshold, s, xs[0]), Record(cap, threshold, s, b, xs[0]), xs[1..])
  }

  ghost predicate Empty(s: Hybrid) {
    Fresh(s.w) && s.flags == map[] && s.created == map[] && s.unhandled == {}
  }

  ghost function NoBooks(): Books {
    Books((v: nat) => {}, NothingLost, {})
  }

  lemma {:induction false} EmptyKeeps(cap: nat, s: Hybrid)
    requires Empty(s)
    ensures Keeps(cap, s, NoBooks())
  {
    forall u: nat
      ensures Holds(cap, s.w, s.created, u, {}, 0)
    {
      assert FeedOf(s.w, u) == {};
    }
  }

  /** In every run, whatever the order and the delay in which events are handled, each feed holds the
      newest `cap - lost` of the posts put into it and not taken out, and a stored body differs from the
      database exactly if its post is one of the `wrong`. */
  lemma {:induction false} RunKeepsBooks(cap: nat, threshold: nat, s: Hybrid, b: Books, xs: seq<Event>)
    requires Keeps(cap, s, b) && CanDoAll(cap, threshold, s, xs)
    ensures var (s', b') := Reached(cap, threshold, s, b, xs);
            Keeps(cap, s', b')
    decreases |xs|
  {
    if xs != [] {
      DoKeeps(cap, threshold, s, b, xs[0]);
      RunKeepsBooks(cap, threshold, Do(cap, threshold, s, xs[0]), Record(cap, threshold, s, b, xs[0]), xs[1..]);
    }
  }

  /** One handling keeps the body of a live post right exactly if the event carries no text or the text
      the post still has. */
  lemma {:induction false} HandlingKeepsBody(cap: nat, threshold: nat, s: Hybrid, wrong: set<nat>, p: nat)
    requires Sane(s.w, s.created) && Tracks(s.w, s.created, wrong)
    requires p in s.created && p in s.w.posts && !BodyWrong(s.w, p)
    ensures !BodyWrong(Handled(cap, threshold, s, p).w, p)
       <==> s.created[p].text == "" || s.created[p].text == s.w.posts[p].text
  {
    HandleTracks(cap, threshold, s, wrong, p);
  }

  /** In every run a stored body differs from the database, by an old text or by outliving its post,
      exactly if a created event with a text the post does not have wrote it after the last writing of
      the body from the database. */
  lemma {:induction false} WrongBodiesAreTheWrong(cap: nat, threshold: nat, s0: Hybrid, xs: seq<Event>, p: nat)
    requires Empty(s0) && CanDoAll(cap, threshold, s0, xs)
    ensures var (s, b) := Reached(cap, threshold, s0, NoBooks(), xs);
            p in s.created ==> (BodyWrong(s.w, p) <==> p in b.wrong)
  {
    EmptyKeeps(cap, s0);
    RunKeepsBooks(cap, threshold, s0, NoBooks(), xs);
  }
}
