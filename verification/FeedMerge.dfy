/** Celebrity authors are not pushed into feeds; readers pull their posts and merge them in
    (`get_celebrity_friends`, `fetch_recent_posts_by_authors`, `read_feed_merged` in
    app/feed_cache.py, `is_celebrity` in app/services/celebrity.py). */
module FeedMerge {
  import opened FeedOrder
  import opened Paging
  import opened FeedWorld
  import opened FeedRows
  import opened FeedCache

  // ---------------------------------------------------------------- who is a celebrity

  /** What `is_celebrity` answers: the cached flag, or the follower count against the threshold. */
  function CelebrityFlag(w: World, flags: map<nat, bool>, threshold: nat, author: nat): bool {
    if author in flags then flags[author] else |Followers(w, author)| >= threshold
  }

  function FriendsOf(w: World, u: nat): set<nat> {
    set f | f in w.friends && f.0 == u :: f.1
  }

  function CelebrityFriends(w: World, flags: map<nat, bool>, threshold: nat, u: nat): set<nat> {
    set f | f in FriendsOf(w, u) && CelebrityFlag(w, flags, threshold, f)
  }

  /** The flags both the push and the pull side read, and the methods that fill them. */
  class Celebrities {
    const threshold: nat
    var flags: map<nat, bool>

    constructor (threshold: nat)
      ensures this.threshold == threshold && flags == map[]
    {
      this.threshold := threshold;
      flags := map[];
    }

    /** `is_celebrity`. */
    method IsCelebrity(w: World, author: nat) returns (flag: bool)
      modifies this`flags
      ensures flag == CelebrityFlag(w, old(flags), threshold, author)
      ensures flag == if author in old(flags) then old(flags)[author]
                      else |Followers(w, author)| >= threshold
      ensures flags == old(flags)[author := flag]
    {
      if author in flags {
        flag := flags[author];
        assert flags == flags[author := flag];
      } else {
        flag := |Followers(w, author)| >= threshold;
        flags := flags[author := flag];
      }
    }

    /** `get_celebrity_friends`: cached friends first, then the ones looked up. */
    method GetCelebrityFriends(w: World, u: nat) returns (ids: seq<nat>)
      modifies this`flags
      ensures Elements(ids) == CelebrityFriends(w, old(flags), threshold, u)
      ensures forall f :: f in ids <==> (u, f) in w.friends && CelebrityFlag(w, old(flags), threshold, f)
      ensures Distinct(ids)
      ensures forall f :: f in flags <==> f in old(flags) || f in FriendsOf(w, u)
      ensures forall f :: f in flags ==> flags[f] == CelebrityFlag(w, old(flags), threshold, f)
    {
      var friends := Enumerate(FriendsOf(w, u));
      assert forall f :: f in friends <==> f in Elements(friends);
      var cached, missing := SplitCached(friends);
      var found := LookUp(w, missing);
      forall i, j | 0 <= i < |cached| && 0 <= j < |found|
        ensures cached[i] != found[j]
      {
        assert cached[i] in cached && found[j] in found;
      }
      ids := cached + found;
    }

    /** The MGET: celebrities among the cached friends, and the friends without a flag. */
    method SplitCached(friends: seq<nat>) returns (celebrities: seq<nat>, missing: seq<nat>)
      requires Distinct(friends)
      ensures forall f :: f in celebrities <==> f in friends && f in flags && flags[f]
      ensures forall f :: f in missing <==> f in friends && f !in flags
      ensures Distinct(celebrities) && Distinct(missing)
    {
      celebrities, missing := [], [];
      for i := 0 to |friends|
        invariant forall f :: f in celebrities <==> f in friends[..i] && f in flags && flags[f]
        invariant forall f :: f in missing <==> f in friends[..i] && f !in flags
        invariant Distinct(celebrities) && Distinct(missing)
      {
        var f := friends[i];
        assert friends[..i + 1] == friends[..i] + [f];
        assert f !in friends[..i];
        if f !in flags {
          missing := missing + [f];
        } else if flags[f] {
          celebrities := celebrities + [f];
        }
      }
      assert friends[..|friends|] == friends;
    }

    /** The fallback: count followers in the database and fill the cache. */
    method LookUp(w: World, missing: seq<nat>) returns (celebrities: seq<nat>)
      requires Distinct(missing) && forall f :: f in missing ==> f !in flags
      modifies this`flags
      ensures forall f :: f in celebrities <==> f in missing && |Followers(w, f)| >= threshold
      ensures Distinct(celebrities)
      ensures forall f :: f in flags <==> f in old(flags) || f in missing
      ensures forall f :: f in flags ==>
                flags[f] == if f in old(flags) then old(flags)[f] else |Followers(w, f)| >= threshold
    {
      celebrities := [];
      for i := 0 to |missing|
        invariant forall f :: f in celebrities <==> f in missing[..i] && |Followers(w, f)| >= threshold
        invariant Distinct(celebrities)
        invariant forall f :: f in flags <==> f in old(flags) || f in missing[..i]
        invariant forall f :: f in flags ==>
                    flags[f] == if f in old(flags) then old(flags)[f] else |Followers(w, f)| >= threshold
      {
        var f := missing[i];
        assert missing[..i + 1] == missing[..i] + [f];
        assert f !in missing[..i] && f in missing;
        var flag := |Followers(w, f)| >= threshold;
        flags := flags[f := flag];
        if flag {
          celebrities := celebrities + [f];
        }
      }
      assert missing[..|missing|] == missing;
    }
  }

  ghost predicate Distinct<T>(q: seq<T>) {
    forall i, j :: 0 <= i < j < |q| ==> q[i] != q[j]
  }

  // ---------------------------------------------------------------- merging

  /** An item with its `_created_at`. */
  datatype Timed = Timed(item: Item, at: int)

  function Key(t: Timed): Entry {
    Entry(t.at, t.item.id)
  }

  /** Keep the first item of each id. */
  function FirstOfEachId(q: seq<Timed>): seq<Timed> {
    if q == [] then []
    else
      var front, last := FirstOfEachId(q[..|q| - 1]), q[|q| - 1];
      if exists i :: 0 <= i < |q| - 1 && q[i].item.id == last.item.id then front else front + [last]
  }

  /** A stable sort by time, latest first: equal times keep their order. */
  function PlaceByTime(t: Timed, q: seq<Timed>): seq<Timed> {
    if q == [] || t.at > q[0].at then [t] + q else [q[0]] + PlaceByTime(t, q[1..])
  }

  function ByTime(q: seq<Timed>): seq<Timed> {
    if q == [] then [] else PlaceByTime(q[|q| - 1], ByTime(q[..|q| - 1]))
  }

  function Items(q: seq<Timed>): (items: seq<Item>)
    ensures |items| == |q|
  {
    seq(|q|, i requires 0 <= i < |q| => q[i].item)
  }

  /** The dedup loop of `read_feed_merged`. */
  method Dedup(merged: seq<Timed>) returns (unique: seq<Timed>)
    ensures unique == FirstOfEachId(merged)
  {
    var seen: set<nat> := {};
    unique := [];
    for i := 0 to |merged|
      invariant seen == set k | 0 <= k < i :: merged[k].item.id
      invariant unique == FirstOfEachId(merged[..i])
    {
      assert merged[..i + 1][..i] == merged[..i];
      assert forall k :: 0 <= k < i ==> merged[..i + 1][k] == merged[k];
      if merged[i].item.id !in seen {
        seen := seen + {merged[i].item.id};
        unique := unique + [merged[i]];
      }
    }
    assert merged[..|merged|] == merged;
  }

  /** `read_feed_merged` after both parts are loaded. */
  method Merge(push: seq<Timed>, pull: seq<Timed>, offset: nat, limit: nat) returns (result: seq<Item>)
    ensures result == Items(Window(ByTime(FirstOfEachId(push + pull)), offset, limit))
  {
    var unique := Dedup(push + pull);
    result := Items(Window(ByTime(unique), offset, limit));
  }

  // ---------------------------------------------------------------- the merge is exact

  /** A post row as a timed item. */
  function FromRow(w: World, e: Entry): Timed
    requires e.pid in w.posts
  {
    Timed(Item(e.pid, w.posts[e.pid].text, w.posts[e.pid].author), e.score)
  }

  ghost predicate Rows(w: World, q: seq<Timed>) {
    forall i :: 0 <= i < |q| ==> IsRow(w, Key(q[i])) && q[i] == FromRow(w, Key(q[i]))
  }

  function Keys(q: seq<Timed>): (keys: seq<Entry>)
    ensures |keys| == |q|
  {
    seq(|q|, i requires 0 <= i < |q| => Key(q[i]))
  }

  /** Different posts have different creation times. */
  ghost predicate DistinctTimes(s: set<Entry>) {
    forall a, b :: a in s && b in s && a != b ==> a.score != b.score
  }

  lemma AppendKey(q: seq<Timed>, t: Timed)
    ensures Keys(q + [t]) == Keys(q) + [Key(t)]
    ensures Elements(Keys(q + [t])) == Elements(Keys(q)) + {Key(t)}
  {
    assert Keys(q + [t]) == Keys(q) + [Key(t)];
  }

  lemma {:induction false} RepeatedKey(front: seq<Timed>, last: Timed, i: nat)
    requires OneKeyPerId(Elements(Keys(front)) + {Key(last)})
    requires i < |front| && front[i].item.id == last.item.id
    ensures Key(last) in Elements(Keys(front))
  {
    assert Keys(front)[i] == Key(front[i]);
    assert Keys(front)[i] in Elements(Keys(front));
  }

  lemma {:induction false} DedupFacts(q: seq<Timed>)
    requires OneKeyPerId(Elements(Keys(q)))
    ensures Elements(Keys(FirstOfEachId(q))) == Elements(Keys(q))
    ensures Distinct(Keys(FirstOfEachId(q)))
  {
    if q != [] {
      var front, last := q[..|q| - 1], q[|q| - 1];
      assert q == front + [last];
      AppendKey(front, last);
      DedupFacts(front);
      if i :| 0 <= i < |q| - 1 && q[i].item.id == last.item.id {
        RepeatedKey(front, last, i);
      } else {
        AppendFresh(front, last);
      }
    }
  }

  lemma {:induction false} AppendFresh(front: seq<Timed>, last: Timed)
    requires Elements(Keys(FirstOfEachId(front))) == Elements(Keys(front)) && Distinct(Keys(FirstOfEachId(front)))
    requires forall i :: 0 <= i < |front| ==> front[i].item.id != last.item.id
    ensures var u := FirstOfEachId(front) + [last];
            Elements(Keys(u)) == Elements(Keys(front)) + {Key(last)} && Distinct(Keys(u))
  {
    var u := FirstOfEachId(front);
    AppendKey(u, last);
    forall e | e in Elements(Keys(front))
      ensures e.pid != last.item.id
    {
      var i :| 0 <= i < |front| && Keys(front)[i] == e;
    }
    assert forall k :: 0 <= k < |u| ==> Keys(u)[k] in Elements(Keys(u));
  }

  lemma {:induction false} DedupIsPart(q: seq<Timed>)
    ensures forall x :: x in FirstOfEachId(q) ==> x in q
  {
    if q != [] {
      DedupIsPart(q[..|q| - 1]);
    }
  }

  /** The items of one time, in order. */
  function OfTime(q: seq<Timed>, at: int): seq<Timed> {
    if q == [] then [] else (if q[0].at == at then [q[0]] else []) + OfTime(q[1..], at)
  }

  ghost predicate LatestFirst(q: seq<Timed>) {
    forall i, j :: 0 <= i < j < |q| ==> q[i].at >= q[j].at
  }

  lemma {:induction false} OfTimeAppend(q: seq<Timed>, t: Timed, at: int)
    ensures OfTime(q + [t], at) == OfTime(q, at) + if t.at == at then [t] else []
  {
    if q != [] {
      OfTimeAppend(q[1..], t, at);
      assert (q + [t])[1..] == q[1..] + [t];
    }
  }

  lemma {:induction false} NoneOfTime(q: seq<Timed>, at: int)
    requires forall i :: 0 <= i < |q| ==> q[i].at < at
    ensures OfTime(q, at) == []
  {
    if q != [] {
      NoneOfTime(q[1..], at);
    }
  }

  lemma {:induction false} PlaceKeepsLatest(t: Timed, q: seq<Timed>)
    requires LatestFirst(q)
    ensures LatestFirst(PlaceByTime(t, q))
    ensures forall x :: x in PlaceByTime(t, q) ==> x == t || x in q
  {
    if q != [] && t.at <= q[0].at {
      var rest := PlaceByTime(t, q[1..]);
      PlaceKeepsLatest(t, q[1..]);
      forall i | 0 <= i < |rest|
        ensures q[0].at >= rest[i].at
      {
        assert rest[i] in rest;
      }
    }
  }

  lemma {:induction false} PlaceIsStable(t: Timed, q: seq<Timed>, at: int)
    requires LatestFirst(q)
    ensures OfTime(PlaceByTime(t, q), at) == OfTime(q, at) + if t.at == at then [t] else []
  {
    if q == [] || t.at > q[0].at {
      assert ([t] + q)[1..] == q;
      if t.at == at {
        NoneOfTime(q, at);
      }
    } else {
      var rest := PlaceByTime(t, q[1..]);
      PlaceIsStable(t, q[1..], at);
      assert ([q[0]] + rest)[1..] == rest;
    }
  }

  /** The sort puts later items first and keeps the order of items of one time, whatever their times. */
  lemma {:induction false} ByTimeIsStable(q: seq<Timed>, at: int)
    ensures LatestFirst(ByTime(q)) && OfTime(ByTime(q), at) == OfTime(q, at)
  {
    if q != [] {
      var front, last := q[..|q| - 1], q[|q| - 1];
      assert q == front + [last];
      ByTimeIsStable(front, at);
      PlaceKeepsLatest(last, ByTime(front));
      PlaceIsStable(last, ByTime(front), at);
      OfTimeAppend(front, last, at);
    }
  }

  /** The item at position k is the first of its id. */
  ghost predicate FirstAt(q: seq<Timed>, k: nat) {
    k < |q| && forall i :: 0 <= i < k ==> q[i].item.id != q[k].item.id
  }

  lemma {:induction false} DedupIds(q: seq<Timed>)
    ensures forall i, j :: 0 <= i < j < |FirstOfEachId(q)| ==> FirstOfEachId(q)[i].item.id != FirstOfEachId(q)[j].item.id
  {
    if q != [] {
      var front, last := q[..|q| - 1], q[|q| - 1];
      var kept := FirstOfEachId(front);
      DedupIds(front);
      DedupIsPart(front);
      if forall i :: 0 <= i < |front| ==> q[i].item.id != last.item.id {
        forall i | 0 <= i < |kept|
          ensures kept[i].item.id != last.item.id
        {
          assert kept[i] in front;
          var k :| 0 <= k < |front| && front[k] == kept[i];
          assert q[k] == front[k];
        }
      }
    }
  }

  /** Exactly the first item of each id is kept, once. */
  lemma {:induction false} DedupKeepsFirsts(q: seq<Timed>)
    ensures forall k: nat :: FirstAt(q, k) ==> q[k] in FirstOfEachId(q)
    ensures forall x :: x in FirstOfEachId(q) ==> exists k: nat :: FirstAt(q, k) && q[k] == x
    ensures forall i, j :: 0 <= i < j < |FirstOfEachId(q)| ==> FirstOfEachId(q)[i].item.id != FirstOfEachId(q)[j].item.id
  {
    DedupIds(q);
    if q != [] {
      var front, last := q[..|q| - 1], q[|q| - 1];
      DedupKeepsFirsts(front);
      assert q == front + [last];
      forall k: nat | FirstAt(q, k)
        ensures q[k] in FirstOfEachId(q)
      {
        assert k < |front| ==> FirstAt(front, k);
      }
      forall x | x in FirstOfEachId(q)
        ensures exists k: nat :: FirstAt(q, k) && q[k] == x
      {
        if x in FirstOfEachId(front) {
          var k: nat :| FirstAt(front, k) && front[k] == x;
          assert FirstAt(q, k) && q[k] == x;
        } else {
          assert FirstAt(q, |front|);
        }
      }
    }
  }

  /** What is pushed and pulled comes from the push part. */
  lemma {:induction false} DedupPrefersPush(push: seq<Timed>, pull: seq<Timed>)
    ensures forall x :: x in FirstOfEachId(push + pull) ==> x in push || (x in pull && Key(x) !in Elements(Keys(push)))
  {
    var q := push + pull;
    if pull == [] {
      assert q == push;
      DedupIsPart(push);
    } else {
      var last := pull[|pull| - 1];
      assert q[..|q| - 1] == push + pull[..|pull| - 1];
      DedupPrefersPush(push, pull[..|pull| - 1]);
      if Key(last) in Elements(Keys(push)) {
        var i :| 0 <= i < |push| && Keys(push)[i] == Key(last);
        assert q[i].item.id == last.item.id;
      }
    }
  }

  lemma PrependKey(t: Timed, q: seq<Timed>)
    ensures Keys([t] + q) == [Key(t)] + Keys(q)
  {
  }

  lemma {:induction false} PlaceFacts(t: Timed, q: seq<Timed>)
    requires NewestFirst(Keys(q))
    requires forall i :: 0 <= i < |q| ==> q[i].at != t.at
    ensures NewestFirst(Keys(PlaceByTime(t, q)))
    ensures forall x :: x in PlaceByTime(t, q) <==> x == t || x in q
  {
    if q == [] || t.at > q[0].at {
      PrependKey(t, q);
      assert forall i :: 0 <= i < |q| ==> Keys(q)[i] == Key(q[i]);
    } else {
      assert Keys(q[1..]) == Keys(q)[1..];
      PlaceFacts(t, q[1..]);
      var rest := PlaceByTime(t, q[1..]);
      assert q == [q[0]] + q[1..];
      PrependKey(q[0], rest);
      forall i | 0 <= i < |rest|
        ensures Newer(Key(q[0]), Keys(rest)[i])
      {
        assert rest[i] in rest;
        if rest[i] != t {
          var k :| 0 <= k < |q[1..]| && q[1..][k] == rest[i];
          assert Newer(Keys(q)[0], Keys(q)[k + 1]);
        }
      }
    }
  }

  /** With distinct times the sort lists the rows in the order of the index. */
  lemma {:induction false} ByTimeIsSorted(q: seq<Timed>)
    requires Distinct(Keys(q)) && DistinctTimes(Elements(Keys(q)))
    ensures NewestFirst(Keys(ByTime(q)))
    ensures forall x :: x in ByTime(q) <==> x in q
  {
    if q != [] {
      var front, last := q[..|q| - 1], q[|q| - 1];
      assert q == front + [last];
      AppendKey(front, last);
      assert forall i :: 0 <= i < |front| ==> Keys(front)[i] == Keys(q)[i];
      ByTimeIsSorted(front);
      forall i | 0 <= i < |ByTime(front)|
        ensures ByTime(front)[i].at != last.at
      {
        assert ByTime(front)[i] in front;
        var k :| 0 <= k < |front| && front[k] == ByTime(front)[i];
        assert Keys(q)[k] != Keys(q)[|q| - 1];
        assert Keys(q)[k] in Keys(q) && Keys(q)[|q| - 1] in Keys(q);
      }
      PlaceFacts(last, ByTime(front));
    }
  }

  lemma {:induction false} NewestFirstIsUnique(a: seq<Entry>, b: seq<Entry>)
    requires NewestFirst(a) && NewestFirst(b) && Elements(a) == Elements(b)
    ensures a == b
  {
    DistinctCount(a);
    DistinctCount(b);
    if a != [] {
      assert a == [a[0]] + a[1..] && b == [b[0]] + b[1..];
      assert a[0] in Elements(b) && b[0] in Elements(a);
      assert a[0] == b[0];
      assert Elements(a[1..]) == Elements(a) - {a[0]};
      assert Elements(b[1..]) == Elements(b) - {b[0]};
      NewestFirstIsUnique(a[1..], b[1..]);
    }
  }

  lemma {:induction false} KeysOfSorted(q: seq<Timed>, s: set<Entry>)
    requires NewestFirst(Keys(q)) && Elements(Keys(q)) == s
    ensures Keys(q) == Sorted(s)
  {
    SortedIsNewestFirst(s);
    assert Elements(Sorted(s)) == s;
    NewestFirstIsUnique(Keys(q), Sorted(s));
  }

  lemma {:induction false} RowsByKeys(w: World, q: seq<Timed>)
    requires Rows(w, q)
    ensures Items(q) == FromRows(w, Keys(q))
  {
    if q != [] {
      var front := q[..|q| - 1];
      RowsByKeys(w, front);
      assert Keys(q)[..|q| - 1] == Keys(front);
      assert Items(q) == Items(front) + [q[|q| - 1].item];
    }
  }

  /** If the pushed part is the newest n of the pushed posts and the pulled part the newest n of the
      celebrities' posts, where n = offset + limit, the merge returns exactly the window of all of
      them that the database would list: newest first and no post twice, whether or not some posts
      were both pushed and pulled. */
  lemma {:induction false} MergeIsExact(w: World, pushed: set<Entry>, celebrity: set<Entry>, push: seq<Timed>, pull: seq<Timed>,
                     offset: nat, limit: nat)
    requires Rows(w, push) && Rows(w, pull)
    requires Elements(Keys(push)) == Top(pushed, offset + limit)
    requires Elements(Keys(pull)) == Top(celebrity, offset + limit)
    requires DistinctTimes(pushed + celebrity)
    ensures Items(Window(ByTime(FirstOfEachId(push + pull)), offset, limit))
         == FromRows(w, Window(Sorted(pushed + celebrity), offset, limit))
  {
    var n := offset + limit;
    var all, kept := pushed + celebrity, Top(pushed, n) + Top(celebrity, n);
    RowsAreOneKey(w, push, pull, kept);
    MergeListsKept(push, pull, kept);
    KeptAgrees(pushed, celebrity, n, offset, limit);
    var q := ByTime(FirstOfEachId(push + pull));
    MergedRows(w, push, pull, q);
    WindowOfKeys(q, offset, limit);
    WindowOfRows(w, q, offset, limit);
    RowsByKeys(w, Window(q, offset, limit));
  }

  lemma {:induction false} RowsAreOneKey(w: World, push: seq<Timed>, pull: seq<Timed>, kept: set<Entry>)
    requires Rows(w, push) && Rows(w, pull) && kept == Elements(Keys(push)) + Elements(Keys(pull))
    ensures OneKeyPerId(kept)
  {
    forall e | e in kept
      ensures IsRow(w, e)
    {
      if e in Elements(Keys(push)) {
        var i :| 0 <= i < |push| && Keys(push)[i] == e;
      } else {
        var i :| 0 <= i < |pull| && Keys(pull)[i] == e;
      }
    }
  }

  lemma {:induction false} MergedRows(w: World, push: seq<Timed>, pull: seq<Timed>, q: seq<Timed>)
    requires Rows(w, push) && Rows(w, pull) && forall x :: x in q ==> x in push || x in pull
    ensures Rows(w, q)
  {
    forall i | 0 <= i < |q|
      ensures IsRow(w, Key(q[i])) && q[i] == FromRow(w, Key(q[i]))
    {
      assert q[i] in q;
    }
  }

  /** The merged list has every kept post once, newest first, and takes what was pushed and pulled
      from the push part. */
  lemma {:induction false} MergeListsKept(push: seq<Timed>, pull: seq<Timed>, kept: set<Entry>)
    requires Elements(Keys(push)) + Elements(Keys(pull)) == kept && OneKeyPerId(kept) && DistinctTimes(kept)
    ensures var q := ByTime(FirstOfEachId(push + pull));
            && Keys(q) == Sorted(kept)
            && forall x :: x in q ==> x in push || (x in pull && Key(x) !in Elements(Keys(push)))
  {
    var merged := push + pull;
    assert Keys(merged) == Keys(push) + Keys(pull);
    assert Elements(Keys(merged)) == kept;
    DedupFacts(merged);
    DedupPrefersPush(push, pull);
    var unique := FirstOfEachId(merged);
    ByTimeIsSorted(unique);
    SameKeys(unique, ByTime(unique));
    KeysOfSorted(ByTime(unique), kept);
  }

  /** The newest n of both parts answer the window as all posts would. */
  lemma {:induction false} KeptAgrees(pushed: set<Entry>, celebrity: set<Entry>, n: nat, offset: nat, limit: nat)
    requires offset + limit <= n
    ensures Window(Sorted(Top(pushed, n) + Top(celebrity, n)), offset, limit)
         == Window(Sorted(pushed + celebrity), offset, limit)
  {
    TopOfUnion(pushed, celebrity, n);
    WindowOfNewest(Top(pushed, n) + Top(celebrity, n), pushed + celebrity, n, offset, limit);
  }

  lemma SameKeys(a: seq<Timed>, b: seq<Timed>)
    requires forall x :: x in a <==> x in b
    ensures Elements(Keys(a)) == Elements(Keys(b))
  {
    KeysFrom(a, b);
    KeysFrom(b, a);
  }

  lemma KeysFrom(a: seq<Timed>, b: seq<Timed>)
    requires forall x :: x in a ==> x in b
    ensures Elements(Keys(a)) <= Elements(Keys(b))
  {
    forall e | e in Keys(a)
      ensures e in Keys(b)
    {
      var i :| 0 <= i < |a| && Keys(a)[i] == e;
      assert a[i] in b;
      var j :| 0 <= j < |b| && b[j] == a[i];
      assert Keys(b)[j] == e;
    }
  }

  lemma WindowOfKeys(q: seq<Timed>, offset: nat, limit: nat)
    ensures Keys(Window(q, offset, limit)) == Window(Keys(q), offset, limit)
  {
  }

  lemma WindowOfRows(w: World, q: seq<Timed>, offset: nat, limit: nat)
    requires Rows(w, q)
    ensures Rows(w, Window(q, offset, limit))
  {
  }

  // ---------------------------------------------------------------- the whole read

  /** The posts of a group of authors. */
  function PostsOfAll(w: World, authors: set<nat>): set<Entry> {
    set p | p in w.posts && w.posts[p].author in authors :: Entry(w.posts[p].createdAt, p)
  }

  function RowsOf(w: World, page: seq<Entry>): (q: seq<Timed>)
    requires forall e :: e in page ==> e.pid in w.posts
    ensures |q| == |page|
  {
    seq(|page|, i requires 0 <= i < |page| => FromRow(w, page[i]))
  }

  lemma {:induction false} PostsOfAllAre(w: World, authors: set<nat>)
    ensures forall e :: e in PostsOfAll(w, authors) <==> IsRow(w, e) && w.posts[e.pid].author in authors
  {
    forall e | IsRow(w, e) && w.posts[e.pid].author in authors
      ensures e in PostsOfAll(w, authors)
    {
      assert e == Entry(w.posts[e.pid].createdAt, e.pid);
    }
  }

  lemma {:induction false} NewestRowsIn(s: set<Entry>, n: nat)
    ensures forall e :: e in NewestRows(s, n) ==> e in s
  {
    forall e | e in NewestRows(s, n)
      ensures e in s
    {
      assert e in Sorted(s);
    }
  }

  /** `fetch_recent_posts_by_authors`. */
  function FetchRecent(w: World, authors: set<nat>, n: nat): seq<Timed> {
    var rows := NewestRows(PostsOfAll(w, authors), n);
    NewestRowsIn(PostsOfAll(w, authors), n);
    PostsOfAllAre(w, authors);
    RowsOf(w, rows)
  }

  /** The push part with `_created_at` looked up in the stored bodies. */
  function WithTimes(w: World, items: seq<Item>): (q: seq<Timed>)
    requires forall x :: x in items ==> x.id in w.hashes
    ensures |q| == |items|
  {
    seq(|items|, i requires 0 <= i < |items| => Timed(items[i], w.hashes[items[i].id].createdAt))
  }

  /** What `read_feed_merged` returns over the world in which it reads the feed, after a rebuild if
      there was one. Entries without a body are passed over. */
  function MergedPage(w: World, u: nat, celebrities: set<nat>, offset: nat, limit: nat): seq<Item> {
    var page := Zrevrange(FeedOf(w, u), 0, offset + limit);
    BodiesHaveHashes(w, page);
    var push := WithTimes(w, Bodies(w, page));
    Items(Window(ByTime(FirstOfEachId(push + FetchRecent(w, celebrities, offset + limit))), offset, limit))
  }

  /** What a merged read answers, and what it leaves of the stores and of the flags. */
  ghost predicate ReadsMerged(cap: nat, threshold: nat, w: World, flags: map<nat, bool>, u: nat, offset: nat, limit: nat,
                              after: World, flagsAfter: map<nat, bool>, result: seq<Item>) {
    var w' := RefreshedForRead(cap, w, u);
    && after == FeedWorld.ReadFeed(cap, w, u, 0, offset + limit).0
    && result == MergedPage(w', u, CelebrityFriends(w', flags, threshold, u), offset, limit)
    && (forall a :: a in flagsAfter <==> a in flags || a in FriendsOf(after, u))
    && (forall a :: a in flagsAfter ==> flagsAfter[a] == CelebrityFlag(after, flags, threshold, a))
  }

  /** `read_feed_merged`. */
  method ReadFeedMerged(f: Feeds, c: Celebrities, cap: nat, u: nat, offset: nat, limit: nat)
    returns (result: seq<Item>)
    requires f.temp == {} && limit >= 1
    modifies f`feeds, f`hashes, f`temp, c`flags
    ensures f.temp == {}
    ensures ReadsMerged(cap, c.threshold, old(f.W()), old(c.flags), u, offset, limit, f.W(), c.flags, result)
  {
    ghost var w' := RefreshedForRead(cap, f.W(), u);
    var items := f.ReadFeed(cap, u, 0, offset + limit);
    var ids := c.GetCelebrityFriends(f.W(), u);
    SameFriends(w', f.W(), old(c.flags), c.threshold, u);
    SameMerge(w', f.W(), u, items, Elements(ids), offset, limit);
    var push := WithTimes(f.W(), items);
    var pull := FetchRecent(f.W(), Elements(ids), offset + limit);
    result := Merge(push, pull, offset, limit);
  }

  /** The merge may use the world as the read of the feed left it. */
  lemma {:induction false} SameMerge(w: World, after: World, u: nat, items: seq<Item>, celebrities: set<nat>, offset: nat, limit: nat)
    requires after.posts == w.posts && after.hashes == w.hashes
    requires items == Bodies(w, Zrevrange(FeedOf(w, u), 0, offset + limit))
    ensures forall x :: x in items ==> x.id in after.hashes
    ensures Items(Window(ByTime(FirstOfEachId(WithTimes(after, items)
                                              + FetchRecent(after, celebrities, offset + limit))), offset, limit))
         == MergedPage(w, u, celebrities, offset, limit)
  {
    BodiesHaveHashes(w, Zrevrange(FeedOf(w, u), 0, offset + limit));
    SameRecent(w, after, celebrities, offset + limit);
    assert WithTimes(after, items) == WithTimes(w, items);
  }

  lemma {:induction false} SameFriends(w: World, w': World, flags: map<nat, bool>, threshold: nat, u: nat)
    requires w.friends == w'.friends
    ensures CelebrityFriends(w, flags, threshold, u) == CelebrityFriends(w', flags, threshold, u)
  {
    assert FriendsOf(w, u) == FriendsOf(w', u);
    forall a: nat
      ensures Followers(w, a) == Followers(w', a)
    {
    }
  }

  lemma {:induction false} SameRecent(w: World, w': World, authors: set<nat>, n: nat)
    requires w.posts == w'.posts
    ensures FetchRecent(w, authors, n) == FetchRecent(w', authors, n)
  {
    assert PostsOfAll(w, authors) == PostsOfAll(w', authors);
  }

  /** What handling a created event does to the stores and the flags: a text that came along is stored with the
      event's author and time, and the post is pushed unless its author is a celebrity. */
  ghost predicate HandlesCreated(cap: nat, threshold: nat, w: World, flags: map<nat, bool>,
                                 p: nat, author: nat, text: string, at: int,
                                 after: World, flagsAfter: map<nat, bool>, pushed: bool) {
    var stored := if text == "" then w else w.(hashes := w.hashes[p := Post(author, text, at)]);
    && pushed == !CelebrityFlag(w, flags, threshold, author)
    && flagsAfter == flags[author := !pushed]
    && after == if pushed then FanOut(cap, stored, Entry(at, p), author) else stored
  }

  /** `_handle_created` of the RabbitMQ worker (app/workers/feed_worker_rmq.py): store the body if it
      came along, then push unless the author is a celebrity, and notify each follower of a pushed
      post. Either way the answer is cached, so until the flag goes the readers pull exactly the
      authors that are not pushed. */
  method HandleCreated(f: Feeds, c: Celebrities, cap: nat, p: nat, author: nat, text: string, at: int)
    returns (pushed: bool, notified: seq<nat>, preview: string)
    modifies f`feeds, f`hashes, c`flags
    ensures HandlesCreated(cap, c.threshold, old(f.W()), old(c.flags), p, author, text, at, f.W(), c.flags, pushed)
    ensures Distinct(notified) && Elements(notified) == if pushed then Followers(old(f.W()), author) else {}
    ensures var whole := if text != "" then text else if p in old(f.hashes) then old(f.hashes)[p].text else "";
            notified != [] ==> preview <= whole && |preview| == if |whole| <= 200 then |whole| else 200
  {
    if text != "" {
      f.hashes := f.hashes[p := Post(author, text, at)];
    }
    notified, preview := [], "";
    var celebrity := c.IsCelebrity(f.W(), author);
    pushed := !celebrity;
    if pushed {
      f.FanOutPost(cap, Entry(at, p), author);
      notified := Enumerate(Followers(f.W(), author));
      preview := Preview(f.W(), p, text);
    }
  }

  const PREVIEW_LENGTH: nat := 200

  /** The start of the post's text, taken from the stored body if the event has none. */
  function Preview(w: World, p: nat, text: string): string {
    var whole := if text != "" then text else if p in w.hashes then w.hashes[p].text else "";
    if |whole| <= PREVIEW_LENGTH then whole else whole[..PREVIEW_LENGTH]
  }

  function WithBody(w: World, p: nat, author: nat, text: string, at: int): World {
    if text == "" then w else w.(hashes := w.hashes[p := Post(author, text, at)])
  }

  lemma {:induction false} BodiesAtScores(w: World, page: seq<Entry>)
    requires forall e :: e in page ==> IsRow(w, e) && e.pid in w.hashes && w.hashes[e.pid] == w.posts[e.pid]
    ensures forall x :: x in Bodies(w, page) ==> x.id in w.hashes
    ensures |Bodies(w, page)| == |page|
    ensures forall i :: 0 <= i < |page| ==>
              page[i].pid in w.posts && WithTimes(w, Bodies(w, page))[i] == FromRow(w, page[i])
  {
    if page != [] {
      BodiesAtScores(w, page[..|page| - 1]);
      assert page[|page| - 1] in page;
    }
    BodiesHaveHashes(w, page);
  }

  lemma {:induction false} RowsHaveKeys(w: World, q: seq<Timed>, page: seq<Entry>)
    requires |q| == |page| && forall i :: 0 <= i < |page| ==> IsRow(w, page[i]) && q[i] == FromRow(w, page[i])
    ensures Rows(w, q) && Keys(q) == page
  {
  }

  lemma {:induction false} TopBetween(feed: set<Entry>, all: set<Entry>, n: nat)
    requires Top(all, n) <= feed <= all
    ensures Top(feed, n) == Top(all, n)
  {
    PrefixAgrees(feed, all, n);
    TopIsPrefix(feed, n);
    TopIsPrefix(all, n);
    SubsetCount(feed, all);
  }

  lemma {:induction false} PageIsTop(feed: set<Entry>, n: nat)
    ensures Elements(Zrevrange(feed, 0, n)) == Top(feed, n)
  {
    TopIsPrefix(feed, n);
    if |feed| == 0 {
      assert Sorted(feed)[..0] == [];
    } else if n <= |feed| {
      assert Sorted(feed)[0..n] == Sorted(feed)[..n];
    } else {
      assert Sorted(feed)[0..] == Sorted(feed)[..|feed|];
    }
  }

  /** If the feed holds the newest n = offset + limit of the pushed posts, with their bodies, the
      merged read returns exactly the window of pushed and celebrity posts together that the
      database would list, no post twice, also when a celebrity's posts were pushed earlier. */
  lemma {:induction false} MergedReadIsExact(w: World, u: nat, pushed: set<Entry>, celebrities: set<nat>, offset: nat, limit: nat)
    requires BodiesStored(w, FeedOf(w, u))
    requires Top(pushed, offset + limit) <= FeedOf(w, u) <= pushed
    requires forall e :: e in FeedOf(w, u) ==> IsRow(w, e)
    requires DistinctTimes(pushed + PostsOfAll(w, celebrities))
    ensures MergedPage(w, u, celebrities, offset, limit)
         == FromRows(w, Window(Sorted(pushed + PostsOfAll(w, celebrities)), offset, limit))
  {
    var n, feed, pulled := offset + limit, FeedOf(w, u), PostsOfAll(w, celebrities);
    var page, rows := Zrevrange(feed, 0, n), NewestRows(pulled, n);
    SortedInFeed(feed, 0, n);
    BodiesAtScores(w, page);
    RowsHaveKeys(w, WithTimes(w, Bodies(w, page)), page);
    PageIsTop(feed, n);
    TopBetween(feed, pushed, n);
    NewestRowsIn(pulled, n);
    PostsOfAllAre(w, celebrities);
    RowsHaveKeys(w, FetchRecent(w, celebrities, n), rows);
    NewestRowsAreTop(pulled, n);
    MergeIsExact(w, pushed, pulled, WithTimes(w, Bodies(w, page)), FetchRecent(w, celebrities, n), offset, limit);
  }

  // ---------------------------------------------------------------- whatever the bodies say

  /** The entries whose bodies are stored. */
  function WithBodies(w: World, s: set<Entry>): set<Entry> {
    set e | e in s && e.pid in w.hashes
  }

  /** Stored bodies have the times of their entries. */
  ghost predicate BodyTimes(w: World, s: set<Entry>) {
    forall e :: e in s && e.pid in w.hashes ==> w.hashes[e.pid].createdAt == e.score
  }

  /** A page as readers get it: pushed posts from their stored bodies, the others from their rows. */
  function ShownPage(w: World, pushed: set<Entry>, q: seq<Entry>): seq<Item> {
    if q == [] then []
    else
      var front, e := ShownPage(w, pushed, q[..|q| - 1]), q[|q| - 1];
      if e in pushed && e.pid in w.hashes then front + [Item(e.pid, w.hashes[e.pid].text, w.hashes[e.pid].author)]
      else if e !in pushed && e.pid in w.posts then front + [Item(e.pid, w.posts[e.pid].text, w.posts[e.pid].author)]
      else front
  }

  ghost predicate FromBodies(w: World, q: seq<Timed>) {
    forall x :: x in q ==>
      x.item.id in w.hashes && x.item == Item(x.item.id, w.hashes[x.item.id].text, w.hashes[x.item.id].author)
  }

  ghost predicate FromBoth(w: World, pushed: set<Entry>, q: seq<Timed>) {
    forall i :: 0 <= i < |q| ==>
      var e := Key(q[i]);
      if e in pushed then e.pid in w.hashes && q[i].item == Item(e.pid, w.hashes[e.pid].text, w.hashes[e.pid].author)
      else e.pid in w.posts && q[i].item == Item(e.pid, w.posts[e.pid].text, w.posts[e.pid].author)
  }

  lemma {:induction false} ItemsAreShown(w: World, pushed: set<Entry>, q: seq<Timed>)
    requires FromBoth(w, pushed, q)
    ensures Items(q) == ShownPage(w, pushed, Keys(q))
  {
    if q != [] {
      var front := q[..|q| - 1];
      ItemsAreShown(w, pushed, front);
      assert Keys(q)[..|q| - 1] == Keys(front);
      assert Items(q) == Items(front) + [q[|q| - 1].item];
    }
  }

  lemma {:induction false} PushPart(w: World, page: seq<Entry>)
    requires BodyTimes(w, Elements(page))
    ensures forall x :: x in Bodies(w, page) ==> x.id in w.hashes
    ensures FromBodies(w, WithTimes(w, Bodies(w, page)))
    ensures Elements(Keys(WithTimes(w, Bodies(w, page)))) == WithBodies(w, Elements(page))
  {
    BodiesHaveHashes(w, page);
    if page != [] {
      var front, e := page[..|page| - 1], page[|page| - 1];
      assert page == front + [e];
      assert Elements(page) == Elements(front) + {e};
      PushPart(w, front);
      if e.pid in w.hashes {
        var x := Item(e.pid, w.hashes[e.pid].text, w.hashes[e.pid].author);
        assert WithTimes(w, Bodies(w, page)) == WithTimes(w, Bodies(w, front)) + [Timed(x, e.score)];
        AppendKey(WithTimes(w, Bodies(w, front)), Timed(x, e.score));
      }
    }
  }

  lemma {:induction false} PullPart(w: World, celebrities: set<nat>, n: nat)
    ensures Rows(w, FetchRecent(w, celebrities, n))
    ensures Elements(Keys(FetchRecent(w, celebrities, n))) == Top(PostsOfAll(w, celebrities), n)
  {
    var pulled := PostsOfAll(w, celebrities);
    NewestRowsIn(pulled, n);
    PostsOfAllAre(w, celebrities);
    RowsHaveKeys(w, FetchRecent(w, celebrities, n), NewestRows(pulled, n));
    NewestRowsAreTop(pulled, n);
  }

  lemma {:induction false} MergedFromBoth(w: World, push: seq<Timed>, pull: seq<Timed>, q: seq<Timed>)
    requires FromBodies(w, push) && Rows(w, pull)
    requires forall x :: x in q ==> x in push || (x in pull && Key(x) !in Elements(Keys(push)))
    ensures FromBoth(w, Elements(Keys(push)), q)
  {
    forall i | 0 <= i < |q|
      ensures var e := Key(q[i]);
              if e in Elements(Keys(push))
              then e.pid in w.hashes && q[i].item == Item(e.pid, w.hashes[e.pid].text, w.hashes[e.pid].author)
              else e.pid in w.posts && q[i].item == Item(e.pid, w.posts[e.pid].text, w.posts[e.pid].author)
    {
      assert q[i] in q;
      if q[i] in push {
        var k :| 0 <= k < |push| && push[k] == q[i];
        assert Keys(push)[k] == Key(q[i]);
      }
    }
  }

  lemma {:induction false} PushedPage(w: World, feed: set<Entry>, index: set<Entry>, n: nat)
    requires Top(index, n) <= feed <= index
    ensures Elements(Zrevrange(feed, 0, n)) == Top(index, n)
    ensures |WithBodies(w, Top(index, n))| <= n
  {
    PageIsTop(feed, n);
    TopBetween(feed, index, n);
    TopIsPrefix(index, n);
    SubsetCount(WithBodies(w, Top(index, n)), Top(index, n));
  }

  lemma {:induction false} FewerKeys(some: set<Entry>, all: set<Entry>)
    requires some <= all && OneKeyPerId(all) && DistinctTimes(all)
    ensures OneKeyPerId(some) && DistinctTimes(some)
  {
  }

  lemma {:induction false} WindowFromBoth(w: World, pushed: set<Entry>, q: seq<Timed>, offset: nat, limit: nat)
    requires FromBoth(w, pushed, q)
    ensures FromBoth(w, pushed, Window(q, offset, limit))
  {
  }

  lemma {:induction false} KeptWindow(pushed: set<Entry>, celebrity: set<Entry>, n: nat, offset: nat, limit: nat)
    requires |pushed| <= n && offset + limit <= n
    ensures Window(Sorted(pushed + Top(celebrity, n)), offset, limit) == Window(Sorted(pushed + celebrity), offset, limit)
  {
    TopOfSmall(pushed, n);
    KeptAgrees(pushed, celebrity, n, offset, limit);
  }

  lemma {:induction false} MergeShows(w: World, push: seq<Timed>, pull: seq<Timed>, pushed: set<Entry>, kept: set<Entry>,
                                      offset: nat, limit: nat)
    requires FromBodies(w, push) && Elements(Keys(push)) == pushed
    requires Rows(w, pull) && pushed + Elements(Keys(pull)) == kept
    requires OneKeyPerId(kept) && DistinctTimes(kept)
    ensures Items(Window(ByTime(FirstOfEachId(push + pull)), offset, limit))
         == ShownPage(w, pushed, Window(Sorted(kept), offset, limit))
  {
    MergeListsKept(push, pull, kept);
    var q := ByTime(FirstOfEachId(push + pull));
    MergedFromBoth(w, push, pull, q);
    WindowFromBoth(w, pushed, q, offset, limit);
    WindowOfKeys(q, offset, limit);
    ItemsAreShown(w, pushed, Window(q, offset, limit));
  }

  lemma {:induction false} MergedPageShows(w: World, u: nat, celebrities: set<nat>, pushed: set<Entry>, kept: set<Entry>,
                                           offset: nat, limit: nat)
    requires BodyTimes(w, Elements(Zrevrange(FeedOf(w, u), 0, offset + limit)))
    requires pushed == WithBodies(w, Elements(Zrevrange(FeedOf(w, u), 0, offset + limit)))
    requires kept == pushed + Top(PostsOfAll(w, celebrities), offset + limit)
    requires OneKeyPerId(kept) && DistinctTimes(kept)
    ensures MergedPage(w, u, celebrities, offset, limit) == ShownPage(w, pushed, Window(Sorted(kept), offset, limit))
  {
    var page := Zrevrange(FeedOf(w, u), 0, offset + limit);
    PushPart(w, page);
    PullPart(w, celebrities, offset + limit);
    MergeShows(w, WithTimes(w, Bodies(w, page)), FetchRecent(w, celebrities, offset + limit), pushed, kept, offset, limit);
  }

  lemma {:induction false} MergedReadOf(w: World, u: nat, top: set<Entry>, celebrities: set<nat>, offset: nat, limit: nat)
    requires Elements(Zrevrange(FeedOf(w, u), 0, offset + limit)) == top && BodyTimes(w, top)
    requires |WithBodies(w, top)| <= offset + limit
    requires OneKeyPerId(WithBodies(w, top) + PostsOfAll(w, celebrities))
    requires DistinctTimes(WithBodies(w, top) + PostsOfAll(w, celebrities))
    ensures MergedPage(w, u, celebrities, offset, limit)
         == ShownPage(w, WithBodies(w, top),
                      Window(Sorted(WithBodies(w, top) + PostsOfAll(w, celebrities)), offset, limit))
  {
    var n, pushed, celebrity := offset + limit, WithBodies(w, top), PostsOfAll(w, celebrities);
    FewerKeys(pushed + Top(celebrity, n), pushed + celebrity);
    KeptWindow(pushed, celebrity, n, offset, limit);
    MergedPageShows(w, u, celebrities, pushed, pushed + Top(celebrity, n), offset, limit);
  }

  /** The merged read over a feed that holds the newest n = offset + limit of what it indexes, whatever
      the stored bodies say and whether or not the posts still exist: the window of the indexed posts
      that have bodies and of the celebrities' posts, newest first, no post twice, and an indexed post
      as its stored body has it. */
  lemma {:induction false} MergedReadShows(w: World, u: nat, index: set<Entry>, celebrities: set<nat>, offset: nat, limit: nat)
    requires Top(index, offset + limit) <= FeedOf(w, u) <= index && BodyTimes(w, index)
    requires OneKeyPerId(WithBodies(w, Top(index, offset + limit)) + PostsOfAll(w, celebrities))
    requires DistinctTimes(WithBodies(w, Top(index, offset + limit)) + PostsOfAll(w, celebrities))
    ensures MergedPage(w, u, celebrities, offset, limit)
         == ShownPage(w, WithBodies(w, Top(index, offset + limit)),
                      Window(Sorted(WithBodies(w, Top(index, offset + limit)) + PostsOfAll(w, celebrities)), offset, limit))
  {
    PushedPage(w, FeedOf(w, u), index, offset + limit);
    assert Top(index, offset + limit) <= index;
    MergedReadOf(w, u, Top(index, offset + limit), celebrities, offset, limit);
  }

  /** So when every friend's post was either pushed or is by a friend now flagged as a celebrity, the
      merged read is the database's own page. */
  lemma {:induction false} MergedReadIsComplete(w: World, u: nat, pushed: set<Entry>, celebrities: set<nat>, offset: nat, limit: nat)
    requires BodiesStored(w, FeedOf(w, u))
    requires Top(pushed, offset + limit) <= FeedOf(w, u) <= pushed
    requires pushed + PostsOfAll(w, celebrities) == FriendPosts(w, u)
    requires DistinctTimes(FriendPosts(w, u))
    ensures MergedPage(w, u, celebrities, offset, limit) == DatabasePage(w, u, offset, limit)
  {
    FriendPostsAre(w, u);
    assert forall e :: e in FeedOf(w, u) ==> e in FriendPosts(w, u);
    MergedReadIsExact(w, u, pushed, celebrities, offset, limit);
  }

  lemma {:induction false} FromRowsIds(w: World, page: seq<Entry>)
    requires forall e :: e in page ==> IsRow(w, e)
    ensures |FromRows(w, page)| == |page|
    ensures forall i :: 0 <= i < |page| ==> FromRows(w, page)[i].id == page[i].pid
  {
    if page != [] {
      FromRowsIds(w, page[..|page| - 1]);
      assert page[|page| - 1] in page;
    }
  }

  lemma {:induction false} SamePagesSameRows(w: World, a: seq<Entry>, b: seq<Entry>)
    requires forall e :: e in a || e in b ==> IsRow(w, e)
    requires FromRows(w, a) == FromRows(w, b)
    ensures a == b
  {
    FromRowsIds(w, a);
    FromRowsIds(w, b);
    forall i | 0 <= i < |a|
      ensures a[i] == b[i]
    {
      assert FromRows(w, a)[i].id == FromRows(w, b)[i].id;
      assert a[i] in a && b[i] in b;
      assert IsRow(w, a[i]) && IsRow(w, b[i]);
    }
  }

  /** The first `n` of some friends' posts read like the first `n` of all exactly if they include the
      newest `n` of all. */
  lemma {:induction false} PageNeedsNewest(w: World, u: nat, known: set<Entry>, n: nat)
    requires known <= FriendPosts(w, u)
    ensures FromRows(w, Zrevrange(known, 0, n)) == DatabasePage(w, u, 0, n) <==> Top(FriendPosts(w, u), n) <= known
  {
    var all := FriendPosts(w, u);
    FriendPostsAre(w, u);
    SortedInFeed(known, 0, n);
    SortedInFeed(all, 0, n);
    PageIsTop(known, n);
    PageIsTop(all, n);
    if FromRows(w, Zrevrange(known, 0, n)) == DatabasePage(w, u, 0, n) {
      SamePagesSameRows(w, Zrevrange(known, 0, n), Zrevrange(all, 0, n));
      assert Top(all, n) == Top(known, n);
    }
    if Top(all, n) <= known {
      WindowOfNewest(known, all, n, 0, n);
    }
  }

  /** The merged read of the first `n` is the database's page exactly when the newest `n` of the
      friends' posts were all pushed or are by friends flagged at the time of the read. */
  lemma {:induction false} MergedReadIsWhole(w: World, u: nat, pushed: set<Entry>, celebrities: set<nat>, n: nat)
    requires BodiesStored(w, FeedOf(w, u))
    requires Top(pushed, n) <= FeedOf(w, u) <= pushed
    requires pushed + PostsOfAll(w, celebrities) <= FriendPosts(w, u)
    requires DistinctTimes(pushed + PostsOfAll(w, celebrities))
    ensures MergedPage(w, u, celebrities, 0, n) == DatabasePage(w, u, 0, n)
       <==> Top(FriendPosts(w, u), n) <= pushed + PostsOfAll(w, celebrities)
  {
    FriendPostsAre(w, u);
    assert forall e :: e in FeedOf(w, u) ==> e in FriendPosts(w, u);
    MergedReadIsExact(w, u, pushed, celebrities, 0, n);
    PageNeedsNewest(w, u, pushed + PostsOfAll(w, celebrities), n);
  }

  lemma {:induction false} OutsideIsUnseen(w: World, q: seq<Entry>, p: nat)
    requires forall e :: e in q ==> e.pid != p
    ensures forall x :: x in FromRows(w, q) ==> x.id != p
  {
    if q != [] {
      OutsideIsUnseen(w, q[..|q| - 1], p);
      assert q[|q| - 1] in q;
    }
  }

  /** And a post that was neither pushed nor is by a flagged friend, as when its author stopped being
      a celebrity after publishing it, is on no page. */
  lemma {:induction false} SkippedPostIsUnseen(w: World, u: nat, pushed: set<Entry>, celebrities: set<nat>, p: nat, offset: nat, limit: nat)
    requires BodiesStored(w, FeedOf(w, u))
    requires Top(pushed, offset + limit) <= FeedOf(w, u) <= pushed
    requires forall e :: e in FeedOf(w, u) ==> IsRow(w, e)
    requires DistinctTimes(pushed + PostsOfAll(w, celebrities))
    requires forall e :: e in pushed ==> e.pid != p
    requires p in w.posts ==> w.posts[p].author !in celebrities
    ensures forall x :: x in MergedPage(w, u, celebrities, offset, limit) ==> x.id != p
  {
    MergedReadIsExact(w, u, pushed, celebrities, offset, limit);
    PostsOfAllAre(w, celebrities);
    var all := pushed + PostsOfAll(w, celebrities);
    SortedInFeed(all, offset, limit);
    assert Window(Sorted(all), offset, limit) == Zrevrange(all, offset, limit);
    OutsideIsUnseen(w, Window(Sorted(all), offset, limit), p);
  }
}
