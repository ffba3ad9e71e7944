/** Newest-first order on feed entries and the algebra of "the newest n": what Redis' sorted sets
    and the ORDER BY .. LIMIT queries of app/feed_cache.py both compute. */
module FeedOrder {

  /** A sorted-set member with its score: a post id with its creation time. */
  datatype Entry = Entry(score: int, pid: nat)

  /** Scores first; equal scores by member, as Redis orders them. */
  predicate Newer(a: Entry, b: Entry) {
    a.score > b.score || (a.score == b.score && a.pid > b.pid)
  }

  /** A post id comes with one time only. */
  ghost predicate OneKeyPerId(s: set<Entry>) {
    forall a, b :: a in s && b in s && a.pid == b.pid ==> a == b
  }

  lemma {:induction false} OneKeyOfPart(part: set<Entry>, s: set<Entry>)
    requires part <= s && OneKeyPerId(s)
    ensures OneKeyPerId(part)
  {
  }

  /** The entries of `s` that come before `e`; their number is the reverse rank of `e`. */
  function NewerIn(s: set<Entry>, e: Entry): set<Entry> {
    set x | x in s && Newer(x, e)
  }

  /** The newest `n` entries. */
  function Top(s: set<Entry>, n: nat): set<Entry> {
    set e | e in s && |NewerIn(s, e)| < n
  }

  // ---------------------------------------------------------------- the order as a sequence

  ghost predicate IsNewest(s: set<Entry>, e: Entry) {
    e in s && forall x :: x in s && x != e ==> Newer(e, x)
  }

  lemma {:induction false} NewestExists(s: set<Entry>)
    requires s != {}
    ensures exists e :: IsNewest(s, e)
  {
    var x :| x in s;
    if s == {x} {
      assert IsNewest(s, x);
    } else {
      NewestExists(s - {x});
      var y :| IsNewest(s - {x}, y);
      var e := if Newer(x, y) then x else y;
      forall z | z in s && z != e
        ensures Newer(e, z)
      {
        assert z == x || z == y || (z in s - {x} && Newer(y, z));
      }
      assert IsNewest(s, e);
    }
  }

  function Newest(s: set<Entry>): (e: Entry)
    requires s != {}
    ensures IsNewest(s, e)
  {
    NewestExists(s);
    var e :| e in s && forall x :: x in s && x != e ==> Newer(e, x);
    e
  }

  /** All entries, newest first. */
  function Sorted(s: set<Entry>): (q: seq<Entry>)
    ensures |q| == |s|
    ensures forall e :: e in q <==> e in s
  {
    if s == {} then []
    else
      var e := Newest(s);
      assert s == {e} + (s - {e});
      [e] + Sorted(s - {e})
  }

  ghost predicate NewestFirst(q: seq<Entry>) {
    forall i, j :: 0 <= i < j < |q| ==> Newer(q[i], q[j])
  }

  lemma {:induction false} SortedIsNewestFirst(s: set<Entry>)
    ensures NewestFirst(Sorted(s))
  {
    if s != {} {
      var rest := s - {Newest(s)};
      SortedIsNewestFirst(rest);
      forall j | 0 <= j < |Sorted(rest)|
        ensures Newer(Newest(s), Sorted(rest)[j])
      {
        assert Sorted(rest)[j] in Sorted(rest);
      }
    }
  }

  function Elements<T>(q: seq<T>): set<T> {
    set e | e in q
  }

  lemma {:induction false} DistinctCount<T>(q: seq<T>)
    requires forall i, j :: 0 <= i < j < |q| ==> q[i] != q[j]
    ensures |Elements(q)| == |q|
  {
    if q != [] {
      var front, last := q[..|q| - 1], q[|q| - 1];
      DistinctCount(front);
      assert q == front + [last];
      assert Elements(q) == Elements(front) + {last};
      assert last !in front;
    }
  }

  lemma {:induction false} NewerIsBefore(q: seq<Entry>, i: nat, x: Entry)
    requires NewestFirst(q) && i < |q| && x in q && Newer(x, q[i])
    ensures x in q[..i]
  {
    var k :| 0 <= k < |q| && q[k] == x;
    assert k < i;
    assert q[..i][k] == x;
  }

  lemma {:induction false} BeforeIsNewer(q: seq<Entry>, i: nat, x: Entry)
    requires NewestFirst(q) && i < |q| && x in q[..i]
    ensures x in q && Newer(x, q[i])
  {
    var k :| 0 <= k < i && q[..i][k] == x;
    assert q[k] == x;
  }

  lemma {:induction false} NewerArePrefix(s: set<Entry>, i: nat)
    requires i < |Sorted(s)|
    ensures NewerIn(s, Sorted(s)[i]) == Elements(Sorted(s)[..i])
  {
    var q := Sorted(s);
    SortedIsNewestFirst(s);
    forall x | x in NewerIn(s, q[i])
      ensures x in Elements(q[..i])
    {
      NewerIsBefore(q, i, x);
    }
    forall x | x in Elements(q[..i])
      ensures x in NewerIn(s, q[i])
    {
      BeforeIsNewer(q, i, x);
    }
  }

  /** The entry at position i has exactly i newer entries. */
  lemma {:induction false} PositionIsRank(s: set<Entry>, i: nat)
    requires i < |Sorted(s)|
    ensures |NewerIn(s, Sorted(s)[i])| == i
  {
    NewerArePrefix(s, i);
    SortedIsNewestFirst(s);
    DistinctCount(Sorted(s)[..i]);
  }

  lemma {:induction false} RankIsPosition(s: set<Entry>, e: Entry)
    requires e in s
    ensures |NewerIn(s, e)| < |Sorted(s)| && Sorted(s)[|NewerIn(s, e)|] == e
  {
    var q := Sorted(s);
    var i :| 0 <= i < |q| && q[i] == e;
    PositionIsRank(s, i);
  }

  /** The newest n are the first n of the order; there are n of them if there can be. */
  lemma {:induction false} TopIsPrefix(s: set<Entry>, n: nat)
    ensures var k := if n < |s| then n else |s|;
            && Top(s, n) == Elements(Sorted(s)[..k])
            && |Top(s, n)| == k
  {
    var q := Sorted(s);
    var k := if n < |s| then n else |s|;
    forall e | e in Top(s, n)
      ensures e in q[..k]
    {
      RankIsPosition(s, e);
      assert q[..k][|NewerIn(s, e)|] == e;
    }
    forall e | e in q[..k]
      ensures e in Top(s, n)
    {
      var i :| 0 <= i < k && q[i] == e;
      PositionIsRank(s, i);
      assert e in q;
    }
    SortedIsNewestFirst(s);
    DistinctCount(q[..k]);
  }

  lemma TopOfSmall(s: set<Entry>, n: nat)
    requires |s| <= n
    ensures Top(s, n) == s
  {
    TopIsPrefix(s, n);
    assert Sorted(s)[..|s|] == Sorted(s);
  }

  // ---------------------------------------------------------------- algebra of the newest n

  lemma SubsetCount<T>(a: set<T>, b: set<T>)
    requires a <= b
    ensures |a| <= |b|
  {
    assert b == a + (b - a);
  }

  /** Among fewer entries an entry ranks no lower. */
  lemma TopMonotone(small: set<Entry>, big: set<Entry>, n: nat, e: Entry)
    requires small <= big && e in small && e in Top(big, n)
    ensures e in Top(small, n)
  {
    SubsetCount(NewerIn(small, e), NewerIn(big, e));
  }

  lemma TopGrows(s: set<Entry>, a: nat, b: nat)
    requires a <= b
    ensures Top(s, a) <= Top(s, b)
  {
  }

  /** A set between the newest n and the whole agrees with the whole on the first n positions. */
  lemma {:induction false} PrefixAgrees(feed: set<Entry>, s: set<Entry>, n: nat)
    requires Top(s, n) <= feed <= s
    ensures var k := if n < |s| then n else |s|;
            k <= |feed| && Sorted(feed)[..k] == Sorted(s)[..k]
  {
    var k := if n < |s| then n else |s|;
    TopIsPrefix(s, n);
    SubsetCount(Top(s, n), feed);
    forall i | 0 <= i < k
      ensures i < |Sorted(feed)| && Sorted(feed)[i] == Sorted(s)[i]
    {
      PositionAgrees(feed, s, n, i);
    }
  }

  lemma {:induction false} PositionAgrees(feed: set<Entry>, s: set<Entry>, n: nat, i: nat)
    requires Top(s, n) <= feed <= s && i < n && i < |s|
    ensures i < |feed| && Sorted(feed)[i] == Sorted(s)[i]
  {
    var e := Sorted(s)[i];
    assert e in Sorted(s);
    PositionIsRank(s, i);
    assert e in Top(s, n);
    forall x | x in NewerIn(s, e)
      ensures x in feed
    {
      SubsetCount(NewerIn(s, x), NewerIn(s, e));
      assert x in Top(s, n);
    }
    assert NewerIn(feed, e) == NewerIn(s, e);
    RankIsPosition(feed, e);
  }

  /** Adding entries and trimming keeps the newest n of the larger whole, for every n up to the cap. */
  lemma AddThenTrim(feed: set<Entry>, s: set<Entry>, added: set<Entry>, more: set<Entry>, cap: nat, n: nat)
    requires Top(s, n) <= feed <= s && n <= cap
    requires Top(more, n) <= added <= more
    ensures Top(s + more, n) <= Top(feed + added, cap) <= s + more
    ensures |Top(feed + added, cap)| <= cap
  {
    var whole, kept := s + more, feed + added;
    TopIsPrefix(kept, cap);
    forall e | e in Top(whole, n)
      ensures e in Top(kept, cap)
    {
      if e in s {
        TopMonotone(s, whole, n, e);
      } else {
        TopMonotone(more, whole, n, e);
      }
      SubsetCount(NewerIn(kept, e), NewerIn(whole, e));
    }
  }

  lemma RankAfterRemoval(s: set<Entry>, e: Entry, x: Entry)
    requires x in s && x != e
    ensures |NewerIn(s, x)| <= |NewerIn(s - {e}, x)| + 1
    ensures !Newer(e, x) ==> NewerIn(s, x) == NewerIn(s - {e}, x)
    ensures e in s && Newer(e, x) ==> |NewerIn(s, e)| <= |NewerIn(s - {e}, x)|
  {
    SubsetCount(NewerIn(s, x), NewerIn(s - {e}, x) + {e});
    if e in s && Newer(e, x) {
      SubsetCount(NewerIn(s, e), NewerIn(s - {e}, x));
    }
  }

  /** Removing one entry: if the feed held it, one position less is guaranteed; if not, none. */
  lemma RemoveOne(feed: set<Entry>, s: set<Entry>, e: Entry, n: nat)
    requires Top(s, n) <= feed <= s
    ensures feed - {e} <= s - {e}
    ensures e in feed && n > 0 ==> Top(s - {e}, n - 1) <= feed - {e}
    ensures e !in feed ==> Top(s - {e}, n) <= feed - {e}
  {
    forall x | x in s && x != e
      ensures |NewerIn(s, x)| <= |NewerIn(s - {e}, x)| + 1
      ensures !Newer(e, x) ==> NewerIn(s, x) == NewerIn(s - {e}, x)
      ensures e in s && Newer(e, x) ==> |NewerIn(s, e)| <= |NewerIn(s - {e}, x)|
    {
      RankAfterRemoval(s, e, x);
    }
    if e !in s {
      assert s - {e} == s;
    }
  }

  function Less(n: nat, k: nat): nat {
    if k <= n then n - k else 0
  }

  lemma RemoveOneLess(feed: set<Entry>, s: set<Entry>, e: Entry, n: nat)
    requires Top(s, n) <= feed <= s
    ensures Top(s - {e}, Less(n, |feed * {e}|)) <= feed - {e} <= s - {e}
  {
    RemoveOne(feed, s, e, n);
    assert feed * {e} == if e in feed then {e} else {};
  }

  lemma {:induction false} WithoutOneMore(s: set<Entry>, gone: set<Entry>, e: Entry)
    requires e in gone
    ensures (s - {e}) - (gone - {e}) == s - gone
    ensures |s * gone| == |s * {e}| + |(s - {e}) * (gone - {e})|
  {
    assert s * gone == s * {e} + (s - {e}) * (gone - {e});
  }

  /** Removing many entries: as many positions less as the feed lost. */
  lemma {:induction false} RemoveMany(feed: set<Entry>, s: set<Entry>, gone: set<Entry>, n: nat)
    requires Top(s, n) <= feed <= s
    ensures Top(s - gone, Less(n, |feed * gone|)) <= feed - gone <= s - gone
    decreases gone
  {
    if gone == {} {
      assert feed * gone == {} && s - gone == s && feed - gone == feed;
    } else {
      var e :| e in gone;
      RemoveOneLess(feed, s, e, n);
      RemoveMany(feed - {e}, s - {e}, gone - {e}, Less(n, |feed * {e}|));
      WithoutOneMore(feed, gone, e);
      WithoutOneMore(s, gone, e);
    }
  }

  /** The newest n of a union are the newest n of the two newest n. */
  lemma TopOfUnion(a: set<Entry>, b: set<Entry>, n: nat)
    ensures Top(a + b, n) == Top(Top(a, n) + Top(b, n), n)
    ensures Top(a + b, n) <= Top(a, n) + Top(b, n) <= a + b
  {
    var whole, kept := a + b, Top(a, n) + Top(b, n);
    AddThenTrim(Top(a, n), a, Top(b, n), b, n, n);
    TopIsPrefix(whole, n);
    TopIsPrefix(kept, n);
    assert Top(whole, n) <= Top(kept, n);
    SubsetCount(kept, whole);
    var rest := Top(kept, n) - Top(whole, n);
    assert Top(kept, n) == Top(whole, n) + rest;
  }
}
