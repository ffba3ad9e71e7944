/** `rebuild_feed_for_user` (app/feed_cache.py) one Redis command at a time, with an error possible at
    each, and what readers find between any two of its commands. */
module FeedRebuild {
  import opened FeedOrder
  import opened Paging
  import opened FeedWorld
  import opened FeedRows

  /** Where a rebuild stands: about to add row `row` to the temporary key, about to store its body,
      past the RENAME, past an error of it or of the pipeline, or ended with the temporary key deleted. */
  datatype Stage = Filling(row: nat) | Storing(row: nat) | Renamed | Failed | Finished(ok: bool)

  /** Database and Redis, the temporary key, whether the RENAME has taken effect, and whether a command
      of the pipeline has reported an error. */
  datatype Progress = Progress(w: World, temp: set<Entry>, stage: Stage, swapped: bool, broken: bool)

  function Begin(w: World): Progress {
    Progress(w, {}, Filling(0), false, false)
  }

  /** The next command. Without rows it is one DEL of the feed. Otherwise the pipeline sends ZADD and HSET
      for each row, and if none of them reported an error RENAME follows; in any case the last command is
      DEL of the temporary key. */
  function Command(u: nat, rows: seq<Entry>, s: Progress): Progress {
    match s.stage
    case Filling(i) =>
      if rows == [] then s.(w := SetFeed(s.w, u, {}), stage := Finished(true), swapped := true)
      else if i < |rows| then s.(temp := Zadd(s.temp, rows[i]), stage := Storing(i))
      else if s.broken then s.(stage := Failed)
      else s.(w := SetFeed(s.w, u, s.temp), temp := {}, stage := Renamed, swapped := true)
    case Storing(i) =>
      if i < |rows| then s.(w := StoreBody(s.w, rows[i].pid), stage := Filling(i + 1)) else s
    case Renamed => s.(temp := {}, stage := Finished(true))
    case Failed => s.(temp := {}, stage := Finished(false))
    case Finished(_) => s
  }

  function StoreBody(w: World, p: nat): World {
    if p in w.posts then w.(hashes := w.hashes[p := w.posts[p]]) else w
  }

  /** The command of the pipeline is passed over. */
  function Skipped(s: Progress): Progress {
    match s.stage
    case Filling(i) => s.(stage := Storing(i), broken := true)
    case Storing(i) => s.(stage := Filling(i + 1), broken := true)
    case _ => s
  }

  predicate InPipeline(rows: seq<Entry>, s: Progress) {
    (s.stage.Filling? || s.stage.Storing?) && s.stage.row < |rows|
  }

  /** One command, or its error, before or after it took effect. The commands of the pipeline behind one
      that failed are still sent. The final DEL is taken to work. */
  ghost predicate Next(u: nat, rows: seq<Entry>, s: Progress, s': Progress) {
    && !s.stage.Finished?
    && (|| s' == Command(u, rows, s)
        || (InPipeline(rows, s) && (s' == Skipped(s) || s' == Command(u, rows, s).(broken := true)))
        || (rows != [] && s.stage == Filling(|rows|)
            && (s' == s.(stage := Failed) || s' == Command(u, rows, s).(stage := Failed))))
  }

  ghost predicate RebuildRun(u: nat, rows: seq<Entry>, ss: seq<Progress>) {
    && ss != [] && ss[0].stage == Filling(0) && ss[0].temp == {} && !ss[0].swapped && !ss[0].broken
    && forall i :: 0 <= i < |ss| - 1 ==> Next(u, rows, ss[i], ss[i + 1])
  }

  ghost function Then(u: nat, rows: seq<Entry>, ss: seq<Progress>, s: Progress): (ss': seq<Progress>)
    requires RebuildRun(u, rows, ss) && Next(u, rows, ss[|ss| - 1], s)
    ensures RebuildRun(u, rows, ss') && ss'[0] == ss[0] && ss'[|ss'| - 1] == s
  {
    ss + [s]
  }

  /** Some of the first `n` commands reports an error. */
  predicate AnyError(errs: nat -> bool, n: nat) {
    exists k :: 0 <= k < n && errs(k)
  }

  lemma {:induction false} OneMoreCommand(errs: nat -> bool, n: nat)
    ensures AnyError(errs, n + 1) <==> AnyError(errs, n) || errs(n)
  {
  }

  /** The pipeline has sent the commands of the first `i` rows. */
  ghost predicate FilledTo(w0: World, u: nat, rows: seq<Entry>, errs: nat -> bool, i: nat,
                           w: World, temp: set<Entry>, failed: bool, ss: seq<Progress>) {
    && i <= |rows| && w == w0.(hashes := w.hashes) && BodiesFrom(w.hashes, w0.hashes, w0.posts)
    && (!failed ==> w.hashes == PutBodies(w0.hashes, w0.posts, rows[..i]) && temp == ZaddEach({}, rows[..i]))
    && (failed <==> AnyError(errs, 2 * i))
    && RebuildRun(u, rows, ss) && ss[0] == Begin(w0)
    && ss[|ss| - 1] == Progress(w, temp, Filling(i), false, failed)
  }

  lemma {:induction false} FilledNext(w0: World, u: nat, rows: seq<Entry>, errs: nat -> bool, i: nat,
                                      w: World, temp: set<Entry>, failed: bool, ss: seq<Progress>,
                                      w': World, temp': set<Entry>, failed': bool, ss': seq<Progress>)
    requires FilledTo(w0, u, rows, errs, i, w, temp, failed, ss) && i < |rows| && rows[i].pid in w0.posts
    requires temp' == if errs(2 * i) then temp else Zadd(temp, rows[i])
    requires w' == if errs(2 * i + 1) then w else w.(hashes := w.hashes[rows[i].pid := w0.posts[rows[i].pid]])
    requires failed' == (failed || errs(2 * i) || errs(2 * i + 1))
    requires RebuildRun(u, rows, ss') && ss'[0] == ss[0]
    requires ss'[|ss'| - 1] == Progress(w', temp', Filling(i + 1), false, failed')
    ensures FilledTo(w0, u, rows, errs, i + 1, w', temp', failed', ss')
  {
    FilledOneMore(w0.hashes, w.hashes, w0.posts, rows, i);
    OneMoreCommand(errs, 2 * i);
    OneMoreCommand(errs, 2 * i + 1);
  }

  /** The run has come to its end in a world. */
  ghost predicate Ended(ss: seq<Progress>, w: World, failed: bool) {
    ss != [] && var s := ss[|ss| - 1]; s.w == w && s.temp == {} && s.stage == Finished(!failed) && s.swapped == !failed
  }

  // ---------------------------------------------------------------- what every command keeps

  /** Between any two commands the feed is the old one or, once the RENAME is done, the complete
      snapshot; other feeds and the database are untouched; bodies are old ones or the database's. */
  ghost predicate Between(w: World, u: nat, rows: seq<Entry>, s: Progress) {
    && s.w.posts == w.posts && s.w.users == w.users && s.w.friends == w.friends
    && s.w.feeds == (if s.swapped then w.feeds[u := Elements(rows)] else w.feeds)
    && BodiesFrom(s.w.hashes, w.hashes, w.posts)
    && (forall p :: p in w.hashes ==> p in s.w.hashes)
    && InOrder(w, rows, s)
  }

  /** How far the pipeline has come, if nothing failed. */
  ghost predicate InOrder(w: World, rows: seq<Entry>, s: Progress) {
    && (s.stage.Filling? ==> s.stage.row <= |rows| && !s.swapped && (!s.broken ==> s.temp == Elements(rows[..s.stage.row])))
    && (s.stage.Storing? ==> s.stage.row < |rows| && !s.swapped && (!s.broken ==> s.temp == Elements(rows[..s.stage.row + 1])))
    && (s.stage.Filling? || s.stage.Storing? ==>
          (!s.broken ==> s.w.hashes == PutBodies(w.hashes, w.posts, rows[..s.stage.row])))
    && (rows == [] ==> !s.broken)
    && (s.stage.Renamed? ==> s.swapped)
    && (s.stage.Finished? ==> s.temp == {} && (s.stage.ok ==> s.swapped))
    && (s.swapped ==> s.w.hashes == PutBodies(w.hashes, w.posts, rows))
  }

  /** The rows of a query: posts that exist, each once. */
  ghost predicate QueryRows(w: World, rows: seq<Entry>) {
    && (forall i :: 0 <= i < |rows| ==> rows[i].pid in w.posts)
    && forall i, j :: 0 <= i < j < |rows| ==> rows[i].pid != rows[j].pid
  }

  lemma {:induction false} StoreOne(w: World, hashes: map<nat, Post>, p: nat)
    requires p in w.posts && BodiesFrom(hashes, w.hashes, w.posts) && forall q :: q in w.hashes ==> q in hashes
    ensures var stored := hashes[p := w.posts[p]];
            BodiesFrom(stored, w.hashes, w.posts) && forall q :: q in w.hashes ==> q in stored
  {
  }

  lemma {:induction false} PutOneMore(w: World, rows: seq<Entry>, i: nat)
    requires i < |rows| && rows[i].pid in w.posts
    ensures PutBodies(w.hashes, w.posts, rows[..i + 1])
         == PutBodies(w.hashes, w.posts, rows[..i])[rows[i].pid := w.posts[rows[i].pid]]
  {
    assert rows[..i + 1][..i] == rows[..i];
  }

  lemma {:induction false} AddKeeps(w: World, u: nat, rows: seq<Entry>, s: Progress)
    requires QueryRows(w, rows) && Between(w, u, rows, s) && s.stage.Filling? && s.stage.row < |rows|
    ensures Between(w, u, rows, Command(u, rows, s))
  {
    assert rows[..s.stage.row + 1] == rows[..s.stage.row] + [rows[s.stage.row]];
  }

  lemma {:induction false} StoreKeeps(w: World, u: nat, rows: seq<Entry>, s: Progress)
    requires QueryRows(w, rows) && Between(w, u, rows, s) && s.stage.Storing?
    ensures Between(w, u, rows, Command(u, rows, s))
  {
    StoreOne(w, s.w.hashes, rows[s.stage.row].pid);
    PutOneMore(w, rows, s.stage.row);
  }

  lemma {:induction false} CommandKeeps(w: World, u: nat, rows: seq<Entry>, s: Progress)
    requires QueryRows(w, rows) && Between(w, u, rows, s)
    ensures Between(w, u, rows, Command(u, rows, s))
  {
    if s.stage.Filling? && s.stage.row < |rows| {
      AddKeeps(w, u, rows, s);
    } else if s.stage.Storing? {
      StoreKeeps(w, u, rows, s);
    } else if s.stage.Filling? {
      assert rows[..|rows|] == rows;
      assert rows == [] ==> Elements(rows) == {};
    }
  }

  lemma {:induction false} NextKeeps(w: World, u: nat, rows: seq<Entry>, s: Progress, s': Progress)
    requires QueryRows(w, rows) && Between(w, u, rows, s) && Next(u, rows, s, s')
    ensures Between(w, u, rows, s')
  {
    CommandKeeps(w, u, rows, s);
  }

  lemma {:induction false} NextKeepsSwap(u: nat, rows: seq<Entry>, s: Progress, s': Progress)
    requires Next(u, rows, s, s') && s.swapped
    ensures s'.swapped
  {
  }

  lemma {:induction false} RunKeeps(w: World, u: nat, rows: seq<Entry>, ss: seq<Progress>, k: nat)
    requires QueryRows(w, rows) && RebuildRun(u, rows, ss) && ss[0].w == w && k < |ss|
    ensures Between(w, u, rows, ss[k])
  {
    if k > 0 {
      RunKeeps(w, u, rows, ss, k - 1);
      NextKeeps(w, u, rows, ss[k - 1], ss[k]);
    } else {
      assert rows[..0] == [];
    }
  }

  lemma {:induction false} SwapIsFinal(u: nat, rows: seq<Entry>, ss: seq<Progress>, i: nat, j: nat)
    requires RebuildRun(u, rows, ss) && i <= j < |ss| && ss[i].swapped
    ensures ss[j].swapped
    decreases j
  {
    if i < j {
      SwapIsFinal(u, rows, ss, i, j - 1);
      NextKeepsSwap(u, rows, ss[j - 1], ss[j - 1 + 1]);
    }
  }

  // ---------------------------------------------------------------- what readers find

  lemma {:induction false} QueryGivesRows(w: World, u: nat, cap: nat)
    ensures var rows := NewestRows(FriendPosts(w, u), cap);
            QueryRows(w, rows) && Elements(rows) == Top(FriendPosts(w, u), cap)
  {
    var rows := NewestRows(FriendPosts(w, u), cap);
    RowsAreTop(w, u, cap, rows);
    forall i | 0 <= i < |rows|
      ensures rows[i].pid in w.posts
    {
      assert rows[i] in rows;
    }
  }

  lemma {:induction false} EndedIsRebuilt(cap: nat, w: World, u: nat, rows: seq<Entry>, s: Progress)
    requires rows == NewestRows(FriendPosts(w, u), cap) && Between(w, u, rows, s)
    ensures s.stage == Finished(true) ==> s.w == Rebuild(cap, w, u)
  {
    QueryGivesRows(w, u, cap);
    RebuiltFromRows(cap, w, u, rows);
  }

  /** Between any two commands of a rebuild, whichever of them fail, the feed is the old one before
      the RENAME and the complete newest `cap` from then on, never anything in between and never the
      old one again. Other feeds do not change. When the rebuild has ended the temporary key is gone,
      and if it did not fail its effect is the whole rebuild. */
  lemma {:induction false} FeedIsNeverPartial(cap: nat, w: World, u: nat, ss: seq<Progress>, i: nat, j: nat, v: nat)
    requires RebuildRun(u, NewestRows(FriendPosts(w, u), cap), ss) && ss[0].w == w && i <= j < |ss|
    ensures FeedOf(ss[i].w, u) == if ss[i].swapped then Top(FriendPosts(w, u), cap) else FeedOf(w, u)
    ensures ss[i].swapped ==> ss[j].swapped
    ensures v != u ==> FeedOf(ss[i].w, v) == FeedOf(w, v)
    ensures ss[i].stage.Finished? ==> ss[i].temp == {}
    ensures ss[i].stage == Finished(true) ==> ss[i].w == Rebuild(cap, w, u)
  {
    var rows := NewestRows(FriendPosts(w, u), cap);
    QueryGivesRows(w, u, cap);
    RunKeeps(w, u, rows, ss, i);
    if ss[i].swapped {
      SwapIsFinal(u, rows, ss, i, j);
    }
    EndedIsRebuilt(cap, w, u, rows, ss[i]);
  }

  lemma {:induction false} SnapshotHasBodies(w: World, rows: seq<Entry>, e: Entry)
    requires QueryRows(w, rows) && e in rows
    ensures e.pid in w.posts && e.pid in PutBodies(w.hashes, w.posts, rows)
         && PutBodies(w.hashes, w.posts, rows)[e.pid] == w.posts[e.pid]
  {
    var front, last := rows[..|rows| - 1], rows[|rows| - 1];
    if e != last {
      var i :| 0 <= i < |rows| && rows[i] == e;
      assert front[i] == e;
      SnapshotHasBodies(w, front, e);
    }
  }

  /** A concurrent reader takes a page of the feed between two commands and its bodies between two
      later ones. It gets whole current posts, one for each id of its page, and finds none to drop. */
  lemma {:induction false} ReaderGetsWholePosts(cap: nat, w: World, u: nat, ss: seq<Progress>, i: nat, j: nat,
                                                offset: nat, limit: nat)
    requires RebuildRun(u, NewestRows(FriendPosts(w, u), cap), ss) && ss[0].w == w && i <= j < |ss|
    requires BodiesStored(w, FeedOf(w, u))
    ensures var page := Zrevrange(FeedOf(ss[i].w, u), offset, limit);
            Bodies(ss[j].w, page) == FromRows(w, page) && Stale(ss[j].w, page) == {}
  {
    var rows := NewestRows(FriendPosts(w, u), cap);
    var page := Zrevrange(FeedOf(ss[i].w, u), offset, limit);
    QueryGivesRows(w, u, cap);
    RunKeeps(w, u, rows, ss, j);
    FeedIsNeverPartial(cap, w, u, ss, i, j, u);
    SortedInFeed(FeedOf(ss[i].w, u), offset, limit);
    forall e | e in page
      ensures e.pid in w.posts && e.pid in ss[j].w.hashes && ss[j].w.hashes[e.pid] == w.posts[e.pid]
    {
      if ss[i].swapped {
        assert e in Elements(rows);
        SnapshotHasBodies(w, rows, e);
      }
    }
    BodiesAreRows(ss[j].w, page);
    FromRowsSame(ss[j].w, w, page);
  }
}
