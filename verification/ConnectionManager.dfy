/** The registry of live WebSocket connections (app/ws/connection_manager.py). Tasks interleave only
    between lock sections, so every interleaving of connect, disconnect and push is a sequence of
    the sections below. The callbacks run after the lock is released: what is stated here is about
    the decisions to call them, in lock order, not about when they finish. */
module ConnectionManager {

  /** Users and their open sockets. */
  type Registry = map<nat, set<nat>>

  /** A decision to subscribe a user on the first connection, or unsubscribe on the last. */
  datatype Decision = First(user: nat) | Last(user: nat)

  datatype Section =
    | Connect(user: nat, ws: nat)
    | Disconnect(user: nat, ws: nat)
    | Snapshot(user: nat)

  function SocketsOf(r: Registry, u: nat): set<nat> {
    if u in r then r[u] else {}
  }

  function After(r: Registry, x: Section): Registry {
    match x
    case Connect(u, ws) => r[u := SocketsOf(r, u) + {ws}]
    case Disconnect(u, ws) =>
      if u !in r then r
      else if r[u] - {ws} == {} then r - {u}
      else r[u := r[u] - {ws}]
    case Snapshot(_) => r
  }

  function Decides(r: Registry, x: Section): seq<Decision> {
    match x
    case Connect(u, _) => if SocketsOf(r, u) == {} then [First(u)] else []
    case Disconnect(u, ws) => if u in r && r[u] - {ws} == {} then [Last(u)] else []
    case Snapshot(_) => []
  }

  // ---------------------------------------------------------------- the class

  class Manager {
    var conns: Registry
    /** Every decision taken so far, in lock order. */
    ghost var decisions: seq<Decision>

    ghost predicate Valid()
      reads this
    {
      NoEmptySets(conns) && forall u :: Consistent(conns, decisions, u)
    }

    constructor ()
      ensures Valid() && conns == map[] && decisions == []
    {
      conns, decisions := map[], [];
    }

    /** The lock section of `connect`. */
    method Connect(u: nat, ws: nat) returns (isFirst: bool)
      requires Valid()
      modifies this
      ensures Valid()
      ensures conns == After(old(conns), Section.Connect(u, ws))
      ensures decisions == old(decisions) + Decides(old(conns), Section.Connect(u, ws))
      ensures isFirst == (u !in old(conns))
    {
      SectionKeeps(conns, decisions, Section.Connect(u, ws));
      isFirst := false;
      if u !in conns {
        conns := conns[u := {}];
      }
      if conns[u] == {} {
        isFirst := true;
        decisions := decisions + [First(u)];
      }
      conns := conns[u := conns[u] + {ws}];
      assert conns == After(old(conns), Section.Connect(u, ws));
      assert decisions == old(decisions) + Decides(old(conns), Section.Connect(u, ws));
    }

    /** The lock section of `disconnect`. */
    method Disconnect(u: nat, ws: nat) returns (isLast: bool)
      requires Valid()
      modifies this
      ensures Valid()
      ensures conns == After(old(conns), Section.Disconnect(u, ws))
      ensures decisions == old(decisions) + Decides(old(conns), Section.Disconnect(u, ws))
      ensures isLast == (u in old(conns) && u !in conns)
      ensures ws !in SocketsOf(old(conns), u) ==> conns == old(conns) && decisions == old(decisions)
    {
      SectionKeeps(conns, decisions, Section.Disconnect(u, ws));
      isLast := false;
      if u !in conns {
        assert decisions == old(decisions) + Decides(old(conns), Section.Disconnect(u, ws));
        return;
      }
      var sockets := conns[u] - {ws};
      if ws !in conns[u] {
        assert sockets == conns[u];
      }
      conns := conns[u := sockets];
      if sockets == {} {
        conns := conns - {u};
        isLast := true;
        decisions := decisions + [Last(u)];
      }
      assert conns == After(old(conns), Section.Disconnect(u, ws));
      assert decisions == old(decisions) + Decides(old(conns), Section.Disconnect(u, ws));
    }

    /** `push` with no task in between: sends to the sockets registered when it starts, returns how
        many took the message, and drops the others. `works` says which sockets are alive; `own` lists
        the lock sections the push went through. */
    method Push(u: nat, works: nat -> bool) returns (sent: nat, ghost own: seq<Section>)
      requires Valid()
      modifies this
      ensures Valid()
      ensures sent == |SocketsOf(old(conns), u)| - |set ws | ws in SocketsOf(old(conns), u) && !works(ws)|
      ensures forall ws :: ws in SocketsOf(conns, u) <==> ws in SocketsOf(old(conns), u) && works(ws)
      ensures forall v :: v != u ==> SocketsOf(conns, v) == SocketsOf(old(conns), v)
      ensures PushOf(own, u, SocketsOf(old(conns), u), works)
      ensures (conns, decisions) == RunOn(old(conns), old(decisions), own)
    {
      var broken;
      var start := SocketsOf(conns, u);
      sent, broken := SendAll(start, works);
      own := DropAll(u, broken);
      SnapshotFirst(old(conns), old(decisions), u, own);
      own := [Snapshot(u)] + own;
    }

    /** The disconnects that end a push. */
    method DropAll(u: nat, broken: set<nat>) returns (ghost own: seq<Section>)
      requires Valid()
      modifies this
      ensures Valid()
      ensures SocketsOf(conns, u) == SocketsOf(old(conns), u) - broken
      ensures forall v :: v != u ==> SocketsOf(conns, v) == SocketsOf(old(conns), v)
      ensures DisconnectsEach(own, u, broken) && (conns, decisions) == RunOn(old(conns), old(decisions), own)
    {
      own := [];
      var todo := broken;
      while todo != {}
        invariant Valid() && todo <= broken
        invariant Dropped(old(conns), conns, u, broken - todo)
        invariant DisconnectsEach(own, u, broken - todo) && (conns, decisions) == RunOn(old(conns), old(decisions), own)
        decreases todo
      {
        var ws :| ws in todo;
        ghost var before := conns;
        var _ := Disconnect(u, ws);
        DropOneMore(old(conns), before, u, broken - todo, ws);
        DisconnectOneMore(old(conns), old(decisions), own, u, broken - todo, ws);
        assert broken - (todo - {ws}) == (broken - todo) + {ws};
        own := own + [Section.Disconnect(u, ws)];
        todo := todo - {ws};
      }
      assert broken - todo == broken;
    }
  }

  /** `r'` is `r` without some sockets of one user. */
  ghost predicate Dropped(r: Registry, r': Registry, u: nat, gone: set<nat>) {
    SocketsOf(r', u) == SocketsOf(r, u) - gone && forall v :: v != u ==> SocketsOf(r', v) == SocketsOf(r, v)
  }

  lemma {:induction false} DropOneMore(r: Registry, r': Registry, u: nat, gone: set<nat>, ws: nat)
    requires Dropped(r, r', u, gone)
    ensures Dropped(r, After(r', Disconnect(u, ws)), u, gone + {ws})
  {
  }

  /** Each of the sockets is disconnected once. */
  ghost predicate DisconnectsEach(xs: seq<Section>, u: nat, sockets: set<nat>) {
    && (forall i :: 0 <= i < |xs| ==> xs[i].Disconnect? && xs[i].user == u && xs[i].ws in sockets)
    && (forall ws :: ws in sockets ==> Disconnect(u, ws) in xs)
    && forall i, j :: 0 <= i < j < |xs| ==> xs[i] != xs[j]
  }

  /** The sections of a push to the sockets it found: one snapshot, and a disconnect of each that did not
      take the message. */
  ghost predicate PushOf(own: seq<Section>, u: nat, sockets: set<nat>, works: nat -> bool) {
    own != [] && own[0] == Snapshot(u) && DisconnectsEach(own[1..], u, set ws | ws in sockets && !works(ws))
  }

  /** The registry and the decisions after some lock sections. */
  function RunOn(r: Registry, log: seq<Decision>, xs: seq<Section>): (Registry, seq<Decision>) {
    if xs == [] then (r, log)
    else
      var (r', log') := RunOn(r, log, xs[..|xs| - 1]);
      (After(r', xs[|xs| - 1]), log' + Decides(r', xs[|xs| - 1]))
  }

  lemma {:induction false} DisconnectOneMore(r: Registry, log: seq<Decision>, own: seq<Section>, u: nat, gone: set<nat>, ws: nat)
    requires DisconnectsEach(own, u, gone) && ws !in gone
    ensures DisconnectsEach(own + [Disconnect(u, ws)], u, gone + {ws})
    ensures var (r', log') := RunOn(r, log, own);
            RunOn(r, log, own + [Disconnect(u, ws)])
            == (After(r', Disconnect(u, ws)), log' + Decides(r', Disconnect(u, ws)))
  {
    var more := own + [Disconnect(u, ws)];
    assert more[..|own|] == own && more[|own|] == Disconnect(u, ws);
  }

  lemma {:induction false} SnapshotFirst(r: Registry, log: seq<Decision>, u: nat, own: seq<Section>)
    ensures RunOn(r, log, [Snapshot(u)] + own) == RunOn(r, log, own)
  {
    if own == [] {
      assert ([Snapshot(u)] + own)[..0] == [] && log + [] == log;
    } else {
      SnapshotFirst(r, log, u, own[..|own| - 1]);
      assert ([Snapshot(u)] + own)[..|own|] == [Snapshot(u)] + own[..|own| - 1];
    }
  }

  /** The sends of one push. */
  method SendAll(start: set<nat>, works: nat -> bool) returns (sent: nat, broken: set<nat>)
    ensures broken == set ws | ws in start && !works(ws)
    ensures sent == |start| - |broken|
  {
    var rest := start;
    sent, broken := 0, {};
    while rest != {}
      invariant rest <= start && broken == set ws | ws in start - rest && !works(ws)
      invariant sent == |start| - |rest| - |broken|
      decreases rest
    {
      var ws :| ws in rest;
      assert start - (rest - {ws}) == (start - rest) + {ws};
      if works(ws) {
        sent := sent + 1;
      } else {
        broken := broken + {ws};
      }
      rest := rest - {ws};
    }
    assert start - rest == start;
  }

  // ---------------------------------------------------------------- what every section keeps

  ghost predicate NoEmptySets(r: Registry) {
    forall u :: u in r ==> r[u] != {}
  }

  /** The decisions about one user; true for first. */
  function About(log: seq<Decision>, u: nat): seq<bool> {
    if log == [] then []
    else
      var front, last := About(log[..|log| - 1], u), log[|log| - 1];
      if last.user == u then front + [last.First?] else front
  }

  /** Strictly alternating, beginning with first. */
  ghost predicate Alternates(turns: seq<bool>) {
    forall i :: 0 <= i < |turns| ==> turns[i] == (i % 2 == 0)
  }

  /** The decisions alternate, and the user is registered exactly if the latest one was first. */
  ghost predicate Consistent(r: Registry, log: seq<Decision>, u: nat) {
    Alternates(About(log, u)) && (u in r <==> |About(log, u)| % 2 == 1)
  }

  lemma {:induction false} SectionKeepsUser(r: Registry, log: seq<Decision>, x: Section, u: nat)
    requires NoEmptySets(r) && Consistent(r, log, u)
    ensures Consistent(After(r, x), log + Decides(r, x), u)
  {
    var more := Decides(r, x);
    if more == [] {
      assert log + more == log;
    } else {
      var log' := log + more;
      assert log'[..|log'| - 1] == log;
      var turns, turns' := About(log, u), About(log', u);
      if x.user == u {
        assert turns' == turns + [more[0].First?];
      } else {
        assert turns' == turns;
      }
    }
  }

  lemma {:induction false} SectionKeeps(r: Registry, log: seq<Decision>, x: Section)
    requires NoEmptySets(r) && forall u :: Consistent(r, log, u)
    ensures NoEmptySets(After(r, x))
    ensures forall u :: Consistent(After(r, x), log + Decides(r, x), u)
  {
    forall u
      ensures Consistent(After(r, x), log + Decides(r, x), u)
    {
      SectionKeepsUser(r, log, x, u);
    }
  }

  // ---------------------------------------------------------------- every interleaving

  /** The registry and the decisions after a sequence of lock sections from the empty registry. */
  function RunSections(xs: seq<Section>): (Registry, seq<Decision>) {
    RunOn(map[], [], xs)
  }

  function Count(turns: seq<bool>, which: bool): nat {
    if turns == [] then 0
    else Count(turns[..|turns| - 1], which) + if turns[|turns| - 1] == which then 1 else 0
  }

  lemma {:induction false} AlternatingCounts(turns: seq<bool>)
    requires Alternates(turns)
    ensures Count(turns, true) == Count(turns, false) + |turns| % 2
  {
    if turns != [] {
      AlternatingCounts(turns[..|turns| - 1]);
    }
  }

  lemma {:induction false} SectionsKeep(xs: seq<Section>)
    ensures var (r, log) := RunSections(xs);
            NoEmptySets(r) && forall u :: Consistent(r, log, u)
  {
    if xs != [] {
      SectionsKeep(xs[..|xs| - 1]);
      var (r, log) := RunSections(xs[..|xs| - 1]);
      SectionKeeps(r, log, xs[|xs| - 1]);
    }
  }

  /** Whatever sections run in whatever order, for each user the subscribe and unsubscribe decisions
      strictly alternate starting with subscribe, there is one more subscribe exactly while the user
      has a registered socket, and no user is left with an empty set. */
  lemma {:induction false} DecisionsAlternate(xs: seq<Section>, u: nat)
    ensures var (r, log) := RunSections(xs);
            var turns := About(log, u);
            && NoEmptySets(r)
            && Alternates(turns)
            && Count(turns, true) == Count(turns, false) + (if SocketsOf(r, u) != {} then 1 else 0)
  {
    SectionsKeep(xs);
    var (r, log) := RunSections(xs);
    assert Consistent(r, log, u);
    AlternatingCounts(About(log, u));
  }

  /** The latest section about the socket, if there is one, connected it. */
  ghost predicate ConnectedLast(xs: seq<Section>, u: nat, ws: nat) {
    exists i :: 0 <= i < |xs| && xs[i] == Connect(u, ws) && NoneFrom(xs, i + 1, Disconnect(u, ws))
  }

  ghost predicate NoneFrom(xs: seq<Section>, i: nat, x: Section) {
    forall j :: i <= j < |xs| ==> xs[j] != x
  }

  lemma {:induction false} OneMoreSection(xs: seq<Section>, x: Section, u: nat, ws: nat)
    ensures ConnectedLast(xs + [x], u, ws)
       <==> x == Connect(u, ws) || (x != Disconnect(u, ws) && ConnectedLast(xs, u, ws))
  {
    var ys := xs + [x];
    if x == Connect(u, ws) {
      assert ys[|xs|] == Connect(u, ws) && NoneFrom(ys, |xs| + 1, Disconnect(u, ws));
    }
    if ConnectedLast(xs, u, ws) && x != Disconnect(u, ws) {
      var i :| 0 <= i < |xs| && xs[i] == Connect(u, ws) && NoneFrom(xs, i + 1, Disconnect(u, ws));
      assert ys[i] == Connect(u, ws) && NoneFrom(ys, i + 1, Disconnect(u, ws));
    }
    if ConnectedLast(ys, u, ws) && x != Connect(u, ws) {
      var i :| 0 <= i < |ys| && ys[i] == Connect(u, ws) && NoneFrom(ys, i + 1, Disconnect(u, ws));
      assert i < |xs| && ys[|xs|] == x;
      assert NoneFrom(xs, i + 1, Disconnect(u, ws)) by {
        forall j | i + 1 <= j < |xs|
          ensures xs[j] != Disconnect(u, ws)
        {
          assert ys[j] == xs[j];
        }
      }
    }
  }

  lemma {:induction false} AfterSection(r: Registry, x: Section, u: nat, ws: nat)
    ensures ws in SocketsOf(After(r, x), u)
       <==> x == Connect(u, ws) || (x != Disconnect(u, ws) && ws in SocketsOf(r, u))
  {
  }

  /** Whatever runs in between, a socket is registered exactly if the latest section about it
      connected it. */
  lemma {:induction false} RegisteredByLast(xs: seq<Section>, u: nat, ws: nat)
    ensures ws in SocketsOf(RunSections(xs).0, u) <==> ConnectedLast(xs, u, ws)
  {
    if xs != [] {
      var front, x := xs[..|xs| - 1], xs[|xs| - 1];
      RegisteredByLast(front, u, ws);
      AfterSection(RunSections(front).0, x, u, ws);
      OneMoreSection(front, x, u, ws);
      assert xs == front + [x];
    }
  }

  /** A push interleaved with other tasks in any way: it took its snapshot in section k and found the sockets
      registered then, and by the end of `xs` has gone through all its own sections. A socket that did not
      take the message is gone unless it was connected again since; one that took it is still there unless
      another task disconnected it: the push itself did not. */
  lemma {:induction false} PushInterleaved(xs: seq<Section>, k: nat, u: nat, works: nat -> bool, own: seq<Section>, ws: nat)
    requires k < |xs| && xs[k] == Snapshot(u)
    requires PushOf(own, u, SocketsOf(RunSections(xs[..k]).0, u), works)
    requires forall x :: x in own[1..] ==> exists j :: k < j < |xs| && xs[j] == x
    requires ws in SocketsOf(RunSections(xs[..k]).0, u)
    ensures !works(ws) && NoneFrom(xs, k, Connect(u, ws)) ==> ws !in SocketsOf(RunSections(xs).0, u)
    ensures works(ws) && NoneFrom(xs, k, Disconnect(u, ws)) ==> ws in SocketsOf(RunSections(xs).0, u)
    ensures works(ws) ==> Disconnect(u, ws) !in own
  {
    RegisteredByLast(xs[..k], u, ws);
    RegisteredByLast(xs, u, ws);
    assert own == [own[0]] + own[1..];
    assert !works(ws) ==> Disconnect(u, ws) in own[1..];
    var i :| 0 <= i < k && xs[..k][i] == Connect(u, ws) && NoneFrom(xs[..k], i + 1, Disconnect(u, ws));
    if NoneFrom(xs, k, Disconnect(u, ws)) {
      forall j | i + 1 <= j < |xs|
        ensures xs[j] != Disconnect(u, ws)
      {
        assert j < k ==> xs[..k][j] == xs[j];
      }
      assert xs[i] == Connect(u, ws) && NoneFrom(xs, i + 1, Disconnect(u, ws));
    }
  }

  /** A socket already dropped can be disconnected again without any effect. */
  lemma {:induction false} DisconnectTwice(r: Registry, u: nat, ws: nat)
    requires NoEmptySets(r)
    ensures var once := After(r, Disconnect(u, ws));
            After(once, Disconnect(u, ws)) == once && Decides(once, Disconnect(u, ws)) == []
  {
    var once := After(r, Disconnect(u, ws));
    if u in once {
      assert once[u] - {ws} == once[u];
    }
  }
}
