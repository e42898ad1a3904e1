/**
 Deferred user counts and their commit (class Net, src/db/connection.h): during a batch a
 net only notes increments and decrements; the commit applies them and touches the shared
 occupancies and stamps of the nodes.
 */
module SwiftSync {
  import opened Counting
  import opened Ledger

  /** The operations on shared nodes that a commit performs, each in one step. */
  datatype Act = Bump(v: nat) | Drop(v: nat) | Mark(v: nat)

  /** Occupancy and update stamp of every node. */
  datatype Board = Board(occ: seq<int>, stamp: seq<int>)

  predicate OnBoard(b: Board, acts: seq<Act>) {
    |b.occ| == |b.stamp| && forall i :: 0 <= i < |acts| ==> acts[i].v < |b.occ|
  }

  function Do(b: Board, a: Act, batch: int): Board
    requires a.v < |b.occ| == |b.stamp|
  {
    match a
    case Bump(v) => b.(occ := b.occ[v := b.occ[v] + 1])
    case Drop(v) => b.(occ := b.occ[v := b.occ[v] - 1])
    case Mark(v) => b.(stamp := b.stamp[v := batch])
  }

  function DoAll(b: Board, acts: seq<Act>, batch: int): (r: Board)
    requires OnBoard(b, acts)
    ensures |r.occ| == |r.stamp| == |b.occ|
  {
    if |acts| == 0 then b else Do(DoAll(b, acts[..|acts| - 1], batch), acts[|acts| - 1], batch)
  }

  /** The effect on a node depends only on how often each action occurs, not on their order. */
  lemma {:induction false} DoAllEffect(b: Board, acts: seq<Act>, batch: int, v: nat)
    requires OnBoard(b, acts) && v < |b.occ|
    ensures DoAll(b, acts, batch).occ[v] == b.occ[v] + Count(acts, Bump(v)) - Count(acts, Drop(v))
    ensures DoAll(b, acts, batch).stamp[v] == if Count(acts, Mark(v)) > 0 then batch else b.stamp[v]
  {
    if |acts| > 0 { DoAllEffect(b, acts[..|acts| - 1], batch, v); }
  }

  lemma {:induction false} DoAllAppend(b: Board, first: seq<Act>, second: seq<Act>, batch: int)
    requires OnBoard(b, first) && OnBoard(b, second)
    ensures OnBoard(b, first + second)
    ensures DoAll(b, first + second, batch) == DoAll(DoAll(b, first, batch), second, batch)
  {
    if |second| == 0 {
      assert first + second == first;
    } else {
      var last := |second| - 1;
      DoAllAppend(b, first, second[..last], batch);
      assert (first + second)[..|first| + last] == first + second[..last];
    }
  }

  lemma DoTwo(b: Board, x: Act, y: Act, batch: int)
    requires x.v < |b.occ| == |b.stamp| && y.v < |b.occ|
    ensures DoAll(b, [x, y], batch) == Do(Do(b, x, batch), y, batch)
  {
    var acts := [x, y];
    assert DoAll(b, acts[..1], batch) == Do(DoAll(b, acts[..1][..0], batch), x, batch);
  }

  /** At node v the actions account for the change of membership, and mark v if they change it. */
  ghost predicate TracksAt(before: Users, after: Users, acts: seq<Act>, v: nat) {
    && Count(acts, Bump(v)) - Count(acts, Drop(v)) == Member(after, v) - Member(before, v)
    && (Count(acts, Mark(v)) > 0 <==> Count(acts, Bump(v)) + Count(acts, Drop(v)) > 0)
  }

  ghost predicate Tracks(before: Users, after: Users, acts: seq<Act>) {
    forall v: nat :: TracksAt(before, after, acts, v)
  }

  lemma TracksAppend(a: Users, b: Users, c: Users, first: seq<Act>, second: seq<Act>)
    requires Tracks(a, b, first) && Tracks(b, c, second)
    ensures Tracks(a, c, first + second)
  {
    forall v: nat ensures TracksAt(a, c, first + second, v) {
      assert TracksAt(a, b, first, v) && TracksAt(b, c, second, v);
      CountAppend(first, second, Bump(v));
      CountAppend(first, second, Drop(v));
      CountAppend(first, second, Mark(v));
    }
  }

  lemma PairCount<T>(x: T, y: T, z: T)
    ensures Count([x, y], z) == (if x == z then 1 else 0) + (if y == z then 1 else 0)
  {
    assert [x, y] == [x] + [y] && [x] == [] + [x];
    CountSnoc([x], y, z);
    CountSnoc([], x, z);
  }

  lemma TracksOne(before: Users, after: Users, u: nat)
    requires forall v: nat :: v != u ==> Member(after, v) == Member(before, v)
    ensures u !in before && u in after ==> Tracks(before, after, [Bump(u), Mark(u)])
    ensures u in before && u !in after ==> Tracks(before, after, [Drop(u), Mark(u)])
    ensures (u in before <==> u in after) ==> Tracks(before, after, [])
  {
    forall v: nat, a: Act | a in {Bump(v), Drop(v), Mark(v)}
      ensures Count([Bump(u), Mark(u)], a) == (if Bump(u) == a then 1 else 0) + (if Mark(u) == a then 1 else 0)
      ensures Count([Drop(u), Mark(u)], a) == (if Drop(u) == a then 1 else 0) + (if Mark(u) == a then 1 else 0)
    {
      PairCount(Bump(u), Mark(u), a);
      PairCount(Drop(u), Mark(u), a);
    }
  }

  /** The nodes' share of the commit. */
  class Nodes {
    var occ: seq<int>
    var stamp: seq<int>

    ghost function View(): Board
      reads this
    {
      Board(occ, stamp)
    }

    method IncrementOccupancy(v: nat)
      requires v < |occ| == |stamp|
      modifies this`occ
      ensures View() == Do(old(View()), Bump(v), 0)
    {
      occ := occ[v := occ[v] + 1];
    }

    method DecrementOccupancy(v: nat)
      requires v < |occ| == |stamp|
      modifies this`occ
      ensures View() == Do(old(View()), Drop(v), 0)
    {
      occ := occ[v := occ[v] - 1];
    }

    method SetNeedUpdateBatchStamp(v: nat, batch: int)
      requires v < |occ| == |stamp|
      modifies this`stamp
      ensures View() == Do(old(View()), Mark(v), batch)
    {
      stamp := stamp[v := batch];
    }
  }

  /** All entries of the table are positive and belong to nodes. */
  ghost predicate Positive(m: Users, n: nat) { forall v :: v in m ==> v < n && m[v] > 0 }

  /** The counts after the commit of inc, then dec. */
  ghost predicate Settles(users: Users, inc: Users, dec: Users, after: Users) {
    forall v: nat :: Cnt(after, v) == Cnt(users, v) + Cnt(inc, v) - Cnt(dec, v)
  }

  /** The decrements are covered by the counts. */
  ghost predicate Covered(users: Users, dec: Users) { forall v: nat :: Cnt(dec, v) <= Cnt(users, v) }

  /** The table counts the nodes of the path on top of what it counted before. */
  ghost predicate Adds(before: Users, path: seq<nat>, after: Users) {
    forall v: nat :: Cnt(after, v) == Cnt(before, v) + Count(path, v)
  }

  lemma AddsStep(before: Users, path: seq<nat>, i: nat, now: Users)
    requires i < |path| && Adds(before, path[..i], now)
    ensures Adds(before, path[..i + 1], now[path[i] := Cnt(now, path[i]) + 1])
  {
    assert path[..i + 1] == path[..i] + [path[i]];
    forall v: nat ensures Count(path[..i + 1], v) == Count(path[..i], v) + (if v == path[i] then 1 else 0) {
      CountSnoc(path[..i], path[i], v);
    }
  }

  lemma CountPrefix(path: seq<nat>, k: nat, v: nat)
    requires k <= |path|
    ensures Count(path[..k], v) <= Count(path, v)
  {
    assert path == path[..k] + path[k..];
    CountAppend(path[..k], path[k..], v);
  }

  class Net {
    const id: nat
    var users: Users
    var dec: Users
    var inc: Users

    constructor (id: nat)
      ensures this.id == id && users == inc == dec == map[]
    {
      this.id, users, inc, dec := id, map[], map[], map[];
    }

    method IncrementUser(v: nat) returns (newlyAdd: bool)
      modifies this`users
      ensures (users, newlyAdd) == IncUser(old(users), v)
    {
      if v !in users {
        users := users[v := 1];
        newlyAdd := true;
      } else {
        users := users[v := users[v] + 1];
        newlyAdd := false;
      }
    }

    method DecrementUser(v: nat) returns (erased: bool)
      modifies this`users
      ensures (users, erased) == DecUser(old(users), v)
    {
      var was := users;
      users := users[v := Cnt(users, v) - 1];
      if users[v] == 0 {
        users := users - {v};
        assert users == was - {v};
        erased := true;
      } else {
        erased := false;
      }
    }

    /** Note one decrement; the program stops unless the net's count covers it. */
    method PreDecrementUser(v: nat) returns (ok: bool)
      modifies this`dec
      ensures dec == old(dec)[v := Cnt(old(dec), v) + 1]
      ensures ok <==> Cnt(dec, v) <= Cnt(users, v)
    {
      if v !in dec { dec := dec[v := 1]; } else { dec := dec[v := dec[v] + 1]; }
      ok := dec[v] <= Cnt(users, v);
    }

    method PreIncrementUser(v: nat)
      modifies this`inc
      ensures inc == old(inc)[v := Cnt(old(inc), v) + 1]
    {
      if v !in inc { inc := inc[v := 1]; } else { inc := inc[v := inc[v] + 1]; }
    }

    /** Note the release of all given nodes: the sync branch of ripup. */
    method PreDecrementAll(path: seq<nat>, ghost n: nat) returns (ok: bool)
      requires Covered(users, dec) && Positive(dec, n) && InNodes(path, n)
      modifies this`dec
      ensures ok ==> Covered(users, dec) && Positive(dec, n) && Adds(old(dec), path, dec)
      ensures !ok ==> exists v :: v in path && Cnt(old(dec), v) + Count(path, v) > Cnt(users, v)
    {
      for i := 0 to |path|
        invariant Covered(users, dec) && Positive(dec, n) && Adds(old(dec), path[..i], dec)
      {
        AddsStep(old(dec), path, i, dec);
        ok := PreDecrementUser(path[i]);
        if !ok {
          CountPrefix(path, i + 1, path[i]);
          return;
        }
      }
      assert path[..|path|] == path;
      ok := true;
    }

    /** Note the use of all nodes of a new path: the sync branch at the end of routeOneConnection. */
    method PreIncrementAll(path: seq<nat>, ghost n: nat)
      requires Positive(inc, n) && InNodes(path, n)
      modifies this`inc
      ensures Positive(inc, n) && Adds(old(inc), path, inc)
    {
      for i := 0 to |path|
        invariant Positive(inc, n) && Adds(old(inc), path[..i], inc)
      {
        AddsStep(old(inc), path, i, inc);
        PreIncrementUser(path[i]);
      }
      assert path[..|path|] == path;
    }

    method AddTimes(v: nat, cnt: int) returns (newlyAdd: bool)
      requires cnt > 0
      modifies this`users
      ensures users == old(users)[v := Cnt(old(users), v) + cnt] && newlyAdd == (v !in old(users))
    {
      newlyAdd := false;
      for i := 0 to cnt
        invariant i == 0 ==> users == old(users) && !newlyAdd
        invariant i > 0 ==> users == old(users)[v := Cnt(old(users), v) + i] && newlyAdd == (v !in old(users))
      {
        var b := IncrementUser(v);
        newlyAdd := newlyAdd || b;
      }
    }

    method RemoveTimes(v: nat, cnt: int) returns (erased: bool)
      requires 0 < cnt <= Cnt(users, v)
      modifies this`users
      ensures erased == (Cnt(old(users), v) == cnt)
      ensures users == if erased then old(users) - {v} else old(users)[v := Cnt(old(users), v) - cnt]
    {
      erased := false;
      for i := 0 to cnt
        invariant erased == (i > 0 && Cnt(old(users), v) == i)
        invariant users ==
                  if i == 0 then old(users)
                  else if erased then old(users) - {v}
                  else old(users)[v := Cnt(old(users), v) - i]
      {
        var b := DecrementUser(v);
        erased := erased || b;
      }
    }

    method AddAndMark(v: nat, cnt: int, nodes: Nodes, batch: int) returns (ghost acts: seq<Act>)
      requires cnt > 0 && v < |nodes.occ| == |nodes.stamp|
      modifies this`users, nodes
      ensures users == old(users)[v := Cnt(old(users), v) + cnt]
      ensures OnBoard(old(nodes.View()), acts) && nodes.View() == DoAll(old(nodes.View()), acts, batch)
      ensures Tracks(old(users), users, acts)
    {
      var newlyAdd := AddTimes(v, cnt);
      TracksOne(old(users), users, v);
      acts := [];
      if newlyAdd {
        DoTwo(nodes.View(), Bump(v), Mark(v), batch);
        nodes.IncrementOccupancy(v);
        nodes.SetNeedUpdateBatchStamp(v, batch);
        acts := [Bump(v), Mark(v)];
      }
    }

    method RemoveAndMark(v: nat, cnt: int, nodes: Nodes, batch: int) returns (ghost acts: seq<Act>)
      requires 0 < cnt <= Cnt(users, v) && v < |nodes.occ| == |nodes.stamp|
      modifies this`users, nodes
      ensures users == if Cnt(old(users), v) == cnt then old(users) - {v} else old(users)[v := Cnt(old(users), v) - cnt]
      ensures OnBoard(old(nodes.View()), acts) && nodes.View() == DoAll(old(nodes.View()), acts, batch)
      ensures Tracks(old(users), users, acts)
    {
      var erased := RemoveTimes(v, cnt);
      TracksOne(old(users), users, v);
      acts := [];
      if erased {
        DoTwo(nodes.View(), Drop(v), Mark(v), batch);
        nodes.DecrementOccupancy(v);
        nodes.SetNeedUpdateBatchStamp(v, batch);
        acts := [Drop(v), Mark(v)];
      }
    }

    /**
     Apply the noted increments, in whatever order the table yields them: counts grow by
     exactly the noted amounts, and acts records what happened to the shared nodes.
     */
    method UpdatePreIncrement(nodes: Nodes, batch: int) returns (ghost acts: seq<Act>)
      requires Positive(users, |nodes.occ|) && Positive(inc, |nodes.occ|) && |nodes.occ| == |nodes.stamp|
      modifies this`users, nodes
      ensures Positive(users, |nodes.occ|) && Settles(old(users), inc, map[], users)
      ensures OnBoard(old(nodes.View()), acts) && nodes.View() == DoAll(old(nodes.View()), acts, batch)
      ensures Tracks(old(users), users, acts)
    {
      var todo := inc.Keys;
      acts := [];
      ghost var board := nodes.View();
      while todo != {}
        invariant todo <= inc.Keys && |nodes.occ| == |nodes.stamp| == |board.occ|
        invariant Positive(users, |nodes.occ|)
        invariant forall v: nat :: Cnt(users, v) == Cnt(old(users), v) + (if v in todo then 0 else Cnt(inc, v))
        invariant OnBoard(board, acts) && nodes.View() == DoAll(board, acts, batch)
        invariant Tracks(old(users), users, acts)
      {
        var v :| v in todo;
        ghost var before := users;
        ghost var more := AddAndMark(v, inc[v], nodes, batch);
        DoAllAppend(board, acts, more, batch);
        TracksAppend(old(users), before, users, acts, more);
        acts := acts + more;
        todo := todo - {v};
      }
    }

    /**
     Apply the noted decrements. The program stops, with the commit left unfinished, exactly
     when some decrement is not covered.
     */
    method UpdatePreDecrement(nodes: Nodes, batch: int) returns (ok: bool, ghost acts: seq<Act>)
      requires Positive(users, |nodes.occ|) && Positive(dec, |nodes.occ|) && |nodes.occ| == |nodes.stamp|
      modifies this`users, nodes
      ensures ok <==> Covered(old(users), dec)
      ensures ok ==> Positive(users, |nodes.occ|) && Settles(old(users), map[], dec, users)
      ensures ok ==> OnBoard(old(nodes.View()), acts) && nodes.View() == DoAll(old(nodes.View()), acts, batch)
      ensures ok ==> Tracks(old(users), users, acts)
    {
      var todo := dec.Keys;
      acts, ok := [], true;
      ghost var board := nodes.View();
      while todo != {}
        invariant todo <= dec.Keys && |nodes.occ| == |nodes.stamp| == |board.occ|
        invariant Positive(users, |nodes.occ|)
        invariant forall v: nat :: Cnt(users, v) == Cnt(old(users), v) - (if v in todo then 0 else Cnt(dec, v))
        invariant OnBoard(board, acts) && nodes.View() == DoAll(board, acts, batch)
        invariant Tracks(old(users), users, acts)
      {
        var v :| v in todo;
        if v !in users || dec[v] > users[v] {
          assert Cnt(dec, v) > Cnt(old(users), v);
          ok := false;
          return;
        }
        ghost var before := users;
        ghost var more := RemoveAndMark(v, dec[v], nodes, batch);
        DoAllAppend(board, acts, more, batch);
        TracksAppend(old(users), before, users, acts, more);
        acts := acts + more;
        todo := todo - {v};
      }
      forall v: nat ensures Cnt(dec, v) <= Cnt(old(users), v) {
        assert Cnt(users, v) == Cnt(old(users), v) - Cnt(dec, v);
        assert PositiveAt(users, v);
      }
    }

    /**
     Commit the net: increments first, then decrements. If the counts covered the decrements
     when they were noted, the assertion of the second part cannot fail.
     */
    method Commit(nodes: Nodes, batch: int) returns (ok: bool, ghost acts: seq<Act>)
      requires Positive(users, |nodes.occ|) && Positive(inc, |nodes.occ|) && Positive(dec, |nodes.occ|)
      requires Covered(users, dec) && |nodes.occ| == |nodes.stamp|
      modifies this`users, nodes
      ensures ok && Positive(users, |nodes.occ|) && Settles(old(users), inc, dec, users)
      ensures OnBoard(old(nodes.View()), acts) && nodes.View() == DoAll(old(nodes.View()), acts, batch)
      ensures Tracks(old(users), users, acts)
    {
      ghost var board := nodes.View();
      ghost var first := UpdatePreIncrement(nodes, batch);
      ghost var between := users;
      forall v: nat ensures Cnt(dec, v) <= Cnt(users, v) {
        assert Cnt(users, v) == Cnt(old(users), v) + Cnt(inc, v);
        assert PositiveAt(inc, v);
      }
      ghost var second;
      ok, second := UpdatePreDecrement(nodes, batch);
      DoAllAppend(board, first, second, batch);
      TracksAppend(old(users), between, users, first, second);
      acts := first + second;
      CommitSettles(old(users), between, users, inc, dec);
    }
  }

  lemma CommitSettles(a: Users, b: Users, c: Users, inc: Users, dec: Users)
    requires Settles(a, inc, map[], b) && Settles(b, map[], dec, c)
    ensures Settles(a, inc, dec, c)
  {
    forall v: nat ensures Cnt(c, v) == Cnt(a, v) + Cnt(inc, v) - Cnt(dec, v) {
      assert Cnt(b, v) == Cnt(a, v) + Cnt(inc, v) - Cnt(map[], v);
      assert Cnt(c, v) == Cnt(b, v) + Cnt(map[], v) - Cnt(dec, v);
    }
  }
}
