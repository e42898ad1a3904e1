/**
 The books that one net keeps with the routing nodes: the net's user counts
 (Net::incrementUser and Net::decrementUser, src/db/connection.h), the nodes' occupancy and
 the cached present congestion cost (src/db/routeNode.h). A count is the map's entry, or 0.
 */
module Ledger {
  import opened Counting

  type Users = map<nat, int>

  function Cnt(m: Users, v: nat): int { if v in m then m[v] else 0 }

  /** The count table after one more user, and whether the node is new in it. */
  function IncUser(m: Users, v: nat): (Users, bool) {
    if v !in m then (m[v := 1], true) else (m[v := m[v] + 1], false)
  }

  /** The count table after one user less, and whether the node left it; a missing node counts from 0. */
  function DecUser(m: Users, v: nat): (Users, bool) {
    var k := Cnt(m, v) - 1;
    if k == 0 then (m - {v}, true) else (m[v := k], false)
  }

  /** What updatePresentCongestionCost stores. */
  function PresentCost(occ: int, factor: real): real {
    if occ < 1 then 1.0 else 1.0 + occ as real * factor
  }

  /** One net's counts with the occupancy and present cost of all nodes. */
  datatype Books = Books(users: Users, occ: seq<int>, present: seq<real>)

  predicate Sized(b: Books, n: nat) { |b.occ| == |b.present| == n }

  function Inc(b: Books, v: nat, factor: real): Books
    requires v < |b.occ| == |b.present|
  {
    var (m, newlyAdd) := IncUser(b.users, v);
    var o := if newlyAdd then b.occ[v] + 1 else b.occ[v];
    Books(m, b.occ[v := o], b.present[v := PresentCost(o, factor)])
  }

  function Dec(b: Books, v: nat, factor: real): Books
    requires v < |b.occ| == |b.present|
  {
    var (m, erased) := DecUser(b.users, v);
    var o := if erased then b.occ[v] - 1 else b.occ[v];
    Books(m, b.occ[v := o], b.present[v := PresentCost(o, factor)])
  }

  predicate InNodes(nodes: seq<nat>, n: nat) { forall i :: 0 <= i < |nodes| ==> nodes[i] < n }

  function IncAll(b: Books, nodes: seq<nat>, factor: real): (r: Books)
    requires Sized(b, |b.occ|) && InNodes(nodes, |b.occ|)
    ensures Sized(r, |b.occ|)
  {
    if |nodes| == 0 then b else Inc(IncAll(b, nodes[..|nodes| - 1], factor), nodes[|nodes| - 1], factor)
  }

  function DecAll(b: Books, nodes: seq<nat>, factor: real): (r: Books)
    requires Sized(b, |b.occ|) && InNodes(nodes, |b.occ|)
    ensures Sized(r, |b.occ|)
  {
    if |nodes| == 0 then b else Dec(DecAll(b, nodes[..|nodes| - 1], factor), nodes[|nodes| - 1], factor)
  }

  /** The entry of v, if any, is positive, so that v is in the table exactly when its count is. */
  predicate PositiveAt(m: Users, v: nat) { v in m ==> m[v] > 0 }

  /** Counting a path in changes every count by its occurrences, whatever the table held. */
  lemma {:induction false} IncAllCounts(b: Books, nodes: seq<nat>, factor: real, v: nat)
    requires Sized(b, |b.occ|) && InNodes(nodes, |b.occ|)
    ensures Cnt(IncAll(b, nodes, factor).users, v) == Cnt(b.users, v) + Count(nodes, v)
  {
    if |nodes| > 0 { IncAllCounts(b, nodes[..|nodes| - 1], factor, v); }
  }

  lemma {:induction false} DecAllCounts(b: Books, nodes: seq<nat>, factor: real, v: nat)
    requires Sized(b, |b.occ|) && InNodes(nodes, |b.occ|)
    ensures Cnt(DecAll(b, nodes, factor).users, v) == Cnt(b.users, v) - Count(nodes, v)
  {
    if |nodes| > 0 { DecAllCounts(b, nodes[..|nodes| - 1], factor, v); }
  }

  lemma IncCounts(b: Books, u: nat, factor: real, v: nat)
    requires u < |b.occ| == |b.present|
    ensures Cnt(Inc(b, u, factor).users, v) == Cnt(b.users, v) + (if u == v then 1 else 0)
    ensures v in Inc(b, u, factor).users <==> v in b.users || v == u
  {
  }

  function Member(m: Users, v: nat): int { if v in m then 1 else 0 }

  /** From b to r, the occupancy of v follows its membership, and its cost, if touched, its occupancy. */
  predicate FollowsAt(b: Books, r: Books, touched: seq<nat>, factor: real, v: nat)
    requires v < |b.occ| == |b.present| == |r.occ| == |r.present|
  {
    && r.occ[v] - Member(r.users, v) == b.occ[v] - Member(b.users, v)
    && r.present[v] == (if v in touched then PresentCost(r.occ[v], factor) else b.present[v])
    && (v !in touched ==> r.occ[v] == b.occ[v])
  }

  /** At a node with a positive count, or none, adding a path keeps occupancy and cost in step. */
  lemma {:induction false} IncAllFollows(b: Books, nodes: seq<nat>, factor: real, v: nat)
    requires Sized(b, |b.occ|) && InNodes(nodes, |b.occ|) && v < |b.occ| && PositiveAt(b.users, v)
    ensures PositiveAt(IncAll(b, nodes, factor).users, v)
    ensures FollowsAt(b, IncAll(b, nodes, factor), nodes, factor, v)
  {
    if |nodes| > 0 {
      var front := nodes[..|nodes| - 1];
      assert nodes == front + [nodes[|nodes| - 1]];
      IncAllFollows(b, front, factor, v);
    }
  }

  /** The same for removal, as long as the count of the node does not drop below zero. */
  lemma {:induction false} DecAllFollows(b: Books, nodes: seq<nat>, factor: real, v: nat)
    requires Sized(b, |b.occ|) && InNodes(nodes, |b.occ|) && v < |b.occ| && PositiveAt(b.users, v)
    requires Count(nodes, v) <= Cnt(b.users, v)
    ensures PositiveAt(DecAll(b, nodes, factor).users, v)
    ensures FollowsAt(b, DecAll(b, nodes, factor), nodes, factor, v)
  {
    if |nodes| > 0 {
      var front, last := nodes[..|nodes| - 1], nodes[|nodes| - 1];
      assert nodes == front + [last];
      DecAllFollows(b, front, factor, v);
      DecAllCounts(b, front, factor, v);
    }
  }

  /** Every cost is the cached image of its occupancy. */
  ghost predicate CostsFollow(b: Books, factor: real) {
    |b.occ| == |b.present| && forall v :: 0 <= v < |b.occ| ==> b.present[v] == PresentCost(b.occ[v], factor)
  }

  /** Whatever the counts do, adding and removing keep every cost in step with its occupancy. */
  lemma {:induction false} CostsStay(b: Books, nodes: seq<nat>, factor: real)
    requires CostsFollow(b, factor) && InNodes(nodes, |b.occ|)
    ensures CostsFollow(IncAll(b, nodes, factor), factor) && CostsFollow(DecAll(b, nodes, factor), factor)
  {
    if |nodes| > 0 { CostsStay(b, nodes[..|nodes| - 1], factor); }
  }

  lemma AllInPlace(b: Books, nodes: seq<nat>, i: nat, factor: real)
    requires Sized(b, |b.occ|) && InNodes(nodes, |b.occ|) && i < |nodes|
    ensures IncAll(b, nodes[..i + 1], factor) == Inc(IncAll(b, nodes[..i], factor), nodes[i], factor)
    ensures DecAll(b, nodes[..i + 1], factor) == Dec(DecAll(b, nodes[..i], factor), nodes[i], factor)
  {
    assert nodes[..i + 1][..i] == nodes[..i];
  }
}
