/**
 Iterations whose searches had unused stamps (src/route/aStarRoute.cpp, lines 95-107 and
 476-720): whether a search fails, and where its path may lead, is then decided by the graph
 and the books alone.
 */
module Answered {
  import opened Counting
  import opened Geometry
  import opened RoutingGraph
  import opened Search
  import opened Congestion
  import opened Convergence
  import opened Exclusive
  import opened Site

  /** The answer of a search that had an unused stamp and was not stopped. */
  ghost predicate IsAnswer(q: Query, answer: seq<nat>)
    requires q.c.sink < |q.g|
  {
    if SinkConnected(q.g, q.c, q.counts) then AccessiblePath(q, answer) else answer == []
  }

  ghost predicate Fitted(site: Site, s: State) { Shaped(site.D(), s) && |site.boxes| == |site.conns| }

  /** If the visit reroutes its connection, then with the answer of such a search. */
  ghost predicate VisitAnswered(site: Site, s: State, c: nat, answer: seq<nat>)
    requires Fitted(site, s) && c < |site.conns|
  {
    ShouldRoute(site.D(), s, c) ==> IsAnswer(PlainQuery(site, RipUp(site.D(), s, c), c), answer)
  }

  ghost predicate IterationAnswered(site: Site, s: State, order: seq<nat>, answers: seq<seq<nat>>)
    requires Fitted(site, s) && Visits(site.D(), order, answers)
  {
    if |order| == 0 then true
    else
      var last := |order| - 1;
      && IterationAnswered(site, s, order[..last], answers[..last])
      && VisitAnswered(site, Iteration(site.D(), s, order[..last], answers[..last]), order[last], answers[last])
  }

  // Stored paths

  /** A simple path along child edges from sink to source, with its inner nodes inside the box. */
  predicate JoinedPath(g: Graph, c: Terminal, path: seq<nat>) {
    && |path| >= 2 && path[0] == c.sink && path[|path| - 1] == c.source && NoRepeat(path)
    && (forall i :: 0 <= i < |path| ==> path[i] < |g|)
    && (forall i :: 0 <= i < |path| - 1 ==> Edge(g, path[i + 1], path[i]))
    && (forall i :: 1 <= i < |path| - 1 ==> InBox(g, c, path[i]))
  }

  /** A failed search, or a path that joins the connection's ends. */
  predicate JoinsOrFails(site: Site, c: nat, path: seq<nat>)
    requires c < |site.conns| == |site.boxes|
  {
    path == [] || JoinedPath(site.g, site.Term(c), path)
  }

  /** Every stored path joins the ends of its connection. */
  ghost predicate AllJoined(g: Graph, conns: seq<Conn>, boxes: seq<Box>, paths: seq<seq<nat>>) {
    && |paths| == |conns| == |boxes|
    && forall c: nat :: c < |conns| ==>
         paths[c] == [] || JoinedPath(g, Terminal(conns[c].source, conns[c].sink, boxes[c]), paths[c])
  }

  ghost predicate Joined(site: Site, s: State) { Fitted(site, s) && AllJoined(site.g, site.conns, site.boxes, s.paths) }

  /** Whatever the table held, a search stores such a path or none. */
  lemma AnswerJoins(site: Site, q: Query, c: nat, table: seq<NodeInfo>, outcome: Outcome, path: seq<nat>)
    requires ValidDesign(site.D()) && c < |site.conns| == |site.boxes| && q.g == site.g && q.c == site.Term(c)
    requires |table| == |q.g|
    requires Answers(site, q, c, table, outcome, path)
    ensures JoinsOrFails(site, c, path)
  {
  }

  lemma FreshAnswer(site: Site, q: Query, c: nat, table: seq<NodeInfo>, outcome: Outcome, path: seq<nat>)
    requires ValidDesign(site.D()) && c < |site.conns| && |table| == |q.g| && q.c.sink < |q.g|
    requires Fresh(q, table) && Answers(site, q, c, table, outcome, path) && !outcome.Stopped?
    ensures IsAnswer(q, path)
  {
    FreshConclusion(q, table, outcome, path);
  }

  /** Such an answer enters a PINFEED_I node only if the net counts it already. */
  lemma AnswerRespectsPins(site: Site, s: State, c: nat, answer: seq<nat>)
    requires Fitted(site, s) && c < |site.conns| && ShouldRoute(site.D(), s, c)
    requires VisitAnswered(site, s, c, answer)
    ensures VisitRespectsPins(site.D(), s, c, answer)
  {
    var q := PlainQuery(site, RipUp(site.D(), s, c), c);
    if SinkConnected(q.g, q.c, q.counts) { AccessibleRespectsPins(q, site.D(), c, answer); }
  }

  lemma AccessibleRespectsPins(q: Query, d: Design, c: nat, path: seq<nat>)
    requires ValidDesign(d) && c < |d.conns| && d.nodes == |q.g| && d.pinfeed == Pinfeeds(q.g)
    requires q.c.source == d.conns[c].source && q.c.sink == d.conns[c].sink && AccessiblePath(q, path)
    ensures RespectsPins(d, q.counts, c, path)
  {
    forall v | v in path
      ensures v < d.nodes && (v == d.conns[c].source || v == d.conns[c].sink || !d.pinfeed[v] || v in q.counts)
    {
      var i :| 0 <= i < |path| && path[i] == v;
      if 1 <= i < |path| - 1 { assert Accessible(q, path[i]); }
    }
  }

  /** An iteration of such searches respects pins. */
  lemma {:induction false} AnsweredRespectsPins(site: Site, s: State, order: seq<nat>, answers: seq<seq<nat>>)
    requires Fitted(site, s) && Visits(site.D(), order, answers)
    requires IterationAnswered(site, s, order, answers)
    ensures IterationRespectsPins(site.D(), s, order, answers)
  {
    if |order| > 0 {
      var last := |order| - 1;
      AnsweredRespectsPins(site, s, order[..last], answers[..last]);
      var t := Iteration(site.D(), s, order[..last], answers[..last]);
      if ShouldRoute(site.D(), t, order[last]) { AnswerRespectsPins(site, t, order[last], answers[last]); }
    }
  }

  /** The last visit is answered like the ones before it. */
  lemma AnswerMore(site: Site, s: State, order: seq<nat>, answers: seq<seq<nat>>, front: seq<nat>,
                   before: seq<seq<nat>>)
    requires Fitted(site, s) && Visits(site.D(), order, answers) && |order| > 0
    requires front == order[..|order| - 1] && before == answers[..|order| - 1]
    requires IterationAnswered(site, s, front, before)
    requires VisitAnswered(site, Iteration(site.D(), s, front, before), order[|order| - 1], answers[|order| - 1])
    ensures IterationAnswered(site, s, order, answers)
  {
  }
}
