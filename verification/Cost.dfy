/** The cost of entering a node: aStarRoute::getNodeCost and its use in the search (src/route/aStarRoute.cpp). */
module Cost {

  /** Per-node figures that the cost of a node depends on. */
  datatype Figures = Figures(base: real, historical: real, present: real, occ: int, length: int)

  /** The net's uses of the node now and at the last barrier, and the thread's pending occupancy change. */
  datatype NetUse = NetUse(count: int, countOrigin: int, occChange: int)

  function SharingFactor(count: int): real { 1.0 + count as real }

  /** Occupancy beyond capacity as seen by a net that uses the node. */
  function OverOccupancy(f: Figures, u: NetUse): int {
    var preDec := if u.countOrigin > 0 && u.count == 0 then 1 else 0;
    var preInc := if u.countOrigin == 0 && u.count > 0 then 1 else 0;
    f.occ - preDec + preInc + u.occChange - 1
  }

  function PresentPart(f: Figures, u: NetUse, factor: real): real {
    if u.count != 0 then 1.0 + OverOccupancy(f, u) as real * factor else f.present
  }

  function NodeCost(f: Figures, u: NetUse, factor: real, bias: real): real
    requires u.count >= 0
  {
    f.base * f.historical * PresentPart(f, u, factor) / SharingFactor(u.count) + bias
  }

  /** What the search adds to the path cost for entering the node. */
  function StepCost(f: Figures, u: NetUse, factor: real, bias: real): real
    requires u.count >= 0
  {
    NodeCost(f, u, factor, bias) + 0.2 * f.length as real / SharingFactor(u.count)
  }

  function Abs(x: real): real { if x < 0.0 then -x else x }

  /** The pull towards the net's centre. */
  function BiasCost(base: real, connections: nat, dx: real, dy: real, doubleHpwl: real): real
    requires connections > 0 && doubleHpwl > 0.0
  {
    base / connections as real * (Abs(dx) + Abs(dy)) / doubleHpwl
  }

  lemma ProductNonNegative(a: real, b: real)
    requires a >= 0.0 && b >= 0.0
    ensures a * b >= 0.0
  {
  }

  lemma QuotientNonNegative(a: real, b: real)
    requires a >= 0.0 && b > 0.0
    ensures a / b >= 0.0
  {
  }

  lemma BiasNonNegative(base: real, connections: nat, dx: real, dy: real, doubleHpwl: real)
    requires connections > 0 && doubleHpwl > 0.0 && base >= 0.0
    ensures BiasCost(base, connections, dx, dy, doubleHpwl) >= 0.0
  {
    QuotientNonNegative(base, connections as real);
    ProductNonNegative(base / connections as real, Abs(dx) + Abs(dy));
    QuotientNonNegative(base / connections as real * (Abs(dx) + Abs(dy)), doubleHpwl);
  }

  /** The search's assertion that node costs are not negative: it needs no pending overdraft. */
  lemma NodeCostNonNegative(f: Figures, u: NetUse, factor: real, bias: real)
    requires u.count >= 0 && f.base >= 0.0 && f.historical >= 0.0 && f.present >= 0.0 && factor >= 0.0 && bias >= 0.0
    requires u.count != 0 ==> OverOccupancy(f, u) >= 0
    ensures NodeCost(f, u, factor, bias) >= 0.0
  {
    if u.count != 0 { ProductNonNegative(OverOccupancy(f, u) as real, factor); }
    ProductNonNegative(f.base, f.historical);
    ProductNonNegative(f.base * f.historical, PresentPart(f, u, factor));
    QuotientNonNegative(f.base * f.historical * PresentPart(f, u, factor), SharingFactor(u.count));
  }
}
