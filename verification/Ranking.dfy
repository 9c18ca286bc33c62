/**
 * Who outranks whom, in the words of the allocator's design (sampark/allocator/scoring.py, greedy.py):
 * expected net recovery plus a bonus for every window already waited; then the larger amount, the
 * earlier detection, the smaller risk identifier and the smaller agent.  In arrival-order mode only
 * detection and the identifiers count.
 */
module Ranking {
  import opened Allocator

  /** What a candidate is worth in the ranking: aging raises it by the bonus for each deferral. */
  ghost function Standing(bonusPaise: int, x: Scored): real {
    x.0 + bonusPaise as real * x.1.windowsDeferred as real
  }

  /** x was detected first or, of two detected together, has the smaller identifiers. */
  ghost predicate CameFirst(x: Scored, y: Scored) {
    var a, b := x.1, y.1;
    && a.item.detectedAt <= b.item.detectedAt
    && (a.item.detectedAt == b.item.detectedAt ==> a.item.riskId <= b.item.riskId)
    && (a.item.detectedAt == b.item.detectedAt && a.item.riskId == b.item.riskId ==>
        a.request.agentId <= b.request.agentId)
  }

  /** x stands at least as high as y, by the larger amount if they stand level, and then as first come. */
  ghost predicate StandsHigher(bonusPaise: int, x: Scored, y: Scored) {
    var p, q := Standing(bonusPaise, x), Standing(bonusPaise, y);
    && p >= q
    && (p == q ==> x.1.item.amountPaise >= y.1.item.amountPaise)
    && (p == q && x.1.item.amountPaise == y.1.item.amountPaise ==> CameFirst(x, y))
  }

  ghost predicate Outranks(s: Setup, x: Scored, y: Scored) {
    if s.fifoMode then CameFirst(x, y) else StandsHigher(s.agingBonusPaise, x, y)
  }

  /** The order the allocator sorts by is this one. */
  lemma RanksAsPromised(s: Setup, x: Scored, y: Scored)
    ensures RankOrder(s)(x, y) <==> Outranks(s, x, y)
  {
    assert (s.agingBonusPaise * x.1.windowsDeferred) as real == s.agingBonusPaise as real * x.1.windowsDeferred as real;
    assert (s.agingBonusPaise * y.1.windowsDeferred) as real == s.agingBonusPaise as real * y.1.windowsDeferred as real;
  }

  /** Waiting counts: a day more is worth exactly the bonus. */
  lemma WaitingCounts(bonusPaise: int, x: Scored, older: Scored)
    requires older == (x.0, x.1.(windowsDeferred := x.1.windowsDeferred + 1))
    ensures Standing(bonusPaise, older) == Standing(bonusPaise, x) + bonusPaise as real
  {
    var n := x.1.windowsDeferred as real;
    assert bonusPaise as real * (n + 1.0) == bonusPaise as real * n + bonusPaise as real;
  }
}
