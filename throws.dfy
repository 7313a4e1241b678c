/** The outcome of one thrown bag and the points it is worth. */
module Throws {

  datatype Throw = Out | Board | Hole {

    /** Points of the throw: its raw value. */
    function Points(): (p: int)
      ensures 0 <= p <= 3 && p != 2
    {
      match this
      case Out => 0
      case Board => 1
      case Hole => 3
    }
  }

  lemma PointValues()
    ensures Out.Points() == 0 && Board.Points() == 1 && Hole.Points() == 3
  {
  }

  /** Distinct throws are worth distinct points. */
  lemma PointsInjective(a: Throw, b: Throw)
    ensures a.Points() == b.Points() <==> a == b
  {
  }

  /** The points of a sequence of throws, summed from the left. */
  function TotalPoints(ts: seq<Throw>): (s: int)
    ensures 0 <= s <= 3 * |ts|
    decreases |ts|
  {
    if ts == [] then 0 else TotalPoints(ts[..|ts| - 1]) + ts[|ts| - 1].Points()
  }

  lemma TotalPointsAppend(ts: seq<Throw>, t: Throw)
    ensures TotalPoints(ts + [t]) == TotalPoints(ts) + t.Points()
  {
    assert (ts + [t])[..|ts|] == ts;
  }

  /** Three points per bag in the hole, one per bag on the board, nothing for the rest. */
  lemma {:induction false} TotalPointsByKind(ts: seq<Throw>)
    ensures TotalPoints(ts) == 3 * multiset(ts)[Hole] + multiset(ts)[Board]
    decreases |ts|
  {
    if ts != [] {
      var init, last := ts[..|ts| - 1], ts[|ts| - 1];
      TotalPointsByKind(init);
      assert ts == init + [last];
      assert multiset(ts) == multiset(init) + multiset{last};
    }
  }

  /** The total does not depend on the order in which the bags were thrown. */
  lemma TotalPointsOrderFree(ts: seq<Throw>, us: seq<Throw>)
    requires multiset(ts) == multiset(us)
    ensures TotalPoints(ts) == TotalPoints(us)
  {
    TotalPointsByKind(ts);
    TotalPointsByKind(us);
  }

  /** The total of four throws, a full round for one team. */
  lemma TotalPointsOfFour(a: Throw, b: Throw, c: Throw, d: Throw)
    ensures TotalPoints([a, b, c, d]) == a.Points() + b.Points() + c.Points() + d.Points()
  {
    TotalPointsAppend([], a);
    assert [] + [a] == [a];
    TotalPointsAppend([a], b);
    assert [a] + [b] == [a, b];
    TotalPointsAppend([a, b], c);
    assert [a, b] + [c] == [a, b, c];
    TotalPointsAppend([a, b, c], d);
    assert [a, b, c] + [d] == [a, b, c, d];
  }
}
