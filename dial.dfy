/**
 * The dial's index arithmetic: moving one position forward or back over the
 * `modes` array with C#'s remainder operator, and what a run of scrolls does
 * to the position.
 */
module Dial {
  import opened Modes

  /** The number of dial positions, `modes.Length`. */
  const Positions: nat := |ModeNames|

  /** C#'s integer `/` for a positive divisor: the quotient truncated toward zero. */
  function CsQuot(a: int, n: nat): int
    requires n > 0
  {
    if a >= 0 then a / n else -((-a) / n)
  }

  /**
   * C#'s `%` for a positive divisor, which the language defines as
   * `a - (a / n) * n`: its sign is that of the dividend.
   */
  function CsRem(a: int, n: nat): (r: int)
    requires n > 0
    ensures r == a - CsQuot(a, n) * n
    ensures a >= 0 ==> 0 <= r < n
    ensures a < 0 ==> -(n as int) < r <= 0
  {
    if a >= 0 then a % n else -((-a) % n)
  }

  /** The position after scrolling up: `(i + 1) % modes.Length`. */
  function Next(i: int): (j: int)
    ensures 0 <= i < Positions ==> j == if i == Positions - 1 then 0 else i + 1
  {
    CsRem(i + 1, Positions)
  }

  /** The position after scrolling down: `(i - 1 + modes.Length) % modes.Length`. */
  function Prev(i: int): (j: int)
    ensures 0 <= i < Positions ==> j == if i == 0 then Positions - 1 else i - 1
  {
    CsRem(i - 1 + Positions, Positions)
  }

  /** One step up undoes one step down and the other way round. */
  lemma NextPrevInverse(i: int)
    requires 0 <= i < Positions
    ensures Prev(Next(i)) == i && Next(Prev(i)) == i
  {
  }

  /** The direction of a scroll: +1 up, -1 down, 0 for no vertical movement. */
  function Sign(delta: real): (r: int)
    ensures -1 <= r <= 1
    ensures r > 0 <==> delta > 0.0
    ensures r < 0 <==> delta < 0.0
  {
    if delta > 0.0 then 1 else if delta < 0.0 then -1 else 0
  }

  /**
   * The index update of a scroll with vertical delta `delta`: a position in
   * range moves by the scroll's direction, modulo the number of positions.
   */
  function StepIndex(i: int, delta: real): (j: int)
    ensures 0 <= i < Positions ==> 0 <= j < Positions && j == (i + Sign(delta)) % Positions
    ensures delta == 0.0 ==> j == i
  {
    if delta > 0.0 then Next(i)
    else if delta < 0.0 then Prev(i)
    else i
  }

  /** The position after the index updates of the scrolls `deltas`, in order. */
  function Turn(i: int, deltas: seq<real>): int
    decreases |deltas|
  {
    if deltas == [] then i else Turn(StepIndex(i, deltas[0]), deltas[1..])
  }

  /** The number of scrolls up minus the number of scrolls down. */
  function Net(deltas: seq<real>): int
    decreases |deltas|
  {
    if deltas == [] then 0 else Sign(deltas[0]) + Net(deltas[1..])
  }

  /** The dial position depends only on the net count of scrolls up over scrolls down. */
  lemma {:induction false} TurnIsNet(i: int, deltas: seq<real>)
    requires 0 <= i < Positions
    ensures Turn(i, deltas) == (i + Net(deltas)) % Positions
    decreases |deltas|
  {
    if deltas != [] {
      var j := StepIndex(i, deltas[0]);
      TurnIsNet(j, deltas[1..]);
      var s, rest := Sign(deltas[0]), Net(deltas[1..]);
      assert j == i + s || j == i + s - Positions || j == i + s + Positions;
    }
  }

  /** As many scrolls up as down leave the dial where it was, in any order. */
  lemma BalancedTurnReturns(i: int, deltas: seq<real>)
    requires 0 <= i < Positions
    requires Net(deltas) == 0
    ensures Turn(i, deltas) == i
  {
    TurnIsNet(i, deltas);
  }

  /** A full circle of five scrolls in one direction returns to the start. */
  lemma FullCircle(i: int, d: real)
    requires 0 <= i < Positions && d != 0.0
    ensures Turn(i, [d, d, d, d, d]) == i
  {
    var ds := [d, d, d, d, d];
    assert Net([d]) == Sign(d);
    assert [d, d][1..] == [d];
    assert Net([d, d]) == 2 * Sign(d);
    assert [d, d, d][1..] == [d, d];
    assert Net([d, d, d]) == 3 * Sign(d);
    assert [d, d, d, d][1..] == [d, d, d];
    assert Net([d, d, d, d]) == 4 * Sign(d);
    assert ds[1..] == [d, d, d, d];
    TurnIsNet(i, ds);
  }
}
