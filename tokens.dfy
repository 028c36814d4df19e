/**
 * The constant direction tables of the six piece kinds. Each entry is an
 * (x, y) offset, x the row delta and y the column delta; the tables are
 * ordered and their order is kept.
 */
module Tokens {
  import opened PieceTypes

  function Abs(n: int): nat { if n < 0 then -n else n }

  predicate Distinct(s: Directions) {
    forall i, j :: 0 <= i < j < |s| ==> s[i] != s[j]
  }

  /** `s` with every occurrence of `e` removed, the remaining order kept. */
  function Without(s: Directions, e: Coordinates): (r: Directions)
    ensures e !in r
    ensures forall d :: d in r <==> d in s && d != e
    ensures |r| <= |s|
  {
    if s == [] then []
    else if s[0] == e then Without(s[1..], e)
    else [s[0]] + Without(s[1..], e)
  }

  // The tables, in the order the source lists them. Their properties are
  // stated by the lemmas below rather than as postconditions, so that a
  // proof that only moves tables around does not have to carry them.

  function BishopDirections(): Directions {
    [Coordinates(1, 1), Coordinates(1, -1), Coordinates(-1, 1), Coordinates(-1, -1)]
  }

  function KingDirections(): Directions {
    [Coordinates(0, 1), Coordinates(0, -1), Coordinates(1, 0), Coordinates(1, -1),
     Coordinates(1, 1), Coordinates(-1, 0), Coordinates(-1, 1), Coordinates(-1, -1)]
  }

  function KnightDirections(): Directions {
    [Coordinates(1, 2), Coordinates(1, -2), Coordinates(-1, 2), Coordinates(-1, -2),
     Coordinates(2, 1), Coordinates(2, -1), Coordinates(-2, 1), Coordinates(-2, -1)]
  }

  function PawnDirections(): Directions {
    [Coordinates(1, 0), Coordinates(2, 0), Coordinates(1, 1), Coordinates(1, -1)]
  }

  /** The double step (2, 0). */
  const PawnDoubleStep := Coordinates(2, 0)

  function PawnDirectionsRestricted(): Directions {
    [Coordinates(1, 0), Coordinates(1, 1), Coordinates(1, -1)]
  }

  function QueenDirections(): Directions {
    [Coordinates(0, 1), Coordinates(0, -1), Coordinates(1, 0), Coordinates(1, -1),
     Coordinates(1, 1), Coordinates(-1, 0), Coordinates(-1, 1), Coordinates(-1, -1)]
  }

  function RookDirections(): Directions {
    [Coordinates(1, 0), Coordinates(-1, 0), Coordinates(0, 1), Coordinates(0, -1)]
  }

  /** The bishop's table: the four diagonal unit steps, distinct, and no others. */
  lemma BishopShape()
    ensures |BishopDirections()| == 4 && Distinct(BishopDirections())
    ensures forall d :: d in BishopDirections() <==> Abs(d.x) == 1 && Abs(d.y) == 1
  {
  }

  /** The king's table: the eight offsets to the neighbouring squares, distinct, and no others. */
  lemma KingShape()
    ensures |KingDirections()| == 8 && Distinct(KingDirections())
    ensures forall d :: d in KingDirections() <==>
      d != Coordinates(0, 0) && Abs(d.x) <= 1 && Abs(d.y) <= 1
  {
  }

  /** The knight's table: eight distinct jumps, one coordinate of size 1 and the other of size 2. */
  lemma KnightShape()
    ensures |KnightDirections()| == 8 && Distinct(KnightDirections())
    ensures forall d :: d in KnightDirections() <==>
      (Abs(d.x) == 1 && Abs(d.y) == 2) || (Abs(d.x) == 2 && Abs(d.y) == 1)
  {
  }

  /**
   * The unmoved pawn's table: every entry advances (x > 0) by at most one
   * column, and the column stays the same exactly for the first two
   * entries, the single step and the double step.
   */
  lemma PawnShape()
    ensures |PawnDirections()| == 4 && Distinct(PawnDirections())
    ensures forall i :: 0 <= i < 4 ==> PawnDirections()[i].x > 0 && Abs(PawnDirections()[i].y) <= 1
    ensures forall i :: 0 <= i < 4 ==> (PawnDirections()[i].y == 0 <==> i < 2)
    ensures PawnDirections()[1] == PawnDoubleStep
  {
  }

  /** The moved pawn's table is the unmoved one with the double step taken out, order kept. */
  lemma RestrictedShape()
    ensures PawnDirectionsRestricted() == Without(PawnDirections(), PawnDoubleStep)
    ensures PawnDirectionsRestricted() == PawnDirections()[..1] + PawnDirections()[2..]
    ensures |PawnDirectionsRestricted()| == 3
    ensures forall i :: 0 <= i < 3 ==> PawnDirectionsRestricted()[i].x == 1
  {
  }

  /** The rook's table: the four orthogonal unit steps, distinct, and no others. */
  lemma RookShape()
    ensures |RookDirections()| == 4 && Distinct(RookDirections())
    ensures forall d :: d in RookDirections() <==> Abs(d.x) + Abs(d.y) == 1
  {
  }

  function Elements(s: Directions): set<Coordinates> {
    set d | d in s
  }

  /** The queen and the king share one table, and as sets it is rook plus bishop. */
  lemma QueenIsRookAndBishop()
    ensures QueenDirections() == KingDirections()
    ensures Elements(KingDirections()) == Elements(RookDirections()) + Elements(BishopDirections())
  {
    KingShape();
    RookShape();
    BishopShape();
  }

  /** No table holds the null offset (0, 0). */
  lemma NoNullOffset()
    ensures Coordinates(0, 0) !in BishopDirections()
    ensures Coordinates(0, 0) !in KingDirections()
    ensures Coordinates(0, 0) !in KnightDirections()
    ensures Coordinates(0, 0) !in PawnDirections()
    ensures Coordinates(0, 0) !in PawnDirectionsRestricted()
    ensures Coordinates(0, 0) !in QueenDirections()
    ensures Coordinates(0, 0) !in RookDirections()
  {
    KingShape();
    RookShape();
    BishopShape();
    KnightShape();
  }
}
