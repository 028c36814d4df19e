/**
 * The piece classes: an abstract base holding the colour, the direction
 * table and the FEN character, and six concrete kinds. The class hierarchy
 * is replaced by a `Kind` tag on a single `Piece` class; what each concrete
 * class chooses (its FEN character, its table, whether it has a `moved`
 * flag) is a function of the tag.
 */
module Pieces {
  import opened PieceTypes
  import opened Tokens

  datatype Kind = Pawn | Knight | Bishop | Rook | Queen | King

  /** Only King, Rook and Pawn declare a `moved` getter and setter. */
  predicate HasMovedFlag(kind: Kind) {
    kind == Pawn || kind == Rook || kind == King
  }

  /** The kind a FEN character names. */
  function KindOf(f: FENCharacter): Kind {
    match f
    case BlackBishop | WhiteBishop => Bishop
    case BlackKing | WhiteKing => King
    case BlackKnight | WhiteKnight => Knight
    case BlackPawn | WhitePawn => Pawn
    case BlackQueen | WhiteQueen => Queen
    case BlackRook | WhiteRook => Rook
  }

  /**
   * The FEN character each concrete constructor assigns: the Black member
   * for a Black piece, the White member otherwise. It names the piece's own
   * kind and colour back, so no two (kind, colour) pairs share a character.
   */
  function FenOf(kind: Kind, color: Color): (f: FENCharacter)
    ensures KindOf(f) == kind
    ensures ColorOf(f) == color
  {
    match color
    case Black => (
      match kind
      case Pawn => BlackPawn
      case Knight => BlackKnight
      case Bishop => BlackBishop
      case Rook => BlackRook
      case Queen => BlackQueen
      case King => BlackKing)
    case White => (
      match kind
      case Pawn => WhitePawn
      case Knight => WhiteKnight
      case Bishop => WhiteBishop
      case Rook => WhiteRook
      case Queen => WhiteQueen
      case King => WhiteKing)
  }

  /** Every FEN character is the one some (kind, colour) pair is given. */
  lemma FenOfOnto(f: FENCharacter)
    ensures FenOf(KindOf(f), ColorOf(f)) == f
  {
  }

  /** A White piece's letter is the upper case of the Black piece's letter of the same kind. */
  lemma WhiteLetterIsUpperOfBlack(kind: Kind)
    ensures IsLower(Letter(FenOf(kind, Black)))
    ensures Letter(FenOf(kind, White)) == UpperCase(Letter(FenOf(kind, Black)))
  {
  }

  /** The letters of bishop, king, knight, pawn, queen and rook, in that order, for each colour. */
  lemma LettersByKind()
    ensures [Letter(FenOf(Bishop, Black)), Letter(FenOf(King, Black)), Letter(FenOf(Knight, Black)),
             Letter(FenOf(Pawn, Black)), Letter(FenOf(Queen, Black)), Letter(FenOf(Rook, Black))]
         == "bknpqr"
    ensures [Letter(FenOf(Bishop, White)), Letter(FenOf(King, White)), Letter(FenOf(Knight, White)),
             Letter(FenOf(Pawn, White)), Letter(FenOf(Queen, White)), Letter(FenOf(Rook, White))]
         == "BKNPQR"
  {
  }

  /** The table field initialiser of each concrete class. */
  function KindDirections(kind: Kind): Directions {
    match kind
    case Pawn => PawnDirections()
    case Knight => KnightDirections()
    case Bishop => BishopDirections()
    case Rook => RookDirections()
    case Queen => QueenDirections()
    case King => KingDirections()
  }

  /** One offset reflected across the column axis: x negated, y kept. */
  function Flip(d: Coordinates): Coordinates {
    Coordinates(-1 * d.x, d.y)
  }

  /** `setDirectionsBlack`'s map over the table: every entry flipped, same length and order. */
  function Mirror(ds: Directions): (r: Directions)
    ensures |r| == |ds|
    ensures forall i :: 0 <= i < |ds| ==> r[i].x == -ds[i].x && r[i].y == ds[i].y
  {
    if ds == [] then [] else [Flip(ds[0])] + Mirror(ds[1..])
  }

  /** Mirroring twice gives the table back. */
  lemma {:induction false} MirrorInvolution(ds: Directions)
    ensures Mirror(Mirror(ds)) == ds
  {
    if ds != [] {
      MirrorInvolution(ds[1..]);
      assert Mirror(ds)[1..] == Mirror(ds[1..]);
    }
  }

  /** Removing an entry and mirroring commute, once the removed entry is mirrored too. */
  lemma {:induction false} MirrorWithout(ds: Directions, e: Coordinates)
    ensures Mirror(Without(ds, e)) == Without(Mirror(ds), Flip(e))
  {
    if ds != [] {
      MirrorWithout(ds[1..], e);
      assert Mirror(ds) == [Flip(ds[0])] + Mirror(ds[1..]);
      if ds[0] == e {
      } else {
        assert Flip(ds[0]) != Flip(e);
        assert Mirror([ds[0]] + Without(ds[1..], e)) == [Flip(ds[0])] + Mirror(Without(ds[1..], e));
      }
    }
  }

  /** The table a piece holds once constructed. Black pawns get the mirrored table. */
  function InitialDirections(kind: Kind, color: Color): Directions {
    if kind == Pawn && color == Black then Mirror(PawnDirections()) else KindDirections(kind)
  }

  /** The table a pawn holds after its `moved` setter ran. */
  function RestrictedDirections(color: Color): Directions {
    if color == Black then Mirror(PawnDirectionsRestricted()) else PawnDirectionsRestricted()
  }

  /** The double step as seen from a pawn of colour `color`. */
  function DoubleStep(color: Color): Coordinates {
    if color == Black then Flip(PawnDoubleStep) else PawnDoubleStep
  }

  /** Every kind has a non-empty table, with no null offset, for both colours. */
  lemma EveryKindHasDirections(kind: Kind, color: Color)
    ensures |InitialDirections(kind, color)| > 0
    ensures Coordinates(0, 0) !in InitialDirections(kind, color)
  {
    var ds := InitialDirections(kind, color);
    if kind == Pawn {
      assert forall i :: 0 <= i < |ds| ==> ds[i].x != 0;
    } else {
      assert ds == KindDirections(kind);
      NoNullOffset();
    }
  }

  /**
   * A White pawn advances towards higher rows, a Black pawn towards lower
   * rows: its table is the White one with every x negated, same length,
   * order and column deltas.
   */
  lemma PawnDirectionsByColor(color: Color)
    ensures InitialDirections(Pawn, White) == PawnDirections()
    ensures |InitialDirections(Pawn, color)| == |PawnDirections()|
    ensures forall i :: 0 <= i < |PawnDirections()| ==>
      InitialDirections(Pawn, color)[i].y == PawnDirections()[i].y &&
      InitialDirections(Pawn, color)[i].x == (if color == Black then -1 else 1) * PawnDirections()[i].x
    ensures forall d :: d in InitialDirections(Pawn, color) ==> (if color == Black then d.x < 0 else d.x > 0)
  {
    PawnShape();
    var ds := InitialDirections(Pawn, color);
    if color == Black {
      assert ds == Mirror(PawnDirections());
      forall d | d in ds ensures d.x < 0 {
        var i :| 0 <= i < |ds| && ds[i] == d;
      }
    } else {
      forall d | d in ds ensures d.x > 0 {
        var i :| 0 <= i < |ds| && ds[i] == d;
      }
    }
  }

  /** The restricted table is the pawn's own starting table minus its double step, for both colours. */
  lemma RestrictedDropsDoubleStep(color: Color)
    ensures RestrictedDirections(color) == Without(InitialDirections(Pawn, color), DoubleStep(color))
    ensures DoubleStep(color) in InitialDirections(Pawn, color)
    ensures |RestrictedDirections(color)| == |InitialDirections(Pawn, color)| - 1
  {
    if color == Black {
      MirrorWithout(PawnDirections(), PawnDoubleStep);
      assert InitialDirections(Pawn, color)[1] == DoubleStep(color);
    }
  }

  /**
   * A piece. `kind` and `color` are fixed by the constructor (the base class
   * has a `color` getter and no setter); `fen` is what the concrete
   * constructor assigns, once, from the kind and the colour. `moved` and
   * `directions` are the mutable state: `moved` only means something for
   * King, Rook and Pawn, and only a Pawn's setter replaces `directions`.
   */
  class Piece {
    const kind: Kind
    const color: Color
    const fen: FENCharacter := FenOf(kind, color)
    var moved: bool
    var directions: Directions

    /** The table is the starting one or, for a pawn, the restricted one. */
    ghost predicate Valid()
      reads this
    {
      (directions == InitialDirections(kind, color) ||
       (kind == Pawn && directions == RestrictedDirections(color)))
    }

    /** The state a piece is in right after `new`. */
    ghost predicate Initial(k: Kind, c: Color)
      reads this
    {
      kind == k && color == c &&
      !moved && directions == InitialDirections(k, c)
    }

    constructor (kind: Kind, color: Color)
      ensures this.kind == kind && this.color == color
      ensures fen == FenOf(kind, color)
      ensures !moved
      ensures directions == InitialDirections(kind, color)
      ensures Initial(kind, color) && Valid()
    {
      this.kind := kind;
      this.color := color;
      moved := false;
      directions := KindDirections(kind);
      new;
      if kind == Pawn && color == Black {
        SetDirectionsBlack();
      }
    }

    /** The pawn's private helper: replaces the table by its mirror image. */
    method SetDirectionsBlack()
      requires kind == Pawn
      modifies this
      ensures directions == Mirror(old(directions))
      ensures moved == old(moved)
    {
      directions := Mirror(directions);
    }

    /**
     * The `moved` setter. King and Rook only store the value. A Pawn also
     * resets its table to the restricted one, mirrored for Black, whatever
     * the value assigned and however many times it was assigned before.
     */
    method SetMoved(value: bool)
      requires HasMovedFlag(kind)
      requires Valid()
      modifies this
      ensures moved == value
      ensures kind == Pawn ==> directions == RestrictedDirections(color)
      ensures kind != Pawn ==> directions == old(directions)
      ensures Valid()
    {
      moved := value;
      if kind == Pawn {
        directions := PawnDirectionsRestricted();
        if color == Black {
          SetDirectionsBlack();
        }
      }
    }
  }
}
