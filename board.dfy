/**
 * The chessboard: its constructor, which lays out the starting position,
 * and its two getters. The grid holds piece references, so that two
 * squares holding one and the same object can be told apart from two
 * squares holding equal-looking pieces.
 */
module Board {
  import opened Wrappers
  import opened PieceTypes
  import opened Pieces
  import opened JsArray

  /** What a grid entry holds: a piece reference or `null`. */
  datatype Square = Null | Occupied(piece: Piece)

  /** A row of the grid: a JavaScript array, possibly with holes. */
  type Row = seq<Slot<Square>>

  /** The grid: each row is an array or `undefined` (None). */
  type Grid = seq<Option<Row>>

  /** A row of the getter's result. */
  type SymbolRow = seq<Slot<Option<FENCharacter>>>

  predicate HoldsPiece(row: Row, c: int) {
    0 <= c < |row| && row[c].Elem? && row[c].value.Occupied?
  }

  function PieceIn(row: Row, c: int): Piece
    requires HoldsPiece(row, c)
  {
    row[c].value.piece
  }

  /** Each piece in its own array element, in order. */
  function Occupy(ps: seq<Piece>): (r: Row)
    ensures |r| == |ps|
    ensures forall c :: 0 <= c < |ps| ==> r[c] == Elem(Occupied(ps[c]))
  {
    if ps == [] then [] else [Elem(Occupied(ps[0]))] + Occupy(ps[1..])
  }

  // ---------------------------------------------------------------- getter

  /** The getter's callback: a piece's FEN character, `null` for anything else. */
  function SquareSymbol(sq: Square): Option<FENCharacter> {
    match sq
    case Null => None
    case Occupied(p) => Some(p.fen)
  }

  /**
   * `row.map(...)` in the getter: same length, a hole stays a hole, `null`
   * becomes `null` and a piece becomes its FEN character.
   */
  function RowSymbols(row: Row): (r: SymbolRow)
    ensures |r| == |row|
    ensures forall c :: 0 <= c < |row| ==> (r[c].Hole? <==> row[c].Hole?)
    ensures forall c :: 0 <= c < |row| && row[c] == Elem(Null) ==> r[c] == Elem(None)
    ensures forall c :: HoldsPiece(row, c) ==> r[c] == Elem(Some(PieceIn(row, c).fen))
  {
    MapArray(row, SquareSymbol)
  }

  /** True when no row is `undefined`, the only case in which the getter does not throw. */
  predicate AllRowsPresent(g: Grid) {
    forall i :: 0 <= i < |g| ==> g[i].Some?
  }

  /**
   * The index of the row at which the getter's outer `map` throws a
   * TypeError (calling `map` on `undefined`); None when it throws nowhere.
   */
  function FirstAbsentRow(g: Grid): (r: Option<nat>)
    ensures r.None? <==> AllRowsPresent(g)
    ensures r.Some? ==> r.value < |g| && g[r.value].None?
    ensures r.Some? ==> forall i :: 0 <= i < r.value ==> g[i].Some?
  {
    if g == [] then None
    else if g[0].None? then Some(0)
    else match FirstAbsentRow(g[1..])
      case None => None
      case Some(k) => Some(k + 1)
  }

  /** The getter's outer `map`: one row of symbols per row, in order. */
  function BoardSymbols(g: Grid): (r: seq<SymbolRow>)
    requires AllRowsPresent(g)
    ensures |r| == |g|
    ensures forall i :: 0 <= i < |g| ==> r[i] == RowSymbols(g[i].value)
  {
    if g == [] then [] else [RowSymbols(g[0].value)] + BoardSymbols(g[1..])
  }

  // ---------------------------------------------------------- the layout

  /** The home rank order: Rook, Knight, Bishop, Queen, King, Bishop, Knight, Rook. */
  function BackRankKinds(): (r: seq<Kind>)
    ensures |r| == 8 && r[3] == Queen && r[4] == King
    ensures Reversed(r[..3]) == r[5..]
  {
    [Rook, Knight, Bishop, Queen, King, Bishop, Knight, Rook]
  }

  /** Eight pieces of one colour in `BackRankKinds` order. */
  predicate HomeRank(row: Row, color: Color) {
    |row| == 8 &&
    forall c :: 0 <= c < 8 ==>
      HoldsPiece(row, c) && PieceIn(row, c).color == color && PieceIn(row, c).kind == BackRankKinds()[c]
  }

  /**
   * A home rank as the constructor builds it: column c and column 7 - c
   * (c < 3) hold the identical object.
   */
  predicate BackRank(row: Row, color: Color) {
    HomeRank(row, color) &&
    (forall c :: 0 <= c < 3 ==> row[c] == row[7 - c])
  }

  /** No piece object is held by two squares of the row. */
  predicate NoPieceTwice(row: Row) {
    forall c, d :: 0 <= c < d < |row| && HoldsPiece(row, c) && HoldsPiece(row, d) ==>
      PieceIn(row, c) != PieceIn(row, d)
  }

  /** Every square of the row holds a piece, and no object is held twice. */
  predicate DistinctPieces(row: Row) {
    (forall c :: 0 <= c < |row| ==> HoldsPiece(row, c)) && NoPieceTwice(row)
  }

  /** Appending a hole, or a piece the row does not hold yet, keeps every object once. */
  lemma AppendKeepsNoPieceTwice(row: Row, slot: Slot<Square>)
    requires NoPieceTwice(row)
    requires slot.Elem? && slot.value.Occupied? ==>
      forall c :: HoldsPiece(row, c) ==> PieceIn(row, c) != slot.value.piece
    ensures NoPieceTwice(row + [slot])
  {
    var r := row + [slot];
    forall c, d | 0 <= c < d < |r| && HoldsPiece(r, c) && HoldsPiece(r, d)
      ensures PieceIn(r, c) != PieceIn(r, d)
    {
      assert r[c] == row[c] && HoldsPiece(row, c);
      if d < |row| {
        assert r[d] == row[d] && HoldsPiece(row, d);
      } else {
        assert PieceIn(r, d) == slot.value.piece;
      }
    }
  }

  /** Eight distinct pawns of one colour. */
  predicate PawnRank(row: Row, color: Color) {
    |row| == 8 && DistinctPieces(row) &&
    forall c :: 0 <= c < 8 ==> PieceIn(row, c).color == color && PieceIn(row, c).kind == Pawn
  }

  /** What `new Array(n)` is: length n and not a single element. */
  predicate Holes<T>(row: seq<Slot<T>>, n: nat) {
    |row| == n && forall c :: 0 <= c < n ==> row[c].Hole?
  }

  /**
   * The grid the constructor leaves: White's home rank, a pawn rank that is
   * eight holes, four `undefined` rows, another eight holes, Black's home rank.
   */
  predicate StartingGrid(g: Grid) {
    |g| == 8 &&
    g[0].Some? && BackRank(g[0].value, White) &&
    g[1].Some? && Holes(g[1].value, 8) &&
    (forall i :: 2 <= i < 6 ==> g[i].None?) &&
    g[6].Some? && Holes(g[6].value, 8) &&
    g[7].Some? && BackRank(g[7].value, Black)
  }

  /** Every piece object the grid holds, wherever it is. */
  ghost function PiecesOn(g: Grid): set<Piece> {
    set i, c | 0 <= i < |g| && g[i].Some? && 0 <= c < |g[i].value| && HoldsPiece(g[i].value, c)
      :: PieceIn(g[i].value, c)
  }

  /**
   * The grid the constructor is evidently meant to leave: both home ranks
   * with eight distinct objects each, eight distinct pawns in front of
   * each, and four rows of eight `null` squares between them.
   */
  predicate IntendedGrid(g: Grid) {
    |g| == 8 && AllRowsPresent(g) &&
    HomeRank(g[0].value, White) && DistinctPieces(g[0].value) &&
    PawnRank(g[1].value, White) &&
    (forall i :: 2 <= i < 6 ==> g[i] == Some(Filled(8, Null))) &&
    PawnRank(g[6].value, Black) &&
    HomeRank(g[7].value, Black) && DistinctPieces(g[7].value)
  }

  /** The distinct objects of a home rank: those at columns 0 to 4 (5 to 7 alias 0 to 2). */
  ghost function FrontPieces(row: Row): set<Piece>
    requires HomeRank(row, White) || HomeRank(row, Black)
  {
    set c | 0 <= c < 5 :: PieceIn(row, c)
  }

  /** The pieces at columns 0 to 4 of two rows. */
  ghost function HomePieces(white: Row, black: Row): set<Piece>
    requires BackRank(white, White) && BackRank(black, Black)
  {
    FrontPieces(white) + FrontPieces(black)
  }

  // ------------------------------------------------------ construction

  /**
   * `pieces.empties`: `new Array(4).map(() => new Array(8).map(() => null))`.
   * The outer callback is never called, so this is four holes.
   */
  function Empties(): (r: seq<Slot<Row>>)
    ensures r == NewArray(4)
  {
    var empties := MapArray(NewArray<Square>(4), (u: Square) => MapArray(NewArray<Square>(8), (v: Square) => Null));
    MapNewArray(4, (u: Square) => MapArray(NewArray<Square>(8), (v: Square) => Null));
    empties
  }

  /**
   * The `side(color)` closure, given the colour's majors array (the closure
   * picks `majors.blacks` or `majors.whites` by colour): the array spread, a
   * new queen and a new king, then the same array reversed in place and
   * spread again. The copy is taken before `reverse` runs, so both ends of
   * the row refer to the objects of the one array.
   */
  method Side(color: Color, majorsColor: array<Piece>) returns (row: Row)
    requires IsMajors(majorsColor[..], color)
    modifies majorsColor
    ensures majorsColor[..] == Reversed(old(majorsColor[..]))
    ensures BackRank(row, color)
    ensures forall c :: 0 <= c < 3 ==> PieceIn(row, c) == old(majorsColor[c])
    ensures fresh(PieceIn(row, 3)) && PieceIn(row, 3).Initial(Queen, color)
    ensures fresh(PieceIn(row, 4)) && PieceIn(row, 4).Initial(King, color)
  {
    ghost var before := majorsColor[..];
    var front := Occupy(majorsColor[..]);
    var queen := new Piece(Queen, color);
    var king := new Piece(King, color);
    Reverse(majorsColor);
    row := front + [Elem(Occupied(queen)), Elem(Occupied(king))] + Occupy(majorsColor[..]);
    SideRow(before, queen, king);
    SideIsBackRank(row, before, color);
  }

  /** The spread, queen, king, spread-again row: both ends hold the array's objects, mirrored. */
  lemma SideRow(ps: seq<Piece>, queen: Piece, king: Piece)
    ensures var row := Occupy(ps) + [Elem(Occupied(queen)), Elem(Occupied(king))] + Occupy(Reversed(ps));
      var n := |ps|;
      |row| == 2 * n + 2 &&
      row[n] == Elem(Occupied(queen)) && row[n + 1] == Elem(Occupied(king)) &&
      forall c :: 0 <= c < n ==>
        row[c] == Elem(Occupied(ps[c])) && row[2 * n + 1 - c] == Elem(Occupied(ps[c]))
  {
    var n := |ps|;
    var left := Occupy(ps) + [Elem(Occupied(queen)), Elem(Occupied(king))];
    var row := left + Occupy(Reversed(ps));
    assert |left| == n + 2;
    assert row[n] == left[n] && row[n + 1] == left[n + 1];
    forall c | 0 <= c < n
      ensures row[c] == Elem(Occupied(ps[c])) && row[2 * n + 1 - c] == Elem(Occupied(ps[c]))
    {
      SideRowAt(ps, left, c);
    }
  }

  /** One column of the row `SideRow` describes and its mirror column. */
  lemma SideRowAt(ps: seq<Piece>, left: Row, c: int)
    requires |left| == |ps| + 2 && 0 <= c < |ps|
    requires left[c] == Elem(Occupied(ps[c]))
    ensures var row := left + Occupy(Reversed(ps));
      row[c] == Elem(Occupied(ps[c])) && row[2 * |ps| + 1 - c] == Elem(Occupied(ps[c]))
  {
    var n := |ps|;
    var back := Occupy(Reversed(ps));
    var k := n - 1 - c;
    assert (left + back)[2 * n + 1 - c] == back[k];
    assert back[k] == Elem(Occupied(Reversed(ps)[k]));
  }

  /**
   * `majors`: a fresh three-element array holding a new rook, knight and
   * bishop of one colour, in that order.
   */
  method Majors(color: Color) returns (a: array<Piece>)
    ensures fresh(a) && IsMajors(a[..], color)
    ensures forall c :: 0 <= c < 3 ==> fresh(a[c]) && a[c].Initial(BackRankKinds()[c], color)
  {
    var rook := new Piece(Rook, color);
    var knight := new Piece(Knight, color);
    var bishop := new Piece(Bishop, color);
    a := new Piece[] [rook, knight, bishop];
    assert a[..] == [rook, knight, bishop];
  }

  /** The contents of a majors array: rook, knight and bishop of one colour. */
  predicate IsMajors(majors: seq<Piece>, color: Color) {
    |majors| == 3 &&
    forall c :: 0 <= c < 3 ==> majors[c].color == color && majors[c].kind == BackRankKinds()[c]
  }

  /** A row laid out by `Side` from a majors array is a home rank. */
  lemma SideIsBackRank(row: Row, majors: seq<Piece>, color: Color)
    requires IsMajors(majors, color) && |row| == 8
    requires forall c :: 0 <= c < 3 ==> row[c] == Elem(Occupied(majors[c])) && row[7 - c] == Elem(Occupied(majors[c]))
    requires HoldsPiece(row, 3) && PieceIn(row, 3).kind == Queen && PieceIn(row, 3).color == color
    requires HoldsPiece(row, 4) && PieceIn(row, 4).kind == King && PieceIn(row, 4).color == color
    ensures BackRank(row, color)
  {
    var kinds := BackRankKinds();
    forall c | 0 <= c < 8
      ensures HoldsPiece(row, c) && PieceIn(row, c).color == color && PieceIn(row, c).kind == kinds[c]
    {
      if c >= 5 {
        assert kinds[c] == kinds[7 - c];
      }
    }
  }

  /**
   * `source.map(() => new Pawn(color))`: the callback runs, and a new pawn
   * is made, only at the indices where `source` holds an element; every
   * hole of `source` is a hole of the result.
   */
  method MapPawns<T>(source: seq<Slot<T>>, color: Color) returns (row: Row)
    ensures |row| == |source| && NoPieceTwice(row)
    ensures forall c :: 0 <= c < |source| ==> (row[c].Hole? <==> source[c].Hole?)
    ensures forall c :: 0 <= c < |source| && source[c].Elem? ==>
      HoldsPiece(row, c) && fresh(PieceIn(row, c)) && PieceIn(row, c).Initial(Pawn, color)
  {
    row := [];
    var i := 0;
    while i < |source|
      invariant 0 <= i <= |source| && |row| == i && NoPieceTwice(row)
      invariant forall c :: 0 <= c < i ==> (row[c].Hole? <==> source[c].Hole?)
      invariant forall c :: 0 <= c < i && source[c].Elem? ==>
        HoldsPiece(row, c) && fresh(PieceIn(row, c)) && PieceIn(row, c).Initial(Pawn, color)
    {
      ghost var before := row;
      var slot: Slot<Square> := Hole;
      if source[i].Elem? {
        var pawn := new Piece(Pawn, color);
        slot := Elem(Occupied(pawn));
      }
      AppendKeepsNoPieceTwice(row, slot);
      row := row + [slot];
      assert forall c :: 0 <= c < i ==> row[c] == before[c];
      i := i + 1;
    }
  }

  /**
   * One new piece of the given colour per kind, in order: every square
   * holds a fresh object in its initial state, and no object twice.
   */
  method NewRank(kinds: seq<Kind>, color: Color) returns (row: Row)
    ensures |row| == |kinds| && DistinctPieces(row)
    ensures forall c :: 0 <= c < |kinds| ==>
      fresh(PieceIn(row, c)) && PieceIn(row, c).Initial(kinds[c], color)
  {
    row := [];
    var i := 0;
    while i < |kinds|
      invariant 0 <= i <= |kinds| && |row| == i
      invariant forall c :: 0 <= c < i ==>
        HoldsPiece(row, c) && fresh(PieceIn(row, c)) && PieceIn(row, c).Initial(kinds[c], color)
      invariant forall c, d :: 0 <= c < d < i ==> PieceIn(row, c) != PieceIn(row, d)
    {
      var piece := new Piece(kinds[i], color);
      ghost var before := row;
      row := row + [Elem(Occupied(piece))];
      assert forall c :: 0 <= c < i ==> row[c] == before[c] && HoldsPiece(before, c);
      i := i + 1;
    }
  }

  /** `pieces.pawns(color)`: `map` over `new Array(8)` makes no pawn and leaves eight holes. */
  method Pawns(color: Color) returns (row: Row)
    ensures Holes(row, 8)
  {
    row := MapPawns(NewArray<Square>(8), color);
  }

  /** A home rank of eight new pieces. */
  method StandardSide(color: Color) returns (row: Row)
    ensures HomeRank(row, color) && DistinctPieces(row)
  {
    row := NewRank(BackRankKinds(), color);
  }

  /** `new Array(8).fill(null).map(() => new Pawn(color))`: eight new pawns. */
  method StandardPawns(color: Color) returns (row: Row)
    ensures PawnRank(row, color)
  {
    row := MapPawns(Filled<Square>(8, Null), color);
  }

  /**
   * The constructor's body: the `pieces` object, then the row literal,
   * evaluated left to right.
   */
  method StartingLayout() returns (g: Grid)
    ensures StartingGrid(g)
  {
    var empties := Empties();
    var blacks := Majors(Black);
    var whites := Majors(White);
    var whiteSide := Side(White, whites);
    var whitePawns := Pawns(White);
    var blackPawns := Pawns(Black);
    var blackSide := Side(Black, blacks);
    g := [Some(whiteSide), Some(whitePawns)] + Spread(empties) + [Some(blackPawns), Some(blackSide)];
    AssembleStartingGrid(whiteSide, whitePawns, empties, blackPawns, blackSide);
  }

  class Chessboard {
    var grid: Grid
    var playerColor: Color

    /**
     * Lays out the starting position as the source does: the home ranks
     * are complete (with columns c and 7 - c aliased), but the pawn ranks
     * are holes and the middle four rows are `undefined`, because `map`
     * over `new Array(n)` never calls its callback.
     */
    constructor ()
      ensures playerColor == White
      ensures StartingGrid(grid)
    {
      var g := StartingLayout();
      grid := g;
      playerColor := White;
    }

    /**
     * The constructor as it is evidently meant to work: each home rank made
     * of eight new pieces, each pawn rank `new Array(8).fill(null)` mapped
     * to new pawns, and the empty ranks `new Array(4).fill(null)` mapped to
     * rows of eight `null`s.
     */
    constructor Standard()
      ensures playerColor == White
      ensures IntendedGrid(grid)
    {
      var whiteSide := StandardSide(White);
      var whitePawns := StandardPawns(White);
      var empties := MapArray(Filled<Square>(4, Null), (u: Square) => Filled<Square>(8, Null));
      var blackPawns := StandardPawns(Black);
      var blackSide := StandardSide(Black);
      grid := [Some(whiteSide), Some(whitePawns)] + Spread(empties) + [Some(blackPawns), Some(blackSide)];
      playerColor := White;
      new;
      MapFilled(4, Null, (u: Square) => Filled<Square>(8, Null));
      AssembleIntendedGrid(whiteSide, whitePawns, empties, blackPawns, blackSide);
    }

    /** The `chessboard` getter; it only reads the grid. */
    function Symbols(): (r: seq<SymbolRow>)
      reads this
      requires AllRowsPresent(grid)
      ensures |r| == |grid|
      ensures forall i :: 0 <= i < |grid| ==> r[i] == RowSymbols(grid[i].value)
    {
      BoardSymbols(grid)
    }
  }

  // ------------------------------------------------------------ lemmas

  /** The array literal of the constructor, from its five parts, is the starting grid. */
  lemma AssembleStartingGrid(whiteSide: Row, whitePawns: Row, empties: seq<Slot<Row>>, blackPawns: Row, blackSide: Row)
    requires BackRank(whiteSide, White) && BackRank(blackSide, Black)
    requires Holes(whitePawns, 8) && Holes(blackPawns, 8)
    requires empties == Empties()
    ensures StartingGrid([Some(whiteSide), Some(whitePawns)] + Spread(empties) + [Some(blackPawns), Some(blackSide)])
  {
    var g := [Some(whiteSide), Some(whitePawns)] + Spread(empties) + [Some(blackPawns), Some(blackSide)];
    var middle := Spread(empties);
    assert |middle| == 4;
    assert g[0] == Some(whiteSide) && g[1] == Some(whitePawns);
    assert g[6] == Some(blackPawns) && g[7] == Some(blackSide);
    forall i | 2 <= i < 6 ensures g[i].None? {
      assert g[i] == middle[i - 2];
    }
  }

  /** The five parts of the corrected constructor's literal make the intended grid. */
  lemma AssembleIntendedGrid(whiteSide: Row, whitePawns: Row, empties: seq<Slot<Row>>, blackPawns: Row, blackSide: Row)
    requires HomeRank(whiteSide, White) && DistinctPieces(whiteSide)
    requires HomeRank(blackSide, Black) && DistinctPieces(blackSide)
    requires PawnRank(whitePawns, White) && PawnRank(blackPawns, Black)
    requires empties == Filled(4, Filled(8, Null))
    ensures IntendedGrid([Some(whiteSide), Some(whitePawns)] + Spread(empties) + [Some(blackPawns), Some(blackSide)])
  {
    var g := [Some(whiteSide), Some(whitePawns)] + Spread(empties) + [Some(blackPawns), Some(blackSide)];
    forall i | 2 <= i < 6 ensures g[i] == Some(Filled(8, Null)) {
      assert g[i] == Spread(empties)[i - 2];
    }
  }

  /** The constructed grid makes the getter throw, at row 2. */
  lemma StartingGridBreaksGetter(g: Grid)
    requires StartingGrid(g)
    ensures !AllRowsPresent(g)
    ensures FirstAbsentRow(g) == Some(2)
  {
    var r := FirstAbsentRow(g);
    assert g[2].None?;
    assert r.Some?;
    assert r.value >= 2 by {
      assert g[0].Some? && g[1].Some?;
    }
  }

  /**
   * The constructed grid holds ten piece objects, the ones at columns 0 to
   * 4 of the two home ranks, and not a single pawn.
   */
  lemma StartingPieces(g: Grid)
    requires StartingGrid(g)
    ensures PiecesOn(g) == HomePieces(g[0].value, g[7].value)
    ensures |PiecesOn(g)| == 10
    ensures forall p :: p in PiecesOn(g) ==> p.kind != Pawn
  {
    StartingPiecesAtHome(g);
    HomePiecesOnBoard(g);
    assert PiecesOn(g) == HomePieces(g[0].value, g[7].value);
    HomePiecesCount(g[0].value, g[7].value);
  }

  /** Two home ranks hold ten distinct pieces at columns 0 to 4, none a pawn. */
  lemma HomePiecesCount(white: Row, black: Row)
    requires BackRank(white, White) && BackRank(black, Black)
    ensures |HomePieces(white, black)| == 10
    ensures forall p :: p in HomePieces(white, black) ==> p.kind != Pawn
  {
    HomeRankPieces(white, White);
    HomeRankPieces(black, Black);
    TwoSides(FrontPieces(white), FrontPieces(black));
  }

  /** Five White pieces and five Black pieces are ten pieces. */
  lemma TwoSides(w: set<Piece>, b: set<Piece>)
    requires |w| == 5 && |b| == 5
    requires forall p :: p in w ==> p.color == White
    requires forall p :: p in b ==> p.color == Black
    ensures |w + b| == 10
  {
    forall p | p in w ensures p !in b {
      assert p.color == White;
    }
    assert w * b == {};
  }

  /** Every piece on the constructed grid is at column 0 to 4 of a home rank, or aliases one that is. */
  lemma StartingPiecesAtHome(g: Grid)
    requires StartingGrid(g)
    ensures PiecesOn(g) <= HomePieces(g[0].value, g[7].value)
  {
    forall p | p in PiecesOn(g) ensures p in HomePieces(g[0].value, g[7].value) {
      var i, c :| 0 <= i < |g| && g[i].Some? && 0 <= c < |g[i].value| && HoldsPiece(g[i].value, c)
        && p == PieceIn(g[i].value, c);
      assert i == 0 || i == 7;
      var c' := if c < 5 then c else 7 - c;
      assert PieceIn(g[i].value, c') == p;
    }
  }

  /** The pieces at columns 0 to 4 of the constructed home ranks are on the grid. */
  lemma HomePiecesOnBoard(g: Grid)
    requires StartingGrid(g)
    ensures HomePieces(g[0].value, g[7].value) <= PiecesOn(g)
  {
    var white, black := g[0].value, g[7].value;
    forall p | p in HomePieces(white, black) ensures p in PiecesOn(g) {
      if p in FrontPieces(white) {
        var c :| 0 <= c < 5 && p == PieceIn(white, c);
        assert HoldsPiece(g[0].value, c);
      } else {
        var c :| 0 <= c < 5 && p == PieceIn(black, c);
        assert HoldsPiece(g[7].value, c);
      }
    }
  }

  /** Columns 0 to 4 of a home rank hold five distinct pieces of its colour, none a pawn. */
  lemma HomeRankPieces(row: Row, color: Color)
    requires BackRank(row, color)
    ensures |FrontPieces(row)| == 5
    ensures forall p :: p in FrontPieces(row) ==> p.color == color && p.kind != Pawn
  {
    var s := FrontPieces(row);
    var kinds := BackRankKinds();
    assert HoldsPiece(row, 0) && HoldsPiece(row, 1) && HoldsPiece(row, 2) && HoldsPiece(row, 3) && HoldsPiece(row, 4);
    var p0, p1, p2, p3, p4 := PieceIn(row, 0), PieceIn(row, 1), PieceIn(row, 2), PieceIn(row, 3), PieceIn(row, 4);
    assert p0.kind == Rook && p1.kind == Knight && p2.kind == Bishop && p3.kind == Queen && p4.kind == King;
    var five := {p0, p1, p2, p3, p4};
    forall p | p in s ensures p in five {
      var c :| 0 <= c < 5 && p == PieceIn(row, c);
    }
    assert p0 in s && p1 in s && p2 in s && p3 in s && p4 in s;
    assert s == five;
    FiveKinds(p0, p1, p2, p3, p4);
  }

  /** Five pieces of five different kinds are five objects. */
  lemma FiveKinds(p0: Piece, p1: Piece, p2: Piece, p3: Piece, p4: Piece)
    requires p0.kind == Rook && p1.kind == Knight && p2.kind == Bishop && p3.kind == Queen && p4.kind == King
    ensures |{p0, p1, p2, p3, p4}| == 5
  {
    assert p4 !in {p0, p1, p2, p3};
    assert p3 !in {p0, p1, p2};
    assert p2 !in {p0, p1};
  }

  /**
   * Were the getter able to run, the home ranks would read as the FEN
   * characters of R, N, B, Q, K, B, N, R in the rank's colour, and the pawn
   * ranks as eight holes.
   */
  lemma StartingRanksSymbols(g: Grid)
    requires StartingGrid(g)
    ensures RowSymbols(g[0].value) == RankSymbols(BackRankKinds(), White)
    ensures RowSymbols(g[7].value) == RankSymbols(BackRankKinds(), Black)
    ensures Holes(RowSymbols(g[1].value), 8) && Holes(RowSymbols(g[6].value), 8)
  {
    HomeRankSymbols(g[0].value, White);
    HomeRankSymbols(g[7].value, Black);
  }

  /** A home rank, aliased or not, reads as its kinds' FEN characters. */
  lemma HomeRankSymbols(row: Row, color: Color)
    requires HomeRank(row, color)
    ensures RowSymbols(row) == RankSymbols(BackRankKinds(), color)
  {
    var r, e := RowSymbols(row), RankSymbols(BackRankKinds(), color);
    forall c | 0 <= c < 8 ensures r[c] == e[c] {
      assert HoldsPiece(row, c);
    }
  }

  /** A pawn rank reads as eight pawn characters of its colour. */
  lemma PawnRankSymbols(row: Row, color: Color)
    requires PawnRank(row, color)
    ensures RowSymbols(row) == Filled(8, Some(FenOf(Pawn, color)))
  {
    var r, e := RowSymbols(row), Filled(8, Some(FenOf(Pawn, color)));
    forall c | 0 <= c < 8 ensures r[c] == e[c] {
      assert HoldsPiece(row, c);
    }
  }

  /** What the getter is meant to return for the starting position, row 0 first. */
  function StartingPosition(): seq<SymbolRow> {
    var empty := Filled(8, None);
    [RankSymbols(BackRankKinds(), White), Filled(8, Some(WhitePawn)),
     empty, empty, empty, empty,
     Filled(8, Some(BlackPawn)), RankSymbols(BackRankKinds(), Black)]
  }

  /**
   * On the intended grid the getter does not throw, and it returns the
   * starting position: the home ranks, a full pawn rank in front of each,
   * and four rows of `null`.
   */
  lemma IntendedGridSymbols(g: Grid)
    requires IntendedGrid(g)
    ensures AllRowsPresent(g) && FirstAbsentRow(g).None?
    ensures BoardSymbols(g) == StartingPosition()
  {
    var e := StartingPosition();
    forall i | 0 <= i < 8 ensures RowSymbols(g[i].value) == e[i] {
      if i == 0 {
        HomeRankSymbols(g[0].value, White);
      } else if i == 1 {
        PawnRankSymbols(g[1].value, White);
      } else if i < 6 {
        assert g[i].value == Filled(8, Null);
        MapFilled(8, Null, SquareSymbol);
      } else if i == 6 {
        PawnRankSymbols(g[6].value, Black);
      } else {
        HomeRankSymbols(g[7].value, Black);
      }
    }
    SymbolsByRow(g, StartingPosition());
  }

  /** A grid whose rows read as the rows of `e`, one by one, reads as `e`. */
  lemma SymbolsByRow(g: Grid, e: seq<SymbolRow>)
    requires |g| == |e| && AllRowsPresent(g)
    requires forall i :: 0 <= i < |e| ==> RowSymbols(g[i].value) == e[i]
    ensures BoardSymbols(g) == e
  {
    var r := BoardSymbols(g);
    assert forall i :: 0 <= i < |e| ==> r[i] == e[i];
  }

  /** The FEN characters of a rank of the given kinds, all in one colour. */
  function RankSymbols(kinds: seq<Kind>, color: Color): (r: SymbolRow)
    ensures |r| == |kinds|
    ensures forall c :: 0 <= c < |kinds| ==> r[c] == Elem(Some(FenOf(kinds[c], color)))
  {
    seq(|kinds|, c requires 0 <= c < |kinds| => Elem(Some(FenOf(kinds[c], color))))
  }

  /** The home ranks spell RNBQKBNR for White and rnbqkbnr for Black. */
  lemma BackRankLetters()
    ensures seq(8, c requires 0 <= c < 8 => Letter(FenOf(BackRankKinds()[c], White))) == "RNBQKBNR"
    ensures seq(8, c requires 0 <= c < 8 => Letter(FenOf(BackRankKinds()[c], Black))) == "rnbqkbnr"
  {
  }
}
