/**
 * The piece-level types shared by the engine: the two colours, the twelve
 * FEN characters (each a string enum member holding one letter) and the
 * (x, y) offset that direction tables are made of.
 */
module PieceTypes {
  import opened Wrappers

  /** The enum declares Black first (ordinal 0), then White (ordinal 1). */
  datatype Color = Black | White

  datatype FENCharacter =
    | BlackBishop | BlackKing | BlackKnight | BlackPawn | BlackQueen | BlackRook
    | WhiteBishop | WhiteKing | WhiteKnight | WhitePawn | WhiteQueen | WhiteRook

  /** An offset on the board: `x` is the row delta, `y` the column delta. */
  datatype Coordinates = Coordinates(x: int, y: int)

  /** An ordered direction table. */
  type Directions = seq<Coordinates>

  predicate IsLower(ch: char) { 'a' <= ch <= 'z' }

  predicate IsUpper(ch: char) { 'A' <= ch <= 'Z' }

  /** ASCII upper-casing; characters other than 'a'..'z' are left alone. */
  function UpperCase(ch: char): (r: char)
    ensures IsLower(ch) ==> IsUpper(r) && r as int + 32 == ch as int
    ensures !IsLower(ch) ==> r == ch
  {
    if IsLower(ch) then (ch as int - 32) as char else ch
  }

  /** The side a FEN character belongs to, as its enum member name says. */
  function ColorOf(f: FENCharacter): Color {
    match f
    case BlackBishop | BlackKing | BlackKnight | BlackPawn | BlackQueen | BlackRook => Black
    case WhiteBishop | WhiteKing | WhiteKnight | WhitePawn | WhiteQueen | WhiteRook => White
  }

  /** The string value of each enum member; the case of the letter encodes the colour. */
  function Letter(f: FENCharacter): (ch: char)
    ensures IsLower(ch) <==> ColorOf(f) == Black
    ensures IsUpper(ch) <==> ColorOf(f) == White
  {
    match f
    case BlackBishop => 'b'
    case BlackKing => 'k'
    case BlackKnight => 'n'
    case BlackPawn => 'p'
    case BlackQueen => 'q'
    case BlackRook => 'r'
    case WhiteBishop => 'B'
    case WhiteKing => 'K'
    case WhiteKnight => 'N'
    case WhitePawn => 'P'
    case WhiteQueen => 'Q'
    case WhiteRook => 'R'
  }

  /** Reverse lookup of an enum member from its string value. */
  function FromLetter(ch: char): Option<FENCharacter> {
    match ch
    case 'b' => Some(BlackBishop)
    case 'k' => Some(BlackKing)
    case 'n' => Some(BlackKnight)
    case 'p' => Some(BlackPawn)
    case 'q' => Some(BlackQueen)
    case 'r' => Some(BlackRook)
    case 'B' => Some(WhiteBishop)
    case 'K' => Some(WhiteKing)
    case 'N' => Some(WhiteKnight)
    case 'P' => Some(WhitePawn)
    case 'Q' => Some(WhiteQueen)
    case 'R' => Some(WhiteRook)
    case _ => None
  }

  /** Every enum member, in declaration order. */
  function AllFENCharacters(): (r: seq<FENCharacter>)
    ensures |r| == 12
    ensures forall i, j :: 0 <= i < j < |r| ==> r[i] != r[j]
  {
    [BlackBishop, BlackKing, BlackKnight, BlackPawn, BlackQueen, BlackRook,
     WhiteBishop, WhiteKing, WhiteKnight, WhitePawn, WhiteQueen, WhiteRook]
  }

  /** The list of members leaves none out. */
  lemma AllFENCharactersComplete(f: FENCharacter)
    ensures f in AllFENCharacters()
  {
    match f
    case BlackBishop => case BlackKing => case BlackKnight =>
    case BlackPawn => case BlackQueen => case BlackRook =>
    case WhiteBishop => case WhiteKing => case WhiteKnight =>
    case WhitePawn => case WhiteQueen => case WhiteRook =>
  }

  /** Looking a string value up gives back exactly the member it came from. */
  lemma LetterRoundTrip(f: FENCharacter)
    ensures FromLetter(Letter(f)) == Some(f)
  {
  }

  /** Any character the lookup accepts is the string value of what it returns. */
  lemma FromLetterRoundTrip(ch: char)
    ensures FromLetter(ch).Some? ==> Letter(FromLetter(ch).value) == ch
  {
  }

  /** The twelve string values are pairwise distinct. */
  lemma LettersDistinct(f: FENCharacter, g: FENCharacter)
    ensures Letter(f) == Letter(g) ==> f == g
  {
    LetterRoundTrip(f);
    LetterRoundTrip(g);
  }

  /** The characters that name a Black member are exactly b, k, n, p, q and r. */
  lemma BlackLetters(ch: char)
    ensures (FromLetter(ch).Some? && ColorOf(FromLetter(ch).value) == Black)
        <==> ch in {'b', 'k', 'n', 'p', 'q', 'r'}
  {
  }
}
