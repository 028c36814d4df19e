# Chessmania piece layer and starting board, in Dafny

This project models the piece layer and the starting-board builder of the
Chessmania chess engine (TypeScript):

- the `Color` and `FENCharacter` enums and the (x, y) offsets;
- the constant direction tables of the six kinds;
- the piece classes, which hold a colour, a FEN character, a direction table and, for King, Rook and Pawn, a `moved` flag;
- the `Pawn`'s `moved` setter, which replaces its table by the restricted one, mirrored for Black;
- the `Chessboard` constructor and its `chessboard` and `playerColor` getters.

The class hierarchy becomes one `Piece` class with a `Kind` tag. `kind`
and `color` are constants. `moved` and `directions` are mutable fields.
The FEN character is a constant derived from kind and colour.

The board holds piece references, so aliasing can be stated. The
constructor is modelled with JavaScript's array semantics, in module
`JsArray`:

- `new Array(n)` is n holes.
- `map` skips holes.
- Spreading reads a hole as `undefined`.
- `reverse` swaps elements in place.

Modelled this way, the constructor does not build the position it appears
to build:

- The pawn ranks are eight holes each.
- Rows 2 to 5 are `undefined`.
- On each home rank, column c and column 7 − c hold the same object.

As a result, the `chessboard` getter throws a TypeError on a freshly built
board. The getter is modelled with the precondition "every row present".
`StartingGridBreaksGetter` proves that the fresh board fails it at row 2.
The corrected constructor `Chessboard.Standard` builds the intended
position, and `IntendedGridSymbols` proves that the getter then returns the
standard starting position.

White's home rank is row 0 and the White pawn table has x = +1 and +2, so
White's pawns move toward increasing rows and Black's toward decreasing
rows (`Pieces.PawnDirectionsByColor`).

Modules:

- `Wrappers`: Option.
- `PieceTypes`: types/Piece.ts.
- `Tokens`: utilities/tokens.ts.
- `Pieces`: classes/Pieces/*.ts and Pieces/Queen.ts.
- `JsArray`: the array semantics.
- `Board`: classes/Chessboard.ts.

## Model

| member | source | states |
|---|---|---|
| PieceTypes.Letter | types/Piece.ts:6-19 | each FEN member's letter is lower case exactly for the Black members and upper case exactly for the White ones |
| PieceTypes.AllFENCharacters | types/Piece.ts:6-19 | the enum has twelve pairwise distinct members |
| PieceTypes.AllFENCharactersComplete | types/Piece.ts:6-19 | every member is among the twelve listed |
| PieceTypes.LetterRoundTrip | types/Piece.ts:6-19 | looking up a member's string value gives that member back |
| PieceTypes.FromLetterRoundTrip | types/Piece.ts:6-19 | any character the lookup accepts is the value of the member it returns |
| PieceTypes.LettersDistinct | types/Piece.ts:6-19 | two members with the same string value are the same member |
| PieceTypes.BlackLetters | types/Piece.ts:7-12 | a character names a Black member exactly when it is one of b, k, n, p, q, r |
| PieceTypes.UpperCase | types/Piece.ts:7-18 | ASCII upper-casing: a lower-case letter maps to the letter 32 code points below, anything else is unchanged |
| Tokens.Without | utilities/tokens.ts:47-57 | removing an entry leaves exactly the other entries and never makes the table longer |
| Tokens.BishopShape | utilities/tokens.ts:3-8 | the bishop table has four distinct entries, exactly the offsets with \|x\| = \|y\| = 1 |
| Tokens.KingShape | utilities/tokens.ts:15-24 | the king table has eight distinct entries, exactly the non-null offsets with \|x\|, \|y\| <= 1 |
| Tokens.KnightShape | utilities/tokens.ts:31-40 | the knight table has eight distinct entries, exactly the offsets with {\|x\|, \|y\|} = {1, 2} |
| Tokens.PawnShape | utilities/tokens.ts:47-52 | the pawn table has four distinct entries, every x > 0 and \|y\| <= 1, y = 0 exactly for the first two (the single and double steps), and entry 1 is (2, 0) |
| Tokens.RestrictedShape | utilities/tokens.ts:47-57 | the restricted table is the pawn table with (2, 0) removed, and it is the pawn table without its entry 1, so the order of the other entries is kept: three entries, all with x = 1 |
| Tokens.RookShape | utilities/tokens.ts:80-85 | the rook table has four distinct entries, exactly the unit offsets with one zero component |
| Tokens.QueenIsRookAndBishop | utilities/tokens.ts:15-24 | the queen and king tables are the same sequence, and as a set it is the rook table plus the bishop table |
| Tokens.NoNullOffset | utilities/tokens.ts:3-85 | no table contains (0, 0) |
| Pieces.FenOf | classes/Pieces/Rook.ts:28-29 | the FEN character a constructor assigns names the piece's own kind and colour |
| Pieces.FenOfOnto | types/Piece.ts:6-19 | every FEN member is the character of exactly the (kind, colour) it names |
| Pieces.WhiteLetterIsUpperOfBlack | types/Piece.ts:7-18 | for each kind the White letter is the upper case of the Black one |
| Pieces.LettersByKind | classes/Pieces/Pawn.ts:35-37 | bishop, king, knight, pawn, queen and rook read b k n p q r for Black and B K N P Q R for White, as chosen by the six constructors |
| Pieces.Mirror | classes/Pieces/Pawn.ts:84-86 | `setDirectionsBlack`'s map keeps length and order, negates each x and keeps each y |
| Pieces.MirrorInvolution | classes/Pieces/Pawn.ts:84-86 | mirroring twice restores the table |
| Pieces.MirrorWithout | classes/Pieces/Pawn.ts:57-64 | mirroring the restricted table equals removing the mirrored double step from the mirrored table |
| Pieces.EveryKindHasDirections | classes/Pieces/Piece.ts:11-12 | every kind, in either colour, starts with a non-empty table that has no null offset |
| Pieces.PawnDirectionsByColor | classes/Pieces/Pawn.ts:27-33 | a White pawn's table is the pawn table exactly; a Black pawn's is it with x negated, same length, order and y; every White entry has x > 0 and every Black one x < 0 |
| Pieces.RestrictedDropsDoubleStep | classes/Pieces/Pawn.ts:57-64 | in either colour, the restricted table is the starting table minus that colour's double step, one entry shorter |
| Pieces.Piece.constructor | classes/Pieces/Pawn.ts:14-38 | colour and kind are the arguments, the FEN character is the one for that kind and colour, `moved` is false, and the table is the kind's initial table (mirrored for a Black pawn) |
| Pieces.Piece.SetDirectionsBlack | classes/Pieces/Pawn.ts:84-86 | the pawn's table becomes its mirror image, and `moved` is unchanged |
| Pieces.Piece.SetMoved | classes/Pieces/Pawn.ts:57-64 | `moved` holds the value assigned; a pawn's table becomes the restricted table (mirrored for Black) whatever it held before, so assigning twice equals assigning once; a King's or Rook's table is unchanged |
| JsArray.NewArray | classes/Chessboard.ts:29 | reference definition of `new Array(n)`, not a proved property: length n and no element |
| JsArray.MapArray | classes/Chessboard.ts:42 | `map` keeps the length, keeps holes as holes, and replaces each element by its image |
| JsArray.MapNewArray | classes/Chessboard.ts:29 | mapping over `new Array(n)` never calls the callback and gives n holes |
| JsArray.Spread | classes/Chessboard.ts:60 | spreading keeps the length and order and reads each hole as `undefined` |
| JsArray.Reversed | classes/Chessboard.ts:52 | position i of the reversed sequence holds position \|s\| − 1 − i of the original |
| JsArray.Reverse | classes/Chessboard.ts:52 | `reverse()` leaves the array holding its old contents back to front, in place |
| Board.Occupy | classes/Chessboard.ts:49 | spreading an array of pieces puts each piece reference, in order, into its own element |
| Board.RowSymbols | classes/Chessboard.ts:76 | the inner `map` keeps the row's shape, maps `null` to `null` and each piece to its FEN character |
| Board.FirstAbsentRow | classes/Chessboard.ts:75-76 | the first `undefined` row, where the outer `map`'s callback throws; none exactly when every row is present |
| Board.BoardSymbols | classes/Chessboard.ts:74-77 | given every row present, the getter returns one symbol row per grid row, in order |
| Board.Chessboard.Symbols | classes/Chessboard.ts:74-77 | the `chessboard` getter only reads the grid and returns one symbol row per grid row, row i being the inner `map` of row i |
| Board.BackRankKinds | classes/Chessboard.ts:43-53 | the home rank order is R, N, B, Q, K, B, N, R: queen at column 3, king at column 4, columns 5 to 7 the first three reversed |
| Board.Empties | classes/Chessboard.ts:29 | `pieces.empties` is four holes |
| Board.Majors | classes/Chessboard.ts:30-41 | each majors literal is a fresh array holding a new rook, knight and bishop of one colour, in that order, each unmoved with its initial table |
| Board.Side | classes/Chessboard.ts:43-54 | `side(color)` returns a home rank whose columns c and 7 − c hold the same object from the majors array, with a new queen and king between them, and leaves the majors array reversed |
| Board.SideRow | classes/Chessboard.ts:49-53 | the spread–queen–king–spread-again row has the array's objects at both ends in mirrored positions |
| Board.SideIsBackRank | classes/Chessboard.ts:43-54 | such a row, built from a majors array, is a home rank with the aliasing |
| Board.MapPawns | classes/Chessboard.ts:42 | `map(() => new Pawn(color))` makes a new pawn only at the source's elements and keeps every hole |
| Board.Pawns | classes/Chessboard.ts:42 | `pawns(color)` over `new Array(8)` gives eight holes and no pawn |
| Board.Chessboard.constructor | classes/Chessboard.ts:19-64 | `playerColor` is White, and the grid is White's home rank, eight holes, four `undefined` rows, eight holes, Black's home rank |
| Board.StartingLayout | classes/Chessboard.ts:28-63 | the constructor's body, the `pieces` object and then the row literal evaluated left to right, yields that grid |
| Board.AssembleStartingGrid | classes/Chessboard.ts:57-63 | the constructor's row literal, assembled from its parts, is that grid |
| Board.StartingGridBreaksGetter | classes/Chessboard.ts:60 | on the constructed grid not every row is present, and the first absent row is row 2 |
| Board.StartingPieces | classes/Chessboard.ts:42-63 | the constructed grid holds ten piece objects, those at columns 0 to 4 of the two home ranks, and no pawn |
| Board.StartingPiecesAtHome | classes/Chessboard.ts:43-63 | every piece on the constructed grid is one of columns 0 to 4 of a home rank, since columns 5 to 7 alias columns 2 to 0 and no other row holds a piece |
| Board.HomePiecesOnBoard | classes/Chessboard.ts:57-63 | each piece at columns 0 to 4 of a home rank is on the constructed grid |
| Board.HomePiecesCount | classes/Chessboard.ts:30-53 | the two home ranks' columns 0 to 4 are ten distinct pieces, none a pawn |
| Board.HomeRankPieces | classes/Chessboard.ts:43-53 | columns 0 to 4 of a home rank are five distinct pieces of its colour, none a pawn |
| Board.StartingRanksSymbols | classes/Chessboard.ts:74-77 | the constructed home ranks read as the FEN characters of R N B Q K B N R in their colour, and the pawn ranks as eight holes |
| Board.HomeRankSymbols | classes/Chessboard.ts:76 | a home rank reads as its kinds' FEN characters |
| Board.RankSymbols | classes/Chessboard.ts:76 | reference definition of an expected symbol row, not a proved property: the FEN characters of a list of kinds in one colour, position by position |
| Board.BackRankLetters | classes/Chessboard.ts:43-53 | the home ranks spell RNBQKBNR for White and rnbqkbnr for Black |
| Board.NewRank | classes/Chessboard.ts:43-53 | one new piece per kind, each fresh and in its initial state, no object twice |
| Board.StandardSide | classes/Chessboard.ts:43-54 | the corrected `side`: a home rank of eight distinct pieces |
| Board.StandardPawns | classes/Chessboard.ts:42 | the corrected `pawns`: eight distinct pawns of the colour |
| Board.Chessboard.Standard | classes/Chessboard.ts:27-64 | the corrected constructor builds the intended grid, with `playerColor` White |
| Board.AssembleIntendedGrid | classes/Chessboard.ts:57-63 | the corrected row literal, assembled from its parts, is the intended grid |
| Board.PawnRankSymbols | classes/Chessboard.ts:76 | a full pawn rank reads as eight pawn characters of its colour |
| Board.IntendedGridSymbols | classes/Chessboard.ts:74-77 | on the intended grid every row is present, and the getter returns the standard starting position |
| Board.SymbolsByRow | classes/Chessboard.ts:74-77 | the getter's outer `map` returns a given sequence of rows whenever each grid row reads as the matching row of it |

## Left out

- Move generation, attack and check detection, castling, move application, turn switching and last-move recording are not in the modelled files.
- The `TCheckState`, `TLastMove`, `TSafePosition` and `TSquareSelected` aliases are declared but never computed.
- The image `PATH` strings in utilities/tokens.ts are UI asset paths.
- The imports of classes/Chessboard.ts:1-7 point at `../Pieces/…`. This concerns module resolution, not behaviour.
- The class hierarchy, `instanceof` (classes/Chessboard.ts:76) and `protected override` are replaced by the `Kind` tag. In the getter, a square is a piece or `null`, and nothing else can reach the `instanceof` test.
- The getters `color`, `directions`, `FENCharacter`, `moved`, and `playerColor` (classes/Pieces/Piece.ts:31-57, classes/Pieces/Pawn.ts:47-49, classes/Pieces/Rook.ts:39-41, classes/Pieces/King.ts:39-41, classes/Chessboard.ts:88-90) are reads of the modelled fields. So the value a getter returns is the field that the constructor or `SetMoved` states.
- Tables are shared by reference in the code and are values here. No shown code mutates a table in place, since `setDirectionsBlack` builds a new array with `map`.
- Pieces.Piece.SetMoved requires a kind that declares `moved`. The Bishop, Knight and Queen classes have no setter, and an assignment to `moved` on them would only add an unrelated property.
- Board.Chessboard.constructor does not state that the pieces on the grid are fresh and in their initial state, and neither does `Board.StartingLayout`. The parts state it: `Board.Majors` for the rook, knight and bishop of each array, `Board.Side` for the queen and king (and that columns 0 to 2 are the array's own objects), `Board.MapPawns` for any pawn it makes. The whole-grid statements leave it out to keep their proofs small.
- JavaScript's `-0`: `-1 * x` never sees x = 0, because every pawn entry has x ≠ 0.

## Findings

| source | as written | input that shows it | evidently intended | confidence | as-written member | corrected member |
|---|---|---|---|---|---|---|
| classes/Chessboard.ts:42 | `new Array(8).map(() => new Pawn(color))` maps over holes, so the callback never runs and no pawn is made | the constructor (no argument) | eight new pawns per pawn rank | not executed | Board.StartingPieces | Board.StandardPawns |
| classes/Chessboard.ts:29 | `new Array(4).map(...)` is four holes, so spreading it makes rows 2 to 5 `undefined` and the getter throws at row 2 | the constructor, then the `chessboard` getter | four rows of eight `null`s, and a getter returning the starting position | not executed | Board.StartingGridBreaksGetter | Board.IntendedGridSymbols |
| classes/Chessboard.ts:49-52 | `reverse()` reverses the majors array in place after it was spread, so on each home rank columns c and 7 − c hold the same object | the constructor (no argument) | eight distinct pieces per home rank | not executed | Board.Side | Board.StandardSide |
