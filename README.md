# pychess bitboard engine in Dafny

This project models the core of a small chess engine that keeps a position
as twelve bitboards. Each bitboard is a Python integer whose binary digit
`sq` says whether square `sq` holds a piece (a1 = 0, h8 = 63). On top of
these the engine builds:

- square names and bit primitives;
- knight attack masks guarded against wrapping around the a and h files;
- sliding-piece rays that stop at the board edge, at a file wrap and on the
  first blocker;
- the position record with its cached occupancy boards;
- `make_move`, which copies a position and updates the copy in place;
- attack detection, apply-then-check legality and knight move generation;
- a material plus piece-square evaluation and a Zobrist-style XOR hash;
- a fail-hard alpha-beta negamax search with a root driver;
- a Forsyth–Edwards Notation decoder, and the Universal Chess Interface
  `position`, `go` and move-text parsers.

There is one Dafny module per source file. Bitboards are unbounded
integers, as in Python. The module `PyInt` defines Python's `~`, `&`, `|`,
`^`, `<<`, `>>` and `int.bit_length` digit by digit, in two's complement
with infinitely many sign digits. This keeps `bb & -bb`, `~x & MASK64` and
unmasked left shifts exactly as the source writes them.

A position exists in two forms:

- `Positions.Board` is a value snapshot of every field. The pure
  specification functions work on it: `MakeUnmake.Apply`,
  `Evaluation.Score`, `Zobrist.Hash`, `Fen.Decode` and
  `Uci.ParsedPosition`.
- `Positions.Position` is a class whose `pieces` array and fields the
  imperative methods update. Those methods are `MakeMove`, `ParseFen`,
  `RecomputeOccupancy`, `Evaluate`, `HashPosition` and `ParsePosition`.
  Each is proved equal to its specification function, and the properties
  are proved as lemmas about those functions.

The search takes what it calls on a position as a parameter
(`Search.Engine`):

- the legal-move generator and the in-check test, which are not part of
  this model;
- `make_move` and `evaluate`, which the predicate `Search.UsesModel` ties
  to `Apply` and `Score`.

## Model

| member | source | states |
|---|---|---|
| Bitboard.SquareIndex | engine/bitboard.py:5-6 | for a file and rank in 0..7 the index lies in 0..63 and gives back the file as `% 8` and the rank as `// 8` |
| Bitboard.FileIndex | engine/bitboard.py:10 | `FILES.index(c)` fails exactly for a character outside a–h; otherwise it gives that file's position in "abcdefgh" |
| Bitboard.RankIndex | engine/bitboard.py:11 | `RANKS.index(c)` fails exactly for a character outside 1–8; otherwise it gives that rank's position in "12345678" |
| Bitboard.IndexOf | engine/bitboard.py:10-11 | `str.index`: no result exactly when the character is absent, otherwise the position of its first occurrence |
| Bitboard.UciToSq | engine/bitboard.py:9-12 | the square named by the first two characters; it fails when there are fewer than two, or when the file or rank character is not a coordinate |
| Bitboard.SqToUci | engine/bitboard.py:14-17 | a two-character name, a file letter a–h then a rank digit 1–8; the round trips below pin down which |
| Bitboard.SqToUciRoundTrip | engine/bitboard.py:9-17 | `uci_to_sq(sq_to_uci(sq)) == sq` for every square |
| Bitboard.UciToSqRoundTrip | engine/bitboard.py:9-17 | `sq_to_uci(uci_to_sq(s)) == s` for every name of a file letter a–h and a rank digit 1–8 |
| Bitboard.FilesDistinct | engine/bitboard.py:1 | proof helper, not a statement of the source: the file letters are pairwise distinct |
| Bitboard.RanksDistinct | engine/bitboard.py:2 | proof helper, not a statement of the source: the rank digits are pairwise distinct |
| Bitboard.IsSetIsDigit | engine/bitboard.py:34-35 | `(bb >> sq) & 1 == 1` reads binary digit `sq` of `bb` |
| Bitboard.BitValue | engine/bitboard.py:22-23 | `1 << sq` is `2^sq` |
| Bitboard.BitSquares | engine/bitboard.py:22-23 | `bit(sq)` holds `sq` and no other square |
| Bitboard.SetBitSquares | engine/bitboard.py:26-27 | after `set_bit(bb, sq)`, `sq` is set and every other square keeps its membership |
| Bitboard.ClearBitSquares | engine/bitboard.py:29-30 | after `clear_bit(bb, sq)`, `sq` is clear and every other square keeps its membership |
| Bitboard.EmptySquares | engine/bitboard.py:34-35 | the board 0 holds no square |
| Bitboard.LowestIsLowest | engine/bitboard.py:37-43 | the lowest set square of a positive board is set, and no square below it is |
| Bitboard.IsolateLowest | engine/bitboard.py:40 | `bb & -bb` keeps exactly the lowest set square of a positive board |
| Bitboard.BitLengthPow2 | engine/bitboard.py:43 | `(2^k).bit_length() - 1 == k` |
| Bitboard.XorSetSquare | engine/bitboard.py:45 | XOR with the bit of a set square subtracts that bit |
| Bitboard.AndDecrement | engine/bitboard.py:37-46 | `bb & (bb - 1)` is `bb` with its lowest set square removed |
| Bitboard.ClearSetSquare | engine/bitboard.py:29-30 | clearing a set square subtracts its bit |
| Bitboard.PopCountClear | engine/bitboard.py:44-46 | removing a set square lowers the number of set squares by one |
| Bitboard.PopLsbEmpty | engine/bitboard.py:37-46 | `pop_lsb(0)` returns square -1 and the empty board |
| Bitboard.PopLsbSquare | engine/bitboard.py:37-43 | for a positive board, the square returned is set and every square below it is clear |
| Bitboard.PopLsbRest | engine/bitboard.py:44-46 | for a positive board, the remainder is the board with exactly that square cleared; it is strictly smaller and has one set square fewer |
| Bitboard.ClearLowestAgrees | engine/bitboard.py:37-46 | `bb & (bb - 1)` equals the remainder `pop_lsb` returns |
| Bitboard.SquaresPeel | engine/bitboard.py:37-46 | repeated `pop_lsb` visits the squares of `Squares(bb)` in order |
| Bitboard.SquaresMembers | engine/bitboard.py:37-46 | `Squares(bb)` lists exactly the set squares of a non-negative board |
| Bitboard.SquaresSorted | engine/bitboard.py:37-46 | `Squares(bb)` is strictly increasing and has as many entries as set squares |
| Bitboard.SquaresOnBoard | engine/bitboard.py:37-46 | every set square of a board below `2^64` is below 64 |
| Bitboard.SquaresAllOnBoard | engine/bitboard.py:37-46 | every square listed for a board below `2^64` is a board square |
| Bitboard.BoolSquares | engine/bitboard.py:26-35 | `a \| b`, `a & b` and `~a` act square by square |
| Bitboard.AndNonZero | engine/detect_attack.py:21-31 | `a & b` is non-zero exactly when the two boards share a square |
| Bitboard.AndBitNonZero | engine/sliders.py:52 | `bb & bit(sq)` is non-zero exactly when `sq` is set |
| Bitboard.SetClearBounds | engine/bitboard.py:26-30 | setting a board square keeps a board below `2^64`; clearing any square does too |
| Bitboard.Bit | engine/bitboard.py:22-23 | `bit(sq)`, the board `1 << sq` (its squares: `BitSquares`) |
| Bitboard.SetBit | engine/bitboard.py:26-27 | `set_bit(bb, sq)`, the board `bb \| bit(sq)` (its squares: `SetBitSquares`) |
| Bitboard.ClearBit | engine/bitboard.py:29-30 | `clear_bit(bb, sq)`, the board `bb & ~bit(sq)` with Python's `~` (its squares: `ClearBitSquares`) |
| Bitboard.IsSet | engine/bitboard.py:34-35 | `is_set(bb, sq)`, the test `(bb >> sq) & 1 == 1` |
| Bitboard.Lowest | engine/bitboard.py:37-43 | reference definition: the least set square of a positive board, which `pop_lsb` is proved to return |
| Bitboard.PopLsb | engine/bitboard.py:37-46 | `pop_lsb(bb)`: the square `(bb & -bb).bit_length() - 1` and the board `bb ^ (bb & -bb)` |
| Bitboard.PopCount | engine/evaluation.py:89-94 | reference definition: the number of set squares of a non-negative board, which `count_bits` is proved to return |
| Bitboard.Squares | engine/bitboard.py:37-46 | the set squares of a non-negative board in ascending order: the squares repeated `pop_lsb` visits |
| Attacks.Mask64 | engine/attacks.py:14-15 | `_mask64(x)` is non-negative, below `2^64`, and keeps exactly the digits 0..63 of `x` |
| Attacks.FullIsLowOnes | engine/attacks.py:8-11 | `0xFFFFFFFFFFFFFFFF` is `2^64 - 1`, the 64 board squares |
| Attacks.FileAValue | engine/attacks.py:3 | `FILE_A` is one square per rank on file a |
| Attacks.FileASquares | engine/attacks.py:3 | `FILE_A` holds exactly the squares of file a |
| Attacks.ShiftedFileSquares | engine/attacks.py:4-6 | `FILE_A << k` holds exactly the squares of file `k` |
| Attacks.ComplementSquares | engine/attacks.py:8-11 | `~m & 0xFFFFFFFFFFFFFFFF` holds exactly the board squares not in `m` |
| Attacks.NotFileASquares | engine/attacks.py:8 | `NOT_FILE_A` holds exactly the board squares off file a |
| Attacks.NotFileHSquares | engine/attacks.py:9 | `NOT_FILE_H` holds exactly the board squares off file h |
| Attacks.NotFileABSquares | engine/attacks.py:10 | `NOT_FILE_AB` holds exactly the board squares off files a and b |
| Attacks.NotFileGHSquares | engine/attacks.py:11 | `NOT_FILE_GH` holds exactly the board squares off files g and h |
| Attacks.NotFileMasks | engine/attacks.py:3-11 | the four masks together hold exactly the board squares off their named files |
| Attacks.GuardUp | engine/attacks.py:26-35 | `(bit(sq) & mask) << k` holds `sq + k`, and nothing else, exactly when `mask` holds `sq` |
| Attacks.GuardDown | engine/attacks.py:30-39 | `(bit(sq) & mask) >> k` holds `sq - k`, and nothing else, exactly when `mask` holds `sq` |
| Attacks.KnightDigits | engine/attacks.py:17-42 | the eight guarded shifts, square by square |
| Attacks.KnightAttacksGeometry | engine/attacks.py:17-42 | a square is in `knight_attacks_from(sq)` exactly when it is a board square one file and two ranks, or two files and one rank, away from `sq`: the file guards forbid wrapping around |
| Attacks.KnightAttacksSymmetric | engine/attacks.py:17-42 | a knight never attacks its own square, and `t` is attacked from `s` exactly when `s` is attacked from `t` |
| Attacks.KnightAttacksTable | engine/attacks.py:45 | `KNIGHT_ATTACKS` has 64 entries and entry `sq` is `knight_attacks_from(sq)` |
| Attacks.KingDigits | engine/detect_attack.py:24 | the king's eight guarded single steps, square by square |
| Attacks.KingAttacksGeometry | engine/detect_attack.py:24 | a square is in the king table entry of `sq` exactly when it is another board square at most one file and one rank away |
| Attacks.KingShiftsAreSteps | engine/detect_attack.py:24 | the guarded shifts reach exactly the king steps |
| Attacks.KingAttacksSymmetric | engine/detect_attack.py:24 | a king never attacks its own square, and king attack is symmetric |
| Attacks.KingAttacksTable | engine/detect_attack.py:2 | the king table has 64 entries, entry `sq` being the king set of `sq` |
| Attacks.FileARanks | engine/attacks.py:3 | one square per rank on file a, for the lowest `n` ranks; `FILE_A` is the case of eight ranks |
| Attacks.KnightAttacksFrom | engine/attacks.py:17-42 | `knight_attacks_from(sq)`: the eight guarded shifts of `1 << sq` ORed together and masked to 64 bits |
| Attacks.KnightStep | engine/attacks.py:17-42 | reference definition: two board squares one file and two ranks, or two files and one rank, apart |
| Attacks.KingAttacksFrom | engine/detect_attack.py:24 | the `KING_ATTACKS` entry of `sq`, by analogy with the knight: the eight single steps, guarded at the a and h files |
| Attacks.KingStep | engine/detect_attack.py:24 | reference definition: two distinct board squares at most one file and one rank apart |
| Sliders.FileOf | engine/sliders.py:19-20 | `sq % 8` lies in 0..7 for every integer, as Python's floor remainder does |
| Sliders.RankOf | engine/sliders.py:22-23 | `sq == 8 * (sq // 8) + sq % 8` for every integer, and the rank of a board square lies in 0..7 |
| Sliders.RayAttacks | engine/sliders.py:26-57 | the loop computes `Ray(sq, dir, occ)`; its invariant is that the squares found so far, together with the rest of the ray from the current square, make the whole ray |
| Sliders.RayFromNonNegative | engine/sliders.py:26-57 | every ray is a non-negative board |
| Sliders.AttacksNonNegative | engine/sliders.py:60-79 | rook, bishop and queen attack sets are non-negative |
| Sliders.StepOnBoard | engine/sliders.py:33-46 | a compass step that stays on the board passes both exit tests and changes the file by `df` |
| Sliders.StepOffBoard | engine/sliders.py:33-46 | a compass step over an edge is stopped by the range test or by the file-wrap test |
| Sliders.BlockerTest | engine/sliders.py:52-53 | `occupancy & bit(current_sq)` is non-zero exactly when that square is occupied |
| Sliders.RayGeometry | engine/sliders.py:26-57 | a ray in a compass direction holds exactly the squares on that line up to and including the first occupied one: it never wraps around an edge and never passes a blocker |
| Sliders.NextUnblocked | engine/sliders.py:26-57 | proof helper, not a statement of the source: nothing lies strictly between a square and its neighbour |
| Sliders.UnblockedStep | engine/sliders.py:49-55 | proof helper, not a statement of the source: past an empty neighbour, the line is unblocked exactly where the line from that neighbour is |
| Sliders.RayOnBoard | engine/sliders.py:26-57 | a ray holds only board squares, never its own square, and only squares 1 to 7 steps away |
| Sliders.RayStopsAtBlocker | engine/sliders.py:49-53 | the first occupied square on a ray belongs to it, and no square beyond it does |
| Sliders.DirectionsAreCompass | engine/sliders.py:7-17 | the eight named deltas are `8 * rank step + file step` for the eight compass directions |
| Sliders.FourRays | engine/sliders.py:60-75 | a square is in the OR of four rays exactly when it is in one of them |
| Sliders.RookGeometry | engine/sliders.py:60-66 | a rook sees exactly the squares it sees along the four orthogonal lines |
| Sliders.BishopGeometry | engine/sliders.py:69-75 | a bishop sees exactly the squares it sees along the four diagonals |
| Sliders.RookEmptyBoard | engine/sliders.py:60-66 | with empty occupancy, a rook attacks exactly the other squares of its rank and file |
| Sliders.BishopDiagonal | engine/sliders.py:69-75 | every square a bishop attacks is `d` files and `d` ranks away, with `d >= 1` |
| Sliders.QueenIsRookAndBishop | engine/sliders.py:78-79 | a square is in `queen_attacks` exactly when it is in `rook_attacks` or `bishop_attacks` |
| Sliders.RayFrom | engine/sliders.py:31-57 | what the loop of `ray_attacks` adds from the current square on: stop off the board or on a file jump of more than one, else add the square and stop on a blocker |
| Sliders.Ray | engine/sliders.py:26-57 | the board `ray_attacks(sq, direction, occupancy)` returns (proved to be the line up to the first blocker: `RayGeometry`) |
| Sliders.RookAttacks | engine/sliders.py:60-66 | `rook_attacks`: the OR of the north, south, east and west rays |
| Sliders.BishopAttacks | engine/sliders.py:69-75 | `bishop_attacks`: the OR of the four diagonal rays |
| Sliders.QueenAttacks | engine/sliders.py:78-79 | `queen_attacks`: the OR of the rook and bishop sets |
| Sliders.Sees | engine/sliders.py:26-57 | reference definition: `t` lies on the line from `s` in a compass direction and no occupied square lies strictly between them |
| Positions.PieceIndex | engine/position.py:7-8 | an index, when a letter has one, is below 12 |
| Positions.PieceIndexMeaning | engine/position.py:7-8 | `PIECE_TO_INDEX` is `enumerate(PIECE_ORDER)`: letter `PIECE_ORDER[i]` has index `i` |
| Positions.PieceOrderDistinct | engine/position.py:7 | the twelve letters are pairwise distinct |
| Positions.PieceIndexBijective | engine/position.py:7-8 | `PIECE_TO_INDEX` is a bijection between the twelve letters and 0..11; white letters get 0..5 and black letters 6..11 |
| Positions.UnionSquares | engine/position.py:44-47 | a square is in the OR of a run of boards exactly when it is in one of them |
| Positions.UnionBelow | engine/position.py:44-50 | an OR of boards below `2^64` is below `2^64` |
| Positions.RecomputeProperties | engine/position.py:41-50 | after recomputation the occupancy boards agree with the pieces; only the three occupancy fields change; recomputing twice equals recomputing once; a consistent position is exactly a fixed point |
| Positions.OccupancySquares | engine/position.py:41-50 | in a consistent position, `white_occ`, `black_occ` and `all_occ` hold exactly the squares of the white pieces, the black pieces and all pieces |
| Positions.OccupancyOnBoard | engine/position.py:41-50 | a consistent position with piece boards below `2^64` has occupancy boards below `2^64` |
| Positions.EmptyBoardProperties | engine/position.py:27-39 | the empty position holds no piece, and its occupancy boards are consistent |
| Positions.Position.Empty | engine/position.py:27-39 | twelve zero boards, zero occupancy, side "w", castling "-", no en-passant square, halfmove 0, fullmove 1 |
| Positions.Position.FromBoard | engine/makeunmake.py:6 | a new position with a fresh list of boards holding exactly the given fields |
| Positions.Position.Copy | engine/makeunmake.py:6 | a fresh position, with a fresh list of boards, equal field by field to the original |
| Positions.Position.RecomputeOccupancy | engine/position.py:41-50 | `white_occ` is the OR of boards 0..5 and `black_occ` the OR of boards 6..11 (loop invariants), `all_occ` is their OR, and nothing else changes |
| Positions.Union | engine/position.py:44-47 | the OR of a range of piece boards, folded from the left as the two loops do |
| Positions.OccupancyConsistent | engine/position.py:15-18 | the cached boards agree with the pieces: white, black and their OR |
| Positions.Recompute | engine/position.py:41-50 | `recompute_occupancy` on a snapshot: the occupancy boards rebuilt, every other field kept |
| Positions.OnBoard | engine/position.py:12-13 | every one of the twelve piece boards fits in 64 bits |
| Positions.EmptyBoard | engine/position.py:27-39 | the snapshot `Position.empty()` builds |
| Positions.Place | engine/fen.py:34-36 | a snapshot with one more piece of board `k` on square `t`, as `set_bit` on a piece board |
| Positions.Position.Valid | engine/position.py:12-13 | the object holds twelve piece boards |
| Positions.Position.Value | engine/position.py:10-25 | the value snapshot of the object's fields |
| Moves.ToUci | engine/move.py:10-13 | four characters without a promotion and five with one; the first two name the origin, the next two the target, and the fifth is the promotion letter unchanged |
| MakeUnmake.FirstHolder | engine/makeunmake.py:12-16 | the index found is in the range and its board holds the square, and no earlier board in the range holds it; none is found exactly when no board in the range holds it |
| MakeUnmake.RemoveChar | engine/makeunmake.py:87-107 | `str.replace(c, "")` keeps exactly the characters other than `c` |
| MakeUnmake.MovePiece | engine/makeunmake.py:19-20 | only the mover's board changes |
| MakeUnmake.Capture | engine/makeunmake.py:23-26 | only the first enemy board holding the target can change |
| MakeUnmake.Promote | engine/makeunmake.py:29-35 | without a promotion nothing changes; with one, only the mover's board and the promoted kind's board change |
| MakeUnmake.EnPassantCapture | engine/makeunmake.py:39-49 | only the enemy pawn board can change, and nothing changes unless an own pawn lands on the en-passant square |
| MakeUnmake.CastleRook | engine/makeunmake.py:65-80 | only the own rook board can change, and nothing changes unless the own king moves two files |
| MakeUnmake.RevokeRights | engine/makeunmake.py:84-107 | the letters kept are the old letters minus the revoked ones |
| MakeUnmake.PiecesAfter | engine/makeunmake.py:8-80 | the move leaves twelve piece boards |
| MakeUnmake.FindMover | engine/makeunmake.py:12-16 | the loop returns the first own board holding the origin |
| MakeUnmake.MovePieceInPlace | engine/makeunmake.py:19-20 | the array afterwards holds `MovePiece` of its old contents |
| MakeUnmake.CaptureInPlace | engine/makeunmake.py:23-26 | the loop leaves the array holding `Capture` of its old contents |
| MakeUnmake.PromoteInPlace | engine/makeunmake.py:29-35 | the array afterwards holds `Promote` of its old contents |
| MakeUnmake.EnPassantInPlace | engine/makeunmake.py:39-49 | the array afterwards holds `EnPassantCapture` of its old contents |
| MakeUnmake.CastleRookInPlace | engine/makeunmake.py:64-80 | the array afterwards holds `CastleRook` of its old contents |
| MakeUnmake.UpdateCastling | engine/makeunmake.py:84-108 | the step-by-step rewriting of `new_castling` gives the kept letters, or "-" when none is left |
| MakeUnmake.ApplyFields | engine/makeunmake.py:53-127 | `Apply` written out field by field |
| MakeUnmake.UpdatePieces | engine/makeunmake.py:8-80 | the copy's boards become `PiecesAfter`, and the mover found is the first own board holding the origin |
| MakeUnmake.SetState | engine/makeunmake.py:53-127 | writing the computed fields and recomputing the occupancy leaves the copy equal to `Apply` |
| MakeUnmake.MakeMove | engine/makeunmake.py:5-128 | a fresh position equal to `Apply(pos, move)`; the argument is left unchanged |
| MakeUnmake.Mover | engine/makeunmake.py:12-16 | the mover is an own board that holds the origin |
| MakeUnmake.FirstHolderFrame | engine/makeunmake.py:12-26 | proof helper, not a statement of the source: the first holder does not depend on boards outside the range searched |
| MakeUnmake.Steps | engine/makeunmake.py:19-80 | the boards after each step, ending with those of `Apply` |
| MakeUnmake.MoverBoard | engine/makeunmake.py:12-20 | without a promotion, the mover's board afterwards holds exactly the target and its old squares other than the origin |
| MakeUnmake.OtherOwnBoards | engine/makeunmake.py:19-80 | every other board of the side to move is unchanged, unless it is the promoted kind or the rook board during castling |
| MakeUnmake.CaptureBoards | engine/makeunmake.py:23-26 | away from en passant, the first enemy board holding the target loses exactly that square and every other enemy board is unchanged, so at most one piece is captured |
| MakeUnmake.PromotedIsOwn | engine/makeunmake.py:33-34 | a promotion letter, cased for the side to move, names one of that side's boards |
| MakeUnmake.PromotionBoards | engine/makeunmake.py:29-35 | with a promotion, the target ends on the promoted kind's board, and the mover's board no longer holds it unless the promoted kind is the mover's |
| MakeUnmake.PromotionTarget | engine/makeunmake.py:29-35 | the promoted kind's board holds the target after the move |
| MakeUnmake.PromotionMoverBoard | engine/makeunmake.py:29-31 | when the promoted kind is not the mover's, the mover's board does not hold the target |
| MakeUnmake.PromotedKeepsTarget | engine/makeunmake.py:39-80 | the en-passant and castling steps never clear the promoted piece on the target |
| MakeUnmake.EnPassantBoards | engine/makeunmake.py:39-49 | an own pawn landing on the en-passant square removes the enemy pawn one rank behind it (below for white, above for black) |
| MakeUnmake.EnPassantSquare | engine/makeunmake.py:53-62 | there is a new en-passant square exactly after an own pawn's double push (+16 for white, -16 for black), and it is the square between origin and target |
| MakeUnmake.CastlingRookBoard | engine/makeunmake.py:64-80 | a king moving two files right takes its rook from origin + 3 to origin + 1; moving two left, from origin - 4 to origin - 1 |
| MakeUnmake.CastlingRightsLetters | engine/makeunmake.py:84-108 | the result is never empty; a letter survives exactly when it was held and not revoked (own king moved, or its rook corner is the origin or the target); when every held letter is revoked the result is "-" |
| MakeUnmake.ClocksAndSide | engine/makeunmake.py:110-124 | the halfmove clock restarts on a pawn move or a capture and otherwise grows by one; the fullmove number grows only after black moves; the side flips |
| MakeUnmake.UpdateFits | engine/makeunmake.py:19-80 | replacing one board by a board below `2^64` keeps all boards below `2^64` |
| MakeUnmake.ClearFits | engine/makeunmake.py:25 | clearing a square keeps all boards below `2^64` |
| MakeUnmake.SetFits | engine/makeunmake.py:35 | setting a board square keeps all boards below `2^64` |
| MakeUnmake.MoveBitFits | engine/makeunmake.py:19-20 | moving one piece between board squares keeps all boards below `2^64` |
| MakeUnmake.MovePieceFits | engine/makeunmake.py:19-20 | the piece move keeps boards below `2^64` |
| MakeUnmake.CaptureFits | engine/makeunmake.py:23-26 | the capture keeps boards below `2^64` |
| MakeUnmake.PromoteFits | engine/makeunmake.py:29-35 | the promotion keeps boards below `2^64` |
| MakeUnmake.EnPassantFits | engine/makeunmake.py:39-49 | the en-passant capture keeps boards below `2^64` |
| MakeUnmake.CastleRookFits | engine/makeunmake.py:64-80 | the rook move keeps boards below `2^64` |
| MakeUnmake.ApplyConsistent | engine/makeunmake.py:126-127 | after the move the occupancy boards are the unions of the piece boards, and boards below `2^64` stay below `2^64` |
| MakeUnmake.Upper | engine/makeunmake.py:33 | `str.upper()` on one ASCII character |
| MakeUnmake.Lower | engine/makeunmake.py:33 | `str.lower()` on one ASCII character |
| MakeUnmake.PromoLetter | engine/makeunmake.py:33 | the promotion letter in the mover's case |
| MakeUnmake.MoverOf | engine/makeunmake.py:11-16 | the first board of the side to move holding the origin, or none |
| MakeUnmake.Makeable | engine/makeunmake.py:5-128 | `make_move` does not raise: twelve boards, non-negative squares, a mover, a known promotion letter, and no negative shift from en passant or castling |
| MakeUnmake.Victim | engine/makeunmake.py:22-26 | the first enemy board holding the target, which the capture step clears |
| MakeUnmake.EnPassantFires | engine/makeunmake.py:39-42 | the move lands the side's pawn on the en-passant square |
| MakeUnmake.NewEp | engine/makeunmake.py:51-62 | the new en-passant square: halfway along a pawn's double push, none otherwise |
| MakeUnmake.Revoked | engine/makeunmake.py:84-107 | the castling letters the move takes away: both of the side's after a king move, one for a rook corner left or landed on |
| MakeUnmake.CastlingRights | engine/makeunmake.py:84-108 | the castling text after the move: the letters not revoked, or "-" when none is left |
| MakeUnmake.Apply | engine/makeunmake.py:5-129 | `make_move` on a snapshot: the boards after the move, capture, promotion, en passant and castling steps, the new en-passant square, castling rights, clocks and side, with occupancy recomputed |
| DetectAttack.PieceBoardLetters | engine/detect_attack.py:6-19 | the letters "PNBRQK" and "pnbrqk" name the boards of the side asked about, in order |
| DetectAttack.PawnHitsSquares | engine/detect_attack.py:34-52 | the two squares a pawn can attack `sq` from, with the file guards |
| DetectAttack.GuardedBit | engine/detect_attack.py:37-50 | the set built by `attackers \|= 1 << x` when the guard holds |
| DetectAttack.PawnAttackersGeometry | engine/detect_attack.py:34-52 | white: the attacker set is `sq - 9` when `sq` is not on file a and `sq - 7` when not on file h; black: `sq + 9` when not on file h and `sq + 7` when not on file a; only on-board squares, never straight ahead |
| DetectAttack.TableHit | engine/detect_attack.py:21-25 | `table[sq] & pieces` is non-zero exactly when a piece stands on a square of the entry |
| DetectAttack.UnionHit | engine/detect_attack.py:27-31 | `attacks & (a \| c)` is non-zero exactly when a square of `attacks` is in `a` or `c` |
| DetectAttack.LeaperTests | engine/detect_attack.py:21-25 | the knight and king tests fire exactly when a knight, or the king, of the side stands a step away |
| DetectAttack.SliderTests | engine/detect_attack.py:27-31 | the slider tests fire exactly when a rook or queen sees `sq` along an open line, or a bishop or queen along an open diagonal |
| DetectAttack.PawnTest | engine/detect_attack.py:33-52 | the pawn test fires exactly when a pawn of the side attacks `sq` diagonally forward |
| DetectAttack.IsSquareAttackedGeometry | engine/detect_attack.py:5-54 | `is_square_attacked` is true exactly when one of the piece tests holds, and false otherwise |
| DetectAttack.PieceBoard | engine/detect_attack.py:6-19 | the board of a kind of piece of the side asked about |
| DetectAttack.PawnAttackers | engine/detect_attack.py:33-52 | the `attackers` board of the pawn test, for a board square or -1 |
| DetectAttack.PawnHits | engine/detect_attack.py:33-52 | reference definition: a pawn on `p` attacks `t`, one rank forward for its side and one file aside |
| DetectAttack.Entry | engine/detect_attack.py:21-25 | Python's `table[sq]`, where a negative index counts from the end |
| DetectAttack.IsSquareAttacked | engine/detect_attack.py:5-54 | `is_square_attacked(pos, sq, by_side)`: the knight, king, rook-or-queen, bishop-or-queen and pawn tests in order |
| DetectAttack.RookLine | engine/detect_attack.py:27-28 | reference definition: two squares see each other along an open rank or file |
| DetectAttack.BishopLine | engine/detect_attack.py:30-31 | reference definition: two squares see each other along an open diagonal |
| DetectAttack.AttackedBy | engine/detect_attack.py:5-54 | reference definition: a knight or the king a step away, a rook or queen on an open line, a bishop or queen on an open diagonal, or a pawn attacking diagonally forward |
| DetectAttack.AttackedBelowH1 | engine/detect_attack.py:5-54 | reference definition for square -1: a knight or the king a step from h8; a rook or queen on h1 or, past an empty h1, up the h-file; a bishop or queen on g1 or, past an empty g1, up its diagonal; a black pawn on g1 |
| DetectAttack.NorthBelowH1 | engine/sliders.py:31-55 | from -1, whose file is `-1 % 8 == 7`, the north ray enters on h1 and then goes on as the ray from h1 |
| DetectAttack.NorthWestBelowH1 | engine/sliders.py:31-55 | from -1 the north-west ray enters on g1 and then goes on as the ray from g1 |
| DetectAttack.OtherRaysBelowH1 | engine/sliders.py:36-46 | from -1 the other six rays are empty: they leave the board or jump to file a at once |
| DetectAttack.EnteringRay | engine/sliders.py:48-55 | a ray that enters on `e` holds `e` and, past an empty `e`, exactly what is seen from `e` |
| DetectAttack.RookRaysBelowH1 | engine/sliders.py:60-66 | `rook_attacks(-1, occ)` holds h1 and, past an empty h1, the h-file up to the first blocker |
| DetectAttack.BishopRaysBelowH1 | engine/sliders.py:69-75 | `bishop_attacks(-1, occ)` holds g1 and, past an empty g1, its north-west diagonal up to the first blocker |
| DetectAttack.PawnsBelowH1 | engine/detect_attack.py:33-52 | on square -1 no white pawn is an attacker, and a black pawn is exactly when it stands on g1 |
| DetectAttack.LeaperTestsBelowH1 | engine/detect_attack.py:21-25 | on square -1 the knight and king tests read the entries for h8 and fire exactly for a piece a step from h8 |
| DetectAttack.SliderTestsBelowH1 | engine/detect_attack.py:27-31 | on square -1 the slider tests fire exactly for the h-file and g1-diagonal attackers of `AttackedBelowH1` |
| DetectAttack.TestsBelowH1 | engine/detect_attack.py:5-54 | on square -1 the function is the disjunction of its five tests |
| DetectAttack.IsSquareAttackedBelowH1 | engine/detect_attack.py:5-54 | on square -1, which `pop_lsb` gives for an empty board, `is_square_attacked` is true exactly when `AttackedBelowH1` holds |
| MoveValidator.KingSquare | engine/move_validator.py:11 | the square `pop_lsb` finds on a king board lies in -1..63; it is -1 exactly for the empty board, and otherwise it is set and no lower square is |
| MoveValidator.IsLegalMeaning | engine/move_validator.py:7-17 | a move is legal exactly when, after `make_move`, no piece of the other side attacks the lowest square of the mover's king board; when the mover has no king left, exactly when nothing attacks square -1 as `AttackedBelowH1` describes |
| MoveValidator.Checkable | engine/move_validator.py:7-11 | `make_move` does not raise, and the mover's king board after it fits in 64 bits (it may be empty) |
| MoveValidator.IsLegal | engine/move_validator.py:7-17 | `is_legal(pos, move)`: make the move, find the king with `pop_lsb`, and ask whether the other side attacks that square |
| MoveGen.KnightTargets | engine/movegen.py:22-24 | `KNIGHT_ATTACKS[from] & ~own_occ` is a non-negative board |
| MoveGen.TargetMovesEntries | engine/movegen.py:26-29 | the moves appended for one knight, one per target square in `pop_lsb` order, with no promotion |
| MoveGen.AppendTargets | engine/movegen.py:26-29 | the inner loop appends `TargetMoves` of the knight to the list |
| MoveGen.PeelKnight | engine/movegen.py:18-20 | `pop_lsb` splits off the first knight's moves |
| MoveGen.KnightLoopStep | engine/movegen.py:18-29 | one turn of the outer loop keeps its invariant |
| MoveGen.KnightLoop | engine/movegen.py:18-29 | the outer loop returns the moves of every knight, in `pop_lsb` order |
| MoveGen.GenerateKnightMoves | engine/movegen.py:6-31 | the method returns `KnightMoves` of the position, for the side to move |
| MoveGen.KnightTargetSquares | engine/movegen.py:22-24 | a target is a knight step from the origin onto a square not held by the mover's side; enemy-held squares are allowed |
| MoveGen.MovesFromMembers | engine/movegen.py:18-29 | the moves of a list of knights are exactly their targets |
| MoveGen.KnightMovesExactly | engine/movegen.py:9-29 | a move is generated exactly when it starts on a knight of the side to move, reaches a knight step not held by that side and has no promotion |
| MoveGen.OrderedConcat | engine/movegen.py:18-29 | proof helper, not a statement of the source: two ordered runs, the first wholly before the second, make one ordered run |
| MoveGen.TargetMovesOrdered | engine/movegen.py:26-29 | one knight's moves come by ascending target |
| MoveGen.MovesFromAfter | engine/movegen.py:18-29 | proof helper, not a statement of the source: knights all past `f` produce moves only from squares past `f` |
| MoveGen.MovesFromOrdered | engine/movegen.py:18-29 | the moves of ascending knights are ordered |
| MoveGen.KnightMovesOrdered | engine/movegen.py:18-29 | the moves come by ascending origin, then ascending target, so no move appears twice |
| MoveGen.Knights | engine/movegen.py:9-14 | the board of the side to move's knights |
| MoveGen.OwnOcc | engine/movegen.py:9-16 | the occupancy board of the side to move, as stored in the position |
| MoveGen.TargetMoves | engine/movegen.py:26-29 | one move from the origin per target, in the order given |
| MoveGen.MovesFrom | engine/movegen.py:18-29 | the moves of the knights on the given squares, knight by knight |
| MoveGen.KnightsOnBoard | engine/movegen.py:18-22 | what `generate_knight_moves` needs: the knights' board holds only board squares, so `KNIGHT_ATTACKS[from_sq]` exists |
| MoveGen.KnightMoves | engine/movegen.py:6-31 | the list `generate_knight_moves` returns |
| MoveGen.Before | engine/movegen.py:18-29 | the generation order: by origin, then by target |
| MoveGen.Ordered | engine/movegen.py:18-29 | a list strictly increasing in generation order |
| Evaluation.TableFor | engine/evaluation.py:117-128 | the table chosen for a piece letter has 64 entries |
| Evaluation.PieceValuesLetters | engine/evaluation.py:5-18 | the items of `PIECE_VALUES` are white then black kinds, in the order of `PIECE_ORDER` |
| Evaluation.PieceValuesIndexed | engine/evaluation.py:112-113 | each item's letter has its own position as board index |
| Evaluation.FlipSquare | engine/evaluation.py:96-101 | the flipped square keeps the file, maps rank `r` to `7 - r`, and stays on the board |
| Evaluation.FlipSquareInvolution | engine/evaluation.py:96-101 | flipping twice gives the square back |
| Evaluation.CountBits | engine/evaluation.py:89-94 | the loop returns the number of set squares of the board |
| Evaluation.SumExcept | engine/evaluation.py:131-138 | proof helper, not a statement of the source: two sums that differ in one term differ by that term |
| Evaluation.SumShiftNegated | engine/evaluation.py:135-138 | proof helper, not a statement of the source: a block of negated, shifted terms sums to the negated block |
| Evaluation.MirrorRank | engine/evaluation.py:96-101 | proof helper, not a statement of the source: rank `r` read through `flip_square` is rank `7 - r` |
| Evaluation.MirrorRanks | engine/evaluation.py:96-101 | proof helper, not a statement of the source: the first `n` ranks read through `flip_square` are the last `n` ranks |
| Evaluation.SumMirror | engine/evaluation.py:96-101 | a board sum read through `flip_square`, with every term negated, is the negated sum |
| Evaluation.ItemScores | engine/evaluation.py:109-138 | the contribution of each item of `PIECE_VALUES`, twelve of them |
| Evaluation.NoPieceScore | engine/evaluation.py:131 | an empty board adds nothing |
| Evaluation.PieceStep | engine/evaluation.py:131-138 | one turn of the inner loop moves the popped square's term into the score |
| Evaluation.AddPieces | engine/evaluation.py:131-138 | the inner loop adds `value + table[sq]` for a white item, or subtracts `value + table[flip_square(sq)]` for a black item, over every square of the board |
| Evaluation.Evaluate | engine/evaluation.py:103-140 | the method returns `Score`: the white sum of `value + table[sq]` minus the black sum of `value + table[flip_square(sq)]` |
| Evaluation.TotalReplace | engine/evaluation.py:109-138 | proof helper, not a statement of the source: changing one item's term changes the total by the difference |
| Evaluation.TotalPairs | engine/evaluation.py:109-138 | the total is the sum over the six kinds of the white item plus the black item |
| Evaluation.SquareScoreValue | engine/evaluation.py:135-138 | a white piece adds value plus its table entry; a black piece subtracts value plus the entry of its flipped square |
| Evaluation.PlaceOnBoard | engine/evaluation.py:131-138 | a piece put on an empty square of its board adds its square's term |
| Evaluation.PlaceAddsPiece | engine/evaluation.py:131-138 | a piece put on an empty square changes the score by exactly that piece's term |
| Evaluation.KingSquareScore | engine/evaluation.py:11 | a king's term is its table entry alone |
| Evaluation.KingScoresTableOnly | engine/evaluation.py:11 | a king adds no material, only its table entry (the flipped one for black) |
| Evaluation.TotalOfZeros | engine/evaluation.py:109 | proof helper, not a statement of the source: terms that are all 0 total 0 |
| Evaluation.NoPiecesScore | engine/evaluation.py:109-140 | a position without pieces scores 0 |
| Evaluation.SameKind | engine/evaluation.py:5-18 | item `k + 6` is the black piece of item `k`'s kind, with the same value |
| Evaluation.SquareScoreMirror | engine/evaluation.py:135-138 | a white and a black piece of one kind on flipped squares have negated terms |
| Evaluation.PieceScoreMirror | engine/evaluation.py:131-138 | the pieces of a flipped board, recoloured, score the negation |
| Evaluation.TotalNegated | engine/evaluation.py:109-138 | proof helper, not a statement of the source: twelve terms whose white and black pairs are swapped and negated total the negation |
| Evaluation.PairMirror | engine/evaluation.py:131-138 | the white and black pieces of one kind, mirrored, score the negation |
| Evaluation.MirrorNegates | engine/evaluation.py:96-138 | swapping the colours of every piece and mirroring the ranks negates the score |
| Evaluation.SymmetricScoresZero | engine/evaluation.py:96-138 | a position that is its own mirror image, such as the start position or king against king on e1 and e8, scores 0 |
| Evaluation.RookOnA1 | engine/evaluation.py:9 | a white rook on a1 is worth its material, 500 |
| Evaluation.KingsCancel | engine/evaluation.py:78-87 | kings put on e1 and e8 leave the score as it was |
| Evaluation.OnlyKingsScore | engine/evaluation.py:78-87 | the position with only kings on e1 and e8 scores 0 |
| Evaluation.RookAndKingsScore | engine/evaluation.py:5-18 | with a rook on a1 and kings on e1 and e8 the score is 500 |
| Evaluation.TablesWithin | engine/evaluation.py:20-87 | no piece-square entry exceeds 50 in magnitude |
| Evaluation.ValueWithin | engine/evaluation.py:5-18 | no piece is worth more than 900 |
| Evaluation.ScoreBounded | engine/evaluation.py:103-140 | every score lies within `ScoreBound`, far inside `INFINITY` |
| Evaluation.IsUpper | engine/evaluation.py:135 | `str.isupper()` on one ASCII character |
| Evaluation.Lower | engine/evaluation.py:117-127 | `str.lower()` on one ASCII character |
| Evaluation.SquareScore | engine/evaluation.py:135-138 | one piece of item `k` on square `t`: plus value and table entry for white, minus value and the flipped entry for black |
| Evaluation.PieceTerm | engine/evaluation.py:131-138 | the term of square `t` on a board of item `k`: `SquareScore` when the square is set, 0 otherwise |
| Evaluation.PieceScore | engine/evaluation.py:131-138 | what the pieces on one board add to the score |
| Evaluation.Total | engine/evaluation.py:109-140 | the sum of the per-item scores |
| Evaluation.Score | engine/evaluation.py:103-140 | the value `evaluate` returns: the sum over the twelve boards of `PieceScore` |
| Evaluation.NoPieces | engine/evaluation.py:103-140 | a snapshot whose twelve boards are empty |
| Evaluation.FlippedBoards | engine/evaluation.py:96-101 | two boards hold the same squares up to `flip_square` |
| Evaluation.Mirrored | engine/evaluation.py:96-101 | one snapshot is the other with colours swapped and ranks mirrored |
| Zobrist.OrFlag | engine/zobrist.py:22-25 | `idx \| 2^n` for an `idx` below `2^n` adds the flag |
| Zobrist.CastlingToIndex | engine/zobrist.py:19-26 | the index is in 0..15, with flag 1 exactly when 'K' is present, 2 when 'Q', 4 when 'k' and 8 when 'q' |
| Zobrist.CastlingOrderFree | engine/zobrist.py:19-26 | the index depends only on which of the four letters occur, not on their order |
| Zobrist.CastlingExtremes | engine/zobrist.py:19-26 | "-" indexes 0 and "KQkq" indexes 15 |
| Zobrist.XorOverExcept | engine/zobrist.py:33-39 | proof helper, not a statement of the source: two XOR ranges that differ only at `t`, where one term is 0, differ by the other term |
| Zobrist.Shares | engine/zobrist.py:33-39 | the twelve boards' shares of the hash |
| Zobrist.EpIndex | engine/zobrist.py:49-53 | the en-passant key index is the file of the square, or 8 when there is none |
| Zobrist.NoPieceHash | engine/zobrist.py:36 | an empty board contributes no key |
| Zobrist.PieceHashExcept | engine/zobrist.py:36-39 | a board with `t` cleared leaves out exactly the key of `t` |
| Zobrist.PieceHashStep | engine/zobrist.py:36-39 | one turn of the inner loop moves the popped square's key into `h` |
| Zobrist.XorRegroup | engine/zobrist.py:33-39 | proof helper, not a statement of the source: `h ^ a ^ b` regroups as `h ^ (b ^ a)` |
| Zobrist.XorSwap | engine/zobrist.py:33-39 | proof helper, not a statement of the source: `h ^ a ^ b == h ^ b ^ a` |
| Zobrist.XorPieces | engine/zobrist.py:35-39 | the inner loop XORs in the key of every square of the board |
| Zobrist.HashPosition | engine/zobrist.py:29-55 | the method returns `Hash`: the XOR of `PIECE_KEYS[i][sq]` over every occupied `(i, sq)`, `SIDE_KEY` when black is to move, the castling key and the en-passant key |
| Zobrist.HashDependsOn | engine/zobrist.py:29-55 | the hash reads only the piece boards, the side, the castling letters and the en-passant file; the clocks and occupancy boards never affect it |
| Zobrist.SideKeyDifference | engine/zobrist.py:42-43 | positions that differ only in the side to move have hashes that differ by exactly `SIDE_KEY` |
| Zobrist.EpKeyDifference | engine/zobrist.py:49-53 | an en-passant square swaps `EP_KEYS[8]` for the key of its file |
| Zobrist.PieceHashPlace | engine/zobrist.py:36-39 | a piece put on an empty square adds that square's key to its board's share |
| Zobrist.XorPrefixUpdate | engine/zobrist.py:34-39 | proof helper, not a statement of the source: XOR-ing `d` into one term XORs it into every prefix that holds the term |
| Zobrist.PlaceTogglesKey | engine/zobrist.py:33-39 | a piece put on an empty square changes the hash by exactly that piece's key |
| Zobrist.Valid | engine/zobrist.py:6-16 | the key tables have the shapes of the original: 12 x 64 piece keys, 16 castling keys and 9 en-passant keys |
| Zobrist.KeyTerm | engine/zobrist.py:39 | the key of square `t` on board `k` when the square is set, 0 otherwise |
| Zobrist.PieceHash | engine/zobrist.py:35-39 | the XOR of the keys of the set squares of one board |
| Zobrist.PiecesHash | engine/zobrist.py:33-39 | the XOR of the first `n` boards' shares |
| Zobrist.SideHash | engine/zobrist.py:41-43 | `SIDE_KEY` when black is to move, 0 otherwise |
| Zobrist.Hash | engine/zobrist.py:29-55 | the value `hash_position` returns: pieces, side, castling and en-passant shares XORed |
| Search.PlayKeepsBoards | engine/search.py:23 | a legal move leads to a position with twelve piece boards |
| Search.Negamax | engine/search.py:10-31 | the method returns `AlphaBeta`: the static score from the side to move at depth 0, -100000 or 0 without moves, otherwise the fail-hard loop |
| Search.BestIsMax | engine/search.py:22-31 | `Best` is the largest child score, and some child reaches it |
| Search.AgreesNegated | engine/search.py:24 | proof helper, not a statement of the source: negating the answer and the value turns the window `(-beta, -alpha)` into `(alpha, beta)` |
| Search.AlphaBetaCorrect | engine/search.py:10-31 | with `alpha < beta`, the result agrees with plain negamax inside the window and lies on the right side of it outside; with moves, it is the negamax value clamped into the window |
| Search.LoopClamps | engine/search.py:22-31 | the loop returns the best child score clamped into the window, returning `beta` as soon as a child reaches it |
| Search.FailHardBounds | engine/search.py:22-31 | with moves and `alpha < beta`, the result is in `alpha..beta` and is at least every child score below `beta` |
| Search.ValueBounded | engine/search.py:7-8 | negamax values never leave `ScoreBound`, which is far inside `INFINITY` |
| Search.BestBounded | engine/search.py:22-31 | the best child score stays within `ScoreBound` |
| Search.SearchRoot | engine/search.py:34-56 | the method returns `SearchResult`, the outcome of the root loop |
| Search.FirstBest | engine/search.py:48-54 | an index into the root moves |
| Search.FirstBestIsFirst | engine/search.py:48-54 | `FirstBest` reaches the best score, and every earlier move scores strictly less |
| Search.RootLoopFindsBest | engine/search.py:48-54 | the root loop ends with `alpha` the best score when that beats it, and the first move reaching it |
| Search.SearchFindsBest | engine/search.py:34-56 | with no legal moves, `(None, 0)`; otherwise the first move with the strictly highest score, and that score, which is the negamax value of the position |
| Search.UsesModel | engine/search.py:3-4 | the engine plays moves with `make_move` and scores leaves with `evaluate`, on every legal move |
| Search.Leaf | engine/search.py:11-13 | the static score from the side to move's point of view |
| Search.NoMovesScore | engine/search.py:17-20 | `-CHECKMATE_SCORE` in check, 0 otherwise |
| Search.Listed | engine/search.py:15 | every listed move is a legal move of the position |
| Search.AlphaBeta | engine/search.py:10-31 | `negamax(pos, depth, alpha, beta)` |
| Search.AlphaBetaLoop | engine/search.py:22-31 | the fail-hard loop over the remaining moves with the current `alpha` |
| Search.Value | engine/search.py:10-31 | reference definition: the plain negamax value, the best negated child value, with no window |
| Search.ChildValue | engine/search.py:23-24 | the negated value of the position after a move |
| Search.Best | engine/search.py:22-31 | reference definition: the largest child value among the moves |
| Search.Clamp | engine/search.py:26-31 | a value clamped into the window |
| Search.Agrees | engine/search.py:26-31 | a fail-hard answer for a true value: exact inside the window, on the right side of it outside |
| Search.RootLoop | engine/search.py:48-54 | the root loop: the first move whose score beats `alpha`, and the new `alpha` |
| Search.SearchResult | engine/search.py:34-56 | the pair `search(pos, depth)` returns |
| Fen.Token | engine/fen.py:9 | the longest prefix without whitespace |
| Fen.Words | engine/fen.py:9 | `s.strip().split()`: non-empty words without whitespace |
| Fen.TokenOfWord | engine/fen.py:9 | proof helper, not a statement of the source: a word's token is the word itself |
| Fen.WordsUnwords | engine/fen.py:9 | joining words with single spaces and splitting again gives the words back |
| Fen.SplitOn | engine/fen.py:17 | `s.split(c)` gives at least one piece, and no piece contains `c` |
| Fen.JoinSplit | engine/fen.py:17 | splitting and joining again gives the text back |
| Fen.SplitJoin | engine/fen.py:17 | joining pieces free of `c` and splitting again gives the pieces back |
| Fen.SplitAfter | engine/fen.py:17 | proof helper, not a statement of the source: a text made of a piece free of `c`, then `c`, then a rest splits into that piece followed by the rest's pieces |
| Fen.IndexOfAfter | engine/fen.py:17 | proof helper, not a statement of the source: in a text made of a prefix free of `c` and then `c`, the first `c` is right after the prefix |
| Fen.NatText | engine/fen.py:55-56 | `str(n)` is a non-empty run of digits |
| Fen.NatTextValue | engine/fen.py:55-56 | the digits of `str(n)` have value `n` |
| Fen.ParseIntText | engine/fen.py:55-56 | `int(str(n)) == n` |
| Fen.Step | engine/fen.py:26-37 | one character of a rank keeps twelve boards |
| Fen.ScanRank | engine/fen.py:23-37 | the scan of the first `n` characters keeps twelve boards |
| Fen.ScanRanks | engine/fen.py:21-40 | the scan of the first `n` ranks keeps twelve boards |
| Fen.CharsOkAll | engine/fen.py:26-32 | the characters are accepted one by one exactly when each is a digit or a piece letter, and every letter comes while the file is at most h |
| Fen.CharsOkEach | engine/fen.py:26-32 | the acceptance of one character does not depend on later ones |
| Fen.SetBitWithin | engine/fen.py:36 | setting a board square keeps the boards below `2^64` |
| Fen.DigitDescribes | engine/fen.py:27-28 | a digit adds empty cells and leaves the boards alone |
| Fen.PieceDescribes | engine/fen.py:34-37 | a piece letter sets its square on its own board and adds one cell holding it |
| Fen.StepDescribes | engine/fen.py:26-37 | after one more character, the boards hold exactly the cells described so far |
| Fen.UpdateWithin | engine/fen.py:36 | replacing one board by a board below `2^64` keeps all boards below `2^64` |
| Fen.StepAccepts | engine/fen.py:26-37 | when one character is accepted, and how far the file moves |
| Fen.ScanRankAccepts | engine/fen.py:23-37 | the scan fails exactly when some character is neither a digit nor a piece letter, or a letter comes after file h |
| Fen.ScanRankMeaning | engine/fen.py:23-37 | after accepted characters the boards hold exactly the pieces described so far, and stay below `2^64` |
| Fen.DivMod8 | engine/fen.py:34 | proof helper, not a statement of the source: `rank * 8 + file` splits back into rank and file |
| Fen.RankAdded | engine/fen.py:21-40 | placing the next rank extends the description of the placement by that rank |
| Fen.RankAccepted | engine/fen.py:23-40 | a whole rank is accepted, summing to eight squares, exactly when it is `RankOk` |
| Fen.RankPlaced | engine/fen.py:23-37 | a whole rank adds exactly the pieces its text describes |
| Fen.ScanRanksWithin | engine/fen.py:21-40 | boards below `2^64` stay below `2^64` while the ranks are placed |
| Fen.RanksOkAll | engine/fen.py:21-40 | ranks accepted in order are each `RankOk` |
| Fen.ScanRanksAccepts | engine/fen.py:21-40 | the first `n` ranks are accepted exactly when each is `RankOk` |
| Fen.ScanRanksAcceptsInOrder | engine/fen.py:21-40 | the ranks are accepted in order |
| Fen.ScanRanksStep | engine/fen.py:21-40 | with one rank more, the new rank is accepted exactly when it is `RankOk` |
| Fen.ScanRanksDescribe | engine/fen.py:21-40 | starting from empty boards, accepted ranks give boards holding exactly the pieces they describe, the i-th text describing rank 7 - i |
| Fen.ScanRanksDescribeInOrder | engine/fen.py:21-40 | the description is built rank after rank |
| Fen.ScanRanksSquare | engine/fen.py:21-40 | square `t` of board `k` is set exactly when the ranks describe that piece there |
| Fen.RanksOkCells | engine/fen.py:39-40 | ranks accepted in order each describe eight squares |
| Fen.EpFieldSquare | engine/fen.py:48-53 | a field starting with a square name gives that square; extra characters are ignored |
| Fen.NoPieces | engine/position.py:30 | the empty position has twelve boards, all below `2^64` |
| Fen.DecodeAccepts | engine/fen.py:9-56 | `parse_fen` succeeds exactly when there are six fields, eight ranks that are each `RankOk`, a side of "w" or "b", a readable en-passant field and two integer clocks |
| Fen.DecodeMeaning | engine/fen.py:21-58 | a decoded position holds exactly the pieces the placement describes, rank 8 first; every board is below `2^64`; the occupancy boards agree with the pieces; the other fields are the ones read, with the castling text unchanged |
| Fen.DecodeShapeErrors | engine/fen.py:9-19 | fewer or more than six fields is a field-count error; then, other than eight ranks is a rank-count error |
| Fen.ScanRankErrStays | engine/fen.py:29-32 | once a character fails, the rank's scan fails with that error |
| Fen.ScanRanksErrStays | engine/fen.py:21-40 | once a rank fails, the placement fails with that error |
| Fen.PlaceRank | engine/fen.py:22-40 | the loop places one rank on the boards in place, giving the boards and file of `ScanRank` or its error |
| Fen.PlaceChar | engine/fen.py:25-37 | one character updates the boards in place as `Step` does |
| Fen.PlaceRanks | engine/fen.py:21-40 | the loop places the eight ranks in place, as `ScanRanks` does, or stops with its error |
| Fen.FinishPosition | engine/fen.py:42-58 | the fields after the placement are set on the position, which then recomputes its occupancy; the result is `Finish`, or its error |
| Fen.ParseFen | engine/fen.py:8-59 | the method fails exactly when `Decode` does, with the same error; otherwise it returns a fresh position equal to `Decode` |
| Fen.IsSpace | engine/fen.py:9 | the ASCII whitespace `str.split()` separates on |
| Fen.Unwords | engine/uci.py:29 | `" ".join(words)` |
| Fen.JoinWith | engine/fen.py:17 | `c.join(parts)`, the inverse of `split(c)` |
| Fen.IsDigit | engine/fen.py:26 | `str.isdigit()` on one ASCII character |
| Fen.DigitValue | engine/fen.py:27 | `int(ch)` of one digit |
| Fen.AllDigits | engine/fen.py:55-56 | a text of decimal digits only |
| Fen.DigitsValue | engine/fen.py:55-56 | the number a text of decimal digits writes |
| Fen.ParseInt | engine/fen.py:55-56 | `int(s)`: an optional sign and at least one digit, otherwise an error |
| Fen.IntText | engine/fen.py:55-56 | `str(n)`, the text `int` reads back |
| Fen.Cells | engine/fen.py:21-40 | what a rank text describes from file a on: a digit is that many empty squares, a letter one square holding that piece |
| Fen.CharsOk | engine/fen.py:25-37 | the first characters of a rank are accepted one by one |
| Fen.CharOk | engine/fen.py:26-32 | a digit, or a piece letter arriving while the file is at most h |
| Fen.RankOk | engine/fen.py:21-40 | a rank `parse_fen` accepts: every character accepted and eight squares in all |
| Fen.Described | engine/fen.py:34-36 | the boards are the old boards plus the pieces a rank describes |
| Fen.PlacementDescribed | engine/fen.py:16-40 | the pieces the first ranks of the placement describe, rank 8 first |
| Fen.RanksOk | engine/fen.py:21-40 | each of the first rank texts is accepted, in order |
| Fen.EpField | engine/fen.py:48-53 | the en-passant field: none for "-", otherwise the square of a file letter and `int` of the second character |
| Fen.Assemble | engine/fen.py:42-56 | the snapshot `parse_fen` builds from the six fields, before `recompute_occupancy` |
| Fen.Finish | engine/fen.py:42-58 | the fields after the placement read onto the boards, or the error they raise |
| Fen.Decode | engine/fen.py:8-59 | what `parse_fen(fen)` returns, or the error it raises |
| Uci.Slice | engine/uci.py:12-13 | `s[lo:hi]` with its bounds cut down to the length |
| Uci.ParseMove | engine/uci.py:10-15 | a parsed move has both squares on the board |
| Uci.ParseMoveMeaning | engine/uci.py:10-15 | a text parses exactly when its first four characters name two squares; the squares are the ones named, and the promotion is the fifth character exactly when `s` has five characters |
| Uci.ParseMoveAccepts | engine/uci.py:12-13 | a text parses exactly when it has at least four characters: a file, a rank, a file and a rank |
| Uci.ParseMoveFields | engine/uci.py:12-14 | a parsed move's squares print as `s[0:2]` and `s[2:4]`, and its promotion is `s[4]` exactly for five characters |
| Uci.NamedSquare | engine/uci.py:12-13 | a two-character square name that parses prints back unchanged |
| Uci.ParseMoveToUci | engine/uci.py:10-15 | `parse_move(m.to_uci()) == m` for squares 0..63 and no promotion or one letter |
| Uci.ToUciParseMove | engine/uci.py:10-15 | a four- or five-character text that parses prints back unchanged |
| Uci.FirstDepth | engine/uci.py:51-54 | the index found holds a "depth" token with a token after it, and no earlier index does |
| Uci.ParseGo | engine/uci.py:47-56 | the loop returns the number after the first "depth" that has a successor, and 5 when there is none |
| Uci.FirstDepthIgnoresTrailing | engine/uci.py:52 | a "depth" token at the end is never found |
| Uci.TrailingDepthIgnored | engine/uci.py:52 | appending a "depth" token with nothing after it changes nothing |
| Uci.StartOf | engine/uci.py:20-31 | the start position has twelve boards, each below `2^64` |
| Uci.EngineFunctions | engine/uci.py:41-42 | `make_move` and `hash_position` meet the predicates the fold is stated over |
| Uci.Trail | engine/uci.py:37-43 | the positions passed through begin with the start position and hold one more for each move text played |
| Uci.TrailErrStays | engine/uci.py:39-43 | a move text that fails ends the trail, and later texts are not read |
| Uci.TrailExtend | engine/uci.py:39-43 | one more move text extends an accepted trail by one position |
| Uci.TrailPrefix | engine/uci.py:39-43 | the trail of a prefix of the move texts is a prefix of the trail |
| Uci.TrailSteps | engine/uci.py:38-43 | each position of the trail is `make_move` of the one before it and the next move text, parsed |
| Uci.HistoryOfHashes | engine/uci.py:34-42 | the history holds exactly the hash of every position passed through |
| Uci.ParsedPositionMeaning | engine/uci.py:18-45 | the position is the start position with every move text played in order, and the history holds exactly the hashes of the start position and of each later position |
| Uci.NoMoves | engine/uci.py:37 | without a "moves" token, the position is the start position and the history holds its hash alone |
| Uci.FenTokensAreFields | engine/uci.py:28-31 | with "fen", six tokens that are words without spaces are exactly the fields `parse_fen` reads |
| Uci.HistoryAppend | engine/uci.py:42 | adding a position's hash to the history |
| Uci.PlayAndHash | engine/uci.py:41-42 | `make_move` on the current position, then the hash of the new one |
| Uci.PlayMoves | engine/uci.py:37-43 | the loop replaces the position by the one after each move and adds its hash to the history, as the trail does |
| Uci.StartPosition | engine/uci.py:20-31 | the start position as a fresh object and the index after it, as `StartOf` gives them |
| Uci.ParsePosition | engine/uci.py:18-45 | the method fails exactly when `ParsedPosition` does; otherwise it returns that position and that history |
| Uci.ParsedFrom | engine/uci.py:33-45 | once the start position is known, `parse_position` is the trail from it |
| Uci.DepthAt | engine/uci.py:52 | a "depth" token with a token after it |
| Uci.GoDepth | engine/uci.py:47-56 | what `parse_go(tokens)` returns: `int` of the token after the first "depth" that has one, else 5 |
| Uci.MovesOf | engine/uci.py:37-39 | the move texts after a "moves" token |
| Uci.IsMakeMove | engine/uci.py:41 | a function that is `make_move` wherever `make_move` does not raise |
| Uci.IsHash | engine/uci.py:34 | a function that is `hash_position` on every snapshot of twelve boards |
| Uci.MakeMoveFn | engine/uci.py:41 | `make_move` as a value |
| Uci.HashFn | engine/uci.py:42 | `hash_position` as a value |
| Uci.Advance | engine/uci.py:40-41 | one move text played: `parse_move` then `make_move`, either of which may fail |
| Uci.StepOf | engine/uci.py:39-43 | `Advance` as the step of the fold over the move texts |
| Uci.HistoryOf | engine/uci.py:34-42 | the hashes of the positions visited, added one at a time |
| Uci.ParsedPosition | engine/uci.py:18-45 | what `parse_position(tokens)` returns: the final position and the set of hashes seen, or the error raised |

## Left out

- Zobrist key generation: engine/zobrist.py:4-16 draws the keys from Python's seeded `random`. The keys are a parameter (`Zobrist.Keys`) of the right shape, not the generated values.
- The Universal Chess Interface loop (`uci_loop`) and main.py are left out. They are standard input and output plumbing and printing.
- `KING_ATTACKS` is imported by engine/detect_attack.py:2 but not defined in engine/attacks.py. The model defines it by analogy with the knight table, as the king's eight guarded single steps (`Attacks.KingAttacksFrom`).
- `Position.copy` is called by engine/makeunmake.py:6 but not defined in engine/position.py. It is modelled as a deep copy with a fresh list of boards (`Positions.Position.Copy`).
- The search parameters: `generate_legal_moves`, `is_in_check`, `is_checkmate` and `is_stalemate` are not part of this model. The search takes the legal-move list and the in-check test as fields of `Search.Engine`, with no chess meaning attached.
- Uci.ParsePosition: `make_move` and `hash_position` appear in its contract as ghost parameters. `IsMakeMove` and `IsHash` tie them to `MakeUnmake.Apply` and `Zobrist.Hash`, and the method calls the real ones.
- Search.SearchRoot: the depth must be at least 1. With depth 0 the original calls `negamax` with depth -1, which recurses until the interpreter's recursion limit. Negative depths are not modelled (`depth` is a `nat`).
- The history argument engine/uci.py passes to `search` is not modelled. `search` takes two arguments as written.
- Fen.IsDigit: `str.isdigit`, `int()` and `str.split()` are restricted to ASCII digits and ASCII whitespace. `int()`'s underscores and surrounding whitespace are not modelled.
- The successful decoding of the standard start position text is not proved. `Uci.StartOf` uses `Fen.Decode` of that text as written.
- Fen.EpField requires a non-empty field. A field of `split()` is never empty, so this costs nothing. An en-passant digit outside 1–8 is accepted, as in the original, and gives a square off the board.
- Uci.ParseMove: the original reads only `s[0:2]`, `s[2:4]` and, for five characters, `s[4]`. The model does the same, so characters beyond the fifth are ignored and a six-character text has no promotion.
- Uci.ParseGo: an `int()` that raises is modelled as `None`. The docstring at engine/uci.py:48 says the default is 4, but the code sets 5 (line 49); the model follows the code.
- Sliders.RayAttacks: direction 0 is excluded, because the original loops for ever on it.
- DetectAttack.IsSquareAttacked: the square is a board square or -1. Its one caller passes the result of `pop_lsb` on a king board, which is one of those. Other negative squares are not modelled; for some of them the original raises on a negative shift count.
- MoveValidator.Checkable: the mover's king board after the move must fit in 64 bits. The boards `parse_fen` builds do, and `make_move` keeps them so for on-board moves (`MakeUnmake.ApplyConsistent`). Wider boards are not modelled: their lowest square can lie past the end of the knight table, where the original raises.
- Moves.ToUci: `promo` is an `Option<char>`, so the original's falsy empty-string promotion, and promotions longer than one character, are not modelled.
- Makeable lists the inputs on which `make_move` raises: no own piece on the origin, an unknown promotion letter, a negative shift count. `MakeMove` requires that none of them occurs.
- The evaluation test expectations that ignore the piece-square terms (tests/test_evaluation.py) are not followed. The model follows engine/evaluation.py, for example `Evaluation.RookAndKingsScore`.
- The concrete test positions for knight generation from the start position and for pins in legality are not proved. The general statements `MoveGen.KnightMovesExactly`, `MoveGen.KnightMovesOrdered` and `MoveValidator.IsLegalMeaning` cover them.
- Python's exceptions are modelled as error values (`Fen.FenError`, `Uci.UciError`). Their messages are not modelled.
