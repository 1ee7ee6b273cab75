# Verified model of the Ivy chess services

A Dafny model of the chess rules engine, its FEN codec, the validation of reported games, the live-game
protocol, the engine statistics and the test sessions, with proofs of what they promise. `dafny verify
dfyconfig.toml` checks everything.

## How it is laid out

| module | what it holds |
|---|---|
| `Boards`, `Rules` | The board, and how pieces attack and move, stated by geometry alone: the reference |
| `Scanning`, `Sight`, `Threats`, `Analysis` | The ray scanner, the attack search, the move generators, move validation and endings, as methods that edit and restore a live `Board`, proved equal to `Rules` |
| `Moving`, `Castling`, `Accounting`, `KingSafety`, `Exceptions` | Playing a move, and what every accepted move keeps, loses or, exactly in three cases, breaks |
| `Laws`, `Effects`, `Outcomes` | The same rules once more by numbers of squares and kinds of pieces: what moves where, what stands where after a move, and how a game comes out, each shown to agree |
| `Sequences`, `Text`, `Fen`, `Notation` | Printing and parsing of boards (section 16.1 of the PGN Specification and Implementation Guide, 1994) and moves, with round trips, and how the texts are spelled |
| `Games`, `Start`, `Runs`, `SameGames`, `Openings`, `Stalls` | The game object and its `move` state machine on any board and by any rules, the standard start, and theorems over whole runs |
| `Reports`, `Leftovers`, `Validation`, `FoolsMate` | What two reported move lists tell, rebuilding a game from them, call after call, and the shortest mate as a case |
| `LiveGames`, `Protocol`, `Handlers` | Stored games with their transactions, and the player handlers as steps interleaved at every `await` |
| `Statistics`, `Sessions` | Replay index and exactly-once counters; test sessions and the clients they lock |

Code that changes state is modelled by classes and methods; each is proved against a function or predicate on
values, and the theorems are about those. A call that throws returns `None`, `false` or `Fail`, and the contracts
say exactly when. A board is in order (`Ordered`) when its squares are numbered and coloured as they should be, a
colour with castling rights has its king at home, and a set en passant square is empty with a pawn behind it;
the standard start is, and every accepted move keeps it so. Squares are numbered 0 to 63 from a8 to h1.

## Main results

- Attacks and moves: `Analysis.HasThreat`, `Analysis.Moves`, `Analysis.IsValidMove` and `Analysis.GameResult` equal the
  geometric reference on every board of 64 squares, restore what they edit whenever they return, and throw exactly
  when stated; `Laws` spells the reference out by numbers of squares, castling included.
- One move: `KingSafety.SaneAfter` (soundness is kept but for three exceptions), `Accounting.PieceAccounting`,
  `Castling.RightsStayHome`, `Effects.SquaresAfterMove`, `Effects.FieldsAfterMove`.
- Whole runs: `Runs.KingSafetyOfRuns`, `Runs.PiecesOverRuns`, `Runs.EveryGameEnds`, `Runs.NoBoardThrice`,
  `Runs.ProgressIsExact`, `Runs.KinglessStandsStill`.
- Outcomes: `Outcomes.EndingsInOrder`, `Outcomes.RefusalLoses`, `Outcomes.PassingAccepted`.
- Notation: `Notation.FenByParts`, `Fen.EncodeRow`, `Fen.FenRoundTrip`, `Fen.HashIsPlacement`.
- Reports: `Validation.GameValidation.Finalize`, `Reports.ReplaySteps`, `Reports.WhiteListIsFound`.
- Services: `Protocol.NoLostUpdate`, `Protocol.StoredGamesAreConsistent`, `Statistics.SixCounters`,
  `Sessions.StartLocksExactly`, `Sessions.GamesAddUp`.

## Conditions and findings

- Three kinds of accepted move break king safety; the proofs show that there are no others, and `Exceptions`
  has a board for each. An en passant capture can leave the mover in check, because the captured pawn is still
  there while check is looked for. Castling takes along whatever stands in the corner; a rook or queen of the
  enemy cannot stand there, but its king can. A promotion suffix is accepted on any piece that reaches the first
  or last rank, on a king too, which leaves its colour without one.
- The suffix changes the one piece object that `performMove` goes on to look at, so a promoted piece is treated
  as its new kind for castling rights and en passant in the same call. The model follows the code.
- A rook that leaves a corner costs its colour the right of the other side too, once the corner's own right is
  gone (`Effects.RightAfter`); a captured rook costs no right.
- The documentation of `hash` calls it unique for the board positions; it is, but black's pieces are the capital
  letters there and white's are in FEN.
- The null move prints as a text no parser accepts, so a validated replay never contains one.
- A call of `finalize` that fails after it has played a move leaves its boards noted, and the replay of a later call
  takes its notations from the front of the notes. They are then always wrong: a replay is sound exactly when no
  earlier call has left any (`Finalize`), and `CalledTwice` is a case.
- A game can stand still. After the castling that drags the enemy's king, the game can be active with no valid move
  but to take a king, which throws, and no null move, for the side is in check (`GameCanStall`). After the promotion
  of a king only null moves are left to either side (`PromotionCanStall`). `ProgressIsExact` says exactly when a
  game goes on.
- A session counts reports from any client. From one that is not locked to it, a report that uses up what remains
  ends in an error, so that the session is not invalidated by it, and a replacement found before another report is
  asked for an empty batch (`StrayReportStalls`); one that leaves something sends a client that is locked to another
  session this session's suite under that one's id (`RequestsAreDue`).
- Handlers that throw with a lock keep it forever. The protocol theorems are about safety and hold regardless.

## Model

| member | source | states |
|---|---|---|
| `Scanning.Scan` | `packages/model/src/game/analysis/position.ts:90-132` | The scan yields exactly the squares of the geometric ray, nearest first, each with its distance, up to the edge and never around it; it always terminates |
| `Scanning.Next` | `packages/model/src/game/analysis/position.ts:145-170` | The result is the first occupied square of the ray if an enemy holds it; otherwise every enemy of the ray has a piece in front of it |
| `Sight.PathIsReach` | `packages/model/src/game/analysis/moves.ts:6-20` | The squares collected along one ray are exactly those seen through empty squares and not held by the own colour, once each |
| `Threats.AttackedIsThreat` | `packages/model/src/game/analysis/threats.ts:14-76` | A square is attacked by the forward rules of the pieces exactly when one of eight outward rays or a knight leap finds an attacker |
| `Laws.AttackersHit` | `packages/model/src/game/analysis/moves.ts:6-152` | What attacks a square, by the numbers of squares: walks over empty squares in eight ways, eight leaps, eight steps, and the two squares a pawn takes on |
| `Laws.PiecesMove` | `packages/model/src/game/analysis/moves.ts:268-305` | Rooks, bishops, queens and knights move to what they hit and their colour does not hold |
| `Laws.PawnsMove` | `packages/model/src/game/analysis/moves.ts:57-108` | Pawns move one square ahead, two from the second rank over an empty one, or aslant onto an enemy or the offered square, by the numbers of squares for each colour |
| `Laws.KingsMove` | `packages/model/src/game/analysis/moves.ts:185-218` | A king steps to a neighbour that its colour does not hold and nothing of the enemy hits |
| `Laws.KingSideCastling` | `packages/model/src/game/analysis/moves.ts:220-224` | A king at home castles on its king's side exactly when the right is there, the two squares beside it are empty, and neither it nor they are hit, for each colour |
| `Laws.QueenSideCastling` | `packages/model/src/game/analysis/moves.ts:226-230` | And on its queen's side exactly when the right is there, the three squares beside it are empty, and neither it nor the first two are hit |
| `Laws.CastlingIsValid` | `packages/model/src/game/analysis/moves.ts:315-351` | A castling that the king can make leaves it unattacked, so that it is always valid |
| `Laws.ValidIfQuiet` | `packages/model/src/game/analysis/moves.ts:315-351` | A move is valid exactly when its piece is of the side to move and can make it, and nothing hits the king on the squares with the piece moved |
| `Laws.KinglessThrows` | `packages/model/src/game/analysis/moves.ts:338-344` | Without a king, validating a move throws exactly when its piece can make it, and then the search for a valid move throws too |
| `Laws.CornerKingThrows` | `packages/model/src/game/analysis/moves.ts:160-170` | A king in the corner with the right to castle towards it makes listing throw, unless it is attacked |
| `Analysis.HasDiagonalThreat` | `packages/model/src/game/analysis/threats.ts:18-43` | True exactly when some bishop, queen, king or pawn attacks along a diagonal |
| `Analysis.HasStraightThreat` | `packages/model/src/game/analysis/threats.ts:45-61` | True exactly when some rook, queen or king attacks along a rank or file |
| `Analysis.HasKnightThreat` | `packages/model/src/game/analysis/threats.ts:63-73` | True exactly when an enemy knight is a leap away; the knight tried out on the square is gone again |
| `Analysis.HasThreat` | `packages/model/src/game/analysis/threats.ts:14-76` | The outward search is true exactly when some enemy piece attacks the square by the forward rule of its kind, and every square of the board is as before |
| `Analysis.AddRay` | `packages/model/src/game/analysis/moves.ts:110-130` | Appends exactly the squares a rider reaches along one ray, without duplicates |
| `Analysis.RookMoves` | `packages/model/src/game/analysis/moves.ts:110-130` | Exactly the squares a rook attacks and its colour does not hold, each once |
| `Analysis.BishopMoves` | `packages/model/src/game/analysis/moves.ts:132-152` | Exactly the squares a bishop attacks and its colour does not hold, each once |
| `Analysis.QueenMoves` | `packages/model/src/game/analysis/moves.ts:291-298` | Exactly the squares a queen attacks and its colour does not hold, each once |
| `Analysis.KnightMoves` | `packages/model/src/game/analysis/moves.ts:22-55` | Exactly the squares a knight attacks and its colour does not hold, each once; index steps that wrap are dropped |
| `Analysis.PawnFilter` | `packages/model/src/game/analysis/moves.ts:75-105` | The filter on index steps accepts exactly the single steps, double steps over an empty square, captures and en passant captures of the rules |
| `Analysis.PawnMoves` | `packages/model/src/game/analysis/moves.ts:57-108` | Exactly the targets the rules give a pawn |
| `Analysis.KingSingleSteps` | `packages/model/src/game/analysis/moves.ts:185-218` | Exactly the neighbouring squares that are neither held by the own colour nor attacked |
| `Analysis.HasCheckOnPath` | `packages/model/src/game/analysis/moves.ts:160-170` | False when none of the three squares a castling king stands on, crosses and reaches is attacked, true when one is before the test leaves the board; it throws when it leaves the board first |
| `Analysis.HasPieceOnPath` | `packages/model/src/game/analysis/moves.ts:172-183` | False exactly when all squares between king and corner are empty; it throws exactly when it leaves the board before it meets a piece |
| `Analysis.KingMoves` | `packages/model/src/game/analysis/moves.ts:154-233` | Exactly the safe single steps and the castlings the rights allow; it throws exactly when the test of a castling path leaves the board |
| `Analysis.MovesWithReplacement` | `packages/model/src/game/analysis/moves.ts:245-257` | The targets of the piece as if it stood there; every square is as before afterwards, also when listing them throws |
| `Analysis.Moves` | `packages/model/src/game/analysis/moves.ts:268-305` | Exactly the squares the piece can move to by the rules of its kind, and every square as before, through all nested temporary edits; it throws exactly on an empty square and for a king whose castling test leaves the board |
| `Analysis.IsValidMove` | `packages/model/src/game/analysis/moves.ts:315-351` | True exactly for a move of the side to move after which its king, on the board with only the piece moved, is not attacked, with the board restored; it throws exactly when the piece cannot be listed, or generates the move and leaves no king to look for |
| `Analysis.HasValidMove` | `packages/model/src/game/analysis/end.ts:20-27` | True exactly when the piece has a valid move; it throws exactly when validating one of its generated moves does |
| `Analysis.HasMoves` | `packages/model/src/game/analysis/end.ts:16-31` | True exactly when some pair of squares is a valid move; it throws exactly when it meets a piece that makes it throw before one that can move |
| `Analysis.HasInsufficientMaterial` | `packages/model/src/game/analysis/end.ts:45-55` | True exactly when neither colour has more than a king and one minor piece |
| `Analysis.IsChecked` | `packages/model/src/game/analysis/end.ts:63-69` | True exactly when the king of the side to move is attacked; it throws exactly without a king |
| `Analysis.GameResult` | `packages/model/src/game/analysis/end.ts:77-98` | Checkmate or stalemate exactly when no pair of squares is a valid move, told apart by check; then the fifty move rule, then insufficient material, and no result otherwise; it throws exactly when the search for moves or for the king does |
| `Moving.LiftAndDrop` | `packages/model/src/game/actions/move.ts:11-35` | Only source and target change, the target holds the promoted piece, the turn passes and both counters follow the move |
| `Moving.MoveKing` | `packages/model/src/game/actions/move.ts:37-53` | A king loses its colour's rights, and a two-file step takes whatever is in the corner to the other side of the king |
| `Moving.MoveRook` | `packages/model/src/game/actions/move.ts:55-70` | A rook leaving any corner costs its colour the right of that side and no other change |
| `Moving.MovePawn` | `packages/model/src/game/actions/move.ts:72-95` | A pawn reaching the en passant square empties the square behind it, and a double step offers the square it crossed |
| `Moving.PerformMove` | `packages/model/src/game/actions/move.ts:11-96` | The whole new board: squares, rights, en passant square, counters and side to move, with the kind after promotion deciding which rules apply |
| `Effects.SquaresAfterMove` | `packages/model/src/game/actions/move.ts:19-95` | What stands on each of the 64 squares after an accepted move: the source is empty, the target holds the piece or what its suffix names, castling and en passant change the squares of their numbers, and nothing else changes |
| `Effects.PieceArrives` | `packages/model/src/game/actions/move.ts:19-31` | The target holds the kind of the suffix if there is one, and the piece that stood on the source otherwise |
| `Effects.FieldsAfterMove` | `packages/model/src/game/actions/move.ts:21-95` | Side to move, both counters, the offered square and both colours' rights after an accepted move |
| `Effects.NullChanges` | `packages/model/src/game/actions/move.ts:205-210` | A null move passes the turn, withdraws the offered square and counts, and changes nothing else |
| `Castling.CastlingMovesCorner` | `packages/model/src/game/actions/move.ts:44-52` | Every castling that is accepted stays on the board and moves the corner piece onto the empty, unattacked square the king crossed |
| `Castling.RightsStayHome` | `packages/model/src/game/actions/move.ts:37-70` | Every accepted move keeps it true that a colour with a right has its king, if it has one, on its home square |
| `Accounting.EnPassantStaysBehind` | `packages/model/src/game/actions/move.ts:72-95` | Every accepted move keeps it true that a set en passant square is empty with an enemy pawn directly behind it |
| `Accounting.TotalAfter` | `packages/model/src/game/actions/move.ts:19-95` | Any sum of weights over the squares changes by exactly the relocation of the mover, the loss of the captured piece and the relocation of the corner piece |
| `Accounting.PieceAccounting` | `packages/model/src/game/actions/move.ts:19-95` | The mover keeps all its pieces, and the other side loses exactly one on a capture or en passant and none otherwise |
| `Accounting.PhiFalls` | `packages/model/src/game/actions/move.ts:23-35` | No move adds to "pieces plus ranks left to pawns", and the half move counter starts again exactly when a move uses up some of it |
| `Accounting.PotentialFalls` | `packages/model/src/game/analysis/end.ts:89` | Below the fifty move limit, every accepted move strictly lowers 100 times that sum plus the half moves left |
| `KingSafety.EnemyKeepsKing` | `packages/model/src/game/actions/move.ts:19-95` | The enemy's king stays the only one of its colour and on its square, unless castling drags it to the square the king crossed |
| `KingSafety.MoverKeepsKing` | `packages/model/src/game/actions/move.ts:19-95` | The mover keeps exactly one king, where the move put it, unless that king is promoted |
| `KingSafety.CastlingCheck` | `packages/model/src/game/actions/move.ts:44-52` | Castling leaves the mover in check exactly when the corner held the enemy's king |
| `KingSafety.EnPassantCheck` | `packages/model/src/game/analysis/moves.ts:335-344` | Taking en passant leaves the mover in check exactly when the taken pawn was all that stood between its king and an enemy rider |
| `KingSafety.ExactKingSafety` | `packages/model/src/game/analysis/moves.ts:315-351` | An accepted move leaves the mover in check if and only if it takes en passant and uncovers such a line, or drags the enemy's king along; one king each remains |
| `KingSafety.PromotedKingIsGone` | `packages/model/src/game/actions/move.ts:29-31` | A king that moves with a promotion suffix leaves its colour without a king |
| `KingSafety.SaneAfter` | `packages/model/src/game/actions/move.ts:117-137` | The board after an accepted move is sound again (rights, en passant square, one king each, mover not in check) if and only if none of those three exceptions happened |
| `KingSafety.PlainMovesAreSafe` | `packages/model/src/game/actions/move.ts:117-137` | No en passant capture, suffixes on pawns only and an own rook in the corner are enough |
| `Exceptions.EnPassantCanLeaveCheck` | `packages/model/src/game/analysis/moves.ts:335-344` | A sound board on which an accepted en passant capture leaves the mover in check |
| `Exceptions.CastlingCanDragKing` | `packages/model/src/game/actions/move.ts:44-52` | A sound board on which an accepted castling moves the enemy king from the corner and leaves the mover in check |
| `Exceptions.KingCanBePromoted` | `packages/model/src/game/actions/move.ts:121-122` | A sound board on which an accepted move turns the mover's king into a queen |
| `Fen.EncodeRow` | `packages/model/src/game/coding/fen_encoding.ts:50-63` | Eight replacement passes, longest runs first, give the one-pass run-length coding of the row |
| `Fen.EncodePositions` | `packages/model/src/game/coding/fen_encoding.ts:35-64` | The rows are coded eight squares at a time and joined by separators |
| `Fen.ReadBoard` | `packages/model/src/game/coding/fen_parsing.ts:156-213` | The character loop with its index and separator flag is the reading of the text from the left, with the same failures |
| `Fen.BoardRoundTrip` | `packages/model/src/game/coding/fen_parsing.ts:156-213` | Parsing the printed squares gives back every square, for any placement |
| `Fen.EncodeCastle` | `packages/model/src/game/coding/fen_encoding.ts:72-83` | White's letters in capitals, then black's, with a dash only when there are none |
| `Fen.ReadCastle` | `packages/model/src/game/coding/fen_parsing.ts:105-147` | The character loop accepts and refuses exactly what the letter by letter reading does |
| `Fen.CastleRoundTrip` | `packages/model/src/game/coding/fen_parsing.ts:105-147` | All sixteen combinations of rights read back as themselves |
| `Fen.TargetRoundTrip` | `packages/model/src/game/coding/fen_parsing.ts:42-58` | Every square reads back from its name |
| `Fen.FenRoundTrip` | `packages/model/src/game/model/Board.ts:130-173` | Decoding the encoding of a board gives the same board: any placement, side, rights, en passant square and counters |
| `Fen.MoveRoundTrip` | `packages/model/src/game/coding/fen_encoding.ts:156-173` | A printed move, with or without promotion, reads back as itself |
| `Fen.NullMoveIsUnreadable` | `packages/model/src/game/coding/fen_encoding.ts:156-173` | The null move prints as a text that no move is read from |
| `Fen.HashIsPlacement` | `packages/model/src/game/model/Board.ts:101-121` | Two boards have the same hash if and only if the same pieces stand on the same squares |
| `Notation.DigitsByPlace` | `packages/model/src/game/coding/fen_encoding.ts:108-120` | A counter is written with its digits in decimal order, all of them, without leading zeros |
| `Notation.NumbersByPlace` | `packages/model/src/game/model/Board.ts:143-144` | A counter is read as the sum of its digits times powers of ten |
| `Notation.CountersByPlace` | `packages/model/src/game/coding/fen_encoding.ts:138-147` | The last two parts of a board's notation are its counters in decimal |
| `Notation.FenByParts` | `packages/model/src/game/coding/fen_encoding.ts:138-147` | The notation is placement, side, rights, en passant square and counters with single blanks between them, spelled by letters and names of squares |
| `Notation.DecodedByPart` | `packages/model/src/game/model/Board.ts:130-163` | Whatever text is read, side, en passant square and counters are those its parts spell |
| `Notation.FiveBlanks` | `packages/model/src/game/model/Board.ts:130-163` | A text that is read has exactly five blanks |
| `Notation.RowsByNumber` | `packages/model/src/game/coding/fen_encoding.ts:50-63` | The notation of a row stands for its squares, and never has one number after another |
| `Notation.EightRows` | `packages/model/src/game/coding/fen_encoding.ts:35-64` | Eight rows with separators between them |
| `Notation.PiecesByLetter` | `packages/model/src/game/coding/fen_parsing.ts:69-79` | The twelve letters, capitals for white |
| `Notation.HashByLetter` | `packages/model/src/game/model/Board.ts:101-121` | The 64 characters of the hash, capitals for black |
| `Notation.RightsByLetter` | `packages/model/src/game/coding/fen_encoding.ts:13-27` | K, Q, k and q, each exactly for its right, and a dash for none |
| `Notation.MovesByName` | `packages/model/src/game/coding/fen_encoding.ts:156-173` | A move is written from square, to square, promotion letter |
| `Notation.NullByZeros` | `packages/model/src/game/coding/fen_parsing.ts:20-33` | Four zeros are the null move, with a piece letter after them or none |
| `Notation.StandardText` | `packages/model/src/game/actions/create.ts:14-33` | The preset text, literally |
| `Notation.RightsAccepted` | `packages/model/src/game/coding/fen_parsing.ts:105-147` | Which unusual texts of rights are read, and which are refused |
| `Notation.BoardsAccepted` | `packages/model/src/game/coding/fen_parsing.ts:156-213` | Which unusual texts of boards are read, and which are refused |
| `Games.Game.ValidateTime` | `packages/model/src/game/actions/move.ts:98-115` | The clock of the side to move is charged and credited, or the game is lost on time |
| `Games.Game.ValidateMove` | `packages/model/src/game/actions/move.ts:117-137` | The move is played and noted in both histories exactly when it is accepted and can be played; a refused one loses the game by rule violation on an untouched board; it throws exactly when validating or playing it does |
| `Games.Game.HasRepetition` | `packages/model/src/game/actions/move.ts:163-168` | True exactly when the placement on the board has been noted three times or more |
| `Games.Game.PlayNull` | `packages/model/src/game/actions/move.ts:198-212` | A null move is taken exactly when the side to move has a king and is not in check; it notes no placement and looks for no ending |
| `Games.Game.Conclude` | `packages/model/src/game/actions/move.ts:218-238` | The game ends by repetition, mate, stalemate, fifty moves or material exactly as the board and the noted placements say; it throws exactly when the search for an ending does |
| `Games.Game.Move` | `packages/model/src/game/actions/move.ts:187-239` | The whole state machine on any board of 64 squares: the call succeeds exactly when the state machine over the standard rules does, with its new state; a refusal leaves the stated result; a call that throws inside a search has charged the clock and decided nothing |
| `Games.MoveByIsMove` | `packages/model/src/game/actions/move.ts:187-239` | On boards in order, where nothing but a missing king makes a call throw, the state machine accepts exactly the acceptable moves |
| `Games.SaneNeverBreaks` | `packages/model/src/game/analysis/threats.ts:14-20` | With one king each and the waiting side not in check, no call throws inside a search |
| `Outcomes.SuffixesAccepted` | `packages/model/src/game/actions/move.ts:120-124` | A valid move is accepted without a suffix, and with one exactly on the first and last rank for a rook, bishop, knight or queen |
| `Outcomes.PassingAccepted` | `packages/model/src/game/actions/move.ts:198-212` | 0000 is accepted exactly when the game is on, time is left, and the first king of the side to move is there and not attacked |
| `Outcomes.ClockOfCall` | `packages/model/src/game/actions/move.ts:98-115` | The clock of the side to move is charged and, if something is left, credited; otherwise the other colour wins on time; the other clock is not touched |
| `Outcomes.RefusalLoses` | `packages/model/src/game/actions/move.ts:117-130` | A refused move is won by the other colour by rule violation, one that is too late on time, and an unreadable one only costs time |
| `Outcomes.EndingsInOrder` | `packages/model/src/game/actions/move.ts:218-238` | How an accepted move leaves the game: third occurrence, mate, stalemate, fifty moves and material, each exactly when it is there and none before it is, with material told by pieces owned; the mover wins by mate alone |
| `Outcomes.PoorCannotMate` | `packages/model/src/game/analysis/end.ts:45-55` | Too little material is one piece, the king, or two, the king and a bishop or knight |
| `Outcomes.ResigningLoses` | `packages/model/src/game/actions/resign.ts:10-18` | Who resigns loses: the other colour wins |
| `Outcomes.SeatsByCase` | `packages/model/src/game/actions/register.ts:14-42` | The colour asked for if it is free; without one the free colour, and if both are free the coin's |
| `Outcomes.CreatedFromText` | `packages/model/src/game/actions/create.ts:14-33` | A game is created from any text that is read as a board, with the fields it starts with |
| `Games.Register` | `packages/model/src/game/actions/register.ts:14-42` | A free colour is given to the player, or nothing changes; the game becomes active when both are seated |
| `Games.Resign` | `packages/model/src/game/actions/resign.ts:10-18` | An active game is won by the other colour, any other call changes nothing |
| `Start.StandardFen` | `packages/model/src/game/actions/create.ts:14-33` | The preset text is the encoding of the starting position, and decodes to it |
| `Start.StartIsSane` | `packages/model/src/game/actions/create.ts:14-33` | The starting position has its rights, kings and en passant square in order and nobody in check |
| `Start.StartPotential` | `packages/model/src/game/actions/create.ts:14-33` | The starting position is worth 128 units, that is 12,900 moves without null moves |
| `Runs.KingSafetyOfRuns` | `packages/model/src/game/analysis/moves.ts:315-351` | Over every run from the standard start without the three exceptions, each colour has exactly one king and the side that just moved is not in check |
| `Runs.CarefulRunStaysSane` | `packages/model/src/game/analysis/moves.ts:315-351` | The same from any sound board, for all facts the next move relies on |
| `Runs.RightsShrinkOverRuns` | `packages/model/src/game/actions/move.ts:37-70` | Over every run rights only shrink |
| `Runs.PiecesOverRuns` | `packages/model/src/game/actions/move.ts:19-95` | Over every run a colour has lost exactly as many pieces as the other colour's moves captured |
| `Runs.EveryGameEnds` | `packages/model/src/game/actions/move.ts:218-226` | From the standard start no run has more than 12,900 moves without null moves, nor more than 13,029 real moves with them |
| `Runs.ResultOfRun` | `packages/model/src/game/actions/move.ts:214-238` | A game is active without winner and reason, or expired with both and decided on the board |
| `Runs.TurnsAreCounted` | `packages/model/src/game/actions/move.ts:19-35` | The move number and the side to move tell together how many turns a run had, null moves included, and the history is the moves of the run in order |
| `Runs.WinnerIsMover` | `packages/model/src/game/actions/move.ts:214-238` | The mover wins exactly by a mate it has given, and every other ending on the board is a draw |
| `Runs.ThirdOccurrenceEnds` | `packages/model/src/game/actions/move.ts:218-238` | The move that brings a placement up for the third time is exactly the one that ends the game as a draw by repetition |
| `Runs.NoBoardThrice` | `packages/model/src/game/actions/move.ts:163-168` | While a game from the standard start is active, no placement has stood on the board three times, counting the start and the board after every real move |
| `Runs.KinglessStandsStill` | `packages/model/src/game/analysis/threats.ts:14-20` | Once a colour has no king, no run ever moves a piece again: there are null moves at most |
| `Runs.ProgressIsExact` | `packages/model/src/game/actions/move.ts:187-239` | From any board in order a real move is accepted next if and only if the game is on, time is left, and some valid move leaves the enemy a king |
| `Runs.SomeMoveIsAccepted` | `packages/model/src/game/analysis/end.ts:16-31` | If the game is still on after a real move that leaves a sound board, there is a text the next call accepts, time permitting |
| `Stalls.GameCanStall` | `packages/model/src/game/actions/move.ts:44-52` | A sound board on which the accepted castling e1c1 leaves the game active and no text whatever accepted: the dragged king can only take a king, and cannot pass for it is in check |
| `Stalls.PromotionCanStall` | `packages/model/src/game/actions/move.ts:29-31` | A sound board on which the accepted e7e8q promotes the king: the game is active after it, and no piece ever moves again |
| `SameGames.EndedTogether` | `packages/model/src/game/actions/move.ts:187-239` | Two runs of the same codes end together: where one has ended the other cannot go on or stop short with no move to accept |
| `Openings.FirstMove` | `apps/test-driver/src/service/GameValidation.ts:260-284` | The first accepted move of a standard game goes up the board |
| `Openings.BlackGoesDown` | `apps/test-driver/src/service/GameValidation.ts:260-284` | Black's answer goes down the board |
| `Openings.FreshGameOpens` | `packages/model/src/game/actions/move.ts:187-239` | A fresh game with time left accepts g1f3 |
| `Reports.WhiteListIsFound` | `apps/test-driver/src/service/GameValidation.ts:260-284` | If the two lists tell a game at all, the list found is the one that is white's in it |
| `Validation.GameValidation.PlayTurn` | `apps/test-driver/src/service/GameValidation.ts:225-258` | The next code of the right list is played and the board it leads to is noted, exactly when the game accepts it |
| `Validation.GameValidation.Play` | `apps/test-driver/src/service/GameValidation.ts:225-258` | The lists are played strictly in turn as far as they go and every board is noted; if the game is refused or not over, the lists tell no game |
| `Validation.GameValidation.History` | `apps/test-driver/src/service/GameValidation.ts:188-223` | Every move is paired with what the client sent for it, and a failure names a move that prints differently |
| `Validation.GameValidation.Validate` | `apps/test-driver/src/service/GameValidation.ts:156-186` | A played game gives a replay exactly when it was played to its end without null moves; the result is one decided on the board |
| `Validation.GameValidation.Finalize` | `apps/test-driver/src/service/GameValidation.ts:121-140` | A replay is returned exactly when the two lists, one way round, are a standard game played to its end; every call notes the boards of the lists as far as they can be played; the replay is sound if and only if no earlier call has noted boards without giving a replay, that is, before the first replay, if nothing had been noted |
| `Leftovers.NotesDecide` | `apps/test-driver/src/service/GameValidation.ts:140-258` | What calls without a replay left noted never begins with the boards of a game played whole, so that notations taken from the front are right exactly when nothing was left |
| `Leftovers.TextsDiffer` | `apps/test-driver/src/service/GameValidation.ts:246` | No two boards of one run have the same notation |
| `FoolsMate.MateIsTold` | `apps/test-driver/src/service/GameValidation.ts:225-258` | The lists of 1. f3 e5 2. g4 Qh4# tell a game: each move is valid in turn and the last leaves no valid move |
| `FoolsMate.CalledTwice` | `apps/test-driver/src/service/GameValidation.ts:121-140` | A first call with f2f3 alone gives no replay, and a second with the whole game one whose notations are wrong |
| `Reports.SoundnessIsExact` | `apps/test-driver/src/service/GameValidation.ts:121-140` | Only one list of notations makes a replay of given moves sound |
| `Reports.ReplaySteps` | `apps/test-driver/src/service/GameValidation.ts:188-258` | Move i of a sound replay prints as the text of its list, is accepted on the board decoded from notation i-1 and leads to exactly notation i |
| `Reports.CodeReadsBack` | `packages/model/src/game/actions/move.ts:145-161` | A text that reads as a real move is what that move prints as |
| `LiveGames.GameTransaction.SetConnection` | `apps/game-manager/src/service/games/GameTransaction.ts:98-122` | A player's connection flag and one event are recorded; a stranger is refused |
| `LiveGames.GameTransaction.Move` | `apps/game-manager/src/service/games/GameTransaction.ts:141-153` | The move is applied for the player to move, with its event, and the game deactivated when it is over; otherwise the call throws; on any board of 64 squares |
| `LiveGames.GameTransaction.Resign` | `apps/game-manager/src/service/games/GameTransaction.ts:162-174` | The other colour wins an active game and it is deactivated; otherwise the call throws |
| `LiveGames.NewLiveIsConsistent` | `apps/game-manager/src/service/games/GameStore.ts:164-204` | A game as created, from any starting text that can be read, is consistent and has no history |
| `LiveGames.OperationKeepsConsistent` | `apps/game-manager/src/service/games/GameTransaction.ts:98-174` | By whatever rules and on whatever board, every operation let through keeps active, no winner and no reason one and the same, no forfeit, no null move; it adds at most its one move to the history |
| `Protocol.StepKeepsInv` | `apps/game-manager/src/api/player.ws.ts:17-139` | Every step of every handler, throwing ones included, keeps the invariant |
| `Protocol.NoLostUpdate` | `apps/game-manager/src/service/games/GameStore.ts:142-153` | Whatever rules are called and on whatever boards games began, in every interleaving at most one handler holds the lock of a game, the copy it works on is the stored game, and the stored game is the fold of the committed operations in commit order |
| `Protocol.HistoryIsCommitted` | `apps/game-manager/src/service/games/GameTransaction.ts:141-153` | The history of a stored game is exactly the moves committed to it, one per commit of a move |
| `Protocol.CommittedMovesWereDue` | `apps/game-manager/src/api/player.ws.ts:74-114` | Every committed move was sent by the player to move, was no null move and went through on the game it met |
| `Protocol.FoldKeepsOrder` | `apps/game-manager/src/api/player.ws.ts:74-114` | By the standard rules, every move committed to a game that began on a board in order was accepted on the board it met |
| `Protocol.StoredGamesAreConsistent` | `apps/game-manager/src/service/games/GameTransaction.ts:75-82` | In every interleaving, by whatever rules and from whatever boards, stored games are consistent: active, no winner and no reason coincide, no forfeits, no null moves; their history is the moves committed |
| `Handlers.CheckInConnects` | `apps/game-manager/src/api/player.ws.ts:38-72` | Checking in commits that the player is connected and nothing else; it throws for a finished game and for a stranger |
| `Handlers.ClosingDisconnects` | `apps/game-manager/src/api/player.ws.ts:17-31` | Closing commits that the player is disconnected and nothing else |
| `Handlers.ResigningLoses` | `apps/game-manager/src/api/player.ws.ts:116-129` | Resigning commits an active game as won by the other player's colour, and deactivates it |
| `Handlers.MovingCommits` | `apps/game-manager/src/api/player.ws.ts:74-114` | Exactly when a move is refused, throws, or is committed, and the game it commits |
| `Handlers.CreatedLive` | `apps/game-manager/src/service/games/GameStore.ts:164-204` | The fields of a game as created |
| `Handlers.AfterFetching` | `apps/game-manager/src/api/player.ws.ts:38-90` | A game that is not active lets nobody check in, and an unreadable move asks for no lock |
| `Handlers.AfterRunning` | `apps/game-manager/src/api/player.ws.ts:38-139` | What becomes of a handler and its lock by what its body does |
| `Handlers.StepServes` | `apps/game-manager/src/service/games/GameTransaction.ts:38-49` | First come, first served: a step leaves a queue as it is, appends one handler, or takes off the first, which then has the lock |
| `Statistics.ReplayManager.AddReplay` | `apps/replays/src/service/ReplayManager.ts:68-76` | A replay is stored, analysed and indexed once; the indices list exactly the stored replays of each engine and of each day |
| `Statistics.ReplayManager.Fetch` | `apps/replays/src/service/ReplayManager.ts:33-48` | All stored replays between two different engines, whoever had white, and no other; of one engine asked for twice, all its replays |
| `Statistics.ExactlyOnce` | `apps/stats/src/service/Node.ts:67-82` | However often and in whatever order replays are delivered, each of the six counters is the number of distinct replays with that colour and result |
| `Statistics.FullFetchCountsAll` | `apps/stats/src/service/Node.ts:180-209` | Once at least everything fetched between node and base has been delivered, among whatever other stored replays, the counters are those of all stored replays between the two |
| `Statistics.CacheIsInvisible` | `apps/stats/src/service/Verification.ts:59-69` | After any sequence of updates through the cache every node is as if every replay had been offered to it |
| `Statistics.CountersFollowEvents` | `apps/stats/src/service/Verification.ts:59-125` | Over every interleaving of deliveries, additions and removals, a configuration's counters are those of the replays delivered while it was a node, whatever the cache skipped |
| `Statistics.GroupCountsAll` | `apps/stats/src/service/Verification.ts:59-125` | In such an interleaving each counter is the number of distinct replays that reached the node, and that of all stored replays between it and the base if they all did |
| `Statistics.SixCounters` | `apps/stats/src/service/Node.ts:180-209` | The six counters by the fields of the replays: as white a configuration has won those that white won against the base, as black those that black won, and so on |
| `Statistics.NodesByEvent` | `apps/stats/src/service/Verification.ts:78-125` | When a node is added or removed, and that both drop the cache and leave the counters |
| `Statistics.Verification.Update` | `apps/stats/src/service/Verification.ts:59-69` | The loop over the nodes and the cache test make the step the theorems are about, and keep the cache true |
| `Statistics.Verification.Add` | `apps/stats/src/service/Verification.ts:78-95` | A new node other than the base is added and the cache dropped; the counters stay stored |
| `Statistics.Verification.Remove` | `apps/stats/src/service/Verification.ts:104-125` | A node other than the base and the last is removed, no other, and the cache dropped; the counters stay stored |
| `Sessions.ClientManager.Find` | `apps/test-driver/src/service/ClientManager.ts:69-95` | At least `min` and at most `max` free clients in the order they connected, or a failure exactly when too few are free |
| `Sessions.Session.Start` | `apps/test-driver/src/service/Session.ts:128-139` | Locks and asks exactly the clients found, or none |
| `Sessions.Session.Replace` | `apps/test-driver/src/service/Session.ts:110-119` | Locks and asks one more free client if there is one |
| `Sessions.Session.Add` | `apps/test-driver/src/service/Session.ts:74-103` | What remains falls by the games that could be finalized; the client is unlocked when nothing remains, and asked again otherwise |
| `Sessions.StartLocksExactly` | `apps/test-driver/src/service/Session.ts:128-139` | A start locks exactly as many clients as wanted, all of them connected and free before, or none, and touches no other |
| `Sessions.FoundAreFirst` | `apps/test-driver/src/service/ClientManager.ts:69-95` | Those found are the first of the free clients to have connected |
| `Sessions.BatchIsHalf` | `apps/test-driver/src/service/Session.ts:143-152` | A batch is half of what remains, or of ten if more does, rounded up |
| `Sessions.SettlingCounts` | `apps/test-driver/src/service/Session.ts:96-102` | A report takes its games from what remains, frees its client exactly when nothing does and the client is the session's, and touches nothing else |
| `Sessions.ClosingReplaces` | `apps/test-driver/src/service/Session.ts:110-119` | When a client of a session that is going on is closed, one free connected client is locked and asked in its place if there is one, and no other lock changes |
| `Sessions.StepKeepsInv` | `apps/test-driver/src/service/Session.ts:74-139` | Every step keeps: what remains and what was accepted add up until shutdown, whoever reports; and a client that was locked to an incomplete session when it reported still is |
| `Sessions.RequestsAreDue` | `apps/test-driver/src/service/Session.ts:97-102` | Every request goes to a client locked to the session it names, with a batch between one and what remains exactly while the asking session is incomplete; after a report, the asking session is the one it names if and only if the reporter is then locked to it, as it is if it was when it reported |
| `Sessions.GamesAddUp` | `apps/test-driver/src/service/Session.ts:74-103` | Over every interleaving of reports from any clients, starts, disconnections and shutdowns: what remains and what was accepted add up to the games asked for until shutdown, and every request is as stated for one step |
| `Sessions.StrayReportStalls` | `apps/test-driver/src/service/Session.ts:96-119` | A report from a client not locked to the session uses up what remains and throws at its end, so that the session is not invalidated by it; a disconnection then makes it ask a free client for a batch of no games |
| `Sessions.CompleteStaysComplete` | `apps/test-driver/src/service/Session.ts:52-66` | A completed or shut down session never becomes incomplete again, whatever steps follow |

## Left out

- Games.Game.Move: when the call throws inside a search or a write, the board and the histories it leaves are not described; the callers drop them. On boards of fewer than 64 squares, which lax notation gives, the rules are not modelled; the live-game theorems hold there as for any rules.
- Runs, and with them the theorems on king safety, counting and length, start from boards that are in order. What the state machine does with a single move on any other board of 64 squares is `Games.Game.Move`.
- Ids, clock readings and the random colour are parameters; `lastRequest` is never set by the services, so game-manager and validation games are untimed. An infinite or largest-integer timeout is a constant that is never used up.
- Fen.FenRoundTrip: counters are unbounded naturals in decimal digits. The lenient number parsing of the language (signs, fractions, trailing text) is not modelled; such texts are refused here.
- Upper and lower case are those of ASCII letters; Unicode case folding is not modelled.
- What the board parser accepts beyond printed boards (short boards, the digit 9, doubled separators) is modelled as it is, and nothing is claimed about it.
- `scan` is a generator in the program and returns its list here; `next` stops early and gives the same result.
- Replay ids, dates, logs and the joined log of a validation.
- Statistics.ReplayManager.AddReplay: the analysis written beside the replay is a parameter.
- Ids, messages and timestamps of live-game events, the outgoing messages of the handlers, subscriptions, `resetConnections` and `delete`, which bypass the lock.
- Finding the game of a player in the store is one step of the protocol; the loop over keys behind it is not modelled.
- Liveness: that locks are released, that sessions finish, that waiting handlers get their turn.
- Sessions take `finalize` as an outcome, one step per game; drivers, hardware and registration details of clients are left out. A registered client reports; that it has registered is not modelled.
- Statistics know an engine configuration by its hash, an arbitrary string, and process replays one at a time; the node list of a group has no duplicates; ratios, progress and plots are left out.
- The database, queues, web sockets, routers and schema validation.
