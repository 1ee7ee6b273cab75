/** The shortest mate, 1. f3 e5 2. g4 Qh4#: a game that two lists tell, and a validation that is called twice. */
module FoolsMate {
  import opened Boards
  import opened Rules
  import opened Text
  import opened Moving
  import opened Castling
  import opened KingSafety
  import opened Fen
  import opened Games
  import opened Start
  import opened Runs
  import opened SameGames
  import opened Reports
  import opened Leftovers
  import opened Validation

  // ----- The boards ---------------------------------------------------------------------------------------

  /** The starting position but for the squares of `changes`. */
  ghost predicate Differs(ps: seq<Position>, changes: map<int, Option<Piece>>) {
    && WellFormed(ps)
    && forall i | 0 <= i < 64 :: ps[i].piece == if i in changes then changes[i] else StartPiece(i)
  }

  function AfterF3(): map<int, Option<Piece>> { map[53 := None, 45 := Some(Piece(Pawn, White))] }

  function AfterE5(): map<int, Option<Piece>> { AfterF3()[12 := None][28 := Some(Piece(Pawn, Black))] }

  function AfterG4(): map<int, Option<Piece>> { AfterE5()[54 := None][38 := Some(Piece(Pawn, White))] }

  function AfterQh4(): map<int, Option<Piece>> { AfterG4()[3 := None][39 := Some(Piece(Queen, Black))] }

  /** A board of this game: nothing has been castled or captured. */
  ghost predicate IsStage(b: BoardState, changes: map<int, Option<Piece>>, next: Color) {
    Differs(b.positions, changes) && b.next == next && b.castle == Rights(BothSides, BothSides) && b.halfMoves <= 1
  }

  const F3 := Move(53, 45, None)

  const E5 := Move(12, 28, None)

  const G4 := Move(54, 38, None)

  const QH4 := Move(3, 39, None)

  lemma StartStage(b: BoardState)
    requires b == StartBoard()
    ensures IsStage(b, map[], White) && b.enPassant == None
  {
    hide StartBoard;
  }

  lemma StageF3(b: BoardState)
    requires IsStage(b, map[], White) && b.enPassant == None
    ensures Performable(b, F3) && !IsCastling(b, F3) && !IsEnPassant(b, F3)
    ensures IsStage(Perform(b, F3), AfterF3(), Black) && Perform(b, F3).enPassant == None
  {
    PerformIsWellFormed(b, F3);
    hide WellFormed;
  }

  lemma StageE5(b: BoardState)
    requires IsStage(b, AfterF3(), Black) && b.enPassant == None
    ensures Performable(b, E5) && !IsCastling(b, E5) && !IsEnPassant(b, E5)
    ensures IsStage(Perform(b, E5), AfterE5(), White) && Perform(b, E5).enPassant == Some(20)
  {
    PerformIsWellFormed(b, E5);
    hide WellFormed;
  }

  lemma StageG4(b: BoardState)
    requires IsStage(b, AfterE5(), White) && b.enPassant == Some(20)
    ensures Performable(b, G4) && !IsCastling(b, G4) && !IsEnPassant(b, G4)
    ensures IsStage(Perform(b, G4), AfterG4(), Black) && Perform(b, G4).enPassant == Some(46)
    ensures Perform(b, G4).halfMoves == 0
  {
    PerformIsWellFormed(b, G4);
    hide WellFormed;
  }

  lemma StageQh4(b: BoardState)
    requires IsStage(b, AfterG4(), Black) && b.enPassant == Some(46) && b.halfMoves == 0
    ensures Performable(b, QH4) && !IsCastling(b, QH4) && !IsEnPassant(b, QH4)
    ensures IsStage(Perform(b, QH4), AfterQh4(), White) && Perform(b, QH4).enPassant == None
  {
    PerformIsWellFormed(b, QH4);
    hide WellFormed;
  }

  // ----- The moves are valid ------------------------------------------------------------------------------

  /** A line from black's side to e1 runs into the pieces around it, or comes down the diagonal from h4. */
  lemma LineToE1(s: int)
    requires (0 <= s < 16 || s == 28) && Lined(s, 60)
    ensures 1 <= Dist(s, 60) - 1 < Dist(s, 60) && Toward(s, 60, Dist(s, 60) - 1) in {51, 52, 59, 61}
  {
  }

  lemma WhiteKingSafe(ps: seq<Position>)
    requires |ps| == 64 && forall i | i in {51, 52, 59, 61} :: ps[i].piece.Some?
    requires forall i | 0 <= i < 64 && Occupied(ps, i, Black) :: i < 16 || i == 28
    ensures !Attacked(ps, White, 60)
  {
    forall s ensures !Attacker(ps, White, s, 60) {
      if Occupied(ps, s, Black) && Lined(s, 60) {
        LineToE1(s);
      }
    }
  }

  /** A line from white's side to e8 is the e file, and runs into the pawn on e5. */
  lemma LineToE8(s: int)
    requires 38 <= s < 64 && Lined(s, 4)
    ensures 1 <= s / 8 - 3 < Dist(s, 4) && Toward(s, 4, s / 8 - 3) == 28
  {
  }

  lemma BlackKingSafe(ps: seq<Position>)
    requires |ps| == 64 && ps[28].piece.Some?
    requires forall i | 0 <= i < 64 && Occupied(ps, i, White) :: i >= 38
    ensures !Attacked(ps, Black, 4)
  {
    forall s ensures !Attacker(ps, Black, s, 4) {
      if Occupied(ps, s, White) && Lined(s, 4) {
        LineToE8(s);
      }
    }
  }

  /** A move that its piece generates is valid if the king is where it was, alone of its kind, and not attacked. */
  lemma ValidIfSafe(b: BoardState, m: Move, k: int)
    requires |b.positions| == 64 && Occupied(b.positions, m.source, b.next) && CanMove(b, m.source, m.target)
    requires IsTheKing(b.positions, b.next, k) && k != m.source && k != m.target
    requires !Attacked(Played(b.positions, m.source, m.target), b.next, k)
    ensures Legal(b, m.source, m.target)
  {
    PlayedKing(b.positions, b.next, k, m);
    hide Attacked, CanMove, Played;
    TheKingSquare(Played(b.positions, m.source, m.target), b.next, k);
  }

  lemma ValidF3(b: BoardState)
    requires IsStage(b, map[], White)
    ensures Legal(b, 53, 45)
  {
    var ps := b.positions;
    assert IsTheKing(ps, White, 60);
    assert PawnReaches(b, White, 53, 45);
    WhiteKingSafe(Played(ps, 53, 45));
    hide Attacked, PawnReaches, WellFormed;
    ValidIfSafe(b, F3, 60);
  }

  lemma ValidE5(b: BoardState)
    requires IsStage(b, AfterF3(), Black)
    ensures Legal(b, 12, 28)
  {
    var ps := b.positions;
    assert IsTheKing(ps, Black, 4);
    assert PawnReaches(b, Black, 12, 28);
    BlackKingSafe(Played(ps, 12, 28));
    hide Attacked, PawnReaches, WellFormed;
    ValidIfSafe(b, E5, 4);
  }

  lemma ValidG4(b: BoardState)
    requires IsStage(b, AfterE5(), White)
    ensures Legal(b, 54, 38)
  {
    var ps := b.positions;
    assert IsTheKing(ps, White, 60);
    assert PawnReaches(b, White, 54, 38);
    WhiteKingSafe(Played(ps, 54, 38));
    hide Attacked, PawnReaches, WellFormed;
    ValidIfSafe(b, G4, 60);
  }

  lemma QueenPath(ps: seq<Position>)
    requires Differs(ps, AfterG4())
    ensures Diagonal(3, 39) && Clear(ps, 3, 39)
  {
    forall n | 1 <= n < Dist(3, 39) ensures ps[Toward(3, 39, n)].piece.None? {
      assert Toward(3, 39, n) == 3 + 9 * n;
    }
  }

  lemma ValidQh4(b: BoardState)
    requires IsStage(b, AfterG4(), Black)
    ensures Legal(b, 3, 39)
  {
    var ps := b.positions;
    assert IsTheKing(ps, Black, 4);
    QueenPath(ps);
    BlackKingSafe(Played(ps, 3, 39));
    hide Attacked, Clear, WellFormed;
    ValidIfSafe(b, QH4, 4);
  }

  // ----- Mate ---------------------------------------------------------------------------------------------

  /** The queen on h4 looks at e1 over g3 and f2. */
  lemma QueenMates(ps: seq<Position>)
    requires |ps| == 64 && Holds(ps, 39, Piece(Queen, Black)) && ps[46].piece.None? && ps[53].piece.None?
    ensures Attacked(ps, White, 60) && Attacked(ps, White, 53)
  {
    assert Clear(ps, 39, 60) by {
      forall n | 1 <= n < Dist(39, 60) ensures ps[Toward(39, 60, n)].piece.None? {
        assert Toward(39, 60, n) == 39 + 7 * n;
      }
    }
    assert Clear(ps, 39, 53) by {
      forall n | 1 <= n < Dist(39, 53) ensures ps[Toward(39, 53, n)].piece.None? {
        assert Toward(39, 53, n) == 39 + 7 * n;
      }
    }
    assert Attacker(ps, White, 39, 60) && Attacker(ps, White, 39, 53);
  }

  /** White's pawns, and its other men besides the king. */
  const PAWNS: set<int> := {38, 45, 48, 49, 50, 51, 52, 55}

  const OFFICERS: set<int> := {56, 57, 58, 59, 61, 62, 63}

  lemma WhiteMen(ps: seq<Position>, s: int)
    requires Differs(ps, AfterQh4()) && Occupied(ps, s, White)
    ensures s == 60 || s in PAWNS || s in OFFICERS
    ensures s in PAWNS ==> ps[s].piece == Some(Piece(Pawn, White))
    ensures s in OFFICERS ==> ps[s].piece == StartPiece(s)
  {
  }

  lemma PawnsDoNotHelp(b: BoardState, s: int, t: int)
    requires IsStage(b, AfterQh4(), White) && b.enPassant == None && s in PAWNS && t in {39, 46, 53}
    ensures !PawnReaches(b, White, s, t)
  {
    assert Occupied(b.positions, 39, Black) && !Occupied(b.positions, 46, Black) && !Occupied(b.positions, 53, Black);
    hide WellFormed, AfterQh4;
  }

  /** The rook looks up its file at its own pawn; nobody else is in line. */
  lemma OfficersDoNotHelp(ps: seq<Position>, s: int, t: int)
    requires Differs(ps, AfterQh4()) && s in OFFICERS && t in {39, 46, 53}
    ensures !PieceAttacks(ps, StartPiece(s).value, s, t)
  {
    assert ps[55].piece.Some?;
    hide WellFormed, AfterQh4, Differs;
    if s == 63 && t == 39 {
      assert Toward(63, 39, 1) == 55;
    }
  }

  /** None of them can take the queen or step between. */
  lemma NoneHelps(b: BoardState, s: int, t: int)
    requires IsStage(b, AfterQh4(), White) && b.enPassant == None && Occupied(b.positions, s, White) && s != 60
    requires t in {39, 46, 53}
    ensures !CanMove(b, s, t)
  {
    WhiteMen(b.positions, s);
    if s in PAWNS {
      PawnsDoNotHelp(b, s, t);
    } else {
      OfficersDoNotHelp(b.positions, s, t);
    }
    hide WellFormed, AfterQh4, PieceAttacks, PawnReaches, Differs;
  }

  lemma Neighbours(t: int)
    requires OnBoard(t) && Dist(60, t) == 1
    ensures t in {51, 52, 53, 59, 61}
  {
  }

  lemma NoCastling(b: BoardState, t: int)
    requires |b.positions| == 64 && Attacked(b.positions, White, 60)
    ensures !Castles(b, White, 60, t)
  {
    hide Attacked;
  }

  /** A king on e1 that is attacked there and on f2, with its own men on all other squares around it. */
  lemma ShutInKing(b: BoardState, t: int)
    requires |b.positions| == 64 && Holds(b.positions, 60, Piece(King, White))
    requires Occupied(b.positions, 51, White) && Occupied(b.positions, 52, White)
    requires Occupied(b.positions, 59, White) && Occupied(b.positions, 61, White)
    requires Attacked(b.positions, White, 60) && Attacked(b.positions, White, 53)
    ensures !CanMove(b, 60, t)
  {
    NoCastling(b, t);
    if OnBoard(t) && Dist(60, t) == 1 {
      Neighbours(t);
    }
    hide Attacked, Castles, Dist, PawnReaches, PieceAttacks;
  }

  lemma KingIsStuck(b: BoardState, t: int)
    requires IsStage(b, AfterQh4(), White)
    ensures !CanMove(b, 60, t)
  {
    var ps := b.positions;
    assert Holds(ps, 39, Piece(Queen, Black)) && ps[46].piece.None? && ps[53].piece.None?;
    assert Holds(ps, 60, Piece(King, White)) && Occupied(ps, 51, White) && Occupied(ps, 52, White);
    assert Occupied(ps, 59, White) && Occupied(ps, 61, White);
    hide *;
    QueenMates(ps);
    ShutInKing(b, t);
  }

  lemma MovesElsewhere(b: BoardState, s: int, t: int)
    requires |b.positions| == 64 && Occupied(b.positions, s, White) && s != 60 && CanMove(b, s, t)
    requires Holds(b.positions, 60, Piece(King, White)) && b.enPassant == None
    ensures t != 60 && s != t
  {
    assert !b.positions[s].piece.value.kind.King? ==> !Occupied(b.positions, t, White) && s != t by {
      hide Clear, Attacked;
    }
    hide Clear, Attacked;
  }

  lemma StillMated(b: BoardState, s: int, t: int)
    requires IsStage(b, AfterQh4(), White) && b.enPassant == None && Occupied(b.positions, s, White) && s != 60
    requires t !in {39, 46, 53} && CanMove(b, s, t)
    ensures InCheck(Played(b.positions, s, t), White)
  {
    var ps := b.positions;
    assert IsTheKing(ps, White, 60);
    assert Holds(ps, 39, Piece(Queen, Black)) && ps[46].piece.None? && ps[53].piece.None?;
    hide Differs, AfterQh4, WellFormed, Attacked;
    MovesElsewhere(b, s, t);
    hide CanMove;
    var after := Played(ps, s, t);
    QueenMates(after);
    PlayedKing(ps, White, 60, Move(s, t, None));
    hide Played;
    TheKingSquare(after, White, 60);
  }

  lemma NoEscape(b: BoardState, s: int, t: int)
    requires IsStage(b, AfterQh4(), White) && b.enPassant == None
    ensures !Legal(b, s, t)
  {
    assert |b.positions| == 64;
    hide CanMove, Attacked, Played, Differs;
    if Legal(b, s, t) {
      if s == 60 {
        KingIsStuck(b, t);
      } else if t in {39, 46, 53} {
        NoneHelps(b, s, t);
      } else {
        StillMated(b, s, t);
      }
    }
  }

  lemma IsMate(b: BoardState, positionHistory: seq<string>)
    requires IsStage(b, AfterQh4(), White) && b.enPassant == None
    ensures Verdict(b, positionHistory).Some?
  {
    forall s, t ensures !Legal(b, s, t) {
      NoEscape(b, s, t);
    }
    hide Legal, InCheck, IsStage;
  }

  // ----- The game goes on until mate ----------------------------------------------------------------------

  /** A game that is on, untimed and sound, with these placements noted. */
  ghost predicate IsOn(g: GameState, noted: seq<string>) {
    Untimed(g) && g.status == Active && Sane(g.board) && g.positionHistory == noted
  }

  /** A plain valid move is accepted; what is left to know is whether it ends the game. */
  lemma Onward(g: GameState, noted: seq<string>, m: Move, code: string)
    requires IsOn(g, noted) && Legal(g.board, m.source, m.target) && m.promotion.None?
    requires Performable(g.board, m) && !IsCastling(g.board, m) && !IsEnPassant(g.board, m)
    requires ParseMove(code) == Ok(m) && !IsNull(m)
    ensures Ordered(g.board) && Accepts(g, code, 0)
    ensures var r := AfterMove(g, code, 0);
            var more := noted + [Hash(r.board.positions)];
            && r.board == Perform(g.board, m)
            && (if Verdict(r.board, more).None? then IsOn(r, more) else r.status == Expired)
  {
    assert Accepted(g.board, m);
    PlainMovesAreSafe(g.board, m);
    SaneAfter(g.board, m);
    LegalIsTaken(g.board, m);
    hide Legal, Sane, Takes, Perform, Performable, KeepsKingsSafe, Accepted, ParseMove, Hash, IsCastling, IsEnPassant;
    TurnMovesBoard(g, Turn(code, 0));
    hide Verdict, BoardAfter;
  }

  /** Two placements, one of which shows a piece where the other has none, have different hashes. */
  lemma LaterHash(ps: seq<Position>, changes: map<int, Option<Piece>>, qs: seq<Position>, more: map<int, Option<Piece>>,
                  i: int)
    requires Differs(ps, changes) && Differs(qs, more)
    requires 16 <= i < 48 && i !in changes && i in more && more[i].Some?
    ensures Hash(ps) != Hash(qs)
  {
    assert ps[i].piece.None? && qs[i].piece.Some?;
    HashIsPlacement(ps, qs);
    hide Hash, Differs;
  }

  lemma Stages()
    ensures 45 in AfterF3() && AfterF3()[45].Some? && 0 !in AfterF3() && 28 !in AfterF3() && 38 !in AfterF3()
    ensures 28 in AfterE5() && AfterE5()[28].Some? && 0 !in AfterE5() && 38 !in AfterE5()
    ensures 38 in AfterG4() && AfterG4()[38].Some? && 0 !in AfterG4()
  {
  }

  lemma StageDiffers(b: BoardState, changes: map<int, Option<Piece>>, next: Color)
    requires IsStage(b, changes, next)
    ensures Differs(b.positions, changes)
  {
    hide Differs;
  }

  lemma NotedOnce(noted: seq<string>, h: string)
    requires h !in noted
    ensures Occurrences(noted + [h], h) == 1
  {
  }

  lemma RookCanMate(b: BoardState, changes: map<int, Option<Piece>>)
    requires Differs(b.positions, changes) && 0 !in changes
    ensures !CannotMate(b.positions, Black)
  {
    assert b.positions[0].piece == Some(Piece(Rook, Black));
    hide Differs;
    KindAmong(b.positions, Black, 0);
    assert Rook in multiset(Kinds(b.positions, Black));
    hide Kinds;
  }

  /** A stage of the game with a move to be made and a new placement is not its end. */
  lemma StageGoesOn(b: BoardState, changes: map<int, Option<Piece>>, next: Color, noted: seq<string>, s: int, t: int)
    requires IsStage(b, changes, next) && 0 !in changes && Legal(b, s, t)
    requires Hash(b.positions) !in noted
    ensures Verdict(b, noted + [Hash(b.positions)]).None?
  {
    RookCanMate(b, changes);
    NotedOnce(noted, Hash(b.positions));
    hide Legal, Hash, Occurrences, Differs, InCheck, CannotMate;
  }

  lemma TheCodes()
    ensures ParseMove("f2f3") == Ok(F3) && ParseMove("e7e5") == Ok(E5)
    ensures ParseMove("g2g4") == Ok(G4) && ParseMove("d8h4") == Ok(QH4)
    ensures F3 == Move(53, 45, None) && E5 == Move(12, 28, None) && G4 == Move(54, 38, None) && QH4 == Move(3, 39, None)
    ensures !IsNull(F3) && !IsNull(E5) && !IsNull(G4) && !IsNull(QH4)
  {
    assert EncodeMove(F3) == "f2f3" && EncodeMove(E5) == "e7e5";
    assert EncodeMove(G4) == "g2g4" && EncodeMove(QH4) == "d8h4";
    MoveRoundTrip(F3);
    MoveRoundTrip(E5);
    MoveRoundTrip(G4);
    MoveRoundTrip(QH4);
    hide ParseMove, EncodeMove;
  }

  // The four turns. Each placement shows a piece where none stood on any board before.

  lemma PlyF3(g: GameState, noted: seq<string>, h: string)
    requires IsOn(g, noted) && IsStage(g.board, map[], White) && g.board.enPassant == None
    requires noted == [h] && h == Hash(g.board.positions)
    ensures Ordered(g.board) && Accepts(g, "f2f3", 0)
    ensures var r := AfterMove(g, "f2f3", 0);
            && IsStage(r.board, AfterF3(), Black) && r.board.enPassant == None
            && IsOn(r, [h, Hash(r.board.positions)])
  {
    hide *;
    TheCodes();
    Stages();
    ValidF3(g.board);
    StageF3(g.board);
    var b := Perform(g.board, F3);
    ValidE5(b);
    StageDiffers(g.board, map[], White);
    StageDiffers(b, AfterF3(), Black);
    LaterHash(g.board.positions, map[], b.positions, AfterF3(), 45);
    StageGoesOn(b, AfterF3(), Black, noted, 12, 28);
    Onward(g, noted, F3, "f2f3");
    assert [h] + [Hash(b.positions)] == [h, Hash(b.positions)];
  }

  lemma PlyE5(g: GameState, noted: seq<string>, start: seq<Position>)
    requires IsOn(g, noted) && IsStage(g.board, AfterF3(), Black) && g.board.enPassant == None
    requires Differs(start, map[]) && noted == [Hash(start), Hash(g.board.positions)]
    ensures Ordered(g.board) && Accepts(g, "e7e5", 0)
    ensures var r := AfterMove(g, "e7e5", 0);
            && IsStage(r.board, AfterE5(), White) && r.board.enPassant == Some(20)
            && IsOn(r, noted + [Hash(r.board.positions)])
  {
    hide *;
    TheCodes();
    Stages();
    ValidE5(g.board);
    StageE5(g.board);
    var b := Perform(g.board, E5);
    ValidG4(b);
    StageDiffers(g.board, AfterF3(), Black);
    StageDiffers(b, AfterE5(), White);
    LaterHash(g.board.positions, AfterF3(), b.positions, AfterE5(), 28);
    LaterHash(start, map[], b.positions, AfterE5(), 28);
    StageGoesOn(b, AfterE5(), White, noted, 54, 38);
    Onward(g, noted, E5, "e7e5");
  }

  lemma PlyG4(g: GameState, noted: seq<string>, start: seq<Position>, first: seq<Position>)
    requires IsOn(g, noted) && IsStage(g.board, AfterE5(), White) && g.board.enPassant == Some(20)
    requires Differs(start, map[]) && Differs(first, AfterF3())
    requires noted == [Hash(start), Hash(first)] + [Hash(g.board.positions)]
    ensures Ordered(g.board) && Accepts(g, "g2g4", 0)
    ensures var r := AfterMove(g, "g2g4", 0);
            && IsStage(r.board, AfterG4(), Black) && r.board.enPassant == Some(46) && r.board.halfMoves == 0
            && IsOn(r, noted + [Hash(r.board.positions)])
  {
    hide *;
    TheCodes();
    Stages();
    ValidG4(g.board);
    StageG4(g.board);
    var b := Perform(g.board, G4);
    ValidQh4(b);
    StageDiffers(g.board, AfterE5(), White);
    StageDiffers(b, AfterG4(), Black);
    LaterHash(g.board.positions, AfterE5(), b.positions, AfterG4(), 38);
    LaterHash(start, map[], b.positions, AfterG4(), 38);
    LaterHash(first, AfterF3(), b.positions, AfterG4(), 38);
    StageGoesOn(b, AfterG4(), Black, noted, 3, 39);
    Onward(g, noted, G4, "g2g4");
  }

  lemma PlyQh4(g: GameState, noted: seq<string>)
    requires IsOn(g, noted) && IsStage(g.board, AfterG4(), Black)
    requires g.board.enPassant == Some(46) && g.board.halfMoves == 0
    ensures Ordered(g.board) && Accepts(g, "d8h4", 0) && AfterMove(g, "d8h4", 0).status == Expired
  {
    hide *;
    TheCodes();
    ValidQh4(g.board);
    StageQh4(g.board);
    var b := Perform(g.board, QH4);
    IsMate(b, noted + [Hash(b.positions)]);
    Onward(g, noted, QH4, "d8h4");
  }

  // ----- The lists tell a game ----------------------------------------------------------------------------

  const WHITE: seq<string> := ["f2f3", "g2g4"]

  const BLACK: seq<string> := ["e7e5", "d8h4"]

  function TurnOf(code: string): Turn { Turn(code, 0) }

  /** A standard game with both players seated, of the kind a validation plays. */
  function NewState(): GameState {
    GameState("id", STANDARD_FEN, ColorMap(Some("white"), Some("black")), ColorMap(TIMEOUT, TIMEOUT), ColorMap(0, 0),
              -1, [], [Hash(StartBoard().positions)], Active, StartBoard(), None, None)
  }

  lemma NewIsOn(g: GameState)
    requires g == NewState()
    ensures IsFresh(g) && IsStage(g.board, map[], White) && g.board.enPassant == None
    ensures IsOn(g, [Hash(g.board.positions)])
  {
    StartStage(g.board);
    StartIsSane();
    hide Hash, Sane, StartBoard, Differs;
  }

  /** The four turns, one after the other. */
  lemma FourPlies(g: GameState)
    requires g == NewState()
    ensures IsFresh(g) && Ordered(g.board) && Accepts(g, "f2f3", 0)
    ensures var g1 := AfterMove(g, "f2f3", 0);
            && Ordered(g1.board) && Accepts(g1, "e7e5", 0)
            && var g2 := AfterMove(g1, "e7e5", 0);
               && Ordered(g2.board) && Accepts(g2, "g2g4", 0)
               && var g3 := AfterMove(g2, "g2g4", 0);
                  && Ordered(g3.board) && Accepts(g3, "d8h4", 0)
                  && AfterMove(g3, "d8h4", 0).status == Expired
  {
    NewIsOn(g);
    hide *;
    var start := g.board.positions;
    StageDiffers(g.board, map[], White);
    PlyF3(g, [Hash(start)], Hash(start));
    var g1 := AfterMove(g, "f2f3", 0);
    var first := g1.board.positions;
    StageDiffers(g1.board, AfterF3(), Black);
    PlyE5(g1, [Hash(start), Hash(first)], start);
    var g2 := AfterMove(g1, "e7e5", 0);
    var noted := [Hash(start), Hash(first)] + [Hash(g2.board.positions)];
    PlyG4(g2, noted, start, first);
    var g3 := AfterMove(g2, "g2g4", 0);
    PlyQh4(g3, noted + [Hash(g3.board.positions)]);
  }

  /** A run of four turns. */
  lemma RunOfFour(g: GameState, a: Turn, b: Turn, c: Turn, d: Turn)
    requires Ordered(g.board) && Accepts(g, a.code, a.now)
    requires var g1 := AfterMove(g, a.code, a.now);
             && Accepts(g1, b.code, b.now)
             && var g2 := AfterMove(g1, b.code, b.now);
                && Accepts(g2, c.code, c.now)
                && Accepts(AfterMove(g2, c.code, c.now), d.code, d.now)
    ensures IsRun(g, [a, b, c, d])
    ensures After(g, [a, b, c, d]) ==
              var g1 := AfterMove(g, a.code, a.now);
              var g2 := AfterMove(g1, b.code, b.now);
              AfterMove(AfterMove(g2, c.code, c.now), d.code, d.now)
  {
    hide *;
    var none: seq<Turn> := [];
    NoTurns(g, none);
    RunExtends(g, none, a);
    assert none + [a] == [a];
    RunExtends(g, [a], b);
    assert [a] + [b] == [a, b];
    RunExtends(g, [a, b], c);
    assert [a, b] + [c] == [a, b, c];
    RunExtends(g, [a, b, c], d);
    assert [a, b, c] + [d] == [a, b, c, d];
  }

  lemma TurnCodes(code: string)
    ensures TurnOf(code).code == code && TurnOf(code).now == 0
  {
  }

  lemma FourTurns(g: GameState, turns: seq<Turn>)
    requires g == NewState() && turns == [TurnOf("f2f3"), TurnOf("e7e5"), TurnOf("g2g4"), TurnOf("d8h4")]
    ensures IsFresh(g) && Ordered(g.board) && IsRun(g, turns) && After(g, turns).status == Expired
  {
    hide *;
    FourPlies(g);
    TurnCodes("f2f3");
    TurnCodes("e7e5");
    TurnCodes("g2g4");
    TurnCodes("d8h4");
    RunOfFour(g, TurnOf("f2f3"), TurnOf("e7e5"), TurnOf("g2g4"), TurnOf("d8h4"));
  }

  lemma InTurn(turns: seq<Turn>)
    requires turns == [TurnOf("f2f3"), TurnOf("e7e5"), TurnOf("g2g4"), TurnOf("d8h4")]
    ensures forall i | 0 <= i < |turns| :: IsInterleaved(turns[i].code, WHITE, BLACK, i) && !IsNull(MoveOf(turns[i]))
  {
    TheCodes();
    hide ParseMove;
  }

  /** The two lists tell a game: a report of it is not refused. */
  lemma MateIsTold()
    ensures IsTold(WHITE, BLACK)
  {
    hide *;
    var g := NewState();
    var turns := [TurnOf("f2f3"), TurnOf("e7e5"), TurnOf("g2g4"), TurnOf("d8h4")];
    FourTurns(g, turns);
    InTurn(turns);
    ToldByRun(g, turns, WHITE, BLACK);
  }

  // ----- A validation that is called twice ----------------------------------------------------------------

  /** No game is told by lists of which one is empty. */
  lemma EmptyListTellsNothing(white: seq<string>, black: seq<string>)
    requires white == [] || black == []
    ensures !IsTold(white, black)
  {
    hide Tells;
    if IsTold(white, black) {
      var g: GameState, turns: seq<Turn> :| Tells(g, turns, white, black);
      FirstTurns(g, turns, white, black);
    }
  }

  lemma FreshAcceptsF3(g: GameState)
    requires IsFresh(g) && Untimed(g)
    ensures Ordered(g.board) && Accepts(g, "f2f3", 0)
  {
    StartStage(g.board);
    FreshIsSane(g);
    assert IsOn(g, [Hash(g.board.positions)]);
    hide *;
    PlyF3(g, [Hash(g.board.positions)], Hash(g.board.positions));
  }

  lemma NotedIsMaximal(fens: seq<string>, g: GameState, turns: seq<Turn>, white: seq<string>, black: seq<string>,
                       code: string)
    requires IsNoted(fens, g, turns, white, black) && IsFresh(g) && Ordered(g.board)
    requires turns == [] && white != [] && code == white[0]
    ensures !Accepts(g, code, 0)
  {
    NoTurns(g, turns);
    assert IsInterleaved(code, white, black, 0);
    hide Ordered, Accepts, IsRun, After, BoardTexts, IsFresh, IsInterleaved;
  }

  /** A call with the first move alone notes the board it leads to. */
  lemma FirstMoveIsNoted(fens: seq<string>, white: seq<string>)
    requires IsAttempt(fens, white, []) && white == ["f2f3"]
    ensures fens != []
  {
    var g: GameState, turns: seq<Turn> :| IsNoted(fens, g, turns, white, []);
    hide IsNoted, IsTold;
    NotedAll(fens, g, turns, white, []);
    if turns == [] {
      FreshAcceptsF3(g);
      NotedIsMaximal(fens, g, turns, white, [], "f2f3");
    }
    hide *;
  }

  lemma CodesOf(moves: Pair<seq<MoveDetails>>)
    ensures moves.first == [MoveDetails("f2f3")] ==> Codes(moves.first) == ["f2f3"]
    ensures moves.second == [] ==> Codes(moves.second) == []
    ensures moves.first == [MoveDetails("f2f3"), MoveDetails("g2g4")] ==> Codes(moves.first) == WHITE
    ensures moves.second == [MoveDetails("e7e5"), MoveDetails("d8h4")] ==> Codes(moves.second) == BLACK
  {
  }

  lemma FirstIsWhite(moves: Pair<seq<MoveDetails>>)
    requires |moves.first| > 0 && moves.first[0].move == "f2f3"
    ensures WhiteListOf(moves) == Ok(0)
  {
    TheCodes();
    hide ParseMove;
  }

  /** The first move alone gives no replay, but leaves its board noted. The whole game then gives one, with notations
      that are not those of its boards. */
  method CalledTwice() returns (first: Result<Replay>, second: Result<Replay>)
    ensures first.Fail? && second.Ok? && !IsSound(second.value, WHITE, BLACK)
  {
    var validation := new GameValidation();
    hide IsSound, IsTold, Codes, IsAttempt, WhiteListOf, AreLeftovers, IsKept, Corrected;
    var driver := validation.AddDriver("driver");
    var engines := validation.AddEngines(Pair("one", "other"));
    var alone := Pair([MoveDetails("f2f3")], []);
    var accepted := validation.AddMoves(alone);
    CodesOf(alone);
    FirstIsWhite(alone);
    EmptyListTellsNothing(["f2f3"], []);
    ghost var white, fens;
    first, white, fens := validation.Finalize();
    ReportIsFound(alone);
    FirstMoveIsNoted(fens, ["f2f3"]);
    var whole := Pair([MoveDetails("f2f3"), MoveDetails("g2g4")], [MoveDetails("e7e5"), MoveDetails("d8h4")]);
    accepted := validation.AddMoves(whole);
    CodesOf(whole);
    FirstIsWhite(whole);
    MateIsTold();
    assert IsReport(whole, 0);
    second, white, fens := validation.Finalize();
  }
}
