/** How calls of `move` come out: what is accepted, who loses by a refusal, and how games end. Colours, counters and
    material are named one by one. */
module Outcomes {
  import opened Boards
  import opened Text
  import opened Rules
  import opened Moving
  import opened Castling
  import opened Accounting
  import opened Fen
  import opened Analysis
  import opened Games
  import opened Runs

  // ----- Accepting and refusing ---------------------------------------------------------------------------

  /** A valid move is accepted without a suffix anywhere, and with one on the first and last rank for a rook, bishop,
      knight or queen. */
  lemma SuffixesAccepted(b: BoardState, m: Move)
    requires |b.positions| == 64 && Legal(b, m.source, m.target)
    ensures Accepted(b, m) <==>
              || m.promotion == None
              || (&& (0 <= m.target < 8 || 56 <= m.target < 64)
                  && m.promotion.value.kind in {Rook, Bishop, Knight, Queen})
  {
    assert OnBoard(m.target);
    hide CanMove, InCheck;
  }

  function TimeOf(time: ColorMap<int>, color: Color): int { if color == White then time.white else time.black }

  /** What the side to move has left when a call arrives. */
  function Left(g: GameState, now: int): int {
    TimeOf(g.time, g.board.next) - if g.lastRequest > 0 then now - g.lastRequest else 0
  }

  function Opponent(color: Color): Color { if color == White then Black else White }

  /** The clock of the side to move is charged, and credited if something is left; the other clock is not touched. */
  lemma ClockOfCall(g: GameState, now: int)
    ensures HasTime(g, now) <==> Left(g, now) > 0
    ensures var r := Clocked(g, now);
            && TimeOf(r.time, g.board.next) ==
               Left(g, now) + (if Left(g, now) > 0 then TimeOf(g.timeback, g.board.next) else 0)
            && TimeOf(r.time, Opponent(g.board.next)) == TimeOf(g.time, Opponent(g.board.next))
            && r.board == g.board && r.history == g.history
            && (if Left(g, now) > 0 then r.status == g.status && r.winner == g.winner && r.reason == g.reason
                else
                  && r.status == Expired && r.reason == Some(OutOfTime)
                  && r.winner == Some(Won(Opponent(g.board.next))))
  {
  }

  /** A call that is refused on an active game: too late, it is lost on time; unreadable, the clock is charged and the
      game goes on; otherwise it is lost by rule violation. It is the other colour that wins. */
  lemma RefusalLoses(g: GameState, code: string, now: int)
    requires g.status == Active
    ensures var r := AfterRefusal(g, code, now);
            && r.board == g.board && r.history == g.history
            && (if Left(g, now) <= 0 then
                  r.status == Expired && r.reason == Some(OutOfTime) && r.winner == Some(Won(Opponent(g.board.next)))
                else if ParseMove(code).Fail? then
                  r.status == Active && r.reason == g.reason && r.winner == g.winner
                else
                  && r.status == Expired && r.reason == Some(RuleViolation)
                  && r.winner == Some(Won(Opponent(g.board.next))))
  {
    hide ParseMove;
  }

  /** A game that is not active stays as it is. */
  lemma InactiveStays(g: GameState, code: string, now: int)
    requires g.status != Active
    ensures AfterRefusal(g, code, now) == g
  {
  }

  ghost predicate IsFirstKing(b: BoardState, k: int)
    requires |b.positions| == 64
  {
    && 0 <= k < 64 && b.positions[k].piece == Some(Piece(King, b.next))
    && forall j | 0 <= j < k :: b.positions[j].piece != Some(Piece(King, b.next))
  }

  /** The first king of the side to move is attacked. */
  ghost predicate IsChecked(b: BoardState)
    requires |b.positions| == 64
  {
    exists k :: IsFirstKing(b, k) && exists q :: Attacker(b.positions, b.next, q, k)
  }

  lemma FirstKing(b: BoardState)
    requires |b.positions| == 64
    ensures HasKing(b.positions, b.next) ==> IsFirstKing(b, KingSquare(b.positions, b.next))
    ensures forall k :: IsFirstKing(b, k) ==> k == KingSquare(b.positions, b.next) && HasKing(b.positions, b.next)
  {
    var (ps, king) := (b.positions, Piece(King, b.next));
    forall j | 0 <= j < 64 ensures Holds(ps, j, king) <==> ps[j].piece == Some(king) {
    }
    forall k | IsFirstKing(b, k) ensures k == KingSquare(ps, b.next) && HasKing(ps, b.next) {
      assert Holds(ps, k, king);
    }
  }

  lemma CheckedIsInCheck(b: BoardState)
    requires |b.positions| == 64
    ensures InCheck(b.positions, b.next) <==> IsChecked(b)
    ensures HasKing(b.positions, b.next) <==> exists k :: IsFirstKing(b, k)
    ensures HasKing(b.positions, b.next) && !InCheck(b.positions, b.next) <==>
              exists k :: IsFirstKing(b, k) && forall q :: !Attacker(b.positions, b.next, q, k)
  {
    FirstKing(b);
    hide Attacker, IsFirstKing, HasKing;
  }

  lemma ZerosAreNull()
    ensures ParseMove("0000") == Ok(Move(-1, -1, None))
  {
  }

  /** Passing is accepted exactly when the game is on, time is left, and the first king of the side to move is there and
      not attacked. */
  lemma PassingAccepted(g: GameState, now: int)
    requires Ordered(g.board)
    ensures Accepts(g, "0000", now) <==>
              && g.status == Active && Left(g, now) > 0
              && exists k :: IsFirstKing(g.board, k) && forall q :: !Attacker(g.board.positions, g.board.next, q, k)
  {
    ZerosAreNull();
    CheckedIsInCheck(g.board);
    hide ParseMove, InCheck, Attacker, IsFirstKing, HasKing;
  }

  /** What an accepted move leaves alone, and what it does to the clock. */
  lemma AcceptedKeeps(g: GameState, code: string, now: int)
    requires Ordered(g.board) && Accepts(g, code, now)
    ensures var r := AfterMove(g, code, now);
            && r.id == g.id && r.startFen == g.startFen && r.players == g.players
            && r.timeback == g.timeback && r.lastRequest == g.lastRequest
            && TimeOf(r.time, g.board.next) == Left(g, now) + TimeOf(g.timeback, g.board.next)
            && TimeOf(r.time, Opponent(g.board.next)) == TimeOf(g.time, Opponent(g.board.next))
  {
    hide Takes, ParseMove, BoardAfter, Verdict, Hash, Ordered;
  }

  // ----- Resigning, joining, creating ---------------------------------------------------------------------

  lemma ResigningLoses(g: GameState)
    ensures Resigned(g, White).winner == Some(Won(Black)) && Resigned(g, Black).winner == Some(Won(White))
    ensures forall color :: var r := Resigned(g, color);
              r.status == Expired && r.reason == Some(Resignation) && r.board == g.board && r.history == g.history
  {
  }

  /** A colour asked for is given if it is free; without one the free colour, and if both are free the coin's. */
  lemma SeatsByCase(players: ColorMap<Option<string>>, color: Color, coin: Color)
    ensures Seat(players, Some(White), coin) == if players.white == None then Some(White) else None
    ensures Seat(players, Some(Black), coin) == if players.black == None then Some(Black) else None
    ensures Seat(players, None, coin) ==
              if players.white == None && players.black == None then Some(coin)
              else if players.white == None then Some(White)
              else if players.black == None then Some(Black)
              else None
  {
  }

  /** A game is created from any text that is read as a board, and from the preset one if there is none. */
  lemma CreatedFromText(id: string, timeout: int, timeback: int, startFen: Option<string>)
    ensures var fen := if startFen == None then STANDARD_FEN else startFen.value;
            var r := Create(id, timeout, timeback, startFen);
            && (r.Ok? <==> Decode(fen).Ok?)
            && (r.Ok? ==>
                  var g := r.value;
                  && g.id == id && g.startFen == fen && Ok(g.board) == Decode(fen)
                  && g.players == ColorMap(None, None) && g.status == Waiting && g.winner == None && g.reason == None
                  && g.time == ColorMap(timeout, timeout) && g.timeback == ColorMap(timeback, timeback)
                  && g.lastRequest == -1 && g.history == [] && g.positionHistory == [Hash(g.board.positions)])
  {
    hide Decode, Hash;
  }

  // ----- Material -----------------------------------------------------------------------------------------

  ghost predicate Owns(ps: seq<Position>, piece: Piece) { exists i :: Holds(ps, i, piece) }

  /** A colour has a lone king, or its king and one bishop or knight. */
  ghost predicate IsPoor(ps: seq<Position>, color: Color) {
    || (PieceCount(ps, color) == 1 && Owns(ps, Piece(King, color)))
    || (PieceCount(ps, color) == 2 && Owns(ps, Piece(King, color))
        && (Owns(ps, Piece(Bishop, color)) || Owns(ps, Piece(Knight, color))))
  }

  lemma {:induction false} KindsCount(ps: seq<Position>, color: Color)
    ensures |Kinds(ps, color)| == PieceCount(ps, color)
  {
    if ps != [] {
      KindsCount(ps[..|ps| - 1], color);
    }
  }

  lemma {:induction false} KindsOwned(ps: seq<Position>, color: Color, kind: Kind)
    ensures kind in Kinds(ps, color) <==> Owns(ps, Piece(kind, color))
  {
    if ps != [] {
      var (before, last) := (ps[..|ps| - 1], |ps| - 1);
      KindsOwned(before, color, kind);
      if Owns(before, Piece(kind, color)) {
        var i :| Holds(before, i, Piece(kind, color));
        assert Holds(ps, i, Piece(kind, color));
      }
      if Owns(ps, Piece(kind, color)) {
        var i :| Holds(ps, i, Piece(kind, color));
        assert i == last || Holds(before, i, Piece(kind, color));
      }
      assert Holds(ps, last, Piece(kind, color)) <==> ps[last].piece == Some(Piece(kind, color));
    }
  }

  lemma ThreePairs(material: seq<Kind>)
    ensures MatchesPair(material) <==>
              || (|material| == 1 && King in material)
              || (|material| == 2 && King in material && (Bishop in material || Knight in material))
  {
    var pairs := [[King], [King, Bishop], [King, Knight]];
    if MatchesPair(material) {
      var pair :| pair in pairs && (forall kind | kind in pair :: kind in material) && |material| == |pair|;
      assert pair == pairs[0] || pair == pairs[1] || pair == pairs[2];
      assert King in pairs[0] && King in pairs[1] && King in pairs[2] && Bishop in pairs[1] && Knight in pairs[2];
    }
    assert pairs[0] in pairs && pairs[1] in pairs && pairs[2] in pairs;
  }

  lemma PoorCannotMate(ps: seq<Position>, color: Color)
    ensures CannotMate(ps, color) <==> IsPoor(ps, color)
  {
    var kinds := Kinds(ps, color);
    KindsCount(ps, color);
    KindsOwned(ps, color, King);
    KindsOwned(ps, color, Bishop);
    KindsOwned(ps, color, Knight);
    hide Kinds, PieceCount, Owns;
    MatchesPairMeaning(kinds);
    ThreePairs(kinds);
    hide MatchesPair;
  }

  // ----- Endings ------------------------------------------------------------------------------------------

  /** How often the placement on the board has been noted, this time included. */
  function TimesNoted(g: GameState): nat { multiset(g.positionHistory)[Hash(g.board.positions)] }

  /** The game has ended, for this reason. */
  predicate EndedBy(g: GameState, ending: Ending) { g.status == Expired && g.reason == Some(Decided(ending)) }

  /** The verdict on the new board is what ends the game. */
  lemma TurnEnds(g: GameState, turn: Turn)
    requires Ordered(g.board) && Accepts(g, turn.code, turn.now) && !IsNull(MoveOf(turn))
    ensures var r := AfterMove(g, turn.code, turn.now);
            && r.board.next != g.board.next
            && match Verdict(r.board, r.positionHistory)
               case None => r.status == Active
               case Some(e) => && EndedBy(r, e)
                               && r.winner == Some(if e.Checkmate? then Won(g.board.next) else Drawn)
  {
    TurnMovesBoard(g, turn);
    hide Ordered, Accepted, Verdict, Hash, HasKing, ParseMove, Performable;
  }

  /** How an accepted move leaves the game, in the order in which endings count: a third occurrence before everything,
      then no valid move, then fifty moves of each side, then too little material; and otherwise it goes on. */
  lemma EndingsInOrder(g: GameState, turn: Turn)
    requires Ordered(g.board) && Accepts(g, turn.code, turn.now) && !IsNull(MoveOf(turn))
    ensures var r := AfterMove(g, turn.code, turn.now);
            var b := r.board;
            var movable := exists s, t :: Legal(b, s, t);
            var poor := IsPoor(b.positions, White) && IsPoor(b.positions, Black);
            && (EndedBy(r, ThreefoldRepetition) <==> TimesNoted(r) >= 3)
            && (EndedBy(r, Checkmate) <==> TimesNoted(r) < 3 && !movable && IsChecked(b))
            && (EndedBy(r, Stalemate) <==> TimesNoted(r) < 3 && !movable && !IsChecked(b))
            && (EndedBy(r, FiftyMoves) <==> TimesNoted(r) < 3 && movable && b.halfMoves >= 100)
            && (EndedBy(r, InsufficientMaterial) <==> TimesNoted(r) < 3 && movable && b.halfMoves < 100 && poor)
            && (r.status == Active <==> TimesNoted(r) < 3 && movable && b.halfMoves < 100 && !poor)
            && (EndedBy(r, Checkmate) ==> r.winner == Some(Won(g.board.next)))
            && (r.status == Expired && !EndedBy(r, Checkmate) ==> r.winner == Some(Drawn))
  {
    var r := AfterMove(g, turn.code, turn.now);
    TurnMovesBoard(g, turn);
    var b := r.board;
    PoorCannotMate(b.positions, White);
    PoorCannotMate(b.positions, Black);
    CheckedIsInCheck(b);
    TurnEnds(g, turn);
    hide Ordered, Accepts, AfterMove, Legal, IsPoor, CannotMate, InCheck, IsChecked, Hash, Takes, BoardAfter, MoveOf;
  }
}
