/** The rules of the XO game as the handler computes them. */
module XoRules {
  import opened Common
  import opened Outcomes
  import XoPayload

  datatype Game = Game(name: string, board: string, state: string, player1: string, player2: string)

  const EMPTY_BOARD := "---------"

  /** The eight lines of the board, spaces numbered from 1, in the order they are tried. */
  const WINS: seq<(nat, nat, nat)> :=
    [(1, 2, 3), (4, 5, 6), (7, 8, 9), (1, 4, 7), (2, 5, 8), (3, 6, 9), (1, 5, 9), (3, 5, 7)]

  /** `board[space - 1] == letter`; None is IndexError. */
  function Holds(board: string, space: nat, letter: char): Option<bool> {
    if 1 <= space <= |board| then Some(board[space - 1] == letter) else None
  }

  /** One line, looked at from left to right and only as far as needed. */
  function LineHolds(board: string, win: (nat, nat, nat), letter: char): Option<bool> {
    var first := Holds(board, win.0, letter);
    if first != Some(true) then first
    else
      var second := Holds(board, win.1, letter);
      if second != Some(true) then second else Holds(board, win.2, letter)
  }

  function IsWinFrom(board: string, letter: char, k: nat): Option<bool>
    requires k <= |WINS|
    decreases |WINS| - k
  {
    if k == |WINS| then Some(false)
    else
      var line := LineHolds(board, WINS[k], letter);
      if line == Some(false) then IsWinFrom(board, letter, k + 1) else line
  }

  /** None is an IndexError, which only a board shorter than nine can cause. */
  function IsWin(board: string, letter: char): Option<bool> {
    IsWinFrom(board, letter, 0)
  }

  /** None is the NameError of a `mark` that was never set. */
  function UpdateBoard(board: string, space: nat, state: string): Option<string>
    requires 1 <= space <= |board|
  {
    if state == "P1-NEXT" then Some(board[space - 1 := 'X'])
    else if state == "P2-NEXT" then Some(board[space - 1 := 'O'])
    else None
  }

  function UpdateGameState(state: string, board: string): Result<string, Failure> {
    var xWins := IsWin(board, 'X');
    if xWins.None? then Err(Uncaught)
    else
      var oWins := IsWin(board, 'O');
      if oWins.None? then Err(Uncaught)
      else if xWins.value && oWins.value then Err(Internal(TwoWinners))
      else if xWins.value then Ok("P1-WIN")
      else if oWins.value then Ok("P2-WIN")
      else if '-' !in board then Ok("TIE")
      else if state == "P1-NEXT" then Ok("P2-NEXT")
      else if state == "P2-NEXT" then Ok("P1-NEXT")
      else if state in ["P1-WINS", "P2-WINS", "TIE"] then Ok(state)
      else Err(Internal(UnhandledState))
  }

  function NewGame(name: string): Game {
    Game(name, EMPTY_BOARD, "P1-NEXT", "", "")
  }

  predicate Ended(state: string) {
    state in ["P1-WIN", "P2-WIN", "TIE"]
  }

  predicate WrongTurn(game: Game, signer: string) {
    || (game.player1 != "" && game.state == "P1-NEXT" && game.player1 != signer)
    || (game.player2 != "" && game.state == "P2-NEXT" && game.player2 != signer)
  }

  /** A take on an existing game. */
  function Take(game: Game, space: nat, signer: string): Result<Game, Failure>
    requires 1 <= space
  {
    if Ended(game.state) then Err(Invalid(GameOver))
    else if WrongTurn(game, signer) then Err(Invalid(WrongPlayer))
    else if space > |game.board| then Err(Uncaught)
    else if game.board[space - 1] != '-' then Err(Invalid(SpaceTaken))
    else
      var player1 := if game.player1 == "" then signer else game.player1;
      var player2 := if game.player1 != "" && game.player2 == "" then signer else game.player2;
      match UpdateBoard(game.board, space, game.state)
      case None => Err(Uncaught)
      case Some(board) =>
        var state :- UpdateGameState(game.state, board);
        Ok(Game(game.name, board, state, player1, player2))
  }

  /** What a transaction makes of the game it names: Ok(None) deletes it. */
  function Act(p: XoPayload.Payload, signer: string, current: Option<Game>): Result<Option<Game>, Failure>
    requires XoPayload.Readable(p)
  {
    if p.action == "delete" then
      if current.None? then Err(Invalid(NoSuchGame)) else Ok(None)
    else if p.action == "create" then
      if current.Some? then Err(Invalid(GameExists)) else Ok(Some(NewGame(p.name)))
    else if p.action == "take" then
      if current.None? then Err(Invalid(TakeNeedsGame))
      else
        var game :- Take(current.value, p.space.n, signer);
        Ok(Some(game))
    else Err(Invalid(UnhandledAction))
  }

  // ----- what a board means -----

  ghost predicate Line(board: string, letter: char, i: nat, j: nat, k: nat)
    requires |board| == 9 && i < 9 && j < 9 && k < 9
  {
    board[i] == letter && board[j] == letter && board[k] == letter
  }

  /** Some row, column or diagonal holds only this letter. */
  ghost predicate Wins(board: string, letter: char)
    requires |board| == 9
  {
    || Line(board, letter, 0, 1, 2) || Line(board, letter, 3, 4, 5) || Line(board, letter, 6, 7, 8)
    || Line(board, letter, 0, 3, 6) || Line(board, letter, 1, 4, 7) || Line(board, letter, 2, 5, 8)
    || Line(board, letter, 0, 4, 8) || Line(board, letter, 2, 4, 6)
  }

  ghost function One(board: string, letter: char, i: nat): nat
    requires |board| == 9 && i < 9
  {
    if board[i] == letter then 1 else 0
  }

  ghost function Count(board: string, letter: char): nat
    requires |board| == 9
  {
    One(board, letter, 0) + One(board, letter, 1) + One(board, letter, 2) + One(board, letter, 3)
    + One(board, letter, 4) + One(board, letter, 5) + One(board, letter, 6) + One(board, letter, 7)
    + One(board, letter, 8)
  }

  ghost predicate IsBoard(board: string) {
    |board| == 9 && forall i | 0 <= i < 9 :: board[i] in "XO-"
  }

  /** The state a game must be in, read off its board. */
  ghost function StateOf(board: string): string
    requires IsBoard(board)
  {
    if Wins(board, 'X') then "P1-WIN"
    else if Wins(board, 'O') then "P2-WIN"
    else if '-' !in board then "TIE"
    else if Count(board, 'X') == Count(board, 'O') then "P1-NEXT"
    else "P2-NEXT"
  }

  /** What holds of every game that is ever stored. */
  ghost predicate WellFormed(game: Game) {
    && IsBoard(game.board)
    && game.state == StateOf(game.board)
    && Count(game.board, 'O') <= Count(game.board, 'X') <= Count(game.board, 'O') + 1
    && (Wins(game.board, 'X') ==> Count(game.board, 'X') == Count(game.board, 'O') + 1)
    && (Wins(game.board, 'O') ==> Count(game.board, 'X') == Count(game.board, 'O'))
    && !(Wins(game.board, 'X') && Wins(game.board, 'O'))
    && (game.player1 == "" <==> Count(game.board, 'X') == 0)
    && (game.player2 == "" <==> Count(game.board, 'O') == 0)
  }

  /** The search over the lines finds exactly the wins. */
  lemma IsWinSound(board: string, letter: char)
    requires |board| == 9
    ensures IsWin(board, letter) == Some(Wins(board, letter))
  {
  }

  lemma MarkCounts(board: string, i: nat, mark: char, letter: char)
    requires |board| == 9 && i < 9 && board[i] == '-' && mark != '-' && letter != '-'
    ensures Count(board[i := mark], letter) == Count(board, letter) + (if letter == mark then 1 else 0)
  {
    assert forall j | 0 <= j < 9 && j != i :: One(board[i := mark], letter, j) == One(board, letter, j);
  }

  lemma MarkWins(board: string, i: nat, mark: char, letter: char)
    requires |board| == 9 && i < 9 && board[i] == '-' && mark != '-' && letter != '-'
    ensures Wins(board, letter) ==> Wins(board[i := mark], letter)
    ensures letter != mark ==> Wins(board[i := mark], letter) == Wins(board, letter)
  {
  }

  lemma WinNeedsThree(board: string, letter: char)
    requires |board| == 9 && Wins(board, letter)
    ensures Count(board, letter) >= 3
  {
  }

  /** The three counts of a board add up to nine. */
  lemma CountsAddUp(board: string)
    requires IsBoard(board)
    ensures Count(board, 'X') + Count(board, 'O') + Count(board, '-') == 9
    ensures '-' in board <==> Count(board, '-') > 0
  {
    assert forall i | 0 <= i < 9 :: One(board, 'X', i) + One(board, 'O', i) + One(board, '-', i) == 1;
  }
}

/** Why a game that was started by the handler can never meet one of its internal errors. */
module XoSafety {
  import opened Common
  import opened Outcomes
  import opened XoRules
  import XoPayload

  ghost function Turn(state: string): char {
    if state == "P1-NEXT" then 'X' else 'O'
  }

  /** The player whose turn it is, "" while nobody has that seat yet. */
  ghost function Mover(game: Game): string {
    if game.state == "P1-NEXT" then game.player1 else game.player2
  }

  /** The new state for any board of nine spaces and any old state, reachable or not. */
  lemma UpdateExact(state: string, board: string)
    requires |board| == 9
    ensures var r := UpdateGameState(state, board);
            && (Wins(board, 'X') && Wins(board, 'O') ==> r == Err(Internal(TwoWinners)))
            && (Wins(board, 'X') && !Wins(board, 'O') ==> r == Ok("P1-WIN"))
            && (!Wins(board, 'X') && Wins(board, 'O') ==> r == Ok("P2-WIN"))
            && (!Wins(board, 'X') && !Wins(board, 'O') ==>
                  && ('-' !in board ==> r == Ok("TIE"))
                  && ('-' in board && state == "P1-NEXT" ==> r == Ok("P2-NEXT"))
                  && ('-' in board && state == "P2-NEXT" ==> r == Ok("P1-NEXT"))
                  && ('-' in board && (state == "P1-WINS" || state == "P2-WINS" || state == "TIE") ==> r == Ok(state))
                  && ('-' in board && state !in ["P1-NEXT", "P2-NEXT", "P1-WINS", "P2-WINS", "TIE"] ==>
                        r == Err(Internal(UnhandledState))))
  {
    IsWinSound(board, 'X');
    IsWinSound(board, 'O');
  }

  lemma NewGameWellFormed(name: string)
    ensures WellFormed(NewGame(name))
  {
  }

  /** On a board that still has a turn to play, the state after a mark is the state its board says. */
  lemma MarkedState(game: Game, space: nat)
    requires WellFormed(game) && !Ended(game.state)
    requires 1 <= space <= 9 && game.board[space - 1] == '-'
    ensures var marked := game.board[space - 1 := Turn(game.state)];
            && IsBoard(marked)
            && UpdateGameState(game.state, marked) == Ok(StateOf(marked))
            && Count(marked, 'X') == Count(game.board, 'X') + (if game.state == "P1-NEXT" then 1 else 0)
            && Count(marked, 'O') == Count(game.board, 'O') + (if game.state == "P1-NEXT" then 0 else 1)
            && (Wins(marked, 'X') ==> game.state == "P1-NEXT")
            && (Wins(marked, 'O') ==> game.state == "P2-NEXT")
  {
    var marked := game.board[space - 1 := Turn(game.state)];
    MarkCounts(game.board, space - 1, Turn(game.state), 'X');
    MarkCounts(game.board, space - 1, Turn(game.state), 'O');
    MarkWins(game.board, space - 1, Turn(game.state), 'X');
    MarkWins(game.board, space - 1, Turn(game.state), 'O');
    IsWinSound(marked, 'X');
    IsWinSound(marked, 'O');
  }

  /** What an accepted take leaves: the mover's mark on the board and the mover in the seat. */
  lemma TakeAccepted(game: Game, space: nat, signer: string)
    requires WellFormed(game) && 1 <= space <= 9 && signer != ""
    requires !Ended(game.state) && Mover(game) in ["", signer] && game.board[space - 1] == '-'
    ensures var marked := game.board[space - 1 := Turn(game.state)];
            var seated := if game.state == "P1-NEXT" then game.(player1 := signer) else game.(player2 := signer);
            && IsBoard(marked)
            && Take(game, space, signer) == Ok(seated.(board := marked, state := StateOf(marked)))
            && WellFormed(seated.(board := marked, state := StateOf(marked)))
  {
    MarkedState(game, space);
  }

  /**
   * A take on a well-formed game: it is accepted exactly when the game has not ended, the seat
   * of the player to move is free or the signer's, and the space is blank; the refusals come in
   * that order; and the game stays well formed with one more mark, the mover's.
   */
  lemma TakeExact(game: Game, space: nat, signer: string)
    requires WellFormed(game) && 1 <= space <= 9 && signer != ""
    ensures var r := Take(game, space, signer);
            if Wins(game.board, 'X') || Wins(game.board, 'O') || '-' !in game.board then r == Err(Invalid(GameOver))
            else if Mover(game) !in ["", signer] then r == Err(Invalid(WrongPlayer))
            else if game.board[space - 1] != '-' then r == Err(Invalid(SpaceTaken))
            else
              && r.Ok?
              && WellFormed(r.value)
              && r.value.name == game.name
              && r.value.board == game.board[space - 1 := Turn(game.state)]
              && Mover(game.(player1 := r.value.player1, player2 := r.value.player2)) == signer
              && (game.state == "P1-NEXT" ==> r.value.player2 == game.player2)
              && (game.state == "P2-NEXT" ==> r.value.player1 == game.player1)
  {
    if !Ended(game.state) && Mover(game) in ["", signer] && game.board[space - 1] == '-' {
      TakeAccepted(game, space, signer);
    }
  }

  /** The state of a well-formed game names exactly one situation of its board. */
  lemma StateExact(game: Game)
    requires WellFormed(game)
    ensures var x, o, blank := Count(game.board, 'X'), Count(game.board, 'O'), '-' in game.board;
            var won := Wins(game.board, 'X') || Wins(game.board, 'O');
            && (game.state == "P1-NEXT" <==> x == o && !won && blank)
            && (game.state == "P2-NEXT" <==> x == o + 1 && !won && blank)
            && (game.state == "P1-WIN" <==> Wins(game.board, 'X'))
            && (game.state == "P2-WIN" <==> Wins(game.board, 'O'))
            && (game.state == "TIE" <==> !won && !blank)
  {
  }

  /** The same, with the end of a game told by its state. */
  lemma TakeByState(game: Game, space: nat, signer: string)
    requires WellFormed(game) && 1 <= space <= 9 && signer != ""
    ensures var r := Take(game, space, signer);
            if Ended(game.state) then r == Err(Invalid(GameOver))
            else if Mover(game) !in ["", signer] then r == Err(Invalid(WrongPlayer))
            else if game.board[space - 1] != '-' then r == Err(Invalid(SpaceTaken))
            else
              && r.Ok?
              && WellFormed(r.value)
              && r.value.name == game.name
              && r.value.board == game.board[space - 1 := Turn(game.state)]
              && Mover(game.(player1 := r.value.player1, player2 := r.value.player2)) == signer
              && (game.state == "P1-NEXT" ==> r.value.player2 == game.player2)
              && (game.state == "P2-NEXT" ==> r.value.player1 == game.player1)
  {
    TakeExact(game, space, signer);
    StateExact(game);
  }

  /** What creating and deleting make of a game that is there or not, and a take without a game. */
  lemma ActExact(name: string, space: XoPayload.Space, signer: string, current: Option<Game>)
    ensures Act(XoPayload.Payload(name, "create", space), signer, current)
         == if current.Some? then Err(Invalid(GameExists)) else Ok(Some(Game(name, "---------", "P1-NEXT", "", "")))
    ensures Act(XoPayload.Payload(name, "delete", space), signer, current)
         == if current.Some? then Ok(None) else Err(Invalid(NoSuchGame))
  {
  }

  lemma TakeSafe(game: Game, space: nat, signer: string)
    requires WellFormed(game) && 1 <= space <= 9 && signer != ""
    ensures match Take(game, space, signer)
            case Ok(after) => WellFormed(after)
            case Err(f) => f.Invalid? && f.reason != UnhandledAction
  {
    TakeExact(game, space, signer);
  }

  /** Whatever a transaction does to a well-formed game, it neither fails internally nor crashes. */
  lemma ActSafe(p: XoPayload.Payload, signer: string, current: Option<Game>)
    requires XoPayload.ValidPayload(p) && signer != ""
    requires current.Some? ==> WellFormed(current.value)
    ensures match Act(p, signer, current)
            case Ok(after) => after.Some? ==> WellFormed(after.value)
            case Err(f) => f.Invalid? && f.reason != UnhandledAction
  {
    if p.action == "take" && current.Some? {
      TakeSafe(current.value, p.space.n, signer);
    }
    NewGameWellFormed(p.name);
  }
}
