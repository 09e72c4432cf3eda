/** A game is the record of its accepted takes, and a take is accepted exactly when the record stays legal. */
module XoHistory {
  import opened Common
  import opened Outcomes
  import opened XoRules
  import opened XoSafety
  import opened XoPayload
  import opened Validator
  import XoRefinement
  import XoSession
  import Families

  datatype Move = Move(space: nat, signer: string)

  /** X moves first, and the marks alternate. */
  ghost function Letter(k: nat): char {
    if k % 2 == 0 then 'X' else 'O'
  }

  ghost function MarkAt(h: seq<Move>, i: nat): char {
    if h == [] then '-'
    else if h[|h| - 1].space == i + 1 then Letter(|h| - 1)
    else MarkAt(h[..|h| - 1], i)
  }

  /** The board the moves make, each with its letter at its space. */
  ghost function BoardOf(h: seq<Move>): string {
    [MarkAt(h, 0), MarkAt(h, 1), MarkAt(h, 2), MarkAt(h, 3), MarkAt(h, 4),
     MarkAt(h, 5), MarkAt(h, 6), MarkAt(h, 7), MarkAt(h, 8)]
  }

  lemma BoardAt(h: seq<Move>, i: nat)
    requires i < 9
    ensures BoardOf(h)[i] == MarkAt(h, i)
  {
  }

  lemma {:induction false} BoardIsBoard(h: seq<Move>)
    ensures IsBoard(BoardOf(h))
  {
    forall i: nat | i < 9
      ensures MarkAt(h, i) in "XO-"
    {
      MarkInAlphabet(h, i);
    }
  }

  lemma {:induction false} MarkInAlphabet(h: seq<Move>, i: nat)
    ensures MarkAt(h, i) in ['X', 'O', '-']
  {
    if h != [] {
      MarkInAlphabet(h[..|h| - 1], i);
    }
  }

  ghost function Seat(h: seq<Move>, k: nat): string {
    if k < |h| then h[k].signer else ""
  }

  /** The game these moves leave: nothing in it but what the moves say. */
  ghost function GameAfter(name: string, h: seq<Move>): Game {
    BoardIsBoard(h);
    Game(name, BoardOf(h), StateOf(BoardOf(h)), Seat(h, 0), Seat(h, 1))
  }

  ghost predicate LegalMove(h: seq<Move>, k: nat)
    requires k < |h|
  {
    BoardIsBoard(h[..k]);
    && 1 <= h[k].space <= 9
    && h[k].signer != ""
    && (k >= 2 ==> h[k].signer == h[k % 2].signer)
    && (forall j | 0 <= j < k :: h[j].space != h[k].space)
    && !Ended(StateOf(BoardOf(h[..k])))
  }

  /** Every move is at a fresh space, by the player of its seat, on a game that had not ended. */
  ghost predicate Legal(h: seq<Move>) {
    forall k | 0 <= k < |h| :: LegalMove(h, k)
  }

  lemma LegalPrefix(h: seq<Move>, m: Move)
    ensures Legal(h + [m]) <==> Legal(h) && LegalMove(h + [m], |h|)
  {
    var longer := h + [m];
    forall k | 0 <= k < |h|
      ensures LegalMove(longer, k) <==> LegalMove(h, k)
    {
      assert longer[..k] == h[..k];
    }
  }

  lemma {:induction false} BlankMeansFresh(h: seq<Move>, i: nat)
    ensures MarkAt(h, i) == '-' <==> forall k | 0 <= k < |h| :: h[k].space != i + 1
  {
    if h != [] {
      BlankMeansFresh(h[..|h| - 1], i);
      if h[|h| - 1].space != i + 1 {
        assert forall k | 0 <= k < |h| - 1 :: h[..|h| - 1][k] == h[k];
      }
    }
  }

  lemma BoardGrows(h: seq<Move>, m: Move)
    requires 1 <= m.space <= 9
    ensures BoardOf(h + [m]) == BoardOf(h)[m.space - 1 := Letter(|h|)]
  {
    assert (h + [m])[..|h|] == h;
  }

  /** What the number of moves says about a legal record's game. */
  ghost predicate Tallies(h: seq<Move>) {
    var game := GameAfter("", h);
    && WellFormed(game)
    && Count(game.board, 'X') == (|h| + 1) / 2
    && Count(game.board, 'O') == |h| / 2
  }

  lemma GameNameIrrelevant(name: string, h: seq<Move>)
    ensures WellFormed(GameAfter(name, h)) == WellFormed(GameAfter("", h))
  {
  }

  lemma LastMove(h: seq<Move>, m: Move)
    ensures LegalMove(h + [m], |h|) <==>
              && 1 <= m.space <= 9 && m.signer != ""
              && (|h| >= 2 ==> m.signer == h[|h| % 2].signer)
              && (forall j | 0 <= j < |h| :: h[j].space != m.space)
              && !Ended(GameAfter("", h).state)
  {
    var longer := h + [m];
    assert longer[..|h|] == h;
    assert forall j | 0 <= j < |h| :: longer[j] == h[j];
  }

  lemma OneMoveOn(h: seq<Move>, m: Move)
    requires Legal(h + [m]) && Tallies(h)
    ensures Tallies(h + [m])
  {
    LegalPrefix(h, m);
    LastMove(h, m);
    BoardGrows(h, m);
    BlankMeansFresh(h, m.space - 1);
    BoardAt(h, m.space - 1);
    MarkedState(GameAfter("", h), m.space);
  }

  lemma {:induction false} LegalTallies(h: seq<Move>)
    requires Legal(h)
    ensures Tallies(h)
  {
    if h == [] {
      BoardIsBoard(h);
    } else {
      var before, m := h[..|h| - 1], h[|h| - 1];
      assert h == before + [m];
      LegalPrefix(before, m);
      LegalTallies(before);
      OneMoveOn(before, m);
    }
  }

  /** While a game goes on, the mover's seat and letter are those of the next move. */
  lemma TurnOf(name: string, h: seq<Move>)
    requires Legal(h)
    ensures var game := GameAfter(name, h);
            !Ended(game.state) ==>
              && game.state == (if |h| % 2 == 0 then "P1-NEXT" else "P2-NEXT")
              && Turn(game.state) == Letter(|h|)
              && Mover(game) == Seat(h, |h| % 2)
  {
    LegalTallies(h);
  }

  lemma SeatsKept(h: seq<Move>)
    requires Legal(h)
    ensures forall k | 0 <= k < |h| :: h[k].signer != ""
  {
    forall k | 0 <= k < |h|
      ensures h[k].signer != ""
    {
      assert LegalMove(h, k);
    }
  }

  /** The next move is legal exactly when none of the handler's three refusals applies. */
  lemma NextMove(name: string, h: seq<Move>, m: Move)
    requires Legal(h) && 1 <= m.space <= 9 && m.signer != ""
    ensures var game := GameAfter(name, h);
            Legal(h + [m]) <==>
              !Ended(game.state) && Mover(game) in ["", m.signer] && game.board[m.space - 1] == '-'
  {
    LegalPrefix(h, m);
    LastMove(h, m);
    BlankMeansFresh(h, m.space - 1);
    BoardAt(h, m.space - 1);
    TurnOf(name, h);
    SeatsKept(h);
  }

  /**
   * On the game a legal record leaves, a take is accepted exactly when the longer record is
   * legal too, and leaves the longer record's game.
   */
  lemma TakeIffLegal(name: string, h: seq<Move>, m: Move)
    requires Legal(h) && 1 <= m.space <= 9 && m.signer != ""
    ensures var r := Take(GameAfter(name, h), m.space, m.signer);
            && (r.Ok? <==> Legal(h + [m]))
            && (r.Ok? ==> r.value == GameAfter(name, h + [m]))
  {
    LegalTallies(h);
    GameNameIrrelevant(name, h);
    NextMove(name, h, m);
    TakeByState(GameAfter(name, h), m.space, m.signer);
    if Legal(h + [m]) {
      TurnOf(name, h);
      SeatsKept(h);
      BoardGrows(h, m);
    }
  }

  lemma MoveMarked(h: seq<Move>, k: nat)
    requires Legal(h) && k < |h|
    ensures h[k].signer == h[k % 2].signer
    ensures 1 <= h[k].space <= 9 && BoardOf(h)[h[k].space - 1] == Letter(k)
  {
    assert LegalMove(h, k);
    MarkOfMove(h, k);
    BoardAt(h, h[k].space - 1);
  }

  /** Every move still shows, X for player1 and O for player2, and no other space is marked. */
  lemma LegalMarks(h: seq<Move>)
    requires Legal(h)
    ensures forall k | 0 <= k < |h| :: h[k].signer == h[k % 2].signer
    ensures forall k | 0 <= k < |h| :: 1 <= h[k].space <= 9 && BoardOf(h)[h[k].space - 1] == Letter(k)
    ensures forall i | 0 <= i < 9 :: BoardOf(h)[i] == '-' <==> forall k | 0 <= k < |h| :: h[k].space != i + 1
  {
    forall k | 0 <= k < |h|
      ensures h[k].signer == h[k % 2].signer
      ensures 1 <= h[k].space <= 9 && BoardOf(h)[h[k].space - 1] == Letter(k)
    {
      MoveMarked(h, k);
    }
    forall i | 0 <= i < 9
      ensures BoardOf(h)[i] == '-' <==> forall k | 0 <= k < |h| :: h[k].space != i + 1
    {
      BoardAt(h, i);
      BlankMeansFresh(h, i);
    }
  }

  /** How many moves a game has when it ends: P1 wins no earlier than the fifth, P2 the sixth, a tie is the ninth. */
  lemma LegalLength(name: string, h: seq<Move>)
    requires Legal(h)
    ensures |h| <= 9
    ensures var state := GameAfter(name, h).state;
            && (state == "P1-WIN" ==> |h| >= 5 && |h| % 2 == 1)
            && (state == "P2-WIN" ==> |h| >= 6 && |h| % 2 == 0)
            && (state == "TIE" ==> |h| == 9)
            && (|h| == 9 ==> state in ["P1-WIN", "TIE"])
  {
    LegalTallies(h);
    CountsAddUp(BoardOf(h));
    if Wins(BoardOf(h), 'X') {
      WinNeedsThree(BoardOf(h), 'X');
    }
    if Wins(BoardOf(h), 'O') {
      WinNeedsThree(BoardOf(h), 'O');
    }
  }

  lemma {:induction false} MarkOfMove(h: seq<Move>, k: nat)
    requires Legal(h) && k < |h|
    ensures h[k].space >= 1 && MarkAt(h, h[k].space - 1) == Letter(k)
  {
    assert LegalMove(h, k);
    var before, m := h[..|h| - 1], h[|h| - 1];
    if k < |h| - 1 {
      assert h == before + [m];
      LegalPrefix(before, m);
      assert LegalMove(h, |h| - 1);
      MarkOfMove(before, k);
    }
  }

  // ----- the record of a game in a run -----

  /** An XO transaction that was accepted and whose write the validator did not just answer but carry out. */
  ghost predicate WasCarriedOut(tx: Families.Tx, outcome: Outcome) {
    tx.XoTx? && outcome.Ok? && tx.faults.second == Done
  }

  /** The takes of this name accepted since the last accepted create or delete of it. */
  ghost function History(w: Families.World, txs: seq<Families.Tx>, outcomes: seq<Outcome>, name: string): seq<Move>
    requires |txs| == |outcomes|
  {
    if txs == [] then []
    else
      var k := |txs| - 1;
      Recorded(w, History(w, txs[..k], outcomes[..k], name), txs[k], outcomes[k], name)
  }

  ghost function Recorded(w: Families.World, h: seq<Move>, tx: Families.Tx, outcome: Outcome, name: string): seq<Move> {
    var parsed := Parse(tx.payload, w.toInt);
    if WasCarriedOut(tx, outcome) && parsed.Ok? && parsed.value.name == name then
      RecordedAct(h, parsed.value, tx.signer)
    else h
  }

  ghost function RecordedAct(h: seq<Move>, p: Payload, signer: string): seq<Move> {
    if p.action == "take" && p.space.Number? && p.space.n >= 0 then h + [Move(p.space.n, signer)] else []
  }

  /** The last accepted create or delete of this name was a create. */
  ghost predicate Alive(w: Families.World, txs: seq<Families.Tx>, outcomes: seq<Outcome>, name: string)
    requires |txs| == |outcomes|
  {
    if txs == [] then false
    else
      var k := |txs| - 1;
      AliveAfter(w, Alive(w, txs[..k], outcomes[..k], name), txs[k], outcomes[k], name)
  }

  ghost predicate AliveAfter(w: Families.World, alive: bool, tx: Families.Tx, outcome: Outcome, name: string) {
    if WasCarriedOut(tx, outcome) && Parse(tx.payload, w.toInt).Ok? && Parse(tx.payload, w.toInt).value.name == name
       && Parse(tx.payload, w.toInt).value.action != "take" then
      Parse(tx.payload, w.toInt).value.action == "create"
    else alive
  }

  /** The game under a name is the one its record leaves, if the record says there is one. */
  ghost predicate Recalls(name: string, current: Option<Game>, alive: bool, h: seq<Move>) {
    && (current.Some? <==> alive)
    && (current.Some? ==> Legal(h) && current.value == GameAfter(name, h))
  }

  /**
   * What a record lets through: create a game that is not there, delete one that is, take where
   * the record stays legal.
   */
  ghost predicate Allowed(p: Payload, signer: string, alive: bool, h: seq<Move>) {
    if p.action == "create" then !alive
    else if p.action == "delete" then alive
    else alive && p.space.Number? && p.space.n >= 0 && Legal(h + [Move(p.space.n, signer)])
  }

  lemma EmptyRecord(name: string)
    ensures Legal([]) && GameAfter(name, []) == NewGame(name)
  {
    BoardIsBoard([]);
    assert BoardOf([]) == EMPTY_BOARD;
  }

  lemma ActRecalls(p: Payload, signer: string, current: Option<Game>, alive: bool, h: seq<Move>)
    requires ValidPayload(p) && signer != "" && Recalls(p.name, current, alive, h)
    ensures var r := Act(p, signer, current);
            && (r.Ok? <==> Allowed(p, signer, alive, h))
            && (r.Ok? ==> Recalls(p.name, r.value, if p.action == "take" then alive else p.action == "create",
                                  RecordedAct(h, p, signer)))
  {
    EmptyRecord(p.name);
    if p.action == "take" && current.Some? {
      TakeIffLegal(p.name, h, Move(p.space.n, signer));
    }
  }

  lemma StepRecalls(w: Families.World, games: map<string, Game>, tx: Families.Tx, name: string, alive: bool,
                    h: seq<Move>)
    requires tx.XoTx? && XoRefinement.ValidSigner(tx.signer)
    requires Recalls(name, XoSession.Find(games, name), alive, h)
    ensures var (outcome, after) := Families.XoFlat(w, games, tx);
            Recalls(name, XoSession.Find(after, name), AliveAfter(w, alive, tx, outcome, name),
                    Recorded(w, h, tx, outcome, name))
  {
    ParsedIsValid(tx.payload, w.toInt);
    if Parse(tx.payload, w.toInt).Ok? {
      var p := Parse(tx.payload, w.toInt).value;
      if p.name == name {
        ActRecalls(p, tx.signer, XoSession.Find(games, name), alive, h);
      }
    }
  }

  /**
   * For every run of both families from empty state: a game exists exactly when the record of its
   * name says so, it is then exactly the game its accepted takes leave, and those form a legal record.
   */
  lemma {:induction false} GamesAreHistories(w: Families.World, txs: seq<Families.Tx>, name: string)
    requires Families.Signed(txs)
    ensures var (outcomes, games, _) := Families.FlatRun(w, txs);
            && |outcomes| == |txs|
            && Recalls(name, XoSession.Find(games, name), Alive(w, txs, outcomes, name),
                       History(w, txs, outcomes, name))
    decreases |txs|
  {
    if txs != [] {
      var k := |txs| - 1;
      var (outcomes, games, _) := Families.FlatRun(w, txs[..k]);
      assert txs[k] in txs;
      GamesAreHistories(w, txs[..k], name);
      assert Families.FlatRun(w, txs).0[..k] == outcomes;
      if txs[k].XoTx? {
        StepRecalls(w, games, txs[k], name, Alive(w, txs[..k], outcomes, name), History(w, txs[..k], outcomes, name));
      }
    }
  }

  /**
   * After every run, the next transaction whose requests succeed goes through exactly when it
   * parses and the record allows it.
   */
  lemma AcceptedIffAllowed(w: Families.World, txs: seq<Families.Tx>, payload: string, signer: string)
    requires Families.Signed(txs) && XoRefinement.ValidSigner(signer)
    ensures var (outcomes, games, _) := Families.FlatRun(w, txs);
            && |outcomes| == |txs|
            && (XoRefinement.FlatStep(games, w.toInt, payload, signer).0.Ok? <==>
                  && Parse(payload, w.toInt).Ok?
                  && var p := Parse(payload, w.toInt).value;
                     Allowed(p, signer, Alive(w, txs, outcomes, p.name), History(w, txs, outcomes, p.name)))
  {
    var (outcomes, games, _) := Families.FlatRun(w, txs);
    GamesAreHistories(w, txs, "");
    ParsedIsValid(payload, w.toInt);
    if Parse(payload, w.toInt).Ok? {
      var p := Parse(payload, w.toInt).value;
      GamesAreHistories(w, txs, p.name);
      ActRecalls(p, signer, XoSession.Find(games, p.name), Alive(w, txs, outcomes, p.name),
                 History(w, txs, outcomes, p.name));
    }
  }

  // ----- the same, of the state and of apply -----

  /**
   * For every run of both families over the validator's state: reading a name afresh gives a game
   * exactly when the record of its name says so, and it is then the game its accepted takes leave.
   */
  lemma StoredGamesAreHistories(w: Families.World, txs: seq<Families.Tx>, name: string)
    requires w.Sound() && Families.Signed(txs)
    ensures var (outcomes, store) := Families.Run(w, txs);
            var read := XoSession.FreshRead(w.sha, store, name);
            && |outcomes| == |txs| && read.Ok?
            && Recalls(name, read.value, Alive(w, txs, outcomes, name), History(w, txs, outcomes, name))
  {
    Families.RunRefines(w, txs);
    GamesAreHistories(w, txs, name);
    XoRefinement.SeesBucket(w.sha, Families.Run(w, txs).1, Families.FlatRun(w, txs).1, name);
  }

  /**
   * After every run, apply returns for the next transaction exactly when both its requests are
   * answered, its payload parses and the record allows it.
   */
  lemma AppliedIffAllowed(w: Families.World, txs: seq<Families.Tx>, tx: Families.Tx)
    requires w.Sound() && Families.Signed(txs) && tx.XoTx? && XoRefinement.ValidSigner(tx.signer)
    ensures var (outcomes, store) := Families.Run(w, txs);
            && |outcomes| == |txs|
            && (Families.Step(w, store, tx).outcome.Ok? <==>
                  && IsAnswer(tx.faults.first) && IsAnswer(tx.faults.second)
                  && Parse(tx.payload, w.toInt).Ok?
                  && var p := Parse(tx.payload, w.toInt).value;
                     Allowed(p, tx.signer, Alive(w, txs, outcomes, p.name), History(w, txs, outcomes, p.name)))
  {
    var (_, games, counters) := Families.FlatRun(w, txs);
    Families.RunRefines(w, txs);
    Families.StepStands(w, Families.Run(w, txs).1, games, counters, tx);
    AcceptedIffAllowed(w, txs, tx.payload, tx.signer);
    OutcomesUnderFaults(tx.faults, Ok(()), XoRefinement.FlatStep(games, w.toInt, tx.payload, tx.signer).0);
  }

  // ----- the texts the client sends -----

  /** Neither request of this transaction failed. */
  ghost predicate BothAnswered(faults: Faults) {
    IsAnswer(faults.first) && IsAnswer(faults.second)
  }

  /** Why a transaction whose read is answered is refused. */
  lemma Refused(w: Families.World, txs: seq<Families.Tx>, tx: Families.Tx)
    requires w.Sound() && Families.Signed(txs) && tx.XoTx? && XoRefinement.ValidSigner(tx.signer)
    ensures var (outcomes, store) := Families.Run(w, txs);
            var outcome := Families.Step(w, store, tx).outcome;
            && |outcomes| == |txs|
            && match Parse(tx.payload, w.toInt)
               case Err(f) => outcome == Err(f)
               case Ok(p) =>
                 var alive := Alive(w, txs, outcomes, p.name);
                 IsAnswer(tx.faults.first) ==>
                   && (p.action == "create" && alive ==> outcome == Err(Invalid(GameExists)))
                   && (p.action == "delete" && !alive ==> outcome == Err(Invalid(NoSuchGame)))
                   && (p.action == "take" && !alive ==> outcome == Err(Invalid(TakeNeedsGame)))
  {
    var (_, games, counters) := Families.FlatRun(w, txs);
    Families.RunRefines(w, txs);
    Families.StepStands(w, Families.Run(w, txs).1, games, counters, tx);
    OutcomesUnderFaults(tx.faults, Ok(()), XoRefinement.FlatStep(games, w.toInt, tx.payload, tx.signer).0);
    ParsedIsValid(tx.payload, w.toInt);
    if Parse(tx.payload, w.toInt).Ok? {
      GamesAreHistories(w, txs, Parse(tx.payload, w.toInt).value.name);
    }
  }

  /** What becomes of a parsed transaction after a run. */
  lemma Decided(w: Families.World, txs: seq<Families.Tx>, tx: Families.Tx, p: Payload)
    requires w.Sound() && Families.Signed(txs) && tx.XoTx? && XoRefinement.ValidSigner(tx.signer)
    requires Parse(tx.payload, w.toInt) == Ok(p)
    ensures var (outcomes, store) := Families.Run(w, txs);
            && |outcomes| == |txs|
            && var (outcome, alive) := (Families.Step(w, store, tx).outcome, Alive(w, txs, outcomes, p.name));
               && (p.action == "create" ==>
                     && (outcome.Ok? <==> BothAnswered(tx.faults) && !alive)
                     && (IsAnswer(tx.faults.first) && alive ==> outcome == Err(Invalid(GameExists))))
               && (p.action == "delete" ==>
                     && (outcome.Ok? <==> BothAnswered(tx.faults) && alive)
                     && (IsAnswer(tx.faults.first) && !alive ==> outcome == Err(Invalid(NoSuchGame))))
               && (p.action == "take" && p.space.Number? && p.space.n >= 0 ==>
                     && (outcome.Ok? <==>
                           && BothAnswered(tx.faults) && alive
                           && Legal(History(w, txs, outcomes, p.name) + [Move(p.space.n, tx.signer)]))
                     && (IsAnswer(tx.faults.first) && !alive ==> outcome == Err(Invalid(TakeNeedsGame))))
  {
    AppliedIffAllowed(w, txs, tx);
    Refused(w, txs, tx);
  }

  /** After every run `name,create,` goes through exactly when the record has no game of that name. */
  lemma CreateApplied(w: Families.World, txs: seq<Families.Tx>, name: string, signer: string, faults: Faults)
    requires w.Sound() && Families.Signed(txs) && XoRefinement.ValidSigner(signer)
    requires name != "" && ',' !in name && '|' !in name
    ensures var (outcomes, store) := Families.Run(w, txs);
            && |outcomes| == |txs|
            && var outcome := Families.Step(w, store, Families.XoTx(name + ",create,", signer, faults)).outcome;
               && (outcome.Ok? <==> BothAnswered(faults) && !Alive(w, txs, outcomes, name))
               && (IsAnswer(faults.first) && Alive(w, txs, outcomes, name) ==> outcome == Err(Invalid(GameExists)))
  {
    var tx := Families.XoTx(name + ",create,", signer, faults);
    WrittenParses(name, "", w.toInt);
    Decided(w, txs, tx, Payload(name, "create", Raw("")));
  }

  /** After every run `name,delete,` goes through exactly when the record has a game of that name. */
  lemma DeleteApplied(w: Families.World, txs: seq<Families.Tx>, name: string, signer: string, faults: Faults)
    requires w.Sound() && Families.Signed(txs) && XoRefinement.ValidSigner(signer)
    requires name != "" && ',' !in name && '|' !in name
    ensures var (outcomes, store) := Families.Run(w, txs);
            && |outcomes| == |txs|
            && var outcome := Families.Step(w, store, Families.XoTx(name + ",delete,", signer, faults)).outcome;
               && (outcome.Ok? <==> BothAnswered(faults) && Alive(w, txs, outcomes, name))
               && (IsAnswer(faults.first) && !Alive(w, txs, outcomes, name) ==> outcome == Err(Invalid(NoSuchGame)))
  {
    var tx := Families.XoTx(name + ",delete,", signer, faults);
    WrittenParses(name, "", w.toInt);
    Decided(w, txs, tx, Payload(name, "delete", Raw("")));
  }

  /**
   * After every run `name,take,space`, with a space that reads as n from 1 to 9, goes through exactly
   * when the record has a game of that name and stays legal with this take added.
   */
  lemma TakeApplied(w: Families.World, txs: seq<Families.Tx>, name: string, space: string, n: nat, signer: string,
                    faults: Faults)
    requires w.Sound() && Families.Signed(txs) && XoRefinement.ValidSigner(signer)
    requires name != "" && ',' !in name && '|' !in name && ',' !in space
    requires 1 <= n <= 9 && w.toInt(space) == Some(n)
    ensures var (outcomes, store) := Families.Run(w, txs);
            && |outcomes| == |txs|
            && var outcome := Families.Step(w, store, Families.XoTx(name + ",take," + space, signer, faults)).outcome;
               && (outcome.Ok? <==>
                     && BothAnswered(faults) && Alive(w, txs, outcomes, name)
                     && Legal(History(w, txs, outcomes, name) + [Move(n, signer)]))
               && (IsAnswer(faults.first) && !Alive(w, txs, outcomes, name) ==> outcome == Err(Invalid(TakeNeedsGame)))
  {
    var tx := Families.XoTx(name + ",take," + space, signer, faults);
    WrittenParses(name, space, w.toInt);
    Decided(w, txs, tx, Payload(name, "take", Number(n)));
  }
}
