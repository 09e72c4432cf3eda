/**
 * The meaning of the XO family: a flat map from game names to games. The handler, working on
 * shared addresses and separated text, does to the state exactly what that meaning says.
 */
module XoRefinement {
  import opened Common
  import opened Outcomes
  import opened Validator
  import opened Buckets
  import opened XoPayload
  import opened XoRules
  import opened XoSafety
  import opened XoCodec
  import opened Addresses
  import XoSession
  import XoHandler

  function Commit(result: Result<Option<Game>, Failure>, flat: Games, name: string): (Outcome, Games) {
    match result
    case Err(f) => (Err(f), flat)
    case Ok(Some(game)) => (Ok(()), flat[name := game])
    case Ok(None) => (Ok(()), flat - {name})
  }

  /** A transaction on the flat map. */
  function FlatApply(flat: Games, p: Payload, signer: string): (Outcome, Games)
    requires Readable(p)
  {
    Commit(Act(p, signer, XoSession.Find(flat, p.name)), flat, p.name)
  }

  function FlatStep(flat: Games, toInt: IntParser, payload: string, signer: string): (Outcome, Games) {
    ParsedIsValid(payload, toInt);
    match Parse(payload, toInt)
    case Err(f) => (Err(f), flat)
    case Ok(p) => FlatApply(flat, p, signer)
  }

  ghost predicate GoodGame(name: string, game: Game) {
    && ValidName(name)
    && game.name == name
    && WellFormed(game)
    && ',' !in game.player1 && '|' !in game.player1
    && ',' !in game.player2 && '|' !in game.player2
  }

  ghost predicate Good(flat: Games) {
    forall name | name in flat :: GoodGame(name, flat[name])
  }

  /** A public key in hex: not empty, and free of the separators. */
  ghost predicate ValidSigner(signer: string) {
    signer != "" && ',' !in signer && '|' !in signer
  }

  ghost function At(sha: Sha): string -> string {
    name => XoAddress(sha, name)
  }

  /** The validator's state that stands for these games. */
  ghost function EncodeGames(sha: Sha, flat: Games): Store {
    Encode(At(sha), Serialize, flat)
  }

  lemma GoodIsFree(name: string, game: Game)
    requires GoodGame(name, game)
    ensures FieldsFree(game)
  {
    forall i | 0 <= i < |game.board|
      ensures game.board[i] != ',' && game.board[i] != '|'
    {
      assert game.board[i] in "XO-";
    }
    StateFree(game.board);
  }

  lemma StateFree(board: string)
    requires IsBoard(board)
    ensures ',' !in StateOf(board) && '|' !in StateOf(board)
  {
    var state := StateOf(board);
    assert state in ["P1-WIN", "P2-WIN", "TIE", "P1-NEXT", "P2-NEXT"];
    forall i | 0 <= i < |state|
      ensures state[i] != ',' && state[i] != '|'
    {
    }
  }

  /** Each address in use holds exactly its games, readable again; the others hold nothing. */
  lemma AddressHolds(sha: Sha, flat: Games, a: string)
    requires Good(flat)
    ensures var held := Bucket(At(sha), flat, a);
            && Visible(EncodeGames(sha, flat), a) == (if held == map[] then None else Some(Serialize(held)))
            && XoSession.GamesIn(Visible(EncodeGames(sha, flat), a)) == Ok(held)
  {
    var held := Bucket(At(sha), flat, a);
    forall name | name in held
      ensures FieldsFree(held[name])
    {
      GoodIsFree(name, flat[name]);
    }
    BucketUsed(At(sha), Serialize, flat, a);
    RoundTrip(held);
  }

  /**
   * Decoding every address gives the flat map back: a name is in the map exactly when it is in
   * the text at some address, which is then its own address, and its game is the one there.
   */
  lemma DecodedIsFlat(sha: Sha, flat: Games)
    requires Good(flat)
    ensures forall a | a in EncodeGames(sha, flat) ::
              var held := Deserialize(EncodeGames(sha, flat)[a]);
              && held.Ok? && held.value != map[]
              && Serialize(held.value) == EncodeGames(sha, flat)[a]
              && forall name | name in held.value ::
                   name in flat && flat[name] == held.value[name] && XoAddress(sha, name) == a
    ensures forall name | name in flat ::
              var a := XoAddress(sha, name);
              && a in EncodeGames(sha, flat)
              && Deserialize(EncodeGames(sha, flat)[a]).Ok?
              && name in Deserialize(EncodeGames(sha, flat)[a]).value
  {
    forall a | a in EncodeGames(sha, flat)
      ensures Deserialize(EncodeGames(sha, flat)[a]) == Ok(Bucket(At(sha), flat, a))
    {
      AddressHolds(sha, flat, a);
      BucketUsed(At(sha), Serialize, flat, a);
    }
    forall a | a in EncodeGames(sha, flat)
      ensures Bucket(At(sha), flat, a) != map[]
    {
      BucketUsed(At(sha), Serialize, flat, a);
    }
    forall name | name in flat
      ensures name in Bucket(At(sha), flat, XoAddress(sha, name))
      ensures XoAddress(sha, name) in EncodeGames(sha, flat)
    {
      BucketUsed(At(sha), Serialize, flat, XoAddress(sha, name));
    }
  }

  lemma ActKeepsGood(p: Payload, signer: string, current: Option<Game>)
    requires ValidPayload(p) && ValidSigner(signer)
    requires current.Some? ==> GoodGame(p.name, current.value)
    ensures match Act(p, signer, current)
            case Ok(after) => after.Some? ==> GoodGame(p.name, after.value)
            case Err(f) => f.Invalid? && f.reason != UnhandledAction
  {
    ActSafe(p, signer, current);
    ActPlayers(p, signer, current);
    var result := Act(p, signer, current);
    if result.Ok? && result.value.Some? {
      SeatsFree(current, result.value.value, p.name, signer);
    }
  }

  lemma SeatsFree(current: Option<Game>, after: Game, name: string, signer: string)
    requires ValidSigner(signer) && ValidName(name) && WellFormed(after)
    requires current.Some? ==> GoodGame(name, current.value)
    requires after.player1 in ["", signer] + (if current.Some? then [current.value.player1] else [])
    requires after.player2 in ["", signer] + (if current.Some? then [current.value.player2] else [])
    requires after.name == (if current.Some? then current.value.name else name)
    ensures GoodGame(name, after)
  {
  }

  /** Every other name keeps its game, whether or not it shares the address. */
  lemma FlatTouchesOne(flat: Games, p: Payload, signer: string)
    requires Readable(p)
    ensures FlatApply(flat, p, signer).1 - {p.name} == flat - {p.name}
  {
  }

  lemma FlatKeepsGood(flat: Games, p: Payload, signer: string)
    requires Good(flat) && ValidPayload(p) && ValidSigner(signer)
    ensures Good(FlatApply(flat, p, signer).1)
    ensures var outcome := FlatApply(flat, p, signer).0;
            outcome.Err? ==> outcome.error.Invalid? && outcome.error.reason != UnhandledAction
  {
    ActKeepsGood(p, signer, XoSession.Find(flat, p.name));
  }

  /** Seats are only ever filled with the signer, and the game keeps its name. */
  lemma ActPlayers(p: Payload, signer: string, current: Option<Game>)
    requires Readable(p)
    ensures match Act(p, signer, current)
            case Ok(Some(game)) =>
              && game.player1 in ["", signer] + (if current.Some? then [current.value.player1] else [])
              && game.player2 in ["", signer] + (if current.Some? then [current.value.player2] else [])
              && game.name == (if current.Some? then current.value.name else p.name)
            case _ => true
  {
  }

  /**
   * One transaction on a state whose XO part stands for a flat map: same outcome as on the flat
   * map, and the XO part then stands for the flat map's successor. Only the named game differs.
   */
  lemma StepRefines(sha: Sha, toInt: IntParser, store: Store, flat: Games, payload: string, signer: string)
    requires Part(store, XoNamespace(sha)) == EncodeGames(sha, flat)
    requires Good(flat) && ValidSigner(signer)
    ensures var e := XoHandler.ApplyEffect(sha, toInt, store, payload, signer, Done, Done);
            var (outcome, after) := FlatStep(flat, toInt, payload, signer);
            && e.outcome == outcome
            && Part(e.store, XoNamespace(sha)) == EncodeGames(sha, after)
            && Good(after)
            && (outcome.Err? ==> outcome.error.Invalid? && outcome.error.reason != UnhandledAction)
            && (Parse(payload, toInt).Ok? ==>
                  var name := Parse(payload, toInt).value.name; after - {name} == flat - {name})
            && (Parse(payload, toInt).Err? ==> after == flat)
  {
    ParsedIsValid(payload, toInt);
    if Parse(payload, toInt).Ok? {
      var p := Parse(payload, toInt).value;
      FlatKeepsGood(flat, p, signer);
      FlatTouchesOne(flat, p, signer);
      ParsedStepRefines(sha, store, flat, p, signer);
    }
  }

  lemma SetRefines(sha: Sha, store: Store, flat: Games, name: string, game: Game, a: string, held: Games)
    requires Part(store, XoNamespace(sha)) == EncodeGames(sha, flat)
    requires a == XoAddress(sha, name) && held == Bucket(At(sha), flat, a)
    ensures Part(store[a := Serialize(held[name := game])], XoNamespace(sha)) == EncodeGames(sha, flat[name := game])
  {
    AddressFamilies(sha, name);
    EncodeSet(At(sha), Serialize, flat, name, game);
    PartWrite(store, XoNamespace(sha), a, Serialize(held[name := game]));
  }

  lemma RemoveRefines(sha: Sha, store: Store, flat: Games, name: string, a: string, rest: Games)
    requires Part(store, XoNamespace(sha)) == EncodeGames(sha, flat) && name in flat
    requires a == XoAddress(sha, name) && rest == Bucket(At(sha), flat, a) - {name}
    ensures rest == map[] ==> Part(store - {a}, XoNamespace(sha)) == EncodeGames(sha, flat - {name})
    ensures rest != map[] ==> Part(store[a := Serialize(rest)], XoNamespace(sha)) == EncodeGames(sha, flat - {name})
  {
    AddressFamilies(sha, name);
    EncodeRemove(At(sha), Serialize, flat, name);
    PartWrite(store, XoNamespace(sha), a, Serialize(rest));
  }

  /** What the handler decodes at the transaction's address is the bucket of the flat map. */
  lemma SeesBucket(sha: Sha, store: Store, flat: Games, name: string)
    requires Part(store, XoNamespace(sha)) == EncodeGames(sha, flat) && Good(flat)
    ensures var a := XoAddress(sha, name);
            && XoSession.GamesIn(Visible(store, a)) == Ok(Bucket(At(sha), flat, a))
            && XoSession.Find(Bucket(At(sha), flat, a), name) == XoSession.Find(flat, name)
  {
    var a := XoAddress(sha, name);
    AddressFamilies(sha, name);
    AddressHolds(sha, flat, a);
    PartVisible(store, XoNamespace(sha), a);
  }

  lemma DoneIs(store: Store, a: string, verdict: Verdict)
    requires !verdict.Reject?
    ensures var e := Execute(store, a, verdict, Done, Done, Ok(()));
            e.outcome == Ok(()) && e.store == (if verdict.Put? then store[a := verdict.data] else store - {a})
  {
  }

  lemma CommitSets(sha: Sha, store: Store, flat: Games, name: string, game: Game, a: string, held: Games)
    requires Part(store, XoNamespace(sha)) == EncodeGames(sha, flat)
    requires a == XoAddress(sha, name) && held == Bucket(At(sha), flat, a)
    ensures var e := Execute(store, a, Put(Serialize(held[name := game])), Done, Done, Ok(()));
            e.outcome == Ok(()) && Part(e.store, XoNamespace(sha)) == EncodeGames(sha, flat[name := game])
  {
    SetRefines(sha, store, flat, name, game, a, held);
    DoneIs(store, a, Put(Serialize(held[name := game])));
  }

  lemma CommitRemoves(sha: Sha, store: Store, flat: Games, name: string, a: string, rest: Games)
    requires Part(store, XoNamespace(sha)) == EncodeGames(sha, flat) && name in flat
    requires a == XoAddress(sha, name) && rest == Bucket(At(sha), flat, a) - {name}
    ensures var e := Execute(store, a, if rest == map[] then Remove else Put(Serialize(rest)), Done, Done, Ok(()));
            e.outcome == Ok(()) && Part(e.store, XoNamespace(sha)) == EncodeGames(sha, flat - {name})
  {
    RemoveRefines(sha, store, flat, name, a, rest);
    DoneIs(store, a, if rest == map[] then Remove else Put(Serialize(rest)));
  }

  lemma CommitRefines(sha: Sha, store: Store, flat: Games, name: string, result: Result<Option<Game>, Failure>,
                      a: string, held: Games)
    requires Part(store, XoNamespace(sha)) == EncodeGames(sha, flat)
    requires a == XoAddress(sha, name) && held == Bucket(At(sha), flat, a)
    requires result == Ok(None) ==> name in flat
    ensures var e := Execute(store, a, XoHandler.Decide(result, held, name), Done, Done, Ok(()));
            && e.outcome == Commit(result, flat, name).0
            && Part(e.store, XoNamespace(sha)) == EncodeGames(sha, Commit(result, flat, name).1)
  {
    match result {
      case Err(_) =>
      case Ok(Some(game)) => CommitSets(sha, store, flat, name, game, a, held);
      case Ok(None) => CommitRemoves(sha, store, flat, name, a, held - {name});
    }
  }

  lemma ParsedStepRefines(sha: Sha, store: Store, flat: Games, p: Payload, signer: string)
    requires Part(store, XoNamespace(sha)) == EncodeGames(sha, flat)
    requires Good(flat) && Readable(p)
    ensures XoHandler.EffectOf(sha, store, p, signer, Done, Done).outcome == FlatApply(flat, p, signer).0
    ensures Part(XoHandler.EffectOf(sha, store, p, signer, Done, Done).store, XoNamespace(sha))
         == EncodeGames(sha, FlatApply(flat, p, signer).1)
  {
    var a := XoAddress(sha, p.name);
    var found := XoSession.Find(flat, p.name);
    SeesBucket(sha, store, flat, p.name);
    XoHandler.ActDeletesOnlyGames(p, signer, found);
    CommitRefines(sha, store, flat, p.name, Act(p, signer, found), a, Bucket(At(sha), flat, a));
  }
}
