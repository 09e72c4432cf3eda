/** XoTransactionHandler.apply: its effect on the validator's state, and the method itself. */
module XoHandler {
  import opened Common
  import opened Outcomes
  import opened Validator
  import opened XoPayload
  import opened XoRules
  import opened XoCodec
  import opened Addresses
  import Text
  import XoSession
  import XoStateAccess

  /** The write that brings the games at an address to what Act says. */
  ghost function Decide(result: Result<Option<Game>, Failure>, games: Games, name: string): Verdict {
    match result
    case Err(f) => Reject(f)
    case Ok(Some(game)) => Put(Serialize(games[name := game]))
    case Ok(None) => if games - {name} == map[] then Remove else Put(Serialize(games - {name}))
  }

  /** What a transaction decides once it sees the data at its address. */
  ghost function VerdictOn(p: Payload, signer: string, data: Option<string>): Verdict
    requires Readable(p)
  {
    match XoSession.GamesIn(data)
    case Err(f) => Reject(f)
    case Ok(games) => Decide(Act(p, signer, XoSession.Find(games, p.name)), games, p.name)
  }

  /** The effect of a parsed transaction whose state requests meet these two replies. */
  ghost function EffectOf(sha: Sha, store: Store, p: Payload, signer: string, first: Reply, second: Reply): Effect
    requires Readable(p)
  {
    var address := XoAddress(sha, p.name);
    Execute(store, address, VerdictOn(p, signer, Visible(store, address)), first, second, Ok(()))
  }

  /** The effect of one XO transaction. */
  ghost function ApplyEffect(sha: Sha, toInt: IntParser, store: Store, payload: string, signer: string,
                             first: Reply, second: Reply): Effect
  {
    ParsedIsValid(payload, toInt);
    match Parse(payload, toInt)
    case Err(f) => Effect(Err(f), store, [])
    case Ok(p) => EffectOf(sha, store, p, signer, first, second)
  }

  /** From session `s` to `t` with this outcome is what the effect says. */
  ghost predicate Matches(e: Effect, s: XoSession.Session, t: XoSession.Session, outcome: Outcome) {
    && outcome == e.outcome
    && t.store == e.store
    && t.requests == s.requests + e.requests
  }

  /** After a first load the second one costs nothing and gives the same games. */
  lemma LoadTwice(s: XoSession.Session, a: string, reply: XoSession.Replies)
    requires s.cache == map[]
    ensures var (s1, r) := XoSession.LoadGames(s, a, reply);
            && s1.store == s.store && s1.requests == s.requests + [Get(a)]
            && match ReplyFailure(reply(|s.requests|))
               case Some(f) => r == Err(f)
               case None => r == XoSession.GamesIn(Visible(s.store, a)) && XoSession.LoadGames(s1, a, reply) == (s1, r)
  {
  }

  lemma ThenStore(s: XoSession.Session, s1: XoSession.Session, a: string, games: Games, reply: XoSession.Replies)
    requires s1.store == s.store && s1.requests == s.requests + [Get(a)]
    requires ReplyFailure(reply(|s.requests|)).None?
    ensures var (s2, outcome) := XoSession.StoreGames(s1, a, games, reply);
            Matches(Execute(s.store, a, Put(Serialize(games)), reply(|s.requests|), reply(|s.requests| + 1), Ok(())),
                    s, s2, outcome)
  {
  }

  lemma ThenDrop(s: XoSession.Session, s1: XoSession.Session, a: string, reply: XoSession.Replies)
    requires s1.store == s.store && s1.requests == s.requests + [Get(a)]
    requires ReplyFailure(reply(|s.requests|)).None?
    ensures var (s2, outcome) := XoSession.DropGames(s1, a, reply);
            Matches(Execute(s.store, a, Remove, reply(|s.requests|), reply(|s.requests| + 1), Ok(())), s, s2, outcome)
  {
  }

  lemma ActDeletesOnlyGames(p: Payload, signer: string, found: Option<Game>)
    requires Readable(p)
    ensures Act(p, signer, found) == Ok(None) ==> found.Some?
  {
  }

  /** Reading the game and then doing what Act says through the cached access has the effect above. */
  lemma ReadThenAct(sha: Sha, s: XoSession.Session, p: Payload, signer: string, reply: XoSession.Replies)
    requires s.cache == map[] && Readable(p)
    ensures var n := |s.requests|;
            var e := EffectOf(sha, s.store, p, signer, reply(n), reply(n + 1));
            var (s1, r) := XoSession.GetGame(sha, s, p.name, reply);
            match r
            case Err(f) => Matches(e, s, s1, Err(f))
            case Ok(found) =>
              match Act(p, signer, found)
              case Err(f) => Matches(e, s, s1, Err(f))
              case Ok(Some(game)) =>
                var (s2, outcome) := XoSession.SetGame(sha, s1, p.name, game, reply);
                Matches(e, s, s2, outcome)
              case Ok(None) =>
                var (s2, outcome) := XoSession.DeleteGame(sha, s1, p.name, reply);
                Matches(e, s, s2, outcome)
  {
    var a := XoAddress(sha, p.name);
    var (s1, r) := XoSession.LoadGames(s, a, reply);
    LoadTwice(s, a, reply);
    if r.Ok? {
      var found := XoSession.Find(r.value, p.name);
      ActDeletesOnlyGames(p, signer, found);
      match Act(p, signer, found) {
        case Err(_) =>
        case Ok(Some(game)) => ThenStore(s, s1, a, r.value[p.name := game], reply);
        case Ok(None) =>
          if r.value - {p.name} == map[] {
            ThenDrop(s, s1, a, reply);
          } else {
            ThenStore(s, s1, a, r.value - {p.name}, reply);
          }
      }
    }
  }

  class XoTransactionHandler {
    const sha: Sha
    const toInt: IntParser

    constructor (sha: Sha, toInt: IntParser)
      ensures this.sha == sha && this.toInt == toInt
    {
      this.sha, this.toInt := sha, toInt;
    }

    /** The part of apply that updates the game object in place. */
    method TakeSpace(found: Game, space: nat, signer: string) returns (r: Result<Game, Failure>)
      requires 1 <= space
      ensures r == Take(found, space, signer)
    {
      var game := found;
      if Ended(game.state) {
        return Err(Invalid(GameOver));
      }
      if WrongTurn(game, signer) {
        return Err(Invalid(WrongPlayer));
      }
      if space > |game.board| {
        return Err(Uncaught);
      }
      if game.board[space - 1] != '-' {
        return Err(Invalid(SpaceTaken));
      }
      if game.player1 == "" {
        game := game.(player1 := signer);
      } else if game.player2 == "" {
        game := game.(player2 := signer);
      }
      var board := UpdateBoard(game.board, space, game.state);
      if board.None? {
        return Err(Uncaught);
      }
      var state :- UpdateGameState(game.state, board.value);
      game := game.(board := board.value, state := state);
      return Ok(game);
    }

    method Apply(payload: string, signer: string, context: Context) returns (outcome: Outcome)
      modifies context
      ensures var n := |old(context.requests)|;
              var e := ApplyEffect(sha, toInt, old(context.store), payload, signer,
                                   context.reply(n), context.reply(n + 1));
              && outcome == e.outcome
              && context.store == e.store
              && context.requests == old(context.requests) + e.requests
    {
      ParsedIsValid(payload, toInt);
      var p :- Parse(payload, toInt);
      outcome := ApplyParsed(p, signer, context);
    }

    /** The rest of apply, once the payload has been parsed. */
    method ApplyParsed(p: Payload, signer: string, context: Context) returns (outcome: Outcome)
      requires ValidPayload(p)
      modifies context
      ensures var n := |old(context.requests)|;
              var e := EffectOf(sha, old(context.store), p, signer, context.reply(n), context.reply(n + 1));
              && outcome == e.outcome
              && context.store == e.store
              && context.requests == old(context.requests) + e.requests
    {
      var state := new XoStateAccess.XoState(sha, context);
      ReadThenAct(sha, state.Contents(), p, signer, context.reply);

      if p.action == "delete" {
        var game :- state.GetGame(p.name);
        if game.None? {
          return Err(Invalid(NoSuchGame));
        }
        assert Act(p, signer, game) == Ok(None);
        outcome := state.DeleteGame(p.name);

      } else if p.action == "create" {
        var existing :- state.GetGame(p.name);
        if existing.Some? {
          return Err(Invalid(GameExists));
        }
        assert Act(p, signer, existing) == Ok(Some(NewGame(p.name)));
        outcome := state.SetGame(p.name, NewGame(p.name));

      } else if p.action == "take" {
        var found :- state.GetGame(p.name);
        if found.None? {
          return Err(Invalid(TakeNeedsGame));
        }
        var game :- TakeSpace(found.value, p.space.n, signer);
        assert Act(p, signer, found) == Ok(Some(game));
        outcome := state.SetGame(p.name, game);

      } else {
        outcome := Err(Invalid(UnhandledAction));
      }
    }
  }

  /** Whatever the replies, the transaction is failure atomic and touches only its own address. */
  lemma ApplyAtomic(sha: Sha, toInt: IntParser, store: Store, payload: string, signer: string,
                    first: Reply, second: Reply)
    ensures var e := ApplyEffect(sha, toInt, store, payload, signer, first, second);
            && FailureAtomic(e, store)
            && (Parse(payload, toInt).Ok? ==> OnlyTouches(e, store, XoAddress(sha, Parse(payload, toInt).value.name)))
            && (Parse(payload, toInt).Err? ==> e.store == store && e.requests == [] && e.outcome.Err?)
  {
    ParsedIsValid(payload, toInt);
    match Parse(payload, toInt)
    case Err(_) =>
    case Ok(p) =>
      var address := XoAddress(sha, p.name);
      ExecuteAtomic(store, address, VerdictOn(p, signer, Visible(store, address)), first, second, Ok(()));
  }

  lemma ApplyTouches(sha: Sha, toInt: IntParser, store: Store, payload: string, signer: string,
                     first: Reply, second: Reply) returns (name: string)
    ensures OnlyTouches(ApplyEffect(sha, toInt, store, payload, signer, first, second), store, XoAddress(sha, name))
  {
    ApplyAtomic(sha, toInt, store, payload, signer, first, second);
    name := if Parse(payload, toInt).Ok? then Parse(payload, toInt).value.name else "";
  }

  /**
   * A parsed transaction under faults, compared with the same without: a failed request makes it
   * fail and leaves the state as it was. It can report success without effect in one case only,
   * when its write is answered but not carried out, for the handler does not look at the answer.
   */
  lemma ApplyUnderFaults(sha: Sha, toInt: IntParser, store: Store, payload: string, signer: string, faults: Faults)
    ensures var e := ApplyEffect(sha, toInt, store, payload, signer, faults.first, faults.second);
            var done := ApplyEffect(sha, toInt, store, payload, signer, Done, Done);
            if Parse(payload, toInt).Err? then e == done && done.store == store
            else
              && e.outcome == OutcomeUnder(faults, Ok(()), done.outcome)
              && UnderFaults(faults, Ok(()), done.outcome, e.outcome)
              && Committed(e, store) == (if TakesEffect(faults, done.outcome) then done.store else store)
  {
    ParsedIsValid(payload, toInt);
    if Parse(payload, toInt).Ok? {
      var p := Parse(payload, toInt).value;
      var a := XoAddress(sha, p.name);
      ExecuteUnderFaults(store, a, VerdictOn(p, signer, Visible(store, a)), faults, Ok(()));
      OutcomesUnderFaults(faults, Ok(()), ApplyEffect(sha, toInt, store, payload, signer, Done, Done).outcome);
    }
  }

  /** A text with a line that has not five fields makes any transaction at its address fail internally, unwritten. */
  lemma UnreadableFails(sha: Sha, toInt: IntParser, store: Store, payload: string, signer: string, p: Payload,
                        data: string, second: Reply)
    requires Parse(payload, toInt) == Ok(p) && Visible(store, XoAddress(sha, p.name)) == Some(data)
    requires exists line | line in Text.Split(data, '|') :: !HasFiveFields(line)
    ensures var e := ApplyEffect(sha, toInt, store, payload, signer, Done, second);
            e.outcome == Err(Internal(UndecodableState)) && e.store == store
  {
    ParsedIsValid(payload, toInt);
    UnreadableIff(data);
  }
}
