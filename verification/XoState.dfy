/**
 * What the calls on an XoState do, on values: the validator's state, the requests made so far
 * and the address cache. The class below is proved to do exactly this.
 */
module XoSession {
  import opened Common
  import opened Outcomes
  import opened Validator
  import opened XoRules
  import opened XoCodec
  import opened Addresses

  type Cache = map<string, Option<string>>

  datatype Session = Session(store: Store, requests: seq<Request>, cache: Cache)

  type Replies = nat -> Reply

  /** Python's truth test on None or bytes. */
  function Truthy(data: Option<string>): Option<string> {
    if data == Some("") then None else data
  }

  /** The data at an address, from the cache if it is there. */
  function Fetch(s: Session, a: string, reply: Replies): (Session, Result<Option<string>, Failure>) {
    if a in s.cache then (s, Ok(Truthy(s.cache[a])))
    else
      var asked := s.(requests := s.requests + [Get(a)]);
      match ReplyFailure(reply(|s.requests|))
      case Some(failure) => (asked, Err(failure))
      case None => (asked.(cache := s.cache[a := Visible(s.store, a)]), Ok(Visible(s.store, a)))
  }

  function GamesIn(data: Option<string>): Result<Games, Failure> {
    match data
    case Some(d) => Deserialize(d)
    case None => Ok(map[])
  }

  function LoadGames(s: Session, a: string, reply: Replies): (Session, Result<Games, Failure>) {
    var (s1, data) := Fetch(s, a, reply);
    match data
    case Ok(d) => (s1, GamesIn(d))
    case Err(f) => (s1, Err(f))
  }

  function WriteTo(s: Session, request: Request, reply: Replies): Session {
    s.(requests := s.requests + [request], store := AfterWrite(s.store, request, reply(|s.requests|)))
  }

  /** The cache entry is made before the request, and stays when the request fails. */
  ghost function StoreGames(s: Session, a: string, games: Games, reply: Replies): (Session, Outcome) {
    var data := Serialize(games);
    (WriteTo(s, Set(a, data), reply).(cache := s.cache[a := Some(data)]), WriteOutcome(reply(|s.requests|), Ok(())))
  }

  /** The cache entry is made after the request, and only if it returned. */
  function DropGames(s: Session, a: string, reply: Replies): (Session, Outcome) {
    var r := WriteOutcome(reply(|s.requests|), Ok(()));
    var s1 := WriteTo(s, Delete(a), reply);
    (if r.Ok? then s1.(cache := s.cache[a := None]) else s1, r)
  }

  function Find(games: Games, name: string): Option<Game> {
    if name in games then Some(games[name]) else None
  }

  function GetGame(sha: Sha, s: Session, name: string, reply: Replies): (Session, Result<Option<Game>, Failure>) {
    var (s1, r) := LoadGames(s, XoAddress(sha, name), reply);
    match r
    case Ok(games) => (s1, Ok(Find(games, name)))
    case Err(f) => (s1, Err(f))
  }

  ghost function SetGame(sha: Sha, s: Session, name: string, game: Game, reply: Replies): (Session, Outcome) {
    var (s1, r) := LoadGames(s, XoAddress(sha, name), reply);
    match r
    case Ok(games) => StoreGames(s1, XoAddress(sha, name), games[name := game], reply)
    case Err(f) => (s1, Err(f))
  }

  ghost function DeleteGame(sha: Sha, s: Session, name: string, reply: Replies): (Session, Outcome) {
    var (s1, r) := LoadGames(s, XoAddress(sha, name), reply);
    match r
    case Ok(games) =>
      if name !in games then (s1, Err(Uncaught))
      else if games - {name} != map[] then StoreGames(s1, XoAddress(sha, name), games - {name}, reply)
      else DropGames(s1, XoAddress(sha, name), reply)
    case Err(f) => (s1, Err(f))
  }

  // ----- coherence of the cache -----

  /** Every cached entry says what the validator's state holds; None and empty both mean absent. */
  ghost predicate Coherent(s: Session) {
    forall a | a in s.cache :: Truthy(s.cache[a]) == Visible(s.store, a)
  }

  /** A read with nothing cached. */
  function FreshRead(sha: Sha, store: Store, name: string): Result<Option<Game>, Failure> {
    var games :- GamesIn(Visible(store, XoAddress(sha, name)));
    Ok(Find(games, name))
  }

  /** Reading keeps the cache coherent, and a cached read returns what a fresh one would. */
  lemma GetGameCoherent(sha: Sha, s: Session, name: string, reply: Replies)
    requires Coherent(s)
    ensures var (s1, r) := GetGame(sha, s, name, reply);
            && Coherent(s1) && s1.store == s.store
            && (r == FreshRead(sha, s.store, name)
                || (XoAddress(sha, name) !in s.cache && ReplyFailure(reply(|s.requests|)) == Some(r.error)))
  {
  }

  /**
   * When the write of a set is carried out the cache stays coherent; when it is not, it stays
   * coherent exactly if the validator already held the same text.
   */
  lemma StoreGamesCoherent(s: Session, a: string, games: Games, reply: Replies)
    requires Coherent(s)
    ensures var (s1, r) := StoreGames(s, a, games, reply);
            Coherent(s1) <==>
              || CarriedOut(reply(|s.requests|))
              || Truthy(Some(Serialize(games))) == Visible(s.store, a)
  {
    var (s1, r) := StoreGames(s, a, games, reply);
    assert a in s1.cache && s1.cache[a] == Some(Serialize(games));
  }

  /**
   * Deleting what a coherent cache shows at an address keeps it coherent exactly if the cache
   * learns what happened: not when an answered deletion deleted nothing, and not when a
   * deletion was carried out but its answer did not come.
   */
  lemma DropGamesCoherent(s: Session, a: string, reply: Replies)
    requires Coherent(s) && a in s.cache && Truthy(s.cache[a]).Some?
    ensures var (s1, r) := DropGames(s, a, reply);
            Coherent(s1) <==> reply(|s.requests|) !in {Declined, Lost(true), TimedOut(true)}
  {
    var (s1, r) := DropGames(s, a, reply);
    assert a in s1.cache;
    assert a in s.store;
  }

  // ----- any sequence of calls -----

  datatype Call = CallGet(name: string) | CallSet(name: string, game: Game) | CallDelete(name: string)

  datatype Answer = Found(result: Result<Option<Game>, Failure>) | Wrote(outcome: Outcome)

  ghost function Perform(sha: Sha, s: Session, call: Call, reply: Replies): (Session, Answer) {
    match call
    case CallGet(name) => var (s1, r) := GetGame(sha, s, name, reply); (s1, Found(r))
    case CallSet(name, game) => var (s1, r) := SetGame(sha, s, name, game, reply); (s1, Wrote(r))
    case CallDelete(name) => var (s1, r) := DeleteGame(sha, s, name, reply); (s1, Wrote(r))
  }

  ghost function PerformAll(sha: Sha, s: Session, calls: seq<Call>, reply: Replies): Session
    decreases |calls|
  {
    if calls == [] then s
    else Perform(sha, PerformAll(sha, s, calls[..|calls| - 1], reply), calls[|calls| - 1], reply).0
  }

  /** Every address that was fetched is cached, and none is asked for again once it was fetched. */
  ghost predicate FetchedOnce(s: Session, reply: Replies) {
    && (forall i | 0 <= i < |s.requests| && Fetched(s, reply, i) :: s.requests[i].address in s.cache)
    && (forall i, j | 0 <= i < j < |s.requests| && Fetched(s, reply, i) :: s.requests[i] != s.requests[j])
  }

  ghost predicate Fetched(s: Session, reply: Replies, i: nat)
    requires i < |s.requests|
  {
    s.requests[i].Get? && ReplyFailure(reply(i)).None?
  }

  /** The validator carried this write out exactly if the cache takes it that it did. */
  ghost predicate Faithful(request: Request, reply: Reply) {
    match request
    case Get(_) => true
    case Set(_, _) => CarriedOut(reply)
    case Delete(_) => reply !in {Declined, Lost(true), TimedOut(true)}
  }

  ghost predicate AllFaithful(s: Session, reply: Replies) {
    forall i | 0 <= i < |s.requests| :: Faithful(s.requests[i], reply(i))
  }

  lemma AskedOnce(s: Session, t: Session, reply: Replies, request: Request)
    requires FetchedOnce(s, reply) && t.requests == s.requests + [request] && s.cache.Keys <= t.cache.Keys
    requires request.Get? ==> request.address !in s.cache
    requires request.Get? && ReplyFailure(reply(|s.requests|)).None? ==> request.address in t.cache
    ensures FetchedOnce(t, reply)
    ensures AllFaithful(t, reply) <==> AllFaithful(s, reply) && Faithful(request, reply(|s.requests|))
  {
    assert forall i | 0 <= i < |s.requests| ::
      t.requests[i] == s.requests[i] && Fetched(t, reply, i) == Fetched(s, reply, i);
    assert t.requests[|s.requests|] == request;
  }

  /** A session whose cache is coherent as long as its writes were faithful, and which fetches nothing twice. */
  ghost predicate Sane(s: Session, reply: Replies) {
    FetchedOnce(s, reply) && (AllFaithful(s, reply) ==> Coherent(s))
  }

  lemma LoadSane(s: Session, a: string, reply: Replies)
    requires Sane(s, reply)
    ensures var (s1, r) := LoadGames(s, a, reply);
            && Sane(s1, reply)
            && s1.store == s.store
            && (r.Ok? ==> a in s1.cache && r == GamesIn(Truthy(s1.cache[a])))
  {
    if a !in s.cache {
      AskedOnce(s, LoadGames(s, a, reply).0, reply, Get(a));
    }
  }

  lemma StoreSane(s: Session, a: string, games: Games, reply: Replies)
    requires Sane(s, reply)
    ensures Sane(StoreGames(s, a, games, reply).0, reply)
  {
    AskedOnce(s, StoreGames(s, a, games, reply).0, reply, Set(a, Serialize(games)));
    if AllFaithful(s, reply) {
      StoreGamesCoherent(s, a, games, reply);
    }
  }

  lemma DropSane(s: Session, a: string, reply: Replies)
    requires Sane(s, reply) && a in s.cache && Truthy(s.cache[a]).Some?
    ensures Sane(DropGames(s, a, reply).0, reply)
  {
    AskedOnce(s, DropGames(s, a, reply).0, reply, Delete(a));
    if AllFaithful(s, reply) {
      DropGamesCoherent(s, a, reply);
    }
  }

  lemma PerformSane(sha: Sha, s: Session, call: Call, reply: Replies)
    requires Sane(s, reply)
    ensures Sane(Perform(sha, s, call, reply).0, reply)
  {
    var a := XoAddress(sha, call.name);
    var (s1, r) := LoadGames(s, a, reply);
    LoadSane(s, a, reply);
    if r.Ok? {
      match call {
        case CallGet(name) =>
        case CallSet(name, game) => StoreSane(s1, a, r.value[name := game], reply);
        case CallDelete(name) =>
          StoreSane(s1, a, r.value - {name}, reply);
          if name in r.value {
            DropSane(s1, a, reply);
          }
      }
    }
  }

  lemma {:induction false} PerformAllSane(sha: Sha, store: Store, calls: seq<Call>, reply: Replies)
    ensures Sane(PerformAll(sha, Session(store, [], map[]), calls, reply), reply)
    decreases |calls|
  {
    if calls != [] {
      var before := calls[..|calls| - 1];
      PerformAllSane(sha, store, before, reply);
      PerformSane(sha, PerformAll(sha, Session(store, [], map[]), before, reply), calls[|calls| - 1], reply);
    }
  }

  /**
   * After any sequence of calls, whatever becomes of its requests, no address is asked for again
   * once it was fetched. If every set was carried out, and every deletion just if it was answered,
   * the cache is coherent, and the next read returns what a fresh one would or the failure of its
   * own request.
   */
  lemma CacheCoherence(sha: Sha, store: Store, calls: seq<Call>, name: string, reply: Replies)
    ensures var s := PerformAll(sha, Session(store, [], map[]), calls, reply);
            && FetchedOnce(s, reply)
            && (AllFaithful(s, reply) ==>
                  && Coherent(s)
                  && var r := GetGame(sha, s, name, reply).1;
                     || r == FreshRead(sha, s.store, name)
                     || (r.Err? && ReplyFailure(reply(|s.requests|)) == Some(r.error)))
  {
    var s := PerformAll(sha, Session(store, [], map[]), calls, reply);
    PerformAllSane(sha, store, calls, reply);
    if AllFaithful(s, reply) {
      GetGameCoherent(sha, s, name, reply);
    }
  }

  lemma DeclinedSet(sha: Sha, name: string, game: Game, reply: Replies)
    requires reply(0) == Done && reply(1) == Declined
    ensures var a, text := XoAddress(sha, name), Serialize(map[name := game]);
            SetGame(sha, Session(map[], [], map[]), name, game, reply)
            == (Session(map[], [Get(a), Set(a, text)], map[a := Some(text)]), Ok(()))
  {
    var a := XoAddress(sha, name);
    var (s1, r) := LoadGames(Session(map[], [], map[]), a, reply);
    assert s1 == Session(map[], [Get(a)], map[a := None]) && r == Ok(map[]);
    assert map[][name := game] == map[name := game];
    var text := Serialize(map[name := game]);
    assert s1.cache[a := Some(text)] == map[a := Some(text)];
    assert s1.requests + [Set(a, text)] == [Get(a), Set(a, text)];
  }

  /**
   * A set whose write is answered but wrote nothing returns as if it had succeeded, and leaves a
   * cached game that the state does not hold.
   */
  lemma StaleCache(sha: Sha, name: string, game: Game, reply: Replies)
    requires FieldsFree(game) && game.name == name
    requires reply(0) == Done && reply(1) == Declined
    ensures var (s, r) := SetGame(sha, Session(map[], [], map[]), name, game, reply);
            && r == Ok(())
            && !Coherent(s)
            && GetGame(sha, s, name, reply).1 == Ok(Some(game)) && FreshRead(sha, s.store, name) == Ok(None)
  {
    var a, games := XoAddress(sha, name), map[name := game];
    assert name in games;
    RoundTrip(games);
    DeclinedSet(sha, name, game, reply);
    var s := SetGame(sha, Session(map[], [], map[]), name, game, reply).0;
    assert a in s.cache && s.cache[a] == Some(Serialize(games));
  }
}

/** XoState: the games of the validator's state, read and written one address at a time. */
module XoStateAccess {
  import opened Common
  import opened Outcomes
  import opened Validator
  import opened XoRules
  import opened XoCodec
  import opened Addresses
  import XoSession

  class XoState {
    const sha: Sha
    const context: Context
    var addressCache: map<string, Option<string>>

    constructor (sha: Sha, context: Context)
      ensures this.sha == sha && this.context == context
      ensures Contents() == XoSession.Session(context.store, context.requests, map[])
    {
      this.sha, this.context, this.addressCache := sha, context, map[];
    }

    ghost function Contents(): XoSession.Session
      reads this, context
    {
      XoSession.Session(context.store, context.requests, addressCache)
    }

    method GetGame(name: string) returns (r: Result<Option<Game>, Failure>)
      modifies this, context`requests
      ensures (Contents(), r) == XoSession.GetGame(sha, old(Contents()), name, context.reply)
    {
      var loaded := LoadGames(name);
      match loaded
      case Err(f) => r := Err(f);
      case Ok(games) => r := Ok(if name in games then Some(games[name]) else None);
    }

    method SetGame(name: string, game: Game) returns (r: Outcome)
      modifies this, context
      ensures (Contents(), r) == XoSession.SetGame(sha, old(Contents()), name, game, context.reply)
    {
      var games :- LoadGames(name);
      r := StoreGame(name, games[name := game]);
    }

    method DeleteGame(name: string) returns (r: Outcome)
      modifies this, context
      ensures (Contents(), r) == XoSession.DeleteGame(sha, old(Contents()), name, context.reply)
    {
      var games :- LoadGames(name);
      if name !in games {
        return Err(Uncaught);
      }
      games := games - {name};
      if games != map[] {
        r := StoreGame(name, games);
      } else {
        r := DropGame(name);
      }
    }

    method StoreGame(name: string, games: Games) returns (r: Outcome)
      modifies this, context
      ensures (Contents(), r)
           == XoSession.StoreGames(old(Contents()), XoAddress(sha, name), games, context.reply)
    {
      var address := XoAddress(sha, name);
      var data := SerializeGames(games);
      addressCache := addressCache[address := Some(data)];
      var written := context.Write(Set(address, data));
      r := if written.Err? then Err(written.error) else Ok(());
    }

    method DropGame(name: string) returns (r: Outcome)
      modifies this, context
      ensures (Contents(), r) == XoSession.DropGames(old(Contents()), XoAddress(sha, name), context.reply)
    {
      var address := XoAddress(sha, name);
      var _ :- context.Write(Delete(address));
      addressCache := addressCache[address := None];
      r := Ok(());
    }

    method LoadGames(name: string) returns (r: Result<Games, Failure>)
      modifies this, context`requests
      ensures (Contents(), r) == XoSession.LoadGames(old(Contents()), XoAddress(sha, name), context.reply)
    {
      var address := XoAddress(sha, name);
      if address in addressCache {
        if addressCache[address].Some? && addressCache[address].value != "" {
          r := DeserializeData(addressCache[address].value);
        } else {
          r := Ok(map[]);
        }
      } else {
        var entry :- context.GetState(address);
        if entry.Some? {
          addressCache := addressCache[address := entry];
          r := DeserializeData(entry.value);
        } else {
          addressCache := addressCache[address := None];
          r := Ok(map[]);
        }
      }
    }
  }
}
