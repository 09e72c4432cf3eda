/** How a handler's `apply` can end other than by returning. */
module Outcomes {
  import opened Common

  /** Why InvalidTransaction was raised, one value per `raise` statement. */
  datatype Reason =
    | BadPayload
    | NameRequired | NameHasBar | ActionRequired | UnknownAction | BadSpace
    | NoSuchGame | GameExists | TakeNeedsGame | GameOver | WrongPlayer | SpaceTaken | UnhandledAction
    | BadVerb | BadName | BadValue | AlreadySet | NotSet | TooLarge | TooSmall

  /** Why InternalError was raised. */
  datatype Fault = UndecodableState | TwoWinners | UnhandledState | UnhandledVerb | StateError

  datatype Failure =
    | Invalid(reason: Reason)
    | Internal(fault: Fault)
    | Unauthorized    // AuthorizationException
    | ConnectionLost  // ValidatorConnectionError, out of a future that holds a FutureError
    | TimeoutPassed   // FutureTimeoutError, out of a future that got no reply in time
    | Uncaught        // any other exception: IndexError, KeyError, NameError, TypeError

  type Outcome = Result<(), Failure>
}

/** The validator's state as a handler sees it through Context. */
module Validator {
  import opened Common
  import opened Outcomes

  type Store = map<string, string>

  datatype Request = Get(address: string) | Set(address: string, data: string) | Delete(address: string)

  /**
   * What becomes of one state request. Done: carried out and answered. Declined: a write
   * answered normally with an empty list of addresses, nothing written. Refused: answered with
   * AUTHORIZATION_ERROR. Lost: the connection went down first, and TimedOut: the answer did not
   * come in time, in both cases after the validator had carried the request out or not.
   */
  datatype Reply = Done | Declined | Refused | Lost(carriedOut: bool) | TimedOut(carriedOut: bool)

  function ReplyFailure(reply: Reply): Option<Failure> {
    match reply
    case Refused => Some(Unauthorized)
    case Lost(_) => Some(ConnectionLost)
    case TimedOut(_) => Some(TimeoutPassed)
    case _ => None
  }

  /** What Context.get_state gives for one address: entries with empty data are dropped. */
  function Visible(store: Store, address: string): Option<string> {
    if address in store && store[address] != "" then Some(store[address]) else None
  }

  /** Data is visible exactly if it is stored and not empty. */
  lemma VisibleMeans(store: Store, address: string, data: string)
    ensures Visible(store, address) == Some(data) <==> address in store && store[address] == data && data != ""
  {
  }

  predicate CarriedOut(reply: Reply) {
    reply.Done? || ((reply.Lost? || reply.TimedOut?) && reply.carriedOut)
  }

  function AfterWrite(store: Store, request: Request, reply: Reply): Store {
    if CarriedOut(reply) then
      match request
      case Set(address, data) => store[address := data]
      case Delete(address) => store - {address}
      case Get(_) => store
    else store
  }

  predicate IsWrite(request: Request) {
    !request.Get?
  }

  /** A transaction's view of the validator; `reply` says what becomes of its i-th request. */
  class Context {
    const reply: nat -> Reply
    var store: Store
    var requests: seq<Request>

    constructor (store: Store, reply: nat -> Reply)
      ensures this.store == store && this.reply == reply && requests == []
    {
      this.store, this.reply, this.requests := store, reply, [];
    }

    method GetState(address: string) returns (r: Result<Option<string>, Failure>)
      modifies this`requests
      ensures requests == old(requests) + [Get(address)]
      ensures match ReplyFailure(reply(|old(requests)|))
              case Some(failure) => r == Err(failure)
              case None => r == Ok(Visible(store, address))
    {
      var failed := ReplyFailure(reply(|requests|));
      requests := requests + [Get(address)];
      r := if failed.Some? then Err(failed.value) else Ok(Visible(store, address));
    }

    /** The result says whether the answer named the address as written. */
    method Write(request: Request) returns (r: Result<bool, Failure>)
      requires IsWrite(request)
      modifies this
      ensures requests == old(requests) + [request]
      ensures store == AfterWrite(old(store), request, reply(|old(requests)|))
      ensures match ReplyFailure(reply(|old(requests)|))
              case Some(failure) => r == Err(failure)
              case None => r == Ok(reply(|old(requests)|).Done?)
    {
      var answer := reply(|requests|);
      var failed := ReplyFailure(answer);
      requests := requests + [request];
      store := AfterWrite(store, request, answer);
      r := if failed.Some? then Err(failed.value) else Ok(answer.Done?);
    }
  }

  // ----- one transaction that reads an address and then writes the same address -----

  /** What a handler decides once it has seen the data at its address. */
  datatype Verdict = Reject(failure: Failure) | Put(data: string) | Remove

  datatype Effect = Effect(outcome: Outcome, store: Store, requests: seq<Request>)

  function WriteOutcome(reply: Reply, declined: Outcome): Outcome {
    match ReplyFailure(reply)
    case Some(failure) => Err(failure)
    case None => if reply.Done? then Ok(()) else declined
  }

  /**
   * The effect of a transaction that decides `verdict` for the data at `address`, when its read
   * meets `first` and its write `second`; `declined` is what the handler makes of a write that
   * wrote nothing.
   */
  function Execute(store: Store, address: string, verdict: Verdict,
                   first: Reply, second: Reply, declined: Outcome): Effect
  {
    if ReplyFailure(first).Some? then
      Effect(Err(ReplyFailure(first).value), store, [Get(address)])
    else if verdict.Reject? then
      Effect(Err(verdict.failure), store, [Get(address)])
    else
      var write := if verdict.Put? then Set(address, verdict.data) else Delete(address);
      Effect(WriteOutcome(second, declined), AfterWrite(store, write, second), [Get(address), write])
  }

  /**
   * Failure atomicity: an effect whose outcome is InvalidTransaction has written nothing, one
   * that returns has written exactly once, last, at the address it read.
   */
  ghost predicate FailureAtomic(e: Effect, before: Store) {
    && (e.outcome.Err? && e.outcome.error.Invalid? ==>
          e.store == before && forall r | r in e.requests :: !IsWrite(r))
    && (e.outcome.Ok? ==>
          && |e.requests| == 2
          && e.requests[0].Get?
          && IsWrite(e.requests[1])
          && e.requests[1].address == e.requests[0].address)
    && (forall i | 0 <= i < |e.requests| && IsWrite(e.requests[i]) :: i == |e.requests| - 1)
  }

  /** At an address other than the transaction's own nothing changes, whatever the replies. */
  ghost predicate OnlyTouches(e: Effect, before: Store, address: string) {
    && e.store - {address} == before - {address}
    && forall r | r in e.requests :: r.address == address
  }

  lemma ExecuteAtomic(store: Store, address: string, verdict: Verdict, first: Reply, second: Reply, declined: Outcome)
    requires declined.Err? ==> !declined.error.Invalid?
    ensures var e := Execute(store, address, verdict, first, second, declined);
            FailureAtomic(e, store) && OnlyTouches(e, store, address)
  {
  }

  // ----- faults -----

  /** What becomes of a transaction's read and of its write. */
  datatype Faults = Faults(first: Reply, second: Reply)

  /** How a transaction ends under these faults, if without any it would end in `outcome`. */
  function OutcomeUnder(faults: Faults, declined: Outcome, outcome: Outcome): Outcome {
    if ReplyFailure(faults.first).Some? then Err(ReplyFailure(faults.first).value)
    else if outcome.Err? then outcome
    else WriteOutcome(faults.second, declined)
  }

  /** It then leaves its mark on the state. */
  predicate TakesEffect(faults: Faults, outcome: Outcome) {
    outcome.Ok? && ReplyFailure(faults.first).None? && faults.second == Done
  }

  /** An answer came, whether or not it says that something was written. */
  ghost predicate IsAnswer(reply: Reply) {
    reply == Done || reply == Declined
  }

  /** A request that failed makes the transaction fail, each for its own reason. */
  ghost predicate Reported(reply: Reply, outcome: Outcome) {
    && (reply == Refused ==> outcome == Err(Unauthorized))
    && (reply.Lost? ==> outcome == Err(ConnectionLost))
    && (reply.TimedOut? ==> outcome == Err(TimeoutPassed))
  }

  /**
   * How these faults change an outcome: a failed read is reported before anything else, then what
   * the transaction itself decides, then a failed write; a declined write is what the handler
   * makes of it.
   */
  ghost predicate UnderFaults(faults: Faults, declined: Outcome, without: Outcome, outcome: Outcome) {
    && Reported(faults.first, outcome)
    && (IsAnswer(faults.first) && without.Err? ==> outcome == without)
    && (IsAnswer(faults.first) && without.Ok? ==>
          && Reported(faults.second, outcome)
          && (faults.second == Done ==> outcome == Ok(()))
          && (faults.second == Declined ==> outcome == declined))
  }

  lemma OutcomesUnderFaults(faults: Faults, declined: Outcome, without: Outcome)
    ensures UnderFaults(faults, declined, without, OutcomeUnder(faults, declined, without))
    ensures TakesEffect(faults, without) <==> without.Ok? && IsAnswer(faults.first) && faults.second == Done
  {
  }

  /** The state the validator keeps: that of a transaction that did not succeed is discarded. */
  function Committed(e: Effect, before: Store): Store {
    if e.outcome.Ok? then e.store else before
  }

  /** Faults only ever make a transaction fail, or an answered write have no effect. */
  lemma ExecuteUnderFaults(store: Store, address: string, verdict: Verdict, faults: Faults, declined: Outcome)
    ensures var e := Execute(store, address, verdict, faults.first, faults.second, declined);
            var done := Execute(store, address, verdict, Done, Done, declined);
            && e.outcome == OutcomeUnder(faults, declined, done.outcome)
            && Committed(e, store) == (if TakesEffect(faults, done.outcome) then done.store else store)
  {
  }
}
