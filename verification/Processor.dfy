/** The processor's loop. What its environment does at each turn is part of the turn. */
module Processing {
  import opened Common
  import opened Routing
  import opened Messaging

  /**
   * How `handler.apply` ends. RaisedTimeout is a state request or a wait that ran out of time;
   * RaisedInterrupt is the user's interrupt or the SDK's version error, which `start` treats alike.
   */
  datatype ApplyEnd =
    | Returned
    | RaisedInvalid
    | RaisedInternal
    | RaisedConnection
    | RaisedAuthorization
    | RaisedRuntime
    | RaisedTimeout
    | RaisedInterrupt
    | RaisedOther

  datatype Status = OkStatus | InvalidStatus | InternalStatus

  datatype Response = Pong(id: Id) | ProcessResponse(id: Id, status: Status)

  /** A message taken off the queue; a process request carries its header twice. */
  datatype Request = Ping(id: Id) | ProcessRequest(id: Id, header: Header, rawHeader: Header) | OtherRequest(id: Id)

  /** How sending back goes: the link takes it, the link is down, or the user interrupts it before that. */
  datatype Sending = Delivered | LinkDown | BrokenOff

  /**
   * Whether the link is ready before the handler is looked up, how each handler's apply would
   * end, and how sending back would go.
   */
  datatype Env = Env(ready: bool, applied: nat -> ApplyEnd, sending: Sending)

  /** NoReply is a lost connection, Interruption the user's interrupt while waiting. */
  datatype RegisterReply = NoReply | RegisterReply(protocolVersion: nat, error: bool) | Interruption

  /** A request of a registration that does not get sent: the user interrupts, or the link is down. */
  datatype FailedSend = FailedSend(index: nat, interrupted: bool)

  /** The send that fails, if one does, and the reply to each request. */
  datatype RegisterEnv = RegisterEnv(failing: Option<FailedSend>, replies: nat -> RegisterReply)

  /**
   * What becomes of one future: a disconnect cancels it, it gives a reconnect event or a message,
   * or the user interrupts before it has given anything.
   */
  datatype Turn = Cancelled | Reconnected(registration: RegisterEnv) | Got(request: Request, env: Env) | Waited

  datatype Action =
    | Registering(requests: seq<RegisterRequest>)
    | Unregistering
    | Applied(handler: nat, id: Id)
    | Replied(response: Response)

  /** Accepted lets the loop go on; the others are what ends it. */
  datatype Ending = Accepted | VersionError | RuntimeFailure | TimeoutFailure | Escaped | Interrupted

  datatype Config = Config(handlers: seq<Handler>, feature: nat, style: Style)

  // ----- one message -----

  /** The response, if the link takes it; one the link does not take is dropped with a warning. */
  function Reply(response: Response, env: Env): seq<Action> {
    if env.sending == Delivered then [Replied(response)] else []
  }

  function HeaderOf(c: Config, r: Request): Header
    requires r.ProcessRequest?
  {
    if c.style == Raw then r.rawHeader else r.header
  }

  function Respond(handler: nat, id: Id, status: Status, env: Env): (seq<Action>, Ending) {
    ([Applied(handler, id)] + Reply(ProcessResponse(id, status), env),
     if env.sending == BrokenOff then Interrupted else Accepted)
  }

  function Process(c: Config, r: Request, env: Env): (seq<Action>, Ending) {
    if !r.ProcessRequest? || !env.ready then ([], Accepted)
    else
      match FindHandler(c.handlers, HeaderOf(c, r))
      case None => ([], Accepted)
      case Some(i) =>
        match env.applied(i)
        case Returned => Respond(i, r.id, OkStatus, env)
        case RaisedInvalid => Respond(i, r.id, InvalidStatus, env)
        case RaisedInternal => Respond(i, r.id, InternalStatus, env)
        case RaisedConnection => ([Applied(i, r.id)], Accepted)
        case RaisedAuthorization => Respond(i, r.id, InvalidStatus, env)
        case RaisedRuntime => ([Applied(i, r.id)], RuntimeFailure)
        case RaisedTimeout => ([Applied(i, r.id)], TimeoutFailure)
        case RaisedInterrupt => ([Applied(i, r.id)], Interrupted)
        case RaisedOther => ([Applied(i, r.id)], Escaped)
  }

  // ----- registration -----

  function CheckReplies(feature: nat, count: nat, env: RegisterEnv, i: nat): Ending
    requires i <= count
    decreases count - i
  {
    if i == count then Accepted
    else
      match env.replies(i)
      case NoReply => CheckReplies(feature, count, env, i + 1)
      case Interruption => Interrupted
      case RegisterReply(version, error) =>
        if version != feature then VersionError
        else if error then RuntimeFailure
        else CheckReplies(feature, count, env, i + 1)
  }

  function Register(c: Config, env: RegisterEnv): (seq<Action>, Ending) {
    var requests := RegisterRequests(c.handlers, c.feature, c.style);
    match env.failing
    case Some(FailedSend(i, interrupted)) =>
      if i < |requests| then ([Registering(requests[..i])], if interrupted then Interrupted else Escaped)
      else ([Registering(requests)], CheckReplies(c.feature, |requests|, env, 0))
    case None => ([Registering(requests)], CheckReplies(c.feature, |requests|, env, 0))
  }

  ghost predicate WrongVersion(feature: nat, reply: RegisterReply) {
    reply.RegisterReply? && reply.protocolVersion != feature
  }

  ghost predicate RefusedBy(feature: nat, reply: RegisterReply) {
    reply.RegisterReply? && reply.protocolVersion == feature && reply.error
  }

  ghost predicate Stops(feature: nat, reply: RegisterReply) {
    WrongVersion(feature, reply) || RefusedBy(feature, reply) || reply.Interruption?
  }

  ghost predicate NoneStopsBefore(feature: nat, env: RegisterEnv, k: nat) {
    forall j | 0 <= j < k :: !Stops(feature, env.replies(j))
  }

  ghost function RequestTotal(c: Config): nat {
    |RegisterRequests(c.handlers, c.feature, c.style)|
  }

  /** All requests of a registration get sent. */
  ghost predicate AllSent(c: Config, env: RegisterEnv) {
    env.failing.None? || env.failing.value.index >= RequestTotal(c)
  }

  lemma {:induction false} RepliesMeaning(feature: nat, count: nat, env: RegisterEnv, i: nat) returns (k: nat)
    requires i <= count && NoneStopsBefore(feature, env, i)
    ensures i <= k <= count && NoneStopsBefore(feature, env, k)
    ensures k < count ==> Stops(feature, env.replies(k))
    ensures CheckReplies(feature, count, env, i) ==
            if k == count then Accepted
            else if WrongVersion(feature, env.replies(k)) then VersionError
            else if RefusedBy(feature, env.replies(k)) then RuntimeFailure
            else Interrupted
    decreases count - i
  {
    if i == count || Stops(feature, env.replies(i)) {
      k := i;
    } else {
      k := RepliesMeaning(feature, count, env, i + 1);
    }
  }

  /**
   * A registration is accepted exactly if all its requests are sent and no reply that comes
   * objects. Otherwise the first request not sent decides how it fails or, if there is none, the
   * first reply that stops it.
   */
  lemma RegistrationMeaning(c: Config, env: RegisterEnv) returns (k: nat)
    ensures k <= RequestTotal(c) && NoneStopsBefore(c.feature, env, k)
    ensures k < RequestTotal(c) ==> Stops(c.feature, env.replies(k))
    ensures var ending := Register(c, env).1;
            if AllSent(c, env) then
              && (ending == Accepted <==> k == RequestTotal(c))
              && (ending == VersionError <==> k < RequestTotal(c) && WrongVersion(c.feature, env.replies(k)))
              && (ending == RuntimeFailure <==> k < RequestTotal(c) && RefusedBy(c.feature, env.replies(k)))
              && (ending == Interrupted <==> k < RequestTotal(c) && env.replies(k).Interruption?)
            else ending == if env.failing.value.interrupted then Interrupted else Escaped
    ensures var requests := RegisterRequests(c.handlers, c.feature, c.style);
            Register(c, env).0
            == [Registering(if AllSent(c, env) then requests else requests[..env.failing.value.index])]
  {
    k := RepliesMeaning(c.feature, RequestTotal(c), env, 0);
  }

  ghost predicate Accepts(c: Config, env: RegisterEnv) {
    AllSent(c, env) && NoneStopsBefore(c.feature, env, RequestTotal(c))
  }

  ghost predicate FailsToSend(c: Config, env: RegisterEnv) {
    !AllSent(c, env) && !env.failing.value.interrupted
  }

  /** The first reply to stop the registration is an error. */
  ghost predicate IsRefused(c: Config, env: RegisterEnv) {
    AllSent(c, env) && exists k | 0 <= k < RequestTotal(c) ::
      NoneStopsBefore(c.feature, env, k) && RefusedBy(c.feature, env.replies(k))
  }

  /** The user interrupts a send, or the first reply to stop it is a wrong version or an interrupt. */
  ghost predicate IsLeft(c: Config, env: RegisterEnv) {
    if !AllSent(c, env) then env.failing.value.interrupted
    else
      exists k | 0 <= k < RequestTotal(c) ::
        && NoneStopsBefore(c.feature, env, k)
        && (WrongVersion(c.feature, env.replies(k)) || env.replies(k).Interruption?)
  }

  lemma RegistrationEnds(c: Config, env: RegisterEnv)
    ensures var ending := Register(c, env).1;
            && (ending == Accepted <==> Accepts(c, env))
            && (ending == Escaped <==> FailsToSend(c, env))
            && (ending == RuntimeFailure <==> IsRefused(c, env))
            && (ending == VersionError || ending == Interrupted <==> IsLeft(c, env))
            && ending != TimeoutFailure
  {
    var k := RegistrationMeaning(c, env);
    forall j | 0 <= j < RequestTotal(c) && NoneStopsBefore(c.feature, env, j) && Stops(c.feature, env.replies(j))
      ensures j == k
    {
      assert !(j < k) && !(k < j);
    }
  }

  // ----- one turn of either loop -----

  function HandleTurn(c: Config, turn: Turn, draining: bool): (seq<Action>, Ending) {
    match turn
    case Cancelled => ([], Accepted)
    case Reconnected(env) => if draining then ([], Accepted) else Register(c, env)
    case Got(r, env) =>
      if r.Ping? then
        match env.sending
        case Delivered => ([Replied(Pong(r.id))], Accepted)
        case LinkDown => ([], Escaped)
        case BrokenOff => ([], Interrupted)
      else Process(c, r, env)
    case Waited => ([], Interrupted)
  }

  /**
   * What a request with this routing header does: exactly one apply, if the link is ready and some
   * registration request asks for the header, of the earliest handler that matches it.
   */
  ghost predicate RoutedBy(c: Config, id: Id, env: Env, header: Header, actions: seq<Action>) {
    && (actions != [] <==>
          && env.ready
          && exists q | q in RegisterRequests(c.handlers, c.feature, c.style) :: Asks(q, header))
    && (actions != [] ==>
          && actions[0].Applied? && actions[0].id == id
          && var i := actions[0].handler;
             && i < |c.handlers|
             && c.handlers[i].family == header.family && header.version in c.handlers[i].versions
             && forall j | 0 <= j < i ::
                  c.handlers[j].family != header.family || header.version !in c.handlers[j].versions)
    && forall k | 1 <= k < |actions| :: !actions[k].Applied?
  }

  lemma ProcessRouted(c: Config, r: Request, env: Env, header: Header)
    requires r.ProcessRequest? && HeaderOf(c, r) == header
    ensures RoutedBy(c, r.id, env, header, Process(c, r, env).0)
  {
    RoutedIffRegistered(c.handlers, header, c.feature, c.style);
    var handler, actions := FindHandler(c.handlers, header), Process(c, r, env).0;
    if env.ready && handler.Some? {
      assert actions[0] == Applied(handler.value, r.id);
    }
  }

  /**
   * Unless raw headers were asked for, a request is routed by its header and the raw one does not
   * matter; if they were, it is routed by the raw one and the header does not matter.
   */
  lemma RoutedByHeader(c: Config, id: Id, header: Header, rawHeader: Header, other: Header, env: Env, draining: bool)
    ensures c.style != Raw ==>
              var done := HandleTurn(c, Got(ProcessRequest(id, header, rawHeader), env), draining);
              && RoutedBy(c, id, env, header, done.0)
              && done == HandleTurn(c, Got(ProcessRequest(id, header, other), env), draining)
    ensures c.style == Raw ==>
              var done := HandleTurn(c, Got(ProcessRequest(id, header, rawHeader), env), draining);
              && RoutedBy(c, id, env, rawHeader, done.0)
              && done == HandleTurn(c, Got(ProcessRequest(id, other, rawHeader), env), draining)
  {
    ProcessRouted(c, ProcessRequest(id, header, rawHeader), env, if c.style == Raw then rawHeader else header);
  }

  type TurnHandler = Turn -> (seq<Action>, Ending)

  function HandlerOf(c: Config, draining: bool): TurnHandler {
    turn => HandleTurn(c, turn, draining)
  }

  /** A loop over turns, until one ends it: the actions, how it ended, how many turns were handled in full. */
  function LoopWith(handle: TurnHandler, turns: seq<Turn>): (seq<Action>, Ending, nat) {
    if turns == [] then ([], Accepted, 0)
    else
      var (before, ending, n) := LoopWith(handle, turns[..|turns| - 1]);
      if ending != Accepted then (before, ending, n)
      else
        var (actions, last) := handle(turns[|turns| - 1]);
        (before + actions, last, if last == Accepted then n + 1 else n)
  }

  function Loop(c: Config, turns: seq<Turn>, draining: bool): (seq<Action>, Ending, nat) {
    LoopWith(HandlerOf(c, draining), turns)
  }

  // ----- the whole of `start` -----

  /**
   * How the unregister request at the end of `start` goes: answered or broken off by the link,
   * not answered in time, not sent, or interrupted by the user while it waits for its answer.
   */
  datatype UnregisterEnv = Settled | TimedOut | NotSent | GivenUp

  /**
   * Exited: `start` returns. Stopped: it closes the stream and returns. Crashed: an exception
   * escapes. Spins: it goes round an empty loop until the user interrupts it once more.
   */
  datatype StartEnd = Exited | Stopped | Crashed | Spins

  /**
   * The drain looks at the last future of the main loop once more, with its message if it had
   * given one; a future interrupted before it gave anything is taken up by `later`.
   */
  function Retaken(last: Turn, again: Env): seq<Turn> {
    match last
    case Got(r, _) => [Got(r, again)]
    case Waited => []
    case _ => [last]
  }

  /** The last turn the main loop began, if it handled `handled` turns in full. */
  function LastBegun(turns: seq<Turn>, handled: nat): Turn
    requires turns != []
  {
    turns[if handled < |turns| then handled else |turns| - 1]
  }

  /**
   * `start` up to what ends its main block: the first registration, and then the main loop over
   * `turns`, until one ends it or, when they are used up, the user interrupts it before it
   * receives another future. With no turns at all that is before the first. Also gives the last
   * future received, if there was one.
   */
  function MainBlock(c: Config, first: RegisterEnv, turns: seq<Turn>): (seq<Action>, Ending, Option<Turn>) {
    var (registered, ending) := Register(c, first);
    if ending != Accepted then (registered, ending, None)
    else
      var (handled, stop, n) := Loop(c, turns, false);
      (registered + handled, stop, if turns == [] then None else Some(LastBegun(turns, n)))
  }

  /** After an interrupt or a version error; the drain is over when a future gives nothing for a second. */
  function Close(c: Config, unregister: UnregisterEnv, last: Option<Turn>, again: Env, later: seq<Turn>):
    (seq<Action>, StartEnd)
  {
    match unregister
    case NotSent => ([], Crashed)
    case GivenUp => ([Unregistering], Crashed)
    case TimedOut => ([Unregistering], Exited)
    case Settled =>
      if last.None? then ([Unregistering], Spins)
      else
        var (drained, ending, _) := Loop(c, Retaken(last.value, again) + later, true);
        ([Unregistering] + drained, if ending == Accepted || ending == TimeoutFailure then Exited else Crashed)
  }

  /** How `start` goes on when its main block has ended. */
  function Finish(c: Config, ending: Ending, unregister: UnregisterEnv, last: Option<Turn>, again: Env,
                  later: seq<Turn>): (seq<Action>, StartEnd)
  {
    match ending
    case Escaped => ([], Crashed)
    case TimeoutFailure => ([], Crashed)
    case RuntimeFailure => ([], Stopped)
    case _ => Close(c, unregister, last, again, later)
  }

  /**
   * `start`. In its drain `again` is how the last message fares when it is processed once more,
   * and `later` are the futures after it.
   */
  function Start(c: Config, first: RegisterEnv, turns: seq<Turn>, unregister: UnregisterEnv,
                 again: Env, later: seq<Turn>): (seq<Action>, StartEnd)
  {
    var (main, ending, last) := MainBlock(c, first, turns);
    var (closing, end) := Finish(c, ending, unregister, last, again, later);
    (main + closing, end)
  }

  /** Turns after the one that ended the loop are not handled. */
  lemma {:induction false} LoopStops(handle: TurnHandler, turns: seq<Turn>, k: nat)
    requires k <= |turns| && LoopWith(handle, turns[..k]).1 != Accepted
    ensures LoopWith(handle, turns) == LoopWith(handle, turns[..k])
    decreases |turns| - k
  {
    if k < |turns| {
      assert turns[..k + 1][..k] == turns[..k];
      LoopStops(handle, turns, k + 1);
    } else {
      assert turns[..k] == turns;
    }
  }

  /** A loop that ended early handled fewer turns than it was given. */
  lemma {:induction false} LoopStopped(handle: TurnHandler, turns: seq<Turn>)
    ensures var (_, ending, n) := LoopWith(handle, turns);
            n <= |turns| && (ending != Accepted <==> n < |turns|)
    decreases |turns|
  {
    if turns != [] {
      LoopStopped(handle, turns[..|turns| - 1]);
    }
  }

  /** The loop handles the first k turns in full, and these are its actions. */
  ghost predicate GotThrough(handle: TurnHandler, turns: seq<Turn>, k: nat, done: seq<Action>)
    requires k <= |turns|
  {
    LoopWith(handle, turns[..k]) == (done, Accepted, k)
  }

  /** Turn k is then either handled in full as well, or the one that ends the loop. */
  lemma LoopOneMore(handle: TurnHandler, turns: seq<Turn>, k: nat, done: seq<Action>)
    requires k < |turns| && GotThrough(handle, turns, k, done)
    ensures var (actions, ending) := handle(turns[k]);
            if ending == Accepted then GotThrough(handle, turns, k + 1, done + actions)
            else LoopWith(handle, turns) == (done + actions, ending, k)
  {
    assert turns[..k + 1][..k] == turns[..k];
    if handle(turns[k]).1 != Accepted {
      LoopStops(handle, turns, k + 1);
    }
  }

  class TransactionProcessor {
    var handlers: seq<Handler>
    var highestFeature: nat
    var headerStyle: Style
    var actions: seq<Action>

    constructor ()
      ensures Settings() == Config([], 0, Unset) && actions == []
    {
      handlers, highestFeature, headerStyle, actions := [], 0, Unset, [];
    }

    ghost function Settings(): Config
      reads this
    {
      Config(handlers, highestFeature, headerStyle)
    }

    method AddHandler(handler: Handler)
      modifies this`handlers
      ensures handlers == old(handlers) + [handler]
    {
      handlers := handlers + [handler];
    }

    /** Asking for a style also asks for the feature version that has styles. */
    method SetHeaderStyle(style: Style)
      modifies this`highestFeature, this`headerStyle
      ensures headerStyle == style
      ensures highestFeature == if old(highestFeature) == 0 then 1 else old(highestFeature)
    {
      if 1 > highestFeature {
        highestFeature := 1;
      }
      headerStyle := style;
    }

    /** A response that the link does not take is dropped; an interrupt is passed on. */
    method SendBack(response: Response, env: Env) returns (ending: Ending)
      modifies this`actions
      ensures actions == old(actions) + Reply(response, env)
      ensures ending == if env.sending == BrokenOff then Interrupted else Accepted
    {
      ending := Accepted;
      match env.sending {
        case Delivered =>
          actions := actions + [Replied(response)];
        case LinkDown =>
        case BrokenOff =>
          ending := Interrupted;
      }
    }

    method ProcessMessage(r: Request, env: Env) returns (ending: Ending)
      modifies this`actions
      ensures actions == old(actions) + Process(Settings(), r, env).0
      ensures ending == Process(Settings(), r, env).1
    {
      ending := Accepted;
      if !r.ProcessRequest? || !env.ready {
        return;
      }
      var header := if headerStyle == Raw then r.rawHeader else r.header;
      var handler := FindHandler(handlers, header);
      if handler.None? {
        return;
      }
      actions := actions + [Applied(handler.value, r.id)];
      match env.applied(handler.value) {
        case Returned =>
          ending := SendBack(ProcessResponse(r.id, OkStatus), env);
        case RaisedInvalid =>
          ending := SendBack(ProcessResponse(r.id, InvalidStatus), env);
        case RaisedInternal =>
          ending := SendBack(ProcessResponse(r.id, InternalStatus), env);
        case RaisedConnection =>
        case RaisedAuthorization =>
          ending := SendBack(ProcessResponse(r.id, InvalidStatus), env);
        case RaisedRuntime =>
          ending := RuntimeFailure;
        case RaisedTimeout =>
          ending := TimeoutFailure;
        case RaisedInterrupt =>
          ending := Interrupted;
        case RaisedOther =>
          ending := Escaped;
      }
    }

    method RegisterAll(env: RegisterEnv) returns (ending: Ending)
      modifies this`actions
      ensures actions == old(actions) + Register(Settings(), env).0
      ensures ending == Register(Settings(), env).1
    {
      var requests := RegisterRequests(handlers, highestFeature, headerStyle);
      var sent := [];
      for i := 0 to |requests|
        invariant sent == requests[..i]
        invariant env.failing.Some? ==> env.failing.value.index >= i
      {
        if env.failing.Some? && env.failing.value.index == i {
          actions := actions + [Registering(sent)];
          return if env.failing.value.interrupted then Interrupted else Escaped;
        }
        sent := sent + [requests[i]];
      }
      assert sent == requests;
      actions := actions + [Registering(sent)];
      for i := 0 to |requests|
        invariant actions == old(actions) + [Registering(requests)]
        invariant CheckReplies(highestFeature, |requests|, env, 0) == CheckReplies(highestFeature, |requests|, env, i)
      {
        match env.replies(i) {
          case NoReply =>
          case Interruption =>
            return Interrupted;
          case RegisterReply(version, error) =>
            if version != highestFeature {
              return VersionError;
            }
            if error {
              return RuntimeFailure;
            }
        }
      }
      ending := Accepted;
    }

    method ProcessFuture(turn: Turn, draining: bool) returns (ending: Ending)
      modifies this`actions
      ensures actions == old(actions) + HandleTurn(Settings(), turn, draining).0
      ensures ending == HandleTurn(Settings(), turn, draining).1
    {
      ending := Accepted;
      match turn {
        case Cancelled =>
        case Reconnected(env) =>
          if !draining {
            ending := RegisterAll(env);
          }
        case Got(r, env) =>
          if r.Ping? {
            ending := SendBack(Pong(r.id), env);
            return if env.sending == LinkDown then Escaped else ending;
          }
          ending := ProcessMessage(r, env);
        case Waited =>
          ending := Interrupted;
      }
    }

    /** The main loop of `start` over the items it receives, or the drain at its end. */
    method ProcessAll(turns: seq<Turn>, draining: bool) returns (ending: Ending, handled: nat)
      modifies this`actions
      ensures var (done, end, n) := Loop(Settings(), turns, draining);
              actions == old(actions) + done && ending == end && handled == n
    {
      ghost var c := Settings();
      ghost var handle, done := HandlerOf(c, draining), [];
      ending, handled := Accepted, 0;
      while handled < |turns|
        invariant handled <= |turns| && ending == Accepted && Settings() == c
        invariant GotThrough(handle, turns, handled, done)
        invariant actions == old(actions) + done
      {
        LoopOneMore(handle, turns, handled, done);
        done := done + HandleTurn(c, turns[handled], draining).0;
        ending := ProcessFuture(turns[handled], draining);
        if ending != Accepted {
          return;
        }
        handled := handled + 1;
      }
      assert turns[..handled] == turns;
    }

    /** What `start` does after an interrupt or a version error. */
    method CloseDown(unregister: UnregisterEnv, last: Option<Turn>, again: Env, later: seq<Turn>)
      returns (end: StartEnd)
      modifies this`actions
      ensures actions == old(actions) + Close(Settings(), unregister, last, again, later).0
      ensures end == Close(Settings(), unregister, last, again, later).1
    {
      if unregister == NotSent {
        return Crashed;
      }
      actions := actions + [Unregistering];
      if unregister == GivenUp {
        return Crashed;
      }
      if unregister == TimedOut {
        return Exited;
      }
      if last.None? {
        return Spins;
      }
      var ending, handled := ProcessAll(Retaken(last.value, again) + later, true);
      end := if ending == Accepted || ending == TimeoutFailure then Exited else Crashed;
    }

    method RunMain(first: RegisterEnv, turns: seq<Turn>) returns (ending: Ending, last: Option<Turn>)
      modifies this`actions
      ensures var (main, end, future) := MainBlock(Settings(), first, turns);
              actions == old(actions) + main && ending == end && last == future
    {
      last := None;
      ending := RegisterAll(first);
      if ending == Accepted {
        var handled;
        ending, handled := ProcessAll(turns, false);
        if turns != [] {
          last := Some(LastBegun(turns, handled));
        }
      }
    }

    method FinishAll(ending: Ending, unregister: UnregisterEnv, last: Option<Turn>, again: Env, later: seq<Turn>)
      returns (end: StartEnd)
      modifies this`actions
      ensures actions == old(actions) + Finish(Settings(), ending, unregister, last, again, later).0
      ensures end == Finish(Settings(), ending, unregister, last, again, later).1
    {
      match ending {
        case Escaped =>
          end := Crashed;
        case TimeoutFailure =>
          end := Crashed;
        case RuntimeFailure =>
          end := Stopped;
        case _ =>
          end := CloseDown(unregister, last, again, later);
      }
    }

    method StartAll(first: RegisterEnv, turns: seq<Turn>, unregister: UnregisterEnv,
                    again: Env, later: seq<Turn>) returns (end: StartEnd)
      modifies this`actions
      ensures actions == old(actions) + Start(Settings(), first, turns, unregister, again, later).0
      ensures end == Start(Settings(), first, turns, unregister, again, later).1
    {
      var ending, last := RunMain(first, turns);
      end := FinishAll(ending, unregister, last, again, later);
    }
  }

  /** The user's interrupt, or a version error, leaves the main block of `start` before it has received a future. */
  ghost predicate LeftBeforeReceiving(c: Config, first: RegisterEnv, turns: seq<Turn>) {
    IsLeft(c, first) || (Accepts(c, first) && turns == [])
  }

  /**
   * `start` never returns by itself exactly when the unregister request settles and the main
   * block was left before the first future was received: by an interrupt of the first
   * registration's sends, by a wrong version or an interrupt where its replies are awaited, or by
   * an interrupt right after it. The drain then has no future to look at.
   */
  lemma StartSpins(c: Config, first: RegisterEnv, turns: seq<Turn>, unregister: UnregisterEnv,
                   again: Env, later: seq<Turn>)
    ensures Start(c, first, turns, unregister, again, later).1 == Spins
       <==> unregister == Settled && LeftBeforeReceiving(c, first, turns)
  {
    RegistrationEnds(c, first);
  }

  /** One handler with one version, and what an undisturbed environment does. */
  const ONE_HANDLER := Config([Handler("xo", ["1.0"], [])], 0, Unset)

  const UNDISTURBED := Env(true, _ => Returned, Delivered)

  function Registration(reply: RegisterReply): RegisterEnv {
    RegisterEnv(None, _ => reply)
  }

  lemma OneRequest()
    ensures RequestTotal(ONE_HANDLER) == 1
  {
    var h := ONE_HANDLER.handlers[0];
    assert ONE_HANDLER.handlers == [h] && |RequestsFor(h, 0, Unset)| == 1;
    assert RegisterRequests(ONE_HANDLER.handlers[1..], 0, Unset) == [];
  }

  /** An interrupt while the first registration waits for its reply, or right after it, is enough. */
  lemma SpinsOnEarlyInterrupt()
    ensures Start(ONE_HANDLER, Registration(Interruption), [], Settled, UNDISTURBED, []).1 == Spins
    ensures Start(ONE_HANDLER, Registration(RegisterReply(0, false)), [], Settled, UNDISTURBED, []).1 == Spins
  {
    OneRequest();
    var waiting, done := Registration(Interruption), Registration(RegisterReply(0, false));
    assert NoneStopsBefore(0, waiting, 0) && waiting.replies(0).Interruption?;
    assert NoneStopsBefore(0, done, 1);
    StartSpins(ONE_HANDLER, waiting, [], Settled, UNDISTURBED, []);
    StartSpins(ONE_HANDLER, done, [], Settled, UNDISTURBED, []);
  }
}
