/** How the processor's loops and `start` end, by what their environment does. */
module Endings {
  import opened Common
  import opened Routing
  import opened Processing

  // ----- one turn -----

  /** How apply ends, if the link is ready and a handler matches. */
  ghost function AppliedEnd(c: Config, r: Request, env: Env): Option<ApplyEnd>
    requires r.ProcessRequest?
  {
    var handler := FindHandler(c.handlers, HeaderOf(c, r));
    if env.ready && handler.Some? then Some(env.applied(handler.value)) else None
  }

  /** The four ends of apply that the processor responds to. */
  ghost predicate IsAnswered(end: ApplyEnd) {
    end.Returned? || end.RaisedInvalid? || end.RaisedInternal? || end.RaisedAuthorization?
  }

  ghost predicate AppliedTo(c: Config, turn: Turn, end: ApplyEnd) {
    turn.Got? && turn.request.ProcessRequest? && AppliedEnd(c, turn.request, turn.env) == Some(end)
  }

  /** The loop goes on after this turn. */
  ghost predicate GoesOn(c: Config, turn: Turn, draining: bool) {
    match turn
    case Cancelled => true
    case Waited => false
    case Reconnected(env) => draining || Accepts(c, env)
    case Got(r, env) =>
      match r
      case Ping(_) => env.sending == Delivered
      case OtherRequest(_) => true
      case ProcessRequest(_, _, _) =>
        var end := AppliedEnd(c, r, env);
        end.Some? ==> end.value.RaisedConnection? || (IsAnswered(end.value) && env.sending != BrokenOff)
  }

  /** A request of apply, or a wait in it, runs out of time. */
  ghost predicate TimesOut(c: Config, turn: Turn) {
    AppliedTo(c, turn, RaisedTimeout)
  }

  /** The link is down where nothing provides for it, or apply raises what nothing catches. */
  ghost predicate Escapes(c: Config, turn: Turn, draining: bool) {
    || (turn.Reconnected? && !draining && FailsToSend(c, turn.registration))
    || (turn.Got? && turn.request.Ping? && turn.env.sending == LinkDown)
    || AppliedTo(c, turn, RaisedOther)
  }

  /** A registration is refused, or apply raises a RuntimeError. */
  ghost predicate Fails(c: Config, turn: Turn, draining: bool) {
    || (turn.Reconnected? && !draining && IsRefused(c, turn.registration))
    || AppliedTo(c, turn, RaisedRuntime)
  }

  /** The user interrupts this turn, or a registration meets a wrong version. */
  ghost predicate Leaves(c: Config, turn: Turn, draining: bool) {
    || turn.Waited?
    || (turn.Reconnected? && !draining && IsLeft(c, turn.registration))
    || (turn.Got? && turn.request.Ping? && turn.env.sending == BrokenOff)
    || AppliedTo(c, turn, RaisedInterrupt)
    || (turn.Got? && turn.env.sending == BrokenOff && exists end :: IsAnswered(end) && AppliedTo(c, turn, end))
  }

  lemma TurnEnds(c: Config, turn: Turn, draining: bool)
    ensures var ending := HandleTurn(c, turn, draining).1;
            && (ending == Accepted <==> GoesOn(c, turn, draining))
            && (ending == TimeoutFailure <==> TimesOut(c, turn))
            && (ending == Escaped <==> Escapes(c, turn, draining))
            && (ending == RuntimeFailure <==> Fails(c, turn, draining))
            && (ending == VersionError || ending == Interrupted <==> Leaves(c, turn, draining))
  {
    match turn {
      case Cancelled =>
      case Waited =>
      case Reconnected(env) => RegistrationEnds(c, env);
      case Got(r, env) =>
        if r.ProcessRequest? && AppliedEnd(c, r, env).Some? {
          var end := AppliedEnd(c, r, env).value;
          assert AppliedTo(c, turn, end);
        }
    }
  }

  // ----- a loop -----

  /** The first turn that does not let the loop go on, or their number if there is none. */
  ghost function FirstEnding(c: Config, turns: seq<Turn>, draining: bool): (k: nat)
    ensures k <= |turns|
    ensures forall j | 0 <= j < k :: GoesOn(c, turns[j], draining)
    ensures k < |turns| ==> !GoesOn(c, turns[k], draining)
  {
    if turns == [] || !GoesOn(c, turns[0], draining) then 0 else 1 + FirstEnding(c, turns[1..], draining)
  }

  lemma {:induction false} LoopOverGood(c: Config, turns: seq<Turn>, draining: bool)
    requires forall k | 0 <= k < |turns| :: GoesOn(c, turns[k], draining)
    ensures Loop(c, turns, draining).1 == Accepted && Loop(c, turns, draining).2 == |turns|
    decreases |turns|
  {
    if turns != [] {
      var before := turns[..|turns| - 1];
      assert forall k | 0 <= k < |before| :: before[k] == turns[k];
      LoopOverGood(c, before, draining);
      TurnEnds(c, turns[|turns| - 1], draining);
    }
  }

  /** A loop ends as the first turn that does not let it go on ends, having handled all before it. */
  lemma LoopEnds(c: Config, turns: seq<Turn>, draining: bool)
    ensures var (_, ending, n) := Loop(c, turns, draining);
            var k := FirstEnding(c, turns, draining);
            && n == k
            && ending == (if k < |turns| then HandleTurn(c, turns[k], draining).1 else Accepted)
            && (ending == Accepted <==> k == |turns|)
  {
    var k := FirstEnding(c, turns, draining);
    LoopOverGood(c, turns[..k], draining);
    if k < |turns| {
      TurnEnds(c, turns[k], draining);
      assert turns[..k + 1][..k] == turns[..k];
      LoopStops(HandlerOf(c, draining), turns, k + 1);
    } else {
      assert turns[..k] == turns;
    }
  }

  /** A loop gets through exactly those turns each of which lets it go on. */
  lemma LoopGoesOn(c: Config, turns: seq<Turn>, draining: bool)
    ensures Loop(c, turns, draining).1 == Accepted <==> forall k | 0 <= k < |turns| :: GoesOn(c, turns[k], draining)
  {
    LoopEnds(c, turns, draining);
  }

  // ----- the whole of `start` -----

  /** The turn that ends the main loop, if the first registration is accepted and one does. */
  ghost function EndingTurn(c: Config, first: RegisterEnv, turns: seq<Turn>): Option<Turn> {
    var k := FirstEnding(c, turns, false);
    if Accepts(c, first) && k < |turns| then Some(turns[k]) else None
  }

  /** An exception that `start` does not catch leaves its main block. */
  ghost predicate MainCrashes(c: Config, first: RegisterEnv, turns: seq<Turn>) {
    var last := EndingTurn(c, first, turns);
    FailsToSend(c, first) || (last.Some? && (TimesOut(c, last.value) || Escapes(c, last.value, false)))
  }

  /** A RuntimeError leaves the main block. */
  ghost predicate MainStops(c: Config, first: RegisterEnv, turns: seq<Turn>) {
    var last := EndingTurn(c, first, turns);
    IsRefused(c, first) || (last.Some? && Fails(c, last.value, false))
  }

  /** The user's interrupt or a version error leaves the main block, in a turn or between turns. */
  ghost predicate MainIsLeft(c: Config, first: RegisterEnv, turns: seq<Turn>) {
    var last := EndingTurn(c, first, turns);
    IsLeft(c, first) || (Accepts(c, first) && (last.Some? ==> Leaves(c, last.value, false)))
  }

  /** Something other than a time-out ends the drain over these turns before they are used up. */
  ghost predicate DrainCrashes(c: Config, drain: seq<Turn>) {
    var k := FirstEnding(c, drain, true);
    k < |drain| && !TimesOut(c, drain[k])
  }

  /**
   * What the drain goes over: the turn that ended the main loop, or its last, once more, and the
   * later ones. A message is there again; a future that had given nothing yet is the first of the
   * later ones.
   */
  ghost function DrainTurns(c: Config, turns: seq<Turn>, again: Env, later: seq<Turn>): seq<Turn>
    requires turns != []
  {
    var k := FirstEnding(c, turns, false);
    match (if k == |turns| then turns[k - 1] else turns[k])
    case Cancelled => [Cancelled] + later
    case Reconnected(env) => [Reconnected(env)] + later
    case Got(r, _) => [Got(r, again)] + later
    case Waited => later
  }

  lemma DrainIsRetaken(c: Config, turns: seq<Turn>, again: Env, later: seq<Turn>)
    requires turns != []
    ensures DrainTurns(c, turns, again, later)
         == Retaken(LastBegun(turns, FirstEnding(c, turns, false)), again) + later
  {
    assert [] + later == later;
  }

  lemma MainEnds(c: Config, first: RegisterEnv, turns: seq<Turn>)
    ensures var (_, ending, last) := MainBlock(c, first, turns);
            && (ending == Escaped || ending == TimeoutFailure <==> MainCrashes(c, first, turns))
            && (ending == RuntimeFailure <==> MainStops(c, first, turns))
            && (ending == Accepted || ending == VersionError || ending == Interrupted <==> MainIsLeft(c, first, turns))
            && last == (if Accepts(c, first) && turns != [] then
                          Some(LastBegun(turns, FirstEnding(c, turns, false)))
                        else None)
  {
    RegistrationEnds(c, first);
    LoopEnds(c, turns, false);
    var k := FirstEnding(c, turns, false);
    if k < |turns| {
      TurnEnds(c, turns[k], false);
    }
  }

  /**
   * How `start` ends, whatever its environment does. It crashes exactly when an exception nothing
   * catches leaves its main block (a request of apply timed out, the link was down under a ping or
   * a registration, another exception of apply), or when, after an interrupt or a version error, it
   * cannot unregister or its drain fails in any way but a time-out. It stops exactly when a
   * RuntimeError leaves its main block. Otherwise it spins or exits.
   */
  lemma StartEnds(c: Config, first: RegisterEnv, turns: seq<Turn>, unregister: UnregisterEnv,
                  again: Env, later: seq<Turn>)
    ensures var end := Start(c, first, turns, unregister, again, later).1;
            var left := MainIsLeft(c, first, turns);
            var drains := left && unregister == Settled && Accepts(c, first) && turns != [];
            && (end == Stopped <==> MainStops(c, first, turns))
            && (end == Crashed <==>
                  || MainCrashes(c, first, turns)
                  || (left && (unregister == NotSent || unregister == GivenUp))
                  || (drains && DrainCrashes(c, DrainTurns(c, turns, again, later))))
            && (end == Exited <==>
                  || (left && unregister == TimedOut)
                  || (drains && !DrainCrashes(c, DrainTurns(c, turns, again, later))))
            && (end == Spins <==> unregister == Settled && LeftBeforeReceiving(c, first, turns))
  {
    MainEnds(c, first, turns);
    StartSpins(c, first, turns, unregister, again, later);
    if turns != [] {
      var drain := DrainTurns(c, turns, again, later);
      DrainIsRetaken(c, turns, again, later);
      LoopEnds(c, drain, true);
      var k := FirstEnding(c, drain, true);
      if k < |drain| {
        TurnEnds(c, drain[k], true);
      }
    }
  }

  // ----- what it tells the validator about itself -----

  lemma TurnTells(c: Config, turn: Turn, draining: bool)
    ensures forall a | a in HandleTurn(c, turn, draining).0 :: !a.Unregistering? && (draining ==> !a.Registering?)
  {
  }

  lemma {:induction false} LoopTells(c: Config, turns: seq<Turn>, draining: bool)
    ensures forall a | a in Loop(c, turns, draining).0 :: !a.Unregistering? && (draining ==> !a.Registering?)
    decreases |turns|
  {
    if turns != [] {
      LoopTells(c, turns[..|turns| - 1], draining);
      TurnTells(c, turns[|turns| - 1], draining);
    }
  }

  /** The main block starts by registering and never unregisters. */
  lemma MainTells(c: Config, first: RegisterEnv, turns: seq<Turn>)
    ensures var main := MainBlock(c, first, turns).0;
            && main != [] && main[0].Registering?
            && forall a | a in main :: !a.Unregistering?
  {
    LoopTells(c, turns, false);
  }

  /**
   * `start` sends one unregister request, after everything its main block does and before its drain,
   * exactly when it is left by an interrupt or a version error and the link lets it; in the drain
   * it registers nothing.
   */
  lemma StartTells(c: Config, first: RegisterEnv, turns: seq<Turn>, unregister: UnregisterEnv,
                   again: Env, later: seq<Turn>)
    ensures var actions, main := Start(c, first, turns, unregister, again, later).0, MainBlock(c, first, turns).0;
            var left := MainIsLeft(c, first, turns);
            var drained := if left && unregister == Settled && Accepts(c, first) && turns != [] then
                             Loop(c, DrainTurns(c, turns, again, later), true).0
                           else [];
            && actions == main + (if left && unregister != NotSent then [Unregistering] else []) + drained
            && main != [] && main[0].Registering?
            && (forall a | a in main :: !a.Unregistering?)
            && (forall a | a in drained :: !a.Unregistering? && !a.Registering?)
  {
    MainEnds(c, first, turns);
    MainTells(c, first, turns);
    var (main, ending, last) := MainBlock(c, first, turns);
    assert main + [] == main;
    if turns != [] {
      DrainIsRetaken(c, turns, again, later);
      LoopTells(c, DrainTurns(c, turns, again, later), true);
    }
  }

  // ----- inputs that end it -----

  lemma OneTurnEnds(turn: Turn, unregister: UnregisterEnv, again: Env, later: seq<Turn>)
    requires Escapes(ONE_HANDLER, turn, false) || TimesOut(ONE_HANDLER, turn)
    ensures Start(ONE_HANDLER, Registration(RegisterReply(0, false)), [turn], unregister, again, later).1 == Crashed
  {
    var first := Registration(RegisterReply(0, false));
    OneRequest();
    TurnEnds(ONE_HANDLER, turn, false);
    assert Accepts(ONE_HANDLER, first);
    assert FirstEnding(ONE_HANDLER, [turn], false) == 0;
    StartEnds(ONE_HANDLER, first, [turn], unregister, again, later);
  }

  /**
   * One turn is enough to end the process: a state request of apply that is not answered in time,
   * a ping while the link is down, and a link that is down again when all handlers re-register.
   */
  lemma CrashingTurns(unregister: UnregisterEnv, again: Env, later: seq<Turn>)
    ensures var (h, first) := (Header("xo", "1.0"), Registration(RegisterReply(0, false)));
            var slow := Got(ProcessRequest("r", h, h), Env(true, _ => RaisedTimeout, Delivered));
            var pinged := Got(Ping("r"), Env(true, _ => Returned, LinkDown));
            var cut := Reconnected(RegisterEnv(Some(FailedSend(0, false)), _ => NoReply));
            forall turn | turn in [slow, pinged, cut] ::
              Start(ONE_HANDLER, first, [turn], unregister, again, later).1 == Crashed
  {
    var h := Header("xo", "1.0");
    var slow := Got(ProcessRequest("r", h, h), Env(true, _ => RaisedTimeout, Delivered));
    var pinged := Got(Ping("r"), Env(true, _ => Returned, LinkDown));
    var cut := Reconnected(RegisterEnv(Some(FailedSend(0, false)), _ => NoReply));
    OneRequest();
    assert Matches(ONE_HANDLER.handlers[0], h);
    OneTurnEnds(slow, unregister, again, later);
    OneTurnEnds(pinged, unregister, again, later);
    OneTurnEnds(cut, unregister, again, later);
  }
}
