/** What the validator is told: the responses of the processor's loops and of `start`. */
module Responses {
  import opened Common
  import opened Messaging
  import opened Routing
  import opened Processing
  import opened Endings

  ghost function RepliesIn(actions: seq<Action>): seq<Response> {
    if actions == [] then []
    else
      var k := |actions| - 1;
      RepliesIn(actions[..k]) + (if actions[k].Replied? then [actions[k].response] else [])
  }

  lemma {:induction false} RepliesAppend(a: seq<Action>, b: seq<Action>)
    ensures RepliesIn(a + b) == RepliesIn(a) + RepliesIn(b)
  {
    if b == [] {
      assert a + b == a;
    } else {
      var k := |b| - 1;
      RepliesAppend(a, b[..k]);
      assert (a + b)[..|a + b| - 1] == a + b[..k];
    }
  }

  /** A turn with this message, under this environment, sends a response. */
  ghost predicate Answers(c: Config, r: Request, env: Env) {
    && env.sending == Delivered
    && match r
       case Ping(_) => true
       case OtherRequest(_) => false
       case ProcessRequest(_, _, _) =>
         var end := AppliedEnd(c, r, env);
         end.Some? && IsAnswered(end.value)
  }

  lemma RepliesOfTwo(a: Action, b: seq<Action>)
    requires |b| <= 1
    ensures RepliesIn(b) == if b != [] && b[0].Replied? then [b[0].response] else []
    ensures !a.Replied? ==> RepliesIn([a] + b) == RepliesIn(b)
  {
    assert RepliesIn([]) == [];
    assert [a][..0] == [];
    if b != [] {
      assert b[..0] == [];
    }
    RepliesAppend([a], b);
  }

  lemma RepliesOfRespond(handler: nat, id: Id, status: Status, env: Env)
    ensures RepliesIn(Respond(handler, id, status, env).0)
         == if env.sending == Delivered then [ProcessResponse(id, status)] else []
  {
    RepliesOfTwo(Applied(handler, id), Reply(ProcessResponse(id, status), env));
  }

  /** A process request that is answered gets the status of its exception, and no other request gets a response. */
  lemma RepliesOfProcess(c: Config, r: Request, env: Env)
    ensures var replies := RepliesIn(Process(c, r, env).0);
            if r.ProcessRequest? && Answers(c, r, env) then
              var end := env.applied(FindHandler(c.handlers, HeaderOf(c, r)).value);
              && |replies| == 1 && replies[0].ProcessResponse? && replies[0].id == r.id
              && (replies[0].status == OkStatus <==> end.Returned?)
              && (replies[0].status == InternalStatus <==> end.RaisedInternal?)
            else replies == []
    ensures r.ProcessRequest? && Answers(c, r, env) ==> Process(c, r, env).1 == Accepted
  {
    assert RepliesIn([]) == [];
    if r.ProcessRequest? && AppliedEnd(c, r, env).Some? {
      var i := FindHandler(c.handlers, HeaderOf(c, r)).value;
      match env.applied(i) {
        case Returned => RepliesOfRespond(i, r.id, OkStatus, env);
        case RaisedInvalid => RepliesOfRespond(i, r.id, InvalidStatus, env);
        case RaisedInternal => RepliesOfRespond(i, r.id, InternalStatus, env);
        case RaisedAuthorization => RepliesOfRespond(i, r.id, InvalidStatus, env);
        case _ =>
          RepliesOfTwo(Applied(i, r.id), []);
          assert [Applied(i, r.id)] + [] == [Applied(i, r.id)];
      }
    }
  }

  /**
   * A turn sends a response exactly when it is a ping or a request that a handler matches, apply
   * ends in one of four ways and the link is up; the response has the request's own id. It is OK
   * exactly when apply returned, an internal error exactly when it raised one, and the loop goes
   * on after it.
   */
  lemma ReplyMeaning(c: Config, turn: Turn, draining: bool)
    ensures var (actions, ending) := HandleTurn(c, turn, draining);
            var replies := RepliesIn(actions);
            && |replies| <= 1
            && (|replies| == 1 <==> turn.Got? && Answers(c, turn.request, turn.env))
            && (|replies| == 1 ==> replies[0].id == turn.request.id && ending == Accepted)
            && (|replies| == 1 && turn.request.Ping? ==> replies[0] == Pong(turn.request.id))
            && (|replies| == 1 && turn.request.ProcessRequest? ==>
                  var end := turn.env.applied(FindHandler(c.handlers, HeaderOf(c, turn.request)).value);
                  && replies[0].ProcessResponse?
                  && (replies[0].status == OkStatus <==> end.Returned?)
                  && (replies[0].status == InternalStatus <==> end.RaisedInternal?)
                  && (replies[0].status == InvalidStatus <==> end.RaisedInvalid? || end.RaisedAuthorization?))
  {
    assert RepliesIn([]) == [];
    match turn {
      case Cancelled =>
      case Waited =>
      case Reconnected(env) =>
        if !draining {
          RepliesOfTwo(Unregistering, Register(c, env).0);
        }
      case Got(r, env) =>
        if r.Ping? {
          RepliesOfTwo(Unregistering, HandleTurn(c, turn, draining).0);
        } else {
          RepliesOfProcess(c, r, env);
        }
    }
  }

  ghost function Somes<T>(options: seq<Option<T>>): seq<T> {
    if options == [] then []
    else
      var k := |options| - 1;
      Somes(options[..k]) + (if options[k].Some? then [options[k].value] else [])
  }

  /** `from` lists, in order and without omission, the positions the values come from. */
  ghost predicate Traces<T>(options: seq<Option<T>>, from: seq<nat>, values: seq<T>) {
    && |from| == |values|
    && (forall i, j | 0 <= i < j < |from| :: from[i] < from[j])
    && (forall i | 0 <= i < |from| :: from[i] < |options| && options[from[i]] == Some(values[i]))
    && (forall k | 0 <= k < |options| && options[k].Some? :: k in from)
  }

  lemma TraceGrows<T>(options: seq<Option<T>>, from: seq<nat>, values: seq<T>, last: T)
    requires Traces(options, from, values)
    ensures Traces(options + [Some(last)], from + [|options|], values + [last])
  {
    var k := |options|;
    forall i | 0 <= i < k && options[i].Some?
      ensures i in from + [k]
    {
      assert i in from;
    }
    assert (from + [k])[|from|] == k;
  }

  lemma TraceSkips<T>(options: seq<Option<T>>, from: seq<nat>, values: seq<T>)
    requires Traces(options, from, values)
    ensures Traces(options + [None], from, values)
  {
  }

  lemma {:induction false} SomesTraced<T>(options: seq<Option<T>>) returns (from: seq<nat>)
    ensures Traces(options, from, Somes(options))
  {
    from := [];
    if options != [] {
      var k := |options| - 1;
      var before := SomesTraced(options[..k]);
      assert options == options[..k] + [options[k]];
      if options[k].Some? {
        from := before + [k];
        TraceGrows(options[..k], before, Somes(options[..k]), options[k].value);
      } else {
        from := before;
        TraceSkips(options[..k], before, Somes(options[..k]));
        assert Somes(options) == Somes(options[..k]);
      }
    }
  }

  /** The response to each turn, in order. */
  ghost function ReplyList(handle: TurnHandler, turns: seq<Turn>): seq<Option<Response>> {
    seq(|turns|, i requires 0 <= i < |turns| => FirstOf(RepliesIn(handle(turns[i]).0)))
  }

  ghost function FirstOf(replies: seq<Response>): Option<Response> {
    if replies == [] then None else Some(replies[0])
  }

  ghost predicate OneReplyAtMost(handle: TurnHandler) {
    forall turn :: |RepliesIn(handle(turn).0)| <= 1
  }

  /** How many turns a loop began: all it handled in full, and the one that ended it. */
  ghost function Begun(handle: TurnHandler, turns: seq<Turn>): (n: nat)
    ensures n <= |turns|
  {
    LoopStopped(handle, turns);
    var n := LoopWith(handle, turns).2;
    if n < |turns| then n + 1 else n
  }

  lemma ReplyListGrows(handle: TurnHandler, turns: seq<Turn>)
    requires turns != [] && OneReplyAtMost(handle)
    ensures Somes(ReplyList(handle, turns))
         == Somes(ReplyList(handle, turns[..|turns| - 1])) + RepliesIn(handle(turns[|turns| - 1]).0)
  {
    var k := |turns| - 1;
    assert ReplyList(handle, turns)[..k] == ReplyList(handle, turns[..k]);
  }

  /** The turns a longer loop began: all of them, or those it had begun already. */
  lemma BegunGrows(handle: TurnHandler, turns: seq<Turn>)
    requires turns != []
    ensures turns[..Begun(handle, turns)]
         == (var before := turns[..|turns| - 1];
             if LoopWith(handle, before).1 == Accepted then turns else before[..Begun(handle, before)])
  {
    LoopStopped(handle, turns[..|turns| - 1]);
  }

  lemma {:induction false} LoopReplies(handle: TurnHandler, turns: seq<Turn>)
    requires OneReplyAtMost(handle)
    ensures RepliesIn(LoopWith(handle, turns).0) == Somes(ReplyList(handle, turns[..Begun(handle, turns)]))
    decreases |turns|
  {
    if turns == [] {
      assert turns[..0] == [];
    } else {
      var before := turns[..|turns| - 1];
      LoopReplies(handle, before);
      BegunGrows(handle, turns);
      if LoopWith(handle, before).1 == Accepted {
        LoopStopped(handle, before);
        assert before[..|before|] == before;
        RepliesAppend(LoopWith(handle, before).0, handle(turns[|turns| - 1]).0);
        ReplyListGrows(handle, turns);
      }
    }
  }

  /**
   * The responses of a loop come in the order of the requests: `from` names, for each response,
   * the turn it answers, and no turn the loop began that has a response is missing from it.
   */
  lemma RepliesInOrder(c: Config, turns: seq<Turn>, draining: bool) returns (from: seq<nat>)
    ensures var handle := HandlerOf(c, draining);
            Traces(ReplyList(handle, turns[..Begun(handle, turns)]), from, RepliesIn(Loop(c, turns, draining).0))
  {
    var handle := HandlerOf(c, draining);
    forall turn
      ensures |RepliesIn(handle(turn).0)| <= 1
    {
      ReplyMeaning(c, turn, draining);
    }
    LoopReplies(handle, turns);
    from := SomesTraced(ReplyList(handle, turns[..Begun(handle, turns)]));
  }

  /** No two of these turns carry the same request id. */
  ghost predicate DistinctRequests(turns: seq<Turn>) {
    forall i, j | 0 <= i < j < |turns| && turns[i].Got? && turns[j].Got? :: turns[i].request.id != turns[j].request.id
  }

  ghost predicate NoIdTwice(replies: seq<Response>) {
    forall i, j | 0 <= i < j < |replies| :: replies[i].id != replies[j].id
  }

  /** A loop answers no request twice. */
  lemma NoRequestAnsweredTwice(c: Config, turns: seq<Turn>, draining: bool)
    requires DistinctRequests(turns)
    ensures NoIdTwice(RepliesIn(Loop(c, turns, draining).0))
  {
    var replies := RepliesIn(Loop(c, turns, draining).0);
    var from := RepliesInOrder(c, turns, draining);
    forall i, j | 0 <= i < j < |replies|
      ensures replies[i].id != replies[j].id
    {
      ReplyMeaning(c, turns[from[i]], draining);
      ReplyMeaning(c, turns[from[j]], draining);
    }
  }

  /** The turn that a response of a loop answers. */
  lemma TurnAnswered(c: Config, turns: seq<Turn>, draining: bool, i: nat) returns (k: nat)
    requires i < |RepliesIn(Loop(c, turns, draining).0)|
    ensures k < Begun(HandlerOf(c, draining), turns)
    ensures turns[k].Got? && Answers(c, turns[k].request, turns[k].env)
    ensures RepliesIn(Loop(c, turns, draining).0)[i].id == turns[k].request.id
  {
    var from := RepliesInOrder(c, turns, draining);
    k := from[i];
    ReplyMeaning(c, turns[k], draining);
  }

  /** The response of a loop to a turn it began. */
  lemma AnswerToTurn(c: Config, turns: seq<Turn>, draining: bool, k: nat) returns (i: nat)
    requires k < Begun(HandlerOf(c, draining), turns)
    requires turns[k].Got? && Answers(c, turns[k].request, turns[k].env)
    ensures i < |RepliesIn(Loop(c, turns, draining).0)|
    ensures RepliesIn(Loop(c, turns, draining).0)[i].id == turns[k].request.id
  {
    var from := RepliesInOrder(c, turns, draining);
    ReplyMeaning(c, turns[k], draining);
    assert k in from;
    i :| 0 <= i < |from| && from[i] == k;
  }

  // ----- answering twice -----

  /** `start` registered, got through all its turns, was then interrupted, and could unregister. */
  ghost predicate InterruptedBetweenTurns(c: Config, first: RegisterEnv, turns: seq<Turn>, unregister: UnregisterEnv) {
    && Accepts(c, first)
    && (forall k | 0 <= k < |turns| :: GoesOn(c, turns[k], false))
    && unregister == Settled
  }

  /** The last message of the main loop is answered there, and once more in the drain. */
  ghost predicate LastAnsweredTwice(c: Config, turns: seq<Turn>, again: Env) {
    && turns != []
    && var last := turns[|turns| - 1];
    && last.Got?
    && Answers(c, last.request, last.env)
    && Answers(c, last.request, again)
  }

  lemma RepliesOfMain(c: Config, first: RegisterEnv, turns: seq<Turn>)
    ensures RepliesIn(MainBlock(c, first, turns).0)
         == if Register(c, first).1 == Accepted then RepliesIn(Loop(c, turns, false).0) else []
  {
    var registered := Register(c, first).0;
    RepliesOfTwo(Unregistering, registered);
    RepliesAppend(registered, Loop(c, turns, false).0);
  }

  lemma RepliesOfFinish(c: Config, ending: Ending, unregister: UnregisterEnv, last: Option<Turn>, again: Env,
                        later: seq<Turn>)
    ensures RepliesIn(Finish(c, ending, unregister, last, again, later).0)
         == if Drains(ending, last, unregister) then
              RepliesIn(Loop(c, Retaken(last.value, again) + later, true).0)
            else []
  {
    RepliesOfTwo(Unregistering, []);
    assert [Unregistering] + [] == [Unregistering];
    if Drains(ending, last, unregister) {
      var drained := Loop(c, Retaken(last.value, again) + later, true).0;
      assert Finish(c, ending, unregister, last, again, later).0 == [Unregistering] + drained;
      RepliesAppend([Unregistering], drained);
    } else {
      assert Finish(c, ending, unregister, last, again, later).0 in [[], [Unregistering]];
    }
  }

  /** The responses of `start` are those of its main loop and then, if it got that far, those of its drain. */
  lemma RepliesOfStart(c: Config, first: RegisterEnv, turns: seq<Turn>, unregister: UnregisterEnv,
                       again: Env, later: seq<Turn>)
    ensures var (_, ending, last) := MainBlock(c, first, turns);
            RepliesIn(Start(c, first, turns, unregister, again, later).0) ==
              (if Register(c, first).1 == Accepted then RepliesIn(Loop(c, turns, false).0) else []) +
              (if Drains(ending, last, unregister) then
                 RepliesIn(Loop(c, Retaken(last.value, again) + later, true).0)
               else [])
  {
    var (main, ending, last) := MainBlock(c, first, turns);
    RepliesOfMain(c, first, turns);
    RepliesOfFinish(c, ending, unregister, last, again, later);
    RepliesAppend(main, Finish(c, ending, unregister, last, again, later).0);
  }

  /** The main block was left by an interrupt or a version error, with a future to look at again. */
  ghost predicate Drains(ending: Ending, last: Option<Turn>, unregister: UnregisterEnv) {
    last.Some? && unregister == Settled && (ending == Accepted || ending == VersionError || ending == Interrupted)
  }

  lemma DistinctParts(turns: seq<Turn>, later: seq<Turn>)
    requires DistinctRequests(turns + later)
    ensures DistinctRequests(turns) && DistinctRequests(later)
    ensures forall i, j | 0 <= i < |turns| && 0 <= j < |later| && turns[i].Got? && later[j].Got? ::
              turns[i].request.id != later[j].request.id
  {
    var all := turns + later;
    assert forall i | 0 <= i < |turns| :: all[i] == turns[i];
    assert forall j | 0 <= j < |later| :: all[|turns| + j] == later[j];
  }

  lemma DrainDistinct(turns: seq<Turn>, handled: nat, again: Env, later: seq<Turn>)
    requires turns != [] && DistinctRequests(turns + later)
    ensures DistinctRequests(Retaken(LastBegun(turns, handled), again) + later)
  {
    DistinctParts(turns, later);
    var drain, last := Retaken(LastBegun(turns, handled), again) + later, LastBegun(turns, handled);
    var offset := |Retaken(last, again)|;
    assert forall j | 0 <= j < |later| :: drain[offset + j] == later[j];
    forall i, j | 0 <= i < j < |drain| && drain[i].Got? && drain[j].Got?
      ensures drain[i].request.id != drain[j].request.id
    {
      assert drain[j] == later[j - offset];
      if i >= offset {
        assert drain[i] == later[i - offset];
      }
    }
  }

  /** A turn of the drain with the id of a turn of the main loop is that turn, retaken. */
  lemma SharedIsRetaken(turns: seq<Turn>, handled: nat, again: Env, later: seq<Turn>, k: nat, l: nat)
    requires turns != [] && DistinctRequests(turns + later)
    requires k < |turns| && turns[k].Got?
    requires var drain := Retaken(LastBegun(turns, handled), again) + later;
             l < |drain| && drain[l].Got? && drain[l].request.id == turns[k].request.id
    ensures turns[k] == LastBegun(turns, handled) && k == if handled < |turns| then handled else |turns| - 1
    ensures (Retaken(LastBegun(turns, handled), again) + later)[l] == Got(turns[k].request, again)
  {
    DistinctParts(turns, later);
  }

  lemma NoIdTwiceConcat(a: seq<Response>, b: seq<Response>)
    requires NoIdTwice(a) && NoIdTwice(b)
    requires forall i, j | 0 <= i < |a| && 0 <= j < |b| :: a[i].id != b[j].id
    ensures NoIdTwice(a + b)
  {
  }

  lemma LoopsAnswerOnce(c: Config, turns: seq<Turn>, again: Env, later: seq<Turn>)
    requires turns != [] && DistinctRequests(turns + later)
    requires !((forall k | 0 <= k < |turns| :: GoesOn(c, turns[k], false)) && LastAnsweredTwice(c, turns, again))
    ensures var (handled, _, n) := Loop(c, turns, false);
            NoIdTwice(RepliesIn(handled) + RepliesIn(Loop(c, Retaken(LastBegun(turns, n), again) + later, true).0))
  {
    var n := Loop(c, turns, false).2;
    var drain := Retaken(LastBegun(turns, n), again) + later;
    var main, rest := RepliesIn(Loop(c, turns, false).0), RepliesIn(Loop(c, drain, true).0);
    DistinctParts(turns, later);
    DrainDistinct(turns, n, again, later);
    NoRequestAnsweredTwice(c, turns, false);
    NoRequestAnsweredTwice(c, drain, true);
    forall i, j | 0 <= i < |main| && 0 <= j < |rest|
      ensures main[i].id != rest[j].id
    {
      var k := TurnAnswered(c, turns, false, i);
      var l := TurnAnswered(c, drain, true, j);
      if turns[k].request.id == drain[l].request.id {
        SharedIsRetaken(turns, n, again, later, k, l);
        ReplyMeaning(c, turns[k], false);
        TurnEnds(c, turns[k], false);
        LoopEnds(c, turns, false);
      }
    }
    NoIdTwiceConcat(main, rest);
  }

  lemma SameIdTwice(a: seq<Response>, b: seq<Response>, i: nat, j: nat)
    requires i < |a| && j < |b| && a[i].id == b[j].id
    ensures !NoIdTwice(a + b)
  {
    assert (a + b)[i].id == (a + b)[|a| + j].id;
  }

  lemma LoopsAnswerTwice(c: Config, turns: seq<Turn>, again: Env, later: seq<Turn>)
    requires forall k | 0 <= k < |turns| :: GoesOn(c, turns[k], false)
    requires LastAnsweredTwice(c, turns, again)
    ensures var (handled, _, n) := Loop(c, turns, false);
            !NoIdTwice(RepliesIn(handled) + RepliesIn(Loop(c, Retaken(LastBegun(turns, n), again) + later, true).0))
  {
    LoopGoesOn(c, turns, false);
    LoopStopped(HandlerOf(c, false), turns);
    var drain := Retaken(LastBegun(turns, |turns|), again) + later;
    LoopStopped(HandlerOf(c, true), drain);
    var i := AnswerToTurn(c, turns, false, |turns| - 1);
    var j := AnswerToTurn(c, drain, true, 0);
    SameIdTwice(RepliesIn(Loop(c, turns, false).0), RepliesIn(Loop(c, drain, true).0), i, j);
  }

  /**
   * Whatever the environment does, `start` answers a request twice exactly when the interrupt
   * came between turns, right after the last message had been answered, and the drain, which
   * takes up that message again, answers it again.
   */
  lemma DrainAnswersAgain(c: Config, first: RegisterEnv, turns: seq<Turn>, unregister: UnregisterEnv,
                          again: Env, later: seq<Turn>)
    requires DistinctRequests(turns + later)
    ensures NoIdTwice(RepliesIn(Start(c, first, turns, unregister, again, later).0))
       <==> !(InterruptedBetweenTurns(c, first, turns, unregister) && LastAnsweredTwice(c, turns, again))
  {
    RegistrationEnds(c, first);
    RepliesOfStart(c, first, turns, unregister, again, later);
    DistinctParts(turns, later);
    NoRequestAnsweredTwice(c, turns, false);
    LoopGoesOn(c, turns, false);
    if turns != [] {
      if (forall j | 0 <= j < |turns| :: GoesOn(c, turns[j], false)) && LastAnsweredTwice(c, turns, again) {
        LoopsAnswerTwice(c, turns, again, later);
      } else {
        LoopsAnswerOnce(c, turns, again, later);
      }
    }
  }

  lemma OneAnswered(turn: Turn, draining: bool)
    requires turn == Got(ProcessRequest("r", Header("xo", "1.0"), Header("xo", "1.0")), UNDISTURBED)
    ensures Answers(ONE_HANDLER, turn.request, turn.env)
    ensures RepliesIn(Loop(ONE_HANDLER, [turn], draining).0) == [ProcessResponse("r", OkStatus)]
  {
    var handle, actions := HandlerOf(ONE_HANDLER, draining), HandleTurn(ONE_HANDLER, turn, draining).0;
    assert Matches(ONE_HANDLER.handlers[0], turn.request.header);
    assert [turn][..0] == [];
    assert LoopWith(handle, []) == ([], Accepted, 0);
    assert [] + actions == actions;
    ReplyMeaning(ONE_HANDLER, turn, draining);
  }

  lemma OneAnsweredTwice(c: Config, first: RegisterEnv, turn: Turn)
    requires Accepts(c, first) && GoesOn(c, turn, false) && turn.Got?
    ensures RepliesIn(Start(c, first, [turn], Settled, turn.env, []).0)
         == RepliesIn(Loop(c, [turn], false).0) + RepliesIn(Loop(c, [turn], true).0)
  {
    MainEnds(c, first, [turn]);
    assert FirstEnding(c, [turn], false) == 1;
    RegistrationEnds(c, first);
    RepliesOfStart(c, first, [turn], Settled, turn.env, []);
    assert [turn] + [] == [turn];
  }

  lemma OneAnswerOf(c: Config, turn: Turn, draining: bool)
    requires turn.Got? && turn.request.ProcessRequest? && Answers(c, turn.request, turn.env)
    requires turn.env.applied(FindHandler(c.handlers, HeaderOf(c, turn.request)).value).Returned?
    ensures RepliesIn(HandleTurn(c, turn, draining).0) == [ProcessResponse(turn.request.id, OkStatus)]
  {
    ReplyMeaning(c, turn, draining);
  }

  /**
   * Two different headers in one request: with no style asked for the handler of the header gets
   * it, with raw headers the handler of the raw one, and the other of the two names nobody.
   */
  lemma TwoHeaders(draining: bool)
    ensures var (known, unknown) := (Header("xo", "1.0"), Header("", ""));
            var (one, other) := (ProcessRequest("r", known, unknown), ProcessRequest("r", unknown, known));
            var (plain, raw) := (ONE_HANDLER, ONE_HANDLER.(style := Raw));
            && RepliesIn(HandleTurn(plain, Got(one, UNDISTURBED), draining).0) == [ProcessResponse("r", OkStatus)]
            && RepliesIn(HandleTurn(plain, Got(other, UNDISTURBED), draining).0) == []
            && RepliesIn(HandleTurn(raw, Got(other, UNDISTURBED), draining).0) == [ProcessResponse("r", OkStatus)]
            && RepliesIn(HandleTurn(raw, Got(one, UNDISTURBED), draining).0) == []
  {
    var (known, unknown) := (Header("xo", "1.0"), Header("", ""));
    var raw := ONE_HANDLER.(style := Raw);
    var handlers := ONE_HANDLER.handlers;
    assert Matches(handlers[0], known) && !Matches(handlers[0], unknown);
    assert FindHandler(handlers, known) == Some(0);
    assert FindFrom(handlers, unknown, 1) == None;
    assert FindHandler(handlers, unknown) == None;
    OneAnswerOf(ONE_HANDLER, Got(ProcessRequest("r", known, unknown), UNDISTURBED), draining);
    OneAnswerOf(raw, Got(ProcessRequest("r", unknown, known), UNDISTURBED), draining);
    ReplyMeaning(ONE_HANDLER, Got(ProcessRequest("r", unknown, known), UNDISTURBED), draining);
    ReplyMeaning(raw, Got(ProcessRequest("r", known, unknown), UNDISTURBED), draining);
  }

  /** Such a run: one request, answered OK, and after the interrupt answered OK again. */
  lemma AnsweredTwiceRun()
    ensures var (h, first) := (Header("xo", "1.0"), Registration(RegisterReply(0, false)));
            var turn := Got(ProcessRequest("r", h, h), UNDISTURBED);
            RepliesIn(Start(ONE_HANDLER, first, [turn], Settled, UNDISTURBED, []).0)
            == [ProcessResponse("r", OkStatus), ProcessResponse("r", OkStatus)]
  {
    var (h, first) := (Header("xo", "1.0"), Registration(RegisterReply(0, false)));
    var turn := Got(ProcessRequest("r", h, h), UNDISTURBED);
    OneRequest();
    OneAnswered(turn, false);
    OneAnswered(turn, true);
    OneAnsweredTwice(ONE_HANDLER, first, turn);
  }
}
