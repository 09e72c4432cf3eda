/**
 * The connection to the validator as a state machine. One step is one uninterrupted piece of
 * the event loop or of a client thread; a run is any sequence of steps.
 */
module Messaging {
  import opened Common

  type Id = string

  datatype Message = Message(kind: nat, id: Id, content: string)

  /** Unresolved is None; Answer holds a FutureResult; Broken is FutureError. */
  datatype FutureValue = Unresolved | Answer(kind: nat, content: string) | Broken

  datatype Item = ReconnectEvent | Incoming(message: Message)

  /** Every future handed out, and which of them the FutureCollection still holds. */
  datatype Registry = Registry(values: map<Id, FutureValue>, waiting: set<Id>)

  /**
   * `checked` are the sends that have found the link ready but not stored their future yet;
   * `connection` counts the times the queues were opened; they are None while disconnected.
   */
  datatype Link = Link(checked: set<Id>, registry: Registry, ready: bool, connection: nat,
                       sendQueue: Option<seq<Message>>, recvQueue: Option<seq<Item>>)

  datatype Event =
    | Check(id: Id)         // Stream.send finds out whether the link is ready
    | Put(id: Id)           // and, if it was, stores its future, ready or not
    | Enqueue(m: Message)   // put_message, at the end of Stream.send and of send_back
    | Transmit              // _send_message takes one message off the queue
    | Receive(m: Message)   // _receive_message gets one message off the socket
    | Disconnect            // _monitor_disconnects
    | Connect               // run, up to running the event loop
    | Take                  // _get_message gives one item to the client

  function PutFuture(r: Registry, id: Id): Registry {
    Registry(r.values[id := Unresolved], r.waiting + {id})
  }

  function Resolve(r: Registry, m: Message): Registry {
    Registry(r.values[m.id := Answer(m.kind, m.content)], r.waiting - {m.id})
  }

  function BreakAll(r: Registry): Registry {
    r.(values := map id | id in r.values :: if id in r.waiting then Broken else r.values[id])
  }

  function Initial(): Link {
    Link({}, Registry(map[], {}), true, 1, Some([]), Some([]))
  }

  /** A step that is not enabled changes nothing. */
  function Step(s: Link, e: Event): Link {
    match e
    case Check(id) => if s.ready then s.(checked := s.checked + {id}) else s
    case Put(id) =>
      if id in s.checked then s.(checked := s.checked - {id}, registry := PutFuture(s.registry, id)) else s
    case Enqueue(m) =>
      if s.ready && s.sendQueue.Some? then s.(sendQueue := Some(s.sendQueue.value + [m])) else s
    case Transmit =>
      if s.ready && s.sendQueue.Some? && s.sendQueue.value != [] then
        s.(sendQueue := Some(s.sendQueue.value[1..]))
      else s
    case Receive(m) =>
      if !s.ready then s
      else if m.id in s.registry.waiting then s.(registry := Resolve(s.registry, m))
      else if s.recvQueue.Some? then s.(recvQueue := Some(s.recvQueue.value + [Incoming(m)]))
      else s
    case Disconnect =>
      if !s.ready then s
      else s.(registry := BreakAll(s.registry), ready := false, sendQueue := None, recvQueue := None)
    case Connect =>
      if s.ready then s
      else s.(ready := true, connection := s.connection + 1, sendQueue := Some([]), recvQueue := Some([ReconnectEvent]))
    case Take =>
      if s.recvQueue.Some? && s.recvQueue.value != [] then s.(recvQueue := Some(s.recvQueue.value[1..])) else s
  }

  function Run(events: seq<Event>): Link {
    if events == [] then Initial() else Step(Run(events[..|events| - 1]), events[|events| - 1])
  }

  lemma RunOne(events: seq<Event>, e: Event)
    ensures Run(events + [e]) == Step(Run(events), e)
  {
    assert (events + [e])[..|events|] == events;
  }

  // ----- what the history of events says, without looking at the state -----

  ghost predicate Connected(events: seq<Event>) {
    events == [] ||
    match events[|events| - 1]
    case Connect => true
    case Disconnect => false
    case _ => Connected(events[..|events| - 1])
  }

  /** A send with this id was let through, and has not stored its future yet. */
  ghost predicate Checked(events: seq<Event>, id: Id) {
    events != [] &&
    var before := events[..|events| - 1];
    match events[|events| - 1]
    case Check(checked) => (checked == id && Connected(before)) || Checked(before, id)
    case Put(put) => put != id && Checked(before, id)
    case _ => Checked(before, id)
  }

  /** A future for this id was stored, and no message for it has arrived since. */
  ghost predicate Awaited(events: seq<Event>, id: Id) {
    events != [] &&
    var before := events[..|events| - 1];
    match events[|events| - 1]
    case Put(put) => (put == id && Checked(before, id)) || Awaited(before, id)
    case Receive(m) => Awaited(before, id) && !(m.id == id && Connected(before))
    case _ => Awaited(before, id)
  }

  /** What the future for this id must hold: the awaited message if it came, else whether a disconnect did. */
  ghost function Expected(events: seq<Event>, id: Id): Option<FutureValue> {
    if events == [] then None
    else
      var before := events[..|events| - 1];
      match events[|events| - 1]
      case Put(put) => if put == id && Checked(before, id) then Some(Unresolved) else Expected(before, id)
      case Receive(m) =>
        if m.id == id && Connected(before) && Awaited(before, id) then Some(Answer(m.kind, m.content))
        else Expected(before, id)
      case Disconnect =>
        if Connected(before) && Awaited(before, id) then Some(Broken) else Expected(before, id)
      case _ => Expected(before, id)
  }

  /** How many connections there have been, the first included. */
  ghost function Connections(events: seq<Event>): (n: nat)
    ensures n >= 1
  {
    if events == [] then 1
    else
      var before := events[..|events| - 1];
      Connections(before) + if events[|events| - 1].Connect? && !Connected(before) then 1 else 0
  }

  /** The items that came in on connection c: its reconnect event and the messages nobody awaited. */
  ghost function Arrived(events: seq<Event>, c: nat): seq<Item> {
    if events == [] then []
    else
      var before := events[..|events| - 1];
      match events[|events| - 1]
      case Connect =>
        Arrived(before, c) + if !Connected(before) && c == Connections(before) + 1 then [ReconnectEvent] else []
      case Receive(m) =>
        Arrived(before, c)
        + if Connected(before) && c == Connections(before) && !Awaited(before, m.id) then [Incoming(m)] else []
      case _ => Arrived(before, c)
  }

  /** The item a Take would give. */
  ghost function Next(s: Link): Option<Item> {
    if s.recvQueue.Some? && s.recvQueue.value != [] then Some(s.recvQueue.value[0]) else None
  }

  /** The message a Transmit would send. */
  ghost function NextOut(s: Link): Option<Message> {
    if s.ready && s.sendQueue.Some? && s.sendQueue.value != [] then Some(s.sendQueue.value[0]) else None
  }

  /** Everything the client has been given so far, with the connection it came from. */
  ghost function Taken(events: seq<Event>): seq<(nat, Item)> {
    if events == [] then []
    else
      var before := events[..|events| - 1];
      var s := Run(before);
      if events[|events| - 1].Take? && Next(s).Some? then Taken(before) + [(s.connection, Next(s).value)]
      else Taken(before)
  }

  /** The entries of connection c among these. */
  ghost function Of<T>(log: seq<(nat, T)>, c: nat): seq<T> {
    if log == [] then []
    else
      var k := |log| - 1;
      Of(log[..k], c) + (if log[k].0 == c then [log[k].1] else [])
  }

  /** No correlation id is used for two sends. */
  ghost predicate FreshIds(events: seq<Event>) {
    forall i, j | 0 <= i < j < |events| && events[i].Put? && events[j].Put? :: events[i].id != events[j].id
  }

  lemma FreshPrefix(events: seq<Event>, k: nat)
    requires FreshIds(events) && k <= |events|
    ensures FreshIds(events[..k])
  {
  }

  // ----- what every run keeps -----

  /** The state says what the history says. */
  ghost predicate Agrees(events: seq<Event>, s: Link) {
    && s.ready == Connected(events)
    && s.sendQueue.Some? == s.ready
    && s.recvQueue.Some? == s.ready
    && s.connection == Connections(events)
    && (forall id :: id in s.checked <==> Checked(events, id))
    && (forall id :: id in s.registry.waiting <==> Awaited(events, id))
    && (forall id :: id in s.registry.values <==> Expected(events, id).Some?)
    && (forall id | id in s.registry.values :: s.registry.values[id] == Expected(events, id).value)
  }

  lemma {:induction false} WaitingHasValue(events: seq<Event>)
    ensures forall id | Awaited(events, id) :: Expected(events, id).Some?
  {
    if events != [] {
      WaitingHasValue(events[..|events| - 1]);
    }
  }

  lemma StepAgrees(events: seq<Event>, s: Link, e: Event)
    requires Agrees(events, s)
    ensures Agrees(events + [e], Step(s, e))
  {
    WaitingHasValue(events);
    assert (events + [e])[..|events|] == events;
  }

  /** The state of every run is the one its history of events tells. */
  lemma {:induction false} RunAgrees(events: seq<Event>)
    ensures Agrees(events, Run(events))
    decreases |events|
  {
    if events != [] {
      var before := events[..|events| - 1];
      RunAgrees(before);
      assert events == before + [events[|events| - 1]];
      StepAgrees(before, Run(before), events[|events| - 1]);
    }
  }

  ghost predicate AnsweredAreGone(r: Registry) {
    && (forall id | id in r.waiting :: id in r.values)
    && (forall id | id in r.values :: id in r.waiting <==> !r.values[id].Answer?)
  }

  lemma StepKeepsGone(s: Link, e: Event)
    requires AnsweredAreGone(s.registry)
    ensures AnsweredAreGone(Step(s, e).registry)
  {
  }

  /** A future is out of the collection exactly when it holds an answer. */
  lemma {:induction false} GoneIffAnswered(events: seq<Event>)
    ensures AnsweredAreGone(Run(events).registry)
    decreases |events|
  {
    if events != [] {
      GoneIffAnswered(events[..|events| - 1]);
      StepKeepsGone(Run(events[..|events| - 1]), events[|events| - 1]);
    }
  }

  /** Position k stores the future for this id: a Put whose send had been let through. */
  ghost predicate Stores(events: seq<Event>, k: nat, id: Id)
    requires k < |events|
  {
    events[k] == Put(id) && Checked(events[..k], id)
  }

  /** At position k a message with this id comes in. */
  ghost predicate Arrives(events: seq<Event>, k: nat, id: Id)
    requires k < |events|
  {
    events[k].Receive? && events[k].m.id == id && Connected(events[..k])
  }

  ghost predicate NoneArrives(events: seq<Event>, from: nat, to: nat, id: Id)
    requires to <= |events|
  {
    forall k | from <= k < to :: !Arrives(events, k, id)
  }

  ghost predicate NoneStores(events: seq<Event>, from: nat, id: Id) {
    forall k | from <= k < |events| :: !Stores(events, k, id)
  }

  /** Steps keep their meaning in every longer run. */
  lemma PrefixSays(events: seq<Event>, n: nat, id: Id)
    requires n <= |events|
    ensures forall k | 0 <= k < n :: Stores(events, k, id) == Stores(events[..n], k, id)
    ensures forall k | 0 <= k < n :: Arrives(events, k, id) == Arrives(events[..n], k, id)
  {
    assert forall k | 0 <= k < n :: events[..n][..k] == events[..k];
  }

  /**
   * A future is awaited exactly if some step stored it and no message with its id has come in
   * since; p is the last step that stored it.
   */
  lemma {:induction false} AwaitedMeans(events: seq<Event>, id: Id) returns (p: nat)
    ensures Awaited(events, id) ==> p < |events| && Stores(events, p, id) && NoneArrives(events, p, |events|, id)
    ensures Awaited(events, id) ==> NoneStores(events, p + 1, id)
    ensures forall q | 0 <= q < |events| && Stores(events, q, id) && NoneArrives(events, q, |events|, id) ::
              Awaited(events, id)
    decreases |events|
  {
    p := 0;
    if events != [] {
      var n := |events| - 1;
      p := AwaitedMeans(events[..n], id);
      PrefixSays(events, n, id);
      if Stores(events, n, id) {
        p := n;
      }
      forall q | 0 <= q < n && Stores(events, q, id) && NoneArrives(events, q, n + 1, id)
        ensures Awaited(events, id)
      {
        assert NoneArrives(events[..n], q, n, id) && !Arrives(events, n, id);
      }
    }
  }

  /**
   * A future that holds an answer was stored by some step p, no later step stored it anew, and
   * the answer is that of the first message with its id to come in after p.
   */
  lemma {:induction false} AnswerIsOwn(events: seq<Event>, id: Id) returns (p: nat, j: nat)
    requires id in Run(events).registry.values && Run(events).registry.values[id].Answer?
    ensures p < j < |events| && Stores(events, p, id) && NoneStores(events, p + 1, id)
    ensures Arrives(events, j, id) && NoneArrives(events, p, j, id)
    ensures Run(events).registry.values[id] == Answer(events[j].m.kind, events[j].m.content)
    decreases |events|
  {
    var n := |events| - 1;
    RunAgrees(events);
    RunAgrees(events[..n]);
    PrefixSays(events, n, id);
    if Arrives(events, n, id) && Awaited(events[..n], id) {
      p := AwaitedMeans(events[..n], id);
      j := n;
    } else {
      p, j := AnswerIsOwn(events[..n], id);
    }
  }

  lemma {:induction false} AnswerComesExpected(events: seq<Event>, id: Id, p: nat, j: nat)
    requires p < j < |events| && Stores(events, p, id) && NoneStores(events, j, id)
    requires Arrives(events, j, id) && NoneArrives(events, p, j, id)
    ensures Expected(events, id) == Some(Answer(events[j].m.kind, events[j].m.content))
    ensures !Awaited(events, id)
    decreases |events|
  {
    var n := |events| - 1;
    PrefixSays(events, n, id);
    if j == n {
      var q := AwaitedMeans(events[..n], id);
    } else {
      assert !Stores(events, n, id);
      AnswerComesExpected(events[..n], id, p, j);
    }
  }

  /** And the other way round: the first message to come in after a step stored a future is what it holds. */
  lemma AnswerComes(events: seq<Event>, id: Id, p: nat, j: nat)
    requires p < j < |events| && Stores(events, p, id) && NoneStores(events, j, id)
    requires Arrives(events, j, id) && NoneArrives(events, p, j, id)
    ensures var r := Run(events).registry;
            id in r.values && r.values[id] == Answer(events[j].m.kind, events[j].m.content)
  {
    RunAgrees(events);
    AnswerComesExpected(events, id, p, j);
  }

  lemma AnswerStays(events: seq<Event>, e: Event, id: Id)
    requires FreshIds(events + [e])
    requires id in Run(events).registry.values && Run(events).registry.values[id].Answer?
    ensures var r := Run(events + [e]).registry;
            id in r.values && r.values[id] == Run(events).registry.values[id]
  {
    RunOne(events, e);
    GoneIffAnswered(events);
    var k := StoredOnce(events, id);
    assert (events + [e])[k] == Put(id);
  }

  /** Once a future holds an answer it keeps it, whatever happens later. */
  lemma {:induction false} AnswerIsFinal(events: seq<Event>, more: seq<Event>, id: Id)
    requires FreshIds(events + more)
    requires id in Run(events).registry.values && Run(events).registry.values[id].Answer?
    ensures var r := Run(events + more).registry;
            id in r.values && r.values[id] == Run(events).registry.values[id] && id !in r.waiting
    decreases |more|
  {
    GoneIffAnswered(events + more);
    if more == [] {
      assert events + more == events;
    } else {
      var before, last := events + more[..|more| - 1], more[|more| - 1];
      assert events + more == before + [last];
      assert (before + [last])[..|before|] == before;
      FreshPrefix(events + more, |before|);
      AnswerIsFinal(events, more[..|more| - 1], id);
      AnswerStays(before, last, id);
    }
  }

  /** A future in the registry was put there by a step. */
  lemma {:induction false} StoredOnce(events: seq<Event>, id: Id) returns (k: nat)
    requires id in Run(events).registry.values
    ensures k < |events| && events[k] == Put(id)
    decreases |events|
  {
    if events[|events| - 1] == Put(id) {
      k := |events| - 1;
    } else {
      GoneIffAnswered(events[..|events| - 1]);
      k := StoredOnce(events[..|events| - 1], id);
    }
  }

  /** A broken future changes exactly when a late message for it arrives: it is still in the collection. */
  lemma BrokenMayBeAnswered(events: seq<Event>, e: Event, id: Id)
    requires FreshIds(events + [e])
    requires id in Run(events).registry.values && Run(events).registry.values[id] == Broken
    ensures var after := Run(events + [e]).registry;
            && id in after.values
            && (after.values[id] != Broken <==> Connected(events) && e.Receive? && e.m.id == id)
            && (after.values[id] != Broken ==> after.values[id] == Answer(e.m.kind, e.m.content))
  {
    var all := events + [e];
    assert all[..|events|] == events;
    FreshPrefix(all, |events|);
    GoneIffAnswered(events);
    RunAgrees(events);
    var k := StoredOnce(events, id);
    assert all[k] == Put(id);
  }

  /** Such a run: the link is up again, the future still broken, and a late answer to it is taken. */
  lemma LateReply()
    ensures var events := [Check("a"), Put("a"), Disconnect, Connect];
            && Connected(events)
            && Run(events).registry.values == map["a" := Broken]
            && Run(events + [Receive(Message(1, "a", "late"))]).registry.values == map["a" := Answer(1, "late")]
  {
    var e1 := [] + [Check("a")];
    var e2, e3 := e1 + [Put("a")], e1 + [Put("a")] + [Disconnect];
    var events := [Check("a"), Put("a"), Disconnect, Connect];
    RunOne([], Check("a"));
    RunOne(e1, Put("a"));
    assert Run(e2).registry == Registry(map["a" := Unresolved], {"a"}) && Run(e2).ready;
    RunOne(e2, Disconnect);
    assert Run(e3).registry == Registry(map["a" := Broken], {"a"}) && !Run(e3).ready;
    RunOne(e3, Connect);
    assert events == e3 + [Connect];
    RunOne(events, Receive(Message(1, "a", "late")));
    assert events[|events| - 1] == Connect;
  }

  // ----- disconnects -----

  /** Right after a disconnect every future in the collection is done. */
  lemma AllDoneAtDisconnect(events: seq<Event>)
    requires Connected(events)
    ensures var r := Run(events + [Disconnect]).registry;
            forall id | id in r.waiting :: id in r.values && r.values[id] == Broken
  {
    assert (events + [Disconnect])[..|events|] == events;
    RunAgrees(events);
    WaitingHasValue(events);
  }

  /** The future was stored by a send that had been let through before the link went down. */
  ghost predicate StoredWhileDown(events: seq<Event>, id: Id) {
    events != [] && !Connected(events) &&
    var before := events[..|events| - 1];
    (events[|events| - 1] == Put(id) && Checked(before, id)) || StoredWhileDown(before, id)
  }

  /** While the link is down, the futures left unresolved are exactly those stored since it went down. */
  lemma {:induction false} UnresolvedWhileDown(events: seq<Event>, id: Id)
    requires !Connected(events) && id in Run(events).registry.values
    ensures Run(events).registry.values[id] == Unresolved <==> StoredWhileDown(events, id)
    decreases |events|
  {
    var before, last := events[..|events| - 1], events[|events| - 1];
    RunAgrees(events);
    RunAgrees(before);
    if Connected(before) {
      assert last.Disconnect?;
      UnresolvedIsAwaited(before, id);
    } else if id in Run(before).registry.values {
      UnresolvedWhileDown(before, id);
    } else {
      NotStored(before, id);
    }
  }

  lemma {:induction false} NotStored(events: seq<Event>, id: Id)
    requires Expected(events, id).None?
    ensures !StoredWhileDown(events, id)
  {
    if events != [] {
      NotStored(events[..|events| - 1], id);
    }
  }

  lemma {:induction false} UnresolvedIsAwaited(events: seq<Event>, id: Id)
    ensures Expected(events, id) == Some(Unresolved) ==> Awaited(events, id)
  {
    if events != [] {
      UnresolvedIsAwaited(events[..|events| - 1], id);
    }
  }

  /** Such a send exists: let through, cut off, and then left with a future nobody will resolve. */
  lemma SendRace()
    ensures var events := [Check("a"), Disconnect, Put("a")];
            !Connected(events) && Run(events).registry.values == map["a" := Unresolved]
  {
    var events := [Check("a"), Disconnect, Put("a")];
    assert events[..2] == [Check("a"), Disconnect];
    assert events[..2][..1] == [Check("a")];
    assert events[..2][..1][..0] == [];
    assert Run(events[..2][..1]) == Initial().(checked := {"a"});
    assert Run(events[..2]) == Step(Initial().(checked := {"a"}), Disconnect);
  }

  // ----- where messages go -----

  /** A message that arrives goes to the future waiting for it or to the receive queue, never to both. */
  lemma OneDestination(events: seq<Event>, m: Message)
    requires Connected(events)
    ensures var s, t := Run(events), Run(events + [Receive(m)]);
            if Awaited(events, m.id) then
              && t.recvQueue == s.recvQueue
              && t.registry.values == s.registry.values[m.id := Answer(m.kind, m.content)]
              && m.id !in t.registry.waiting
            else
              && s.recvQueue.Some? && t.recvQueue == Some(s.recvQueue.value + [Incoming(m)])
              && t.registry == s.registry
  {
    RunOne(events, Receive(m));
    RunAgrees(events);
  }

  lemma {:induction false} TakenBounded(events: seq<Event>)
    ensures forall i | 0 <= i < |Taken(events)| :: 1 <= Taken(events)[i].0 <= Connections(events)
    decreases |events|
  {
    if events != [] {
      TakenBounded(events[..|events| - 1]);
      RunAgrees(events[..|events| - 1]);
    }
  }

  lemma {:induction false} NoneOf<T>(log: seq<(nat, T)>, c: nat)
    requires forall i | 0 <= i < |log| :: log[i].0 != c
    ensures Of(log, c) == []
  {
    if log != [] {
      NoneOf(log[..|log| - 1], c);
    }
  }

  /** What left the queue of connection c, then what is queued if c is the present one, is `all`. */
  ghost predicate Ordered<T>(log: seq<(nat, T)>, c: nat, present: nat, queue: Option<seq<T>>, all: seq<T>) {
    if c == present && queue.Some? then Of(log, c) + queue.value == all else Of(log, c) <= all
  }

  /** Taking the first queued entry keeps this for every connection. */
  lemma TakeOrdered<T>(log: seq<(nat, T)>, c: nat, present: nat, queue: seq<T>, all: seq<T>)
    requires queue != [] && Ordered(log, c, present, Some(queue), all)
    ensures Ordered(log + [(present, queue[0])], c, present, Some(queue[1..]), all)
  {
    var longer := log + [(present, queue[0])];
    assert longer[..|log|] == log;
    assert queue == [queue[0]] + queue[1..];
  }

  lemma {:induction false} NothingYet(events: seq<Event>, c: nat)
    requires c > Connections(events)
    ensures Arrived(events, c) == [] && Queued(events, c) == []
    decreases |events|
  {
    if events != [] {
      NothingYet(events[..|events| - 1], c);
    }
  }

  ghost predicate ReceivedInOrder(events: seq<Event>, c: nat) {
    Ordered(Taken(events), c, Run(events).connection, Run(events).recvQueue, Arrived(events, c))
  }

  lemma StepInOrder(before: seq<Event>, e: Event, c: nat)
    requires ReceivedInOrder(before, c)
    ensures ReceivedInOrder(before + [e], c)
  {
    var events, s := before + [e], Run(before);
    assert events[..|before|] == before;
    RunAgrees(before);
    if e.Take? && Next(s).Some? {
      TakeOrdered(Taken(before), c, s.connection, s.recvQueue.value, Arrived(before, c));
    } else if e.Connect? && !s.ready && c == s.connection + 1 {
      TakenBounded(before);
      NoneOf(Taken(before), c);
      NothingYet(before, c);
    }
  }

  lemma {:induction false} RunInOrder(events: seq<Event>, c: nat)
    ensures ReceivedInOrder(events, c)
    decreases |events|
  {
    if events != [] {
      var before := events[..|events| - 1];
      RunInOrder(before, c);
      assert events == before + [events[|events| - 1]];
      StepInOrder(before, events[|events| - 1], c);
    }
  }

  /**
   * Nothing is invented or reordered on any connection: what the client took from it is a
   * beginning of what arrived there. On the present connection nothing is lost either: the rest
   * is still queued.
   */
  lemma QueueIsArrivals(events: seq<Event>, c: nat)
    ensures Of(Taken(events), c) <= Arrived(events, c)
    ensures Connected(events) && c == Connections(events) ==>
              var s := Run(events);
              s.recvQueue.Some? && Of(Taken(events), c) + s.recvQueue.value == Arrived(events, c)
  {
    RunAgrees(events);
    RunInOrder(events, c);
  }

  /** Every connection but the first starts with its reconnect event; no other item is one. */
  lemma {:induction false} ArrivedStarts(events: seq<Event>, c: nat)
    ensures 2 <= c <= Connections(events) <==> Arrived(events, c) != [] && Arrived(events, c)[0] == ReconnectEvent
    ensures forall i | 0 < i < |Arrived(events, c)| :: Arrived(events, c)[i] != ReconnectEvent
    decreases |events|
  {
    if events != [] {
      var before := events[..|events| - 1];
      ArrivedStarts(before, c);
      if c > Connections(before) {
        NothingYet(before, c);
      }
    }
  }

  /** Item i is a reconnect event exactly if it is the first of a connection after the first. */
  ghost predicate RightAt(taken: seq<(nat, Item)>, i: nat)
    requires i < |taken|
  {
    taken[i].1 == ReconnectEvent <==> taken[i].0 >= 2 && (i == 0 || taken[i - 1].0 < taken[i].0)
  }

  ghost predicate StartsRight(taken: seq<(nat, Item)>) {
    && (forall i, j | 0 <= i < j < |taken| :: taken[i].0 <= taken[j].0)
    && (forall i | 0 <= i < |taken| :: RightAt(taken, i))
  }

  /** One more item keeps this, if it is a reconnect event exactly at the start of a later connection. */
  lemma StartsRightGrows(taken: seq<(nat, Item)>, c: nat, item: Item)
    requires StartsRight(taken)
    requires forall i | 0 <= i < |taken| :: taken[i].0 <= c
    requires item == ReconnectEvent <==> c >= 2 && Of(taken, c) == []
    ensures StartsRight(taken + [(c, item)])
  {
    LastOf(taken, c);
    var longer := taken + [(c, item)];
    forall i | 0 <= i < |longer|
      ensures RightAt(longer, i)
    {
      if i < |taken| {
        assert RightAt(taken, i);
      }
    }
  }

  lemma NextIsRight(events: seq<Event>)
    requires Connected(events) && Next(Run(events)).Some?
    ensures var s := Run(events);
            Next(s).value == ReconnectEvent <==> s.connection >= 2 && Of(Taken(events), s.connection) == []
  {
    var s := Run(events);
    RunAgrees(events);
    QueueIsArrivals(events, s.connection);
    ArrivedStarts(events, s.connection);
    assert s.recvQueue.value[0] == Arrived(events, s.connection)[|Of(Taken(events), s.connection)|];
  }

  /**
   * In everything the client takes, connections come in order, and the first item of each
   * connection after the first is its reconnect event; there are no others.
   */
  lemma {:induction false} TakenStarts(events: seq<Event>)
    ensures StartsRight(Taken(events))
    decreases |events|
  {
    if events != [] {
      var before := events[..|events| - 1];
      TakenStarts(before);
      if events[|events| - 1].Take? && Next(Run(before)).Some? {
        RunAgrees(before);
        NextIsRight(before);
        TakenBounded(before);
        StartsRightGrows(Taken(before), Run(before).connection, Next(Run(before)).value);
      }
    }
  }

  lemma {:induction false} LastOf(taken: seq<(nat, Item)>, c: nat)
    requires forall i, j | 0 <= i < j < |taken| :: taken[i].0 <= taken[j].0
    requires forall i | 0 <= i < |taken| :: taken[i].0 <= c
    ensures Of(taken, c) == [] <==> taken == [] || taken[|taken| - 1].0 < c
  {
    if taken != [] && taken[|taken| - 1].0 < c {
      NoneOf(taken, c);
    }
  }

  // ----- what is sent -----

  /** The messages put on the send queue of connection c. */
  ghost function Queued(events: seq<Event>, c: nat): seq<Message> {
    if events == [] then []
    else
      var before := events[..|events| - 1];
      match events[|events| - 1]
      case Enqueue(m) =>
        Queued(before, c) + if Connected(before) && c == Connections(before) then [m] else []
      case _ => Queued(before, c)
  }

  /** Everything that left so far, with the connection it left on. */
  ghost function Sent(events: seq<Event>): seq<(nat, Message)> {
    if events == [] then []
    else
      var before := events[..|events| - 1];
      var s := Run(before);
      if events[|events| - 1].Transmit? && NextOut(s).Some? then Sent(before) + [(s.connection, NextOut(s).value)]
      else Sent(before)
  }

  lemma {:induction false} SentBounded(events: seq<Event>)
    ensures forall i | 0 <= i < |Sent(events)| :: 1 <= Sent(events)[i].0 <= Connections(events)
    decreases |events|
  {
    if events != [] {
      SentBounded(events[..|events| - 1]);
      RunAgrees(events[..|events| - 1]);
    }
  }

  ghost predicate LeftInOrder(events: seq<Event>, c: nat) {
    Ordered(Sent(events), c, Run(events).connection, Run(events).sendQueue, Queued(events, c))
  }

  lemma StepLeavesInOrder(before: seq<Event>, e: Event, c: nat)
    requires LeftInOrder(before, c)
    ensures LeftInOrder(before + [e], c)
  {
    var events, s := before + [e], Run(before);
    assert events[..|before|] == before;
    RunAgrees(before);
    if e.Transmit? && s.ready && s.sendQueue.value != [] {
      TakeOrdered(Sent(before), c, s.connection, s.sendQueue.value, Queued(before, c));
    } else if e.Connect? && !s.ready && c == s.connection + 1 {
      SentBounded(before);
      NoneOf(Sent(before), c);
      NothingYet(before, c);
    }
  }

  lemma {:induction false} RunLeavesInOrder(events: seq<Event>, c: nat)
    ensures LeftInOrder(events, c)
    decreases |events|
  {
    if events != [] {
      var before := events[..|events| - 1];
      RunLeavesInOrder(before, c);
      assert events == before + [events[|events| - 1]];
      StepLeavesInOrder(before, events[|events| - 1], c);
    }
  }

  /**
   * On every connection messages leave in the order they were queued there, none twice and none
   * skipped. On the present one the rest is still queued.
   */
  lemma SentInOrder(events: seq<Event>, c: nat)
    ensures Of(Sent(events), c) <= Queued(events, c)
    ensures Connected(events) && c == Connections(events) ==>
              var s := Run(events);
              s.sendQueue.Some? && Of(Sent(events), c) + s.sendQueue.value == Queued(events, c)
  {
    RunAgrees(events);
    RunLeavesInOrder(events, c);
  }
}
