/** The consensus driver: it turns the validator's messages into engine updates and acknowledges them. */
module ZmqDriver {
  import opened Common

  datatype Kind =
    | PeerConnected | PeerDisconnected | PeerMessage
    | BlockNew | BlockValid | BlockInvalid | BlockCommit
    | EngineActivated | EngineDeactivated
    | Ping
    | Other(tag: nat)

  /**
   * What a future from `stream.receive()` resolves to; Cancelled and Reconnect are what a
   * disconnect leaves behind. `ackable` says whether the link is up when the ack is sent.
   */
  datatype Given = Cancelled | Reconnect | Message(kind: Kind, id: string, content: string, ackable: bool)

  /** The stream's items in order: the k-th call of `receive` gives a future for the k-th item. */
  type Queue = nat -> Given

  /**
   * One turn of the loop: whether another thread has asked for exit, and whether the pending
   * future resolves in time.
   */
  datatype Tick = Tick(exit: bool, resolved: bool)

  /** The protobuf parser; None is its DecodeError. A kind without data gives the empty text. */
  type Decoder = (Kind, string) -> Option<string>

  predicate Recognised(kind: Kind) {
    !kind.Other? && !kind.EngineActivated?
  }

  predicate HasBody(kind: Kind) {
    Recognised(kind) && !kind.Ping? && !kind.EngineDeactivated?
  }

  function DataOf(decode: Decoder, m: Given): Option<string>
    requires m.Message?
  {
    if HasBody(m.kind) then decode(m.kind, m.content) else Some("")
  }

  /** The driver gets past this item without an exception that ends the loop. */
  predicate Passes(decode: Decoder, g: Given) {
    g.Message? && (Recognised(g.kind) ==> g.ackable && DataOf(decode, g).Some?)
  }

  /** The update a message amounts to: a recognised one that is not a ping, with its data. */
  function UpdateOf(decode: Decoder, g: Given): seq<(Kind, string)> {
    if g.Message? && Recognised(g.kind) && !g.kind.Ping? && DataOf(decode, g).Some? then
      [(g.kind, DataOf(decode, g).value)]
    else []
  }

  /** Its ack: every recognised message gets one, pings included. */
  function AckOf(g: Given): seq<string> {
    if g.Message? && Recognised(g.kind) then [g.id] else []
  }

  /** One of the seven notifications that carry data. */
  ghost predicate IsNotification(kind: Kind) {
    || kind == PeerConnected || kind == PeerDisconnected || kind == PeerMessage
    || kind == BlockNew || kind == BlockValid || kind == BlockInvalid || kind == BlockCommit
  }

  /**
   * What each message amounts to. The seven notifications give their kind and data, if they can be
   * parsed; the deactivation gives empty data; a ping gives nothing. All nine are acknowledged, each
   * with its own id, unless one fails: a notification that cannot be parsed, or any of them where the
   * link is down. An activation and any other kind give and acknowledge nothing and fail nothing.
   */
  lemma ServedMeans(decode: Decoder, kind: Kind, id: string, content: string, ackable: bool)
    ensures var m := Message(kind, id, content, ackable);
            var known := IsNotification(kind) || kind == EngineDeactivated || kind == Ping;
            && AckOf(m) == (if known then [id] else [])
            && (Passes(decode, m) <==> (known ==> ackable) && (IsNotification(kind) ==> decode(kind, content).Some?))
            && (IsNotification(kind) && decode(kind, content).Some? ==>
                  UpdateOf(decode, m) == [(kind, decode(kind, content).value)])
            && (IsNotification(kind) && decode(kind, content).None? ==> UpdateOf(decode, m) == [])
            && (kind == EngineDeactivated ==> UpdateOf(decode, m) == [(EngineDeactivated, "")])
            && (!IsNotification(kind) && kind != EngineDeactivated ==> UpdateOf(decode, m) == [])
    ensures !Passes(decode, Cancelled) && !Passes(decode, Reconnect)
  {
  }

  /** The updates of the n items from `first` on, in order. */
  ghost function Updates(decode: Decoder, queue: Queue, first: nat, n: nat): seq<(Kind, string)> {
    if n == 0 then [] else Updates(decode, queue, first, n - 1) + UpdateOf(decode, queue(first + n - 1))
  }

  /** The acks of the n items from `first` on, in order. */
  ghost function Acks(queue: Queue, first: nat, n: nat): seq<string> {
    if n == 0 then [] else Acks(queue, first, n - 1) + AckOf(queue(first + n - 1))
  }

  /** Cutting the stream anywhere loses and repeats nothing. */
  lemma {:induction false} ServedInPieces(decode: Decoder, queue: Queue, first: nat, m: nat, n: nat)
    ensures Updates(decode, queue, first, m + n)
         == Updates(decode, queue, first, m) + Updates(decode, queue, first + m, n)
    ensures Acks(queue, first, m + n) == Acks(queue, first, m) + Acks(queue, first + m, n)
  {
    if n > 0 {
      ServedInPieces(decode, queue, first, m, n - 1);
    }
  }

  /** None of the n items from `first` on ends the loop, and only the last may be the deactivation. */
  ghost predicate Serves(decode: Decoder, queue: Queue, first: nat, n: nat) {
    n > 0 ==>
      && Serves(decode, queue, first, n - 1)
      && !Deactivated(queue, first, n - 1)
      && Passes(decode, queue(first + n - 1))
  }

  predicate IsDeactivation(g: Given) {
    g.Message? && g.kind.EngineDeactivated?
  }

  ghost predicate Deactivated(queue: Queue, first: nat, n: nat) {
    n > 0 && IsDeactivation(queue(first + n - 1))
  }

  /** These many ticks have passed without a request to exit, and resolved that many futures. */
  ghost predicate Passed(ticks: seq<Tick>, used: nat, served: nat)
    requires used <= |ticks|
  {
    if used == 0 then served == 0
    else
      && !ticks[used - 1].exit
      && if ticks[used - 1].resolved then served > 0 && Passed(ticks, used - 1, served - 1)
         else Passed(ticks, used - 1, served)
  }

  /** Running: the ticks are used up. Exited: the exit flag was seen. Failed: an exception ended the loop. */
  datatype End = Running | Exited | Failed

  datatype WaitEnd = StillWaiting | Activated | Broken

  ghost function ResolvedIn(ticks: seq<Tick>, used: nat): nat
    requires used <= |ticks|
  {
    if used == 0 then 0 else ResolvedIn(ticks, used - 1) + if ticks[used - 1].resolved then 1 else 0
  }

  datatype Processed = Put(kind: Kind, data: string) | Unexpected | Raised

  class Driver {
    const decode: Decoder
    const queue: Queue
    var received: nat  // calls of stream.receive() so far
    var exit: bool
    var engineStops: nat  // calls of engine.stop() so far
    var closed: bool  // the stream
    var updates: seq<(Kind, string)>
    var acks: seq<string>

    constructor (decode: Decoder, queue: Queue)
      ensures this.decode == decode && this.queue == queue
      ensures received == 0 && !exit && engineStops == 0 && !closed && updates == [] && acks == []
    {
      this.decode, this.queue := decode, queue;
      received, exit, engineStops, closed, updates, acks := 0, false, 0, false, [], [];
    }

    /** The items from `first` on have been served, n of them, on top of what there was. */
    ghost predicate Progress(first: nat, n: nat, before: seq<(Kind, string)>, acked: seq<string>)
      reads this`updates, this`acks
    {
      && Serves(decode, queue, first, n)
      && updates == before + Updates(decode, queue, first, n)
      && acks == acked + Acks(queue, first, n)
    }

    method Receive() returns (future: nat)
      modifies this`received
      ensures future == old(received) && received == old(received) + 1
    {
      future := received;
      received := received + 1;
    }

    method Stop()
      modifies this`exit, this`engineStops, this`closed
      ensures exit && closed && engineStops == old(engineStops) + 1
    {
      exit := true;
      engineStops := engineStops + 1;
      closed := true;
    }

    method Process(m: Given) returns (r: Processed)
      modifies this`exit, this`engineStops, this`closed, this`acks
      ensures r.Put? <==>
                && m.Message? && m.ackable
                && (m.kind == EngineDeactivated || m.kind == Ping
                    || (IsNotification(m.kind) && decode(m.kind, m.content).Some?))
      ensures r.Put? ==>
                r.kind == m.kind && r.data == if IsNotification(m.kind) then decode(m.kind, m.content).value else ""
      ensures r.Unexpected? <==> m.Message? && (m.kind.Other? || m.kind == EngineActivated)
      ensures acks == old(acks) + (if r.Put? then [m.id] else [])
      ensures exit <==> old(exit) || IsDeactivation(m)
      ensures closed <==> old(closed) || IsDeactivation(m)
      ensures engineStops == old(engineStops) + (if IsDeactivation(m) then 1 else 0)
    {
      if !m.Message? {
        return Raised;
      }
      if !Recognised(m.kind) {
        return Unexpected;
      }
      var data := "";
      if m.kind.EngineDeactivated? {
        Stop();
      } else if HasBody(m.kind) {
        var parsed := decode(m.kind, m.content);
        if parsed.None? {
          return Raised;
        }
        data := parsed.value;
      }
      if !m.ackable {
        return Raised;
      }
      acks := acks + [m.id];
      r := Processed.Put(m.kind, data);
    }

    /** The part of a turn of the loop that deals with one message, the n-th it serves. */
    method Serve(future: nat, ghost first: nat, ghost n: nat, ghost before: seq<(Kind, string)>,
                 ghost acked: seq<string>)
      returns (failed: bool, next: nat)
      requires !exit && future == first + n && received == future + 1
      requires Progress(first, n, before, acked) && !Deactivated(queue, first, n)
      modifies this
      ensures failed <==> !Passes(decode, queue(future))
      ensures !failed ==> next == future + 1 && received == next + 1 && (exit <==> Deactivated(queue, first, n + 1))
      ensures engineStops >= old(engineStops) && (exit ==> closed)
      ensures Progress(first, if failed then n else n + 1, before, acked)
    {
      failed, next := true, future;
      var message := queue(future);
      if message.Cancelled? {
        return;
      }
      next := Receive();
      var result := Process(message);
      if result == Raised {
        return;
      }
      failed := false;
      if result.Put? && !result.kind.Ping? {
        updates := updates + [(result.kind, result.data)];
      }
    }

    /** The exit flag at the top of a turn, which another thread may just have set. */
    method SeesExit(tick: Tick) returns (leave: bool)
      modifies this`exit, this`engineStops, this`closed
      ensures leave <==> tick.exit || old(exit)
      ensures leave ==> engineStops > old(engineStops) && (old(closed) || tick.exit <==> closed)
      ensures !leave ==> !exit && closed == old(closed) && engineStops == old(engineStops)
    {
      if tick.exit {
        Stop();
      }
      leave := exit;
      if leave {
        engineStops := engineStops + 1;
      }
    }

    /** One turn of the loop, with n items served before it. */
    method TakeTurn(tick: Tick, future: nat, ghost first: nat, ghost n: nat, ghost before: seq<(Kind, string)>,
                    ghost acked: seq<string>)
      returns (end: End, next: nat)
      requires future == first + n && received == future + 1
      requires Progress(first, n, before, acked) && (Deactivated(queue, first, n) ==> exit)
      modifies this
      ensures future <= next && Progress(first, next - first, before, acked)
      ensures end == Exited <==> tick.exit || old(exit)
      ensures end == Exited ==>
                next == future && engineStops > old(engineStops) && (old(closed) || tick.exit <==> closed)
      ensures end != Exited ==> engineStops >= old(engineStops) && (exit ==> closed)
      ensures end == Failed ==> next == future && tick.resolved && !Passes(decode, queue(future))
      ensures end == Running ==>
                && next == (if tick.resolved then future + 1 else future) && received == next + 1
                && (exit <==> Deactivated(queue, first, next - first))
    {
      next := future;
      var leave := SeesExit(tick);
      if leave {
        return Exited, future;
      }
      if !tick.resolved {
        return Running, future;
      }
      var failed;
      failed, next := Serve(future, first, n, before, acked);
      if failed {
        return Failed, future;
      }
      end := Running;
    }

    /**
     * Whatever the timeouts: the loop serves items first, first + 1, ... without a gap or a
     * repetition, one for each resolved future, and its updates and acks are exactly theirs. It
     * fails only at an item that raises, and exits only when told to. When it exits it
     * tells the engine to stop, and the stream is closed unless the exit flag was set before.
     */
    method DriverLoop(ticks: seq<Tick>) returns (end: End, served: nat, used: nat)
      modifies this
      ensures used <= |ticks| && Progress(old(received), served, old(updates), old(acks))
      ensures end == Running ==> used == |ticks| && Passed(ticks, used, served)
      ensures end == Failed ==> Passed(ticks, used, served + 1) && !Passes(decode, queue(old(received) + served))
      ensures end == Exited ==>
                && 0 < used && Passed(ticks, used - 1, served)
                && (ticks[used - 1].exit || old(exit) || Deactivated(queue, old(received), served))
      ensures end == Exited ==> engineStops > old(engineStops) && (old(exit) || closed)
    {
      ghost var first, before, acked := received, updates, acks;
      var future := Receive();
      end, served, used := Running, 0, 0;
      while used < |ticks|
        invariant end == Running && used <= |ticks| && Passed(ticks, used, served)
        invariant future == first + served && received == future + 1
        invariant Progress(first, served, before, acked)
        invariant exit <==> old(exit) || Deactivated(queue, first, served)
        invariant engineStops >= old(engineStops) && (exit ==> old(exit) || closed)
      {
        var tick := ticks[used];
        used := used + 1;
        end, future := TakeTurn(tick, future, first, served, before, acked);
        if end == Exited {
          return;
        }
        if end == Failed {
          return;
        }
        served := if tick.resolved then served + 1 else served;
      }
    }

    /**
     * Before the loop, for every placement of timeouts: one message for each resolved future is
     * dropped without an ack, until the activation, which is acknowledged; the next future is then
     * for the item right after it. It breaks off exactly at an item that is no message, or at an
     * activation that cannot be parsed or acknowledged.
     */
    method WaitUntilActive(ticks: seq<Tick>)
      returns (end: WaitEnd, startup: Option<string>, dropped: nat, used: nat)
      modifies this
      ensures used <= |ticks| && updates == old(updates) && exit == old(exit)
      ensures closed == old(closed) && engineStops == old(engineStops)
      ensures forall k | old(received) <= k < old(received) + dropped ::
                queue(k).Message? && queue(k).kind != EngineActivated
      ensures end == StillWaiting ==> used == |ticks| && dropped == ResolvedIn(ticks, used)
      ensures end != StillWaiting ==> dropped + 1 == ResolvedIn(ticks, used)
      ensures end == Activated ==>
                var m := queue(old(received) + dropped);
                && m.Message? && m.kind == EngineActivated
                && startup.Some? && startup == decode(EngineActivated, m.content)
                && acks == old(acks) + [m.id]
                && received == old(received) + dropped + 1
      ensures end == Broken ==>
                var m := queue(old(received) + dropped);
                m.Message? ==> m.kind == EngineActivated && (!m.ackable || decode(EngineActivated, m.content).None?)
      ensures end != Activated ==> acks == old(acks) && startup.None?
    {
      ghost var first := received;
      var future := Receive();
      end, startup, dropped, used := StillWaiting, None, 0, 0;
      while used < |ticks|
        invariant used <= |ticks| && dropped == ResolvedIn(ticks, used)
        invariant end == StillWaiting && startup.None?
        invariant future == first + dropped && received == future + 1
        invariant forall k | first <= k < first + dropped :: queue(k).Message? && queue(k).kind != EngineActivated
        invariant acks == old(acks) && updates == old(updates) && exit == old(exit)
        invariant closed == old(closed) && engineStops == old(engineStops)
      {
        var tick := ticks[used];
        used := used + 1;
        if !tick.resolved {
          continue;
        }
        var message := queue(future);
        if !message.Message? {
          end := Broken;
          return;
        }
        if message.kind.EngineActivated? {
          var parsed := decode(EngineActivated, message.content);
          if parsed.None? || !message.ackable {
            end := Broken;
            return;
          }
          acks := acks + [message.id];
          end, startup := Activated, parsed;
          return;
        }
        future := Receive();
        dropped := dropped + 1;
      }
    }
  }
}
