/** The objects of the messaging layer; each method is proved to be its step of the state machine. */
module Futures {
  import opened Messaging

  class Future {
    const correlationId: Id
    var value: FutureValue

    constructor (correlationId: Id)
      ensures this.correlationId == correlationId && value == Unresolved
    {
      this.correlationId, this.value := correlationId, Unresolved;
    }

    method Done() returns (done: bool)
      ensures done <==> value != Unresolved
    {
      done := value != Unresolved;
    }

    method SetResult(v: FutureValue)
      modifies this
      ensures value == v
    {
      value := v;
    }
  }

  /** From one registry to the other, every future waited for gets the value, and nothing else changes. */
  ghost predicate SetsAll(before: Registry, after: Registry, v: FutureValue) {
    && after.waiting == before.waiting
    && after.values.Keys == before.values.Keys
    && forall id | id in before.values :: after.values[id] == if id in before.waiting then v else before.values[id]
  }

  lemma BreaksAll(before: Registry, after: Registry)
    requires SetsAll(before, after, Broken)
    ensures after == BreakAll(before)
  {
  }

  class FutureCollection {
    var futures: map<Id, Future>
    ghost var everPut: map<Id, Future>

    ghost predicate Valid()
      reads this, everPut.Values
    {
      && (forall id | id in everPut :: everPut[id].correlationId == id)
      && (forall id | id in futures :: id in everPut && everPut[id] == futures[id])
    }

    ghost function Contents(): Registry
      reads this, everPut.Values
    {
      Registry(map id | id in everPut :: everPut[id].value, futures.Keys)
    }

    constructor ()
      ensures Valid() && Contents() == Registry(map[], {}) && everPut == map[]
    {
      futures, everPut := map[], map[];
    }

    method Put(future: Future)
      requires Valid() && future.value == Unresolved
      modifies this
      ensures Valid() && Contents() == PutFuture(old(Contents()), future.correlationId)
      ensures everPut == old(everPut)[future.correlationId := future]
    {
      futures := futures[future.correlationId := future];
      everPut := everPut[future.correlationId := future];
    }

    /** False stands for FutureCollectionKeyError. */
    method SetResult(id: Id, v: FutureValue) returns (found: bool)
      requires Valid()
      modifies if id in futures then {futures[id]} else {}
      ensures Valid() && everPut == old(everPut) && futures == old(futures)
      ensures found <==> id in futures
      ensures found ==> Contents() == old(Contents()).(values := old(Contents()).values[id := v])
      ensures !found ==> Contents() == old(Contents())
    {
      found := id in futures;
      if found {
        futures[id].SetResult(v);
      }
    }

    method Remove(id: Id) returns (found: bool)
      requires Valid()
      modifies this
      ensures Valid() && everPut == old(everPut)
      ensures found <==> id in old(futures)
      ensures Contents() == old(Contents()).(waiting := old(Contents()).waiting - {id})
    {
      found := id in futures;
      if found {
        futures := futures - {id};
      }
    }

    /** The loop over `future_values()` that a disconnect runs; the futures stay in the collection. */
    method ResolveAll(v: FutureValue)
      requires Valid()
      modifies futures.Values
      ensures Valid() && SetsAll(old(Contents()), Contents(), v)
    {
      var left := futures.Keys;
      while left != {}
        modifies futures.Values
        invariant left <= futures.Keys && Valid()
        invariant forall id | id in everPut ::
          everPut[id].value == (if id in futures && id !in left then v else old(everPut[id].value))
      {
        var id :| id in left;
        futures[id].SetResult(v);
        left := left - {id};
      }
    }
  }
}

module Streams {
  import opened Common
  import opened Messaging
  import opened Futures

  class SendReceiveThread {
    const futures: FutureCollection
    var ready: bool
    var firstTime: bool
    var sendQueue: Option<seq<Message>>
    var recvQueue: Option<seq<Item>>
    ghost var checked: set<Id>
    ghost var connection: nat

    ghost predicate Valid()
      reads this, futures, futures.everPut.Values
    {
      && futures.Valid()
      && connection >= 1
      && (ready ==> sendQueue.Some? && recvQueue.Some?)
    }

    ghost function Contents(): Link
      reads this, futures, futures.everPut.Values
    {
      Link(checked, futures.Contents(), ready, connection, sendQueue, recvQueue)
    }

    /** The first pass of `run`, up to running the event loop. */
    constructor ()
      ensures Valid() && Contents() == Initial() && fresh(futures)
    {
      futures := new FutureCollection();
      ready, firstTime := true, true;
      sendQueue, recvQueue := Some([]), Some([]);
      checked, connection := {}, 1;
    }

    /** One turn of `_receive_message`. */
    method Receive(m: Message)
      requires Valid()
      modifies this, futures, futures.futures.Values
      ensures Valid() && Contents() == Step(old(Contents()), Event.Receive(m))
    {
      if !ready {
        return;
      }
      var found := futures.SetResult(m.id, Answer(m.kind, m.content));
      if found {
        found := futures.Remove(m.id);
      } else {
        recvQueue := Some(recvQueue.value + [Incoming(m)]);
      }
    }

    method Disconnect()
      requires Valid()
      modifies this, futures.futures.Values
      ensures Valid() && Contents() == Step(old(Contents()), Event.Disconnect)
    {
      if !ready {
        return;
      }
      ready := false;
      ghost var before := futures.Contents();
      futures.ResolveAll(Broken);
      BreaksAll(before, futures.Contents());
      sendQueue, recvQueue := None, None;
    }

    /** A later pass of `run`, up to running the event loop again. */
    method Connect()
      requires Valid()
      modifies this
      ensures Valid() && Contents() == Step(old(Contents()), Event.Connect)
    {
      if ready {
        return;
      }
      firstTime := false;
      sendQueue, recvQueue := Some([]), Some([]);
      if !firstTime {
        recvQueue := Some(recvQueue.value + [ReconnectEvent]);
      }
      assert recvQueue.value == [ReconnectEvent];
      connection := connection + 1;
      ready := true;
    }

    method PutMessage(m: Message)
      requires Valid()
      modifies this`sendQueue
      ensures Valid() && Contents() == Step(old(Contents()), Enqueue(m))
    {
      if !ready {
        return;
      }
      sendQueue := Some(sendQueue.value + [m]);
    }

    /** One turn of `_send_message`; None while there is nothing to send. */
    method SendMessage() returns (m: Option<Message>)
      requires Valid()
      modifies this`sendQueue
      ensures Valid() && Contents() == Step(old(Contents()), Transmit)
      ensures m == NextOut(old(Contents()))
      ensures m == if ready && old(sendQueue).Some? && old(sendQueue).value != [] then Some(old(sendQueue).value[0])
                   else None
    {
      m := None;
      if ready && sendQueue.value != [] {
        m := Some(sendQueue.value[0]);
        sendQueue := Some(sendQueue.value[1..]);
      }
    }

    /** What `_get_message` gives; None while there is nothing to give. */
    method GetMessage() returns (item: Option<Item>)
      requires Valid()
      modifies this`recvQueue
      ensures Valid() && Contents() == Step(old(Contents()), Take)
      ensures item == Next(old(Contents()))
    {
      item := None;
      if recvQueue.Some? && recvQueue.value != [] {
        item := Some(recvQueue.value[0]);
        recvQueue := Some(recvQueue.value[1..]);
      }
    }
  }

  class Stream {
    const thread: SendReceiveThread

    ghost predicate Valid()
      reads this, thread, thread.futures, thread.futures.everPut.Values
    {
      thread.Valid()
    }

    constructor ()
      ensures Valid() && thread.Contents() == Initial() && fresh(thread)
    {
      thread := new SendReceiveThread();
    }

    /** The ready check at the head of `send`; false stands for ValidatorConnectionError. */
    method CheckReady(id: Id) returns (ok: bool)
      requires Valid()
      modifies thread`checked
      ensures Valid() && thread.Contents() == Step(old(thread.Contents()), Check(id))
      ensures ok <==> thread.ready
    {
      ok := thread.ready;
      if ok {
        thread.checked := thread.checked + {id};
      }
    }

    /** The middle of `send`, reached only when the check passed. */
    method StoreFuture(id: Id) returns (future: Future)
      requires Valid() && id in thread.checked
      modifies thread`checked, thread.futures
      ensures Valid() && thread.Contents() == Step(old(thread.Contents()), Event.Put(id))
      ensures fresh(future) && future.correlationId == id
      ensures id in thread.futures.everPut && thread.futures.everPut[id] == future
    {
      future := new Future(id);
      thread.futures.Put(future);
      thread.checked := thread.checked - {id};
    }

    /** `send` when no other step comes between its parts; None stands for ValidatorConnectionError. */
    method Send(kind: nat, id: Id, content: string) returns (r: Option<Future>)
      requires Valid()
      modifies thread, thread.futures
      ensures Valid()
      ensures thread.Contents()
           == if old(thread.ready)
              then
                Step(Step(Step(old(thread.Contents()), Check(id)), Event.Put(id)),
                     Enqueue(Message(kind, id, content)))
              else old(thread.Contents())
      ensures r.Some? <==> old(thread.ready)
      ensures r.Some? ==>
                && fresh(r.value) && r.value.correlationId == id
                && id in thread.futures.everPut && thread.futures.everPut[id] == r.value
    {
      var ok := CheckReady(id);
      if !ok {
        return None;
      }
      var future := StoreFuture(id);
      thread.PutMessage(Message(kind, id, content));
      r := Some(future);
    }

    /** False stands for ValidatorConnectionError. */
    method SendBack(kind: nat, id: Id, content: string) returns (ok: bool)
      requires Valid()
      modifies thread`sendQueue
      ensures Valid() && thread.Contents() == Step(old(thread.Contents()), Enqueue(Message(kind, id, content)))
      ensures ok <==> thread.ready
    {
      ok := thread.ready;
      if ok {
        thread.PutMessage(Message(kind, id, content));
      }
    }
  }
}
