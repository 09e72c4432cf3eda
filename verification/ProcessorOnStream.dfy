/** The processor's loop over what the stream gives it. */
module ProcessorOnStream {
  import opened Common
  import opened Routing
  import opened Messaging
  import opened Processing

  /** The turn is the loop's handling of this item. */
  ghost predicate TurnFor(turn: Turn, item: Item) {
    match item
    case ReconnectEvent => turn.Reconnected?
    case Incoming(m) => turn.Got? && turn.request.id == m.id
  }

  /** The loop got as far as beginning turn i. */
  ghost predicate Reached(c: Config, turns: seq<Turn>, i: nat)
    requires i < |turns|
  {
    Loop(c, turns[..i], false).1 == Accepted
  }

  lemma {:induction false} ReachedEarlier(c: Config, turns: seq<Turn>, i: nat, j: nat)
    requires j < i < |turns| && Reached(c, turns, i)
    ensures Reached(c, turns, j) && HandleTurn(c, turns[j], false).1 == Accepted
    decreases i - j
  {
    assert turns[..i][..i - 1] == turns[..i - 1];
    if j < i - 1 {
      ReachedEarlier(c, turns, i - 1, j);
    }
  }

  /** The first item taken from the connection that item i came from. */
  lemma {:induction false} FirstOfConnection(events: seq<Event>, i: nat) returns (j: nat)
    requires i < |Taken(events)| && Taken(events)[i].0 >= 2
    ensures j <= i && Taken(events)[j] == (Taken(events)[i].0, ReconnectEvent)
  {
    TakenStarts(events);
    j := i;
    assert RightAt(Taken(events), j);
    while j > 0 && Taken(events)[j - 1].0 == Taken(events)[i].0
      invariant j <= i && Taken(events)[j].0 == Taken(events)[i].0 && RightAt(Taken(events), j)
    {
      j := j - 1;
    }
  }

  /**
   * In every interleaving of the stream's steps, a message that came in on a connection after
   * the first is handled by the main loop only after a registration of all handlers that began
   * with that connection's reconnect event, and that was accepted. `at` are the turns that got
   * the items the client took, in order; any others were cancelled by a disconnect or
   * interrupted, and may come anywhere.
   */
  lemma RegisteredFirst(c: Config, events: seq<Event>, turns: seq<Turn>, at: seq<nat>, i: nat) returns (j: nat)
    requires |at| <= |Taken(events)|
    requires forall k, l | 0 <= k < l < |at| :: at[k] < at[l]
    requires forall k | 0 <= k < |at| :: at[k] < |turns| && TurnFor(turns[at[k]], Taken(events)[k].1)
    requires i < |at| && turns[at[i]].Got? && Taken(events)[i].0 >= 2 && Reached(c, turns, at[i])
    ensures j < i && Taken(events)[j] == (Taken(events)[i].0, ReconnectEvent)
    ensures at[j] < at[i] && Reached(c, turns, at[j])
    ensures HandleTurn(c, turns[at[j]], false)
         == ([Registering(RegisterRequests(c.handlers, c.feature, c.style))], Accepted)
  {
    j := FirstOfConnection(events, i);
    assert TurnFor(turns[at[i]], Taken(events)[i].1);
    assert TurnFor(turns[at[j]], Taken(events)[j].1);
    ReachedEarlier(c, turns, at[i], at[j]);
  }
}
