/** TransactionProcessor: which handler a request goes to, and what the validator was told about it. */
module Routing {
  import opened Common

  datatype Handler = Handler(family: string, versions: seq<string>, namespaces: seq<string>)

  datatype Header = Header(family: string, version: string)

  datatype Style = Unset | Expanded | Raw

  datatype RegisterRequest =
    RegisterRequest(family: string, version: string, namespaces: seq<string>, protocolVersion: nat, style: Style)

  predicate Matches(h: Handler, header: Header) {
    header.family == h.family && header.version in h.versions
  }

  /** The position of the handler `next(...)` gives, searching from position i. */
  function FindFrom(handlers: seq<Handler>, header: Header, i: nat): Option<nat>
    requires i <= |handlers|
    decreases |handlers| - i
  {
    if i == |handlers| then None
    else if Matches(handlers[i], header) then Some(i)
    else FindFrom(handlers, header, i + 1)
  }

  function FindHandler(handlers: seq<Handler>, header: Header): Option<nat> {
    FindFrom(handlers, header, 0)
  }

  function RequestsFor(h: Handler, feature: nat, style: Style): seq<RegisterRequest> {
    seq(|h.versions|, j requires 0 <= j < |h.versions| =>
      RegisterRequest(h.family, h.versions[j], h.namespaces, feature, style))
  }

  function RegisterRequests(handlers: seq<Handler>, feature: nat, style: Style): seq<RegisterRequest> {
    if handlers == [] then []
    else RequestsFor(handlers[0], feature, style) + RegisterRequests(handlers[1..], feature, style)
  }

  lemma {:induction false} FindFromIsFirst(handlers: seq<Handler>, header: Header, i: nat)
    requires i <= |handlers|
    ensures match FindFrom(handlers, header, i)
            case Some(k) => i <= k < |handlers| && Matches(handlers[k], header)
                            && forall j | i <= j < k :: !Matches(handlers[j], header)
            case None => forall j | i <= j < |handlers| :: !Matches(handlers[j], header)
    decreases |handlers| - i
  {
    if i < |handlers| && !Matches(handlers[i], header) {
      FindFromIsFirst(handlers, header, i + 1);
    }
  }

  ghost predicate Asks(r: RegisterRequest, header: Header) {
    r.family == header.family && r.version == header.version
  }

  lemma {:induction false} AskedIffMatched(handlers: seq<Handler>, header: Header, feature: nat, style: Style)
    ensures (exists r | r in RegisterRequests(handlers, feature, style) :: Asks(r, header))
       <==> (exists h | h in handlers :: Matches(h, header))
  {
    if handlers != [] {
      var h, own := handlers[0], RequestsFor(handlers[0], feature, style);
      AskedIffMatched(handlers[1..], header, feature, style);
      assert handlers == [h] + handlers[1..];
      if Matches(h, header) {
        var j :| 0 <= j < |h.versions| && h.versions[j] == header.version;
        assert own[j] in own && Asks(own[j], header);
        assert own[j] in RegisterRequests(handlers, feature, style);
      }
      forall r | r in own && Asks(r, header)
        ensures Matches(h, header)
      {
        var j :| 0 <= j < |own| && own[j] == r;
      }
    }
  }

  /**
   * A header finds a handler exactly when some registration request asked for it, and then the
   * earliest that matches.
   */
  lemma RoutedIffRegistered(handlers: seq<Handler>, header: Header, feature: nat, style: Style)
    ensures FindHandler(handlers, header).Some?
       <==> (exists r | r in RegisterRequests(handlers, feature, style) :: Asks(r, header))
    ensures match FindHandler(handlers, header)
            case Some(k) => k < |handlers| && Matches(handlers[k], header)
                            && forall j | 0 <= j < k :: !Matches(handlers[j], header)
            case None => forall h | h in handlers :: !Matches(h, header)
  {
    FindFromIsFirst(handlers, header, 0);
    AskedIffMatched(handlers, header, feature, style);
  }

  ghost function Before(handlers: seq<Handler>, i: nat): nat
    requires i <= |handlers|
  {
    if i == 0 then 0 else |handlers[0].versions| + Before(handlers[1..], i - 1)
  }

  /** One request for each handler and version, handlers in the order added and versions in the order listed. */
  lemma {:induction false} RequestsInOrder(handlers: seq<Handler>, feature: nat, style: Style, i: nat, j: nat)
    requires i < |handlers| && j < |handlers[i].versions|
    ensures |RegisterRequests(handlers, feature, style)| == Before(handlers, |handlers|)
    ensures Before(handlers, i) + j < |RegisterRequests(handlers, feature, style)|
    ensures RegisterRequests(handlers, feature, style)[Before(handlers, i) + j]
         == RegisterRequest(handlers[i].family, handlers[i].versions[j], handlers[i].namespaces, feature, style)
  {
    RequestCount(handlers, feature, style);
    if i > 0 {
      RequestsInOrder(handlers[1..], feature, style, i - 1, j);
    }
  }

  lemma {:induction false} RequestCount(handlers: seq<Handler>, feature: nat, style: Style)
    ensures |RegisterRequests(handlers, feature, style)| == Before(handlers, |handlers|)
  {
    if handlers != [] {
      RequestCount(handlers[1..], feature, style);
    }
  }

  lemma {:induction false} FindFromAdded(handlers: seq<Handler>, h: Handler, header: Header, i: nat)
    requires i <= |handlers|
    ensures FindFrom(handlers + [h], header, i) ==
            if FindFrom(handlers, header, i).Some? then FindFrom(handlers, header, i)
            else if Matches(h, header) then Some(|handlers|) else None
    decreases |handlers| - i
  {
    if i < |handlers| && !Matches(handlers[i], header) {
      FindFromAdded(handlers, h, header, i + 1);
    } else if i == |handlers| {
      assert (handlers + [h])[i] == h;
    }
  }

  lemma {:induction false} RequestsAdded(handlers: seq<Handler>, h: Handler, feature: nat, style: Style)
    ensures RegisterRequests(handlers + [h], feature, style)
         == RegisterRequests(handlers, feature, style) + RequestsFor(h, feature, style)
  {
    if handlers == [] {
      assert RegisterRequests([h][1..], feature, style) == [];
    } else {
      RequestsAdded(handlers[1..], h, feature, style);
      assert (handlers + [h])[1..] == handlers[1..] + [h];
    }
  }

  /**
   * Adding a handler leaves every route there was and adds one for each header that only the
   * new handler matches; its registration requests come last.
   */
  lemma AddingKeepsRoutes(handlers: seq<Handler>, h: Handler, header: Header, feature: nat, style: Style)
    ensures FindHandler(handlers, header).Some? ==>
              FindHandler(handlers + [h], header) == FindHandler(handlers, header)
    ensures FindHandler(handlers, header).None? ==>
              FindHandler(handlers + [h], header) == if Matches(h, header) then Some(|handlers|) else None
    ensures RegisterRequests(handlers + [h], feature, style)
         == RegisterRequests(handlers, feature, style) + RequestsFor(h, feature, style)
  {
    FindFromAdded(handlers, h, header, 0);
    RequestsAdded(handlers, h, feature, style);
  }
}
