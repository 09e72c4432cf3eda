/** The intkey family: named counters between 0 and 2^32 - 1. */
module Intkey {
  import opened Common
  import opened Outcomes
  import opened Validator
  import opened Addresses

  const MIN_VALUE := 0
  const MAX_VALUE := 4294967295
  const MAX_NAME_LENGTH := 20

  type Counters = map<string, int>

  /** A dict of counters with its entries in the order they were inserted. */
  type Listing = seq<(string, int)>

  function AsMap(d: Listing): Counters {
    if d == [] then map[] else AsMap(d[1..])[d[0].0 := d[0].1]
  }

  /** `d[name] = value` on a copy: in place if the name is there, at the end otherwise. */
  function Assign(d: Listing, name: string, value: int): Listing {
    if d == [] then [(name, value)]
    else if d[0].0 == name then [(name, value)] + d[1..]
    else [d[0]] + Assign(d[1..], name, value)
  }

  lemma {:induction false} AssignMaps(d: Listing, name: string, value: int)
    ensures AsMap(Assign(d, name, value)) == AsMap(d)[name := value]
  {
    if d != [] {
      if d[0].0 != name {
        AssignMaps(d[1..], name, value);
        assert Assign(d, name, value)[1..] == Assign(d[1..], name, value);
      } else {
        assert Assign(d, name, value)[1..] == d[1..];
      }
    }
  }

  ghost function NamesOf(d: Listing): seq<string> {
    seq(|d|, i requires 0 <= i < |d| => d[i].0)
  }

  /** A name that is there keeps its place, a new one comes last, and no other moves. */
  lemma {:induction false} AssignKeepsPlaces(d: Listing, name: string, value: int)
    ensures NamesOf(Assign(d, name, value)) == if name in NamesOf(d) then NamesOf(d) else NamesOf(d) + [name]
  {
    if d != [] {
      assert NamesOf(d) == [d[0].0] + NamesOf(d[1..]);
      if d[0].0 != name {
        AssignKeepsPlaces(d[1..], name, value);
        assert NamesOf(Assign(d, name, value)) == [d[0].0] + NamesOf(Assign(d[1..], name, value));
      }
    }
  }

  datatype Value = IntValue(n: int) | StrValue(s: string) | OtherValue

  /** What cbor.loads makes of a payload. NotMapping is anything that content['Verb'] trips over. */
  datatype Content = Malformed | NotMapping | Mapping(fields: map<string, Value>)

  /** CBOR, as far as the handler depends on it. The text of a dict depends on the order of its entries. */
  datatype Codec = Codec(
    loadsPayload: string -> Content,
    loads: string -> Option<Listing>,
    dumps: Listing -> string)
  {
    /** This text is not empty and loads to these counters, in whatever order. */
    ghost predicate Reads(text: string, counters: Counters) {
      text != "" && loads(text).Some? && AsMap(loads(text).value) == counters
    }

    /** Loading what was dumped gives the same counters. */
    ghost predicate Faithful() {
      forall d {:trigger dumps(d)} :: Reads(dumps(d), AsMap(d))
    }
  }

  datatype Command = Command(verb: string, name: string, value: int)

  /** A field that is missing raises KeyError, which the handler does not catch. */
  function Unpack(codec: Codec, payload: string): Result<Command, Failure> {
    match codec.loadsPayload(payload)
    case Malformed => Err(Invalid(BadPayload))
    case NotMapping => Err(Uncaught)
    case Mapping(fields) =>
      if "Verb" !in fields || "Name" !in fields || "Value" !in fields then Err(Uncaught)
      else Validate(fields["Verb"], fields["Name"], fields["Value"])
  }

  function Validate(verb: Value, name: Value, value: Value): Result<Command, Failure> {
    if verb !in [StrValue("set"), StrValue("inc"), StrValue("dec")] then Err(Invalid(BadVerb))
    else if !name.StrValue? || |name.s| > MAX_NAME_LENGTH then Err(Invalid(BadName))
    else if !value.IntValue? || value.n < 0 || value.n > MAX_VALUE then Err(Invalid(BadValue))
    else Ok(Command(verb.s, name.s, value.n))
  }

  ghost predicate ValidCommand(c: Command) {
    c.verb in ["set", "inc", "dec"] && |c.name| <= 20 && 0 <= c.value <= 4294967295
  }

  /** The payload is a mapping with these three fields, and they pass the three validators. */
  ghost predicate Says(codec: Codec, payload: string, c: Command) {
    && HasField(codec, payload, "Verb", StrValue(c.verb))
    && HasField(codec, payload, "Name", StrValue(c.name))
    && HasField(codec, payload, "Value", IntValue(c.value))
    && (c.verb == "set" || c.verb == "inc" || c.verb == "dec")
    && |c.name| <= 20
    && 0 <= c.value <= 4294967295
  }

  ghost predicate HasField(codec: Codec, payload: string, field: string, value: Value) {
    var content := codec.loadsPayload(payload);
    content.Mapping? && field in content.fields && content.fields[field] == value
  }

  /** A payload unpacks to a command exactly if that is what its fields say. */
  lemma UnpackExact(codec: Codec, payload: string, c: Command)
    ensures Unpack(codec, payload) == Ok(c) <==> Says(codec, payload, c)
  {
    var content := codec.loadsPayload(payload);
    if content.Mapping? && "Verb" in content.fields && content.fields["Verb"] == StrValue(c.verb) {
      assert c.verb in ["set", "inc", "dec"] <==>
        StrValue(c.verb) in [StrValue("set"), StrValue("inc"), StrValue("dec")];
    }
  }

  ghost predicate BadVerbField(v: Value) {
    v != StrValue("set") && v != StrValue("inc") && v != StrValue("dec")
  }

  ghost predicate BadNameField(v: Value) {
    !v.StrValue? || |v.s| > 20
  }

  ghost predicate BadValueField(v: Value) {
    !v.IntValue? || v.n < 0 || v.n > 4294967295
  }

  /** Why a payload is refused: it cannot be loaded, or the first of its three fields that is wrong. */
  lemma UnpackRefuses(codec: Codec, payload: string)
    ensures var content := codec.loadsPayload(payload);
            && (content.Malformed? ==> Unpack(codec, payload) == Err(Invalid(BadPayload)))
            && (content.Mapping? && {"Verb", "Name", "Value"} <= content.fields.Keys ==>
                  var (verb, name, value) := (content.fields["Verb"], content.fields["Name"], content.fields["Value"]);
                  && (BadVerbField(verb) ==> Unpack(codec, payload) == Err(Invalid(BadVerb)))
                  && (!BadVerbField(verb) && BadNameField(name) ==> Unpack(codec, payload) == Err(Invalid(BadName)))
                  && (!BadVerbField(verb) && !BadNameField(name) && BadValueField(value) ==>
                        Unpack(codec, payload) == Err(Invalid(BadValue))))
  {
    var content := codec.loadsPayload(payload);
    if content.Mapping? && {"Verb", "Name", "Value"} <= content.fields.Keys {
      assert "Verb" in content.fields && "Name" in content.fields && "Value" in content.fields;
    }
  }

  lemma UnpackedIsValid(codec: Codec, payload: string)
    ensures match Unpack(codec, payload)
            case Ok(c) => ValidCommand(c)
            case Err(f) => f.Invalid? || f.Uncaught?
  {
  }

  function DoSet(name: string, value: int, state: Listing): Result<Listing, Failure> {
    if name in AsMap(state) then Err(Invalid(AlreadySet)) else Ok(Assign(state, name, value))
  }

  function DoInc(name: string, value: int, state: Listing): Result<Listing, Failure> {
    if name !in AsMap(state) then Err(Invalid(NotSet))
    else if AsMap(state)[name] + value > MAX_VALUE then Err(Invalid(TooLarge))
    else Ok(Assign(state, name, AsMap(state)[name] + value))
  }

  function DoDec(name: string, value: int, state: Listing): Result<Listing, Failure> {
    if name !in AsMap(state) then Err(Invalid(NotSet))
    else if AsMap(state)[name] - value < MIN_VALUE then Err(Invalid(TooSmall))
    else Ok(Assign(state, name, AsMap(state)[name] - value))
  }

  function DoIntkey(c: Command, state: Listing): Result<Listing, Failure> {
    if c.verb == "set" then DoSet(c.name, c.value, state)
    else if c.verb == "inc" then DoInc(c.name, c.value, state)
    else if c.verb == "dec" then DoDec(c.name, c.value, state)
    else Err(Internal(UnhandledVerb))
  }

  function CountersIn(codec: Codec, data: Option<string>): Result<Listing, Failure> {
    match data
    case None => Ok([])
    case Some(d) =>
      match codec.loads(d)
      case Some(state) => Ok(state)
      case None => Err(Internal(UndecodableState))
  }

  function Decide(codec: Codec, result: Result<Listing, Failure>): Verdict {
    match result
    case Ok(state) => Put(codec.dumps(state))
    case Err(f) => Reject(f)
  }

  function VerdictOn(codec: Codec, c: Command, data: Option<string>): Verdict {
    match CountersIn(codec, data)
    case Ok(state) => Decide(codec, DoIntkey(c, state))
    case Err(f) => Reject(f)
  }

  function EffectOf(sha: Sha, codec: Codec, store: Store, c: Command, first: Reply, second: Reply): Effect {
    var address := IntkeyAddress(sha, c.name);
    Execute(store, address, VerdictOn(codec, c, Visible(store, address)), first, second, Err(Internal(StateError)))
  }

  /** The effect of one intkey transaction whose state requests meet these two replies. */
  function ApplyEffect(sha: Sha, codec: Codec, store: Store, payload: string, first: Reply, second: Reply): Effect {
    match Unpack(codec, payload)
    case Err(f) => Effect(Err(f), store, [])
    case Ok(c) => EffectOf(sha, codec, store, c, first, second)
  }

  class IntkeyTransactionHandler {
    const sha: Sha
    const codec: Codec

    constructor (sha: Sha, codec: Codec)
      ensures this.sha == sha && this.codec == codec
    {
      this.sha, this.codec := sha, codec;
    }

    method Apply(payload: string, context: Context) returns (outcome: Outcome)
      modifies context
      ensures var n := |old(context.requests)|;
              var e := ApplyEffect(sha, codec, old(context.store), payload, context.reply(n), context.reply(n + 1));
              && outcome == e.outcome
              && context.store == e.store
              && context.requests == old(context.requests) + e.requests
    {
      var c :- Unpack(codec, payload);
      var state :- GetStateData(c.name, context);
      var updated :- DoIntkey(c, state);
      outcome := SetStateData(c.name, updated, context);
    }

    method GetStateData(name: string, context: Context) returns (r: Result<Listing, Failure>)
      modifies context`requests
      ensures context.requests == old(context.requests) + [Get(IntkeyAddress(sha, name))]
      ensures match ReplyFailure(context.reply(|old(context.requests)|))
              case Some(f) => r == Err(f)
              case None => r == CountersIn(codec, Visible(context.store, IntkeyAddress(sha, name)))
      ensures var entry := Visible(context.store, IntkeyAddress(sha, name));
              IsAnswer(context.reply(|old(context.requests)|)) ==>
                && (entry.None? ==> r == Ok([]))
                && (entry.Some? && codec.loads(entry.value).Some? ==> r == Ok(codec.loads(entry.value).value))
                && (entry.Some? && codec.loads(entry.value).None? ==> r == Err(Internal(UndecodableState)))
    {
      var entry :- context.GetState(IntkeyAddress(sha, name));
      if entry.None? {
        return Ok([]);
      }
      var loaded := codec.loads(entry.value);
      r := if loaded.Some? then Ok(loaded.value) else Err(Internal(UndecodableState));
    }

    method SetStateData(name: string, state: Listing, context: Context) returns (outcome: Outcome)
      modifies context
      ensures var request := Set(IntkeyAddress(sha, name), codec.dumps(state));
              var reply := context.reply(|old(context.requests)|);
              && context.requests == old(context.requests) + [request]
              && context.store == AfterWrite(old(context.store), request, reply)
              && outcome == WriteOutcome(reply, Err(Internal(StateError)))
    {
      var written :- context.Write(Set(IntkeyAddress(sha, name), codec.dumps(state)));
      outcome := if written then Ok(()) else Err(Internal(StateError));
    }
  }

  /** Whatever the replies, the transaction is failure atomic and touches only its own address. */
  lemma ApplyAtomic(sha: Sha, codec: Codec, store: Store, payload: string, first: Reply, second: Reply)
    ensures var e := ApplyEffect(sha, codec, store, payload, first, second);
            && FailureAtomic(e, store)
            && (Unpack(codec, payload).Ok? ==>
                  OnlyTouches(e, store, IntkeyAddress(sha, Unpack(codec, payload).value.name)))
            && (Unpack(codec, payload).Err? ==> e.store == store && e.requests == [] && e.outcome.Err?)
  {
    match Unpack(codec, payload)
    case Err(_) =>
    case Ok(c) =>
      var address := IntkeyAddress(sha, c.name);
      ExecuteAtomic(store, address, VerdictOn(codec, c, Visible(store, address)), first, second,
                    Err(Internal(StateError)));
  }

  /**
   * An unpacked transaction under faults, compared with the same without: whatever fails makes it
   * fail and leaves the state as it was, a write that names no address included.
   */
  lemma ApplyUnderFaults(sha: Sha, codec: Codec, store: Store, payload: string, faults: Faults)
    ensures var e := ApplyEffect(sha, codec, store, payload, faults.first, faults.second);
            var done := ApplyEffect(sha, codec, store, payload, Done, Done);
            if Unpack(codec, payload).Err? then e == done && done.store == store
            else
              && e.outcome == OutcomeUnder(faults, Err(Internal(StateError)), done.outcome)
              && UnderFaults(faults, Err(Internal(StateError)), done.outcome, e.outcome)
              && Committed(e, store) == (if TakesEffect(faults, done.outcome) then done.store else store)
  {
    if Unpack(codec, payload).Ok? {
      var c := Unpack(codec, payload).value;
      var a := IntkeyAddress(sha, c.name);
      ExecuteUnderFaults(store, a, VerdictOn(codec, c, Visible(store, a)), faults, Err(Internal(StateError)));
      OutcomesUnderFaults(faults, Err(Internal(StateError)),
                          ApplyEffect(sha, codec, store, payload, Done, Done).outcome);
    }
  }

  /** Counters that cannot be loaded make any command at their address fail internally, without a write. */
  lemma BrokenStateFails(sha: Sha, codec: Codec, store: Store, payload: string, c: Command, data: string,
                         second: Reply)
    requires Says(codec, payload, c)
    requires Visible(store, IntkeyAddress(sha, c.name)) == Some(data) && codec.loads(data).None?
    ensures var e := ApplyEffect(sha, codec, store, payload, Done, second);
            e.outcome == Err(Internal(UndecodableState)) && e.store == store
  {
    UnpackExact(codec, payload, c);
  }

  /**
   * What makes a payload escape the handler's own error handling: it reads, but not as a mapping
   * with all three fields.
   */
  ghost predicate Incomplete(codec: Codec, payload: string) {
    var content := codec.loadsPayload(payload);
    || content.NotMapping?
    || (content.Mapping? && !({"Verb", "Name", "Value"} <= content.fields.Keys))
  }

  /**
   * A bad payload is an invalid transaction unless it is incomplete: a missing field raises
   * KeyError where the handler catches AttributeError, and that exception escapes.
   */
  lemma MissingFieldEscapes(sha: Sha, codec: Codec, store: Store, payload: string, first: Reply, second: Reply)
    ensures ApplyEffect(sha, codec, store, payload, first, second).outcome == Err(Uncaught)
       <==> Incomplete(codec, payload)
  {
    UnpackedIsValid(codec, payload);
    if Unpack(codec, payload).Ok? {
      var c := Unpack(codec, payload).value;
      var a := IntkeyAddress(sha, c.name);
      var verdict := VerdictOn(codec, c, Visible(store, a));
      assert verdict.Reject? ==> verdict.failure != Uncaught;
    }
  }

  /** A mapping without fields is such a payload. */
  lemma EmptyMappingEscapes(sha: Sha, codec: Codec, store: Store, payload: string)
    requires codec.loadsPayload(payload) == Mapping(map[])
    ensures ApplyEffect(sha, codec, store, payload, Done, Done).outcome == Err(Uncaught)
  {
    MissingFieldEscapes(sha, codec, store, payload, Done, Done);
  }
}

/** The meaning of the intkey family: a flat map from names to counters. */
module IntkeyRefinement {
  import opened Common
  import opened Outcomes
  import opened Validator
  import opened Buckets
  import opened Intkey
  import opened Addresses

  function FlatSet(name: string, value: int, flat: Counters): Result<Counters, Failure> {
    if name in flat then Err(Invalid(AlreadySet)) else Ok(flat[name := value])
  }

  function FlatInc(name: string, value: int, flat: Counters): Result<Counters, Failure> {
    if name !in flat then Err(Invalid(NotSet))
    else if flat[name] + value > MAX_VALUE then Err(Invalid(TooLarge))
    else Ok(flat[name := flat[name] + value])
  }

  function FlatDec(name: string, value: int, flat: Counters): Result<Counters, Failure> {
    if name !in flat then Err(Invalid(NotSet))
    else if flat[name] - value < MIN_VALUE then Err(Invalid(TooSmall))
    else Ok(flat[name := flat[name] - value])
  }

  /** A command on a mapping, its order left out of account. */
  function FlatDo(c: Command, flat: Counters): Result<Counters, Failure> {
    if c.verb == "set" then FlatSet(c.name, c.value, flat)
    else if c.verb == "inc" then FlatInc(c.name, c.value, flat)
    else if c.verb == "dec" then FlatDec(c.name, c.value, flat)
    else Err(Internal(UnhandledVerb))
  }

  function Commit(result: Result<Counters, Failure>, flat: Counters): (Outcome, Counters) {
    match result
    case Ok(after) => (Ok(()), after)
    case Err(f) => (Err(f), flat)
  }

  function FlatStep(codec: Codec, flat: Counters, payload: string): (Outcome, Counters) {
    match Unpack(codec, payload)
    case Err(f) => (Err(f), flat)
    case Ok(c) => Commit(FlatDo(c, flat), flat)
  }

  ghost predicate InRange(flat: Counters) {
    forall name | name in flat :: 0 <= flat[name] <= 4294967295
  }

  ghost function At(sha: Sha): string -> string {
    name => IntkeyAddress(sha, name)
  }

  /**
   * This part of the state stands for these counters: the addresses in use are those of the
   * names, and the text at each loads to the counters that belong there.
   */
  ghost predicate Holds(sha: Sha, codec: Codec, part: Store, flat: Counters) {
    && part.Keys == (set name | name in flat :: At(sha)(name))
    && forall a | a in part :: codec.Reads(part[a], Bucket(At(sha), flat, a))
  }

  /** What the handler loads at an address in use or not is the bucket of the flat map. */
  lemma SeesBucket(sha: Sha, codec: Codec, store: Store, flat: Counters, name: string)
    requires Holds(sha, codec, Part(store, IntkeyPrefix(sha)), flat)
    ensures var a := IntkeyAddress(sha, name);
            var loaded := CountersIn(codec, Visible(store, a));
            loaded.Ok? && AsMap(loaded.value) == Bucket(At(sha), flat, a)
  {
    var a := IntkeyAddress(sha, name);
    var part := Part(store, IntkeyPrefix(sha));
    AddressFamilies(sha, name);
    PartVisible(store, IntkeyPrefix(sha), a);
    if a !in part {
      BucketInUse(At(sha), flat, a);
    }
  }

  /** The same refusal, or a dict that holds what the mapping holds. */
  ghost predicate Mirrors(done: Result<Listing, Failure>, flat: Result<Counters, Failure>) {
    match done
    case Ok(after) => flat == Ok(AsMap(after))
    case Err(f) => flat == Err(f)
  }

  /** A dict and a mapping with the same contents, before and after the same assignment. */
  ghost predicate SameAssign(done: Result<Listing, Failure>, flat: Result<Counters, Failure>, state: Listing,
                             name: string, value: int)
  {
    done == Ok(Assign(state, name, value)) && flat == Ok(AsMap(state)[name := value])
  }

  lemma AssignMirrors(done: Result<Listing, Failure>, flat: Result<Counters, Failure>, state: Listing,
                      name: string, value: int)
    requires SameAssign(done, flat, state, name, value)
    ensures Mirrors(done, flat)
  {
    AssignMaps(state, name, value);
  }

  lemma SetMirrors(name: string, value: int, state: Listing)
    ensures Mirrors(DoSet(name, value, state), FlatSet(name, value, AsMap(state)))
  {
    if name !in AsMap(state) {
      AssignMirrors(DoSet(name, value, state), FlatSet(name, value, AsMap(state)), state, name, value);
    }
  }

  lemma IncMirrors(name: string, value: int, state: Listing)
    ensures Mirrors(DoInc(name, value, state), FlatInc(name, value, AsMap(state)))
  {
    var done, flat := DoInc(name, value, state), FlatInc(name, value, AsMap(state));
    if done.Ok? {
      AssignMirrors(done, flat, state, name, AsMap(state)[name] + value);
    }
  }

  lemma DecMirrors(name: string, value: int, state: Listing)
    ensures Mirrors(DoDec(name, value, state), FlatDec(name, value, AsMap(state)))
  {
    var done, flat := DoDec(name, value, state), FlatDec(name, value, AsMap(state));
    if done.Ok? {
      AssignMirrors(done, flat, state, name, AsMap(state)[name] - value);
    }
  }

  lemma DoMirrors(c: Command, state: Listing)
    ensures Mirrors(DoIntkey(c, state), FlatDo(c, AsMap(state)))
  {
    SetMirrors(c.name, c.value, state);
    IncMirrors(c.name, c.value, state);
    DecMirrors(c.name, c.value, state);
  }

  lemma DoesInBucket(at: string -> string, flat: Counters, c: Command)
    ensures var held := Bucket(at, flat, at(c.name));
            match FlatDo(c, flat)
            case Ok(after) =>
              && c.name in after
              && after == flat[c.name := after[c.name]]
              && FlatDo(c, held) == Ok(held[c.name := after[c.name]])
            case Err(f) => FlatDo(c, held) == Err(f)
  {
  }

  /** A command does to the dict at one address, whatever its order, what it does to the flat map. */
  lemma DoesTheSame(at: string -> string, flat: Counters, c: Command, state: Listing)
    requires AsMap(state) == Bucket(at, flat, at(c.name))
    ensures match FlatDo(c, flat)
            case Ok(after) =>
              && c.name in after
              && after == flat[c.name := after[c.name]]
              && DoIntkey(c, state).Ok?
              && AsMap(DoIntkey(c, state).value) == AsMap(state)[c.name := after[c.name]]
            case Err(f) => DoIntkey(c, state) == Err(f)
  {
    DoMirrors(c, state);
    DoesInBucket(at, flat, c);
  }

  lemma KeepsRange(flat: Counters, c: Command)
    requires InRange(flat) && ValidCommand(c)
    ensures match FlatDo(c, flat)
            case Ok(after) => InRange(after) && after - {c.name} == flat - {c.name}
            case Err(f) => f.Invalid?
  {
  }

  /** Writing any text of the updated bucket at a name's address sets that name. */
  lemma HoldsAfterSet(sha: Sha, codec: Codec, part: Store, flat: Counters, name: string, value: int, text: string)
    requires Holds(sha, codec, part, flat)
    requires codec.Reads(text, Bucket(At(sha), flat, IntkeyAddress(sha, name))[name := value])
    ensures Holds(sha, codec, part[IntkeyAddress(sha, name) := text], flat[name := value])
  {
    var a, after := IntkeyAddress(sha, name), flat[name := value];
    BucketSet(At(sha), flat, name, value);
    var used := set n | n in flat :: At(sha)(n);
    assert (set n | n in after :: At(sha)(n)) == used + {a} by {
      assert name in after && At(sha)(name) == a;
      assert forall n | n in flat :: n in after;
    }
  }

  lemma PutHolds(sha: Sha, codec: Codec, store: Store, flat: Counters, name: string, value: int, text: string)
    requires Holds(sha, codec, Part(store, IntkeyPrefix(sha)), flat)
    requires codec.Reads(text, Bucket(At(sha), flat, IntkeyAddress(sha, name))[name := value])
    ensures Holds(sha, codec, Part(store[IntkeyAddress(sha, name) := text], IntkeyPrefix(sha)), flat[name := value])
  {
    AddressFamilies(sha, name);
    HoldsAfterSet(sha, codec, Part(store, IntkeyPrefix(sha)), flat, name, value, text);
    PartWrite(store, IntkeyPrefix(sha), IntkeyAddress(sha, name), text);
  }

  lemma DumpHolds(sha: Sha, codec: Codec, store: Store, flat: Counters, name: string, value: int, done: Listing)
    requires Holds(sha, codec, Part(store, IntkeyPrefix(sha)), flat)
    requires codec.Reads(codec.dumps(done), Bucket(At(sha), flat, IntkeyAddress(sha, name))[name := value])
    ensures var e := Execute(store, IntkeyAddress(sha, name), Put(codec.dumps(done)), Done, Done,
                             Err(Internal(StateError)));
            e.outcome == Ok(()) && Holds(sha, codec, Part(e.store, IntkeyPrefix(sha)), flat[name := value])
  {
    PutHolds(sha, codec, store, flat, name, value, codec.dumps(done));
  }

  lemma CommitHolds(sha: Sha, codec: Codec, store: Store, flat: Counters, name: string,
                    done: Result<Listing, Failure>, result: Result<Counters, Failure>)
    requires Holds(sha, codec, Part(store, IntkeyPrefix(sha)), flat) && codec.Faithful()
    requires match result
             case Ok(after) =>
               && name in after && after == flat[name := after[name]] && done.Ok?
               && AsMap(done.value) == Bucket(At(sha), flat, IntkeyAddress(sha, name))[name := after[name]]
             case Err(f) => done == Err(f)
    ensures var e := Execute(store, IntkeyAddress(sha, name), Decide(codec, done), Done, Done,
                             Err(Internal(StateError)));
            && e.outcome == Commit(result, flat).0
            && Holds(sha, codec, Part(e.store, IntkeyPrefix(sha)), Commit(result, flat).1)
  {
    if result.Ok? {
      assert codec.Reads(codec.dumps(done.value), AsMap(done.value));
      DumpHolds(sha, codec, store, flat, name, result.value[name], done.value);
    }
  }

  lemma CommandRefines(sha: Sha, codec: Codec, store: Store, flat: Counters, c: Command)
    requires Holds(sha, codec, Part(store, IntkeyPrefix(sha)), flat) && codec.Faithful()
    ensures var e := EffectOf(sha, codec, store, c, Done, Done);
            && e.outcome == Commit(FlatDo(c, flat), flat).0
            && Holds(sha, codec, Part(e.store, IntkeyPrefix(sha)), Commit(FlatDo(c, flat), flat).1)
  {
    SeesBucket(sha, codec, store, flat, c.name);
    var state := CountersIn(codec, Visible(store, IntkeyAddress(sha, c.name))).value;
    DoesTheSame(At(sha), flat, c, state);
    CommitHolds(sha, codec, store, flat, c.name, DoIntkey(c, state), FlatDo(c, flat));
  }

  /**
   * One transaction on a state whose intkey part stands for a flat map: same outcome as on the
   * flat map, and the part then stands for the flat map's successor.
   */
  lemma StepRefines(sha: Sha, codec: Codec, store: Store, flat: Counters, payload: string)
    requires Holds(sha, codec, Part(store, IntkeyPrefix(sha)), flat)
    requires codec.Faithful() && InRange(flat)
    ensures var e := ApplyEffect(sha, codec, store, payload, Done, Done);
            var (outcome, after) := FlatStep(codec, flat, payload);
            && e.outcome == outcome
            && Holds(sha, codec, Part(e.store, IntkeyPrefix(sha)), after)
            && InRange(after)
            && (Unpack(codec, payload).Ok? ==>
                  var name := Unpack(codec, payload).value.name; after - {name} == flat - {name})
            && (outcome.Err? ==> after == flat && (outcome.error.Invalid? || outcome.error.Uncaught?))
  {
    UnpackedIsValid(codec, payload);
    if Unpack(codec, payload).Ok? {
      var c := Unpack(codec, payload).value;
      KeepsRange(flat, c);
      CommandRefines(sha, codec, store, flat, c);
    }
  }
}
