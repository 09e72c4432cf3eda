/** Where a counter's value comes from: the accepted commands of a run, whatever else the run does. */
module IntkeyLedger {
  import opened Common
  import opened Outcomes
  import opened Validator
  import opened Addresses
  import opened Intkey
  import opened Families
  import IntkeyRefinement

  /** This transaction is an accepted command whose payload has this verb and name. */
  ghost predicate Accepted(w: World, tx: Tx, outcome: Outcome, verb: string, name: string) {
    && tx.IntkeyTx?
    && outcome.Ok?
    && HasField(w.codec, tx.payload, "Verb", StrValue(verb))
    && HasField(w.codec, tx.payload, "Name", StrValue(name))
  }

  /** What the payload has in its value field. */
  ghost function ValueField(w: World, tx: Tx): int
    requires tx.IntkeyTx?
  {
    var content := w.codec.loadsPayload(tx.payload);
    if content.Mapping? && "Value" in content.fields && content.fields["Value"].IntValue? then
      content.fields["Value"].n
    else 0
  }

  ghost function Share(w: World, tx: Tx, outcome: Outcome, verb: string, name: string): int {
    if Accepted(w, tx, outcome, verb, name) then ValueField(w, tx) else 0
  }

  /** The sum of the values of the accepted commands with this verb and name. */
  ghost function Total(w: World, txs: seq<Tx>, outcomes: seq<Outcome>, verb: string, name: string): int
    requires |txs| == |outcomes|
  {
    if txs == [] then 0
    else
      var k := |txs| - 1;
      Total(w, txs[..k], outcomes[..k], verb, name) + Share(w, txs[k], outcomes[k], verb, name)
  }

  /** How many accepted commands have this verb and name. */
  ghost function Times(w: World, txs: seq<Tx>, outcomes: seq<Outcome>, verb: string, name: string): nat
    requires |txs| == |outcomes|
  {
    if txs == [] then 0
    else
      var k := |txs| - 1;
      Times(w, txs[..k], outcomes[..k], verb, name) + (if Accepted(w, txs[k], outcomes[k], verb, name) then 1 else 0)
  }

  /** What was set, plus what was added, minus what was taken away. */
  ghost function Balance(w: World, txs: seq<Tx>, outcomes: seq<Outcome>, name: string): int
    requires |txs| == |outcomes|
  {
    Total(w, txs, outcomes, "set", name) + Total(w, txs, outcomes, "inc", name) - Total(w, txs, outcomes, "dec", name)
  }

  ghost function ValueOf(counters: Counters, name: string): int {
    if name in counters then counters[name] else 0
  }

  lemma LedgerStep(w: World, counters: Counters, tx: Tx, name: string)
    requires IntkeyRefinement.InRange(counters) && tx.IntkeyTx?
    ensures var (outcome, after) := IntkeyFlat(w, counters, tx);
            && IntkeyRefinement.InRange(after)
            && ValueOf(after, name) == ValueOf(counters, name) + Share(w, tx, outcome, "set", name)
                                     + Share(w, tx, outcome, "inc", name) - Share(w, tx, outcome, "dec", name)
            && (name in counters ==> name in after && !Accepted(w, tx, outcome, "set", name))
            && (name !in counters ==> (name in after <==> Accepted(w, tx, outcome, "set", name)))
            && (name !in after ==> forall verb :: !Accepted(w, tx, outcome, verb, name))
  {
    UnpackedIsValid(w.codec, tx.payload);
    if Unpack(w.codec, tx.payload).Ok? {
      var c := Unpack(w.codec, tx.payload).value;
      UnpackExact(w.codec, tx.payload, c);
      assert forall verb :: HasField(w.codec, tx.payload, "Verb", StrValue(verb)) <==> verb == c.verb;
      IntkeyRefinement.KeepsRange(counters, c);
    }
  }

  /**
   * Conservation, for every run of both families from empty state, whatever faults: a counter exists exactly when
   * a set of its name was accepted, which happens at most once; its value, always in range, is
   * its balance; and nothing is accepted for a name that was never set.
   */
  lemma {:induction false} Conservation(w: World, txs: seq<Tx>, name: string)
    ensures var (outcomes, _, counters) := FlatRun(w, txs);
            && |outcomes| == |txs|
            && IntkeyRefinement.InRange(counters)
            && Times(w, txs, outcomes, "set", name) == (if name in counters then 1 else 0)
            && ValueOf(counters, name) == Balance(w, txs, outcomes, name)
            && (name !in counters ==> forall verb :: Times(w, txs, outcomes, verb, name) == 0)
    decreases |txs|
  {
    if txs != [] {
      var k := |txs| - 1;
      var (outcomes, _, counters) := FlatRun(w, txs[..k]);
      Conservation(w, txs[..k], name);
      assert FlatRun(w, txs).0[..k] == outcomes;
      if txs[k].IntkeyTx? {
        LedgerStep(w, counters, txs[k], name);
      }
    }
  }

  /** What the ledger lets through: set a name never set, move a set one to a value in range. */
  ghost predicate Allowed(c: Command, times: nat, balance: int) {
    && (c.verb == "set" ==> times == 0)
    && (c.verb == "inc" ==> times > 0 && balance + c.value <= 4294967295)
    && (c.verb == "dec" ==> times > 0 && balance - c.value >= 0)
  }

  ghost predicate AllowedNow(w: World, txs: seq<Tx>, outcomes: seq<Outcome>, c: Command)
    requires |txs| == |outcomes|
  {
    Allowed(c, Times(w, txs, outcomes, "set", c.name), Balance(w, txs, outcomes, c.name))
  }

  /** A command on a flat map whose value of the name is the ledger's. */
  lemma FlatDoAllowed(c: Command, counters: Counters, times: nat, balance: int)
    requires ValidCommand(c) && IntkeyRefinement.InRange(counters)
    requires times == (if c.name in counters then 1 else 0) && balance == ValueOf(counters, c.name)
    ensures var r := IntkeyRefinement.FlatDo(c, counters);
            && (r.Ok? <==> Allowed(c, times, balance))
            && (c.verb == "set" && times > 0 ==> r == Err(Invalid(AlreadySet)))
            && (c.verb != "set" && times == 0 ==> r == Err(Invalid(NotSet)))
            && (c.verb == "inc" && times > 0 && balance + c.value > 4294967295 ==> r == Err(Invalid(TooLarge)))
            && (c.verb == "dec" && times > 0 && balance - c.value < 0 ==> r == Err(Invalid(TooSmall)))
  {
  }

  /**
   * After every run, the next command whose requests succeed goes through exactly when its payload
   * says what the ledger allows.
   */
  lemma AcceptedIffAllowed(w: World, txs: seq<Tx>, payload: string)
    ensures var (outcomes, _, counters) := FlatRun(w, txs);
            && |outcomes| == |txs|
            && (IntkeyRefinement.FlatStep(w.codec, counters, payload).0.Ok? <==>
                  exists c :: Says(w.codec, payload, c) && AllowedNow(w, txs, outcomes, c))
  {
    var (outcomes, _, counters) := FlatRun(w, txs);
    Conservation(w, txs, "");
    UnpackedIsValid(w.codec, payload);
    forall c | Says(w.codec, payload, c)
      ensures Unpack(w.codec, payload) == Ok(c)
    {
      UnpackExact(w.codec, payload, c);
    }
    if Unpack(w.codec, payload).Ok? {
      var c := Unpack(w.codec, payload).value;
      UnpackExact(w.codec, payload, c);
      Conservation(w, txs, c.name);
      FlatDoAllowed(c, counters, Times(w, txs, outcomes, "set", c.name), Balance(w, txs, outcomes, c.name));
    }
  }

  // ----- the same, of the state and of apply -----

  /**
   * For every run of both families over the validator's state: what the handler loads at a name's
   * address has the name exactly when a set of it was accepted, and then its value is its balance.
   */
  lemma StoredConservation(w: World, txs: seq<Tx>, name: string)
    requires w.Sound() && Signed(txs)
    ensures var (outcomes, store) := Run(w, txs);
            var loaded := CountersIn(w.codec, Visible(store, IntkeyAddress(w.sha, name)));
            && |outcomes| == |txs| && loaded.Ok?
            && Times(w, txs, outcomes, "set", name) == (if name in AsMap(loaded.value) then 1 else 0)
            && ValueOf(AsMap(loaded.value), name) == Balance(w, txs, outcomes, name)
            && 0 <= Balance(w, txs, outcomes, name) <= 4294967295
  {
    RunRefines(w, txs);
    Conservation(w, txs, name);
    IntkeyRefinement.SeesBucket(w.sha, w.codec, Run(w, txs).1, FlatRun(w, txs).2, name);
  }

  /**
   * After every run, apply returns for the next command exactly when its read is answered, its
   * write is carried out and answered, and its payload says what the ledger allows.
   */
  lemma AppliedIffAllowed(w: World, txs: seq<Tx>, tx: Tx)
    requires w.Sound() && Signed(txs) && tx.IntkeyTx?
    ensures var (outcomes, store) := Run(w, txs);
            && |outcomes| == |txs|
            && (Step(w, store, tx).outcome.Ok? <==>
                  && IsAnswer(tx.faults.first) && tx.faults.second == Done
                  && exists c :: Says(w.codec, tx.payload, c) && AllowedNow(w, txs, outcomes, c))
  {
    var (_, games, counters) := FlatRun(w, txs);
    RunRefines(w, txs);
    StepStands(w, Run(w, txs).1, games, counters, tx);
    AcceptedIffAllowed(w, txs, tx.payload);
    OutcomesUnderFaults(tx.faults, Err(Internal(StateError)),
                        IntkeyRefinement.FlatStep(w.codec, counters, tx.payload).0);
  }

  /** And when its requests succeed but the ledger does not allow it, the reason is the ledger's. */
  lemma RefusedBecause(w: World, txs: seq<Tx>, tx: Tx, c: Command)
    requires w.Sound() && Signed(txs) && tx.IntkeyTx? && IsAnswer(tx.faults.first)
    requires Says(w.codec, tx.payload, c)
    ensures var (outcomes, store) := Run(w, txs);
            && |outcomes| == |txs|
            && var outcome := Step(w, store, tx).outcome;
               var times, balance := Times(w, txs, outcomes, "set", c.name), Balance(w, txs, outcomes, c.name);
               && (c.verb == "set" && times > 0 ==> outcome == Err(Invalid(AlreadySet)))
               && (c.verb != "set" && times == 0 ==> outcome == Err(Invalid(NotSet)))
               && (c.verb == "inc" && times > 0 && balance + c.value > 4294967295 ==> outcome == Err(Invalid(TooLarge)))
               && (c.verb == "dec" && times > 0 && balance - c.value < 0 ==> outcome == Err(Invalid(TooSmall)))
  {
    var (outcomes, games, counters) := FlatRun(w, txs);
    RunRefines(w, txs);
    StepStands(w, Run(w, txs).1, games, counters, tx);
    UnpackExact(w.codec, tx.payload, c);
    UnpackedIsValid(w.codec, tx.payload);
    Conservation(w, txs, c.name);
    FlatDoAllowed(c, counters, Times(w, txs, outcomes, "set", c.name), Balance(w, txs, outcomes, c.name));
    OutcomesUnderFaults(tx.faults, Err(Internal(StateError)),
                        IntkeyRefinement.FlatStep(w.codec, counters, tx.payload).0);
  }
}
