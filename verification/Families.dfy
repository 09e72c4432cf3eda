/** Runs of transactions of both families over one validator state. */
module Families {
  import opened Common
  import opened Outcomes
  import opened Validator
  import opened Buckets
  import opened Addresses
  import opened XoPayload
  import XoCodec
  import XoHandler
  import XoRefinement
  import Intkey
  import IntkeyRefinement

  /** A transaction, and what becomes of its state requests. */
  datatype Tx = XoTx(payload: string, signer: string, faults: Faults) | IntkeyTx(payload: string, faults: Faults)

  /** The library functions both processors are run with. */
  datatype World = World(sha: Sha, toInt: IntParser, codec: Intkey.Codec) {
    /** The two prefixes differ and CBOR can be read back. */
    ghost predicate Sound() {
      XoNamespace(sha) != IntkeyPrefix(sha) && codec.Faithful()
    }
  }

  ghost predicate Signed(txs: seq<Tx>) {
    forall tx | tx in txs && tx.XoTx? :: XoRefinement.ValidSigner(tx.signer)
  }

  ghost function Step(w: World, store: Store, tx: Tx): Effect {
    match tx
    case XoTx(payload, signer, faults) =>
      XoHandler.ApplyEffect(w.sha, w.toInt, store, payload, signer, faults.first, faults.second)
    case IntkeyTx(payload, faults) =>
      Intkey.ApplyEffect(w.sha, w.codec, store, payload, faults.first, faults.second)
  }

  /** The outcomes and the final state of a run from empty state. */
  ghost function Run(w: World, txs: seq<Tx>): (seq<Outcome>, Store) {
    if txs == [] then ([], map[])
    else
      var (outcomes, store) := Run(w, txs[..|txs| - 1]);
      var e := Step(w, store, txs[|txs| - 1]);
      (outcomes + [e.outcome], Committed(e, store))
  }

  /** An XO transaction on the flat map, under its faults. */
  ghost function XoFlat(w: World, games: XoCodec.Games, tx: Tx): (Outcome, XoCodec.Games)
    requires tx.XoTx?
  {
    var (outcome, after) := XoRefinement.FlatStep(games, w.toInt, tx.payload, tx.signer);
    if Parse(tx.payload, w.toInt).Err? then (outcome, games)
    else (OutcomeUnder(tx.faults, Ok(()), outcome), if TakesEffect(tx.faults, outcome) then after else games)
  }

  /** An intkey transaction on the flat map, under its faults. */
  ghost function IntkeyFlat(w: World, counters: Intkey.Counters, tx: Tx): (Outcome, Intkey.Counters)
    requires tx.IntkeyTx?
  {
    var (outcome, after) := IntkeyRefinement.FlatStep(w.codec, counters, tx.payload);
    if Intkey.Unpack(w.codec, tx.payload).Err? then (outcome, counters)
    else (OutcomeUnder(tx.faults, Err(Internal(StateError)), outcome),
          if TakesEffect(tx.faults, outcome) then after else counters)
  }

  /** The same run on the two flat maps; each transaction sees only its own family's map. */
  ghost function FlatRun(w: World, txs: seq<Tx>): (seq<Outcome>, XoCodec.Games, Intkey.Counters) {
    if txs == [] then ([], map[], map[])
    else
      var (outcomes, games, counters) := FlatRun(w, txs[..|txs| - 1]);
      var tx := txs[|txs| - 1];
      if tx.XoTx? then
        var (outcome, after) := XoFlat(w, games, tx);
        (outcomes + [outcome], after, counters)
      else
        var (outcome, after) := IntkeyFlat(w, counters, tx);
        (outcomes + [outcome], games, after)
  }

  /** The state stands for these games and these counters. */
  ghost predicate StandsFor(w: World, store: Store, games: XoCodec.Games, counters: Intkey.Counters) {
    && Part(store, XoNamespace(w.sha)) == XoRefinement.EncodeGames(w.sha, games)
    && IntkeyRefinement.Holds(w.sha, w.codec, Part(store, IntkeyPrefix(w.sha)), counters)
    && (forall a | a in store :: InFamily(a, XoNamespace(w.sha)) || InFamily(a, IntkeyPrefix(w.sha)))
    && XoRefinement.Good(games)
    && IntkeyRefinement.InRange(counters)
  }

  /** A write at an address of one family keeps the other family's part. */
  lemma EffectStaysInFamily(e: Effect, store: Store, address: string, prefix: string, other: string)
    requires OnlyTouches(e, store, address)
    requires InFamily(address, prefix) && |prefix| == |other| && prefix != other
    ensures Part(e.store, other) == Part(store, other)
    ensures forall a | a in e.store :: a in store || a == address
  {
    if InFamily(address, other) {
      FamiliesApart(address, prefix, other);
    }
    forall a | InFamily(a, other)
      ensures a in e.store <==> a in store
      ensures a in store ==> e.store[a] == store[a]
    {
      assert a in e.store - {address} <==> a in store - {address};
      if a in store {
        assert (e.store - {address})[a] == (store - {address})[a];
      }
    }
    forall a | a in e.store && a != address
      ensures a in store
    {
      assert a in e.store - {address};
    }
  }

  /** An XO transaction writes in its own namespace only. */
  lemma XoStepKeeps(w: World, store: Store, tx: Tx)
    requires XoNamespace(w.sha) != IntkeyPrefix(w.sha) && tx.XoTx?
    ensures var e := Step(w, store, tx);
            && Part(e.store, IntkeyPrefix(w.sha)) == Part(store, IntkeyPrefix(w.sha))
            && forall a | a in e.store :: a in store || InFamily(a, XoNamespace(w.sha))
  {
    var e := Step(w, store, tx);
    var name := XoHandler.ApplyTouches(w.sha, w.toInt, store, tx.payload, tx.signer, tx.faults.first, tx.faults.second);
    AddressFamilies(w.sha, name);
    EffectStaysInFamily(e, store, XoAddress(w.sha, name), XoNamespace(w.sha), IntkeyPrefix(w.sha));
  }

  /** An intkey transaction writes under its own prefix only. */
  lemma IntkeyStepKeeps(w: World, store: Store, tx: Tx)
    requires XoNamespace(w.sha) != IntkeyPrefix(w.sha) && tx.IntkeyTx?
    ensures var e := Step(w, store, tx);
            && Part(e.store, XoNamespace(w.sha)) == Part(store, XoNamespace(w.sha))
            && forall a | a in e.store :: a in store || InFamily(a, IntkeyPrefix(w.sha))
  {
    var e := Step(w, store, tx);
    Intkey.ApplyAtomic(w.sha, w.codec, store, tx.payload, tx.faults.first, tx.faults.second);
    if Intkey.Unpack(w.codec, tx.payload).Ok? {
      var name := Intkey.Unpack(w.codec, tx.payload).value.name;
      AddressFamilies(w.sha, name);
      EffectStaysInFamily(e, store, IntkeyAddress(w.sha, name), IntkeyPrefix(w.sha), XoNamespace(w.sha));
    }
  }

  /** What faults make of an outcome, they make of it on the state and on the flat map alike. */
  lemma FaultsAlike(tx: Tx, outcome: Outcome)
    requires tx.XoTx?
    requires outcome.Err? ==> outcome.error.Invalid? && outcome.error.reason != UnhandledAction
    ensures OnlyRefused(tx, OutcomeUnder(tx.faults, Ok(()), outcome)) && OnlyRefused(tx, outcome)
  {
  }

  /** On a state that stands for these games, an XO transaction does what it does on them. */
  lemma XoStepStands(w: World, store: Store, games: XoCodec.Games, tx: Tx)
    requires tx.XoTx? && XoRefinement.ValidSigner(tx.signer)
    requires Part(store, XoNamespace(w.sha)) == XoRefinement.EncodeGames(w.sha, games) && XoRefinement.Good(games)
    ensures var e := Step(w, store, tx);
            var (outcome, after) := XoFlat(w, games, tx);
            && e.outcome == outcome
            && Part(Committed(e, store), XoNamespace(w.sha)) == XoRefinement.EncodeGames(w.sha, after)
            && XoRefinement.Good(after)
            && OnlyRefused(tx, outcome)
  {
    XoRefinement.StepRefines(w.sha, w.toInt, store, games, tx.payload, tx.signer);
    XoHandler.ApplyUnderFaults(w.sha, w.toInt, store, tx.payload, tx.signer, tx.faults);
    FaultsAlike(tx, XoRefinement.FlatStep(games, w.toInt, tx.payload, tx.signer).0);
  }

  /** On a state that stands for these counters, an intkey transaction does what it does on them. */
  lemma IntkeyStepStands(w: World, store: Store, counters: Intkey.Counters, tx: Tx)
    requires tx.IntkeyTx? && w.codec.Faithful()
    requires IntkeyRefinement.Holds(w.sha, w.codec, Part(store, IntkeyPrefix(w.sha)), counters)
    requires IntkeyRefinement.InRange(counters)
    ensures var e := Step(w, store, tx);
            var (outcome, after) := IntkeyFlat(w, counters, tx);
            && e.outcome == outcome
            && IntkeyRefinement.Holds(w.sha, w.codec, Part(Committed(e, store), IntkeyPrefix(w.sha)), after)
            && IntkeyRefinement.InRange(after)
  {
    IntkeyRefinement.StepRefines(w.sha, w.codec, store, counters, tx.payload);
    Intkey.ApplyUnderFaults(w.sha, w.codec, store, tx.payload, tx.faults);
  }

  /**
   * An XO transaction that does not go through is an invalid transaction, for one of the reasons
   * a client can cause, or one of its state requests failed.
   */
  ghost predicate OnlyRefused(tx: Tx, outcome: Outcome) {
    tx.XoTx? && outcome.Err? ==>
      || (outcome.error.Invalid? && outcome.error.reason != UnhandledAction)
      || Some(outcome.error) in {ReplyFailure(tx.faults.first), ReplyFailure(tx.faults.second)}
  }

  lemma EmptyStandsFor(w: World)
    ensures StandsFor(w, map[], map[], map[])
  {
  }

  ghost predicate OnlyRefusals(txs: seq<Tx>, outcomes: seq<Outcome>) {
    |txs| == |outcomes| && forall i | 0 <= i < |txs| :: OnlyRefused(txs[i], outcomes[i])
  }

  lemma OneMoreRefusal(txs: seq<Tx>, outcomes: seq<Outcome>, tx: Tx, outcome: Outcome)
    requires OnlyRefusals(txs, outcomes) && OnlyRefused(tx, outcome)
    ensures OnlyRefusals(txs + [tx], outcomes + [outcome])
  {
    forall i | 0 <= i < |txs| + 1
      ensures OnlyRefused((txs + [tx])[i], (outcomes + [outcome])[i])
    {
      if i < |txs| {
        assert OnlyRefused(txs[i], outcomes[i]);
      }
    }
  }

  /** One transaction of either family does to the state what it does to its own flat map. */
  lemma StepStands(w: World, store: Store, games: XoCodec.Games, counters: Intkey.Counters, tx: Tx)
    requires w.Sound() && StandsFor(w, store, games, counters)
    requires tx.XoTx? ==> XoRefinement.ValidSigner(tx.signer)
    ensures var e := Step(w, store, tx);
            && (tx.XoTx? ==>
                 var (outcome, after) := XoFlat(w, games, tx);
                 e.outcome == outcome && StandsFor(w, Committed(e, store), after, counters))
            && (tx.IntkeyTx? ==>
                 var (outcome, after) := IntkeyFlat(w, counters, tx);
                 e.outcome == outcome && StandsFor(w, Committed(e, store), games, after))
            && OnlyRefused(tx, e.outcome)
  {
    if tx.XoTx? {
      XoStepKeeps(w, store, tx);
      XoStepStands(w, store, games, tx);
    } else {
      IntkeyStepKeeps(w, store, tx);
      IntkeyStepStands(w, store, counters, tx);
    }
  }

  /**
   * Refinement, for every run from empty state, every hash and all faults: each transaction ends
   * as it does on the flat maps, and the final state stands for the final maps.
   */
  lemma {:induction false} RunRefines(w: World, txs: seq<Tx>)
    requires w.Sound() && Signed(txs)
    ensures var (outcomes, store) := Run(w, txs);
            var (flatOutcomes, games, counters) := FlatRun(w, txs);
            outcomes == flatOutcomes && |outcomes| == |txs| && StandsFor(w, store, games, counters)
    decreases |txs|
  {
    if txs == [] {
      EmptyStandsFor(w);
    } else {
      var before, tx := txs[..|txs| - 1], txs[|txs| - 1];
      RunRefines(w, before);
      var (_, store) := Run(w, before);
      var (_, games, counters) := FlatRun(w, before);
      assert tx in txs;
      StepStands(w, store, games, counters, tx);
    }
  }

  /** The last outcome of a run is a success or an ordinary refusal. */
  lemma LastOnlyRefuses(w: World, txs: seq<Tx>) returns (outcome: Outcome)
    requires w.Sound() && Signed(txs) && txs != []
    ensures Run(w, txs).0 == Run(w, txs[..|txs| - 1]).0 + [outcome]
    ensures OnlyRefused(txs[|txs| - 1], outcome)
  {
    var before, tx := txs[..|txs| - 1], txs[|txs| - 1];
    var (_, games, counters) := FlatRun(w, before);
    var store := Run(w, before).1;
    RunRefines(w, before);
    assert tx in txs;
    StepStands(w, store, games, counters, tx);
    outcome := Step(w, store, tx).outcome;
  }

  /**
   * In no run does an XO transaction meet an internal error, an uncaught exception or the
   * unhandled-action branch: text that cannot be read, two winners, an unhandled state, a mark
   * never set.
   */
  lemma {:induction false} OnlyInvalid(w: World, txs: seq<Tx>)
    requires w.Sound() && Signed(txs)
    ensures OnlyRefusals(txs, Run(w, txs).0)
    decreases |txs|
  {
    if txs != [] {
      var before, tx := txs[..|txs| - 1], txs[|txs| - 1];
      OnlyInvalid(w, before);
      var outcome := LastOnlyRefuses(w, txs);
      assert txs == before + [tx];
      OneMoreRefusal(before, Run(w, before).0, tx, outcome);
    }
  }

  /**
   * Decoding the final state of any run: every XO address holds the canonical text of games that
   * belong there, and together they are the games of the flat map, each at its own address.
   */
  lemma RunDecodes(w: World, txs: seq<Tx>)
    requires w.Sound() && Signed(txs)
    ensures var store, games := Run(w, txs).1, FlatRun(w, txs).1;
            && (forall a | a in store && InFamily(a, XoNamespace(w.sha)) ::
                  var held := XoCodec.Deserialize(store[a]);
                  && held.Ok? && held.value != map[] && XoCodec.Serialize(held.value) == store[a]
                  && forall name | name in held.value ::
                       name in games && games[name] == held.value[name] && XoAddress(w.sha, name) == a)
            && (forall name | name in games ::
                  var a := XoAddress(w.sha, name);
                  a in store && XoCodec.Deserialize(store[a]).Ok? && name in XoCodec.Deserialize(store[a]).value)
  {
    var store, games := Run(w, txs).1, FlatRun(w, txs).1;
    RunRefines(w, txs);
    XoRefinement.DecodedIsFlat(w.sha, games);
    assert forall a | a in store && InFamily(a, XoNamespace(w.sha)) ::
      a in XoRefinement.EncodeGames(w.sha, games) && store[a] == XoRefinement.EncodeGames(w.sha, games)[a];
    assert forall a | a in XoRefinement.EncodeGames(w.sha, games) ::
      a in store && store[a] == XoRefinement.EncodeGames(w.sha, games)[a];
  }

  // ----- noninterference -----

  /** The transactions of one family, in order. */
  ghost function Only(xo: bool, txs: seq<Tx>): seq<Tx> {
    if txs == [] then []
    else
      var k := |txs| - 1;
      Only(xo, txs[..k]) + (if txs[k].XoTx? == xo then [txs[k]] else [])
  }

  /** The outcomes of that family's transactions, in order. */
  ghost function OutcomesOf(xo: bool, txs: seq<Tx>, outcomes: seq<Outcome>): seq<Outcome>
    requires |txs| == |outcomes|
  {
    if txs == [] then []
    else
      var k := |txs| - 1;
      OutcomesOf(xo, txs[..k], outcomes[..k]) + (if txs[k].XoTx? == xo then [outcomes[k]] else [])
  }

  lemma {:induction false} OnlyAlone(w: World, xo: bool, txs: seq<Tx>)
    ensures var (outcomes, games, counters) := FlatRun(w, txs);
            var (aloneOutcomes, aloneGames, aloneCounters) := FlatRun(w, Only(xo, txs));
            && |outcomes| == |txs|
            && OutcomesOf(xo, txs, outcomes) == aloneOutcomes
            && (if xo then aloneGames == games else aloneCounters == counters)
    decreases |txs|
  {
    if txs != [] {
      var k := |txs| - 1;
      OnlyAlone(w, xo, txs[..k]);
      var (outcomes, _, _) := FlatRun(w, txs);
      assert outcomes[..k] == FlatRun(w, txs[..k]).0;
      if txs[k].XoTx? == xo {
        assert Only(xo, txs)[..|Only(xo, txs)| - 1] == Only(xo, txs[..k]);
      } else {
        assert Only(xo, txs) == Only(xo, txs[..k]);
      }
    }
  }

  ghost function FamilyPrefix(w: World, xo: bool): string {
    if xo then XoNamespace(w.sha) else IntkeyPrefix(w.sha)
  }

  lemma PartSees(s1: Store, s2: Store, prefix: string, a: string)
    requires Part(s1, prefix) == Part(s2, prefix) && InFamily(a, prefix)
    ensures Visible(s1, a) == Visible(s2, a)
  {
    PartVisible(s1, prefix, a);
    PartVisible(s2, prefix, a);
  }

  /** On states that agree on the family, an effect at one of its addresses is the same. */
  lemma ExecuteLocal(s1: Store, s2: Store, prefix: string, a: string, verdict: Verdict, faults: Faults,
                     declined: Outcome)
    requires Part(s1, prefix) == Part(s2, prefix) && InFamily(a, prefix)
    ensures var e1 := Execute(s1, a, verdict, faults.first, faults.second, declined);
            var e2 := Execute(s2, a, verdict, faults.first, faults.second, declined);
            && e1.outcome == e2.outcome
            && Part(Committed(e1, s1), prefix) == Part(Committed(e2, s2), prefix)
  {
    var data := if verdict.Put? then verdict.data else "";
    PartWrite(s1, prefix, a, data);
    PartWrite(s2, prefix, a, data);
  }

  /** A transaction's outcome and its mark on its own family depend only on that family's part of the state. */
  lemma StepLocal(w: World, s1: Store, s2: Store, tx: Tx)
    requires var prefix := FamilyPrefix(w, tx.XoTx?); Part(s1, prefix) == Part(s2, prefix)
    ensures Step(w, s1, tx).outcome == Step(w, s2, tx).outcome
    ensures var prefix := FamilyPrefix(w, tx.XoTx?);
            Part(Committed(Step(w, s1, tx), s1), prefix) == Part(Committed(Step(w, s2, tx), s2), prefix)
  {
    var prefix := FamilyPrefix(w, tx.XoTx?);
    match tx
    case XoTx(payload, signer, faults) =>
      ParsedIsValid(payload, w.toInt);
      if Parse(payload, w.toInt).Ok? {
        var p := Parse(payload, w.toInt).value;
        var a := XoAddress(w.sha, p.name);
        AddressFamilies(w.sha, p.name);
        PartSees(s1, s2, prefix, a);
        ExecuteLocal(s1, s2, prefix, a, XoHandler.VerdictOn(p, signer, Visible(s1, a)), faults, Ok(()));
      }
    case IntkeyTx(payload, faults) =>
      if Intkey.Unpack(w.codec, payload).Ok? {
        var c := Intkey.Unpack(w.codec, payload).value;
        var a := IntkeyAddress(w.sha, c.name);
        AddressFamilies(w.sha, c.name);
        PartSees(s1, s2, prefix, a);
        var verdict := Intkey.VerdictOn(w.codec, c, Visible(s1, a));
        ExecuteLocal(s1, s2, prefix, a, verdict, faults, Err(Internal(StateError)));
      }
  }

  /** A transaction of the other family leaves this family's part as it was. */
  lemma StepElsewhere(w: World, store: Store, tx: Tx)
    requires XoNamespace(w.sha) != IntkeyPrefix(w.sha)
    ensures var prefix := FamilyPrefix(w, !tx.XoTx?);
            Part(Committed(Step(w, store, tx), store), prefix) == Part(store, prefix)
  {
    if tx.XoTx? {
      XoStepKeeps(w, store, tx);
    } else {
      IntkeyStepKeeps(w, store, tx);
    }
  }

  lemma OnlyLast(xo: bool, txs: seq<Tx>)
    requires txs != []
    ensures var before, tx := txs[..|txs| - 1], txs[|txs| - 1];
            Only(xo, txs) == if tx.XoTx? == xo then Only(xo, before) + [tx] else Only(xo, before)
  {
  }

  lemma RunAppend(w: World, txs: seq<Tx>, tx: Tx)
    ensures var (outcomes, store) := Run(w, txs);
            Run(w, txs + [tx]) == (outcomes + [Step(w, store, tx).outcome], Committed(Step(w, store, tx), store))
  {
    assert (txs + [tx])[..|txs|] == txs;
  }

  /** A family's outcomes and its part of the state are, to the letter, those of running its own transactions alone. */
  ghost predicate SameAlone(w: World, xo: bool, txs: seq<Tx>) {
    var (outcomes, store) := Run(w, txs);
    var (aloneOutcomes, aloneStore) := Run(w, Only(xo, txs));
    && |outcomes| == |txs|
    && OutcomesOf(xo, txs, outcomes) == aloneOutcomes
    && Part(store, FamilyPrefix(w, xo)) == Part(aloneStore, FamilyPrefix(w, xo))
  }

  lemma SameAloneGrows(w: World, xo: bool, before: seq<Tx>, tx: Tx)
    requires XoNamespace(w.sha) != IntkeyPrefix(w.sha) && SameAlone(w, xo, before)
    ensures SameAlone(w, xo, before + [tx])
  {
    var txs := before + [tx];
    var (outcomes, store) := Run(w, before);
    var (aloneOutcomes, aloneStore) := Run(w, Only(xo, before));
    assert txs[..|txs| - 1] == before;
    OnlyLast(xo, txs);
    RunAppend(w, before, tx);
    assert Run(w, txs).0[..|before|] == outcomes;
    if tx.XoTx? == xo {
      RunAppend(w, Only(xo, before), tx);
      StepLocal(w, store, aloneStore, tx);
    } else {
      StepElsewhere(w, store, tx);
      assert OutcomesOf(xo, txs, Run(w, txs).0) == OutcomesOf(xo, before, outcomes);
    }
  }

  /**
   * Noninterference, for every interleaving, every signer, every codec and all faults: neither
   * family can tell whether the other one is there.
   */
  lemma {:induction false} Noninterference(w: World, xo: bool, txs: seq<Tx>)
    requires XoNamespace(w.sha) != IntkeyPrefix(w.sha)
    ensures SameAlone(w, xo, txs)
    decreases |txs|
  {
    if txs != [] {
      var before, tx := txs[..|txs| - 1], txs[|txs| - 1];
      Noninterference(w, xo, before);
      SameAloneGrows(w, xo, before, tx);
      assert txs == before + [tx];
    }
  }
}
