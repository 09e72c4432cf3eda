/**
 * The workload generator: a loop that hands pending batches to checker threads, and the threads,
 * in any interleaving. One step is one section under the lock or one call out of a thread.
 */
module Workload {
  import opened Common

  datatype Batch = Batch(id: string, url: string)

  datatype Answer = AnsweredCommitted | AnsweredPending | AnsweredOther

  /** Where a checker thread is; the batch it will still do something about, if any, is in its hands. */
  datatype Phase =
    | Scheduled(given: Option<Batch>)   // before the status request
    | InCallback(holding: Option<Batch>)  // in a workload callback; a pending batch is put back after it
    | PuttingBack(batch: Batch)
    | Finishing                           // before the counter is decremented

  /** What the display counts: since the last display, and in the windows of earlier periods. */
  datatype Rates = Rates(submitted: nat, committed: nat, lastCheck: real,
                         submittedSamples: seq<real>, committedSamples: seq<real>)

  /** Every batch ever announced, those seen committed, those given up for their status, those a dying thread held. */
  datatype Ledger =
    Ledger(tracked: multiset<Batch>, committed: multiset<Batch>, dropped: multiset<Batch>, lost: multiset<Batch>)

  /** `died` counts the threads ended by an exception. */
  datatype State = State(pending: seq<Batch>, outstanding: int, rates: Rates, threads: seq<Phase>,
                         ledger: Ledger, died: nat)

  datatype Event =
    | Tick(now: real)
    | NewBatch(id: Option<string>, url: string)
    | Status(t: nat, answer: Answer)
    | CallbackReturns(t: nat)
    | PutBack(t: nat)
    | Finish(t: nat)
    | Raises(t: nat)  // an exception out of the status request or of a callback

  const WINDOW := 10

  function Initial(start: real): State {
    State([], 0, Rates(0, 0, start, [], []), [], Ledger(multiset{}, multiset{}, multiset{}, multiset{}), 0)
  }

  function Rate(count: nat, delta: real): real
    requires delta != 0.0
  {
    count as real / delta
  }

  /** A rate is so much a second: over the time it was taken in, it makes the count. */
  lemma RateMeans(count: nat, delta: real)
    requires delta != 0.0
    ensures Rate(count, delta) * delta == count as real
  {
  }

  /** A display period has passed: one more sample in each window, at most ten kept. */
  function Sampled(r: Rates, now: real): Rates
    requires now != r.lastCheck
  {
    var delta := now - r.lastCheck;
    var submitted := r.submittedSamples + [Rate(r.submitted, delta)];
    var committed := r.committedSamples + [Rate(r.committed, delta)];
    if |submitted| == WINDOW + 1 then Rates(0, 0, now, submitted[1..], committed[1..])
    else Rates(0, 0, now, submitted, committed)
  }

  /** One more check goes out, with the first pending batch if there is one. */
  function Dispatched(s: State): State {
    if s.pending == [] then
      s.(outstanding := s.outstanding + 1, threads := s.threads + [Scheduled(None)])
    else
      s.(outstanding := s.outstanding + 1, threads := s.threads + [Scheduled(Some(s.pending[0]))],
         pending := s.pending[1..])
  }

  function Without(threads: seq<Phase>, t: nat): seq<Phase>
    requires t < |threads|
  {
    threads[..t] + threads[t + 1..]
  }

  function Answered(s: State, t: nat, answer: Answer): State
    requires t < |s.threads| && s.threads[t].Scheduled?
  {
    var given := s.threads[t].given;
    if given.None? then s.(threads := s.threads[t := InCallback(None)])
    else
      match answer
      case AnsweredCommitted =>
        s.(threads := s.threads[t := InCallback(None)],
           rates := s.rates.(committed := s.rates.committed + 1),
           ledger := s.ledger.(committed := s.ledger.committed + multiset{given.value}))
      case AnsweredPending => s.(threads := s.threads[t := InCallback(given)])
      case AnsweredOther =>
        s.(threads := s.threads[t := InCallback(None)],
           ledger := s.ledger.(dropped := s.ledger.dropped + multiset{given.value}))
  }

  function Announced(s: State, b: Batch): State {
    s.(pending := s.pending + [b],
       rates := s.rates.(submitted := s.rates.submitted + 1),
       ledger := s.ledger.(tracked := s.ledger.tracked + multiset{b}))
  }

  function Died(s: State, t: nat): State
    requires t < |s.threads|
  {
    s.(threads := Without(s.threads, t), died := s.died + 1,
       ledger := s.ledger.(lost := s.ledger.lost + InHand(s.threads[t])))
  }

  /** A step that is not enabled changes nothing. */
  function Step(s: State, frequency: real, e: Event): State {
    match e
    case Tick(now) =>
      if now - s.rates.lastCheck < frequency then Dispatched(s)
      else if now == s.rates.lastCheck then s  // division by zero ends the loop before anything is counted
      else Dispatched(s.(rates := Sampled(s.rates, now)))
    case NewBatch(id, url) => if id.None? then s else Announced(s, Batch(id.value, url))
    case Status(t, answer) => if t < |s.threads| && s.threads[t].Scheduled? then Answered(s, t, answer) else s
    case CallbackReturns(t) =>
      if t < |s.threads| && s.threads[t].InCallback? then
        var holding := s.threads[t].holding;
        s.(threads := s.threads[t := if holding.Some? then PuttingBack(holding.value) else Finishing])
      else s
    case PutBack(t) =>
      if t < |s.threads| && s.threads[t].PuttingBack? then
        s.(pending := [s.threads[t].batch] + s.pending, threads := s.threads[t := Finishing])
      else s
    case Finish(t) =>
      if t < |s.threads| && s.threads[t].Finishing? then
        s.(outstanding := s.outstanding - 1, threads := Without(s.threads, t))
      else s
    case Raises(t) => if t < |s.threads| && (s.threads[t].Scheduled? || s.threads[t].InCallback?) then Died(s, t) else s
  }

  function Holding(p: Phase): Option<Batch> {
    match p
    case Scheduled(given) => given
    case InCallback(holding) => holding
    case PuttingBack(batch) => Some(batch)
    case Finishing => None
  }

  function InHand(p: Phase): multiset<Batch> {
    if Holding(p).Some? then multiset{Holding(p).value} else multiset{}
  }

  function Has(p: Phase, b: Batch): nat {
    if Holding(p) == Some(b) then 1 else 0
  }

  /** How many threads have this batch in hand. */
  ghost function Held(threads: seq<Phase>, b: Batch): nat {
    if threads == [] then 0 else Held(threads[..|threads| - 1], b) + Has(threads[|threads| - 1], b)
  }

  lemma HeldAppend(threads: seq<Phase>, p: Phase, b: Batch)
    ensures Held(threads + [p], b) == Held(threads, b) + Has(p, b)
  {
    assert (threads + [p])[..|threads|] == threads;
  }

  lemma {:induction false} HeldConcat(front: seq<Phase>, back: seq<Phase>, b: Batch)
    ensures Held(front + back, b) == Held(front, b) + Held(back, b)
    decreases |back|
  {
    if back == [] {
      assert front + back == front;
    } else {
      var k := |back| - 1;
      HeldConcat(front, back[..k], b);
      HeldAppend(front + back[..k], back[k], b);
      assert front + back == front + back[..k] + [back[k]];
    }
  }

  lemma HeldAt(threads: seq<Phase>, t: nat, b: Batch)
    requires t < |threads|
    ensures Held(threads, b) == Held(Without(threads, t), b) + Has(threads[t], b)
  {
    var front, back := threads[..t], threads[t + 1..];
    HeldConcat(front + [threads[t]], back, b);
    HeldAppend(front, threads[t], b);
    HeldConcat(front, back, b);
    assert threads == front + [threads[t]] + back;
  }

  lemma HeldReplace(threads: seq<Phase>, t: nat, p: Phase, b: Batch)
    requires t < |threads|
    ensures Held(threads[t := p], b) + Has(threads[t], b) == Held(threads, b) + Has(p, b)
  {
    HeldAt(threads, t, b);
    HeldAt(threads[t := p], t, b);
    assert Without(threads[t := p], t) == Without(threads, t);
  }

  /** How many times a batch is somewhere: waiting, in a thread's hands, or accounted for. */
  ghost function Places(s: State, b: Batch): nat {
    multiset(s.pending)[b] + Held(s.threads, b) + s.ledger.committed[b] + s.ledger.dropped[b] + s.ledger.lost[b]
  }

  /** A batch is in as many places as it was announced times; the counter counts the checks; the windows match. */
  ghost predicate Conserved(s: State, b: Batch) {
    && s.ledger.tracked[b] == Places(s, b)
    && s.outstanding == |s.threads| + s.died
    && WindowsMatch(s.rates)
  }

  ghost predicate WindowsMatch(r: Rates) {
    |r.submittedSamples| == |r.committedSamples| <= 10
  }

  lemma DispatchConserves(s: State, b: Batch)
    requires Conserved(s, b)
    ensures Conserved(Dispatched(s), b)
  {
    var phase := Scheduled(if s.pending == [] then None else Some(s.pending[0]));
    HeldAppend(s.threads, phase, b);
    if s.pending != [] {
      assert s.pending == [s.pending[0]] + s.pending[1..];
    }
  }

  lemma AnswerConserves(s: State, t: nat, answer: Answer, b: Batch)
    requires Conserved(s, b) && t < |s.threads| && s.threads[t].Scheduled?
    ensures Conserved(Answered(s, t, answer), b)
  {
    HeldReplace(s.threads, t, Answered(s, t, answer).threads[t], b);
  }

  lemma PhaseConserves(s: State, t: nat, p: Phase, b: Batch)
    requires Conserved(s, b) && t < |s.threads| && Holding(p) == Holding(s.threads[t])
    ensures Conserved(s.(threads := s.threads[t := p]), b)
  {
    HeldReplace(s.threads, t, p, b);
  }

  lemma PutBackConserves(s: State, t: nat, b: Batch)
    requires Conserved(s, b) && t < |s.threads| && s.threads[t].PuttingBack?
    ensures Conserved(s.(pending := [s.threads[t].batch] + s.pending, threads := s.threads[t := Finishing]), b)
  {
    HeldReplace(s.threads, t, Finishing, b);
  }

  lemma EndConserves(s: State, t: nat, b: Batch)
    requires Conserved(s, b) && t < |s.threads|
    ensures Conserved(Died(s, t), b)
    ensures s.threads[t].Finishing? ==>
              Conserved(s.(outstanding := s.outstanding - 1, threads := Without(s.threads, t)), b)
  {
    HeldAt(s.threads, t, b);
  }

  lemma AnnounceConserves(s: State, announced: Batch, b: Batch)
    requires Conserved(s, b)
    ensures Conserved(Announced(s, announced), b)
  {
  }

  lemma TickConserves(s: State, frequency: real, now: real, b: Batch)
    requires Conserved(s, b)
    ensures Conserved(Step(s, frequency, Tick(now)), b)
  {
    DispatchConserves(s, b);
    if now != s.rates.lastCheck {
      DispatchConserves(s.(rates := Sampled(s.rates, now)), b);
    }
  }

  lemma CheckConserves(s: State, frequency: real, e: Event, b: Batch)
    requires Conserved(s, b) && (e.Status? || e.CallbackReturns? || e.PutBack?)
    ensures Conserved(Step(s, frequency, e), b)
  {
    if e.t < |s.threads| {
      match s.threads[e.t]
      case Scheduled(_) =>
        if e.Status? {
          AnswerConserves(s, e.t, e.answer, b);
        }
      case InCallback(holding) =>
        PhaseConserves(s, e.t, if holding.Some? then PuttingBack(holding.value) else Finishing, b);
      case PuttingBack(_) => PutBackConserves(s, e.t, b);
      case Finishing =>
    }
  }

  lemma StepConserves(s: State, frequency: real, e: Event, b: Batch)
    requires Conserved(s, b)
    ensures Conserved(Step(s, frequency, e), b)
  {
    if e.Tick? {
      TickConserves(s, frequency, e.now, b);
    } else if e.NewBatch? {
      if e.id.Some? {
        AnnounceConserves(s, Batch(e.id.value, e.url), b);
      }
    } else if e.Finish? || e.Raises? {
      if e.t < |s.threads| {
        EndConserves(s, e.t, b);
      }
    } else {
      CheckConserves(s, frequency, e, b);
    }
  }

  function Run(start: real, frequency: real, events: seq<Event>): State {
    if events == [] then Initial(start)
    else Step(Run(start, frequency, events[..|events| - 1]), frequency, events[|events| - 1])
  }

  /** In every interleaving, whether callbacks return or raise. */
  lemma {:induction false} RunConserves(start: real, frequency: real, events: seq<Event>, b: Batch)
    ensures Conserved(Run(start, frequency, events), b)
    decreases |events|
  {
    if events != [] {
      RunConserves(start, frequency, events[..|events| - 1], b);
      StepConserves(Run(start, frequency, events[..|events| - 1]), frequency, events[|events| - 1], b);
    }
  }

  /** Without an exception nothing is ever lost, and the counter is the number of checks under way. */
  lemma {:induction false} RunLosesNothing(start: real, frequency: real, events: seq<Event>)
    requires forall e | e in events :: !e.Raises?
    ensures var s := Run(start, frequency, events);
            s.ledger.lost == multiset{} && s.died == 0 && s.outstanding == |s.threads|
    decreases |events|
  {
    RunConserves(start, frequency, events, Batch("", ""));
    if events != [] {
      var k := |events| - 1;
      assert events[k] in events;
      RunLosesNothing(start, frequency, events[..k]);
      OnlyRaisingLoses(Run(start, frequency, events[..k]), frequency, events[k]);
    }
  }

  lemma OnlyRaisingLoses(s: State, frequency: real, e: Event)
    requires !e.Raises?
    ensures Step(s, frequency, e).ledger.lost == s.ledger.lost && Step(s, frequency, e).died == s.died
  {
  }

  /** A batch announced once is in exactly one place. */
  lemma NeverInTwoPlaces(start: real, frequency: real, events: seq<Event>, b: Batch)
    requires Run(start, frequency, events).ledger.tracked[b] == 1
    ensures Places(Run(start, frequency, events), b) == 1
  {
    RunConserves(start, frequency, events, b);
  }

  // ----- the order of checks, and the windows -----

  /** The batch a step announces. */
  ghost function AnnouncedBy(e: Event): seq<Batch> {
    if e.NewBatch? && e.id.Some? then [Batch(e.id.value, e.url)] else []
  }

  /** The batch a step hands to a check. */
  ghost function DispatchedBy(s: State, frequency: real, e: Event): seq<Batch> {
    if e.Tick? && s.pending != [] && (e.now - s.rates.lastCheck < frequency || e.now != s.rates.lastCheck)
    then [s.pending[0]] else []
  }

  /** The two rates that the display follows. */
  datatype Metric = Submissions | Commits

  ghost function CountOf(r: Rates, metric: Metric): nat {
    if metric.Submissions? then r.submitted else r.committed
  }

  ghost function WindowOf(r: Rates, metric: Metric): seq<real> {
    if metric.Submissions? then r.submittedSamples else r.committedSamples
  }

  /** The sample an event takes of a rate, if so much has come since the last sample. */
  ghost function Sample(last: real, count: nat, frequency: real, e: Event): seq<real> {
    if TakesSample(last, frequency, e) then [Rate(count, e.now - last)] else []
  }

  /** A tick takes a sample if a display period has passed since the last one. */
  ghost predicate TakesSample(last: real, frequency: real, e: Event) {
    e.Tick? && e.now - last >= frequency && e.now != last
  }

  // ----- what the samples and the ledger count, by the history of events -----

  /** When the last sample was taken, or the start if none was. */
  ghost function LastSample(start: real, frequency: real, events: seq<Event>): real {
    if events == [] then start
    else
      var last, e := LastSample(start, frequency, events[..|events| - 1]), events[|events| - 1];
      if TakesSample(last, frequency, e) then e.now else last
  }

  /** The event is an answer about this batch to a check that was given it. */
  ghost predicate AnswersAbout(s: State, e: Event, b: Batch, answer: Answer) {
    e.Status? && e.answer == answer && e.t < |s.threads| && s.threads[e.t] == Scheduled(Some(b))
  }

  /** One more of what this rate counts: an announced batch with an id, or a batch seen committed. */
  ghost predicate Counts(s: State, e: Event, metric: Metric) {
    match metric
    case Submissions => e.NewBatch? && e.id.Some?
    case Commits => exists b :: AnswersAbout(s, e, b, AnsweredCommitted)
  }

  /** How many of them there were since the last sample. */
  ghost function Since(start: real, frequency: real, events: seq<Event>, metric: Metric): nat {
    if events == [] then 0
    else
      var before, e := events[..|events| - 1], events[|events| - 1];
      if TakesSample(LastSample(start, frequency, before), frequency, e) then 0
      else Since(start, frequency, before, metric) + if Counts(Run(start, frequency, before), e, metric) then 1 else 0
  }

  lemma StepCounts(s: State, frequency: real, e: Event)
    ensures var r := Step(s, frequency, e).rates;
            if TakesSample(s.rates.lastCheck, frequency, e) then r.submitted == r.committed == 0 && r.lastCheck == e.now
            else
              && r.submitted == s.rates.submitted + (if Counts(s, e, Submissions) then 1 else 0)
              && r.committed == s.rates.committed + (if Counts(s, e, Commits) then 1 else 0)
              && r.lastCheck == s.rates.lastCheck
  {
    if e.Status? && e.t < |s.threads| && s.threads[e.t].Scheduled? && s.threads[e.t].given.Some? {
      assert s.threads[e.t] == Scheduled(Some(s.threads[e.t].given.value));
      assert e.answer == AnsweredCommitted ==> AnswersAbout(s, e, s.threads[e.t].given.value, AnsweredCommitted);
    }
  }

  /** The counters of the generator say how much came since the last sample, and when that was. */
  lemma {:induction false} RatesAreCounts(start: real, frequency: real, events: seq<Event>)
    ensures var r := Run(start, frequency, events).rates;
            && r.lastCheck == LastSample(start, frequency, events)
            && r.submitted == Since(start, frequency, events, Submissions)
            && r.committed == Since(start, frequency, events, Commits)
    decreases |events|
  {
    if events != [] {
      var before := events[..|events| - 1];
      RatesAreCounts(start, frequency, before);
      StepCounts(Run(start, frequency, before), frequency, events[|events| - 1]);
    }
  }

  /** How often this was the answer about this batch. */
  ghost function TimesAnswered(start: real, frequency: real, events: seq<Event>, b: Batch, answer: Answer): nat {
    if events == [] then 0
    else
      var before := events[..|events| - 1];
      TimesAnswered(start, frequency, before, b, answer)
      + if AnswersAbout(Run(start, frequency, before), events[|events| - 1], b, answer) then 1 else 0
  }

  lemma AnswerRecords(s: State, t: nat, answer: Answer, b: Batch)
    requires t < |s.threads| && s.threads[t].Scheduled?
    ensures var (ledger, about) := (Answered(s, t, answer).ledger, s.threads[t] == Scheduled(Some(b)));
            && ledger.tracked == s.ledger.tracked
            && ledger.committed[b] == s.ledger.committed[b] + (if about && answer == AnsweredCommitted then 1 else 0)
            && ledger.dropped[b] == s.ledger.dropped[b] + (if about && answer == AnsweredOther then 1 else 0)
  {
  }

  lemma StepRecords(s: State, frequency: real, e: Event, b: Batch)
    ensures var ledger := Step(s, frequency, e).ledger;
            && ledger.tracked == s.ledger.tracked + multiset(AnnouncedBy(e))
            && ledger.committed[b]
               == s.ledger.committed[b] + (if AnswersAbout(s, e, b, AnsweredCommitted) then 1 else 0)
            && ledger.dropped[b] == s.ledger.dropped[b] + (if AnswersAbout(s, e, b, AnsweredOther) then 1 else 0)
  {
    if e.Status? && e.t < |s.threads| && s.threads[e.t].Scheduled? {
      AnswerRecords(s, e.t, e.answer, b);
    }
  }

  /**
   * In every run a batch is recorded as tracked, committed and dropped as often as it was announced,
   * answered as committed, and answered as neither committed nor pending.
   */
  lemma {:induction false} LedgerIsHistory(start: real, frequency: real, events: seq<Event>, b: Batch)
    ensures var ledger := Run(start, frequency, events).ledger;
            && ledger.tracked == multiset(Announcements(events))
            && ledger.committed[b] == TimesAnswered(start, frequency, events, b, AnsweredCommitted)
            && ledger.dropped[b] == TimesAnswered(start, frequency, events, b, AnsweredOther)
    decreases |events|
  {
    if events != [] {
      var before := events[..|events| - 1];
      LedgerIsHistory(start, frequency, before, b);
      StepRecords(Run(start, frequency, before), frequency, events[|events| - 1], b);
    }
  }

  /**
   * What the answer does to the batch a check was given, once the check's callback has returned: a
   * pending one goes back to the front of the queue, and no other does.
   */
  lemma StatusDecides(s: State, frequency: real, t: nat, b: Batch, answer: Answer)
    requires t < |s.threads| && s.threads[t] == Scheduled(Some(b))
    ensures var called := Step(Step(s, frequency, Status(t, answer)), frequency, CallbackReturns(t));
            if answer == AnsweredPending then
              && called.threads[t] == PuttingBack(b)
              && Step(called, frequency, PutBack(t)).pending == [b] + s.pending
              && Step(called, frequency, PutBack(t)).threads[t] == Finishing
            else called.threads[t] == Finishing && called.pending == s.pending
  {
  }

  ghost function Announcements(events: seq<Event>): seq<Batch> {
    if events == [] then []
    else Announcements(events[..|events| - 1]) + AnnouncedBy(events[|events| - 1])
  }

  ghost function Dispatches(start: real, frequency: real, events: seq<Event>): seq<Batch> {
    if events == [] then []
    else
      var before := events[..|events| - 1];
      Dispatches(start, frequency, before)
      + DispatchedBy(Run(start, frequency, before), frequency, events[|events| - 1])
  }

  /** The samples taken of this rate: at each, how much came since the one before, by the time that took. */
  ghost function Samples(start: real, frequency: real, events: seq<Event>, metric: Metric): seq<real> {
    if events == [] then []
    else
      var before := events[..|events| - 1];
      Samples(start, frequency, before, metric)
      + Sample(LastSample(start, frequency, before), Since(start, frequency, before, metric), frequency,
               events[|events| - 1])
  }

  lemma StepInOrder(s: State, frequency: real, e: Event)
    requires !e.PutBack?
    ensures DispatchedBy(s, frequency, e) + Step(s, frequency, e).pending == s.pending + AnnouncedBy(e)
  {
  }

  /** As long as no batch has been put back, batches are checked in the order they were announced. */
  lemma {:induction false} CheckedInOrder(start: real, frequency: real, events: seq<Event>)
    requires forall e | e in events :: !e.PutBack?
    ensures Dispatches(start, frequency, events) + Run(start, frequency, events).pending == Announcements(events)
    decreases |events|
  {
    if events != [] {
      var before, e := events[..|events| - 1], events[|events| - 1];
      var s := Run(start, frequency, before);
      assert e in events;
      CheckedInOrder(start, frequency, before);
      StepInOrder(s, frequency, e);
      MoveAlong(Dispatches(start, frequency, before), DispatchedBy(s, frequency, e), s.pending,
                Step(s, frequency, e).pending, AnnouncedBy(e));
    }
  }

  lemma MoveAlong(checked: seq<Batch>, next: seq<Batch>, pending: seq<Batch>, after: seq<Batch>, announced: seq<Batch>)
    requires next + after == pending + announced
    ensures checked + next + after == checked + pending + announced
  {
    assert checked + next + after == checked + (next + after);
  }

  /** The latest ten, or all while there are fewer. */
  ghost function Latest(samples: seq<real>): seq<real> {
    if |samples| <= 10 then samples else samples[|samples| - 10..]
  }

  lemma SampledWindow(r: Rates, now: real, metric: Metric)
    requires WindowsMatch(r) && now != r.lastCheck
    ensures WindowOf(Sampled(r, now), metric)
         == Latest(WindowOf(r, metric) + [Rate(CountOf(r, metric), now - r.lastCheck)])
  {
  }

  lemma StepWindow(s: State, frequency: real, e: Event, metric: Metric)
    requires WindowsMatch(s.rates)
    ensures WindowOf(Step(s, frequency, e).rates, metric)
         == Latest(WindowOf(s.rates, metric) + Sample(s.rates.lastCheck, CountOf(s.rates, metric), frequency, e))
  {
    var window := WindowOf(s.rates, metric);
    if TakesSample(s.rates.lastCheck, frequency, e) {
      SampledWindow(s.rates, e.now, metric);
    } else {
      assert window + [] == window;
      assert WindowOf(Step(s, frequency, e).rates, metric) == window;
    }
  }

  lemma LatestGrows(samples: seq<real>, more: seq<real>)
    requires |more| <= 1
    ensures Latest(samples + more) == Latest(Latest(samples) + more)
  {
  }

  /** Each of the two windows holds the latest ten samples taken of its rate. */
  lemma {:induction false} WindowIsLatest(start: real, frequency: real, events: seq<Event>, metric: Metric)
    ensures WindowOf(Run(start, frequency, events).rates, metric) == Latest(Samples(start, frequency, events, metric))
    decreases |events|
  {
    if events != [] {
      var before, e := events[..|events| - 1], events[|events| - 1];
      var s := Run(start, frequency, before);
      WindowIsLatest(start, frequency, before, metric);
      RunConserves(start, frequency, before, Batch("", ""));
      RatesAreCounts(start, frequency, before);
      StepWindow(s, frequency, e, metric);
      LatestGrows(Samples(start, frequency, before, metric),
                  Sample(s.rates.lastCheck, CountOf(s.rates, metric), frequency, e));
    }
  }

  class WorkloadGenerator {
    const frequency: real
    var pendingBatches: seq<Batch>
    var outstandingRequests: int
    var submittedBatchesSample: nat
    var committedBatchesSample: nat
    var timeOfLastCheck: real
    var submittedBatchSamples: seq<real>
    var committedBatchSamples: seq<real>
    ghost var threads: seq<Phase>
    ghost var ledger: Ledger
    ghost var died: nat

    constructor (frequency: real, start: real)
      ensures this.frequency == frequency && Contents() == Initial(start)
    {
      this.frequency := frequency;
      pendingBatches, outstandingRequests := [], 0;
      submittedBatchesSample, committedBatchesSample, timeOfLastCheck := 0, 0, start;
      submittedBatchSamples, committedBatchSamples := [], [];
      threads, ledger, died := [], Ledger(multiset{}, multiset{}, multiset{}, multiset{}), 0;
    }

    ghost function Contents(): State
      reads this
    {
      State(pendingBatches, outstandingRequests,
            Rates(submittedBatchesSample, committedBatchesSample, timeOfLastCheck,
                  submittedBatchSamples, committedBatchSamples),
            threads, ledger, died)
    }

    /** The end of a display period: one more sample in each window, at most ten kept. */
    method TakeSamples(now: real)
      requires now != timeOfLastCheck && WindowsMatch(Contents().rates)
      modifies this
      ensures Contents() == old(Contents()).(rates := Sampled(old(Contents().rates), now))
    {
      var delta := now - timeOfLastCheck;
      submittedBatchSamples := submittedBatchSamples + [Rate(submittedBatchesSample, delta)];
      committedBatchSamples := committedBatchSamples + [Rate(committedBatchesSample, delta)];
      if |submittedBatchSamples| == WINDOW + 1 {
        submittedBatchSamples := submittedBatchSamples[1..];
        committedBatchSamples := committedBatchSamples[1..];
      }
      submittedBatchesSample, committedBatchesSample, timeOfLastCheck := 0, 0, now;
    }

    /** One turn of the simulator loop; None where nothing could be dispatched. */
    method SimulatorTick(now: real) returns (dispatched: bool, batch: Option<Batch>)
      requires WindowsMatch(Contents().rates)
      modifies this
      ensures Contents() == Step(old(Contents()), frequency, Tick(now))
      ensures dispatched <==> now - old(timeOfLastCheck) < frequency || now != old(timeOfLastCheck)
      ensures threads == if dispatched then old(threads) + [Scheduled(batch)] else old(threads)
      ensures batch == if dispatched && old(pendingBatches) != [] then Some(old(pendingBatches)[0]) else None
    {
      dispatched, batch := true, None;
      var delta := now - timeOfLastCheck;
      if delta >= frequency {
        if delta == 0.0 {
          return false, None;
        }
        TakeSamples(now);
      }
      outstandingRequests := outstandingRequests + 1;
      if pendingBatches != [] {
        batch := Some(pendingBatches[0]);
        pendingBatches := pendingBatches[1..];
      }
      threads := threads + [Scheduled(batch)];
    }

    method OnNewBatch(id: Option<string>, url: string)
      modifies this
      ensures Contents() == Step(old(Contents()), frequency, NewBatch(id, url))
    {
      if id.Some? {
        submittedBatchesSample := submittedBatchesSample + 1;
        pendingBatches := pendingBatches + [Batch(id.value, url)];
        ledger := ledger.(tracked := ledger.tracked + multiset{Batch(id.value, url)});
      }
    }

    /** `_check_on_batch` from the answer to the status request up to the callback. */
    method CheckAnswered(ghost t: nat, batch: Option<Batch>, answer: Answer)
      requires t < |threads| && threads[t] == Scheduled(batch)
      modifies this
      ensures Contents() == Step(old(Contents()), frequency, Status(t, answer))
    {
      threads := threads[t := InCallback(if answer.AnsweredPending? then batch else None)];
      if batch.Some? && answer.AnsweredCommitted? {
        committedBatchesSample := committedBatchesSample + 1;
        ledger := ledger.(committed := ledger.committed + multiset{batch.value});
      }
      if batch.Some? && answer.AnsweredOther? {
        ledger := ledger.(dropped := ledger.dropped + multiset{batch.value});
      }
    }

    /** A batch that is still pending goes back to the front. */
    method CheckPutBack(ghost t: nat, batch: Batch)
      requires t < |threads| && threads[t] == PuttingBack(batch)
      modifies this
      ensures Contents() == Step(old(Contents()), frequency, PutBack(t))
    {
      pendingBatches := [batch] + pendingBatches;
      threads := threads[t := Finishing];
    }

    method CheckFinished(ghost t: nat)
      requires t < |threads| && threads[t] == Finishing
      modifies this
      ensures Contents() == Step(old(Contents()), frequency, Finish(t))
    {
      outstandingRequests := outstandingRequests - 1;
      threads := Without(threads, t);
    }
  }
}
