/** The circuit breaker of the API gateway, over timestamped traces. */
module CircuitBreaker {

  datatype Mode = Closed | Open | HalfOpen

  datatype Config = Config(failureThreshold: int, resetTimeoutMs: int, halfOpenMax: int) {
    predicate Valid() { failureThreshold > 0 && resetTimeoutMs > 0 && halfOpenMax > 0 }
  }

  datatype State = State(mode: Mode, failureCount: nat, successCount: nat, lastFailureTime: int, lastStateChange: int)

  datatype Event = Request(now: int) | Inspect(now: int) | Success(now: int) | Failure(now: int)

  function Init(start: int): State { State(Closed, 0, 0, 0, start) }

  /** checkOpenToHalfOpen: a request or a look at the state may move OPEN to HALF_OPEN. */
  function Checked(cfg: Config, s: State, now: int): State {
    if s.mode == Open && now - s.lastFailureTime >= cfg.resetTimeoutMs
    then s.(mode := HalfOpen, successCount := 0, lastStateChange := now) else s
  }

  function AfterSuccess(cfg: Config, s: State, now: int): State {
    match s.mode
    case Closed => s.(failureCount := 0)
    case Open => s
    case HalfOpen =>
      if s.successCount + 1 >= cfg.halfOpenMax
      then State(Closed, 0, s.successCount + 1, s.lastFailureTime, now)
      else s.(successCount := s.successCount + 1)
  }

  function AfterFailure(cfg: Config, s: State, now: int): State {
    var t := s.(failureCount := s.failureCount + 1, lastFailureTime := now);
    if s.mode == HalfOpen || (s.mode == Closed && t.failureCount >= cfg.failureThreshold)
    then t.(mode := Open, lastStateChange := now) else t
  }

  function Step(cfg: Config, s: State, e: Event): State {
    match e
    case Request(now) => Checked(cfg, s, now)
    case Inspect(now) => Checked(cfg, s, now)
    case Success(now) => AfterSuccess(cfg, s, now)
    case Failure(now) => AfterFailure(cfg, s, now)
  }

  class Breaker {
    const cfg: Config
    var mode: Mode
    var failureCount: nat
    var successCount: nat
    var lastFailureTime: int
    var lastStateChange: int

    function View(): State
      reads this
    {
      State(mode, failureCount, successCount, lastFailureTime, lastStateChange)
    }

    constructor (cfg: Config, now: int)
      ensures this.cfg == cfg && View() == Init(now)
    {
      this.cfg := cfg;
      mode, failureCount, successCount, lastFailureTime, lastStateChange := Closed, 0, 0, 0, now;
    }

    method Transition(to: Mode, now: int)
      modifies this`mode, this`lastStateChange
      ensures mode == to && lastStateChange == now
    {
      mode, lastStateChange := to, now;
    }

    method CheckOpenToHalfOpen(now: int)
      modifies this
      ensures View() == Checked(cfg, old(View()), now)
    {
      if mode == Open && now - lastFailureTime >= cfg.resetTimeoutMs {
        Transition(HalfOpen, now);
        successCount := 0;
      }
    }

    method IsRejected(now: int) returns (rejected: bool)
      modifies this
      ensures View() == Step(cfg, old(View()), Request(now))
      ensures rejected <==> View().mode == Open
    {
      CheckOpenToHalfOpen(now);
      rejected := mode == Open;
    }

    method OnSuccess(now: int)
      modifies this
      ensures View() == Step(cfg, old(View()), Success(now))
    {
      if mode == HalfOpen {
        successCount := successCount + 1;
        if successCount >= cfg.halfOpenMax {
          failureCount := 0;
          Transition(Closed, now);
        }
      }
      if mode == Closed {
        failureCount := 0;
      }
    }

    method OnFailure(now: int)
      modifies this
      ensures View() == Step(cfg, old(View()), Failure(now))
    {
      failureCount := failureCount + 1;
      lastFailureTime := now;
      if mode == HalfOpen {
        Transition(Open, now);
        return;
      }
      if mode == Closed && failureCount >= cfg.failureThreshold {
        Transition(Open, now);
      }
    }

    method GetState(now: int) returns (snapshot: State)
      modifies this
      ensures View() == Step(cfg, old(View()), Inspect(now)) && snapshot == View()
    {
      CheckOpenToHalfOpen(now);
      snapshot := State(mode, failureCount, successCount, lastFailureTime, lastStateChange);
    }
  }

  // ---------------------------------------------------------------- a breaker without counters

  /** The mode, the outcomes recorded since it was entered (true for success), and all failures so far. */
  datatype Record = Record(mode: Mode, since: seq<bool>, failures: seq<int>)

  predicate LastAreFailures(outcomes: seq<bool>, n: int) {
    n <= |outcomes| && forall i :: |outcomes| - n <= i < |outcomes| && 0 <= i ==> !outcomes[i]
  }

  predicate AllSuccesses(outcomes: seq<bool>) {
    forall i :: 0 <= i < |outcomes| ==> outcomes[i]
  }

  function Recorded(cfg: Config, r: Record, e: Event): Record
    requires cfg.Valid()
  {
    match e
    case Success(now) =>
      var since := r.since + [true];
      if r.mode == HalfOpen && |since| == cfg.halfOpenMax && AllSuccesses(since)
      then Record(Closed, [], r.failures) else r.(since := since)
    case Failure(now) =>
      var since, failures := r.since + [false], r.failures + [now];
      if r.mode == HalfOpen
         || (r.mode == Closed && LastAreFailures(since, cfg.failureThreshold))
      then Record(Open, [], failures) else Record(r.mode, since, failures)
    case _ =>
      if r.mode == Open && r.failures != [] && e.now - r.failures[|r.failures| - 1] >= cfg.resetTimeoutMs
      then Record(HalfOpen, [], r.failures) else r
  }

  function RecordOf(cfg: Config, trace: seq<Event>): Record
    requires cfg.Valid()
  {
    if trace == [] then Record(Closed, [], [])
    else Recorded(cfg, RecordOf(cfg, trace[..|trace| - 1]), trace[|trace| - 1])
  }

  function Run(cfg: Config, start: int, trace: seq<Event>): State {
    if trace == [] then Init(start) else Step(cfg, Run(cfg, start, trace[..|trace| - 1]), trace[|trace| - 1])
  }

  lemma RunAppend(cfg: Config, start: int, trace: seq<Event>, e: Event)
    ensures Run(cfg, start, trace + [e]) == Step(cfg, Run(cfg, start, trace), e)
  {
    assert (trace + [e])[..|trace|] == trace;
  }

  function TrailingFailures(outcomes: seq<bool>): nat {
    if outcomes == [] || outcomes[|outcomes| - 1] then 0 else 1 + TrailingFailures(outcomes[..|outcomes| - 1])
  }

  lemma {:induction false} TrailingMeaning(outcomes: seq<bool>, n: nat)
    ensures n <= TrailingFailures(outcomes) <==> LastAreFailures(outcomes, n)
  {
    if n > 0 && outcomes != [] {
      TrailingMeaning(outcomes[..|outcomes| - 1], n - 1);
    }
  }

  /** What the counters mean: they are readings of the record. */
  predicate Agrees(cfg: Config, s: State, r: Record) {
    && s.mode == r.mode
    && s.lastFailureTime == (if r.failures == [] then 0 else r.failures[|r.failures| - 1])
    && (s.mode == Closed ==> s.failureCount == TrailingFailures(r.since))
    && (s.mode == Closed <==> s.failureCount < cfg.failureThreshold)
    && (s.mode == HalfOpen ==> s.successCount == |r.since| < cfg.halfOpenMax && AllSuccesses(r.since))
    && (s.mode != Closed ==> r.failures != [])
  }

  /** What one more outcome does to the readings. */
  lemma OneMoreOutcome(since: seq<bool>, n: nat)
    ensures TrailingFailures(since + [true]) == 0
    ensures AllSuccesses(since + [true]) <==> AllSuccesses(since)
    ensures TrailingFailures(since + [false]) == 1 + TrailingFailures(since)
    ensures LastAreFailures(since + [false], n) <==> n <= 1 + TrailingFailures(since)
  {
    var good, bad := since + [true], since + [false];
    assert good[..|since|] == since && bad[..|since|] == since;
    assert forall i :: 0 <= i < |since| ==> good[i] == since[i];
    TrailingMeaning(bad, n);
  }

  lemma SuccessAgrees(cfg: Config, s: State, r: Record, now: int)
    requires cfg.Valid() && Agrees(cfg, s, r)
    ensures Agrees(cfg, AfterSuccess(cfg, s, now), Recorded(cfg, r, Success(now)))
  {
    OneMoreOutcome(r.since, 0);
  }

  lemma FailureAgrees(cfg: Config, s: State, r: Record, now: int)
    requires cfg.Valid() && Agrees(cfg, s, r)
    ensures Agrees(cfg, AfterFailure(cfg, s, now), Recorded(cfg, r, Failure(now)))
  {
    OneMoreOutcome(r.since, cfg.failureThreshold);
  }

  lemma LookAgrees(cfg: Config, s: State, r: Record, e: Event)
    requires cfg.Valid() && Agrees(cfg, s, r) && (e.Request? || e.Inspect?)
    ensures Agrees(cfg, Checked(cfg, s, e.now), Recorded(cfg, r, e))
  {}

  lemma StepAgrees(cfg: Config, s: State, r: Record, e: Event)
    requires cfg.Valid() && Agrees(cfg, s, r)
    ensures Agrees(cfg, Step(cfg, s, e), Recorded(cfg, r, e))
  {
    match e
    case Success(now) => SuccessAgrees(cfg, s, r, now);
    case Failure(now) => FailureAgrees(cfg, s, r, now);
    case _ => LookAgrees(cfg, s, r, e);
  }

  /**
   * On every trace the breaker is in the mode that the outcomes alone dictate: it trips on the last
   * `failureThreshold` outcomes since closing being failures and closes on `halfOpenMax` successes
   * since half-opening; it is CLOSED iff failureCount is below the threshold.
   */
  lemma {:induction false} CountersMeanTrace(cfg: Config, start: int, trace: seq<Event>)
    requires cfg.Valid()
    ensures Agrees(cfg, Run(cfg, start, trace), RecordOf(cfg, trace))
  {
    if trace != [] {
      var init := trace[..|trace| - 1];
      CountersMeanTrace(cfg, start, init);
      StepAgrees(cfg, Run(cfg, start, init), RecordOf(cfg, init), trace[|trace| - 1]);
    }
  }

  /** Failures since the last success that found or left the breaker closed; what failureCount shows in every mode. */
  function FailuresShown(cfg: Config, trace: seq<Event>): nat
    requires cfg.Valid()
  {
    if trace == [] then 0
    else
      var init := trace[..|trace| - 1];
      match trace[|trace| - 1]
      case Success(_) => if RecordOf(cfg, trace).mode == Closed then 0 else FailuresShown(cfg, init)
      case Failure(_) => FailuresShown(cfg, init) + 1
      case _ => FailuresShown(cfg, init)
  }

  /** Successes of the latest half-open stretch; what successCount shows in every mode. */
  function SuccessesShown(cfg: Config, trace: seq<Event>): nat
    requires cfg.Valid()
  {
    if trace == [] then 0
    else
      var init, before := trace[..|trace| - 1], RecordOf(cfg, trace[..|trace| - 1]).mode;
      match trace[|trace| - 1]
      case Success(_) => SuccessesShown(cfg, init) + if before == HalfOpen then 1 else 0
      case Failure(_) => SuccessesShown(cfg, init)
      case _ => if before != HalfOpen && RecordOf(cfg, trace).mode == HalfOpen then 0 else SuccessesShown(cfg, init)
  }

  /** Every field that getState shows, on every trace, in every mode. */
  lemma {:induction false} SnapshotMeansTrace(cfg: Config, start: int, trace: seq<Event>)
    requires cfg.Valid()
    ensures var s, r := Run(cfg, start, trace), RecordOf(cfg, trace);
            && s.mode == r.mode
            && s.failureCount == FailuresShown(cfg, trace)
            && s.successCount == SuccessesShown(cfg, trace)
            && s.lastFailureTime == (if r.failures == [] then 0 else r.failures[|r.failures| - 1])
            && s.lastStateChange == LastChange(cfg, start, trace)
  {
    CountersMeanTrace(cfg, start, trace);
    ChangeIsStamped(cfg, start, trace);
    if trace != [] {
      var init := trace[..|trace| - 1];
      SnapshotMeansTrace(cfg, start, init);
      CountersMeanTrace(cfg, start, init);
    }
  }

  /** The failures on record are the failures of the trace, in order. */
  lemma {:induction false} FailuresAreRecorded(cfg: Config, trace: seq<Event>)
    requires cfg.Valid()
    ensures RecordOf(cfg, trace).failures == FailureTimes(trace)
  {
    if trace != [] { FailuresAreRecorded(cfg, trace[..|trace| - 1]); }
  }

  function FailureTimes(trace: seq<Event>): seq<int> {
    if trace == [] then []
    else if trace[|trace| - 1].Failure? then FailureTimes(trace[..|trace| - 1]) + [trace[|trace| - 1].now]
    else FailureTimes(trace[..|trace| - 1])
  }

  /** A request is rejected iff the circuit is open and the latest failure, wherever it landed, is too recent. */
  lemma RejectedIff(cfg: Config, start: int, trace: seq<Event>, now: int)
    requires cfg.Valid()
    ensures var r := RecordOf(cfg, trace);
            (Step(cfg, Run(cfg, start, trace), Request(now)).mode == Open <==>
              r.mode == Open && r.failures != [] && now < r.failures[|r.failures| - 1] + cfg.resetTimeoutMs)
  {
    CountersMeanTrace(cfg, start, trace);
  }

  /** The time of the latest change of mode, read off the modes alone. */
  function LastChange(cfg: Config, start: int, trace: seq<Event>): int {
    if trace == [] then start
    else
      var init := trace[..|trace| - 1];
      if Run(cfg, start, init).mode != Run(cfg, start, trace).mode then trace[|trace| - 1].now
      else LastChange(cfg, start, init)
  }

  lemma {:induction false} ChangeIsStamped(cfg: Config, start: int, trace: seq<Event>)
    ensures Run(cfg, start, trace).lastStateChange == LastChange(cfg, start, trace)
  {
    if trace != [] { ChangeIsStamped(cfg, start, trace[..|trace| - 1]); }
  }

  // ---------------------------------------------------------------- timing

  predicate ClockRuns(trace: seq<Event>) {
    forall i, j :: 0 <= i <= j < |trace| ==> trace[i].now <= trace[j].now
  }

  /** The times at which the breaker entered OPEN. */
  function Openings(cfg: Config, start: int, trace: seq<Event>): seq<int> {
    if trace == [] then []
    else
      var init := trace[..|trace| - 1];
      Openings(cfg, start, init) +
      if Run(cfg, start, init).mode != Open && Run(cfg, start, trace).mode == Open
      then [trace[|trace| - 1].now] else []
  }

  predicate Spaced(times: seq<int>, gap: int) {
    forall i, j :: 0 <= i < j < |times| ==> times[j] - times[i] >= (j - i) * gap
  }

  lemma SpacedAppend(times: seq<int>, gap: int, t: int)
    requires Spaced(times, gap)
    ensures (times != [] ==> t - times[|times| - 1] >= gap) ==> Spaced(times + [t], gap)
  {
    var all := times + [t];
    forall i, j | (times != [] ==> t - times[|times| - 1] >= gap) && 0 <= i < j < |all|
      ensures all[j] - all[i] >= (j - i) * gap
    {
      if j == |times| {
        var k := |times| - 1;
        assert all[k] - all[i] >= (k - i) * gap;
        assert (j - i) * gap == (k - i) * gap + gap;
      }
    }
  }

  predicate TimingHolds(cfg: Config, s: State, opens: seq<int>, clock: int) {
    && Spaced(opens, cfg.resetTimeoutMs)
    && (s.mode == Open ==> opens != [] && opens[|opens| - 1] <= s.lastFailureTime <= clock)
    && (s.mode != Open && opens != [] ==> opens[|opens| - 1] + cfg.resetTimeoutMs <= clock)
  }

  lemma TimingStep(cfg: Config, s: State, opens: seq<int>, clock: int, e: Event)
    requires cfg.Valid() && TimingHolds(cfg, s, opens, clock) && clock <= e.now
    ensures var s' := Step(cfg, s, e);
            TimingHolds(cfg, s', opens + (if s.mode != Open && s'.mode == Open then [e.now] else []), e.now)
  {
    SpacedAppend(opens, cfg.resetTimeoutMs, e.now);
    assert opens + [] == opens;
  }

  lemma {:induction false} TimingOnRun(cfg: Config, start: int, trace: seq<Event>)
    requires cfg.Valid() && ClockRuns(trace) && trace != []
    ensures TimingHolds(cfg, Run(cfg, start, trace), Openings(cfg, start, trace), trace[|trace| - 1].now)
  {
    var init, e := trace[..|trace| - 1], trace[|trace| - 1];
    if init == [] {
      TimingStep(cfg, Init(start), [], e.now, e);
    } else {
      TimingOnRun(cfg, start, init);
      TimingStep(cfg, Run(cfg, start, init), Openings(cfg, start, init), init[|init| - 1].now, e);
    }
  }

  lemma {:induction false} OpeningsWithin(cfg: Config, start: int, trace: seq<Event>)
    requires ClockRuns(trace)
    ensures forall i :: 0 <= i < |Openings(cfg, start, trace)| ==>
              trace != [] && trace[0].now <= Openings(cfg, start, trace)[i] <= trace[|trace| - 1].now
  {
    if trace == [] {
      assert Openings(cfg, start, trace) == [];
    } else {
      var init, opens := trace[..|trace| - 1], Openings(cfg, start, trace);
      OpeningsWithin(cfg, start, init);
      forall i | 0 <= i < |opens| ensures trace[0].now <= opens[i] <= trace[|trace| - 1].now {
        if i < |Openings(cfg, start, init)| { assert opens[i] == Openings(cfg, start, init)[i]; }
      }
    }
  }

  /** Openings i and j of any trace are at least j - i timeouts apart; k of them take k - 1 timeouts. */
  lemma OpeningsApart(cfg: Config, start: int, trace: seq<Event>)
    requires cfg.Valid() && ClockRuns(trace) && trace != []
    ensures Spaced(Openings(cfg, start, trace), cfg.resetTimeoutMs)
    ensures (|Openings(cfg, start, trace)| - 1) * cfg.resetTimeoutMs <= trace[|trace| - 1].now - trace[0].now
  {
    TimingOnRun(cfg, start, trace);
    OpeningsWithin(cfg, start, trace);
    var opens := Openings(cfg, start, trace);
    if |opens| > 1 {
      assert opens[|opens| - 1] - opens[0] >= (|opens| - 1 - 0) * cfg.resetTimeoutMs;
    } else {
      assert |opens| - 1 <= 0;
    }
  }
}
