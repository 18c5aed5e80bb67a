/** The refresh protocol read off the events: what the server said, what each request came to, who is signed out. */
module RefreshHistory {
  import opened Common
  import opened TokenRefresh

  // ---------------------------------------------------------------- what the server said

  /** The outcome in the answer to refresh t. */
  function AnswerTo(run: seq<Event>, t: nat): Option<Outcome> {
    if run == [] then None
    else
      var e := run[|run| - 1];
      if e.RefreshAnswer? && e.ticket == t then Some(e.outcome) else AnswerTo(run[..|run| - 1], t)
  }

  /** The outcome in the latest answer to any refresh. */
  function LatestAnswer(run: seq<Event>): Option<Outcome> {
    if run == [] then None
    else if run[|run| - 1].RefreshAnswer? then Some(run[|run| - 1].outcome)
    else LatestAnswer(run[..|run| - 1])
  }

  /** The refresh whose promise is shared after the run, if one is. */
  function Shared(n: nat, start: int, run: seq<Event>): Option<nat> {
    match Exec(n, start, run) case None => None case Some(s) => s.flight.refreshPromise
  }

  /** What request r was given to await at its latest 401: the shared promise, or the latest failure. */
  function AwaitedBy(n: nat, start: int, run: seq<Event>, r: nat): Option<Wait> {
    if run == [] then None
    else
      var init, e := run[..|run| - 1], run[|run| - 1];
      if !(e.Unauthorized? && e.request == r) then AwaitedBy(n, start, init, r)
      else
        match Shared(n, start, run)
        case Some(t) => Some(OnTicket(t))
        case None =>
          match LatestAnswer(init)
          case Some(Failed(error)) => Some(OnRejection(error))
          case _ => None
  }

  /** What a leader is told: the server's answer to the refresh it awaits, or the failure it was turned away with. */
  function Told(n: nat, start: int, run: seq<Event>, r: nat): Option<Outcome> {
    match AwaitedBy(n, start, run, r)
    case None => None
    case Some(OnRejection(error)) => Some(Failed(error))
    case Some(OnTicket(t)) => AnswerTo(run, t)
  }

  /** What the leaders were told, one after the other. */
  function AllTold(n: nat, start: int, run: seq<Event>): seq<Option<Outcome>> {
    if run == [] then []
    else
      var init, e := run[..|run| - 1], run[|run| - 1];
      if e.Resume? then AllTold(n, start, init) + [Told(n, start, init, e.request)] else AllTold(n, start, init)
  }

  /** The time of the latest answer. */
  function LatestAnswerAt(run: seq<Event>): int {
    if run == [] then 0
    else if run[|run| - 1].RefreshAnswer? then run[|run| - 1].now
    else LatestAnswerAt(run[..|run| - 1])
  }

  /** The failure that the latest answer left behind. */
  function FailureLeft(run: seq<Event>): Option<FailureRecord> {
    match LatestAnswer(run)
    case Some(Failed(error)) => Some(FailureRecord(LatestAnswerAt(run), error))
    case _ => None
  }

  /** The refresh requests, answers, promises and the recorded failure are those of the events. */
  ghost predicate FlightIsHistory(run: seq<Event>, f: Flight) {
    && (forall t :: t in f.posts ==> AnswerTo(run, t) == None && t < f.nextTicket)
    && (forall t :: t in f.answers ==> AnswerTo(run, t) == Some(f.answers[t]) && t < f.nextTicket)
    && (forall t :: t in f.promises ==> AnswerTo(run, t) == Some(f.promises[t]) && t < f.nextTicket)
    && (forall t :: t in f.promises <==> RefreshFinally(t) in run)
    && (forall t: nat :: AnswerTo(run, t).Some? ==> t < f.nextTicket)
    && f.lastRefreshFailure == FailureLeft(run)
  }

  predicate LeadersAwait(n: nat, start: int, run: seq<Event>, leaders: map<nat, Wait>) {
    forall r :: r in leaders ==> AwaitedBy(n, start, run, r) == Some(leaders[r])
  }

  predicate ResultsAreTold(n: nat, start: int, run: seq<Event>, results: seq<Outcome>) {
    && |results| == |AllTold(n, start, run)|
    && forall i :: 0 <= i < |results| ==> AllTold(n, start, run)[i] == Some(results[i])
  }

  lemma CallKeepsFlight(run: seq<Event>, f: Flight, e: Event, now: int)
    requires FlightIsHistory(run, f) && !e.RefreshAnswer? && !e.RefreshFinally?
    ensures FlightIsHistory(run + [e], f.(clock := now)) && FlightIsHistory(run + [e], f)
    ensures FlightIsHistory(run + [e], CallRefresh(f, now).0)
  {
    HistoryAppend(run, e);
  }

  /** What one more event adds to the answers of a run. */
  lemma HistoryAppend(run: seq<Event>, e: Event)
    ensures forall t :: AnswerTo(run + [e], t)
                     == if e.RefreshAnswer? && e.ticket == t then Some(e.outcome) else AnswerTo(run, t)
    ensures forall t :: RefreshFinally(t) in run + [e] <==> RefreshFinally(t) in run || e == RefreshFinally(t)
    ensures FailureLeft(run + [e]) == if !e.RefreshAnswer? then FailureLeft(run)
                                      else if e.outcome.Fresh? then None
                                      else Some(FailureRecord(e.now, e.outcome.error))
  {
    assert (run + [e])[..|run|] == run;
  }

  lemma AnswerKeepsFlight(run: seq<Event>, f: Flight, e: Event)
    requires FlightIsHistory(run, f) && e.RefreshAnswer? && e.ticket in f.posts
    ensures FlightIsHistory(run + [e], Answer(f, e.ticket, e.outcome, e.now))
  {
    HistoryAppend(run, e);
  }

  lemma FinallyKeepsFlight(run: seq<Event>, f: Flight, e: Event)
    requires FlightIsHistory(run, f) && e.RefreshFinally? && e.ticket in f.answers
    ensures FlightIsHistory(run + [e], Finally(f, e.ticket))
  {
    HistoryAppend(run, e);
  }

  lemma FlightStep(run: seq<Event>, s: Api, e: Event)
    requires FlightIsHistory(run, s.flight) && Enabled(s, e)
    ensures FlightIsHistory(run + [e], Step(s, e).flight)
  {
    match e
    case RefreshAnswer(t, _, _) => AnswerKeepsFlight(run, s.flight, e);
    case RefreshFinally(t) => FinallyKeepsFlight(run, s.flight, e);
    case Unauthorized(_, now) => CallKeepsFlight(run, s.flight, e, now);
    case Proactive(now) => CallKeepsFlight(run, s.flight, e, now);
    case _ => CallKeepsFlight(run, s.flight, e, s.flight.clock);
  }

  /** Every answer, promise and recorded failure is the server's. */
  lemma {:induction false} EveryFlightIsHistory(n: nat, start: int, run: seq<Event>)
    requires Exec(n, start, run).Some?
    ensures FlightIsHistory(run, Exec(n, start, run).value.flight)
  {
    if run != [] {
      var init, e := run[..|run| - 1], run[|run| - 1];
      assert run == init + [e];
      EveryFlightIsHistory(n, start, init);
      FlightStep(init, Exec(n, start, init).value, e);
    }
  }

  // ---------------------------------------------------------------- asking for a token

  /**
   * What a caller of the refresh gets, by the events alone: it joins the refresh under way; without one
   * it is turned away with the latest answer if that was a failure less than five seconds ago; otherwise
   * it starts a new one.
   */
  lemma CallLaw(n: nat, start: int, run: seq<Event>, now: int)
    requires Exec(n, start, run).Some?
    ensures var f := Exec(n, start, run).value.flight;
            var (f', w) := CallRefresh(f, now);
            match Shared(n, start, run)
            case Some(t) => w == OnTicket(t) && f' == f.(clock := now)
            case None =>
              if FailureLeft(run).Some? && now < FailureLeft(run).value.at + 5000
              then w == OnRejection(FailureLeft(run).value.error) && f' == f.(clock := now)
              else
                && w == OnTicket(f.nextTicket) && f'.refreshPromise == Some(f.nextTicket)
                && f'.posts == f.posts + {f.nextTicket} && f'.nextTicket == f.nextTicket + 1
                && f'.answers == f.answers && f'.promises == f.promises
  {
    EveryFlightIsHistory(n, start, run);
  }

  // ---------------------------------------------------------------- what the leaders are told

  /** What an event does to the waiting leaders, and to the flight when it elects one. */
  lemma LeadersOfStep(s: Api, e: Event)
    requires Enabled(s, e)
    ensures var s' := Step(s, e);
            if e.Unauthorized? && s'.requests[e.request] == Leading then
              var (f, w) := CallRefresh(s.flight, e.now);
              s'.flight == f && s'.leaders == s.leaders[e.request := w]
            else if e.Resume? then s'.leaders == s.leaders - {e.request}
            else s'.leaders == s.leaders
  {}

  lemma AwaitStep(n: nat, start: int, run: seq<Event>)
    requires run != [] && Exec(n, start, run).Some?
    requires LeadersAwait(n, start, run[..|run| - 1], Exec(n, start, run[..|run| - 1]).value.leaders)
    ensures LeadersAwait(n, start, run, Exec(n, start, run).value.leaders)
  {
    var init, e := run[..|run| - 1], run[|run| - 1];
    var s, s' := Exec(n, start, init).value, Exec(n, start, run).value;
    EveryFlightIsHistory(n, start, init);
    EveryRunKeeps(n, start, init);
    LeadersOfStep(s, e);
    if e.Unauthorized? {
      assert e.request !in s.leaders by { assert !InPhase(s.requests, e.request, Leading); }
      ElectedAwaits(s.flight, FailureLeft(init), e.now);
    }
    forall r | r in s'.leaders ensures AwaitedBy(n, start, run, r) == Some(s'.leaders[r]) {
      if e.Unauthorized? && e.request == r {
        assert Shared(n, start, run) == s'.flight.refreshPromise;
      } else {
        assert r in s.leaders;
      }
    }
  }

  lemma ElectedAwaits(f: Flight, left: Option<FailureRecord>, now: int)
    requires f.lastRefreshFailure == left
    ensures var (f', w) := CallRefresh(f, now);
            match f'.refreshPromise
            case Some(t) => w == OnTicket(t)
            case None => left.Some? && w == OnRejection(left.value.error)
  {}

  lemma {:induction false} EveryLeaderAwaits(n: nat, start: int, run: seq<Event>)
    requires Exec(n, start, run).Some?
    ensures LeadersAwait(n, start, run, Exec(n, start, run).value.leaders)
  {
    if run != [] {
      EveryLeaderAwaits(n, start, run[..|run| - 1]);
      AwaitStep(n, start, run);
    }
  }

  /** The outcome that a leader goes on with is what it is told. */
  lemma LeaderIsTold(n: nat, start: int, run: seq<Event>, r: nat)
    requires Exec(n, start, run).Some? && Enabled(Exec(n, start, run).value, Resume(r))
    ensures var s := Exec(n, start, run).value;
            Told(n, start, run, r) == Some(OutcomeOf(s.flight, s.leaders[r]))
  {
    EveryLeaderAwaits(n, start, run);
    EveryFlightIsHistory(n, start, run);
  }

  /**
   * On every run each episode ends in what its leader was told: the server's answer to the refresh it
   * awaited, or the latest failed answer when it was turned away.
   */
  lemma {:induction false} ResultsAreAnswers(n: nat, start: int, run: seq<Event>)
    requires Exec(n, start, run).Some?
    ensures ResultsAreTold(n, start, run, Exec(n, start, run).value.books.results)
  {
    if run != [] {
      var init, e := run[..|run| - 1], run[|run| - 1];
      ResultsAreAnswers(n, start, init);
      if e.Resume? { LeaderIsTold(n, start, init, e.request); }
    }
  }

  // ---------------------------------------------------------------- who is signed out

  predicate IsRefused(told: Option<Outcome>) {
    && told.Some? && told.value.Failed?
    && (|| told.value.error.status == Some(400)
        || told.value.error.status == Some(401)
        || told.value.error.status == Some(403))
  }

  /** The token of the latest fresh answer, unless a leader was told of a refusal since. */
  function StoredToken(n: nat, start: int, run: seq<Event>): Option<string> {
    if run == [] then None
    else
      var init, e := run[..|run| - 1], run[|run| - 1];
      if e.RefreshAnswer? && e.outcome.Fresh? then Some(e.outcome.token)
      else if e.Resume? && IsRefused(Told(n, start, init, e.request)) then None
      else StoredToken(n, start, init)
  }

  predicate SentToLogin(n: nat, start: int, run: seq<Event>) {
    run != [] &&
      var init, e := run[..|run| - 1], run[|run| - 1];
      (e.Resume? && IsRefused(Told(n, start, init, e.request))) || SentToLogin(n, start, init)
  }

  /** On every run the stored token and the login page are those that the answers call for. */
  lemma {:induction false} PageIsHistory(n: nat, start: int, run: seq<Event>)
    requires Exec(n, start, run).Some?
    ensures Exec(n, start, run).value.page == Page(StoredToken(n, start, run), SentToLogin(n, start, run))
  {
    if run != [] {
      var init, e := run[..|run| - 1], run[|run| - 1];
      PageIsHistory(n, start, init);
      if e.Resume? { LeaderIsTold(n, start, init, e.request); }
    }
  }

  // ---------------------------------------------------------------- what each request comes to

  /** What one event does to request q: `led` if it led before, `busy` if some request leads now. */
  function LifeNext(before: Phase, e: Event, q: nat, led: bool, busy: bool, told: Option<Outcome>): Phase {
    if e.Resume? then
      if before != Parked && before != Leading then before
      else if told.Some? && told.value.Fresh? then InFlight
      else Settled
    else if e.Issue? && e.request == q then InFlight
    else if e.Answered? && e.request == q then Settled
    else if e.Unauthorized? && e.request == q then (if led then Settled else if busy then Parked else Leading)
    else before
  }

  /** Where request q stands, by the events alone: no flag, no queue, no mark. */
  ghost function LifeOf(n: nat, start: int, run: seq<Event>, q: nat): Phase
    decreases |run|, 0
  {
    if run == [] then Idle
    else
      var init, e := run[..|run| - 1], run[|run| - 1];
      LifeNext(LifeOf(n, start, init, q), e, q, HasLed(n, start, init, q), SomeoneLeads(n, start, init),
               if e.Resume? then Told(n, start, init, e.request) else None)
  }

  ghost predicate HasLed(n: nat, start: int, run: seq<Event>, q: nat)
    decreases |run|, 1
  {
    LifeOf(n, start, run, q) == Leading || (run != [] && HasLed(n, start, run[..|run| - 1], q))
  }

  ghost predicate SomeoneLeads(n: nat, start: int, run: seq<Event>)
    decreases |run|, 1
  {
    exists q: nat :: q < n && LifeOf(n, start, run, q) == Leading
  }

  ghost predicate LivesHold(n: nat, start: int, run: seq<Event>, s: Api) {
    && |s.requests| == n
    && (forall q: nat :: q < n ==> s.requests[q] == LifeOf(n, start, run, q))
    && (forall q: nat :: q < n ==> (q in s.retried <==> HasLed(n, start, run, q)))
  }

  lemma LeadsWhileRefreshing(n: nat, start: int, run: seq<Event>, s: Api)
    requires LivesHold(n, start, run, s) && Inv(s)
    ensures s.isRefreshing <==> SomeoneLeads(n, start, run)
  {
    if s.isRefreshing {
      var r :| s.leaders.Keys == {r};
      assert r in s.leaders && InPhase(s.requests, r, Leading);
    }
    forall q: nat | q < n && LifeOf(n, start, run, q) == Leading ensures s.isRefreshing {
      assert InPhase(s.requests, q, Leading) && q in s.leaders;
    }
  }

  lemma ResumePhase(s: Api, r: nat, q: nat)
    requires Inv(s) && Enabled(s, Resume(r)) && q < |s.requests|
    ensures var told, after := OutcomeOf(s.flight, s.leaders[r]), Step(s, Resume(r));
            && |after.requests| == |s.requests| && after.retried == s.retried
            && after.requests[q] == LifeNext(s.requests[q], Resume(r), q, false, false, Some(told))
            && after.requests[q] != Leading
  {
    assert s.leaders.Keys == {r} by { assert r in s.leaders; }
    assert q in s.leaders <==> InPhase(s.requests, q, Leading);
    assert q in s.failedQueue <==> InPhase(s.requests, q, Parked);
  }

  lemma OtherPhase(s: Api, e: Event, q: nat)
    requires Enabled(s, e) && !e.Resume? && q < |s.requests|
    ensures |Step(s, e).requests| == |s.requests|
    ensures Step(s, e).requests[q] == LifeNext(s.requests[q], e, q, q in s.retried, s.isRefreshing, None)
    ensures q in Step(s, e).retried <==>
              q in s.retried || (s.requests[q] != Leading && Step(s, e).requests[q] == Leading)
  {}

  lemma PhaseStep(s: Api, e: Event, q: nat, told: Option<Outcome>)
    requires Inv(s) && Enabled(s, e) && q < |s.requests|
    requires told == if e.Resume? then Some(OutcomeOf(s.flight, s.leaders[e.request])) else None
    ensures |Step(s, e).requests| == |s.requests|
    ensures Step(s, e).requests[q] == LifeNext(s.requests[q], e, q, q in s.retried, s.isRefreshing, told)
    ensures q in Step(s, e).retried <==> q in s.retried || Step(s, e).requests[q] == Leading
  {
    if e.Resume? { ResumePhase(s, e.request, q); } else { OtherPhase(s, e, q); }
    assert q in s.leaders <==> InPhase(s.requests, q, Leading);
  }

  lemma LifeStep(n: nat, start: int, run: seq<Event>, q: nat)
    requires run != [] && Exec(n, start, run).Some? && q < n
    requires LivesHold(n, start, run[..|run| - 1], Exec(n, start, run[..|run| - 1]).value)
    ensures |Exec(n, start, run).value.requests| == n
    ensures Exec(n, start, run).value.requests[q] == LifeOf(n, start, run, q)
    ensures q in Exec(n, start, run).value.retried <==> HasLed(n, start, run, q)
  {
    var init, e := run[..|run| - 1], run[|run| - 1];
    var s := Exec(n, start, init).value;
    EveryRunKeeps(n, start, init);
    LeadsWhileRefreshing(n, start, init, s);
    if e.Resume? { LeaderIsTold(n, start, init, e.request); }
    PhaseStep(s, e, q, if e.Resume? then Told(n, start, init, e.request) else None);
  }

  /** The four variables of the protocol refine the plain lives: every request stands where its history puts it. */
  lemma {:induction false} LivesAreHistory(n: nat, start: int, run: seq<Event>)
    requires Exec(n, start, run).Some?
    ensures LivesHold(n, start, run, Exec(n, start, run).value)
  {
    EveryRunKeeps(n, start, run);
    if run != [] {
      LivesAreHistory(n, start, run[..|run| - 1]);
      forall q: nat | q < n
        ensures Exec(n, start, run).value.requests[q] == LifeOf(n, start, run, q)
        ensures q in Exec(n, start, run).value.retried <==> HasLed(n, start, run, q)
      {
        LifeStep(n, start, run, q);
      }
    }
  }

  /** The requests that had to wait, in the order of their 401s, each with the number of episodes before. */
  ghost function Waiters(n: nat, start: int, run: seq<Event>): seq<Parking> {
    if run == [] then []
    else
      var init, e := run[..|run| - 1], run[|run| - 1];
      if e.Unauthorized? && LifeOf(n, start, run, e.request) == Parked
      then Waiters(n, start, init) + [Parking(e.request, |AllTold(n, start, init)|)]
      else Waiters(n, start, init)
  }

  lemma ParkStep(s: Api, e: Event)
    requires Inv(s) && Enabled(s, e)
    ensures Step(s, e).books.parkings
         == if e.Unauthorized? && Step(s, e).requests[e.request] == Parked
            then s.books.parkings + [Parking(e.request, |s.books.results|)] else s.books.parkings
  {}

  /** The requests are parked, and so settled, in the order of their 401s. */
  lemma {:induction false} WaitersInOrder(n: nat, start: int, run: seq<Event>)
    requires Exec(n, start, run).Some?
    ensures Exec(n, start, run).value.books.parkings == Waiters(n, start, run)
  {
    if run != [] {
      var init, e := run[..|run| - 1], run[|run| - 1];
      WaitersInOrder(n, start, init);
      EveryRunKeeps(n, start, init);
      LivesAreHistory(n, start, run);
      ResultsAreAnswers(n, start, init);
      ParkStep(Exec(n, start, init).value, e);
    }
  }

  // ---------------------------------------------------------------- when a refresh is under way

  /** An event that asks for a token: the interceptor's own refresh, or a 401 that makes its request lead. */
  ghost predicate Asks(n: nat, start: int, run: seq<Event>)
    requires run != []
  {
    var e := run[|run| - 1];
    e.Proactive? || (e.Unauthorized? && LifeOf(n, start, run, e.request) == Leading)
  }

  /** The latest reading of the clock. */
  function Clock(start: int, run: seq<Event>): int {
    if run == [] then start
    else
      var e := run[|run| - 1];
      if e.Unauthorized? || e.Proactive? || e.RefreshAnswer? then e.now else Clock(start, run[..|run| - 1])
  }

  /** The refresh under way, and how many have begun: one begins when asked for, unless one is or one just failed. */
  ghost function UnderWay(n: nat, start: int, run: seq<Event>): (Option<nat>, nat) {
    if run == [] then (None, 0)
    else
      var init, e := run[..|run| - 1], run[|run| - 1];
      var (now, begun) := UnderWay(n, start, init);
      if Asks(n, start, run) then
        if now.Some? || (FailureLeft(init).Some? && Clock(start, run) < FailureLeft(init).value.at + 5000)
        then (now, begun) else (Some(begun), begun + 1)
      else if e.RefreshFinally? then (None, begun)
      else (now, begun)
  }

  lemma FlightOfStep(s: Api, e: Event)
    requires Enabled(s, e)
    ensures var f, s' := s.flight, Step(s, e);
            if e.Proactive? || (e.Unauthorized? && s'.requests[e.request] == Leading)
            then s'.flight == CallRefresh(f, e.now).0
            else
              && s'.flight.nextTicket == f.nextTicket
              && s'.flight.refreshPromise == if e.RefreshFinally? then None else f.refreshPromise
  {}

  lemma AskStep(n: nat, start: int, run: seq<Event>)
    requires run != [] && Exec(n, start, run).Some?
    ensures var init := run[..|run| - 1];
            var s, s' := Exec(n, start, init).value, Exec(n, start, run).value;
            if Asks(n, start, run) then s'.flight == CallRefresh(s.flight, Clock(start, run)).0
            else
              && s'.flight.nextTicket == s.flight.nextTicket
              && s'.flight.refreshPromise == if run[|run| - 1].RefreshFinally? then None else s.flight.refreshPromise
  {
    LivesAreHistory(n, start, run);
    EveryRunKeeps(n, start, run[..|run| - 1]);
    FlightOfStep(Exec(n, start, run[..|run| - 1]).value, run[|run| - 1]);
  }

  /** On every run the shared promise, the number of refreshes and the clock are those of the events. */
  lemma {:induction false} UnderWayIsHistory(n: nat, start: int, run: seq<Event>)
    requires Exec(n, start, run).Some?
    ensures var f := Exec(n, start, run).value.flight;
            (f.refreshPromise, f.nextTicket) == UnderWay(n, start, run)
    ensures Exec(n, start, run).value.flight.clock == Clock(start, run)
  {
    if run != [] {
      var init := run[..|run| - 1];
      UnderWayIsHistory(n, start, init);
      ClockStep(Exec(n, start, init).value, run[|run| - 1]);
      AskStep(n, start, run);
      CallLaw(n, start, init, Clock(start, run));
    }
  }

  lemma ClockStep(s: Api, e: Event)
    requires Enabled(s, e)
    ensures Step(s, e).flight.clock
         == if e.Unauthorized? || e.Proactive? || e.RefreshAnswer? then e.now else s.flight.clock
  {}
}
