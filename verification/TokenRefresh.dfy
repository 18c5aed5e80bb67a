/** Single-flight token refresh and the 401 retry protocol of the client, as interleaved atomic steps. */
module TokenRefresh {
  import opened Common

  const REFRESH_RETRY_COOLDOWN_MS := 5000

  /** A failed refresh: the HTTP status, if there was a response at all. */
  datatype RefreshError = RefreshError(status: Option<int>, message: string) {
    predicate SignsOut() { status in [Some(400), Some(401), Some(403)] }
  }

  datatype Outcome = Fresh(token: string) | Failed(error: RefreshError) {
    predicate SignsOut() { Failed? && error.SignsOut() }
  }

  /** What a caller of refreshAccessToken gets to await: a shared promise, or a prompt rejection. */
  datatype Wait = OnTicket(ticket: nat) | OnRejection(error: RefreshError)

  datatype FailureRecord = FailureRecord(at: int, error: RefreshError)

  datatype RefreshEvent = Started(at: int) | Succeeded(at: int) | Broke(at: int)

  /** The refresh request: module variables, network, settled promises, and the history of its starts and answers. */
  datatype Flight = Flight(
    refreshPromise: Option<nat>,
    lastRefreshFailure: Option<FailureRecord>,
    posts: set<nat>,                // refresh requests on the wire
    answers: map<nat, Outcome>,     // answered, `finally` still to run
    promises: map<nat, Outcome>,    // settled refresh promises
    nextTicket: nat,
    clock: int,
    log: seq<RefreshEvent>)
  {
    function Tickets(): set<nat> { posts + answers.Keys + promises.Keys }
  }

  /** Where one of the original requests stands; a replay puts it back in flight. */
  datatype Phase = Idle | InFlight | Parked | Leading | Settled

  /** `episode` counts the leaders that finished before the request was parked. */
  datatype Parking = Parking(request: nat, episode: nat)

  datatype Settlement = Settlement(parking: Parking, outcome: Outcome)

  /** What happened to the parked requests so far. */
  datatype Books = Books(parkings: seq<Parking>, settlements: seq<Settlement>, results: seq<Outcome>, replays: nat)

  /** What the page keeps: the stored access token, and whether it has been sent to the login page. */
  datatype Page = Page(accessToken: Option<string>, atLogin: bool)

  datatype Api = Api(
    isRefreshing: bool,
    failedQueue: seq<nat>,
    flight: Flight,
    leaders: map<nat, Wait>,        // response handlers suspended in `await refreshAccessToken()`
    requests: seq<Phase>,
    retried: set<nat>,              // requests marked `_retry`
    books: Books,
    page: Page)

  datatype Event =
    | Issue(request: nat)
    | Answered(request: nat)                            // any response but a 401
    | Unauthorized(request: nat, now: int)
    | Proactive(now: int)                               // the request interceptor's own refresh
    | RefreshAnswer(ticket: nat, outcome: Outcome, now: int)
    | RefreshFinally(ticket: nat)
    | Resume(request: nat)

  function Init(n: nat, start: int): Api {
    Api(false, [], Flight(None, None, {}, map[], map[], 0, start, []),
        map[], seq(n, i => Idle), {}, Books([], [], [], 0), Page(None, false))
  }

  predicate InPhase(requests: seq<Phase>, r: nat, p: Phase) {
    r < |requests| && requests[r] == p
  }

  predicate Ready(f: Flight, w: Wait) {
    w.OnRejection? || w.ticket in f.promises
  }

  predicate Enabled(s: Api, e: Event) {
    match e
    case Issue(r) => InPhase(s.requests, r, Idle)
    case Answered(r) => InPhase(s.requests, r, InFlight)
    case Unauthorized(r, now) => InPhase(s.requests, r, InFlight) && s.flight.clock <= now
    case Proactive(now) => s.flight.clock <= now
    case RefreshAnswer(t, _, now) => t in s.flight.posts && s.flight.clock <= now
    case RefreshFinally(t) => t in s.flight.answers
    case Resume(r) => r < |s.requests| && r in s.leaders && Ready(s.flight, s.leaders[r])
  }

  // ---------------------------------------------------------------- the atomic steps

  /** refreshAccessToken up to its first await. */
  function CallRefresh(f: Flight, now: int): (Flight, Wait) {
    if f.refreshPromise.Some? then (f.(clock := now), OnTicket(f.refreshPromise.value))
    else if && f.lastRefreshFailure.Some?
            && now - f.lastRefreshFailure.value.at < REFRESH_RETRY_COOLDOWN_MS then
      (f.(clock := now), OnRejection(f.lastRefreshFailure.value.error))
    else
      (f.(refreshPromise := Some(f.nextTicket), posts := f.posts + {f.nextTicket}, nextTicket := f.nextTicket + 1,
          clock := now, log := f.log + [Started(now)]),
       OnTicket(f.nextTicket))
  }

  /** The then or catch callback of the refresh request. */
  function Answer(f: Flight, t: nat, outcome: Outcome, now: int): Flight {
    f.(posts := f.posts - {t}, answers := f.answers[t := outcome], clock := now,
       lastRefreshFailure := if outcome.Fresh? then None else Some(FailureRecord(now, outcome.error)),
       log := f.log + [if outcome.Fresh? then Succeeded(now) else Broke(now)])
  }

  function Finally(f: Flight, t: nat): Flight
    requires t in f.answers
  {
    f.(refreshPromise := None, answers := f.answers - {t}, promises := f.promises[t := f.answers[t]])
  }

  function OutcomeOf(f: Flight, w: Wait): Outcome
    requires Ready(f, w)
  {
    match w case OnRejection(error) => Failed(error) case OnTicket(t) => f.promises[t]
  }

  /** All queued requests leave for phase `to`. */
  function Release(requests: seq<Phase>, queue: seq<nat>, to: Phase): seq<Phase> {
    seq(|requests|, i requires 0 <= i < |requests| => if i in queue then to else requests[i])
  }

  function Settlements(queue: seq<nat>, episode: nat, outcome: Outcome): seq<Settlement> {
    seq(|queue|, i requires 0 <= i < |queue| => Settlement(Parking(queue[i], episode), outcome))
  }

  function Step(s: Api, e: Event): Api
    requires Enabled(s, e)
  {
    match e
    case Issue(r) => s.(requests := s.requests[r := InFlight])
    case Answered(r) => s.(requests := s.requests[r := Settled])
    case Unauthorized(r, now) =>
      var waiting := s.(flight := s.flight.(clock := now));
      if r in s.retried then waiting.(requests := s.requests[r := Settled])
      else if s.isRefreshing then
        waiting.(failedQueue := s.failedQueue + [r], requests := s.requests[r := Parked],
                 books := s.books.(parkings := s.books.parkings + [Parking(r, |s.books.results|)]))
      else
        var (flight, wait) := CallRefresh(s.flight, now);
        s.(isRefreshing := true, retried := s.retried + {r}, flight := flight,
           requests := s.requests[r := Leading], leaders := s.leaders[r := wait])
    case Proactive(now) => s.(flight := CallRefresh(s.flight, now).0)
    case RefreshAnswer(t, outcome, now) =>
      s.(flight := Answer(s.flight, t, outcome, now),
         page := if outcome.Fresh? then s.page.(accessToken := Some(outcome.token)) else s.page)
    case RefreshFinally(t) => s.(flight := Finally(s.flight, t))
    case Resume(r) => Resumed(s, r, OutcomeOf(s.flight, s.leaders[r]))
  }

  /** The leader goes on: the queue is settled with it, and a refused refresh signs the user out. */
  function Resumed(s: Api, r: nat, outcome: Outcome): Api
    requires r < |s.requests|
  {
    var to := if outcome.Fresh? then InFlight else Settled;
    s.(isRefreshing := false, failedQueue := [], leaders := s.leaders - {r},
       requests := Release(s.requests, s.failedQueue, to)[r := to],
       books := CloseEpisode(s.books, s.failedQueue, outcome),
       page := if outcome.SignsOut() then Page(None, true) else s.page)
  }

  function CloseEpisode(b: Books, queue: seq<nat>, outcome: Outcome): Books {
    Books(b.parkings, b.settlements + Settlements(queue, |b.results|, outcome), b.results + [outcome],
          b.replays + if outcome.Fresh? then |queue| + 1 else 0)
  }

  /** The state after a run of n original requests; None when some step could not happen. */
  function Exec(n: nat, start: int, run: seq<Event>): Option<Api> {
    if run == [] then Some(Init(n, start))
    else
      match Exec(n, start, run[..|run| - 1])
      case None => None
      case Some(s) => if Enabled(s, run[|run| - 1]) then Some(Step(s, run[|run| - 1])) else None
  }

  // ---------------------------------------------------------------- the module as an object

  /** The four module variables, and beside them the requests, the network and the history. */
  class AuthClient {
    var isRefreshing: bool
    var failedQueue: seq<nat>
    var refreshPromise: Option<nat>
    var lastRefreshFailure: Option<FailureRecord>

    var posts: set<nat>
    var answers: map<nat, Outcome>
    var promises: map<nat, Outcome>
    var nextTicket: nat
    var clock: int
    var log: seq<RefreshEvent>
    var leaders: map<nat, Wait>
    var requests: seq<Phase>
    var retried: set<nat>
    var books: Books
    var page: Page

    ghost function View(): Api
      reads this
    {
      Api(isRefreshing, failedQueue,
          Flight(refreshPromise, lastRefreshFailure, posts, answers, promises, nextTicket, clock, log),
          leaders, requests, retried, books, page)
    }

    constructor (n: nat, start: int)
      ensures View() == Init(n, start)
    {
      isRefreshing, failedQueue, refreshPromise, lastRefreshFailure := false, [], None, None;
      posts, answers, promises, nextTicket, clock, log := {}, map[], map[], 0, start, [];
      leaders, requests, retried, books := map[], seq(n, i => Idle), {}, Books([], [], [], 0);
      page := Page(None, false);
    }

    method RefreshAccessToken(now: int) returns (wait: Wait)
      modifies this
      ensures var (flight, w) := CallRefresh(old(View()).flight, now);
              wait == w && View() == old(View()).(flight := flight)
    {
      clock := now;
      if refreshPromise.Some? {
        return OnTicket(refreshPromise.value);
      }
      if lastRefreshFailure.Some? && now - lastRefreshFailure.value.at < REFRESH_RETRY_COOLDOWN_MS {
        return OnRejection(lastRefreshFailure.value.error);
      }
      posts, log := posts + {nextTicket}, log + [Started(now)];
      refreshPromise, wait := Some(nextTicket), OnTicket(nextTicket);
      nextTicket := nextTicket + 1;
    }

    method RecordAnswer(t: nat, outcome: Outcome, now: int)
      modifies this`lastRefreshFailure, this`posts, this`answers, this`clock, this`log
      ensures View().flight == Answer(old(View()).flight, t, outcome, now)
    {
      posts, answers, clock := posts - {t}, answers[t := outcome], now;
      if outcome.Fresh? {
        lastRefreshFailure, log := None, log + [Succeeded(now)];
      } else {
        lastRefreshFailure, log := Some(FailureRecord(now, outcome.error)), log + [Broke(now)];
      }
    }

    method OnRefreshAnswer(t: nat, outcome: Outcome, now: int)
      requires Enabled(View(), RefreshAnswer(t, outcome, now))
      modifies this`lastRefreshFailure, this`posts, this`answers, this`clock, this`log, this`page
      ensures View() == Step(old(View()), RefreshAnswer(t, outcome, now))
    {
      if outcome.Fresh? {
        page := page.(accessToken := Some(outcome.token));
      }
      RecordAnswer(t, outcome, now);
    }

    method OnRefreshFinally(t: nat)
      requires Enabled(View(), RefreshFinally(t))
      modifies this
      ensures View() == Step(old(View()), RefreshFinally(t))
    {
      refreshPromise := None;
      promises, answers := promises[t := answers[t]], answers - {t};
    }

    /** The response interceptor on a 401, up to its first await. */
    method OnUnauthorized(r: nat, now: int)
      requires Enabled(View(), Unauthorized(r, now))
      modifies this
      ensures View() == Step(old(View()), Unauthorized(r, now))
    {
      if r in retried {
        clock, requests := now, requests[r := Settled];
        return;
      }
      if isRefreshing {
        clock, failedQueue, requests := now, failedQueue + [r], requests[r := Parked];
        books := books.(parkings := books.parkings + [Parking(r, |books.results|)]);
        return;
      }
      Lead(r, now);
    }

    method Lead(r: nat, now: int)
      requires Enabled(View(), Unauthorized(r, now)) && r !in retried && !isRefreshing
      modifies this
      ensures View() == Step(old(View()), Unauthorized(r, now))
    {
      retried, isRefreshing := retried + {r}, true;
      var wait := RefreshAccessToken(now);
      requests, leaders := requests[r := Leading], leaders[r := wait];
    }

    /** Every queued promise is resolved or rejected, then the queue is dropped. */
    method ProcessQueue(outcome: Outcome, to: Phase)
      requires forall q :: q in failedQueue ==> q < |requests|
      modifies this`failedQueue, this`requests, this`books
      ensures failedQueue == []
      ensures requests == Release(old(requests), old(failedQueue), to)
      ensures books == old(books).(settlements :=
                old(books).settlements + Settlements(old(failedQueue), |old(books).results|, outcome))
    {
      var episode := |books.results|;
      for i := 0 to |failedQueue|
        invariant failedQueue == old(failedQueue)
        invariant requests == Release(old(requests), failedQueue[..i], to)
        invariant books == old(books).(settlements :=
                    old(books).settlements + Settlements(failedQueue[..i], episode, outcome))
      {
        var q := failedQueue[i];
        assert q in failedQueue && failedQueue[..i + 1] == failedQueue[..i] + [q];
        requests := requests[q := to];
        books := books.(settlements := books.settlements + [Settlement(Parking(q, episode), outcome)]);
        assert Settlements(failedQueue[..i + 1], episode, outcome)
            == Settlements(failedQueue[..i], episode, outcome) + [Settlement(Parking(q, episode), outcome)];
      }
      assert failedQueue[..|failedQueue|] == failedQueue;
      failedQueue := [];
    }

    /** The queue is settled, and the leader is replayed or rejected. */
    method Settle(r: nat, outcome: Outcome, to: Phase)
      requires r < |requests| && forall q :: q in failedQueue ==> q < |requests|
      modifies this`failedQueue, this`requests, this`books
      ensures failedQueue == []
      ensures requests == Release(old(requests), old(failedQueue), to)[r := to]
      ensures books == CloseEpisode(old(books), old(failedQueue), outcome)
    {
      var parked := |failedQueue|;
      ProcessQueue(outcome, to);
      requests := requests[r := to];
      books := books.(results := books.results + [outcome],
                      replays := books.replays + if outcome.Fresh? then parked + 1 else 0);
    }

    method Close(r: nat, outcome: Outcome)
      requires r < |requests| && forall q :: q in failedQueue ==> q < |requests|
      modifies this`isRefreshing, this`failedQueue, this`leaders, this`requests, this`books, this`page
      ensures View() == Resumed(old(View()), r, outcome)
    {
      Settle(r, outcome, if outcome.Fresh? then InFlight else Settled);
      if outcome.SignsOut() {
        page := Page(None, true);
      }
      leaders, isRefreshing := leaders - {r}, false;
    }

    /** The leader after its await: settle the queue, sign out if refused, clear isRefreshing. */
    method ResumeLeader(r: nat)
      requires Enabled(View(), Resume(r))
      requires forall q :: q in failedQueue ==> q < |requests|
      modifies this`isRefreshing, this`failedQueue, this`leaders, this`requests, this`books, this`page
      ensures View() == Step(old(View()), Resume(r))
    {
      var wait := leaders[r];
      Close(r, if wait.OnRejection? then Failed(wait.error) else promises[wait.ticket]);
    }
  }

  // ---------------------------------------------------------------- the refresh request

  /** Starts and answers alternate, and a failure holds back the next start. */
  predicate Alternates(log: seq<RefreshEvent>, clock: int, busy: bool) {
    && (|log| % 2 == 1 <==> busy)
    && (forall i :: 0 <= i < |log| ==> (log[i].Started? <==> i % 2 == 0))
    && (forall i :: 0 <= i < |log| ==> log[i].at <= clock)
    && (forall i, j :: 0 <= i <= j < |log| ==> log[i].at <= log[j].at)
    && (forall i, j :: 0 <= i < j < |log| && log[i].Broke? && log[j].Started? ==>
          log[j].at >= log[i].at + REFRESH_RETRY_COOLDOWN_MS)
  }

  /** The time of the latest answer, if that answer was a failure. */
  function LastBreak(log: seq<RefreshEvent>): Option<int> {
    var last := if |log| % 2 == 0 then |log| - 1 else |log| - 2;
    if last >= 0 && log[last].Broke? then Some(log[last].at) else None
  }

  /** refreshPromise stands for the one refresh request that is on the wire or just answered. */
  predicate SingleFlight(f: Flight) {
    && (f.refreshPromise.None? ==> f.posts == {} && f.answers == map[])
    && (f.refreshPromise.Some? ==>
          || (f.posts == {f.refreshPromise.value} && f.answers == map[])
          || (f.posts == {} && f.answers.Keys == {f.refreshPromise.value}))
    && Alternates(f.log, f.clock, f.posts != {})
    && LastBreak(f.log) == (if f.lastRefreshFailure.None? then None else Some(f.lastRefreshFailure.value.at))
  }

  lemma AppendStart(log: seq<RefreshEvent>, clock: int, now: int)
    requires Alternates(log, clock, false) && clock <= now
    requires LastBreak(log).Some? ==> now - LastBreak(log).value >= REFRESH_RETRY_COOLDOWN_MS
    ensures Alternates(log + [Started(now)], now, true)
    ensures LastBreak(log + [Started(now)]) == LastBreak(log)
  {
    forall i | 0 <= i < |log| && log[i].Broke? ensures now >= log[i].at + REFRESH_RETRY_COOLDOWN_MS {
      if i + 1 < |log| { assert log[i + 1].Started?; }
    }
  }

  lemma AppendAnswer(log: seq<RefreshEvent>, clock: int, e: RefreshEvent)
    requires Alternates(log, clock, true) && clock <= e.at && !e.Started?
    ensures Alternates(log + [e], e.at, false)
    ensures LastBreak(log + [e]) == if e.Broke? then Some(e.at) else None
  {}

  /** A caller joins the refresh under way, is refused while a failure is fresh, and starts one otherwise. */
  lemma CallRefreshKeeps(f: Flight, now: int)
    requires SingleFlight(f) && f.clock <= now
    ensures var (f', w) := CallRefresh(f, now);
            && SingleFlight(f') && f.Tickets() <= f'.Tickets()
            && (w.OnTicket? ==> f'.refreshPromise == Some(w.ticket) && w.ticket in f'.posts + f'.answers.Keys)
            && (w.OnRejection? <==>
                  && f.posts == {} && f.answers == map[] && LastBreak(f.log).Some?
                  && now - LastBreak(f.log).value < REFRESH_RETRY_COOLDOWN_MS)
  {
    if CallRefresh(f, now).0.log != f.log { AppendStart(f.log, f.clock, now); }
  }

  lemma WaitingKeeps(f: Flight, now: int)
    requires SingleFlight(f) && f.clock <= now
    ensures SingleFlight(f.(clock := now)) && f.(clock := now).Tickets() == f.Tickets()
  {}

  lemma AnswerKeeps(f: Flight, t: nat, outcome: Outcome, now: int)
    requires SingleFlight(f) && t in f.posts && f.clock <= now
    ensures SingleFlight(Answer(f, t, outcome, now)) && f.Tickets() <= Answer(f, t, outcome, now).Tickets()
  {
    AppendAnswer(f.log, f.clock, if outcome.Fresh? then Succeeded(now) else Broke(now));
  }

  lemma FinallyKeeps(f: Flight, t: nat)
    requires SingleFlight(f) && t in f.answers
    ensures SingleFlight(Finally(f, t)) && f.Tickets() <= Finally(f, t).Tickets()
  {}

  // ---------------------------------------------------------------- leader and queue

  /** isRefreshing means exactly one suspended leader, marked, whose promise is settled or on its way. */
  ghost predicate OneLeader(
    isRefreshing: bool, leaders: map<nat, Wait>, requests: seq<Phase>, retried: set<nat>, tickets: set<nat>)
  {
    && (isRefreshing ==> exists r :: leaders.Keys == {r})
    && (!isRefreshing ==> leaders == map[])
    && (forall r: nat :: r in leaders <==> InPhase(requests, r, Leading))
    && (forall r :: r in leaders ==> r in retried)
    && (forall r :: r in leaders && leaders[r].OnTicket? ==> leaders[r].ticket in tickets)
  }

  /** failedQueue lists the parked requests, each once, none of them marked. */
  predicate QueueIsParked(queue: seq<nat>, requests: seq<Phase>, retried: set<nat>) {
    && (forall i, j :: 0 <= i < j < |queue| ==> queue[i] != queue[j])
    && (forall r :: r in queue ==> InPhase(requests, r, Parked) && r !in retried)
    && (forall r :: 0 <= r < |requests| && requests[r] == Parked ==> r in queue)
  }

  /** Parked requests are settled in order, each once, with the outcome of the episode they were parked in. */
  predicate SettledInOrder(b: Books, queue: seq<nat>) {
    && |b.parkings| == |b.settlements| + |queue|
    && (forall i :: 0 <= i < |b.settlements| ==>
          && b.settlements[i].parking == b.parkings[i]
          && b.parkings[i].episode < |b.results|
          && b.settlements[i].outcome == b.results[b.parkings[i].episode])
    && (forall i :: 0 <= i < |queue| ==> b.parkings[|b.settlements| + i] == Parking(queue[i], |b.results|))
  }

  /** 1 + 2 + ... + u. */
  function Triangle(u: int): nat {
    if u <= 0 then 0 else u + Triangle(u - 1)
  }

  function FreshResults(results: seq<Outcome>): nat {
    if results == [] then 0
    else FreshResults(results[..|results| - 1]) + if results[|results| - 1].Fresh? then 1 else 0
  }

  function FreshSettlements(settlements: seq<Settlement>): nat {
    if settlements == [] then 0
    else
      var last := settlements[|settlements| - 1];
      FreshSettlements(settlements[..|settlements| - 1]) + if last.outcome.Fresh? then 1 else 0
  }

  /** A replay is a request settled with a token, or a leader that got one. */
  predicate ReplaysCounted(b: Books) {
    b.replays == FreshSettlements(b.settlements) + FreshResults(b.results)
  }

  /** One mark per episode, and a budget of replays that each episode draws from. */
  predicate Counted(n: nat, retried: set<nat>, isRefreshing: bool, b: Books) {
    var open := if isRefreshing then 1 else 0;
    var u := n - |retried| + open;
    && (forall r :: r in retried ==> r < n)
    && |retried| == |b.results| + open
    && b.replays + Triangle(u) <= Triangle(n)
  }

  ghost predicate Inv(s: Api) {
    && SingleFlight(s.flight)
    && OneLeader(s.isRefreshing, s.leaders, s.requests, s.retried, s.flight.Tickets())
    && (!s.isRefreshing ==> s.failedQueue == [])
    && QueueIsParked(s.failedQueue, s.requests, s.retried)
    && SettledInOrder(s.books, s.failedQueue)
    && Counted(|s.requests|, s.retried, s.isRefreshing, s.books)
    && ReplaysCounted(s.books)
  }

  lemma {:induction false} DistinctInRange(queue: seq<nat>, marked: set<nat>, n: nat)
    requires forall i, j :: 0 <= i < j < |queue| ==> queue[i] != queue[j]
    requires forall r :: r in queue ==> r < n && r !in marked
    requires forall r :: r in marked ==> r < n
    ensures |queue| + |marked| <= n
    decreases |queue|
  {
    if queue == [] {
      InRange(marked, n);
    } else {
      var rest := queue[1..];
      assert forall r :: r in rest ==> r in queue && r != queue[0];
      DistinctInRange(rest, marked + {queue[0]}, n);
    }
  }

  lemma {:induction false} InRange(ids: set<nat>, n: nat)
    requires forall r :: r in ids ==> r < n
    ensures |ids| <= n
  {
    if n == 0 {
      assert ids == {};
    } else {
      InRange(ids - {n - 1}, n - 1);
    }
  }

  lemma CloseEpisodeKeeps(b: Books, queue: seq<nat>, outcome: Outcome)
    requires SettledInOrder(b, queue)
    ensures SettledInOrder(CloseEpisode(b, queue, outcome), [])
  {
    var c, k := CloseEpisode(b, queue, outcome), |b.settlements|;
    assert c.results[|b.results|] == outcome;
    forall i | 0 <= i < |c.settlements|
      ensures && c.settlements[i].parking == b.parkings[i]
              && b.parkings[i].episode < |c.results|
              && c.settlements[i].outcome == c.results[b.parkings[i].episode]
    {
      if i < k {
        assert c.settlements[i] == b.settlements[i];
      } else {
        assert c.settlements[i] == Settlements(queue, |b.results|, outcome)[i - k];
        assert b.parkings[k + (i - k)] == Parking(queue[i - k], |b.results|);
      }
    }
  }

  lemma {:induction false} SettleCounts(settlements: seq<Settlement>, queue: seq<nat>, episode: nat, outcome: Outcome)
    ensures FreshSettlements(settlements + Settlements(queue, episode, outcome))
         == FreshSettlements(settlements) + if outcome.Fresh? then |queue| else 0
  {
    var added := Settlements(queue, episode, outcome);
    if queue == [] {
      assert settlements + added == settlements;
    } else {
      var init := queue[..|queue| - 1];
      SettleCounts(settlements, init, episode, outcome);
      assert (settlements + added)[..|settlements + added| - 1] == settlements + Settlements(init, episode, outcome);
    }
  }

  lemma CloseCounts(b: Books, queue: seq<nat>, outcome: Outcome)
    requires ReplaysCounted(b)
    ensures ReplaysCounted(CloseEpisode(b, queue, outcome))
  {
    SettleCounts(b.settlements, queue, |b.results|, outcome);
    assert (b.results + [outcome])[..|b.results|] == b.results;
  }

  lemma ParkKeepsBooks(b: Books, queue: seq<nat>, r: nat)
    requires SettledInOrder(b, queue)
    ensures SettledInOrder(b.(parkings := b.parkings + [Parking(r, |b.results|)]), queue + [r])
  {}

  lemma ResumeCounts(n: nat, retried: set<nat>, b: Books, queue: seq<nat>, outcome: Outcome)
    requires Counted(n, retried, true, b) && |queue| + |retried| <= n
    ensures Counted(n, retried, false, CloseEpisode(b, queue, outcome))
  {
    assert Triangle(n - |retried| + 1) == n - |retried| + 1 + Triangle(n - |retried|);
  }

  lemma LeadCounts(n: nat, retried: set<nat>, b: Books, r: nat)
    requires Counted(n, retried, false, b) && r < n && r !in retried
    ensures Counted(n, retried + {r}, true, b)
  {}

  /** A request that is not leading changes phase without touching the leader. */
  lemma OthersKeepLeader(
      isRefreshing: bool, leaders: map<nat, Wait>, requests: seq<Phase>, retried: set<nat>, tickets: set<nat>,
      r: nat, p: Phase)
    requires OneLeader(isRefreshing, leaders, requests, retried, tickets)
    requires r < |requests| && requests[r] != Leading && p != Leading
    ensures OneLeader(isRefreshing, leaders, requests[r := p], retried, tickets)
  {
    forall q: nat ensures InPhase(requests[r := p], q, Leading) <==> InPhase(requests, q, Leading) {}
  }

  lemma LeadKeepsLeader(
      requests: seq<Phase>, retried: set<nat>, tickets: set<nat>, tickets': set<nat>, r: nat, w: Wait)
    requires OneLeader(false, map[], requests, retried, tickets) && r < |requests|
    requires w.OnTicket? ==> w.ticket in tickets'
    ensures OneLeader(true, map[r := w], requests[r := Leading], retried + {r}, tickets')
  {
    var leaders: map<nat, Wait> := map[];
    assert map[r := w].Keys == {r};
    forall q: nat ensures q in map[r := w] <==> InPhase(requests[r := Leading], q, Leading) {
      assert q in leaders <==> InPhase(requests, q, Leading);
    }
  }

  lemma ResumeKeepsLeader(
      leaders: map<nat, Wait>, requests: seq<Phase>, retried: set<nat>, tickets: set<nat>,
      r: nat, queue: seq<nat>, to: Phase)
    requires OneLeader(true, leaders, requests, retried, tickets)
    requires r in leaders && r < |requests| && to != Leading
    ensures OneLeader(false, leaders - {r}, Release(requests, queue, to)[r := to], retried, tickets)
  {
    assert leaders.Keys == {r} && leaders - {r} == map[];
    var after := Release(requests, queue, to)[r := to];
    forall q: nat ensures q !in leaders - {r} && !InPhase(after, q, Leading) {
      assert q in leaders <==> InPhase(requests, q, Leading);
    }
  }

  lemma ResumeKeepsQueue(queue: seq<nat>, requests: seq<Phase>, retried: set<nat>, r: nat, to: Phase)
    requires QueueIsParked(queue, requests, retried) && r < |requests| && to != Parked
    ensures QueueIsParked([], Release(requests, queue, to)[r := to], retried)
  {}

  lemma ResumeKeepsBooks(n: nat, retried: set<nat>, b: Books, queue: seq<nat>, outcome: Outcome)
    requires SettledInOrder(b, queue) && ReplaysCounted(b) && Counted(n, retried, true, b)
    requires |queue| + |retried| <= n
    ensures SettledInOrder(CloseEpisode(b, queue, outcome), [])
    ensures ReplaysCounted(CloseEpisode(b, queue, outcome))
    ensures Counted(n, retried, false, CloseEpisode(b, queue, outcome))
  {
    CloseEpisodeKeeps(b, queue, outcome);
    CloseCounts(b, queue, outcome);
    ResumeCounts(n, retried, b, queue, outcome);
  }

  /** Each part of the state after the leader went on. */
  lemma ResumeParts(s: Api, r: nat)
    requires Inv(s) && Enabled(s, Resume(r))
    ensures var s' := Step(s, Resume(r));
            && !s'.isRefreshing && s'.failedQueue == [] && s'.flight == s.flight && s'.retried == s.retried
            && |s'.requests| == |s.requests|
            && OneLeader(false, s'.leaders, s'.requests, s'.retried, s'.flight.Tickets())
            && QueueIsParked([], s'.requests, s'.retried)
  {
    var to := if OutcomeOf(s.flight, s.leaders[r]).Fresh? then InFlight else Settled;
    ResumeKeepsQueue(s.failedQueue, s.requests, s.retried, r, to);
    ResumeKeepsLeader(s.leaders, s.requests, s.retried, s.flight.Tickets(), r, s.failedQueue, to);
  }

  lemma ResumeKeeps(s: Api, r: nat)
    requires Inv(s) && Enabled(s, Resume(r))
    ensures Inv(Step(s, Resume(r)))
  {
    DistinctInRange(s.failedQueue, s.retried, |s.requests|);
    ResumeParts(s, r);
    ResumeKeepsBooks(|s.requests|, s.retried, s.books, s.failedQueue, OutcomeOf(s.flight, s.leaders[r]));
  }

  lemma LeadKeepsQueue(requests: seq<Phase>, retried: set<nat>, r: nat)
    requires QueueIsParked([], requests, retried) && InPhase(requests, r, InFlight)
    ensures QueueIsParked([], requests[r := Leading], retried + {r})
  {}

  lemma ParkKeepsQueue(queue: seq<nat>, requests: seq<Phase>, retried: set<nat>, r: nat)
    requires QueueIsParked(queue, requests, retried) && InPhase(requests, r, InFlight) && r !in retried
    ensures QueueIsParked(queue + [r], requests[r := Parked], retried)
  {
    assert r !in queue;
    assert forall q :: q in queue + [r] <==> q in queue || q == r;
  }

  lemma LeadKeeps(s: Api, r: nat, now: int)
    requires Inv(s) && Enabled(s, Unauthorized(r, now)) && r !in s.retried && !s.isRefreshing
    ensures Inv(Step(s, Unauthorized(r, now)))
  {
    var (flight, wait) := CallRefresh(s.flight, now);
    CallRefreshKeeps(s.flight, now);
    LeadCounts(|s.requests|, s.retried, s.books, r);
    LeadKeepsQueue(s.requests, s.retried, r);
    LeadKeepsLeader(s.requests, s.retried, s.flight.Tickets(), flight.Tickets(), r, wait);
  }

  lemma ParkKeeps(s: Api, r: nat, now: int)
    requires Inv(s) && Enabled(s, Unauthorized(r, now)) && r !in s.retried && s.isRefreshing
    ensures Inv(Step(s, Unauthorized(r, now)))
  {
    WaitingKeeps(s.flight, now);
    ParkKeepsQueue(s.failedQueue, s.requests, s.retried, r);
    ParkKeepsBooks(s.books, s.failedQueue, r);
    OthersKeepLeader(s.isRefreshing, s.leaders, s.requests, s.retried, s.flight.Tickets(), r, Parked);
  }

  lemma MoveKeeps(s: Api, r: nat, p: Phase, now: int)
    requires Inv(s) && r < |s.requests| && (s.requests[r] == Idle || s.requests[r] == InFlight)
    requires (p == InFlight || p == Settled) && s.flight.clock <= now
    ensures Inv(s.(requests := s.requests[r := p], flight := s.flight.(clock := now)))
    ensures Inv(s.(requests := s.requests[r := p]))
  {
    WaitingKeeps(s.flight, now);
    OthersKeepLeader(s.isRefreshing, s.leaders, s.requests, s.retried, s.flight.Tickets(), r, p);
  }

  lemma FlightKeeps(s: Api, f: Flight)
    requires Inv(s) && SingleFlight(f) && s.flight.Tickets() <= f.Tickets()
    ensures Inv(s.(flight := f))
  {}

  lemma RefreshTrafficKeeps(s: Api, e: Event)
    requires Inv(s) && Enabled(s, e) && (e.Proactive? || e.RefreshAnswer? || e.RefreshFinally?)
    ensures Inv(Step(s, e)) && |Step(s, e).requests| == |s.requests|
  {
    match e {
      case Proactive(now) => CallRefreshKeeps(s.flight, now);
      case RefreshAnswer(t, outcome, now) => AnswerKeeps(s.flight, t, outcome, now);
      case RefreshFinally(t) => FinallyKeeps(s.flight, t);
    }
    FlightKeeps(s, Step(s, e).flight);
  }

  lemma RequestTrafficKeeps(s: Api, e: Event)
    requires Inv(s) && Enabled(s, e) && (e.Issue? || e.Answered?)
    ensures Inv(Step(s, e)) && |Step(s, e).requests| == |s.requests|
  {
    MoveKeeps(s, e.request, if e.Issue? then InFlight else Settled, s.flight.clock);
  }

  lemma UnauthorizedKeeps(s: Api, e: Event)
    requires Inv(s) && Enabled(s, e) && e.Unauthorized?
    ensures Inv(Step(s, e)) && |Step(s, e).requests| == |s.requests|
  {
    if e.request in s.retried {
      MoveKeeps(s, e.request, Settled, e.now);
    } else if s.isRefreshing {
      ParkKeeps(s, e.request, e.now);
    } else {
      LeadKeeps(s, e.request, e.now);
    }
  }

  lemma ResumptionKeeps(s: Api, e: Event)
    requires Inv(s) && Enabled(s, e) && e.Resume?
    ensures Inv(Step(s, e)) && |Step(s, e).requests| == |s.requests|
  {
    ResumeKeeps(s, e.request);
  }

  lemma StepKeeps(s: Api, e: Event)
    requires Inv(s) && Enabled(s, e)
    ensures Inv(Step(s, e)) && |Step(s, e).requests| == |s.requests|
  {
    if e.Issue? || e.Answered? {
      RequestTrafficKeeps(s, e);
    } else if e.Unauthorized? {
      UnauthorizedKeeps(s, e);
    } else if e.Resume? {
      ResumptionKeeps(s, e);
    } else {
      RefreshTrafficKeeps(s, e);
    }
  }

  /** Every interleaving of steps keeps all of the invariants. */
  lemma {:induction false} EveryRunKeeps(n: nat, start: int, run: seq<Event>)
    requires Exec(n, start, run).Some?
    ensures Inv(Exec(n, start, run).value) && |Exec(n, start, run).value.requests| == n
  {
    if run != [] {
      EveryRunKeeps(n, start, run[..|run| - 1]);
      StepKeeps(Exec(n, start, run[..|run| - 1]).value, run[|run| - 1]);
    }
  }

  /** What the invariants say of any run: one refresh on the wire, no orphans, settled once, five seconds of rest. */
  lemma RefreshProtocol(n: nat, start: int, run: seq<Event>)
    requires Exec(n, start, run).Some?
    ensures var s := Exec(n, start, run).value;
            var log, b := s.flight.log, s.books;
            && |s.flight.posts| <= 1
            && (!s.isRefreshing ==> s.failedQueue == [])
            && |b.parkings| == |b.settlements| + |s.failedQueue|
            && (forall i :: 0 <= i < |b.settlements| ==>
                  && b.settlements[i].parking == b.parkings[i]
                  && b.parkings[i].episode < |b.results|
                  && b.settlements[i].outcome == b.results[b.parkings[i].episode])
            && b.replays == FreshSettlements(b.settlements) + FreshResults(b.results)
            && (forall i, j :: 0 <= i < j < |log| && log[i].Broke? && log[j].Started? ==>
                  log[j].at >= log[i].at + REFRESH_RETRY_COOLDOWN_MS)
  {
    EveryRunKeeps(n, start, run);
  }

  /** Some episode ended in a refresh that the server refused. */
  predicate SomeRefused(results: seq<Outcome>) {
    exists i :: 0 <= i < |results| && results[i].SignsOut()
  }

  lemma StepSignsOut(s: Api, e: Event)
    requires Enabled(s, e) && (s.page.atLogin <==> SomeRefused(s.books.results))
    ensures Step(s, e).page.atLogin <==> SomeRefused(Step(s, e).books.results)
  {
    if e.Resume? {
      OneMoreResult(s.books.results, OutcomeOf(s.flight, s.leaders[e.request]));
    }
  }

  lemma OneMoreResult(results: seq<Outcome>, outcome: Outcome)
    ensures SomeRefused(results + [outcome]) <==> SomeRefused(results) || outcome.SignsOut()
  {
    var all := results + [outcome];
    assert forall i :: 0 <= i < |results| ==> all[i] == results[i];
    assert all[|results|] == outcome;
  }

  /** On every run the user is sent to the login page iff some episode ended in a refused refresh. */
  lemma {:induction false} SignedOutIff(n: nat, start: int, run: seq<Event>)
    requires Exec(n, start, run).Some?
    ensures var s := Exec(n, start, run).value;
            s.page.atLogin <==> SomeRefused(s.books.results)
  {
    if run != [] {
      SignedOutIff(n, start, run[..|run| - 1]);
      StepSignsOut(Exec(n, start, run[..|run| - 1]).value, run[|run| - 1]);
    }
  }

  /** The steps still missing before promise t is settled: its answer and its finally, or only the latter. */
  function Delivered(s: Api, t: nat, outcome: Outcome, now: int): (d: Api)
    requires t in s.flight.Tickets() && s.flight.clock <= now
    ensures t in d.flight.promises && d == s.(flight := d.flight, page := d.page)
  {
    if t in s.flight.promises then s
    else if t in s.flight.answers then Step(s, RefreshFinally(t))
    else Step(Step(s, RefreshAnswer(t, outcome, now)), RefreshFinally(t))
  }

  /** No parked request is stranded: the steps that end the episode are possible from every reachable state. */
  lemma EpisodeCanEnd(s: Api, outcome: Outcome, now: int) returns (r: nat, d: Api)
    requires Inv(s) && s.isRefreshing && s.flight.clock <= now
    ensures r in s.leaders && (s.leaders[r].OnTicket? ==> s.leaders[r].ticket in s.flight.Tickets())
    ensures d == if s.leaders[r].OnTicket? then Delivered(s, s.leaders[r].ticket, outcome, now) else s
    ensures Enabled(d, Resume(r))
    ensures !Step(d, Resume(r)).isRefreshing && Step(d, Resume(r)).failedQueue == []
    ensures forall q :: q in s.failedQueue && q != r ==>
              Step(d, Resume(r)).requests[q] == if OutcomeOf(d.flight, s.leaders[r]).Fresh? then InFlight else Settled
  {
    r :| s.leaders.Keys == {r};
    assert r in s.leaders && InPhase(s.requests, r, Leading);
    d := if s.leaders[r].OnTicket? then Delivered(s, s.leaders[r].ticket, outcome, now) else s;
    assert forall q :: q in s.failedQueue ==> InPhase(s.requests, q, Parked);
  }

  // ---------------------------------------------------------------- termination

  function Weight(p: Phase): nat {
    match p case Idle => 2 case InFlight => 1 case Parked => 0 case Leading => 0 case Settled => 0
  }

  function TotalWeight(requests: seq<Phase>): nat {
    if requests == [] then 0 else TotalWeight(requests[..|requests| - 1]) + Weight(requests[|requests| - 1])
  }

  /**
   * What the retry protocol can still do; refresh traffic does not touch it. With u requests not
   * marked yet, u more episodes of at most u, u - 1, ... 1 of them, and an episode that is open.
   */
  function Potential(s: Api): int {
    var u := |s.requests| - |s.retried|;
    TotalWeight(s.requests) + Triangle(u) + u + if s.isRefreshing then u + 2 else 0
  }

  /** The steps of the requests themselves, as opposed to those of the refresh request. */
  predicate IsRequestStep(e: Event) {
    e.Issue? || e.Answered? || e.Unauthorized? || e.Resume?
  }

  function RequestSteps(run: seq<Event>): nat {
    if run == [] then 0
    else RequestSteps(run[..|run| - 1]) + if IsRequestStep(run[|run| - 1]) then 1 else 0
  }

  lemma {:induction false} WeightUpdate(requests: seq<Phase>, r: nat, p: Phase)
    requires r < |requests|
    ensures TotalWeight(requests[r := p]) == TotalWeight(requests) - Weight(requests[r]) + Weight(p)
  {
    var last := |requests| - 1;
    if r < last {
      WeightUpdate(requests[..last], r, p);
      assert requests[r := p][..last] == requests[..last][r := p];
    } else {
      assert requests[r := p][..last] == requests[..last];
    }
  }

  /** Releasing parked requests raises the weight by at most one each. */
  lemma {:induction false} ReleaseWeight(requests: seq<Phase>, queue: seq<nat>, to: Phase)
    requires (forall q :: q in queue ==> q < |requests|) && Weight(to) <= 1
    ensures TotalWeight(Release(requests, queue, to)) <= TotalWeight(requests) + |queue|
  {
    if queue == [] {
      assert Release(requests, queue, to) == requests;
    } else {
      var init, last := queue[..|queue| - 1], queue[|queue| - 1];
      assert queue == init + [last];
      assert last in queue && forall q :: q in init ==> q in queue;
      ReleaseWeight(requests, init, to);
      WeightUpdate(Release(requests, init, to), last, to);
      assert Release(requests, queue, to) == Release(requests, init, to)[last := to];
    }
  }

  /** The part of the invariant that the measure depends on. */
  predicate Measurable(s: Api) {
    && (forall r :: r in s.retried ==> r < |s.requests|)
    && (forall r :: r in s.leaders ==> s.isRefreshing && InPhase(s.requests, r, Leading))
    && (forall r :: r in s.failedQueue ==> InPhase(s.requests, r, Parked))
    && |s.failedQueue| + |s.retried| <= |s.requests|
  }

  lemma InvMeasurable(s: Api)
    requires Inv(s)
    ensures Measurable(s)
  {
    DistinctInRange(s.failedQueue, s.retried, |s.requests|);
  }

  lemma LeadSpends(s: Api, r: nat, now: int)
    requires Measurable(s) && Enabled(s, Unauthorized(r, now)) && r !in s.retried && !s.isRefreshing
    ensures Potential(Step(s, Unauthorized(r, now))) < Potential(s)
  {
    WeightUpdate(s.requests, r, Leading);
    assert |s.retried + {r}| == |s.retried| + 1;
    InRange(s.retried + {r}, |s.requests|);
  }

  lemma EpisodeWeight(requests: seq<Phase>, queue: seq<nat>, r: nat, to: Phase)
    requires (forall q :: q in queue ==> q < |requests|) && r < |requests| && Weight(to) <= 1
    ensures TotalWeight(Release(requests, queue, to)[r := to]) <= TotalWeight(requests) + |queue| + 1
  {
    ReleaseWeight(requests, queue, to);
    WeightUpdate(Release(requests, queue, to), r, to);
  }

  lemma ResumeSpends(s: Api, r: nat)
    requires Measurable(s) && Enabled(s, Resume(r))
    ensures Potential(Step(s, Resume(r))) < Potential(s)
  {
    var to := if OutcomeOf(s.flight, s.leaders[r]).Fresh? then InFlight else Settled;
    assert forall q :: q in s.failedQueue ==> q < |s.requests|;
    EpisodeWeight(s.requests, s.failedQueue, r, to);
  }

  lemma StepSpends(s: Api, e: Event)
    requires Measurable(s) && Enabled(s, e)
    ensures Potential(Step(s, e)) <= Potential(s) - if IsRequestStep(e) then 1 else 0
  {
    match e
    case Issue(r) => WeightUpdate(s.requests, r, InFlight);
    case Answered(r) => WeightUpdate(s.requests, r, Settled);
    case Unauthorized(r, now) =>
      if r in s.retried {
        WeightUpdate(s.requests, r, Settled);
      } else if s.isRefreshing {
        WeightUpdate(s.requests, r, Parked);
      } else {
        LeadSpends(s, r, now);
      }
    case Resume(r) => ResumeSpends(s, r);
    case _ =>
  }

  lemma {:induction false} IdleWeight(requests: seq<Phase>)
    requires forall i :: 0 <= i < |requests| ==> requests[i] == Idle
    ensures TotalWeight(requests) == 2 * |requests|
  {
    if requests != [] { IdleWeight(requests[..|requests| - 1]); }
  }

  lemma {:induction false} RunSpends(n: nat, start: int, run: seq<Event>)
    requires Exec(n, start, run).Some?
    ensures Potential(Exec(n, start, run).value) + RequestSteps(run) <= 3 * n + Triangle(n)
  {
    if run == [] {
      IdleWeight(Init(n, start).requests);
    } else {
      var init := run[..|run| - 1];
      RunSpends(n, start, init);
      EveryRunKeeps(n, start, init);
      InvMeasurable(Exec(n, start, init).value);
      StepSpends(Exec(n, start, init).value, run[|run| - 1]);
    }
  }

  lemma {:induction false} TriangleFormula(u: nat)
    ensures 2 * Triangle(u) == u * (u + 1)
  {
    if u > 0 { TriangleFormula(u - 1); }
  }

  /**
   * Retries end even if every answer is a 401: n requests take at most n(n + 7)/2 steps, n refresh
   * episodes and n(n + 1)/2 replays, on every run.
   */
  lemma RetriesEnd(n: nat, start: int, run: seq<Event>)
    requires Exec(n, start, run).Some?
    ensures 2 * RequestSteps(run) <= n * (n + 7)
    ensures |Exec(n, start, run).value.books.results| <= n
    ensures 2 * Exec(n, start, run).value.books.replays <= n * (n + 1)
  {
    RunSpends(n, start, run);
    EveryRunKeeps(n, start, run);
    TriangleFormula(n);
    InRange(Exec(n, start, run).value.retried, n);
  }

  // ---------------------------------------------------------------- the bounds are attained

  /** Some run of n requests that takes `steps` request steps ends in s. */
  ghost predicate Reaches(n: nat, start: int, s: Api, steps: nat) {
    exists run :: Exec(n, start, run) == Some(s) && RequestSteps(run) == steps
  }

  lemma ReachStep(n: nat, start: int, s: Api, steps: nat, e: Event)
    requires Reaches(n, start, s, steps) && Enabled(s, e)
    ensures Reaches(n, start, Step(s, e), steps + if IsRequestStep(e) then 1 else 0)
  {
    var run :| Exec(n, start, run) == Some(s) && RequestSteps(run) == steps;
    assert (run + [e])[..|run|] == run;
    assert Exec(n, start, run + [e]) == Some(Step(s, e));
  }

  /** After k episodes: everything is back in flight, and the first k requests have led. */
  ghost predicate AtStage(s: Api, n: nat, k: nat) {
    && !s.isRefreshing && s.failedQueue == [] && s.leaders == map[]
    && s.flight.refreshPromise == None && s.flight.lastRefreshFailure == None
    && s.requests == seq(n, i => InFlight)
    && (forall r: nat :: r in s.retried <==> r < k)
    && |s.books.results| == k
    && s.books.replays + Triangle(n - k) == Triangle(n)
  }

  lemma {:induction false} AllIssued(n: nat, start: int, k: nat) returns (s: Api)
    requires k <= n
    ensures Reaches(n, start, s, k)
    ensures s == Init(n, start).(requests := seq(n, i => if i < k then InFlight else Idle))
  {
    if k == 0 {
      s := Init(n, start);
      assert Exec(n, start, []) == Some(s) && RequestSteps([]) == 0;
    } else {
      var before := AllIssued(n, start, k - 1);
      ReachStep(n, start, before, k - 1, Issue(k - 1));
      s := Step(before, Issue(k - 1));
    }
  }

  /** Request k leads the episode with ticket t, and the requests between k and j are parked behind it. */
  ghost predicate Gathering(s: Api, n: nat, k: nat, j: nat, t: nat)
    requires k < j <= n
  {
    && s.isRefreshing && s.leaders == map[k := OnTicket(t)] && t in s.flight.posts
    && s.failedQueue == seq(j - k - 1, i => k + 1 + i)
    && s.requests == seq(n, i => if i == k then Leading else if k < i < j then Parked else InFlight)
    && (forall r: nat :: r in s.retried <==> r <= k)
    && |s.books.results| == k
    && s.books.replays + Triangle(n - k) == Triangle(n)
  }

  lemma {:induction false} Gather(n: nat, start: int, s: Api, steps: nat, k: nat, j: nat) returns (g: Api)
    requires Reaches(n, start, s, steps) && AtStage(s, n, k) && k < j <= n
    ensures Reaches(n, start, g, steps + j - k) && Gathering(g, n, k, j, s.flight.nextTicket)
  {
    if j == k + 1 {
      var e := Unauthorized(k, s.flight.clock);
      ReachStep(n, start, s, steps, e);
      g := Step(s, e);
    } else {
      var before := Gather(n, start, s, steps, k, j - 1);
      var e := Unauthorized(j - 1, before.flight.clock);
      ReachStep(n, start, before, steps + j - 1 - k, e);
      g := Step(before, e);
    }
  }

  /** The refresh succeeds, and everyone is replayed. */
  lemma CloseStage(n: nat, start: int, g: Api, steps: nat, k: nat, t: nat) returns (s: Api)
    requires k < n && Reaches(n, start, g, steps) && Gathering(g, n, k, n, t)
    ensures Reaches(n, start, s, steps + 1) && AtStage(s, n, k + 1)
  {
    var answer := RefreshAnswer(t, Fresh(""), g.flight.clock);
    ReachStep(n, start, g, steps, answer);
    var answered := Step(g, answer);
    ReachStep(n, start, answered, steps, RefreshFinally(t));
    var settled := Step(answered, RefreshFinally(t));
    ReachStep(n, start, settled, steps, Resume(k));
    s := Step(settled, Resume(k));
    forall i | 0 <= i < n ensures s.requests[i] == InFlight {
      if k < i { assert g.failedQueue[i - k - 1] == i; }
    }
  }

  lemma NextStage(n: nat, start: int, s: Api, steps: nat, k: nat) returns (next: Api)
    requires k < n && Reaches(n, start, s, steps) && AtStage(s, n, k)
    ensures Reaches(n, start, next, steps + n - k + 1) && AtStage(next, n, k + 1)
  {
    var g := Gather(n, start, s, steps, k, n);
    next := CloseStage(n, start, g, steps + n - k, k, s.flight.nextTicket);
  }

  /** The steps of the first k stages: n issues, then one step for each request not marked yet, and a resume. */
  function StageSteps(n: nat, k: nat): nat
    requires k <= n
  {
    if k == 0 then n else StageSteps(n, k - 1) + n - (k - 1) + 1
  }

  lemma {:induction false} StageStepsFormula(n: nat, k: nat)
    requires k <= n
    ensures StageSteps(n, k) + Triangle(n - k) == n + k + Triangle(n)
  {
    if k > 0 { StageStepsFormula(n, k - 1); }
  }

  lemma {:induction false} StageReached(n: nat, start: int, k: nat) returns (s: Api)
    requires k <= n
    ensures Reaches(n, start, s, StageSteps(n, k)) && AtStage(s, n, k)
  {
    if k == 0 {
      s := AllIssued(n, start, n);
    } else {
      var before := StageReached(n, start, k - 1);
      s := NextStage(n, start, before, StageSteps(n, k - 1), k - 1);
    }
  }

  /** The replays of the last stage are answered. */
  lemma {:induction false} AllAnswered(n: nat, start: int, s: Api, steps: nat, k: nat) returns (d: Api)
    requires k <= n && Reaches(n, start, s, steps) && AtStage(s, n, n)
    ensures Reaches(n, start, d, steps + k) && d == s.(requests := seq(n, i => if i < k then Settled else InFlight))
  {
    if k == 0 {
      d := s;
    } else {
      var before := AllAnswered(n, start, s, steps, k - 1);
      ReachStep(n, start, before, steps + k - 1, Answered(k - 1));
      d := Step(before, Answered(k - 1));
    }
  }

  /** For every n one run takes n(n + 7)/2 steps, n episodes and n(n + 1)/2 replays: no bound can be lowered. */
  lemma RetryBoundsAttained(n: nat, start: int)
    ensures exists run :: && Exec(n, start, run).Some?
                          && 2 * RequestSteps(run) == n * (n + 7)
                          && |Exec(n, start, run).value.books.results| == n
                          && 2 * Exec(n, start, run).value.books.replays == n * (n + 1)
  {
    var s := StageReached(n, start, n);
    var d := AllAnswered(n, start, s, StageSteps(n, n), n);
    StageStepsFormula(n, n);
    TriangleFormula(n);
    var run :| Exec(n, start, run) == Some(d) && RequestSteps(run) == StageSteps(n, n) + n;
    assert 2 * RequestSteps(run) == n * (n + 1) + 6 * n;
  }
}
