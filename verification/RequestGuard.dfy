/** The client request interceptor: sliding-window limiter and double-submit guard. */
module RequestGuard {
  import opened Common

  const MAX_REQUESTS_PER_WINDOW := 15
  const WINDOW_SIZE_MS := 2000
  const MUTATION_COOLDOWN_MS := 1200

  /**
   * One passage of the interceptor. It reads the clock twice: once for itself, and again when it
   * cleans the map; `key` is the request key of a mutation.
   */
  datatype Attempt = Attempt(now: int, cleanedAt: int, key: Option<string>)

  datatype Verdict = Admitted | RateLimited | DoubleSubmit

  datatype Guard = Guard(requestTimestamps: seq<int>, pendingMutations: map<string, int>)

  // ---------------------------------------------------------------- the guard

  function Evicted(stamps: seq<int>, now: int): seq<int> {
    if stamps != [] && stamps[0] < now - WINDOW_SIZE_MS then Evicted(stamps[1..], now) else stamps
  }

  function Cleaned(pending: map<string, int>, now: int): map<string, int> {
    map k | k in pending && now - pending[k] <= MUTATION_COOLDOWN_MS * 2 :: pending[k]
  }

  predicate Blocks(pending: map<string, int>, now: int, k: string) {
    k in pending && pending[k] != 0 && now - pending[k] < MUTATION_COOLDOWN_MS
  }

  function Pass(g: Guard, a: Attempt): (Guard, Verdict) {
    var stamps := Evicted(g.requestTimestamps, a.now);
    if |stamps| >= MAX_REQUESTS_PER_WINDOW then (g.(requestTimestamps := stamps), RateLimited)
    else if a.key.None? then (g.(requestTimestamps := stamps + [a.now]), Admitted)
    else
      var k, pending := a.key.value, Cleaned(g.pendingMutations, a.cleanedAt);
      if Blocks(pending, a.now, k) then
        (Guard(stamps + [a.now], pending), DoubleSubmit)
      else
        (Guard(stamps + [a.now], pending[k := a.now]), Admitted)
  }

  class RequestInterceptor {
    var requestTimestamps: seq<int>
    var pendingMutations: map<string, int>

    function View(): Guard
      reads this
    {
      Guard(requestTimestamps, pendingMutations)
    }

    constructor ()
      ensures View() == Guard([], map[])
    {
      requestTimestamps, pendingMutations := [], map[];
    }

    method CleanOldMutations(now: int)
      modifies this`pendingMutations
      ensures pendingMutations == Cleaned(old(pendingMutations), now)
    {
      var entries := pendingMutations.Keys;
      while entries != {}
        invariant entries <= old(pendingMutations).Keys
        invariant pendingMutations == map k | k in old(pendingMutations)
                    && (k in entries || now - old(pendingMutations)[k] <= MUTATION_COOLDOWN_MS * 2)
                    :: old(pendingMutations)[k]
        decreases |entries|
      {
        var key :| key in entries;
        entries := entries - {key};
        if now - pendingMutations[key] > MUTATION_COOLDOWN_MS * 2 {
          pendingMutations := pendingMutations - {key};
        }
      }
    }

    method OnRequest(now: int, cleanedAt: int, key: Option<string>) returns (verdict: Verdict)
      modifies this
      ensures (View(), verdict) == Pass(old(View()), Attempt(now, cleanedAt, key))
    {
      while requestTimestamps != [] && requestTimestamps[0] < now - WINDOW_SIZE_MS
        invariant Evicted(requestTimestamps, now) == Evicted(old(requestTimestamps), now)
        invariant pendingMutations == old(pendingMutations)
        decreases |requestTimestamps|
      {
        requestTimestamps := requestTimestamps[1..];
      }
      if |requestTimestamps| >= MAX_REQUESTS_PER_WINDOW {
        return RateLimited;
      }
      requestTimestamps := requestTimestamps + [now];
      if key.Some? {
        CleanOldMutations(cleanedAt);
        var requestKey := key.value;
        if requestKey in pendingMutations && pendingMutations[requestKey] != 0
           && now - pendingMutations[requestKey] < MUTATION_COOLDOWN_MS {
          return DoubleSubmit;
        }
        pendingMutations := pendingMutations[requestKey := now];
      }
      return Admitted;
    }
  }

  // ---------------------------------------------------------------- a log that forgets nothing

  /** A request that passed the limiter; `key` is set when it was an accepted mutation. */
  datatype Entry = Entry(time: int, key: Option<string>)

  function CountSince(log: seq<Entry>, from: int): nat {
    if log == [] then 0
    else CountSince(log[..|log| - 1], from) + if log[|log| - 1].time >= from then 1 else 0
  }

  function LastAccepted(log: seq<Entry>, key: string): Option<int> {
    if log == [] then None
    else if log[|log| - 1].key == Some(key) then Some(log[|log| - 1].time)
    else LastAccepted(log[..|log| - 1], key)
  }

  predicate CoolingDown(log: seq<Entry>, now: int, key: string) {
    LastAccepted(log, key).Some? && now - LastAccepted(log, key).value < MUTATION_COOLDOWN_MS
  }

  /** At most 15 per window of 2000 ms; mutations with one key at least 1200 ms apart. */
  function Decide(log: seq<Entry>, a: Attempt): Verdict {
    if CountSince(log, a.now - WINDOW_SIZE_MS) >= MAX_REQUESTS_PER_WINDOW then RateLimited
    else if a.key.Some? && CoolingDown(log, a.now, a.key.value) then DoubleSubmit
    else Admitted
  }

  /** The log after a passage that ended in `verdict`. */
  function Kept(log: seq<Entry>, a: Attempt, verdict: Verdict): seq<Entry> {
    match verdict
    case RateLimited => log
    case DoubleSubmit => log + [Entry(a.now, None)]
    case Admitted => log + [Entry(a.now, a.key)]
  }

  function After(run: seq<Attempt>): Guard {
    if run == [] then Guard([], map[]) else Pass(After(run[..|run| - 1]), run[|run| - 1]).0
  }

  /** What the guard let past its limiter, and which mutations it accepted. */
  function Log(run: seq<Attempt>): seq<Entry> {
    if run == [] then []
    else
      var init, a := run[..|run| - 1], run[|run| - 1];
      Kept(Log(init), a, Pass(After(init), a).1)
  }

  /** The same of a guard that decides from the whole of its own log. */
  function Reference(run: seq<Attempt>): seq<Entry> {
    if run == [] then []
    else
      var init, a := run[..|run| - 1], run[|run| - 1];
      Kept(Reference(init), a, Decide(Reference(init), a))
  }

  /** The clock shows positive times. */
  predicate Ticks(a: Attempt) {
    0 < a.now <= a.cleanedAt
  }

  /** The two readings of one passage are at most a cooldown apart. */
  predicate InTime(a: Attempt) {
    a.cleanedAt <= a.now + 1200
  }

  /** A clock that never goes back. */
  predicate ClockRuns(run: seq<Attempt>) {
    && (forall i :: 0 <= i < |run| ==> Ticks(run[i]))
    && forall i, j :: 0 <= i < j < |run| ==> run[i].cleanedAt <= run[j].now
  }

  /**
   * A double submit whose first submit is forgotten while it cools down: the second clock reading of
   * the passage is already past the horizon.
   */
  predicate LateAt(log: seq<Entry>, a: Attempt) {
    && Decide(log, a) == DoubleSubmit
    && a.cleanedAt - LastAccepted(log, a.key.value).value > MUTATION_COOLDOWN_MS * 2
  }

  /** No passage of the run is late. */
  predicate NeverLate(run: seq<Attempt>) {
    run != [] ==>
      var init := run[..|run| - 1];
      NeverLate(init) && !LateAt(Log(init), run[|run| - 1])
  }

  predicate LogUpTo(log: seq<Entry>, now: int) {
    && (forall i :: 0 <= i < |log| ==> 0 < log[i].time <= now)
    && forall i, j :: 0 <= i <= j < |log| ==> log[i].time <= log[j].time
  }

  /** The queue holds the times of the log that are inside the window ending at `now`. */
  predicate WindowOf(stamps: seq<int>, log: seq<Entry>, now: int) {
    && |stamps| <= |log|
    && (forall i :: 0 <= i < |stamps| ==> stamps[i] == log[|log| - |stamps| + i].time)
    && (forall i :: 0 <= i < |log| ==> (log[i].time >= now - WINDOW_SIZE_MS <==> i >= |log| - |stamps|))
  }

  /** The map agrees with the log wherever it has a key, and misses only what is past the horizon. */
  ghost predicate RecentOf(pending: map<string, int>, log: seq<Entry>, now: int) {
    && (forall k :: k in pending ==> LastAccepted(log, k) == Some(pending[k]))
    && (forall k :: LastAccepted(log, k).Some? && now - LastAccepted(log, k).value <= MUTATION_COOLDOWN_MS * 2
          ==> k in pending)
  }

  lemma KeptGrowsInTime(log: seq<Entry>, before: int, a: Attempt, verdict: Verdict)
    requires LogUpTo(log, before) && before <= a.now && a.now > 0
    ensures LogUpTo(log, a.now) && LogUpTo(Kept(log, a, verdict), a.now)
  {}

  lemma {:induction false} LogGrowsInTime(run: seq<Attempt>)
    requires ClockRuns(run) && run != []
    ensures LogUpTo(Log(run), run[|run| - 1].now)
    ensures LogUpTo(Log(run[..|run| - 1]), run[|run| - 1].now)
  {
    var init, a := run[..|run| - 1], run[|run| - 1];
    if init != [] { LogGrowsInTime(init); }
    KeptGrowsInTime(Log(init), if init == [] then 0 else init[|init| - 1].now, a, Pass(After(init), a).1);
  }

  /** Evicting from the front of the old window gives the new window. */
  lemma {:induction false} EvictedIsWindow(stamps: seq<int>, log: seq<Entry>, now: int)
    requires LogUpTo(log, now) && |stamps| <= |log|
    requires forall i :: 0 <= i < |stamps| ==> stamps[i] == log[|log| - |stamps| + i].time
    requires forall i :: 0 <= i < |log| - |stamps| ==> log[i].time < now - WINDOW_SIZE_MS
    ensures WindowOf(Evicted(stamps, now), log, now)
  {
    if stamps != [] && stamps[0] < now - WINDOW_SIZE_MS {
      EvictedIsWindow(stamps[1..], log, now);
    }
  }

  lemma {:induction false} WindowCount(log: seq<Entry>, cut: nat, from: int)
    requires cut <= |log| && forall i :: 0 <= i < |log| ==> (log[i].time >= from <==> i >= cut)
    ensures CountSince(log, from) == |log| - cut
  {
    if log != [] {
      var init := log[..|log| - 1];
      WindowCount(init, if cut <= |init| then cut else |init|, from);
    }
  }

  lemma {:induction false} LastAcceptedTime(log: seq<Entry>, key: string)
    ensures LastAccepted(log, key).Some? ==>
              exists i :: 0 <= i < |log| && log[i] == Entry(LastAccepted(log, key).value, Some(key))
  {
    if log != [] && log[|log| - 1].key != Some(key) {
      LastAcceptedTime(log[..|log| - 1], key);
    }
  }

  lemma LogAppend(log: seq<Entry>, e: Entry, key: string)
    ensures LastAccepted(log + [e], key) == if e.key == Some(key) then Some(e.time) else LastAccepted(log, key)
  {
    assert (log + [e])[..|log|] == log;
  }

  lemma WindowAppend(stamps: seq<int>, log: seq<Entry>, now: int, key: Option<string>)
    requires WindowOf(stamps, log, now)
    ensures WindowOf(stamps + [now], log + [Entry(now, key)], now)
  {}

  lemma RecentAppend(pending: map<string, int>, log: seq<Entry>, a: Attempt)
    requires RecentOf(pending, log, a.cleanedAt)
    ensures var longer := log + [Entry(a.now, a.key)];
            RecentOf(if a.key.Some? then pending[a.key.value := a.now] else pending, longer, a.cleanedAt)
  {
    forall k ensures LastAccepted(log + [Entry(a.now, a.key)], k)
                  == if a.key == Some(k) then Some(a.now) else LastAccepted(log, k) {
      LogAppend(log, Entry(a.now, a.key), k);
    }
  }

  lemma CleaningKeepsRecent(pending: map<string, int>, log: seq<Entry>, before: int, cleanedAt: int)
    requires RecentOf(pending, log, before) && before <= cleanedAt
    ensures RecentOf(pending, log, cleanedAt)
    ensures RecentOf(Cleaned(pending, cleanedAt), log, cleanedAt)
  {}

  /**
   * What the cooldown test sees after the cleaning is what the full log says, except for a key whose
   * last mutation was still cooling down at the first clock reading and past the horizon at the second.
   */
  lemma CleaningInvisibleIff(pending: map<string, int>, log: seq<Entry>, before: int, a: Attempt, k: string)
    requires RecentOf(pending, log, before) && before <= a.now <= a.cleanedAt && LogUpTo(log, a.now)
    ensures (Blocks(Cleaned(pending, a.cleanedAt), a.now, k) <==> CoolingDown(log, a.now, k))
       <==> !(CoolingDown(log, a.now, k)
              && a.cleanedAt - LastAccepted(log, k).value > MUTATION_COOLDOWN_MS * 2)
  {
    LastAcceptedTime(log, k);
  }

  /** Readings at most a cooldown apart never hit that exception. */
  lemma CleaningInvisible(pending: map<string, int>, log: seq<Entry>, before: int, a: Attempt, k: string)
    requires RecentOf(pending, log, before) && before <= a.now && Ticks(a) && InTime(a) && LogUpTo(log, a.now)
    ensures Blocks(Cleaned(pending, a.cleanedAt), a.now, k) <==> CoolingDown(log, a.now, k)
  {
    CleaningInvisibleIff(pending, log, before, a, k);
  }

  lemma WindowLater(stamps: seq<int>, log: seq<Entry>, now: int, later: int)
    requires WindowOf(stamps, log, now) && now <= later
    ensures |stamps| <= |log| && forall i :: 0 <= i < |stamps| ==> stamps[i] == log[|log| - |stamps| + i].time
    ensures forall i :: 0 <= i < |log| - |stamps| ==> log[i].time < later - WINDOW_SIZE_MS
  {}

  /** The eviction leaves exactly the window that the limiter has to count. */
  lemma LimiterAgrees(stamps: seq<int>, log: seq<Entry>, before: int, now: int)
    requires LogUpTo(log, now) && before <= now && WindowOf(stamps, log, before)
    ensures WindowOf(Evicted(stamps, now), log, now)
    ensures |Evicted(stamps, now)| == CountSince(log, now - WINDOW_SIZE_MS)
  {
    WindowLater(stamps, log, before, now);
    EvictedIsWindow(stamps, log, now);
    WindowCount(log, |log| - |Evicted(stamps, now)|, now - WINDOW_SIZE_MS);
  }

  /** One step decides as the full log does, except that it accepts a late double submit. */
  lemma StepAgrees(g: Guard, log: seq<Entry>, before: int, cleaned: int, a: Attempt)
    requires LogUpTo(log, before) && before <= a.now && cleaned <= a.now && Ticks(a)
    requires WindowOf(g.requestTimestamps, log, before)
    requires RecentOf(g.pendingMutations, log, cleaned)
    ensures Pass(g, a).1 == if LateAt(log, a) then Admitted else Decide(log, a)
  {
    KeptGrowsInTime(log, before, a, RateLimited);
    LimiterAgrees(g.requestTimestamps, log, before, a.now);
    if a.key.Some? { CleaningInvisibleIff(g.pendingMutations, log, cleaned, a, a.key.value); }
  }

  /** Whatever it decides, the queue and the map remain the recent part of the log. */
  lemma StepKeepsRecent(g: Guard, log: seq<Entry>, before: int, cleaned: int, a: Attempt)
    requires LogUpTo(log, before) && before <= a.now && cleaned <= a.now && Ticks(a)
    requires WindowOf(g.requestTimestamps, log, before)
    requires RecentOf(g.pendingMutations, log, cleaned)
    ensures WindowOf(Pass(g, a).0.requestTimestamps, Kept(log, a, Pass(g, a).1), a.now)
    ensures RecentOf(Pass(g, a).0.pendingMutations, Kept(log, a, Pass(g, a).1), a.cleanedAt)
  {
    var stamps, pending := Evicted(g.requestTimestamps, a.now), Cleaned(g.pendingMutations, a.cleanedAt);
    KeptGrowsInTime(log, before, a, RateLimited);
    LimiterAgrees(g.requestTimestamps, log, before, a.now);
    CleaningKeepsRecent(g.pendingMutations, log, cleaned, a.cleanedAt);
    match Pass(g, a).1
    case RateLimited =>
    case DoubleSubmit =>
      WindowAppend(stamps, log, a.now, None);
      RecentAppend(pending, log, a.(key := None));
    case Admitted =>
      WindowAppend(stamps, log, a.now, a.key);
      RecentAppend(if a.key.Some? then pending else g.pendingMutations, log, a);
  }

  /**
   * On every run the queue and the map are the recent part of the guard's full log, and the next
   * decision is the one taken from everything that ever happened, unless the passage is late.
   */
  lemma {:induction false} GuardRefinesLog(run: seq<Attempt>, a: Attempt)
    requires ClockRuns(run) && Ticks(a) && (run != [] ==> run[|run| - 1].cleanedAt <= a.now)
    ensures Pass(After(run), a).1 == if LateAt(Log(run), a) then Admitted else Decide(Log(run), a)
    ensures WindowOf(Pass(After(run), a).0.requestTimestamps, Kept(Log(run), a, Pass(After(run), a).1), a.now)
    ensures RecentOf(Pass(After(run), a).0.pendingMutations, Kept(Log(run), a, Pass(After(run), a).1), a.cleanedAt)
    decreases |run|
  {
    if run == [] {
      StepAgrees(Guard([], map[]), [], 0, 0, a);
      StepKeepsRecent(Guard([], map[]), [], 0, 0, a);
    } else {
      var init, last := run[..|run| - 1], run[|run| - 1];
      GuardRefinesLog(init, last);
      LogGrowsInTime(run);
      StepAgrees(After(run), Log(run), last.now, last.cleanedAt, a);
      StepKeepsRecent(After(run), Log(run), last.now, last.cleanedAt, a);
    }
  }

  // ---------------------------------------------------------------- the guard against its reference

  predicate SameTimes(a: seq<Entry>, b: seq<Entry>) {
    |a| == |b| && forall i :: 0 <= i < |a| ==> a[i].time == b[i].time
  }

  lemma {:induction false} SameCount(a: seq<Entry>, b: seq<Entry>, from: int)
    requires SameTimes(a, b)
    ensures CountSince(a, from) == CountSince(b, from)
  {
    if a != [] { SameCount(a[..|a| - 1], b[..|b| - 1], from); }
  }

  /** One step of the guard beside one of the reference: once they differ they stay different. */
  lemma SideBySide(log: seq<Entry>, other: seq<Entry>, a: Attempt, verdict: Verdict)
    requires SameTimes(log, other)
    requires verdict == if LateAt(log, a) then Admitted else Decide(log, a)
    ensures SameTimes(Kept(log, a, verdict), Kept(other, a, Decide(other, a)))
    ensures Kept(log, a, verdict) == Kept(other, a, Decide(other, a)) <==> log == other && !LateAt(log, a)
  {
    SameCount(log, other, a.now - WINDOW_SIZE_MS);
    var log', other' := Kept(log, a, verdict), Kept(other, a, Decide(other, a));
    assert log'[..|log|] == log && other'[..|other|] == other;
    if log == other && LateAt(log, a) {
      assert log'[|log|] != other'[|other|];
    }
  }

  /**
   * On every run the limiter agrees with the reference, and the guard does exactly what the
   * reference does iff no passage is late.
   */
  lemma {:induction false} RefinesReferenceIff(run: seq<Attempt>)
    requires ClockRuns(run)
    ensures SameTimes(Log(run), Reference(run))
    ensures Log(run) == Reference(run) <==> NeverLate(run)
  {
    if run != [] {
      var init, a := run[..|run| - 1], run[|run| - 1];
      RefinesReferenceIff(init);
      GuardRefinesLog(init, a);
      SideBySide(Log(init), Reference(init), a, Pass(After(init), a).1);
    }
  }

  /** Passages that take at most a cooldown each are never late. */
  lemma {:induction false} PromptIsNeverLate(run: seq<Attempt>)
    requires ClockRuns(run) && forall i :: 0 <= i < |run| ==> InTime(run[i])
    ensures NeverLate(run)
  {
    if run != [] { PromptIsNeverLate(run[..|run| - 1]); }
  }

  // ---------------------------------------------------------------- what the log guarantees

  /** Sixteen consecutive limiter-admitted requests never fit in one window. */
  lemma {:induction false} AdmittedSpacing(run: seq<Attempt>, i: nat)
    requires ClockRuns(run) && i + 15 < |Log(run)|
    ensures Log(run)[i + 15].time - Log(run)[i].time > 2000
    decreases |run|
  {
    var init, a := run[..|run| - 1], run[|run| - 1];
    LogGrowsInTime(run);
    if i + MAX_REQUESTS_PER_WINDOW < |Log(init)| {
      AdmittedSpacing(init, i);
      assert Log(run)[..|Log(init)|] == Log(init);
    } else {
      GuardRefinesLog(init, a);
      FullWindowPast(Log(init), a, i);
    }
  }

  /** When a request passes the limiter, the fifteenth entry from the end is already out of its window. */
  lemma FullWindowPast(log: seq<Entry>, a: Attempt, i: nat)
    requires LogUpTo(log, a.now) && i + MAX_REQUESTS_PER_WINDOW == |log| && Decide(log, a) != RateLimited
    ensures log[i].time < a.now - WINDOW_SIZE_MS
  {
    if log[i].time >= a.now - WINDOW_SIZE_MS {
      SuffixCount(log, i, a.now - WINDOW_SIZE_MS);
      assert false;
    }
  }

  lemma {:induction false} SuffixCount(log: seq<Entry>, cut: nat, from: int)
    requires cut <= |log| && forall i :: cut <= i < |log| ==> log[i].time >= from
    ensures CountSince(log, from) >= |log| - cut
  {
    if cut < |log| { SuffixCount(log[..|log| - 1], cut, from); }
  }

  /** Any two accepted mutations with the same key are at least the cooldown apart. */
  predicate MutationsApart(log: seq<Entry>) {
    forall i, j :: 0 <= i < j < |log| && log[i].key.Some? && log[i].key == log[j].key ==>
      log[j].time - log[i].time >= 1200
  }

  lemma {:induction false} LastAcceptedIsLatest(log: seq<Entry>, i: nat, now: int)
    requires i < |log| && LogUpTo(log, now) && log[i].key.Some?
    ensures LastAccepted(log, log[i].key.value).Some?
    ensures LastAccepted(log, log[i].key.value).value >= log[i].time
  {
    if log[|log| - 1].key != log[i].key {
      LastAcceptedIsLatest(log[..|log| - 1], i, now);
    }
  }

  lemma MutationsApartStep(log: seq<Entry>, a: Attempt, verdict: Verdict)
    requires LogUpTo(log, a.now) && verdict == if LateAt(log, a) then Admitted else Decide(log, a)
    ensures MutationsApart(Kept(log, a, verdict)) <==> MutationsApart(log) && !LateAt(log, a)
  {
    var log' := Kept(log, a, verdict);
    assert forall i :: 0 <= i < |log| ==> log'[i] == log[i];
    if LateAt(log, a) {
      LastAcceptedTime(log, a.key.value);
      var i :| 0 <= i < |log| && log[i] == Entry(LastAccepted(log, a.key.value).value, a.key);
      assert log'[|log|].time - log'[i].time < MUTATION_COOLDOWN_MS;
    } else {
      forall i | 0 <= i < |log| < |log'| && log'[i].key.Some? && log'[i].key == log'[|log|].key
        ensures log'[|log|].time - log'[i].time >= MUTATION_COOLDOWN_MS
      {
        LastAcceptedIsLatest(log, i, a.now);
      }
    }
  }

  /** On every run accepted mutations with one key are a cooldown apart iff no passage is late. */
  lemma {:induction false} AcceptedSpacingIff(run: seq<Attempt>)
    requires ClockRuns(run)
    ensures MutationsApart(Log(run)) <==> NeverLate(run)
  {
    if run != [] {
      var init, a := run[..|run| - 1], run[|run| - 1];
      AcceptedSpacingIff(init);
      GuardRefinesLog(init, a);
      LogGrowsInTime(run);
      MutationsApartStep(Log(init), a, Pass(After(init), a).1);
    }
  }

  /** In particular when every passage takes at most a cooldown. */
  lemma AcceptedSpacing(run: seq<Attempt>, i: nat, j: nat)
    requires ClockRuns(run) && forall k :: 0 <= k < |run| ==> InTime(run[k])
    requires i < j < |Log(run)|
    requires Log(run)[i].key.Some? && Log(run)[i].key == Log(run)[j].key
    ensures Log(run)[j].time - Log(run)[i].time >= 1200
  {
    PromptIsNeverLate(run);
    AcceptedSpacingIff(run);
  }

  // ---------------------------------------------------------------- the decision by the log alone

  lemma {:induction false} CountAtMost(log: seq<Entry>, cut: nat, from: int)
    requires cut <= |log| && forall i :: 0 <= i < cut ==> log[i].time < from
    ensures CountSince(log, from) <= |log| - cut
  {
    if log != [] { CountAtMost(log[..|log| - 1], if cut == |log| then cut - 1 else cut, from); }
  }

  /** Fifteen requests that passed the limiter are not older than two seconds. */
  predicate FifteenRecent(log: seq<Entry>, now: int) {
    |log| >= 15 && log[|log| - 15].time >= now - 2000
  }

  /**
   * A mutation with this key was accepted less than 1200 ms before the first clock reading, and not more
   * than 2400 ms before the second.
   */
  predicate RecentlyAccepted(log: seq<Entry>, a: Attempt) {
    a.key.Some? && exists i :: 0 <= i < |log| && log[i].key == a.key
                               && a.now - log[i].time < 1200 && a.cleanedAt - log[i].time <= 2400
  }

  lemma LimitedByLog(log: seq<Entry>, now: int)
    requires LogUpTo(log, now)
    ensures CountSince(log, now - 2000) >= 15 <==> FifteenRecent(log, now)
  {
    if |log| >= 15 && log[|log| - 15].time >= now - 2000 {
      SuffixCount(log, |log| - 15, now - 2000);
    } else if |log| >= 15 {
      CountAtMost(log, |log| - 14, now - 2000);
    } else {
      CountAtMost(log, 0, now - 2000);
    }
  }

  lemma BlockedByLog(log: seq<Entry>, a: Attempt)
    requires LogUpTo(log, a.now) && a.key.Some?
    ensures RecentlyAccepted(log, a) <==>
              && LastAccepted(log, a.key.value).Some? && a.now - LastAccepted(log, a.key.value).value < 1200
              && a.cleanedAt - LastAccepted(log, a.key.value).value <= 2400
  {
    LastAcceptedTime(log, a.key.value);
    forall i | 0 <= i < |log| && log[i].key == a.key
      ensures LastAccepted(log, a.key.value).Some? && LastAccepted(log, a.key.value).value >= log[i].time
    {
      LastAcceptedIsLatest(log, i, a.now);
    }
  }

  /** On every run the decision is read off the guard's log: fifteen recent requests, or a recently accepted key. */
  lemma DecisionLaw(run: seq<Attempt>, a: Attempt)
    requires ClockRuns(run) && Ticks(a) && (run != [] ==> run[|run| - 1].cleanedAt <= a.now)
    ensures Pass(After(run), a).1
         == if FifteenRecent(Log(run), a.now) then RateLimited
            else if RecentlyAccepted(Log(run), a) then DoubleSubmit
            else Admitted
  {
    GuardRefinesLog(run, a);
    LogUpToNow(run, a);
    DecidedByLog(Log(run), a);
  }

  lemma LogUpToNow(run: seq<Attempt>, a: Attempt)
    requires ClockRuns(run) && Ticks(a) && (run != [] ==> run[|run| - 1].cleanedAt <= a.now)
    ensures LogUpTo(Log(run), a.now)
  {
    if run != [] {
      LogGrowsInTime(run);
      KeptGrowsInTime(Log(run), run[|run| - 1].now, a, RateLimited);
    }
  }

  lemma DecidedByLog(log: seq<Entry>, a: Attempt)
    requires LogUpTo(log, a.now)
    ensures (if LateAt(log, a) then Admitted else Decide(log, a))
         == if FifteenRecent(log, a.now) then RateLimited
            else if RecentlyAccepted(log, a) then DoubleSubmit
            else Admitted
  {
    LimitedByLog(log, a.now);
    if a.key.Some? { BlockedByLog(log, a); }
  }

  /** The deletion keeps exactly the keys whose mutation is not more than 2400 ms old. */
  lemma CleanedLaw(pending: map<string, int>, now: int, key: string)
    ensures key in Cleaned(pending, now) <==> key in pending && now <= pending[key] + 2400
    ensures key in Cleaned(pending, now) ==> Cleaned(pending, now)[key] == pending[key]
  {}

  // ---------------------------------------------------------------- bounded memory

  /** The log entries whose accepted keys the map can still hold. */
  function Keys(log: seq<Entry>, lo: nat): set<string>
    requires lo <= |log|
  {
    set i | lo <= i < |log| && log[i].key.Some? :: log[i].key.value
  }

  lemma {:induction false} KeysBound(log: seq<Entry>, lo: nat)
    requires lo <= |log|
    ensures |Keys(log, lo)| <= |log| - lo
    decreases |log|
  {
    if lo < |log| {
      var init, last := log[..|log| - 1], log[|log| - 1];
      KeysBound(init, lo);
      if last.key.Some? {
        assert Keys(log, lo) <= Keys(init, lo) + {last.key.value};
        SubsetSize(Keys(log, lo), Keys(init, lo) + {last.key.value});
      } else {
        assert Keys(log, lo) <= Keys(init, lo);
        SubsetSize(Keys(log, lo), Keys(init, lo));
      }
    } else {
      assert Keys(log, lo) == {};
    }
  }

  /** Some entry of the first `prefix` accepted `key`, within the horizon of the last of them. */
  ghost predicate HeldSince(log: seq<Entry>, prefix: nat, key: string)
    requires prefix <= |log|
  {
    exists i :: && 0 <= i < prefix && log[i].key == Some(key)
                && log[i].time >= log[prefix - 1].time - MUTATION_COOLDOWN_MS * 2
  }

  ghost predicate AllHeld(pending: map<string, int>, log: seq<Entry>, prefix: nat)
    requires prefix <= |log|
  {
    forall k :: k in pending ==> HeldSince(log, prefix, k)
  }

  lemma HeldLater(log: seq<Entry>, longer: seq<Entry>, prefix: nat, key: string)
    requires prefix <= |log| && log <= longer && HeldSince(log, prefix, key)
    ensures HeldSince(longer, prefix, key)
  {
    var i :| && 0 <= i < prefix && log[i].key == Some(key)
             && log[i].time >= log[prefix - 1].time - MUTATION_COOLDOWN_MS * 2;
    assert longer[i] == log[i] && longer[prefix - 1] == log[prefix - 1];
  }

  /** After a cleaning passage every key left in the map is within the horizon. */
  lemma HeldAfterCleaning(pending: map<string, int>, log: seq<Entry>, a: Attempt, verdict: Verdict)
    requires verdict != RateLimited
    requires RecentOf(pending, Kept(log, a, verdict), a.cleanedAt)
    requires forall k :: k in pending ==> pending[k] >= a.now - MUTATION_COOLDOWN_MS * 2
    ensures AllHeld(pending, Kept(log, a, verdict), |Kept(log, a, verdict)|)
  {
    var longer := Kept(log, a, verdict);
    forall k | k in pending ensures HeldSince(longer, |longer|, k) {
      LastAcceptedTime(longer, k);
    }
  }

  lemma UntouchedStaysHeld(pending: map<string, int>, log: seq<Entry>, a: Attempt, verdict: Verdict, prefix: nat)
    requires prefix <= |log| && AllHeld(pending, log, prefix)
    ensures prefix <= |Kept(log, a, verdict)| && AllHeld(pending, Kept(log, a, verdict), prefix)
  {
    forall k | k in pending ensures HeldSince(Kept(log, a, verdict), prefix, k) {
      HeldLater(log, Kept(log, a, verdict), prefix, k);
    }
  }

  /** Every key in the map was accepted within the horizon of the last cleaning passage. */
  lemma {:induction false} PendingWithinHorizon(run: seq<Attempt>) returns (prefix: nat)
    requires ClockRuns(run)
    ensures prefix <= |Log(run)| && AllHeld(After(run).pendingMutations, Log(run), prefix)
  {
    if run == [] {
      return 0;
    }
    var init, a := run[..|run| - 1], run[|run| - 1];
    prefix := PendingWithinHorizon(init);
    GuardRefinesLog(init, a);
    var (g, verdict) := Pass(After(init), a);
    if verdict != RateLimited && a.key.Some? {
      prefix := |Log(run)|;
      HeldAfterCleaning(g.pendingMutations, Log(init), a, verdict);
    } else {
      UntouchedStaysHeld(g.pendingMutations, Log(init), a, verdict, prefix);
    }
  }

  /** In every reachable state the double-submit map holds at most thirty keys. */
  lemma PendingBound(run: seq<Attempt>)
    requires ClockRuns(run)
    ensures |After(run).pendingMutations| <= 30
  {
    var log := Log(run);
    var prefix := PendingWithinHorizon(run);
    var lo := if prefix > 30 then prefix - 30 else 0;
    var keys := After(run).pendingMutations.Keys;
    forall k | k in keys ensures k in Keys(log[..prefix], lo) {
      var i :| && 0 <= i < prefix && log[i].key == Some(k)
               && log[i].time >= log[prefix - 1].time - MUTATION_COOLDOWN_MS * 2;
      if i < lo {
        AdmittedSpacing(run, i);
        AdmittedSpacing(run, i + 15);
        LogGrowsInTime(run);
        assert false;
      }
      assert log[..prefix][i] == log[i];
    }
    KeysBound(log[..prefix], lo);
    SubsetSize(keys, Keys(log[..prefix], lo));
  }

  // ---------------------------------------------------------------- the bound is attained

  /** Fifteen mutations with distinct keys at time 1, and fifteen more at time 2002. */
  function BurstAt(n: nat): Attempt {
    var now := if n <= 15 then 1 else 2002;
    Attempt(now, now, Some(seq(n, i => 'k')))
  }

  function Burst(n: nat): seq<Attempt> {
    if n == 0 then [] else Burst(n - 1) + [BurstAt(n)]
  }

  predicate Filled(g: Guard, n: nat) {
    && |g.requestTimestamps| == (if n <= 15 then n else n - 15)
    && (forall i :: 0 <= i < |g.requestTimestamps| ==> g.requestTimestamps[i] == if n <= 15 then 1 else 2002)
    && (forall k :: k in g.pendingMutations ==> |k| <= n)
    && (forall k :: k in g.pendingMutations ==> g.pendingMutations[k] == 1 || g.pendingMutations[k] == 2002)
    && (n <= 15 ==> forall k :: k in g.pendingMutations ==> g.pendingMutations[k] == 1)
    && |g.pendingMutations| == n
  }

  lemma {:induction false} EvictedNone(stamps: seq<int>, now: int)
    requires forall i :: 0 <= i < |stamps| ==> stamps[i] < now - WINDOW_SIZE_MS
    ensures Evicted(stamps, now) == []
  {
    if stamps != [] { EvictedNone(stamps[1..], now); }
  }

  lemma FillStep(g: Guard, n: nat)
    requires 0 < n <= 30 && Filled(g, n - 1)
    ensures Filled(Pass(g, BurstAt(n)).0, n)
  {
    var a, key := BurstAt(n), seq(n, i => 'k');
    if n == 16 { EvictedNone(g.requestTimestamps, a.now); }
    var stamps := Evicted(g.requestTimestamps, a.now);
    assert |stamps| == if n <= 15 then n - 1 else n - 16;
    assert Cleaned(g.pendingMutations, a.now) == g.pendingMutations;
    assert key !in g.pendingMutations;
    assert Pass(g, a).0 == Guard(stamps + [a.now], g.pendingMutations[key := a.now]);
  }

  lemma {:induction false} BurstClock(n: nat)
    ensures |Burst(n)| == n && forall i :: 0 <= i < n ==> Burst(n)[i] == BurstAt(i + 1)
  {
    if n > 0 { BurstClock(n - 1); }
  }

  lemma AfterAppend(run: seq<Attempt>, a: Attempt)
    ensures After(run + [a]) == Pass(After(run), a).0
  {
    assert (run + [a])[..|run|] == run;
  }

  lemma {:induction false} BurstFills(n: nat)
    requires n <= 30
    ensures Filled(After(Burst(n)), n)
  {
    if n > 0 {
      BurstFills(n - 1);
      FillStep(After(Burst(n - 1)), n);
      AfterAppend(Burst(n - 1), BurstAt(n));
    }
  }

  /** Thirty is the exact bound: some run fills the map that far. */
  lemma PendingBoundAttained()
    ensures exists run :: ClockRuns(run) && |After(run).pendingMutations| == 30
  {
    BurstClock(30);
    BurstFills(30);
    assert ClockRuns(Burst(30));
  }
}
