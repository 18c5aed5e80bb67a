/** The WebSocket session table, its index by user, and delivery through both. */
module SessionRegistry {
  import opened Common

  /** What a verified token says about its holder. */
  datatype Claims = Claims(userId: string, role: string, permissions: seq<string>)

  const CONNECTING := 0
  const OPEN := 1
  const CLOSING := 2

  /** sessionData of one connection, with the readyState of the connection itself. */
  datatype Session = Session(
    readyState: int,
    authenticated: bool,
    userId: Option<string>,
    role: string,
    permissions: seq<string>,
    subscriptions: map<string, string>)   // subscription id -> destination
  {
    predicate Dead() { readyState != OPEN && readyState != CONNECTING }

    predicate HasPermission(permission: string) { role == "ADMIN" || permission in permissions }

    function IdsFor(destination: string): set<string> {
      set id | id in subscriptions && subscriptions[id] == destination
    }
  }

  datatype Registry = Registry(sessions: map<nat, Session>, userSessions: map<string, set<nat>>) {
    predicate Indexed(u: string, c: nat) { u in userSessions && c in userSessions[u] }

    predicate Owns(u: string, c: nat) { c in sessions && sessions[c].userId == Some(u) }

    predicate NoEmptySets() { forall u :: u in userSessions ==> userSessions[u] != {} }
  }

  // ---------------------------------------------------------------- the steps

  function Opened(r: Registry, c: nat): Registry {
    r.(sessions := r.sessions[c := Session(OPEN, false, None, "", [], map[])])
  }

  /** CONNECT with a verified token. */
  function Authenticated(r: Registry, c: nat, claims: Claims): Registry
    requires c in r.sessions
  {
    var u := claims.userId;
    Registry(
      r.sessions[c := r.sessions[c].(authenticated := true, userId := Some(u), role := claims.role,
                                     permissions := claims.permissions)],
      r.userSessions[u := (if u in r.userSessions then r.userSessions[u] else {}) + {c}])
  }

  function Updated(r: Registry, c: nat, s: Session): Registry {
    r.(sessions := r.sessions[c := s])
  }

  /** What is left of a user's set when the dead sessions that name the user are taken out. */
  function Left(r: Registry, u: string, dead: set<nat>): set<nat>
    requires u in r.userSessions
  {
    r.userSessions[u] - set c | c in dead && r.Owns(u, c)
  }

  /** The registry without the dead sessions, by one comprehension over each table. */
  function Removed(r: Registry, dead: set<nat>): Registry {
    Registry(r.sessions - dead,
             map u | u in r.userSessions && Left(r, u, dead) != {} :: Left(r, u, dead))
  }

  function DeadOnes(r: Registry): set<nat> {
    set c | c in r.sessions && r.sessions[c].Dead()
  }

  /** Removing in two rounds is removing at once. */
  lemma RemovedTwice(r: Registry, a: set<nat>, b: set<nat>)
    ensures Removed(Removed(r, a), b) == Removed(r, a + b)
  {
    var once, twice := Removed(r, a + b), Removed(Removed(r, a), b);
    forall u | u in r.userSessions && Left(r, u, a) != {}
      ensures Left(Removed(r, a), u, b) == Left(r, u, a + b) {}
    forall u | u in r.userSessions ensures Left(r, u, a + b) <= Left(r, u, a) {}
    assert twice.sessions == once.sessions;
    assert twice.userSessions == once.userSessions;
  }

  lemma RemovedNothing(r: Registry)
    requires r.NoEmptySets()
    ensures Removed(r, {}) == r
  {
    assert forall u :: u in r.userSessions ==> Left(r, u, {}) == r.userSessions[u];
    assert Removed(r, {}).userSessions == r.userSessions;
  }

  /** Sweep and close commute, and a close after the sweep that removed its session changes nothing. */
  lemma SweepThenClose(r: Registry, c: nat)
    ensures Removed(Removed(r, DeadOnes(r)), {c}) == Removed(Removed(r, {c}), DeadOnes(r))
    ensures c in DeadOnes(r) ==> Removed(Removed(r, DeadOnes(r)), {c}) == Removed(r, DeadOnes(r))
    ensures DeadOnes(r) == {c} ==> Removed(Removed(r, DeadOnes(r)), {c}) == Removed(r, {c})
  {
    var dead := DeadOnes(r);
    RemovedTwice(r, dead, {c});
    RemovedTwice(r, {c}, dead);
    assert dead + {c} == {c} + dead;
    assert c in dead ==> dead + {c} == dead;
  }

  /** The registry when the sweep still has the sessions in `todo` before it. */
  function Swept(r: Registry, todo: set<nat>): Registry {
    Removed(r, DeadOnes(r) - todo)
  }

  lemma SweepStart(r: Registry)
    requires r.NoEmptySets()
    ensures Swept(r, r.sessions.Keys) == r
    ensures Swept(r, {}) == Removed(r, DeadOnes(r))
  {
    RemovedNothing(r);
    assert DeadOnes(r) - r.sessions.Keys == {} && DeadOnes(r) - {} == DeadOnes(r);
  }

  lemma SweepStep(r: Registry, todo: set<nat>, c: nat)
    requires c in todo && c in r.sessions
    ensures c in Swept(r, todo).sessions && Swept(r, todo).sessions[c] == r.sessions[c]
    ensures Removed(Swept(r, todo), if r.sessions[c].Dead() then {c} else {}) == Swept(r, todo - {c})
  {
    var now := if r.sessions[c].Dead() then {c} else {};
    RemovedTwice(r, DeadOnes(r) - todo, now);
    assert DeadOnes(r) - (todo - {c}) == (DeadOnes(r) - todo) + now;
  }

  // ---------------------------------------------------------------- the tables as an object

  class Sessions {
    var sessions: map<nat, Session>
    var userSessions: map<string, set<nat>>

    function View(): Registry
      reads this
    {
      Registry(sessions, userSessions)
    }

    constructor ()
      ensures View() == Registry(map[], map[])
    {
      sessions, userSessions := map[], map[];
    }

    method OnConnection(c: nat)
      modifies this
      ensures View() == Opened(old(View()), c)
    {
      sessions := sessions[c := Session(OPEN, false, None, "", [], map[])];
    }

    /** CONNECT or STOMP; `claims` is None when the token is missing, invalid or names nobody. */
    method HandleConnect(c: nat, claims: Option<Claims>) returns (reply: string)
      requires c in sessions
      modifies this
      ensures reply == if claims.Some? then "CONNECTED" else "ERROR"
      ensures View() == match claims
                        case Some(who) => Authenticated(old(View()), c, who)
                        case None => Updated(old(View()), c, old(View()).sessions[c].(readyState := CLOSING))
    {
      if claims.None? {
        sessions := sessions[c := sessions[c].(readyState := CLOSING)];
        return "ERROR";
      }
      var who := claims.value;
      sessions := sessions[c := sessions[c].(authenticated := true, userId := Some(who.userId), role := who.role,
                                             permissions := who.permissions)];
      if who.userId !in userSessions {
        userSessions := userSessions[who.userId := {}];
      }
      userSessions := userSessions[who.userId := userSessions[who.userId] + {c}];
      reply := "CONNECTED";
    }

    method OnClose(c: nat)
      requires View().NoEmptySets()
      modifies this
      ensures View() == Removed(old(View()), {c}) && View().NoEmptySets()
    {
      ghost var before := View();
      if c in sessions && sessions[c].userId.Some? {
        var u := sessions[c].userId.value;
        if u in userSessions {
          var conns := userSessions[u] - {c};
          userSessions := if conns == {} then userSessions - {u} else userSessions[u := conns];
        }
      }
      sessions := sessions - {c};
      forall u | u in before.userSessions
        ensures Left(before, u, {c})
             == if before.Owns(u, c) then before.userSessions[u] - {c} else before.userSessions[u]
      {}
      ghost var after := Removed(before, {c});
      assert userSessions.Keys == after.userSessions.Keys;
      assert userSessions == after.userSessions;
    }

    method SweepOne(c: nat)
      requires c in sessions && View().NoEmptySets()
      modifies this
      ensures View() == Removed(old(View()), if old(sessions)[c].Dead() then {c} else {})
      ensures View().NoEmptySets()
    {
      RemovedNothing(View());
      if sessions[c].Dead() {
        OnClose(c);
      }
    }

    /** The periodic cleanup of connections that are neither connecting nor open. */
    method Sweep()
      requires View().NoEmptySets()
      modifies this
      ensures View() == Removed(old(View()), DeadOnes(old(View())))
    {
      ghost var before := View();
      var todo := sessions.Keys;
      SweepStart(before);
      while todo != {}
        invariant todo <= before.sessions.Keys
        invariant View() == Swept(before, todo)
        invariant View().NoEmptySets()
        decreases |todo|
      {
        var c :| c in todo;
        SweepStep(before, todo, c);
        SweepOne(c);
        todo := todo - {c};
      }
    }

    /** `generated` is the id made up from the clock, for a frame without one. */
    method HandleSubscribe(c: nat, id: string, generated: string, destination: string)
      returns (reply: Option<string>)
      requires c in sessions
      modifies this
      ensures reply == if !old(sessions)[c].authenticated || destination == "" then Some("ERROR") else None
      ensures View() == if !old(sessions)[c].authenticated || destination == "" then old(View())
                        else Updated(old(View()), c, old(sessions)[c].(subscriptions :=
                               old(sessions)[c].subscriptions[(if id == "" then generated else id) := destination]))
    {
      if !sessions[c].authenticated || destination == "" {
        return Some("ERROR");
      }
      var subId := if id == "" then generated else id;
      sessions := sessions[c := sessions[c].(subscriptions := sessions[c].subscriptions[subId := destination])];
      reply := None;
    }

    method HandleUnsubscribe(c: nat, id: string)
      requires c in sessions
      modifies this
      ensures View() == if id == "" then old(View())
                        else Updated(old(View()), c, old(sessions)[c].(subscriptions :=
                               old(sessions)[c].subscriptions - {id}))
    {
      if id != "" {
        sessions := sessions[c := sessions[c].(subscriptions := sessions[c].subscriptions - {id})];
      }
    }
  }

  // ---------------------------------------------------------------- every interleaving

  datatype Event =
    | Connection(c: nat)
    | Connect(c: nat, claims: Option<Claims>)
    | Subscribe(c: nat, id: string, destination: string)
    | Unsubscribe(c: nat, id: string)
    | ReadyState(c: nat, readyState: int)      // the transport closes a connection
    | Close(c: nat)
    | Sweep

  /** The registry, the ids ever opened, who connected as whom, and the latest identity of each connection. */
  datatype World = World(reg: Registry, known: set<nat>, ever: set<(nat, string)>, last: map<nat, string>)

  /** Connection ids are fresh, a frame arrives on a registered connection, and a token names somebody. */
  predicate Enabled(w: World, e: Event) {
    match e
    case Connection(c) => c !in w.known
    case Connect(c, claims) => c in w.reg.sessions && (claims.Some? ==> claims.value.userId != "")
    case Subscribe(c, _, _) => c in w.reg.sessions
    case Unsubscribe(c, _) => c in w.reg.sessions
    case ReadyState(c, _) => c in w.reg.sessions
    case Close(c) => c in w.known
    case Sweep => true
  }

  function Step(w: World, e: Event): World
    requires Enabled(w, e)
  {
    var r := w.reg;
    match e
    case Connection(c) => w.(reg := Opened(r, c), known := w.known + {c})
    case Connect(c, None) => w.(reg := Updated(r, c, r.sessions[c].(readyState := CLOSING)))
    case Connect(c, Some(who)) =>
      w.(reg := Authenticated(r, c, who), ever := w.ever + {(c, who.userId)}, last := w.last[c := who.userId])
    case Subscribe(c, id, destination) =>
      var s := r.sessions[c];
      if !s.authenticated || destination == "" then w
      else w.(reg := Updated(r, c, s.(subscriptions := s.subscriptions[id := destination])))
    case Unsubscribe(c, id) =>
      var s := r.sessions[c];
      if id == "" then w else w.(reg := Updated(r, c, s.(subscriptions := s.subscriptions - {id})))
    case ReadyState(c, state) => w.(reg := Updated(r, c, r.sessions[c].(readyState := state)))
    case Close(c) => w.(reg := Removed(r, {c}))
    case Sweep => w.(reg := Removed(r, DeadOnes(r)))
  }

  function Exec(run: seq<Event>): Option<World> {
    if run == [] then Some(World(Registry(map[], map[]), {}, {}, map[]))
    else
      match Exec(run[..|run| - 1])
      case None => None
      case Some(w) => if Enabled(w, run[|run| - 1]) then Some(Step(w, run[|run| - 1])) else None
  }

  predicate SessionsSound(w: World) {
    && w.reg.sessions.Keys <= w.known
    && (forall c :: c in w.reg.sessions ==>
          var s := w.reg.sessions[c];
          && (s.authenticated <==> s.userId.Some?)
          && (s.userId.Some? ==> (c, s.userId.value) in w.ever && c in w.last && w.last[c] == s.userId.value)
          && (s.subscriptions != map[] ==> s.authenticated))
  }

  ghost predicate HistorySound(w: World) {
    forall c, u :: (c, u) in w.ever ==>
      && c in w.known && c in w.last && (c, w.last[c]) in w.ever
      && (c in w.reg.sessions ==> w.reg.sessions[c].userId.Some?)
  }

  /** Exactly which connection ids a user's set holds: a stale id stays iff its latest identity is another one. */
  ghost predicate IndexMeaning(w: World) {
    && w.reg.NoEmptySets()
    && forall c, u :: w.reg.Indexed(u, c) <==>
         (c, u) in w.ever && (c in w.reg.sessions || (c in w.last && w.last[c] != u))
  }

  ghost predicate Inv(w: World) {
    SessionsSound(w) && HistorySound(w) && IndexMeaning(w)
  }

  /** Removing sessions leaves in the index what no removed session names. */
  lemma RemovedIndex(r: Registry, dead: set<nat>, u: string, c: nat)
    ensures Removed(r, dead).Indexed(u, c) <==> r.Indexed(u, c) && !(c in dead && r.Owns(u, c))
  {
    assert u in r.userSessions ==> (c in Left(r, u, dead) <==> r.Indexed(u, c) && !(c in dead && r.Owns(u, c)));
  }

  lemma RemovalKeeps(w: World, dead: set<nat>)
    requires Inv(w)
    ensures Inv(w.(reg := Removed(w.reg, dead)))
  {
    var w' := w.(reg := Removed(w.reg, dead));
    forall u, c: nat ensures w'.reg.Indexed(u, c) <==> w.reg.Indexed(u, c) && !(c in dead && w.reg.Owns(u, c)) {
      RemovedIndex(w.reg, dead, u, c);
    }
  }

  lemma ConnectKeeps(w: World, c: nat, who: Claims)
    requires Inv(w) && Enabled(w, Connect(c, Some(who)))
    ensures Inv(Step(w, Connect(c, Some(who))))
  {
    var w' := Step(w, Connect(c, Some(who)));
    forall u, d: nat ensures w'.reg.Indexed(u, d) <==> w.reg.Indexed(u, d) || (d, u) == (c, who.userId) {}
  }

  /** A session changes without changing its identity. */
  lemma UpdateKeeps(w: World, c: nat, s: Session)
    requires Inv(w) && c in w.reg.sessions
    requires s.userId == w.reg.sessions[c].userId && s.authenticated == w.reg.sessions[c].authenticated
    requires s.subscriptions != map[] ==> s.authenticated
    ensures Inv(w.(reg := Updated(w.reg, c, s)))
  {
    var r, r' := w.reg, Updated(w.reg, c, s);
    forall u, d: nat ensures r'.Indexed(u, d) <==> r.Indexed(u, d) {}
  }

  lemma OpenKeeps(w: World, c: nat)
    requires Inv(w) && c !in w.known
    ensures Inv(Step(w, Connection(c)))
  {
    var r, r' := w.reg, Opened(w.reg, c);
    forall u, d: nat ensures r'.Indexed(u, d) <==> r.Indexed(u, d) {}
  }

  lemma StepKeeps(w: World, e: Event)
    requires Inv(w) && Enabled(w, e)
    ensures Inv(Step(w, e))
  {
    match e
    case Connection(c) => OpenKeeps(w, c);
    case Connect(c, None) => UpdateKeeps(w, c, w.reg.sessions[c].(readyState := CLOSING));
    case Connect(c, Some(who)) => ConnectKeeps(w, c, who);
    case Subscribe(c, id, destination) =>
      var s := w.reg.sessions[c];
      if s.authenticated { UpdateKeeps(w, c, s.(subscriptions := s.subscriptions[id := destination])); }
    case Unsubscribe(c, id) =>
      var s := w.reg.sessions[c];
      assert s.subscriptions == map[] ==> s.subscriptions - {id} == map[];
      UpdateKeeps(w, c, s.(subscriptions := s.subscriptions - {id}));
    case ReadyState(c, state) => UpdateKeeps(w, c, w.reg.sessions[c].(readyState := state));
    case Close(c) => RemovalKeeps(w, {c});
    case Sweep => RemovalKeeps(w, DeadOnes(w.reg));
  }

  lemma {:induction false} EveryRunKeeps(run: seq<Event>)
    requires Exec(run).Some?
    ensures Inv(Exec(run).value)
  {
    if run != [] {
      EveryRunKeeps(run[..|run| - 1]);
      StepKeeps(Exec(run[..|run| - 1]).value, run[|run| - 1]);
    }
  }

  /** Every authenticated session is in its user's set, and no set is empty, on every run. */
  lemma AuthenticatedIsIndexed(run: seq<Event>)
    requires Exec(run).Some?
    ensures var r := Exec(run).value.reg;
            && r.NoEmptySets()
            && forall c :: c in r.sessions && r.sessions[c].authenticated ==>
                 r.sessions[c].userId.Some? && r.Indexed(r.sessions[c].userId.value, c)
  {
    EveryRunKeeps(run);
  }

  ghost predicate OneIdentityEach(w: World) {
    forall c, u, v :: (c, u) in w.ever && (c, v) in w.ever ==> u == v
  }

  ghost predicate IndexExact(r: Registry) {
    forall c, u :: r.Indexed(u, c) <==> r.Owns(u, c)
  }

  /** The index is exactly the sessions by user iff no connection ever authenticated under two identities. */
  lemma IndexExactIff(run: seq<Event>)
    requires Exec(run).Some?
    ensures IndexExact(Exec(run).value.reg) <==> OneIdentityEach(Exec(run).value)
  {
    EveryRunKeeps(run);
    var w := Exec(run).value;
    if IndexExact(w.reg) {
      forall c: nat, u, v | (c, u) in w.ever && (c, v) in w.ever ensures u == v {
        assert w.reg.Indexed(u, c) <==> w.reg.Owns(u, c);
        assert w.reg.Indexed(v, c) <==> w.reg.Owns(v, c);
      }
    }
    if OneIdentityEach(w) {
      forall c: nat, u ensures w.reg.Indexed(u, c) <==> w.reg.Owns(u, c) {}
    }
  }

  // ---------------------------------------------------------------- each session is its connection's own history

  /** The session of connection c, from the events of c alone and the sweeps. */
  function Own(run: seq<Event>, c: nat): Option<Session> {
    if run == [] then None
    else
      var before := Own(run[..|run| - 1], c);
      match run[|run| - 1]
      case Connection(d) => if d == c then Some(Session(1, false, None, "", [], map[])) else before
      case Connect(d, claims) =>
        if d != c || before.None? then before
        else if claims.None? then Some(before.value.(readyState := 2))
        else Some(Session(before.value.readyState, true, Some(claims.value.userId), claims.value.role,
                          claims.value.permissions, before.value.subscriptions))
      case Subscribe(d, id, destination) =>
        if d != c || before.None? || !before.value.authenticated || destination == "" then before
        else Some(before.value.(subscriptions := before.value.subscriptions[id := destination]))
      case Unsubscribe(d, id) =>
        if d != c || before.None? || id == "" then before
        else Some(before.value.(subscriptions := before.value.subscriptions - {id}))
      case ReadyState(d, state) =>
        if d != c || before.None? then before else Some(before.value.(readyState := state))
      case Close(d) => if d == c then None else before
      case Sweep => if before.Some? && before.value.readyState !in {0, 1} then None else before
  }

  /** On every run the table holds for each connection the session of its own events, and nothing else. */
  lemma {:induction false} SessionsAreOwn(run: seq<Event>, c: nat)
    requires Exec(run).Some?
    ensures var sessions := Exec(run).value.reg.sessions;
            Own(run, c) == if c in sessions then Some(sessions[c]) else None
  {
    if run != [] { SessionsAreOwn(run[..|run| - 1], c); }
  }

  /** The claims of the latest successful CONNECT of a connection. */
  function LatestClaims(run: seq<Event>, c: nat): Option<Claims> {
    if run == [] then None
    else
      var e := run[|run| - 1];
      if e.Connect? && e.c == c && e.claims.Some? then e.claims else LatestClaims(run[..|run| - 1], c)
  }

  predicate Holds(s: Session, claims: Option<Claims>) {
    match claims
    case None => !s.authenticated && s.userId == None
    case Some(who) =>
      s.authenticated && s.userId == Some(who.userId) && s.role == who.role && s.permissions == who.permissions
  }

  /**
   * On every run a registered session is authenticated iff its connection has presented a token, and
   * then its user, role and permissions are those of the latest token, whatever else happened.
   */
  lemma {:induction false} SessionsHoldLatestClaims(run: seq<Event>, c: nat)
    requires Exec(run).Some?
    ensures LatestClaims(run, c).Some? ==> c in Exec(run).value.known
    ensures c in Exec(run).value.reg.sessions ==> Holds(Exec(run).value.reg.sessions[c], LatestClaims(run, c))
  {
    if run != [] {
      var init := run[..|run| - 1];
      SessionsHoldLatestClaims(init, c);
      EveryRunKeeps(init);
      SessionsAreOwn(init, c);
      SessionsAreOwn(run, c);
    }
  }

  /** The history that the index theorems speak of is the run's: who connected as whom, and as whom last. */
  lemma {:induction false} HistoryIsRun(run: seq<Event>, c: nat, u: string)
    requires Exec(run).Some?
    ensures var w := Exec(run).value;
            && (c in w.known <==> Connection(c) in run)
            && ((c, u) in w.ever <==> ConnectedAs(run, c, u))
            && (c in w.last <==> LatestClaims(run, c).Some?)
            && (c in w.last ==> w.last[c] == LatestClaims(run, c).value.userId)
  {
    if run != [] {
      var init := run[..|run| - 1];
      HistoryIsRun(init, c, u);
      assert run == init + [run[|run| - 1]];
    }
  }

  predicate ConnectedAs(run: seq<Event>, c: nat, u: string) {
    run != [] &&
      var e := run[|run| - 1];
      (e.Connect? && e.c == c && e.claims.Some? && e.claims.value.userId == u) || ConnectedAs(run[..|run| - 1], c, u)
  }
}
