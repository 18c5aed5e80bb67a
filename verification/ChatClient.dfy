/** The browser's chat client: pending-frame outbox, reconnects, and a conversation subscription handle. */
module ChatClient {
  import opened Common

  datatype Frame = Frame(destination: string, body: string)

  /** stompClient: a client object has an identity and is connected at most for one stretch. */
  datatype Link = NoClient | Client(id: nat, connected: bool) {
    predicate Up() { Client? && connected }
  }

  // ---------------------------------------------------------------- the outbox

  /** Every frame that sendOrQueue took on is in `accepted`; the others say where it is now. */
  datatype Outbox = Outbox(pending: seq<Frame>, sent: seq<Frame>, dropped: seq<Frame>, accepted: seq<Frame>)

  /** Whether the i-th send of a flush throws. */
  predicate Throws(fails: seq<bool>, i: nat) {
    i < |fails| && fails[i]
  }

  /** Of the first n frames of a flush, those whose send throws and those whose send does not. */
  function ThrownOf(frames: seq<Frame>, fails: seq<bool>, n: nat): seq<Frame>
    requires n <= |frames|
  {
    if n == 0 then []
    else if Throws(fails, n - 1) then ThrownOf(frames, fails, n - 1) + [frames[n - 1]]
    else ThrownOf(frames, fails, n - 1)
  }

  function GoneOf(frames: seq<Frame>, fails: seq<bool>, n: nat): seq<Frame>
    requires n <= |frames|
  {
    if n == 0 then []
    else if Throws(fails, n - 1) then GoneOf(frames, fails, n - 1)
    else GoneOf(frames, fails, n - 1) + [frames[n - 1]]
  }

  function Thrown(frames: seq<Frame>, fails: seq<bool>): seq<Frame> { ThrownOf(frames, fails, |frames|) }

  function Gone(frames: seq<Frame>, fails: seq<bool>): seq<Frame> { GoneOf(frames, fails, |frames|) }

  function Reversed(s: seq<Frame>): seq<Frame> {
    seq(|s|, i requires 0 <= i < |s| => s[|s| - 1 - i])
  }

  function Flushed(o: Outbox, fails: seq<bool>): Outbox {
    o.(pending := Reversed(Thrown(o.pending, fails)), sent := o.sent + Gone(o.pending, fails))
  }

  function Queued(o: Outbox, frame: Frame): Outbox {
    o.(pending := o.pending + [frame], accepted := o.accepted + [frame])
  }

  function SentNow(o: Outbox, frame: Frame): Outbox {
    o.(sent := o.sent + [frame], accepted := o.accepted + [frame])
  }

  function Emptied(o: Outbox): Outbox {
    o.(pending := [], dropped := o.dropped + o.pending)
  }

  lemma ReversedAppend(s: seq<Frame>, x: Frame)
    ensures Reversed(s + [x]) == [x] + Reversed(s)
  {}

  /** One turn of a flush, on the queue and on what has been sent since `base`. */
  lemma FlushStep(base: seq<Frame>, frames: seq<Frame>, fails: seq<bool>, i: nat)
    requires i < |frames|
    ensures Throws(fails, i) ==>
              && Reversed(ThrownOf(frames, fails, i + 1)) == [frames[i]] + Reversed(ThrownOf(frames, fails, i))
              && base + GoneOf(frames, fails, i + 1) == base + GoneOf(frames, fails, i)
    ensures !Throws(fails, i) ==>
              && Reversed(ThrownOf(frames, fails, i + 1)) == Reversed(ThrownOf(frames, fails, i))
              && base + GoneOf(frames, fails, i + 1) == base + GoneOf(frames, fails, i) + [frames[i]]
  {
    ReversedAppend(ThrownOf(frames, fails, i), frames[i]);
    ConcatAssoc(base, GoneOf(frames, fails, i), [frames[i]]);
  }

  predicate Splits(a: seq<Frame>, b: seq<Frame>, all: seq<Frame>) {
    multiset(a) + multiset(b) == multiset(all)
  }

  lemma OneMoreSplits(a: seq<Frame>, b: seq<Frame>, all: seq<Frame>, x: Frame)
    requires Splits(a, b, all)
    ensures Splits(a + [x], b, all + [x])
    ensures Splits(a, b + [x], all + [x])
  {}

  lemma {:induction false} FlushSplits(frames: seq<Frame>, fails: seq<bool>, n: nat)
    requires n <= |frames|
    ensures Splits(GoneOf(frames, fails, n), ThrownOf(frames, fails, n), frames[..n])
  {
    if n > 0 {
      FlushSplits(frames, fails, n - 1);
      assert frames[..n] == frames[..n - 1] + [frames[n - 1]];
      OneMoreSplits(GoneOf(frames, fails, n - 1), ThrownOf(frames, fails, n - 1), frames[..n - 1], frames[n - 1]);
    }
  }

  lemma {:induction false} FlushWithoutThrow(frames: seq<Frame>, fails: seq<bool>, n: nat)
    requires n <= |frames| && forall i: nat :: i < n ==> !Throws(fails, i)
    ensures GoneOf(frames, fails, n) == frames[..n] && ThrownOf(frames, fails, n) == []
  {
    if n > 0 {
      FlushWithoutThrow(frames, fails, n - 1);
      assert frames[..n] == frames[..n - 1] + [frames[n - 1]];
    }
  }

  lemma {:induction false} ReversedSame(s: seq<Frame>)
    ensures multiset(Reversed(s)) == multiset(s)
  {
    if s != [] {
      var init, last := s[..|s| - 1], s[|s| - 1];
      assert s == init + [last];
      ReversedAppend(init, last);
      ReversedSame(init);
    }
  }

  /** Nothing is lost or doubled, whatever subset of the sends throws. */
  predicate Conserved(o: Outbox) {
    multiset(o.accepted) == multiset(o.sent) + multiset(o.pending) + multiset(o.dropped)
  }

  lemma FlushConserves(o: Outbox, fails: seq<bool>)
    requires Conserved(o)
    ensures Conserved(Flushed(o, fails))
  {
    FlushSplits(o.pending, fails, |o.pending|);
    assert o.pending[..|o.pending|] == o.pending;
    ReversedSame(Thrown(o.pending, fails));
  }

  lemma MovesConserve(o: Outbox, frame: Frame)
    requires Conserved(o)
    ensures Conserved(Queued(o, frame)) && Conserved(SentNow(o, frame)) && Conserved(Emptied(o))
  {}

  predicate NoRepeats(frames: seq<Frame>) {
    forall i, j :: 0 <= i < j < |frames| ==> frames[i] != frames[j]
  }

  lemma {:induction false} ThrownFromQueue(frames: seq<Frame>, fails: seq<bool>, n: nat)
    requires n <= |frames| && NoRepeats(frames)
    ensures NoRepeats(ThrownOf(frames, fails, n)) && forall f :: f in ThrownOf(frames, fails, n) ==> f in frames[..n]
  {
    if n > 0 {
      ThrownFromQueue(frames, fails, n - 1);
      var t := ThrownOf(frames, fails, n - 1);
      assert frames[n - 1] !in frames[..n - 1];
      assert forall i :: 0 <= i < |t| ==> t[i] in t;
    }
  }

  /** Frames that fail in one flush are retried in queue order exactly if at most one of them failed. */
  lemma FailedOrderIff(o: Outbox, fails: seq<bool>)
    ensures var failed := Thrown(o.pending, fails);
            (Flushed(o, fails).pending == failed <==>
              forall i :: 0 <= i < |failed| ==> failed[i] == failed[|failed| - 1 - i])
    ensures NoRepeats(o.pending) ==>
              (Flushed(o, fails).pending == Thrown(o.pending, fails) <==> |Thrown(o.pending, fails)| <= 1)
  {
    var failed := Thrown(o.pending, fails);
    if NoRepeats(o.pending) && |failed| > 1 {
      ThrownFromQueue(o.pending, fails, |o.pending|);
      assert failed[0] != failed[|failed| - 1];
    }
  }

  lemma {:induction false} ThrownUnlessNone(frames: seq<Frame>, fails: seq<bool>, n: nat)
    requires n <= |frames|
    ensures ThrownOf(frames, fails, n) == [] <==> forall i: nat :: i < n ==> !Throws(fails, i)
  {
    if n > 0 { ThrownUnlessNone(frames, fails, n - 1); }
  }

  /** The sends of all queued frames but the last one go through. */
  predicate OnlyLastThrows(queue: seq<Frame>, fails: seq<bool>) {
    forall i: nat :: i < |queue| - 1 ==> !Throws(fails, i)
  }

  /** What is sent, followed by what is pending, is as before the flush. */
  predicate FlushKeepsOrder(o: Outbox, fails: seq<bool>) {
    Flushed(o, fails).sent + Flushed(o, fails).pending == o.sent + o.pending
  }

  lemma LastMayThrow(o: Outbox, fails: seq<bool>)
    requires OnlyLastThrows(o.pending, fails)
    ensures FlushKeepsOrder(o, fails)
  {
    var queue, n := o.pending, |o.pending|;
    if n > 0 {
      FlushWithoutThrow(queue, fails, n - 1);
      var init, last := queue[..n - 1], queue[n - 1];
      assert queue == init + [last];
      if Throws(fails, n - 1) {
        assert Gone(queue, fails) == init && Reversed(Thrown(queue, fails)) == [last];
        ConcatAssoc(o.sent, init, [last]);
      } else {
        assert Gone(queue, fails) == queue && Reversed(Thrown(queue, fails)) == [];
      }
    }
  }

  /** A flush keeps the order of a queue without repeats exactly if no frame but the last one fails. */
  lemma FlushOrderIff(o: Outbox, fails: seq<bool>)
    requires NoRepeats(o.pending)
    ensures FlushKeepsOrder(o, fails) <==> OnlyLastThrows(o.pending, fails)
  {
    if OnlyLastThrows(o.pending, fails) {
      LastMayThrow(o, fails);
    } else {
      var queue, n := o.pending, |o.pending|;
      ThrownUnlessNone(queue, fails, n - 1);
      ThrownFromQueue(queue, fails, n - 1);
      var first := ThrownOf(queue, fails, n - 1)[0];
      var before, after := o.sent + queue, Flushed(o, fails).sent + Flushed(o, fails).pending;
      assert first in queue[..n - 1] && first != queue[n - 1];
      assert Thrown(queue, fails)[0] == first;
      assert after[|after| - 1] == first && before[|before| - 1] == queue[n - 1];
    }
  }

  // ---------------------------------------------------------------- the subscription handle

  /** What subscribeToConversation closes over; `made` lists the client of each subscribe call. */
  datatype Handle = Handle(active: bool, subscribed: bool, subscribedClient: Option<nat>, made: seq<nat>)

  /** The inner `subscribe`, which is also the connected listener. */
  function Subscribe(h: Handle, link: Link): Handle {
    if !h.active || !link.Up() then h
    else if h.subscribed && h.subscribedClient == Some(link.id) then h
    else Handle(true, true, Some(link.id), h.made + [link.id])
  }

  // ---------------------------------------------------------------- the whole client

  datatype State = State(
    hasToken: bool,
    link: Link,
    isConnecting: bool,
    timer: bool,
    nextId: nat,
    dialing: set<nat>,               // client objects whose connect callback has not run
    outbox: Outbox,
    listening: bool,                 // the handle's listener is registered
    handle: Option<Handle>)

  datatype Event =
    | Token(present: bool)
    | Send(frame: Frame, throws: bool)
    | Connect
    | Established(id: nat, fails: seq<bool>)
    | Lost(id: nat)
    | ErrorFrame                                        // a STOMP ERROR: the same callback, the link stays
    | Timer
    | Disconnect
    | OpenHandle
    | Cancel

  function Init(): State {
    State(false, NoClient, false, false, 0, {}, Outbox([], [], [], []), false, None)
  }

  function Disconnected(s: State): State {
    s.(timer := false, isConnecting := false, link := NoClient)
  }

  function Connected(s: State): State {
    if !s.hasToken then
      Disconnected(s.(outbox := Emptied(s.outbox)))
    else if s.link.Up() || s.isConnecting then s
    else s.(timer := false, isConnecting := true, link := Client(s.nextId, false), nextId := s.nextId + 1,
            dialing := s.dialing + {s.nextId})
  }

  /** What the error callback does, whether the client was lost or only sent an ERROR frame. */
  function ErrorCallback(s: State): State {
    if s.hasToken then s.(isConnecting := false, timer := true) else Disconnected(s)
  }

  function Listened(s: State): Option<Handle> {
    if s.listening && s.handle.Some? then Some(Subscribe(s.handle.value, s.link)) else s.handle
  }

  function Step(s: State, e: Event): State {
    match e
    case Token(present) => s.(hasToken := present)
    case Send(frame, throws) =>
      if !s.link.Up() then Connected(s.(outbox := Queued(s.outbox, frame)))
      else if throws then s
      else s.(outbox := SentNow(s.outbox, frame))
    case Connect => Connected(s)
    case Established(id, fails) =>
      if id !in s.dialing then s
      else
        var link := if s.link.Client? && s.link.id == id then Client(id, true) else s.link;
        var t := s.(dialing := s.dialing - {id}, isConnecting := false, link := link);
        if !link.Up() then t else t.(outbox := Flushed(s.outbox, fails), handle := Listened(t))
    case Lost(id) =>
      if id >= s.nextId then s
      else
        var link := if s.link.Client? && s.link.id == id then Client(id, false) else s.link;
        ErrorCallback(s.(dialing := s.dialing - {id}, link := link))
    case ErrorFrame => ErrorCallback(s)
    case Timer => if s.timer then Connected(s.(timer := false)) else s
    case Disconnect => Disconnected(s)
    case OpenHandle =>
      if s.handle.Some? then s
      else s.(listening := true, handle := Some(Subscribe(Handle(true, false, None, []), s.link)))
    case Cancel =>
      if s.handle.None? then s
      else s.(listening := false,
              handle := Some(s.handle.value.(active := false, subscribed := false, subscribedClient := None)))
  }

  function Run(events: seq<Event>): State {
    if events == [] then Init() else Step(Run(events[..|events| - 1]), events[|events| - 1])
  }

  class ChatService {
    var hasToken: bool
    var link: Link
    var isConnecting: bool
    var timer: bool
    var nextId: nat
    var dialing: set<nat>
    var pendingFrames: seq<Frame>
    var sent: seq<Frame>
    var dropped: seq<Frame>
    var accepted: seq<Frame>
    var listening: bool
    var handle: Option<Handle>

    ghost function View(): State
      reads this
    {
      State(hasToken, link, isConnecting, timer, nextId, dialing,
            Outbox(pendingFrames, sent, dropped, accepted), listening, handle)
    }

    constructor ()
      ensures View() == Init()
    {
      hasToken, link, isConnecting, timer, nextId, dialing := false, NoClient, false, false, 0, {};
      pendingFrames, sent, dropped, accepted, listening, handle := [], [], [], [], false, None;
    }

    /** Sends a copy of the queue; a frame whose send throws goes back to the front of the new queue. */
    method FlushPendingFrames(fails: seq<bool>)
      requires link.Up()
      modifies this`pendingFrames, this`sent
      ensures View() == old(View()).(outbox := Flushed(old(View()).outbox, fails))
    {
      var frames := pendingFrames;
      pendingFrames := [];
      for i := 0 to |frames|
        invariant pendingFrames == Reversed(ThrownOf(frames, fails, i))
        invariant sent == old(sent) + GoneOf(frames, fails, i)
      {
        FlushStep(old(sent), frames, fails, i);
        if Throws(fails, i) {
          pendingFrames := [frames[i]] + pendingFrames;
        } else {
          sent := sent + [frames[i]];
        }
      }
    }

    method CloseLink()
      modifies this`timer, this`isConnecting, this`link
      ensures View() == Disconnected(old(View()))
    {
      timer, isConnecting, link := false, false, NoClient;
    }

    method OpenLink()
      modifies this
      ensures View() == Connected(old(View()))
    {
      if !hasToken {
        dropped, pendingFrames := dropped + pendingFrames, [];
        CloseLink();
        return;
      }
      if link.Up() || isConnecting {
        return;
      }
      timer, isConnecting, link := false, true, Client(nextId, false);
      dialing, nextId := dialing + {nextId}, nextId + 1;
    }

    /** Returns false when the connected client's send throws, which reaches the caller. */
    method SendOrQueue(frame: Frame, throws: bool) returns (taken: bool)
      modifies this
      ensures View() == Step(old(View()), Send(frame, throws))
      ensures taken <==> accepted == old(accepted) + [frame]
    {
      if link.Up() {
        if throws {
          return false;
        }
        sent, accepted := sent + [frame], accepted + [frame];
        return true;
      }
      pendingFrames, accepted := pendingFrames + [frame], accepted + [frame];
      OpenLink();
      return true;
    }

    /** The connect callback of client object `id`. */
    method OnEstablished(id: nat, fails: seq<bool>)
      requires id in dialing
      modifies this
      ensures View() == Step(old(View()), Established(id, fails))
    {
      dialing, isConnecting := dialing - {id}, false;
      if link.Client? && link.id == id {
        link := Client(id, true);
      }
      if !link.Up() {
        return;
      }
      FlushPendingFrames(fails);
      if listening && handle.Some? {
        handle := Some(Subscribe(handle.value, link));
      }
    }

    /** The error callback: without a token the client is given up, otherwise a reconnect is scheduled. */
    method OnError()
      modifies this`isConnecting, this`timer, this`link
      ensures View() == Step(old(View()), ErrorFrame)
    {
      isConnecting := false;
      if !hasToken {
        CloseLink();
      } else {
        timer := true;
      }
    }

    /** Client object `id` could not connect or lost its connection: it is down when the callback runs. */
    method OnLost(id: nat)
      requires id < nextId
      modifies this
      ensures View() == Step(old(View()), Lost(id))
    {
      dialing := dialing - {id};
      if link.Client? && link.id == id {
        link := Client(id, false);
      }
      OnError();
    }

    method SubscribeToConversation()
      requires handle.None?
      modifies this`listening, this`handle
      ensures View() == Step(old(View()), OpenHandle)
    {
      listening := true;
      handle := Some(Subscribe(Handle(true, false, None, []), link));   // addConnectedListener, if connected
      handle := Some(Subscribe(handle.value, link));                    // and once more
    }

    method CancelSubscription()
      requires handle.Some?
      modifies this`listening, this`handle
      ensures View() == Step(old(View()), Cancel)
    {
      listening := false;
      handle := Some(handle.value.(active := false, subscribed := false, subscribedClient := None));
    }
  }

  // ---------------------------------------------------------------- every run: the outbox

  /** The four things a step can do to the outbox. */
  lemma StepOutbox(s: State, e: Event)
    ensures var o, o' := s.outbox, Step(s, e).outbox;
            || o' == o
            || o' == Emptied(o)
            || (e.Send? && s.link.Up() && o' == SentNow(o, e.frame))
            || (e.Send? && !s.link.Up() && (o' == Queued(o, e.frame) || o' == Emptied(Queued(o, e.frame))))
            || (e.Established? && o' == Flushed(o, e.fails))
  {}

  lemma {:induction false} EveryRunConserves(events: seq<Event>)
    ensures Conserved(Run(events).outbox)
  {
    if events != [] {
      var init, e := events[..|events| - 1], events[|events| - 1];
      EveryRunConserves(init);
      StepOutbox(Run(init), e);
      var frame := if e.Send? then e.frame else Frame("", "");
      MovesConserve(Run(init).outbox, frame);
      MovesConserve(Queued(Run(init).outbox, frame), frame);
      if e.Established? { FlushConserves(Run(init).outbox, e.fails); }
    }
  }

  /** An event that finds a queue, or brings a frame to it, while there is no token to connect with. */
  predicate DropsAt(s: State, e: Event) {
    && !s.hasToken
    && (|| (e.Send? && !s.link.Up())
        || (s.outbox.pending != [] && (e.Connect? || (e.Timer? && s.timer))))
  }

  /** A connect callback that finds the current client up. */
  predicate FlushesAt(s: State, e: Event) {
    && e.Established? && e.id in s.dialing
    && ((s.link.Client? && s.link.id == e.id) || s.link.Up())
  }

  /** A flush in which the send of some queued frame throws. */
  predicate ThrowsAt(s: State, e: Event) {
    FlushesAt(s, e) && exists i :: 0 <= i < |s.outbox.pending| && Throws(e.fails, i)
  }

  /** A flush in which a frame before the last one fails, or a send that passes a queue left by such a flush. */
  predicate OvertakesAt(s: State, e: Event) {
    || (FlushesAt(s, e) && !OnlyLastThrows(s.outbox.pending, e.fails))
    || (e.Send? && s.link.Up() && !e.throws && s.outbox.pending != [])
  }

  lemma DropsIff(s: State, e: Event)
    ensures Step(s, e).outbox.dropped == s.outbox.dropped <==> !DropsAt(s, e)
    ensures s.outbox.dropped <= Step(s, e).outbox.dropped
  {
    EmptiedIff(s.outbox);
    if e.Send? { EmptiedIff(Queued(s.outbox, e.frame)); }
  }

  lemma EmptiedIff(o: Outbox)
    ensures Emptied(o).dropped == o.dropped <==> o.pending == []
  {
    assert |Emptied(o).dropped| == |o.dropped| + |o.pending|;
  }

  /** No event of the run comes upon a state in which it drops, or throws. */
  predicate NeverDrops(events: seq<Event>) {
    events == [] || (
      var init := events[..|events| - 1];
      NeverDrops(init) && !DropsAt(Run(init), events[|events| - 1]))
  }

  predicate NeverThrows(events: seq<Event>) {
    events == [] || (
      var init := events[..|events| - 1];
      NeverThrows(init) && !ThrowsAt(Run(init), events[|events| - 1]))
  }

  /** Frames are dropped on a run exactly if one of its events finds them without a token. */
  lemma {:induction false} RunDropsIff(events: seq<Event>)
    ensures Run(events).outbox.dropped == [] <==> NeverDrops(events)
  {
    if events != [] {
      var init, e := events[..|events| - 1], events[|events| - 1];
      RunDropsIff(init);
      DropsIff(Run(init), e);
    }
  }

  /** The frames are where they were taken on: first those sent, then those pending. */
  predicate Ordered(o: Outbox) {
    o.accepted == o.sent + o.pending
  }

  predicate InOrder(o: Outbox, up: bool) {
    Ordered(o) && (up ==> o.pending == [])
  }

  lemma MovesKeepOrder(o: Outbox, frame: Frame, up: bool)
    requires InOrder(o, up)
    ensures up ==> InOrder(SentNow(o, frame), true)
    ensures !up ==> InOrder(Queued(o, frame), false)
    ensures Emptied(o).dropped == o.dropped ==> Emptied(o) == o
  {
    ConcatAssoc(o.sent, o.pending, [frame]);
    if Emptied(o).dropped == o.dropped { assert |o.pending| == 0; }
  }

  lemma StepKeepsOrder(s: State, e: Event)
    requires InOrder(s.outbox, s.link.Up()) && !DropsAt(s, e) && !ThrowsAt(s, e)
    ensures InOrder(Step(s, e).outbox, Step(s, e).link.Up())
  {
    DropsIff(s, e);
    var frame := if e.Send? then e.frame else Frame("", "");
    MovesKeepOrder(s.outbox, frame, s.link.Up());
    if e.Established? && Step(s, e).outbox != s.outbox {
      var queue := s.outbox.pending;
      FlushWithoutThrow(queue, e.fails, |queue|);
      assert queue[..|queue|] == queue;
    }
    if e.Send? && !s.link.Up() { MovesKeepOrder(Queued(s.outbox, frame), frame, false); }
  }

  /** As long as no send of a flush throws and no token is missing, frames leave in the order they were taken on. */
  lemma {:induction false} QueueOrder(events: seq<Event>)
    requires NeverDrops(events) && NeverThrows(events)
    ensures InOrder(Run(events).outbox, Run(events).link.Up())
  {
    if events != [] {
      var init, e := events[..|events| - 1], events[|events| - 1];
      QueueOrder(init);
      StepKeepsOrder(Run(init), e);
    }
  }

  /** The frames are in order after every prefix of the run. */
  predicate AlwaysOrdered(events: seq<Event>) {
    Ordered(Run(events).outbox) && (events != [] ==> AlwaysOrdered(events[..|events| - 1]))
  }

  /** No event of the run drops frames or lets one overtake another. */
  predicate NeverDisturbed(events: seq<Event>) {
    events == [] || (
      var init, e := events[..|events| - 1], events[|events| - 1];
      NeverDisturbed(init) && !DropsAt(Run(init), e) && !OvertakesAt(Run(init), e))
  }

  lemma SendOrder(o: Outbox, frame: Frame)
    requires Ordered(o)
    ensures Ordered(Queued(o, frame))
    ensures o.pending == [] ==> Ordered(SentNow(o, frame))
    ensures o.pending != [] && Ordered(SentNow(o, frame)) ==> !NoRepeats(SentNow(o, frame).accepted)
    ensures Ordered(Emptied(o)) <==> o.pending == []
  {
    ConcatAssoc(o.sent, o.pending, [frame]);
    var o' := SentNow(o, frame);
    if o.pending != [] && Ordered(o') {
      var n := |o.sent|;
      assert o'.accepted[n] == frame && o'.accepted[|o'.accepted| - 1] == frame;
    }
    if o.pending != [] { assert |o.accepted| > |o.sent|; }
  }

  lemma SuffixNoRepeats(a: seq<Frame>, b: seq<Frame>)
    requires NoRepeats(a + b)
    ensures NoRepeats(a) && NoRepeats(b)
  {
    var all := a + b;
    assert forall i :: 0 <= i < |a| ==> all[i] == a[i];
    assert forall i :: 0 <= i < |b| ==> all[|a| + i] == b[i];
  }

  lemma FlushOrdered(o: Outbox, fails: seq<bool>)
    requires Ordered(o)
    ensures OnlyLastThrows(o.pending, fails) ==> Ordered(Flushed(o, fails))
    ensures NoRepeats(o.accepted) && Ordered(Flushed(o, fails)) ==> OnlyLastThrows(o.pending, fails)
  {
    if OnlyLastThrows(o.pending, fails) { LastMayThrow(o, fails); }
    if NoRepeats(o.accepted) {
      SuffixNoRepeats(o.sent, o.pending);
      FlushOrderIff(o, fails);
    }
  }

  /** One event keeps the order exactly if it neither drops nor overtakes; equal frames cannot be told apart. */
  lemma StepOrderIff(s: State, e: Event)
    requires Ordered(s.outbox)
    ensures !DropsAt(s, e) && !OvertakesAt(s, e) ==> Ordered(Step(s, e).outbox)
    ensures NoRepeats(Step(s, e).outbox.accepted) && Ordered(Step(s, e).outbox) ==>
              !DropsAt(s, e) && !OvertakesAt(s, e)
  {
    var frame := if e.Send? then e.frame else Frame("", "");
    SendOrder(s.outbox, frame);
    SendOrder(Queued(s.outbox, frame), frame);
    if e.Established? { FlushOrdered(s.outbox, e.fails); }
  }

  /**
   * Frames leave in the order they were taken on, throughout a run of different frames, exactly if no
   * event of the run drops frames or lets one overtake another.
   */
  lemma {:induction false} QueueOrderIff(events: seq<Event>)
    ensures NeverDisturbed(events) ==> AlwaysOrdered(events)
    ensures NoRepeats(Run(events).outbox.accepted) ==> (NeverDisturbed(events) <==> AlwaysOrdered(events))
  {
    if events != [] {
      var init, e := events[..|events| - 1], events[|events| - 1];
      QueueOrderIff(init);
      if Ordered(Run(init).outbox) { StepOrderIff(Run(init), e); }
      AcceptedGrows(Run(init), e);
    }
  }

  lemma AcceptedGrows(s: State, e: Event)
    ensures NoRepeats(Step(s, e).outbox.accepted) ==> NoRepeats(s.outbox.accepted)
  {
    StepOutbox(s, e);
    if e.Send? && NoRepeats(s.outbox.accepted + [e.frame]) {
      SuffixNoRepeats(s.outbox.accepted, [e.frame]);
    }
  }

  // ---------------------------------------------------------------- every run: the handle

  predicate LinkSound(s: State) {
    && (s.link.Client? ==> s.link.id < s.nextId)
    && (forall id :: id in s.dialing ==> id < s.nextId)
  }

  /** Clients are subscribed to in the order they were created, each at most once, the latest one last. */
  predicate HandleSound(h: Handle, link: Link, nextId: nat) {
    && (forall i, j :: 0 <= i < j < |h.made| ==> h.made[i] < h.made[j])
    && (forall i :: 0 <= i < |h.made| ==> h.made[i] < nextId && (link.Client? ==> h.made[i] <= link.id))
    && (h.subscribed ==> h.made != [] && h.subscribedClient == Some(h.made[|h.made| - 1]))
    && (h.active && h.made != [] ==> h.subscribed)
    && (!h.active ==> !h.subscribed && h.subscribedClient == None)
    && (h.active && link.Up() ==> h.subscribed && h.subscribedClient == Some(link.id))
  }

  predicate Sound(s: State) {
    && LinkSound(s)
    && (s.handle.None? ==> !s.listening)
    && (s.handle.Some? ==> (s.listening <==> s.handle.value.active) && HandleSound(s.handle.value, s.link, s.nextId))
  }

  /** Running the listener on a link that just came up restores the invariant. */
  lemma SubscribeSound(h: Handle, link: Link, nextId: nat)
    requires link.Up() && link.id < nextId
    requires HandleSound(h, Client(link.id, false), nextId)
    ensures HandleSound(Subscribe(h, link), link, nextId)
    ensures Subscribe(h, link).active == h.active
  {}

  /** A link that is not up asks nothing of the handle, if it is not older than the subscriptions made. */
  lemma DownSound(h: Handle, link: Link, link': Link, nextId: nat, nextId': nat)
    requires HandleSound(h, link, nextId) && !link'.Up() && nextId <= nextId'
    requires link'.Client? ==> (link.Client? && link.id == link'.id) || link'.id >= nextId
    ensures HandleSound(h, link', nextId')
  {}

  lemma ConnectedSound(s: State)
    requires Sound(s)
    ensures Sound(Connected(s)) && Sound(Disconnected(s))
  {
    if s.handle.Some? {
      DownSound(s.handle.value, s.link, NoClient, s.nextId, s.nextId);
      DownSound(s.handle.value, s.link, Client(s.nextId, false), s.nextId, s.nextId + 1);
    }
  }

  lemma EstablishedSound(s: State, e: Event)
    requires Sound(s) && e.Established?
    ensures Sound(Step(s, e))
  {
    var link := if s.link.Client? && s.link.id == e.id then Client(e.id, true) else s.link;
    if s.handle.Some? && link.Up() {
      DownSound(s.handle.value, s.link, Client(link.id, false), s.nextId, s.nextId);
      SubscribeSound(s.handle.value, link, s.nextId);
    }
  }

  lemma ErrorSound(s: State)
    requires Sound(s)
    ensures Sound(ErrorCallback(s))
  {
    if s.handle.Some? { DownSound(s.handle.value, s.link, NoClient, s.nextId, s.nextId); }
  }

  lemma LostSound(s: State, e: Event)
    requires Sound(s) && (e.Lost? || e.ErrorFrame?)
    ensures Sound(Step(s, e))
  {
    if e.ErrorFrame? {
      ErrorSound(s);
    } else {
      var link := if s.link.Client? && s.link.id == e.id then Client(e.id, false) else s.link;
      if s.handle.Some? && link != s.link { DownSound(s.handle.value, s.link, link, s.nextId, s.nextId); }
      ErrorSound(s.(dialing := s.dialing - {e.id}, link := link));
    }
  }

  /** The events that end in a connect or a disconnect. */
  lemma LinkEventSound(s: State, e: Event)
    requires Sound(s) && (e.Send? || e.Timer? || e.Connect? || e.Disconnect?)
    ensures Sound(Step(s, e))
  {
    match e
    case Send(frame, throws) => ConnectedSound(s.(outbox := Queued(s.outbox, frame)));
    case Timer => ConnectedSound(s.(timer := false));
    case _ => ConnectedSound(s);
  }

  lemma HandleEventSound(s: State, e: Event)
    requires Sound(s) && (e.OpenHandle? || e.Cancel? || e.Token?)
    ensures Sound(Step(s, e))
  {
    if e.OpenHandle? && s.link.Up() { SubscribeSound(Handle(true, false, None, []), s.link, s.nextId); }
  }

  lemma StepSound(s: State, e: Event)
    requires Sound(s)
    ensures Sound(Step(s, e))
  {
    if e.Established? {
      EstablishedSound(s, e);
    } else if e.Lost? || e.ErrorFrame? {
      LostSound(s, e);
    } else if e.Send? || e.Timer? || e.Connect? || e.Disconnect? {
      LinkEventSound(s, e);
    } else {
      HandleEventSound(s, e);
    }
  }

  lemma {:induction false} EveryRunSound(events: seq<Event>)
    ensures Sound(Run(events))
  {
    if events != [] {
      EveryRunSound(events[..|events| - 1]);
      StepSound(Run(events[..|events| - 1]), events[|events| - 1]);
    }
  }

  /** At most one subscription per client object, and one in place whenever the handle is active and the link up. */
  lemma OneSubscriptionEach(events: seq<Event>)
    requires Run(events).handle.Some?
    ensures var s, h := Run(events), Run(events).handle.value;
            && (forall i, j :: 0 <= i < j < |h.made| ==> h.made[i] != h.made[j])
            && (h.active && s.link.Up() ==> h.subscribed && h.made != [] && h.made[|h.made| - 1] == s.link.id)
  {
    EveryRunSound(events);
  }

  /** After cancel nothing about the handle changes any more, whatever connects later. */
  lemma {:induction false} CancelledStays(events: seq<Event>, more: seq<Event>)
    requires Run(events).handle.Some? && !Run(events).handle.value.active
    ensures Run(events + more).handle == Run(events).handle
    decreases |more|
  {
    if more == [] {
      assert events + more == events;
    } else {
      var init := more[..|more| - 1];
      CancelledStays(events, init);
      assert (events + more)[..|events + more| - 1] == events + init;
      EveryRunSound(events + init);
      StepInactive(Run(events + init), more[|more| - 1]);
    }
  }

  lemma StepInactive(s: State, e: Event)
    requires Sound(s) && s.handle.Some? && !s.handle.value.active
    ensures Step(s, e).handle == s.handle
  {}

  /** Whether the handle is active: from the first OpenHandle to the first Cancel after it. */
  predicate ActiveAfter(events: seq<Event>) {
    events != [] &&
      var init := events[..|events| - 1];
      match events[|events| - 1]
      case OpenHandle => OpenHandle !in init || ActiveAfter(init)
      case Cancel => false
      case _ => ActiveAfter(init)
  }

  /** One event on a handle: opened, cancelled, and subscribed when active on a link not met before. */
  function HandleNext(h: Option<Handle>, e: Event, link: Link): Option<Handle> {
    var base :=
      if e.OpenHandle? && h.None? then Some(Handle(true, false, None, []))
      else if e.Cancel? && h.Some? then Some(Handle(false, false, None, h.value.made))
      else h;
    if base.Some? && base.value.active && link.Up()
       && (base.value.made == [] || base.value.made[|base.value.made| - 1] != link.id)
    then Some(Handle(true, true, Some(link.id), base.value.made + [link.id]))
    else base
  }

  lemma HandleEstablished(s: State, e: Event)
    requires Sound(s) && e.Established?
    ensures Step(s, e).handle == HandleNext(s.handle, e, Step(s, e).link)
  {
    StepSound(s, e);
  }

  lemma HandleOther(s: State, e: Event)
    requires Sound(s) && !e.Established?
    ensures Step(s, e).handle == HandleNext(s.handle, e, Step(s, e).link)
  {
    StepSound(s, e);
  }

  /** The handle that the history of events and links calls for: no flag of a listener, no callback. */
  function HandleFor(events: seq<Event>): Option<Handle> {
    if events == [] then None
    else HandleNext(HandleFor(events[..|events| - 1]), events[|events| - 1], Run(events).link)
  }

  /** On every run the handle is the one its history calls for. */
  lemma {:induction false} HandleIsHistory(events: seq<Event>)
    ensures Run(events).handle == HandleFor(events)
  {
    if events != [] {
      var s, e := Run(events[..|events| - 1]), events[|events| - 1];
      HandleIsHistory(events[..|events| - 1]);
      EveryRunSound(events[..|events| - 1]);
      if e.Established? { HandleEstablished(s, e); } else { HandleOther(s, e); }
    }
  }

  /** On every run there is a handle once one was opened, and it is active until it is cancelled. */
  lemma {:induction false} ActiveIsHistory(events: seq<Event>)
    ensures HandleFor(events).Some? <==> OpenHandle in events
    ensures HandleFor(events).Some? ==> (HandleFor(events).value.active <==> ActiveAfter(events))
    ensures OpenHandle !in events ==> !ActiveAfter(events)
  {
    if events != [] {
      var init := events[..|events| - 1];
      assert events == init + [events[|events| - 1]];
      ActiveIsHistory(init);
      ActiveNext(HandleFor(init), events[|events| - 1], Run(events).link);
    }
  }

  lemma ActiveNext(h: Option<Handle>, e: Event, link: Link)
    ensures HandleNext(h, e, link).Some? <==> h.Some? || e.OpenHandle?
    ensures HandleNext(h, e, link).Some? ==>
              (HandleNext(h, e, link).value.active <==> (h.None? || h.value.active) && !e.Cancel?)
  {}

  /** Cancel ends the handle for good: whatever follows, it keeps the subscriptions made so far and makes no other. */
  lemma CancelEnds(events: seq<Event>, more: seq<Event>)
    requires Run(events).handle.Some?
    ensures Run(events + [Cancel] + more).handle
         == Some(Handle(false, false, None, Run(events).handle.value.made))
  {
    var cancelled := events + [Cancel];
    assert cancelled[..|events|] == events;
    HandleIsHistory(events);
    HandleIsHistory(cancelled);
    CancelledStays(cancelled, more);
  }

  /** A handle that was opened is active, and stays so until the first Cancel. */
  lemma {:induction false} OpenedStaysActive(events: seq<Event>, more: seq<Event>)
    requires Run(events).handle.None? && Cancel !in more
    ensures ActiveAfter(events + [OpenHandle] + more)
    ensures Run(events + [OpenHandle] + more).handle.Some? && Run(events + [OpenHandle] + more).handle.value.active
    decreases |more|
  {
    var begun := events + [OpenHandle];
    var all := begun + more;
    HandleIsHistory(events);
    ActiveIsHistory(events);
    if more == [] {
      assert all == begun && all[..|events|] == events;
    } else {
      var init := more[..|more| - 1];
      assert more == init + [more[|more| - 1]];
      assert all[..|all| - 1] == begun + init;
      OpenedStaysActive(events, init);
    }
    HandleIsHistory(all);
    ActiveIsHistory(all);
    assert all[|events|] == OpenHandle;
  }

  // ---------------------------------------------------------------- every run: what was taken on

  /** The frames of the Send events, but for those whose send on a live link threw. */
  function TakenOn(events: seq<Event>): seq<Frame> {
    if events == [] then []
    else
      var init, e := events[..|events| - 1], events[|events| - 1];
      if e.Send? && !(e.throws && Run(init).link.Up()) then TakenOn(init) + [e.frame] else TakenOn(init)
  }

  lemma {:induction false} AcceptedIsTakenOn(events: seq<Event>)
    ensures Run(events).outbox.accepted == TakenOn(events)
  {
    if events != [] {
      AcceptedIsTakenOn(events[..|events| - 1]);
      AcceptedStep(Run(events[..|events| - 1]), events[|events| - 1]);
    }
  }

  lemma AcceptedStep(s: State, e: Event)
    ensures Step(s, e).outbox.accepted
         == if e.Send? && !(e.throws && s.link.Up()) then s.outbox.accepted + [e.frame] else s.outbox.accepted
  {}

  // ---------------------------------------------------------------- the link

  /** An event that asks for a connection. */
  predicate Wants(s: State, e: Event) {
    e.Connect? || (e.Timer? && s.timer) || (e.Send? && !s.link.Up())
  }

  /** An event that reports an error of a client. */
  predicate Complains(s: State, e: Event) {
    e.ErrorFrame? || (e.Lost? && e.id < s.nextId)
  }

  /** The connect callback of the client in use. */
  predicate Answers(s: State, e: Event) {
    e.Established? && e.id in s.dialing && s.link.Client? && s.link.id == e.id
  }

  predicate Dials(s: State, e: Event) {
    Wants(s, e) && s.hasToken && !s.link.Up() && !s.isConnecting
  }

  predicate GivesUp(s: State, e: Event) {
    e.Disconnect? || (!s.hasToken && (Wants(s, e) || Complains(s, e)))
  }

  /**
   * What every event does to the link. A new client is dialed exactly when a connection is wanted, there
   * is a token, and no client is up or dialing; the client in use comes up with its connect callback, goes
   * down with its loss, and is given up on disconnect, or without a token when one is wanted or complains.
   */
  lemma LinkLaw(s: State, e: Event)
    ensures Step(s, e).link
         == if Dials(s, e) then Client(s.nextId, false)
            else if GivesUp(s, e) then NoClient
            else if Answers(s, e) then Client(e.id, true)
            else if e.Lost? && e.id < s.nextId && s.link.Client? && s.link.id == e.id then Client(e.id, false)
            else s.link
    ensures Step(s, e).nextId == s.nextId + if Dials(s, e) then 1 else 0
    ensures Step(s, e).hasToken == if e.Token? then e.present else s.hasToken
    ensures Step(s, e).isConnecting <==>
              || Dials(s, e)
              || (s.isConnecting && !GivesUp(s, e) && !Complains(s, e) && !(e.Established? && e.id in s.dialing))
    ensures Step(s, e).timer <==>
              || (Complains(s, e) && s.hasToken)
              || (s.timer && !Dials(s, e) && !GivesUp(s, e) && !e.Timer?)
    ensures forall id :: id in Step(s, e).dialing <==>
              || (Dials(s, e) && id == s.nextId)
              || (id in s.dialing && !(e.Established? && e.id == id) && !(e.Lost? && e.id == id && id < s.nextId))
  {}

  predicate LatestToken(events: seq<Event>) {
    events != [] &&
      if events[|events| - 1].Token? then events[|events| - 1].present else LatestToken(events[..|events| - 1])
  }

  /** How many clients have been dialed. */
  function Dialed(events: seq<Event>): nat {
    if events == [] then 0
    else
      var init := events[..|events| - 1];
      Dialed(init) + if Dials(Run(init), events[|events| - 1]) then 1 else 0
  }

  predicate Complained(events: seq<Event>) {
    exists i :: 0 <= i < |events| && (events[i].Lost? || events[i].ErrorFrame?)
  }

  /**
   * On every run: the token is the latest one seen, clients are numbered as they are dialed, whoever is
   * connecting is dialing its own client, and the timer runs only after an error.
   */
  lemma {:induction false} LinkHistory(events: seq<Event>)
    ensures var s := Run(events);
            && s.hasToken == LatestToken(events) && s.nextId == Dialed(events)
            && (s.isConnecting ==> s.link.Client? && !s.link.connected && s.link.id in s.dialing)
            && (s.timer ==> Complained(events))
  {
    if events != [] {
      var init, e := events[..|events| - 1], events[|events| - 1];
      LinkHistory(init);
      EveryRunSound(init);
      LinkLaw(Run(init), e);
      assert forall i :: 0 <= i < |init| ==> events[i] == init[i];
    }
  }

  /** A lost client is replaced: the reconnect timer dials a new one, and when that connects nothing is pending. */
  lemma LossIsRepaired(events: seq<Event>)
    requires Run(events).hasToken && Run(events).link.Client?
    ensures var id := Run(events).link.id;
            var s := Run(events + [Lost(id)] + [Timer]);
            && s.link == Client(Run(events).nextId, false) && s.link.id in s.dialing && s.isConnecting
            && var t := Run(events + [Lost(id)] + [Timer] + [Established(s.link.id, [])]);
               && t.link == Client(s.link.id, true) && t.outbox.pending == [] && !t.isConnecting
               && (t.handle.Some? && t.handle.value.active ==> t.handle.value.subscribedClient == Some(s.link.id))
  {
    var lost := Lost(Run(events).link.id);
    var two := events + [lost] + [Timer];
    var k := Run(events).nextId;
    EveryRunSound(events);
    assert (events + [lost])[..|events|] == events && two[..|events| + 1] == events + [lost];
    var last := two + [Established(k, [])];
    assert last[..|two|] == two;
    var queue := Run(two).outbox.pending;
    FlushWithoutThrow(queue, [], |queue|);
    EveryRunSound(last);
  }
}
