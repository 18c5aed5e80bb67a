/** Chat delivery: topic broadcast, private queues and multi-tab copies, read through the session tables. */
module Delivery {
  import opened Common
  import opened SessionRegistry
  import Text

  /** Topic frames carry the id of the subscription they answer; queue frames do not. */
  datatype Tag = Subscription(id: string) | Untagged

  datatype Write = Write(conn: nat, command: string, destination: string, tag: Tag)

  /** The two ways a queue subscription is matched: by name, or as any `/user/queue/` destination. */
  datatype Filter = Exactly(destination: string) | Under(prefix: string) {
    predicate Matches(d: string) {
      match this case Exactly(destination) => d == destination case Under(prefix) => prefix <= d
    }
  }

  const MESSAGES := "/user/queue/messages"
  const QUEUES := "/user/queue/"
  const MAX_CONTENT_LENGTH := 5000

  // ---------------------------------------------------------------- conversation ids

  predicate LexLeq(a: string, b: string) {
    a == "" || (b != "" && (a[0] < b[0] || (a[0] == b[0] && LexLeq(a[1..], b[1..]))))
  }

  /** [a, b].sort(). */
  function Sorted(a: string, b: string): (string, string) {
    if LexLeq(a, b) then (a, b) else (b, a)
  }

  function BuildConversationId(a: string, b: string): string {
    Sorted(a, b).0 + ":" + Sorted(a, b).1
  }

  /** What `<` on strings compares: the first place where they differ, or else the lengths. */
  lemma {:induction false} LexMeaning(a: string, b: string)
    ensures LexLeq(a, b) <==>
              a <= b || exists i :: 0 <= i < |a| && i < |b| && a[..i] == b[..i] && a[i] < b[i]
  {
    if a != "" && b != "" {
      if a[0] == b[0] {
        LexMeaning(a[1..], b[1..]);
        LexTails(a, b);
      } else {
        assert a[..0] == b[..0];
        assert forall i :: 0 < i < |a| && i < |b| ==> a[..i][0] == a[0] && b[..i][0] == b[0];
      }
    }
  }

  lemma LexTails(a: string, b: string)
    requires a != "" && b != "" && a[0] == b[0]
    ensures a <= b <==> a[1..] <= b[1..]
    ensures (exists i :: 0 <= i < |a| && i < |b| && a[..i] == b[..i] && a[i] < b[i])
       <==> exists i :: 0 <= i < |a[1..]| && i < |b[1..]| && a[1..][..i] == b[1..][..i] && a[1..][i] < b[1..][i]
  {
    var x, y := a[1..], b[1..];
    assert a == [a[0]] + x && b == [a[0]] + y;
    forall i: nat | i < |x| && i < |y| && x[..i] == y[..i] && x[i] < y[i]
      ensures a[..i + 1] == b[..i + 1] && a[i + 1] < b[i + 1]
    {
      assert a[..i + 1] == [a[0]] + x[..i] && b[..i + 1] == [a[0]] + y[..i];
    }
    forall i: nat | i < |a| && i < |b| && a[..i] == b[..i] && a[i] < b[i]
      ensures i > 0 && x[..i - 1] == y[..i - 1] && x[i - 1] < y[i - 1]
    {
      assert x[..i - 1] == a[..i][1..] && y[..i - 1] == b[..i][1..];
    }
  }

  lemma {:induction false} LexTotal(a: string, b: string)
    ensures LexLeq(a, b) || LexLeq(b, a)
    ensures LexLeq(a, b) && LexLeq(b, a) ==> a == b
  {
    if a != "" && b != "" && a[0] == b[0] {
      LexTotal(a[1..], b[1..]);
      assert a == [a[0]] + a[1..] && b == [b[0]] + b[1..];
    }
  }

  /** The smaller id first, whichever way round they are given. */
  lemma ConversationInOrder(a: string, b: string)
    requires LexLeq(a, b)
    ensures BuildConversationId(a, b) == a + ":" + b && BuildConversationId(b, a) == a + ":" + b
  {
    LexTotal(a, b);
  }

  /** The two pairs cut one text at different colons. */
  ghost predicate Overlap(p: string, q: string, x: string, y: string) {
    exists m :: x == p + ":" + m && q == m + ":" + y
  }

  lemma SameJoin(p: string, q: string, x: string, y: string)
    requires p + ":" + q == x + ":" + y && |p| <= |x|
    ensures (p == x && q == y) || Overlap(p, q, x, y)
  {
    var s, t := p + ":" + q, x + ":" + y;
    assert p == s[..|p|] && q == s[|p| + 1..] && x == t[..|x|] && y == t[|x| + 1..];
    if |p| < |x| {
      var m := x[|p| + 1..];
      assert x[|p|] == s[|p|] == ':';
      assert x == p + ":" + m && q == m + ":" + y;
    }
  }

  lemma OverlapJoins(p: string, q: string, x: string, y: string)
    requires Overlap(p, q, x, y)
    ensures p + ":" + q == x + ":" + y
    ensures ':' in x && ':' in q
  {
    var m :| x == p + ":" + m && q == m + ":" + y;
    assert p + ":" + (m + ":" + y) == p + ":" + m + ":" + y;
    assert x[|p|] == ':' && q[|m|] == ':';
  }

  /** Exactly when two pairs share a conversation: the same pair, or ids with colons that overlap. */
  lemma ConversationSharedIff(a: string, b: string, c: string, d: string)
    ensures var (p, q) := Sorted(a, b);
            var (x, y) := Sorted(c, d);
            (BuildConversationId(a, b) == BuildConversationId(c, d) <==>
              (p == x && q == y) || Overlap(p, q, x, y) || Overlap(x, y, p, q))
  {
    var (p, q) := Sorted(a, b);
    var (x, y) := Sorted(c, d);
    if p + ":" + q == x + ":" + y {
      if |p| <= |x| { SameJoin(p, q, x, y); } else { SameJoin(x, y, p, q); }
    }
    if Overlap(p, q, x, y) { OverlapJoins(p, q, x, y); }
    if Overlap(x, y, p, q) { OverlapJoins(x, y, p, q); }
  }

  /** For ids without a colon, two pairs share a conversation exactly when they are the same pair. */
  lemma ConversationIsPair(a: string, b: string, c: string, d: string)
    requires ':' !in a && ':' !in b && ':' !in c && ':' !in d
    ensures BuildConversationId(a, b) == BuildConversationId(c, d) <==> (a == c && b == d) || (a == d && b == c)
    ensures BuildConversationId(a, b) == BuildConversationId(b, a)
  {
    LexTotal(a, b);
    LexTotal(c, d);
    ConversationSharedIff(a, b, c, d);
    var (p, q) := Sorted(a, b);
    var (x, y) := Sorted(c, d);
    if Overlap(p, q, x, y) { OverlapJoins(p, q, x, y); }
    if Overlap(x, y, p, q) { OverlapJoins(x, y, p, q); }
  }

  // ---------------------------------------------------------------- how many copies of a frame

  predicate Live(r: Registry, c: nat) {
    c in r.sessions && r.sessions[c].readyState == OPEN
  }

  /** One copy per matching topic subscription of each authenticated open connection. */
  function TopicCopies(r: Registry, topic: string, except: Option<nat>, w: Write): nat {
    if && Live(r, w.conn) && r.sessions[w.conn].authenticated && Some(w.conn) != except
       && w.command == "MESSAGE" && w.destination == topic
       && w.tag.Subscription? && w.tag.id in r.sessions[w.conn].IdsFor(topic)
    then 1 else 0
  }

  /** A frame of the kind that a queue subscription of connection c is answered with. */
  predicate Queued(r: Registry, c: nat, f: Filter, w: Write) {
    w.conn == c && Live(r, c) && w.command == "MESSAGE" && f.Matches(w.destination) && w.tag.Untagged?
  }

  /** As many copies as the connection has subscriptions with this destination. */
  function QueueCopies(r: Registry, f: Filter, w: Write): nat {
    if Queued(r, w.conn, f, w) then |r.sessions[w.conn].IdsFor(w.destination)| else 0
  }

  /** What a notification for a user puts on the wire, through the index. */
  function NotificationCopies(r: Registry, u: string, w: Write): nat {
    if r.Indexed(u, w.conn) then QueueCopies(r, Under(QUEUES), w) else 0
  }

  /** A message on its way through the database. */
  datatype Job = Job(
    conn: nat, sender: string, recipient: string, conversation: string, content: string, receipt: string)
  {
    function Topic(): string { "/topic/chat/" + conversation }
  }

  function ReceiptCopies(r: Registry, job: Job, w: Write): nat {
    if Live(r, job.conn) && job.receipt != "" && w == Write(job.conn, "RECEIPT", "", Untagged) then 1 else 0
  }

  /** What one stored message puts on the wire, through the index. */
  function ChatCopies(r: Registry, job: Job, w: Write): nat {
    TopicCopies(r, job.Topic(), None, w)
    + (if r.Indexed(job.recipient, w.conn) then QueueCopies(r, Exactly(MESSAGES), w) else 0)
    + (if r.Indexed(job.sender, w.conn) && w.conn != job.conn then QueueCopies(r, Exactly(MESSAGES), w) else 0)
    + ReceiptCopies(r, job, w)
  }

  datatype ChatBody =
    | Malformed
    | ChatBody(recipientId: string, content: Option<string>, conversationId: string)

  /** A body that JSON.parse accepts, with a recipient and a content of 1 to 5000 characters, not all blank. */
  predicate Deliverable(body: ChatBody) {
    && body.ChatBody? && body.content.Some? && |body.content.value| <= MAX_CONTENT_LENGTH
    && body.recipientId != "" && !Text.IsBlank(body.content.value)
  }

  /** The job that a SEND to /app/chat hands to the database; None when it is answered with an ERROR. */
  function ChatJob(s: Session, c: nat, body: ChatBody, receipt: string): Option<Job> {
    if s.authenticated && s.userId.Some? && s.HasPermission("CAN_CHAT") && Deliverable(body) then
      Some(Job(c, s.userId.value, body.recipientId,
               if body.conversationId != "" then body.conversationId
               else BuildConversationId(s.userId.value, body.recipientId),
               Text.Trim(body.content.value), receipt))
    else None
  }

  /** How many subscriptions of a session with destination d are no longer to do. */
  function Served(s: Session, todo: set<string>, d: string): nat {
    |s.IdsFor(d) - todo|
  }

  lemma OneMoreServed(s: Session, todo: set<string>, id: string)
    requires id in todo && id in s.subscriptions
    ensures forall d :: Served(s, todo - {id}, d) == Served(s, todo, d) + if d == s.subscriptions[id] then 1 else 0
  {
    forall d ensures Served(s, todo - {id}, d) == Served(s, todo, d) + if d == s.subscriptions[id] then 1 else 0 {
      assert s.IdsFor(d) - (todo - {id})
          == if d == s.subscriptions[id] then (s.IdsFor(d) - todo) + {id} else s.IdsFor(d) - todo;
    }
  }

  lemma NoneOrAllServed(s: Session)
    ensures forall d :: Served(s, s.subscriptions.Keys, d) == 0 && Served(s, {}, d) == |s.IdsFor(d)|
  {
    forall d ensures Served(s, s.subscriptions.Keys, d) == 0 && Served(s, {}, d) == |s.IdsFor(d)| {
      assert s.IdsFor(d) - s.subscriptions.Keys == {} && s.IdsFor(d) - {} == s.IdsFor(d);
    }
  }

  class ChatServer {
    const table: Sessions
    var written: seq<Write>
    var pending: seq<Job>

    constructor (table: Sessions)
      ensures this.table == table && written == [] && pending == []
    {
      this.table := table;
      written, pending := [], [];
    }

    method SendFrame(w: Write)
      modifies this`written
      ensures written == if Live(table.View(), w.conn) then old(written) + [w] else old(written)
      ensures forall x :: multiset(written)[x] == multiset(old(written))[x]
                        + if x == w && Live(table.View(), w.conn) then 1 else 0
    {
      if w.conn in table.sessions && table.sessions[w.conn].readyState == OPEN {
        written := written + [w];
      }
    }

    method SendToTopicSubscriptions(c: nat, topic: string)
      requires c in table.sessions && table.sessions[c].authenticated
      modifies this`written
      ensures forall w :: multiset(written)[w] == multiset(old(written))[w]
                        + if w.conn == c then TopicCopies(table.View(), topic, None, w) else 0
    {
      var subscriptions := table.sessions[c].subscriptions;
      var todo := subscriptions.Keys;
      while todo != {}
        invariant todo <= subscriptions.Keys
        invariant forall w :: multiset(written)[w] == multiset(old(written))[w]
                            + if w.conn == c && w.tag.Subscription? && w.tag.id !in todo
                              then TopicCopies(table.View(), topic, None, w) else 0
        decreases |todo|
      {
        var id :| id in todo;
        todo := todo - {id};
        if subscriptions[id] == topic {
          SendFrame(Write(c, "MESSAGE", topic, Subscription(id)));
        }
      }
    }

    method BroadcastToTopic(topic: string, except: Option<nat>)
      modifies this`written
      ensures forall w :: multiset(written)[w]
                       == multiset(old(written))[w] + TopicCopies(table.View(), topic, except, w)
    {
      var todo := table.sessions.Keys;
      while todo != {}
        invariant todo <= table.sessions.Keys
        invariant forall w :: multiset(written)[w] == multiset(old(written))[w]
                            + if w.conn !in todo then TopicCopies(table.View(), topic, except, w) else 0
        decreases |todo|
      {
        var c :| c in todo;
        todo := todo - {c};
        if Some(c) != except && table.sessions[c].authenticated {
          SendToTopicSubscriptions(c, topic);
        }
      }
    }

    method AnswerSubscription(c: nat, destination: string, f: Filter)
      modifies this`written
      ensures forall w :: multiset(written)[w] == multiset(old(written))[w]
                        + if Queued(table.View(), c, f, w) && w.destination == destination then 1 else 0
    {
      if f.Matches(destination) {
        SendFrame(Write(c, "MESSAGE", destination, Untagged));
      }
    }

    method SendToQueueSubscriptions(c: nat, f: Filter)
      requires c in table.sessions
      modifies this`written
      ensures forall w :: multiset(written)[w] == multiset(old(written))[w]
                        + if w.conn == c then QueueCopies(table.View(), f, w) else 0
    {
      var subscriptions := table.sessions[c].subscriptions;
      ghost var s, r := table.sessions[c], table.View();
      var todo := subscriptions.Keys;
      NoneOrAllServed(s);
      while todo != {}
        invariant todo <= subscriptions.Keys
        invariant forall w :: multiset(written)[w] == multiset(old(written))[w]
                            + if Queued(r, c, f, w) then Served(s, todo, w.destination) else 0
        decreases |todo|
      {
        var id :| id in todo;
        OneMoreServed(s, todo, id);
        todo := todo - {id};
        AnswerSubscription(c, subscriptions[id], f);
      }
    }

    method SendToUser(u: string, f: Filter, except: Option<nat>)
      modifies this`written
      ensures forall w :: multiset(written)[w] == multiset(old(written))[w]
                        + if table.View().Indexed(u, w.conn) && Some(w.conn) != except
                          then QueueCopies(table.View(), f, w) else 0
    {
      var conns := if u in table.userSessions then table.userSessions[u] else {};
      var todo := conns;
      while todo != {}
        invariant todo <= conns
        invariant forall w :: multiset(written)[w] == multiset(old(written))[w]
                            + if w.conn in conns && w.conn !in todo && Some(w.conn) != except
                              then QueueCopies(table.View(), f, w) else 0
        decreases |todo|
      {
        var c :| c in todo;
        todo := todo - {c};
        if Some(c) != except && c in table.sessions {
          SendToQueueSubscriptions(c, f);
        }
      }
    }

    method SendNotificationToUser(u: string)
      modifies this`written
      ensures forall w :: multiset(written)[w] == multiset(old(written))[w]
                        + NotificationCopies(table.View(), u, w)
    {
      SendToUser(u, Under(QUEUES), None);
    }

    static method Validate(body: ChatBody) returns (valid: bool)
      ensures valid <==> Deliverable(body)
    {
      if body.Malformed? || body.content.None? || |body.content.value| > MAX_CONTENT_LENGTH || body.recipientId == "" {
        return false;
      }
      Text.TrimMeaning(body.content.value);
      valid := |Text.Trim(body.content.value)| != 0;
    }

    /** SEND to /app/chat, up to the database: the permission is checked here and not again. */
    method HandleChatSend(c: nat, body: ChatBody, receipt: string)
      requires c in table.sessions
      modifies this
      ensures match ChatJob(table.sessions[c], c, body, receipt)
              case Some(job) => written == old(written) && pending == old(pending) + [job]
              case None =>
                && pending == old(pending)
                && written == old(written) + if Live(table.View(), c) then [Write(c, "ERROR", "", Untagged)] else []
    {
      var s := table.sessions[c];
      var valid := Validate(body);
      if !s.authenticated || s.userId.None? || !s.HasPermission("CAN_CHAT") || !valid {
        SendFrame(Write(c, "ERROR", "", Untagged));
        return;
      }
      var conversation := if body.conversationId != "" then body.conversationId
                          else BuildConversationId(s.userId.value, body.recipientId);
      pending := pending + [Job(c, s.userId.value, body.recipientId, conversation,
                                Text.Trim(body.content.value), receipt)];
    }

    method SendReceipt(job: Job)
      modifies this`written
      ensures forall w :: multiset(written)[w] == multiset(old(written))[w] + ReceiptCopies(table.View(), job, w)
    {
      if job.receipt != "" {
        SendFrame(Write(job.conn, "RECEIPT", "", Untagged));
      }
    }

    /** The message is stored: everything below reads the tables as they are now. */
    method CompleteChatSend(i: nat)
      requires i < |pending|
      modifies this
      ensures pending == old(pending)[..i] + old(pending)[i + 1..]
      ensures forall w :: multiset(written)[w] == multiset(old(written))[w]
                        + ChatCopies(table.View(), old(pending)[i], w)
    {
      var job := pending[i];
      BroadcastToTopic(job.Topic(), None);
      SendToUser(job.recipient, Exactly(MESSAGES), None);
      SendToUser(job.sender, Exactly(MESSAGES), Some(job.conn));
      SendReceipt(job);
      pending := pending[..i] + pending[i + 1..];
    }

    /** The database refused the message: the sender gets an ERROR, and nobody gets the message. */
    method FailChatSend(i: nat)
      requires i < |pending|
      modifies this
      ensures pending == old(pending)[..i] + old(pending)[i + 1..]
      ensures var c := old(pending)[i].conn;
              written == old(written) + if Live(table.View(), c) then [Write(c, "ERROR", "", Untagged)] else []
    {
      SendFrame(Write(pending[i].conn, "ERROR", "", Untagged));
      pending := pending[..i] + pending[i + 1..];
    }
  }

  // ---------------------------------------------------------------- the same copies by a scan of all sessions

  /** The ids of a session's subscriptions to a destination. */
  function To(s: Session, destination: string): set<string> {
    set id | id in s.subscriptions && s.subscriptions[id] == destination
  }

  /** What each open connection is owed, from its own session alone: no index, no authentication flag. */
  function OwedCopies(r: Registry, job: Job, w: Write): nat {
    if w.conn !in r.sessions || r.sessions[w.conn].readyState != 1 then 0
    else
      var s := r.sessions[w.conn];
      var topic, queue := To(s, "/topic/chat/" + job.conversation), To(s, "/user/queue/messages");
      if w.command == "MESSAGE" && w.destination == "/topic/chat/" + job.conversation && w.tag.Subscription? then
        if w.tag.id in topic then 1 else 0
      else if w == Write(w.conn, "MESSAGE", "/user/queue/messages", Untagged) then
        (if s.userId == Some(job.recipient) then |queue| else 0)
        + if s.userId == Some(job.sender) && w.conn != job.conn then |queue| else 0
      else if w == Write(job.conn, "RECEIPT", "", Untagged) && job.receipt != "" then 1
      else 0
  }

  /** An open connection with a message queue is still in the set of a user it no longer belongs to. */
  ghost predicate ForeignCopies(r: Registry) {
    exists c: nat, u :: r.Indexed(u, c) && !r.Owns(u, c) && Live(r, c) && r.sessions[c].IdsFor(MESSAGES) != {}
  }

  /** The message that such a connection gets although it is meant for another user. */
  lemma ForeignCopy(r: Registry, c: nat, u: string) returns (job: Job, w: Write)
    requires r.Indexed(u, c) && !r.Owns(u, c) && Live(r, c) && r.sessions[c].IdsFor(MESSAGES) != {}
    ensures job == Job(c, "", u, "", "", "") && w == Write(c, "MESSAGE", MESSAGES, Untagged)
    ensures ChatCopies(r, job, w) > 0 && OwedCopies(r, job, w) == 0
  {
    job, w := Job(c, "", u, "", "", ""), Write(c, "MESSAGE", MESSAGES, Untagged);
    assert Exactly(MESSAGES).Matches(w.destination);
  }

  /** The copies through the index and by the scan, when no copy is foreign. */
  lemma HonestCopies(run: seq<Event>, job: Job, w: Write)
    requires Exec(run).Some? && !ForeignCopies(Exec(run).value.reg)
    ensures ChatCopies(Exec(run).value.reg, job, w) == OwedCopies(Exec(run).value.reg, job, w)
  {
    var r := Exec(run).value.reg;
    EveryRunKeeps(run);
    if Live(r, w.conn) {
      var s := r.sessions[w.conn];
      assert To(s, job.Topic()) == s.IdsFor(job.Topic()) && To(s, MESSAGES) == s.IdsFor(MESSAGES);
      assert s.subscriptions == map[] ==> s.IdsFor(job.Topic()) == {} && s.IdsFor(MESSAGES) == {};
      if s.IdsFor(MESSAGES) != {} {
        assert r.Indexed(job.recipient, w.conn) <==> r.Owns(job.recipient, w.conn);
        assert r.Indexed(job.sender, w.conn) <==> r.Owns(job.sender, w.conn);
      }
    }
  }

  /**
   * At every reachable registry delivery through the index is delivery by a scan of all sessions, for
   * every message and every frame, iff no connection gets foreign copies.
   */
  lemma DeliveryIsScanIff(run: seq<Event>)
    requires Exec(run).Some?
    ensures var r := Exec(run).value.reg;
            (forall job, w :: ChatCopies(r, job, w) == OwedCopies(r, job, w)) <==> !ForeignCopies(r)
  {
    var r := Exec(run).value.reg;
    if ForeignCopies(r) {
      var c: nat, u :| r.Indexed(u, c) && !r.Owns(u, c) && Live(r, c) && r.sessions[c].IdsFor(MESSAGES) != {};
      var job, w := ForeignCopy(r, c, u);
    } else {
      forall job, w ensures ChatCopies(r, job, w) == OwedCopies(r, job, w) {
        HonestCopies(run, job, w);
      }
    }
  }

  /** In particular while every connection has kept one identity. */
  lemma DeliveryRefinesScan(run: seq<Event>, job: Job, w: Write)
    requires Exec(run).Some? && OneIdentityEach(Exec(run).value)
    ensures ChatCopies(Exec(run).value.reg, job, w) == OwedCopies(Exec(run).value.reg, job, w)
  {
    IndexExactIff(run);
    HonestCopies(run, job, w);
  }

  // ---------------------------------------------------------------- notifications by a scan

  /** A destination that starts with the twelve characters of the queue prefix. */
  predicate IsQueue(destination: string) {
    |destination| >= 12 && destination[..12] == "/user/queue/"
  }

  /** What a notification owes each open session of the user: one copy per queue subscription, whichever queue it is. */
  function OwedNotifications(r: Registry, u: string, w: Write): nat {
    if && w.conn in r.sessions && r.sessions[w.conn].readyState == 1 && r.sessions[w.conn].userId == Some(u)
       && w == Write(w.conn, "MESSAGE", w.destination, Untagged) && IsQueue(w.destination)
    then |To(r.sessions[w.conn], w.destination)| else 0
  }

  /** An open connection with a queue subscription is indexed under the user and belongs to another. */
  ghost predicate ForeignNotices(r: Registry, u: string) {
    exists c: nat, id :: ForeignNotice(r, u, c, id)
  }

  predicate ForeignNotice(r: Registry, u: string, c: nat, id: string) {
    && r.Indexed(u, c) && c in r.sessions && r.sessions[c].readyState == 1 && r.sessions[c].userId != Some(u)
    && id in r.sessions[c].subscriptions && IsQueue(r.sessions[c].subscriptions[id])
  }

  lemma QueuePrefix(destination: string)
    ensures Under(QUEUES).Matches(destination) <==> IsQueue(destination)
  {
    assert |QUEUES| == 12;
    assert QUEUES <= destination ==> QUEUES == destination[..12];
  }

  lemma NoticeGoesAstray(r: Registry, u: string, c: nat, id: string) returns (w: Write)
    requires ForeignNotice(r, u, c, id)
    ensures NotificationCopies(r, u, w) > 0 && OwedNotifications(r, u, w) == 0
  {
    var destination := r.sessions[c].subscriptions[id];
    w := Write(c, "MESSAGE", destination, Untagged);
    QueuePrefix(destination);
    assert id in r.sessions[c].IdsFor(destination);
  }

  lemma HonestNotice(run: seq<Event>, u: string, w: Write)
    requires Exec(run).Some? && !ForeignNotices(Exec(run).value.reg, u)
    ensures NotificationCopies(Exec(run).value.reg, u, w) == OwedNotifications(Exec(run).value.reg, u, w)
  {
    var r := Exec(run).value.reg;
    EveryRunKeeps(run);
    QueuePrefix(w.destination);
    if Live(r, w.conn) {
      var s := r.sessions[w.conn];
      assert To(s, w.destination) == s.IdsFor(w.destination);
      if r.Indexed(u, w.conn) && s.userId != Some(u) && IsQueue(w.destination) && To(s, w.destination) != {} {
        var id :| id in To(s, w.destination);
        assert ForeignNotice(r, u, w.conn, id);
      }
      assert r.Owns(u, w.conn) ==> r.Indexed(u, w.conn);
    }
  }

  /**
   * At every reachable registry the notification of a user reaches exactly the queue subscriptions of
   * that user's open sessions, iff none of them is indexed under the user but belongs to another.
   */
  lemma NotificationIsScanIff(run: seq<Event>, u: string)
    requires Exec(run).Some?
    ensures var r := Exec(run).value.reg;
            (forall w :: NotificationCopies(r, u, w) == OwedNotifications(r, u, w)) <==> !ForeignNotices(r, u)
  {
    var r := Exec(run).value.reg;
    if ForeignNotices(r, u) {
      var c: nat, id :| ForeignNotice(r, u, c, id);
      var w := NoticeGoesAstray(r, u, c, id);
    } else {
      forall w ensures NotificationCopies(r, u, w) == OwedNotifications(r, u, w) { HonestNotice(run, u, w); }
    }
  }

  // ---------------------------------------------------------------- who may send what

  /**
   * On every run a chat SEND reaches the database iff its body is deliverable and the latest token of the
   * connection gives the ADMIN role or lists CAN_CHAT; what is stored comes from that token and the body.
   */
  lemma ChatSendIff(run: seq<Event>, c: nat, body: ChatBody, receipt: string)
    requires Exec(run).Some? && c in Exec(run).value.reg.sessions
    ensures var job, claims := ChatJob(Exec(run).value.reg.sessions[c], c, body, receipt), LatestClaims(run, c);
            && (job.Some? <==> SendsBody(body) && claims.Some? && MayChat(claims.value))
            && (job.Some? ==> job.value == Job(c, claims.value.userId, body.recipientId,
                  if body.conversationId == "" then BuildConversationId(claims.value.userId, body.recipientId)
                  else body.conversationId,
                  Text.Trim(body.content.value), receipt))
  {
    SessionsHoldLatestClaims(run, c);
  }

  predicate MayChat(claims: Claims) {
    claims.role == "ADMIN" || exists i :: 0 <= i < |claims.permissions| && claims.permissions[i] == "CAN_CHAT"
  }

  /** A parsed body with a recipient and a text of at most 5000 characters, at least one of them not white space. */
  predicate SendsBody(body: ChatBody) {
    && body.ChatBody? && body.recipientId != "" && body.content.Some? && |body.content.value| <= 5000
    && exists i :: 0 <= i < |body.content.value| && !Text.IsSpace(body.content.value[i])
  }

  // ---------------------------------------------------------------- broadcasts by a scan

  /** At every reachable registry a broadcast reaches the topic's subscriptions on all open connections but one. */
  lemma BroadcastIsScan(run: seq<Event>, topic: string, except: Option<nat>, w: Write)
    requires Exec(run).Some?
    ensures var r := Exec(run).value.reg;
            TopicCopies(r, topic, except, w) > 0 <==>
              && w.conn in r.sessions && r.sessions[w.conn].readyState == 1 && except != Some(w.conn)
              && w.command == "MESSAGE" && w.destination == topic && w.tag.Subscription?
              && w.tag.id in r.sessions[w.conn].subscriptions && r.sessions[w.conn].subscriptions[w.tag.id] == topic
    ensures TopicCopies(Exec(run).value.reg, topic, except, w) <= 1
  {
    EveryRunKeeps(run);
  }
}
