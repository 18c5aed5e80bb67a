# Verified model of the IUH-Exchange messaging and gateway core

A Dafny 4.11 model of the stateful core of IUH-Exchange: the STOMP codec and receive loop of the
chat service, the request guard and token refresh of the web client, the WebSocket session registry
and chat delivery, the gateway's circuit breaker and route table, and the chat client's outbox and
subscription handle. `dafny verify dfyconfig.toml` checks all of it.

| file | what it models |
|---|---|
| `Common.dfy`, `Text.dfy` | options; the JavaScript string operations the codec uses |
| `HeaderEscaping.dfy` | the two header escaping functions and their passes |
| `StompFrame.dfy` | parsing and serializing one frame |
| `HeartbeatGaps.dfy` | white space that reaches a half-received frame, and when it may be dropped |
| `FrameStream.dfy` | the frame accumulator: chunks, segments, streams of frames |
| `ReceiveLoop.dfy` | the `data` handler: heartbeats, the byte limit, the frame loop |
| `RequestGuard.dfy` | sliding-window limiter and double-submit map |
| `TokenRefresh.dfy`, `RefreshHistory.dfy` | single-flight refresh, parked requests, retries; the same read off the events alone |
| `SessionRegistry.dfy`, `Delivery.dfy` | the session table, its index by user, delivery through both |
| `CircuitBreaker.dfy`, `GatewayRoutes.dfy` | the breaker over timed traces; dispatch, auth stage, breaker gate |
| `ChatClient.dfy` | pending-frame outbox, reconnects, the conversation handle |
| `Findings.dfy` | concrete inputs for the findings below |

Objects of the source are classes here. Each method's `ensures` ties the new state to a step function
on values, and the lemmas are about all runs of those step functions. What the step functions
themselves have to do is read off the events: the history lemmas (`SessionsAreOwn`, `LivesAreHistory`,
`HandleIsHistory`, `SnapshotMeansTrace` and their like) and the laws (`ReplyLaw`, `DecisionLaw`,
`ParsedMeaning`, `LinkLaw`) spell out every condition and constant on their own. Asynchronous code is cut at its
awaits: one synchronous block is one atomic step, and the steps of all parties interleave freely.
Clocks are arguments that never go back. Tokens, the database, the network and thrown exceptions are
arguments or free choices of the environment.

## Findings

Where code fails an expectation, a lemma gives a concrete failing input (`Findings.dfy`), and another
the exact condition under which the expectation is met.

- Header values: `unescapeHeader` is not the inverse of `escapeHeader`. A backslash directly followed
  by `c` or `n` comes back as a backslash followed by a colon or a line feed (stomp-parser.js:134-146).
  STOMP 1.1, section "Value Encoding", asks for one left-to-right pass; `DecodeOnePass` is that
  decoder, and it does invert `escapeHeader`. Exact condition: `HeaderEscaping.RoundTripIff`.
- A header named `__proto__` is lost: the parser writes to a plain object literal
  (stomp-parser.js:34-44). Exact condition: `StompFrame.HeadersRoundTripIff`.
- The limit commented as a buffer limit counts every byte a connection ever sends, so a long-lived
  connection is closed after 1 MiB of ordinary traffic, even with an empty buffer
  (socket.service.js:208-217). Exact condition: `ReceiveLoop.RunCounts`.
- The handler drops every chunk that trims to empty (socket.service.js:201-206). That goes unnoticed,
  whatever follows, exactly when the chunk is empty, or the buffer is blank, or the chunk has no line
  feed and the buffer ends inside a header line that the parser ignores anyway (one that starts with a
  colon or whose key decodes to `__proto__`). A heartbeat line feed in the middle of a frame always
  changes the frame for some continuation. Exact condition: `HeartbeatGaps.GapNeutralIff` for one
  chunk, `ReceiveLoop.DroppedHeartbeatsIff` for whole runs.
- The second `/api/v1/products` and `/api/v1/lost-found` rows of the route table are never reached,
  although a comment in the table says the first row handles only GET. Mutations are authenticated by
  the first row's method restriction and run under its `global` limiter instead of `sensitive`
  (routes.js:48-64, routes.js:82-88; `GatewayRoutes.TableOrder`, `GatewayRoutes.MutationLimiter`).
- A frame queued without a token is dropped although `sendOrQueue` returns true (chatService.ts:80-90,
  chatService.ts:139-145). Exact condition: an event drops frames iff there is no token and it is a send
  on a link that is down, or a connect or due reconnect that finds the queue not empty
  (`ChatClient.DropsIff`, `ChatClient.RunDropsIff`).
- A frame that fails in a flush is overtaken by those that follow it, and two or more different frames
  that fail are retried in reverse order (chatService.ts:67-78). Exact conditions: a flush keeps the
  order iff no frame but the last one fails (`ChatClient.FlushOrderIff`), the failed frames keep theirs
  iff at most one fails (`ChatClient.FailedOrderIff`), and for whole runs `ChatClient.QueueOrderIff`.
- A double submit gets through when the second clock reading, in `cleanOldMutations`, comes more than
  2400 ms after a mutation that was still cooling down at the first (api.ts:36-43, api.ts:60-88). Exact
  conditions: for one passage `RequestGuard.StepAgrees`, for whole runs `RequestGuard.AcceptedSpacingIff`
  and `RequestGuard.RefinesReferenceIff`; readings at most 1200 ms apart never do it.
- Retries are bounded more tightly than by N episodes of N replays: n requests cause at most
  n(n + 1)/2 replays in n(n + 7)/2 steps, because a marked request can no longer be parked, and one run
  attains all the bounds (`TokenRefresh.RetriesEnd`, `TokenRefresh.RetryBoundsAttained`).
- A connection that authenticates a second time under another identity leaves a stale id in the
  user index, and once it subscribes to its message queue it gets the messages meant for the first
  identity. Exact conditions: `SessionRegistry.IndexExactIff`, `Delivery.DeliveryIsScanIff`.
- Conversation ids of different pairs of users can coincide when user ids contain colons
  (socket.service.js:12-14). Exact condition: `Delivery.ConversationSharedIff`.

## Model

| member | source | states |
|---|---|---|
| HeaderEscaping.EscapeStep | packages/chat-service/src/utils/stomp-parser.js:134-139 | the three replaces of escapeHeader encode each character on its own |
| HeaderEscaping.EscapeIsOneField | packages/chat-service/src/utils/stomp-parser.js:134-139 | an escaped string has no line feed and no colon, and holds a NUL iff the original does |
| HeaderEscaping.DecodeOnePassUndoesEscape | packages/chat-service/src/utils/stomp-parser.js:134-139 | the one-pass STOMP decoder inverts escapeHeader on every string |
| HeaderEscaping.EscapeInjective | packages/chat-service/src/utils/stomp-parser.js:134-139 | different strings escape differently |
| HeaderEscaping.UnescapeEscape | packages/chat-service/src/utils/stomp-parser.js:134-146 | the three-pass unescape of an escaped string equals it except that each c or n right after a backslash becomes a colon or line feed |
| HeaderEscaping.RoundTripIff | packages/chat-service/src/utils/stomp-parser.js:134-146 | the header round trip is the identity iff no backslash is directly followed by c or n |
| StompFrame.ParseFrame | packages/chat-service/src/utils/stomp-parser.js:22-53 | the index loop computes the recursive line reader: leading blank lines skipped, headers to the first blank line, the rest is body |
| StompFrame.SkipBlankLines | packages/chat-service/src/utils/stomp-parser.js:25-29 | the first loop stops at the first non-blank line |
| StompFrame.CollectHeaders | packages/chat-service/src/utils/stomp-parser.js:34-46 | the header loop reads key and value at the first colon, later keys win, and stops after the first blank line |
| StompFrame.ParsedMeaning | packages/chat-service/src/utils/stomp-parser.js:22-53 | for any input: the command is the first non-blank line, trimmed; each header is the last line before the next blank one that names it, lines without a key name none; the body is all after that line, less one NUL |
| Text.TrimCuts | packages/chat-service/src/utils/stomp-parser.js:25-36 | trim cuts a blank piece off either end and nothing else |
| Text.SpaceCodes | packages/chat-service/src/utils/stomp-parser.js:25-36 | exactly the code points that trim takes for white space |
| StompFrame.CommandIsOneWord | packages/chat-service/src/utils/stomp-parser.js:25-32 | any parsed command is trimmed and on one line, whatever the input |
| StompFrame.SerializeFrame | packages/chat-service/src/utils/stomp-parser.js:63-72 | the accumulating loop writes command, escaped header lines, blank line, body, NUL |
| StompFrame.ParsedContent | packages/chat-service/src/utils/stomp-parser.js:22-72 | what the parser makes of any serialized frame with a non-blank one-line command |
| StompFrame.HeadersRoundTripIff | packages/chat-service/src/utils/stomp-parser.js:34-68 | the header object arrives unchanged iff every key is non-empty, not `__proto__`, and keys and values survive escaping |
| StompFrame.LeadingBlankNeutral | packages/chat-service/src/utils/stomp-parser.js:25-31 | white space in front of a frame, line feeds or not, never changes how it parses |
| StompFrame.FrameRoundTripIff | packages/chat-service/src/utils/stomp-parser.js:22-72 | serialize then parse returns the frame iff it is transparent: exact condition on command, headers and body |
| HeartbeatGaps.BodyGrows | packages/chat-service/src/utils/stomp-parser.js:34-50 | once the blank line is read, all further text is body |
| HeartbeatGaps.DroppedBodyIsLost | packages/chat-service/src/services/socket.service.js:201-206 | white space dropped inside a body shortens the body by at least its length, whatever follows |
| HeartbeatGaps.LineFeedGapIff | packages/chat-service/src/services/socket.service.js:201-206 | a white-space chunk with a line feed can be dropped, for every continuation, iff the buffer is blank |
| HeartbeatGaps.HeartbeatNeutralIff | packages/chat-service/src/services/socket.service.js:201-206 | in particular the heartbeat line feed |
| HeartbeatGaps.GapNeutralIff | packages/chat-service/src/services/socket.service.js:201-206 | any chunk that trims to empty can be dropped, for every continuation, iff it is empty, the buffer is blank, or it has no line feed and the buffer ends inside an ignored header line |
| FrameStream.SegmentFirst | packages/chat-service/src/utils/stomp-parser.js:122-129 | a NUL-free text closed by NUL is the first segment, the rest is untouched |
| FrameStream.FrameAccumulator.Push | packages/chat-service/src/utils/stomp-parser.js:107-109 | the buffer grows by the chunk |
| FrameStream.FrameAccumulator.HasFrames | packages/chat-service/src/utils/stomp-parser.js:114-116 | true iff the buffer holds a complete segment |
| FrameStream.FrameAccumulator.NextFrame | packages/chat-service/src/utils/stomp-parser.js:122-129 | null iff hasFrames is false; otherwise the text before the first NUL is parsed and the text after it stays: the first frame of the buffer goes, the others and the tail remain |
| FrameStream.SegmentsConcat | packages/chat-service/src/utils/stomp-parser.js:107-129 | cutting a text anywhere: segments of the whole are those of the first half and those of its tail plus the second half |
| FrameStream.ChunkIndependence | packages/chat-service/src/utils/stomp-parser.js:98-130 | for any pushes and takes on any input, emitted frames plus those still buffered are the frames of the total input; when drained, exactly those, and the buffer is the tail after the last NUL |
| FrameStream.WireSegments | packages/chat-service/src/utils/stomp-parser.js:63-72 | n sent frames yield at least n segments, exactly n iff none holds a NUL, and then each its own |
| FrameStream.StreamRoundTripIff | packages/chat-service/src/utils/stomp-parser.js:22-146 | frames sent with any white space between them come out as sent, in order, iff every one is transparent and NUL-free |
| FrameStream.GapFrames | packages/chat-service/src/utils/stomp-parser.js:25-29 | white space in front of a text changes none of its frames |
| ReceiveLoop.Connection.OnData | packages/chat-service/src/services/socket.service.js:201-254 | one data event: heartbeat, overflow, or push and dispatch of every complete frame |
| ReceiveLoop.Connection.DispatchFrames | packages/chat-service/src/services/socket.service.js:221-253 | the receive loop ends, dispatches the buffered frames in order and leaves the tail |
| ReceiveLoop.Utf8RoundTrip | packages/chat-service/src/services/socket.service.js:209-212 | the width counted for a character is the length of its UTF-8 bytes, which decode to it |
| ReceiveLoop.Utf8BytesLaw | packages/chat-service/src/services/socket.service.js:209-212 | the bytes counted for a text are those of its UTF-8 encoding |
| ReceiveLoop.RunDispatches | packages/chat-service/src/services/socket.service.js:201-254 | on every run the dispatched frames are those of the accepted text, and the buffer is its tail |
| ReceiveLoop.RunCounts | packages/chat-service/src/services/socket.service.js:203-226 | on every run overflow is flagged iff the non-heartbeat bytes offered exceed 1 MiB, and the heartbeat time is the last heartbeat or frame-closing chunk |
| ReceiveLoop.RunBounded | packages/chat-service/src/services/socket.service.js:208-219 | on every run the accepted bytes, and so the buffer, never exceed 1 MiB |
| ReceiveLoop.DroppedHeartbeatsIff | packages/chat-service/src/services/socket.service.js:201-219 | on every run, refused chunks included, dropping heartbeats instead of pushing them shows at no moment, in frames or continuations, iff each was droppable where it arrived |
| ReceiveLoop.DroppedHeartbeatsInvisible | packages/chat-service/src/services/socket.service.js:201-219 | then the dispatched frames are those of the whole unrefused text, heartbeats included |
| ReceiveLoop.BoundaryHeartbeats | packages/chat-service/src/services/socket.service.js:201-219 | heartbeats at frame boundaries are droppable, so without a refusal the dispatched frames are those of all text |
| ReceiveLoop.ReceivedAsSentIff | packages/chat-service/src/services/socket.service.js:201-254 | end to end over arbitrary chunking with droppable heartbeats: the dispatched frames are the sent frames iff each is transparent and NUL-free |
| RequestGuard.RequestInterceptor.CleanOldMutations | frontend/src/services/api.ts:36-43 | the deleting loop keeps exactly the keys not older than 2400 ms |
| RequestGuard.RequestInterceptor.OnRequest | frontend/src/services/api.ts:60-93 | one passage: eviction, limiter, slot, cleanup by its own clock reading, double-submit test, record |
| RequestGuard.StepAgrees | frontend/src/services/api.ts:60-90 | one passage decides as a log that forgets nothing would, except that it accepts a late double submit |
| RequestGuard.StepKeepsRecent | frontend/src/services/api.ts:22-90 | whatever it decides, queue and map remain the recent part of the log |
| RequestGuard.GuardRefinesLog | frontend/src/services/api.ts:22-90 | after every run the queue is exactly the times of the last 2000 ms in the guard's full log, the map is its last-accepted part within the horizon, and the next decision is the one taken from the full log unless the passage is late |
| RequestGuard.RefinesReferenceIff | frontend/src/services/api.ts:22-90 | on every run the limiter agrees with a guard that forgets nothing, and the whole log does iff no passage is late |
| RequestGuard.PromptIsNeverLate | frontend/src/services/api.ts:36-88 | no passage is late when all take at most 1200 ms between their clock readings |
| RequestGuard.CleaningInvisibleIff | frontend/src/services/api.ts:36-88 | after lazy deletion at a second clock reading, the cooldown test agrees with the full log iff the key is not one that was cooling down at the first reading and is past the horizon at the second |
| RequestGuard.CleaningInvisible | frontend/src/services/api.ts:36-88 | so with readings at most 1200 ms apart deletion removes nothing that the cooldown test can see |
| RequestGuard.DecisionLaw | frontend/src/services/api.ts:60-88 | on every run a request is limited iff the fifteenth last admission is at most 2000 ms old, else a double submit iff its key was accepted less than 1200 ms before the first clock reading and at most 2400 ms before the second |
| RequestGuard.CleanedLaw | frontend/src/services/api.ts:36-43 | deletion keeps a key iff its mutation is at most 2400 ms old |
| RequestGuard.AdmittedSpacing | frontend/src/services/api.ts:60-72 | admitted[i+15] - admitted[i] > 2000 on every run, double-submit rejections and late passages included |
| RequestGuard.AcceptedSpacingIff | frontend/src/services/api.ts:76-90 | on every run the mutations accepted with one key are at least 1200 ms apart iff no passage is late |
| RequestGuard.AcceptedSpacing | frontend/src/services/api.ts:76-90 | in particular on runs whose passages take at most 1200 ms |
| RequestGuard.PendingBound | frontend/src/services/api.ts:22-90 | on every run, late passages included, the double-submit map never holds more than 30 keys |
| RequestGuard.PendingBoundAttained | frontend/src/services/api.ts:22-90 | and some run fills it with exactly 30 |
| TokenRefresh.AuthClient.RefreshAccessToken | frontend/src/services/api.ts:139-163 | join, cached rejection, or start of a new refresh |
| TokenRefresh.AuthClient.OnRefreshAnswer | frontend/src/services/api.ts:148-157 | success stores the token and clears the recorded failure, failure records its time and error |
| TokenRefresh.AuthClient.OnRefreshFinally | frontend/src/services/api.ts:158-160 | the promise settles and refreshPromise is cleared |
| TokenRefresh.AuthClient.OnUnauthorized | frontend/src/services/api.ts:167-184 | a 401 is final for a marked request, parks behind a refresh, or elects and marks a leader |
| TokenRefresh.AuthClient.ProcessQueue | frontend/src/services/api.ts:128-137 | the loop settles every parked request once, in order, with one outcome, and empties the queue |
| TokenRefresh.AuthClient.ResumeLeader | frontend/src/services/api.ts:183-197 | after the await: queue settled, leader replayed or rejected, token removed and login page opened after a refresh refused with 400, 401 or 403, isRefreshing cleared |
| TokenRefresh.CallRefreshKeeps | frontend/src/services/api.ts:139-163 | a caller joins the refresh under way, is rejected iff none is and the last one failed less than 5000 ms ago, and otherwise starts one |
| TokenRefresh.StepKeeps | frontend/src/services/api.ts:98-202 | every step of every party keeps single flight, one leader, queue = parked requests, ordered settlement, and the replay budget |
| TokenRefresh.EveryRunKeeps | frontend/src/services/api.ts:98-202 | hence every interleaving does |
| TokenRefresh.RefreshProtocol | frontend/src/services/api.ts:98-202 | at most one refresh on the wire; no queue without isRefreshing; each parked request settled exactly once, in order, with its episode's outcome; no refresh starts within 5000 ms after any failure |
| TokenRefresh.EpisodeCanEnd | frontend/src/services/api.ts:165-202 | from every reachable state the steps that release the parked requests are possible |
| TokenRefresh.StepSpends | frontend/src/services/api.ts:165-202 | each step of a request lowers a potential that refresh traffic does not raise |
| TokenRefresh.SignedOutIff | frontend/src/services/api.ts:124-197 | on every run the user is sent to the login page iff some episode ended in a refused refresh |
| TokenRefresh.RetriesEnd | frontend/src/services/api.ts:165-202 | even with 401 forever, n requests take at most n(n + 7)/2 steps, n refresh episodes, n(n + 1)/2 replays |
| TokenRefresh.RetryBoundsAttained | frontend/src/services/api.ts:165-202 | for every n one run takes n(n + 7)/2 steps, n episodes and n(n + 1)/2 replays |
| RefreshHistory.EveryFlightIsHistory | frontend/src/services/api.ts:139-163 | on every run each answer and promise is the outcome the server gave to that refresh, a promise is settled iff its finally ran, and the recorded failure is the latest answer if that failed |
| RefreshHistory.CallLaw | frontend/src/services/api.ts:139-163 | by the events alone: a caller joins the shared promise, is turned away with the latest answer if it failed less than 5000 ms ago, or starts a refresh |
| RefreshHistory.UnderWayIsHistory | frontend/src/services/api.ts:139-186 | on every run the shared promise, the number of refreshes and the clock are those of the events: a refresh begins when the interceptor or a leading 401 asks, unless one is under way or one failed less than 5000 ms ago |
| RefreshHistory.EveryLeaderAwaits | frontend/src/services/api.ts:183-186 | each leader awaits the promise shared at its 401, or the failure it was turned away with |
| RefreshHistory.ResultsAreAnswers | frontend/src/services/api.ts:139-202 | each episode ends in the server's answer to the refresh its leader awaited, or in the latest failed answer when it was turned away |
| RefreshHistory.PageIsHistory | frontend/src/services/api.ts:148-195 | the stored token is that of the latest fresh answer unless a leader was told of a 400, 401 or 403 since, and the login page is open iff one ever was |
| RefreshHistory.LivesAreHistory | frontend/src/services/api.ts:98-202 | the flags, queue and marks refine a plain life of each request read off the events: replayed iff the answer was fresh, rejected otherwise, parked iff another one leads |
| RefreshHistory.WaitersInOrder | frontend/src/services/api.ts:170-176 | requests are parked, and so settled, in the order of their 401s |
| SessionRegistry.Sessions.OnConnection | packages/chat-service/src/services/socket.service.js:185-199 | a fresh unauthenticated session is registered |
| SessionRegistry.Sessions.HandleConnect | packages/chat-service/src/services/socket.service.js:314-388 | a verified CONNECT sets the identity and adds the id to the user's set; otherwise the connection starts closing; the reply is CONNECTED or ERROR |
| SessionRegistry.Sessions.OnClose | packages/chat-service/src/services/socket.service.js:256-275 | the session and its index entry go, a set left empty goes too |
| SessionRegistry.Sessions.Sweep | packages/chat-service/src/services/socket.service.js:281-301 | the loop removes exactly the sessions that are neither connecting nor open |
| SessionRegistry.Sessions.HandleSubscribe | packages/chat-service/src/services/socket.service.js:393-416 | only an authenticated session with a destination gets the subscription, under the given or a generated id; otherwise ERROR |
| SessionRegistry.Sessions.HandleUnsubscribe | packages/chat-service/src/services/socket.service.js:421-426 | the named subscription goes, a missing id does nothing |
| SessionRegistry.RemovedTwice | packages/chat-service/src/services/socket.service.js:256-301 | removing sessions in two rounds is removing them at once, in any order |
| SessionRegistry.SweepThenClose | packages/chat-service/src/services/socket.service.js:256-301 | sweep and close commute, and a close after the sweep that took its session changes nothing |
| SessionRegistry.StepKeeps | packages/chat-service/src/services/socket.service.js:185-426 | every event keeps the exact meaning of the index: an id is in a user's set iff it connected as that user and is registered or has since become another |
| SessionRegistry.SessionsAreOwn | packages/chat-service/src/services/socket.service.js:185-426 | on every run the session of a connection is the fold of its own events and the sweeps: other connections leave no mark |
| SessionRegistry.SessionsHoldLatestClaims | packages/chat-service/src/services/socket.service.js:336-355 | a session is authenticated iff its connection presented a token, with the user, role and permissions of the latest one |
| SessionRegistry.HistoryIsRun | packages/chat-service/src/services/socket.service.js:185-426 | the identities that the index theorems speak of are those in the CONNECT events |
| SessionRegistry.AuthenticatedIsIndexed | packages/chat-service/src/services/socket.service.js:16-20 | on every run every authenticated session is in its user's set and no set is empty |
| SessionRegistry.IndexExactIff | packages/chat-service/src/services/socket.service.js:16-20 | the index is exactly the sessions by user iff no connection authenticated under two identities |
| Delivery.ConversationSharedIff | packages/chat-service/src/services/socket.service.js:12-14 | two pairs share a conversation id iff they are the same pair or their ids overlap at a colon |
| Delivery.LexMeaning | packages/chat-service/src/services/socket.service.js:12-14 | the order that sorts a pair is lexicographic |
| Delivery.ConversationInOrder | packages/chat-service/src/services/socket.service.js:12-14 | whichever way round, the smaller id comes first, then a colon, then the other |
| Delivery.ConversationIsPair | packages/chat-service/src/services/socket.service.js:12-14 | for ids without a colon a conversation id stands for exactly one unordered pair |
| Delivery.ChatServer.BroadcastToTopic | packages/chat-service/src/services/socket.service.js:99-113 | the nested loops write one frame per matching subscription of each authenticated open connection but the excluded one |
| Delivery.ChatServer.SendToUser | packages/chat-service/src/services/socket.service.js:527-569 | the loop over a user's connection ids writes one copy per matching queue subscription of each open one |
| Delivery.ChatServer.SendNotificationToUser | packages/chat-service/src/services/socket.service.js:72-94 | one copy per `/user/queue/` subscription of each open indexed connection |
| Delivery.ChatServer.Validate | packages/chat-service/src/services/socket.service.js:471-495 | exactly which bodies go to the database |
| Delivery.ChatServer.HandleChatSend | packages/chat-service/src/services/socket.service.js:431-513 | authentication, permission and validation are decided at request time; a failing request writes one ERROR and stores nothing; the content is stored trimmed |
| Delivery.ChatSendIff | packages/chat-service/src/services/socket.service.js:431-513 | on every run a chat SEND is stored iff its body has a recipient and a text of 1 to 5000 characters, not all blank, and the connection's latest token has the role ADMIN or lists CAN_CHAT; what is stored comes from that token and body |
| Delivery.ChatServer.CompleteChatSend | packages/chat-service/src/services/socket.service.js:515-574 | delivery reads the tables at completion time; the count of every frame on every connection is given |
| Delivery.ChatServer.FailChatSend | packages/chat-service/src/services/socket.service.js:575-581 | when the database refuses the message the sender gets one ERROR and nobody gets the message |
| Delivery.DeliveryIsScanIff | packages/chat-service/src/services/socket.service.js:470-582 | at every reachable registry, for every message and frame, delivery through the index equals a scan of all sessions (topic subscriptions plus queue copies for the recipient and the sender's other connections) iff no open connection with a message queue is indexed under a user it no longer belongs to |
| Delivery.DeliveryRefinesScan | packages/chat-service/src/services/socket.service.js:470-582 | in particular with one identity per connection |
| Delivery.NotificationIsScanIff | packages/chat-service/src/services/socket.service.js:72-94 | at every reachable registry a user's notification reaches exactly the subscriptions of the user's open sessions whose destination starts with `/user/queue/`, iff no open connection with one is indexed under the user but belongs to another |
| Delivery.BroadcastIsScan | packages/chat-service/src/services/socket.service.js:99-113 | at every reachable registry a broadcast reaches exactly the subscriptions to its topic on the open connections but the excluded one |
| CircuitBreaker.Breaker.IsRejected | packages/api-gateway/src/middleware/circuit-breaker.js:43-55 | may half-open the circuit; rejects iff it is open after that |
| CircuitBreaker.Breaker.OnSuccess | packages/api-gateway/src/middleware/circuit-breaker.js:58-69 | counts probes, closes on the last one, resets the failure count when closed |
| CircuitBreaker.Breaker.OnFailure | packages/api-gateway/src/middleware/circuit-breaker.js:72-84 | counts and dates the failure, reopens or trips |
| CircuitBreaker.Breaker.GetState | packages/api-gateway/src/middleware/circuit-breaker.js:87-95 | the snapshot is the state after the step that looking may cause |
| CircuitBreaker.StepAgrees | packages/api-gateway/src/middleware/circuit-breaker.js:36-84 | one step keeps the counters equal to their readings off the recorded outcomes |
| CircuitBreaker.CountersMeanTrace | packages/api-gateway/src/middleware/circuit-breaker.js:36-84 | on every trace the mode is that of a breaker without counters: trips iff the last failureThreshold outcomes since closing are failures, closes on exactly halfOpenMax successes; CLOSED iff failureCount is below the threshold |
| CircuitBreaker.SnapshotMeansTrace | packages/api-gateway/src/middleware/circuit-breaker.js:36-95 | every field that getState shows, in every mode: failures since the last success that found or left it closed, successes of the latest half-open stretch, latest failure, latest change |
| CircuitBreaker.FailuresAreRecorded | packages/api-gateway/src/middleware/circuit-breaker.js:72-84 | the failures on record are those of the trace, whatever the mode they land in |
| CircuitBreaker.RejectedIff | packages/api-gateway/src/middleware/circuit-breaker.js:43-55 | a request is rejected iff the circuit is open and less than resetTimeoutMs has passed since the latest failure of the whole trace |
| CircuitBreaker.ChangeIsStamped | packages/api-gateway/src/middleware/circuit-breaker.js:36-41 | lastStateChange is the time of the latest change of mode |
| CircuitBreaker.OpeningsApart | packages/api-gateway/src/middleware/circuit-breaker.js:43-84 | entries i and j into OPEN are at least (j - i) timeouts apart, so k entries need k - 1 timeouts of elapsed time |
| GatewayRoutes.FirstMatch | packages/api-gateway/src/index.js:303-345 | the first mounted router whose path is a segment prefix of the request's |
| GatewayRoutes.FirstIsLongestIff | packages/api-gateway/src/index.js:303-345 | first match is longest-prefix match on every request iff no path is mounted only after a proper prefix of it |
| GatewayRoutes.LiveIff | packages/api-gateway/src/index.js:303-345 | a route is ever dispatched to iff no earlier path is equal to or above its path |
| GatewayRoutes.DeleteShadowed | packages/api-gateway/src/index.js:303-345 | deleting a shadowed route changes the dispatch of no request |
| GatewayRoutes.TableOrder | packages/api-gateway/src/config/routes.js:30-132 | in this table first match is longest match, and exactly the two mutation rows are never reached |
| GatewayRoutes.DispatchLaw | packages/api-gateway/src/config/routes.js:30-132 | the row that every path is dispatched to, by its third and fourth segment |
| GatewayRoutes.RowData | packages/api-gateway/src/config/routes.js:30-132 | service, access, limiter and methods of every row |
| GatewayRoutes.PassWithoutTokenIff | packages/api-gateway/src/middleware/auth-filter.js:21-106 | without a token a non-OPTIONS request passes the auth stage iff the route is public and lists no methods or this one |
| GatewayRoutes.PublicFace | packages/api-gateway/src/config/routes.js:30-132 | for all paths, what passes without a token: auth, GET of lost-found, GET of products outside products/admin, nothing else |
| GatewayRoutes.MutationLimiter | packages/api-gateway/src/config/routes.js:48-88 | mutations of products outside products/admin and of lost-found items run under the `global` limiter and pass iff they carry a token, although rows listing them ask for `sensitive` |
| GatewayRoutes.Gateway.constructor | packages/api-gateway/src/index.js:165-172 | the loop gives every service its own closed breaker |
| GatewayRoutes.ReplyLaw | packages/api-gateway/src/index.js:49-353 | the reply to every request on every table: OPTIONS and own pages end early, unmatched paths by prefix; then 429 iff limited, 401 iff no valid token and the route is not public or lists other methods, 503 iff the service's breaker is open and failed less than 30 s ago, else proxied; only the last test touches a breaker |
| GatewayRoutes.TokenLaw | packages/api-gateway/src/middleware/auth-filter.js:21-106 | the stacked filters refuse iff the request is not OPTIONS, no valid token is there, and the route asks for one |
| GatewayRoutes.Gateway.Handle | packages/api-gateway/src/index.js:49-353 | CORS ends OPTIONS, the gateway's own pages come next, then the first router decides: 429, 401, 503 iff the service's breaker is open, else proxied; unmatched paths get 404 below /api/v1, the socket proxy below /ws; only that breaker is touched, and only past limiter and auth |
| GatewayRoutes.Gateway.OnProxyRes | packages/api-gateway/src/index.js:208-216 | an answer of 500 or more counts as a failure of the service's breaker, any other as a success |
| GatewayRoutes.Gateway.OnProxyError | packages/api-gateway/src/index.js:217-219 | a connection error counts as a failure |
| GatewayRoutes.Gateway.OnHealth | packages/api-gateway/src/index.js:237-240 | the health page reads a breaker through the step that may half-open it |
| GatewayRoutes.BreakersIndependent | packages/api-gateway/src/index.js:165-232 | on every run each service's breaker is the breaker of that service's own sub-trace: other services, refused and limited requests leave no mark |
| ChatClient.ChatService.FlushPendingFrames | frontend/src/services/chatService.ts:67-78 | frames go out in queue order, those whose send throws become the new queue in reverse order |
| ChatClient.ChatService.SendOrQueue | frontend/src/services/chatService.ts:80-90 | sent at once when connected, otherwise queued and a connection attempted |
| ChatClient.ChatService.OpenLink | frontend/src/services/chatService.ts:139-164 | without a token the queue is dropped; otherwise one new client object unless one is up or dialing |
| ChatClient.ChatService.OnEstablished | frontend/src/services/chatService.ts:172-207 | the connect callback flushes and runs the connected listener, if the current client is up |
| ChatClient.ChatService.OnError | frontend/src/services/chatService.ts:208-231 | the error callback, which a STOMP ERROR frame also reaches with the link up, arms the reconnect timer, or disconnects without a token |
| ChatClient.ChatService.OnLost | frontend/src/services/chatService.ts:208-231 | the same callback after the client went down |
| ChatClient.ChatService.SubscribeToConversation | frontend/src/services/chatService.ts:270-299 | registering and subscribing make at most one subscription, at once if connected |
| ChatClient.ChatService.CancelSubscription | frontend/src/services/chatService.ts:301-311 | the handle is deactivated and its listener removed |
| ChatClient.FlushConserves | frontend/src/services/chatService.ts:67-78 | whatever subset of sends throws, each queued frame is sent once or still pending |
| ChatClient.FailedOrderIff | frontend/src/services/chatService.ts:67-78 | in a queue without repeats the failed frames keep their order iff at most one failed; in any queue, iff their list is a palindrome |
| ChatClient.FlushOrderIff | frontend/src/services/chatService.ts:67-78 | a flush of a queue without repeats keeps sent and pending frames in order iff no frame but the last one fails |
| ChatClient.EveryRunConserves | frontend/src/services/chatService.ts:67-90 | on every run each accepted frame is sent once, pending, or dropped for want of a token |
| ChatClient.DropsIff | frontend/src/services/chatService.ts:80-145 | an event drops frames iff there is no token and it is a send on a link that is down, or a connect or due reconnect with frames queued |
| ChatClient.RunDropsIff | frontend/src/services/chatService.ts:67-231 | a run has dropped nothing iff none of its events met such a state |
| ChatClient.QueueOrder | frontend/src/services/chatService.ts:67-90 | when no event meets a dropping state or a throwing flush, frames leave in the order they were accepted, and nothing is pending while connected |
| ChatClient.QueueOrderIff | frontend/src/services/chatService.ts:67-145 | on a run of different frames the order is kept throughout iff no event drops frames, no flush fails before its last frame, and no send passes a queue left by a flush |
| ChatClient.OneSubscriptionEach | frontend/src/services/chatService.ts:270-312 | on every run at most one subscription per client object, and one on the current client whenever the handle is active and the client connected |
| ChatClient.HandleIsHistory | frontend/src/services/chatService.ts:270-312 | on every run the handle is read off the events and the link: opened once, subscribed to each client met while active, cancelled for good |
| ChatClient.ActiveIsHistory | frontend/src/services/chatService.ts:270-312 | it exists from the first subscribeToConversation and is active until the first cancel |
| ChatClient.OpenedStaysActive | frontend/src/services/chatService.ts:270-299 | opened, it stays active through every event but cancel |
| ChatClient.CancelEnds | frontend/src/services/chatService.ts:301-311 | cancel ends it: whatever follows, it is inactive, holds no subscription, and makes no other |
| ChatClient.AcceptedIsTakenOn | frontend/src/services/chatService.ts:80-90 | the accepted frames are those of the sends, but for sends that threw on a live link |
| ChatClient.LinkLaw | frontend/src/services/chatService.ts:118-231 | what every event does to client, dialing, reconnect timer and token: a client is dialed exactly when a connection is wanted, there is a token, and none is up or dialing |
| ChatClient.LinkHistory | frontend/src/services/chatService.ts:139-231 | on every run the token is the latest seen, clients are numbered as dialed, whoever connects is dialing its own client, the timer runs only after an error |
| ChatClient.LossIsRepaired | frontend/src/services/chatService.ts:147-231 | with a token a lost client is replaced by the timer's new one, which when connected leaves nothing pending and an active handle subscribed |
| ChatClient.CancelledStays | frontend/src/services/chatService.ts:301-311 | after cancel the handle never changes or subscribes again |
| Findings.BackslashBeforeC | packages/chat-service/src/utils/stomp-parser.js:134-146 | a backslash before c does not make the round trip, and one pass would |
| Findings.ProtoHeaderIsLost | packages/chat-service/src/utils/stomp-parser.js:34-44 | a lone `__proto__` header arrives as no header |
| Findings.HeartbeatInsideBody | packages/chat-service/src/services/socket.service.js:201-206 | a line feed dropped inside a body is noticed |
| Findings.GapInIgnoredHeader | packages/chat-service/src/services/socket.service.js:201-206 | a space dropped inside an ignored header line is not, although the buffer is not blank |
| Findings.OverflowWithEmptyBuffer | packages/chat-service/src/services/socket.service.js:208-217 | one byte overflows a connection whose buffer is empty |
| Findings.LateCleaning | frontend/src/services/api.ts:36-88 | a late second clock reading lets a second mutation through 999 ms after the first |
| Findings.SecondIdentity | packages/chat-service/src/services/socket.service.js:346-355 | a second CONNECT leaves the connection in the first user's set |
| Findings.MessagesOfFirstIdentity | packages/chat-service/src/services/socket.service.js:346-355 | and its queue gets the messages of the first user |
| Findings.SharedConversation | packages/chat-service/src/services/socket.service.js:12-14 | two pairs of ids with colons share a conversation |
| Findings.DroppedWithoutToken | frontend/src/services/chatService.ts:80-145 | a frame sent without a token is accepted and dropped at once |
| Findings.FailedFramesChangePlaces | frontend/src/services/chatService.ts:67-78 | two frames that fail in one flush change places |
| Findings.FailedFrameIsOvertaken | frontend/src/services/chatService.ts:67-78 | one frame that fails is overtaken by the next |

## Left out

- TokenRefresh.AuthClient.ResumeLeader: which of the two login pages is opened, and a token stored before the first refresh, are not modelled.
- SessionRegistry.Sessions.HandleConnect: header extraction, token verification and the heartbeat timer it starts are outside; the verified claims, or their absence, are an argument.
- Delivery.ChatServer.HandleChatSend: the product context stored with a message is not modelled; a content that is not a string is taken like a missing one, as both end in the same ERROR.
- GatewayRoutes.Gateway.Handle: what the own pages and the socket proxy answer, and Express's reply to a path nobody takes, are not modelled.
- Delivery.ChatServer.CompleteChatSend: gives the count of every frame per connection, not the order among connections, which follows Map insertion order.
- UTF-16: a character here is a Unicode scalar value, so lone surrogates do not occur and length limits count scalars.
- Header objects: entries are serialized in an order given by the caller and parsed into a map; own-key order and inherited properties are not modelled, except that `__proto__` cannot be set.
- Session objects are values in the registry, so a handler that still holds a removed session object is not modelled; the transport delivers no data after close.
- Heartbeat timers, Redis publishing, image, read and typing messages, message ids and frame bodies of deliveries.
- The request key is an argument; building it from method, URL and payload is not modelled.
- A replay is an opaque re-issue: its passage through the request interceptor is not part of the retry protocol.
- The rate limiters of the gateway are a yes or no per request; identity headers, CORS headers and proxying itself are outside.
- Request paths are lists of lower-case segments; decoding and case folding of paths are not modelled.
- The client's fixed subscriptions, the other listener lists and the presence handle, which has the same shape as the conversation handle; `subscribe` itself is taken not to throw.
- User interface, order, product, lost-found, karma and saga services, and database queries.
