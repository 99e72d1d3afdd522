# COW, modelled and proved

COW is a forwarding proxy for HTTP and SOCKS5. This project models its decision logic in Dafny and proves what it
promises: the loop that tries, retries and answers a request; the tunnel behind CONNECT; the pool of server
connections and the admission queue of the HTTP plugin; the codecs for message bodies, for SOCKS5 over TCP and UDP and
for the TLS ClientHello; the choice of a parent proxy; and the statistics that decide which sites are visited
directly. `dafny verify dfyconfig.toml` checks everything.

| file | what it models |
|---|---|
| Wire, Numerals, HostPort | bytes, integers as `util.go` parses them (int64 wrap-around written out), host and port |
| ChunkedBody, RelayUse | the chunked coding of section 4.1 of RFC 7230 with a reference decoder, and the loops that relay a body |
| ResponseFraming, ResponseUse | the response header towards the client and its body, against section 3.3.3 of RFC 7230 |
| RequestLoop | `serve`: attempts, retries, error pages, the retry buffer, the plugin slot |
| RequestDecisions | what an attempt decides, sends and does to its site, in the terms of its script |
| RequestRuns, RequestWitnesses | what holds of every run of that loop, and runs that show what it does and what goes wrong |
| Tunnel, TunnelUse | the two copy loops of a tunnel, step by step, with the bytes they move |
| ConnPool, ConnPoolUse, PluginQueue, PluginQueueUse | the two shared resources, as transition systems over all interleavings |
| Socks5, Socks5Peers, Socks5Handshake, Socks5Use | the SOCKS5 messages, both peers, and the two peers composed |
| Socks5Udp, Socks5UdpUse | SOCKS5 datagrams and the relay |
| ClientHello, ClientHelloUse | the ALPN scanner against the encoding of RFC 5246 and RFC 7301 |
| ParentPool | failover and latency pools, and the pool of HTTP parents |
| Domain, SiteStat, SiteUse | host, domain and URL; visit records, temporary blocks, the direct list |

Code that loops over buffers or updates an object is a method with invariants, proved against a function of the old
state; concurrent code is a transition system whose steps are single atomic operations, with an invariant over all
reachable states. In the request loop everything the network does to an attempt is an input: what can be dialed, how
many bytes the connection accepts and how it fails then, the answer, and both sides of a tunnel; so is the client's
stream. Other clients and the clock are nondeterministic, unless a script keeps them quiet. Read errors and deadlines
appear only as what the code can tell about them.

The models define their steps with small functions. The modules whose names end in Use, and RequestDecisions, say what
those steps come to without naming them: in which cases each outcome occurs, with the bytes and numbers written out, and
runs in which the ordinary things happen.

## What the proofs showed about the code

- A WebSocket upgrade that succeeds on a retry ends in a nil dereference: `readResponse` releases the request buffer
  (proxy.go:730) and the tunnel then asks for the buffered body because it is a retry (proxy.go:1250-1256).
  `RequestRuns.RunCrashes` is the exact condition, `RequestWitnesses.RetriedUpgradeCrashes` a run.
- A retry sends the body that was kept when the first attempt stopped reading. If the first connection broke inside the
  body, that is a part of it, and the rest is still to be read when the retry is answered. The body is whole exactly when
  the first attempt left the stream at its end (`RequestLoop.FirstAttempt`); `RequestWitnesses.RetriedBodyIsCut` is a run
  with a cut body.
- When no server is found on a retry, the page is followed by skipping a whole body, although part of it has already
  been read (proxy.go:564-571): bytes of the next request are lost. `RequestRuns.SizedAligned` and
  `RequestRuns.ChunkedAligned` say exactly when, `RequestWitnesses.RetriedPageSkipsTooMuch` is a run.
- A CONNECT that is retried over an HTTP or cow parent sends the buffered bytes twice (proxy.go:1410, proxy.go:1256):
  `RequestLoop.SentTwice` and `RequestWitnesses.RetriedConnectSendsTwice`.
- Resetting `tryCnt` (proxy.go:428) makes the next attempt a first try again: it sends the kept body and then reads the
  client for more. Four idle connections that a server has closed are enough to send it a byte of the next request
  (`RequestWitnesses.ResetSendsNextRequest`); `RequestRuns.ResetSendsOnce` is the exact condition. A CONNECT is told of a
  tunnel a second time only if its block expires in between (`RequestLoop.ServeRequest`, `RequestWitnesses.ToldTwice`).
- A chunk size such as `-6` on a four-byte line makes `sendBodyChunked` spin for ever, for requests as for responses; the
  exact inputs are characterised by `ChunkedCoding.SpinsExactly`. The goroutine never comes back, and a plugin slot of
  its exchange is never given back (`RequestRuns.SlotLost`, `RequestWitnesses.SpinningRequestKeepsSlot`,
  `RequestWitnesses.SpinningResponseKeepsSlot`).
- A Content-Length below -1 is forwarded as it is while the body is sent in chunks (`ResponseFraming.NegativeLengthIsLost`).
- A Content-Length of 2^63 or more wraps around: 2^64+5 is forwarded, and five bytes are sent under it
  (`ResponseFraming.HugeLengthIsCut`). A coding such as `chunked,gzip` is taken for chunked
  (`ResponseFraming.ChunkedIsNotLast`), and `identity` leaves a length in force, as RFC 2616 had it.
- A response without a body is recorded by the plugin as chunked exactly when its header says so; its empty recording
  then does not decode (`ResponseFraming.HeadIsRecordedAsChunked`).
- `host2Domain` is idempotent exactly for hosts that do not end in two dots (`Domain.DomainIsIdempotent`), and only for
  those does a temporary block also remove the entry of the domain itself from the direct list.
- The panic in `TempBlocked` is unreachable as long as a pool key determines its host. It does for all URLs except those
  taken from a Host header or a CONNECT with brackets around something that is not an IPv6 address: `[10.0.0.1]:80` and
  `[10.0.0.1]` share a key, and then the panic can be reached (`SiteStat.TempBlockedCanPanic`).
- While a tunnel is to be retried, a write to the silent server can hold up the retry (`Tunnel.ClosesDown`,
  `Tunnel.WriteHoldsUp`).
- A ClientHello without extensions that is followed by other bytes in its record is read as if those were its
  extensions (`ClientHello.ReadsPastTheMessage`).
- The cleanup loop of the shared channel ends the first time it finds the channel empty (`ConnPool.SharedLoopRuns`,
  `ConnPool.SharedLoopEnds`). A loop that puts a connection back waits when the channel has been filled in the meantime
  (`ConnPool.PutBackHeldUp`), until somebody receives from it (`ConnPool.HeldUpStep`). A Put still pending when a removed
  channel has been drained leaves its connection open (`ConnPool.LatePutLeaks`); a run leads there
  (`ConnPool.LatePutHappens`).

## Model

| member | source | states |
|---|---|---|
| RequestTrace.TraceIsSafe | proxy.go:399-437 | A trace accepted by the automaton has no attempt after response bytes or a page, at most one page, and never a page and a response |
| RequestLoop.World.Interfere | conn_pool.go:63-90 | Nothing, the expiry of the block, or anything: other clients may take connections and block the site freely; adding one, or the expiry of the block, uses up a given number of disturbances |
| RequestLoop.ServerWrite | proxy.go:1215-1231 | While the buffer is held it is the header followed by all body bytes so far, and no longer than the header or 2*8192-1 bytes plus the largest write; it is given up exactly at 16384 bytes, or once a response has started; the write fails exactly beyond what the connection accepts |
| RequestLoop.HandleServerWriteError | proxy.go:662-669 | Always a retry; the site is blocked exactly when a connection that may be fake was reset |
| RequestLoop.HandleServerReadError | proxy.go:643-660 | Retry exactly at EOF, or when a connection that may be fake times out, is reset or returns the configured status; otherwise one page if nothing was sent, and nothing if something was |
| RequestLoop.ConnectServer | proxy.go:882-949 | A connection or exactly one page; which of the two, and which way, follows from what can be dialed, the site and the configuration; a direct connection that may be fake was made while the site was not blocked, which costs a disturbance or happens once |
| RequestLoop.GetServerConn | proxy.go:797-818 | The same with pooled connections: an idle direct connection is taken, and leaves the pool, exactly if there is one and this is not a CONNECT; otherwise a shared one if there is one; otherwise a new one |
| RequestLoop.SendRequestHeader | proxy.go:1397-1439 | A server receives its own request line, the fields and all of the kept body; an HTTP or cow parent the client's line and its authorization instead; anything the connection does not accept is a retry |
| RequestLoop.SendRequestBody | proxy.go:1441-1472 | On a first try the client's body follows the header, all of it if the connection accepts it, and otherwise a part that ends within one block behind the limit, with the client's stream behind what was read; on a retry nothing is read |
| RequestLoop.SendRequest | proxy.go:1441-1472 | The bytes handed to the server, the rest of the client's stream, the kept body and the error, for every stream, framing and limit of the connection |
| RequestLoop.Tunnel | proxy.go:1138-1334 | What the server is sent: on a retry the kept bytes first, then what the client sends, which is kept too; a retry exactly when a connection that may be fake ends like a block before the server spoke, and exactly then the site is blocked; a nil dereference exactly on a retry whose buffer is gone |
| RequestLoop.ReadResponse | proxy.go:687-795 | The error is determined by the answer: a retry, a page, a failure, or never coming back from a body with a chunk size that makes no progress; a crash exactly when a 101 response that reached the client answers a WebSocket request on a retry; a retry leaves trace, buffer and connection as they were; and whether the exchange still has its slot |
| RequestLoop.DoRequest | proxy.go:1474-1490 | The error, the bytes sent, the rest of the client's stream, the body kept for a retry and the slot, as functions of the request, the stream, the connection and the answer; when the site is blocked; a retry sends exactly header and kept body and leaves them unchanged |
| RequestLoop.DoConnect | proxy.go:1339-1395 | The error and the bytes sent to the server or parent; a retry happens only in the open phase; the 200 line is sent only on a first try over a connection that is not HTTP or cow |
| RequestLoop.SentTwice | proxy.go:1256-1260 | The kept bytes are sent twice exactly on a retry through an HTTP or cow parent |
| RequestLoop.ShouldRetry | proxy.go:399-437 | Another attempt exactly for a retry error before any response, with the buffer held, before the fourth try or over a connection that may be fake; the counter is reset exactly at the fourth; the panic branch is dead; one page when a retry is refused |
| RequestLoop.UseServer | proxy.go:552-627 | One attempt, as a relation over the situation it started from: the kind of connection, what was sent to it and read, the slot, whether the site is blocked, and a verdict that is a function of the error, the buffer, the try count and the site |
| RequestLoop.UseConn | proxy.go:552-627 | The record of an attempt is what the connection that was passed in has been sent |
| RequestLoop.FollowedExactly | proxy.go:399-437 | Another attempt follows exactly on a retry error with the buffer held, before the fourth try or over a direct connection to a site with its own entry, and then the count is reset |
| RequestLoop.FirstAttempt | proxy.go:1441-1472 | What a first try sends, keeps and leaves unread, also after a reset: the whole body is read if and only if the stream is left at its end |
| RequestLoop.RetryAttempt | proxy.go:1397-1439 | A retry sends header and kept body and reads nothing |
| RequestLoop.CrashMeans | proxy.go:1250-1256 | An attempt crashes if and only if it is a retry, the connection accepts the request, the request is a WebSocket upgrade and the answer is a 101 response that reached the client |
| RequestLoop.HangMeans | proxy.go:1551-1587 | An attempt never comes back if and only if the body that is sent or skipped, or the response, has a size line without progress |
| RequestLoop.HangKeepsSlot | plugin.go:141-169 | And then the slot stays taken if and only if the exchange had one, or got it at this first try, and no header that was too large gave it back |
| RequestLoop.TryOnce | proxy.go:552-627 | One attempt keeps the invariant and either ends, raises the try count, or at the fourth try resets it while strictly lowering the potential |
| RequestLoop.ServeRequest | proxy.go:552-627 | The loop terminates, and its attempts are a run: each starts from what the one before left and ends as its script says, and the next follows exactly when the verdict is to try again. Resets are bounded by pooled direct connections, plus one if not blocked, plus disturbances; attempts are at most four times that plus four. A CONNECT gets at most one 200 line, or as many as disturbances, plus one if not blocked; other requests none |
| RequestDecisions.NoAnswerDecides | proxy.go:643-660 | A request sent in full and not answered: another attempt at the end of the stream, and, over a direct connection to a site with its own entry and with a parent configured, after a timeout, a reset or the configured status, which also block the site; a page in every other case; what becomes of the buffer, the fourth try and the slot |
| RequestDecisions.SilentServerDecides | proxy.go:869-874 | For such a connection with the buffer held and the site not yet blocked: tried again if and only if the error is one of the four, or, without parents, the end of the stream; blocked if and only if it is one of the three that look like a block |
| RequestDecisions.AnswerDecides | proxy.go:715-795 | A response leads to the next request exactly when it is complete and the client keeps its connection; it crashes on an upgrade of a retry, hangs on an endless body, and closes otherwise; it never blocks the site; when the slot is given back |
| RequestDecisions.SendingDecides | proxy.go:1441-1490 | A request not sent in full: another attempt exactly when the header was not accepted, or the body was not for an error of the network; the site is blocked exactly on a reset, or at the fourth try |
| RequestDecisions.TunnelDecides | proxy.go:1173-1177 | A CONNECT is tried again exactly when a parent did not accept its header, or when a direct connection to a site with its own entry, with a parent configured and a silent server, ends in a timeout, a reset or the configured status; only the latter blocks the site |
| RequestDecisions.PageDecides | proxy.go:564-571 | Without a connection: a page, then the next request behind what looks like a body; a CONNECT is closed; the site stays as it was |
| RequestDecisions.GivenUpMeans | proxy.go:1215-1231 | The buffer is held as long as header and body are shorter than 16384 bytes |
| RequestDecisions.RouteDecides | proxy.go:882-949 | With nobody else at the site and nothing from the pool, which way is taken and whether the site is taken for blocked, for every site, configuration and outcome of dialing |
| RequestDecisions.PoolDecides | proxy.go:797-818 | An idle direct connection goes first, then a shared one |
| RequestDecisions.HeaderDecides | proxy.go:1397-1439 | Which header each kind of connection gets |
| RequestDecisions.BytesDecide | proxy.go:1441-1472 | A request sent in full: header and kept body, and on a first try nothing, the announced bytes or the relayed chunks of the client's stream, whose rest is left |
| RequestDecisions.TunnelBytesDecide | proxy.go:1250-1260 | A tunnel accepted in full: header and kept bytes for a parent, the kept bytes again on a retry, and all that the client sends |
| RequestRuns.ServedOnce | proxy.go:1397-1472 | In every run every server that accepts as much is sent its header and the body kept by the last first try, once |
| RequestRuns.AcrossReset | proxy.go:420-430 | After a reset the attempt is a first try with the body kept and the stream left by the first try before it; the reset came over a direct connection to a site with its own entry |
| RequestRuns.StreamConserved | proxy.go:1441-1472 | For a body with a length, kept body and unread stream make up the client's stream before every attempt and after every first try of every run |
| RequestRuns.ResetSendsMore | proxy.go:1441-1472 | The attempt after a reset sends the kept body, and then as much again as a body takes from what is left of the stream |
| RequestRuns.ResetSendsOnce | proxy.go:1441-1472 | That is the client's body once if nothing had been read; if all of it had, if and only if no body seems to follow; for a body with a length if and only if nothing had been read or the stream ends with the body |
| RequestRuns.StreamAfter | proxy.go:564-571 | Where the client's stream is left by every run: behind what was read, and after a page for want of a connection behind another body |
| RequestRuns.SizedAligned | proxy.go:564-571 | For a body with a length, in every run: the stream is at the next request if and only if exactly the body was kept, or, after such a page, nothing had been read before or the stream ends with the body |
| RequestRuns.ChunkedAligned | proxy.go:564-571 | For a chunked body before any reset: if and only if all of it was kept; after a page on a retry, when all of it was kept, if and only if what follows is not a chunk |
| RequestRuns.RunCrashes | proxy.go:1250-1256 | Every run crashes if and only if its last attempt is a retry over a connection that accepts the request, and its answer upgrades |
| RequestRuns.SlotLost | plugin.go:141-169 | A run ends with a slot that is never given back if and only if its last attempt never comes back, a first try was admitted, and no header that was too large came in between |
| RequestWitnesses.TimeoutGoesToParent | proxy.go:643-660 | A run through ServeRequest: a GET whose direct connection times out, which blocks the site, and which a parent then answers |
| RequestWitnesses.RetriedUpgradeCrashes | proxy.go:730-752 | A run of two attempts that ends in the crash |
| RequestWitnesses.RetriedBodyIsCut | proxy.go:1452-1472 | A run in which the second server is sent at most one block of a body of three, while the rest stays unread |
| RequestWitnesses.RetriedPageSkipsTooMuch | proxy.go:564-571 | A run after which the next request is looked for behind bytes that belong to it |
| RequestWitnesses.RetriedConnectSendsTwice | proxy.go:1256-1260 | A run in which a parent is sent the client's byte twice |
| RequestWitnesses.ResetSendsNextRequest | proxy.go:420-430 | A POST over four idle connections that the server had closed: the fifth server is sent the body and a byte of the next request |
| RequestWitnesses.ToldTwice | proxy.go:1354-1360 | A CONNECT whose block expires once and which is told of a tunnel twice |
| RequestWitnesses.SpinningRequestKeepsSlot | proxy.go:1551-1587 | A connection whose request has the chunk size -6: serve never comes back and a slot is gone |
| RequestWitnesses.SpinningResponseKeepsSlot | proxy.go:1551-1587 | The same for a response with such a chunk |
| RequestLoop.Serve | proxy.go:468-627 | Over a whole connection each request is parsed where the one before left the stream and has the story of a run, with as many attempts as its trace shows; all but the last went on to the next, and the loop ends before the limit only by a verdict that ends it. Every plugin slot is given back or handed over, except that of an exchange that has one when its last attempt never comes back |
| RequestLoop.ServeCaptured | capture.go:639-676 | Each captured request is parsed where the one before left the stream and sent once; every slot is given back, except that of an exchange that has one when its call never returns |
| Tunnel.InvKept | proxy.go:1138-1201 | Every atomic step of either loop keeps the invariant |
| Tunnel.BytesAreRelayed | proxy.go:1189-1291 | In every reachable state what was read from the server is what was written to the client plus what is about to be written; and what was kept on a retry, was buffered, and was read from the client, is what was written to the server plus what is about to be |
| Tunnel.BufferHasAll | proxy.go:1215-1231 | In every reachable state a buffer that is held has what was kept before and all that was read from the client, except what is about to be stored |
| Tunnel.DeliveryIsNoted | proxy.go:1195-1196 | If bytes of the server reached the client, that is noted |
| Tunnel.AnswerArrives | proxy.go:1189-1196 | A run of a tunnel not answered before in which the server's bytes reach the client and both states move |
| TunnelUse.Starts | proxy.go:1233-1264 | Where both loops start |
| TunnelUse.ServerErrorDecides | proxy.go:1165-1187 | A read error is a retry exactly when it is a timeout or a reset, the connection is direct and in doubt, and there is a parent |
| TunnelUse.ServerReadsAndWrites | proxy.go:1160-1201 | What is read is written to the client, and then both states move, in that order |
| TunnelUse.ServerLeaves | proxy.go:1378-1389 | A retry notifies and waits; any other end closes both connections first |
| TunnelUse.ClientBegins | proxy.go:1250-1270 | The kept bytes go first on a retry, then what has been read already |
| TunnelUse.ClientReadsAndWrites | proxy.go:1293-1334 | Reads have a deadline exactly while the connection is in doubt; what is read is kept and written |
| TunnelUse.ClientErrorDecides | proxy.go:1301-1317 | When an early close marks the site, and which errors end the loop |
| Tunnel.RetryIsClean | proxy.go:1173-1178 | In every interleaving a retry finds nothing delivered, both states unmoved, and the buffer held or given up for its size |
| Tunnel.LinkMovesOn | proxy.go:1195-1196 | The states of request and connection only move forward during a tunnel |
| Tunnel.NeverStarves | proxy.go:1294-1302 | While a retry is pending the client's loop is never in a read without a deadline |
| Tunnel.FirstTimeoutEnds | proxy.go:1302-1313 | The first read timeout after the notification ends the loop and takes the notice, which is taken at most once; no timeout is ignored after it |
| Tunnel.LeavesNothingBehind | proxy.go:1236-1243 | Notifying never blocks, and no read deadline is left on the client connection |
| Tunnel.SslBlockNeedsAnswer | proxy.go:1303-1306 | An early close marks the site only if the connection's state moved between the two loads, and never together with a retry |
| Tunnel.ClosesDown | proxy.go:1378-1389 | Once the server's loop has ended some step is possible that waits for no peer, if and only if it is not the case that a retry is pending and the client's loop is in a write to the server |
| Tunnel.WriteHoldsUp | proxy.go:1380-1384 | A run that reaches this state |
| Tunnel.ToldMeansEnding | util.go:21-39 | After the notification every step of the client's loop that reads no more bytes brings it nearer to its end, at most ten steps away |
| ConnPool.InvKept | conn_pool.go:33-216 | Every step of Get, Put, CloseAll and the cleanup loops keeps the invariant |
| ConnPool.OnePlaceEach | conn_pool.go:33-128 | In every interleaving a connection is at one position of one channel, with one goroutine, or closed, so it is never handed to two callers |
| ConnPool.ChannelsBounded | conn_pool.go:48-61 | At most five idle connections per host and ten shared ones |
| ConnPool.GetAnswers | conn_pool.go:63-90 | Get returns an open connection for that host, or a shared one when the site is not direct or everything goes through parents |
| ConnPoolUse.GetLooks | conn_pool.go:63-74 | Get looks in the host's own channel exactly if there is one |
| ConnPoolUse.GetReceives | conn_pool.go:33-46 | It receives the oldest connection and returns it unless it looks stale |
| ConnPoolUse.GetCloses | conn_pool.go:36-42 | A stale one is closed, and the next is received |
| ConnPoolUse.GetShares | conn_pool.go:74-90 | Without one for the host, a direct site gets none and any other a shared one |
| ConnPoolUse.GetTakesOldest | conn_pool.go:63-74 | From every reachable state in which the host's channel holds a connection, Get returns the oldest if it does not look stale |
| ConnPoolUse.GetTakesShared | conn_pool.go:76-90 | The same for a shared connection when the host has no channel, unless the site is direct |
| ConnPoolUse.PastOnlyIfMissed | conn_pool.go:63-90 | In every run a call goes past the host's channel only if the host had none when it was looked up, or the channel was found empty |
| ConnPoolUse.EmptyHanded | conn_pool.go:63-90 | A call ends without a connection only behind the host's channel: at a direct site when not everything goes through parents, or at an empty shared channel |
| ConnPoolUse.PutLooks | conn_pool.go:92-105 | Where Put sends a connection |
| ConnPoolUse.PutKeeps | conn_pool.go:48-61 | It is kept exactly if the channel has room, five or ten places, and closed otherwise |
| ConnPoolUse.PutCreates | conn_pool.go:100-123 | A host without a channel gets one, unless somebody else has just made it |
| ConnPoolUse.PutStarts | conn_pool.go:113-123 | With it comes a cleanup loop |
| ConnPoolUse.PutThenGet | conn_pool.go:63-128 | From the start: a connection that was put is what the next Get for its host returns |
| ConnPoolUse.SweepRound | conn_pool.go:149-182 | One round of a sweep closes the oldest connection if it is stale or all are to be closed, and puts it back otherwise |
| ConnPoolUse.SweepRemoves | conn_pool.go:167-182 | An empty channel leaves the map exactly if it is still the host's, the shared one never |
| ConnPoolUse.SweepBeginsAndEnds | conn_pool.go:149-165 | A sweep has as many rounds as there are connections, and at least one |
| ConnPoolUse.Drains | conn_pool.go:184-216 | After its removal a channel is emptied |
| ConnPoolUse.CloseAllBegins | conn_pool.go:130-147 | CloseAll goes through every channel in the map and the shared one |
| ConnPoolUse.CloseAllEmpties | conn_pool.go:130-147 | Undisturbed it closes all that a channel holds |
| ConnPool.OneCleanupLoop | conn_pool.go:100-123 | A channel in the map has exactly one cleanup loop, running or about to start |
| ConnPool.RemovedStaysOut | conn_pool.go:149-182 | A removed channel is never put back |
| ConnPool.ReplacementSurvives | conn_pool.go:149-182 | Only its own removal takes a channel out of the map |
| ConnPool.DrainLeavesDead | conn_pool.go:184-216 | When the final drain ends with no Put pending, nothing is left in the channel |
| ConnPool.DeadForever | conn_pool.go:184-216 | Such a channel stays empty in every continuation |
| ConnPool.LatePutLeaks | conn_pool.go:92-128 | Without that hypothesis a connection is left open in a channel that is in no map and has no loop |
| ConnPool.LatePutHappens | conn_pool.go:92-128 | For every host a run from the start reaches such a Put: its channel is created, swept, removed and drained before it is put |
| ConnPool.LatePutIsPending | conn_pool.go:92-128 | That run ends with the Put enabled, and after it the connection is in a channel that is in no map |
| ConnPool.SharedLoopEnds | conn_pool.go:167-178 | The loop of the shared channel can end while the channel stays in use |
| ConnPool.SharedLoopRuns | conn_pool.go:167-178 | From any state of a run on, the loop of the shared channel goes on sweeping if and only if it never finds the channel empty |
| ConnPool.SharedLoopFromStart | conn_pool.go:167-178 | The same from the start of the program |
| ConnPool.HeldUpStep | conn_pool.go:149-160 | A loop whose put-back finds the channel full stays where it is until another goroutine receives from that channel, and can then go on |
| ConnPool.HeldUpUntilTaken | conn_pool.go:149-160 | In a run in which nobody receives it waits for ever |
| ConnPool.PutBackHeldUp | conn_pool.go:149-160 | A run that reaches such a state |
| PluginQueue.InvKept | plugin.go:141-227 | Every step of begin, submit, discard, close and the worker keeps the invariant |
| PluginQueue.SlotsAccountedFor | plugin.go:141-169 | Occupied slots are the exchanges with requests, in the queue and with the worker, at most 64 |
| PluginQueueUse.AdmitsWhenFree | plugin.go:154-161 | In every reachable state begin takes a slot and admits a new exchange if and only if those with requests, in the queue and with the worker are fewer than 64 |
| PluginQueueUse.RefusalMeansFull | plugin.go:141-161 | In every reachable state a begin is refused for want of a slot if and only if 64 exchanges are with requests, in the queue and with the worker |
| PluginQueueUse.BeginChecks | plugin.go:141-153 | What a closed writer and a long header lead to |
| PluginQueueUse.BeginHandsOver | plugin.go:141-162 | What was admitted is held by its request |
| PluginQueueUse.SubmitDecides | plugin.go:171-189 | An exchange is queued if and only if the writer is open and both bodies fit; otherwise it is dropped and its slot given back |
| PluginQueueUse.Discards | plugin.go:164-169 | A discarded exchange gives its slot back, and is counted as dropped if it is to be |
| PluginQueueUse.WorkerStores | plugin.go:204-227 | The worker takes the oldest exchange, counts what became of it, and gives its slot back |
| PluginQueueUse.WorkerGoesOn | plugin.go:204-227 | It is never stuck while something is queued, and ends exactly when the closed queue is empty |
| PluginQueueUse.Closes | plugin.go:191-202 | Close marks, closes the queue once and waits for the worker |
| PluginQueueUse.Locks | plugin.go:141-202 | Who waits for whom |
| PluginQueueUse.CountersTell | plugin.go:204-263 | Over every run the count of refused exchanges rises exactly at a header that is too long while the writer is open, or without a free slot; admitted exactly with one; and written, skipped and failed count what the database did |
| PluginQueueUse.OneExchange | plugin.go:141-227 | From the start: an exchange is admitted, queued, stored and counted as written |
| PluginQueue.OneHolder | plugin.go:164-189 | No exchange is with two goroutines |
| PluginQueue.SubmitAlwaysQueues | plugin.go:171-189 | The queue-full branch is dead and the send is never on a closed channel |
| PluginQueue.DiscardNeverBlocks | plugin.go:164-169 | Giving back a slot never blocks |
| PluginQueue.JobsClosedOnce | plugin.go:191-202 | The job channel is closed at most once |
| PluginQueue.Conservation | plugin.go:204-263 | Admitted exchanges are in flight, queued, active, or counted once as written, skipped, failed, dropped or aborted |
| PluginQueue.CloseDrains | plugin.go:191-227 | Everything queued before close is processed, in order, before close returns |
| Numerals.TrimSpace | util.go:92-107 | The text without the white space at both ends |
| Numerals.ParseIntFromBytes | util.go:167-207 | Optional sign and digits of the base, wrapped to int64 |
| Numerals.HexParsesExactly | util.go:167-207 | Up to 15 hexadecimal digits are parsed without overflow |
| Numerals.SixteenDigitsOverflow | util.go:167-207 | Sixteen are not |
| ChunkedBody.CopyN | util.go:250-282 | Copies the requested bytes or all there are; end of file counts as success |
| ChunkedBody.SkipCRLF | proxy.go:1524-1535 | Consumes two bytes and succeeds exactly on CRLF |
| ChunkedBody.SendBodyChunked | proxy.go:1539-1588 | For every split into reads, bytes sent, bytes left and outcome are those of the relay function |
| ChunkedCoding.RelayedWellFormed | proxy.go:1539-1588 | On a well-formed stream data chunks pass verbatim, the last chunk is normalised, and the reader stops at the following bytes |
| ChunkedCoding.RelayedDecodes | proxy.go:1539-1588 | What the client receives decodes to the payload the server sent |
| ChunkedCoding.SpinsExactly | proxy.go:1551-1587 | The loop never ends exactly when, after copied chunks, a size line gives no positive length |
| ChunkedCoding.StuckNeedsSignOrOverflow | util.go:180-186 | Only a sign or more than 15 digits can give such a size |
| ChunkedCoding.SpinsNeedsSignOrOverflow | proxy.go:1551-1587 | No stream makes the loop spin but by a size line with a sign or more than 15 digits behind copied chunks |
| ChunkedBody.SpinOnce | proxy.go:1551-1587 | A round at such a line leaves reader and writer as they were, so that the next is the same |
| ChunkedCoding.MinusSixSpins | proxy.go:1551-1587 | A chunk size of -6 on a four-byte line makes it spin, whatever follows |
| ChunkedCoding.ChunksDecode | proxy.go:1592-1625 | Blocks re-encoded as chunks decode to the stream they came from |
| ChunkedBody.SendBodySplitIntoChunk | proxy.go:1592-1625 | A close-delimited body becomes chunks that decode to it; a broken one becomes a stream no decoder takes for complete |
| ChunkedBody.SendBodyWithContLen | proxy.go:1493-1502 | The announced number of bytes, or what there is at end of file |
| ChunkedBody.SendBody | proxy.go:1629-1644 | Chunked coding goes before a length, and a length before the end of the stream |
| ChunkedBody.SendWellFormedChunks | proxy.go:1539-1588 | The client decodes the server's payload, the reader is at the next message, and the plugin's copy is what was sent when within its limit |
| RelayUse.SizeDecides | proxy.go:1539-1588 | For every size line with up to 15 digits, white space around them and an extension, and everything behind it: the chunk is copied as it is, or, at size zero, the end of the body checked, rewritten or refused |
| RelayUse.NoSizeDecides | proxy.go:1551-1556 | Without a line feed within the buffer nothing is sent and nothing consumed |
| RelayUse.NoNumberDecides | proxy.go:1557-1566 | Nor with a line whose text before the semicolon is not a number |
| RelayUse.LengthDecides | proxy.go:1493-1502 | A body with a length, for every stream and its end |
| RelayUse.CopiedMeans | util.go:250-282 | How much is copied |
| RelayUse.CopyHolds | plugin.go:119-135 | The plugin's copy has everything up to 1048576 bytes, and nothing beyond |
| RelayUse.KeepDecides | proxy.go:1215-1231 | When bytes are kept for a retry, and when the buffer is given up or released |
| RelayUse.LengthText | proxy.go:1608-1612 | The length in front of a re-encoded block has lower-case digits and no leading zero |
| ChunkedBody.Writer.Write | plugin.go:114-128 | The plugin's copy equals what was written until it exceeds its limit, and is then dropped for good |
| ResponseFraming.Header.ParseHeader | http.go:588-616 | The header loop keeps, drops and interprets fields as the fold over its lines, and fails when it does, also at a line without a colon |
| ResponseFraming.ScanKnows | http.go:402-475 | Length and coding after parsing are those of the only such field, and no Transfer-Encoding is kept |
| ResponseFraming.ServerFraming | http.go:748-765 | The framing found in a header with at most one field of each kind is that of section 3.3.3 of RFC 7230 if and only if chunked is the final coding, or another coding does not contain the word and comes without a length, or there is no coding and the length, if any, is a numeral below 2^63 |
| ResponseFraming.ClientFraming | http.go:765-792 | The header for the client announces the body in the way it is sent, if and only if that is in chunks by the header or for want of a length, or the length is a numeral below 2^63 |
| ResponseFraming.NumeralParsed | util.go:167-207 | A decimal length is parsed to its value if and only if an int64 holds it |
| ResponseFraming.RelayResponse | proxy.go:715-762 | Nothing is sent for HEAD, 1xx, 204 and 304; otherwise the announced bytes, or chunks that decode to the server's chunks or to its whole stream: the client receives exactly the payload that the proxy takes the server to deliver, which is the server's when the framings agree; the plugin's copy within its limit decodes to it if and only if the response has a body or its header does not say chunked |
| ResponseUse.OneFaultRefuses | http.go:588-616 | A header is refused if and only if some line has no colon, a length that is no integer, a coding with neither word in it, or a timeout without a number; empty values are never looked at |
| ResponseUse.PassedOnInOrder | http.go:588-616 | The lines the client gets are exactly those that are not hop-by-hop and not empty if parsed, unchanged and in order |
| ResponseUse.LastCounts | http.go:402-465 | Of several lengths, codings or upgrades the last counts |
| ResponseUse.AddedForBody | http.go:765-778 | Which coding or length is added for the client |
| ResponseUse.EndsWithConnection | http.go:780-792 | How the header tells of an upgrade, of a connection that stays open, or of its end |
| ResponseUse.FoundMeans | http.go:457-465 | A word is found exactly where it first occurs |
| ResponseUse.NumberRefused | util.go:167-207 | What is not parsed as a number, exactly |
| ResponseUse.SignDecides | util.go:167-207 | What a sign does, also without digits |
| ResponseUse.StandardDecides | http.go:748-765 | When a header is invalid by section 3.3.3 of RFC 7230, and when its body ends with the connection |
| ResponseUse.FinalCodingMeans | http.go:457-465 | The final coding is what stands behind the last comma |
| ResponseUse.CompleteMeans | proxy.go:752-762 | What a client takes for a complete message on an open connection |
| ResponseFraming.NegativeLengthIsLost | http.go:765-778 | Below -1 the announced framing is not the one used |
| ResponseFraming.NegativeLengthParses | util.go:167-207 | A header with such a length is accepted |
| ResponseFraming.HugeLengthIsCut | util.go:167-207 | A length of 2^64+5 is forwarded as it is, and five bytes are sent |
| ResponseFraming.ChunkedIsNotLast | http.go:457-465 | "chunked,gzip" is taken for chunked, where the standard ends the body with the connection |
| ResponseFraming.HeadIsRecordedAsChunked | proxy.go:717-722 | The answer to a HEAD request with a chunked coding is recorded so that it does not decode |
| Socks5Messages.ReadRequestBytes | socks.go:459-533 | The server reads a built request completely and no further, for every target |
| Socks5Messages.ReadReplyBytes | socks.go:535-569 | The client reads any built reply completely and finds its code |
| Socks5Messages.ReadAuthBytes | parent_proxy.go:748-767 | Credentials of up to 255 bytes round trip |
| Socks5Peers.NegotiateSocks5 | socks.go:387-413 | Method choice and authentication as the step functions say, for every input |
| Socks5Peers.AuthSocksUserPass | socks.go:339-385 | Accepts exactly a known user with his password and an allowed port, with status 0, and answers any other complete message with status 1 |
| Socks5Peers.ParseSocks5Request | socks.go:415-496 | Reads the target and answers each malformed request with its code |
| Socks5Peers.ServeSocks | socks.go:989-1013 | The server's handshake is the run of its steps: what it sends, consumes and decides |
| Socks5Peers.ReadSocks5ConnectReply | parent_proxy.go:769-820 | Succeeds exactly on a complete reply with code zero, and consumes exactly that |
| Socks5Peers.Connect | parent_proxy.go:822-906 | The client's handshake is the run of its steps |
| Socks5Handshake.LockstepKept | parent_proxy.go:822-906 | Every step of either peer or of a network that cuts messages anywhere keeps the joint invariant |
| Socks5Handshake.DataMeansConnected | parent_proxy.go:902-905 | The client relays data only if the server let it in, connected to the same host and port and answered so, and then no handshake byte is left |
| Socks5Handshake.SameDestination | socks.go:505-533 | The server's target denotes what the client asked for |
| Socks5Handshake.FailTogether | socks.go:989-1013 | Neither peer fails while the other relays |
| Socks5Handshake.HandshakeDecides | socks.go:387-496 | A run can only stop with both relaying or both failed; relaying is equivalent to no user name and no authentication required, or a user in the table with that password and an allowed port; a port in range and a host with a place on the wire; and a successful connection |
| Socks5Handshake.RunsShrink | parent_proxy.go:822-906 | No run is infinite |
| Socks5Use.MethodDecides | socks.go:387-413 | The method chosen for every configuration and greeting: none before user name and password before refusal |
| Socks5Use.GreetingRefused | socks.go:387-398 | Which greetings are not answered |
| Socks5Use.PasswordDecides | socks.go:339-385 | On every complete message of RFC 1929 status 0 if and only if the user is known, the password is his and the port allowed; otherwise status 1 |
| Socks5Use.PasswordRefused | socks.go:339-363 | What an incomplete message, or one of another version, leads to |
| Socks5Use.RequestDecides | socks.go:415-496 | Where the server connects to for every address, name and port, and when it relays datagrams |
| Socks5Use.RequestRefused | socks.go:415-487 | Which requests are refused with 1, 7 or 8, in this order |
| Socks5Use.DialDecides | socks.go:535-574 | The replies after connecting, byte by byte |
| Socks5Use.ClientOffers | parent_proxy.go:822-868 | The client offers one method and goes on only with that |
| Socks5Use.ClientAsks | parent_proxy.go:748-895 | Its request follows status 0 only, byte by byte for every target; when it has none |
| Socks5Use.ReplyDecides | parent_proxy.go:792-820 | The client sends data exactly after a complete reply with code 0 |
| Socks5Use.WrongPassword | socks.go:364-370 | For every known user with a wrong password, a run that ends with both peers failed |
| Socks5Use.RightPassword | socks.go:371-385 | With the right one, a run that ends with both relaying |
| Socks5Udp.ParseSocks5UDPDatagram | socks.go:636-680 | In bounds on every packet, and equal to reading the address with the handshake's reader |
| Socks5Udp.DatagramRoundTrip | socks.go:682-701 | Parsing a built datagram gives the canonical address, the port and the payload |
| Socks5Udp.RoundTripTarget | socks.go:505-533 | A name comes back unchanged, an address as a text of the same address |
| Socks5Udp.Association.Handle | socks.go:843-888 | One arrival: the first datagram that may come from the client pins it, only the pinned client is forwarded, and answers go to it |
| Socks5Udp.Association.Serve | socks.go:770-888 | However datagrams arrive, exactly those of the run are sent on, in order |
| Socks5Udp.RunServesOneClient | socks.go:770-888 | Everything sent in a run goes from or to one client, at the address of the control connection |
| Socks5Udp.ClientIsPinned | socks.go:843-888 | The client never changes once there is one |
| Socks5UdpUse.DatagramRefused | socks.go:636-680 | Which datagrams are refused, with which code, in this order |
| Socks5UdpUse.DatagramForAddress | socks.go:647-680 | Where a datagram for an address goes, and what of it |
| Socks5UdpUse.DatagramForName | socks.go:647-680 | The same for a name |
| Socks5UdpUse.DatagramBuilt | socks.go:682-701 | An answer byte by byte, and when there is none |
| Socks5UdpUse.ClientDecides | socks.go:622-634 | Who can become the client |
| Socks5UdpUse.FromClientDecides | socks.go:843-888 | A datagram is sent on if and only if it is the client's, or of one who becomes it, and can be read, resolved and sent |
| Socks5UdpUse.FromOutsideDecides | socks.go:791-830 | An answer goes to the client once there is one |
| Socks5UdpUse.OneAssociation | socks.go:770-888 | A run in which a client is served and another peer is not |
| ClientHello.ClientHelloHasHTTPALPN | capture.go:539-592 | In bounds and terminating on every byte string, and equal to the scan of its parts |
| ClientHello.ScanHelloBytes | capture.go:539-592 | On every encoded ClientHello with extensions, followed by anything, true exactly when a protocol list names h2 or http/1.1 |
| ClientHelloUse.MessageDecides | capture.go:539-571 | For every byte string, which lengths must fit before the extensions are looked at |
| ClientHelloUse.ExtensionDecides | capture.go:572-590 | What one extension leads to, whatever follows |
| ClientHelloUse.ExtensionCut | capture.go:572-577 | Extensions that end too soon offer nothing |
| ClientHelloUse.NameDecides | capture.go:578-588 | What one name of a list leads to |
| ClientHello.ReadsPastTheMessage | capture.go:562-569 | Without extensions the bytes behind the message decide |
| ParentPool.OrderedPool.Try | parent_proxy.go:287-298 | The failure count rises by one on a failure, up to 30 and not while the network is bad, and is cleared by a success |
| ParentPool.OrderedPool.ConnectInOrder | parent_proxy.go:300-339 | For every start, random numbers and outcome of connecting: exactly the attempts of the plan up to the first that succeeds, whose connection is returned; an error exactly if all fail; and every failure count afterwards |
| ParentPool.PlanAsks | parent_proxy.go:300-339 | The plan has every parent that is not an HTTP parent, and the HTTP pool if and only if there is an HTTP parent |
| ParentPool.PlanIsOrdered | parent_proxy.go:300-339 | Each attempt is due later than the one before: in the round from the start, the pool with the first HTTP parent, and parents put aside after a whole round |
| ParentPool.NoneTwice | parent_proxy.go:300-339 | No attempt is made twice |
| ParentPool.Drawn | parent_proxy.go:325-328 | A parent is put aside if and only if it has failed and the random number below its count plus nine is not zero |
| ParentPool.ErrorMeansNobody | parent_proxy.go:300-339 | An error if and only if no parent and no node of the pool can be connected to |
| ParentPool.PlanOfThree | parent_proxy.go:300-339 | The plan of three parents |
| ParentPool.LatencyPool.Connect | parent_proxy.go:396-440 | The same with the parents put aside whose latency is an hour or more when the round comes to them, however latencies are measured in between; and every latency afterwards |
| ParentPool.SlowNow | parent_proxy.go:423-431 | Who is put aside depends on the measurements alone; a parent that fails gets the latency of an hour |
| ParentPool.LatencyPool.SetLatency | parent_proxy.go:366-375 | Exactly the first parent of that server changes |
| ParentPool.HttpPool.UpdateAvailable | parent_proxy.go:100-143 | Exactly the nodes that answered the probe, each once, in the order of the latencies measured |
| ParentPool.RankedKnown | parent_proxy.go:100-143 | The ranking has each node that answered and no other, once, none before a faster one |
| ParentPool.HttpPool.MarkUnavailable | parent_proxy.go:151-163 | Exactly that node leaves and gets the highest latency, the order stays |
| ParentPool.NodeDecides | parent_proxy.go:165-193 | The pool connects if and only if one of its available nodes can be dialed, or, with none available, one of those that answer a probe |
| ParentPool.HttpPool.Connect | parent_proxy.go:165-193 | The first node in order that can be dialed, after a new probe if none is known; the ones before it were dialed in order; an error exactly when there is no such node; and what is available then, whatever the background probes find in between |
| ParentPool.FailedIsReadded | parent_proxy.go:73-84 | A node that failed is available afterwards if and only if the last background probe since then got an answer from it |
| ParentPool.NoneReadded | parent_proxy.go:151-163 | Without such a probe exactly the nodes that have not failed are left |
| HostPort.SplitOfJoin | socks.go:690-696 | Host and port joined and split again are the same |
| SiteUse.SplitDecides | http.go:252-269 | A text is split into host and port if and only if it has one of the two forms |
| SiteUse.SignedNumber | util.go:294-318 | Decimal numbers with and without a sign |
| SiteUse.ShortNameDecides | util.go:357-388 | The domain of one and of two labels |
| SiteUse.NameDecides | util.go:357-388 | The domain of more labels: the last two, or three when the second to last is a top level domain |
| SiteUse.TopLevels | util.go:338-346 | Which labels are |
| SiteUse.TrailingDot | util.go:348-353 | A dot at the end does not count |
| SiteUse.AddressDecides | util.go:294-318 | For every IPv4 address: no domain if and only if it is private |
| SiteUse.HostAndPort | http.go:252-330 | What a request line and a Host header make of a host with and without a port |
| SiteUse.MappedAddress | http.go:305-330 | An IPv4 address written as an IPv6 one is taken for the former |
| Domain.DomainIsIdempotent | util.go:357-388 | The domain of a domain is itself exactly for hosts that do not end in two dots |
| Domain.AuthorityIsCanonical | http.go:279-330 | The pool key of a URL from a request line is made of its host and port |
| Domain.HostPortIsCanonical | http.go:252-269 | The same for a Host header or CONNECT, exactly unless it brackets something that is not an IPv6 address |
| Domain.KeyTellsHost | conn_pool.go:63-74 | Canonical URLs with one key have one host and domain |
| Domain.OneKeyTwoHosts | http.go:252-269 | The exceptions come in pairs with one key and two hosts |
| SiteUse.VisitDecides | sitestat.go:130-169 | The record after a visit, field by field |
| SiteUse.RecordDecides | sitestat.go:73-118 | What a record is taken for, with the numbers |
| SiteUse.FiveVisitsDecide | sitestat.go:95-106 | A new site is taken for blocked after five visits over a parent and not before, and for direct after one direct visit |
| SiteUse.LookDecides | sitestat.go:235-253 | Which record a look-up gives |
| SiteUse.BlockDecides | sitestat.go:208-231 | A block lasts two minutes and changes nothing else |
| SiteUse.ListDecides | sitestat.go:408-422 | A site is in the direct list if and only if its domain is not blocked and its record is direct |
| SiteUse.LoadDecides | sitestat.go:314-402 | For every file and lists, exactly which records there are after loading, and what they say |
| SiteUse.LoadMarks | sitestat.go:369-380 | Exactly which domains are known to be blocked |
| SiteStat.VisitsStayCounts | sitestat.go:130-169 | Counts stay in 0..100 and never become the mark of the user; the user's records never change |
| SiteStat.LookFindsKind | sitestat.go:235-253 | A look-up returns a record of the site's kind, and the host's own record exactly when nobody decided for it |
| SiteStat.KindsInRun | sitestat.go:235-253 | The kind of a site never changes in a run |
| SiteStat.TempBlockedFindsRecord | sitestat.go:208-215 | The panic is unreachable through a connection made for a URL with the same key, however many requests came in between |
| SiteStat.TempBlockedCanPanic | sitestat.go:208-215 | It is reachable when two hosts share a key |
| SiteStat.BlockedStaysOut | sitestat.go:208-231 | After a host is blocked no later direct list holds it, any site of its domain, or the domain itself unless the host ends in two dots |
| SiteStat.DomainEntrySurvives | sitestat.go:408-422 | For such a host the entry of the domain stays listed |
| SiteStat.LoadedBlockedStaysOut | sitestat.go:369-380 | The same, with all three clauses, for every site that was once blocked when it was loaded |
| SiteStat.LoadedTable | sitestat.go:314-402 | Lists override saved records, and no record that is stale or covered by a listed domain is kept |
| SiteStat.SiteStat.GetVisitCnt | sitestat.go:235-253 | The new table and the record found are those of the look-up function |
| SiteStat.SiteStat.Visit | sitestat.go:130-169 | A visit changes the record that a look-up returned, as in the run of operations |
| SiteStat.SiteStat.TempBlocked | sitestat.go:208-231 | The record is blocked from now on and the domain is known |
| SiteStat.SiteStat.FilterSites | sitestat.go:336-367 | Exactly stale and covered records go |
| SiteStat.SiteStat.LoadTable | sitestat.go:369-380 | The loaded table is the load function of the file and the lists |
| SiteStat.SiteStat.GetDirectList | sitestat.go:408-422 | Each direct site of an unblocked domain, once |

## Left out

- RequestLoop.Tunnel: treats a write to the client and the two state changes after it as one step; the module Tunnel has them apart. Which steps happen is an input, and bytes are determined only up to the first write that the connection does not accept.
- RequestLoop.ServeRequest: the site of a request has one kind throughout, and pooled connections to it were made under that kind, which SiteStat.KindsInRun and Domain.KeyTellsHost prove for canonical URLs; a record marked by the user as both direct and blocked is not considered. What the plugin records of a request body that is sent again after a reset is not followed.
- RequestLoop.SendRequestBody: a write that fails counts as handed over in full, since the code cannot tell how much of it arrived.
- RequestLoop.Serve: the other clients' effects are bounded by a finite budget per request; without one the retry loop need not end. The parser of requests is a parameter that says how long a header is and what it holds. A tunnel's bytes are part of its script and not of the stream of requests.
- RequestRuns.ChunkedAligned: for a chunked body that was cut, the condition refers to what relaying does to the rest; after a reset RequestRuns.StreamAfter says where the stream is, without an exact condition.
- Tunnel.ClosesDown: the watchdog that closes idle tunnels when it is configured is not modelled.
- ResponseFraming.RelayResponse: is about headers with at most one Content-Length and one Transfer-Encoding whose length can be announced, as ResponseFraming.ClientFraming says exactly; a chunked body without trailers, size lines within the reader's buffer and a stream below 2^60 bytes.
- ResponseFraming.Header.ParseHeader: takes lines that are already split into name and value; the status line, 100 responses and continuation lines are not modelled; nor is that the value of an Expect line is changed to lower case.
- Socks5Handshake.HandshakeDecides: takes credentials of at most 255 bytes, as the configuration does, and a stream that loses nothing when a peer closes.
- HostPort.SplitOfJoin: the Go functions JoinHostPort, SplitHostPort, Itoa and Atoi are modelled from their documentation; ParseIP and the text of an address are a parameter that is assumed to parse back.
- SiteStat.SiteStat.GetVisitCnt: a record is named by its key instead of a reference, and a visit is one atomic step although the source leaves the counters unprotected.
- ParentPool.HttpPool.UpdateAvailable: nodes with equal latencies keep the order of the configuration; in the source it is that in which their probes come back.
- ConnPool.InvKept: whether a connection looks stale is arbitrary, not a matter of time.
- FieldsN, the matching of capture domains, and the merging of listeners: easy members.
- Captured CONNECT tunnels and TLS interception, apart from the scanner and the slot of each request.
- Shadowsocks, compression, SQLite, authentication other than its outcome, and the reading of configuration files.
- Listening sockets, PAC files, log and error texts, and statistics pages.
- The recycling of byte slices between requests, and the internals of the external buffered reader, which is a position in a stream with arbitrary short reads.
