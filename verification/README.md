# Verification of the connection lifecycle of tunnelfetch

A Dafny 4.11 model of how tunnelfetch, an HTTP client for runtimes without a usable socket-level
`fetch`, opens, shares, reuses and closes its connections, and proofs about that model. Check it with
`dafny verify dfyconfig.toml`.

## What is modelled

**The keep-alive pool.** `Shelves` is the simple form: a map from key to the idle connections of that
key. `Pool.ConnectionPool` is the pool as written, a mutable map of lists beside a cached total, each
method proved equal to the function of the same name. The laws of whole runs (nothing lost, nothing
invented, the limits, the counters) are proved on the simple form.

**The client as a protocol.** `Protocol` is a state machine over everything a `Client` holds (the pool,
the HTTP/2 registry, the tracked bodies, the ticket store, the closed flag) and over what it cannot see:
the bytes on each connection tagged with the request they answer, what each server has processed, who
owns each connection. Any number of exchanges interleave at their awaits; one step is what runs between
two of them. Servers answer, tear a response, refuse or hang up at any time, and `close()` may come
between any two steps. `Safety` proves one invariant over every run, `Moves` says of the steps, from the
fields before and after, where a request goes, which ticket it is offered and what becomes of a connection
when its body ends, and `Steps` what a step leaves alone; from them `Responses` draws who reads whose response, `Copies` how often a request is processed,
`Sharing` what holds of shared HTTP/2 connections and of tickets, `Leaks` what becomes of connections in whole
runs, `Returns` which of them can still be closed or reused, `Shutdown` what a closed client can still do,
`Graceful` how `idle()` and `createFetch` end, `Endings` when they still can; `Scenarios` and `Strandings`
build reachable runs for the properties that fail. `Client` holds the objects as the source
updates them, the locals of an exchange included, and every method is proved to leave what the protocol
step computes. `HeadReader` shows when a failed head read counts as "not one byte came back", `Tears` puts
the texts it reads on the wire, and `Negotiation` says what a connection offers to speak.

**The key that decides sharing.** `PoolKey` is the string and what it is to tell; `AnchorDigest` the FNV-1a
fold in arithmetic modulo 2^32 and its memo; `Config` and `CopyLaws` the deep copy of a configuration on an
explicit heap; `Memo` the memo against a caller who keeps writing; `KeyStability` puts the four together.
`Transport` compares the key with the decision to delegate to the platform's `fetch`.

**Requests.** `Headers` and `HeaderPaths` build the header list for HTTP/1.1 and for HTTP/2 and compare
them, `Wire` writes whole requests and reads them back by Content-Length, `KeepAlive` decides whether a
response lets its connection live, `Fetching` is the redirect loop, `Profiles` folds a fingerprint
profile into the options, `Installing` is the global `fetch` and its undo, `Opening` is a connection being
opened: the dial, the handshake and the deadline beside the call that races them, and who owns the tunnel.

`Text`, `Sorting` and `Wrappers` hold numerals, separators, sorting and Option/Result.

Code that the source writes in place (the pool, the client and its ticket store, the header list, the
digest memo, callback numbers, the global, the redirect loop, applying a profile, opening a connection) is
a class or a method with loops, proved against a specification function or stated outright. What the
source writes as expressions or recursion is functions.

## Where the code and its comments part

Each of these is a theorem here: the exact condition, and a reachable state or concrete input.

1. `serverNeverSawIt` takes `got: 0` as proof that no response byte came back (src/client.js:538-553). `got`
   counts the bytes of the unfinished line, or of the unfinished record header, only. A response torn
   after a whole line, or between two TLS records, also reports 0, and the request is sent again although
   the server has processed it. Which texts: `HeadReader.ProofExactlyWhen`, `Tears.TornExactlyWhen`.
   When the re-send is wrong: `Copies.ResendSlips`. How often a request is processed:
   `Copies.OnceExactlyWhen`. A run: `Scenarios.ProcessesTwice`.
2. Connections are left open. When a re-sent request fails before its body is tracked, be it in the write,
   in the head or in the framing, the handler discards the pooled connection a second time and the fresh one
   stays open for ever (src/client.js:406-416, 697-726). And a body can be left to nobody, its connection
   open under it, in three ways: building the response to a re-sent request throws after the body is tracked
   (src/client.js:732-752); the head is that of a 205 that declares a body, which `bodyFraming` frames and
   `buildResponse` hands nobody (src/http1/response.js:237-320, src/client.js:902-903); or the fetch throws
   over a redirect it must not or cannot follow, before the line that cancels its body (src/client.js:322-327,
   336-339). Such a body may still end, break off or be cancelled while a pull of it is pending; once the
   streams have read ahead their fill nothing pulls it, and the idle deadline is looked at only inside a pull
   (src/util/deadline.js:220-252). Which connections, per run: `Leaks.LeaksExactlyWhen`. Which of them for
   good: `Returns.ComesBackExactlyWhen`. Runs: `Scenarios.LeaksAConnection`, `Scenarios.LeavesABodyUnread`,
   `Strandings.ThrowStrands`, `Strandings.EmptyResponseStrands`, `Strandings.ClosesOverAnOpenConnection`.
3. A response whose coding cannot be decoded throws after its completion handlers are registered
   (src/client.js:732-752, src/client/decode.js:425-446): unless the request was a re-sent one, its connection
   is closed under the body, and the handler may still put it in the pool. `Leaks.ShutExactlyWhen`,
   `Scenarios.IdleButClosed`. In the program the release can run before the close; the states after both
   are the same.
4. `close()` leaves connections behind and does not stop new ones. A GOAWAY runs `onClose`
   (src/http2/connection.js:1203), so a connection that is still sending leaves the set that `close()` empties
   (src/client.js:171-174): `Sharing.CloseSweeps`, `Scenarios.GoingAwayOutlivesClose`. A connection that
   finishes opening during or after `close()` is registered on the closed client: `Shutdown.LateConnections`,
   `Scenarios.RegistersAfterClose`. An exchange that was dialling goes on, and one on a pooled connection
   may dial again (src/client.js:697-712): `Shutdown.OpensExactlyWhen`, `Shutdown.NewConnections`,
   `Scenarios.RedialsAfterClose`.
5. The connection for a re-send is opened without the `alpn` argument but with the caller's `tls.alpn`
   (src/client.js:700-711): if that lists h2 and the server picks it, HTTP/1.1 is written to it.
   `Scenarios.SpeaksWrongExactlyWhen`, `Negotiation.OffersDiffer`.
6. A '|' inside a revocation policy, a pin or a mode can make a key end like a delegatable one, and a
   comma inside a pin makes it look like two. `Transport.DelegationAgrees`, `Transport.RevocationThatCarries`,
   `PoolKey.CommaInPin`.
7. `deepCopyConfig` drops own properties named `__proto__`, shares class instances and bare array buffers,
   and its result is reachable through the public `client.options`. `CopyLaws.CopyIsPrivateAndSame`,
   `Memo.InstanceGoesStale`, `Memo.ReachedCopyDrifts`.
8. The race against the connect deadline does not stop the dial (src/transport.js:146-154,
   src/proxy/direct.js:25-62): a tunnel that opens after its deadline fired is held by nobody and never
   closed. `Opening.UnownedExactlyWhen`, `Opening.LateTunnel`. And `targetFromUrl` lets any scheme through
   that has an explicit port (src/transport.js:39-53).
9. The three length bytes of an anchor are its length modulo 2^24, so anchors of 2^24 bytes or more can be
   framed like others. `AnchorDigest.LongAnchorsForge`.
10. The comment in `createFetch` says that the idle deadline aborts a stalled body and so lets the client be
   closed (src/client.js:261-263). It does not when nothing pulls the body: after a 205 with a body the client
   is never closed, and `idle()` never returns. `Endings.IdleReturnsExactlyWhen`, `Endings.EndsExactlyWhen`,
   `Strandings.NeverCloses`. Over HTTP/2 a short body is enough: once its last frame has come, neither the
   abort nor the end of the connection reaches its stream (src/http2/connection.js:388-392, 1239-1241).

## Assumed

- An HTTP/1.1 server answers the requests on a connection one at a time and in order, and sends nothing
  else on it. It may tear its response or hang up at any point.
- Nothing is assumed of `Http2Retryable` and `got: 0`: a request disowned by either although it had been
  processed is counted as a slip.
- `completed` of a response body settles once, and with true only at the declared end. A body that somebody
  has may be cancelled at any time: its holder can do that, whether or not the idle deadline can.
- The proxy object is not changed while an exchange runs. A ticket is a value; what it authorises is not
  modelled.
- `String.prototype.toLowerCase` acts on ASCII letters; header names and values are octets.

## Model

| member | source | states |
|---|---|---|
| `Shelves.TakeNewest` | src/pool.js:179-191 | a take hands out the newest connection of its key and changes no other list |
| `Shelves.ReleaseThenTake` | src/pool.js:209-234 | a release is kept unless the pool is full and the key has nothing to evict; the next take returns exactly that connection, and under a full pool the oldest of that key is gone |
| `Shelves.ReleaseCloses` | src/pool.js:209-234 | a release closes the evicted connection or the refused one, no other, and touches no other key |
| `Shelves.ReleaseStores` | src/pool.js:209-234 | a released connection becomes the newest idle one of its key if and only if it is eligible, the pool is open, and there are fewer than maxPerKey of the key and maxTotal in all or an older one of the key to close; otherwise it is closed |
| `Shelves.TakeKeeps` | src/pool.js:179-191 | limits and no empty list survive a take, and contents lose exactly what was handed out |
| `Shelves.ReleaseKeeps` | src/pool.js:209-234 | limits survive a release, and idle plus closed gain exactly the released connection |
| `Shelves.RunConserves` | src/pool.js:155-257 | over every sequence of calls: limits, no empty list, and everything given in was handed out, is idle, or was closed, with multiplicity |
| `Shelves.RunCounts` | src/pool.js:155-257 | over every sequence of calls, until closed, released = hits + evicted + idle; closed exactly when closeAll was called |
| `Shelves.CountersTell` | src/pool.js:141-257 | over every sequence of calls, hits are the connections handed out, hits and misses the takes of an open pool, discarded and evicted the connections closed until closeAll |
| `Pool.ConnectionPool.Take` | src/pool.js:179-191 | the list edited in place and the cached total agree with the simple form, and so does the answer |
| `Pool.ConnectionPool.Release` | src/pool.js:209-234 | the same for release, victim and counters included |
| `Pool.ConnectionPool.Discard` | src/pool.js:241-244 | the same for discard |
| `Pool.ConnectionPool.CloseAll` | src/pool.js:250-257 | the same for closeAll: every idle connection closed, the pool closed for good |
| `Safety.StepKeeps` | src/client.js:354-463 | every step of every exchange keeps the invariant of the client |
| `Safety.ServedKeeps` | src/client.js:666-753 | whatever a server does on a connection keeps it |
| `Safety.ClosingKeeps` | src/client.js:225-232 | close() at any moment keeps it |
| `Safety.RunKeeps` | src/client.js:158-233 | the invariant holds along every run, for any interleaving of any number of exchanges |
| `Moves.StartGoes` | src/client.js:392-420 | a new request goes to the keyed HTTP/2 connection if that is alive, not going away and has room, touching nothing else; else it fails on a closed pool, writes on the newest idle connection of its key, which leaves the pool, or dials |
| `Moves.RefusedGoes` | src/client.js:398-420 | a refused stream goes where the pool sends it, with one proof more |
| `Moves.OpenedGoes` | src/client.js:449-452 | a dialled connection that speaks HTTP/2 becomes the keyed one and carries the request |
| `Moves.ConnectedGoes` | src/client.js:453-463 | one that does not is held by its request, the only one on it, whether first or re-sent |
| `Moves.NewestIsUsed` | src/client.js:498-536 | over every run that does not concern it, the connection registered last for a key takes the next request of the key that it has room for |
| `Moves.DiallingOffers` | src/client.js:482-496 | whoever dials, or dials again, consumes the freshest unexpired ticket of its key and drops those expired; none under require-staple |
| `Moves.CapturedIsOffered` | src/client.js:491-494 | a ticket received on a connection is the next one that a dial for the key of that connection is offered |
| `Moves.HeadReadMoves` | src/client.js:714-742 | the phase takes framing and keep-alive from the head read, and the body is tracked |
| `Moves.BodyDoneMoves` | src/client.js:732-742 | in every reachable state, the connection of a body that ended is idle afterwards if and only if the framing is determinate, the response let it be kept, the pool is open and there is room or an older one of the key, which is closed; otherwise it is closed |
| `Moves.BodyAbandonedMoves` | src/client.js:738-742 | a body cancelled or broken off closes its connection and leaves the pool alone |
| `Moves.KeptOnlyIfAllowed` | src/client.js:855-863 | over every run, a connection is in the pool only if the last answer sent on it let it be kept |
| `Responses.ResponsesAreOwn` | src/client.js:683-753 | in every reachable state everything an exchange has read answers its own request |
| `Responses.NextReadIsOwn` | src/client.js:685-753 | the next head or body piece an exchange can read is of its own response |
| `Responses.IdleIsQuiet` | src/pool.js:9-19 | an idle connection has no unanswered request and no unread byte |
| `Copies.AtMostOnce` | src/client.js:392-420 | a hop writes at most three copies, every copy but the last ended in a proof; servers have processed exactly the copies for which the proof was wrong, and the last or not, so at most one copy exactly when no proof was wrong or one was and the last copy is unprocessed (section 9.2.2 of RFC 9110) |
| `Copies.OnceExactlyWhen` | src/client.js:538-553 | over every run, a hop's request is processed at most once if and only if no proof drawn in the run was wrong, or one was and the copy sent after it is unprocessed |
| `Tears.TornExactlyWhen` | src/client.js:645-648 | exactly which torn texts on the wire make the client take the request for unseen |
| `Tears.EveryTearHasAText` | src/client.js:645-648 | both kinds of tear of the protocol are tears of a text that is no whole head |
| `Copies.ResendSlips` | src/client.js:693-714 | the re-send on a fresh connection repeats a processed request exactly when the server had begun on it |
| `Copies.OnlyProofsResend` | src/client.js:392-404 | nothing but the two proofs of non-processing makes a request be sent again |
| `Responses.OneOwner` | src/client.js:406-416 | each connection is held by exactly one exchange or body, or idle exactly once under the key it was opened for, or closed, or lost |
| `Leaks.MarkedExactlyWhen` | src/client.js:693-753 | a connection is lost, closed under a tracked body, or left open under a body nobody has exactly when the run has the step that does it (and, for the last, the body has not settled since) |
| `Leaks.LeaksExactlyWhen` | src/client.js:319-341 | over every run and for fresh, pooled and re-sent connections alike, a connection is open with nobody to close it if and only if a re-sent request failed on it before its body was tracked, or its body was left to nobody (a late throw on a re-send, a 205 with a body, a fetch that throws over an answer) and has not settled since |
| `Returns.ComesBackExactlyWhen` | src/util/deadline.js:220-252 | from every reachable state some run closes a connection or gives it back, if and only if it is not forgotten, not waiting as a re-send for an answer that cannot come, and not under a body that nobody has and nothing pulls |
| `Returns.GoneIsUnkept` | src/client.js:697-753 | a connection that cannot come back is one of those that leak, or a re-send that can only fail |
| `Leaks.ShutExactlyWhen` | src/client.js:728-753 | over every run, a held or idle connection is closed if and only if building a response other than a re-sent one threw on it |
| `Sharing.RegistryExact` | src/client.js:165-176 | keyed connections are in the full set under their key, and the set is exactly the live connections without GOAWAY |
| `Sharing.CloseSweeps` | src/client.js:225-232 | close() closes the whole set, race-orphaned ones included, and leaves alive exactly the live ones told to go away |
| `Sharing.SuccessorStays` | src/client.js:526-530 | in every run the connection a key is dispatched on stays so, whatever other connections die or go away, unless it does itself, the client closes or a newer one of the key is registered |
| `Graceful.IdleMeansSettled` | src/client.js:205-221 | with no tracked body, no body is streaming or unsettled |
| `Shutdown.ClosedStoresNothing` | src/client.js:203-232 | once closed, no further exchange reaches openFreshAndSend, and pool and ticket store stay empty |
| `Shutdown.LateConnections` | src/client.js:498-536 | in every run after close(), the live HTTP/2 connections of the client are exactly those registered since that have neither died nor been told to go away nor been closed again |
| `Shutdown.OpensExactlyWhen` | src/client.js:693-712 | on a closed client an exchange can still open a connection if and only if it is dialling or about to, or on a pooled connection on which nothing has come back but what passes for nothing |
| `Shutdown.NewConnections` | src/client.js:697-712 | every HTTP/1.1 connection that a closed client comes by was opened by such an exchange |
| `Sharing.TicketsIsolated` | src/client.js:482-496 | every ticket offered was captured under the same key, is offered once, never under require-staple, and a closed client holds none |
| `Scenarios.SpeaksWrongExactlyWhen` | src/client.js:697-712 | HTTP/1.1 can come to be written to a connection whose server picked HTTP/2 if and only if the caller's own tls.alpn lists it |
| `Negotiation.OffersDiffer` | src/client.js:427-451 | the first connection of a request and the one for its re-send offer different protocols exactly when the caller has no list and http2 is on; which of them list HTTP/2 |
| `Scenarios.ProcessesTwice` | src/client.js:645-648 | a reachable state in which a server has processed one request twice |
| `Scenarios.LeaksAConnection` | src/client.js:697-712 | a reachable state with an open connection nothing will close |
| `Scenarios.IdleButClosed` | src/client.js:732-752 | a reachable state with a closed connection in the pool |
| `Scenarios.LeavesABodyUnread` | src/client.js:697-753 | a reachable state with an open connection held by a body nobody was handed |
| `Strandings.ThrowStrands` | src/client.js:697-753 | that body read ahead as far as it will be: nothing closes its connection in any continuation |
| `Strandings.EmptyResponseStrands` | src/client.js:902-903 | a first, fresh answer 205 with a body: its connection is never closed and a call of idle() never returns |
| `Strandings.ClosesOverAnOpenConnection` | src/client.js:322-327 | a whole call, redirect mode 'error' and a 302 with a body: the client is closed and the connection stays open for good |
| `Strandings.NeverCloses` | src/client.js:261-266 | a whole call answered 205 with a body: from there no run closes the client |
| `Scenarios.RegistersAfterClose` | src/client.js:449-452 | a reachable closed client with a live registered connection |
| `Scenarios.RedialsAfterClose` | src/client.js:697-712 | a reachable closed client writing a request on a connection opened since |
| `Scenarios.OneLookIsNotEnough` | src/client.js:210-221 | a run in which every body idle() saw has settled and another is being read |
| `Scenarios.GoingAwayOutlivesClose` | src/http2/connection.js:1203 | a reachable closed client whose going-away connection is alive, streaming and in no collection |
| `HeadReader.GotIsLastLine` | src/util/bytes.js:226-262 | an incomplete head reports the length of its unfinished line, not of what came |
| `HeadReader.LineExactlyWhen` | src/util/bytes.js:226-262 | a line ends at the first line feed, behind a carriage return and within the budget |
| `HeadReader.WholeHeadIsRead` | src/http1/response.js:172-194 | a whole head is read to its end with the status of its first line, interim heads are passed over, 101 is refused, the body is left unread |
| `HeadReader.ProofExactlyWhen` | src/client.js:645-648 | the failure counts as proof exactly when the head is incomplete and what came is empty or ends a line, or a TLS cut left no byte of a record |
| `HeadReader.NothingIsProof` | src/client.js:541-546 | the promised case: a peer that sent nothing |
| `HeadReader.StatusLineIsProofToo` | src/client.js:541-553 | for every status line, a peer that stopped behind it counts too |
| `Tickets.PutKeeps` | src/tls/tickets.js:79-101 | filing a fresh ticket keeps isolation and single use |
| `Tickets.TakeKeeps` | src/tls/tickets.js:116-139 | taking keeps both, and offers only a ticket held under that key |
| `Tickets.PutFiles` | src/tls/tickets.js:95-102 | of a key the two freshest tickets are kept, the fresher last |
| `Tickets.TakeOffers` | src/tls/tickets.js:116-139 | the freshest ticket before the expired newest ones is offered, those are dropped, older ones stay |
| `Client.TicketStore.Put` | src/tls/tickets.js:79-101 | the loop drops exactly the oldest beyond the limit |
| `Client.TicketStore.Take` | src/tls/tickets.js:116-139 | the loop passes over exactly the expired newest tickets and offers the next |
| `Client.Client.Exchange` | src/client.js:386-420 | a new request goes to h2.get(key) exactly if that is alive, not going away and has room, leaving pool and tickets alone, and otherwise as the pool's own list says; and the client is left as the protocol step says |
| `Client.Client.Retry` | src/client.js:398-420 | the same after a refused HTTP/2 stream |
| `Client.Client.FromPool` | src/client.js:406-420 | the same from the pool on, tickets included |
| `Client.Client.ResumptionFor` | src/client.js:482-496 | the freshest unexpired ticket of the key is consumed; under require-staple none is looked at |
| `Client.Client.RegisterHttp2` | src/client.js:498-536 | the new connection becomes the keyed one and joins the set |
| `Client.Client.OnClose` | src/client.js:526-530 | it leaves the set, and the map only if it is still the keyed one |
| `Client.Client.OnTicket` | src/client.js:491-494 | tickets of either protocol are filed under the connection's key, and not after close or under require-staple |
| `Client.Client.TrackBody` | src/client.js:636-643 | a body of either protocol is tracked from its head on |
| `Client.Client.Untrack` | src/client.js:636-643 | and until it has settled |
| `Client.Frame.OnCompleted` | src/client.js:732-742 | a completed body leaves the connection in use as the newest idle one of its key exactly at the declared end, framed determinately, with keep-alive, in an open pool with room or an older one to close; otherwise it is closed |
| `Client.Frame.OnError` | src/client.js:412-416 | the handlers choose between the connection taken from the pool and the one in use as the source does, and leave what the protocol says, the pooled one in place of the fresh one included |
| `Client.Frame.OnSilence` | src/client.js:693-698 | the pooled connection on which nothing came back is discarded, and stays the one the handler will name |
| `Client.Frame.OnBodyError` | src/client.js:738-741 | a broken body discards the connection in use |
| `Client.Frame.Connect` | src/client.js:697-713 | a new connection becomes the one in use, and the handler's stays what it was |
| `Client.Client.Close` | src/client.js:225-232 | all collections emptied, the set and the pool closed, bodies left alone |
| `Client.Client.Look` | src/client.js:219-221 | one turn of idle(): nothing to wait for, or exactly the bodies tracked now |
| `Graceful.IdleReturnsAfterAll` | src/client.js:205-221 | when idle() returns, in any interleaving, every body tracked when it was called or added while it waited has finished |
| `Graceful.ClosesAfterBodies` | src/client.js:242-267 | in every run of the one call, its client is closed exactly when the call is over, and unless the fetch threw only when every body of every hop has finished |
| `Graceful.FetchWrites` | src/client.js:318-341 | in every run of the one call the requests written are at most three for each hop it may make |
| `Endings.IdleReturnsExactlyWhen` | src/client.js:205-221 | at every point of a call of idle() in any interleaving, it can still return if and only if it has, or no tracked body is left unpulled by anybody |
| `Endings.EndsExactlyWhen` | src/client.js:242-267 | at every point of the one call, its client can still be closed if and only if the fetch has thrown or is over, or no body is left unpulled but one whose building threw |
| `PoolKey.KeyTells` | src/pool.js:44-82 | on inputs without separators where they could be mistaken, two keys are equal if and only if scheme, host, port, proxy identity, the trust fields the mode reads (pins as a multiset), and tls options are equal |
| `PoolKey.KeySharesExactlyWhen` | src/pool.js:44-82 | the same, told from the options themselves: which fields must agree in which mode |
| `PoolKey.KeyStable` | src/pool.js:83-93 | numbering another callback later changes no key |
| `PoolKey.AnswersTell` | src/pool.js:83-93 | over any sequence of calls, two answers are equal exactly when the callbacks are the same |
| `PoolKey.CallbackNumbers.Of` | src/pool.js:83-93 | the table edited in place agrees with the numbering function and stays injective |
| `PoolKey.PolicyTold` | src/pool.js:53-82 | the pieces of the trust part determine the policy and are determined by it |
| `PoolKey.ProxyTold` | src/pool.js:45-47 | the proxy part determines protocol, user, host and port, and is never the direct one |
| `PoolKey.CommaInPin` | src/pool.js:60 | where injectivity ends: a comma inside a pin |
| `Sorting.SortTells` | src/pool.js:60 | sorted lists are equal exactly when the multisets are |
| `AnchorDigest.MixBijective` | src/pool.js:111-113 | a step is a bijection of the 32-bit state, and of the byte |
| `AnchorDigest.XorBits` | src/pool.js:112 | the exclusive or, bit by bit |
| `AnchorDigest.OneByteApart` | src/pool.js:97-127 | two equally long streams that differ in exactly one byte have different digests and different texts |
| `AnchorDigest.OneByteChanged` | src/pool.js:97-127 | changing one byte of one anchor always changes the digest |
| `AnchorDigest.StreamTells` | src/pool.js:114-123 | the stream fed to the hash determines the list of contents shorter than 2^24 bytes |
| `AnchorDigest.FrameIs` | src/pool.js:115-122 | what is mixed in for one anchor, byte by byte |
| `AnchorDigest.AnchorsTold` | src/pool.js:114-123 | and so the list of byte anchors |
| `AnchorDigest.LongAnchorsForge` | src/pool.js:117-120 | where it ends: one anchor of 2^24 bytes framed like two |
| `AnchorDigest.HexInjective` | src/pool.js:125 | the text of a digest determines it |
| `AnchorDigest.MixAll` | src/pool.js:110-125 | the loop over anchors and bytes computes the fold of the framed stream |
| `AnchorDigest.MixAnchor` | src/pool.js:115-122 | one anchor mixes in its three length bytes, its content and the separator |
| `AnchorDigest.DigestCache.Of` | src/pool.js:106-127 | the first answer for an array is its digest, and every later one is the first |
| `CopyLaws.RefusedExactlyWhen` | src/client.js:600-608 | the copy is refused if and only if some visited value lies deeper than eight levels |
| `CopyLaws.CyclesRefused` | src/client.js:579-608 | every cyclic configuration is refused |
| `CopyLaws.CopyIsPrivateAndSame` | src/client.js:579-630 | otherwise the original is untouched, the copy points at nothing that existed but functions, instances and bare buffers, and it looks like the original if and only if no property is named __proto__ |
| `CopyLaws.ViewCopied` | src/client.js:609-616 | a view is copied to a view at offset 0 over a new buffer of exactly the bytes in view, byte i being byte offset + i of the original |
| `CopyLaws.ViewLooks` | src/client.js:609-616 | and a view looks like those bytes |
| `CopyLaws.NodeLooks` | src/client.js:617-630 | an array or plain object looks like its items in their places; anything but these and views is itself |
| `Config.CopyGood` | src/client.js:600-630 | the copy is sealed off, from any starting depth |
| `Config.CopySame` | src/client.js:600-630 | the copy unfolds to the original without __proto__ properties, to any depth |
| `Memo.CopyNeverDrifts` | src/client.js:571-577 | whatever the caller later does to its own objects, the copy looks as it did and a memoised digest of its anchor lists equals the recomputed one |
| `Memo.AnchorLooks` | src/pool.js:113-122 | the anchor that is hashed for a view is its bytes in view, for a bare buffer zeros, for a text its code units |
| `Memo.ReachedCopyDrifts` | src/pool.js:106-127 | where it ends: a caller who can name the copied bytes makes the memo stale |
| `Memo.InstanceGoesStale` | src/client.js:621-624 | a class instance is not copied, and a write to its anchors leaves the memo stale |
| `KeyStability.KeyNeverDrifts` | src/pool.js:44-127 | from its first computation on, the key of a URL is the same at any time, over caller writes, memoised digests and numbered callbacks, and it is the key of the options as they were copied |
| `KeyStability.KeyIsTrue` | src/pool.js:44-127 | the key computed with the memo is the key computed afresh from the copy |
| `Transport.ServesExactlyWhen` | src/transport.js:285-310 | a request is delegatable if and only if no tunnel is forced and there is no proxy, no trust but the system's with the default revocation policy, and no tls option |
| `Transport.DelegationAgrees` | src/transport.js:285-310 | the key ends as a delegatable one if and only if the request is delegatable, or a configuration text carries that end inside it |
| `Transport.DelegationIsInTheKey` | src/transport.js:285-310 | on proper trust configurations the two decisions are one |
| `Transport.RevocationThatCarries` | src/transport.js:298-305 | where they part: a revocation text with bars |
| `Opening.UnownedExactlyWhen` | src/transport.js:144-154 | over every interleaving of dial, handshake, deadline and call, the tunnel is open with nobody to close it if and only if its dial succeeded after the deadline had fired; and then in every continuation |
| `Opening.ReturnsExactlyWhen` | src/transport.js:146-223 | a call that has ended returned a connection if and only if the dial, and for https the handshake, succeeded before the deadline fired |
| `Opening.ThrowsClean` | src/transport.js:169-228 | a handshake that succeeds in a call that throws came after the deadline and leaves its session over a closed tunnel; over every run an own deadline is disposed exactly when the call has thrown, a borrowed one never |
| `Opening.ClosedStaysShut` | src/transport.js:207-213 | over every run, a tunnel its caller has closed stays closed |
| `Opening.AbortedDialsNothing` | src/proxy/direct.js:26-33 | a deadline that fired before the call leaves no tunnel, session or connection in any run |
| `Opening.LateTunnel` | src/proxy/direct.js:26-62 | a run that ends with the call thrown and its tunnel open |
| `Opening.Open` | src/transport.js:111-149 | refused with no deadline made and nothing dialled, or dialling under the deadline lent or one of its own |
| `Opening.Opener.Resume` | src/transport.js:146-228 | what the call does after each await leaves its duplexes and deadline as the state machine says, and the connection returned holds exactly them |
| `Opening.Connection.Close` | src/transport.js:207-213 | closing reaches the tunnel even when the session's close throws |
| `Headers.ReorderIsStable` | src/client/header-order.js:111-123 | reordering ranks the fields and keeps those of one rank in their order |
| `Headers.RankIs` | src/client/header-order.js:111-123 | a field ranks at the last place of its name in the order, else at the first star, else behind everything |
| `Headers.WithoutReordered` | src/client/header-order.js:99-123 | dropping and reordering commute |
| `Headers.WithoutWith` | src/client/header-order.js:81-102 | dropping and setting commute, or cancel |
| `HeaderPaths.PathsAgree` | src/client.js:817-853 | for every configuration and request the HTTP/2 list is the HTTP/1.1 list without Host and connection fields, lowercased, in the same order, and one path refuses exactly when the other does |
| `HeaderPaths.H1Carries` | src/client.js:919-966 | under every name the HTTP/1.1 list carries exactly the caller's values in order, else the profile's first, else the default; Host, Connection, Content-Length and Cookie as the client sets them, no Transfer-Encoding; ranked by the order |
| `HeaderPaths.H2Carries` | src/client.js:817-853 | the HTTP/2 list the same but for the six names of a connection, under which it carries nothing |
| `HeaderPaths.CallersSpelling` | src/client/header-order.js:41-48 | the caller's fields reach HTTP/1.1 under the names as written |
| `HeaderPaths.RefusedExactlyWhen` | src/client/header-order.js:49-58 | neither list is built if and only if the caller or the profile gives an empty name |
| `HeaderPaths.H2IsWellFormed` | src/client.js:840-852 | no upper-case name and no connection-specific field on HTTP/2 (section 8.2 of RFC 9113) |
| `HeaderPaths.DeclaresItsBody` | src/client.js:946-965 | one Host, the URL's; no Transfer-Encoding; one Content-Length equal to the body, or none and no body |
| `HeaderPaths.BuildHeaders` | src/client.js:919-966 | the edits in place compute the specified HTTP/1.1 list, which carries under every name exactly what is expected |
| `HeaderPaths.BuildH2Request` | src/client.js:817-853 | and the HTTP/2 list, likewise, with the hostname as authority exactly on the default port and with the port otherwise |
| `HeaderPaths.OrderedHeaders.Set` | src/client/header-order.js:81-91 | sets in place, collapses repeats, appends a new name, refuses an empty one |
| `HeaderPaths.OrderedHeaders.Delete` | src/client/header-order.js:99-102 | removes every field of the name, in any case |
| `HeaderPaths.OrderedHeaders.Append` | src/client/header-order.js:93-97 | adds last, refuses an empty name |
| `HeaderPaths.OrderedHeaders.Reorder` | src/client/header-order.js:111-123 | sorts by rank, stably |
| `HeaderPaths.FromPairs` | src/client/header-order.js:49-58 | takes the caller's list as it is, unless a name is empty |
| `Wire.StreamsSplit` | src/http1/request.js:60-143 | any sequence of requests written to one connection is split back into exactly those requests by a Content-Length reader (section 6 of RFC 9112) |
| `Wire.WrittenExactlyWhen` | src/http1/request.js:60-143 | a request is written if and only if its headers can be built and no part has a character not allowed there |
| `Wire.MessageHere` | src/client.js:666-682 | one request is read back from the front of whatever follows it |
| `Wire.LengthHere` | src/client.js:946-961 | the length read is that of the body written, for all caller headers |
| `Wire.FieldsHere` | src/http1/request.js:91-140 | header lines are read back with their values trimmed |
| `KeepAlive.KeepsExactlyWhen` | src/client.js:855-863 | a connection may be kept exactly when no Connection field says close and, for HTTP/1.0, some field says keep-alive |
| `KeepAlive.NamesExactlyWhen` | src/client.js:856-861 | a Connection value says a token exactly when one of its pieces is it in any case |
| `KeepAlive.SplitIs` | src/client.js:857 | the tokens looked at are what stands between the commas |
| `KeepAlive.TrimIs` | src/client.js:857 | without the white space around them |
| `Fetching.PerformFetch` | src/client.js:318-341 | the hops are a chain of distinct requests, at most one more than the budget, and how the fetch ends is determined by the last answer; redirected exactly when a redirect was followed |
| `Fetching.NextRequest` | src/client/redirect.js:164-249 | exactly one history entry for a followed redirect; the budget is checked first, then the location, then loops; method, body and headers of the next hop are those the status prescribes |
| `Fetching.HopsByTheBook` | src/client/redirect.js:39-44 | in every fetch each further hop answers one of 301, 302, 303, 307, 308: 303 makes GET of all but HEAD, 301 and 302 make GET of POST, the others keep the method; with the method the body and its four fields go, with the origin the credentials, Host always, and every other field stays |
| `Fetching.LoopsAreRepeats` | src/client/redirect.js:191-203 | no two hops have the same URL and method, and a fetch ends for a loop only when the next hop would repeat one |
| `Fetching.CredentialsStayHome` | src/client/redirect.js:216-225 | Authorization, Cookie and Proxy-Authorization are on a hop exactly as long as no step has changed scheme, host or port |
| `Fetching.BodyGoesWithMethod` | src/client/redirect.js:227-233 | a hop carries the caller's body unless a method was rewritten on the way |
| `Profiles.AppliedTwice` | src/profiles.js:168-224 | applying a profile again is accepted and changes nothing |
| `Profiles.CallerWins` | src/profiles.js:207-223 | everything the caller named survives, everything else comes from the profile, nothing else changes |
| `Profiles.RefusedExactlyWhen` | src/profiles.js:170-201 | refused exactly when nameless or some need is met by neither side, naming exactly those needs |
| `Profiles.UnmetExactlyWhen` | src/profiles.js:180-190 | a need is unmet when it names a decoder, cipher or group that neither side has, the caller's word coming first, or needs HTTP/2 off and it is on |
| `Profiles.ApplyProfile` | src/profiles.js:168-224 | the loops compute the specified options or refusal |
| `Installing.RestoredExactlyWhen` | src/client.js:276-288 | if nobody else assigns the global, it ends as it began exactly when each install was undone while its replacement was current |
| `Installing.NestingRestores` | src/client.js:276-288 | every properly nested sequence, repeated undos included, restores the global |
| `Installing.NobodyIsClobbered` | src/client.js:281-287 | over every sequence of undos, the function in the global stays unless it is the replacement of one of them |
| `Installing.SecondUndoIsNothing` | src/client.js:281-283 | a repeated undo does nothing, whatever was installed, undone or assigned in between |
| `Installing.OutOfOrderStays` | src/client.js:276-288 | two installs undone in the order they were made leave the first replacement behind |
| `Installing.Global.Install` | src/client.js:276-280 | the global edited in place agrees with the state machine |
| `Installing.Global.Uninstall` | src/client.js:281-287 | and so does its undo |

## Left out

- Copies.AtMostOnce: gives the exact count and condition rather than promising one copy, because the
  proof taken from a torn head can be wrong.
- CopyLaws.CopyIsPrivateAndSame: `out["__proto__"] = v` also changes what the copy inherits; only its own
  properties are modelled.
- Fetching.PerformFetch: URL parsing, fragments and the renormalisation of header order by `Headers` on
  later hops are not modelled; a location arrives resolved or unusable.
- Profiles.ApplyProfile: `requires` entries arrive already split at the colon.
- PoolKey.KeyTells: the JSON of the tls options is an opaque text other than "-"; strings are sequences of
  characters, and the sort order is by character.
- Opening.UnownedExactlyWhen: what happens inside the proxy and TLS handshakes; each is a promise that
  succeeds or fails at its own time. Tunnels that open too late are counted there and not among the
  connections of the protocol.
- Leaks.LeaksExactlyWhen: a body that its holder neither reads nor cancels counts as somebody's, since the
  holder still can.
- Returns.ComesBackExactlyWhen: how much the streams read ahead of a reader is at least two chunks and
  otherwise left open, since decoders add to it; so a body nobody has may get stuck at any point from there.
- Tickets.PutFiles: tickets arrive well formed and with a lifetime; a malformed one throws in the source, and
  one of lifetime 0 is not filed.
- Explicit null entries in option maps, sparse arrays and array subclasses in configurations.
- TLS records, certificates, HPACK, HTTP/2 framing, chunked coding, content decoding, cookies: only what
  they report is modelled.
- Streams, sockets, timers and deadlines: their outcomes are nondeterministic steps.
- The contents of a response and the building of a `Response`, beyond whether it throws.
- Warm-up, benchmarks and fixtures: plumbing without laws of its own.
