# evproxy: a verified model

evproxy is an HTTP/1.x forward proxy with three interchangeable concurrency backends: a thread per
connection, a bounded thread pool, and kqueue event loops (one, or several shards fed by one
acceptor). All three drive the same per-connection state machine. This project models that machine,
the request parser and rebuilder, the LRU response cache, the event loop with its kernel
registrations, the bounded queue and thread pool, the shard inboxes and the asynchronous resolver,
and proves what holds over every run of each.

Conventions:

* Foreign calls (sockets, kevent, getaddrinfo, the clock) are answers that a run may choose freely
  within what an operating system can do; every theorem holds for all such choices.
* A step that is not possible leaves the state alone, so every list of steps is a run and "for every
  list" means "in every reachable state".
* Threads are interleaved at mutex sections, notifications, pipe reads and writes, and atomic stores.
* Descriptors are a number and a generation, so a reused number is a different descriptor.
* Objects that the source updates in place are classes whose methods are proved against the same
  step functions that the run theorems are about.
* Bytes are `char`; `size_t` wraps only where `header_bytes + content_length` is formed, and
  `strtoul` saturates.

Files, bottom up: `Basics`, `Text`, `Http`, `RequestProofs`, `Reparse`, `WireRequests`, `Framing`,
`Grammar`, `Rebuilt` (requests); `Lru`, `LruCache`, `Recency` (the cache); `ConnMachine`, `ConnInv`,
`ConnRuns`, `Connection`, `Cuts`, `CutTheorem`, `CallSpec`, `ConnAnswers`, `Serving`, `Provenance`,
`Sharing` (one connection, then many over one cache); `Kernel`, `EpochRule`, `EventLoop`, `LoopInv`,
`LoopTheorems`, `LoopFates` (the event loop); `ConnQueue`, `QueueUse`, `ThreadPool`, `PoolDrain` (queue
and pool); `Inbox` (shards); `Resolver`, `ResolverDrain`, `ResolverAnswers`; `Rounds` (pool, shards and
resolver at work). `dafny verify dfyconfig.toml` checks everything.

What the proofs found out about the code:

* A put that replaces an existing key does not evict, so it can leave the cache above its byte limit;
  `LruProofs.PutMeetsByteLimitIff` gives the exact condition and `LruProofs.ReplacingPutOvershoots`
  an instance.
* For a header block that ends more than one byte and at most one chunk past `max_header_bytes` the
  verdict depends on how the bytes were cut into reads; if `header_bytes + content_length` wraps (this
  needs a `max_body_bytes` near the top of `size_t`) the forwarded body does.
  `CutTheorem.VerdictIgnoresTheCutIff` is the exact condition, and two concrete requests are given.
* Every Content-Length field of the client is forwarded, while the body is cut by the first. The
  rebuilt request announces its body if and only if they all agree
  (`Framing.RequestFramesItsBodyIff`); `Framing.FiveAndTen` gives two requests where it does not.
* A put of a new key whose response alone exceeds the cache's limits empties the cache
  (`Recency.PutKeepsExactly`, `Recency.PutIsFoundIff`).
* Whether a response sets a cookie is told by two spellings of the field name, so a 200 with
  `SET-COOKIE` is stored (`Sharing.CapitalCookieIsPlain`), and whether a request has one by its first
  Cookie field, so an empty first one hides a second (`Sharing.SecondCookieIsOverlooked`).
  `Sharing.OpenResponseIff` and `Sharing.OpenRequestIff` are the exact conditions.
* A second `close()` of the queue can return while a consumer is still asleep
  (`ConnQueue.SecondCloseMayReturnFirst`); `ConnQueue.CloseWakesEveryone` says when nobody sleeps.
* With zero resolver threads no started lookup is ever answered (`Resolver.NoThreadsNoAnswer`).
* The comment on `make_pipe` (src/socket.hpp) speaks of both ends being non-blocking; the code makes
  only the read end so. The model follows the code.

## Model

| member | source | states |
|---|---|---|
| Http.ReadHeaders | src/http.cpp:94-108 | the header loop returns exactly the fields of the lines up to the blank line, or failure on a line without a colon |
| Http.ParseRequest | src/http.cpp:69-121 | parse_request, with the half-filled Request of every error path, computes the function that Grammar.AcceptedIff and Grammar.NotImplementedIff pin down |
| Http.AppendFields | src/http.cpp:149-156 | the loop appends exactly the lines of the fields that go on, in order |
| Http.BuildUpstreamRequest | src/http.cpp:131-161 | the string built piece by piece is the joined lines of request line, Host, surviving fields, Connection: close, then the body; Rebuilt.RebuiltText writes that text out |
| RequestProofs.AcceptedIsClean | src/http.cpp:69-121 | an accepted request has a known method, a non-empty host without '/', a digit port, a path starting with '/', no CRLF anywhere, trimmed fields, and the Content-Length value (saturated) as its length |
| RequestProofs.ParseIsLocal | src/http.cpp:69-121 | bytes after the first blank line never change the parser's answer |
| Reparse.BlankLineEndsText | src/http.cpp:131-161 | in a text of non-empty CRLF-free lines the first blank line is the terminator |
| Reparse.RebuiltRequestReadsBack | src/http.cpp:131-161 | re-reading the rebuilt request gives the origin-form line, our Host up to trimming (Rebuilt.RebuiltReads says which Host), the client's fields in order and multiplicity minus Host and the hop-by-hop list, then Connection: close, with the blank line and the body exactly where intended |
| Reparse.FirstFieldsReachOrigin | src/http.cpp:123-161 | a reader that takes the first field of a name finds the client's value under every end-to-end name, one Host and one Connection, no Transfer-Encoding, and the Content-Length the proxy went by |
| Framing.RebuiltFramesIff | src/http.cpp:110-161 | for every accepted request and every body no longer than the framed length: all Content-Length fields read off the rebuilt text say the length of what follows its blank line if and only if the body is complete and every Content-Length field of the client says the framed length |
| Framing.RequestFramesItsBodyIff | src/connection.cpp:101-107 | the same for the request of every run, in every state; the body is complete unless header_bytes + content_length wraps |
| Framing.TwoLengthsMisframe | src/http.cpp:114-118 | a POST with two Content-Length fields is accepted by its first one, and the rebuilt request frames its body if and only if both say the same number |
| Framing.FiveAndTen | src/http.cpp:114-118 | two such requests that are accepted and forwarded misframed: lengths 5 and 10, and an empty length before a 5 |
| Reparse.CacheKeyInjective | src/cache.cpp:11-22 | two accepted requests have the same cache key if and only if method, host, port and path agree |
| WireRequests.TargetReadsBack | src/http.cpp:31-65 | splitting undoes writing for every host (bracketed or not), optional port and optional path; a missing port is 80 and a missing path is "/" |
| WireRequests.StartLineReadsBack | src/http.cpp:78-92 | the request line gives back method, target and version as written |
| WireRequests.RequestReadsBack | src/http.cpp:69-121 | a request written by the book parses to its own parts, with header_bytes just before the body |
| WireRequests.FramingIsRead | src/http.cpp:110-120 | NotImplemented if and only if Transfer-Encoding contains "chunked"; otherwise a digit Content-Length is read at its value up to the largest unsigned long, none as no body, and anything else is refused |
| WireRequests.ErrorResponseIsFramed | src/http.cpp:163-175 | an error response reads back as status line, three fields and a body of exactly the announced length |
| Grammar.AcceptedIff | src/http.cpp:31-121 | a text is accepted as a given request if and only if it is written by the grammar spelled out here, without the parser's functions, and means that request: three words, one of three methods, `http://` in any case, an authority that is plain, has a digit port after its last colon, or is bracketed, fields split at the first colon and trimmed, no `chunked`, a digit length |
| Grammar.NotImplementedIff | src/http.cpp:69-112 | 501 if and only if the first of three words is no known method, or the text is well formed and its first Transfer-Encoding field says chunked |
| Grammar.TrimIff | src/http.cpp:16-21 | trimming removes exactly the spaces and tabs at both ends |
| Rebuilt.RebuiltText | src/http.cpp:131-161 | the rebuilt text, written out for every request: method, path and HTTP/1.1, Host with the port unless it is 80, every field whose lower-case name is not one of the ten named, Connection: close, blank line, body |
| Rebuilt.RebuiltReads | src/http.cpp:131-161 | for every accepted request an origin reads from the rebuilt text exactly those words, that Host, the surviving fields in order, and the body |
| Rebuilt.ThroughTheProxy | src/http.cpp:31-161 | a request for any legal target, written by a client, parsed, rebuilt and read again, has the client's method, the path or `/`, HTTP/1.1, and first the Host of the target with its port unless 80 |
| ConnAnswers.BadRequestText | src/http.cpp:163-175 | the 400 page, literally |
| ConnAnswers.TooLargeText | src/http.cpp:163-175 | the 413 page, literally |
| ConnAnswers.NotImplementedText | src/http.cpp:163-175 | the 501 page, literally |
| ConnAnswers.BadGatewayText | src/http.cpp:163-175 | the 502 page, literally |
| LruProofs.EvictIsLongestFittingPrefix | src/cache.hpp:80-87 | eviction keeps the longest recency prefix that meets both limits |
| LruProofs.PutIsGood | src/cache.hpp:63-88 | a put keeps keys distinct and the entry limit, and a put of a new key meets both limits |
| LruProofs.ReachableIsGood | src/cache.hpp:49-88 | after any operations keys are distinct, the entry limit holds, and hits plus misses equals the number of gets |
| LruProofs.PutMeetsByteLimitIff | src/cache.hpp:63-88 | the byte limit holds after a put if and only if the key is new or the replaced total fits |
| LruProofs.ReplacingPutOvershoots | src/cache.hpp:66-72 | a replacing put that leaves the cache above its byte limit |
| LruProofs.SmallerIsIncluded | src/cache.hpp:49-88 | with byte limits off, the recency order of the smaller cache is a subsequence of the larger's with equal values, after every operation sequence |
| LruProofs.LargerCacheHitsToo | src/cache.hpp:49-61 | every hit of the smaller cache is a hit of the larger with the same value, and hit counts compare accordingly |
| Recency.EntriesAreByRecency | src/cache.hpp:49-88 | after any operations the entries stand in decreasing order of their last put or hitting get, and each holds what was last put under its key |
| Recency.PutIsFoundIff | src/cache.hpp:63-88 | a put is found at once, with its response, if and only if its key was there or the response alone meets the limits |
| Recency.PutKeepsExactly | src/cache.hpp:63-88 | a put keeps another entry if and only if its key was there or the entry fits together with the new one and everything more recent |
| Recency.GetKeepsAll | src/cache.hpp:49-61 | a get loses and adds nothing |
| Recency.HitsAreFoundGets | src/cache.hpp:49-61 | hits counts exactly the gets that found their key, misses the others |
| LruCache.LruCacheImpl.constructor | src/cache.hpp:46-47 | a new cache is empty and in step |
| LruCache.LruCacheImpl.Get | src/cache.hpp:49-61 | list, index, counters and bytes change in place as one recency sequence does, and the looked-up value is returned |
| LruCache.LruCacheImpl.Put | src/cache.hpp:63-88 | the same for put, both for a new and a present key; bytes stays the sum of the sizes; Recency says which order and which entries that is |
| LruCache.LruCacheImpl.Replace | src/cache.hpp:66-72 | the replaced node moves to the front and bytes follows without underflow |
| LruCache.LruCacheImpl.Shrink | src/cache.hpp:80-87 | the eviction loop leaves exactly the evicted sequence |
| LruCache.LruCacheImpl.Sizes | src/cache.hpp:63-88 | the maintained counts are the length and the byte sum of the contents |
| ConnInv.StepInv | src/connection.cpp:31-351 | every call of on_ready keeps the connection invariant, state by state |
| ConnRuns.RunInv | src/connection.cpp:31-351 | the invariant holds in every reachable state |
| ConnRuns.ClientStreamIsFaithful | src/connection.cpp:299-351 | sent plus pending bytes equal either what upstream sent or one local response, never a mix; after a clean EOF everything was delivered, and EOF never finds pending bytes |
| ConnRuns.LocalResponseIsFixed | src/connection.cpp:47-53 | a local response is chosen once, is one of the four errors or a cache hit, and never changes |
| ConnRuns.WantsAreGrounded | src/connection.cpp:15-61 | before Done the wanted descriptor exists and a wanted write has an unsent byte; at Done nothing is owned |
| ConnRuns.AddressesAndRequestBytes | src/connection.cpp:227-297 | candidates are tried in order and once; a 502 from connecting means all failed; only confirmed sockets are written to, and what they get is a prefix of the rebuilt request |
| ConnRuns.RequestIsTheClients | src/connection.cpp:63-122 | in every state, also failing and Done, the request sent upstream is the rebuild of the parsed client bytes with the body they carry, of the announced length |
| ConnRuns.MemoryIsBounded | src/connection.cpp:63-107 | request buffer below header limit + body limit + two chunks, cache accumulator within the entry limit, client buffer at most one chunk or exactly the one local response, in every state |
| ConnRuns.StepWork | src/connection.cpp:31-45 | every call that changes anything raises a measure of state rank, bytes moved and addresses tried |
| ConnRuns.StepsAreBounded | src/connection.cpp:31-351 | with a finite upstream stream the calls that change anything are bounded by an explicit sum, and reaching it means Done |
| CallSpec.StepDoes | src/connection.cpp:31-351 | what every call must come to, from the bytes that passed and the answers of the call: the verdict on the client's bytes, the list a lookup brought tried in order up to the first candidate that does not refuse, bytes moved in order by the number the write took, the next state |
| ConnAnswers.EveryCallDoes | src/connection.cpp:31-351 | the same for every call of every run |
| ConnAnswers.LogsAreTheReads | src/connection.cpp:63-76 | the bytes from the client and from the origin are exactly those the reads of that side brought, in order |
| ConnAnswers.ChosenByCall | src/connection.cpp:47-53 | the client's local response is what the one choosing call chose: 400, 413 or 501 by the verdict on the bytes, the cached bytes, or 502 |
| ConnAnswers.LocalIff | src/connection.cpp:47-53 | there is a local response if and only if some call chose one |
| ConnAnswers.BadGatewayIff | src/connection.cpp:157-297 | the client gets the proxy's 502 if and only if some call had a failed lookup, a lookup pending with async off, a failed job, every remaining candidate refused, or a failed write to the origin |
| ConnAnswers.HowRunsEnd | src/connection.cpp:31-351 | a finished run ended in one of three ways: a peer was gone before the whole answer was out; all of a local response was sent; or the verdict on the bytes read was to forward, exactly that text reached the origin, and exactly the bytes read from the origin reached the client |
| ConnAnswers.IdleIff | src/connection.cpp:31-351 | a call changes nothing if and only if what it asked for was not ready |
| ConnAnswers.UnblockedRunsFinish | src/connection.cpp:31-351 | a run in which no call blocks is at Done within an explicit number of calls |
| ConnectionClass.Connection.constructor | src/connection.cpp:9-13 | a new connection reads from its client |
| ConnectionClass.Connection.Wanted | src/connection.cpp:15-29 | want_fd and want_write name the wanted descriptor and direction |
| ConnectionClass.Connection.SetWant | src/connection.hpp:86 | the want changes and the epoch moves |
| ConnectionClass.Connection.FailWith | src/connection.cpp:47-53 | upstream dropped, response loaded, client write wanted |
| ConnectionClass.Connection.Finish | src/connection.cpp:55-61 | Done, nothing owned |
| ConnectionClass.Connection.TakeHeader | src/connection.cpp:78-98 | limit check, parse and body limit, in place, as the step function says |
| ConnectionClass.Connection.TakeBody | src/connection.cpp:102-107 | waits for the body or rebuilds the request |
| ConnectionClass.Connection.DispatchRequest | src/connection.cpp:109-122 | cache lookup with the recorded key, hit served, miss resolved |
| ConnectionClass.Connection.DoReadClient | src/connection.cpp:63-122 | the whole handler |
| ConnectionClass.Connection.BeginResolve | src/connection.cpp:157-194 | hit, pending and failed lookups, as the step function that CallSpec.StepDoes pins down |
| ConnectionClass.Connection.FinishResolve | src/connection.cpp:196-225 | spurious wakeups, failures and results |
| ConnectionClass.Connection.BeginConnect | src/connection.cpp:227-256 | the loop over candidates ends connected, connecting or failed exactly as the recursive definition |
| ConnectionClass.Connection.FinishConnect | src/connection.cpp:258-277 | confirmation or the next candidate |
| ConnectionClass.Connection.DoWriteUpstream | src/connection.cpp:279-297 | short writes, then relaying |
| ConnectionClass.Connection.StoreInCache | src/connection.cpp:135-155 | exactly the storable responses are put into the cache |
| ConnectionClass.Connection.TapBytes | src/connection.cpp:317-327 | the accumulator grows or is given up at the entry limit |
| ConnectionClass.Connection.DoReadUpstream | src/connection.cpp:299-331 | chunk, EOF with the store, error |
| ConnectionClass.Connection.DoWriteClient | src/connection.cpp:333-351 | short writes, buffer reset, finish or read on |
| ConnectionClass.Connection.OnReady | src/connection.cpp:31-45 | one call is one step of the machine, and the cache sees exactly that call's get or put |
| Serving.ServeToEnd | src/backend/thread_pool.cpp:109-117 | with or without a response cache, the blocking loop polls exactly the wanted descriptor and direction each time, its cache sees exactly the calls' gets and puts, and it ends only at Done, without a want, or on an idle timeout |
| Serving.PolledIsServable | src/backend/thread_per_conn.cpp:89-98 | such a run with possible answers is one the projection theorem speaks of |
| Cuts.VerdictIsFinal | src/connection.cpp:63-107 | a decided verdict does not change when more bytes arrive |
| Cuts.CutVerdict | src/connection.cpp:63-107 | for every cut into reads: 400 if some read ended past the header limit inside the block, otherwise the verdict on the whole stream |
| Cuts.CutsAgree | src/connection.cpp:63-107 | with a header block of at most the limit plus one byte any two cuts give the same verdict, Request and upstream bytes |
| Cuts.LongHeaderIsRejected | src/connection.cpp:78-84 | a block longer than the limit plus a chunk is rejected under every cut |
| CutTheorem.VerdictIgnoresTheCutIff | src/connection.cpp:63-107 | for every stream: all its cuts into reads of one byte to one chunk get the same verdict, Request and upstream bytes if and only if the block is open, malformed, longer than limit plus chunk, or at most limit plus one byte with a sum that does not wrap, no body byte, or one-byte reads |
| CutTheorem.MiddleCutsDisagree | src/connection.cpp:78-84 | in between, the byte-by-byte cut is refused and the cut with one read across the limit is not; both are receivable |
| CutTheorem.PlainGetDependsOnTheCut | src/connection.cpp:78-84 | a plain GET with a limit of 20 bytes and reads of 16 |
| CutTheorem.WrappedCutsDisagree | src/connection.cpp:101-107 | when header_bytes + content_length wraps, two receivable cuts of a stream with a body byte forward different bodies |
| CutTheorem.HugePostDependsOnTheCut | src/connection.cpp:101-107 | a POST announcing the largest length, with one byte of body and reads of two |
| Provenance.StoredIsWholeStream | src/connection.cpp:135-155 | what is stored is the whole upstream stream of an exchange that has just ended in a clean EOF, began HTTP/1.x 200, fitted the entry limit, under its own key |
| Provenance.HitsAreWholePastResponses | src/connection.cpp:109-155 | every cache hit serves (a prefix of) the whole response of a past exchange with the same method, host, port and path |
| Provenance.PastIsReal | src/connection.cpp:299-331 | a past exchange is recorded only when a connection finished with everything it read delivered |
| Sharing.OpenRequestIff | src/connection.cpp:124-133 | a request may use the cache if and only if there is one and it is on, the method is GET or HEAD, and the first Authorization and the first Cookie field are absent or empty |
| Sharing.OpenResponseIff | src/connection.cpp:142-151 | a response may be stored if and only if it begins HTTP/1.1 200 or HTTP/1.0 200 and neither spelling of the cookie field occurs |
| Sharing.CapitalCookieIsPlain | src/connection.cpp:148-151 | a response with SET-COOKIE passes that test |
| Sharing.SecondCookieIsOverlooked | src/connection.cpp:131-132 | a request with an empty and a non-empty Cookie field passes that test |
| Sharing.TurnStores | src/connection.cpp:135-155 | in every run of many connections a call puts into the cache exactly when it ends, cleanly, an exchange with such a request and such a response of at most the entry limit, and then the whole stream under its key; no other call changes what the cache holds |
| Sharing.HitIff | src/connection.cpp:109-120 | a completed request is served from the cache if and only if it may use it and its key is held, and then with the bytes held |
| Sharing.StoredThenServed | src/connection.cpp:109-155 | when such an exchange ends and its response alone is within the limits, the next connection completing such a request for the same target is served those bytes |
| Sharing.HitsAreOpen | src/connection.cpp:109-155 | in every run every hit answers a request without credentials with the whole response to an earlier one without credentials for the same target |
| EpochRule.EpochRuleHolds | src/connection.hpp:44-51 | an unchanged epoch across on_ready means the same want and the same descriptors |
| LoopInv.RunInv | src/backend/event_loop.cpp:78-248 | the loop invariant (registrations, tags, batch, stories) holds in every reachable state, with other threads opening and closing descriptors in between |
| LoopTheorems.ExactlyOneRegistration | src/backend/event_loop.cpp:203-248 | each live connection has exactly one registration, tagged with it, for the current opening of its wanted descriptor and direction |
| LoopTheorems.BatchEventsFindTheirConnections | src/backend/event_loop.cpp:117-121 | every unhandled event of a batch finds its own connection live, with the registration it came from and the want it reports |
| LoopTheorems.ProjectionIsBlockingRun | src/backend/event_loop.cpp:203-248 | projected onto one connection an event-loop run is a run of the blocking serve loop; a connection leaves only at Done or when arming fails |
| LoopTheorems.ReusedNumberHasNoRegistration | src/backend/event_loop.cpp:221-246 | when connecting reuses the old descriptor number, the registration is gone although the key is the same, and the epoch tells |
| LoopFates.HandleMovesOne | src/backend/event_loop.cpp:203-248 | an event for a connection makes exactly that connection do one call, noted with the descriptor and direction it waited for; it leaves if it is done, stays if the kernel accepts or nothing about its waiting changed, and leaves refused otherwise; nothing else changes |
| LoopFates.PollBringsEvents | src/backend/event_loop.cpp:107-121 | a poll brings the reported registrations in order and touches nothing else |
| LoopFates.ArrivalsAreAdopted | src/backend/event_loop.cpp:163-201 | every arrival becomes a connection of its own, numbered in order, live and new at its address or refused at once; those that were there stay as they are |
| LoopFates.EveryConnectionIsAccountedFor | src/backend/event_loop.cpp:78-248 | in every run each connection ever accepted is live or has ended, and one that ended before Done was refused its registration by the very action that served or adopted it |
| LoopFates.NoneIsDropped | src/backend/event_loop.cpp:78-248 | in a run whose registrations are all accepted every connection is live or ended at Done |
| EventLoopClass.EventLoopImpl.constructor | src/backend/event_loop.cpp:78-99 | a loop starts with its source armed and nobody live |
| LoopInv.DisarmOwn | src/backend/event_loop.cpp:148-155 | deleting a connection's own key leaves every other registration in place and only tags of the source and of live connections |
| LoopInv.ArmOwn | src/backend/event_loop.cpp:142-146 | arming a connection's wanted pair replaces nobody else's registration and gives it exactly one |
| EventLoopClass.EventLoopImpl.Remove | src/backend/event_loop.cpp:215-228 | the connection is destroyed and its descriptors closed |
| EventLoopClass.EventLoopImpl.Service | src/backend/event_loop.cpp:203-248 | one call of service is one step of the loop model, whose outcome LoopFates.HandleMovesOne states, and keeps the invariant |
| EventLoopClass.EventLoopImpl.AdoptOne | src/backend/event_loop.cpp:163-172 | a new connection is armed and entered, or closed |
| EventLoopClass.EventLoopImpl.AdoptEach | src/backend/event_loop.cpp:163-172 | the loop over a batch of arrivals |
| ConnQueue.MonitorRunInv | src/conn_queue.cpp:7-50 | in every run a sleeping consumer means that queued items do not outnumber woken consumers plus pushes still to notify; the same for producers and free places; and one close() at most is between its notifications |
| ConnQueue.NoLostWakeup | src/conn_queue.cpp:7-50 | once no notification is outstanding, consumers sleep only on an empty open queue and producers only on a full open one |
| ConnQueue.QueueIsFifo | src/conn_queue.cpp:7-38 | pushed equals popped followed by queued, within the capacity (0 counts as 1) |
| ConnQueue.CloseWakesEveryone | src/conn_queue.cpp:40-50 | a closed queue has no sleepers once no close() is left before its notification |
| ConnQueue.CloserWakesEveryone | src/conn_queue.cpp:40-50 | once the close() that found the queue open has returned, nobody sleeps and nobody falls asleep again |
| ConnQueue.SecondCloseMayReturnFirst | src/conn_queue.cpp:40-50 | a run in which a second close() has returned and a consumer still sleeps |
| QueueUse.FillCloseDrain | src/conn_queue.cpp:7-50 | for every capacity and every list that fits: pushed, closed and popped, the items come out one a call in their order, then the end; a push after close is refused with its item |
| QueueUse.FullQueueRefuses | src/conn_queue.cpp:7-20 | a push to a full queue comes back timed out with its item, and the queue is as before |
| ConnQueue.Queue.constructor | src/conn_queue.hpp:20 | empty, open, capacity at least 1 |
| ConnQueue.Queue.Push | src/conn_queue.cpp:7-20 | the mutex section of push_for: stored only when open with room; on Closed and TimedOut the descriptor stays with the caller |
| ConnQueue.Queue.Pop | src/conn_queue.cpp:25-35 | the mutex section of pop: the head, or the end once closed and drained |
| ConnQueue.Queue.Close | src/conn_queue.cpp:40-45 | sets the flag once |
| ThreadPool.PoolRunInv | src/backend/thread_pool.cpp:43-119 | the pool invariant holds in every run |
| ThreadPool.EachConnectionToOneWorker | src/backend/thread_pool.cpp:67-119 | the i-th take is connection i; accepted connections are, in order, taken, queued and at most one held or dropped; no two workers serve the same one |
| ThreadPool.PoolIsBounded | src/backend/thread_pool.cpp:43-119 | at most `capacity` queued, at most `workers` in service, at most workers + capacity + 1 inside |
| ThreadPool.ReturnMeansServed | src/backend/thread_pool.cpp:56-60 | when run() returns the queue is empty, nobody is in service, and all accepted connections were taken except at most one, dropped only with the stop flag set |
| PoolDrain.ShutdownCompletes | src/backend/thread_pool.cpp:56-60 | after close() at most three steps per queued connection and per worker remain, some thread can always take one, and run() returns |
| PoolRounds.AllServed | src/backend/thread_pool.cpp:67-119 | for every pool size, capacity and number of connections coming one after the other, all are served, in order, each once |
| Inbox.NothingStranded | src/backend/event_loop.cpp:29-53 | a waiting shard with a queued descriptor and no push half done has a readable pipe |
| Inbox.DealtRoundRobin | src/backend/event_loop.cpp:349-370 | descriptor x is at shard x mod n, position x / n, and nowhere else; no shard was dealt two more than another |
| Inbox.ShardCatchesUp | src/backend/event_loop.cpp:159-173 | once the acceptor is quiet a shard needs a bounded number of its own steps and can always take one until it has adopted everything it was dealt |
| InboxRounds.AllAdopted | src/backend/event_loop.cpp:159-173 | for every number of shards and of descriptors dealt one after the other, shard i adopts exactly i, i + n, i + 2n and so on, in order |
| Inbox.Box.constructor | src/backend/event_loop.cpp:29-35 | an inbox starts empty and unreadable |
| Inbox.PushInv | src/backend/event_loop.cpp:37-45 | the locked half of a push keeps every shard's share and leaves the queued descriptor announced or about to be |
| Inbox.OtherInv | src/backend/event_loop.cpp:42-52 | the wakeup byte and every step of a shard keep the shares and leave no queue unannounced |
| Inbox.Box.ReadAll | src/backend/event_loop.cpp:159-161 | the read loop empties the pipe and leaves the queue |
| Inbox.Box.Drain | src/backend/event_loop.cpp:47-52 | the whole queue is taken at once |
| Resolver.ResRunInv | src/resolver.cpp:80-144 | the resolver invariant (who has which job, how far it is, who waits) holds in every run |
| Resolver.WokenSeesTheResult | src/connection.cpp:196-225 | a readable pipe means all fields and `ready` are set, so the woken connection gets exactly the published answer; a waiting connection's wakeup is never lost |
| Resolver.PublishedExactlyOnce | src/resolver.cpp:111-144 | no job is published twice, a refused one never, and when shutdown() returns every queued job was published if there is a worker |
| Resolver.RestMeansPublished | src/resolver.cpp:111-144 | with a worker, the workers come to rest only when every queued job has been published, before and after shutdown |
| ResolverDrain.ResolverCatchesUp | src/resolver.cpp:111-144 | from every reachable state, while no job arrives, the workers take at most nine steps per queued job, eight per worker and two per owed notification; one can always go on until they rest, and then every queued job is published |
| ResolverAnswers.AnswersComeFromLookups | src/resolver.cpp:126-132 | in every run the stored addresses and verdict of a job are those its worker's lookup brought for that job |
| ResolverAnswers.LookupsAreKept | src/resolver.cpp:126-132 | and what the lookup brought is never replaced |
| ResolverAnswers.AnsweredAsLookedUp | src/connection.cpp:196-225 | a connection is told exactly what the lookup for its own job said |
| ResolverRounds.AllAnswered | src/resolver.cpp:80-144 | jobs started one after the other are all looked up, and each connection gets its addresses or its failure |
| Resolver.NoThreadsNoAnswer | src/resolver.cpp:10-14 | without threads nothing is published and nobody is answered, in any run |
| Resolver.ResolveJob.constructor | src/resolver.hpp:21-40 | an unpublished job |
| Resolver.ResolveJob.Advance | src/resolver.cpp:126-142 | one statement of the worker on a job is one station, in the order fields, ready, byte, close |
| Resolver.ResolveJob.Publish | src/resolver.cpp:126-142 | the worker passes through all stations in order, and at each of them a readable pipe means a complete result |
| Resolver.ResolveJob.FinishResolve | src/connection.cpp:196-225 | drains the pipe, then answers if and only if ready |

## Left out

- Socket, kevent, poll and getaddrinfo calls (src/socket.cpp): replaced by the answers a run chooses.
- Configuration, command line, logging and signal setup: only easy properties.
- Real time: timeouts are steps that may happen at any moment; durations and throughput are not modelled.
- The C++ memory model: mutex sections and the release/acquire flag are atomic steps.
- drain() and the grace periods of the event loop and of the thread-per-connection backend: they may drop work by design, and descriptors left in a shard inbox at stop are not served.
- The resolver's TTL cache (cache_get, cache_put) and resolve_blocking: their results enter as lookup answers; they would only add easy members.
- The out-of-descriptors branches of the accept loops: they only log and retry.
- Nested Connection-nominated hop-by-hop fields, Cache-Control, Vary: the code does not implement them.
- 64-bit wrap-around of the epoch, the connection ids and the cache's byte total: they count in unbounded numbers.
- The `order_.empty()` break in the eviction loop: an empty list meets both limits, so it is never taken.
- ConnectionClass.Connection.OnReady: the members are grouped into records as the header groups them; `log` is ghost history.
- EventLoopClass.EventLoopImpl.Service: the connections in `live_` are held as values, so aliasing between them is not modelled; the heap object is ConnectionClass.Connection.
- EventLoopClass.EventLoopImpl.AdoptEach: batches of events are taken one at a time by the loop model, not by a method.
- LoopTheorems.ProjectionIsBlockingRun: with the response cache off; resolver answers come from outside.
- ConnRuns.RequestIsTheClients: the length clause needs that header_bytes + content_length does not wrap; CutTheorem.WrappedCutsDisagree shows what happens otherwise.
- Reparse.FirstFieldsReachOrigin: for a Content-Length above the largest unsigned long the proxy's own length is saturated and differs from the field; Framing.RebuiltFramesIff covers that case.
- CutTheorem.VerdictIgnoresTheCutIff: where the sum wraps, streams longer than the largest size_t are left out, as no std::string holds one.
- Framing.RebuiltFramesIff: how an origin treats a misframed request is not modelled.
- Inbox.Box.ReadAll: states the loop with nobody writing meanwhile; the interleaved reads are in the run theorems. The pipe's capacity is unbounded in the model; in the code a full pipe makes the write wait, and it is readable then.
- Resolver.ResRunInv: start() is modelled from the making of the job on; its cache hit and its failed pipe are answers of the connection machine.
- Resolver.PublishedExactlyOnce: one caller of shutdown(); a second concurrent one returns without joining.
- ThreadPool.EachConnectionToOneWorker: the accept loop is one thread, as in the code; how a worker serves a connection is Serving.ServeToEnd.
