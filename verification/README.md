# BlorgFS: models and proofs

BlorgFS is a Windows file system driver that serves a remote file tree over
HTTP. This project models the data structures and lock protocols it is built
on, in Dafny 4.11, and proves what its design notes promise of them.
`dafny verify dfyconfig.toml` checks the whole project.

| file | models | form |
|---|---|---|
| `NodeReap.dfy` | node lifetime: pins, references, the reap claim, the reap worker, the ancestor walk (`src/Structs.c`) | state machine over atomic sections |
| `PathNames.dfy`, `PathCache.dfy`, `PathCacheRace.dfy`, `ListingBudget.dfy` | the path and listing caches, their tickets, the change feed, the listing byte budget (`src/PathCache.c`, `src/ChangeFeed.c`) | state machines over locked buckets |
| `DiskCachePlan.dfy`, `DiskCacheIndex.dfy` | the slot index, its clock and ghosts, the read planner (`src/DiskCacheIndex.c`) | class over arrays |
| `DiskCacheRead.dfy`, `DiskCacheIo.dfy`, `DiskCacheGate.dfy` | run splitting, fills, I/O outside the lock, byte by byte, and the gate and fill queue around them (`src/DiskCache.c`) | loops, and state machines |
| `ReadFair.dfy`, `FairOrder.dfy` | the fair-share fetch scheduler, and how far apart it lets two files drift (`src/Read.c`) | class |
| `TlsDrain.dfy`, `TlsWire.dfy`, `HttpResponse.dfy`, `HttpLifecycle.dfy` | TLS record drain, the sender at its other end, response reassembly, request lifecycle (`src/Client.c`) | classes over arrays, and a state machine |
| `NameIndex.dfy` | the listing's name index and the seeding of the path cache (`src/Client.c`, `src/PathCache.c`) | class over arrays |
| `SocketPrewarm.dfy`, `SocketTimeout.dfy` | the pre-warm pump and the timeout watchdog (`src/Socket.c`) | state machines |
| `DirPaging.dfy` | directory enumeration into query buffers (`src/DirCtrl.c`) | loop over an output array |
| `Options.dfy` | the option type they share | |

Every section under one lock, and every interlocked operation, is one atomic
step; separate reads that the code makes in a chosen order stay separate
steps. Hashes, case folding, header parsing, decryption and the search
pattern are functions the results hold for every choice of. Integers are
unbounded.

## What the code does not quite promise

Four properties one would expect turn out to need a condition. Each has a
concrete run and the condition under which it holds.

- A path-cache lookup can accept, past the short lifetime, an entry that
  misses a change the feed has already acted on: the generation is sampled
  before the bucket lock, and a flush may run in between
  (`PathCacheRace.LookupCanFallBehind`). What it accepts does reflect every
  batch acted on before the generation was sampled, and every batch acted on
  by now if the generation has not moved (`PathCache.AcceptedReflectsFeed`).
- A fair-share budget of zero is documented as never holding
  (`src/Driver.h:448-449`). A read-ahead held for the fetch cap stays held
  once there is room, because room is `InFlightBytes < 0`
  (`ReadFair.ZeroBudgetStillHolds`); with any other budget whatever is held
  would be held if it arrived now (`ReadFair.HeldMustHold`).
- The gap between two backlogged files is not always bounded by one fetch.
  It is for a file exactly when no hop from one of its held tags to the
  next, its next arrival's included, is longer than one fetch
  (`FairOrder.GapBoundExact`). Demand, which is not released in tag order,
  can carry virtual time further than that past a file's finish tag, and
  the file's next arrival then leaves its rival behind by as much as the
  demand was long, in a run of the scheduler from an empty link
  (`FairOrder.GapAfterDemand`).
- The TLS drain never posts an empty receive exactly when the accumulator
  can hold one record of the largest size (`TlsDrain.ReceiveNeverEmpty`,
  `TlsDrain.ReceiveCanBeEmpty`); the driver sizes it as a multiple of that.

## Model

| member | source | states |
|---|---|---|
| NodeReap.StepKeepsInv | src/Structs.c:531-739 | every step of any opener, closer, unpinner, reap worker or ancestor walk keeps the lifetime invariant: each agent's pointers, the claims it owns, the reap list, and a reason for every node to be resident |
| NodeReap.NoUseAfterFree | src/Structs.c:346-374 | in every run, every node an agent's position points to, every node on the reap list and every parent link is live |
| NodeReap.OpenNodeIsLive | src/Structs.c:729-739 | in every run, the node of every handle that has been opened and not closed is live, and found by a warm lookup unless its opener is still to publish it |
| NodeReap.HandleComesAndGoes | src/Structs.c:729-739 | in every run, a handle comes only by an open of its node that succeeds, goes only by its own close, and otherwise stays where it is |
| NodeReap.FreedOnlyIdle | src/Structs.c:880-954 | in every run, the step that frees a node finds it with no reference, no pin, no child and no table link |
| NodeReap.FreedOnce | src/Structs.c:277-335 | in every run, a freed node is never live, and so never freed, again |
| NodeReap.NoIdleNodeStranded | src/Structs.c:531-646 | in every reachable state each node has a reference, a pin, a child, a reap claim or an agent that still owes it a test, and a non-empty reap list has a worker, an owed kick or the shutdown latch |
| NodeReap.QuietKeepsOnlyOpen | src/Structs.c:834-880 | once no agent is in the driver, a node is resident only because some handle is open on a node at or below it |
| PathNames.UnderIsAncestry | src/PathCache.c:810-828 | the boundary-checked prefix test holds exactly of a directory reached from the path by taking parents |
| PathNames.UnderRespectsCase | src/PathCache.c:810-828 | the test on raw names, with a case-folded prefix, is the test on folded names |
| PathNames.ParentRespectsCase | src/PathCache.c:700-718 | taking the parent commutes with folding case |
| PathCache.InsertedGives | src/PathCache.c:581-681 | an insert leaves the new entry in its bucket, each key once, and nothing else but what was there |
| PathCache.InsertedKeeps | src/PathCache.c:581-681 | and costs no live entry its place but the oldest of a full bucket, which never outgrows its cap |
| PathCache.PublishedGives | src/PathCache.c:1257-1382 | a publish leaves each key once and nothing but what was there and the new listing, whatever it reaps, evicts or refuses; and the new listing is there if it fits and none newer is |
| PathCache.PublishedKeeps | src/PathCache.c:1257-1382 | and costs no live listing its place but the oldest evicted for it |
| PathCache.CoversSwept | src/PathCache.c:764-794 | every entry and listing an invalidation promises to take out lies in one of the bucket sections it runs |
| PathCache.ApplyOpsCovers | src/ChangeFeed.c:156-189 | for every change a batch names, whatever it touches (the path and its parent's listing, and unless it only modified the path, all beneath it) is taken out by one of the invalidations made of the batch, past the structural limit too |
| PathCache.ApplyOpsSpares | src/ChangeFeed.c:156-189 | and up to that limit nothing else is |
| PathCache.StepKeepsInv | src/PathCache.c:406-431 | every step of readers, inserts, publishes, lookups, invalidations and the feed keeps the ticket invariant |
| PathCache.InvalidationHolds | src/PathCache.c:764-941 | in every run, once an invalidation has finished, nothing it covers that either cache holds was read under a ticket taken before it began, but path entries of a generation no lookup accepts |
| PathCache.InvalidationSpares | src/PathCache.c:764-941 | in every run, no section of an invalidation takes out anything it does not cover |
| PathCache.LongLivedIsAfterFlush | src/PathCache.c:1493-1530 | in every run, what a lookup accepts past the short lifetime was ticketed after the flush that brought the feed live |
| PathCache.AcceptedReflectsFeed | src/ChangeFeed.c:156-228 | in every run, given the server's contract, an existing result accepted reflects every change that touches it of every batch acted on when the generation was read, and of every batch acted on by now if the generation has not moved |
| PathCache.CurrentTicketIsNewest | src/PathCache.c:442-447 | in every run, a ticket whose sequence is current was taken after every invalidation that has begun |
| PathCache.AcceptedIsYoung | src/PathCache.c:1159-1166 | in every run, data a lookup accepts was read from the server less than the lifetime ago, however often it was inserted again from a cached listing |
| PathCache.CachedThenFound | src/PathCache.c:462-681 | in every run, what was cached under a ticket still current is what a lookup of that path returns until its lifetime from that ticket is over, if the bucket has not changed and no flush has come between |
| PathCache.LiveUntilFailure | src/ChangeFeed.c:195-228 | in every run, acting on a reset brings the feed live, and it stays live until a poll fails |
| PathCacheRace.LookupCanFallBehind | src/PathCache.c:462-512 | for every hash there is a run in which a lookup accepts, past the short lifetime, an entry that misses a change already acted on |
| ListingBudget.BudgetHolds | src/PathCache.c:232-262 | in every interleaving of publishes, evictions and refusals across the buckets, the listings cached never exceed the budget, and the counter is exactly what is cached and what the sections in progress have yet to settle |
| ListingBudget.GrantedExactlyIfFits | src/PathCache.c:232-249 | in every run, a listing is granted its bytes exactly when they fit beside all that is charged |
| DiskCachePlan.FillKeepsPlan | src/DiskCacheIndex.c:246-294 | filling the shortest gap takes one fetch less, and no cover in as few fetches fetches fewer blocks |
| DiskCachePlan.RivalIsDearer | src/DiskCacheIndex.c:246-294 | any cover with fewer fetches than the plan costs at least the plan and its shortest gap |
| DiskCacheIndex.Initialize | src/DiskCacheIndex.c:123-167 | refuses exactly the slot counts out of range, and else yields an empty index with a power of two of chains, at least one a slot |
| DiskCacheIndex.Index.Find | src/DiskCacheIndex.c:58-69 | returns what the finite map from key to slot says, for every key |
| DiskCacheIndex.Index.Unlink | src/DiskCacheIndex.c:72-84 | the slot leaves its key's chain, and only its predecessor's link and its own change |
| DiskCacheIndex.Index.Victim | src/DiskCacheIndex.c:93-121 | the victim is the first slot in reach that is unpinned and free or unmarked, or else the first unpinned; none only if all in reach are pinned; the hand stops just past the slot it takes, or at its reach, and exactly the marks of the unpinned slots it passed are cleared |
| DiskCacheIndex.VictimIsRight | src/DiskCacheIndex.c:93-121 | a victim is never pinned, is in use and marked only if every slot in reach is pinned or so too, and is wanting only if all in reach are pinned |
| DiskCacheIndex.SecondChance | src/DiskCacheIndex.c:93-121 | a slot a sweep passed over and that is not served or pinned since is taken, or one before it is, by any later sweep that has it in reach |
| DiskCacheIndex.Index.Reserve | src/DiskCacheIndex.c:296-357 | held, first miss, no victim or reserved, each exactly when it should be; a reserved slot's old key leaves the map and the new one enters; the ghost set records or forgets the tag; the index stays a finite map |
| DiskCacheIndex.Index.Commit | src/DiskCacheIndex.c:359-382 | a written slot becomes servable with no pin; any other is freed and its key leaves the map |
| DiskCacheIndex.Index.PinHeld | src/DiskCacheIndex.c:192-218 | each block's slot is exactly the one that holds it now, or none where none does; each of those gains one pin, and the count returned is theirs |
| DiskCacheIndex.Index.Unpin | src/DiskCacheIndex.c:220-244 | each slot named loses exactly one pin and is marked if it was served |
| DiskCacheIndex.Index.PlanRead | src/DiskCacheIndex.c:246-294 | ends with at most the runs allowed, returns the slots still pinned, unpins exactly those given up, and no choice that covers the missing blocks in as few runs gives up fewer |
| DiskCacheIndex.MissRemembered | src/DiskCacheIndex.c:296-322 | a first miss is still remembered after any three others in its set |
| DiskCacheIndex.MissForgotten | src/DiskCacheIndex.c:296-322 | four misses of other tags forget it |
| DiskCacheRead.SplitRead | src/DiskCache.c:1042-1092 | the parts of a read follow one another without gap or overlap to the end of the valid bytes, each from its blocks' own slots or fetched within the valid bytes, with one fetch for each run of missing blocks |
| DiskCacheRead.OfferBlocks | src/DiskCache.c:1126-1215 | a body is cut into exactly the blocks it covers, each once, in order, and equal to the file's block padded with zeros |
| DiskCacheRead.BlocksLeftCounts | src/DiskCache.c:1110-1115 | the count of blocks left is the number of blocks the rest of the body covers |
| DiskCacheIo.StepKeepsInv | src/DiskCache.c:330-556 | every locked section, byte moved and completion, of any reads and fills at once, keeps the cache's invariant, pin counts included |
| DiskCacheIo.HeldSlotHoldsBlock | src/DiskCache.c:478-519 | in every run, a servable slot's bytes in the cache file are its key's block |
| DiskCacheIo.PinnedSlotKeepsKey | src/DiskCacheIndex.c:93-121 | in every run, no step changes the key or state of a slot a read has pinned |
| DiskCacheIo.WritesAvoidReads | src/DiskCache.c:524-556 | in every run, no fill writes a byte that a pinned read is to read |
| DiskCacheIo.SuccessfulReadIsFile | src/DiskCache.c:330-461 | in every run, a read completed with success left exactly the file's bytes in the first valid bytes of its buffer |
| DiskCacheIo.SuccessExactly | src/DiskCache.c:330-376 | in every run, a read completes with success exactly when every part was started and each delivered in full |
| DiskCacheIo.CompletionMarks | src/DiskCache.c:330-376 | in every run, a read that completes gives back the pin it has on each slot, and marks them exactly if it succeeded |
| DiskCacheIo.FilledIsServable | src/DiskCache.c:478-519 | in every run, a fill written whole leaves its slot servable, with its block's bytes in the cache file |
| DiskCacheIo.CompletedOnce | src/DiskCache.c:330-376 | in every run, a completed read is never active, and so never completed, again |
| DiskCacheIo.ActiveReadIsHeld | src/DiskCache.c:891-949 | in every run, a read not yet completed is held by its issuing loop or by a running part |
| DiskCacheGate.StepKeepsInv | src/DiskCache.c:205-243 | every step of entrants, fill builders, the fill worker, writes and cleanup keeps the account of Busy and the fill queue |
| DiskCacheGate.NoFillStranded | src/DiskCache.c:524-606 | in every run, a fill not settled holds its count and is queued, being written or in an agent's hands, and a queue that is not empty has an agent that owes it a worker or is draining it |
| DiskCacheGate.FillsInOrder | src/DiskCache.c:524-606 | in every run, the fill queue is first in, first out, or is given up whole |
| DiskCacheGate.QueuedIsWritten | src/DiskCache.c:524-556 | while the cache is on, the first fill queued goes through the worker to the disk, its count with it until it is written, whatever others do between |
| DiskCacheGate.OpenGateAdmits | src/DiskCache.c:215-243 | one that finds the cache on before counting itself and after is in, and counted |
| DiskCacheGate.NothingAfterIdle | src/DiskCache.c:817-838 | in every run, once Busy has reached zero, and so once cleanup closes the file, no read or fill is in flight or queued and none ever starts |
| DiskCacheGate.CleanupEnds | src/DiskCache.c:817-838 | and cleanup waits for nothing else: with nobody inside and no write in flight, Busy has reached zero |
| ReadFair.Fair.AdmitNow | src/Read.c:420-466 | the first look admits exactly when nothing makes it wait, and otherwise changes nothing |
| ReadFair.Fair.AdmitOrHold | src/Read.c:420-483 | the second look admits or holds exactly as the lock then says, tags the read, charges its file, and keeps the counters, the reasons for holding and the order of tags |
| ReadFair.Fair.ReleaseOne | src/Read.c:494-541 | demand goes first in arrival order, then the lowest start tag that may go; nothing goes only when every held read has its file in flight and the link no room |
| ReadFair.Fair.AdmitHeld | src/Read.c:494-541 | loses and invents no read, and ends with every reason for holding true |
| ReadFair.Fair.Settle | src/Read.c:560-589 | the counters keep counting what is admitted, the cap is kept, virtual time does not fall, and the settled read alone is gone |
| ReadFair.Fair.Reserve | src/Read.c:597-610 | reserves as many as asked up to the cap, and records them as the read's |
| ReadFair.Fair.GiveBack | src/Read.c:612-632 | the reservations go from the read they were recorded for, what they kept waiting is admitted, and no read is lost |
| ReadFair.Fair.ReturnRest | src/Read.c:1280-1296 | of what a partly held read reserved, all goes back but the fetches it made past the first, whatever was admitted, settled or reserved since |
| ReadFair.Fair.CompletePartly | src/Read.c:1101-1127 | those go back at completion, before or after the rest |
| ReadFair.BothHalvesReturnAll | src/Read.c:1280-1296 | once every read that reserved has been through both, in either order, nothing is reserved |
| ReadFair.HeldHasFetch | src/Read.c:340-356 | a read held while the cap has room shares its file with a fetch in flight |
| ReadFair.QuietLinkIsDrained | src/Read.c:340-356 | with nothing admitted or reserved, nothing waits or is held |
| ReadFair.SettleAll | src/Read.c:560-589 | once arrivals stop, one settlement for each read drains both queues |
| ReadFair.HeldMustHold | src/Read.c:393-399 | with a budget, whatever is held would be held if it arrived now |
| ReadFair.ZeroBudgetStillHolds | src/Read.c:494-541 | with none, a read can stay held that would be admitted if it arrived now |
| ReadFair.FairShare | src/Read.c:448-449 | over any interval of virtual time a file is charged at most its width and one fetch |
| FairOrder.GapBounded | src/Read.c:494-541 | over any stretch of held arrivals and lowest-tag releases, the gap between two files backlogged throughout exceeds neither its start nor one fetch, if at the start neither has a longer hop between its tags; and then neither ever has |
| FairOrder.GapBoundExact | src/Read.c:448-464 | for a file as it stands, the gap to every rival that moves one fetch at a time is so bounded over every stretch if and only if none of the file's hops, its next arrival's included, is longer than one fetch |
| FairOrder.GapAfterDemand | src/Read.c:420-589 | a run of the scheduler from an empty link in which demand passes two backlogged files, and the gap between them goes from nothing to any size in one held arrival and one release |
| TlsDrain.FrameIsStream | src/Client.c:2610-2650 | framing loses nothing: the records and the rest are the stream |
| TlsDrain.CutsAreFrame | src/Client.c:2610-2650 | there is one way to cut a stream into whole records, and framing it finds it |
| TlsDrain.Receiver.Drain | src/Client.c:2610-2758 | takes whole records only, in order, until enough or unfinished; fails only at a header refused outright or a record that does not open under its number; and what it leaves with what it took is all that was received |
| TlsDrain.Receiver.Compact | src/Client.c:2760-2775 | moves the unfinished record to the front without losing a byte, whenever the tail is too short for a whole one |
| TlsDrain.DrainedIsFramed | src/Client.c:2579-2792 | when the drain asks for more, it has taken exactly the records framing the whole stream gives, opened under consecutive numbers, and delivered their content |
| TlsDrain.TakenIsFramedPrefix | src/Client.c:2579-2792 | at any time, what it has taken is the first of them |
| TlsDrain.ReceiveNeverEmpty | src/Client.c:2760-2792 | the receive it posts is not empty if the accumulator holds a largest record |
| TlsDrain.ReceiveCanBeEmpty | src/Client.c:2760-2792 | and can be if it does not, however small it is |
| TlsDrain.Connection | src/Client.c:2805-2824 | for any pieces that fit the receives posted, what has been taken is what framing all of them gives, unless the record now in front is refused |
| TlsWire.FramesWhatWasSent | src/Client.c:2610-2650 | whatever was sent, each record as type, version, length high byte first and body, and the last perhaps not all there, framing gives back |
| TlsWire.SentIsReceived | src/Client.c:2579-2792 | of records sealed under consecutive numbers, framing gives back every one, each opens, and the content delivered is the data sent |
| TlsWire.Deliver | src/Client.c:2579-2824 | through the accumulator, in any pieces that fit the receives posted, nothing so sent is refused, and once it is all in, the data delivered is the data sent |
| HttpResponse.Response.Grow | src/Client.c:1691-1719 | growing keeps every byte received, or fails and changes nothing |
| HttpResponse.Response.PostReceive | src/Client.c:2358-2429 | the room posted is never empty and never past the declared end |
| HttpResponse.Response.Arrive | src/Client.c:2449-2469 | plaintext bytes land after those received, in the buffer or the caller's pages |
| HttpResponse.Response.ArriveTls | src/Client.c:2653-2757 | so does a record's content, and nothing decrypted with it lands past the declared end of the caller's pages; it fails exactly if the content itself does not fit there, or the buffer cannot be grown |
| HttpResponse.Response.ReadResponse | src/Client.c:2905-3052 | asks for more, fails or is done; done means the body is complete and where it belongs; it fails for endless or malformed headers, a wrong status or length, or bytes past the declared end, and otherwise only for want of memory |
| HttpResponse.BodyIsDeclared | src/Client.c:2905-3125 | a completed body is exactly the declared bytes after the headers |
| HttpResponse.SplitsAgree | src/Client.c:2905-3125 | any two splits of one response that complete deliver the same body |
| HttpResponse.ReceiveAll | src/Client.c:2905-3052 | for any pieces, plaintext or TLS, buffer or caller's pages, a completed response's body is what follows the headers of the pieces put together |
| HttpResponse.ReceiveWhole | src/Client.c:2358-3052 | a response with nothing wrong with it completes, however it is cut into receives or records, once its last byte is in, with its body delivered |
| HttpLifecycle.StepKeepsInv | src/Client.c:1899-2173 | every outcome of every stage keeps the account of completions, connects, retries and sockets |
| HttpLifecycle.RequestRuns | src/Client.c:2064-2245 | however its events fall, a request completes at most once, and exactly once by the time it is freed; starts at most four connects; retries once at most, abandoning a socket that delivered nothing; and leaves no socket held |
| HttpLifecycle.FateIsFinal | src/Client.c:3028-3032 | a socket is pooled or closed at most once |
| HttpLifecycle.LostPooledIsRetried | src/Client.c:2064-2109 | a connection lost on a socket from the pool before a byte has come over it gives the socket up and starts the request over; any other loss fails it |
| HttpLifecycle.TimedOutIsRetried | src/Client.c:2110-2173 | a connect that times out is tried again, until four have |
| HttpLifecycle.RetryConnects | src/Client.c:2064-2173 | a request started over is never given a pooled socket again, and can still succeed |
| HttpLifecycle.ShakesBeforeSending | src/Client.c:2110-2173 | nothing is sent over a socket whose handshake is still to be made, and none is made twice |
| HttpLifecycle.OnlyWholePools | src/Client.c:3028-3032 | by the time a request is freed, the socket a whole response came over, and no other, has gone back to the pool |
| HttpLifecycle.RunsAreBounded | src/Client.c:3288-3490 | with receives bounded, a request runs for a bounded number of steps |
| HttpLifecycle.CanSucceed | src/Client.c:1899-2025 | from wherever a request stands short of its end and of its receive bound, it can still go on to its end with no failure on the way |
| HttpLifecycle.MaximalRunEnds | src/Client.c:3288-3490 | every run with receives bounded that cannot be carried further ends freed, completed exactly once, every socket pooled or closed |
| NameIndex.Listing.Index | src/Client.c:1108-1122 | every chain holds exactly its entries, in listing order |
| NameIndex.Listing.Find | src/Client.c:1124-1141 | finds the first name in the listing equal but for case, or none if there is none |
| NameIndex.ChainsIncrease | src/Client.c:1103-1122 | every chain is strictly increasing in listing order |
| NameIndex.SeedListing | src/PathCache.c:1012-1101 | whatever the seed leaves cached for a child is the entry the listing's lookup finds, and every one of the first entries whose name can be cached is, unless evicted since |
| SocketPrewarm.StepKeepsInv | src/Socket.c:973-1023 | every step of the pump, its completions and the drain keeps the invariant over its five words |
| SocketPrewarm.AtMostOneConnect | src/Socket.c:1146-1250 | at most one connect is raised, on the wire or completing, one thread runs the loop, and InFlight says which |
| SocketPrewarm.FillMakesExactlyCount | src/Socket.c:1254-1297 | an admitted fill makes at most its count of connects, and exactly that once all is quiet, in any run with no failed issue and no teardown |
| SocketPrewarm.NothingAfterDrain | src/Socket.c:649-670 | once the drain has seen zero in flight, no connect is started, completed or bounced |
| SocketPrewarm.BounceFindsWorkItem | src/Socket.c:1014-1023 | a completion that bounces finds its work item allocated and not freed |
| SocketTimeout.WatchdogRuns | src/Socket.c:278-327 | however the timer and the completion race, neither touches a freed context, the caller is called once, a timeout is reported only for an operation that the watchdog marked and that ended cancelled, the context is freed once, and an operation whose timer went off has been asked to cancel |
| SocketTimeout.ReportsExactly | src/Socket.c:305-318 | a timeout is reported exactly when the mark came before the completion read it and the operation ended cancelled |
| DirPaging.Enumerate | src/DirCtrl.c:277-398 | one query writes exactly the entries whose names match from where it started to where it stopped, each once and in order, walkable record by record within the bytes reported, and stops early only at an entry that does not fit |
| DirPaging.WalkVisitsAll | src/DirCtrl.c:145-245 | following NextEntryOffset visits exactly the records written, in order, each within the bytes reported |
| DirPaging.PageThrough | src/DirCtrl.c:958-961 | any sequence of buffer lengths gives, put together, exactly the entries whose names match, each once and in listing order, up to where the handle has come; lengths that each hold any one entry reach the end within one query more than there are entries |

## Left out

- Weak memory: steps are sequentially consistent.
- Integer widths: counters, tags, sequence and generation numbers do not wrap.
- NodeReap: the child index, path search and tear-down of the tables are not modelled, only the latch that stops new reaping; counts are sets of holders.
- PathCache: inserts without a ticket, which no caller makes, are not modelled; whether a listing fits is either answer (the budget itself is in ListingBudget); an answer of the feed's epoch is taken to name every change since the last.
- PathCache.ApplyOpsSpares: stated for absolute paths with no empty component, which is what the feed and the caches name.
- PathCache: one follower thread; its backoff and notifications are left out.
- ReadFair: read-ahead granularity (`ReadAdaptGranularity`) and the FSP queue.
- DiskCacheIo: the cache file's opening, and the backlog limit on fills; a queued fill is written or given up (its way through the queue is in DiskCacheGate, apart from the index).
- DiskCacheIndex.Index.PlanRead: allowing no runs at all is taken only for a read held whole, as its caller does.
- TLS handshake and cryptography, header syntax, and the decoding of metadata bodies.
- HttpResponse.Response.ReadResponse: a failed request's buffer is abandoned, and nothing is stated of it.
- HttpLifecycle.RunsAreBounded: the bound on each receive is an assumption, which the response machine's posted room supports.
- DirPaging: single queries that name an index of their own, and faults of the caller's buffer.
- Dispatch, security, locks, extended attributes, statistics, registry and write paths: plumbing or stubs.
