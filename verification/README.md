# Verified model of the kuro BitTorrent engine

This project models the parts of kuro whose correctness rests on several structures being kept in
step by hand: the in-tree BitTorrent engine (`internal/bt`), the files behind it
(`internal/engine/storage.go`) and the disk-cache planner (`internal/library/cache.go`). Almost every
state change in the engine happens in a critical section under one client lock, and a few operations
release that lock in the middle. So the engine is modelled as state machines whose steps are those
critical sections, with a separate step on each side of every lock release. Where the code asserts
something with `panic` or `panicif`, the model's operation is `Panicked` there, and the proofs show
when that can be reached.

Code that updates fields in place is a class here, its methods proved against functions on the
value of those fields; what the code promises over whole runs is then proved about those functions.

| file | what it models |
|---|---|
| `Basics.dfy` | what several components share: division, tuples, set sizes, things laid end to end |
| `Requests.dfy` | ownership of outstanding chunk requests over any number of connections |
| `Planning.dfy` | the same as an object, queue depth, committing a plan of requests, and why taking over ends |
| `Stealing.dfy` | the rules for taking a chunk from another peer, and why that ends |
| `RequestOrder.dfy` | the order in which chunks are considered |
| `Availability.dfy` | piece availability counters under HAVE, BITFIELD, HAVE ALL, HAVE NONE, close |
| `Hashing.dfy` | the hash queue, hashers of all torrents, and verification on request |
| `Lifecycle.dfy` | chunks planned, requested and written, pieces hashed and marked, across lock releases |
| `Priorities.dfy` | wanted pieces: files, readers, piece state, and the two caches of them |
| `Uploads.dfy` | serving one peer's requests under a memory cap |
| `Announces.dfy` | the tracker announce dispatcher and its derived tables |
| `Pex.dfy` | the peer-exchange feed (BEP 11) and its receiver |
| `Storage.dfy` | files laid end to end as one flat array of bytes |
| `SmartBan.dfy` | checking a piece's blocks as it streams past |
| `Chunks.dfy` | chunk, piece, offset and byte-count arithmetic |
| `Eviction.dfy` | which torrents the disk cache deletes |

Seven things the code is meant to keep turned out not to hold on all inputs. Each is stated with a
concrete run and with the exact condition under which it does hold:

- Availability is miscounted after HAVE NONE from a peer that sent HAVE ALL, and when the metadata
  arrives while a connection claims as many pieces as there are but not those pieces
  (`Availability.HaveNoneAfterHaveAll`, `Availability.EarlyHaveMiscounted`; exact condition in
  `Availability.NextExact`).
- The check that pending pieces match the request order panics when downloading was stopped while
  pieces were pending (`Priorities.StalePendingPanics`; exactly then, `Priorities.Torrent.NeedData`).
- A failed read of a peer's request panics when the torrent was closed meanwhile and the request is
  still wanted (`Uploads.PanicsAfterClose`; exactly then, `Uploads.NextRight`).
- Choking a peer without the fast extension while its server waits for memory loses the wakeup, and
  nothing is served again until the connection closes (`Uploads.LosesWakeup`; exactly then,
  `Uploads.StuckWhen`).
- The peer-exchange feed is spoilt by a reconnect while the drop of the same address is held back
  (`Pex.ReconnectSpoils`; exactly then, `Pex.AddTracks`).
- The bytes left of a file are wrong when chunks of its first or last piece are dirty and the piece is
  shared with another file (`Chunks.DirtyBytesMiscounted`; by how much, and exactly when not at all, in
  `Chunks.FileBytesLeftError`).
- An overdue announce within its tracker's limit can be passed over because an idle tracker has nothing
  due (`Announces.DueButPassedOver`; exact condition in `Announces.FirstIsDue`).

To check the project: `dafny verify dfyconfig.toml`.

## Model

| member | source | states |
|---|---|---|
| Requests.DeleteRequestSafe | internal/bt/peerconn.go:1833-1852 | in any consistent state, deleting a request never panics on its owner check and keeps consistency |
| Requests.CancelRequestSafe | internal/bt/torrent.go:3304-3315 | cancelling a chunk through the owner map never panics and equals cancelling it wherever it is outstanding |
| Requests.CancelSetSafe | internal/bt/torrent.go:2719-2725 | cancelling any set of chunks keeps consistency |
| Requests.RequestSafe | internal/bt/peerconn.go:1711-1782 | asking for a chunk of a ready piece below the limit reaches none of the panics, among them those on pieces the peer lacks or that are hashed, marked or queued, and keeps consistency; planning offers only such chunks (`Lifecycle.DesiredMayBeRequested`) |
| Requests.ObtainSafe | internal/bt/requesting.go:336-355 | taking a chunk over from its holder never panics and leaves exactly one owner |
| Requests.RemoteRejectedSafe | internal/bt/peerconn.go:1806-1818 | a reject of anything, sent or not, never underflows the expected count and keeps consistency; what it does is in `RejectMarks` |
| Requests.RejectMarks | internal/bt/peerconn.go:1806-1818 | after a reject the chunk is neither outstanding nor awaited at the peer; if it was either, one delivery fewer is expected; its owner entry goes exactly if it was outstanding; every other connection, chunk and entry is as before |
| Requests.CheckReceivedSafe | internal/bt/peerconn.go:1892-1924 | a received chunk, expected or not, keeps consistency and is no longer outstanding at the sender |
| Requests.ReceiveChunkSafe | internal/bt/peer.go:342-408 | after a wanted, plausible chunk arrives it is outstanding at nobody, with no panic |
| Requests.DeleteAllRequestsSafe | internal/bt/peerconn.go:1854-1870 | dropping all of a connection's requests, even as it is unlisted, keeps consistency |
| Requests.NextSafe | internal/bt/peerconn.go:1711-1924 | every critical section from a consistent state goes through and leaves one; an open connection stays listed |
| Requests.OwnersAfter | internal/bt/requesting.go:336-359 | only taking a chunk creates an owner, and only of that chunk |
| Requests.NextMarks | internal/bt/peerconn.go:1711-1924 | for every event, connection and chunk: what is outstanding, awaiting an acknowledgement and expected afterwards, as a table of the protocol says, from asking and delivery to choking, cancelling and dropping |
| Requests.NextClaims | internal/bt/peerconn.go:1757-1782 | a chunk's owner and request time are those of the last REQUEST sent for it |
| Requests.NextSettings | internal/bt/torrent.go:1966-1991 | connections come, go, choke and close only by the events that say so, and every open one is listed |
| Requests.ExpectedIsOwed | internal/bt/peerconn.go:1820-1924 | in every run the deliveries expected of a chunk are the requests sent for it less those answered or rejected |
| Requests.RunsAreSafe | internal/bt/peerconn.go:1711-1924 | in every run over any number of peers: no panic; outstanding at p exactly when the owner map names p, p being listed; outstanding and cancelled disjoint; each still expected |
| Planning.NominalMaxRequests | internal/bt/request-queue.go:44-50 | at least one, never above what the peer or the write buffer takes; two seconds of the measured rate fit unless one of these forbids, and more than the floor only as far as they do |
| Planning.ObtainSteady | internal/bt/requesting.go:336-355 | taking one chunk over takes nothing else from anyone and adds nothing else to anyone |
| Planning.RoundSafe | internal/bt/requesting.go:327-359 | one round of the loop passes a chunk over or takes it, without panic, and disturbs nothing else |
| Planning.RoundTakes | internal/bt/requesting.go:327-359 | when a round gives a peer a chunk: never after a reject; a free chunk always; another's never after a cancel, and otherwise exactly when its holder loses it by the rules, stated in plain numbers |
| Planning.ApplySafe | internal/bt/requesting.go:294-374 | whatever order the heap yields, a whole plan goes through without panic, the peer keeps what it had, others lose only to it, and only planned chunks gain an owner |
| Planning.AppliedAll | internal/bt/requesting.go:313-374 | a plan applied to the end gains only planned chunks up to the limit, takes nothing in reply to a reject, steals nothing in reply to a cancel, and with room left has left no planned chunk without an owner |
| Planning.TakeoverIsStep | internal/bt/requesting.go:336-355 | a takeover in the swarm is a step of the stealing model on the connections' queues: one request moves from the holder to the taker, by the rules |
| Planning.TakeoversEnd | internal/bt/requesting.go:336-355 | from any consistent swarm no infinite run of takeovers from holders that are not silent exists |
| Planning.Torrent.DeleteRequest | internal/bt/peerconn.go:1833-1852 | the object's fields change as the ownership model says |
| Planning.Torrent.Cancel | internal/bt/peerconn.go:1784-1793 | cancelling at the holder follows the model, without panic |
| Planning.Torrent.CancelRequest | internal/bt/torrent.go:3304-3315 | cancelling by chunk follows the model |
| Planning.Torrent.Request | internal/bt/peerconn.go:1711-1782 | requesting a chunk that planning may offer follows the model, without panic |
| Planning.Torrent.DecExpectedChunkReceive | internal/bt/peerconn.go:1820-1829 | one expectation of one chunk is given up, nothing else |
| Planning.Torrent.RemoteRejectedRequest | internal/bt/peerconn.go:1806-1818 | a reject follows the model |
| Planning.Torrent.CheckReceivedChunk | internal/bt/peerconn.go:1892-1924 | a received chunk follows the model |
| Planning.Torrent.ReceiveChunk | internal/bt/peer.go:342-408 | reception and cancelling the other holder follow the model |
| Planning.Torrent.DeleteAllRequests | internal/bt/peerconn.go:1854-1870 | the loop empties the set and exactly those owner entries |
| Planning.Torrent.CancelAllRequests | internal/bt/peerconn.go:1878-1884 | the loop cancels every outstanding chunk of one connection |
| Planning.Torrent.CancelRequestsForPiece | internal/bt/torrent.go:2719-2725 | the loop over a piece's indexes equals cancelling its chunks at once |
| Planning.Torrent.DeletePeerConn | internal/bt/torrent.go:1966-1991 | an unlisted connection has nothing outstanding and owns nothing |
| Planning.Torrent.ApplyRequestState | internal/bt/requesting.go:294-374 | ends; does what applying the chunks in some order does; the peer keeps all it had; outstanding plus cancelled stays within the larger of before and the limit; the buffer stays below high water; with room left every wanted chunk has an owner |
| Planning.Torrent.Consider | internal/bt/requesting.go:327-359 | one round does what the model's round does, and costs one REQUEST message when a chunk is taken |
| Planning.Torrent.TakeOver | internal/bt/requesting.go:354-359 | the takeover follows the model and costs at most one REQUEST message |
| Stealing.NotReversed | internal/bt/request-queue.go:53-69 | no steal that is not about a silent peer can be reversed at once |
| Stealing.StealsWhen | internal/bt/request-queue.go:53-69 | exactly when a holder loses a chunk: silent for two seconds since it was asked; or unmeasured, with more requests than the taker would have, or as many while having delivered less recently; or measured and more than twice as slow by its queue |
| Stealing.RateRuleLowersLoad | internal/bt/request-queue.go:53-69 | a steal by the rate rule lowers the sum of n(n+1)/(2 rate) by a fixed step |
| Stealing.StepLowers | internal/bt/request-queue.go:53-69 | any steal not about a silent peer lowers a well-founded measure of all peers |
| Stealing.StealingTerminates | internal/bt/request-queue.go:53-69 | no infinite sequence of such steals exists, for any number of peers; `Planning.TakeoversEnd` applies it to the swarm |
| RequestOrder.DecidesAsKeys | internal/bt/requesting.go:50-142 | on different chunks the cascade decides, and as a fixed tuple of numbers compares |
| RequestOrder.StrictTotalOrder | internal/bt/requesting.go:50-142 | irreflexive, total and transitive through every branch |
| RequestOrder.AmbiguousOnlyOnItself | internal/bt/requesting.go:50-142 | the comparison fails to decide exactly when both sides are the same chunk |
| RequestOrder.Preferred | internal/bt/requesting.go:50-142 | which chunk is preferred, criterion by criterion: allowed while choked, more urgent, asked of this peer already, asked of nobody, from the busier holder, asked for later, rarer, or further back with webseeds |
| RequestOrder.BestExists | internal/bt/requesting.go:306-312 | for a fixed state of the torrent, every non-empty set of candidates has one that beats all others, so a heap of them has a definite top |
| Availability.HaveExact | internal/bt/peerconn.go:460-477 | HAVE, known or new, keeps counters equal to the count of claiming peers |
| Availability.BitfieldExact | internal/bt/peerconn.go:479-534 | BITFIELD of any length, also replacing HAVE ALL, keeps the counters equal to what is recorded; that the record is the message is in `NextSays` |
| Availability.HaveAllExact | internal/bt/peerconn.go:536-564 | HAVE ALL moves a peer out of the counters exactly |
| Availability.HaveNoneExact | internal/bt/peerconn.go:566-574 | HAVE NONE without an earlier HAVE ALL keeps the counters exact |
| Availability.ClosePeerExact | internal/bt/torrent.go:1993-2004 | closing releases exactly what the peer was counted for |
| Availability.SetInfoExact | internal/bt/torrent.go:588-613 | counters set when metadata arrives are right if and only if no listed peer claims the right number of the wrong pieces |
| Availability.NextExact | internal/bt/peerconn.go:460-574 | every message goes through without panic; counters stay exact if and only if the stated guard held before it |
| Availability.NextSays | internal/bt/peerconn.go:460-574 | after every message an open peer is recorded as having a piece exactly if the message, or what it said before, says so: the bit of a BITFIELD, the piece of a HAVE, everything, nothing; nobody else's record changes |
| Availability.RunListing | internal/bt/torrent.go:1966-2004 | the events alone tell who is known, open and listed, and how many pieces there are |
| Availability.RecordedIsSaid | internal/bt/peer.go:247-252 | in every run, guarded or not, the record of an open peer is what its messages say |
| Availability.RunsCountExactly | internal/bt/torrent.go:243-275 | in every guarded run counters equal claiming peers, total availability is at most the connection count, and all are zero once everyone closed |
| Availability.AvailabilityIsSaid | internal/bt/torrent.go:243-275 | in every guarded run a piece's availability is the number of open peers whose messages say they have it |
| Availability.HaveNoneAfterHaveAll | internal/bt/peerconn.go:566-574 | a run in which a counter stays at one with every peer closed |
| Availability.EarlyHaveMiscounted | internal/bt/torrent.go:243-254 | a run in which a HAVE before the metadata is counted for the wrong piece |
| Availability.Torrent.DecAvailability | internal/bt/torrent.go:256-266 | the counters of the given pieces fall by one, never below zero, and no others change |
| Availability.Torrent.IncAvailability | internal/bt/torrent.go:268-275 | the counters of the given pieces rise by one and no others change |
| Availability.Torrent.PeerSentHave | internal/bt/peerconn.go:460-477 | the method does what the model's step says |
| Availability.Torrent.PeerSentBitfield | internal/bt/peerconn.go:479-534 | the loops over the bitfield do what the model's step says |
| Availability.Torrent.OnPeerHasAllPieces | internal/bt/peerconn.go:536-552 | the method does what the model's step says |
| Availability.Torrent.PeerSentHaveNone | internal/bt/peerconn.go:566-574 | the method does what the model's step says |
| Availability.Torrent.DecPeerPieceAvailability | internal/bt/torrent.go:1993-2004 | releases a peer's claims, all at once or one by one |
| Availability.Torrent.ClosePeer | internal/bt/peer.go:218-236 | closing twice releases once |
| Availability.Torrent.SelectiveAvailability | internal/bt/torrent.go:243-254 | counts the peers outside the have-all set that claim a piece |
| Availability.Torrent.OnSetInfo | internal/bt/torrent.go:588-613 | every counter is set from the connections known then |
| Hashing.NextCounted | internal/bt/torrent.go:2766-2829 | every step keeps the hasher counters equal to the pieces in hand and within the limits, though a finished hasher goes on without asking |
| Hashing.NextPhase | internal/bt/torrent.go:2766-2892 | a piece leaves the queue when its hash begins, is hashed until the result is read, counts once more then, and is marked from then on while its torrent is open |
| Hashing.HashersBounded | internal/bt/torrent.go:3742-3756 | in every run of all torrents: counters exact, both limits respected, no piece hashed twice at once |
| Hashing.VerifyIsFresh | internal/bt/piece.go:226-256 | when the awaited count is reached, some hash of the piece began after the call queued it and was recorded before |
| Hashing.TargetIsLeast | internal/bt/piece.go:226-256 | the awaited count is the least there could be: a result is of a hash begun after the call exactly if its number is that count or more |
| Hashing.VerifiesAreResults | internal/bt/torrent.go:2856-2892 | in every run a piece's verify count is the number of its hashes read to the end |
| Hashing.FinishPossible | internal/bt/torrent.go:2856-2892 | whenever a piece is in hand both counters are positive, so finishing never underflows them |
| Hashing.GetPieceToHash | internal/bt/torrent.go:2817-2829 | returns the first of the most urgent queued pieces not in hand, or none if there is none |
| Hashing.Client.Begin | internal/bt/torrent.go:2805-2814 | one piece leaves the queue for its hasher and both counters step up, with no limit asked, as a hasher going on does |
| Hashing.Client.StartTorrentHashers | internal/bt/torrent.go:2766-2776 | starts hashers of one torrent while both limits and its queue allow, and leaves no slot unused |
| Hashing.Client.StartPieceHashers | internal/bt/client.go:2004-2025 | a pass over all torrents: only queued pieces start; afterwards all hashers are busy, or no torrent has both room and a piece ready |
| Hashing.Client.QueuePieceCheck | internal/bt/torrent.go:2923-2940 | queues the piece and returns the count of the next hash not yet begun |
| Lifecycle.ReceiveRight | internal/bt/peer.go:373-408 | an arriving chunk keeps every invariant up to where the lock is released |
| Lifecycle.DesiredMayBeRequested | internal/bt/peerconn.go:1711-1747 | every chunk planning desires passes every check made before a request: in the torrent, not awaiting an acknowledgement, of a piece the peer has and that is not hashed, marked or queued, and unchoked or allowed |
| Lifecycle.UpdateRight | internal/bt/requesting.go:162-374 | planning and then requesting, in any order and taking over from anyone, reaches no panic and keeps every invariant |
| Lifecycle.WrittenRight | internal/bt/peer.go:410-447 | the end of a write, good or bad, keeps them: the last writer of a full piece queues it |
| Lifecycle.SetCompletionRight | internal/bt/torrent.go:1789-1842 | any change of completion leaves no dirty or outstanding chunk of a complete piece |
| Lifecycle.MarkedRight | internal/bt/torrent.go:2610-2717 | recording a hash result keeps the invariants and leaves a clean chunk, so the piece is not stranded; what it decides is in `MarkDoneDecides` |
| Lifecycle.MarkDoneDecides | internal/bt/torrent.go:2633-2717 | a hash result of an open torrent makes the piece complete exactly if it passed, and touches no other piece; passed, nothing of the piece stays dirty or outstanding; failed, a full piece starts over and any other keeps what it has |
| Lifecycle.StorageDecides | internal/bt/torrent.go:1789-1842 | what storage reports becomes the piece's completion, with the same effect on its chunks and on no other piece |
| Lifecycle.ReceiveDirties | internal/bt/peer.go:373-408 | a chunk becomes dirty and goes to storage exactly if a delivery was expected, it was clean and its piece incomplete |
| Lifecycle.WrittenQueues | internal/bt/peer.go:410-447 | a failed write makes the chunk clean again; the piece is queued exactly if the write succeeded, all its chunks are dirty and nobody else is writing one |
| Lifecycle.UpdateAsks | internal/bt/requesting.go:162-374 | an update with room left leaves no chunk that could be asked of the peer without somebody asked for it, and gives the peer only such chunks |
| Lifecycle.NextRight | internal/bt/peer.go:394-447 | no critical section panics and each keeps the invariants, updates of requests included |
| Lifecycle.NoPieceStranded | internal/bt/torrent.go:2610-2717 | in every interleaving, a full and written piece of an open torrent is queued, hashing or being marked |
| Lifecycle.NothingRequestedTwice | internal/bt/torrent.go:1789-1842 | in every reached state a dirty chunk is outstanding from nobody, and complete pieces have nothing dirty or outstanding |
| Lifecycle.CompletionIsDecided | internal/bt/torrent.go:1789-1842 | in every interleaving a piece is complete exactly if the last decision about it, a hash result or a report of storage, said so |
| Lifecycle.NoPanic | internal/bt/piece.go:126-142 | in every reached state no due critical section panics, pending writes and the checks before a request included |
| Lifecycle.AllDirtyByCounting | internal/bt/torrent.go:1498-1500 | comparing counts of dirty chunks and chunks is the same as every chunk being dirty |
| Lifecycle.Torrent.PieceAllDirty | internal/bt/piece.go:343-345 | counting dirty chunks decides whether all are dirty |
| Lifecycle.Torrent.ReceiveChunk | internal/bt/peer.go:373-408 | the fields change as the model's step says and the invariants hold |
| Lifecycle.Torrent.FinishWrite | internal/bt/peer.go:410-447 | the fields change as the model's step says and the invariants hold |
| Lifecycle.Torrent.OnIncompletePiece | internal/bt/torrent.go:2738-2741 | a full piece found incomplete is cleaned, any other left alone |
| Lifecycle.Torrent.OnPieceCompleted | internal/bt/torrent.go:2727-2735 | chunks of the piece are cleaned and cancelled wherever outstanding |
| Lifecycle.Torrent.SetPieceCompletion | internal/bt/torrent.go:1789-1842 | completion changes as the model's step says and the invariants hold |
| Lifecycle.Torrent.PieceMarked | internal/bt/torrent.go:2633-2717 | the end of marking follows the model, or nothing once closed |
| Priorities.FilePieces | internal/bt/metainfo/fileinfo.go:44-56 | a piece is in a file's index range exactly when it overlaps the file |
| Priorities.FirstFileIndex | internal/bt/torrent.go:524-531 | the first file ending after an offset, or zero if none |
| Priorities.EndFileIndex | internal/bt/torrent.go:535-542 | the first file starting at or after an offset, or the file count |
| Priorities.FileRange | internal/bt/torrent.go:442-460 | the cached file range of a piece is exactly the files that overlap it |
| Priorities.RegionPieces | internal/bt/torrent.go:1645-1662 | the pieces of a byte region are exactly those holding one of its bytes |
| Priorities.ReaderPieces | internal/bt/reader.go:144-167 | a reader covers exactly the pieces holding a byte between where it is and as far as it reads ahead, at least one byte and within its file, and none while it is not reading |
| Priorities.WantedWhen | internal/bt/piece.go:295-323 | a piece is wanted exactly if a file, a reader or the piece asks for it, downloading is allowed, and it is known incomplete and neither queued, hashing nor being marked |
| Priorities.PureIsHighest | internal/bt/piece.go:270-293 | its priority is the highest of what its files, itself, a reader standing in it or reading ahead give it |
| Priorities.MoveTouches | internal/bt/torrent.go:1875-1884 | moving one reader changes reader priority only inside its old and new ranges |
| Priorities.CachesAgree | internal/bt/torrent-piece-request-order.go:95-119 | right caches mean pending is exactly the wanted pieces and agrees with the request order |
| Priorities.Torrent.constructor | internal/bt/t.go:221-241 | files are laid end to end, pieces know their files, and the caches start right |
| Priorities.Torrent.OnSetInfo | internal/bt/torrent.go:588-613 | initial completions are taken over with the caches right after each |
| Priorities.Torrent.PurePriority | internal/bt/piece.go:278-293 | the priority from the cached file range equals the highest over all files that overlap, readers and the piece |
| Priorities.Torrent.UpdateRequestOrderPiece | internal/bt/torrent-piece-request-order.go:14-35 | the order gets, keeps or loses one piece, unless the torrent is closed |
| Priorities.Torrent.UpdatePendingPieces | internal/bt/torrent.go:1568-1576 | the pending set gains or loses one piece and the change is reported |
| Priorities.Torrent.UpdatePiecePriority | internal/bt/torrent.go:1579-1603 | one stale piece becomes right and no other is spoilt |
| Priorities.Torrent.UpdatePiecePriorities | internal/bt/torrent.go:1614-1620 | a range of stale pieces becomes right |
| Priorities.Torrent.SetFilePriority | internal/bt/file.go:192-199 | refreshing only the file's range leaves both caches right everywhere |
| Priorities.Torrent.SetPiecePriority | internal/bt/piece.go:270-275 | the caches stay right |
| Priorities.Torrent.DownloadPieces | internal/bt/t.go:195-201 | raises exactly the pieces below normal, caches right |
| Priorities.Torrent.CancelPieces | internal/bt/t.go:209-219 | clears exactly the pieces' own priorities, caches right |
| Priorities.Torrent.UpdateReaderPieces | internal/bt/torrent.go:1875-1884 | the two reader bitmaps are exactly the first pieces and the rest of all reader ranges |
| Priorities.Torrent.ReaderPosChanged | internal/bt/torrent.go:1511-1529 | refreshing the old and new range, merged when they touch, leaves every piece right |
| Priorities.Torrent.PosChanged | internal/bt/reader.go:391-400 | a move of one reader leaves both caches right |
| Priorities.Torrent.AddReader | internal/bt/t.go:171-179 | the reader is listed with the pieces of `ReaderPieces`, and both caches are right |
| Priorities.Torrent.DeleteReader | internal/bt/t.go:181-184 | a closed reader leaves both caches right |
| Priorities.Torrent.SetPieceCompletion | internal/bt/torrent.go:1789-1842 | completion changes exactly one piece, caches right even when nothing changed |
| Priorities.Torrent.SyncCompletion | internal/bt/torrent.go:1779-1786 | a storage error also stops downloading |
| Priorities.Torrent.QueuePieceCheck | internal/bt/torrent.go:2923-2940 | a queued piece is no longer wanted |
| Priorities.Torrent.StartHash | internal/bt/torrent.go:2805-2814 | a piece being hashed is not wanted |
| Priorities.Torrent.FinishRead | internal/bt/torrent.go:2856-2892 | going from hashing to marking needs no refresh: the caches are right while the lock is released |
| Priorities.Torrent.FinishMark | internal/bt/torrent.go:2633-2717 | the end of marking refreshes the piece |
| Priorities.Torrent.DisallowDataDownload | internal/bt/torrent.go:3084-3091 | sets the flag and refreshes nothing |
| Priorities.Torrent.AllowDataDownload | internal/bt/torrent.go:3093-3105 | allowing again makes both caches right everywhere |
| Priorities.Torrent.Close | internal/bt/torrent.go:1101-1147 | a closed torrent has no entries in the request order, and the caches stay right |
| Priorities.Torrent.NeedData | internal/bt/torrent.go:1886-1895 | when its consistency check is due, it panics exactly when downloading was stopped with pieces pending; the answer is whether pieces are pending, and exact while downloading is allowed |
| Priorities.Torrent.Run | internal/bt/torrent.go:1502-1620 | after any sequence of operations all that was asked and found out is as the events told it, and an open torrent that may download has exactly the wanted pieces pending, in agreement with the order |
| Priorities.StalePendingPanics | internal/bt/torrent-piece-request-order.go:95-119 | a run that reaches the mismatch panic |
| Uploads.PeerRequestRight | internal/bt/peerconn.go:640-694 | any request, refused or accepted, keeps the queues right without panic |
| Uploads.RequestOutcome | internal/bt/peerconn.go:640-694 | a REQUEST closes the connection exactly if it is a fast peer's duplicate, or, unchoked and with room, too long without the fast extension, for a piece we lack, or overflowing; it is queued exactly if new and none of that; on a fast connection any other new one is rejected at once |
| Uploads.AllocRight | internal/bt/peerconn.go:726-749 | one look at the memory in use keeps the queues right |
| Uploads.ReadDoneRight | internal/bt/peerconn.go:775-790 | data read while the lock was free goes to the ready queue within the cap |
| Uploads.ReadFailedRight | internal/bt/peerconn.go:794-819 | a failed read panics exactly when its torrent closed and the request is still wanted |
| Uploads.SendRight | internal/bt/peerconn.go:1227-1238 | sending a ready chunk keeps the queues right |
| Uploads.ChokeRight | internal/bt/peerconn.go:326-343 | choking leaves a peer without the fast extension nothing queued |
| Uploads.WriterOutcome | internal/bt/peerconn.go:305-353 | what choking, unchoking, sending, the peer's cancels and closing do to the queues and which answer goes out |
| Uploads.ReadOutcome | internal/bt/peerconn.go:775-835 | good data moves to the ready queue if still wanted; a failed read is rejected, or chokes a peer that cannot be sent a reject |
| Uploads.ServerMoves | internal/bt/peerconn.go:726-790 | the server gives up what could never fit, reads what fits now, and otherwise sleeps until data is freed |
| Uploads.LeavesQueue | internal/bt/peerconn.go:317-343 | without the fast extension a request leaves the queue only by being sent, cancelled by the peer, or with a choke |
| Uploads.NextRight | internal/bt/peerconn.go:640-835 | every critical section keeps the queues right, and panics in exactly one situation |
| Uploads.NextBalanced | internal/bt/peerconn.go:640-835 | on a fast connection one step answers, queues or strays exactly what it received |
| Uploads.RunsAreRight | internal/bt/peerconn.go:640-835 | in every run: unread and ready disjoint and at most 1024, buffered bytes within the cap, a choked non-fast peer has none, and unread requests have a server |
| Uploads.RunsAreBalanced | internal/bt/peerconn.go:794-835 | in every run of a fast connection received requests and stray rejections equal answers plus queue |
| Uploads.AnsweredExactlyOnce | internal/bt/peerconn.go:640-835 | while reads succeed nothing panics, and on a fast connection every REQUEST that does not close it is answered once or still queued |
| Uploads.QueuedFit | internal/bt/peerconn.go:627-633 | in every run no queued request is longer than the limiter's burst, so the writer's burst panic is out of reach |
| Uploads.PermittedInNumbers | internal/bt/peerconn.go:1152-1170 | nothing is sent that may not be, nor to a peer with nothing for us unless we seed, and then only while less than 100 KiB ahead of what it sent |
| Uploads.StuckWhen | internal/bt/peerconn.go:340-343 | the server's wakeup is lost exactly when a non-fast peer is choked while the server sleeps |
| Uploads.StuckForGood | internal/bt/peerconn.go:726-749 | a server so stuck sends nothing until the connection closes |
| Uploads.LosesWakeup | internal/bt/peerconn.go:326-343 | a run that loses the wakeup |
| Uploads.PanicsAfterClose | internal/bt/peerconn.go:763-781 | a run that reaches the panic |
| Uploads.PeerConn.DeletePeerRequest | internal/bt/peerconn.go:317-320 | forgets a request and wakes a waiting server when data was freed |
| Uploads.PeerConn.SendChoke | internal/bt/peerconn.go:326-343 | follows the model's step |
| Uploads.PeerConn.BestReject | internal/bt/peerconn.go:822-835 | rejects, or chokes a peer that cannot be sent a reject |
| Uploads.PeerConn.JudgeRequest | internal/bt/peerconn.go:640-694 | the cascade of refusals gives the model's verdict |
| Uploads.PeerConn.ReceiveRequest | internal/bt/peerconn.go:640-694 | follows the model's step, errors included |
| Uploads.PeerConn.ReceiveCancel | internal/bt/peerconn.go:305-315 | follows the model's step |
| Uploads.PeerConn.DataBuffered | internal/bt/peerconn.go:717-724 | the loop adds up the ready requests' lengths |
| Uploads.PeerConn.Serve | internal/bt/peerconn.go:763-775 | follows the model up to where the lock is released |
| Uploads.PeerConn.FinishServing | internal/bt/peerconn.go:776-790 | follows the model; the request is no longer unread |
| Uploads.PeerConn.FailServing | internal/bt/peerconn.go:794-819 | panics exactly in the stated situation |
| Uploads.PeerConn.Send | internal/bt/peerconn.go:1227-1238 | sends the buffered data, of the length asked for |
| Uploads.PeerConn.Upload | internal/bt/peerconn.go:1181-1211 | the turn ends for exactly one of the source's reasons: policy spent (then choked), nothing ready, limiter delay, full buffer or a chunk beyond the burst; never above the limiter's grants; without a choke of a non-fast peer every ready request is sent or still ready |
| Announces.HeadsOrdered | internal/bt/client-tracker-announcer.go:672-703 | the comparison of announces with different keys is a strict total order, through its overdue branch |
| Announces.GoesFirst | internal/bt/client-tracker-announcer.go:672-703 | who goes first, criterion by criterion: fewer in flight at the tracker, idle, overdue, due earlier, fewer in flight for the torrent, tracked, wanting peers, needing data, without webseeds |
| Announces.ScanFindsWrong | internal/bt/client-tracker-announcer.go:336-349 | the range of the overdue index holds exactly the misclassified records |
| Announces.CountsAfter | internal/bt/client-tracker-announcer.go:439-480 | starting or finishing one announce and stepping both counts keeps every derived count exact |
| Announces.FirstIsDue | internal/bt/client-tracker-announcer.go:615-620 | an announce is dispatched exactly when one is due and allowed at a tracker with the fewest in flight |
| Announces.DueButPassedOver | internal/bt/client-tracker-announcer.go:411-436 | a run of the dispatcher after which a due announce with a free slot is not dispatched |
| Announces.Dispatcher.GetTrackerNextAnnounce | internal/bt/client-tracker-announcer.go:240-247 | the least record of a tracker, or none |
| Announces.Dispatcher.UpdateTrackerAnnounceHead | internal/bt/client-tracker-announcer.go:196-214 | one stale head becomes right, and the triggers it sets off, each reading the clock again, end with all heads right; what was due at the start is overdue and what is overdue is due by now |
| Announces.Dispatcher.UpdateOverdue | internal/bt/client-tracker-announcer.go:336-362 | ends although it calls itself through triggers with a clock that moves on; afterwards what was due at the start is overdue, and what is overdue is due by now |
| Announces.Dispatcher.RetagInfohash | internal/bt/client-tracker-announcer.go:150-179 | every record of a torrent gets the new announce count |
| Announces.Dispatcher.StartAnnounce | internal/bt/client-tracker-announcer.go:439-455 | all tables right afterwards, exactly this announce more in flight |
| Announces.Dispatcher.FinishedAnnounce | internal/bt/client-tracker-announcer.go:467-480 | all tables right afterwards, exactly this announce fewer in flight, the record refreshed from its torrent |
| Announces.Dispatcher.AddKey | internal/bt/client-tracker-announcer.go:378-401 | a new record starts idle with its torrent's count |
| Announces.Dispatcher.Sync | internal/bt/client-tracker-announcer.go:482-488 | new announce state leaves the derived fields alone |
| Announces.Dispatcher.GetNextAnnounce | internal/bt/client-tracker-announcer.go:615-620 | the first head of all trackers if it may be dispatched |
| Announces.Dispatcher.DispatchAnnounces | internal/bt/client-tracker-announcer.go:411-436 | starts only idle announces due by the clock, and stops when none is due |
| Announces.Dispatcher.Handle | internal/bt/client-tracker-announcer.go:378-488 | each event changes the table as it says: a record added, changed, finished, or the due announces started |
| Announces.Dispatcher.Run | internal/bt/client-tracker-announcer.go:150-214 | in every run the table changes event by event as they say, per-tracker and per-torrent counts are the announces in flight, at most two per tracker, and every record has its torrent's count |
| Pex.NetExact | internal/bt/pex.go:56-128 | the net change of a stretch of a valid feed maps the live set before it to the one after it; added and dropped disjoint |
| Pex.NetFlags | internal/bt/pex.go:56-91 | what is added carries the flags of the last event of its address, which is its add |
| Pex.MessageExact | internal/bt/pex.go:217-233 | each message takes a peer's view exactly from its cursor to the next, with at most 50 of each after the first |
| Pex.ReachesEnd | internal/bt/pex.go:217-233 | a message stops short of the end of the feed only when full |
| Pex.MessageReaches | internal/bt/pex.go:217-233 | a message tells of everything in the feed, the first always, or one of its lists has reached 50 |
| Pex.ViewExact | internal/bt/pexconn.go:64-71 | along any cursor sequence of a growing valid feed, messages applied in order give the live set at the cursor |
| Pex.ViewKeepsUp | internal/bt/pexconn.go:64-71 | after each message the peer has been told of everything in the feed, or that message was full |
| Pex.AddTracks | internal/bt/pex.go:176-193 | a new connection keeps the feed valid if and only if its address is not held back, or is released now |
| Pex.DropTracks | internal/bt/pex.go:195-212 | a lost connection keeps the feed valid and the hold buffer within 25 |
| Pex.HeldBackWhen | internal/bt/pex.go:176-212 | a drop is held back exactly while fewer than 25 connections are left and fewer than 25 drops are held; at 25 connections all held drops go out and the feed says exactly who is connected |
| Pex.ReconnectSpoils | internal/bt/pex.go:176-212 | a reconnect that makes the feed invalid and later drops a live address |
| Pex.MsgFactory.Add | internal/bt/pex.go:56-91 | the message lists exactly the net change, once each, flags parallel |
| Pex.MsgFactory.Drop | internal/bt/pex.go:95-128 | the message lists exactly the net change, once each, flags parallel |
| Pex.PexState.Add | internal/bt/pex.go:176-193 | the feed and hold buffer change as the model says, the first message stands ready |
| Pex.PexState.Drop | internal/bt/pex.go:195-212 | the feed and hold buffer change as the model says |
| Pex.PexState.Genmsg | internal/bt/pex.go:217-233 | the message and cursor are those of the model |
| Pex.Receiver.UpdateRemoteLiveConns | internal/bt/pexconn.go:99-121 | receiving a message does to the view what its net change says, flags included; the flags of all other addresses stay |
| Storage.OneSegment | internal/engine/storage.go:26-50 | every position of the torrent is in exactly one file |
| Storage.Each | internal/engine/storage.go:70-82 | visits the parts of a range in order |
| Storage.PartsTile | internal/engine/storage.go:70-82 | the parts tile the range inside the torrent: no gap, no overlap |
| Storage.WriteRefinesFlat | internal/engine/storage.go:118-148 | a completed write changes the flat array exactly at the range, and zeroes a gap it opened |
| Storage.FailureInFlat | internal/engine/storage.go:118-148 | after a failed write the range is written in the files before the failing one, which holds the first bytes it took, and nothing beyond it has changed |
| Storage.FileTorrent.WriteAt | internal/engine/storage.go:118-148 | every file gets its part, or the write stops at one that fails, the earlier ones written and that one holding the first bytes it took; other files untouched |
| Storage.FileTorrent.ReadAt | internal/engine/storage.go:93-116 | fails exactly when a byte of the range is absent, else the buffer holds the flat array's bytes, padding as zero |
| Storage.FileTorrent.OnDisk | internal/engine/storage.go:166-178 | true exactly when every byte of the range can be read |
| SmartBan.CutsAreBlocks | internal/bt/smartban.go:58-82 | there is one way to cut data into full blocks and a last one that may be short |
| SmartBan.BadWhen | internal/bt/smartban.go:17-82 | a peer is found bad exactly if some block of the data, at its place and under its number, tells against it |
| SmartBan.BlockCheckingWriter.CheckBlock | internal/bt/smartban.go:37-43 | one block is checked under the next index |
| SmartBan.BlockCheckingWriter.FinishPartialBlock | internal/bt/smartban.go:45-56 | a cut block is completed as far as the data goes |
| SmartBan.BlockCheckingWriter.Write | internal/bt/smartban.go:58-73 | takes all the data and returns its length, assertions never tripped |
| SmartBan.BlockCheckingWriter.Flush | internal/bt/smartban.go:77-82 | the blocks checked are exactly the blocks of all that was written, consecutively numbered |
| SmartBan.CheckPiece | internal/bt/smartban.go:17-82 | however the data is split, the peers found are those that some chunk-sized block of the whole data, at its place and number, tells against |
| Chunks.PieceSpan | internal/bt/torrent.go:1215-1235 | a piece is as long as its stretch of the torrent |
| Chunks.IndexRoundTrip | internal/bt/torrent.go:3262-3272 | chunk index to request and back is the identity |
| Chunks.RequestRoundTrip | internal/bt/torrent.go:3262-3272 | valid request to chunk index and back is the identity |
| Chunks.OffsetFinds | internal/bt/misc.go:59-80 | looking up an offset gives a valid request containing it |
| Chunks.RequestsDisjoint | internal/bt/misc.go:108-115 | valid requests that share a byte are the same |
| Chunks.RequestInside | internal/bt/torrent.go:3262-3272 | a valid request is not empty and lies inside the torrent |
| Chunks.OffsetIndex | internal/bt/torrent.go:1178-1182 | the index found for an offset is the only one whose request contains it |
| Chunks.RanksCount | internal/bt/roaring.go:8-14 | the difference of two ranks is the number of bits set in the range |
| Chunks.DirtyBytesExact | internal/bt/piece.go:184-197 | counting full chunks and correcting for the last equals adding up chunk by chunk |
| Chunks.BytesLeft | internal/bt/torrent.go:1061-1068 | the loop adds up the clean bytes of incomplete pieces |
| Chunks.BytesConserved | internal/bt/torrent.go:1061-1068 | clean, dirty and complete bytes together are the torrent's length |
| Chunks.FileBytesLeft | internal/bt/file.go:67-120 | the loop computes what its per-piece rule adds up to, capped at the file's length |
| Chunks.FileBytesLeftExact | internal/bt/file.go:67-120 | with no dirty chunks that is exactly the file's bytes in incomplete pieces |
| Chunks.OnePieceCount | internal/bt/file.go:83-108 | a file inside one piece is overcounted by its own dirty bytes, up to the clean room beside it in the piece |
| Chunks.PieceCount | internal/bt/file.go:83-108 | of a file over several pieces the first is overcounted by its own dirty bytes up to the clean room before it, the last undercounted by the dirty bytes after it up to its own clean ones, every other exact |
| Chunks.FileBytesLeftError | internal/bt/file.go:67-120 | for any dirty chunks and complete pieces, what is reported is the file's clean bytes plus the overcount in its first piece less the undercount in its last; exact if and only if the two are equal |
| Chunks.BytesLeftOfFile | internal/bt/file.go:122-134 | the method reports that value for the torrent's own dirty chunks |
| Chunks.DirtyBytesMiscounted | internal/bt/file.go:122-134 | a file with every byte there of which two bytes are reported as left |
| Chunks.UnsetInRange | internal/bt/undirtied-chunks-iter.go:7-27 | yields exactly the indexes of a range not in the bitmap, in order |
| Chunks.RegularLayoutSound | internal/bt/torrent.go:3356-3358 | chunk arithmetic gives every chunk a piece and every piece a chunk, as the life-cycle model assumes |
| Eviction.SortByAge | internal/library/cache.go:287-296 | a stable sort: sorted, a permutation, equal ages in their old order |
| Eviction.LatestIs | internal/library/cache.go:287-291 | a torrent is as recent as the latest play of any of its files |
| Eviction.EvictionOrder | internal/library/cache.go:265-299 | no entry of a held torrent, all others, unprotected first, longest unplayed first |
| Eviction.TorrentBytes | internal/library/cache.go:165-171 | what each torrent frees is the sum of its entries |
| Eviction.OneGone | internal/library/cache.go:174-192 | deleting one more torrent lowers the rest by exactly its bytes |
| Eviction.EvictDownTo | internal/library/cache.go:174-192 | usage afterwards is the bytes of what is left; nothing outside the order goes; without failures exactly the shortest prefix goes |
| Eviction.StableSortUnique | internal/library/cache.go:287-296 | there is one stable sort by age |
| Eviction.OrderUnique | internal/library/cache.go:265-299 | what is promised of the eviction order leaves one order |
| Eviction.PrefixGoesFirst | internal/library/cache.go:265-299 | whatever prefix of it is evicted, a torrent goes only after every one that is to go before it: fully protected ones last, then by when they were last played |
| Eviction.MakeRoom | internal/library/cache.go:196-246 | never a held torrent or one with an unwatched episode of the show; without failures nothing, or the shortest prefix of the eviction order's torrents that reaches the target, so nothing goes before what should go first |
| Eviction.MayGoWhen | internal/library/cache.go:196-246 | a torrent may go exactly if none of its files is pinned, kept, being watched, unfinished without having stalled, or an episode of the show not known to be watched |
| Eviction.AutoDelete | internal/library/cache.go:302-358 | a torrent is chosen exactly when every file of it is a watched episode of the show that nothing keeps |

## Left out

- BitTorrent v2 and hybrid torrents, merkle piece layers and storage with a capacity: they change piece lengths and the pending rules and rest on packages not part of this model.
- Webseeds: the HTTP request planner; only the flag that reorders chunk comparison is modelled.
- Sockets, handshakes, encryption, uTP, WebRTC, DHT, tracker clients, statistics and logging.
- Hashing itself: a hash passes, fails or errs as an input; who gets banned for a failure is not modelled.
- Clocks: times are inputs, except in `Announces`, where every reading takes the next value of a clock that never goes back. One pass of `Planning` reads one time.
- Integer widths: indexes, lengths and counters are unbounded, while the code uses 32-bit and 64-bit integers.
- Connections as objects: a torrent's connections are keyed records in `Requests`, `Planning`, `Availability` and `Lifecycle`, so aliasing between connection objects is not captured.
- The heap and the B-trees: popping a heap takes any remaining element, and an index is a search for the least record.
- Linked lists: the peer-exchange feed is a sequence and a cursor a position in it; positions stand for the list's nodes.
- Lifecycle: `maybeDropMutuallyCompletePeer` and the readers and announces woken by a completion are not modelled.
- Stealing.StealingTerminates: steals from silent peers are excluded, because that rule depends on the clock and not on the queues; so are they in `Planning.TakeoversEnd`.
- Hashing.VerifyIsFresh: `VerifyDataContext` on a torrent that is already closed returns without releasing the lock (internal/bt/piece.go:229-231); only calls that queue the piece are modelled.
- Priorities.Torrent.UpdateRequestOrderPiece: the partial and availability fields stored in the request order are not modelled, only the priority.
- Availability.RunsCountExactly: claimed for runs whose events satisfy the guard of `NextExact`; outside it the counters are wrong, as shown.
- Uploads.PeerConn.Upload: whether we seed, what the peer has that we want and what the limiter grants are inputs, fixed for one turn.
- Lifecycle.UpdateRight: which pieces something wants and which the storage limits let planning offer are inputs; `Priorities` keeps the former.
- Announces.Dispatcher.FinishedAnnounce: announce records are never deleted by the code, so a finished announce always finds its record here.
- Pex.MsgFactory.Add: IPv4 addresses mapped into IPv6 are taken as already unmapped.
- Pex.ViewExact: speaks of addresses; an address dropped and added again within one message keeps its old flags at the receiver.
- Storage.FileTorrent.WriteAt: the files of a torrent are taken to have different paths, which metadata does not force.
- Eviction.EvictionOrder: upper and lower case in hashes are not distinguished, and the sort is an insertion sort in place of the library's.
- Eviction.AutoDelete: chooses torrents; deleting them and the store behind the cache are not modelled.
- Reader data access (`available`, `readAt`), `orderedBitmap` and `File.State`.
