# A verified model of the Meshtastic serial-to-TCP broker

The broker shares one Meshtastic radio, reached over a serial link, among many TCP clients. Both sides speak
the same framing: `94 C3`, a big-endian length, a protobuf message. Clients ask for the radio's configuration
with a `WantConfigId`; the broker rewrites the id to a nonce of its own, forwards the request, and hands the
completion back under the client's id, or answers from a cache. It suppresses or redirects the radio's echo of
packets that clients sent, absorbs reboots of the radio by asking again, drops clients that are too slow, and
intercepts the replies to its own canned-message requests.

This project models three parts of the program and proves what they promise:

* the frame codec, `internal/frame/frame.go`;
* the broker as a state machine over whole runs, `internal/broker/broker.go`, with the text-message and
  canned-message steps of `internal/broker/chat.go` and `internal/broker/canned.go`;
* the canned-message parser and its waiters, `internal/broker/canned.go`.

Run `dafny verify dfyconfig.toml` to verify everything.

## How it is built

| file | content |
|---|---|
| `protocol.dfy`, `plaincodec.dfy` | messages as datatypes, the protobuf library as a parameter `Codec` with its laws, and one codec that meets them |
| `frame.dfy`, `stream.dfy` | `ReadFrame`, `WriteFrame`, `writeAll` as loops over a reader and a sink; whole byte streams, noise, resynchronisation |
| `cannedmessages.dfy` | the canned-message parser |
| `configcache.dfy` | the keyed config cache as a mutable class, and its sorted snapshot |
| `model.dfy` | the broker as values: `State`, `Event`, `Enabled`, `Step`, `Feasible`, `After` |
| `counting.dfy` | how many entries of the table are a given request |
| `membership.dfy`, `pendingtable.dfy`, `connections.dfy`, `ledger.dfy`, `coldpath.dfy`, `wire.dfy`, `echoes.dfy`, `cannedruns.dfy` | one part of the invariant each, and what follows from it |
| `invariant.dfy` | the whole invariant, kept by every step and so true in every reachable state |
| `histories.dfy` | what steps leave of the past: logs grow, a closed connection is frozen, requests, replies from the cache and canned replies are recorded exactly when they arise |
| `effects.dfy`, `account.dfy` | the account of an event: what it puts on the wire, gives to each client, who goes, whether the link breaks, told without the handlers; every step does exactly that |
| `totals.dfy` | what the accounts of a run add up to |
| `reboots.dfy` | what a reboot leaves, entry by entry, whether or not its writes work |
| `fetches.dfy` | what a call of `FetchCannedMessages` does step by step, and that it gets its reply |
| `runs.dfy` | the main results, for every run |
| `views.dfy` | what a client was given last for a slot of the cache, live or in a reply |
| `documented.dfy` | runs in which the program does something else than its comments say or a reader may expect, and runs of a packet and its echoes and of a call and its reply |
| `client.dfy`, `turns.dfy`, `broker.dfy` | the client and the broker as mutable classes |

The program is imperative, and so are `Frame`, `ConfigCaches.ConfigCache`, `Clients.Client` and
`Brokers.Broker`: fields updated in place, loops over maps in an arbitrary order, removal of clients inside a
broadcast. Every handler of `Broker` is proved to be exactly one step of the model: it ensures
`Steps(codec, old(View()), e, View())`, where the ghost result `e` records how the choices the program does not
control turned out: iteration order, nonces, which client is promoted, which writes succeed. A handler is one
atomic step, except a reply from the cache, which sends one frame a step, so that radio frames, other clients
and the writer come in between. The theorems in `runs.dfy` quantify over all sequences of such events.

The account in `effects.dfy` is a second, independent description. `Outgoing`, `Given`, `Refused`, `Goes` and
`Breaks` say from the state and the event alone, with all numbers written out, what must happen; `StepDoes` proves
that the handlers do that to the clients, the wire, the link, the clock and the calls, and nothing else, and
`totals.dfy` adds it up over a run.

`State` also holds histories that the program does not keep (`hist`, `radio`, `serial`, `taken`, `served`,
`calls`, `abandoned`); no step reads them, except that a call of `FetchCannedMessages` has a number of its own.
`AskedIsCounted`, `AnsweredInRun`, `RadioIsLogged`, `TakenInRun`, `CallsInRun` and `ServedInRun` tie what is on
record to the events of the run.
Times are nanoseconds, as Go's `time.Duration` counts them. A connection's number plays the part of its address:
`Broker.table` finds the object of a number, and keeps those of closed connections, which the program may still
hold in its tables.

## Where the code differs from what is said about it

* `CloseAll` does not always leave the table without client requests. A client may send `Disconnect` and a
  `WantConfigId` in one burst; the read loop handles the second after the client was removed
  (`internal/broker/broker.go:861-868`, `internal/broker/broker.go:914-920`), and `CloseAll`, which visits only
  connected clients, does not see the entry. `CloseAllMayLeaveEntries` is such a run, with `CloseAll` as its last
  event. `CloseAllClearsTheRest` proves that the table is clean afterwards if and only if, before, no entry
  belonged to a connection already closed.
* The comment on `ready` (`internal/broker/broker.go:259-262`) speaks of a complete dump. The code tests
  `myInfo` only. `PartialDump` is a run in which a client is answered with `MyInfo` and a completion, and nothing
  else. `CacheAnswersWithWhatCame` says exactly when the cache answers and with which slots, and `RepliesAreFolds`
  says it of every reply.
* The comment on `isPrimary` (`internal/broker/broker.go:847-852`) says that only the primary's `WantConfigId`
  is forwarded, and its `Disconnect` too. `SecondaryAsks` is a run in which another client's `WantConfigId` goes
  out; `AnyoneMayAsk` says exactly when one does, which does not depend on the primary. A `Disconnect` never goes
  out (`RadioIsAskedByNonce`).
* The comment on `sendToClient` (`internal/broker/broker.go:995-999`) relies on clients resyncing from the
  cache. A reply from the cache is sent frame by frame from a snapshot, while live frames come in between:
  `StaleFrame` is a run in which a client is given a new `MyInfo` and after it the one that it replaced.
  `RepliesLeaveTheCacheIff` says what a client ends up with: the frame it was given last for a slot is the one in
  the cache if and only if it is not a frame of a reply behind a different live one. `CachedFrameIsCurrentIff` says
  it of the moment of sending: a frame of a reply leaves its client up to date if and only if it was still in the
  cache when it was sent, or the radio sent another for the slot afterwards.
* `handleRebooted` empties the table and then draws nonces against the new one (`internal/broker/broker.go:746-755`),
  so an old nonce may be drawn again for another client, and a late completion of the old request is then taken for
  the new one. `ReusedNonce` is such a run. `AnswersItsRequestIff` says exactly when a completion answers the
  request that a given `WantConfigId` was written for: its nonce is still pending, and the last `WantConfigId`
  under that nonce was for the same request, as it is when the nonce was written once.
* Not every `94 C3` starts a frame: in `94 94 C3` the second `94` is consumed as a failed match
  (`DoubledMagicIsSkipped`). `LocksAt` is the exact condition, and `NoiseHarmlessIff` says which noise does no harm.
* An empty payload is written but not read back. `ComesBackIffNotEmpty` says so exactly. `RoundTrip` therefore is
  about payloads of 1 to 65535 bytes, which are exactly those `ReadFrame` can return.

## Model

| member | source | states |
|---|---|---|
| Frame.ReadFrame | internal/frame/frame.go:22-56 | on any byte stream, the outcome and the unread rest are those of the first lock: the first C3 that ends an odd run of 94, then the length check and the payload |
| Frame.FirstLock | internal/frame/frame.go:28-38 | it is the first lock: no position before it is one |
| Frame.WriteAll | internal/frame/frame.go:74-86 | with arbitrary partial writes, all of the buffer in order on success, a prefix of it on failure |
| Frame.WriteFrame | internal/frame/frame.go:58-72 | header and payload on success; a prefix of them on failure; nothing for a payload over the limit |
| Frame.Reader.ReadByte | internal/frame/frame.go:24-27 | one byte, or the read error at the end |
| Frame.Reader.ReadFull | internal/frame/frame.go:40-43 | exactly n bytes, or the read error |
| Frame.Sink.Write | internal/frame/frame.go:74-86 | any number of the bytes offered, appended in order |
| Stream.Progress | internal/frame/frame.go:22-56 | every frame returned and every invalid header strictly consumes input: 4 bytes and the payload, or 4 |
| Stream.Decode | internal/frame/frame.go:22-56 | repeated calls on a finite stream end in the read error and never before |
| Stream.ReadUntilError | internal/broker/broker.go:659-676 | the resynchronising loop terminates, returns exactly the frames of the stream, and at most length/5 of them |
| Stream.FirstLockIs | internal/frame/frame.go:28-38 | a position with a lock and none before it is the first lock: the characterisation has one solution |
| Stream.NextOfPrefix | internal/frame/frame.go:22-56 | what a call has returned does not depend on bytes that arrive later |
| Stream.DecodeMonotone | internal/frame/frame.go:22-56 | results on a prefix, skipped headers included, are a prefix of the results on any extension |
| Stream.FramesMonotone | internal/broker/broker.go:659-676 | the same for the frames that survive the resynchronisation |
| Stream.NoiseHarmlessIff | internal/frame/frame.go:22-38 | noise before a frame leaves exactly that frame to be read if and only if it holds no lock and does not end in an odd run of 94 |
| Stream.NoisyRoundTrip | internal/frame/frame.go:22-85 | frames separated by harmless noise decode to exactly their payloads, and what follows decodes as if alone |
| Stream.RoundTrip | internal/frame/frame.go:22-85 | any payloads of 1 to 65535 bytes written frame by frame are read back, all of them, in order, and nothing else |
| Stream.CutFrame | internal/frame/frame.go:58-85 | a frame cut off by a write error decodes to that frame or to nothing |
| Stream.EmptyPayloadIsLost | internal/frame/frame.go:46-48 | an empty payload is written as a header that the reader rejects |
| Stream.ComesBackIffNotEmpty | internal/frame/frame.go:46-66 | of the payloads WriteFrame accepts, exactly the empty one is not read back |
| Stream.DoubledMagicIsSkipped | internal/frame/frame.go:28-38 | in 94 94 C3 nothing locks, and a stray 94 costs the frame that follows it |
| CannedMessages.ParseCannedMessages | internal/broker/canned.go:26-41 | the loop returns the parts of the raw text split on the pipe, trimmed, empty ones dropped |
| CannedMessages.SplitIsUnique | internal/broker/canned.go:31 | the split is the only list of pipe-free parts whose join is the text |
| CannedMessages.TrimIdempotent | internal/broker/canned.go:34 | trimming twice is trimming once, and adds no character |
| CannedMessages.TrimIsExact | internal/broker/canned.go:34 | trimming takes away the white space at both ends, all of it and nothing else, white space being Unicode's 25 code points |
| CannedMessages.OuterTrimRedundant | internal/broker/canned.go:27-30 | the trim of the whole text, and the early return, change nothing |
| CannedMessages.ParsedAreCanonical | internal/broker/canned.go:32-40 | every message is trimmed, not empty and free of pipes |
| CannedMessages.ParseJoin | internal/broker/canned.go:26-41 | any list of such messages, joined with pipes, parses back to itself |
| CannedMessages.ParseJoinParse | internal/broker/canned.go:26-41 | parse, join, parse is parse, for every text |
| ConfigCaches.ConfigCache.constructor | internal/broker/broker.go:151-158 | a new cache has no slot filled |
| ConfigCaches.ConfigCache.Update | internal/broker/broker.go:160-191 | exactly the frame's own slot changes, in place |
| ConfigCaches.ConfigCache.Snapshot | internal/broker/broker.go:203-250 | the loops over the maps give, in any iteration order, the one list sorted by key |
| ConfigCaches.ConfigCache.Ready | internal/broker/broker.go:263-267 | whether myInfo is filled, and nothing more |
| ConfigCaches.ConfigCache.Reset | internal/broker/broker.go:269-279 | every slot is empty |
| ConfigCaches.SortKeys | internal/broker/broker.go:213-217 | the keys of a map in strictly ascending order, whatever order they were collected in |
| ConfigCaches.AscendingUnique | internal/broker/broker.go:213-247 | a set of keys has one strictly ascending listing, so the iteration order cannot show |
| ConfigCaches.UpdateLookup | internal/broker/broker.go:160-191 | after an update a slot holds the new frame if it is the frame's slot, else what it held |
| ConfigCaches.NewerReplaces | internal/broker/broker.go:160-191 | completions, Rebooted, packets and the rest leave the cache alone; every other kind is cached, and replaces exactly the earlier frames of its kind and number |
| ConfigCaches.SendingOrder | internal/broker/broker.go:1203-1235 | MyInfo, configs, modules, channels, nodes, metadata, device UI, each kind by ascending number |
| ConfigCaches.SnapshotComplete | internal/broker/broker.go:203-250 | the frames of a snapshot are those of the filled slots, each exactly once, none missing, strictly ascending within configs, modules, channels and nodes |
| Clients.Client.constructor | internal/broker/broker.go:58-65 | a new connection is open, with an empty queue and both loops running |
| Clients.Client.Enqueue | internal/broker/broker.go:79-93 | accepts at the end of the queue if and only if the client is open and fewer than 64 wait |
| Clients.Client.EnqueueWithTimeout | internal/broker/broker.go:98-111 | accepts at the end or not at all; success needs room, failure changes nothing in the queue |
| Clients.Client.SendNextCached | internal/broker/broker.go:1027-1034 | the next frame of the reply in order, or the reply is over |
| Clients.Client.Close | internal/broker/broker.go:133-138 | only the closed flag changes |
| Clients.Client.WriteNext | internal/broker/broker.go:957-977 | the head of the queue reaches the connection whole, or a prefix of its frame does and the loop ends; nothing on a closed connection |
| Brokers.Broker.constructor | internal/broker/broker.go:366-380 | the object starts in the initial state of the model |
| Brokers.Broker.AddClient | internal/broker/broker.go:799-823 | one Connecting step: the new client is primary if there was none |
| Brokers.Broker.RemoveClient | internal/broker/broker.go:1071-1110 | client gone, any remaining client promoted if it was primary, its requests dropped, connection closed |
| Brokers.Broker.Forget | internal/broker/broker.go:1080-1099 | the set and the primary after a removal |
| Brokers.Broker.DropPendingForClient | internal/broker/broker.go:1182-1190 | deleting while iterating removes exactly the client's entries |
| Brokers.Broker.SendToClient | internal/broker/broker.go:1016-1022 | the payload is accepted, or an open client whose queue is full is removed |
| Brokers.Broker.BroadcastExcept | internal/broker/broker.go:985-994 | the loop visits each client once in some order, removing clients on the way, and skips the excluded one |
| Brokers.Broker.CloseAll | internal/broker/broker.go:1112-1116 | one Closing step over all clients in some order |
| Brokers.Broker.WriteSerial | internal/broker/broker.go:1054-1069 | appended to the serial trace on success, nothing on failure or after shutdown |
| Brokers.Broker.WriteOrFail | internal/broker/broker.go:909-911 | a failed write takes the broker down |
| Brokers.Broker.ReserveConfigRequest | internal/broker/broker.go:1118-1142 | a nonce that is neither zero nor pending is entered with its request |
| Brokers.Broker.TakeConfigRequest | internal/broker/broker.go:1144-1153 | the entry is returned and removed, if there is one |
| Brokers.Broker.HandleConfigComplete | internal/broker/broker.go:771-797 | an unknown id changes nothing; a known one is answered to its owner with the original id |
| Brokers.Broker.ReissuePending | internal/broker/broker.go:741-769 | the loop over the old table, in any order, with its early return after a failed write |
| Brokers.Broker.HandleRebooted | internal/broker/broker.go:741-769 | the whole handler: what is not issued again is on record as given up |
| Brokers.Broker.ResetConfig | internal/broker/broker.go:743-748 | cache and table emptied, the old table kept for the loop |
| Brokers.Broker.SweepOutbound | internal/broker/broker.go:338-342 | deleting while iterating removes exactly the expired entries |
| Brokers.Broker.NoteOutboundPacket | internal/broker/broker.go:331-347 | nothing for id zero; else the sweep, then the packet entered for thirty seconds |
| Brokers.Broker.ConsumeOutboundOrigin | internal/broker/broker.go:349-364 | the entry is removed; its client is returned if it is open and the entry has not expired |
| Brokers.Broker.TryDeliverCanned | internal/broker/canned.go:80-99 | true if and only if the packet is a canned reply with a registered waiter; then the cache has the parsed list, and the channel too if it has room |
| Brokers.Broker.StoreCannedCache | internal/broker/canned.go:101-106 | list and time replaced |
| Brokers.Broker.CachedCanned | internal/broker/canned.go:108-121 | the list if it is at most two minutes old; otherwise it is dropped |
| Brokers.Broker.RegisterCannedWait | internal/broker/canned.go:63-72 | the waiter of the id, with an empty channel |
| Brokers.Broker.UnregisterCannedWait | internal/broker/canned.go:74-78 | the waiter of the id is gone, whoever registered it last |
| Brokers.Broker.FetchCannedBegin | internal/broker/canned.go:124-172 | one Fetching step: a fresh cached list is returned and on record as served, else refused, or registered and asked |
| Brokers.Broker.FetchCannedEnd | internal/broker/canned.go:174-195 | one Fetched step: what the channel holds is returned if it is taken and not empty, and on record under the call and the id of its request; else an error and nothing on record |
| Brokers.Broker.LocalNodeNum | internal/broker/chat.go:27-44 | the node number of the cached myInfo, zero if unknown |
| Brokers.Broker.SendTextMessage | internal/broker/chat.go:97-109 | one Texting step: written to the radio, then broadcast to every client |
| Brokers.Broker.RouteRadioPacket | internal/broker/broker.go:702-717 | waiter first, then the client that sent it, else everybody |
| Brokers.Broker.HandleRadioPayload | internal/broker/broker.go:687-735 | one RadioFrame step for any payload |
| Brokers.Broker.SerialTurn | internal/broker/broker.go:661-717 | one turn of the loop: stop, skip an invalid header, or handle one frame |
| Brokers.Broker.ReadSerial | internal/broker/broker.go:659-719 | from bytes to state: the loop is a run of the model whose radio frames are those the bytes decode to, in order, all of them unless the link goes down |
| Brokers.Broker.StartCachedConfig | internal/broker/broker.go:1192-1193 | the frames to send are the snapshot of this moment and the completion with the client's id |
| Brokers.Broker.AskTheRadio | internal/broker/broker.go:901-911 | the client's earlier request is dropped, a fresh nonce entered and written |
| Brokers.Broker.AnswerWantConfig | internal/broker/broker.go:889-913 | from the cache if it is ready, else from the radio |
| Brokers.Broker.ForwardPacket | internal/broker/broker.go:922-942 | written, noted, then copied to all but the sender; nothing of that if the write fails |
| Brokers.Broker.HandleClientPayload | internal/broker/broker.go:872-954 | one ClientFrame step for any payload |
| Brokers.Broker.ReplayTurn | internal/broker/broker.go:1027-1034 | one Replaying step: a failed send of a reply removes the client |
| Brokers.Broker.WriterTurn | internal/broker/broker.go:966-975 | one Writing step: a failed write removes the client |
| Brokers.Broker.WriterStops | internal/broker/broker.go:961-965 | one WriterStopped step: on broker shutdown the client is removed |
| Brokers.Broker.ReadLoopEnds | internal/broker/broker.go:862-866 | one ReadFailed step: the client is removed and its read loop over |
| Brokers.Broker.BootstrapConfig | internal/broker/broker.go:1158-1180 | one Bootstrapping step: nothing if the cache is ready or the broker already waits |
| Membership.StepMembers | internal/broker/broker.go:799-809 | every step keeps: primary is none exactly if there are no clients, else a connected one; connected means open |
| Membership.SendDelivers | internal/broker/broker.go:1006-1022 | one offer to one client, and removal exactly of an open client whose queue is full |
| Membership.BroadcastDelivers | internal/broker/broker.go:985-994 | for any order and any removals on the way, each target is offered the payload once and nobody else is touched |
| Membership.BroadcastOnceEach | internal/broker/broker.go:985-1044 | each client of the start has one more copy, or had a full queue and is removed with none; the excluded one is untouched |
| Membership.CloseAllMayLeaveEntries | internal/broker/broker.go:859-870 | a run that ends with CloseAll and leaves a client's request in the table |
| Counting.RemoveConserves | internal/broker/broker.go:1182-1190 | a removal gives up exactly the requests it takes out of the table |
| PendingTable.TableBound | internal/broker/broker.go:1118-1142 | the table is never larger than the number of live read loops plus one |
| PendingTable.RebootTable | internal/broker/broker.go:741-769 | for any order and fresh nonces the new table is in order; a request is lost only if its client is closed or a write failed, and then it is given up, once |
| PendingTable.RebootConserves | internal/broker/broker.go:741-769 | if no write fails: cache empty, requests preserved as a multiset but for closed clients, one WantConfigId on the wire for each |
| Connections.DeliveredInOrder | internal/broker/broker.go:957-977 | the bytes on a connection decode to a gap-free prefix of what was addressed to it; while it is open the rest is the queue, at most 64 |
| Connections.AdvanceConnection | internal/broker/broker.go:1027-1034 | each send of a reply keeps this, whether it succeeds or not |
| Ledger.BalancedAnswer | internal/broker/broker.go:771-797 | a request taken from the table is answered if its client's queue accepts the completion, abandoned if not |
| Ledger.LedgerComplete | internal/broker/broker.go:771-797 | a completion keeps the books of every client exact |
| Ledger.LedgerReboot | internal/broker/broker.go:741-769 | a reboot keeps the books of every client exact, even if a write fails half-way |
| ColdPath.CacheGrows | internal/broker/broker.go:695 | a logged frame keeps the cache equal to the fold of the log |
| ColdPath.ColdPathComplete | internal/broker/broker.go:771-797 | when a completion is enqueued, the cacheable frames sent since any earlier moment of the connection were enqueued before, in order |
| Wire.WireAsk | internal/broker/broker.go:901-911 | a forwarded request is written under a nonce pending at that moment; as long as the link is up each entry of the table stays the request that the radio was last asked for under its nonce |
| Wire.WireReboot | internal/broker/broker.go:741-769 | re-issued requests are written under nonces pending at that moment, and each entry is then the request that the radio was last asked for under its nonce |
| Echoes.NoteSweeps | internal/broker/broker.go:331-347 | after a packet is noted no entry of the table has expired |
| Echoes.StepEcho | internal/broker/broker.go:331-364 | a step about other packet ids keeps an entry until it expires and makes none |
| Echoes.PacketCopied | internal/broker/broker.go:921-942 | each other client gets one copy or is removed, the sender none, and the echo is expected for thirty seconds |
| Echoes.EchoToOrigin | internal/broker/broker.go:706-715 | an expected echo goes to the sender only, on chat ports to nobody |
| Echoes.EchoByPort | internal/broker/broker.go:499-517 | an expected echo is offered to its sender if it is encrypted, on the admin port or another; on the three chat ports no connection changes |
| Echoes.EchoBroadcast | internal/broker/broker.go:717 | an echo nobody waits for goes to every client |
| Account.StepDoes | internal/broker/broker.go:659-1248 | every step hands each client exactly what the account of the event says, removes exactly those who refuse it or go, keeps the primary while it stays, writes exactly what the account says, and breaks the link exactly when a write fails that counts |
| CannedRuns.ReplyIntercepted | internal/broker/broker.go:702-705 | a canned reply with a waiter reaches no client; it fills the channel and the cache |
| CannedRuns.FreshIsLast | internal/broker/canned.go:101-121 | the cached list is the last canned reply taken, as long as that is at most two minutes old, and nothing else |
| Fetches.FetchBegins | internal/broker/canned.go:124-172 | a call is served the last list if that is young enough and not empty; else it waits under its packet id if its request went out |
| Fetches.FetchEnds | internal/broker/canned.go:174-195 | a call that ends returns what its channel holds, if it takes it and it is not empty, and no longer waits |
| Fetches.ReplyComes | internal/broker/canned.go:80-99 | a reply on the admin port for a waiting call is recorded for it, fills its empty channel and reaches no client |
| CannedRuns.ServedAreReplies | internal/broker/canned.go:124-196 | a list returned is the non-empty parse of a reply that the radio sent and a waiter took: at most two minutes before if cached, by the waiter of the caller's own call, under the id of its request, if not |
| Histories.StepEvolves | internal/broker/broker.go:872-954 | every step only adds to a connection's logs, freezes what a closed one received, and records a request exactly when a WantConfigId arrives, a reply from the cache exactly when a ready one answers, a radio frame exactly when it parses, a canned reply exactly when a waiter takes it, with the call that waits |
| Histories.RunLater | internal/broker/broker.go:79-93 | the same over whole runs |
| Histories.AskedIsCounted | internal/broker/broker.go:889-890 | the requests a connection has made are the WantConfigId events of the run |
| Histories.AnsweredInRun | internal/broker/broker.go:889-913 | in any run from any state, every reply from the cache begun since was begun by a request at some moment of the run, with the ready cache of that moment |
| Histories.TakenInRun | internal/broker/canned.go:80-99 | every canned reply on record came from the radio at some moment of the run, when the call on record was registered for its id |
| Histories.RadioIsLogged | internal/broker/broker.go:687-695 | the radio log is exactly the frames of the run that parse, in order |
| Histories.CallsInRun | internal/broker/canned.go:140-142 | every call that waits began at some moment of the run, with the id it waits for |
| Histories.ServedInRun | internal/broker/canned.go:124-196 | every list on record was returned at some moment of the run: a fresh one from the cache, or the one in the channel of the call |
| Invariant.InvStep | internal/broker/broker.go:659-1248 | every step from a state with the invariant leads to one |
| Invariant.Always | internal/broker/broker.go:659-1248 | the invariant holds in every reachable state |
| Totals.RadioHearsExactly | internal/broker/broker.go:872-954 | over every run, what is on the wire but WantConfigIds is exactly what the frames of the clients that may write, the texts and the calls put there, in order |
| Totals.OnlyThePrimaryWrites | internal/broker/broker.go:921-953 | each such payload comes from an event of the run; if clients are read-only and it is a client's frame, that client was primary at that moment |
| Totals.LinkIsDownIff | internal/broker/broker.go:876-911 | the link is down if and only if it failed, or a write of a client frame, a bootstrap or a reboot failed, at some moment of the run |
| Totals.ClientsAreGivenExactly | internal/broker/broker.go:979-1044 | over every run, what a connected client was addressed is exactly what the events gave it, in order; for one that has gone, the beginning of it |
| Turns.FreeNonce | internal/broker/broker.go:1122-1141 | the loop that draws nonces has one to find while the table is not full |
| PlainCodec.PlainIsLawful | internal/broker/broker.go:1046-1052 | the laws assumed of the protobuf library can be met |
| PlainCodec.RadioCanSay | internal/broker/broker.go:687-695 | under that codec every message of the radio has a frame: each cacheable one, Rebooted, completions and packets |
| PlainCodec.RadioCanReply | internal/broker/canned.go:43-61 | and every text is the canned reply of some packet with any given id |
| Runs.ObjectStep | internal/broker/broker.go:659-1248 | a handler of the object extends the run its state stands for and keeps the invariant |
| Runs.EveryStep | internal/broker/broker.go:659-1248 | in every reachable state, every event does what its account says and nothing else |
| Runs.WhoMayWrite | internal/broker/broker.go:872-954 | in every reachable state, a client's packet or other message goes out, as one payload, if and only if the client is primary or clients are not read-only, and the write works; bytes that are no message only from the primary; one that may not changes nothing |
| Runs.BootstrapAsksIff | internal/broker/broker.go:1158-1180 | in every reachable state, the broker asks by itself if and only if no MyInfo came since the last Rebooted and no request of its own waits; otherwise nothing changes |
| Runs.OwnCompletion | internal/broker/broker.go:771-781 | the completion of the broker's own request removes it and goes to nobody |
| Runs.PrimaryIsAClient | internal/broker/broker.go:1071-1116 | in every reachable state: primary none exactly if no clients, else one of them; clients are the open connections |
| Runs.RequestsAccountedFor | internal/broker/broker.go:741-797 | over every run, for every client and id, connected or not: the WantConfigId events are exactly completions plus waiting plus in replay plus replaced by the client plus abandoned; none is abandoned while the client is connected and the link up |
| Runs.TableStaysSmall | internal/broker/broker.go:1118-1190 | in every reachable state one entry a client and one for the broker, nonces not zero, owners still reading, size at most live read loops plus one |
| Runs.RebootKeepsWork | internal/broker/broker.go:741-769 | a reboot in any reachable state, its writes succeeding, loses no request of an open client and asks the radio exactly once for each |
| Runs.RebootExactly | internal/broker/broker.go:741-769 | a reboot in any reachable state, its writes succeeding or not: requests of the broker and of connected clients enter the table under their new nonces and are written, in the order of the loop, up to the first whose write fails; those after it do not enter |
| Runs.ConnectionsDeliver | internal/broker/broker.go:957-1022 | over every run, what a client decodes is a gap-free prefix of what was addressed to it; while connected, all but the queue |
| Runs.ClientsDecodeWhatTheyAreGiven | internal/broker/broker.go:957-1044 | over every run, what a connected client has decoded and then its queue are exactly what the events gave it, in order |
| Runs.EndedLoopsStayEnded | internal/broker/broker.go:859-870 | after a connection's read failed no frame comes from it, and after its writer stopped nothing is written to it, in any continuation of the run |
| Runs.RefusalIsFinal | internal/broker/broker.go:1006-1022 | a refused payload closes the connection, and a closed one receives no further byte in any continuation of the run |
| Runs.CacheIsFold | internal/broker/broker.go:160-191 | in every reachable state each cache slot holds the last radio frame for it since the last Rebooted |
| Runs.RepliesAreWhole | internal/broker/broker.go:1192-1248 | over every run, a reply that is over enqueued its whole snapshot and completion in order, or a proper prefix without the completion, and then the client is gone |
| Runs.RepliesAreFolds | internal/broker/broker.go:889-913 | every reply from the cache was begun by a request of the run and sends, for exactly the slots a frame had come for since the last Rebooted, the last such frame of that moment |
| Runs.CacheAnswersWithWhatCame | internal/broker/broker.go:259-267 | the cache answers if and only if a MyInfo came since the last Rebooted, and holds a slot if and only if a frame for it did |
| Runs.ClientsHearEverything | internal/broker/broker.go:979-994 | between any two moments of a run a client still connected was given exactly the cacheable frames the radio sent meanwhile, in order |
| Views.ScriptSlot | internal/broker/broker.go:1192-1248 | the frame that a reply sends for a slot is the one its cache held |
| Runs.RepliesLeaveTheCacheIff | internal/broker/broker.go:1192-1248 | over every run, for a client answered from the cache since a moment, and no reboot since: the last frame it was given for a slot is the one in the cache if and only if it is not a frame of a reply behind a different live one |
| Runs.CachedFrameIsCurrentIff | internal/broker/broker.go:1027-1034 | over every run, a frame of a reply leaves its client with what the cache holds if and only if it was still in the cache when sent, or the radio sent another for the slot since |
| Runs.CompletionComesLast | internal/broker/broker.go:771-797 | over every run, a completion from the radio follows every cacheable frame since the request, none missing, in order |
| Runs.ClientsCanRebuildTheCache | internal/broker/broker.go:695-717 | over every run, what a client connected since the last reset heard live, folded, is the cache, slot by slot |
| Runs.CloseAllClearsTheRest | internal/broker/broker.go:1112-1116 | in any reachable state CloseAll leaves nothing connected, and no client's request if and only if none belonged to a connection closed before |
| Runs.EchoesComeBackOnce | internal/broker/broker.go:499-517 | from any moment of any run: a packet goes out, each other client gets one copy or is removed for a queue of 64, its echo goes to the sender or on the chat ports to nobody, and a second echo to everybody |
| Runs.LateEchoesAreForAll | internal/broker/broker.go:349-364 | from any moment of any run, an echo more than thirty seconds after its packet, or after its sender has gone, goes to everybody |
| Runs.NoRebootedFrames | internal/broker/broker.go:721-735 | in every reachable state no queue, reply or cache slot holds a Rebooted frame |
| Runs.RadioIsAskedByNonce | internal/broker/broker.go:872-954 | over every run the radio is sent no Disconnect and no WantConfigId under an id that was not pending |
| Runs.AnswersItsRequestIff | internal/broker/broker.go:741-797 | over every run, while the link is up: the completion of a nonce answers the request of a given WantConfigId if and only if the nonce is pending and was last written for the same request |
| Runs.ServedListsAreReplies | internal/broker/canned.go:63-196 | over every run, every list returned is the canonical parse of a reply that the radio sent at an earlier moment of the run, when a call begun before, once, was registered for its id: stored then and at most two minutes old if cached; if not, that call is the one that returns it |
| Runs.FreshListsAreServed | internal/broker/canned.go:108-127 | over every run, a call returns the list of the last canned reply if and only if that is at most two minutes old and not empty, and then asks nothing |
| Runs.CallsReturnTheirReply | internal/broker/canned.go:124-196 | from any moment of any run, whatever else happens: the request of a call goes out, its reply reaches no client, and the call that takes it returns what it says unless that is nothing |
| Documented.PartialDump | internal/broker/broker.go:259-267 | a run in which a client is answered with MyInfo and the completion only |
| Documented.AnyoneMayAsk | internal/broker/broker.go:889-913 | a WantConfigId goes to the radio if and only if the cache is not ready, the link is up and the write works, whoever is primary |
| Documented.SecondaryAsks | internal/broker/broker.go:847-852 | a run in which the WantConfigId of a client that is not primary goes to the radio |
| Documented.StaleFrame | internal/broker/broker.go:1192-1248 | a run in which a client is given a new MyInfo and then, from the cache, the one it replaced |
| Documented.ReusedNonce | internal/broker/broker.go:741-797 | a run in which a nonce is drawn again for another client, which is then given the completion of it; a case of AnswersItsRequestIff in which the answer is another's |
| Documented.EchoedPacket | internal/broker/broker.go:499-517 | a run with a packet and two echoes of it, as EchoesComeBackOnce takes them |
| Documented.LateEchoedPacket | internal/broker/broker.go:349-364 | a run with a packet and an echo that comes too late, as LateEchoesAreForAll takes them |
| Documented.FetchedList | internal/broker/canned.go:124-196 | a run with a call and its reply, as CallsReturnTheirReply takes them |

## Left out

- Protobuf: messages are datatypes, marshalling and parsing are functions with the laws of `Codec.Lawful`; a marshalling error, which the program treats as never happening, does not occur.
- Message variants with a nil body, which `update` skips, do not come out of parsing and are not modelled.
- Config variants are told apart by an ordered key instead of the printed name of their Go type.
- Logging, decoding for logs, status for the web page, warn-once flags: they observe and do not change the state.
- The listener, the serial port, TCP, mDNS, flags and reconnection: a write appends to a trace or fails, a read error ends a loop.
- Scheduling inside a handler: the locks are taken one after another, so a retry by a client while a reboot is being handled can briefly make two entries for it; in the model a handler is one step.
- Timers and `select` among ready cases are arbitrary choices; the clock only moves forward; text messages and fetches happen at any time.
- After shutdown the model still lets the radio and clients be read, which the loops soon stop doing; the results hold in either case.
- The serial trace holds whole messages; the bytes that a failed serial write leaves behind are those of `Frame.WriteFrame` and take the broker down.
- Brokers.Broker.HandleClientPayload: requires fewer than 2^32 - 1 entries in the table; with a full one the program would draw nonces for ever, and `TableStaysSmall` bounds the table by the live connections.
- Brokers.Broker.BootstrapConfig: the same bound, and the web page is taken to be enabled, without which the program returns at once.
- Brokers.Broker.ReserveConfigRequest: the loop that draws until a nonce is free is a choice of a free one; how soon it ends is a matter of probability.
- Brokers.Broker.SendTextMessage: starts from the packet that the program has built; checking the text and building the packet are not modelled.
- Brokers.Broker.FetchCannedBegin: starts from the request packet that the program has built, with any id but zero, and from a call number not used before, which stands for the call's own channel.
- Brokers.Broker.ReadSerial: runs the loop without other events in between; those interleavings are runs of the model.
