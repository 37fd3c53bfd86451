# Store-and-forward messenger: model and proofs

Nodes keep messages on disk, choose a few peers on a ring, and push messages to
them with resumable transfers until every node has every message. This project
models that protocol in Dafny and proves what each layer guarantees, up to a
coverage theorem for a network of any size and any interleaving of its steps.

    dafny verify dfyconfig.toml

## How it is built

| module | what it models |
|---|---|
| `Order`, `Selection`, `Ring` | sorted node ids; `checkActivePeers` in its imperative form against a specification function; the graph that selection builds |
| `Message`, `Calendar` | signed fields, expiry, and the bytes that `Hash` feeds to SHA-256; instants against the Gregorian calendar, written day by day |
| `Storage`, `FileStore` | the file system and lock table; each storage operation as a function, and `FileStorage` as a class proved against those functions |
| `StorageSteps`, `StorageResume`, `StorageSolo` | the same operations one system call at a time, in every interleaving with a sweeper that takes no lock; honest resumed transfers; how single calls add up to whole operations |
| `Queue`, `PubSub`, `Subscribe` | the timed queue with its wake-up token, the fan-out, and subscribing before scanning, each as a step machine |
| `Backoff`, `Delivery`, `Diff` | retry delays in 64-bit arithmetic, `msgLoop` and when it tries again, `diffAndEnqueue` |
| `Network`, `NetworkInv`, `Turns` | N nodes with their stores, loops (subscription, queue, Diff) and pushes (call, offset query, packet, end, interruption, lost reply, retry, record), selection, expiry; the invariant that every step keeps; their pops and records as turns of `msgLoop` |
| `Flooding`, `Accounting`, `Publication` | theorems over all runs: hops, Sent and FatalError marks, coverage; where a published message is for each peer; which completions are published |
| `Progress`, `Cuts`, `Stuck`, `Slip` | what an undisturbed push achieves; exactly when a message can still reach every node; a run that gets stuck; exactly when a call that is made again makes Sent marks unsound |

The step machines follow one pattern: `Apply` gives the state after an action, an
action that is not enabled changes nothing, and so every sequence of actions is a
run. A theorem about `Run(Init, actions)` for all `actions` is one about all
reachable states under all interleavings.

SHA-256 is an arbitrary function of the bytes. Collision-freedom is a hypothesis
only where it is written. Time is an integer parameter of the steps; random draws
and the results of remote calls are parameters too. An unset `NextAttempt` is the
number 0. `%s` applied to an int64 makes Go's `fmt` print `%!s(int64=N)`, and the
preimage is modelled with exactly that text.

## What the code does that its comments do not say

- A complete message may have a record whose `Length` and `Sha256` are not those
  of its content. The preimage of the hash is ambiguous when `Sha256` fields differ
  in length, and nothing checks that length, so the collision check in `OpenWrite`
  lets a second message complete the record of the first. `RecordMayDisagree`
  builds the run for any content; `RecordAgreesIff` gives the exact condition.
- `diffAndEnqueue` stops after the first window of 256 entries that are all
  filtered out. `MissedExample` is such a manifest; `NothingMissedIff` says exactly
  when nothing is missed.
- The retry delays wrap around: the comments' formula holds for every draw if and
  only if the number of attempts is at most 28 (per message), 29 (Diff) or 35
  (RPC); beyond, some draw gives a negative delay, and from 55 (or 58) attempts on
  every delay is zero.
- A resumed transfer that breaks after its last byte completes the message without
  publishing it, because only this call's bytes are compared with the length.
  `PublishedIff` says that this is the only way, over all runs. `StuckRun` shows
  what it leads to: a third node that never hears of the message although nothing
  failed. `FloodsIff` says exactly when a message can still reach a set of nodes,
  and `FloodReaches` that it can reach all good ones whenever every completion was
  published and no last Diff of a running loop stopped short.
- `backoff` makes a push again without moving the reader back. That is harmless
  when the receiver answers IncorrectOffset or AlreadySeen; it does harm when the
  receiver opens a stream whose packets start beyond its offset (`slipped`).
  `OpeningExact` says that such an opening, and no other, can end in an unsound
  Sent mark, `RetryExact` says the same of every broken push in terms of what the
  receiver holds, `UnsoundSent` is a run, and `SentIsSound` covers exactly the runs
  without such an opening. A stream that ends cleanly but short is accepted in the
  same way.
- The stored record of a resumed message keeps the hops of its first sender while
  the published one has those of its last. Both are covered by the invariant
  (`RecordsOk`, `HistoryOk`).

## Model

| member | source | states |
|---|---|---|
| Flooding.CoverageAtQuiescence | internal/peers.go:151-407 | For any nodes with full views that agree on the bad ones, MaxActivePeers >= 0, MaxHops unset or at least N: a message authored by a good node at any moment of any run without slips, and not expired, is readable with its true content on every good node in any later state where each good holder has, for each good active peer, a Sent mark or a checkHops refusal |
| Cuts.IdleMeansCovered | internal/peers.go:214-407 | In every state that a run without slips reaches: if the message is published wherever a good node has it complete, no good peer's last Diff stopped short of it, no loop between good nodes has it under way, and it can travel (not expired, MaxHops unset or at least N), every good node has its true content |
| Cuts.FloodsIff | internal/peers.go:300-490 | From any state in which nothing hinders the message for now, whatever else is being pushed: some run in which no peer is started or stopped makes it complete on a given set of nodes if and only if every set closed under the pushes still to come includes them |
| Cuts.FloodReaches | internal/peers.go:300-490 | With full views and an agreed set of bad nodes, in every reachable state where the message is published wherever a good node has it complete, no good peer's last Diff stopped short of it and nothing hinders it for now, such a run brings it to every good node |
| Cuts.Disengage | internal/peers.go:356-406 | All pushes of other messages can end, broken, without touching the message or taking anything from a loop |
| Cuts.StaysClosed | internal/peers.go:300-490 | A set that the message cannot leave stays one in every such run |
| Stuck.StuckRun | internal/messenger.go:89-94 | From the start: a push breaks half way, the resumed push breaks after the last byte, the third is answered AlreadySeen; then nothing hinders the message, and no run without restarts brings it to the third node |
| Accounting.NothingForgotten | internal/peers.go:300-407 | Over every run without slips: a published message that can travel (not expired, MaxHops unset or at least N) is, for every started peer, marked Sent, refused, in the subscription or queue, being pushed, before the peer's Diff, or behind the point where that peer's last Diff stopped |
| Accounting.ScanAccounts | internal/peers.go:504-574 | A Diff that did not break leaves every listed message marked, refused, queued or behind its stop |
| Publication.PublishedIff | internal/messenger.go:79-101 | Over every run without slips: all completions are published if and only if no resumed stream broke after its last byte |
| Publication.InterruptPublishes | internal/messenger.go:89-101 | A stream that breaks after its last byte completes the message, and publishes it if and only if it began at offset 0 |
| Publication.StepPublishes | internal/messenger.go:89-101 | Whatever a step completes it publishes, unless it is such a break; what was completed and not published stays so |
| Slip.OpeningExact | internal/peers.go:427-490 | In any state without slips, a stream that has just been opened can, left alone, end in an unsound Sent mark if and only if its packets do not start at its offset |
| Slip.RetryExact | internal/peers.go:427-466 | Every broken push in a state without slips, made again and left alone, can end in an unsound Sent mark if and only if its reader is not at its offset and the receiver, where the message is free, not complete, not expired and not too far, has exactly the bytes before the offset |
| Slip.UnsoundSent | internal/peers.go:449-490 | A run from the start that ends in Sent for a peer that has not completed the message, and has published it |
| Flooding.SentIsSound | internal/peers.go:358-363 | In every state reached without a stream whose packets start elsewhere than at its offset, a Sent mark, from a nil push, AlreadySeen or a Diff answer, means that the peer has completed the message, and until expiry reads the same content as the sender |
| Flooding.FatalOnlyIfGivenUp | internal/peers.go:364-389 | In the same states a FatalError mark means that the message expired, or that MaxHops is below the number of nodes |
| Flooding.HopListsAreSimplePaths | internal/peers.go:411-420 | In every reachable state the hops of every stored copy, complete or partial, have no duplicates, exclude the storing node, name only nodes that completed the message, and number at most N-1 and at most MaxHops if set |
| Progress.PushDelivers | internal/peers.go:409-490 | A push that is due and left alone succeeds whatever part of the message the peer has: the peer then has it complete and, if that is new, published, the sender has recorded Sent, and no call, lock or delay is left over |
| Progress.Handshake | internal/peers.go:427-446 | At most a call, an offset query and a second call lead to AlreadySeen or an open stream at the right offset |
| Progress.StreamAll | internal/peers.go:468-490 | A stream that is left alone, packets of at most 2048 bytes, ends with a nil Push |
| Flooding.CompletedReads | internal/storage.go:205-218 | A node that ever completed a message still gives out its signed fields and true content until it expires |
| Flooding.Covers | internal/peers.go:288-298 | Coverage from one holder to all nodes in any state that satisfies the invariant |
| NetworkInv.ApplyKeeps | internal/messenger.go:42-111 | Every action of the network keeps the invariant of stores, calls in progress, hops and history |
| NetworkInv.RunKeeps | internal/messenger.go:42-111 | Every run keeps it |
| NetworkInv.CallPushKeeps | internal/messenger.go:62-77 | Validation through OpenWrite, new or resumed or rejected, keeps the invariant, and its promises about content unless the opening slips |
| NetworkInv.ReceiveKeeps | internal/messenger.go:79-88 | A packet written by the receiver is the next part of the true content, and other streams are untouched |
| NetworkInv.CloseKeeps | internal/messenger.go:89-101 | The end or the interruption of a stream keeps the invariant: without slips it marks complete only a copy of the true content and is answered as success only if it did; with them it may remove the copy, never a complete one |
| NetworkInv.AskOffsetKeeps | internal/messenger.go:105-111 | After a resume the reader is at the offset that the receiver reported |
| NetworkInv.InjectKeeps | vmsg/chat.go:338-356 | Authoring a message with no hops keeps the invariant and completes it at the author |
| NetworkInv.RecordKeeps | internal/peers.go:358-406 | Recording the outcome of a push marks Sent only a peer that completed the message and FatalError only a message given up, and queues again what is to be retried |
| NetworkInv.RefusalMeans | internal/peers.go:288-298 | A refusal names a peer that completed the message, unless MaxHops is below the number of nodes |
| NetworkInv.CheckHopsForesees | internal/peers.go:288-298 | For an unexpired message, checkHops reports the hop limit exactly if the peer did not relay the message and would answer TooManyHops to it with this node's hop added |
| NetworkInv.RefusedOnceExpired | internal/messenger.go:62-68 | The receiver refuses a message as expired exactly after the calendar date that lies Lifespan after its creation, and its store stays as it is |
| Turns.PopIsTurn | internal/peers.go:345-355 | Popping an id in the network either begins a push, of an id not settled and due, with the node's readable unexpired copy and the node added as last hop, or changes peer file and queue just as a turn of msgLoop does |
| Turns.RecordIsTurn | internal/peers.go:356-406 | Recording the outcome completes that turn: peer file and queue are those of msgLoop |
| Turns.LastHopIsSender | internal/peers.go:411-420 | In every reachable state every push carries its sender as last hop |
| NetworkInv.PopKeeps | internal/peers.go:345-355 | Taking an id from the queue, whether dropped, put back, given up or pushed, keeps the invariant |
| NetworkInv.ScanKeeps | internal/peers.go:492-575 | A Diff, broken or not, keeps the invariant |
| NetworkInv.MarkCallKeeps | internal/peers.go:449-466 | A call that fails, loses its reply or is made again keeps the invariant |
| NetworkInv.SendPacketKeeps | internal/peers.go:475-489 | A packet read while the call is being made or the stream is open leaves what is on the way the last part that was read |
| NetworkInv.SweepKeeps | internal/storage.go:77-99 | The sweeper removes only expired messages, and streams into swept directories stay sound |
| Ring.StronglyConnected | internal/peers.go:155-201 | If all nodes agree on the bad ones and MaxActivePeers >= 0, every good node reaches every good node along selected good nodes |
| Ring.FirstPick | internal/peers.go:185-201 | The first pick of a node is its nearest clockwise good neighbour |
| Ring.SlotRank | internal/peers.go:187 | Index (offset+d-1) mod numPeers of a node's list is rank (r+d) mod N of the ring |
| Ring.ExactProbes | internal/peers.go:185-201 | With no bad peer and 2^i on the ring, the slots chosen are exactly those probed |
| Ring.PowerEdge | internal/peers.go:185-201 | A node with room for i+1 peers talks to the node at distance exactly 2^i |
| Ring.LogarithmicReach | internal/peers.go:162-201 | With room for bitlength(N-1) peers, every power-of-two distance is an edge and every node is at most bitlength(N-1) pushes away |
| Ring.OthersSorting | internal/peers.go:162-174 | A node's own rank in the ring is its would-be position in its peer list |
| Selection.FindSlot | internal/peers.go:187-199 | The inner loops terminate, stay in range, and find the nearest free good slot, or the nearest free slot if no good one is free |
| Selection.SelectActive | internal/peers.go:185-201 | The loop marks exactly the slots that the rounds pick |
| Selection.ActiveContract | internal/peers.go:177-201 | With more peers than MaxActivePeers > 0, exactly MaxActivePeers distinct peers are active, and a bad one only if every good one is |
| Selection.ChosenGoodFirst | internal/peers.go:188-198 | After any number of rounds a bad slot is active only if every good slot is |
| Selection.ChosenGrows | internal/peers.go:186-201 | A slot once active stays active |
| Selection.ProbeFits | internal/peers.go:187 | The index expression does not overflow a signed 64-bit int |
| Selection.RoundTakes | internal/peers.go:186-201 | Round k walks 2^(k mod 32) - 1 slots from the node's place, round the ring as often as that takes, and marks the first slot from there that is free and good, or free if no good one is |
| Selection.ActiveOtherwise | internal/peers.go:155-160 | With MaxActivePeers 0 or room for all, all peers are active; with a negative limit, none |
| Selection.PeerManager.Locate | internal/peers.go:168-174 | The ids before the offset are not alphabetically after this node's id, and all from the offset on are |
| Selection.PeerManager.FlagBad | internal/peers.go:177-183 | A slot is flagged exactly if its peer had 10 or more errors |
| Selection.PeerManager.StartStop | internal/peers.go:203-210 | Exactly the peers of active slots run afterwards |
| Selection.PeerManager.CheckActivePeers | internal/peers.go:151-211 | Afterwards exactly the selected peers run, and nothing else about any peer changes |
| Order.Less | internal/peers.go:166-171 | The comparison of ids holds exactly if one is a proper prefix of the other, or has the smaller character where they first differ |
| Order.SortKeys | internal/peers.go:162-166 | Collecting and sorting the keys gives the list of exactly those keys in alphabetical order |
| Order.SortingUnique | internal/peers.go:166 | There is only one such list |
| Message.UnambiguousFromLeft | ifc/message.go:17-27 | With no newline in Id and Recipient the preimage determines every signed field, whatever the Sha256 length |
| Message.AmbiguousOnlyByLength | ifc/message.go:17-27 | Messages with equal preimages are equal if and only if their Ids and their Sha256 fields have equal lengths |
| Message.EmbeddedHeaderCollides | ifc/message.go:19-25 | Every message whose recipient embeds a header shares its preimage with another of the same Id |
| Message.CollisionExample | ifc/message.go:19-25 | Two concrete messages that do, one with a 32-byte Sha256 |
| Message.TimeTextInjective | ifc/message.go:21 | The time text, with trailing zeros of the fraction stripped, determines the time for years 0 to 9999 |
| Message.FractionInjective | ifc/message.go:21 | The stripped fraction determines the nanoseconds |
| Message.Int64TextInjective | ifc/message.go:22-23 | The text of an int64 determines it |
| Message.TimeTextSays | ifc/message.go:21 | Read as decimal numbers, places 0-4, 4-6, up to 12-14 of the time text are year, month, day, hour, minute and second, and the fraction follows |
| Message.FractionSays | ifc/message.go:21 | The fraction is a dot and the decimal fraction of the second without trailing zeros, and absent for a whole second |
| Message.DecimalValue | ifc/message.go:22-23 | The digits printed for a number stand for that number, without leading zeros |
| Message.Int64TextSays | ifc/message.go:22-23 | An int64 under `%s` prints as `%!s(int64=`, its sign, the decimal digits of its magnitude, and a closing parenthesis |
| Message.PreimageSays | ifc/message.go:17-27 | Read line by line, the preimage is id, recipient, time, lifespan, length and then Sha256 |
| Calendar.NextDayInstant | ifc/message.go:42-47 | For every date of the Gregorian calendar, leap years and month lengths written out, the same time on the next day is exactly 86400 s later |
| Calendar.Anchors | ifc/message.go:42-47 | Days are counted from 1 March of year 0; 1 January 1970 is day 719468, and 22 June 2016 is 16974 days after that |
| Calendar.InstantOrder | ifc/message.go:42-47 | One date is earlier than another if and only if its instant is smaller |
| Calendar.LaterInstant | ifc/message.go:43 | The date found by going on day by day, and then on the clock, lies exactly that span later |
| Calendar.ExpiredIff | ifc/message.go:42-47 | A message is expired at a date if and only if that date is after the one that lies Lifespan after its creation; with a negative Lifespan, from its creation on |
| Storage.WriteAllAppends | internal/storage.go:178-181 | Writing at the end appends, and the running hash covers exactly the file |
| Storage.TransferExtends | internal/storage.go:114-203 | A transfer at the right offset extends a partial message, and completes it when nothing is missing |
| Storage.ResumedRoundTrip | internal/storage.go:114-218 | However content is cut into attempts of several senders and into packets, it is read back whole, with the first sender's record |
| Storage.FirstAttempt | internal/storage.go:123-136 | The first attempt stores its record and starts from an empty file |
| Storage.OpenWriteAnswers | internal/storage.go:114-168 | Which of the five answers OpenWrite gives, as an if-and-only-if for each; only success locks, and a wrong offset is answered with the one that then opens |
| Storage.CloseDecides | internal/storage.go:183-203 | A short file stays, a wrong one goes with all that is known of the message, which then starts at offset 0 again, a right one is complete; the lock is freed and other messages are untouched |
| Storage.SweepIff | internal/storage.go:77-99 | The sweeper removes a directory, complete or partial, if and only if its record has expired |
| Storage.PeerInfoReadBack | internal/storage.go:289-304 | What is recorded about a peer is read back, other peer files and all other state are unchanged, and nothing is recorded without a directory |
| Storage.RecordReadBack | internal/storage.go:341-362 | A message record is read back as written, and the rest of its directory and other messages stay |
| FileStore.FileStorage.StoreMessage | internal/storage.go:351-362 | Writes the record, creating the directory if missing, and changes nothing else |
| FileStore.FileStorage.Absorb | internal/storage.go:152-165 | The hash absorbs the whole file in chunks of 2048 |
| FileStore.FileStorage.OpenWrite | internal/storage.go:114-168 | New state and result, on all five outcomes, are those of the specified operation |
| FileStore.FileStorage.Close | internal/storage.go:183-203 | Keeps a short file, deletes a wrong one, marks a right one done, and unlocks always |
| FileStore.FileStorage.SweepExpired | internal/storage.go:77-99 | Removes exactly the directories, complete or partial, with an expired record, in whatever order names come |
| StorageSteps.ApplyKeeps | internal/storage.go:73-203 | Every system call of every thread, and of the sweeper, keeps the storage invariant |
| StorageSteps.RunKeeps | internal/storage.go:73-203 | Every interleaving keeps it |
| StorageSteps.StorageSafety | internal/storage.go:73-203 | After every interleaving: one lock holder per id, no lock without holder, a writer's file is the id's content file unless the directory is gone, and a done id has content of the Length and Sha256 of a message with its record's hash (of its record, if messages can be told apart) |
| StorageSteps.CompletePersists | internal/storage.go:183-203 | No action but the sweeper's removal deletes or alters a complete message |
| StorageResume.ApplyGenuine | internal/storage.go:136-203 | Every call of an honest sender, and any sweep, keeps stored bytes a prefix of the true content |
| StorageResume.ResumeCorrect | internal/storage.go:136-203 | After any interleaving of interrupted honest transfers: content is a prefix of the truth, running hash equals stored bytes, no Close finds a mismatch, and an unlocked id is absent, shorter than Length, or done and whole |
| StorageSolo.SoloOpenWrite | internal/storage.go:114-168 | Undisturbed, the single calls of OpenWrite reach exactly the state of the atomic operation |
| StorageSolo.SoloClose | internal/storage.go:183-203 | Likewise for Close |
| StorageSolo.SoloTransfer | internal/storage.go:114-203 | Every atomic transfer is a run of single calls |
| StorageSolo.RecordMayDisagree | internal/storage.go:123-130 | For every content some run leaves it complete under a record with another Sha256 |
| StorageSolo.RecordAgreesIff | internal/storage.go:123-130 | Without hash collisions a complete message agrees with its record if and only if the record's Sha256 field is 32 bytes long |
| Queue.MsgQueue.Insert | internal/queue.go:98-115 | Whatever was inserted before, the list stays ordered by time, equal times in insertion order, with the new element added |
| Queue.MsgQueue.PopDue | internal/queue.go:77-83 | Removes the head, and only if its time has passed |
| Queue.InsertedStable | internal/queue.go:106-114 | Inserting keeps the stable order |
| Queue.HeadIsEarliest | internal/queue.go:77-83 | The head is the first inserted of the earliest, and removing it keeps the order of the rest |
| Queue.NoLostWakeup | internal/queue.go:61-115 | In every reachable state a popper that waits past the head's time has a token waiting or an inserter about to offer one |
| Queue.QueueRefinesTimedMultiset | internal/queue.go:55-115 | In every reachable state the list is a stable time order; until cancellation inserted = delivered + queued + at most one in flight; nothing is delivered before its time |
| Queue.RemovesEarliest | internal/queue.go:77-83 | What the popper removes is due, and is the first inserted of the earliest queued |
| Queue.DueAreDelivered | internal/queue.go:61-90 | Progress: from every reachable uncancelled state without a pending offer, if the times of the first m elements have passed, at most 5m steps of the popper and its receiver deliver just these, by time and then by insertion, with no further insertion and no more time |
| Queue.InserterSteps | internal/queue.go:98-115 | An insertion adds its element to the stable order and owes a token, which its offer leaves |
| Queue.CancelStops | internal/queue.go:69-71 | Once cancelled, the popper can return within four steps |
| PubSub.ApplyKeeps | internal/pubsub.go:37-95 | Every step of publishers, subscribers, readLoop and shutdown keeps the fan-out invariant |
| PubSub.FanOutInOrder | internal/pubsub.go:37-95 | No run sends on or closes a closed channel; what is distributed is what Pub handed over, in order, but for one message waiting for the mutex; until cancellation a subscriber's received ++ buffered (at most ten) is what was distributed since its Sub, in order |
| PubSub.UnsubEnds | internal/pubsub.go:57-66 | Unsub leaves the channel unregistered, closed and drained, and every other channel as it is |
| PubSub.StaysLeft | internal/pubsub.go:57-66 | After that nothing more is received on it, whatever runs |
| PubSub.AllAreServed | internal/pubsub.go:68-95 | Progress: from every reachable uncancelled state, two steps of readLoop and readers per subscription and two more bring every message that Pub handed over to every subscription |
| Subscribe.NoGap | internal/peers.go:214-223 | For every interleaving, once the scan is drained, every published message was listed by the scan or delivered to the subscription |
| Subscribe.ScanEnds | internal/storage.go:255-285 | A scan under way can always be drained, and then it has listed every complete message that it owed |
| Backoff.MessageDelays | internal/peers.go:391-396 | Every draw gives exactly min(5 min, base*2^n s), and more than zero, if and only if n <= 28; beyond, some draw gives a delay that is not positive; from 55 on every delay is zero |
| Backoff.DiffDelays | internal/peers.go:324-327 | The same, if and only if n <= 29, and zero from 55 on |
| Backoff.RpcDelays | internal/peers.go:450-457 | The same in milliseconds with cap one minute, if and only if n <= 35, and zero from 58 on |
| Delivery.PeerLoop.Turn | internal/peers.go:350-405 | One turn of the loop has exactly the specified effect on records, queue and count |
| Delivery.HandleSettles | internal/peers.go:350-405 | A popped id is dropped because terminal, put back for the time on record because early, recorded Sent after nil or AlreadySeen, recorded FatalError after one of 13 named errors, or else recorded and put back for the end of the push plus the delay; other ids are untouched |
| Delivery.OthersMean | internal/peers.go:556-565 | An answer of a Diff that the peer has the message records Sent and nothing about other ids; otherwise the id is queued for its time |
| Delivery.LoopLosesNothing | internal/peers.go:338-406 | Over every run: never both Sent and FatalError; NumAttempts counts the pushes; no push before NextAttempt or after one that was accepted or failed for good; delivered and counted at most once; an id once queued is queued still or terminal |
| Delivery.RetriesOnTime | internal/peers.go:391-398 | Over every run: a push that ended at T with a retryable error, as attempt n <= 28, leaves T + min(5 min, (10 + draw)*2^n s) on record; the id is queued for exactly that time unless it is settled meanwhile, and its next push is made no earlier |
| Diff.CheckHopsLoop | internal/peers.go:288-298 | The loop refuses exactly if the peer is in the hops or the hop limit is reached |
| Diff.Answer | internal/messenger.go:29-38 | One answer per id, in order, true exactly if the message is complete |
| Diff.Sender.ReadWindow | internal/peers.go:511-540 | Batch and batch info are aligned and hold the unfiltered entries of the next 256 |
| Diff.Sender.TakeAnswers | internal/peers.go:553-566 | Every answer is applied to the item of its index |
| Diff.Sender.DiffAndEnqueue | internal/peers.go:492-575 | On success every entry up to the first all-filtered window (or the end) is dealt with, and none beyond |
| Diff.Partition | internal/peers.go:504-574 | Each entry is exactly one of skipped (settled, relayed by the peer, out of hops), marked Sent with its attempts kept because the receiver had it, or queued once, at the NextAttempt on record or else at its creation |
| Diff.CreationOrder | internal/peers.go:531-565 | Whatever was queued before, of two new messages the one created on an earlier date stands before the other |
| Diff.NothingMissedIff | internal/peers.go:513-540 | Nothing is missed if and only if no all-filtered window of 256 precedes an unfiltered entry |
| Diff.MissedExample | internal/peers.go:513-540 | A manifest of 257 entries whose last is missed |

## Left out

- Flooding.CoverageAtQuiescence: says what holds when all good holders are through with their peers; that they can get there is Cuts.FloodReaches, and that they must is not claimed, because the network may break every stream and retries are not bounded.
- Flooding.SentIsSound: assumes honest senders that send the file they opened; retries are in the model, and the openings that break the property are named by `slipped`.
- Flooding.HopListsAreSimplePaths: takes validation through OpenWrite as one step on one clock, because a message that expires between the two could be swept and stored again.
- Cuts.FloodsIff: for states in which the message itself is not being pushed; runs may use any listing order in a Diff and do not restart peers.
- Accounting.NothingForgotten: takes a completion and its Pub as one step, and a Diff of a listing as one step; Subscribe.NoGap treats the time between them.
- Ring.LogarithmicReach: for fewer than 2^32 peers, because the code takes the exponent modulo 32.
- StorageSteps.StorageSafety: takes RemoveAll as one step and other file-system calls as succeeding, apart from calls into a directory that is gone.
- Subscribe.NoGap: without cancellation, our own Unsub and expiry, as each of these legitimately ends the subscription or hides the message.
- Delivery.LoopLosesNothing: for one peer manager and with SetPeerInfo succeeding; NumAttempts does not wrap at 32 bits.
- Queue.NoLostWakeup: the list is a sequence and the timer fires at any moment from its deadline on; drift of a real timer is not modelled. In the network model a queue hands out its ids in any order.
- Queue.DueAreDelivered: gives the steps that deliver; that the scheduler lets the popper and a receiver take them is not modelled. The same holds for PubSub.AllAreServed and Subscribe.ScanEnds.
- Delivery.RetriesOnTime: up to 28 attempts; beyond, the recorded time is the wrapped delay that Backoff.MessageDelays describes.
- Calendar.ExpiredIff: dates in UTC from year 0 on, without leap seconds and without rounding of the clock.
- Different messages under one id in the network model: its world has one signed message and content per id; collisions are treated in StorageSteps and StorageSolo.
- Update in place of PubSub, the goroutines of MsgQueue, and the network: step machines on values, because they are about interleavings; in-place update is modelled in FileStore, MsgQueue, PeerManager, PeerLoop and Sender.
- RateAcl authorization, blessings, discharges and signature verification: foreign libraries; the network model has only messages that their authors signed.
- MaxMessageLength: one more rejection before OpenWrite, with no effect on state.
- Discovery, removePeer and mount entries: the started peers of a node change arbitrarily (`SelectPeers`), a stop waiting for the push under way.
- Pull and Manifest over RPC, counters other than messages sent, the chat application beyond its way of storing a message.
- Generated stubs, vom and base64 encoding: names are injective and records decode if fully written.
