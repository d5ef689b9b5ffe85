# Agent Letter Bridge: a verified model

Agent Letter Bridge turns chat messages into durable letters in a mailbox directory and sends
replies and initiated messages back to the chat. It has no database and no server of its own:
everything it promises across crashes, retries and concurrent processes rests on exclusive
creates, renames, unlinks and file locks, and on the order in which it uses them.

This project models that logic in Dafny and proves what the order is for.

* **Sending** (`Receipts`, `ReplyProtocol`, `InitiatedProtocol`, `BudgetProtocol`,
  `BudgetCounts`, `ReceiptLog`). A letter is claimed by an exclusive create; an append-only
  directory of numbered receipts says how far it got. Composers, resumers, initiating callers and
  startup reconciliation are step machines that interleave freely, list directories
  non-atomically, and may die at any step. The platform answers as it likes: accepted, refused,
  throttled, unknown. A quota counted by scanning reservation files holds although most writes to
  those files do not take its lock.
* **Receiving** (`LetterFormat`, `ThreadStamp`, `RegistryEnvelope`, `Inscription`, `MailStore`,
  `TelegramOffset`, `Poller`). A letter is the text the store prints, and every reader parses that
  text. Publishing looks up the update by a colliding index, verifies, and links; a cycle writes
  letters, stages the mark, tells the platform, and only then persists the mark.
* **Catching up** (`SlackCatchUp`, `DiscordCatchUp`, `DiscordGateway`). The adapters' queue, page
  runs, held marks and stored markers, as classes whose methods take the adapters' own steps and
  in which any call may fail.
* **The wire** (`Octets`, `Frames`, `WebSocketClient`). The resumable frame reader over a socket
  that splits bytes and times out anywhere, and the masked writer, against RFC 6455, sections 5.2
  to 5.5.
* **Supporting protocols** (`GrantPublication`, `StopProtocol`, `Ids`, `Decimal`, `Collections`). Contents-first
  publication of a grant, the generation-bound stop request, the encoding under the ids.

## How to read it

Code that several processes run at once on the same files is a machine: a `State`, a `Step` for
every visible effect, `Enabled` and `Apply`, and theorems over every legal run. Code that one
process runs at a time is a class with the source's fields and a method for each of its functions,
with loops where it loops. What other processes or the platform do in between is a nondeterministic
method (`Others`, `Elapse`, `Arrive`) or a nondeterministic choice; a branch on `*` before a return
is a failure or a crash at that point. Ghost fields record what the code itself does not keep: what
was delivered or settled, and logs of what the platform was asked, how it answered and what came from it
(`calls`, `asks`, `answers`, `dials`, `frames`, `acts`). Contracts speak of what the platform held, or
refused, through these logs, and of a stretch of a run through the values at its ends (`Moment`, `Log`).

Some classes carry a constant for a world in which less happens: with `quiet` no call or write fails
and nobody interferes, with `steady` nobody edits the allowlist, with `prompt` the socket is never late.
A clause under such a constant says what the code then achieves. Nothing else assumes it: the other
clauses hold whatever fails.

A run that shows a failure is a list of steps of the machine, or a method. `WebSocketClient.PongIsLate`
and `MailStore.IllegibleTwice` call the operations themselves. The other methods call steps that the
operations are made of, and leave out steps that change nothing the run speaks of:

* `MailStore.UnreadTwice`: the search for candidates other than the one letter there is, and the ledger
  writes of both calls; the loss of the ledger stands for the first.
* `SlackCatchUp.FirstWindowMovesOn`: opening the socket, the page requests of the read that fails, the
  threads (there are none), the live reading of a quiet socket, and what the poller does with the letter.
* `DiscordCatchUp.FirstWindowMovesOn`, `LiveMailIsPassed`, `FloorIsLost`, `UnlistedIsPassed`: opening the
  gateway, the channel lookups that succeed, empty histories, the live reading of a quiet gateway, and
  what the poller does with the letter.
* `DiscordGateway.FramesTooClose`, as `Gateway.Continue`: the REST call before an Identify, Hello, and
  pauses of the wait for a slot that do not end it.
* `DiscordGateway.EndedIsResumed`, `ResumedIsGivenUp`: the REST call before an Identify, and its slot.

## What is not true of the code, and exactly when it is

* A refunded reservation can belong to a delivered message: reconciliation may write "dead" between
  the two looks of `send_initiated`, and a local policy refusal then refunds
  (`InitiatedProtocol.RaceRefundsADelivery`). A refusal at that point is wrong exactly when some
  reading of the receipts, terminal ones aside, still ends in "sending"
  (`InitiatedProtocol.RefusalIsWrongIff`); runs without that step conserve every charge
  (`InitiatedProtocol.ConservationOfCharge`).
* A letter does not always read back as printed: a value that ends in three dashes closes the front
  early, silently. It reads back exactly when no value does (`LetterFormat.PrintParse`), and then
  exactly the store's parser and the registry's agree (`RegistryEnvelope.ParsersAgree`). One field
  reads back exactly when no field printed above it ends in dashes (`LetterFormat.FieldReads`); so a
  letter gives back the update it was published for exactly under that condition on the fields above
  its `source_id` (`Inscription.OriginOfPrinted`), and a sender or recipient in dashes, which the
  configuration may hold, always hides it (`Inscription.DashesHideUpdate`).
* An update can get a second letter. When the ledger does not name it, `publish_once` publishes
  exactly if every letter the update has was unread at the lookup or does not show it
  (`MailStore.Mailbox.PublishOnce`). Both happen: a read that fails
  (`MailStore.UnreadTwice`) and a field in dashes (`MailStore.IllegibleTwice`).
* A first-run window is counted back from the clock each time a read starts afresh, so a failed first
  read can start later in the history the next time, and the marker then passes a message the first
  read had been shown (`SlackCatchUp.FirstWindowMovesOn`). When a read starts afresh, a message owed in
  its history is given up exactly when the history has no marker and the message is not after the new
  start (`SlackCatchUp.Slack.Begin`, `SlackCatchUp.Slack.AllPages`).
* A Discord message that was read, or put below a floor, and has no letter is not always read again by
  the next process. It is exactly if a marker or floor on disk lies below it, or its channel is in the
  allowlist, has no marker, and the message lies after the start of a first-run window
  (`DiscordCatchUp.Discord.Resume`, and `DiscordCatchUp.Discord.ReachedIsRead` for what is then read); of messages no marker or floor had passed, exactly if a marker or
  floor is stored for the channel, or the channel is in the allowlist and the message is after that start
  (`DiscordCatchUp.Discord.RestartReaches`). Three runs end with a marker past such a message: a window
  that moved on (`DiscordCatchUp.FirstWindowMovesOn`), live mail of a thread without a marker
  (`DiscordCatchUp.LiveMailIsPassed`), and a floor whose write failed (`DiscordCatchUp.FloorIsLost`).
* A Discord process whose first connect fails and leaves its socket open never catches up in full, and a
  confirm of live mail then passes messages that the process before left to it
  (`DiscordCatchUp.UnlistedIsPassed`). In a confirm, a message owed is given up exactly if its thread lost
  its marker to the cap, or the process has never listed its channels and the new markers do not reach the
  message (`DiscordCatchUp.Discord.WriteMarkers`).
* The Discord Identify frames can be closer than the spacing, which the code counts from the slots
  (`DiscordGateway.FramesTooClose`). What follows a frame keeps its distance, in every continuation,
  exactly if that frame left the moment its slot was taken (`DiscordGateway.SpacingKeptIff`); and every
  continuation meant there happens (`DiscordGateway.Gateway.Continue`).
* A session that Discord has ended is resumed all the same where its file could not be erased
  (`DiscordGateway.EndedIsResumed`); where the file is gone it is never
  (`DiscordGateway.EndedIsNotResumed`). And a connection that Discord has just resumed is given up as
  silent where the resume came about while the READY of an Identify was waited for
  (`DiscordGateway.ResumedIsGivenUp`), and only there (`DiscordGateway.Gateway.GiveUp`).
* A ping can be taken from the WebSocket and not returned, when the answer to it is late: the caller
  sees the timeout of a read. Everything taken is returned exactly when every answer was sent, and
  however the answers went no message, pong or close is lost
  (`WebSocketClient.WebSocket.Recv`, `WebSocketClient.WebSocket.NothingLostIff`).
* A late send can leave a part of a frame on the wire, and the socket is used on. A server reads back
  exactly the frames that left whole, with nothing over, if and only if no such part was left
  (`WebSocketClient.WebSocket.ServerReadsBackIff`). `WebSocketClient.PongIsLate` is a run with both: the
  ping is lost, the text behind it is heard, and the next frame sent is not read back.
* "It never read the request" is printed of a run that found the request in exactly three cases: it
  ended between finding and removing the request, it could not remove it, or a request for it was
  written after it had removed one (`StopProtocol.NeverReadIsWrongIff`). Each happens
  (`StopProtocol.DiesBeforeClearing`, `StopProtocol.CannotClear`, `StopProtocol.AsksTooLate`). The
  health record shows an asker the last two, once it names the generation, and never the first
  (`StopProtocol.RecordRefutesNeverRead`). "Stopped" is always true (`StopProtocol.StoppedIsTrue`).

## Model

| member | source | states |
|---|---|---|
| Receipts.BackgroundKeepsShelf | src/alb/outbound/store.py:341-409 | a reconciliation that takes no lock, at any of its steps, and stray files leave the senders' own receipts accounted for: everything else with a number says "dead" |
| Receipts.RecordKeepsShelf | src/alb/outbound/store.py:238-252 | a sender's receipt carries a number past everything on its trail and becomes its newest entry, although its number was counted from an old listing |
| Receipts.ListingNumber | src/alb/outbound/store.py:294-299 | the number taken from a non-atomic listing is past every number the senders have used |
| Receipts.NewestIsLast | src/alb/outbound/store.py:270-291 | with no terminal receipt in sight, the last event of a history is the last the senders recorded |
| ReplyProtocol.FindThrottledKeepsLinks | src/alb/send/reply.py:367-373 | a resumer that reads "throttled" under the lock may cross: every attempt so far was turned away and the composer has ended |
| ReplyProtocol.StepKeepsInv | src/alb/send/reply.py:280-329 | every step of composers, resumers, reconciliation, crashes and litter keeps the link between receipts and attempts, and what the receipts say true |
| ReplyProtocol.AtMostOneDelivery | src/alb/send/reply.py:213-443 | in every run every attempt but the last was throttled, so at most one reply can have been delivered |
| ReplyProtocol.ReceiptsAreTrue | src/alb/send/reply.py:280-329 | in every run "sent" is recorded only of a last attempt that was accepted, "refused" only of one declined, "ambiguous" only of one whose outcome is unknown, "throttled" only if one was deferred; no attempt is made before "sending" is recorded, so a letter that reads as unsent had none |
| ReplyProtocol.AnswerIsRecorded | src/alb/send/reply.py:280-329 | from every reachable attempt, uninterrupted: one new receipt, the one the answer calls for, and the process is done |
| ReplyProtocol.ComposerSends | src/alb/send/reply.py:280-288 | a run: the claim, "composed", "sending", and the composer is at its attempt |
| ReplyProtocol.ResumerSends | src/alb/send/reply.py:364-408 | from every reachable state with no resumer in which the receipts say "throttled" last: a resumer gets to a further attempt after one more "sending" |
| InitiatedProtocol.StepKeepsInv | src/alb/initiate/send.py:191-276 | every step of the admit, reserve, claim, cross and settle machine keeps the link between reservation, receipts and attempts, and what receipts and reservation say true |
| InitiatedProtocol.AtMostOneDelivery | src/alb/initiate/send.py:134-276 | over all callers, crashes and reconciliations at most one attempt on an initiated letter can have been delivered |
| InitiatedProtocol.RecordsAreTrue | src/alb/initiate/send.py:111-131 | in every run receipts are true as for replies, and the reservation is settled as sent only beside a "sent", held only beside a "throttled", settled as ambiguous only beside an "ambiguous" or "dead", refunded only beside a "refused" or where nothing was recorded and nothing attempted |
| InitiatedProtocol.AnswerIsSettled | src/alb/initiate/send.py:111-189 | from every reachable attempt, uninterrupted: the receipt that the answer calls for, and the reservation settled as sent, refunded, held or ambiguous to match, in the window it was charged to |
| InitiatedProtocol.TerminalSettles | src/alb/initiate/send.py:68-81 | a caller that finds a terminal receipt settles a live reservation as that receipt says |
| InitiatedProtocol.OpenSettles | src/alb/initiate/send.py:84-92 | a caller that finds an attempt without an answer records and settles it as ambiguous |
| InitiatedProtocol.ThrottleIsResumed | src/alb/initiate/send.py:191-276 | from every reachable state with no caller, a held reservation and "throttled" last: a run brings the next caller to a further attempt |
| InitiatedProtocol.DoubtShows | src/alb/initiate/send.py:84-92 | at the policy check an attempt that may have arrived shows as a reading of the non-terminal receipts that ends in "sending", and only then |
| InitiatedProtocol.ConservationOfCharge | src/alb/initiate/send.py:68-131 | in every run without the guarded step, a refunded reservation has no attempt that was accepted or left unknown |
| InitiatedProtocol.RefusalIsWrongIff | src/alb/initiate/send.py:241-248 | a local refusal refunds a message that may have arrived if and only if the receipts, terminal ones aside, still end in "sending" |
| InitiatedProtocol.RaceRefundsADelivery | src/alb/initiate/send.py:226-252 | a concrete run: delivered, then "dead" written between two looks, then refused by policy and refunded |
| BudgetProtocol.OwnStepLowers | src/alb/initiate/send.py:111-131 | a step outside the budget lock never adds to any hour, day or queue, and never moves a charge |
| BudgetProtocol.FillCharges | src/alb/initiate/durable.py:22-49 | the granted write adds one charge, to the window the budget granted |
| BudgetProtocol.FillKeepsQuota | src/alb/initiate/budget.py:139-191 | what a scan counted earlier, under writes without the lock, still leaves room when the write is made |
| BudgetProtocol.MoveKeepsValid | src/alb/initiate/budget.py:139-191 | every move of every letter and every lock holder keeps the scans sound and the quota |
| BudgetProtocol.QuotaHolds | src/alb/initiate/budget.py:52-191 | in every run, for every binding, hour and day, charged reservations stay within the limits, and live unfinished ones within the queue limit |
| BudgetProtocol.RoomIsGranted | src/alb/initiate/budget.py:139-191 | from any state of the other letters: a scan that nothing interrupts counts exactly what they use up, and the window is granted if and only if that leaves room in the hour, the day and, for a new letter, the queue |
| BudgetProtocol.EveryLetterAtMostOnce | src/alb/initiate/send.py:191-276 | under the quota each of the many letters is still delivered at most once |
| BudgetCounts.Counts | src/alb/initiate/budget.py:84-136 | the loop's three counters are the sizes of the sets they stand for, and it refuses exactly when a record that matters cannot be judged |
| BudgetCounts.OwnerlessBlocksAll | src/alb/initiate/budget.py:88-107 | the scan refuses for every binding exactly for a record that cannot be read, names no binding, or names a grant that does not load, whoever is excluded |
| BudgetCounts.CountsUnderOne | src/alb/initiate/budget.py:99-110 | a record counts under at most one binding: its own, unless its grant names another, and then that one and only once it is settled |
| BudgetCounts.SettledFollowsGrant | src/alb/initiate/budget.py:105-110 | a settled record counts under the binding of its grant as if it named it itself |
| BudgetCounts.OwnRecordCounts | src/alb/initiate/budget.py:114-131 | a record of its own binding counts there, and blocks it exactly for an unknown status or a charge without day or hour |
| BudgetCounts.ExcludedAreTakenOut | src/alb/initiate/budget.py:111-113 | excluding a message takes its records, and no others, from each of the three counts and from what blocks the binding |
| BudgetCounts.ProtocolReadsAsCounts | src/alb/initiate/budget.py:84-136 | the protocol's charge predicates are what the loop computes from a reservation file |
| ReceiptLog.FileNameReads | src/alb/outbound/store.py:255-299 | number and event read back from the file name they were printed into |
| ReceiptLog.NextNameAppends | src/alb/outbound/store.py:294-299 | with one writer the next name is new, its number exceeds every counted one even beside stray files, and the directory stands for one more event |
| ReceiptLog.StrayIsIgnored | src/alb/outbound/store.py:270-291 | a file without a number or an event changes nothing that is read |
| ReceiptLog.History | src/alb/outbound/store.py:270-291 | the events come back in the order they were appended, numerically and not alphabetically |
| ReceiptLog.ComposedIsUnsent | src/alb/outbound/store.py:341-351 | a letter without receipts, or with "composed" and nothing else, is unsent |
| ReceiptLog.VerdictMoves | src/alb/outbound/store.py:341-351 | a terminal event takes a letter off every later report, a throttle leaves it throttled, an attempt leaves it in doubt |
| ReceiptLog.SettledTwice | src/alb/outbound/store.py:378-409 | the startup pass is idempotent and leaves throttled and unsent letters as they are |
| ReceiptLog.ProtocolReadsVerdicts | src/alb/outbound/store.py:341-351 | each of the four verdicts on a log is the one the sending protocols read from the same directory |
| ReceiptLog.Store.RecordEvent | src/alb/outbound/store.py:238-252 | one event at the end of one letter's log, or none where a write fails; no other letter changes |
| ReceiptLog.Store.Reconcile | src/alb/outbound/store.py:313-375 | the verdicts are a function of the logs, and a claim without any receipt is unsent |
| ReceiptLog.Store.ReconcileAtStartup | src/alb/outbound/store.py:378-409 | wherever the pass dies, a log is untouched or ended with "dead" after its dead letter was written; a complete pass settles exactly the letters in doubt |
| Octets.NumberOfBigEndian | src/alb/adapters/websocket.py:142-154 | big-endian bytes give back the number, in every width |
| Frames.MaskedTwice | src/alb/adapters/websocket.py:142-154 | masking twice with the same key is the identity (section 5.3 of RFC 6455) |
| Frames.XorBits | src/alb/adapters/websocket.py:142-154 | each bit of what masking writes is set exactly when the bits of payload and key differ |
| Frames.UnmaskedGivesPayload | src/alb/adapters/websocket.py:142-154 | a server that unmasks bit by bit, as section 5.3 of RFC 6455 says, gets the payload |
| Frames.ClientFrameRoundTrip | src/alb/adapters/websocket.py:142-154 | a server that follows the RFC, unmasking bit by bit, reads opcode and payload back from what was written, consumes exactly those bytes, and finds the shortest length form |
| Frames.ParsePrefix | src/alb/adapters/websocket.py:181-211 | more bytes never change what a decided prefix means |
| Frames.FrameMeans | src/alb/adapters/websocket.py:83-127 | one well-formed server frame contributes its event and nothing else to what a stream means |
| Frames.ConformingServerIsHeard | src/alb/adapters/websocket.py:83-127 | every message a conforming server sends, fragmented and with control frames in between, is heard whole and in order (section 5.4 of RFC 6455) |
| WebSocketClient.WebSocket.Handshake | src/alb/adapters/websocket.py:42-75 | reading stops at the first blank line within the bound, and the stream begins with the byte after it; if all arrives and the line is within the bound, it succeeds exactly when the head is accepted |
| WebSocketClient.WebSocket.Fill | src/alb/adapters/websocket.py:156-179 | no byte is lost at a timeout, none is taken beyond the count, and the buffer stays bounded |
| WebSocketClient.WebSocket.ReadFrame | src/alb/adapters/websocket.py:181-211 | the frame, refusal or wait is the one the bytes ahead mean, however they were split, and an interrupted call leaves them all |
| WebSocketClient.WebSocket.TakeData | src/alb/adapters/websocket.py:108-127 | fragments are joined, completed or refused as the pure decoder does, within the bounds on their number and size |
| WebSocketClient.WebSocket.Recv | src/alb/adapters/websocket.py:83-127 | over all splits, timeouts and broken sends the events returned are those of the stream, in order; a ping is answered with its bytes before it is returned, and one whose answer was not sent is consumed, with at most a part of the answer written and the stream as readable as before; the state stays bounded |
| WebSocketClient.WebSocket.NothingLostIff | src/alb/adapters/websocket.py:101-103 | what was returned is all that was taken exactly when the sending of every answer to a ping succeeded, and pings are all that can be missing |
| WebSocketClient.WebSocket.Send | src/alb/adapters/websocket.py:142-154 | a frame that fits goes out whole, or a first part of it with an error; a larger one not at all |
| WebSocketClient.ReadsUpToTear | src/alb/adapters/websocket.py:142-154 | as long as no frame was left in part, a server reads every frame that left whole, in order, and whatever follows as if it came first |
| WebSocketClient.WebSocket.ServerReadsBackIff | src/alb/adapters/websocket.py:142-154 | of all that ever left the socket after the handshake, a server that follows the RFC reads just the frames that left whole, with nothing over, if and only if no send left a proper part of a frame |
| WebSocketClient.PongIsLate | src/alb/adapters/websocket.py:101-103 | a run of the operations: the answer to a ping is late after one byte, the ping is taken and not returned, the text behind it is heard, and a frame sent whole after it is not read back |
| LetterFormat.OrderedIsSame | src/alb/letter/store.py:72-77 | the envelope's order changes no field |
| LetterFormat.FencesRoundTrip | src/alb/letter/store.py:229-234 | splitting at the fences and joining again is the identity |
| LetterFormat.SplitOfJoin | src/alb/poller/loop.py:64-85 | joining lines and splitting again gives the lines |
| LetterFormat.ParseLetter | src/alb/letter/store.py:229-241 | the parsing loop computes the specification, with the later of two equal keys |
| LetterFormat.PrintParse | src/alb/letter/store.py:104-114 | print then parse gives the same fields exactly when no value ends in three dashes, and then the body less trailing newlines; a letter that does not read back is not refused |
| LetterFormat.FieldReads | src/alb/letter/store.py:229-241 | one field reads back exactly when no field printed above it ends in dashes, and otherwise the letter reads without it |
| LetterFormat.CrlfReadsTheSame | src/alb/letter/store.py:224-228 | a letter with CRLF line ends reads as the same letter |
| ThreadStamp.StampThread | src/alb/poller/loop.py:64-85 | the loop rewrites the first thread line and leaves a letter without one alone |
| ThreadStamp.StampSetsThread | src/alb/poller/loop.py:64-85 | a stamped letter reads exactly as the letter printed with that thread, whatever its fields and its body hold |
| RegistryEnvelope.ReadEnvelope | src/alb/registry.py:171-189 | the line loop computes the specification, refusals included |
| RegistryEnvelope.PrintedIsRead | src/alb/registry.py:171-189 | the registry reads the printed fields from every letter, whatever its body and however its values end |
| RegistryEnvelope.ParsersAgree | src/alb/registry.py:171-189 | both parsers read the same fields exactly when no value ends in three dashes |
| Decimal.ReadShow | src/alb/poller/loop.py:265-270 | a printed number reads back |
| Inscription.OriginOfPrinted | src/alb/letter/store.py:292-305 | a published letter records the update it was published for exactly when no field above its source_id ends in dashes, and otherwise no update |
| Inscription.DashesHideUpdate | src/alb/letter/store.py:104-114 | any field of the envelope in dashes, the sender say, is such a field |
| Inscription.OriginOfStamped | src/alb/poller/loop.py:64-85 | the same after the stamp, for the fields with the new thread; where the update reads back so does the thread, and a thread without dashes takes no update away |
| MailStore.GrownKeeps | src/alb/letter/store.py:127-152 | sweeps and letters from elsewhere leave every update with the letters published for it, and no other letter records an update |
| MailStore.Mailbox.Others | src/alb/letter/store.py:244-264 | sweeps, arrivals and ledger damage in any number change no letter, no count and no evidence |
| MailStore.Mailbox.Verify | src/alb/letter/store.py:140-152 | a candidate that moves away or cannot be read is not taken for a match; without a match, each candidate that shows the update has moved on or was unread |
| MailStore.Mailbox.FindByUpdate | src/alb/letter/store.py:127-152 | although letters move from inbox to processed during the search and tokens collide, the answer "no letter" means just that each letter of the update was unread or does not show it; a match is a letter of the update |
| MailStore.Mailbox.Publish | src/alb/letter/store.py:155-210 | the letter appears whole under a fresh name or not at all, and is a second one exactly if the update had one |
| MailStore.Mailbox.RecordDelivered | src/alb/letter/store.py:258-264 | after the append, the cut to the cap and the rename, the ledger holds the newest id last and before it the newest of the ids it had, every id it holds has a letter |
| MailStore.Mailbox.PublishOnce | src/alb/letter/store.py:267-307 | whatever was evicted or damaged, a call that does not fail leaves a letter and its id in the ledger, and publishes one exactly when the ledger did not name the update and each letter it has was unread or does not show it; wherever it fails, updates with two letters are just those counted as such |
| MailStore.UnreadTwice | src/alb/letter/store.py:145-148 | the steps of two calls, the second with a lost ledger and a read that fails, leave two letters that show one update |
| MailStore.IllegibleTwice | src/alb/letter/store.py:149-152 | two calls of PublishOnce in which nothing fails, with the ledger lost in between, for any fields with one of the envelope in dashes: the update has two letters |
| MailStore.Mailbox.StampLetter | src/alb/poller/loop.py:64-85 | only this letter changes; it still counts for its update, shows it if it did and the thread has no dashes, and carries the thread where it shows it |
| TelegramOffset.Telegram.Request | src/alb/adapters/telegram/api.py:188-243 | the platform forgets nothing at or above the offset, whether or not call and answer arrive; an answer is logged as it is returned |
| TelegramOffset.Telegram.Confirm | src/alb/adapters/telegram/api.py:259-291 | a mark reaches the disk only after the platform accepted an offset above it |
| TelegramOffset.Telegram.Restart | src/alb/adapters/telegram/api.py:155-171 | a new process starts from the mark on disk, or from none |
| Poller.MarkedIsOld | src/alb/adapters/telegram/api.py:245-257 | an update that arrives later lies above every mark |
| Poller.Bridge.CurrentThread | src/alb/poller/loop.py:46-61 | one open thread per correspondent: the one that stands, or the letter that cuts it or comes first; others untouched |
| Poller.Bridge.GiveThread | src/alb/poller/loop.py:287-299 | a new letter that shows its update carries the thread it replies into, or else its correspondent's open thread, or itself where it cuts |
| Poller.Bridge.PollOnce | src/alb/poller/loop.py:197-335 | one answer of the platform is taken in whole unless the call fails: each of its updates was turned away or has its letter, and lies at or below the mark; where the allowlist is not edited meanwhile, by that allowlist; the letters returned are exactly those written. Wherever a batch breaks off, every update up to the mark was turned away or has its letter; the counts add up, and the letters returned are new, each once. Where nothing fails it gets through |
| Poller.Bridge.Take | src/alb/poller/loop.py:269-299 | a permitted update has a letter unless the call fails, and a new letter carries its thread |
| Poller.Bridge.RunOnce | src/alb/bridge/run.py:406-483 | the heartbeat is written only after a whole answer was taken in, the platform accepted, and the disk holds the mark of everything handled; where nothing fails it is written |
| Poller.Bridge.Lifetime | src/alb/bridge/run.py:406-483 | over any number of cut-short cycles, restarts and damaged marks the invariant holds |
| Poller.Bridge.NothingIsLost | src/alb/poller/loop.py:316-328 | whatever the platform may have forgotten, or a mark covers, was turned away or has a letter of its own, exactly one unless a lookup once missed one of its letters |
| SlackCatchUp.Slack.Begin | src/alb/adapters/slack/api.py:472-479 | of what is owed when a window is fixed, just the messages of that history from before a window without a marker are given up; everything in the window is owed, whatever was given up before |
| SlackCatchUp.FirstWindowMovesOn | src/alb/adapters/slack/api.py:497-522 | the steps of two cycles: a first read fails on its second page, the clock moves on, and the marker passes a message the first page had shown and that has no letter |
| SlackCatchUp.AdvanceIsLargest | src/alb/adapters/slack/api.py:585-618 | only markers of conversations that are not pending move, each to the largest of its old place and the marks for it |
| Collections.Excess | src/alb/adapters/slack/api.py:620-634 | what is given up beyond the limit is the oldest, and no more than needed |
| SlackCatchUp.CapThreads | src/alb/adapters/slack/api.py:620-634 | the cap keeps the newest threads, and drops one only when full |
| SlackCatchUp.Slack.AllPages | src/alb/adapters/slack/api.py:481-524 | "done" means every message owed in the history is handed on or returned, and all that the platform answered from the place the read started at is too; a failure keeps the place reached before, a page cap the place reached now; what was owed is given up exactly if a first-run window began after it |
| SlackCatchUp.Slack.NextPage | src/alb/adapters/slack/api.py:497-522 | after each page what is still owed lies behind the cursor or among the messages read |
| SlackCatchUp.Slack.QueueHistory | src/alb/adapters/slack/api.py:448-459 | a batch is handed on whole |
| Collections.InOrder | src/alb/adapters/slack/api.py:455 | the rows sorted: the same elements, as often, in the order of their keys |
| SlackCatchUp.Slack.ReadConversation | src/alb/adapters/slack/api.py:392-423 | a conversation leaves pending only with everything owed in its history and threads handed on, unless the platform denies it; one that stays pending has a call behind it that failed or a history longer than a cycle reads; nothing else is read |
| SlackCatchUp.Slack.Reconnect | src/alb/adapters/slack/api.py:375-390 | what is pending is read again; then, after a connect that went through, every conversation, each to the end or as far as the platform let it be |
| SlackCatchUp.Slack.RequeueInflight | src/alb/adapters/slack/api.py:189-204 | a batch whose cycle did not confirm is queued again, each message once and in its order |
| SlackCatchUp.Slack.Fetch | src/alb/adapters/slack/api.py:72-106 | wherever it fails, messages read are queued, in flight, settled or still owed; on an open connection what was pending has been read as far as the platform let it be, and on a new one every conversation; it returns nothing only where no call raised and the socket was heard, and where nothing fails it gets through |
| SlackCatchUp.Slack.Listen | src/alb/adapters/slack/api.py:84-93 | everything that comes live is returned if it is mail and settled if not, and an error held back is raised unless something is returned |
| SlackCatchUp.Slack.Ack | src/alb/adapters/slack/api.py:108-114 | acking settles one returned message, stages it, and moves exactly its own envelopes to those to be answered |
| SlackCatchUp.Slack.NextMarkers | src/alb/adapters/slack/api.py:585-634 | every mark that was held, acked or dropped, in a conversation that is not pending, is reached by its markers, unless its thread lost its marker to the cap; the marks kept are exactly those of pending conversations; a marker that moves stands at one of these marks |
| SlackCatchUp.Slack.SendEnvelopeAcks | src/alb/adapters/slack/api.py:645-657 | wherever the sending breaks off, only envelopes of settled messages were answered |
| SlackCatchUp.Slack.Remember | src/alb/adapters/slack/api.py:345-361 | mail is queued and not settled, anything else is settled and not queued |
| SlackCatchUp.Slack.Confirm | src/alb/adapters/slack/api.py:116-126 | every mark held, acked or dropped is applied where its conversation is not pending and held where it is, unless the call fails, and then nothing changes; no marker of a pending conversation moves; a marker moves forward, to a settled message, and only when everything handed on is settled; after a write that failed the disk is as before and a new process can go on from it |
| SlackCatchUp.Slack.Cycle | src/alb/adapters/slack/api.py:72-126 | what a fetch read on the connection stays read; where nothing fails the cycle ends with everything handed on settled, nothing queued or in flight, and the markers on disk |
| SlackCatchUp.Slack.Resume | src/alb/adapters/slack/api.py:557-583 | a new process, knowing only the markers on disk, still owes what they have not reached, and gives up just what neither they nor the allowlist track |
| SlackCatchUp.Slack.NothingSkipped | src/alb/adapters/slack/api.py:585-618 | a message of any window that its marker has reached was acked or dropped, or given up for an event since it was last in a window: a denial of its history, the cap on its thread, a restart that did not track it, or a first-run window that began after it; an envelope is answered only for a message acked or dropped |
| SlackCatchUp.Lifetime | src/alb/adapters/slack/api.py:72-126 | the same over every run of cycles, failed writes and restarts |
| DiscordCatchUp.PageSplits | src/alb/adapters/discord/api.py:258-284 | a page of history leaves only messages above it |
| DiscordCatchUp.Discord.TurnPage | src/alb/adapters/discord/api.py:258-284 | after each page everything up to its last id is handed on and the run stands there |
| DiscordCatchUp.Discord.LookUp | src/alb/adapters/discord/api.py:238-253 | a channel is read only once its record is known and it is not denied; it is not asked about while the platform has named a time; it is given up only on the platform's refusal |
| DiscordCatchUp.Discord.Begin | src/alb/adapters/discord/api.py:286-296 | when a run of pages begins, what is owed and unread is given up exactly if its channel is in the allowlist with neither marker nor run, and it lies before the first-run window; only what a process before left can be |
| DiscordCatchUp.Discord.ReadHistory | src/alb/adapters/discord/api.py:238-284 | a channel leaves pending only when everything the platform held after its stored place, or after the start of its window, is handed on, or the channel is denied or is no thread; one that stays pending has a call behind it that failed or a history longer than a cycle reads; nothing of another channel is read |
| DiscordCatchUp.Discord.RetryUnresolved | src/alb/adapters/discord/api.py:887-914 | every floor is tried: its thread is read from the floor, or the platform says it is no thread, or it stays pending for a call that failed |
| DiscordCatchUp.Discord.CatchUp | src/alb/adapters/discord/api.py:180-203 | in full: every channel of the allowlist, every marked thread and every floor is read as above, unless a call fails for good; otherwise what is pending, mid-run or below a floor is |
| DiscordCatchUp.Discord.Fetch | src/alb/adapters/discord/api.py:92-137 | after a connect that went through everything is listed and read in full as far as the platform let it be, on an open connection what is pending is; what was read is queued, in flight, settled or owed wherever the call fails; it returns nothing only on a connection whose heartbeat is answered, and where nothing fails it gets through |
| DiscordCatchUp.Discord.Ingest | src/alb/adapters/discord/api.py:803-815 | mail is queued and not settled, anything else is settled and not queued |
| DiscordCatchUp.Discord.RequeueInflight | src/alb/adapters/discord/api.py:413-425 | a batch whose cycle did not confirm is queued again, each message once and in its order |
| DiscordCatchUp.Discord.RememberUnresolved | src/alb/adapters/discord/api.py:866-885 | the floor in memory lies below the message, an older floor is kept, and the thread is pending; it is on disk unless the write failed, and then the disk is as before; the message is owed unless the thread's marker or run was past it |
| DiscordCatchUp.Discord.AdoptThread | src/alb/adapters/discord/api.py:906-912 | a resolved floor becomes the thread's marker, and a marker already there is kept |
| DiscordCatchUp.Discord.LiveMessage | src/alb/adapters/discord/api.py:789-815 | a live message is queued if it is mail and settled if not, with a mark that names it a thread's exactly where it may be of one and the channel's record says so; or, where the record cannot be had, it lies above a floor on disk; unless the call fails |
| DiscordCatchUp.Discord.Listen | src/alb/adapters/discord/api.py:108-124 | everything that comes live is returned, settled or above a floor, and nothing is returned only where the heartbeat is answered |
| DiscordCatchUp.Discord.NextMarkers | src/alb/adapters/discord/api.py:987-1036 | every mark that was held, acked or dropped, in a channel that is not pending, is covered by the new markers, unless its thread lost its marker to the cap; the marks kept are exactly those of pending channels |
| DiscordCatchUp.Discord.Confirm | src/alb/adapters/discord/api.py:142-150 | every mark held, acked or dropped is applied where its channel is not pending and held where it is; a marker moves only in a channel that is not pending, forward, to a settled message, and only when everything handed on is settled; floors stay; after a write that failed the disk is as before and a new process can go on from it |
| DiscordCatchUp.Discord.Cycle | src/alb/adapters/discord/api.py:92-150 | what a fetch read stays read; where nothing fails the cycle ends with everything handed on settled, nothing queued or in flight, and the markers on disk |
| DiscordCatchUp.Discord.WriteMarkers | src/alb/adapters/discord/api.py:987-1036 | a confirm that gets through gives up, of what is owed, exactly what lost its thread's marker to the cap and, in a process that never listed its channels, what the new markers do not reach |
| DiscordCatchUp.Discord.AdvanceMarkers | src/alb/adapters/discord/api.py:987-1016 | every mark of a channel that is not pending is covered, the others are held |
| DiscordCatchUp.CapThreads | src/alb/adapters/discord/api.py:1018-1036 | the newest threads are kept, and one is lost only when full |
| DiscordCatchUp.Discord.Resume | src/alb/adapters/discord/api.py:1039-1079 | of what the dead process owed, the next one owes exactly what a marker or floor on disk lies below, or, in an allowlisted channel without a marker, what lies after the start of a first-run window |
| DiscordCatchUp.Discord.RestartReaches | src/alb/adapters/discord/api.py:286-296 | a message that no marker or floor had passed when it came, and whose floor was written, is reached after a restart exactly if a place is stored for its channel, or the channel is in the allowlist and the message is after the start of the window |
| DiscordCatchUp.Discord.NothingSkipped | src/alb/adapters/discord/api.py:987-1016 | within a process, a message read from a history or live, or put below a floor, or left by the process before, that is neither acked nor dropped: is on its way to the poller, or its channel is pending, or nothing was listed yet; the markers in memory and on disk have not passed it, unless they had when it came or its floor could not be written; or it was given up for an event since it was last read about |
| DiscordCatchUp.Lifetime | src/alb/adapters/discord/api.py:82-150 | the same over every run of cycles, failed writes and restarts; what was due stays due and what was settled stays settled |
| DiscordCatchUp.FirstWindowMovesOn | src/alb/adapters/discord/api.py:286-296 | a run: a message in a channel without a marker is read, the process dies, the next window begins later, and the marker passes the message |
| DiscordCatchUp.LiveMailIsPassed | src/alb/adapters/discord/api.py:803-815 | a run: live mail of a thread without marker or floor is queued, the process dies, and a later message gives the thread a marker past it |
| DiscordCatchUp.FloorIsLost | src/alb/adapters/discord/api.py:866-885 | the same for a message below a floor whose write failed |
| DiscordCatchUp.UnlistedIsPassed | src/alb/adapters/discord/api.py:101-112 | a run: a process whose first connect failed with the socket open confirms live mail, and the marker passes a message left by the process before |
| DiscordGateway.Gateway.Fetch | src/alb/adapters/discord/api.py:427-478 | the mutual recursion ends; one fetch makes at most three connections and Identifies; it is connected and reads to the end unless something it logged broke off, and then, on a connection it made, the platform said READY to an Identify, or READY or RESUMED to a Resume |
| DiscordGateway.Gateway.Until | src/alb/adapters/discord/api.py:561-591 | the wait ends welcomed by one of the kinds waited for, on a connection that answers what was sent on it, or breaks off for a reason that is true: the budget spent, a third control, silence, or a failed call |
| DiscordGateway.Gateway.ApplyControl | src/alb/adapters/discord/api.py:592-612 | a control that was heard is taken up once, its connection closed first, and a welcomed one takes its place unless something breaks off |
| DiscordGateway.SendsWhatWasAsked | src/alb/adapters/discord/api.py:592-612 | in every log the gateway can leave: the frame sent after a control was taken up is the Identify it asked for, or the Resume where a session is known |
| DiscordGateway.EndedIsNotResumed | src/alb/adapters/discord/api.py:976-985 | in every log: a session that the platform ended, and whose file is gone, is not resumed before there is a new one |
| DiscordGateway.EndedIsResumed | src/alb/adapters/discord/api.py:982-985 | a run: the file cannot be erased, the connection breaks, and the next fetch resumes the session that was ended |
| DiscordGateway.Gateway.GiveUp | src/alb/adapters/discord/api.py:588-591 | a connection that was welcomed is given up as silent only where READY was waited for and another connection was resumed meanwhile |
| DiscordGateway.ResumedIsGivenUp | src/alb/adapters/discord/api.py:561-612 | a run: a reconnect is asked for before READY, the session in memory is resumed, and the resumed connection is given up |
| DiscordGateway.Gateway.TakeIdentifySlot | src/alb/adapters/discord/api.py:504-517 | the slot lies at or after the end of the window of the Identify before |
| DiscordGateway.Run | src/alb/adapters/discord/api.py:494-517 | over all fetches the slots stay apart, and the log stays one that the protocol and the adapter's limits allow |
| DiscordGateway.SpacingKeptIff | src/alb/adapters/discord/api.py:494-517 | when a frame has just left: in every continuation all later frames keep its spacing, if and only if it left the moment its slot was taken |
| DiscordGateway.Gateway.Continue | src/alb/adapters/discord/api.py:442-517 | every sequence of further Identifies whose slots and frames follow one another is one the gateway makes |
| DiscordGateway.FramesTooClose | src/alb/adapters/discord/api.py:452-460 | such a continuation: the frames of two fetches leave one second apart under a spacing of five |
| GrantPublication.StepKeepsTexts | src/alb/grant/store.py:319-381 | every step of the create, of updates, cleanups and readers leaves only whole payloads readable |
| GrantPublication.AcceptsWholePayloads | src/alb/grant/store.py:271-316 | a reader accepts one whole payload written for the id, never an empty claim or part of a file |
| GrantPublication.NoBorrowedMarker | src/alb/grant/store.py:384-429 | in every interleaving, contents beside the marker are published, a reader accepts only what was, and a create that returned is published |
| GrantPublication.FailureLeavesNothing | src/alb/grant/store.py:414-429 | a create that fails at any step, and whose unlinks work, leaves neither file nor marker, whatever readers do meanwhile |
| GrantPublication.SettledOnceOver | src/alb/grant/store.py:101-125 | once the create is over, no update, failure or death changes whether the grant can be read |
| GrantPublication.LeftoverStaysShut | src/alb/grant/store.py:395-411 | over whole runs: a marker left without its file stays without one, and a published grant stays published |
| GrantPublication.CleanupEnds | src/alb/grant/store.py:414-429 | a create that fails, at any step, comes to the end of its cleanup |
| GrantPublication.CreatePublishes | src/alb/grant/store.py:319-381 | a create that nothing interrupts returns with its payload published |
| GrantPublication.UpdateReplaces | src/alb/grant/store.py:319-381 | an update of a published grant that nothing interrupts puts its payload in place of the one before |
| GrantPublication.PublishedIsAccepted | src/alb/grant/store.py:271-316 | a reader that nothing interrupts accepts exactly what stands beside the marker |
| StopProtocol.StepKeepsInv | src/alb/bridge/singleton.py:24-161 | every step of runs and askers keeps generations fresh, one run at a time, and requests asked for |
| StopProtocol.HoldsLock | src/alb/bridge/singleton.py:24-57 | one bridge at a time: until the run that holds the lock has ended, no other starts |
| StopProtocol.StandsDownOnlyWhenAsked | src/alb/cli.py:922-932 | a run stands down as requested only after a request for its own generation was written |
| StopProtocol.StoppedIsTrue | src/alb/cli.py:223-266 | "stopped" is printed only if the run that was asked recorded standing down, not before the asker began, and is gone |
| StopProtocol.RecordedIsTold | src/alb/cli.py:255-266 | and it is printed to every asker of the run that began no later than the run recorded standing down and concludes before another run starts, and to no other asker then |
| StopProtocol.AsksAndIsTold | src/alb/cli.py:223-266 | a run: a bridge is asked, stands down, and the asker is told |
| StopProtocol.NobodyWasThere | src/alb/cli.py:224-240 | "nothing to stop" is printed only while no run holds the lock, or while one holds it and has not written its generation yet |
| StopProtocol.LeftoversStopNobody | src/alb/bridge/singleton.py:100-117 | a request left over stops no run it was not written for |
| StopProtocol.NeverReadIsWrongIff | src/alb/cli.py:244-254 | over all runs, "it never read the request" is printed of a run that found it exactly if that run ended before removing it, could not remove it, or was asked again after removing one |
| StopProtocol.RecordRefutesNeverRead | src/alb/cli.py:646-662 | a health record of the generation proves the message wrong, in the last two cases; in the first there is never a record |
| StopProtocol.DiesBeforeClearing | src/alb/cli.py:922-923 | a run of the first case |
| StopProtocol.CannotClear | src/alb/bridge/singleton.py:120-124 | a run of the second, with a record |
| StopProtocol.AsksTooLate | src/alb/bridge/singleton.py:77-97 | a run of the third, with a record |
| Ids.LengthPrefixed | src/alb/initiate/ids.py:18-26 | the loop encodes the list, and fails exactly when a part does not fit its length field |
| Ids.RoundTrip | src/alb/initiate/ids.py:18-26 | the list reads back from its encoding |
| Ids.PrefixedIsInjective | src/alb/initiate/ids.py:18-26 | equal encodings mean equal lists, also of different lengths |
| Ids.OutboundInputsDiffer | src/alb/initiate/ids.py:37-43 | what is hashed for an outbound id tells grant, seat and intent apart |
| Ids.PayloadInputsDiffer | src/alb/initiate/ids.py:46-51 | what is hashed for a payload tells all its parts apart, with and without a photo |

## Left out

What the model takes as given:

- Data that was fsynced survives a crash; exclusive create, rename and unlink are atomic; a lock dies with its process. File modes, links, ownership and fsync errors are not modelled.
- JSON text: files are typed records. The digests, tokens, generations and clocks are parameters or fresh values, and truncated digests may collide.
- Stray files in a receipts directory carry no leading number with an event after it, and do not end in a dash and a terminal event: the code itself would read a copy such as `3-sending.json~` as an event, and count `x-refused.json` as a terminal receipt.
- Limits and time zone are fixed for a binding, and window keys are arbitrary strings.
- The agent moves letters from inbox to processed one way, does not delete or rewrite them, and does not move a letter between the read and the rename of its thread stamp, as the source assumes.
- Letters from elsewhere record no source id. Both letter directories can be listed.
- Updates of Telegram are issued in ascending order; a letter's fields are what an envelope carries: trimmed single lines, keys without a colon.
- A grant id is drawn at random by its one create and nobody acts on it before that create is over; the load of an update is one step, since what it reads does not change any more except from one whole payload to another.
- The bridge's lock file can be opened and a request is written whole, although askers share the name of its temporary file; the clock of health records does not run backwards.
- A markers file is read as it was written; the code takes one that cannot be read for an empty one.
- The allowlist names the same Slack conversations and Discord channels throughout a run. The Telegram poller's may be edited at any time; it names correspondents, and an update's correspondent stands for its chat.

What is not modelled:

- HTTP, TLS, sockets, base64 and hashing; the classifiers that turn a platform's response into an outcome, and the normalisers that decide what is mail: their results are inputs.
- The claim of replies that predate the outbox (`_send_legacy`): one exclusive create and one send.
- Photos: inspection, staging and the comparison with the recorded hash, which only add refusals before a send.
- The body of a reply on resume, the origin index and the allowlist at send time: refusals before the first receipt, covered by a process leaving.
- Notifiers, ring helpers, doctor, watchdog, setup, retrieval, registration and invite links.
- The size limit of the registry's reader and invalid UTF-8.
- `grant validate`, `effective` and `require_granted`: checks on one record without state.
- Heartbeats and rate-limit windows of the Discord gateway, and the age of its session file: each only makes a call fail, or a file count as absent.
- Malformed history rows: the platform's pages hold messages with numeric ids.

Stated with a condition:

- InitiatedProtocol.ConservationOfCharge: holds for runs without the step that RefusalIsWrongIff characterises, because the code refunds there.
- SlackCatchUp.Slack.NothingSkipped: the exceptions it names are events recorded for the message itself. Mail posted while the socket is down in the middle of a read of several cycles is in no window.
- DiscordCatchUp.Discord.NothingSkipped: speaks of what was read or put below a floor, by this process or one before. A connect that fails after its socket opened, and an Identify made while reading live, do not lead to a full catch-up, so mail sent meanwhile is not read at all. What a restart does to a message is stated by Resume and RestartReaches.
- DiscordGateway.SpacingKeptIff: a frame whose sending failed counts as sent when it failed.
- MailStore.Mailbox.PublishOnce: promises one letter for each update under the condition it states, because the code publishes again where a lookup misses the letter.
- WebSocketClient.WebSocket.Recv: after a refusal of the stream (a fault) nothing is promised of what lies behind it, as the code gives the connection up there.
