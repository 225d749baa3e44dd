# Onibi, modelled in Dafny

Onibi runs coding agents on one machine and lets their owner watch and steer them from a phone: a
daemon fans terminal output out to web clients, keeps a queue of approvals that agents wait for, brings
tmux sessions back after a restart, and sends messages through Telegram. This project models the parts of it that keep state
under concurrency or parse a stream, and proves what they promise.

Every part has the same shape. Where the program changes things in place, a class with the
program's fields and loops is proved to follow a function on values (`ensures Value() == …`). Where any
number of callers or sockets act at once, each locked section or SQL statement is one action of a state machine, and what is
promised is proved for every finite run of actions. The main results are these.

**Terminal output** (`Kitty*.dfy`, `Base64.dfy`, `Ring.dfy`, `Subscriber.dfy`, `Hub*.dfy`, `Teardown.dfy`).
The transcoder turns PNGs sent with the Kitty graphics protocol into inline images.

- A cut between two writes changes nothing, whatever is written next, *if and only if* what
  follows the last closed envelope is an open one of at most 8 MiB, or does not end inside an introducer
  (`CutIsSafeIffItJoins`). So however a stream is cut at such places, output and state are those of one write.
- No byte is lost or invented, wherever the input is cut: what came in is what went through, what stands behind images, and
  what is held.
- A PNG sent in any number of envelopes, tmux-wrapped or not, becomes one image of the whole. Which envelopes are such a PNG
  is told from the fields of their control text: f=100 and m=1, then m=1, then m=0, to name the usual one
  (`KittyFormats.ChunkedIsShown`); what the image sequence says can be read back from its bytes.
- What the hub puts out over any run is what the transcoder makes of all that was written to it while it was open
  (`HubStream.StreamIsWritten`), so the laws above hold from the terminal to the reader (`HubStream.ReaderSeesWritten`).
- A reader that subscribed from byte `k` and lost nothing has, with its queue and the unflushed bytes,
  exactly the stream from `k`, whatever happened in between (`HubReaders.ResumesFrom`).
- Every byte ever put in a reader's channel was received, is queued, or was lost; what was lost is or will be
  reported to the reader *if and only if* no frame that did not fit was sent while a marker waited at the head
  of its channel (`HubReaders.ByteLedger`).
- No subscriber's channel is closed twice or sent on after it was closed, under any interleaving, and once every
  thread is through nobody who unsubscribed, and after `Close` nobody at all, is left with an open one.

**Approvals** (`Approval.dfy`, `Delivery.dfy`, `Calls.dfy`, `ApprovalQueue.dfy`, `Replay.dfy`, `Sweep.dfy`, `Feed.dfy`). A row leaves
`pending` at most once, exactly one caller decides it, and everybody who comes back with a decision brings
the stored one. Once all calls are over, a waiter has heard exactly one decision on a channel closed exactly once *if and
only if* it was registered before a decision or an invalidation reached it, with nothing taking it off in between
(`Delivery.WaiterHears`), and what it heard is the stored decision unless it was invalidated. Which calls are let in, and what
a call with the queue to itself leaves and brings back, is given verdict by verdict (`Calls.WhoIsLetIn`, `Calls.LoneOutcome`).

**Sessions** (`Sessions.dfy`, `Restore.dfy`, `WebAttach.dfy`). Recovery states, the pass after a restart with the exact
state it leaves each row in, told from what tmux answers (`Restore.PassEndsRight`), and the single flight that attaches a web terminal.

**Smaller machines** (`Prompts.dfy`, `SendLimit.dfy`, `Events.dfy`, `Ranges.dfy`). The prompt queue is
a list, send slots keep their distance, the browser sees each numbered event once and in order, and redaction hides
exactly what was matched.

`dafny verify dfyconfig.toml` checks everything.

## Where the code says one thing and does another

- `internal/approval/queue.go:98-101` says a request's channel receives exactly one decision. The row is inserted
  (`:141-148`) before the waiter is registered (`:150-153`), so a decision in between reaches nobody
  (`Delivery.EarlyDecisionIsUnheard` is such a run, and its channel stays silent unless the waiter is invalidated later); and `DropWaiter` forgets waiters. `Delivery.WaiterHears` says exactly when
  the channel receives its decision, `Delivery.DeliveredMeansHeard` that `delivered` reports exactly that.
- `internal/pty/hub.go:314-319` tells a reader how much it lost. A frame that overruns the channel can push out the marker itself;
  the next marker then counts the marker's own length and not what it reported (`HubExamples.MarkerIsLost` is such a run,
  `HubReaders.EvictedIff` the exact condition). After a recovery the channel holds a marker and a ring that can be longer than its
  cap, so this takes no more than a reader that stays slow.
- `internal/telegram/api.go:21` spaces sends by a thirtieth of a second, rounded down to 33,333,333 ns. So up to
  thirty-one of them fit in one second (`SendLimit.AtMostThirtyOne`, `SendLimit.ThirtyOneHappen`), and some second holds that many
  iff some call finds the thirty before it close enough together, itself early enough and its chat not among them
  (`SendLimit.ThirtyOneIff`).
- `internal/pty/hub.go:314-323`: after a loss the ring is sent and then the frame. The ring already has what was written and not
  yet flushed, so the reader gets those bytes twice, when the frame is a flush (`HubExamples.FlushAfterLossRepeats`) and when
  it is a resize and the flush comes later (`HubExamples.ResizeAfterLossRepeats`). `HubRepeats.FlushRepeatsIff`: flushed
  bytes were put in the channel before iff a ring was put there after they were written and before they were flushed.
- `internal/store/prompts.go:152-157` clamps a position to the number of waiting prompts. Positions may have gaps, so then
  a move towards the back can end further in front (`Prompts.SparseMoveGoesForward` is such a run). Proved are the exact place for every
  queue, exactly when a move lands where it was asked to (`Prompts.LandsIff`), and that all moves of a queue of two or more do iff
  it is dense (`Prompts.AllLandIffDense`); a queue stops being dense exactly when a prompt other than the last is finished.
- `internal/daemon/tmux.go:181-223`: a session is healthy after the pass iff it was registered, unless it was healthy before and
  the reason for not trying it is longer than the 512 bytes the table takes (`Restore.HealthyIffRegistered`), as when
  two rows have one target with a long name (`Restore.LongDuplicateStaysHealthy`).

## Model

| member | source | states |
|---|---|---|
| `Bytes.Index` | internal/pty/transcode.go:106-116 | the first place where the pattern occurs, or -1 when there is none |
| `Base64.StdRoundTrip` | internal/pty/transcode.go:264-276 | decoding the padded encoding gives the bytes back, for all bytes |
| `Base64.RawRoundTrip` | internal/pty/transcode.go:264-276 | the same without padding, which is tried second |
| `Base64.Alphabet` | internal/pty/transcode.go:294-304 | the sixty-four letters in the order of their values |
| `Base64.TripleIsNumber` | internal/pty/transcode.go:294-304 | three bytes and their four letters are one 24-bit number |
| `Base64.Examples` | internal/pty/transcode.go:294-304 | the encoder gives the examples of RFC 4648, section 10 |
| `Base64.StdAccepts` | internal/pty/transcode.go:264-271 | padded decoding accepts exactly letters with at most two pads behind them, a multiple of four in all |
| `Base64.RawAccepts` | internal/pty/transcode.go:264-271 | unpadded decoding accepts exactly letters whose number is not one more than a multiple of four |
| `Kitty.NextIntroducer` | internal/pty/transcode.go:106-116 | the earlier of the first Kitty and the first tmux introducer |
| `Kitty.PassthroughEndIsFirst` | internal/pty/transcode.go:118-137 | a passthrough ends at the first escape and backslash with an even run of escapes in front, and does if there is one |
| `Kitty.Accumulate` | internal/pty/transcode.go:175-181 | the image so far and behind it the decoded payload, never over 32 MiB; refused only when not base64 or too long |
| `Kitty.DecimalReadsBack` | internal/pty/transcode.go:294-304 | the decimal number written reads back as itself, without a zero in front |
| `KittyStream.ScanStep` | internal/pty/transcode.go:56-103 | one turn of the loop: plain text, an open tail carried or let through, or a closed envelope and the rest |
| `KittyStream.ScanAfterText` | internal/pty/transcode.go:49-64 | text before the next introducer comes out first and changes nothing behind it |
| `KittyStream.CutIsSafeIffItJoins` | internal/pty/transcode.go:41-104 | two writes equal one write of both, for every continuation, iff the cut leaves at most 8 MiB open and is not inside an introducer |
| `KittyStream.ChunkingIndependence` | internal/pty/transcode.go:41-104 | any number of writes with safe cuts give the output, carry and pending image of one write |
| `KittyLedger.EnvelopeConserves` | internal/pty/transcode.go:168-213 | an envelope's bytes and the pending ones are re-emitted, stand behind an image or stay pending |
| `KittyLedger.WriteConserves` | internal/pty/transcode.go:41-104 | bytes in and held = bytes through + bytes behind images + bytes held after, in number and as multisets; carry at most 8 MiB, image data at most 32 MiB |
| `KittyLedger.AllWritesConserve` | internal/pty/transcode.go:41-104 | the same over any number of writes, safely cut or not |
| `KittyLedger.WithoutPNGNothingChanges` | internal/pty/transcode.go:190-192 | when no envelope asks for a PNG, output and carry are the input byte for byte |
| `KittyLedger.NeverPNGNothingChanges` | internal/pty/transcode.go:190-192 | the same over any number of writes, safely cut or not |
| `KittyTransfer.TmuxRoundTrip` | internal/pty/transcode.go:118-150 | wrapping any bytes and unwrapping gives them back, and the end is found, whatever follows |
| `KittyTransfer.ForeignGoesThrough` | internal/pty/transcode.go:70-101 | text and passthrough of other programs go out as they are, whatever the pending image, in front of any escape |
| `KittyTransfer.ContinuationCompletes` | internal/pty/transcode.go:172-189 | continuing envelopes complete the pending image, what stands between them first |
| `KittyTransfer.TransferBecomesOneImage` | internal/pty/transcode.go:168-213 | a PNG cut into pieces becomes one inline image of them all, after the text and foreign passthrough between them |
| `KittyTransfer.TransferIsOneEnvelope` | internal/pty/transcode.go:168-213 | the same output and state as one envelope with the whole image |
| `KittyTransfer.BrokenTransferComesBack` | internal/pty/transcode.go:172-182 | when an envelope does not continue the transfer, every held envelope and that one come back unchanged and in order, after the text between them |
| `KittyTransfer.TransferInChunks` | internal/pty/transcode.go:41-104 | the same when the stream itself is written in chunks with safe cuts; nothing is left behind |
| `KittyFormats.Reads` | internal/pty/transcode.go:215-262 | a control text starts, continues or prolongs a transfer exactly when its comma-separated fields say so, the last one about a key counting |
| `KittyFormats.OthersGoThrough` | internal/pty/transcode.go:190-192 | on an idle transcoder an envelope whose fields do not ask for a PNG goes through unchanged |
| `KittyFormats.ShownIff` | internal/pty/transcode.go:190-213 | on an idle transcoder an envelope with a whole PNG becomes an image iff its fields ask for it |
| `KittyFormats.BadFirstGoesThrough` | internal/pty/transcode.go:193-213 | a first envelope with a payload that is no base64, or too long, goes through unchanged and nothing is held |
| `KittyFormats.EmptyTransferComesBack` | internal/pty/transcode.go:284-292 | a transfer without data is no image: its envelopes come back |
| `KittyFormats.SentIsShown` | internal/pty/transcode.go:168-262 | a PNG in as many envelopes as say so, by their fields, becomes the one image of its pieces |
| `KittyFormats.SequenceShownIff` | internal/pty/transcode.go:236-250 | one envelope written to a fresh transcoder gives the image, or itself, and leaves nothing behind |
| `KittyFormats.InSoManyLetters` | internal/pty/transcode.go:236-250 | `f=100` and `a=T,f=100` are shown; with `o=z`, `f=24`, `a=q` or `t=f` behind, the envelope comes back |
| `KittyFormats.ChunkedIsShown` | internal/pty/transcode.go:168-213 | pieces sent with `f=100,m=1`, then `m=1`, then `m=0` become the one image of all of them |
| `KittyFormats.ImageReadsBack` | internal/pty/transcode.go:294-304 | the image sequence says the PNG's length in decimal and holds it in base64 |
| `KittyTranscoder.ReadControl` | internal/pty/transcode.go:223-234 | the loop reads the fields of the control text, later ones winning |
| `KittyTranscoder.FindPassthroughEnd` | internal/pty/transcode.go:123-137 | the scanning loop finds the end of the passthrough |
| `KittyTranscoder.UndoubleBytes` | internal/pty/transcode.go:139-149 | the copying loop undoes the doubling of escapes |
| `KittyTranscoder.UnwrapTmuxPassthrough` | internal/pty/transcode.go:118-150 | both together: the inner bytes and the index behind the terminator, or failure |
| `KittyTranscoder.Transcoder.FlushPendingOriginal` | internal/pty/transcode.go:278-282 | gives the held envelopes back and forgets them |
| `KittyTranscoder.Transcoder.FinishPending` | internal/pty/transcode.go:284-292 | the image, or the held envelopes when it has no data |
| `KittyTranscoder.Transcoder.TranscodeEnvelope` | internal/pty/transcode.go:168-213 | follows the envelope function, in all branches |
| `KittyTranscoder.Transcoder.TranscodeCompleteKitty` | internal/pty/transcode.go:152-166 | what a wrapped envelope is replaced by, and whether it is |
| `KittyTranscoder.Transcoder.Write` | internal/pty/transcode.go:41-104 | output and state are those of the stream function |
| `Ring.HoldsBlock` | internal/pty/ring.go:35-43 | a block copied in at the write position, wrapped or not, leaves the ring holding the newest bytes |
| `Ring.HoldsWhole` | internal/pty/ring.go:29-34 | a block as long as the ring leaves just its end |
| `Ring.UnrollIsLastN` | internal/pty/ring.go:46-59 | the snapshot is the last bytes ever written, as many as fit |
| `Ring.BulkRing.Write` | internal/pty/ring.go:23-44 | the in-place copy keeps the ring holding the newest bytes of the stream |
| `Ring.BulkRing.Snapshot` | internal/pty/ring.go:46-59 | the last bytes of the stream in order |
| `Ring.TailRing.Write` | internal/daemon/buffer.go:26-38 | the byte-at-a-time loop does the same |
| `Ring.TailRing.Snapshot` | internal/daemon/buffer.go:43-55 | the last bytes of the stream in order |
| `Ring.TailRing.Len` | internal/daemon/buffer.go:58-65 | how many bytes the snapshot has |
| `Ring.TailRing.Reset` | internal/daemon/buffer.go:68-73 | an empty stream from then on |
| `Ring.SameSnapshots` | internal/pty/ring.go:23-59 | two rings of one size, one of each kind, agree after any sequence of blocks |
| `Subscribers.MarkerReadsBack` | internal/pty/hub.go:317 | a marker's bytes say its count in decimal |
| `Subscribers.FreshRoom` | internal/pty/hub.go:74-86 | the byte bound and the number of frames a new channel has room for |
| `Subscribers.GivesUpLeast` | internal/pty/hub.go:328-375 | a data frame gives up the least number of oldest frames that leaves it room, or all, and the bytes are counted exactly |
| `Subscribers.SendTracked` | internal/pty/hub.go:328-375 | a data frame gives up some oldest frames, counts exactly their bytes, and leaves at most max(cap, frame) bytes queued |
| `Subscribers.SendUntracked` | internal/pty/hub.go:318-322 | a frame sent without tracking to a channel with room evicts nothing |
| `Subscribers.EnqueueMarks` | internal/pty/hub.go:314-323 | after a loss the queue is a marker with every byte not received, the ring and the frame |
| `Subscribers.Subscriber.DropOldestLocked` | internal/pty/hub.go:360-375 | takes the oldest frame off and counts it |
| `Subscribers.Subscriber.ClearQueuedLocked` | internal/pty/hub.go:377-388 | empties the channel and returns the bytes that were in it |
| `Subscribers.Subscriber.SendLocked` | internal/pty/hub.go:328-358 | both loops, by bytes and by frames, follow the function on values |
| `Subscribers.Subscriber.EnqueueLocked` | internal/pty/hub.go:310-326 | marker, ring and frame, or the frame alone |
| `HubSpec.ReplayIsExact` | internal/pty/hub.go:120-132 | inside the window exactly the stream from `k`, outside the whole ring and a flag |
| `HubSpec.ReplayIsSuffix` | internal/pty/hub.go:120-132 | either way the end of the stream |
| `HubSpec.RecoveryRepeatsFlushedBytes` | internal/pty/hub.go:310-326 | enqueueing a flush to a reader with a loss due gives marker, ring and data, and the ring already ends with that data |
| `HubObject.Hub.Write` | internal/pty/hub.go:192-216 | transcodes, appends to ring, sequence number and buffer, and flushes or sets the timer |
| `HubObject.Hub.BroadcastLocked` | internal/pty/hub.go:297-308 | every subscriber is enqueued to, with one snapshot at most |
| `HubObject.Hub.FlushLocked` | internal/pty/hub.go:280-295 | broadcasts what was coalesced |
| `HubObject.Hub.ReplaySinceLocked` | internal/pty/hub.go:120-132 | follows the replay function |
| `HubObject.Hub.SubscribeFrom` | internal/pty/hub.go:70-118 | flushes, replays and registers, or only replays when closed |
| `HubObject.Hub.Subscribe` | internal/pty/hub.go:134-190 | starts with the ring or with nothing |
| `HubObject.Hub.Forget` | internal/pty/hub.go:105-108 | unsubscribing removes that subscriber and nothing else |
| `HubObject.Hub.Close` | internal/pty/hub.go:247-266 | flushes, and leaves every subscriber with the flushed data and closed, in nobody's table |
| `HubRuns.NextKeepsInv` | internal/pty/hub.go:192-308 | every step keeps: each reader's history accounts for the stream and for every byte enqueued |
| `HubRuns.ExactResume` | internal/pty/hub.go:192-308 | in every run, what a reader without losses has and is due is the stream from the start recorded when it subscribed |
| `HubRuns.SubscribeFromBegins` | internal/pty/hub.go:88-97 | that start is `k` if the ring still has it, else the oldest byte kept |
| `HubRuns.UnflushedHasTimer` | internal/pty/hub.go:208-213 | in every run, unflushed bytes are fewer than 64 KiB and have a timer |
| `HubReaders.RunKeepsOrigin` | internal/pty/hub.go:70-118 | that start and the replay stay what they were, and the stream only grows |
| `HubReaders.ResumesFrom` | internal/pty/hub.go:70-118 | subscribing from `k` inside the window after any run: after any further run without losses, replay, frames taken, frames queued and unflushed bytes are the stream from `k` |
| `HubReaders.NextTurns` | internal/pty/hub.go:297-326 | what each step does to each reader: one frame sent to it, one taken by it, or nothing |
| `HubReaders.ByteLedger` | internal/pty/hub.go:310-388 | in every run, bytes enqueued = received + queued + told of in markers + told of in markers that were lost + still to be told; no markers were lost iff no frame pushed one out |
| `HubReaders.EvictedIff` | internal/pty/hub.go:328-375 | a reader's markers are lost exactly at the steps that overrun its channel with a marker at the head |
| `HubReaders.NoteAccounts` | internal/pty/hub.go:310-375 | sending one frame keeps the ledger and loses a report iff the frame pushes a marker out |
| `HubExamples.MarkerIsLost` | internal/pty/hub.go:310-375 | five resizes to a reader that takes nothing: the last marker does not count what the one before it reported |
| `HubRepeats.PutsAreQueued` | internal/pty/hub.go:297-326 | the stretches of the stream that a step is said to put in a channel are the frames it queues |
| `HubRepeats.FlushRepeatsIff` | internal/pty/hub.go:280-326 | in every run, a flushed frame overlaps an earlier one iff that was the ring, sent after some of the frame's bytes were written |
| `HubRepeats.AfterTheLoss` | internal/pty/hub.go:314-323 | in every run, behind the last marker come the ring and then the stream from its end or from before it, without holes |
| `HubRepeats.SnapshotThenStream` | internal/pty/hub.go:146-163 | subscribing with the ring after any run: without losses the first frame is the ring, the end of the stream at that time, and the data goes on from what was not flushed then |
| `HubExamples.FlushAfterLossRepeats` | internal/pty/hub.go:280-326 | a run from the start in which the flush after a loss brings a byte twice |
| `HubExamples.ResizeAfterLossRepeats` | internal/pty/hub.go:218-326 | a run in which a resize after a loss brings the ring, and the flush after it the byte again, with no loss due |
| `HubStream.StreamIsWritten` | internal/pty/hub.go:192-216 | in every run, stream and transcoder are output and state of the transcoder after all writes made before the hub was closed |
| `HubStream.SafelyCutStream` | internal/pty/hub.go:192-216 | with safe cuts the stream is that of one write of everything |
| `HubStream.StreamConserves` | internal/pty/hub.go:192-216 | however cut, bytes written = bytes passed into the stream + bytes behind images + bytes carried or held |
| `HubStream.PlainStream` | internal/pty/hub.go:192-216 | without a PNG, stream and carry are exactly the bytes written |
| `HubStream.ReaderSeesWritten` | internal/pty/hub.go:70-118 | then a reader that subscribed from `k` and lost nothing has, with what is queued, unflushed and carried, the bytes written from the `k`th on |
| `Teardown.NextKeepsInv` | internal/pty/hub.go:100-117 | each step of unsubscribing, broadcasting and closing keeps: one owner per channel to be closed |
| `Teardown.ClosedOnceAndNeverSentOn` | internal/pty/hub.go:172-188 | in every run each channel is closed at most once and nothing is sent on a closed one |
| `Teardown.NobodyForgotten` | internal/pty/hub.go:247-266 | when all threads are through, whoever unsubscribed has both channels closed once, the others have both open, and after `Close` there are no others |
| `Approval.NextKeepsInv` | internal/approval/queue.go:132-170 | every statement and locked section keeps rows, waiters, channels and callers consistent |
| `Approval.RunExtends` | internal/approval/queue.go:303-325 | whatever happens next, decided rows, their winners and all deadlines stay |
| `Approval.WaitersHearTheStoredDecision` | internal/approval/queue.go:423-442 | in every run a waiter is sent at most one decision, closed at most once after it, and it is the stored one |
| `Delivery.TakenIff` | internal/approval/queue.go:423-433 | in every run a waiter is taken for delivery, or by an invalidation, iff it was registered earlier and nothing took it off in between |
| `Delivery.WaiterHears` | internal/approval/queue.go:98-101 | all calls over, a channel has exactly one decision and one close iff its waiter was taken so, and is silent otherwise; the decision is the stored one iff it was no invalidation |
| `Delivery.DeliveredMeansHeard` | internal/approval/queue.go:337-356 | in every run the call that decided reports `delivered` iff its decision was sent to a waiter |
| `Delivery.UnheardForGood` | internal/approval/queue.go:423-442 | all calls over and the decision not delivered: the channel stays open and empty in every continuation without an invalidation |
| `Delivery.EarlyDecisionIsUnheard` | internal/approval/queue.go:132-153 | a decision between the insert and the registration: row decided, `delivered` false, channel silent then and in every continuation without an invalidation |
| `Approval.SendFindsRoom` | internal/approval/queue.go:434-440 | in every run the send meets an empty, open channel |
| `Approval.OneDecision` | internal/approval/queue.go:253-301 | in every run at most one call decides, and all decisions brought back are the stored one |
| `Approval.ExactlyOneDecided` | internal/approval/queue.go:303-356 | once all calls are over, each decided row was decided by exactly one call, with the stored decision |
| `Approval.RefusalMeansOther` | internal/approval/queue.go:284-301 | an idempotent call is refused only when something else was decided |
| `Approval.DeadlinesHold` | internal/approval/queue.go:269-277 | in every run, user verdicts came before their deadline; too late means expired at or after it |
| `Approval.DecidedForGood` | internal/approval/queue.go:305-325 | a decided row is the same row in every continuation |
| `Calls.WhoIsLetIn` | internal/approval/queue.go:253-267 | in every run a call ends invalid iff its verdict is unknown or it edits without an object, and unknown iff its id had no row when it began |
| `Calls.LoneOutcome` | internal/approval/queue.go:253-356 | the row, the waiter's channel and the answer after any call that has the queue to itself: in time, late, repeated or turned away |
| `Calls.InvalidationTold` | internal/approval/queue.go:453-458 | an invalidated waiter hears a cancellation with the reason given, and the row stays |
| `ApprovalQueue.Queue.InsertPending` | internal/approval/queue.go:141-148 | the insert is the protocol's step |
| `ApprovalQueue.Queue.RegisterWaiter` | internal/approval/queue.go:150-153 | so is the registration |
| `ApprovalQueue.Queue.Check` | internal/approval/queue.go:253-277 | the checks before the update, in the code's order |
| `ApprovalQueue.Queue.UpdatePending` | internal/approval/queue.go:303-335 | so is the guarded update |
| `ApprovalQueue.Queue.TakeWaiter` | internal/approval/queue.go:423-433 | so is taking the waiter |
| `ApprovalQueue.Queue.SendOn` | internal/approval/queue.go:438-439 | so is the send |
| `ApprovalQueue.Queue.CloseChannel` | internal/approval/queue.go:440-441 | so is the close |
| `ApprovalQueue.Queue.LookAgain` | internal/approval/queue.go:289-300 | so is the second look of an idempotent call |
| `ApprovalQueue.Queue.DropWaiterOf` | internal/approval/queue.go:442-451 | so is forgetting a waiter |
| `ApprovalQueue.Queue.DecideUndisturbed` | internal/approval/queue.go:253-356 | a whole call alone is a run of at most five actions of the protocol, with the row and the answer of `Calls.Outcome` |
| `Replay.OneDecidesTheRestReplay` | internal/approval/queue.go:284-301 | identical idempotent calls in time, nobody else deciding: all return the stored decision, exactly one without replaying it |
| `Sweep.Queue.ExpireOverdue` | internal/approval/queue.go:386-417 | against any other callers: no row overdue at the start is pending at the end, the rows its own calls won are expired with its reason, and the result counts them |
| `Sweep.Queue.SelectOverdue` | internal/approval/queue.go:388-404 | exactly the overdue pending rows, each once |
| `Sweep.Queue.Decide` | internal/approval/queue.go:406-414 | a decision call disturbed before each of its steps ends with a result |
| `Sweep.FinishedDecided` | internal/approval/queue.go:406-414 | an expiry call leaves its row decided, and won it, then expired with the call's words, iff it returns no error |
| `Feed.PublishGood` | internal/approval/queue.go:460-477 | every event becomes the newest in the channel; only a full channel gives its oldest up |
| `Feed.SeesTheStream` | internal/approval/queue.go:460-477 | in every run the channel holds the newest events, the received ones came before them in order, and all others were given up |
| `Sessions.TrimTwice` | internal/store/sessions.go:92-95 | a stored reason is trimmed once and for all |
| `Sessions.TrimIs` | internal/store/sessions.go:92-95 | trimming takes the spaces off both ends and nothing else |
| `Sessions.ChangesAre` | internal/store/sessions.go:231-244 | the nineteen changes of state there are; to the same state nothing happens, any other is an error |
| `Sessions.RowAfter` | internal/store/sessions.go:48-135 | what each statement does to each field of a row |
| `Sessions.RowStarted` | internal/store/sessions.go:48-67 | a new row is healthy, not ended, and over a pty unless it says otherwise |
| `Sessions.ChangedRow` | internal/store/sessions.go:88-135 | a change of state stores a readable record iff it is to healthy or the clock is past 1970 |
| `Sessions.ApplyKeepsReadable` | internal/store/sessions.go:203-229 | no statement makes a row that `scanSessions` refuses |
| `Sessions.RunKeepsReadable` | internal/store/sessions.go:246-254 | neither does any run of them |
| `Sessions.EndedForGood` | internal/store/sessions.go:76-86 | in every run an ended row keeps all but name and activity, and terminated stays terminated |
| `Sessions.BackOnlyThroughRecovering` | internal/store/sessions.go:231-244 | an orphaned or failed session that is up again was recovering in between |
| `Sessions.Store.SessionUpsertStart` | internal/store/sessions.go:48-67 | inserts healthy, or renews the details of a row not ended |
| `Sessions.Store.SessionMarkEnded` | internal/store/sessions.go:76-86 | ends a row once |
| `Sessions.Store.SessionTransitionRecovery` | internal/store/sessions.go:88-135 | changed, unchanged or refused, in the code's order, and the row after it |
| `Restore.HealthyIffRegistered` | internal/daemon/tmux.go:180-232 | a row ends healthy iff it is registered, or was healthy and its reason does not fit |
| `Restore.RowEndsRight` | internal/daemon/tmux.go:181-232 | the exact state, reason and time a row ends with, from tmux's answers, wherever it started |
| `Restore.PassEndsRight` | internal/daemon/tmux.go:155-240 | the same for every row after the whole pass |
| `Restore.ReachableIff` | internal/daemon/tmux.go:242-251 | a session may be registered iff tmux lists it, it is not one of the daemon's names that answers otherwise, and it can be read |
| `Restore.EntryNamed` | internal/daemon/tmux.go:267-285 | the registered entry's name, agent and target |
| `Restore.LongTargetStaysHealthy` | internal/daemon/tmux.go:181-186 | a duplicate row that stays healthy: its target's name makes the reason too long |
| `Restore.LongDuplicateStaysHealthy` | internal/daemon/tmux.go:155-240 | a whole pass over two such rows: the first is registered, the second is not and stays healthy |
| `Restore.OnlyTheRecord` | internal/daemon/tmux.go:253-265 | the pass changes recovery records only, never a terminated row's |
| `Restore.LostOnEvidence` | internal/daemon/tmux.go:186-214 | the pass orphans only on an answer from tmux, fails only unsupported or duplicate rows, and terminates none |
| `Restore.UnansweredReconnects` | internal/daemon/tmux.go:187-190 | when tmux cannot be asked, a row whose target is free waits to be reconnected |
| `Restore.RegisterOne` | internal/daemon/tmux.go:174-179 | one more registration keeps targets unshared and tracked |
| `Restore.RestoredIffHealthy` | internal/daemon/tmux.go:155-240 | the same for every row after the whole pass, with a condition on the rows before it |
| `Restore.FirstReachableIsRegistered` | internal/daemon/tmux.go:181-223 | a row is registered iff its session is reachable, nobody had its target before, and no earlier row with that target is reachable |
| `Restore.Daemon.ManagedTmuxOwnership` | internal/daemon/tmux.go:242-251 | verified, refused or failed |
| `Restore.Daemon.RestoreTmuxSession` | internal/daemon/tmux.go:267-294 | registers unless the capture fails |
| `Restore.Daemon.TransitionSessionRecovery` | internal/daemon/tmux.go:253-265 | a change of state that is refused or fails leaves the row |
| `Restore.Daemon.RestoreRow` | internal/daemon/tmux.go:181-231 | one row, in all branches: registered or not, the exact outcome, and whether it counts as stale |
| `Restore.Daemon.OwnedTargets` | internal/daemon/tmux.go:174-179 | the targets of registered tmux sessions |
| `Restore.Daemon.RestoreSessions` | internal/daemon/tmux.go:155-240 | the whole pass, whatever tmux answers: targets stay unshared, each new registration was live, verified and readable, every row is accounted for, with the first reachable one getting a target |
| `WebAttach.NextKeepsInv` | internal/daemon/tmux.go:334-393 | every locked section keeps the single flight |
| `WebAttach.SingleFlight` | internal/daemon/tmux.go:334-393 | in every run one caller at most spawns per session, installing overwrites nothing, every waiter's channel is closed or will be by a caller at work, none twice |
| `WebAttach.HostStays` | internal/daemon/tmux.go:452-459 | an installed host stays until its own clean-up or a close: stale clean-ups do nothing |
| `WebAttach.HostGoes` | internal/daemon/tmux.go:452-469 | a host goes when its own process ends or its session is closed, and who looks next spawns a new one |
| `WebAttach.WentIsSpent` | internal/daemon/tmux.go:452-469 | a host that is not installed any more is about to be installed by nobody |
| `WebAttach.NeverBack` | internal/daemon/tmux.go:378-391 | a host that went is never installed again |
| `WebAttach.SameHost` | internal/daemon/tmux.go:342-353 | callers who come back while nothing removes the session's host get the same one |
| `WebAttach.NoHostOnlyIf` | internal/daemon/tmux.go:345-388 | in every run a caller comes back without a host only if it gave up waiting or its own spawn failed |
| `WebAttach.Attachments.Look` | internal/daemon/tmux.go:335-358 | take, wait or spawn |
| `WebAttach.Attachments.Install` | internal/daemon/tmux.go:378-384 | drops the entry, installs a spawned host, wakes the waiters |
| `WebAttach.Attachments.ClearWebAttachHost` | internal/daemon/tmux.go:452-459 | removes the host only if it is the one installed |
| `WebAttach.Attachments.CloseWebAttachHost` | internal/daemon/tmux.go:461-469 | removes whatever is installed and returns it |
| `Prompts.RowAfter` | internal/store/prompts.go:121-229 | what each action does to a row: only a waiting one's text, state and place change |
| `Prompts.RowEnqueued` | internal/store/prompts.go:50-59 | a new row waits with the text it was given |
| `Prompts.FinishedForGood` | internal/store/prompts.go:121-229 | in every run a prompt that was sent, cancelled or failed is never changed again |
| `Prompts.RunTimesSent` | internal/store/prompts.go:191-207 | in every run a prompt has a time of sending iff it was sent |
| `Prompts.ApplyRefines` | internal/store/prompts.go:34-229 | every action on the rows is an action on the session's list |
| `Prompts.PositionsDistinct` | internal/store/prompts.go:42-43 | in every run positions of waiting prompts are distinct and at least 1 |
| `Prompts.MoveMovesInList` | internal/store/prompts.go:135-181 | a move takes the prompt out and puts it back at its place, gaps or not |
| `Prompts.MoveKeepsOthers` | internal/store/prompts.go:157-169 | and leaves the order of all others alone |
| `Prompts.MoveOnDense` | internal/store/prompts.go:135-181 | on a dense queue that place is the clamped index, and the queue stays dense |
| `Prompts.LandsIff` | internal/store/prompts.go:152-157 | a move lands on its clamped index iff the positions it passes are filled |
| `Prompts.AllLandIffDense` | internal/store/prompts.go:135-181 | every move of a queue of two or more lands there iff the queue is dense |
| `Prompts.SparseMoveGoesForward` | internal/store/prompts.go:152-157 | a run from the empty table: of five prompts two are sent, the others keep positions 3, 4, 5, and moving the middle one to the back puts it in front |
| `Prompts.EnqueueKeepsDense` | internal/store/prompts.go:34-60 | enqueueing keeps a queue dense |
| `Prompts.DenseWithoutLast` | internal/store/prompts.go:191-207 | finishing a prompt keeps it dense iff that prompt was the last |
| `Prompts.NextIsHead` | internal/store/prompts.go:104-119 | the next prompt is the head of the list, and only it |
| `Prompts.FirstInFirstOut` | internal/store/prompts.go:104-119 | in every run without moves that takes the next prompt each time: finished and waiting prompts are the enqueued ones in order |
| `Prompts.OneList` | internal/store/prompts.go:104-119 | the rows stand for one list only |
| `Prompts.PromptQueue.MaxPosition` | internal/store/prompts.go:47-49 | the largest position, 0 when nothing waits |
| `Prompts.PromptQueue.PromptEnqueue` | internal/store/prompts.go:34-60 | adds behind the largest position |
| `Prompts.PromptQueue.PromptNext` | internal/store/prompts.go:104-119 | a waiting prompt, if any waits, with no smaller position waiting, nor an older one at the same |
| `Prompts.PromptQueue.PromptUpdateText` | internal/store/prompts.go:121-133 | changes the text of a waiting prompt |
| `Prompts.PromptQueue.PromptMove` | internal/store/prompts.go:135-181 | clamps, shifts the others up or down, places |
| `Prompts.PromptQueue.PromptSetState` | internal/store/prompts.go:191-207 | finishes a waiting prompt |
| `Prompts.PromptQueue.PromptCancelQueued` | internal/store/prompts.go:209-218 | cancels all of one session, or of every session, and returns how many |
| `SendLimit.Client.WaitSendLimit` | internal/telegram/api.go:292-315 | the delay up to the slot, and the next free times |
| `SendLimit.Client.Sends` | internal/telegram/api.go:292-315 | a run of calls takes the slots of the function on call lists |
| `SendLimit.EachSlot` | internal/telegram/api.go:301-313 | each slot is the latest of now, the last slot + 33,333,333 ns and the chat's last slot + 1 s, for any clock |
| `SendLimit.SlotsApart` | internal/telegram/api.go:21-22 | n slots span (n-1) intervals at least, one chat's a second each |
| `SendLimit.AtMostThirtyOne` | internal/telegram/api.go:21-22 | any half-open second holds at most 31 slots, one per chat |
| `SendLimit.ThirtyOneHappen` | internal/telegram/api.go:21-22 | 31 calls at once to as many chats fill one |
| `SendLimit.WithinIffCrowds` | internal/telegram/api.go:301-313 | slots thirty calls apart are within a second iff the later call is early enough, to another chat than those between, and they were close together |
| `SendLimit.ThirtyOneIff` | internal/telegram/api.go:301-313 | some second holds more than thirty, and then 31, iff there are such calls |
| `Events.EventsFollow` | frontend/src/events.ts:147-193 | in every run each numbered event follows the checkpoint before it, and `lastSeq` is the last one |
| `Events.ExactlyOnceInOrder` | frontend/src/events.ts:61-193 | after `connect(url, k)`, without snapshots, the numbered events are k+1, …, `lastSeq`, each once, in order |
| `Events.ResumesWhereItAttached` | frontend/src/events.ts:117-193 | a socket announces `lastSeq` as of its opening, and while it is current, without snapshots, the events since are those right behind it, each once, in order |
| `Events.EventDelivered` | frontend/src/events.ts:180-192 | an event is told iff it is number 0 or the next one and safe, and then becomes the checkpoint; else a protocol error, and the socket is shut |
| `Events.RecoveryTaken` | frontend/src/events.ts:163-179 | a recovery is taken on iff it has a mode and a safe checkpoint, in a replay the client's own; else a protocol error |
| `Events.BadMessages` | frontend/src/events.ts:147-162 | what cannot be decoded shuts the socket, what is no text is refused |
| `Events.StaleDropped` | frontend/src/events.ts:148-161 | messages of another socket are dropped without a trace |
| `Events.AllArrive` | frontend/src/events.ts:147-193 | n events right behind the checkpoint are all told, in order, and the socket stays open |
| `Events.OpeningTold` | frontend/src/events.ts:132-138 | the opening is told once the attach is sent |
| `Events.CallsDo` | frontend/src/events.ts:61-99 | connecting and resuming bring a new socket, closing leaves none alive |
| `Events.DropIsReopened` | frontend/src/events.ts:104-145 | a dropped connection is told, and a timer opens a new one unless the client was stopped |
| `Events.OtherDrops` | frontend/src/events.ts:104-115 | other sockets that drop are no news; an error shuts the socket |
| `Events.OneSocketAtATime` | frontend/src/events.ts:61-98 | in every run at most one socket is open or opening, the current one |
| `Events.EventsWS.Connect` | frontend/src/events.ts:61-67 | closes, resets the checkpoint, opens |
| `Events.EventsWS.Close` | frontend/src/events.ts:69-75 | stops, forgets and closes the socket |
| `Events.EventsWS.Resume` | frontend/src/events.ts:77-87 | opens unless stopped or connected |
| `Events.EventsWS.OpenNow` | frontend/src/events.ts:89-99 | a new socket unless there is a live one |
| `Events.EventsWS.BeginOpen` | frontend/src/events.ts:117-132 | takes the checkpoint to attach with, or closes a stale socket |
| `Events.EventsWS.FinishOpen` | frontend/src/events.ts:132-138 | once the attach is sealed sends it, and reports the opening unless the socket went stale meanwhile |
| `Events.EventsWS.HandleClose` | frontend/src/events.ts:104-113 | reconnects when the current socket dropped |
| `Events.EventsWS.BeginMessage` | frontend/src/events.ts:147-158 | drops stale messages, rejects what is not text |
| `Events.EventsWS.FinishMessage` | frontend/src/events.ts:159-193 | drops messages gone stale in decoding |
| `Events.EventsWS.HandleDecoded` | frontend/src/events.ts:162-193 | recovery, rejection or dispatch |
| `Events.EventsWS.RejectFrame` | frontend/src/events.ts:195-200 | reports, and closes the current socket |
| `Ranges.MergeSecurityRanges` | internal/doctor/security.go:191-206 | strictly separated ranges covering exactly the same positions, non-empty if they were |
| `Ranges.NormalForm` | internal/doctor/security.go:175-206 | such ranges are determined by the positions they cover |
| `Ranges.SecurityRanges` | internal/doctor/security.go:175-189 | all patterns' matches, merged, still inside the line |
| `Ranges.MaskedRange` | internal/doctor/security.go:162-168 | a range adds the characters before it and one placeholder |
| `Ranges.RedactSecurityLine` | internal/doctor/security.go:155-173 | each uncovered character kept in order, one placeholder per covered run |
| `Ranges.SecuritySnippet` | internal/doctor/security.go:125-153 | the whole redacted line, or 240 characters of it around the match, never out of bounds |

## Left out

- Child processes, terminals, tmux itself, sockets, HTTP and the server's side of the event protocol: their answers are arbitrary inputs.
- SQLite: a table is a map and a statement or committed transaction is one step. Failing database calls are modelled in the restart pass only.
- Encryption of events and rows (`internal/e2e`, `internal/envelope`, `frontend/src/e2e.ts`): decoding a message may take time or fail, and sealing an attach may take time or never end, which is also what its failing comes to.
- Regular expressions: matches are arbitrary non-empty ranges inside the line.
- 64-bit overflow of sequence numbers and counters, and approvals decided before 1970.
- The loop that captures a restored session's output (`internal/daemon/tmux.go:526-569`): its changes of state are covered only as statements of the store.
- Real time: timers fire at any moment, and nothing is claimed about when.
- Text is one character to a byte, and trimming removes the ASCII spaces only, where Go trims all of Unicode's.
- Requesting approvals: normalisation, audit records, and the rest of a request's fields.
- Listeners of the event client that call it back from inside a dispatch.
- Invalid stored values that only another program could have written, except a recovery state that is not one of the six.
- `transcodeKittyGraphicsToIIP`, `PromptList`, `SessionsRecent` and the other read-only queries: they add nothing hard.
- `EnsureWebPTYHost` for sessions that are not in tmux: it returns the session's own host.
- HubRuns.ExactResume: takes each section under the hub's lock as one step; between the two selects at `internal/pty/hub.go:348-355` a reader that drains the channel can make the code lose that frame.
- HubRuns.ExactResume: for a subscriber of `Subscribe` the claim begins at the first unflushed byte, without the ring it starts with; how the two join is `HubRepeats.SnapshotThenStream`.
- Subscribers.Subscriber.SendLocked: the tag that says what kind of frame is queued is not sent by the code; it is there to state the properties.
- Approval.WaitersHearTheStoredDecision: a waiter told by `InvalidateWaiters` hears a decision that need not be the stored one; when it does is in `Delivery.WaiterHears`.
- Sweep.Queue.Decide: takes the protocol's steps, which `ApprovalQueue.Queue` implements method by method, and does not call those methods.
- WebAttach.SingleFlight: that the spawning caller goes on to finish is not claimed.
- Restore.Daemon.RestoreSessions: sessions registered or removed by others during the pass are not modelled; the pass runs at start-up.
- Ranges.SecuritySnippet: the position of the match is not adjusted for what redaction removed before it, as in the code.
