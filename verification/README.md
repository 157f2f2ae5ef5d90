# A verified model of kafkax

kafkax adapts a Kafka client that has no consumer groups: the application stores its own read
positions, a background task feeds each consumer, and a pool is closed while operations are in
flight. This project models those mechanisms in Dafny and proves what they are relied on for.

- `OffsetTable.dfy`, `Decimal.dfy`, `Text.dfy`, `OffsetFile.dfy`: the table of next-to-read offsets, the
  in-memory store, and the tab-separated text a file store reads and writes.
- `OddTopics.dfy`: what a commit does to that text when its topic is one the form cannot carry.
- `FileStore.dfy`: the file store over a file system in which every call may fail or be the last thing
  the process does, and which may lose power. Names a directory sync has not yet forced out may come
  back; files never synced may hold anything; a directory whose own name was never forced out may be
  gone.
- `StoreMoves.dfy`: either store seen through one key, and the few moves it can make.
- `ConcurrentStore.dfy`: any number of calls on one file store, one file-system call per step.
- `Lifecycle.dfy`: admission, counting and closing, one atomic or channel access per step, any number of
  threads; and the methods themselves, run with other threads between any two of their accesses.
- `Pipeline.dfy`: the consumer's background task, its bounded queue, its races with shutdown, and the
  consumer that waits on the queue while all of this goes on.
- `AtLeastOnce.dfy`: sessions, acknowledgements, crashes, power losses and reconnections over whole runs.
- `ErrorMap.dfy`, `Producer.dfy`: error classification, publishing and its counters, on top of `Lifecycle`.
- `Closing.dfy`: lifecycle, publishes and background tasks in one system, being closed.
- `BusId.dfy`: the `topic/partition/offset` text form.

Four results are about where the promises stop. The code is modelled as it is.

- The documentation says that a message dropped without `ack` is delivered again after reconnecting
  (`docs/API.md:65`, `src/at_least_once.rs:10`, `src/at_least_once.rs:195`). That holds exactly when the
  new session has something to start from: a value in the store, a configured start offset, or reading
  from the beginning. A consumer that starts from the latest offset before anything was committed loses
  the message: `RedeliveredExactlyWhenAnchored` gives the condition, `GivenUpAndSkipped` the run.
- `FileOffsetStore` accepts any topic, but its text form carries one unchanged exactly when the topic is
  non-empty, has no tab or newline, and starts with neither whitespace nor `#`. All topic names Kafka
  itself allows are of this kind. For any other topic a commit reports success and cannot be read back
  (`ReadBackExactlyWhenClean`), and it can take acknowledged offsets of other topics with it. One
  accepted commit on the empty topic makes the file unreadable for every key from then on
  (`EmptyTopicLosesAll`, `UnreadableForever`). A topic with a tab in it can overwrite another topic's
  offset (`TabTopicOverwrites`): set it back, or carry it forward past records that were never
  delivered (`TabTopicSkipsRecord`). Whether the file can still be read depends on the topic alone,
  and `StillReadable` says for which; `SparedExactly` says exactly when a given key keeps its value.
- The atomic write forces out the file and the names in its directory, but not the name of a directory
  that `commit` itself has made. A power loss may take that directory, and with it commits that reported
  success (`FreshDirectoryLosesCommit`). `PowerLossKeepsExactly` gives the condition. `Durable` and
  `AcknowledgedStays` hold for keys that are spared, in runs whose power losses find them secure, as
  all do when the directory was there before the first commit (`KeptDirectorySecure`). For a session,
  what was confirmed is final unless the store forgets (`ConfirmedIsFinal`, `ForgetsExactly`); a store in
  memory forgets with the process.
- `publish_failed` is documented as the number of failed publishes (`src/connection.rs:26`). A publish that
  fails before the broker is asked, for a reason other than closing, is counted nowhere:
  `ClientTimeoutUncounted` is such a run, and `CountersAgree` shows that the counter is right exactly
  when no call failed in that way.

`dafny verify dfyconfig.toml` checks the project.

## Model

| member | source | states |
|---|---|---|
| OffsetTable.NextOffsetOf | src/offset.rs:242-249 | a commit asks for offset + 1; exactly the negative offsets and the largest one are rejected |
| OffsetTable.StoredIsMaximum | src/offset.rs:70-108 | after any calls, each key holds the maximum of its initial value and everything accepted for it; keys nobody named stay absent; nothing decreases |
| OffsetTable.OrderIndependent | src/offset.rs:95-108 | reordering or repeating the same calls gives the same table |
| OffsetTable.MemoryOffsetStore.PutNext | src/offset.rs:70-80 | rejects negative values, otherwise sets the one key to the larger of its value and the one given |
| OffsetTable.MemoryOffsetStore.Commit | src/offset.rs:95-108 | raises the one key to offset + 1, or reports which limit the offset breaks and changes nothing |
| OffsetTable.MemoryOffsetStore.Committed | src/offset.rs:84-93 | returns the stored value, or nothing when the key is absent |
| Decimal.PrintThenParse | src/offset.rs:252-261 | a printed number reads back as itself if it is in range, and not at all otherwise |
| Decimal.PrintsDecimal | src/offset.rs:168-171 | a number is printed in decimal: each character is the digit for its place, most significant first, without a leading zero, after a minus sign if it is negative |
| Decimal.ParsesDecimal | src/offset.rs:252-261 | a text is read as the sum of its digits times their places, with an optional sign, iff that is in range |
| Text.TrimMeaning | src/offset.rs:145 | trimming cuts whitespace off both ends, all of it and nothing else |
| Text.WhitespaceIs | src/offset.rs:145 | the code points that count as whitespace |
| Text.LinesAreSplit | src/offset.rs:144 | lines are what line feeds separate, less a carriage return before one and an empty rest after the last |
| Text.LeMeaning | src/offset.rs:172 | of two texts the first place where they differ decides, and a text comes before its extensions |
| Text.LinesOfJoin | src/offset.rs:144-173 | joining texts and splitting the result gives the lines of each, in order; for texts without a line feed, the texts themselves |
| Text.SortedUnique | src/offset.rs:172 | a sorted list is determined by its contents |
| OffsetFile.LineMeaning | src/offset.rs:144-156 | a line is blank or a comment, or gives topic, partition and next offset from its first three pieces, or is reported with its number and the first thing wrong with it |
| OffsetFile.LoadText | src/offset.rs:138-159 | the line loop computes the table the specification assigns to the text |
| OffsetFile.LoadMeaning | src/offset.rs:144-157 | a text loads iff every line parses; the first bad line is the one reported; each key gets what the last line naming it says |
| OffsetFile.LoadedIsClean | src/offset.rs:144-157 | no text can yield a topic the form does not carry |
| OffsetFile.PrintedLineParses | src/offset.rs:144-171 | a printed entry with a clean topic parses to that entry |
| OffsetFile.PrintTable | src/offset.rs:168-173 | whatever order the map is walked in, the body is the one text of that table |
| OffsetFile.SavedForm | src/offset.rs:168-173 | the bytes written: one line for each entry, topic, partition and next offset with tabs between them, sorted, line feeds between the lines and none at the end |
| OffsetFile.BodyIsCanonical | src/offset.rs:168-173 | two listings of one table print to the same bytes |
| OffsetFile.SavedMeaning | src/offset.rs:138-173 | whatever the topics, a printed table loads iff the text of each entry loads on its own, and each key gets what the last line in sorting order that names it says |
| OffsetFile.RoundTrip | src/offset.rs:138-173 | a printed table loads as itself iff every topic is clean, for every i32 and i64 and every listing order |
| OffsetFile.SaveNormalises | src/offset.rs:138-194 | loading, saving and loading again gives the table first loaded |
| OddTopics.OwnReadsExactly | src/offset.rs:144-157 | whether an entry's text can be read back depends on its topic alone: every line but the last parses, and what trimming leaves of the last is not empty and starts a comment or has pieces that read as the fields they displace |
| OddTopics.StillReadable | src/offset.rs:138-173 | after a commit on any topic the file can be read iff that topic is readable in this sense |
| OddTopics.SparedExactly | src/offset.rs:138-173 | and a key then has the value it should have iff the new entry's text does not name it, or sorts before what the file says about it, or says the same; the committed key itself iff its topic is clean |
| OddTopics.RereadExtended | src/offset.rs:138-173 | what every key reads as after one more entry of any topic has been written |
| OddTopics.TabTopicSpeaksFor | src/offset.rs:144-156 | a topic that ends in a tab and a numeral is read as an entry for another key, with its partition as the value |
| FileStore.FileOffsetStore.LoadMap | src/offset.rs:138-159 | returns what the file, or its absence, denotes, parse errors included, iff its file-system call works; otherwise that call's error |
| FileStore.FileOffsetStore.SaveMap | src/offset.rs:162-194 | reports success iff every file-system call works, and otherwise what the first that does not says; on success the synced new file is the target and nothing older can come back while the directory is there; on any error or crash the target is the old file or the complete new one; a missing directory is made, its own name not forced out |
| FileStore.FileOffsetStore.Committed | src/offset.rs:198-215 | answers what the file says for the key, or its parse error, iff its file-system call works |
| FileStore.FileOffsetStore.Commit | src/offset.rs:217-238 | rejected offsets are reported before anything is asked of the disk; with an accepted one it succeeds iff the file parses and every file-system call works, and otherwise gives the parse error or what the first failing call says; the ending is one `SaveMap` allows for the raised table |
| FileStore.CommitIsAtomic | src/offset.rs:113-114 | for any topic and however a commit ends, the file reads as exactly the old table or as what the new one's text reads as, and as the latter after success; for an accepted offset that is exactly the new table iff the topic is clean |
| FileStore.Durable | src/offset.rs:162-238 | over any run of commits, failures, crashes and power losses that spares a key and finds it secure, the file and anything a power loss can bring back reads, and its value for that key lies between the acknowledged and the attempted commits |
| FileStore.PowerLossKeepsExactly | src/offset.rs:163-192 | no power loss takes what was acknowledged for a key iff the directory is certain to be there or nothing was |
| FileStore.KeptDirectorySecure | src/offset.rs:185-192 | in a directory that was there from the start every power loss finds every key secure |
| FileStore.FreshDirectoryLosesCommit | src/offset.rs:163-192 | a first commit makes its directory and reports success, power is lost, and the file is gone |
| FileStore.CleanRunSpares | src/offset.rs:162-238 | a run whose topics are all clean spares every key |
| FileStore.AcknowledgedStays | src/offset.rs:217-238 | a commit that reported success is never lost afterwards in a run that spares its key and whose power losses find it secure, as runs with clean topics in a directory that was there do |
| FileStore.EmptyTopicLosesAll | src/offset.rs:217-238 | two commits that both report success, the second with an empty topic, after which the file cannot be read |
| FileStore.UnreadableForever | src/offset.rs:230-233 | from an unreadable file, in a directory that stays, no later commit succeeds, no read answers, and the file stays as it is |
| FileStore.TabTopicOverwrites | src/offset.rs:144-173 | a commit on a topic with a tab sets another topic's acknowledged offset to its own partition number when its line sorts later: back, as from 10 to 9 (`NineSortsAfterTen`), or forward, as from 1 to 2 (`TwoSortsAfterOne`) |
| FileStore.FileRefinesMemory | src/offset.rs:83-109 | for clean topics no sequence of `commit` and `committed` endings free of faults, with reopenings, tells the file store from the memory store, and the file always reads as the memory store's table |
| FileStore.ReadBackExactlyWhenClean | src/offset.rs:144-173 | after a commit that reported success, a read free of faults finds what the memory store would hold iff the topic is clean |
| ConcurrentStore.NextKeepsInv | src/offset.rs:203-237 | every step of every concurrent call, failing and crashing included, keeps the lock holder's work consistent with the file |
| ConcurrentStore.LandedOnce | src/offset.rs:203-237 | the writes that landed are writes that were made, each once; acknowledged writes are among them, and none takes effect before it was called |
| ConcurrentStore.Linearised | src/offset.rs:203-237 | for any topics the file is always the result of making those writes one at a time in that order, which for clean topics is the memory store's table; reads answer from a point within their call |
| ConcurrentStore.CallsLeftFall | src/offset.rs:203-237 | every file-system call of the lock's holder brings the end of its turn nearer |
| ConcurrentStore.SomeoneMoves | src/offset.rs:203-237 | the holder can always make its next call, and a waiting call can take a free lock |
| ConcurrentStore.TurnEnds | src/offset.rs:203-237 | a turn with working calls ends within seven of them with a write reported or a read answered, unless the file does not parse |
| ConcurrentStore.FaultsAreOpen | src/offset.rs:203-237 | calls may arrive, be dropped while queued, fail at every stage, and die with the process at any time |
| Lifecycle.StepKeepsInv | src/lifecycle.rs:59-103 | every access of every thread keeps the counting and notification invariant |
| Lifecycle.ExactCounting | src/lifecycle.rs:61-98 | `active` is exactly the threads between increment and decrement, and every decrement finds it positive |
| Lifecycle.CloseIsBarrier | src/lifecycle.rs:77-93 | once some close has succeeded no guard is live and none ever will be |
| Lifecycle.NoLostWakeup | src/lifecycle.rs:82-103 | a closer waiting while nothing is active has an unseen notification or one is still to be sent |
| Lifecycle.WaitLoopBounded | src/lifecycle.rs:82-90 | the wait loop goes round at most once per notification owed or unseen on entry, whatever arrives meanwhile |
| Lifecycle.MeasureFalls | src/lifecycle.rs:59-103 | after the flag is set every step of an existing thread lowers a measure |
| Lifecycle.CloserNotStuck | src/lifecycle.rs:82-103 | an unfinished closer can move, or an operation it waits for can |
| Lifecycle.ClosingEnds | src/lifecycle.rs:77-103 | after the flag is set existing threads take boundedly many steps and only rest with every closer returned and nothing active |
| Lifecycle.SharedLifecycle.StartOperation | src/lifecycle.rs:59-70 | under interference: success hands out a live guard, refusal means closed, and a pool closed beforehand always refuses; alone on an open pool it succeeds |
| Lifecycle.SharedLifecycle.DropOperation | src/lifecycle.rs:96-103 | releases the guard and raises the activity version |
| Lifecycle.SharedLifecycle.AwaitActivity | src/lifecycle.rs:84-92 | one round of the wait uses up a notification, or ends the closer by timeout in a state where one is still owed |
| Lifecycle.SharedLifecycle.Close | src/lifecycle.rs:77-93 | success means nothing is active and no guard is live; failure is a timeout, and means something was found active since and a notification was still owed when the deadline expired; a closed pool with nothing owed, and an idle pool left alone, close with success; the pool is closed and the signal sent either way; the loop terminates |
| Pipeline.KafkaConsumer.Recv | src/consumer.rs:145-150 | a call that saw the pool closed is refused and leaves the queue alone; one that did not, however long it waited, takes the next record of the log after those received, or the error the stream ended with, mapped, or reports the end only with the queue empty and the task gone |
| Pipeline.KafkaConsumer.RecvTimeout | src/consumer.rs:157-165 | the same under a deadline: `Closed` means exactly that the call saw the pool closed; `Timeout` means exactly that the deadline expired with the queue empty and the task alive, or that the stream ended with an error that maps to it |
| Pipeline.LineNextKeepsInv | src/consumer.rs:97-142 | every step of task, consumer, log and closer keeps the pipeline invariant |
| Pipeline.PrefixOfLog | src/consumer.rs:97-139 | received then queued records are a prefix of the log from the start, at most one record is in hand, the queue holds at most 64 items, an error is the last item |
| Pipeline.StartsWhereTold | src/consumer.rs:93-95 | reading starts at offset 0, at the offset given, or at the end the log had at some moment since, as the consumer was told |
| Pipeline.StreamIsOpen | src/consumer.rs:104-111 | whenever the stream is polled it may yield the next record, fail for good, end, or have nothing |
| Pipeline.SendWaitsWhenFull | src/lifecycle.rs:118-128 | the task waits for room only while 64 items are queued |
| Pipeline.ShutdownNotMissed | src/lifecycle.rs:106-128 | at most one item is queued after the signal, and a task parked while it stands has an unseen version and is woken |
| Pipeline.TaskStops | src/consumer.rs:104-139 | after the signal the task takes at most six more steps, blocked on a full queue or not, and can always take one until its guard is gone |
| Pipeline.PollTakesNext | src/consumer.rs:145-165 | on every well-kept pipeline a poll loses and duplicates nothing, and what it delivers is the next record of the log |
| AtLeastOnce.Connect | src/at_least_once.rs:45-73 | shape errors come first, before anything is read, then those of reading the store, then the pool's, each as it is; otherwise it succeeds, and starts from the stored value, else from the configured offset, else from the beginning if so configured, else from the latest |
| AtLeastOnce.AtLeastOnceConsumer.Recv | src/at_least_once.rs:114-133 | a terminated session refuses and a pending message comes again, both without touching the queue; otherwise exactly a delivered message, the next record of the log, becomes pending, and the stream's error is passed on |
| AtLeastOnce.AtLeastOnceConsumer.RecvTimeout | src/at_least_once.rs:140-156 | the same under a deadline, with the same two meanings of `Timeout` |
| AtLeastOnce.AtLeastOnceConsumer.Ack | src/at_least_once.rs:165-176 | pending is cleared iff the commit reported success; with the store in memory it does iff the offset is in range, with a file iff moreover the file parses and every call works, and the value stored is then just past the message or larger; errors in the original's order |
| AtLeastOnce.CommitTo | src/offset.rs:90-109 | a commit through either store: exactly when it succeeds, which error it gives otherwise, and what is stored; on any ending the table is raised or left alone, for clean topics in a file |
| StoreMoves.CommitIsMove | src/offset.rs:217-238 | seen through one key that is spared, every ending of every commit is one of the store's moves: one that reports success for the key lands, forced out, and none for another key lands |
| StoreMoves.FileRunMoves | src/offset.rs:162-238 | so does every run of commits, failures, crashes and power losses go through these moves, event by event |
| StoreMoves.UncleanNeverShows | src/offset.rs:144-157 | for a key whose topic the file cannot carry the store stays empty, whatever commits report |
| StoreMoves.MemoryMoves | src/offset.rs:83-109 | the store in memory makes the same moves: an accepted commit lands, a process crash forgets |
| AtLeastOnce.StepMovesStore | src/at_least_once.rs:165-176 | every step of the whole system moves the store by one of these moves |
| AtLeastOnce.NextKeepsInv | src/at_least_once.rs:45-199 | every step of the whole system keeps the invariant tying log, stream, queue, pending, store and acknowledgements |
| AtLeastOnce.NoRecordSkipped | src/at_least_once.rs:5-8 | in every reachable state each record between the base and the stored position was delivered and had `ack` called on it, whichever stored value a power loss leaves |
| AtLeastOnce.PendingIsFirstUncommitted | src/at_least_once.rs:60-63 | a pending message is the first record at or after the stored position, or its own commit landed unconfirmed |
| AtLeastOnce.HeldUntilAcknowledged | src/at_least_once.rs:114-190 | until it is acknowledged with success, given up, or the session is gone, every receive returns the same pending message, whatever the pool does |
| AtLeastOnce.DropEndsSession | src/at_least_once.rs:192-199 | after a message is given up nothing is delivered or acknowledged until the next connection |
| AtLeastOnce.NextRecordGetsThrough | src/at_least_once.rs:45-176 | from every reachable state with no commit in flight, the first record at or after where a new session starts can be delivered and acknowledged, and the store then holds the position just past it |
| AtLeastOnce.AcksAreOpen | src/at_least_once.rs:165-176 | an `ack` on a pending message may succeed, fail with or without its commit having landed, or be dropped while the commit runs on |
| AtLeastOnce.SettlingIsOpen | src/offset.rs:223-237 | a commit whose caller is gone may still land or not, whatever else has happened |
| AtLeastOnce.LeavingIsOpen | src/at_least_once.rs:192-199 | the process may end and the pool close at any time, and the caller may give up or leave |
| AtLeastOnce.LossesAreOpen | src/offset.rs:183-192 | power may be lost at any time, leaving any value it may leave |
| AtLeastOnce.ConfirmedIsFinal | src/at_least_once.rs:165-176 | after a successful `ack`, as long as the store does not forget, the stored position stays past the record through every crash and power loss, and no session holds it again |
| AtLeastOnce.ForgetsExactly | src/offset.rs:163-192 | a store can forget iff it is not a file in a directory that is certain to be there |
| AtLeastOnce.SafeStays | src/offset.rs:185-192 | such a store never forgets from then on |
| AtLeastOnce.ConfirmedForgotten | src/offset.rs:163-192 | for every other store, a run in which an `ack` reports success and nothing of it is left |
| AtLeastOnce.TabTopicSkipsRecord | src/offset.rs:144-173 | a run in which a commit on another topic of the same file moves the position past a record that was never delivered |
| AtLeastOnce.RedeliveredExactlyWhenAnchored | src/at_least_once.rs:192-199 | a message given up unacknowledged comes first again iff the store holds a value, a start offset is configured, or reading starts from the beginning; the configuration matters only while the store is empty |
| AtLeastOnce.GivenUpAndSkipped | src/at_least_once.rs:192-199 | the run in which, without such an anchor, a delivered record is passed by a commit although never acknowledged |
| ErrorMap.MapDriverError | src/error_map.rs:51-131 | which error each driver error maps to, retryable codes to `Transient`, and never `Closed` |
| Producer.PoolCounters.RecordIfClosed | src/producer.rs:190-195 | counts a cancellation iff the error is `Closed`, and passes the error on |
| Producer.PoolCounters.ApplyLimitedProduceOutcome | src/producer.rs:56-97 | success iff exactly one offset came back, and then with that offset and the record's partition; the error of every other outcome; and which counters each outcome moves |
| Producer.NextKeepsInv | src/producer.rs:108-155 | every step of every concurrent publish keeps each counter equal to what the calls have contributed, and each call past admission holds a live guard |
| Producer.CountersAgree | src/connection/runtime.rs:44-63 | with no call running, published counts the successes, cancelled the calls that returned `Closed`, timeouts those whose wait for the broker timed out, and failed these two and the refused ones, each once; failed counts all returned errors iff no call failed before the broker was asked for a reason other than closing |
| Producer.ClientTimeoutUncounted | src/producer.rs:115-123 | a run in which a publish returns a timeout and no counter moves |
| Producer.FailedCatchesUp | src/connection/runtime.rs:53-63 | at any moment failed lags the counters it sums by at most the calls between their two updates |
| Producer.FrozenAfterClose | src/producer.rs:124-145 | once close has succeeded, published and timeouts never change again |
| Producer.ClosedPoolRefuses | src/producer.rs:108-111 | a publish that begins when the pool is closed can only return `Closed` |
| Producer.ShapeChecked | src/producer.rs:112-115 | a malformed record is refused before the broker is asked, and a delivery names the record's partition |
| Producer.PublishSucceeds | src/producer.rs:108-155 | a run in which a publish returns the offset the broker gave, is counted once, and leaves nothing active |
| Producer.WaitsAreOpen | src/producer.rs:36-52 | the waits for a client and for the broker may end in every way, by closing once the signal has been sent, or be abandoned |
| Closing.NextKeepsInv | src/consumer.rs:97-139 | every step of lifecycle, publishes and background tasks together keeps each task that has not ended holding a live guard |
| Closing.RunningTaskIsCounted | src/consumer.rs:101 | while a background task runs something is active and no close has succeeded |
| Closing.WorkFalls | src/connection/runtime.rs:18-20 | after the shutdown signal every step of what is there lowers a measure, and nothing the broker or the consumers do raises it |
| Closing.NothingStuck | src/connection/runtime.rs:18-20 | until everything is over some call, task, operation or closer can move |
| Closing.ClosingDrains | src/connection/runtime.rs:18-20 | after the signal all of them take boundedly many steps, and rest only with every guard given back and every close that did not time out successful |
| BusId.EncodeThenParse | src/message.rs:20-37 | the text is the topic, the partition and the offset in that order with slashes between them; every location with a non-empty topic comes back, slashes included; an empty topic is rejected |
| BusId.EncodeInjective | src/message.rs:20-22 | different locations have different texts, empty topics included |
| BusId.ParseAcceptsExactly | src/message.rs:28-37 | exactly the texts made of a non-empty topic and two numerals in range are accepted |
| BusId.ParseThenEncode | src/message.rs:20-37 | re-encoding an accepted text keeps its meaning |

## Left out

- Weak memory: steps interleave sequentially consistently; the code uses acquire/release orderings.
- Counter widths: `active` is assumed to stay below 2^64 increments in flight, the publish counters and the channel versions below 2^64 updates.
- The broker and the driver: the stream is assumed to yield log records in increasing offset order from its start position, then possibly one error; the log only grows (no retention or compaction).
- Real time: a deadline may fire at any point where nothing is ready.
- The file system: renaming replaces the target in one step, `exists` is exact, the ancestors of the store's directory stand or fall with it, and file contents are characters, so invalid UTF-8 is one of the read errors.
- A store path whose extension is `tmp`, where `src/offset.rs:174` would write in place, and several `FileOffsetStore` instances on one path, whose locks do not exclude each other (`src/offset.rs:118`).
- The unbounded loop of the background task is a step relation, not a loop: it runs until shutdown, an error or an abort. A receive names the state others have brought about when its queue is polled.
- Keys that are not spared: the whole runs of `AtLeastOnce` follow one clean key of a file whose other commits spare it (`FileRunMoves`); `TabTopicSkipsRecord` shows what happens otherwise.
- `publish` is a step relation over its waits and counter updates; the record's wire form is not modelled.
- `put_next` in whole runs: a position set from outside may skip records, so `AtLeastOnce` moves the store by commits only (the initial value is arbitrary).
- Message contents: key, value, headers and timestamp are one opaque payload; topic and partition of a message are those of its session.
- Classification of foreign errors by their text, topic administration, health checks, TLS and SASL set-up, configuration loading, `partition_for_key` and the record builders.
