# Models and proofs for the Bot API server

A Dafny 4.11 project that models nine parts of the server and of the library beneath it, and proves
what they promise. `dafny verify dfyconfig.toml` checks everything.

The code that updates state is modelled by classes and methods whose fields and branches are those of
the original; each method is proved to compute what a pure state machine or specification function
says, and the theorems over all inputs, all runs and all interleavings are about that machine.

- **Webhook delivery** (`WebhookQueues`, `WebhookLog`, `WebhookFeed`, `WebhookSpec`, `WebhookRuns`,
  `WebhookSending`, `WebhookReplies`, `WebhookLoads`, `WebhookPass`, `WebhookBlocked`, `WebhookHeader`,
  `WebhookActor`). Updates are loaded from a persistent queue of events, kept in one FIFO per queue, sent
  when the front of a queue is due, retried with back-off, expired and dropped. The four structures of the
  scheduler stay consistent in every run; delivery is in order and every update is forgotten at most once,
  on a reply with a code from 200 to 299 or when no time is left for another attempt (`ReplyDecides`,
  `AnswersAreReplies`); retries, connections and loaded queues are bounded; no event is skipped, and the
  sending loop leaves nothing that could be sent. One branch does not meet this: when a request header does
  not fit, the queue was already taken out of the wake-up set, and the loop ends. `ScheduledIff` says
  exactly when that happens to a queue and `BlockedForever` that it never moves again; `DueLeftIff` says
  exactly which other queues are left unsent beside an idle connection, and `HeaderSticks` gives a run that
  does both.
- **TL serializers** (`TlPrimitives`, `TlGenerator`, `TlCodec`, `TlRoundTrip`, `TlNormal`, `TlFlags`,
  `TlWire`). The generator turns a combinator into the statements of a store and a fetch. Both are given a
  meaning over lists of 32-bit words; the fetch undoes the store for all types that the generator accepts,
  with flag words, optional fields, True bits, nested vectors and boxed types. Fetching normalizes;
  normalizing is idempotent and does not change the stored words. The round trip is exact: it fails if and
  only if a flag word is negative or fewer words follow than the vectors need, which the fetch checks
  against the input that is left; `NegativeFlags` and `EmptyElements` give an input for each.
  `NothingNeeded` says for which types nothing has to follow. `FetchedFields` and `StoredFlagWord` say field
  by field and bit by bit what is stored and fetched, and `TlWire` what the words look like.
- **Queue with sleep and wake-up** (`SpscRing`, `SleepingQueue`, `SleepingCalls`). A single-producer
  single-consumer ring with cached, wrapping 32-bit indices, and the eventfd protocol around it, under all
  interleavings; `SleepingCalls` says what each call has done when it returns.
- **Memory profiler** (`ProbeTable`, `ProbeLookups`, `ProbeRuns`, `ProbeTwoPositions`, `ProbeReturns`,
  `AllocAccounting`). An insert-only hash table shared by any number of threads, and the byte counters kept
  in it. Lookups of a hash do not always return the same position: one that is inserting the hash while the
  table becomes half full and one that falls back differ. `OneHashTwoPositions` gives the run,
  `LookupsDifferIff` the exact condition, and `StoredIsFound` what does hold: once a hash has a slot, later
  lookups find it there.
- **Duplicate filters** (`DuplicateFilter`). Several implementations of one bounded window of identifiers;
  the in-place array refines the sets.
- **Source splitter** (`DisjointSets`, `Packing`, `SplitSource`). Union-find, grouping, and greedy packing
  with its approximation guarantees.
- **File streaming** (`ByteRange`, `FileStream`, `FileStreamConnection`, `PathMessages`). Single byte ranges
  of a file that is still being downloaded: RFC 9110, sections 14.1.2, 14.4, 15.3.7 and 15.5.17, in the
  restricted form that the code accepts. Reads are of a local file of which only the part that was reported
  is known to be right. A HEAD request can receive body bytes when progress is reported before its headers
  are flushed; `HeadMaySendBody` gives the run and `HeadQuietIff` the exact condition.
- **Cache cleanup** (`WorkdirCleanup`, `StreamFiles`). Candidate files, the eviction loop, and the counts of
  holders, on their own and together with the streams that send them.
- **Stream quota** (`StreamQuota`). Admission and release of streams with derived counters.

Names that several modules need are in `Common`. In the webhook and streaming models some state is kept
only for the proofs (the place of a queue, the log of events, the bytes whose flush was confirmed); it is
ghost in the classes.

## Model

| member | source | states |
|---|---|---|
| `WebhookQueues.LoadKeeps` | server/WebhookActor.cpp:400-425 | loading an event keeps the update map, the FIFOs, the wake-up set and the connections consistent; a queue that was empty is woken at once |
| `WebhookQueues.HoldKeeps` | server/WebhookActor.cpp:541-553 | taking a queue out of the wake-up set for sending keeps them consistent |
| `WebhookQueues.AssignKeeps` | server/WebhookActor.cpp:573-574 | handing the front of a queue to an idle connection keeps them consistent |
| `WebhookQueues.ReleaseKeeps` | server/WebhookActor.cpp:664-682 | releasing a connection, closed or idle again, keeps them consistent |
| `WebhookQueues.DropKeeps` | server/WebhookActor.cpp:457-476 | dropping the front keeps them consistent; the next event is woken at its own stored time |
| `WebhookQueues.RequeueKeeps` | server/WebhookActor.cpp:516-519 | delaying the front after a failure keeps them consistent |
| `WebhookQueues.ConnectKeeps` | server/WebhookActor.cpp:228-237 | a new idle connection keeps them consistent |
| `WebhookQueues.AboutConnection` | server/WebhookActor.cpp:664-671 | the event on a connection is loaded and is the front of its queue, so the checks of drop_event hold |
| `WebhookQueues.LoadedIsQueued` | server/WebhookActor.cpp:400-425 | the loaded events are exactly the disjoint contents of the non-empty, ascending FIFOs |
| `WebhookQueues.OncePerQueue` | server/WebhookActor.cpp:541-574 | a queue is in the wake-up set once, with the time of its front, or exactly its front is in flight on one connection; only a held queue is in neither |
| `WebhookLog.BackoffKeeps` | server/WebhookActor.cpp:502-510 | the applied delay is within 0..3600, only the first retry can be immediate, and the stored delay stays in 1..120 and at least min(60, 2^(k-1)) after k plain failures |
| `WebhookLog.LoadMatches` | server/WebhookActor.cpp:400-425 | a load keeps the log valid and in agreement with the queues, the delays and the counts |
| `WebhookLog.SendMatches` | server/WebhookActor.cpp:541-574 | a send keeps the log valid: everything of its queue loaded earlier is forgotten, its retry is due, and it is not forgotten or accepted |
| `WebhookLog.RetryMatches` | server/WebhookActor.cpp:493-519 | a failure that is retried keeps the log valid and every retry bound |
| `WebhookLog.DoneMatches` | server/WebhookActor.cpp:457-491 | an update that leaves does so once, right after an accepted answer or one after which the retry would pass the expiry |
| `WebhookLog.SentInOrder` | server/WebhookActor.cpp:525-583 | in any log of a run an event is sent only after all events of its queue loaded before it were forgotten, not before its retry is due, and never again once accepted |
| `WebhookLog.SendsAscend` | server/WebhookActor.cpp:525-583 | two sends of one queue are in load order |
| `WebhookLog.ForgottenOnce` | server/WebhookActor.cpp:457-523 | an event is forgotten at most once, right after an answer that the log marks as accepted or whose next attempt would pass the expiry; AnswersAreReplies says which replies those are |
| `WebhookFeed.TakenIs` | td/tddb/td/db/TQueue.cpp:432-465 | a read returns the unexpired events from the offset in order, none left out, at most as many as asked for |
| `WebhookFeed.KeptIs` | td/tddb/td/db/TQueue.cpp:432-465 | a read removes nothing but expired events |
| `WebhookRuns.ReadFromOk` | server/WebhookActor.cpp:371-395 | the offset read from, after a refused one is replaced by the head, is never refused, and nothing before it is missed |
| `WebhookRuns.LoadOneKeeps` | server/WebhookActor.cpp:397-425 | an event that is read is never one that is loaded already, and loading it keeps the invariant |
| `WebhookRuns.LoadUpdatesKeeps` | server/WebhookActor.cpp:358-425 | loading keeps the invariant, within the limit on loaded queues |
| `WebhookRuns.SendAllKeeps` | server/WebhookActor.cpp:585-590 | the sending loop keeps the invariant |
| `WebhookRuns.AnsweredKeeps` | server/WebhookActor.cpp:480-523 | the effects of an answer keep the invariant |
| `WebhookRuns.HandleKeeps` | server/WebhookActor.cpp:592-689 | a response or a hang-up keeps the invariant, for idle connections too |
| `WebhookRuns.OpenKeeps` | server/WebhookActor.cpp:294-308 | the connection-creating loop keeps the invariant and the limit on connections and sockets |
| `WebhookRuns.UseSocketsKeeps` | server/WebhookActor.cpp:309-319 | turning ready sockets into connections keeps the invariant and the limit |
| `WebhookRuns.LoopIs` | server/WebhookActor.cpp:326-350 | the stages of one pass of the loop, each started in a state that satisfies the invariant |
| `WebhookRuns.ReceiveIs` | server/WebhookActor.cpp:592-689 | what receiving a reply makes of the state: the reply, then a pass of the loop unless the webhook is closed |
| `WebhookRuns.SchedulerConsistent` | server/WebhookActor.cpp:397-583 | in every reachable state the scheduler is consistent, every queue waits or has its front in flight unless the header of that front did not fit, whatever is in flight is the front of its queue, and no limit is exceeded |
| `WebhookRuns.LogsValid` | server/WebhookActor.cpp:358-583 | in every reachable state the log is valid and a loaded event is gone exactly when it was forgotten |
| `WebhookRuns.SendsAreBounded` | server/WebhookActor.cpp:493-550 | an update is sent at most max(1, 2 + expiry - time of its first failure) times |
| `WebhookRuns.DelaysAreBounded` | server/WebhookActor.cpp:502-517 | stored delays stay in 1..120 and grow at least like min(60, 2^(k-1)) without Retry-After |
| `WebhookRuns.NothingSkipped` | server/WebhookActor.cpp:358-425 | an available event is loaded, expired, or still ahead of the read offset |
| `WebhookRuns.ScheduledIff` | server/WebhookActor.cpp:541-571 | a queue taken out for sending stays scheduled if and only if the header of its front fits |
| `WebhookReplies.LoopPasses` | server/WebhookActor.cpp:326-350 | a pass of the loop changes of a loaded update only the time of its last send, keeps it the front of its queue if it was, and answers and forgets nothing |
| `WebhookReplies.HandledIs` | server/WebhookActor.cpp:592-671 | what the handler makes of a reply to an update in flight, with the codes, the limit on Retry-After and the back-off written out: accepted, given up, or put back into the wake-up set with its next time |
| `WebhookReplies.ReplyDecides` | server/WebhookActor.cpp:493-671 | after a reply and the pass that follows, the update is gone if and only if the reply is a response with a code from 200 to 299 or the next attempt would come after the expiry; otherwise it is the front of its queue with one more failure, due when Retry-After (at most 3600 seconds) or the back-off says |
| `WebhookReplies.AnswersAreReplies` | server/WebhookActor.cpp:480-671 | in every run the log contains exactly the answers that the replies gave: an answer is marked accepted exactly for a response with a code from 200 to 299, and an update is forgotten exactly on such a reply or on one that leaves no time for the next attempt |
| `WebhookReplies.ConnectionAfter` | server/WebhookActor.cpp:611-689 | a connection is used again exactly after a response that keeps it alive, with the address unchanged; after 410 for more than 23 hours the webhook is closed, and any other response forgets when 410 began |
| `WebhookLoads.LoadsFollowEvents` | server/WebhookActor.cpp:397-425 | in every run each load is of an event that was appended to the persistent queue, with its expiry, into the queue that it names; events that name none get queues from 2^60 up that only an event naming them can share |
| `WebhookLoads.SameNameInOrder` | server/WebhookActor.cpp:397-583 | in every run, of two events that name the same queue the later one is sent only when the earlier one, if it was loaded before, is forgotten |
| `WebhookPass.ReadsMost` | server/WebhookActor.cpp:363-395 | a read takes the first readable events: a thousand, or as many as fill two queues for each connection, or all |
| `WebhookPass.LoadsAll` | server/WebhookActor.cpp:358-425 | every event read is loaded and due at once, and no loaded update is changed |
| `WebhookPass.ConnectsEnough` | server/WebhookActor.cpp:261-324 | when nothing is in the way a pass leaves as many connections as are wanted: one for each queue up to the limit, at most one after ten seconds without success, one to verify the webhook |
| `WebhookPass.TriesAgain` | server/WebhookActor.cpp:299-323 | a pass that leaves fewer connections than wanted sets the timer to the next second or to when flood control allows another attempt |
| `WebhookPass.ReadsFrom` | server/WebhookActor.cpp:368-390 | a read goes on from the offset; only when that is more than a hundred thousand identifiers behind the head does it begin at the head |
| `WebhookSending.NothingLeftToSend` | server/WebhookActor.cpp:525-590 | after the sending loop nothing can be sent now, and the timer is set no later than the first wake-up, unless the loop ended because a header did not fit |
| `WebhookSending.HeaderEndsIff` | server/WebhookActor.cpp:541-590 | the loop ends that way if and only if some queue is due whose front does not fit and which has fewer queues to be woken before it than there are idle connections |
| `WebhookSending.LeftBehind` | server/WebhookActor.cpp:541-590 | what it leaves unsent then: exactly the queues to be woken after the first such queue, beside an idle connection, with no timer set by the loop |
| `WebhookSending.DueLeftIff` | server/WebhookActor.cpp:525-590 | a due queue is left behind beside an idle connection if and only if it comes after such a queue |
| `WebhookHeader.HeaderSticks` | server/WebhookActor.cpp:541-590 | a state is reachable in which one queue can never be sent again, while another one is due, a connection is idle and no timer is set |
| `WebhookBlocked.BlockedForever` | server/WebhookActor.cpp:541-571 | a queue whose front did not fit is never sent, retried or given up again, in any run |
| `WebhookActorModel.WebhookActor.constructor` | server/WebhookActor.cpp:691-727 | the state after start-up, verified already if restored from the database; it satisfies the invariant |
| `WebhookActorModel.WebhookActor.RelaxWakeupAt` | server/WebhookActor.cpp:78-83 | keeps the earlier of two wake-up times |
| `WebhookActorModel.WebhookActor.LoadUpdate` | server/WebhookActor.cpp:397-425 | stores one event; the checks on it hold |
| `WebhookActorModel.WebhookActor.LoadUpdates` | server/WebhookActor.cpp:358-425 | the loading loop does what the state machine says, and its checks hold |
| `WebhookActorModel.WebhookActor.DropEvent` | server/WebhookActor.cpp:457-478 | removes the front everywhere; its checks hold |
| `WebhookActorModel.WebhookActor.OnUpdateOk` | server/WebhookActor.cpp:480-491 | an accepted update is dropped and the success time noted |
| `WebhookActorModel.WebhookActor.OnUpdateError` | server/WebhookActor.cpp:493-523 | drops or delays the update as the back-off says |
| `WebhookActorModel.WebhookActor.SendUpdate` | server/WebhookActor.cpp:525-583 | one send, with the same result and effects as the state machine, and its checks hold |
| `WebhookActorModel.WebhookActor.SendUpdates` | server/WebhookActor.cpp:585-590 | the sending loop, which terminates |
| `WebhookActorModel.WebhookActor.Handle` | server/WebhookActor.cpp:592-682 | a response or a hang-up, with its checks |
| `WebhookActorModel.WebhookActor.OpenConnections` | server/WebhookActor.cpp:294-308 | the connection loop, which terminates |
| `WebhookActorModel.WebhookActor.UseReadySockets` | server/WebhookActor.cpp:309-319 | the loop over ready sockets, which terminates |
| `WebhookActorModel.WebhookActor.CreateNewConnections` | server/WebhookActor.cpp:261-324 | connections are opened up to the number needed |
| `WebhookActorModel.WebhookActor.Run` | server/WebhookActor.cpp:326-350 | one pass of the actor loop |
| `WebhookActorModel.WebhookActor.OnUpdate` | server/WebhookActor.cpp:352-356 | new updates: keeps the invariant and is the machine step |
| `WebhookActorModel.WebhookActor.OnTimeout` | server/WebhookActor.cpp:326-350 | a timeout: keeps the invariant and is the machine step |
| `WebhookActorModel.WebhookActor.OnSocketReady` | server/WebhookActor.cpp:248-259 | a proxy socket is ready or failed: keeps the invariant and is the machine step |
| `WebhookActorModel.WebhookActor.OnReply` | server/WebhookActor.cpp:592-689 | a reply: keeps the invariant and is the machine step |
| `TlPrimitives.BitOfWithBit` | td/td/generate/tl_writer_cpp.cpp:501-512 | or-ing a shifted bit into a word sets that bit and changes no other |
| `TlPrimitives.OrSame` | td/td/generate/tl_writer_cpp.cpp:501-512 | or-ing in a bit that a word already shows changes nothing |
| `TlPrimitives.StringRoundTrip` | td/tdutils/td/utils/tl_parsers.h:127-162 | a string stored in any of the three length forms is fetched back and the rest is untouched |
| `TlRoundTrip.TrueHasNoClass` | td/td/generate/tl_writer_cpp.cpp:150-153 | there is no usable class for a boxed True, so optional True fields must be bare |
| `TlGenerator.ClassesMatch` | td/td/generate/tl_writer_cpp.cpp:185-209 | whenever both generators produce a class for a type, the fetch class reads what the store class writes |
| `TlGenerator.NamesMatch` | td/td/generate/tl_writer_cpp.cpp:345-380 | the same for the classes without the constructor identifier |
| `TlGenerator.EmitStore` | td/td/generate/tl_writer_cpp.cpp:439-530 | the store body is emitted argument by argument, and refused only if a statement is or a variable is never stored; StoredFlagWord says what the statement of a flag word writes |
| `TlGenerator.EmitFetch` | td/td/generate/tl_writer_cpp.cpp:216-299 | the same for the fetch body |
| `TlRoundTrip.Forms` | td/td/generate/tl_writer_cpp.cpp:216-299 | the store and the fetch statement of one argument have corresponding forms |
| `TlRoundTrip.StoreThenFetch` | td/td/tl/tl_object_store.h:19-85 | running a fetch class on what its store class wrote consumes exactly that and returns the value normalized, or fails, exactly as flag words and what follows decide |
| `TlRoundTrip.ListThenFetch` | td/td/tl/tl_object_parse.h:119-137 | the same for the elements of a vector |
| `TlRoundTrip.SwitchThenFetch` | td/td/generate/tl_writer_cpp.cpp:682-699 | the switch over constructor identifiers finds the constructor that was stored |
| `TlRoundTrip.BodyThenFetch` | td/td/generate/tl_writer_cpp.cpp:439-530 | the same for the statements of an object from any argument on, with the variables of both sides in agreement |
| `TlRoundTrip.RoundTrip` | td/td/generate/tl_writer_cpp.cpp:185-299 | for every accepted type and every value that can be stored the fetch undoes the store up to normalization; it fails exactly when a negative flag word was stored or fewer words follow than the vectors need; FetchedFields and SetStaysSet say what that means for each field |
| `TlNormal.NormNorm` | td/td/generate/tl_writer_cpp.cpp:216-299 | normalization is idempotent |
| `TlNormal.StoreNorm` | td/td/generate/tl_writer_cpp.cpp:439-530 | the normalized value is stored as the same words |
| `TlNormal.NormalRoundTrip` | td/td/generate/tl_writer_cpp.cpp:185-299 | a normalized value comes back as it is if and only if its flag words are non-negative and enough words follow |
| `TlNormal.FuelFor` | td/td/generate/tl_writer_cpp.cpp:179-183 | every value is nested only finitely deep, so the bound on nesting excludes none |
| `TlNormal.VectorReadIff` | td/td/tl/tl_object_parse.h:119-137 | a vector is read back if and only if its elements are and it has at most four elements for every word after its length |
| `TlNormal.NothingNeeded` | td/td/tl/tl_object_parse.h:126-127 | where no vector has elements that may take no words, nothing has to follow |
| `TlNormal.WordsEnough` | td/td/generate/tl_writer_cpp.cpp:185-299 | for such types the fetch undoes the store of every value without negative flag words, whatever follows |
| `TlNormal.NegativeFlags` | td/td/generate/tl_writer_cpp.cpp:216-299 | an object with one negative flag word is stored and cannot be read back, whatever follows |
| `TlNormal.EmptyElements` | td/td/tl/tl_object_parse.h:126-127 | a vector of one empty object is stored but cannot be read back |
| `TlFlags.OwnBits` | td/td/generate/tl_writer_cpp.cpp:501-512 | a bit of a flag word is set if and only if it was set in the field or some True field on that bit of the variable is true |
| `TlFlags.StoredFlagWord` | td/td/generate/tl_writer_cpp.cpp:496-530 | the word written for a # argument that is there has exactly the bits of the field and of the True fields that are set, for every bit, and it is what a fetch returns for the argument |
| `TlFlags.FetchedFields` | td/td/generate/tl_writer_cpp.cpp:216-299 | whenever the fetch of a stored object succeeds: a True field is true if and only if the bit is set in the # field fetched, a field whose bit is not set has its initial value, a # field has the bits of all True fields, and any other field is that of the stored object normalized |
| `TlFlags.SetStaysSet` | td/td/generate/tl_writer_cpp.cpp:501-512 | a True field that was set is fetched as set whenever the # argument of its variable is there |
| `TlWire.BitIs` | td/td/generate/tl_writer_cpp.cpp:461-480 | bit i of a word is the one of value 2^i |
| `TlWire.NegativeIs` | td/td/generate/tl_writer_cpp.cpp:280-288 | a flag word that no fetch accepts is one with bit 31 set |
| `TlWire.StringLayout` | td/tdutils/td/utils/tl_storers.h:52-88 | the bytes of a stored string: the length in one, four or eight bytes by its size, the string, and zeros up to a whole word |
| `TlWire.BoolWords` | td/td/tl/tl_object_store.h:39-48 | a Bool is stored as one of the two identifiers of its constructors |
| `TlWire.ObjectWords` | td/td/tl/tl_object_store.h:19-37 | an object is stored as the identifier of its own constructor, unless the type is written bare, and its body |
| `TlWire.VectorWords` | td/td/tl/tl_object_store.h:66-76 | a vector is stored as its identifier, unless it is written bare, its length and its elements |
| `TlWire.AbsentIsZero` | td/td/generate/tl_writer_cpp.cpp:701-734 | an absent field is zero, false, empty or null |
| `TlWire.ObjectReads` | td/td/tl/tl_object_parse.h:21-35 | an object is fetched only where the identifier of its constructor, which is then a supported one of its type, comes first, unless the type is written bare |
| `TlWire.BoolReads` | td/td/tl/tl_object_parse.h:37-53 | a Bool is fetched from its two identifiers and from nothing else |
| `TlWire.VectorReads` | td/td/tl/tl_object_parse.h:119-137 | a vector is fetched with as many elements as its length says, of which there are at most four for each word that follows |
| `SpscRing.TestsExact` | td/benchmark/bench_queue.cpp:242-256 | the four tests are exact whatever the 32-bit indices wrapped to |
| `SpscRing.PutKeeps` | td/benchmark/bench_queue.cpp:271-273 | a put overwrites no value that is not released |
| `SpscRing.GetKeeps` | td/benchmark/bench_queue.cpp:258-260 | a get reads the next value put |
| `SpscRing.FlushWriterKeeps` | td/benchmark/bench_queue.cpp:275-277 | publishing keeps the invariant |
| `SpscRing.FlushReaderKeeps` | td/benchmark/bench_queue.cpp:262-264 | releasing keeps the invariant |
| `SpscRing.UpdateWriterKeeps` | td/benchmark/bench_queue.cpp:279-282 | refreshing the writer's cached index keeps the invariant |
| `SpscRing.UpdateReaderKeeps` | td/benchmark/bench_queue.cpp:266-269 | refreshing the reader's cached index keeps the invariant |
| `SpscRing.BufferQueue.PutUnsafe` | td/benchmark/bench_queue.cpp:271-273 | stores the value and keeps the invariant |
| `SpscRing.BufferQueue.GetUnsafe` | td/benchmark/bench_queue.cpp:258-260 | returns the next value and keeps the invariant |
| `SpscRing.BufferQueue.UpdateReader` | td/benchmark/bench_queue.cpp:266-269 | says how many values are ready |
| `SpscRing.BufferQueue.UpdateWriter` | td/benchmark/bench_queue.cpp:279-282 | says how much room there is |
| `SleepingQueue.NextKeeps` | td/benchmark/bench_queue.cpp:335-431 | every atomic step of either thread keeps the invariant |
| `SleepingQueue.GotsArePrefix` | td/benchmark/bench_queue.cpp:347-426 | under every interleaving the values got are a prefix of the values put |
| `SleepingQueue.ReadsArePublished` | td/benchmark/bench_queue.cpp:258-260 | a slot that is read holds the value put there, and it has been published |
| `SleepingQueue.FatalIffFull` | td/benchmark/bench_queue.cpp:314-323 | the fatal failure of a put happens exactly when 1024 values are not released |
| `SleepingQueue.NoLostWakeUp` | td/benchmark/bench_queue.cpp:347-426 | a reader that sleeps on an unseen published value is about to be woken |
| `SleepingQueue.SeenStaysReadable` | td/benchmark/bench_queue.cpp:382-402 | what a waiting reader saw stays readable until it takes it; GetTakesOne and WaitTakesNone say what the calls have done |
| `SleepingCalls.GetTakesOne` | td/benchmark/bench_queue.cpp:404-425 | under every interleaving, when get returns exactly one value more was taken, the oldest one not taken before, and all that was taken is released |
| `SleepingCalls.WaitTakesNone` | td/benchmark/bench_queue.cpp:382-402 | under every interleaving, when wait_reader returns nothing was taken or released and there is a published value to take |
| `SleepingCalls.GetUnsafeTakesOne` | td/benchmark/bench_queue.cpp:373-380 | an unchecked get takes one value and releases exactly if it flushes |
| `SleepingCalls.FlushReleases` | td/benchmark/bench_queue.cpp:369-371 | a flush of the reader releases all that was taken |
| `SleepingCalls.PutAddsOne` | td/benchmark/bench_queue.cpp:347-360 | under every interleaving, when a put returns its value and no other was added, and all values are published exactly if it flushes |
| `SleepingCalls.FlushPublishes` | td/benchmark/bench_queue.cpp:361-368 | a flush of the writer publishes all values |
| `SleepingCalls.SignalsIffWaited` | td/benchmark/bench_queue.cpp:347-368 | the eventfd is written to exactly if the reader stands between setting and clearing its flag |
| `ProbeTable.OneSlotPerHash` | td/memprof/memprof.cpp:154-191 | a table without gaps holds a hash at most once |
| `ProbeTable.AbsentAtEmpty` | td/memprof/memprof.cpp:159-172 | a thread that finds its slot empty knows that its hash is nowhere |
| `ProbeTable.NextKeeps` | td/memprof/memprof.cpp:154-191 | every atomic step of every thread keeps the invariant |
| `ProbeTable.RunGrows` | td/memprof/memprof.cpp:172-173 | slots are written once |
| `ProbeTable.TableSound` | td/memprof/memprof.cpp:154-191 | in every run each hash has at most one slot and no probe path has a gap |
| `ProbeTable.LookupsAgree` | td/memprof/memprof.cpp:154-191 | a lookup returns the slot of the hash asked for or of the fallback, and two that end with the same one of these, at any time, return the same slot |
| `ProbeLookups.StoredIsFound` | td/memprof/memprof.cpp:154-191 | once a hash has a slot, every lookup of it that starts later returns that slot and never the fallback, whatever all threads do |
| `ProbeLookups.LookupsDifferIff` | td/memprof/memprof.cpp:159-170 | two finished lookups asked for the same hash return different positions if and only if exactly one of them fell back |
| `ProbeLookups.AgreeBelowHalf` | td/memprof/memprof.cpp:160 | as long as the size does not exceed half of the table, all lookups of a hash agree |
| `ProbeTwoPositions.OneHashTwoPositions` | td/memprof/memprof.cpp:154-191 | a run, within the bound under which nothing is aborted, in which one thread asks for a hash twice and is given two positions |
| `ProbeReturns.CallReturns` | td/memprof/memprof.cpp:154-191 | under that bound every call returns before its thread has made 20 steps for every slot and 12 more, however the steps of others fall in |
| `ProbeTable.NeverAborts` | td/memprof/memprof.cpp:161-188 | with fewer threads than a fifth of the table, less one, neither the assertion nor the abort is reached |
| `ProbeTable.AssertionFailsIff` | td/memprof/memprof.cpp:161-166 | in every run a hash turns into the fallback only in a table more than half full, and the assertion fails exactly when the fallback finds an empty slot in one that is seven tenths full |
| `AllocAccounting.AddAccounts` | td/memprof/memprof.cpp:203-211 | adding a block keeps every counter equal to the live bytes at its position |
| `AllocAccounting.RemoveAccounts` | td/memprof/memprof.cpp:203-211 | a live block can always be taken off, so the assertion holds |
| `AllocAccounting.MemoryProfile.Malloc` | td/memprof/memprof.cpp:215-237 | accounts a new block; fails exactly when its size cut to 32 bits is negative |
| `AllocAccounting.MemoryProfile.Free` | td/memprof/memprof.cpp:252-267 | takes the block off its counter |
| `AllocAccounting.MemoryProfile.Realloc` | td/memprof/memprof.cpp:276-286 | copies what both blocks have room for and accounts both |
| `AllocAccounting.MemoryProfile.GetUsedMemorySize` | td/memprof/memprof.cpp:327-331 | the sum of the counters is the sum of the recorded sizes of the live blocks, which are cut to 32 bits |
| `DuplicateFilter.WindowDecides` | td/benchmark/bench_misc.cpp:516-531 | the test of the set filters decides what the filter promises |
| `DuplicateFilter.WindowAdvances` | td/benchmark/bench_misc.cpp:498-501 | inserting and dropping the least keeps the window of the largest identifiers |
| `DuplicateFilter.WindowStays` | td/benchmark/bench_misc.cpp:494-496 | a refused identifier leaves the window as it is |
| `DuplicateFilter.IdDuplicateCheckerOld.Check` | td/benchmark/bench_misc.cpp:486-503 | returns the promised verdict and keeps the window |
| `DuplicateFilter.IdDuplicateCheckerNew.Check` | td/benchmark/bench_misc.cpp:516-531 | returns the same verdict although it inserts first |
| `DuplicateFilter.CompactKeeps` | td/benchmark/bench_misc.cpp:596-599 | compaction keeps everything at or above the new minimum |
| `DuplicateFilter.InsertKeeps` | td/benchmark/bench_misc.cpp:613-615 | insertion keeps the array sorted and complete above its minimum |
| `DuplicateFilter.CheckArrayKeeps` | td/benchmark/bench_misc.cpp:595-617 | a check keeps the array sorted and complete above its minimum |
| `DuplicateFilter.CheckArrayRefines` | td/benchmark/bench_misc.cpp:595-617 | the array filter never accepts twice and accepts whatever the set filters accept |
| `DuplicateFilter.RunArrayRefines` | td/benchmark/bench_misc.cpp:595-617 | over any sequence of identifiers it accepts everything the set filters accept, and only new ones |
| `DuplicateFilter.AcceptedOnce` | td/benchmark/bench_misc.cpp:595-617 | over any sequence every identifier is accepted at most once |
| `DuplicateFilter.IdDuplicateCheckerArray.FindLowerBound` | td/benchmark/bench_misc.cpp:609 | the binary search returns the lower bound |
| `DuplicateFilter.IdDuplicateCheckerArray.CompactInPlace` | td/benchmark/bench_misc.cpp:597-598 | the newer half replaces the older one in place |
| `DuplicateFilter.IdDuplicateCheckerArray.InsertAt` | td/benchmark/bench_misc.cpp:613-615 | the tail moves up by one and the identifier is stored |
| `DuplicateFilter.IdDuplicateCheckerArray.Check` | td/benchmark/bench_misc.cpp:595-617 | the in-place check computes the verdict and contents of the specification |
| `DisjointSets.RelabelMerges` | td/SplitSource.php:10-21 | joining two classes equates exactly them |
| `DisjointSets.FindCompresses` | td/SplitSource.php:3-8 | path compression keeps the forest |
| `DisjointSets.LinkForest` | td/SplitSource.php:14-20 | linking one root under another keeps the forest |
| `DisjointSets.DisjointSet.Find` | td/SplitSource.php:3-8 | returns the representative and changes no class |
| `DisjointSets.DisjointSet.Union` | td/SplitSource.php:10-21 | merges exactly the two classes, whichever way the coin falls |
| `DisjointSets.ConstantOnPath` | td/SplitSource.php:180-184 | a labelling that is constant on every list is constant along chains |
| `DisjointSets.ClassesComplete` | td/SplitSource.php:180-184 | connected functions end in one class |
| `DisjointSets.UnionSound` | td/SplitSource.php:180-184 | functions in one class are connected |
| `DisjointSets.JoinDependencies` | td/SplitSource.php:180-184 | two functions are in one class if and only if they are connected through shared names |
| `Packing.LoadsConserve` | td/SplitSource.php:200-204 | the files together hold exactly the groups |
| `Packing.GreedyBalanced` | td/SplitSource.php:200-204 | two files never differ by more than the largest group |
| `Packing.GreedyTwiceOptimal` | td/SplitSource.php:200-204 | the largest file is at most 2 - 1/m times that of any packing |
| `Packing.RoomForLast` | td/SplitSource.php:196-204 | when three groups of the last size never fit, the descending packing has room for the last group |
| `Packing.GreedyDescendingFourThirds` | td/SplitSource.php:196-204 | in descending order the largest file is at most 4/3 - 1/(3m) times that of any packing |
| `SplitSource.LayoutOnce` | td/SplitSource.php:200-204 | a function is written exactly once, into the file of its group |
| `SplitSource.Group` | td/SplitSource.php:185-195 | collects the text and the size of every class |
| `SplitSource.Arsort` | td/SplitSource.php:196 | orders the groups by descending size |
| `SplitSource.FirstSmallest` | td/SplitSource.php:201 | finds the first smallest file |
| `SplitSource.Pack` | td/SplitSource.php:198-204 | packs the groups greedily and writes their texts |
| `SplitSource.SplitFunctions` | td/SplitSource.php:152-204 | the components are the classes of connected functions; every function is written once, into the file of its component; file sizes are those of the greedy packing and at most 4/3 - 1/(3m) times the best possible; too small exactly when there are fewer functions than files |
| `ByteRange.IntegerIff` | td/tdutils/td/utils/misc.h:156-206 | the accepted integers are exactly the printed 64-bit ones |
| `ByteRange.TrimIs` | td/tdutils/td/utils/misc.h:107-145 | trimming takes exactly the blanks at both ends: spaces, tabs, line ends, zeros and vertical tabs |
| `ByteRange.BoundsIff` | server/FileStreamRoute.cpp:232-260 | bounds are accepted exactly when they say the range |
| `ByteRange.AcceptedIff` | server/FileStreamRoute.cpp:212-260 | a partial range is accepted exactly for a header bytes=x-y whose bounds say it |
| `ByteRange.AcceptedInside` | server/FileStreamRoute.cpp:212-260 | every accepted range lies inside the file |
| `ByteRange.ResumeExact` | server/FileStreamRoute.cpp:212-260 | the first k bytes and the rest from k are the file |
| `ByteRange.SuffixExact` | server/FileStreamRoute.cpp:236-243 | a suffix of length m is the last min(m, size) bytes |
| `FileStream.PieceFits` | server/FileStreamCursor.cpp:29-35 | what is read next lies inside the download and the range, and a complete read of the local file there returns the bytes of the origin |
| `FileStream.CommitNeverFails` | server/FileStreamCursor.cpp:37-44 | a confirmed chunk is always committed |
| `FileStream.TryReadKeeps` | server/FileStream.cpp:143-197 | a read keeps the invariant, whatever it meets |
| `FileStream.ReadyKeeps` | server/FileStream.cpp:53-108 | the file being ready keeps the invariant, on every refusal too |
| `FileStream.ProgressKeeps` | server/FileStream.cpp:110-141 | progress keeps the invariant |
| `FileStream.FlushedKeeps` | server/FileStream.cpp:222-246 | a confirmed chunk keeps the invariant |
| `FileStream.StepKeeps` | server/FileStream.cpp:53-396 | every event keeps the invariant |
| `FileStream.RunKeeps` | server/FileStream.cpp:53-396 | every run keeps the invariant |
| `FileStream.BodyIsExact` | server/FileStream.cpp:53-319 | the confirmed bytes are the beginning of the body asked for, and a clean finish means all of it, exactly the announced length, although the bytes are read from a local file of which only the reported prefix is known to be right |
| `FileStream.DownloadedIs` | server/FileStreamCursor.cpp:11-27 | in every run the download counts as complete exactly up to the largest prefix that an accepted event reported at offset 0, or 0 if none did |
| `FileStream.TakesMost` | server/FileStream.cpp:150-196 | a read takes as many bytes as the chunk size, the watermark, the range and the download allow |
| `FileStream.AnswersIff` | server/FileStream.cpp:53-108 | the answer to a fresh request, whatever is said about the file: exactly when it is 413, 416, 502, 500, or headers |
| `FileStream.ErrorAnswers` | server/FileStream.cpp:321-333 | an error before the headers is answered with its own code if that is 400 to 599 and else with 502, a timeout with 504; after the headers the stream breaks off |
| `FileStream.BreaksOffIff` | server/FileStream.cpp:110-264 | a response that has begun breaks off exactly when a flush or the origin fails, on a timeout, on progress that is not of the file, ends too early or calls an incomplete file complete, and on a read that fails for good |
| `FileStream.CleanEnd` | server/FileStream.cpp:385-394 | the local copy is deleted exactly if that was asked for and the delivery completed, which means the whole body; files are retained and released in pairs |
| `FileStream.FinishedStays` | server/FileStream.cpp:305-378 | a finished stream does nothing more |
| `FileStream.RangeRefusedIff` | server/FileStream.cpp:83-86 | the answer is 416 exactly when the range parser refuses |
| `FileStream.Drains` | server/FileStream.cpp:143-246 | once the file is downloaded, the stream completes after finitely many confirmed chunks |
| `FileStream.HeadStepIff` | server/FileStream.cpp:53-267 | one event puts body bytes on their way to a HEAD request if and only if it is progress that the handler accepts and after which there is something to read |
| `FileStream.HeadQuietIff` | server/FileStream.cpp:53-267 | in any run that answers a HEAD request no body bytes are ever on their way if and only if no event is such progress |
| `FileStream.HeadQuietAfterFlush` | server/FileStream.cpp:248-267 | none are when all progress comes after the headers were flushed, in particular when there is none |
| `FileStream.HeadMaySendBody` | server/FileStream.cpp:110-141 | a run in which progress before the headers are flushed sends body bytes to a HEAD request |
| `FileStreamConnections.FileStreamCursor.SetRange` | server/FileStreamCore.h:20-24 | sets the range and starts at its beginning |
| `FileStreamConnections.FileStreamCursor.UpdateProgress` | server/FileStreamCursor.cpp:11-27 | takes over consistent progress and refuses any other; DownloadedIs says what that makes of the position |
| `FileStreamConnections.FileStreamCursor.Commit` | server/FileStreamCursor.cpp:37-44 | advances by a block that is next in order, and by no other |
| `FileStreamConnections.FileStreamConnection.TryRead` | server/FileStream.cpp:143-197 | the read of the state machine |
| `FileStreamConnections.FileStreamConnection.OnFileReady` | server/FileStream.cpp:53-108 | is the machine step and keeps the invariant |
| `FileStreamConnections.FileStreamConnection.OnFileProgress` | server/FileStream.cpp:110-141 | is the machine step and keeps the invariant |
| `FileStreamConnections.FileStreamConnection.OnFileData` | server/FileStream.cpp:199-220 | queues exactly the expected chunk |
| `FileStreamConnections.FileStreamConnection.OnChunkFlushed` | server/FileStream.cpp:222-246 | is the machine step and keeps the invariant |
| `FileStreamConnections.FileStreamConnection.OnHeadersFlushed` | server/FileStream.cpp:248-267 | is the machine step and keeps the invariant |
| `FileStreamConnections.FileStreamConnection.SendHeaders` | server/FileStream.cpp:269-303 | announces the length of the range once |
| `FileStreamConnections.FileStreamConnection.Finish` | server/FileStream.cpp:305-319 | finishes a complete stream and aborts any other |
| `FileStreamConnections.FileStreamConnection.OnFileError` | server/FileStream.cpp:321-334 | answers with the code, or 502, or aborts once the response began |
| `FileStreamConnections.FileStreamConnection.Fail` | server/FileStream.cpp:336-364 | answers with an error unless the response began |
| `FileStreamConnections.FileStreamConnection.Abort` | server/FileStream.cpp:366-378 | ends the stream |
| `FileStreamConnections.FileStreamConnection.TimeoutExpired` | server/FileStream.cpp:380-383 | ends the stream with 504 |
| `FileStreamConnections.FileStreamConnection.TearDown` | server/FileStream.cpp:385-394 | releases the local file |
| `PathMessages.MovedPaired` | server/FileStream.cpp:63-71 | a changed path releases the old file and retains the new one |
| `PathMessages.EndedPaired` | server/FileStream.cpp:385-389 | the end of a stream releases the file it holds |
| `WorkdirCleanup.CandidateIff` | server/WorkdirCleanupManager.cpp:73-93 | a candidate lies properly inside the directory, without two dots next to each other in its relative path, and does not end in .binlog, .binlog.new, .sqlite, .sqlite-wal, .sqlite-shm or .sqlite-journal |
| `WorkdirCleanup.PersistentIff` | server/WorkdirCleanupManager.cpp:56-66 | the test on the file name is the same as one on the end of the whole path |
| `WorkdirCleanup.DeleteWithRetries` | server/WorkdirCleanupManager.cpp:95-104 | succeeds exactly if one of four attempts does |
| `WorkdirCleanup.CanDeleteIff` | server/WorkdirCleanupManager.cpp:93-102 | there are four attempts |
| `WorkdirCleanup.Scan` | server/WorkdirCleanupManager.cpp:106-132 | counts the files and bytes and collects those that no stream holds |
| `WorkdirCleanup.Evict` | server/WorkdirCleanupManager.cpp:138-156 | deletes a prefix in access-time order: the shortest that is enough, or everything before the first file that cannot be deleted; deleted and remaining bytes add up to what was scanned |
| `WorkdirCleanup.ArriveKeeps` | server/WorkdirCleanupManager.cpp:163-177 | an arriving message keeps every count equal to the number of holders |
| `WorkdirCleanup.CountsStayOk` | server/WorkdirCleanupManager.cpp:163-177 | for any senders that retain and release in pairs, in every run the counts are those of the holders, positive, and only of candidates |
| `StreamFiles.StepSays` | server/FileStream.cpp:53-394 | no event of a stream takes back a message about its file |
| `StreamFiles.WholeStaysOk` | server/WorkdirCleanupManager.cpp:163-177 | with any number of streams handling events and their messages arriving at any time, streams and counts stay in agreement |
| `StreamFiles.CountsAreStreams` | server/WorkdirCleanupManager.cpp:163-177 | once all messages are delivered the count of a candidate file is the number of streams served from it that have not ended |
| `StreamFiles.ServedIsKept` | server/WorkdirCleanupManager.cpp:124-148 | a cleanup deletes no file from which a stream is served whose messages are delivered |
| `WorkdirCleanup.HeldIsKept` | server/WorkdirCleanupManager.cpp:124-148 | a file held by a stream, by the messages that have arrived, is not up for deletion |
| `WorkdirCleanup.WorkdirCleanupManager.RetainFile` | server/WorkdirCleanupManager.cpp:163-167 | counts one more holder of a candidate |
| `WorkdirCleanup.WorkdirCleanupManager.ReleaseFile` | server/WorkdirCleanupManager.cpp:169-177 | counts one less and forgets a file without holders |
| `WorkdirCleanup.WorkdirCleanupManager.RunCleanup` | server/WorkdirCleanupManager.cpp:106-160 | a whole cleanup: every file deleted was idle for the time to live, in nanoseconds, or came while too much was left above the target; unless a deletion failed no such file remains and the target is reached or nothing is left to delete; nothing active is deleted |
| `StreamQuota.KeyInjective` | server/ClientManager.cpp:102 | different bots, and the test and production streams of one, have different counters |
| `StreamQuota.AdmitKeeps` | server/ClientManager.cpp:108-164 | an admission keeps the counters in agreement and the limits |
| `StreamQuota.ReleaseKeeps` | server/ClientManager.cpp:168-180 | a release keeps them, and does nothing for a stream that is not active |
| `StreamQuota.CountersAgree` | server/ClientManager.cpp:70-180 | after any admissions and releases every counter is the number of active streams of its bot and no limit is exceeded |
| `StreamQuota.EveryBotWithinQuota` | server/ClientManager.cpp:105-117 | in every run a bot has at most one stream, or at most a quarter of the limit, and all bots together at most the limit |
| `StreamQuota.TooManyIff` | server/ClientManager.cpp:85-117 | a request that nothing else stands against is refused with 429 exactly when the limit is reached, or when the bot has a stream and one more would be more than a quarter of the limit; otherwise it is admitted |
| `StreamQuota.AnswerMeans` | server/ClientManager.cpp:76-141 | exactly when each code is answered and when the stream is admitted |
| `StreamQuota.ValidTokenIff` | server/ClientManager.cpp:88-96 | a valid token is a printed identifier below 2^54, a colon, and a rest without slashes, at most 80 characters in all |
| `StreamQuota.NothingLeft` | server/ClientManager.cpp:168-180 | once no stream is active no counter is left |
| `StreamQuota.StreamManager.SendFileStream` | server/ClientManager.cpp:70-166 | refuses with the first reason that applies or admits the stream, as AnswerMeans says |
| `StreamQuota.StreamManager.ReleaseFileStream` | server/ClientManager.cpp:168-180 | releases the stream in all three structures |

## Left out

- WebhookActorModel.WebhookActor.LoadUpdate: has no branch for an event that is loaded already, because `LoadOneKeeps` shows that none is ever read; the state machine keeps that branch.
- WorkdirCleanup.Evict: has an assertion where the original skips a candidate that became active, because the counts do not change during a cleanup.
- Clock readings inside one handler are taken to be equal, in whole seconds, and the offset between monotonic and Unix time is constant; rounding of wake-up times to nanoseconds is not modelled.
- Random numbers, flood control, the outcomes of opening sockets and of reading and deleting files, and the order of equal keys in library sorts are inputs of the operations.
- Sockets, TLS, DNS, the proxy protocol, HTTP header text, JSON bodies, logging, statistics and the callbacks to the client: only their events and outcomes appear. Whether a request header fits its buffer is an attribute of an event.
- Event identifiers do not run out: the restart of the numbering near two thousand million is not modelled, nor is the placeholder that the persistent queue keeps for its last identifier.
- A second pass of the actor loop after a hang-up is a separate wake-up step.
- The checks at start-up that stop the webhook actor at once: forbidden ports, protocols and addresses.
- The end of the webhook actor after repeated 410 answers: the close message is sent, what follows it is not modelled.
- The ring's memory fences: sequential consistency is assumed, and the 64-bit eventfd counter does not overflow. The other queues of the benchmark are left out.
- In the hash table zero hashes are excluded, since zero marks an empty slot, and the backtraces stored beside the hashes are not modelled.
- The filters `IdDuplicateCheckerNewOther` and `IdDuplicateCheckerNewSimple` are the same algorithm as `IdDuplicateCheckerNew` with other error texts; 64-bit identifiers are natural numbers.
- The splitter's parsing of C++ files, the regular expressions that find dependency names, and the clean-up of include directives; the functions and the lists per name are given.
- TL: the arrays, function types and JSON or string storers of the generator, and the text of class definitions. Nesting of objects is bounded by a fuel that any value has enough of. A parser error makes the whole fetch fail, where the original goes on reading zeros and reports the error at the end. The clean-up of strings that are not UTF-8 in one of the parsers is left out.
- TL: a variable that is read although its own optional argument was absent has no defined value in the emitted store; the model's store has no result then.
- HTTP conformance of ranges beyond what the parser accepts: it refuses several ranges, other units and other spellings of the unit with 416.
- The metadata refresh of a file, its size hints and its identifiers: a file is reported ready once and with its true size, and the local file has the real bytes up to the largest prefix that was reported.
- The token-to-client map and the creation of clients in the stream manager.
- IP allow-lists, URL routes, the free-space check and the schedule of cleanups, which would only add easy members.
