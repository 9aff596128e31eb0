# Lightning: concurrent cores, NGAP set-up and the HTTP/2 sniffer

This project models the parts of Lightning in which the order of events decides what is right, and proves
what holds in every order:

- **The context queue** (`ContextQueue`, `Executor`, `ContextManager`): Omnipath keeps each UE context behind a
  queue.  Callers push boxed jobs under a mutex, an atomic flag decides whether a processor task has to be
  spawned, the processor pops and awaits one job at a time with the mutex held, and each caller waits on a
  oneshot channel.  The manager maps identifiers to such queues and renames them in several map accesses.
- **The token store** (`TokenStore`, `Counter`): a concurrent map from service names to access tokens that are
  Updating, Ready or Failed, with `Notify` wake-ups, and `get_token` on top of it.
- **NGAP associations** (`Association`, `UeContexts`, `NgSetup`, `Codecs`): bounded NG Setup attempts, the registry
  of gNBs, the message loop and its end, UE contexts created by handlers that run side by side, the acceptance
  decision of NG Setup (section 8.7.1 of TS 38.413) and the octet codecs it rests on (section 9.3.3.5 of TS 38.413).
- **The HTTP/2 decoder of the integration sniffer** (`H2Frames`, `H2Connection`, `H2Interleaving`, `H2Halves`,
  `H2Capture`, `H2Decoder`): frames (section 4.1 of RFC 7540) cut from TCP segments, streams assembled per direction, completed
  exchanges emitted once, any number of connections in one capture.

Concurrent components are transition systems: a state, a `Step` for every piece of code between two suspension
points or two accesses to shared data, and theorems over `Run(Init, steps)` for every enabled sequence of steps and
any number of tasks.  Beside each of them stands a class whose methods are the source's functions updating their
fields in place, proved equal to functions on values.  Lemmas tie these to the runs the theorems quantify over:

- what a method does without interruption is a run: `Executor.PushIsRun` and `ProcessIsRun`, `ContextManager.AddRun`
  and `ChangeIsRun`, `TokenStore.SetIsRun`, `Association.AttemptIsRun`, `UeContexts.HandleIsRun`;
- where other tasks come in between, the method takes what it finds each time as input, and a lemma shows that this
  is what the call finds in any interleaving: `TokenStore.GetFollowsViews` and `GetIsRun` for the maps that a get
  reads, `Association.SetupFollowsAttempts` for the registries that the attempts of a setup meet;
- `Association.NgapContext.Register` and `CloseRanConnection` and `ContextManager.Manager.ContainsContext` are stated
  on the step of the system that they are.

The decoder is sequential: its classes are proved equal to functions on values, and the theorems are about those
functions.  What such a function computes is stated apart from its definition, on the octets, frames or events it works
on (`NgSetup.SuccessOffers` and `FailureTells`, `H2Halves.HalfIs`, `H2Connection.SettingsApplied`, `H2Frames.Recovery`).

Fields called history in the comments (`start`, `pushed`, `finished`, `author`, `ticket`, `answered`, `readCount`)
record what has happened and decide nothing.

## Where the code falls short of what one might expect

Each of these is a lemma about the code as it is: a run or an input where it happens, and the exact condition under
which it does.

- A job that schedules onto its own queue stops that queue for good, because the guard on the queue lives across
  `fut.await` (`ContextQueue.BlockedForever`, reached by `Executor.BlockedHappens`); a run serves everybody if and only
  if no pushed job does this (`ContextQueue.Completion`).
- `add_context` on an identifier that is taken never returns the documented `ContextAlreadyExists`: the outer `Arc` is
  still alive, so the unwrap aborts its tokio task (`ContextManager.Manager.AddContext`).  For a UE handler that is
  exactly when another handler of the same RAN UE id has inserted since its check (`UeContexts.AbortsIff`,
  `AbortHappens`).
- A failed rename drops its queue exactly when another call has taken the old identifier meanwhile
  (`ContextManager.LosesIff`, `LossHappens`, `LostForever`); otherwise nothing is lost (`NothingLost`).
- Two futures for one key can be in flight (`TokenStore.OverlapHappens`, `OverlapBreaksIt`).  None ever are if and only
  if every set that upserts finds its key not being updated then, as it did at its check (`TokenStore.OneFutureIff`).
- A reader that registers after its `Notify` has fired waits for ever (`TokenStore.LateReaderHappens`,
  `LateReaderWaitsForever`), and only such a reader does (`OnlyLateReadersRemain`).
- A token that failed is not requested again through `get_token`, unless a call was already on its way to its request or
  has spent its ninth read on a `Notify` that has not fired (`TokenStore.RequestIff`, an if and only if).
- The registry insert whose comment calls the unwrap safe aborts exactly when another connection has registered the
  node since the duplicate check and has not closed (`Association.AbortsIff`, `OverlapHappens`, `OverlapAborts`).
- A connection whose loop ends with a read error keeps its node id registered (`Association.FailedLoopBlocksNode`,
  `FailedLoopHappens`); an entry goes if and only if its own connection closes (`RegistryChanges`).
- What the decoder emits depends on the schedule exactly for streams on which HEADERS or DATA still add something
  after their direction has ended (`H2Interleaving.ScheduleIrrelevantIff`, `ScheduleMatters`).
- A client preface that is cut between two packets is not seen (`H2Capture.SplitPrefaceMissed`); a connection is decoded
  if and only if one of its packets holds the whole preface (`CaptureTracks`).

## Model

| member | source | states |
|---|---|---|
| `ContextQueue.RunInv` | lightning-nf/omnipath/app/src/ngap/manager/context_queue.rs:74-155 | Every interleaving of any number of callers and processors keeps the invariant on mutex, flag, queue, context, history and answers. |
| `ContextQueue.SerialExecution` | lightning-nf/omnipath/app/src/ngap/manager/context_queue.rs:74-155 | In every reachable state the pushes equal finished ++ running ++ queued without repetition, at most one job runs, and the context is the serial fold of the finished closures in push order, advanced by the running job. |
| `ContextQueue.RunBodyFront` | lightning-nf/omnipath/app/src/ngap/manager/context_queue.rs:144-148 | In the serial reference a job's first action is taken first, on the context it finds. |
| `ContextQueue.SerialFront` | lightning-nf/omnipath/app/src/ngap/manager/context_queue.rs:96-108 | In the serial reference the first job runs first and the others from where it left the context. |
| `ContextQueue.NoLostWakeup` | lightning-nf/omnipath/app/src/ngap/manager/context_queue.rs:78-102 | With the mutex free, the flag is set exactly when a processor is live; there is never a second one; a clear flag means an empty queue. |
| `ContextQueue.OwnOutput` | lightning-nf/omnipath/app/src/ngap/manager/context_queue.rs:129-155 | Whatever a caller receives is its own closure's output at its place in push order. |
| `ContextQueue.ReenterDisabled` | lightning-nf/omnipath/app/src/ngap/manager/context_queue.rs:98-106 | A running job's processor holds the mutex, so the job cannot take it. |
| `ContextQueue.MeasureStep` | lightning-nf/omnipath/app/src/ngap/manager/context_queue.rs:74-210 | Every step except an arrival lowers a measure over callers, processor stages and queued jobs. |
| `ContextQueue.RunLength` | lightning-nf/omnipath/app/src/ngap/manager/context_queue.rs:74-210 | No run is longer than the total cost of the callers that arrived in it. |
| `ContextQueue.Progress` | lightning-nf/omnipath/app/src/ngap/manager/context_queue.rs:96-210 | A reachable state in which nothing can move is final or blocked by a job calling back into its own queue. |
| `ContextQueue.Completion` | lightning-nf/omnipath/app/src/ngap/manager/context_queue.rs:96-210 | A run that can do no more has served everybody if and only if no pushed job calls back into its own queue. |
| `ContextQueue.FinalAnswers` | lightning-nf/omnipath/app/src/ngap/manager/context_queue.rs:129-210 | At the end every pushed job ran once in push order, and every caller that still listens has its own closure's output, whoever else dropped its receiver. |
| `ContextQueue.BlockedForever` | lightning-nf/omnipath/app/src/ngap/manager/context_queue.rs:96-108 | Once a job has called back into its own queue, no continuation frees the mutex, starts or finishes a job, or changes the context. |
| `Executor.Executor.PushFuture` | lightning-nf/omnipath/app/src/ngap/manager/context_queue.rs:74-88 | The new state: job appended, flag set, and a processor added exactly if the flag was clear. |
| `Executor.Executor.Await` | lightning-nf/omnipath/app/src/ngap/manager/context_queue.rs:143-154 | Any job: the loop over its actions leaves the context of the whole body and sends the result only to a receiver that still listens; a job that calls back into its queue is left where it hangs, guard and mutex held. |
| `Executor.Executor.ProcessQueue` | lightning-nf/omnipath/app/src/ngap/manager/context_queue.rs:96-108 | Any queue: pops and awaits until it is empty, then clears the flag; hangs exactly if a queued job calls back into the queue. |
| `Executor.PushIsRun` | lightning-nf/omnipath/app/src/ngap/manager/context_queue.rs:74-88 | Pushing without interruption is a run of the transition system. |
| `Executor.ProcessIsRun` | lightning-nf/omnipath/app/src/ngap/manager/context_queue.rs:96-108 | Processing without interruption, to the end or to where it hangs, is a run of the transition system. |
| `Executor.ProcessRunsAll` | lightning-nf/omnipath/app/src/ngap/manager/context_queue.rs:96-108 | Left alone, the processor finishes exactly the queued jobs in order and leaves the serial context, if none calls back; otherwise it finishes those before the first that does and is blocked in that one. |
| `Executor.BlockedHappens` | lightning-nf/omnipath/app/src/ngap/manager/context_queue.rs:98-106 | From the empty queue, any closure that calls back leads to a blocked queue. |
| `Executor.ServeIsRun` | lightning-nf/omnipath/app/src/ngap/manager/context_queue.rs:186-210 | schedule_and_wait on an idle queue with a closure that does not call back is a run after which the caller has the closure's output, the context is what the closure left, and the queue is idle again. |
| `ContextManager.RunInv` | lightning-nf/omnipath/app/src/ngap/manager/context_manager.rs:79-207 | Over any interleaving each queue object is in exactly one place: one key or one call's hands. |
| `ContextManager.OnePlace` | lightning-nf/omnipath/app/src/ngap/manager/context_manager.rs:79-160 | An added queue is under exactly one key, or held by exactly one rename, or was dropped by a rename; never two of these. |
| `ContextManager.NothingLost` | lightning-nf/omnipath/app/src/ngap/manager/context_manager.rs:132-160 | If no call takes an id that a rename has vacated, an added queue is in the map exactly when no rename holds it. |
| `ContextManager.VacantStep` | lightning-nf/omnipath/app/src/ngap/manager/context_manager.rs:137-152 | Under that condition a failed rename puts its queue back under the old id. |
| `ContextManager.LosesIff` | lightning-nf/omnipath/app/src/ngap/manager/context_manager.rs:137-152 | A step drops a queue if and only if it is a restore that finds the old id taken. |
| `ContextManager.LostForever` | lightning-nf/omnipath/app/src/ngap/manager/context_manager.rs:140-151 | A dropped queue never comes back into the map. |
| `ContextManager.LossHappens` | lightning-nf/omnipath/app/src/ngap/manager/context_manager.rs:132-160 | A run from the empty manager in which a rename loses its queue. |
| `ContextManager.QueueProjection` | lightning-nf/omnipath/app/src/ngap/manager/context_manager.rs:189-207 | What happens to a queue while the manager runs is a run of that queue, so jobs pushed through an earlier handle run on the same queue in order. |
| `ContextManager.LiftQueue` | lightning-nf/omnipath/app/src/ngap/manager/context_manager.rs:189-207 | Conversely, every run of a queue without arrivals is a run of the manager that changes that queue alone. |
| `ContextManager.WithContextIsRun` | lightning-nf/omnipath/app/src/ngap/manager/context_manager.rs:189-207 | An uninterrupted with_context on a present id with an idle queue ends with the caller holding what its closure makes of that context; on an absent id it ends in ContextNotFound; nothing else changes. |
| `ContextManager.HandleSurvivesRenames` | lightning-nf/omnipath/app/src/ngap/manager/context_manager.rs:189-207 | A call that found its queue stays caller of that queue through all renames, the queue holds its own closure for it, and what it receives is that closure's output at its place in push order. |
| `ContextManager.QueuesSound` | lightning-nf/omnipath/app/src/ngap/manager/context_manager.rs:189-207 | Every queue of a reachable state satisfies the queue invariant, and a pending lookup can always proceed. |
| `ContextManager.Manager.AddContext` | lightning-nf/omnipath/app/src/ngap/manager/context_manager.rs:79-111 | Succeeds exactly on a free id; on a taken id the tokio task aborts and the map is unchanged. |
| `ContextManager.Manager.ChangeId` | lightning-nf/omnipath/app/src/ngap/manager/context_manager.rs:132-160 | Both errors if and only if their conditions hold; on success the queue has moved, on failure the map is as before. |
| `ContextManager.ChangeIsRun` | lightning-nf/omnipath/app/src/ngap/manager/context_manager.rs:132-160 | An uninterrupted change_id is a run with the method's effect and result; it loses no queue and touches none. |
| `ContextManager.Manager.ContainsContext` | lightning-nf/omnipath/app/src/ngap/manager/context_manager.rs:162-167 | Says whether a with_context call on the id that looks it up now is scheduled or refused. |
| `Counter.SameDraw` | utils/counter/src/lib.rs:13-15 | Two increments of a wrapping counter return the same value exactly when they are a multiple of its range apart. |
| `Counter.FirstDraws` | utils/counter/src/lib.rs:9-15 | Until it wraps around, a counter counts from one. |
| `Counter.AtomicCounter.Increment` | utils/counter/src/lib.rs:13-15 | The n-th increment returns the n-th draw, across wrap-around. |
| `TokenStore.RunInv` | utils/client/src/token_store.rs:152-226 | Over any interleaving of gets, sets and get_tokens the invariant holds and nothing that happened is undone. |
| `TokenStore.ReturnedEntries` | utils/client/src/token_store.rs:152-226 | Every returned entry is Ready with a value produced by the future of a set on that same key, and carries that set's id. |
| `TokenStore.UpdatingIsOwned` | utils/client/src/token_store.rs:180-221 | An Updating entry belongs to a running set on its key, none is left once all sets ended, and a present key stays present. |
| `TokenStore.IdsDistinct` | utils/client/src/token_store.rs:188-190 | Two sets share an id exactly when their draws are a multiple of 2^32 apart. |
| `TokenStore.OneFutureIff` | utils/client/src/token_store.rs:188-221 | No key ever has two futures in flight if and only if every upsert of the run finds its key not being updated. |
| `TokenStore.OneFuturePerKey` | utils/client/src/token_store.rs:188-221 | In particular without an overlap of check and upsert: a set past its upsert is then alone on its key, and the map names it. |
| `TokenStore.NoOverlapIsGuarded` | utils/client/src/token_store.rs:188-203 | Runs without overlapping checks are among those of the exact law. |
| `TokenStore.RefusedMeanwhile` | utils/client/src/token_store.rs:188-197 | In every run of the exact law a set that checks during an update is refused with the id of that update and the map is unchanged. |
| `TokenStore.OverlapBreaksIt` | utils/client/src/token_store.rs:188-203 | From every reachable state with two sets past their check, two futures for the key come into flight. |
| `TokenStore.OverlapHappens` | utils/client/src/token_store.rs:188-203 | Such a state is reached from the empty store. |
| `TokenStore.EarlyReaderIsWoken` | utils/client/src/token_store.rs:156-221 | A reader registered before its Notify fires waits on a running set whose remaining steps are enabled and wake it. |
| `TokenStore.NotifyWakesAll` | utils/client/src/token_store.rs:172-221 | When a Notify fires, everybody registered on it goes on, and none of them had registered late. |
| `TokenStore.OnlyLateReadersRemain` | utils/client/src/token_store.rs:156-221 | Once all sets have ended, whoever still waits registered after its Notify had fired. |
| `TokenStore.LateReaderWaitsForever` | utils/client/src/token_store.rs:170-221 | Such a reader waits in every continuation. |
| `TokenStore.LateReaderHappens` | utils/client/src/token_store.rs:157-172 | A run that leads to such a reader. |
| `TokenStore.ReadBudget` | utils/client/src/token_store.rs:156-174 | A call reads the map at most nine times, whatever happens around it. |
| `TokenStore.NoMoreRequests` | utils/client/src/nrf_client.rs:390-413 | Once a key holds a result and no call has read nothing or spent its ninth read, no continuation through get_token requests a token for it, the entry stays, and every answer is that entry or error. |
| `TokenStore.RequestIff` | utils/client/src/nrf_client.rs:390-413 | For a key that holds a result, some continuation through get_token issues another request if and only if a call on it is past its get and before its upsert, or has spent its ninth read on a Notify that has not fired. |
| `TokenStore.GetFollowsViews` | utils/client/src/token_store.rs:152-175 | In every interleaving a get answers, and a get_token answers or goes on to its set, as decided by the first of the store's maps at its own reads in which the key is not being updated, nine at most. |
| `TokenStore.FoundIsReturned` | utils/client/src/token_store.rs:157-170 | A Ready token that a read finds is returned as it is, a Failed one as an error with its id, and an absent key gives nothing, or for get_token the request. |
| `TokenStore.SetAnswers` | utils/client/src/token_store.rs:206-225 | In every interleaving a set that has notified was told its own value under its own id, or an error, as its future ended. |
| `TokenStore.GetIsRun` | utils/client/src/token_store.rs:152-175 | Given the maps its reads found, the method below answers as the call did. |
| `TokenStore.SetIsRun` | utils/client/src/token_store.rs:180-226 | An uninterrupted set is a run, with the effect and answer of the method below. |
| `TokenStore.Store.Set` | utils/client/src/token_store.rs:180-226 | Refused with the map unchanged while the key is updating; otherwise the key holds Ready or Failed under the new id, and the answer says which. |
| `TokenStore.Store.Get` | utils/client/src/token_store.rs:152-175 | The first of nine views that does not update the key decides; nine updating views give nothing. |
| `TokenStore.Store.GetToken` | utils/client/src/nrf_client.rs:390-413 | The store is touched only if the get found nothing; a Failed entry is passed on as an error. |
| `UeContexts.StepInv` | lightning-nf/omnipath/app/src/ngap/core/initial_ue_message.rs:23-85 | Every step of every handler keeps the table, ticket and counting invariants. |
| `UeContexts.HandlersSound` | lightning-nf/omnipath/app/src/ngap/core/initial_ue_message.rs:23-85 | After any interleaving each RAN UE id has one context under its own id, a scheduled job finds its context, and AMF UE ids coincide exactly when 2^64 draws lie between them. |
| `UeContexts.AbortsIff` | lightning-nf/omnipath/app/src/ngap/core/initial_ue_message.rs:34-62 | A handler whose check passed aborts at its insert if and only if another handler of the same RAN UE id has inserted since. |
| `UeContexts.AbortHappens` | lightning-nf/omnipath/app/src/ngap/core/initial_ue_message.rs:34-62 | A run of two messages with one id in which that happens. |
| `UeContexts.HandleIsRun` | lightning-nf/omnipath/app/src/ngap/core/initial_ue_message.rs:23-85 | An uninterrupted handler is a run with the effect of the method below. |
| `UeContexts.GnbContext.HandleRequest` | lightning-nf/omnipath/app/src/ngap/core/initial_ue_message.rs:23-85 | Refuses a known RAN id without drawing; otherwise stores a context with the next AMF id and is served. |
| `Codecs.DecodeEncodePlmn` | lightning-nf/omnipath/app/src/utils/convert/mcc_mnc_plmnid.rs:65-136 | Decoding an encoded PLMN gives it back, for two- and three-digit network codes. |
| `Codecs.EncodeDecodePlmn` | lightning-nf/omnipath/app/src/utils/convert/mcc_mnc_plmnid.rs:65-136 | Re-encoding any octets that decode changes nothing but a filler nibble, which becomes F. |
| `Codecs.DecodesTo` | lightning-nf/omnipath/app/src/utils/convert/mcc_mnc_plmnid.rs:103-136 | Octets decode to a given PLMN exactly when they are its encoding up to the filler. |
| `Codecs.PlmnLayout` | lightning-nf/omnipath/app/src/utils/convert/mcc_mnc_plmnid.rs:65-101 | The half octets, low half first, are the country code, a filler F before a two-digit network code, and the network code. |
| `Codecs.ConvertMccMncToPlmnId` | lightning-nf/omnipath/app/src/utils/convert/mcc_mnc_plmnid.rs:65-101 | The three-byte array it fills is the encoding, and decodes to the digits given. |
| `Codecs.DecodeHexString` | lightning-nf/omnipath/app/src/utils/convert/tac.rs:22-40 | Octets written as hex are lower-case and read back as the same octets. |
| `Codecs.HexStringDecode` | lightning-nf/omnipath/app/src/utils/convert/tac.rs:22-40 | Six hex digits come back in lower case, and unchanged if they were. |
| `Codecs.IsHexStringOf` | lightning-nf/omnipath/app/src/utils/convert/tac.rs:22-40 | A string is the hex form of octets exactly when it is lower-case and decodes to them. |
| `Codecs.HexNumberOf` | lightning-nf/omnipath/app/src/utils/convert/tac.rs:22-40 | String and octets denote the same number, first octet first. |
| `Codecs.SnssaiRoundTrips` | lightning-nf/omnipath/app/src/utils/convert/snssai.rs:20-56 | S-NSSAIs round-trip in both directions, the differentiator up to letter case. |
| `Codecs.TransformItems` | lightning-nf/omnipath/app/src/utils/convert/mod.rs:29-36 | The transformed list has the same length and the image of each item in its place. |
| `Codecs.SupportListRoundTrip` | lightning-nf/omnipath/app/src/utils/convert/transform.rs:20-38 | The PLMN support list keeps length and order on both levels, and each PLMN and slice reads back. |
| `NgSetup.ConvertArea` | lightning-nf/omnipath/app/src/ngap/core/ng_setup.rs:67-94 | The inner loop converts the PLMNs of one area in order, or fails if one does not decode. |
| `NgSetup.ConvertRequest` | lightning-nf/omnipath/app/src/ngap/core/ng_setup.rs:60-95 | The nested loops convert the flattened list of all (area, PLMN) pairs, or fail if one does not decode. |
| `NgSetup.HandleRequest` | lightning-nf/omnipath/app/src/ngap/core/ng_setup.rs:32-128 | The response is the decision that `AcceptedIff`, `SuccessOffers` and `FailureTells` pin down, and the node id is recorded unless it conflicts. |
| `NgSetup.PairsAre` | lightning-nf/omnipath/app/src/ngap/core/ng_setup.rs:60-95 | The flattened list holds exactly the pairs the request sends. |
| `NgSetup.AllDecode` | lightning-nf/omnipath/app/src/ngap/core/ng_setup.rs:60-95 | Conversion succeeds exactly when every broadcast PLMN decodes. |
| `NgSetup.AcceptedIff` | lightning-nf/omnipath/app/src/ngap/core/ng_setup.rs:46-127 | NG Setup succeeds if and only if the node does not conflict, every broadcast PLMN decodes, and some sent pair of octets, filler normalised, is the encoding of a configured TAI. |
| `NgSetup.SuccessOffers` | lightning-nf/omnipath/app/src/ngap/core/ng_setup.rs:114-127 | A success offers the whole configured list, entry i reading back as configured entry i, the configured name and capacity 255. |
| `NgSetup.FailureTells` | lightning-nf/omnipath/app/src/ngap/core/ng_setup.rs:46-113 | ConflictingRanId exactly on a conflict, ConversionError exactly if otherwise some sent PLMN does not decode, and else UnsupportedTais with one converted area per sent pair, in order. |
| `NgSetup.PairAt` | lightning-nf/omnipath/app/src/ngap/core/ng_setup.rs:60-95 | The pair of area i and PLMN j comes after all pairs of the areas before i, at place j. |
| `NgSetup.PairCount` | lightning-nf/omnipath/app/src/ngap/core/ng_setup.rs:60-95 | There are as many pairs as broadcast PLMNs. |
| `Association.RegistrySound` | lightning-nf/omnipath/app/src/ngap/engine/controller.rs:69-120 | Over all interleavings every entry sits under its owner's node id, its owner has written a successful response, nothing is routed before the insert, at most three setup messages are read and setup is given up only after the third, and every UE table is sound. |
| `Association.RoutedExactly` | lightning-nf/omnipath/app/src/ngap/engine/controller.rs:254-300 | In every interleaving the handlers of a connection are exactly those of the InitialUEMessages it read, one each, in order. |
| `Association.LiftHandlers` | lightning-nf/omnipath/app/src/ngap/engine/controller.rs:268-300 | Every run of a connection's handlers is a run of the system that changes those handlers alone. |
| `Association.MessageIsServed` | lightning-nf/omnipath/app/src/ngap/engine/controller.rs:268-300 | A looping connection's InitialUEMessage with an unknown id has a continuation that stores a context with the next AMF UE id and serves it; a known id is refused; nothing else changes. |
| `Association.LoopEndsAs` | lightning-nf/omnipath/app/src/ngap/engine/controller.rs:103-116 | A loop has failed exactly if a read failed, ended exactly if the end of the stream was read, and the connection is closed exactly if it was closed after that. |
| `Association.NodeIsFreed` | lightning-nf/omnipath/app/src/ngap/engine/controller.rs:103-120 | A looping connection that reads the end of its stream gives its node id back, and nothing else changes. |
| `Association.RegistryChanges` | lightning-nf/omnipath/app/src/ngap/engine/controller.rs:94-116 | An entry appears only by an answered connection's insert, disappears exactly when its own connection closes after a normal end, and is never replaced. |
| `Association.FailedLoopBlocksNode` | lightning-nf/omnipath/app/src/ngap/engine/controller.rs:107-116 | After a read error the node id stays registered for ever and every later request of that node is refused. |
| `Association.FailedLoopHappens` | lightning-nf/omnipath/app/src/ngap/engine/controller.rs:107-116 | Any accepted request leads to a registered node whose loop failed. |
| `Association.InsertNeverFails` | lightning-nf/omnipath/app/src/ngap/engine/controller.rs:90-97 | If no connection passes the duplicate check for a node in another's window, no insert meets a registered id. |
| `Association.AbortsIff` | lightning-nf/omnipath/app/src/ngap/engine/controller.rs:90-97 | The insert of a connection aborts if and only if another connection has registered the node since its duplicate check and has not closed. |
| `Association.OverlapAborts` | lightning-nf/omnipath/app/src/ngap/engine/controller.rs:94-97 | With two connections of one node past the check, the second insert aborts and the first one's entry stays. |
| `Association.OverlapHappens` | lightning-nf/omnipath/app/src/ngap/core/ng_setup.rs:46-51 | Any request the configuration accepts leads to that state from the start. |
| `Association.SetupFollowsAttempts` | lightning-nf/omnipath/app/src/ngap/engine/controller.rs:134-227 | In every interleaving, whatever the registry does meanwhile, a connection gets past setup with the node of its first successful attempt, and gives up exactly after three that failed. |
| `Association.OutcomeIff` | lightning-nf/omnipath/app/src/ngap/engine/controller.rs:176-227 | An attempt succeeds for a node exactly when it read that node's request, the node was unregistered, every PLMN decodes, a sent pair is served octet for octet, and the response was written. |
| `Association.AttemptIsRun` | lightning-nf/omnipath/app/src/ngap/engine/controller.rs:176-227 | An uninterrupted attempt is a run that ends before the insert or in the next attempt. |
| `Association.NgapContext.TryNgSetup` | lightning-nf/omnipath/app/src/ngap/engine/controller.rs:176-227 | A node results exactly from an accepted request of a node the check does not find registered, whose response was written. |
| `Association.NgapContext.TryNgSetupWithRetries` | lightning-nf/omnipath/app/src/ngap/engine/controller.rs:134-152 | The first successful one of at most three attempts, each with the registry it meets, decides; nothing results only after three failures. |
| `Association.NgapContext.Register` | lightning-nf/omnipath/app/src/ngap/engine/controller.rs:94-97 | The insert step of the system: the connection owns its node from then on, or aborts exactly if somebody owns it; the registry stays sound. |
| `Association.NgapContext.CloseRanConnection` | lightning-nf/omnipath/app/src/ngap/engine/controller.rs:312-316 | The close step of the system: the node is free again, everybody else keeps the node they own, and the registry stays sound. |
| `H2Frames.FramesOfEncoded` | tests/integration/sniffer/h2_decoder/decoder.py:177-198 | Whatever frames are sent, laid out as in section 4.1 of RFC 7540, are found in order, and what follows them is left. |
| `H2Frames.FramesSplit` | tests/integration/sniffer/h2_decoder/decoder.py:177-198 | Frames of a concatenation are those of the first part and then those of its leftover with the rest. |
| `H2Frames.FindNextIs` | tests/integration/sniffer/h2_decoder/decoder.py:354-380 | Recovery finds the first offset with a type from 0 to 9 and a body that fits, spelled out on the octets, or there is none. |
| `H2Frames.FindNextFrame` | tests/integration/sniffer/h2_decoder/decoder.py:354-380 | The search loop returns that offset, or -1. |
| `H2Frames.Recovery` | tests/integration/sniffer/h2_decoder/decoder.py:205-214 | When handling raises, exactly the bytes up to the next header that fits are lost and everything from there on is handled; without such a header the rest is dropped. |
| `H2Frames.ParseConsumes` | tests/integration/sniffer/h2_decoder/decoder.py:168-220 | However handling raises, the new buffer is a suffix of the old one with no complete frame at its front. |
| `H2Frames.ParseIsFold` | tests/integration/sniffer/h2_decoder/decoder.py:177-214 | Where nothing raises, the loop handles exactly the frames of the whole-buffer reference and keeps its leftover. |
| `H2Frames.SegmentationIrrelevant` | tests/integration/sniffer/h2_decoder/decoder.py:109-220 | For every byte string and every way of cutting it, the same frames are handled and the same bytes left as for one segment. |
| `H2Connection.EmittedOnce` | tests/integration/sniffer/h2_decoder/decoder.py:113-137 | In any session at all, with any handlers that may raise after any part of their work as long as the stream table stays in order, no stream id is emitted twice, and the ended ids are exactly the emitted ones. |
| `H2Connection.SessionEmitsOnce` | tests/integration/sniffer/h2_decoder/decoder.py:113-137 | The same for the decoder's own frame handling, pushed streams and recoveries included. |
| `H2Connection.CollectValid` | tests/integration/sniffer/h2_decoder/decoder.py:123-137 | Exactly the completed streams are emitted, each once, and marked as ended. |
| `H2Connection.CollectLeaves` | tests/integration/sniffer/h2_decoder/decoder.py:134-136 | The completed streams, and no others, leave the table; nothing else changes. |
| `H2Connection.CompletedInOrder` | tests/integration/sniffer/h2_decoder/decoder.py:130-133 | Streams are emitted in the order in which they entered the table. |
| `H2Connection.SettingsApplied` | tests/integration/sniffer/h2_decoder/decoder.py:272-287 | For every list of settings, laid out as in section 6.5 of RFC 7540, the decoder is resized with the values of exactly those with identifier 0x1, in order. |
| `H2Connection.SettingsRoundTrip` | tests/integration/sniffer/h2_decoder/decoder.py:274-278 | Every body of whole settings is the layout of the settings read from it. |
| `H2Connection.SettingsFrame` | tests/integration/sniffer/h2_decoder/decoder.py:270-299 | A SETTINGS frame resizes the decoder of its direction so, and does nothing if its body is not a whole number of settings. |
| `H2Connection.PromiseIs` | tests/integration/sniffer/h2_decoder/decoder.py:326-336 | A PUSH_PROMISE puts its block, decoded with the server's decoder, on the client side of exactly the promised stream. |
| `H2Halves.DecoderIs` | tests/integration/sniffer/h2_decoder/decoder.py:268-352 | A direction's decoder has decoded exactly that direction's header blocks and was resized by exactly its settings, in frame order. |
| `H2Halves.HalfIs` | tests/integration/sniffer/h2_decoder/stream.py:22-48 | For every list of frames: headers are the first non-empty decoded block, trailers the last one after it, data the DATA bodies in order, complete exactly if an END_STREAM or a whole RST_STREAM came. |
| `H2Halves.EmittedIs` | tests/integration/sniffer/h2_decoder/decoder.py:113-165 | Under every schedule a stream is emitted exactly if both directions end it, and its record is what the frames of each direction say. |
| `H2Interleaving.LateEffectIs` | tests/integration/sniffer/h2_decoder/stream.py:22-48 | A frame changes a completed half exactly when it has the late effect described by a caller-checkable condition. |
| `H2Interleaving.Frozen` | tests/integration/sniffer/h2_decoder/stream.py:22-48 | Without late effects a half is final as soon as it is complete. |
| `H2Interleaving.NoHeadersOrDataAfterEnd` | tests/integration/sniffer/h2_decoder/decoder.py:309-352 | No HEADERS or DATA after the end means no late effect. |
| `H2Interleaving.DispatchSides` | tests/integration/sniffer/h2_decoder/decoder.py:309-352 | A frame acts on its own direction as if the other did not exist. |
| `H2Interleaving.EmittedFromBytes` | tests/integration/sniffer/h2_decoder/decoder.py:113-137 | What is emitted for a stream is a function of the two directions' bytes, for every segmentation and every interleaving. |
| `H2Interleaving.ScheduleIrrelevantIff` | tests/integration/sniffer/h2_decoder/decoder.py:113-137 | All schedules of the same bytes emit the same record for a stream if and only if it never completes in both directions or nothing is added late. |
| `H2Interleaving.ScheduleMatters` | tests/integration/sniffer/h2_decoder/decoder.py:113-137 | Bytes with data after the end of a stream, for which two schedules emit different records. |
| `H2Capture.CanonicalIff` | tests/integration/sniffer/h2_decoder/decoder.py:84-88 | Two address pairs share a key exactly when they are the same pair in either direction. |
| `H2Capture.Demultiplexed` | tests/integration/sniffer/h2_decoder/decoder.py:69-121 | However packets of all connections interleave, each connection ends and emits exactly as its own packets alone would. |
| `H2Capture.CaptureTracks` | tests/integration/sniffer/h2_decoder/decoder.py:92-106 | A connection is tracked exactly when one of its packets holds the whole preface; otherwise nothing is emitted for it. |
| `H2Capture.CaptureEmitsOnce` | tests/integration/sniffer/h2_decoder/decoder.py:69-137 | In a whole capture no stream of a connection is emitted twice. |
| `H2Capture.SplitPrefaceMissed` | tests/integration/sniffer/h2_decoder/decoder.py:93-107 | Cut anywhere between two packets the preface is missed; in one packet it is seen. |
| `H2Capture.PrefaceIsText` | tests/integration/sniffer/h2_decoder/decoder.py:22-22 | The preface is the text of section 3.5 of RFC 7540. |
| `H2Capture.OpensAfterPreface` | tests/integration/sniffer/h2_decoder/decoder.py:93-106 | A connection starts with exactly what follows the first preface of its packet, the sender being the client. |
| `H2Capture.TwoSides` | tests/integration/sniffer/h2_decoder/decoder.py:109-118 | What comes from the opener is the client's side, what comes from the other address the server's. |
| `H2Decoder.StreamObject.AddHeaders` | tests/integration/sniffer/h2_decoder/stream.py:22-37 | First block becomes headers, later ones trailers, of one direction only. |
| `H2Decoder.StreamObject.AddData` | tests/integration/sniffer/h2_decoder/stream.py:39-48 | Data are appended to one direction only. |
| `H2Decoder.ConnectionObject.Decode` | tests/integration/sniffer/h2_decoder/connection.py:28-43 | The direction's decoder advances; a broken block counts as empty. |
| `H2Decoder.ConnectionObject.ProcessSettings` | tests/integration/sniffer/h2_decoder/decoder.py:268-299 | The header table size is applied to the direction's decoder setting by setting, or not at all for a ragged body. |
| `H2Decoder.ConnectionObject.HandleFrame` | tests/integration/sniffer/h2_decoder/decoder.py:309-352 | The new connection state, with no other stream object touched, is the specified dispatch. |
| `H2Decoder.ConnectionObject.ParseBuffer` | tests/integration/sniffer/h2_decoder/decoder.py:168-220 | The loop over offsets is the recursive parser, recovery included, and the buffer becomes its leftover. |
| `H2Decoder.ConnectionObject.CollectCompleted` | tests/integration/sniffer/h2_decoder/decoder.py:123-137 | The two loops emit and remove exactly the specified streams in table order. |
| `H2Decoder.ConnectionObject.ProcessPayload` | tests/integration/sniffer/h2_decoder/decoder.py:109-121 | One segment of a tracked connection has the specified effect and result. |
| `H2Decoder.DecoderObject.ProcessTcpPacket` | tests/integration/sniffer/h2_decoder/decoder.py:69-121 | One packet changes its own connection only, and the table and result are those of the specification the capture theorems are about. |

## Left out

- Panics inside jobs and cancellation of `set` half-way: assumed not to happen; the code has no recovery for either (a panicking job would leave the flag set with no processor).
- Closures that keep the write guard of a context beyond their own end; a job's guard is released when it finishes.
- Calls from a job into another context's queue; a job acts on its own context or calls back into its own queue.
- SCTP sockets, the tokio scheduler, HTTP requests and timeouts: what a read or a future yields is an input.
- ASN.1 PER, HPACK, hyperframe and the generated API models: abstract; HPACK is a decoder state per direction and functions on it.
- HTTP/2 padding, priority fields and CONTINUATION: the decoder does not interpret them, so no conformance to RFC 7540 beyond frame layout is claimed.
- The `settings` dictionary and addresses inside emitted records' connection part: shared by both directions, so its value depends on packet order.
- H2Interleaving.ScheduleIrrelevantIff: leaves out PUSH_PROMISE, which writes to the other direction, and escaping exceptions, after which bytes are skipped; `H2Connection.EmittedOnce` covers both.
- H2Decoder.ConnectionObject.ParseBuffer: in the objects an exception that escapes leaves the connection as it was; `H2Connection.EmittedOnce` and `H2Frames.ParseConsumes` do not assume that.
- TokenStore.Store.Get: takes the maps it reads as input, since other calls change the store between its reads; `TokenStore.GetFollowsViews` ties them to the store.
- TokenStore.Store.GetToken: the same for the maps read by its get.
- GUAMI, AMF identifier and 5G-S-TMSI bit packing, RAN node name and paging DRX in NG Setup: bit alignment of types not shown, or plain copies.
- Tracking area codes of four hexadecimal digits: kept as strings; `NgSetup.AcceptedIff` shows that they match no octets.
- GMM and NAS handlers, the association index, procedure code tables, configuration, registration with the NRF, the command line and packet capture: plumbing, unfinished or finite tables.
