# Verified model of the object-detection micro-service

This project models the service that receives video frames from RabbitMQ, queues them per source, runs a
YOLO network on them one at a time and publishes the detections, and proves what its concurrent pipeline,
its reconnecting message-bus client and its post-processing guarantee.

## How the model is organised

* **Scheduling.** `OrderedKeys` is the iteration order of a `std::map` and the round-robin strategy on it;
  `Strategies` is the load strategy with the optimality of longest-first service.
* **The concurrent pipeline.** `Pipeline` is a step machine with three program counters (the producer that
  registers, unregisters and enqueues, the detection thread, the processing thread), the holder of every
  mutex, and histories of what was accepted, pushed, retired and published. One operation on a map, queue,
  counter or mutex is one step. A thread given a turn while its mutex is held does not move, so *every
  interleaving is a sequence of events* and every theorem is about `Exec(INITIAL, es)` for arbitrary `es`.
  Inference answers each request with detections or an exception, as the event says.
  `PipelineInvariant` proves the invariant, `PipelineRefinement` the refinement of the atomic service,
  `PipelineEvents` that calls, answers of inference and the publisher have their effects in every run,
  `PipelineTheorems` the safety properties, `EmptyChoice` when the choice is made from an empty map,
  `PipelineProgress` the bounds on waiting, `Draining` that the queues drain, and `Starvation` a source
  that waits forever.
* **The services as objects.** `ServiceSpec` says what one call, or one iteration of the detection loop,
  does when nothing interferes, and the atomic service with its five operations. The classes of `Services`
  update their maps in place and are proved against it. `PipelineRefinement.RunsRefine` proves that every
  run of the interleaved machine amounts to a sequence of atomic operations. A choice and its service are
  two operations, because a source may be registered in between; `FixedSourcesIterate` and
  `QuietRunsIterate` prove that they amount to the iterations of `Services` while no source comes or goes.
* **The message-bus client.** `MessageBus` holds the action log and the client; its restore loop clears the
  log and replays it through the same methods that record it. `BusHistory` treats whole runs.
  `SourceListener` and `SourceHistory` add the source and frame callbacks, `Publishing` and
  `PublisherHistory` the data publisher and the processing service's loop.
* **Post-processing.** `Decoding` is the pointer walk over the flat buffer, `Letterbox` the square image
  and the box scaling, `Yolo` suppression and assembly.

Assumptions of the model: `register_source`, `unregister_source` and `try_add_to_queue` have one caller
thread at any time (main during warm-up, then the listening client: main.cpp:188-197, 213-217, 234), which
is why there is one producer; nothing in the body of the detection loop throws except inference; restoring
a channel is atomic for its client, as the warning at inc/rabbitmq/message_bus_client.hpp:53 requires.
Answers of foreign code (is the channel usable, what does the broker reply, what does inference return,
which of several equal maxima is found, which candidates survive suppression) are arbitrary inputs.

## Where the code does less than one might expect

* The repository's README promises thread-safe operations, but `run` tests for an empty map before it takes
  the inference mutex. `EmptyChoiceExactly` proves that a program of calls can lead to a choice from the
  empty map exactly when one of them unregisters the only registered source, and `CallCanFault` the same
  for the next call after any run whose calls never removed the last source; the warm-up does it
  (`WarmUpCanFault`), and `EmptyChoiceHappens` gives a run. In the machine the detection thread stops at
  `DetectorFault` there; in C++ the behaviour is undefined.
* A null head frame is never removed. `BoundedWaiting` proves that a pending frame is moved within its
  bound exactly when neither it nor a frame ahead of it is null. A head on which inference always throws
  stays as well (`FailureBlocks`).
* When the queue chosen last is unregistered the round robin starts again at the least id, so a source can
  wait forever although it stays registered: `SourceStarves` gives the runs, and `BoundedWaiting` counts
  each such event as a lap.
* After a reconnection and until the log has been replayed, results are published on a channel on which
  their exchange need not be declared yet: `PublishesOnOwnChannel` says exactly when, `DeclarationLost`
  gives a run.
* Results handled before a publisher is set are dropped; `ResultsInOrder` counts exactly these.
* A source that is retired and announced again has two listeners in the log (`ListenersCountAdmissions`).
* The publish overload with a limit ignores the limit and always reports success (`PublishLimited`).
* An obsolete-source message for an unknown source is not acknowledged (`Retired` in `SourceListener`).

## Model

| member | source | states |
|---|---|---|
| OrderedKeys.ChooseAtIndex | src/services/detection_service.cpp:195-206 | the round-robin strategy returns the key after the current one in map order, and the first key when there is none or the current id is no key |
| OrderedKeys.ChoosesLeastAbove | src/services/detection_service.cpp:195-206 | the same without positions: the least key above the current one, and the least key of all when there is none or the current id is no key |
| OrderedKeys.ChooseApproaches | src/services/detection_service.cpp:195-206 | every choice brings each key one call closer; the call that returns a key starts a full lap for it |
| OrderedKeys.RoundsCoverOnce | src/services/detection_service.cpp:195-206 | among the first n choices, n the number of keys, each key is returned by exactly one call, wherever the current id stands and whether or not it is a key |
| OrderedKeys.RoundsPeriodic | src/services/detection_service.cpp:195-206 | with the keys unchanged the choices repeat with period n |
| OrderedKeys.DistanceWith | src/services/detection_service.cpp:195-206 | one more source, other than the one chosen last, delays any other source by one choice at most and advances none |
| Strategies.LoadChoosesLeastLongest | src/services/detection_service.cpp:185-191 | the chosen queue is a longest one, with the least id among the longest |
| Strategies.LongestFirstReaches | src/services/detection_service.cpp:179-192 | k longest-first services bring all queues down to m exactly when the surplus over m is at most k |
| Strategies.LongestFirstOptimal | src/services/detection_service.cpp:179-192 | after as many services as any other schedule, longest-first has met every backlog bound that schedule meets |
| Services.DetectionService.RegisterSource | src/services/detection_service.cpp:28-37 | a new source gets an empty queue, a mutex and a counter at 0; a known one is refused; queues and counters of other sources keep their values |
| Services.DetectionService.UnregisterSource | src/services/detection_service.cpp:40-50 | a known source loses queue, mutex and counter; an unknown one is refused; queues and counters of other sources keep their values |
| Services.DetectionService.TryAddToQueue | src/services/detection_service.cpp:63-75 | a frame is appended exactly when its source is known and holds fewer than 30 frames |
| Services.DetectionService.RunOnce | src/services/detection_service.cpp:96-145 | one loop iteration chooses round-robin and serves that queue; the counter goes up exactly with a result |
| Services.DetectionService.Run | src/services/detection_service.cpp:90-156 | any number of iterations equals the fold of the atomic iteration, starting from id 0; the 64-bit counter counts the results |
| Services.ResultQueue.PushResults | src/services/processing_service.cpp:108-112 | a result is appended to the shared queue |
| PipelineInvariant.InvByStep | src/services/detection_service.cpp:28-144 | every step of every thread keeps the invariant: keys, locks, heads, capacity, ledger, results, counter |
| PipelineTheorems.FramesConserved | src/services/detection_service.cpp:63-75 | in every interleaving and registration period the accepted frames are, in order, those pushed to the results followed by those still queued (a head in flight counts once), or by the suffix unregistering discarded |
| PipelineEvents.AnswersReachResults | src/services/detection_service.cpp:113-123 | in every interleaving the results pushed are, in order, the detections the events answer where inference is asked, each with the source and frame it was asked about |
| PipelineEvents.CallsReachQueues | src/services/detection_service.cpp:28-75 | in every interleaving the registrations, unregistrations and enqueued frames are, in order, those the producer's calls ask for, except frames whose size test finds 30 waiting |
| PipelineEvents.AddCall | src/services/detection_service.cpp:63-75 | an undisturbed call appends the frame exactly when the source is known and fewer than 30 frames wait |
| PipelineEvents.RegisterCall | src/services/detection_service.cpp:28-37 | an undisturbed call gives a new source an empty queue and changes nothing else |
| PipelineEvents.UnregisterCall | src/services/detection_service.cpp:40-50 | an undisturbed call removes the queue and changes nothing else |
| PipelineEvents.NoDropsCounted | src/services/detection_service.cpp:34-47 | every drop counter is 0 in every reachable state |
| PipelineTheorems.ResultsInOrder | src/services/processing_service.cpp:129-154 | results are retired in push order, one pop each, and the published ones are those handled after the unpublished ones, in order |
| PipelineEvents.PublishedExactly | src/services/processing_service.cpp:114-153 | the publisher is set exactly from the first set call on; exactly the results handled from then on are published, in order, and the others are counted as unpublished |
| PipelineEvents.NoneMissed | src/services/processing_service.cpp:142-143 | once a publisher is set no result passes unpublished |
| PipelineEvents.ResultsRetire | src/services/processing_service.cpp:129-154 | every five turns in which the processing thread has something to do and need not wait retire a result |
| PipelineTheorems.CounterCountsMoves | src/services/detection_service.cpp:118-123 | the counter equals the completed moves plus the one in progress, modulo 2^64 |
| PipelineRefinement.DetectorRefines | src/services/detection_service.cpp:104-144 | the fine-grained loop refines the atomic service: one step chooses the next queue, one deciding step serves it, skipping or moving exactly the peeked head, and no other step has an effect |
| PipelineRefinement.RunsRefine | src/services/detection_service.cpp:28-144 | every interleaving reaches what the sequence of its operations (choose, serve, register, unregister, enqueue) reaches on the atomic service, which keeps its own queues, results and turn |
| PipelineRefinement.FixedSourcesIterate | src/services/detection_service.cpp:90-156 | while no source comes or goes every run amounts to whole iterations of the detection loop, each at its deciding step, with arrivals in between |
| PipelineRefinement.AnswersAreGiven | src/services/detection_service.cpp:118-123 | the services of every run are performed on the answers that its events give where inference is asked, in their order |
| PipelineRefinement.QuietRunsIterate | src/services/detection_service.cpp:90-156 | without arrivals a run amounts to the iterations that `Services.DetectionService.Run` is proved to perform, on the answers its events give |
| PipelineRefinement.ServedOncePerPass | src/services/detection_service.cpp:104-144 | in every run the passes that chose a queue are as many as the services performed, plus one while a pass is undecided |
| PipelineRefinement.ProducerRefines | src/services/detection_service.cpp:28-75 | the producer's steps are the atomic register, unregister and enqueue, at one step each |
| PipelineTheorems.PoppedIsPeeked | src/services/detection_service.cpp:113-143 | the frame popped is the frame peeked and the last one pushed to the results, whatever happened in between |
| PipelineTheorems.CapacityNeverExceeded | src/services/detection_service.cpp:68-72 | no queue exceeds 30 frames although the size test is outside the lock; total frames never exceed 30 per source |
| PipelineTheorems.KeysDifferOnOneId | src/services/detection_service.cpp:32-47 | the three maps have the same keys except for the one id a call is half-way through |
| PipelineTheorems.AccessesAlwaysHit | src/services/detection_service.cpp:68-143 | every map access after a choice or a membership test finds its key and every head access a frame, so nothing is inserted by accident |
| EmptyChoice.CallCanFault | src/services/detection_service.cpp:97-106 | after any run whose calls never removed the last source, the next call can lead to a choice from the empty map exactly when it unregisters the only registered source, wherever the threads stand |
| EmptyChoice.EmptyChoiceExactly | src/services/detection_service.cpp:97-106 | a program of calls can lead to a choice from the empty map exactly when one of its calls unregisters the only source that the calls before it left registered |
| EmptyChoice.WindowLeadsToEmptyChoice | src/services/detection_service.cpp:97-106 | from any state in which the last source is erased between the emptiness test and the lock, a schedule reaches the choice from the empty map |
| EmptyChoice.EmptyChoiceHappens | src/services/detection_service.cpp:97-106 | a concrete run of thirteen events: source 0 is registered and unregistered, and the detection thread chooses from the empty map |
| EmptyChoice.WarmUpCanFault | main.cpp:188-197 | the calls of the warm-up (register source 0, add a frame, unregister it) can lead there |
| PipelineTheorems.NoDeadlock | src/services/detection_service.cpp:44-144 | a waiting thread waits for a thread that can step, or for one that waits for a third that can step |
| PipelineTheorems.MutexErasedUnused | src/services/detection_service.cpp:44-47 | no queue mutex is erased while held or about to be taken |
| PipelineTheorems.ObsoleteStaysOut | src/services/detection_service.cpp:40-50 | while a source is unregistered it has no queue, is not chosen, and no result of it is pushed |
| PipelineProgress.BoundedWaiting | src/services/detection_service.cpp:92-155 | while the source stays registered among at most n, n(p+1+f+r)+o completed passes move the frame at position p exactly when no null frame is at or before it; f counts exceptions on the source, o registrations, r (un)registrations of the queue chosen last; for every schedule and whatever the other sources and the producer do |
| PipelineProgress.TurnsComplete | src/services/detection_service.cpp:94-156 | passes complete: every fourteen turns in which the detection thread does not wait for a mutex complete one |
| PipelineProgress.BoundedWaitingInTurns | src/services/detection_service.cpp:92-155 | the same bound in turns of the detection thread |
| Starvation.SourceStarves | src/services/detection_service.cpp:199-200 | for every number of passes there is a run in which a source stays registered among at most three with a sound frame and is never served, because the queue chosen last is unregistered again and again |
| Starvation.CallsHost | src/services/detection_service.cpp:28-50 | a source stays registered through every run whose calls do not unregister it |
| PipelineProgress.NullBlocks | src/services/detection_service.cpp:113-116 | a null frame and the frames behind it are never moved |
| PipelineProgress.FailureBlocks | src/services/detection_service.cpp:118-154 | while inference never succeeds on a source, none of its frames is moved except one already past inference |
| Draining.Drained | src/services/detection_service.cpp:104-144 | while the source stays registered and nothing arrives for it, the passes needed for its backlog leave nothing of it pending |
| Draining.AllDrained | src/services/detection_service.cpp:104-144 | while nothing arrives and no source comes or goes, n times the longest backlog (exceptions counted as frames) of completed passes empty every queue |
| MessageBus.ActionStorage.Push | inc/rabbitmq/action_storage.hpp:22 | an action is appended to the log |
| MessageBus.ActionStorage.Clear | inc/rabbitmq/action_storage.hpp:23 | the log is emptied |
| MessageBus.ActionStorage.GetAll | inc/rabbitmq/action_storage.hpp:30 | a copy of the log is returned |
| MessageBus.MessageBusClient.Declare | src/rabbitmq/message_bus_client.cpp:101-117 | a declaration records itself and issues its command |
| MessageBus.MessageBusClient.AddNamedListener | src/rabbitmq/message_bus_client.cpp:129-160 | a listener on a named queue records itself, issues the queue declaration and awaits the reply |
| MessageBus.MessageBusClient.AddFreshListener | src/rabbitmq/message_bus_client.cpp:162-193 | the same with a broker-named queue |
| MessageBus.MessageBusClient.OnQueueDeclared | src/rabbitmq/message_bus_client.cpp:141-154 | the reply binds the queue, remembers it and consumes from it |
| MessageBus.MessageBusClient.GetBoundQueue | src/rabbitmq/message_bus_client.cpp:119-127 | the queue bound to an exchange, if any |
| MessageBus.CommandsAt | src/rabbitmq/message_bus_client.cpp:101-193 | command by command, a replay issues what was logged: exchange and kind, queue name and flags |
| MessageBus.MessageBusClient.Restore | src/rabbitmq/message_bus_client.cpp:51-70 | copying, clearing and replaying the log issues exactly the logged commands in order and rebuilds the same log; the error state ends only on a usable, ready channel |
| MessageBus.MessageBusClient.OnError | src/rabbitmq/message_bus_client.cpp:36-40 | an error sets the error state and clears readiness |
| MessageBus.MessageBusClient.OnReady | src/rabbitmq/message_bus_client.cpp:42-48 | the ready handler restores until the error state ends |
| MessageBus.MessageBusClient.ChannelInit | src/rabbitmq/message_bus_client.cpp:26-34 | a closed connection gets no channel, a usable channel is kept, and a new channel forgets outstanding replies and keeps the log |
| MessageBus.MessageBusClient.Reconnect | src/rabbitmq/message_bus_client.cpp:89-94 | the client reconnects only in the error state |
| BusHistory.ReplayIsExact | src/rabbitmq/message_bus_client.cpp:42-70 | any number of passes keeps the log, issues it once per pass, and ends the error state exactly when some pass found the channel usable |
| BusHistory.AwaitedInOrder | src/rabbitmq/message_bus_client.cpp:129-193 | in every run the outstanding requests stand, oldest first, for the listen calls made on the present channel, replayed ones included, that have not been answered |
| BusHistory.ReplyServesOldest | src/rabbitmq/message_bus_client.cpp:141-154 | a reply binds and consumes, with its callback, for the oldest of them, and a reply too many does nothing |
| BusHistory.LogIsRecorded | src/rabbitmq/message_bus_client.cpp:51-70 | in every run the log is the calls made, once each and in order, whatever errors and restores come between |
| BusHistory.ErrorEndsWithFullReplay | src/rabbitmq/message_bus_client.cpp:42-70 | the error state ends only in a ready handler, right after a full replay |
| SourceListener.RabbitmqClient.InitExchanges | src/rabbitmq/rabbitmq_client.cpp:14-20 | the initial exchanges are declared and recorded in order |
| SourceListener.RabbitmqClient.BindAvailableSources | src/rabbitmq/rabbitmq_client.cpp:22-28 | the announcement listener is recorded and issued |
| SourceListener.RabbitmqClient.BindObsoleteSources | src/rabbitmq/rabbitmq_client.cpp:30-36 | the retirement listener is recorded and issued |
| SourceListener.RabbitmqClient.OnAvailableSource | src/rabbitmq/rabbitmq_client.cpp:85-111 | only a new source is registered, declared and listened to; every message is acknowledged |
| SourceListener.RabbitmqClient.OnObsoleteSource | src/rabbitmq/rabbitmq_client.cpp:113-141 | a known source is unregistered and unbound, the second unregister changes nothing; an unknown one is not acknowledged |
| SourceListener.RabbitmqClient.OnNewFrame | src/rabbitmq/rabbitmq_client.cpp:143-230 | without an integer source header a message is acknowledged and dropped; when decoding throws it is dropped unacknowledged; any other frame is offered to its queue and acknowledged |
| SourceHistory.RegisteredAreLive | src/rabbitmq/rabbitmq_client.cpp:98-133 | after any run the registered sources are exactly those announced and not retired since |
| SourceHistory.LogIsHistory | src/rabbitmq/rabbitmq_client.cpp:98-105 | in every run of messages and restores the log is the initial log followed by one declare/listen pair per announcement of a source that was not live |
| SourceHistory.LogGrows | src/rabbitmq/rabbitmq_client.cpp:103-105 | an announcement of a source that is not live adds a fanout declaration and an exclusive auto-delete frame listener on its exchange; no other event adds anything |
| SourceHistory.QueueHolds | src/rabbitmq/rabbitmq_client.cpp:213-214 | after any run the queue of a live source holds, in order, the images that arrived under its id since it was admitted and found fewer than 30 waiting, less those taken from the front |
| SourceHistory.OtherQueuesLeft | src/rabbitmq/rabbitmq_client.cpp:143-214 | a frame changes no other queue |
| SourceHistory.AcknowledgedExactly | src/rabbitmq/rabbitmq_client.cpp:85-226 | in every run the messages acknowledged are, once each and in order, all but retirements of sources that are not live and frames whose image cannot be built |
| SourceHistory.RetiredStaysOut | src/rabbitmq/rabbitmq_client.cpp:125-133 | a retired source stays unregistered until announced again, although its listener stays in the log and is replayed |
| SourceHistory.ListenersCountAdmissions | src/rabbitmq/rabbitmq_client.cpp:103-105 | the log holds one frame listener per admission on an exchange |
| Publishing.DecimalDenotes | src/publishers/basic_publisher.cpp:10 | decimal rendering can be read back |
| Publishing.DecimalCanonical | src/publishers/basic_publisher.cpp:10 | the rendering has digits only and no leading zero |
| Publishing.ExchangeOfSource42 | inc/publisher/data_publisher.hpp:33 | the exchange of source 42 is "detection-results-42" |
| Publishing.NamesDistinct | src/publishers/basic_publisher.cpp:10 | under any prefix distinct sources get distinct exchange names |
| Publishing.DataPublisher.IsDeclared | src/publishers/basic_publisher.cpp:15-18 | whether the source has an exchange |
| Publishing.DataPublisher.DeclareFor | src/publishers/basic_publisher.cpp:8-13 | the exchange named by prefix and source is declared and recorded; the name first remembered for the source stays |
| Publishing.DataPublisher.Publish | src/publishers/data_publisher.cpp:31-40 | declare on first use, then publish if the channel is usable |
| Publishing.DataPublisher.PublishLimited | src/publishers/data_publisher.cpp:42-56 | the overload with a limit publishes everything and always reports success |
| Publishing.ProcessingService.SetDataPublisher | src/services/processing_service.cpp:114-119 | the publisher is replaced |
| Publishing.ProcessingService.RunOnce | src/services/processing_service.cpp:129-154 | one pass publishes the head of the result queue, if a publisher is set, and pops it |
| PublisherHistory.LogIsFirstSources | src/publishers/data_publisher.cpp:31-40 | in every run the log is one declaration per source, in order of first results |
| PublisherHistory.PublishesExactly | src/publishers/data_publisher.cpp:31-40 | the publish commands are exactly the results that met a usable channel, in order, each on its source's exchange; restores publish nothing |
| PublisherHistory.PublishAfterDeclare | src/publishers/data_publisher.cpp:33-39 | across restores every publish follows some declaration of its exchange, of which the log holds exactly one |
| PublisherHistory.DeclaredWhenIntroduced | src/rabbitmq/message_bus_client.cpp:26-70 | a source's exchange has been declared on the present channel exactly when the source had its first result, or a ready handler replayed the log with it, since the channel was opened |
| PublisherHistory.PublishesOnOwnChannel | src/publishers/data_publisher.cpp:33-39 | a publish follows a declaration of its exchange on its own channel exactly when it is the source's first result or the source was introduced since the channel was opened |
| PublisherHistory.IntroducedOutsideError | src/rabbitmq/message_bus_client.cpp:42-70 | outside the error state every source that had a result has been introduced, so every publish follows a declaration on its own channel |
| PublisherHistory.DeclarationLost | src/rabbitmq/message_bus_client.cpp:87-94 | after a result, an error, a reconnection and a second result the last command publishes on the new channel, on which its exchange has not been declared |
| Decoding.FirstMaxLocates | src/ai/yolo_v8.cpp:81-85 | what is asked of the library's maximum search can be met: the first of the maxima does |
| Decoding.WalkInBounds | src/ai/yolo_v8.cpp:77-107 | the pointer walk stays inside the buffer exactly when a row holds the box and all class scores |
| Decoding.TransposedAt | src/ai/yolo_v8.cpp:65-68 | position by position, the transposed buffer holds at i*d+c what the output holds at c*rows+i |
| Decoding.ColumnsAt | src/ai/yolo_v8.cpp:62-68 | channel c of anchor i is the output's element c*rows+i |
| Decoding.RowsAt | src/ai/yolo_v5.cpp:21-35 | in v5 channel c of anchor i is the output's element i*d+c |
| Decoding.ScaledBoxParts | src/ai/yolo_v8.cpp:92-103 | the box begins half its extent before the centre; start and extent are scaled and lose their fraction toward zero |
| Decoding.DecodeV8 | src/ai/yolo_v8.cpp:59-107 | the three vectors stay aligned and are the order-preserving filter-and-map over the anchors of the channel-major output |
| Decoding.DecodeV5 | src/ai/yolo_v5.cpp:21-68 | the same over anchor-major output with the objectness test |
| Yolo.KeptComeFrom | src/ai/yolo_v8.cpp:77-107 | candidates come from ascending anchors, each with a class of maximal score above the thresholds |
| Yolo.KeptComplete | src/ai/yolo_v8.cpp:85-104 | an anchor gives a candidate exactly when its best class score exceeds 0.25, in v5 when its objectness reaches 0.25 and its best class score exceeds 0.45 |
| Yolo.SuppressionExists | src/ai/yolo_v8.cpp:109-110 | what is asked of non-maximum suppression can be met |
| Yolo.Assemble | src/ai/yolo_v8.cpp:112-125 | one detection per surviving index, with the label and colour of its class |
| Yolo.SelectedAreSound | src/ai/yolo_v8.cpp:77-125 | if suppression returns distinct indices of candidates above its score threshold, detections come from distinct anchors, each with a class in range of maximal score above the model's thresholds and a confidence above 0.45 |
| Yolo.SelectedByThresholds | src/ai/yolo_v8.cpp:110 | suppression is asked with score threshold 0.45 and overlap threshold 0.5 |
| Yolo.DecoderScales | src/ai/yolo_v8.cpp:38-71 | the factors scale the model's width and height to the letterboxed side for a square model and to the image's own columns and rows otherwise |
| Yolo.DecoderScalesLetterboxed | src/ai/yolo_v8.cpp:38-71 | for a square model both factors belong to the letterboxed image |
| Yolo.DetectionMeans | src/ai/yolo_v8.cpp:77-125 | each detection comes from an anchor of the output: a class of maximal score above the thresholds, its confidence (v5: the objectness), label and colour, and the anchor's box scaled by the model's factors |
| Yolo.DetectionInside | src/ai/yolo_v8.cpp:70-122 | a detection whose network box lies in the model's range lies inside the letterboxed image |
| Yolo.DetectV8 | src/ai/yolo_v8.cpp:22-131 | an image that is empty after letterboxing throws; any other gives one detection per selected candidate |
| Yolo.DetectV5 | src/ai/yolo_v5.cpp:8-89 | one detection per selected v5 candidate, with the objectness as confidence; an image without pixels throws |
| Letterbox.FormatToSquare | src/ai/yolo.cpp:37-49 | a max-side square with the source in its top left corner and black elsewhere; a square image is returned itself |
| Letterbox.LetterboxPixels | src/ai/yolo.cpp:37-49 | its side is one of the image's sides and not below either; each pixel is the source's, or zero outside it |
| Letterbox.LetterboxUnique | src/ai/yolo.cpp:37-49 | size and pixels of the letterboxed image are determined by the source image |
| Letterbox.LetterboxIdempotent | src/ai/yolo.cpp:37-49 | letterboxing twice is letterboxing once |
| Letterbox.BoxInside | src/ai/yolo_v8.cpp:92-103 | a network box inside the model's range decodes, truncations included, to a rectangle inside the image |
| Letterbox.BoxInsideSquare | src/ai/yolo_v8.cpp:38-103 | with a square model both axes of the letterboxed image are scaled by one factor, and a network box inside the model's square decodes to a rectangle inside the image |

## Left out

- AMQP-CPP, libevent, sockets, heartbeats and reconnect timing: foreign code; only flags, log and issued commands remain.
- OnReady: the loop is followed for as long as answers of `usable` are given; a channel that is never usable keeps the source spinning.
- DetectorFault: what C++ does after choosing from an empty map is undefined, so nothing is claimed beyond it.
- Run: the endless loop is followed for as many iterations as outcomes are given.
- FormatToSquare: images are 8UC3; copying another pixel type into the square is the image library's affair.
- ScaledBox: numbers are reals and integers unbounded, so rounding and overflow of the casts are not modelled.
- Network inference, blob creation, minimum/maximum search and suppression internals: library code behind short contracts.
- Data races on the C++ containers below one operation, and ownership of frame memory.
- Drawing, per-object thresholds and box limits: their call is commented out in the processing loop.
- The image publisher: its call is commented out; so the publishing client serves the data publisher alone.
- JSON reading and writing: callbacks receive already parsed messages or none.
- Performance meter, logging, `get_performance`, `add_to_queue` (always throws) and `action_storage::pop` (unused).
- Option and environment handling in main.cpp, the example client, Docker and build files.
