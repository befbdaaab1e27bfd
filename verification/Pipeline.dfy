/** The producer, the detection thread and the processing thread as one step machine. Every map,
    queue, counter or mutex operation of the source is one step; a thread that is given a turn while
    its mutex is held stays where it is. Any interleaving is therefore a sequence of events. */
module Pipeline {
  import opened Types
  import opened OrderedKeys
  import opened Strategies
  import opened ServiceSpec

  datatype Thread = Producer | Detector | Processor

  /** Where the one thread that registers, unregisters and enqueues stands. */
  datatype ProducerPc =
    | Idle
    | RegQueue(id: SourceId) | RegMutex(id: SourceId) | RegCounter(id: SourceId)
    | UnregLock(id: SourceId) | UnregQueue(id: SourceId) | UnregMutex(id: SourceId)
    | UnregCounter(id: SourceId) | UnregUnlock
    | AddSize(id: SourceId, frame: Frame) | AddLock(id: SourceId, frame: Frame)
    | AddPush(id: SourceId, frame: Frame) | AddUnlock(id: SourceId)
    | ProducerFault

  /** Where the detection thread stands in one pass of its loop. */
  datatype DetectorPc =
    | Test | Lock | Choose | Check | Fetch
    | Infer(frame: Frame)
    | Count(frame: Frame, found: seq<Detection>)
    | SyncLock(frame: Frame, found: seq<Detection>)
    | Push(frame: Frame, found: seq<Detection>)
    | SyncUnlock(frame: Frame)
    | QueueLock(frame: Frame)
    | Pop(frame: Frame)
    | QueueUnlock
    | Release
    | DetectorFault

  /** Where the processing thread stands in one pass of its loop. */
  datatype ProcessorPc = Await | Publish | ResultLock | ResultPop | ResultUnlock | ProcessorFault

  /** The history of one registration period of a source. */
  datatype Period = Period(source: SourceId, accepted: seq<Frame>, discarded: seq<Frame>, open: bool)

  /** The maps keyed by source, and the history of every registration period. */
  datatype Sources = Sources(
    queues: Queues,
    mutexes: map<SourceId, Option<Thread>>,   // a mutex and the thread that holds it
    dropped: map<SourceId, int>,
    ledger: seq<Period>,
    period: map<SourceId, nat>                // the open period of each registered source
  )

  /** The result queue, the publisher flag, and the history of every result. */
  datatype Output = Output(
    results: seq<Entry>,
    publisher: bool,
    pushed: seq<Entry>,
    pushedIn: seq<nat>,                       // the period each pushed entry belongs to
    retired: seq<Entry>,
    published: seq<Entry>,
    unpublished: nat                          // entries that passed while no publisher was set
  )

  datatype State = State(
    src: Sources,
    out: Output,
    inference: Option<Thread>,
    sync: Option<Thread>,
    total: nat,
    current: SourceId,
    locked: nat,                              // history: passes that chose a queue
    thrown: multiset<SourceId>,               // history: exceptions of inference, by source
    openings: nat,                            // history: registrations
    resets: nat,                              // history: (un)registrations of the queue chosen last
    producer: ProducerPc,
    detector: DetectorPc,
    processor: ProcessorPc
  )

  const INITIAL := State(Sources(map[], map[], map[], [], map[]), Output([], false, [], [], [], [], 0),
                         None, None, 0, 0, 0, multiset{}, 0, 0, Idle, Test, Await)

  datatype Event =
    | Register(id: SourceId)
    | Unregister(id: SourceId)
    | Add(id: SourceId, frame: Frame)
    | SetPublisher
    | ProducerStep
    | DetectorStep(outcome: Outcome)          // the outcome matters only where inference runs
    | ProcessorStep

  predicate Free(m: Option<Thread>) { m == None }

  /** The mutex a thread is about to take, if any, is held. */
  predicate Waits(s: State, t: Thread) {
    match t
    case Producer =>
      (s.producer.UnregLock? && !Free(s.inference))
      || (s.producer.AddLock? && s.producer.id in s.src.mutexes && !Free(s.src.mutexes[s.producer.id]))
    case Detector =>
      (s.detector == Lock && !Free(s.inference))
      || (s.detector.SyncLock? && !Free(s.sync))
      || (s.detector.QueueLock? && s.current in s.src.mutexes && !Free(s.src.mutexes[s.current]))
    case Processor =>
      s.processor == ResultLock && !Free(s.sync)
  }

  /** A call is made only when the producer thread is between calls. */
  function Call(s: State, e: Event): State
    requires e.Register? || e.Unregister? || e.Add? || e.SetPublisher?
  {
    if s.producer != Idle then s
    else match e
      case Register(id) => if id in s.src.queues then s else s.(producer := RegQueue(id))
      case Unregister(id) => if id in s.src.queues then s.(producer := UnregLock(id)) else s
      case Add(id, frame) => if id in s.src.queues then s.(producer := AddSize(id, frame)) else s
      case SetPublisher => s.(out := s.out.(publisher := true))
  }

  /** The queue chosen last comes or goes: the next choice starts from elsewhere. */
  function Resets(s: State, id: SourceId): nat { if id == s.current then 1 else 0 }

  function OpenPeriod(s: State, id: SourceId): State {
    s.(src := s.src.(queues := s.src.queues[id := []],
                     ledger := s.src.ledger + [Period(id, [], [], true)],
                     period := s.src.period[id := |s.src.ledger|]),
       openings := s.openings + 1,
       resets := s.resets + Resets(s, id))
  }

  predicate InPeriod(s: State, id: SourceId) {
    id in s.src.queues && id in s.src.period && s.src.period[id] < |s.src.ledger|
  }

  function ClosePeriod(s: State, id: SourceId): State {
    var closed := if InPeriod(s, id)
                  then s.src.ledger[s.src.period[id] :=
                         s.src.ledger[s.src.period[id]].(discarded := s.src.queues[id], open := false)]
                  else s.src.ledger;
    s.(src := s.src.(queues := s.src.queues - {id}, ledger := closed, period := s.src.period - {id}),
       resets := s.resets + Resets(s, id))
  }

  function Accept(s: State, id: SourceId, frame: Frame): State
    requires id in s.src.queues
  {
    var longer := if InPeriod(s, id)
                  then s.src.ledger[s.src.period[id] :=
                         s.src.ledger[s.src.period[id]].(accepted := s.src.ledger[s.src.period[id]].accepted + [frame])]
                  else s.src.ledger;
    s.(src := s.src.(queues := s.src.queues[id := s.src.queues[id] + [frame]], ledger := longer))
  }

  // ----- the steps of the producer thread -----

  function InsertQueue(s: State, id: SourceId): State {
    if id in s.src.queues then s.(producer := RegMutex(id)) else OpenPeriod(s, id).(producer := RegMutex(id))
  }

  function InsertMutex(s: State, id: SourceId): State {
    if id in s.src.mutexes then s.(producer := RegCounter(id))
    else s.(src := s.src.(mutexes := s.src.mutexes[id := None]), producer := RegCounter(id))
  }

  function InsertCounter(s: State, id: SourceId): State {
    if id in s.src.dropped then s.(producer := Idle)
    else s.(src := s.src.(dropped := s.src.dropped[id := 0]), producer := Idle)
  }

  function StopInference(s: State, id: SourceId): State {
    s.(inference := Some(Producer), producer := UnregQueue(id))
  }

  function EraseQueue(s: State, id: SourceId): State {
    ClosePeriod(s, id).(producer := UnregMutex(id))
  }

  function EraseMutex(s: State, id: SourceId): State {
    s.(src := s.src.(mutexes := s.src.mutexes - {id}), producer := UnregCounter(id))
  }

  function EraseCounter(s: State, id: SourceId): State {
    s.(src := s.src.(dropped := s.src.dropped - {id}), producer := UnregUnlock)
  }

  function AllowInference(s: State): State {
    s.(inference := None, producer := Idle)
  }

  function TestSize(s: State, id: SourceId, frame: Frame): State {
    if id !in s.src.queues then s.(producer := ProducerFault)
    else if |s.src.queues[id]| >= CAPACITY then s.(producer := Idle)
    else s.(producer := AddLock(id, frame))
  }

  function LockForAdd(s: State, id: SourceId, frame: Frame): State {
    if id !in s.src.mutexes then s.(producer := ProducerFault)
    else s.(src := s.src.(mutexes := s.src.mutexes[id := Some(Producer)]), producer := AddPush(id, frame))
  }

  function PushFrame(s: State, id: SourceId, frame: Frame): State {
    if id !in s.src.queues then s.(producer := ProducerFault)
    else Accept(s, id, frame).(producer := AddUnlock(id))
  }

  function UnlockAfterAdd(s: State, id: SourceId): State {
    if id !in s.src.mutexes then s.(producer := ProducerFault)
    else s.(src := s.src.(mutexes := s.src.mutexes[id := None]), producer := Idle)
  }

  function StepProducer(s: State): State {
    if Waits(s, Producer) then s
    else match s.producer
      case Idle => s
      case ProducerFault => s
      case RegQueue(id) => InsertQueue(s, id)
      case RegMutex(id) => InsertMutex(s, id)
      case RegCounter(id) => InsertCounter(s, id)
      case UnregLock(id) => StopInference(s, id)
      case UnregQueue(id) => EraseQueue(s, id)
      case UnregMutex(id) => EraseMutex(s, id)
      case UnregCounter(id) => EraseCounter(s, id)
      case UnregUnlock => AllowInference(s)
      case AddSize(id, frame) => TestSize(s, id, frame)
      case AddLock(id, frame) => LockForAdd(s, id, frame)
      case AddPush(id, frame) => PushFrame(s, id, frame)
      case AddUnlock(id) => UnlockAfterAdd(s, id)
  }

  // ----- the steps of the detection thread -----

  function TestQueues(s: State): State {
    if s.src.queues.Keys == {} then s else s.(detector := Lock)
  }

  function LockInference(s: State): State {
    s.(inference := Some(Detector), detector := Choose)
  }

  function ChooseQueue(s: State): State {
    if s.src.queues.Keys == {} then s.(detector := DetectorFault)
    else s.(current := ChooseByOrder(s.src.queues.Keys, s.current), locked := s.locked + 1, detector := Check)
  }

  /** `at` throws on a missing key; the handler only releases the mutex. */
  function CheckQueue(s: State): State {
    if s.current !in s.src.queues || s.src.queues[s.current] == [] then s.(detector := Release)
    else s.(detector := Fetch)
  }

  function FetchHead(s: State): State {
    if s.current !in s.src.queues || s.src.queues[s.current] == [] then s.(detector := DetectorFault)
    else if s.src.queues[s.current][0] == Null then s.(detector := Release)
    else s.(detector := Infer(s.src.queues[s.current][0]))
  }

  function InferHead(s: State, frame: Frame, outcome: Outcome): State {
    match outcome
    case Thrown => s.(thrown := s.thrown + multiset{s.current}, detector := Release)
    case Detected(found) => s.(detector := Count(frame, found))
  }

  function CountFrame(s: State, frame: Frame, found: seq<Detection>): State {
    s.(total := (s.total + 1) % COUNTER_MODULUS, detector := SyncLock(frame, found))
  }

  function LockResults(s: State, frame: Frame, found: seq<Detection>): State {
    s.(sync := Some(Detector), detector := Push(frame, found))
  }

  function PushResults(s: State, frame: Frame, found: seq<Detection>): State {
    var entry := Entry(s.current, frame, found);
    var per := if s.current in s.src.period then s.src.period[s.current] else |s.src.ledger|;
    s.(out := s.out.(results := s.out.results + [entry],
                     pushed := s.out.pushed + [entry],
                     pushedIn := s.out.pushedIn + [per]),
       detector := SyncUnlock(frame))
  }

  function UnlockResults(s: State, frame: Frame): State {
    s.(sync := None, detector := QueueLock(frame))
  }

  function LockForPop(s: State, frame: Frame): State {
    if s.current !in s.src.mutexes then s.(detector := DetectorFault)
    else s.(src := s.src.(mutexes := s.src.mutexes[s.current := Some(Detector)]), detector := Pop(frame))
  }

  function PopHead(s: State): State {
    if s.current !in s.src.queues || s.src.queues[s.current] == [] then s.(detector := DetectorFault)
    else
      s.(src := s.src.(queues := s.src.queues[s.current := s.src.queues[s.current][1..]]), detector := QueueUnlock)
  }

  function UnlockAfterPop(s: State): State {
    if s.current !in s.src.mutexes then s.(detector := DetectorFault)
    else s.(src := s.src.(mutexes := s.src.mutexes[s.current := None]), detector := Release)
  }

  function ReleaseInference(s: State): State {
    s.(inference := None, detector := Test)
  }

  function StepDetector(s: State, outcome: Outcome): State {
    if Waits(s, Detector) then s
    else match s.detector
      case DetectorFault => s
      case Test => TestQueues(s)
      case Lock => LockInference(s)
      case Choose => ChooseQueue(s)
      case Check => CheckQueue(s)
      case Fetch => FetchHead(s)
      case Infer(frame) => InferHead(s, frame, outcome)
      case Count(frame, found) => CountFrame(s, frame, found)
      case SyncLock(frame, found) => LockResults(s, frame, found)
      case Push(frame, found) => PushResults(s, frame, found)
      case SyncUnlock(frame) => UnlockResults(s, frame)
      case QueueLock(frame) => LockForPop(s, frame)
      case Pop(frame) => PopHead(s)
      case QueueUnlock => UnlockAfterPop(s)
      case Release => ReleaseInference(s)
  }

  // ----- the steps of the processing thread -----

  function AwaitResults(s: State): State {
    if s.out.results == [] then s else s.(processor := Publish)
  }

  function PublishHead(s: State): State {
    if s.out.results == [] then s.(processor := ProcessorFault)
    else if s.out.publisher then
      s.(out := s.out.(published := s.out.published + [s.out.results[0]]), processor := ResultLock)
    else s.(out := s.out.(unpublished := s.out.unpublished + 1), processor := ResultLock)
  }

  function LockToRetire(s: State): State {
    s.(sync := Some(Processor), processor := ResultPop)
  }

  function RetireHead(s: State): State {
    if s.out.results == [] then s.(processor := ProcessorFault)
    else
      s.(out := s.out.(results := s.out.results[1..], retired := s.out.retired + [s.out.results[0]]),
         processor := ResultUnlock)
  }

  function UnlockAfterRetire(s: State): State {
    s.(sync := None, processor := Await)
  }

  function StepProcessor(s: State): State {
    if Waits(s, Processor) then s
    else match s.processor
      case ProcessorFault => s
      case Await => AwaitResults(s)
      case Publish => PublishHead(s)
      case ResultLock => LockToRetire(s)
      case ResultPop => RetireHead(s)
      case ResultUnlock => UnlockAfterRetire(s)
  }

  function Step(s: State, e: Event): State {
    match e
    case ProducerStep => StepProducer(s)
    case DetectorStep(outcome) => StepDetector(s, outcome)
    case ProcessorStep => StepProcessor(s)
    case _ => Call(s, e)
  }

  /** The state after a whole interleaving. */
  function Exec(s: State, es: seq<Event>): State {
    if es == [] then s else Step(Exec(s, es[..|es| - 1]), es[|es| - 1])
  }
}
