/** What holds after every interleaving of the three threads. */
module PipelineInvariant {
  import opened Types
  import opened OrderedKeys
  import opened Strategies
  import opened ServiceSpec
  import opened Pipeline

  // ----- regions of the detection loop -----

  /** The inference mutex is held. */
  predicate Inside(d: DetectorPc) { !d.Test? && !d.Lock? }

  /** A queue has been chosen in this pass. */
  predicate Chosen(d: DetectorPc) { Inside(d) && !d.Choose? && !d.DetectorFault? }

  /** The chosen queue has been seen non-empty and its head not popped yet. */
  predicate Loaded(d: DetectorPc) { d.Fetch? || Carries(d) }

  /** The peeked frame is at hand. */
  predicate Carries(d: DetectorPc) {
    d.Infer? || d.Count? || d.SyncLock? || d.Push? || InFlight(d)
  }

  /** The head frame is in the results but still at the head of its queue. */
  predicate InFlight(d: DetectorPc) { d.SyncUnlock? || d.QueueLock? || d.Pop? }

  predicate HoldsInference(p: ProducerPc) {
    p.UnregQueue? || p.UnregMutex? || p.UnregCounter? || p.UnregUnlock?
  }

  // ----- the invariant -----

  /** The three maps differ at most on the id being registered or unregistered. */
  predicate KeysAgree(s: State) {
    var ks := s.src.queues.Keys;
    && s.src.period.Keys == ks
    && match s.producer
       case RegQueue(id) => id !in ks && s.src.mutexes.Keys == ks && s.src.dropped.Keys == ks
       case RegMutex(id) =>
         id in ks && s.src.queues[id] == [] && s.src.mutexes.Keys == ks - {id} && s.src.dropped.Keys == ks - {id}
       case RegCounter(id) => id in ks && s.src.mutexes.Keys == ks && s.src.dropped.Keys == ks - {id}
       case UnregMutex(id) => id !in ks && s.src.mutexes.Keys == ks + {id} && s.src.dropped.Keys == ks + {id}
       case UnregCounter(id) => id !in ks && s.src.mutexes.Keys == ks && s.src.dropped.Keys == ks + {id}
       case Idle => s.src.mutexes.Keys == ks && s.src.dropped.Keys == ks
       case UnregUnlock => s.src.mutexes.Keys == ks && s.src.dropped.Keys == ks
       case ProducerFault => false
       case _ => s.producer.id in ks && s.src.mutexes.Keys == ks && s.src.dropped.Keys == ks
  }

  function QueueHolder(s: State, id: SourceId): Option<Thread> {
    if (s.producer.AddPush? || s.producer.AddUnlock?) && s.producer.id == id then Some(Producer)
    else if (s.detector.Pop? || s.detector.QueueUnlock?) && s.current == id then Some(Detector)
    else None
  }

  /** `sync` belongs to one side at most. */
  predicate SyncAgrees(s: State) {
    && !((s.detector.Push? || s.detector.SyncUnlock?) && (s.processor.ResultPop? || s.processor.ResultUnlock?))
    && s.sync == (if s.detector.Push? || s.detector.SyncUnlock? then Some(Detector)
                  else if s.processor.ResultPop? || s.processor.ResultUnlock? then Some(Processor) else None)
  }

  /** Every mutex is held by exactly the thread whose program counter says so. */
  predicate LocksAgree(s: State) {
    && !(HoldsInference(s.producer) && Inside(s.detector))
    && s.inference == (if HoldsInference(s.producer) then Some(Producer)
                       else if Inside(s.detector) then Some(Detector) else None)
    && SyncAgrees(s)
    && (forall id :: id in s.src.mutexes ==> s.src.mutexes[id] == QueueHolder(s, id))
    && (s.detector.Pop? || s.detector.QueueUnlock? ==>
          s.current in s.src.mutexes && s.src.mutexes[s.current] == Some(Detector))
  }

  /** The chosen queue exists throughout the pass, and the peeked frame stays at its head. */
  predicate HeadStays(s: State) {
    && (Chosen(s.detector) ==> s.current in s.src.queues)
    && (Loaded(s.detector) ==> s.src.queues[s.current] != [])
    && (Carries(s.detector) ==> s.detector.frame != Null && s.src.queues[s.current][0] == s.detector.frame)
  }

  predicate WithinCapacity(s: State) {
    && (forall id :: id in s.src.queues ==> |s.src.queues[id]| <= CAPACITY)
    && (s.producer.AddLock? || s.producer.AddPush? ==>
          s.producer.id in s.src.queues && |s.src.queues[s.producer.id]| < CAPACITY)
  }

  /** The source whose head frame is in the results but not popped yet. */
  function Flight(s: State): Option<SourceId> {
    if InFlight(s.detector) then Some(s.current) else None
  }

  /** Frames that are still to be pushed to the results: the head in flight is not one of them. */
  function Pending(queues: Queues, flight: Option<SourceId>, id: SourceId): seq<Frame>
    requires id in queues
  {
    if flight == Some(id) && queues[id] != [] then queues[id][1..] else queues[id]
  }

  /** The frames pushed to the results in one registration period, in order. */
  function MovedIn(pushed: seq<Entry>, pushedIn: seq<nat>, p: nat): seq<Frame>
    requires |pushed| == |pushedIn|
  {
    if pushed == [] then []
    else
      var n := |pushed| - 1;
      MovedIn(pushed[..n], pushedIn[..n], p) + (if pushedIn[n] == p then [pushed[n].frame] else [])
  }

  /** Every registered source has exactly one open period, and every pushed entry a period of its source. */
  predicate LedgerIndexed(src: Sources, pushed: seq<Entry>, pushedIn: seq<nat>) {
    && |pushedIn| == |pushed|
    && (forall id :: id in src.queues ==>
          id in src.period && src.period[id] < |src.ledger|
          && src.ledger[src.period[id]].source == id && src.ledger[src.period[id]].open)
    && (forall p :: 0 <= p < |src.ledger| && src.ledger[p].open ==>
          src.ledger[p].source in src.queues && src.ledger[p].source in src.period
          && src.period[src.ledger[p].source] == p)
    && (forall i :: 0 <= i < |pushed| ==>
          pushedIn[i] < |src.ledger| && src.ledger[pushedIn[i]].source == pushed[i].source)
  }

  /** One period: the accepted frames are, in order, those pushed to the results, then those still
      pending (or, once the period is over, those that unregistering discarded). */
  predicate Balanced(src: Sources, pushed: seq<Entry>, pushedIn: seq<nat>, flight: Option<SourceId>, p: nat)
    requires LedgerIndexed(src, pushed, pushedIn) && p < |src.ledger|
  {
    var l := src.ledger[p];
    l.accepted == MovedIn(pushed, pushedIn, p)
                  + (if l.open then Pending(src.queues, flight, l.source) else l.discarded)
  }

  predicate LedgerBalanced(src: Sources, pushed: seq<Entry>, pushedIn: seq<nat>, flight: Option<SourceId>) {
    && LedgerIndexed(src, pushed, pushedIn)
    && forall p :: 0 <= p < |src.ledger| ==> Balanced(src, pushed, pushedIn, flight, p)
  }

  predicate LedgerHolds(s: State) {
    LedgerBalanced(s.src, s.out.pushed, s.out.pushedIn, Flight(s))
  }

  /** Entries whose publishing step is done: the retired ones and, between publish and pop, the head. */
  function Handled(o: Output, p: ProcessorPc): seq<Entry> {
    o.retired + if (p.ResultLock? || p.ResultPop?) && o.results != [] then [o.results[0]] else []
  }

  /** Results leave in the order they came, one pop each; all handled ones have been published except
      those that passed before a publisher was set. */
  predicate OutputFlows(o: Output, p: ProcessorPc) {
    && o.pushed == o.retired + o.results
    && !p.ProcessorFault?
    && (p.Publish? || p.ResultLock? || p.ResultPop? ==> o.results != [])
    && o.unpublished <= |Handled(o, p)|
    && o.published == Handled(o, p)[o.unpublished..]
    && (!o.publisher ==> o.published == [])
  }

  /** A frame is counted and not pushed yet. */
  function Uncounted(d: DetectorPc): nat { if d.SyncLock? || d.Push? then 1 else 0 }

  predicate CounterAgrees(s: State) {
    s.total == (|s.out.pushed| + Uncounted(s.detector)) % COUNTER_MODULUS
  }

  /** Program counters, keys, locks, queue heads and queue lengths agree. */
  predicate Control(s: State) {
    KeysAgree(s) && LocksAgree(s) && HeadStays(s) && WithinCapacity(s)
  }

  /** A null frame never reaches the results. */
  predicate NoNullPushed(s: State) {
    forall i :: 0 <= i < |s.out.pushed| ==> s.out.pushed[i].frame != Null
  }

  /** The head in flight is the last result that was pushed. */
  predicate FlightIsLast(s: State) {
    InFlight(s.detector) ==>
      s.out.pushed != []
      && var last := s.out.pushed[|s.out.pushed| - 1];
         last.source == s.current && last.frame == s.detector.frame
  }

  predicate Inv(s: State) {
    && Control(s) && LedgerHolds(s) && OutputFlows(s.out, s.processor)
    && CounterAgrees(s) && NoNullPushed(s) && FlightIsLast(s)
  }

  // ----- Control is kept by every step -----

  /** A step that only moves the detection thread, without taking or releasing a mutex. */
  lemma DetectorMoves(s: State, d: DetectorPc)
    requires Control(s) && Inside(d) == Inside(s.detector)
    requires !(s.detector.Push? || s.detector.SyncUnlock? || s.detector.Pop? || s.detector.QueueUnlock?)
    requires !(d.Push? || d.SyncUnlock? || d.Pop? || d.QueueUnlock?)
    requires HeadStays(s.(detector := d))
    ensures Control(s.(detector := d))
  {
  }

  /** A step that only moves the producer thread within a call that adds a frame, without a mutex. */
  lemma ProducerMoves(s: State, p: ProducerPc)
    requires Control(s) && s.producer.AddSize? && |s.src.queues[s.producer.id]| < CAPACITY
    requires p.AddLock? && p.id == s.producer.id
    ensures Control(s.(producer := p))
  {
  }

  lemma InsertQueueControlled(s: State, id: SourceId)
    requires Control(s) && s.producer == RegQueue(id)
    ensures Control(InsertQueue(s, id))
  {
  }

  lemma InsertMutexControlled(s: State, id: SourceId)
    requires Control(s) && s.producer == RegMutex(id)
    ensures Control(InsertMutex(s, id))
  {
  }

  lemma InsertCounterControlled(s: State, id: SourceId)
    requires Control(s) && s.producer == RegCounter(id)
    ensures Control(InsertCounter(s, id))
  {
  }

  lemma StopInferenceControlled(s: State, id: SourceId)
    requires Control(s) && s.producer == UnregLock(id) && !Waits(s, Producer)
    ensures Control(StopInference(s, id))
  {
  }

  lemma EraseQueueControlled(s: State, id: SourceId)
    requires Control(s) && s.producer == UnregQueue(id)
    ensures Control(EraseQueue(s, id))
  {
  }

  lemma EraseMutexControlled(s: State, id: SourceId)
    requires Control(s) && s.producer == UnregMutex(id)
    ensures Control(EraseMutex(s, id))
  {
  }

  lemma EraseCounterControlled(s: State, id: SourceId)
    requires Control(s) && s.producer == UnregCounter(id)
    ensures Control(EraseCounter(s, id))
  {
  }

  lemma AllowInferenceControlled(s: State)
    requires Control(s) && s.producer == UnregUnlock
    ensures Control(AllowInference(s))
  {
  }

  lemma TestSizeControlled(s: State, id: SourceId, frame: Frame)
    requires Control(s) && s.producer == AddSize(id, frame)
    ensures Control(TestSize(s, id, frame))
  {
    if |s.src.queues[id]| < CAPACITY {
      ProducerMoves(s, AddLock(id, frame));
    }
  }

  lemma LockForAddControlled(s: State, id: SourceId, frame: Frame)
    requires Control(s) && s.producer == AddLock(id, frame) && !Waits(s, Producer)
    ensures Control(LockForAdd(s, id, frame))
  {
  }

  lemma PushFrameControlled(s: State, id: SourceId, frame: Frame)
    requires Control(s) && s.producer == AddPush(id, frame)
    ensures Control(PushFrame(s, id, frame))
  {
  }

  lemma UnlockAfterAddControlled(s: State, id: SourceId)
    requires Control(s) && s.producer == AddUnlock(id)
    ensures Control(UnlockAfterAdd(s, id))
  {
  }

  lemma TestQueuesControlled(s: State)
    requires Control(s) && s.detector == Test
    ensures Control(TestQueues(s))
  {
  }

  lemma LockInferenceControlled(s: State)
    requires Control(s) && s.detector == Lock && !Waits(s, Detector)
    ensures Control(LockInference(s))
  {
  }

  lemma ChooseQueueControlled(s: State)
    requires Control(s) && s.detector == Choose
    ensures Control(ChooseQueue(s))
  {
    hide ChooseByOrder;
  }

  lemma CheckQueueControlled(s: State)
    requires Control(s) && s.detector == Check
    ensures Control(CheckQueue(s))
  {
    DetectorMoves(s, Release);
    if s.src.queues[s.current] != [] {
      DetectorMoves(s, Fetch);
    }
  }

  lemma FetchHeadControlled(s: State)
    requires Control(s) && s.detector == Fetch
    ensures Control(FetchHead(s))
  {
    DetectorMoves(s, Release);
    if s.src.queues[s.current][0] != Null {
      DetectorMoves(s, Infer(s.src.queues[s.current][0]));
    }
  }

  lemma InferHeadControlled(s: State, frame: Frame, outcome: Outcome)
    requires Control(s) && s.detector == Infer(frame)
    ensures Control(InferHead(s, frame, outcome))
  {
    DetectorMoves(s.(thrown := s.thrown + multiset{s.current}), Release);
    if outcome.Detected? {
      DetectorMoves(s, Count(frame, outcome.found));
    }
  }

  lemma CountFrameControlled(s: State, frame: Frame, found: seq<Detection>)
    requires Control(s) && s.detector == Count(frame, found)
    ensures Control(CountFrame(s, frame, found))
  {
  }

  lemma LockResultsControlled(s: State, frame: Frame, found: seq<Detection>)
    requires Control(s) && s.detector == SyncLock(frame, found) && !Waits(s, Detector)
    ensures Control(LockResults(s, frame, found))
  {
  }

  lemma PushResultsControlled(s: State, frame: Frame, found: seq<Detection>)
    requires Control(s) && s.detector == Push(frame, found)
    ensures Control(PushResults(s, frame, found))
  {
  }

  lemma UnlockResultsControlled(s: State, frame: Frame)
    requires Control(s) && s.detector == SyncUnlock(frame)
    ensures Control(UnlockResults(s, frame))
  {
  }

  lemma LockForPopControlled(s: State, frame: Frame)
    requires Control(s) && s.detector == QueueLock(frame) && !Waits(s, Detector)
    ensures Control(LockForPop(s, frame))
  {
  }

  lemma PopKeepsLocks(s: State)
    requires KeysAgree(s) && LocksAgree(s) && HeadStays(s) && s.detector.Pop?
    ensures KeysAgree(PopHead(s)) && LocksAgree(PopHead(s))
  {
    hide WithinCapacity;
    assert PopHead(s).src.queues.Keys == s.src.queues.Keys;
  }

  lemma PopHeadControlled(s: State)
    requires Control(s) && s.detector.Pop?
    ensures Control(PopHead(s))
  {
    hide KeysAgree, LocksAgree;
    PopKeepsLocks(s);
  }

  lemma UnlockAfterPopControlled(s: State)
    requires Control(s) && s.detector == QueueUnlock
    ensures Control(UnlockAfterPop(s))
  {
  }

  lemma ReleaseInferenceControlled(s: State)
    requires Control(s) && s.detector == Release
    ensures Control(ReleaseInference(s))
  {
  }

  lemma {:induction false} ControlByProducer(s: State)
    requires Control(s)
    ensures Control(StepProducer(s))
  {
    hide Control, InsertQueue, InsertMutex, InsertCounter, StopInference, EraseQueue, EraseMutex, EraseCounter,
         AllowInference, TestSize, LockForAdd, PushFrame, UnlockAfterAdd;
    if !Waits(s, Producer) {
      match s.producer
      case Idle =>
      case ProducerFault =>
      case RegQueue(id) => InsertQueueControlled(s, id);
      case RegMutex(id) => InsertMutexControlled(s, id);
      case RegCounter(id) => InsertCounterControlled(s, id);
      case UnregLock(id) => StopInferenceControlled(s, id);
      case UnregQueue(id) => EraseQueueControlled(s, id);
      case UnregMutex(id) => EraseMutexControlled(s, id);
      case UnregCounter(id) => EraseCounterControlled(s, id);
      case UnregUnlock => AllowInferenceControlled(s);
      case AddSize(id, frame) => TestSizeControlled(s, id, frame);
      case AddLock(id, frame) => LockForAddControlled(s, id, frame);
      case AddPush(id, frame) => PushFrameControlled(s, id, frame);
      case AddUnlock(id) => UnlockAfterAddControlled(s, id);
    }
  }

  lemma {:induction false} ControlByDetector(s: State, outcome: Outcome)
    requires Control(s)
    ensures Control(StepDetector(s, outcome))
  {
    hide Control, TestQueues, LockInference, ChooseQueue, CheckQueue, FetchHead, InferHead, CountFrame, LockResults,
         PushResults, UnlockResults, LockForPop, PopHead, UnlockAfterPop, ReleaseInference;
    if !Waits(s, Detector) {
      match s.detector
      case DetectorFault =>
      case Test => TestQueuesControlled(s);
      case Lock => LockInferenceControlled(s);
      case Choose => ChooseQueueControlled(s);
      case Check => CheckQueueControlled(s);
      case Fetch => FetchHeadControlled(s);
      case Infer(frame) => InferHeadControlled(s, frame, outcome);
      case Count(frame, found) => CountFrameControlled(s, frame, found);
      case SyncLock(frame, found) => LockResultsControlled(s, frame, found);
      case Push(frame, found) => PushResultsControlled(s, frame, found);
      case SyncUnlock(frame) => UnlockResultsControlled(s, frame);
      case QueueLock(frame) => LockForPopControlled(s, frame);
      case Pop(frame) => PopHeadControlled(s);
      case QueueUnlock => UnlockAfterPopControlled(s);
      case Release => ReleaseInferenceControlled(s);
    }
  }

  lemma LocksFrame(s: State, t: State)
    requires LocksAgree(s) && SyncAgrees(t)
    requires t.src == s.src && t.inference == s.inference && t.current == s.current
    requires t.producer == s.producer && t.detector == s.detector
    ensures LocksAgree(t)
  {
    hide SyncAgrees;
  }

  lemma ControlFrame(s: State, t: State)
    requires Control(s) && SyncAgrees(t)
    requires t.src == s.src && t.inference == s.inference && t.current == s.current
    requires t.producer == s.producer && t.detector == s.detector
    ensures Control(t)
  {
    hide LocksAgree, SyncAgrees;
    LocksFrame(s, t);
  }

  /** Whatever the detection thread accesses is there. */
  lemma DetectorFacts(s: State)
    requires Control(s)
    ensures Chosen(s.detector) ==> s.current in s.src.queues
    ensures s.detector.Fetch? || s.detector.Pop? ==> s.src.queues[s.current] != []
    ensures s.detector.QueueLock? || s.detector.QueueUnlock? ==> s.current in s.src.mutexes
  {
  }

  lemma {:induction false} ControlByProcessor(s: State)
    requires Control(s) && OutputFlows(s.out, s.processor)
    ensures Control(StepProcessor(s))
  {
    if !Waits(s, Processor) {
      match s.processor
      case ProcessorFault =>
      case Await => ControlFrame(s, AwaitResults(s));
      case Publish => ControlFrame(s, PublishHead(s));
      case ResultLock => ControlFrame(s, LockToRetire(s));
      case ResultPop => ControlFrame(s, RetireHead(s));
      case ResultUnlock => ControlFrame(s, UnlockAfterRetire(s));
    }
  }

  predicate IsCall(e: Event) { e.Register? || e.Unregister? || e.Add? || e.SetPublisher? }

  lemma {:induction false} ControlByCall(s: State, e: Event)
    requires Control(s) && IsCall(e)
    ensures Control(Call(s, e))
  {
  }

  // ----- the results and the counter -----

  lemma PublishHeadFlows(s: State)
    requires OutputFlows(s.out, Publish) && s.processor == Publish
    ensures OutputFlows(PublishHead(s).out, PublishHead(s).processor)
  {
    var t := PublishHead(s);
    assert Handled(t.out, t.processor) == Handled(s.out, s.processor) + [s.out.results[0]];
  }

  lemma RetireHeadFlows(s: State)
    requires OutputFlows(s.out, ResultPop) && s.processor == ResultPop
    ensures OutputFlows(RetireHead(s).out, RetireHead(s).processor)
  {
    var t := RetireHead(s);
    assert Handled(t.out, t.processor) == Handled(s.out, s.processor);
    assert s.out.results == [s.out.results[0]] + s.out.results[1..];
  }

  lemma {:induction false} FlowByProcessor(s: State)
    requires OutputFlows(s.out, s.processor)
    ensures OutputFlows(StepProcessor(s).out, StepProcessor(s).processor)
  {
    if !Waits(s, Processor) {
      match s.processor
      case ProcessorFault =>
      case Await =>
      case Publish => PublishHeadFlows(s);
      case ResultLock =>
      case ResultPop => RetireHeadFlows(s);
      case ResultUnlock =>
    }
  }

  lemma PushResultsFlows(s: State, frame: Frame, found: seq<Detection>)
    requires OutputFlows(s.out, s.processor)
    ensures OutputFlows(PushResults(s, frame, found).out, s.processor)
  {
    var t := PushResults(s, frame, found);
    assert t.out.pushed == t.out.retired + t.out.results;
    assert Handled(t.out, t.processor) == Handled(s.out, s.processor);
  }

  /** Only the push changes the results on the detection side. */
  lemma DetectorOutput(s: State, outcome: Outcome)
    ensures StepDetector(s, outcome).processor == s.processor
    ensures StepDetector(s, outcome).producer == s.producer
    ensures StepDetector(s, outcome).out
         == if s.detector.Push? then PushResults(s, s.detector.frame, s.detector.found).out else s.out
  {
  }

  lemma ProducerOutput(s: State)
    ensures var t := StepProducer(s);
            && t.out == s.out && t.processor == s.processor && t.detector == s.detector && t.current == s.current
            && t.total == s.total && t.sync == s.sync && t.locked == s.locked && t.thrown == s.thrown
  {
  }

  lemma ProcessorFrame(s: State)
    ensures var t := StepProcessor(s);
            && t.src == s.src && t.producer == s.producer && t.detector == s.detector && t.current == s.current
            && t.out.pushed == s.out.pushed && t.out.pushedIn == s.out.pushedIn
            && t.total == s.total && t.locked == s.locked && t.thrown == s.thrown
            && t.openings == s.openings && t.resets == s.resets
  {
  }

  lemma DetectorKeys(s: State, outcome: Outcome)
    ensures StepDetector(s, outcome).src.queues.Keys == s.src.queues.Keys
    ensures StepDetector(s, outcome).producer == s.producer
  {
  }

  lemma CallOutput(s: State, e: Event)
    requires IsCall(e)
    ensures var t := Call(s, e);
            t == s.(producer := t.producer, out := s.out.(publisher := t.out.publisher))
            && (s.out.publisher ==> t.out.publisher)
  {
  }

  lemma {:induction false} FlowByDetector(s: State, outcome: Outcome)
    requires OutputFlows(s.out, s.processor)
    ensures OutputFlows(StepDetector(s, outcome).out, StepDetector(s, outcome).processor)
  {
    DetectorOutput(s, outcome);
    if s.detector.Push? {
      PushResultsFlows(s, s.detector.frame, s.detector.found);
    }
  }

  /** The counter moves together with the pushed results and the frame counted ahead of them. */
  lemma CounterMoves(s: State, outcome: Outcome)
    ensures var t := StepDetector(s, outcome);
            var before, after := |s.out.pushed| + Uncounted(s.detector), |t.out.pushed| + Uncounted(t.detector);
            || (t.total == s.total && after == before)
            || (t.total == (s.total + 1) % COUNTER_MODULUS && after == before + 1)
  {
    DetectorOutput(s, outcome);
  }

  lemma WrapNext(n: nat)
    ensures (n % COUNTER_MODULUS + 1) % COUNTER_MODULUS == (n + 1) % COUNTER_MODULUS
  {
  }

  lemma CounterByDetector(s: State, outcome: Outcome)
    requires CounterAgrees(s)
    ensures CounterAgrees(StepDetector(s, outcome))
  {
    CounterMoves(s, outcome);
    WrapNext(|s.out.pushed| + Uncounted(s.detector));
  }

  lemma NoNullByDetector(s: State, outcome: Outcome)
    requires NoNullPushed(s) && HeadStays(s)
    ensures NoNullPushed(StepDetector(s, outcome))
  {
    DetectorOutput(s, outcome);
  }

  lemma FlightByDetector(s: State, outcome: Outcome)
    requires FlightIsLast(s)
    ensures FlightIsLast(StepDetector(s, outcome))
  {
    DetectorOutput(s, outcome);
  }

  // ----- the steps of one call -----

  lemma CallBegins(s: State, id: SourceId, frame: Frame)
    requires s.producer == Idle
    ensures id !in s.src.queues ==> Step(s, Register(id)) == s.(producer := RegQueue(id))
    ensures id in s.src.queues ==> Step(s, Unregister(id)) == s.(producer := UnregLock(id))
    ensures id in s.src.queues ==> Step(s, Add(id, frame)) == s.(producer := AddSize(id, frame))
  {
  }

  lemma RegisterSteps(s: State, id: SourceId)
    ensures s.producer == RegQueue(id) ==> StepProducer(s) == InsertQueue(s, id)
    ensures s.producer == RegMutex(id) ==> StepProducer(s) == InsertMutex(s, id)
    ensures s.producer == RegCounter(id) ==> StepProducer(s) == InsertCounter(s, id)
  {
  }

  lemma EraseSteps(s: State, id: SourceId)
    ensures s.producer == UnregLock(id) && Free(s.inference) ==> StepProducer(s) == StopInference(s, id)
    ensures s.producer == UnregQueue(id) ==> StepProducer(s) == EraseQueue(s, id)
    ensures s.producer == UnregMutex(id) ==> StepProducer(s) == EraseMutex(s, id)
    ensures s.producer == UnregCounter(id) ==> StepProducer(s) == EraseCounter(s, id)
    ensures s.producer == UnregUnlock ==> StepProducer(s) == AllowInference(s)
  {
  }

  lemma AddSteps(s: State, id: SourceId, frame: Frame)
    ensures s.producer == AddSize(id, frame) ==> StepProducer(s) == TestSize(s, id, frame)
    ensures s.producer == AddLock(id, frame) && (id in s.src.mutexes ==> Free(s.src.mutexes[id]))
            ==> StepProducer(s) == LockForAdd(s, id, frame)
    ensures s.producer == AddPush(id, frame) ==> StepProducer(s) == PushFrame(s, id, frame)
    ensures s.producer == AddUnlock(id) ==> StepProducer(s) == UnlockAfterAdd(s, id)
  {
  }

  // ----- the ledger -----

  lemma {:induction false} MovedNone(pushed: seq<Entry>, pushedIn: seq<nat>, p: nat)
    requires |pushed| == |pushedIn| && p !in pushedIn
    ensures MovedIn(pushed, pushedIn, p) == []
  {
    if pushed == [] {
    } else {
      var n := |pushed| - 1;
      assert pushedIn[n] in pushedIn;
      MovedNone(pushed[..n], pushedIn[..n], p);
    }
  }

  lemma MovedAppend(pushed: seq<Entry>, pushedIn: seq<nat>, e: Entry, k: nat, p: nat)
    requires |pushed| == |pushedIn|
    ensures MovedIn(pushed + [e], pushedIn + [k], p)
         == MovedIn(pushed, pushedIn, p) + (if k == p then [e.frame] else [])
  {
    assert (pushed + [e])[..|pushed|] == pushed && (pushedIn + [k])[..|pushed|] == pushedIn;
  }

  /** The mutex and counter maps play no part in the ledger. */
  predicate SameLedger(a: Sources, b: Sources) {
    a.queues == b.queues && a.ledger == b.ledger && a.period == b.period
  }

  lemma LedgerFrame(a: Sources, b: Sources, pushed: seq<Entry>, pushedIn: seq<nat>, flight: Option<SourceId>)
    requires LedgerBalanced(a, pushed, pushedIn, flight) && SameLedger(a, b)
    ensures LedgerBalanced(b, pushed, pushedIn, flight)
  {
    forall p | 0 <= p < |b.ledger| ensures Balanced(b, pushed, pushedIn, flight, p) {
      assert Balanced(a, pushed, pushedIn, flight, p);
    }
  }

  lemma OpenIndexed(s: State, id: SourceId)
    requires LedgerHolds(s) && KeysAgree(s) && id !in s.src.queues
    ensures LedgerIndexed(OpenPeriod(s, id).src, s.out.pushed, s.out.pushedIn)
  {
  }

  lemma OpenBalanced(s: State, id: SourceId)
    requires LedgerHolds(s) && KeysAgree(s) && id !in s.src.queues
    ensures LedgerBalanced(OpenPeriod(s, id).src, s.out.pushed, s.out.pushedIn, Flight(s))
  {
    OpenIndexed(s, id);
    var t := OpenPeriod(s, id).src;
    forall p | 0 <= p < |t.ledger| ensures Balanced(t, s.out.pushed, s.out.pushedIn, Flight(s), p) {
      if p < |s.src.ledger| {
        assert Balanced(s.src, s.out.pushed, s.out.pushedIn, Flight(s), p);
      } else {
        MovedNone(s.out.pushed, s.out.pushedIn, p);
      }
    }
  }

  lemma CloseIndexed(s: State, id: SourceId)
    requires LedgerHolds(s) && id in s.src.queues
    ensures LedgerIndexed(ClosePeriod(s, id).src, s.out.pushed, s.out.pushedIn)
  {
  }

  lemma CloseBalanced(s: State, id: SourceId)
    requires LedgerHolds(s) && id in s.src.queues && Flight(s) != Some(id)
    ensures LedgerBalanced(ClosePeriod(s, id).src, s.out.pushed, s.out.pushedIn, Flight(s))
  {
    CloseIndexed(s, id);
    var t := ClosePeriod(s, id).src;
    forall p | 0 <= p < |t.ledger| ensures Balanced(t, s.out.pushed, s.out.pushedIn, Flight(s), p) {
      assert Balanced(s.src, s.out.pushed, s.out.pushedIn, Flight(s), p);
    }
  }

  lemma AcceptIndexed(s: State, id: SourceId, frame: Frame)
    requires LedgerHolds(s) && id in s.src.queues
    ensures LedgerIndexed(Accept(s, id, frame).src, s.out.pushed, s.out.pushedIn)
  {
  }

  lemma AcceptBalanced(s: State, id: SourceId, frame: Frame)
    requires LedgerHolds(s) && id in s.src.queues
    requires Flight(s) == Some(id) ==> s.src.queues[id] != []
    ensures LedgerBalanced(Accept(s, id, frame).src, s.out.pushed, s.out.pushedIn, Flight(s))
  {
    AcceptIndexed(s, id, frame);
    var t := Accept(s, id, frame).src;
    assert Pending(t.queues, Flight(s), id) == Pending(s.src.queues, Flight(s), id) + [frame];
    forall p | 0 <= p < |t.ledger| ensures Balanced(t, s.out.pushed, s.out.pushedIn, Flight(s), p) {
      assert Balanced(s.src, s.out.pushed, s.out.pushedIn, Flight(s), p);
    }
  }

  lemma PushBalanced(s: State, frame: Frame, found: seq<Detection>)
    requires LedgerHolds(s) && HeadStays(s) && s.detector == Push(frame, found)
    ensures LedgerHolds(PushResults(s, frame, found))
  {
    var t := PushResults(s, frame, found);
    var entry := Entry(s.current, frame, found);
    var k := s.src.period[s.current];
    forall p | 0 <= p < |t.src.ledger| ensures Balanced(t.src, t.out.pushed, t.out.pushedIn, Flight(t), p) {
      assert Balanced(s.src, s.out.pushed, s.out.pushedIn, Flight(s), p);
      MovedAppend(s.out.pushed, s.out.pushedIn, entry, k, p);
    }
  }

  lemma PopBalanced(s: State)
    requires LedgerHolds(s) && HeadStays(s) && s.detector.Pop?
    ensures LedgerHolds(PopHead(s))
  {
    var t := PopHead(s);
    forall p | 0 <= p < |t.src.ledger| ensures Balanced(t.src, t.out.pushed, t.out.pushedIn, Flight(t), p) {
      assert Balanced(s.src, s.out.pushed, s.out.pushedIn, Flight(s), p);
    }
  }

  /** Which steps touch the queues or the ledger. */
  lemma ProducerSources(s: State)
    ensures var t := StepProducer(s);
            var p := s.producer;
            p.RegQueue? || p.UnregQueue? || p.AddPush? || SameLedger(s.src, t.src)
  {
  }

  lemma FlightHasMutex(s: State)
    requires KeysAgree(s) && HeadStays(s)
    ensures InFlight(s.detector) ==> s.current in s.src.mutexes
  {
  }

  lemma DetectorSources(s: State, outcome: Outcome)
    requires !s.detector.Push? && !s.detector.Pop? && (InFlight(s.detector) ==> s.current in s.src.mutexes)
    ensures SameLedger(s.src, StepDetector(s, outcome).src)
    ensures Flight(StepDetector(s, outcome)) == Flight(s)
  {
  }

  /** What the ledger needs of the keys, the locks and the heads. */
  lemma ProducerFacts(s: State)
    requires Control(s)
    ensures s.producer.RegQueue? ==> s.producer.id !in s.src.queues
    ensures s.producer.UnregQueue? ==> s.producer.id in s.src.queues && Flight(s) == None
    ensures s.producer.AddPush? ==> s.producer.id in s.src.queues
    ensures Flight(s).Some? ==> s.current in s.src.queues && s.src.queues[s.current] != []
  {
  }

  lemma LedgerOtherwise(s: State)
    requires LedgerHolds(s) && !s.producer.RegQueue? && !s.producer.UnregQueue? && !s.producer.AddPush?
    ensures LedgerHolds(StepProducer(s))
  {
    ProducerOutput(s);
    ProducerSources(s);
    hide StepProducer, LedgerBalanced;
    LedgerFrame(s.src, StepProducer(s).src, s.out.pushed, s.out.pushedIn, Flight(s));
  }

  lemma {:induction false} LedgerByProducer(s: State)
    requires Control(s) && LedgerHolds(s)
    ensures LedgerHolds(StepProducer(s))
  {
    hide Control, KeysAgree, LedgerBalanced, OpenPeriod, ClosePeriod, Accept, StepProducer;
    ProducerFacts(s);
    ProducerOutput(s);
    match s.producer
    case RegQueue(id) =>
      RegisterSteps(s, id);
      ControlledKeys(s);
      OpenBalanced(s, id);
    case UnregQueue(id) =>
      EraseSteps(s, id);
      CloseBalanced(s, id);
    case AddPush(id, frame) =>
      AddSteps(s, id, frame);
      AcceptBalanced(s, id, frame);
    case _ => LedgerOtherwise(s);
  }

  lemma ControlledKeys(s: State)
    requires Control(s)
    ensures KeysAgree(s) && HeadStays(s)
  {
    hide KeysAgree, LocksAgree, HeadStays, WithinCapacity;
  }

  lemma LedgerAside(s: State, outcome: Outcome)
    requires KeysAgree(s) && HeadStays(s) && LedgerHolds(s) && !s.detector.Push? && !s.detector.Pop?
    ensures LedgerHolds(StepDetector(s, outcome))
  {
    FlightHasMutex(s);
    DetectorOutput(s, outcome);
    DetectorSources(s, outcome);
    LedgerFrame(s.src, StepDetector(s, outcome).src, s.out.pushed, s.out.pushedIn, Flight(s));
  }

  lemma MainSteps(s: State, outcome: Outcome)
    ensures s.detector.Choose? ==> StepDetector(s, outcome) == ChooseQueue(s)
    ensures s.detector.Push? ==> StepDetector(s, outcome) == PushResults(s, s.detector.frame, s.detector.found)
    ensures s.detector.Pop? ==> StepDetector(s, outcome) == PopHead(s)
  {
    hide ChooseQueue, PushResults, PopHead;
  }

  lemma {:induction false} LedgerByDetector(s: State, outcome: Outcome)
    requires Control(s) && LedgerHolds(s)
    ensures LedgerHolds(StepDetector(s, outcome))
  {
    hide Control, KeysAgree, HeadStays, LedgerHolds, StepDetector, PushResults, PopHead;
    ControlledKeys(s);
    MainSteps(s, outcome);
    match s.detector
    case Push(frame, found) => PushBalanced(s, frame, found);
    case Pop(frame) => PopBalanced(s);
    case _ => LedgerAside(s, outcome);
  }

  lemma {:induction false} LedgerByProcessor(s: State)
    requires LedgerHolds(s)
    ensures LedgerHolds(StepProcessor(s))
  {
    ProcessorFrame(s);
  }

  // ----- every interleaving -----

  /** What speaks of the pushed results, the counter and the detection thread only. */
  lemma PushedLeft(s: State, t: State)
    requires CounterAgrees(s) && NoNullPushed(s) && FlightIsLast(s)
    requires t.out.pushed == s.out.pushed && t.total == s.total && t.detector == s.detector && t.current == s.current
    ensures CounterAgrees(t) && NoNullPushed(t) && FlightIsLast(t)
  {
  }

  lemma ResultsLeft(s: State, t: State)
    requires OutputFlows(s.out, s.processor) && CounterAgrees(s) && NoNullPushed(s) && FlightIsLast(s)
    requires t.out == s.out && t.processor == s.processor && t.total == s.total
    requires t.detector == s.detector && t.current == s.current
    ensures OutputFlows(t.out, t.processor) && CounterAgrees(t) && NoNullPushed(t) && FlightIsLast(t)
  {
  }

  lemma CallLeft(s: State, e: Event)
    requires IsCall(e) && LedgerHolds(s) && OutputFlows(s.out, s.processor)
    ensures LedgerHolds(Call(s, e)) && OutputFlows(Call(s, e).out, Call(s, e).processor)
  {
    CallOutput(s, e);
  }

  lemma InvParts(s: State)
    requires Inv(s)
    ensures Control(s) && KeysAgree(s) && LocksAgree(s) && HeadStays(s) && WithinCapacity(s)
    ensures LedgerHolds(s) && OutputFlows(s.out, s.processor)
    ensures CounterAgrees(s) && NoNullPushed(s) && FlightIsLast(s)
  {
    hide KeysAgree, LocksAgree, HeadStays, WithinCapacity, LedgerHolds, OutputFlows, CounterAgrees, NoNullPushed,
         FlightIsLast;
  }

  lemma InvByProducer(s: State)
    requires Inv(s)
    ensures Inv(StepProducer(s))
  {
    ProducerOutput(s);
    ResultsLeft(s, StepProducer(s));
    hide StepProducer, Control, LedgerHolds, OutputFlows, CounterAgrees, NoNullPushed, FlightIsLast;
    ControlByProducer(s);
    LedgerByProducer(s);
  }

  lemma InvByDetector(s: State, outcome: Outcome)
    requires Inv(s)
    ensures Inv(StepDetector(s, outcome))
  {
    hide KeysAgree, LocksAgree, HeadStays, WithinCapacity;
    hide StepDetector, Control, LedgerHolds, OutputFlows, CounterAgrees, NoNullPushed, FlightIsLast;
    InvParts(s);
    ControlByDetector(s, outcome);
    LedgerByDetector(s, outcome);
    FlowByDetector(s, outcome);
    CounterByDetector(s, outcome);
    NoNullByDetector(s, outcome);
    FlightByDetector(s, outcome);
  }

  lemma InvByProcessor(s: State)
    requires Inv(s)
    ensures Inv(StepProcessor(s))
  {
    ProcessorFrame(s);
    PushedLeft(s, StepProcessor(s));
    hide StepProcessor, Control, LedgerHolds, OutputFlows, CounterAgrees, NoNullPushed, FlightIsLast;
    ControlByProcessor(s);
    LedgerByProcessor(s);
    FlowByProcessor(s);
  }

  lemma InvByCall(s: State, e: Event)
    requires Inv(s) && IsCall(e)
    ensures Inv(Call(s, e))
  {
    CallOutput(s, e);
    PushedLeft(s, Call(s, e));
    CallLeft(s, e);
    hide Call, Control, LedgerHolds, OutputFlows, CounterAgrees, NoNullPushed, FlightIsLast;
    ControlByCall(s, e);
  }

  lemma {:induction false} InvByStep(s: State, e: Event)
    requires Inv(s)
    ensures Inv(Step(s, e))
  {
    match e
    case ProducerStep => InvByProducer(s);
    case DetectorStep(outcome) => InvByDetector(s, outcome);
    case ProcessorStep => InvByProcessor(s);
    case _ => InvByCall(s, e);
  }

  lemma {:induction false} InvByRun(s: State, es: seq<Event>)
    requires Inv(s)
    ensures Inv(Exec(s, es))
  {
    if es == [] {
    } else {
      InvByRun(s, es[..|es| - 1]);
      InvByStep(Exec(s, es[..|es| - 1]), es[|es| - 1]);
    }
  }

  lemma InvInitially()
    ensures Inv(INITIAL)
  {
  }

  lemma InvAlways(es: seq<Event>)
    ensures Inv(Exec(INITIAL, es))
  {
    InvInitially();
    InvByRun(INITIAL, es);
  }

  // ----- runs -----

  lemma ExecSnoc(s: State, es: seq<Event>, e: Event)
    ensures Exec(s, es + [e]) == Step(Exec(s, es), e)
  {
    assert (es + [e])[..|es|] == es;
  }

  lemma TwoSteps(s: State, a: Event, b: Event)
    ensures Exec(s, [a, b]) == Step(Step(s, a), b)
  {
    ExecSnoc(s, [], a);
    ExecSnoc(s, [a], b);
    assert [] + [a] == [a] && [a] + [b] == [a, b];
  }

  lemma FourSteps(s: State, a: Event, b: Event, c: Event, d: Event)
    ensures Exec(s, [a, b, c, d]) == Step(Step(Step(Step(s, a), b), c), d)
  {
    TwoSteps(s, a, b);
    TwoSteps(Step(Step(s, a), b), c, d);
    ExecConcat(s, [a, b], [c, d]);
    assert [a, b] + [c, d] == [a, b, c, d];
  }

  lemma {:induction false} ExecConcat(s: State, es: seq<Event>, fs: seq<Event>)
    ensures Exec(s, es + fs) == Exec(Exec(s, es), fs)
  {
    if fs == [] {
      assert es + fs == es;
    } else {
      var n := |fs| - 1;
      ExecConcat(s, es, fs[..n]);
      assert (es + fs)[..|es + fs| - 1] == es + fs[..n];
    }
  }
}
