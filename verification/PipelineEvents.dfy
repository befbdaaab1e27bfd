/** What the pipeline carries, told from the events of a run: the answers of inference, the calls of the
    producer, the publisher that was set. */
module PipelineEvents {
  import opened Types
  import opened ServiceSpec
  import opened Pipeline
  import opened PipelineInvariant
  import opened PipelineRefinement

  // ----- the answers of inference reach the results -----

  /** One entry for each detection that an event answers while the detection thread asks inference: the
      source chosen, the frame asked about, the detections of the event. */
  function Heard(s: State, es: seq<Event>): seq<Entry> {
    if es == [] then []
    else
      var t, e := Exec(s, es[..|es| - 1]), es[|es| - 1];
      Heard(s, es[..|es| - 1])
      + if e.DetectorStep? && t.detector.Infer? && e.outcome.Detected?
        then [Entry(t.current, t.detector.frame, e.outcome.found)] else []
  }

  /** The entry that has been heard and not been pushed yet. */
  function InHand(s: State): seq<Entry> {
    if s.detector.Count? || s.detector.SyncLock? || s.detector.Push?
    then [Entry(s.current, s.detector.frame, s.detector.found)] else []
  }

  lemma DetectorHears(s: State, outcome: Outcome)
    ensures var t := StepDetector(s, outcome);
            t.out.pushed + InHand(t)
            == s.out.pushed + InHand(s)
               + if s.detector.Infer? && outcome.Detected?
                 then [Entry(s.current, s.detector.frame, outcome.found)] else []
  {
  }

  lemma {:induction false} StepHears(s: State, e: Event)
    ensures var t := Step(s, e);
            t.out.pushed + InHand(t)
            == s.out.pushed + InHand(s)
               + if e.DetectorStep? && s.detector.Infer? && e.outcome.Detected?
                 then [Entry(s.current, s.detector.frame, e.outcome.found)] else []
  {
    hide StepProducer, StepDetector, StepProcessor, Call;
    match e
    case ProducerStep => ProducerOutput(s);
    case DetectorStep(outcome) => DetectorHears(s, outcome);
    case ProcessorStep => ProcessorFrame(s);
    case _ => CallOutput(s, e);
  }

  lemma {:induction false} RunHears(s: State, es: seq<Event>)
    ensures Exec(s, es).out.pushed + InHand(Exec(s, es)) == s.out.pushed + InHand(s) + Heard(s, es)
  {
    hide Step, InHand;
    if es == [] {
    } else {
      RunHears(s, es[..|es| - 1]);
      StepHears(Exec(s, es[..|es| - 1]), es[|es| - 1]);
    }
  }

  lemma NothingInHand()
    ensures INITIAL.out.pushed + InHand(INITIAL) == []
  {
  }

  /** In every interleaving the results pushed are, in order, the detections that inference answered, each
      with the source and the frame it was asked about; the last one may still be in hand. */
  lemma AnswersReachResults(es: seq<Event>)
    ensures Exec(INITIAL, es).out.pushed + InHand(Exec(INITIAL, es)) == Heard(INITIAL, es)
  {
    hide Exec, Heard, InHand;
    RunHears(INITIAL, es);
    NothingInHand();
    assert [] + Heard(INITIAL, es) == Heard(INITIAL, es);
  }

  // ----- the calls of the producer reach the queues -----

  /** What a call asks for, if it asks for anything: a new source, the end of a known one, a frame for a
      known one. */
  function Request(s: State, e: Event): seq<Operation> {
    if !s.producer.Idle? then []
    else match e
      case Register(id) => if id in s.src.queues then [] else [Opens(id)]
      case Unregister(id) => if id in s.src.queues then [Closes(id)] else []
      case Add(id, frame) => if id in s.src.queues then [Arrives(id, frame)] else []
      case _ => []
  }

  /** The size test finds 30 frames waiting. */
  predicate Refuses(s: State, e: Event) {
    e.ProducerStep? && s.producer.AddSize? && s.producer.id in s.src.queues && |s.src.queues[s.producer.id]| >= 30
  }

  /** What the calls of a run have asked for, in order, without the frames that were refused. */
  function Requested(s: State, es: seq<Event>): seq<Operation> {
    if es == [] then []
    else
      var before, t, e := Requested(s, es[..|es| - 1]), Exec(s, es[..|es| - 1]), es[|es| - 1];
      if Refuses(t, e) && before != [] then before[..|before| - 1] else before + Request(t, e)
  }

  /** What the call in progress will still do. */
  function InProgress(p: ProducerPc): seq<Operation> {
    match p
    case RegQueue(id) => [Opens(id)]
    case UnregLock(id) => [Closes(id)]
    case UnregQueue(id) => [Closes(id)]
    case AddSize(id, frame) => [Arrives(id, frame)]
    case AddLock(id, frame) => [Arrives(id, frame)]
    case AddPush(id, frame) => [Arrives(id, frame)]
    case _ => []
  }

  /** The operations of the producer among those of a run. */
  function OfProducer(ops: seq<Operation>): seq<Operation> {
    if ops == [] then []
    else
      var last := ops[|ops| - 1];
      OfProducer(ops[..|ops| - 1]) + if last.Chooses? || last.Serves? then [] else [last]
  }

  lemma OfProducerSnoc(ops: seq<Operation>, more: seq<Operation>)
    requires |more| <= 1
    ensures OfProducer(ops + more)
         == OfProducer(ops) + if more != [] && !more[0].Chooses? && !more[0].Serves? then more else []
  {
    if more == [] {
      assert ops + more == ops;
    } else {
      assert (ops + more)[..|ops|] == ops && more == [more[0]];
    }
  }

  lemma ProducerRequests(s: State)
    requires KeysAgree(s)
    ensures var op, later := ProducerOperation(s), InProgress(StepProducer(s).producer);
            if Refuses(s, ProducerStep) then |InProgress(s.producer)| == 1 && op == [] && later == []
            else op + later == InProgress(s.producer)
  {
  }

  lemma CallRequests(s: State, e: Event)
    requires IsCall(e)
    ensures InProgress(Call(s, e).producer) == InProgress(s.producer) + Request(s, e)
  {
  }

  lemma DetectorRequests(s: State, outcome: Outcome)
    ensures StepDetector(s, outcome).producer == s.producer
    ensures var op := DetectorOperation(s, outcome); op == [] || op[0].Chooses? || op[0].Serves?
  {
    DetectorKeys(s, outcome);
    hide StepDetector;
  }

  /** One step: what it does of the producer's operations is taken from what was in progress. */
  lemma {:induction false} StepRequests(s: State, e: Event)
    requires KeysAgree(s)
    ensures var op, later := OperationOf(s, e), InProgress(Step(s, e).producer);
            if Refuses(s, e) then |InProgress(s.producer)| == 1 && op == [] && later == []
            else if op != [] && (op[0].Chooses? || op[0].Serves?) then later == InProgress(s.producer) + Request(s, e)
            else op + later == InProgress(s.producer) + Request(s, e)
  {
    hide StepProducer, StepDetector, StepProcessor, Call, KeysAgree, InProgress, ProducerOperation, DetectorOperation;
    match e
    case ProducerStep =>
      ProducerRequests(s);
      ProducerOperationKind(s);
    case DetectorStep(outcome) => DetectorRequests(s, outcome);
    case ProcessorStep => ProcessorFrame(s);
    case _ => CallRequests(s, e);
  }

  /** Taken from the end of what was requested, or moved from what is outstanding to what is done. */
  lemma Requeue<T>(done: seq<T>, outstanding: seq<T>, requested: seq<T>, op: seq<T>, later: seq<T>, request: seq<T>)
    requires done + outstanding == requested
    ensures op + later == outstanding + request ==> done + op + later == requested + request
    ensures |outstanding| == 1 && op == [] && later == [] ==>
              requested != [] && done + op + later == requested[..|requested| - 1]
  {
    if op + later == outstanding + request {
      assert done + op + later == done + (op + later);
      assert requested + request == done + (outstanding + request);
    }
    if |outstanding| == 1 && op == [] && later == [] {
      assert requested[..|requested| - 1] == done;
    }
  }

  lemma ProducerOperationKind(s: State)
    ensures var op := ProducerOperation(s); op == [] || (!op[0].Chooses? && !op[0].Serves?)
  {
  }

  /** In every interleaving the sources registered and unregistered and the frames enqueued are, in order,
      those the producer's calls asked for, except the frames whose size test found 30 waiting; the
      request of the call in progress may still be outstanding. */
  lemma {:induction false} CallsReachQueues(es: seq<Event>)
    ensures OfProducer(Trace(INITIAL, es)) + InProgress(Exec(INITIAL, es).producer) == Requested(INITIAL, es)
  {
    hide Step, Refuses, Request, InProgress, OperationOf, Inv, Control, KeysAgree, LocksAgree, HeadStays,
         WithinCapacity, LedgerHolds, OutputFlows, CounterAgrees, NoNullPushed, FlightIsLast;
    if es == [] {
      NothingRequested();
    } else {
      var before := es[..|es| - 1];
      CallsReachQueues(before);
      InvAlways(before);
      InvParts(Exec(INITIAL, before));
      var s, e := Exec(INITIAL, before), es[|es| - 1];
      StepRequests(s, e);
      OneOperation(s, e);
      OfProducerSnoc(Trace(INITIAL, before), OperationOf(s, e));
      var op := OperationOf(s, e);
      Requeue(OfProducer(Trace(INITIAL, before)), InProgress(s.producer), Requested(INITIAL, before),
              if op != [] && !op[0].Chooses? && !op[0].Serves? then op else [],
              InProgress(Exec(INITIAL, es).producer), Request(s, e));
    }
  }

  lemma NothingRequested()
    ensures InProgress(INITIAL.producer) == []
  {
  }

  // ----- calls that nothing disturbs -----

  /** Everything but the producer and its maps is as before. */
  predicate OnlySources(s: State, t: State) {
    && t.out == s.out && t.inference == s.inference && t.thrown == s.thrown && t.current == s.current
    && t.locked == s.locked && t.detector == s.detector && t.producer == s.producer
  }

  lemma RegisterCall(s: State, id: SourceId)
    requires s.producer == Idle && id !in s.src.queues && id !in s.src.mutexes && id !in s.src.dropped
    ensures var t := Exec(s, [Register(id), ProducerStep, ProducerStep, ProducerStep]);
            OnlySources(s, t) && t.src.queues == s.src.queues[id := []]
  {
    hide Exec, StepProducer, Call;
    FourSteps(s, Register(id), ProducerStep, ProducerStep, ProducerStep);
    CallBegins(s, id, Null);
    var a := s.(producer := RegQueue(id));
    var b := InsertQueue(a, id);
    var c := InsertMutex(b, id);
    RegisterSteps(a, id);
    RegisterSteps(b, id);
    RegisterSteps(c, id);
  }

  lemma UnregisterCall(s: State, id: SourceId)
    requires s.producer == Idle && id in s.src.queues && s.inference == None
    ensures var p := ProducerStep;
            var t := Exec(s, [Unregister(id), p] + [p, p, p, p]);
            OnlySources(s, t) && t.src.queues == s.src.queues - {id}
  {
    hide Exec, StepProducer, Call;
    var p := ProducerStep;
    TwoSteps(s, Unregister(id), p);
    ExecConcat(s, [Unregister(id), p], [p, p, p, p]);
    FourSteps(Exec(s, [Unregister(id), p]), p, p, p, p);
    CallBegins(s, id, Null);
    var a := s.(producer := UnregLock(id));
    var b := StopInference(a, id);
    var c := EraseQueue(b, id);
    var d := EraseMutex(c, id);
    EraseSteps(a, id);
    EraseSteps(b, id);
    EraseSteps(c, id);
    EraseSteps(d, id);
    EraseSteps(EraseCounter(d, id), id);
  }

  lemma OneStep(s: State, e: Event)
    ensures Exec(s, [e]) == Step(s, e)
  {
    hide Step;
    ExecSnoc(s, [], e);
    assert [] + [e] == [e];
  }

  lemma IdleStays(s: State)
    ensures s.producer == Idle ==> StepProducer(s) == s
  {
  }

  /** Adding a frame: it is appended exactly when the source is known and fewer than 30 frames wait. */
  lemma AddCall(s: State, id: SourceId, frame: Frame)
    requires s.producer == Idle && (id in s.src.queues ==> id in s.src.mutexes && s.src.mutexes[id] == None)
    ensures var p := ProducerStep;
            var t := Exec(s, [Add(id, frame)] + [p, p, p, p]);
            && OnlySources(s, t)
            && t.src.queues == if id in s.src.queues && |s.src.queues[id]| < 30
                               then s.src.queues[id := s.src.queues[id] + [frame]] else s.src.queues
  {
    hide Exec, StepProducer, Call;
    var p := ProducerStep;
    OneStep(s, Add(id, frame));
    ExecConcat(s, [Add(id, frame)], [p, p, p, p]);
    FourSteps(Exec(s, [Add(id, frame)]), p, p, p, p);
    CallBegins(s, id, frame);
    CallIgnored(s, id, frame);
    IdleStays(s);
    if id in s.src.queues {
      var a := s.(producer := AddSize(id, frame));
      var b := TestSize(a, id, frame);
      AddSteps(a, id, frame);
      IdleStays(b);
      AddSteps(b, id, frame);
      if |s.src.queues[id]| < 30 {
        var c := LockForAdd(b, id, frame);
        AddSteps(c, id, frame);
        AddSteps(PushFrame(c, id, frame), id, frame);
      }
    }
  }

  lemma CallIgnored(s: State, id: SourceId, frame: Frame)
    ensures id !in s.src.queues ==> Step(s, Add(id, frame)) == s
  {
  }

  // ----- the publisher -----

  /** A publisher has been set, by a call made while the producer thread was between calls. */
  predicate PublisherSet(es: seq<Event>) {
    es != []
    && (PublisherSet(es[..|es| - 1])
        || (es[|es| - 1].SetPublisher? && Exec(INITIAL, es[..|es| - 1]).producer.Idle?))
  }

  /** The processing thread is about to handle the head of the result queue. */
  predicate Handles(s: State, e: Event) { e.ProcessorStep? && s.processor.Publish? && s.out.results != [] }

  /** The results that the processing thread came to after a publisher had been set. */
  function Sent(es: seq<Event>): seq<Entry> {
    if es == [] then []
    else
      var before, e := es[..|es| - 1], es[|es| - 1];
      var s := Exec(INITIAL, before);
      Sent(before) + if Handles(s, e) && PublisherSet(before) then [s.out.results[0]] else []
  }

  /** How many results it came to before. */
  function Missed(es: seq<Event>): nat {
    if es == [] then 0
    else
      var before, e := es[..|es| - 1], es[|es| - 1];
      Missed(before) + if Handles(Exec(INITIAL, before), e) && !PublisherSet(before) then 1 else 0
  }

  lemma ProcessorPublishes(s: State)
    requires OutputFlows(s.out, s.processor)
    ensures var t := StepProcessor(s);
            && t.out.publisher == s.out.publisher
            && t.out.published == s.out.published
                                  + (if Handles(s, ProcessorStep) && s.out.publisher then [s.out.results[0]] else [])
            && t.out.unpublished == s.out.unpublished
                                    + if Handles(s, ProcessorStep) && !s.out.publisher then 1 else 0
  {
  }

  lemma DetectorPublishes(s: State, outcome: Outcome)
    ensures var t := StepDetector(s, outcome);
            t.out.publisher == s.out.publisher && t.out.published == s.out.published
            && t.out.unpublished == s.out.unpublished
  {
    DetectorOutput(s, outcome);
    hide StepDetector;
  }

  lemma CallPublishes(s: State, e: Event)
    requires IsCall(e)
    ensures var t := Call(s, e);
            && t.out.published == s.out.published && t.out.unpublished == s.out.unpublished
            && t.out.publisher == (s.out.publisher || (e.SetPublisher? && s.producer.Idle?))
  {
  }

  lemma {:induction false} StepPublishes(s: State, e: Event)
    requires OutputFlows(s.out, s.processor)
    ensures var t := Step(s, e);
            && t.out.publisher == (s.out.publisher || (e.SetPublisher? && s.producer.Idle?))
            && t.out.published == s.out.published
                                  + (if Handles(s, e) && s.out.publisher then [s.out.results[0]] else [])
            && t.out.unpublished == s.out.unpublished + if Handles(s, e) && !s.out.publisher then 1 else 0
  {
    hide StepProducer, StepDetector, StepProcessor, Call, OutputFlows;
    match e
    case ProducerStep => ProducerOutput(s);
    case DetectorStep(outcome) => DetectorPublishes(s, outcome);
    case ProcessorStep => ProcessorPublishes(s);
    case _ => CallPublishes(s, e);
  }

  /** In every interleaving exactly the results handled after a publisher had been set are published, in
      order, and the others are counted as unpublished. */
  lemma {:induction false} PublishedExactly(es: seq<Event>)
    ensures var s := Exec(INITIAL, es);
            s.out.publisher == PublisherSet(es) && s.out.published == Sent(es) && s.out.unpublished == Missed(es)
  {
    hide Step, Handles, Inv, Control, KeysAgree, LocksAgree, HeadStays, WithinCapacity, LedgerHolds, OutputFlows,
         CounterAgrees, NoNullPushed, FlightIsLast;
    if es == [] {
    } else {
      var before := es[..|es| - 1];
      PublishedExactly(before);
      InvAlways(before);
      InvParts(Exec(INITIAL, before));
      HandlesSomething(Exec(INITIAL, before), es[|es| - 1]);
      StepPublishes(Exec(INITIAL, before), es[|es| - 1]);
    }
  }

  lemma HandlesSomething(s: State, e: Event)
    ensures Handles(s, e) ==> s.out.results != []
  {
  }

  /** Once a publisher is set it stays set and no result passes unpublished any more. */
  lemma {:induction false} NoneMissed(before: seq<Event>, after: seq<Event>)
    requires PublisherSet(before)
    ensures PublisherSet(before + after) && Missed(before + after) == Missed(before)
    ensures Exec(INITIAL, before + after).out.unpublished == Exec(INITIAL, before).out.unpublished
  {
    hide Exec, Handles;
    if after == [] {
      assert before + after == before;
    } else {
      var n := |after| - 1;
      NoneMissed(before, after[..n]);
      assert (before + after)[..|before + after| - 1] == before + after[..n];
      PublishedExactly(before);
      PublishedExactly(before + after);
    }
  }

  // ----- the processing thread goes on -----

  /** How far it has come with the next result. */
  function Stage(p: ProcessorPc): nat {
    match p
    case ResultUnlock => 0
    case Await => 1
    case Publish => 2
    case ResultLock => 3
    case ResultPop => 4
    case ProcessorFault => 0
  }

  /** The turns of the processing thread in which it neither waited for a mutex nor found nothing to do. */
  function BusyTurns(s: State, es: seq<Event>): nat {
    if es == [] then 0
    else
      var t := Exec(s, es[..|es| - 1]);
      BusyTurns(s, es[..|es| - 1])
      + if es[|es| - 1].ProcessorStep? && !Waits(t, Processor) && (t.out.results != [] || !t.processor.Await?)
        then 1 else 0
  }

  function Retirement(s: State): nat { 5 * |s.out.retired| + Stage(s.processor) }

  lemma ProcessorRetires(s: State)
    requires OutputFlows(s.out, s.processor)
    ensures Retirement(StepProcessor(s))
         >= Retirement(s) + if !Waits(s, Processor) && (s.out.results != [] || !s.processor.Await?) then 1 else 0
  {
  }

  lemma {:induction false} StepRetires(s: State, e: Event)
    requires OutputFlows(s.out, s.processor)
    ensures Retirement(Step(s, e))
         >= Retirement(s) + if e.ProcessorStep? && !Waits(s, Processor)
                               && (s.out.results != [] || !s.processor.Await?) then 1 else 0
  {
    hide StepProducer, StepDetector, StepProcessor, Call, OutputFlows, Waits;
    match e
    case ProducerStep => ProducerOutput(s);
    case DetectorStep(outcome) => DetectorRetires(s, outcome);
    case ProcessorStep => ProcessorRetires(s);
    case _ => CallOutput(s, e);
  }

  lemma DetectorRetires(s: State, outcome: Outcome)
    ensures var t := StepDetector(s, outcome); t.out.retired == s.out.retired && t.processor == s.processor
  {
    DetectorOutput(s, outcome);
    hide StepDetector;
  }

  lemma {:induction false} RunRetires(s: State, es: seq<Event>)
    requires Inv(s)
    ensures Retirement(Exec(s, es)) >= Retirement(s) + BusyTurns(s, es)
  {
    hide Step, Waits, Inv, Retirement, Control, KeysAgree, LocksAgree, HeadStays, WithinCapacity, LedgerHolds,
         OutputFlows, CounterAgrees, NoNullPushed, FlightIsLast;
    if es == [] {
    } else {
      var before := es[..|es| - 1];
      RunRetires(s, before);
      InvByRun(s, before);
      InvParts(Exec(s, before));
      StepRetires(Exec(s, before), es[|es| - 1]);
    }
  }

  lemma StageBounded(p: ProcessorPc)
    ensures Stage(p) < 5
  {
  }

  /** Every five turns in which the processing thread has something to do and need not wait retire a result. */
  lemma ResultsRetire(before: seq<Event>, after: seq<Event>, k: nat)
    requires BusyTurns(Exec(INITIAL, before), after) >= 5 * k + 4
    ensures |Exec(Exec(INITIAL, before), after).out.retired| >= |Exec(INITIAL, before).out.retired| + k
  {
    hide Exec, BusyTurns, Inv, Stage;
    var s := Exec(INITIAL, before);
    InvAlways(before);
    RunRetires(s, after);
    StageBounded(s.processor);
    StageBounded(Exec(s, after).processor);
  }

  // ----- the drop counters -----

  lemma ProducerDrops(s: State)
    requires forall id :: id in s.src.dropped ==> s.src.dropped[id] == 0
    ensures forall id :: id in StepProducer(s).src.dropped ==> StepProducer(s).src.dropped[id] == 0
  {
  }

  lemma DetectorDrops(s: State, outcome: Outcome)
    ensures StepDetector(s, outcome).src.dropped == s.src.dropped
  {
  }

  /** No dropped frame is ever counted. */
  lemma {:induction false} NoDropsCounted(es: seq<Event>)
    ensures forall id :: id in Exec(INITIAL, es).src.dropped ==> Exec(INITIAL, es).src.dropped[id] == 0
  {
    hide StepProducer, StepDetector, StepProcessor, Call;
    if es == [] {
    } else {
      var s := Exec(INITIAL, es[..|es| - 1]);
      NoDropsCounted(es[..|es| - 1]);
      match es[|es| - 1]
      case ProducerStep => ProducerDrops(s);
      case DetectorStep(outcome) => DetectorDrops(s, outcome);
      case ProcessorStep => ProcessorFrame(s);
      case _ => CallOutput(s, es[|es| - 1]);
    }
  }
}
