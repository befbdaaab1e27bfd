/** The three interleaved threads refine the atomic service: every run performs, in the order of its
    steps, a sequence of atomic operations, and reaches what these operations reach. */
module PipelineRefinement {
  import opened Types
  import opened Strategies
  import opened ServiceSpec
  import opened Pipeline
  import opened PipelineInvariant

  /** The queues as the atomic specification sees them: a head in flight has left its queue. */
  function Unpopped(queues: Queues, flight: Option<SourceId>): Queues {
    map id | id in queues :: Pending(queues, flight, id)
  }

  /** The state of the atomic service behind a state of the three threads. */
  function Abstract(s: State): Atomic {
    Atomic(Flow(Unpopped(s.src.queues, Flight(s)), s.out.pushed), s.current)
  }

  // ----- which step performs which operation -----

  /** The points of a pass that decide it: the push, or giving up on an empty queue, a null head or an exception. */
  predicate Decides(s: State, outcome: Outcome) {
    match s.detector
    case Check => s.current in s.src.queues && s.src.queues[s.current] == []
    case Fetch => s.current in s.src.queues && s.src.queues[s.current] != [] && s.src.queues[s.current][0] == Null
    case Infer(frame) => outcome.Thrown?
    case Push(frame, found) => true
    case _ => false
  }

  /** A pass chooses at its choice and serves at its deciding point; nothing else has an effect. */
  function DetectorOperation(s: State, outcome: Outcome): seq<Operation> {
    if s.detector.Choose? then (if s.src.queues.Keys == {} then [] else [Chooses])
    else if s.detector.Push? then [Serves(Detected(s.detector.found))]
    else if Decides(s, outcome) then [Serves(outcome)]
    else []
  }

  /** The producer's calls take effect at one step each. */
  function ProducerOperation(s: State): seq<Operation> {
    match s.producer
    case RegQueue(id) => [Opens(id)]
    case UnregQueue(id) => [Closes(id)]
    case AddPush(id, frame) => [Arrives(id, frame)]
    case _ => []
  }

  function OperationOf(s: State, e: Event): seq<Operation> {
    match e
    case ProducerStep => ProducerOperation(s)
    case DetectorStep(outcome) => DetectorOperation(s, outcome)
    case _ => []
  }

  /** The operations of a whole interleaving, in the order of its steps. */
  function Trace(s: State, es: seq<Event>): seq<Operation> {
    if es == [] then []
    else Trace(s, es[..|es| - 1]) + OperationOf(Exec(s, es[..|es| - 1]), es[|es| - 1])
  }

  // ----- every step performs its operation -----

  lemma HeadTaken(queues: Queues, id: SourceId)
    requires id in queues && queues[id] != []
    ensures Unpopped(queues, Some(id)) == queues[id := queues[id][1..]]
    ensures Unpopped(queues, None) == queues
    ensures Unpopped(queues[id := queues[id][1..]], None) == queues[id := queues[id][1..]]
  {
  }

  lemma PushRefines(s: State, frame: Frame, found: seq<Detection>)
    requires HeadStays(s) && s.detector == Push(frame, found)
    ensures Abstract(PushResults(s, frame, found)) == Do(Abstract(s), Serves(Detected(found)))
  {
    HeadTaken(s.src.queues, s.current);
  }

  lemma PopRefines(s: State)
    requires HeadStays(s) && s.detector.Pop?
    ensures Abstract(PopHead(s)) == Abstract(s)
  {
    HeadTaken(s.src.queues, s.current);
  }

  lemma DoOne(a: Atomic, op: Operation)
    ensures DoAll(a, [op]) == Do(a, op)
  {
    assert [op][..0] == [];
  }

  lemma DoConcat(a: Atomic, ops: seq<Operation>, more: seq<Operation>)
    requires |more| <= 1
    ensures DoAll(a, ops + more) == DoAll(DoAll(a, ops), more)
  {
    if more == [] {
      assert ops + more == ops;
    } else {
      assert more == [more[0]] && (ops + more)[..|ops + more| - 1] == ops;
      DoOne(DoAll(a, ops), more[0]);
    }
  }

  lemma ChooseRefines(s: State)
    requires s.detector.Choose?
    ensures Abstract(ChooseQueue(s))
         == if s.src.queues.Keys == {} then Abstract(s) else Do(Abstract(s), Chooses)
  {
    assert Unpopped(s.src.queues, None).Keys == s.src.queues.Keys;
  }

  /** A pass that gives up serves a queue that is empty or has a null head, or inference threw. */
  lemma GivingUp(s: State, outcome: Outcome)
    requires HeadStays(s) && !s.detector.Push? && Decides(s, outcome)
    ensures Do(Abstract(s), Serves(outcome)) == Abstract(s)
  {
    assert Pending(s.src.queues, Flight(s), s.current) == s.src.queues[s.current];
  }

  lemma OthersRefine(s: State, outcome: Outcome)
    requires KeysAgree(s) && HeadStays(s) && !s.detector.Choose? && !s.detector.Push? && !s.detector.Pop?
    ensures Abstract(StepDetector(s, outcome)) == Abstract(s)
  {
    FlightHasMutex(s);
    DetectorOutput(s, outcome);
    DetectorSources(s, outcome);
  }

  /** Every step of the detection thread performs its operation of the atomic service: it chooses the
      queue, or serves the chosen one (skipping it, or moving exactly the head that was peeked), or
      changes nothing. */
  lemma {:induction false} DetectorRefines(s: State, outcome: Outcome)
    requires KeysAgree(s) && HeadStays(s)
    ensures Abstract(StepDetector(s, outcome)) == DoAll(Abstract(s), DetectorOperation(s, outcome))
  {
    hide StepDetector, ChooseQueue, PushResults, PopHead, KeysAgree, HeadStays, Abstract, Do;
    MainSteps(s, outcome);
    match s.detector
    case Choose =>
      ChooseRefines(s);
      DoOne(Abstract(s), Chooses);
    case Push(frame, found) =>
      PushRefines(s, frame, found);
      DoOne(Abstract(s), Serves(Detected(found)));
    case Pop(frame) => PopRefines(s);
    case _ =>
      OthersRefine(s, outcome);
      if Decides(s, outcome) {
        GivingUp(s, outcome);
        DoOne(Abstract(s), Serves(outcome));
      }
  }

  lemma EnqueuedView(queues: Queues, flight: Option<SourceId>, id: SourceId, frame: Frame)
    requires id in queues && |queues[id]| < CAPACITY && (flight == Some(id) ==> queues[id] != [])
    ensures Unpopped(queues[id := queues[id] + [frame]], flight) == Enqueued(Unpopped(queues, flight), id, frame)
  {
    assert Pending(queues[id := queues[id] + [frame]], flight, id) == Pending(queues, flight, id) + [frame];
  }

  lemma RegisteredView(queues: Queues, flight: Option<SourceId>, id: SourceId)
    requires id !in queues
    ensures Unpopped(queues[id := []], flight) == Registered(Unpopped(queues, flight), id)
  {
  }

  lemma UnregisteredView(queues: Queues, flight: Option<SourceId>, id: SourceId)
    ensures Unpopped(queues - {id}, flight) == Unregistered(Unpopped(queues, flight), id)
  {
  }

  /** The producer's steps perform registering, unregistering and enqueueing on the same atomic service. */
  lemma OtherwiseRefines(s: State)
    requires ProducerOperation(s) == []
    ensures Abstract(StepProducer(s)) == Abstract(s)
  {
    ProducerOutput(s);
    ProducerSources(s);
    hide StepProducer;
  }

  /** The producer's steps perform registering, unregistering and enqueueing on the same atomic service. */
  lemma {:induction false} ProducerRefines(s: State)
    requires Control(s)
    ensures Abstract(StepProducer(s)) == DoAll(Abstract(s), ProducerOperation(s))
  {
    hide StepProducer, Control, DoAll, Unpopped;
    ProducerOutput(s);
    ProducerFacts(s);
    ControlledCapacity(s);
    match s.producer
    case RegQueue(id) =>
      RegisterSteps(s, id);
      RegisteredView(s.src.queues, Flight(s), id);
      DoOne(Abstract(s), Opens(id));
    case UnregQueue(id) =>
      EraseSteps(s, id);
      UnregisteredView(s.src.queues, Flight(s), id);
      DoOne(Abstract(s), Closes(id));
    case AddPush(id, frame) =>
      AddSteps(s, id, frame);
      EnqueuedView(s.src.queues, Flight(s), id, frame);
      DoOne(Abstract(s), Arrives(id, frame));
    case _ =>
      OtherwiseRefines(s);
      DoNone(Abstract(s));
  }

  lemma DoNone(a: Atomic)
    ensures DoAll(a, []) == a
  {
  }

  lemma ControlledCapacity(s: State)
    requires Control(s)
    ensures s.producer.AddPush? ==> s.producer.id in s.src.queues && |s.src.queues[s.producer.id]| < CAPACITY
  {
    hide KeysAgree, LocksAgree, HeadStays;
  }

  lemma {:induction false} StepRefines(s: State, e: Event)
    requires Control(s)
    ensures Abstract(Step(s, e)) == DoAll(Abstract(s), OperationOf(s, e))
  {
    match e
    case ProducerStep => ProducerRefines(s);
    case DetectorStep(outcome) => DetectorRefines(s, outcome);
    case ProcessorStep => ProcessorFrame(s);
    case _ => CallOutput(s, e);
  }

  // ----- over runs -----

  lemma TraceStep(a: Atomic, ops: seq<Operation>, s: State, e: Event)
    requires Control(s) && Abstract(s) == DoAll(a, ops)
    ensures Abstract(Step(s, e)) == DoAll(a, ops + OperationOf(s, e))
  {
    StepRefines(s, e);
    DoConcat(a, ops, OperationOf(s, e));
  }

  lemma {:induction false} TraceRefines(s: State, es: seq<Event>)
    requires Inv(s)
    ensures Abstract(Exec(s, es)) == DoAll(Abstract(s), Trace(s, es))
  {
    if es == [] {
    } else {
      var before, e := es[..|es| - 1], es[|es| - 1];
      TraceRefines(s, before);
      assert Control(Exec(s, before)) by { InvByRun(s, before); }
      TraceStep(Abstract(s), Trace(s, before), Exec(s, before), e);
    }
  }

  /** Every interleaving reaches exactly what its operations reach on the atomic service, which starts
      empty and keeps its own turn. */
  lemma RunsRefine(es: seq<Event>)
    ensures Abstract(Exec(INITIAL, es)) == DoAll(Atomic(Flow(map[], []), 0), Trace(INITIAL, es))
  {
    InvInitially();
    TraceRefines(INITIAL, es);
    assert Abstract(INITIAL) == Atomic(Flow(map[], []), 0);
  }

  // ----- passes -----

  /** A queue has been chosen and the pass is not decided yet. */
  predicate Undecided(d: DetectorPc) {
    d.Check? || d.Fetch? || d.Infer? || d.Count? || d.SyncLock? || d.Push?
  }

  /** Choices and decisions alternate, so every pass serves the chosen queue exactly once. */
  lemma OneDecisionPerPass(s: State, outcome: Outcome)
    requires HeadStays(s)
    ensures Undecided(StepDetector(s, outcome).detector)
            <==> (s.detector.Choose? && s.src.queues.Keys != {})
                 || (Undecided(s.detector) && !Decides(s, outcome))
  {
  }

  lemma OpenConcat(ops: seq<Operation>, op: Operation)
    ensures Open(ops + [op]) <==> op.Chooses? || (!op.Serves? && Open(ops))
    ensures Alternates(ops + [op])
            <==> Alternates(ops) && (op.Chooses? ==> !Open(ops)) && (op.Serves? ==> Open(ops))
    ensures Choices(ops + [op]) == Choices(ops) + if op.Chooses? then 1 else 0
  {
    assert (ops + [op])[..|ops|] == ops;
  }

  /** What a step adds to the passes. */
  lemma {:induction false} StepOperation(s: State, e: Event)
    requires HeadStays(s)
    ensures var ops, t := OperationOf(s, e), Step(s, e);
            && |ops| <= 1
            && (ops != [] && ops[0].Chooses? <==> t.locked == s.locked + 1)
            && (t.locked == s.locked || t.locked == s.locked + 1)
            && (ops != [] && ops[0].Chooses? ==> !Undecided(s.detector) && Undecided(t.detector))
            && (ops != [] && ops[0].Serves? ==> Undecided(s.detector) && !Undecided(t.detector))
            && (ops == [] || (!ops[0].Chooses? && !ops[0].Serves?) ==> Undecided(t.detector) == Undecided(s.detector))
  {
    match e
    case ProducerStep => ProducerOutput(s);
    case DetectorStep(outcome) => DetectorOperationStep(s, outcome);
    case ProcessorStep => ProcessorFrame(s);
    case _ => CallOutput(s, e);
  }

  lemma DetectorOperationStep(s: State, outcome: Outcome)
    requires HeadStays(s)
    ensures var ops, t := DetectorOperation(s, outcome), StepDetector(s, outcome);
            && (ops != [] && ops[0].Chooses? <==> t.locked == s.locked + 1)
            && (t.locked == s.locked || t.locked == s.locked + 1)
            && (ops != [] && ops[0].Chooses? ==> !Undecided(s.detector) && Undecided(t.detector))
            && (ops != [] && ops[0].Serves? ==> Undecided(s.detector) && !Undecided(t.detector))
            && (ops == [] ==> Undecided(t.detector) == Undecided(s.detector))
  {
    OneDecisionPerPass(s, outcome);
  }

  /** From a state between passes, choices and services alternate in the trace of every run. */
  lemma {:induction false} PassesAlternate(s: State, es: seq<Event>)
    requires Inv(s) && !Undecided(s.detector)
    ensures var ops, t := Trace(s, es), Exec(s, es);
            && Alternates(ops) && (Open(ops) <==> Undecided(t.detector)) && t.locked == s.locked + Choices(ops)
  {
    hide Inv, Step, OperationOf, Undecided, Control, KeysAgree, LocksAgree, HeadStays, WithinCapacity, LedgerHolds,
         OutputFlows, CounterAgrees, NoNullPushed, FlightIsLast;
    if es == [] {
    } else {
      var before, e := es[..|es| - 1], es[|es| - 1];
      PassesAlternate(s, before);
      var t := Exec(s, before);
      InvByRun(s, before);
      InvParts(t);
      StepOperation(t, e);
      var op := OperationOf(t, e);
      if op == [] {
        assert Trace(s, es) == Trace(s, before);
      } else {
        assert op == [op[0]];
        OpenConcat(Trace(s, before), op[0]);
      }
    }
  }

  /** In every interleaving every pass that chose a queue has served it exactly once, except the pass
      that is not decided yet. */
  lemma ServedOncePerPass(es: seq<Event>)
    ensures var s := Exec(INITIAL, es);
            s.locked == |Answers(Trace(INITIAL, es))| + if Undecided(s.detector) then 1 else 0
  {
    InvInitially();
    PassesAlternate(INITIAL, es);
    ServedOncePerChoice(Trace(INITIAL, es));
  }

  /** Between passes and while no source comes or goes, a run is a run of whole iterations of the
      detection loop, in the order of the deciding steps, with arrivals in between. */
  lemma FixedSourcesIterate(before: seq<Event>, after: seq<Event>)
    requires !Undecided(Exec(INITIAL, before).detector)
    requires forall op :: op in Trace(Exec(INITIAL, before), after) ==> !op.Opens? && !op.Closes?
    ensures var s, t := Exec(INITIAL, before), Exec(INITIAL, before + after);
            var iterated := Iterate(Abstract(s), Trace(s, after));
            Abstract(t) == if Undecided(t.detector) then Do(iterated, Chooses) else iterated
  {
    var s := Exec(INITIAL, before);
    InvAlways(before);
    ExecConcat(INITIAL, before, after);
    TraceRefines(s, after);
    PassesAlternate(s, after);
    PassesAreIterations(Abstract(s), Trace(s, after));
  }

  // ----- the answers of inference, as the events give them -----

  /** The pass gives up before it asks inference: an empty queue or a null head. */
  predicate GivesUp(s: State) {
    && s.current in s.src.queues
    && ((s.detector.Check? && s.src.queues[s.current] == [])
        || (s.detector.Fetch? && s.src.queues[s.current] != [] && s.src.queues[s.current][0] == Null))
  }

  /** The answers that the events hold where inference is asked, and any answer where a pass gives up
      before it asks. */
  function Given(s: State, es: seq<Event>): seq<Outcome> {
    if es == [] then []
    else
      var t, e := Exec(s, es[..|es| - 1]), es[|es| - 1];
      Given(s, es[..|es| - 1])
      + if e.DetectorStep? && (t.detector.Infer? || GivesUp(t)) then [e.outcome] else []
  }

  /** An answer that has been given and not been used for a service yet. */
  function Unused(d: DetectorPc): seq<Outcome> {
    if d.Count? || d.SyncLock? || d.Push? then [Detected(d.found)] else []
  }

  lemma AnswersSnoc(ops: seq<Operation>, more: seq<Operation>)
    requires |more| <= 1
    ensures Answers(ops + more) == Answers(ops) + Answers(more)
  {
    if more == [] {
      assert ops + more == ops;
    } else {
      assert (ops + more)[..|ops|] == ops && more[..0] == [];
    }
  }

  lemma DetectorAnswers(s: State, outcome: Outcome)
    requires HeadStays(s)
    ensures Unused(s.detector) + (if s.detector.Infer? || GivesUp(s) then [outcome] else [])
         == Answers(DetectorOperation(s, outcome)) + Unused(StepDetector(s, outcome).detector)
  {
    var op := DetectorOperation(s, outcome);
    if op != [] {
      assert op == [op[0]] && op[..0] == [];
    }
  }

  lemma {:induction false} StepAnswers(s: State, e: Event)
    requires HeadStays(s)
    ensures Unused(s.detector) + (if e.DetectorStep? && (s.detector.Infer? || GivesUp(s)) then [e.outcome] else [])
         == Answers(OperationOf(s, e)) + Unused(Step(s, e).detector)
  {
    hide GivesUp, StepProducer, StepDetector, StepProcessor, Call, HeadStays;
    match e
    case ProducerStep => ProducerOutput(s);
    case DetectorStep(outcome) => DetectorAnswers(s, outcome);
    case ProcessorStep => ProcessorFrame(s);
    case _ => CallOutput(s, e);
  }

  lemma OneOperation(s: State, e: Event)
    ensures |OperationOf(s, e)| <= 1
  {
  }

  /** The services of a run are performed on the answers that the events gave, in their order; the last
      answer may be waiting for its service. */
  lemma {:induction false} AnswersAreGiven(s: State, es: seq<Event>)
    requires Inv(s) && Unused(s.detector) == []
    ensures Given(s, es) == Answers(Trace(s, es)) + Unused(Exec(s, es).detector)
  {
    hide Inv, Step, OperationOf, GivesUp, Unused, Control, KeysAgree, LocksAgree, HeadStays, WithinCapacity,
         LedgerHolds, OutputFlows, CounterAgrees, NoNullPushed, FlightIsLast;
    if es == [] {
    } else {
      var before, e := es[..|es| - 1], es[|es| - 1];
      AnswersAreGiven(s, before);
      InvByRun(s, before);
      InvParts(Exec(s, before));
      StepAnswers(Exec(s, before), e);
      OneOperation(Exec(s, before), e);
      AnswersSnoc(Trace(s, before), OperationOf(Exec(s, before), e));
      var t := Exec(s, before);
      Regroup(Answers(Trace(s, before)), Unused(t.detector),
              if e.DetectorStep? && (t.detector.Infer? || GivesUp(t)) then [e.outcome] else [],
              Answers(OperationOf(t, e)), Unused(Exec(s, es).detector));
    }
  }

  lemma Regroup<T>(a: seq<T>, b: seq<T>, c: seq<T>, d: seq<T>, e: seq<T>)
    requires b + c == d + e
    ensures a + b + c == a + d + e
  {
    assert a + b + c == a + (b + c);
    assert a + d + e == a + (d + e);
  }

  lemma NothingUnused(s: State)
    requires !Undecided(s.detector)
    ensures Unused(s.detector) == []
  {
  }

  lemma QuietTraceIterates(before: seq<Event>, after: seq<Event>)
    requires !Undecided(Exec(INITIAL, before).detector) && !Undecided(Exec(INITIAL, before + after).detector)
    requires forall op :: op in Trace(Exec(INITIAL, before), after) ==> op.Chooses? || op.Serves?
    ensures var s, t := Exec(INITIAL, before), Exec(INITIAL, before + after);
            (Abstract(t).flow, t.current) == Iterations(Abstract(s).flow, s.current, Answers(Trace(s, after)))
  {
    hide Step;
    var s := Exec(INITIAL, before);
    FixedSourcesIterate(before, after);
    QuietIterations(Abstract(s), Trace(s, after));
  }

  lemma AllAnswersUsed(before: seq<Event>, after: seq<Event>)
    requires !Undecided(Exec(INITIAL, before).detector) && !Undecided(Exec(INITIAL, before + after).detector)
    ensures Given(Exec(INITIAL, before), after) == Answers(Trace(Exec(INITIAL, before), after))
  {
    hide Step, Inv, Undecided, Unused, Given, Answers, Trace;
    var s := Exec(INITIAL, before);
    InvAlways(before);
    ExecConcat(INITIAL, before, after);
    NothingUnused(s);
    NothingUnused(Exec(s, after));
    AnswersAreGiven(s, after);
    assert Answers(Trace(s, after)) + [] == Answers(Trace(s, after));
  }

  /** When nothing arrives either, it is the detection loop as one thread sees it, run on the answers
      that the events gave. */
  lemma QuietRunsIterate(before: seq<Event>, after: seq<Event>)
    requires !Undecided(Exec(INITIAL, before).detector) && !Undecided(Exec(INITIAL, before + after).detector)
    requires forall op :: op in Trace(Exec(INITIAL, before), after) ==> op.Chooses? || op.Serves?
    ensures var s, t := Exec(INITIAL, before), Exec(INITIAL, before + after);
            (Abstract(t).flow, t.current) == Iterations(Abstract(s).flow, s.current, Given(s, after))
  {
    hide Step, Undecided, Given, Answers, Trace, Iterations, Abstract;
    QuietTraceIterates(before, after);
    AllAnswersUsed(before, after);
  }
}
