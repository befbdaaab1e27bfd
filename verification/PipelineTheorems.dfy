/** What the pipeline guarantees in every interleaving. */
module PipelineTheorems {
  import opened Types
  import opened OrderedKeys
  import opened Strategies
  import opened ServiceSpec
  import opened Pipeline
  import opened PipelineInvariant

  // ----- conservation -----

  /** In every interleaving and for every registration period: the frames accepted from the source
      equal, in order, those handed to the results followed by those still queued, or, after the
      period, by the suffix that unregistering discarded. */
  lemma FramesConserved(es: seq<Event>, p: nat)
    requires p < |Exec(INITIAL, es).src.ledger|
    ensures var s := Exec(INITIAL, es);
            var l := s.src.ledger[p];
            && |s.out.pushedIn| == |s.out.pushed|
            && (l.open ==> l.source in s.src.queues)
            && l.accepted == MovedIn(s.out.pushed, s.out.pushedIn, p)
                             + (if l.open then Pending(s.src.queues, Flight(s), l.source) else l.discarded)
  {
    InvAlways(es);
    var s := Exec(INITIAL, es);
    assert Balanced(s.src, s.out.pushed, s.out.pushedIn, Flight(s), p);
  }

  lemma OutputInOrder(o: Output, p: ProcessorPc)
    requires OutputFlows(o, p)
    ensures Handled(o, p) <= o.pushed
  {
  }

  /** In every interleaving the processing thread retires results in the order they were pushed, one
      pop each, and has published, in that order and once each, all results it has handled except
      those that passed before a publisher was set. */
  lemma ResultsInOrder(es: seq<Event>)
    ensures var s := Exec(INITIAL, es);
            && s.out.pushed == s.out.retired + s.out.results
            && s.out.unpublished <= |Handled(s.out, s.processor)|
            && s.out.published == Handled(s.out, s.processor)[s.out.unpublished..]
            && Handled(s.out, s.processor) <= s.out.pushed
            && (!s.out.publisher ==> s.out.published == [])
  {
    var s := Exec(INITIAL, es);
    assert OutputFlows(s.out, s.processor) by { InvAlways(es); }
    OutputInOrder(s.out, s.processor);
  }

  /** The processed-frames counter is the number of completed moves, plus one while a counted frame is
      not pushed yet, wrapped to 64 bits. */
  lemma CounterCountsMoves(es: seq<Event>)
    ensures var s := Exec(INITIAL, es);
            s.total == (|s.out.pushed| + (if s.detector.SyncLock? || s.detector.Push? then 1 else 0)) % COUNTER_MODULUS
  {
    hide Step, Inv, Control, KeysAgree, LocksAgree, HeadStays, WithinCapacity, LedgerHolds, OutputFlows, NoNullPushed,
         FlightIsLast;
    InvAlways(es);
    InvParts(Exec(INITIAL, es));
  }

  /** The frame about to be popped is the one that was peeked, and it is the last one pushed. */
  lemma PoppedIsPeeked(es: seq<Event>)
    requires Exec(INITIAL, es).detector.Pop?
    ensures var s := Exec(INITIAL, es);
            s.current in s.src.queues && s.src.queues[s.current] != []
            && s.src.queues[s.current][0] == s.detector.frame
            && s.out.pushed != []
            && s.out.pushed[|s.out.pushed| - 1] == Entry(s.current, s.detector.frame,
                                                         s.out.pushed[|s.out.pushed| - 1].found)
  {
    InvAlways(es);
  }

  // ----- capacity -----

  /** Total number of buffered frames of some of the sources. */
  function Buffered(queues: Queues, ids: seq<SourceId>): nat
    requires forall id :: id in ids ==> id in queues
  {
    if ids == [] then 0 else |queues[ids[0]]| + Buffered(queues, ids[1..])
  }

  lemma {:induction false} BufferedBounded(queues: Queues, ids: seq<SourceId>)
    requires forall id :: id in ids ==> id in queues
    requires forall id :: id in queues ==> |queues[id]| <= CAPACITY
    ensures Buffered(queues, ids) <= CAPACITY * |ids|
  {
    if ids == [] {
    } else {
      BufferedBounded(queues, ids[1..]);
    }
  }

  /** Although the size test runs before the queue's mutex is taken, no queue ever exceeds the
      capacity, and the buffered frames never exceed it times the number of sources. */
  lemma CapacityNeverExceeded(es: seq<Event>)
    ensures var q := Exec(INITIAL, es).src.queues;
            && (forall id :: id in q ==> |q[id]| <= 30)
            && Buffered(q, Ascend(q.Keys)) <= 30 * |q.Keys|
  {
    InvAlways(es);
    BufferedBounded(Exec(INITIAL, es).src.queues, Ascend(Exec(INITIAL, es).src.queues.Keys));
  }

  // ----- keys -----

  /** The id a register or unregister call is half-way through. */
  function InTransit(p: ProducerPc): Option<SourceId> {
    match p
    case RegMutex(id) => Some(id)
    case RegCounter(id) => Some(id)
    case UnregMutex(id) => Some(id)
    case UnregCounter(id) => Some(id)
    case _ => None
  }

  /** The three per-source maps have the same keys, except possibly for the one id in transit. */
  lemma KeysDifferOnOneId(es: seq<Event>, id: SourceId)
    requires InTransit(Exec(INITIAL, es).producer) != Some(id)
    ensures var src := Exec(INITIAL, es).src;
            && (id in src.queues <==> id in src.mutexes)
            && (id in src.queues <==> id in src.dropped)
  {
    var s := Exec(INITIAL, es);
    assert KeysAgree(s) by { InvAlways(es); }
    KeysOutsideTransit(s, id);
  }

  lemma KeysOutsideTransit(s: State, id: SourceId)
    requires KeysAgree(s) && InTransit(s.producer) != Some(id)
    ensures id in s.src.queues.Keys <==> id in s.src.mutexes.Keys
    ensures id in s.src.queues.Keys <==> id in s.src.dropped.Keys
  {
  }

  /** Every map access of the detection thread after the choice, and of the producer while it adds a
      frame, finds its key, and every head access finds a frame. */
  predicate AccessesHit(s: State) {
    var q, m := s.src.queues, s.src.mutexes;
    && (Chosen(s.detector) ==> s.current in q)
    && (s.detector.Fetch? || s.detector.Pop? ==> s.current in q && q[s.current] != [])
    && (s.detector.QueueLock? || s.detector.QueueUnlock? ==> s.current in m)
    && (s.producer.AddSize? || s.producer.AddPush? ==> s.producer.id in q)
    && (s.producer.AddLock? || s.producer.AddUnlock? ==> s.producer.id in m)
    && (s.processor.Publish? || s.processor.ResultPop? ==> s.out.results != [])
  }

  lemma AccessesAlwaysHit(es: seq<Event>)
    ensures AccessesHit(Exec(INITIAL, es))
    ensures !Exec(INITIAL, es).producer.ProducerFault? && !Exec(INITIAL, es).processor.ProcessorFault?
  {
    var s := Exec(INITIAL, es);
    assert Control(s) && OutputFlows(s.out, s.processor) by { InvAlways(es); }
    ControlledAccesses(s);
  }

  lemma ControlledAccesses(s: State)
    requires Control(s) && OutputFlows(s.out, s.processor)
    ensures AccessesHit(s)
  {
  }

  // ----- deadlock and mutex lifetime -----

  /** The thread that holds the mutex `t` waits for (`t` itself when it waits for none). */
  function HolderFor(s: State, t: Thread): Thread {
    if !Waits(s, t) then t
    else
      var m := match t
        case Producer => if s.producer.UnregLock? then s.inference else s.src.mutexes[s.producer.id]
        case Detector =>
          if s.detector.Lock? then s.inference
          else if s.detector.SyncLock? then s.sync else s.src.mutexes[s.current]
        case Processor => s.sync;
      if m == None then t else m.value
  }

  /** Given a turn, the thread leaves its program point, whatever inference answers. */
  predicate Moves(s: State, t: Thread, outcome: Outcome) {
    match t
    case Producer => StepProducer(s).producer != s.producer
    case Detector => StepDetector(s, outcome).detector != s.detector
    case Processor => StepProcessor(s).processor != s.processor
  }

  lemma ProducerHolder(s: State, outcome: Outcome)
    requires Control(s) && OutputFlows(s.out, s.processor) && !s.detector.DetectorFault? && Waits(s, Producer)
    ensures var h := HolderFor(s, Producer);
            h != Producer && (Moves(s, h, outcome) || (Waits(s, h) && Moves(s, HolderFor(s, h), outcome)))
  {
    hide ChooseByOrder, StepProducer;
  }

  lemma DetectorHolder(s: State, outcome: Outcome)
    requires Control(s) && OutputFlows(s.out, s.processor) && !s.detector.DetectorFault? && Waits(s, Detector)
    ensures var h := HolderFor(s, Detector);
            h != Detector && Moves(s, h, outcome)
  {
    hide StepDetector;
  }

  lemma ProcessorHolder(s: State, outcome: Outcome)
    requires Control(s) && OutputFlows(s.out, s.processor) && Waits(s, Processor)
    ensures var h := HolderFor(s, Processor);
            h != Processor && Moves(s, h, outcome)
  {
    hide StepProducer;
  }

  lemma HolderMoves(s: State, t: Thread, outcome: Outcome)
    requires Control(s) && OutputFlows(s.out, s.processor) && !s.detector.DetectorFault? && Waits(s, t)
    ensures var h := HolderFor(s, t);
            h != t && (Moves(s, h, outcome) || (Waits(s, h) && Moves(s, HolderFor(s, h), outcome)))
  {
    hide Control, OutputFlows, Moves, Waits, HolderFor;
    match t
    case Producer => ProducerHolder(s, outcome);
    case Detector => DetectorHolder(s, outcome);
    case Processor => ProcessorHolder(s, outcome);
  }

  /** No deadlock: in every reachable state a waiting thread waits for another thread, which can step
      or waits for a third that can step; so no set of threads waits in a circle. */
  lemma NoDeadlock(es: seq<Event>, t: Thread, outcome: Outcome)
    requires !Exec(INITIAL, es).detector.DetectorFault? && Waits(Exec(INITIAL, es), t)
    ensures var s := Exec(INITIAL, es);
            var h := HolderFor(s, t);
            h != t && (Moves(s, h, outcome) || (Waits(s, h) && Moves(s, HolderFor(s, h), outcome)))
  {
    var s := Exec(INITIAL, es);
    assert Control(s) && OutputFlows(s.out, s.processor) by { InvAlways(es); }
    HolderMoves(s, t, outcome);
  }

  /** No queue mutex is erased while it is held or about to be taken. */
  lemma MutexErasedUnused(es: seq<Event>)
    requires Exec(INITIAL, es).producer.UnregMutex?
    ensures var s := Exec(INITIAL, es);
            var id := s.producer.id;
            id in s.src.mutexes && s.src.mutexes[id] == None && !s.detector.QueueLock? && !s.detector.QueueUnlock?
  {
    var s := Exec(INITIAL, es);
    assert KeysAgree(s) && LocksAgree(s) by { InvAlways(es); }
  }

  // ----- an unregistered source stays out -----

  /** The source is not registered, and not being registered. */
  predicate Out(s: State, id: SourceId) {
    id !in s.src.queues && s.producer != RegQueue(id)
  }

  lemma ProducerKeepsOut(s: State, id: SourceId)
    requires KeysAgree(s) && Out(s, id)
    ensures Out(StepProducer(s), id)
  {
  }

  lemma CallKeepsOut(s: State, e: Event, id: SourceId)
    requires IsCall(e) && Out(s, id) && e != Register(id)
    ensures Out(Call(s, e), id)
  {
  }

  /** Results were added at the end only, and none of them from the source. */
  predicate OthersAdded(pushed: seq<Entry>, later: seq<Entry>, id: SourceId) {
    pushed <= later && forall i :: |pushed| <= i < |later| ==> later[i].source != id
  }

  lemma {:induction false} StepKeepsOut(s: State, e: Event, id: SourceId)
    requires Inv(s) && Out(s, id) && e != Register(id)
    ensures Out(Step(s, e), id)
    ensures OthersAdded(s.out.pushed, Step(s, e).out.pushed, id)
  {
    match e
    case ProducerStep =>
      ProducerKeepsOut(s, id);
      ProducerOutput(s);
    case DetectorStep(outcome) =>
      DetectorKeys(s, outcome);
      DetectorOutput(s, outcome);
    case ProcessorStep => ProcessorFrame(s);
    case _ =>
      CallKeepsOut(s, e, id);
      CallOutput(s, e);
  }

  /** From any reachable state in which a source is not registered, and until it is registered again,
      whatever the threads do and however many of its frames arrive: it has no queue, it is not
      chosen, and no result of it is pushed. */
  lemma {:induction false} ObsoleteStaysOut(before: seq<Event>, after: seq<Event>, id: SourceId)
    requires Out(Exec(INITIAL, before), id) && Register(id) !in after
    ensures var s, t := Exec(INITIAL, before), Exec(INITIAL, before + after);
            && id !in t.src.queues
            && (Chosen(t.detector) ==> t.current != id)
            && OthersAdded(s.out.pushed, t.out.pushed, id)
  {
    var s := Exec(INITIAL, before);
    InvAlways(before);
    OutDuring(s, after, id);
    ExecConcat(INITIAL, before, after);
    ControlledAccesses(Exec(s, after));
  }

  lemma {:induction false} OutDuring(s: State, es: seq<Event>, id: SourceId)
    requires Inv(s) && Out(s, id) && Register(id) !in es
    ensures var t := Exec(s, es);
            Inv(t) && Out(t, id) && OthersAdded(s.out.pushed, t.out.pushed, id)
  {
    if es == [] {
    } else {
      var n := |es| - 1;
      var t := Exec(s, es[..n]);
      OutDuring(s, es[..n], id);
      StepKeepsOut(t, es[n], id);
      InvByStep(t, es[n]);
      OthersAddedTwice(s.out.pushed, t.out.pushed, Step(t, es[n]).out.pushed, id);
    }
  }

  lemma OthersAddedTwice(a: seq<Entry>, b: seq<Entry>, c: seq<Entry>, id: SourceId)
    requires OthersAdded(a, b, id) && OthersAdded(b, c, id)
    ensures OthersAdded(a, c, id)
  {
    assert forall i :: |a| <= i < |b| ==> c[i] == b[i];
  }
}
