/** When the detection thread chooses from an empty map: it tests for one before it takes the inference
    mutex, and the last source can be removed in between. */
module EmptyChoice {
  import opened Types
  import opened OrderedKeys
  import opened Pipeline
  import opened PipelineInvariant

  // ----- the window, as the detection thread sees it -----

  /** The erase of the last source while the detection thread is between its emptiness test and the
      inference mutex. */
  predicate EmptiesInWindow(s: State, e: Event) {
    e.ProducerStep? && s.producer.UnregQueue? && s.detector.Lock? && s.src.queues.Keys == {s.producer.id}
  }

  /** The next choice is made from a non-empty map, and no choice from an empty one was made. */
  predicate ChoiceSafe(s: State) {
    && !s.detector.DetectorFault?
    && (s.detector.Lock? || s.detector.Choose? ==> s.src.queues.Keys != {})
  }

  lemma ProducerKeepsChoiceSafe(s: State)
    requires LocksAgree(s) && ChoiceSafe(s) && !EmptiesInWindow(s, ProducerStep)
    ensures ChoiceSafe(StepProducer(s))
  {
    ProducerOutput(s);
    ProducerSources(s);
    if s.producer.UnregQueue? && s.detector.Lock? {
      var id :| id in s.src.queues && id != s.producer.id;
      assert id in StepProducer(s).src.queues;
    }
  }

  lemma DetectorKeepsChoiceSafe(s: State, outcome: Outcome)
    requires Control(s) && ChoiceSafe(s)
    ensures ChoiceSafe(StepDetector(s, outcome))
  {
    MutexesThere(s);
  }

  lemma MutexesThere(s: State)
    requires Control(s)
    ensures s.detector.QueueLock? || s.detector.QueueUnlock? ==> s.current in s.src.mutexes
  {
  }

  lemma {:induction false} StepKeepsChoiceSafe(s: State, e: Event)
    requires Inv(s) && ChoiceSafe(s) && !EmptiesInWindow(s, e)
    ensures ChoiceSafe(Step(s, e))
  {
    match e
    case ProducerStep => ProducerKeepsChoiceSafe(s);
    case DetectorStep(outcome) => DetectorKeepsChoiceSafe(s, outcome);
    case ProcessorStep => ProcessorFrame(s);
    case _ => CallOutput(s, e);
  }

  /** A run in which the last source is never removed inside the window never chooses from an empty map. */
  lemma {:induction false} NoChoiceFromEmpty(es: seq<Event>)
    requires forall k :: 0 <= k < |es| ==> !EmptiesInWindow(Exec(INITIAL, es[..k]), es[k])
    ensures ChoiceSafe(Exec(INITIAL, es))
  {
    if es == [] {
    } else {
      var n := |es| - 1;
      var before := es[..n];
      forall k | 0 <= k < n ensures !EmptiesInWindow(Exec(INITIAL, before[..k]), before[k]) {
        assert before[..k] == es[..k];
      }
      NoChoiceFromEmpty(before);
      InvAlways(before);
      StepKeepsChoiceSafe(Exec(INITIAL, before), es[n]);
    }
  }

  lemma EraseRunsToTheEnd(s: State, id: SourceId)
    requires s.producer == UnregQueue(id)
    ensures var p := ProducerStep;
            var t := Exec(s, [p, p, p, p]);
            t.detector == s.detector && t.inference == None && t.src.queues == s.src.queues - {id}
  {
    FourSteps(s, ProducerStep, ProducerStep, ProducerStep, ProducerStep);
    hide Exec, StepProducer;
    var t := EraseQueue(s, id);
    var u := EraseMutex(t, id);
    EraseSteps(s, id);
    EraseSteps(t, id);
    EraseSteps(u, id);
    EraseSteps(EraseCounter(u, id), id);
  }

  /** And whenever the last source is removed inside the window, the schedule that runs the producer to
      the end of its call and then the detection thread does choose from the empty map. */
  lemma WindowLeadsToEmptyChoice(s: State)
    requires EmptiesInWindow(s, ProducerStep)
    ensures var p, d := ProducerStep, DetectorStep(Thrown);
            Exec(s, [p, p, p, p] + [d] + [d]).detector == DetectorFault
  {
    var p, d := ProducerStep, DetectorStep(Thrown);
    EraseRunsToTheEnd(s, s.producer.id);
    var t := Exec(s, [p, p, p, p]);
    assert t.src.queues.Keys == {};
    ExecSnoc(s, [p, p, p, p], d);
    ExecSnoc(s, [p, p, p, p] + [d], d);
    assert StepDetector(t, Thrown) == LockInference(t);
    assert StepDetector(LockInference(t), Thrown) == ChooseQueue(LockInference(t));
  }

  // ----- the calls that open it, as a caller sees them -----

  /** An unregister call, made while the producer is between calls, for the only registered source. */
  predicate RemovesLast(s: State, e: Event) {
    e.Unregister? && s.producer.Idle? && s.src.queues.Keys == {e.id}
  }

  predicate SparesLast(s: State) {
    s.producer.UnregLock? || s.producer.UnregQueue? ==> s.src.queues.Keys != {s.producer.id}
  }

  lemma ProducerSpares(s: State)
    requires SparesLast(s)
    ensures SparesLast(StepProducer(s))
  {
  }

  lemma CallSpares(s: State, e: Event)
    requires IsCall(e) && SparesLast(s) && !RemovesLast(s, e)
    ensures SparesLast(Call(s, e))
  {
  }

  lemma {:induction false} StepSpares(s: State, e: Event)
    requires SparesLast(s) && !RemovesLast(s, e)
    ensures SparesLast(Step(s, e))
  {
    match e
    case ProducerStep => ProducerSpares(s);
    case DetectorStep(outcome) => DetectorKeys(s, outcome);
    case ProcessorStep => ProcessorFrame(s);
    case _ => CallSpares(s, e);
  }

  /** No call of the run removes the last source. */
  ghost predicate KeepsOne(es: seq<Event>) {
    forall k :: 0 <= k < |es| ==> !RemovesLast(Exec(INITIAL, es[..k]), es[k])
  }

  lemma KeepsOnePrefix(es: seq<Event>, n: nat)
    requires KeepsOne(es) && n <= |es|
    ensures KeepsOne(es[..n])
  {
    forall k | 0 <= k < n ensures !RemovesLast(Exec(INITIAL, es[..n][..k]), es[..n][k]) {
      assert es[..n][..k] == es[..k];
    }
  }

  lemma {:induction false} RunSpares(es: seq<Event>)
    requires KeepsOne(es)
    ensures SparesLast(Exec(INITIAL, es))
  {
    if es == [] {
    } else {
      var n := |es| - 1;
      KeepsOnePrefix(es, n);
      RunSpares(es[..n]);
      StepSpares(Exec(INITIAL, es[..n]), es[n]);
    }
  }

  /** A run whose calls never remove the last source never chooses from an empty map, nor is about to. */
  lemma KeepingOneIsSafe(es: seq<Event>)
    requires KeepsOne(es)
    ensures ChoiceSafe(Exec(INITIAL, es))
  {
    forall k | 0 <= k < |es| ensures !EmptiesInWindow(Exec(INITIAL, es[..k]), es[k]) {
      KeepsOnePrefix(es, k);
      RunSpares(es[..k]);
    }
    NoChoiceFromEmpty(es);
  }

  // ----- driving the detection thread to the inference mutex -----

  predicate CallFree(es: seq<Event>) { forall k :: 0 <= k < |es| ==> !IsCall(es[k]) }

  /** One more step before a run without calls. */
  lemma StepBefore(es: seq<Event>, e: Event, rest: seq<Event>)
    requires !IsCall(e) && CallFree(rest)
    ensures CallFree([e] + rest) && es + ([e] + rest) == es + [e] + rest
  {
    assert es + ([e] + rest) == es + [e] + rest;
  }

  /** How many steps of the detection thread, at most, to the point before the inference mutex. */
  function Rung(d: DetectorPc): nat {
    match d
    case Lock => 0
    case Test => 1
    case Release => 2
    case QueueUnlock => 3
    case Pop(frame) => 4
    case QueueLock(frame) => 5
    case SyncUnlock(frame) => 6
    case Push(frame, found) => 7
    case SyncLock(frame, found) => 8
    case Count(frame, found) => 9
    case Infer(frame) => 10
    case Fetch => 11
    case Check => 12
    case Choose => 13
    case DetectorFault => 14
  }

  /** The processing thread may have to give up `sync` first. */
  function Rank(s: State): nat {
    3 * Rung(s.detector)
    + match s.processor
      case ResultPop => 2
      case ResultUnlock => 1
      case _ => 0
  }

  function Driver(s: State): Event {
    if Waits(s, Detector) then ProcessorStep else DetectorStep(Thrown)
  }

  /** The producer is about to take the inference mutex and holds nothing; some source is registered. */
  predicate AboutToUnregister(s: State) {
    s.producer.UnregLock? && !s.detector.DetectorFault? && s.producer.id in s.src.queues
  }

  lemma DriveDetector(s: State)
    requires Control(s) && AboutToUnregister(s) && !s.detector.Lock? && !Waits(s, Detector)
    ensures var t := StepDetector(s, Thrown);
            Rung(t.detector) < Rung(s.detector) && !t.detector.DetectorFault? && t.processor == s.processor
  {
    hide Control, ChooseByOrder;
    DetectorFacts(s);
    DetectorOutput(s, Thrown);
  }

  lemma DriveProcessor(s: State)
    requires Control(s) && OutputFlows(s.out, s.processor) && AboutToUnregister(s) && !s.detector.Lock?
    requires Waits(s, Detector)
    ensures Rank(StepProcessor(s)) < Rank(s)
  {
    ProcessorFrame(s);
  }

  lemma DriveStep(s: State)
    requires Control(s) && OutputFlows(s.out, s.processor) && AboutToUnregister(s) && !s.detector.Lock?
    ensures var t := Step(s, Driver(s));
            && Rank(t) < Rank(s) && AboutToUnregister(t)
            && t.producer == s.producer && t.src.queues.Keys == s.src.queues.Keys
  {
    if Waits(s, Detector) {
      DriveProcessor(s);
      ProcessorFrame(s);
    } else {
      DriveDetector(s);
      DetectorKeys(s, Thrown);
    }
  }

  lemma ControlAlways(es: seq<Event>)
    ensures var s := Exec(INITIAL, es); Control(s) && OutputFlows(s.out, s.processor)
  {
    InvAlways(es);
  }

  lemma DriveOne(es: seq<Event>)
    requires AboutToUnregister(Exec(INITIAL, es)) && !Exec(INITIAL, es).detector.Lock?
    ensures var s := Exec(INITIAL, es);
            var t := Exec(INITIAL, es + [Driver(s)]);
            && Rank(t) < Rank(s) && AboutToUnregister(t)
            && t.producer == s.producer && t.src.queues.Keys == s.src.queues.Keys
  {
    var s := Exec(INITIAL, es);
    assert Control(s) && OutputFlows(s.out, s.processor) by { ControlAlways(es); }
    DriveStep(s);
    assert Exec(INITIAL, es + [Driver(s)]) == Step(s, Driver(s)) by { ExecSnoc(INITIAL, es, Driver(s)); }
  }

  lemma {:induction false} DriveToLock(es: seq<Event>) returns (fs: seq<Event>)
    requires AboutToUnregister(Exec(INITIAL, es))
    ensures CallFree(fs)
    ensures var s, t := Exec(INITIAL, es), Exec(INITIAL, es + fs);
            t.detector.Lock? && t.producer == s.producer && t.src.queues.Keys == s.src.queues.Keys
    decreases Rank(Exec(INITIAL, es))
  {
    if Exec(INITIAL, es).detector.Lock? {
      fs := [];
      assert es + fs == es;
    } else {
      var e := Driver(Exec(INITIAL, es));
      DriveOne(es);
      var rest := DriveToLock(es + [e]);
      StepBefore(es, e, rest);
      fs := [e] + rest;
    }
  }

  lemma TakeInference(s: State)
    requires Control(s) && s.producer.UnregLock? && s.detector.Lock?
    ensures StepProducer(s) == StopInference(s, s.producer.id)
  {
  }

  lemma UnregisterBegins(s: State, id: SourceId)
    requires s.producer.Idle? && id in s.src.queues.Keys
    ensures Step(s, Unregister(id)) == s.(producer := UnregLock(id))
  {
  }

  lemma UnregisterReaches(es: seq<Event>, id: SourceId)
    requires !Exec(INITIAL, es).detector.DetectorFault? && RemovesLast(Exec(INITIAL, es), Unregister(id))
    ensures var t := Exec(INITIAL, es + [Unregister(id)]);
            AboutToUnregister(t) && t.producer == UnregLock(id) && t.src.queues.Keys == {id}
  {
    ExecSnoc(INITIAL, es, Unregister(id));
    assert id in Exec(INITIAL, es).src.queues.Keys;
    UnregisterBegins(Exec(INITIAL, es), id);
  }

  /** The producer takes the mutex and completes its call, and the detection thread goes on. */
  const EMPTY_CHOICE_TAIL :=
    [ProducerStep] + ([ProducerStep, ProducerStep, ProducerStep, ProducerStep]
                      + [DetectorStep(Thrown)] + [DetectorStep(Thrown)])

  lemma FaultFromLock(es: seq<Event>, id: SourceId)
    requires var s := Exec(INITIAL, es);
             s.detector.Lock? && s.producer == UnregLock(id) && s.src.queues.Keys == {id}
    ensures Exec(INITIAL, es + EMPTY_CHOICE_TAIL).detector == DetectorFault
  {
    hide Exec, StepProducer, Control, OutputFlows;
    var p, d := ProducerStep, DetectorStep(Thrown);
    ControlAlways(es);
    TakeInference(Exec(INITIAL, es));
    ExecSnoc(INITIAL, es, p);
    WindowLeadsToEmptyChoice(Exec(INITIAL, es + [p]));
    ExecConcat(INITIAL, es + [p], [p, p, p, p] + [d] + [d]);
    assert es + EMPTY_CHOICE_TAIL == es + [p] + ([p, p, p, p] + [d] + [d]);
  }

  /** From every reachable state in which no choice from an empty map has been made, unregistering the
      only source can lead to one, however far the threads have come. */
  lemma RemovalCanFault(es: seq<Event>, id: SourceId) returns (fs: seq<Event>)
    requires !Exec(INITIAL, es).detector.DetectorFault? && RemovesLast(Exec(INITIAL, es), Unregister(id))
    ensures CallFree(fs) && Exec(INITIAL, es + [Unregister(id)] + fs).detector == DetectorFault
  {
    hide Exec, Step;
    var called := es + [Unregister(id)];
    UnregisterReaches(es, id);
    var drive := DriveToLock(called);
    FaultFromLock(called + drive, id);
    fs := drive + EMPTY_CHOICE_TAIL;
    assert called + fs == called + drive + EMPTY_CHOICE_TAIL;
  }

  /** After the run `es` and without further calls, some schedule chooses from the empty map. */
  ghost predicate CanFault(es: seq<Event>) {
    exists fs :: CallFree(fs) && Exec(INITIAL, es + fs).detector == DetectorFault
  }

  /** As long as no call has removed the last source, the next call can lead to a choice from the empty
      map exactly when it unregisters the only registered source. */
  lemma CallCanFault(es: seq<Event>, call: Event)
    requires KeepsOne(es) && Exec(INITIAL, es).producer == Idle && IsCall(call)
    ensures CanFault(es + [call]) <==> RemovesLast(Exec(INITIAL, es), call)
  {
    var s := Exec(INITIAL, es);
    if RemovesLast(s, call) {
      KeepingOneIsSafe(es);
      var fs := RemovalCanFault(es, call.id);
      assert [call] == [Unregister(call.id)];
    } else if CanFault(es + [call]) {
      var fs :| CallFree(fs) && Exec(INITIAL, es + [call] + fs).detector == DetectorFault;
      KeepsOneExtends(es, call, fs);
      KeepingOneIsSafe(es + [call] + fs);
    }
  }

  lemma KeepsOneExtends(es: seq<Event>, call: Event, fs: seq<Event>)
    requires KeepsOne(es) && !RemovesLast(Exec(INITIAL, es), call) && CallFree(fs)
    ensures KeepsOne(es + [call] + fs)
  {
    var all := es + [call] + fs;
    forall k | 0 <= k < |all| ensures !RemovesLast(Exec(INITIAL, all[..k]), all[k]) {
      if k < |es| {
        assert all[..k] == es[..k] && all[k] == es[k];
      } else if k == |es| {
        assert all[..k] == es && all[k] == call;
      } else {
        assert all[k] == fs[k - |es| - 1];
      }
    }
  }

  // ----- a caller's whole program -----

  /** The calls of a run: those made while the producer was between calls. */
  function Made(es: seq<Event>): seq<Event> {
    if es == [] then []
    else
      var n := |es| - 1;
      Made(es[..n]) + if IsCall(es[n]) && Exec(INITIAL, es[..n]).producer.Idle? then [es[n]] else []
  }

  /** What a call makes of the registered sources. */
  function KeysWith(keys: set<SourceId>, call: Event): set<SourceId> {
    match call
    case Register(id) => keys + {id}
    case Unregister(id) => keys - {id}
    case _ => keys
  }

  /** The sources registered after these calls. */
  function KeysAfter(calls: seq<Event>): set<SourceId> {
    if calls == [] then {} else KeysWith(KeysAfter(calls[..|calls| - 1]), calls[|calls| - 1])
  }

  /** The keys once the call in progress is complete. */
  function KeysAhead(s: State): set<SourceId> {
    match s.producer
    case RegQueue(id) => s.src.queues.Keys + {id}
    case UnregLock(id) => s.src.queues.Keys - {id}
    case UnregQueue(id) => s.src.queues.Keys - {id}
    case _ => s.src.queues.Keys
  }

  lemma KeysAfterSnoc(calls: seq<Event>, call: Event)
    ensures KeysAfter(calls + [call]) == KeysWith(KeysAfter(calls), call)
  {
    assert (calls + [call])[..|calls|] == calls;
  }

  lemma UnregisterAhead(s: State, id: SourceId)
    requires s.producer == UnregLock(id)
    ensures KeysAhead(StepProducer(s)) == KeysAhead(s)
  {
  }

  lemma OtherwisePc(s: State)
    requires !s.producer.RegQueue? && !s.producer.UnregLock? && !s.producer.UnregQueue?
    ensures var p := StepProducer(s).producer; !p.RegQueue? && !p.UnregLock? && !p.UnregQueue?
  {
    hide OpenPeriod, ClosePeriod, Accept;
  }

  lemma OtherwiseAhead(s: State)
    requires !s.producer.RegQueue? && !s.producer.UnregLock? && !s.producer.UnregQueue?
    ensures KeysAhead(StepProducer(s)) == KeysAhead(s)
  {
    hide StepProducer;
    OtherwisePc(s);
    match s.producer
    case AddPush(id, frame) => AddSteps(s, id, frame);
    case _ => ProducerSources(s);
  }

  lemma ProducerKeysAhead(s: State)
    ensures KeysAhead(StepProducer(s)) == KeysAhead(s)
  {
    hide StepProducer;
    match s.producer
    case RegQueue(id) => RegisterSteps(s, id);
    case UnregLock(id) => UnregisterAhead(s, id);
    case UnregQueue(id) => EraseSteps(s, id);
    case _ => OtherwiseAhead(s);
  }

  lemma CallKeysAhead(s: State, e: Event)
    requires IsCall(e)
    ensures KeysAhead(Call(s, e)) == if s.producer.Idle? then KeysWith(KeysAhead(s), e) else KeysAhead(s)
  {
  }

  lemma {:induction false} StepKeysAhead(s: State, e: Event)
    ensures KeysAhead(Step(s, e)) == if IsCall(e) && s.producer.Idle? then KeysWith(KeysAhead(s), e) else KeysAhead(s)
  {
    match e
    case ProducerStep => ProducerKeysAhead(s);
    case DetectorStep(outcome) => DetectorKeys(s, outcome);
    case ProcessorStep => ProcessorFrame(s);
    case _ => CallKeysAhead(s, e);
  }

  lemma MadeSnoc(es: seq<Event>, e: Event)
    ensures Made(es + [e]) == Made(es) + if IsCall(e) && Exec(INITIAL, es).producer.Idle? then [e] else []
  {
    assert (es + [e])[..|es|] == es;
  }

  lemma {:induction false} KeysFollowCalls(es: seq<Event>)
    ensures KeysAhead(Exec(INITIAL, es)) == KeysAfter(Made(es))
  {
    if es == [] {
    } else {
      var n := |es| - 1;
      var s, e := Exec(INITIAL, es[..n]), es[n];
      KeysFollowCalls(es[..n]);
      assert es == es[..n] + [e];
      MadeSnoc(es[..n], e);
      StepKeysAhead(s, e);
      if IsCall(e) && s.producer.Idle? {
        KeysAfterSnoc(Made(es[..n]), e);
      } else {
        assert Made(es) == Made(es[..n]);
      }
    }
  }

  /** Call number `k` unregisters the only source that the calls before it have left registered. */
  predicate UnregistersOnly(calls: seq<Event>, k: nat)
    requires k < |calls|
  {
    calls[k].Unregister? && KeysAfter(calls[..k]) == {calls[k].id}
  }

  lemma {:induction false} MadePrefix(es: seq<Event>, k: nat)
    requires k <= |es|
    ensures Made(es[..k]) <= Made(es)
    decreases |es|
  {
    if k < |es| {
      MadePrefix(es[..|es| - 1], k);
      assert es[..|es| - 1][..k] == es[..k];
    } else {
      assert es[..k] == es;
    }
  }

  lemma RemovalCounts(es: seq<Event>, call: Event)
    requires RemovesLast(Exec(INITIAL, es), call)
    ensures KeysAfter(Made(es)) == {call.id} && Made(es + [call]) == Made(es) + [call]
  {
    KeysFollowCalls(es);
    MadeSnoc(es, call);
  }

  /** A call that removes the last source is one of the calls made, in its place. */
  lemma RemovalMade(es: seq<Event>, k: nat, calls: seq<Event>) returns (j: nat)
    requires k < |es| && RemovesLast(Exec(INITIAL, es[..k]), es[k]) && Made(es) <= calls
    ensures j < |calls| && UnregistersOnly(calls, j)
  {
    var before, call := Made(es[..k]), es[k];
    RemovalCounts(es[..k], call);
    assert Made(es[..k] + [call]) <= Made(es) by {
      assert es[..k + 1] == es[..k] + [call];
      MadePrefix(es, k + 1);
    }
    Positioned(before, call, Made(es), calls);
    j := |before|;
  }

  lemma Positioned(before: seq<Event>, e: Event, made: seq<Event>, calls: seq<Event>)
    requires before + [e] <= made <= calls
    ensures |before| < |calls| && calls[..|before|] == before && calls[|before|] == e
  {
    assert calls[..|before| + 1] == before + [e];
    assert calls[..|before|] == calls[..|before| + 1][..|before|];
  }

  predicate AllCalls(calls: seq<Event>) { forall k :: 0 <= k < |calls| ==> IsCall(calls[k]) }

  // ----- a run that makes the calls one after the other -----

  /** How many steps the producer needs to finish its call. */
  function CallRank(p: ProducerPc): nat {
    match p
    case RegQueue(id) => 3
    case RegMutex(id) => 2
    case RegCounter(id) => 1
    case UnregLock(id) => 5
    case UnregQueue(id) => 4
    case UnregMutex(id) => 3
    case UnregCounter(id) => 2
    case UnregUnlock => 1
    case AddSize(id, frame) => 4
    case AddLock(id, frame) => 3
    case AddPush(id, frame) => 2
    case AddUnlock(id) => 1
    case _ => 0
  }

  /** Without the detection thread the producer does not wait, and what it accesses is there. */
  lemma FinishFacts(s: State)
    requires Control(s) && s.detector == Test
    ensures !Waits(s, Producer) && !s.producer.ProducerFault?
    ensures s.producer.AddSize? || s.producer.AddPush? ==> s.producer.id in s.src.queues
    ensures s.producer.AddLock? || s.producer.AddUnlock? ==> s.producer.id in s.src.mutexes
  {
  }

  lemma FinishStep(s: State)
    requires Control(s) && s.detector == Test && !s.producer.Idle?
    ensures CallRank(StepProducer(s).producer) < CallRank(s.producer)
  {
    hide Control;
    FinishFacts(s);
  }

  lemma {:induction false} FinishCall(es: seq<Event>) returns (fs: seq<Event>)
    requires Exec(INITIAL, es).detector == Test
    ensures CallFree(fs)
    ensures var t := Exec(INITIAL, es + fs); t.producer == Idle && t.detector == Test
    decreases CallRank(Exec(INITIAL, es).producer)
  {
    var s := Exec(INITIAL, es);
    if s.producer.Idle? {
      fs := [];
      assert es + fs == es;
    } else {
      ControlAlways(es);
      FinishStep(s);
      ProducerOutput(s);
      ExecSnoc(INITIAL, es, ProducerStep);
      var rest := FinishCall(es + [ProducerStep]);
      StepBefore(es, ProducerStep, rest);
      fs := [ProducerStep] + rest;
    }
  }

  lemma {:induction false} MadeCallFree(es: seq<Event>, fs: seq<Event>)
    requires CallFree(fs)
    ensures Made(es + fs) == Made(es)
  {
    if fs == [] {
      assert es + fs == es;
    } else {
      var n := |fs| - 1;
      MadeCallFree(es, fs[..n]);
      assert (es + fs)[..|es + fs| - 1] == es + fs[..n];
    }
  }

  /** One call is made and completed. */
  lemma CallCompletes(es: seq<Event>, call: Event) returns (fs: seq<Event>)
    requires IsCall(call) && Exec(INITIAL, es).producer == Idle && Exec(INITIAL, es).detector == Test
    ensures Made(es + [call] + fs) == Made(es) + [call]
    ensures var s := Exec(INITIAL, es + [call] + fs); s.producer == Idle && s.detector == Test
  {
    ExecSnoc(INITIAL, es, call);
    CallOutput(Exec(INITIAL, es), call);
    fs := FinishCall(es + [call]);
    MadeSnoc(es, call);
    MadeCallFree(es + [call], fs);
  }

  /** Any calls can be made while the detection thread does not run. */
  lemma {:induction false} CallsCanBeMade(calls: seq<Event>) returns (es: seq<Event>)
    requires AllCalls(calls)
    ensures Made(es) == calls
    ensures var s := Exec(INITIAL, es); s.producer == Idle && s.detector == Test
  {
    if calls == [] {
      es := [];
    } else {
      var n := |calls| - 1;
      var before := CallsCanBeMade(calls[..n]);
      var fs := CallCompletes(before, calls[n]);
      es := before + [calls[n]] + fs;
    }
  }

  lemma OnlyOneLeft(es: seq<Event>, id: SourceId)
    requires Exec(INITIAL, es).producer == Idle && KeysAfter(Made(es)) == {id}
    ensures RemovesLast(Exec(INITIAL, es), Unregister(id))
    ensures Made(es + [Unregister(id)]) == Made(es) + [Unregister(id)]
  {
    KeysFollowCalls(es);
    MadeSnoc(es, Unregister(id));
  }

  lemma RemovalAfter(es: seq<Event>, id: SourceId) returns (fs: seq<Event>)
    requires Exec(INITIAL, es).producer == Idle && Exec(INITIAL, es).detector == Test
    requires KeysAfter(Made(es)) == {id}
    ensures Made(es + [Unregister(id)] + fs) == Made(es) + [Unregister(id)]
    ensures Exec(INITIAL, es + [Unregister(id)] + fs).detector == DetectorFault
  {
    OnlyOneLeft(es, id);
    fs := RemovalCanFault(es, id);
    MadeCallFree(es + [Unregister(id)], fs);
  }

  lemma RemovalAfterCalls(calls: seq<Event>, id: SourceId) returns (es: seq<Event>)
    requires AllCalls(calls) && KeysAfter(calls) == {id}
    ensures Made(es) == calls + [Unregister(id)] && Exec(INITIAL, es).detector == DetectorFault
  {
    hide Exec, Made, KeysAfter, AllCalls;
    var before := CallsCanBeMade(calls);
    var fs := RemovalAfter(before, id);
    es := before + [Unregister(id)] + fs;
  }

  lemma RemovalReachable(calls: seq<Event>, k: nat) returns (es: seq<Event>)
    requires k < |calls| && AllCalls(calls) && UnregistersOnly(calls, k)
    ensures Made(es) == calls[..k + 1] && Exec(INITIAL, es).detector == DetectorFault
  {
    hide Exec, Made, KeysAfter;
    es := RemovalAfterCalls(calls[..k], calls[k].id);
    assert calls[..k + 1] == calls[..k] + [Unregister(calls[k].id)];
  }

  /** A program of calls, of which a run makes a prefix, can lead to a choice from the empty map under
      some schedule exactly when one of the calls unregisters the only source that the calls before it
      have left registered. */
  lemma EmptyChoiceExactly(calls: seq<Event>)
    requires AllCalls(calls)
    ensures (exists es :: Made(es) <= calls && Exec(INITIAL, es).detector == DetectorFault)
            <==> exists k :: 0 <= k < |calls| && UnregistersOnly(calls, k)
  {
    if k :| 0 <= k < |calls| && UnregistersOnly(calls, k) {
      var es := RemovalReachable(calls, k);
    } else {
      forall es | Made(es) <= calls ensures Exec(INITIAL, es).detector != DetectorFault {
        forall k | 0 <= k < |es| ensures !RemovesLast(Exec(INITIAL, es[..k]), es[k]) {
          if RemovesLast(Exec(INITIAL, es[..k]), es[k]) {
            var j := RemovalMade(es, k, calls);
          }
        }
        KeepingOneIsSafe(es);
      }
    }
  }

  // ----- the warm-up -----

  /** The service right after the warm-up source 0 has been registered. */
  const WARM := INITIAL.(src := Sources(map[0 := []], map[0 := None], map[0 := 0],
                                        [Period(0, [], [], true)], map[0 := 0]),
                         openings := 1, resets := 1)

  lemma WarmUpRegisters()
    ensures var p := ProducerStep;
            Exec(INITIAL, [Register(0), p, p, p]) == WARM
  {
    var p := ProducerStep;
    FourSteps(INITIAL, Register(0), p, p, p);
    var s := INITIAL.(producer := RegQueue(0));
    var t := InsertQueue(s, 0);
    assert StepProducer(s) == t;
    assert StepProducer(t) == InsertMutex(t, 0);
    assert StepProducer(InsertMutex(t, 0)) == WARM;
  }

  /** Source 0 is registered, the detection thread tests the map, source 0 is unregistered, and the
      detection thread goes on. */
  const EMPTY_CHOICE_RUN :=
    [Register(0), ProducerStep, ProducerStep, ProducerStep] + [DetectorStep(Thrown)] + [Unregister(0)]
    + EMPTY_CHOICE_TAIL

  /** The window is real: registering and unregistering one source is enough to choose from an empty map. */
  lemma EmptyChoiceHappens()
    ensures Exec(INITIAL, EMPTY_CHOICE_RUN).detector == DetectorFault
  {
    var p, d := ProducerStep, DetectorStep(Thrown);
    var warm := [Register(0), p, p, p];
    WarmUpRegisters();
    ExecSnoc(INITIAL, warm, d);
    ExecSnoc(INITIAL, warm + [d], Unregister(0));
    var es := warm + [d] + [Unregister(0)];
    assert Exec(INITIAL, es) == WARM.(detector := Lock, producer := UnregLock(0));
    assert WARM.src.queues.Keys == {0};
    FaultFromLock(es, 0);
  }

  /** The calls of the warm-up itself: register source 0, add a frame to it, unregister it. */
  lemma WarmUpCanFault(frame: Frame)
    ensures exists es :: Made(es) <= [Register(0), Add(0, frame), Unregister(0)]
                         && Exec(INITIAL, es).detector == DetectorFault
  {
    var calls := [Register(0), Add(0, frame), Unregister(0)];
    assert calls[..1] == [] + [Register(0)] && calls[..2] == [Register(0)] + [Add(0, frame)];
    KeysAfterSnoc([], Register(0));
    KeysAfterSnoc([Register(0)], Add(0, frame));
    assert UnregistersOnly(calls, 2);
    EmptyChoiceExactly(calls);
  }
}
