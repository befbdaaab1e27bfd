/** A source that waits forever although it stays registered: whenever the queue chosen last is
    unregistered the round robin starts again at the least id. */
module Starvation {
  import opened Types
  import opened OrderedKeys
  import opened Pipeline
  import opened PipelineInvariant
  import opened PipelineEvents
  import opened PipelineProgress

  // ----- which calls keep a source registered -----

  /** The call does not unregister the source, and registers only members of `ids`. */
  predicate Allowed(e: Event, id: SourceId, ids: set<SourceId>) {
    && (e.Register? ==> e.id in ids)
    && (e.Unregister? ==> e.id != id)
  }

  /** Nor is the call in progress another one. */
  predicate Admits(s: State, id: SourceId, ids: set<SourceId>) {
    && id in s.src.queues && s.src.queues.Keys <= ids
    && (s.producer.RegQueue? ==> s.producer.id in ids)
    && (s.producer.UnregLock? || s.producer.UnregQueue? ==> s.producer.id != id)
  }

  lemma ProducerAdmits(s: State, id: SourceId, ids: set<SourceId>)
    requires Admits(s, id, ids)
    ensures Admits(StepProducer(s), id, ids)
  {
  }

  lemma CallAdmits(s: State, e: Event, id: SourceId, ids: set<SourceId>)
    requires IsCall(e) && Allowed(e, id, ids) && Admits(s, id, ids)
    ensures Admits(Call(s, e), id, ids)
  {
  }

  lemma {:induction false} StepAdmits(s: State, e: Event, id: SourceId, ids: set<SourceId>)
    requires Allowed(e, id, ids) && Admits(s, id, ids)
    ensures Admits(Step(s, e), id, ids)
  {
    hide StepProducer, StepDetector, StepProcessor, Call;
    match e
    case ProducerStep => ProducerAdmits(s, id, ids);
    case DetectorStep(outcome) =>
      DetectorKeys(s, outcome);
      assert id in s.src.queues.Keys;
    case ProcessorStep => ProcessorFrame(s);
    case _ => CallAdmits(s, e, id, ids);
  }

  lemma {:induction false} SubsetSize(a: set<SourceId>, b: set<SourceId>)
    requires a <= b
    ensures |a| <= |b|
    decreases |a|
  {
    if a == {} {
    } else {
      var x :| x in a;
      SubsetSize(a - {x}, b - {x});
    }
  }

  /** A source stays registered, among at most |ids| others, if no call of the run unregisters it and the
      calls register only members of `ids`. */
  lemma {:induction false} CallsHost(s: State, es: seq<Event>, id: SourceId, ids: set<SourceId>)
    requires Admits(s, id, ids) && forall k :: 0 <= k < |es| ==> Allowed(es[k], id, ids)
    ensures Admits(Exec(s, es), id, ids) && HostsThroughout(s, es, id, |ids|)
  {
    hide Step, Allowed, Admits;
    if es == [] {
    } else {
      CallsHost(s, es[..|es| - 1], id, ids);
      StepAdmits(Exec(s, es[..|es| - 1]), es[|es| - 1], id, ids);
    }
    AdmittedHosts(Exec(s, es), id, ids);
  }

  lemma AdmittedHosts(s: State, id: SourceId, ids: set<SourceId>)
    requires Admits(s, id, ids)
    ensures Hosts(s, id, |ids|)
  {
    SubsetSize(s.src.queues.Keys, ids);
  }

  // ----- whole passes -----

  const PASS := [DetectorStep(Thrown), DetectorStep(Thrown), DetectorStep(Thrown), DetectorStep(Thrown)]
                + [DetectorStep(Thrown)]

  lemma EmptyPassSteps(s: State)
    ensures var t := StepDetector(s, Thrown);
            && (s.detector == Test && s.src.queues.Keys != {} ==> t == s.(detector := Lock))
            && (s.detector == Lock && s.inference == None ==> t == LockInference(s))
            && (s.detector == Choose ==> t == ChooseQueue(s))
            && (s.detector == Check && s.current in s.src.queues && s.src.queues[s.current] == []
                ==> t == s.(detector := Release))
            && (s.detector == Release ==> t == ReleaseInference(s))
  {
    hide ChooseQueue;
  }

  /** A pass over an empty queue. */
  lemma EmptyPass(s: State)
    requires s.detector == Test && s.inference == None && s.src.queues.Keys != {}
    requires s.src.queues[ChooseByOrder(s.src.queues.Keys, s.current)] == []
    ensures Exec(s, PASS) == s.(current := ChooseByOrder(s.src.queues.Keys, s.current), locked := s.locked + 1)
  {
    hide Exec, StepDetector, ChooseByOrder;
    var d := DetectorStep(Thrown);
    FourSteps(s, d, d, d, d);
    ExecSnoc(s, [d, d, d, d], d);
    var a := s.(detector := Lock);
    var b := LockInference(a);
    var c := ChooseQueue(b);
    var e := c.(detector := Release);
    EmptyPassSteps(s);
    EmptyPassSteps(a);
    EmptyPassSteps(b);
    EmptyPassSteps(c);
    EmptyPassSteps(e);
  }

  // ----- the run -----

  /** Sources 1 and 3 are registered, 3 has a frame, and the round robin is about to start anew. */
  predicate Starving(s: State) {
    && s.producer == Idle && s.detector == Test && s.src.queues == map[1 := [], 3 := [Image(0)]]
    && s.current != 1 && s.current != 3
  }

  /** Source 1 has its turn, source 2 is announced, has its turn and is retired. */
  const ROUND := PASS + [Register(2), ProducerStep, ProducerStep, ProducerStep] + PASS
                 + ([Unregister(2), ProducerStep] + [ProducerStep, ProducerStep, ProducerStep, ProducerStep])

  lemma Free(s: State)
    requires Inv(s) && s.producer == Idle && s.detector == Test
    ensures s.inference == None
    ensures s.src.mutexes.Keys == s.src.queues.Keys && s.src.dropped.Keys == s.src.queues.Keys
    ensures forall id :: id in s.src.mutexes ==> s.src.mutexes[id] == None
  {
    hide LedgerHolds, OutputFlows, CounterAgrees, NoNullPushed, FlightIsLast, HeadStays, WithinCapacity;
  }

  lemma FirstChoice(current: SourceId)
    requires current != 1 && current != 3
    ensures ChooseByOrder({1, 3}, current) == 1
  {
  }

  lemma SecondChoice()
    ensures ChooseByOrder({1, 2, 3}, 1) == 2
  {
    ChooseNext({1, 2, 3}, 1, 2);
  }

  /** Source 1 has had its turn. */
  lemma FirstHalf(s: State)
    requires Inv(s) && Starving(s)
    ensures var t := Exec(s, PASS + [Register(2), ProducerStep, ProducerStep, ProducerStep]);
            && t.src.queues == map[1 := [], 2 := [], 3 := [Image(0)]]
            && OnlySources(s.(current := 1, locked := s.locked + 1), t)
  {
    hide Exec, Step, Inv, ChooseByOrder;
    Free(s);
    FirstChoice(s.current);
    assert s.src.queues.Keys == {1, 3};
    EmptyPass(s);
    ExecConcat(s, PASS, [Register(2), ProducerStep, ProducerStep, ProducerStep]);
    RegisterAnother(s.(current := 1, locked := s.locked + 1), 2);
  }

  /** And source 2. */
  lemma SecondHalf(s: State)
    requires Inv(s) && s.producer == Idle && s.detector == Test && s.current == 1
    requires s.src.queues == map[1 := [], 2 := [], 3 := [Image(0)]]
    ensures var t := Exec(s, PASS + ([Unregister(2), ProducerStep]
                                     + [ProducerStep, ProducerStep, ProducerStep, ProducerStep]));
            Starving(t) && t.locked == s.locked + 1 && t.thrown == s.thrown && t.out == s.out
  {
    hide Exec, Step, Inv, ChooseByOrder;
    Free(s);
    SecondChoice();
    assert s.src.queues.Keys == {1, 2, 3};
    EmptyPass(s);
    ExecConcat(s, PASS, [Unregister(2), ProducerStep] + [ProducerStep, ProducerStep, ProducerStep, ProducerStep]);
    UnregisterCall(s.(current := 2, locked := s.locked + 1), 2);
  }

  lemma OneRound(s: State)
    requires Inv(s) && Starving(s)
    ensures var t := Exec(s, ROUND);
            Starving(t) && t.locked == s.locked + 2 && t.thrown == s.thrown && t.out == s.out
  {
    hide Exec, Step, Inv;
    var first := PASS + [Register(2), ProducerStep, ProducerStep, ProducerStep];
    var second := PASS + ([Unregister(2), ProducerStep] + [ProducerStep, ProducerStep, ProducerStep, ProducerStep]);
    FirstHalf(s);
    InvByRun(s, first);
    SecondHalf(Exec(s, first));
    ExecConcat(s, first, second);
    assert first + second == ROUND;
  }

  function RoundsOf(k: nat): seq<Event> {
    if k == 0 then [] else RoundsOf(k - 1) + ROUND
  }

  lemma {:induction false} StarvesOn(s: State, k: nat)
    requires Inv(s) && Starving(s)
    ensures var t := Exec(s, RoundsOf(k));
            Starving(t) && t.locked == s.locked + 2 * k && t.thrown == s.thrown && t.out == s.out
  {
    hide Inv, Step, Starving;
    if k == 0 {
    } else {
      StarvesOn(s, k - 1);
      InvByRun(s, RoundsOf(k - 1));
      OneRound(Exec(s, RoundsOf(k - 1)));
      ExecConcat(s, RoundsOf(k - 1), ROUND);
    }
  }

  lemma {:induction false} RoundsAllowed(k: nat)
    ensures forall i :: 0 <= i < |RoundsOf(k)| ==> Allowed(RoundsOf(k)[i], 3, {1, 2, 3})
  {
    if k == 0 {
    } else {
      RoundsAllowed(k - 1);
      assert forall i :: 0 <= i < |ROUND| ==> Allowed(ROUND[i], 3, {1, 2, 3});
    }
  }

  const SETUP := [Register(1), ProducerStep, ProducerStep, ProducerStep]
                 + [Register(3), ProducerStep, ProducerStep, ProducerStep]
                 + ([Add(3, Image(0))] + [ProducerStep, ProducerStep, ProducerStep, ProducerStep])

  lemma SetUp()
    ensures Starving(Exec(INITIAL, SETUP))
  {
    hide Exec, Step;
    var one := [Register(1), ProducerStep, ProducerStep, ProducerStep];
    var three := [Register(3), ProducerStep, ProducerStep, ProducerStep];
    var add := [Add(3, Image(0))] + [ProducerStep, ProducerStep, ProducerStep, ProducerStep];
    RegisterCall(INITIAL, 1);
    ReachedFree(one);
    RegisterAnother(Exec(INITIAL, one), 3);
    ExecConcat(INITIAL, one, three);
    ReachedFree(one + three);
    AddToEmpty(Exec(INITIAL, one + three), 3, Image(0));
    ExecConcat(INITIAL, one + three, add);
    assert SETUP == one + three + add;
  }

  lemma RegisterAnother(s: State, id: SourceId)
    requires s.producer == Idle && id !in s.src.queues.Keys
    requires s.src.mutexes.Keys == s.src.queues.Keys && s.src.dropped.Keys == s.src.queues.Keys
    ensures var t := Exec(s, [Register(id), ProducerStep, ProducerStep, ProducerStep]);
            OnlySources(s, t) && t.src.queues == s.src.queues[id := []]
  {
    hide Exec;
    assert id !in s.src.mutexes.Keys && id !in s.src.dropped.Keys;
    RegisterCall(s, id);
  }

  lemma AddToEmpty(s: State, id: SourceId, frame: Frame)
    requires s.producer == Idle && id in s.src.queues.Keys && s.src.queues[id] == []
    requires s.src.mutexes.Keys == s.src.queues.Keys && s.src.mutexes[id] == None
    ensures var p := ProducerStep;
            var t := Exec(s, [Add(id, frame)] + [p, p, p, p]);
            OnlySources(s, t) && t.src.queues == s.src.queues[id := [frame]]
  {
    hide Exec;
    AddCall(s, id, frame);
    assert [] + [frame] == [frame];
  }

  lemma ReachedFree(es: seq<Event>)
    requires Exec(INITIAL, es).producer == Idle && Exec(INITIAL, es).detector == Test
    ensures var s := Exec(INITIAL, es);
            && s.src.mutexes.Keys == s.src.queues.Keys && s.src.dropped.Keys == s.src.queues.Keys
            && forall id :: id in s.src.mutexes ==> s.src.mutexes[id] == None
  {
    hide Step;
    InvAlways(es);
    Free(Exec(INITIAL, es));
  }

  /** For every number of passes there is a run in which source 3 stays registered among at most three
      sources, its frame is not null and inference never throws, and yet the frame is never moved. */
  lemma SourceStarves(k: nat)
    ensures var s := Exec(INITIAL, SETUP);
            var t := Exec(s, RoundsOf(k));
            && Hosts(s, 3, 3) && HostsThroughout(s, RoundsOf(k), 3, 3)
            && Pending(s.src.queues, Flight(s), 3) == [Image(0)]
            && Completed(t) - s.locked == 2 * k && t.thrown == s.thrown
            && Pending(t.src.queues, Flight(t), 3) == [Image(0)] && !Delivered(s, t, 3, 0)
  {
    hide Step, Inv, Allowed;
    var s := Exec(INITIAL, SETUP);
    SetUp();
    InvAlways(SETUP);
    StarvesOn(s, k);
    RoundsAllowed(k);
    assert s.src.queues.Keys == {1, 3};
    assert |{1, 2, 3}| == 3;
    CallsHost(s, RoundsOf(k), 3, {1, 2, 3});
  }
}
