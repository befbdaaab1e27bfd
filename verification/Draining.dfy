/** How the queues drain when nothing more arrives. */
module Draining {
  import opened Types
  import opened ServiceSpec
  import opened Pipeline
  import opened PipelineInvariant
  import opened PipelineRefinement
  import opened PipelineProgress

  // ----- one source -----

  /** No frame of the source is added to its queue. */
  predicate NoArrivals(ops: seq<Operation>, id: SourceId) {
    forall i :: 0 <= i < |ops| ==> !(ops[i].Arrives? && ops[i].id == id)
  }

  /** The source is in the period `per` with these accepted frames, of which at least `moved` are moved. */
  predicate Settled(s: State, id: SourceId, per: nat, accepted: seq<Frame>, moved: nat) {
    && id in s.src.queues && id in s.src.period && s.src.period[id] == per
    && per < |s.src.ledger| && s.src.ledger[per].accepted == accepted && moved <= MovedCount(s.out, per)
  }

  lemma OpenSettled(s: State, k: SourceId, id: SourceId, per: nat, accepted: seq<Frame>, moved: nat)
    requires k !in s.src.queues && Settled(s, id, per, accepted, moved)
    ensures Settled(OpenPeriod(s, k), id, per, accepted, moved)
  {
    hide MovedCount;
  }

  lemma CloseSettled(s: State, k: SourceId, id: SourceId, per: nat, accepted: seq<Frame>, moved: nat)
    requires k != id && Settled(s, id, per, accepted, moved)
    ensures Settled(ClosePeriod(s, k), id, per, accepted, moved)
  {
    hide MovedCount;
  }

  lemma AcceptSettled(s: State, k: SourceId, frame: Frame, id: SourceId, per: nat, accepted: seq<Frame>, moved: nat)
    requires LedgerHolds(s) && k in s.src.queues && k != id && Settled(s, id, per, accepted, moved)
    ensures Settled(Accept(s, k, frame), id, per, accepted, moved)
  {
    hide MovedCount;
    assert s.src.ledger[s.src.period[k]].source == k && s.src.ledger[per].source == id;
  }

  lemma ProducerSettled(s: State, id: SourceId, per: nat, accepted: seq<Frame>, moved: nat)
    requires LedgerHolds(s) && KeysAgree(s) && Settled(s, id, per, accepted, moved) && id in StepProducer(s).src.queues
    requires NoArrivals(ProducerOperation(s), id)
    ensures Settled(StepProducer(s), id, per, accepted, moved)
  {
    hide MovedCount, StepProducer, LedgerHolds, OpenPeriod, ClosePeriod, Accept;
    ProducerOutput(s);
    match s.producer
    case RegQueue(k) =>
      RegisterSteps(s, k);
      OpenSettled(s, k, id, per, accepted, moved);
    case UnregQueue(k) =>
      EraseSteps(s, k);
      ClosedNotIt(s, k, id);
      CloseSettled(s, k, id, per, accepted, moved);
    case AddPush(k, frame) =>
      AddSteps(s, k, frame);
      assert ProducerOperation(s)[0] == Arrives(k, frame);
      AcceptSettled(s, k, frame, id, per, accepted, moved);
    case _ => ProducerSources(s);
  }

  lemma ClosedNotIt(s: State, k: SourceId, id: SourceId)
    requires s.producer == UnregQueue(k) && id in StepProducer(s).src.queues
    ensures k != id
  {
  }

  lemma DetectorSettled(s: State, outcome: Outcome, id: SourceId, per: nat, accepted: seq<Frame>, moved: nat)
    requires Settled(s, id, per, accepted, moved)
    ensures Settled(StepDetector(s, outcome), id, per, accepted, moved)
  {
    DetectorLedger(s, outcome);
    DetectorKeys(s, outcome);
    DetectorCounts(s, outcome, per);
    assert id in s.src.queues.Keys;
    hide StepDetector, MovedCount;
  }

  lemma DetectorCounts(s: State, outcome: Outcome, per: nat)
    ensures MovedCount(s.out, per) <= MovedCount(StepDetector(s, outcome).out, per)
  {
    DetectorOutput(s, outcome);
    hide StepDetector;
    if s.detector.Push? && |s.out.pushed| == |s.out.pushedIn| {
      MovedAppend(s.out.pushed, s.out.pushedIn, Entry(s.current, s.detector.frame, s.detector.found),
                  if s.current in s.src.period then s.src.period[s.current] else |s.src.ledger|, per);
    }
  }

  lemma {:induction false} StepSettled(s: State, e: Event, id: SourceId, per: nat, accepted: seq<Frame>, moved: nat)
    requires LedgerHolds(s) && KeysAgree(s) && Settled(s, id, per, accepted, moved) && id in Step(s, e).src.queues
    requires NoArrivals(OperationOf(s, e), id)
    ensures Settled(Step(s, e), id, per, accepted, moved)
  {
    hide StepProducer, StepDetector, StepProcessor, Call, LedgerHolds, KeysAgree, MovedCount;
    match e
    case ProducerStep => ProducerSettled(s, id, per, accepted, moved);
    case DetectorStep(outcome) => DetectorSettled(s, outcome, id, per, accepted, moved);
    case ProcessorStep =>
      ProcessorFrame(s);
      ProcessorCounts(s, per);
    case _ =>
      CallOutput(s, e);
      CallCounts(s, e, per);
  }

  lemma CallCounts(s: State, e: Event, per: nat)
    requires IsCall(e)
    ensures MovedCount(Call(s, e).out, per) == MovedCount(s.out, per)
  {
    CallOutput(s, e);
    hide Call;
  }

  lemma NoArrivalsSplit(ops: seq<Operation>, more: seq<Operation>, id: SourceId)
    requires NoArrivals(ops + more, id)
    ensures NoArrivals(ops, id) && NoArrivals(more, id)
  {
    forall i | 0 <= i < |ops| ensures !(ops[i].Arrives? && ops[i].id == id) {
      assert ops[i] == (ops + more)[i];
    }
    forall i | 0 <= i < |more| ensures !(more[i].Arrives? && more[i].id == id) {
      assert more[i] == (ops + more)[|ops| + i];
    }
  }

  lemma {:induction false} RunSettled(s: State, es: seq<Event>, id: SourceId, per: nat,
                                      accepted: seq<Frame>, moved: nat, most: nat)
    requires Inv(s) && Settled(s, id, per, accepted, moved) && HostsThroughout(s, es, id, most)
    requires NoArrivals(Trace(s, es), id)
    ensures Settled(Exec(s, es), id, per, accepted, moved)
  {
    hide Control, KeysAgree, LocksAgree, HeadStays, WithinCapacity, LedgerHolds, OutputFlows,
         CounterAgrees, NoNullPushed, FlightIsLast;
    hide Inv, Step, Settled, NoArrivals;
    if es == [] {
    } else {
      var before, e := es[..|es| - 1], es[|es| - 1];
      NoArrivalsSplit(Trace(s, before), OperationOf(Exec(s, before), e), id);
      RunSettled(s, before, id, per, accepted, moved, most);
      InvByRun(s, before);
      InvParts(Exec(s, before));
      StepSettled(Exec(s, before), e, id, per, accepted, moved);
    }
  }

  lemma NothingLeft(s: State, t: State, id: SourceId)
    requires LedgerHolds(s) && LedgerHolds(t) && id in s.src.queues
    requires var per := s.src.period[id];
             Settled(t, id, per, s.src.ledger[per].accepted, MovedCount(s.out, per))
    requires var q := Pending(s.src.queues, Flight(s), id);
             q == [] || Delivered(s, t, id, |q| - 1)
    ensures Pending(t.src.queues, Flight(t), id) == []
  {
    var per := s.src.period[id];
    assert Balanced(s.src, s.out.pushed, s.out.pushedIn, Flight(s), per);
    assert Balanced(t.src, t.out.pushed, t.out.pushedIn, Flight(t), per);
  }

  /** Draining. From any reachable state, while the source stays registered, no frame of it arrives and
      none of its pending frames is null, the passes needed for its backlog leave none of them pending. */
  lemma Drained(before: seq<Event>, after: seq<Event>, id: SourceId, most: nat)
    requires var s := Exec(INITIAL, before);
             && Hosts(s, id, most) && HostsThroughout(s, after, id, most) && NoArrivals(Trace(s, after), id)
             && Null !in Pending(s.src.queues, Flight(s), id)
             && EnoughTime(s, Exec(s, after), id, |Pending(s.src.queues, Flight(s), id)|, most)
    ensures var t := Exec(Exec(INITIAL, before), after);
            id in t.src.queues && Pending(t.src.queues, Flight(t), id) == []
  {
    hide Step, Inv, EnoughTime, HostsThroughout, NoArrivals;
    InvAlways(before);
    DrainedFrom(Exec(INITIAL, before), after, id, most);
  }

  lemma DrainedFrom(s: State, es: seq<Event>, id: SourceId, most: nat)
    requires Inv(s) && Hosts(s, id, most) && HostsThroughout(s, es, id, most) && NoArrivals(Trace(s, es), id)
    requires Null !in Pending(s.src.queues, Flight(s), id)
    requires EnoughTime(s, Exec(s, es), id, |Pending(s.src.queues, Flight(s), id)|, most)
    ensures var t := Exec(s, es);
            id in t.src.queues && Pending(t.src.queues, Flight(t), id) == []
  {
    hide Control, KeysAgree, LocksAgree, HeadStays, WithinCapacity, OutputFlows, CounterAgrees,
         NoNullPushed, FlightIsLast;
    hide Step, Inv, EnoughTime, HostsThroughout, NoArrivals, Delivered, MovedCount;
    var t := Exec(s, es);
    var q := Pending(s.src.queues, Flight(s), id);
    InvParts(s);
    var per := s.src.period[id];
    assert LedgerHolds(t) by {
      InvByRun(s, es);
      InvParts(t);
    }
    if q != [] {
      assert q[..|q| - 1 + 1] == q;
      NotNullDelivered(s, es, id, |q| - 1, most);
    }
    RunSettled(s, es, id, per, s.src.ledger[per].accepted, MovedCount(s.out, per), most);
    NothingLeft(s, t, id);
  }

  // ----- all sources -----

  /** Nothing arrives and no source comes or goes. */
  predicate Quiet(ops: seq<Operation>) {
    forall i :: 0 <= i < |ops| ==> ops[i].Chooses? || ops[i].Serves?
  }

  lemma QuietSplit(ops: seq<Operation>, more: seq<Operation>)
    requires Quiet(ops + more)
    ensures Quiet(ops) && Quiet(more)
  {
    forall i | 0 <= i < |ops| ensures ops[i].Chooses? || ops[i].Serves? {
      assert ops[i] == (ops + more)[i];
    }
    forall i | 0 <= i < |more| ensures more[i].Chooses? || more[i].Serves? {
      assert more[i] == (ops + more)[|ops| + i];
    }
  }

  lemma QuietMeansNone(s: State)
    ensures Quiet(ProducerOperation(s)) ==> ProducerOperation(s) == []
  {
    var ops := ProducerOperation(s);
    if ops != [] {
      assert !ops[0].Chooses? && !ops[0].Serves?;
    }
  }

  lemma QuietProducer(s: State)
    requires Quiet(ProducerOperation(s))
    ensures var t := StepProducer(s);
            t.src.queues == s.src.queues && t.resets == s.resets && t.openings == s.openings
  {
    QuietMeansNone(s);
    ProducerElsewhere(s);
  }

  lemma {:induction false} QuietStep(s: State, e: Event)
    requires Quiet(OperationOf(s, e))
    ensures var t := Step(s, e);
            t.src.queues.Keys == s.src.queues.Keys && t.resets == s.resets && t.openings == s.openings
  {
    hide StepProducer, StepDetector, StepProcessor, Call;
    match e
    case ProducerStep => QuietProducer(s);
    case DetectorStep(outcome) => DetectorLedger(s, outcome);
    case ProcessorStep => ProcessorFrame(s);
    case _ => CallOutput(s, e);
  }

  lemma {:induction false} QuietRun(s: State, es: seq<Event>)
    requires Quiet(Trace(s, es))
    ensures var t := Exec(s, es);
            t.src.queues.Keys == s.src.queues.Keys && t.resets == s.resets && t.openings == s.openings
    ensures forall id :: id in s.src.queues ==> HostsThroughout(s, es, id, |s.src.queues.Keys|)
  {
    hide Step, OperationOf, Quiet;
    if es == [] {
    } else {
      var before, e := es[..|es| - 1], es[|es| - 1];
      QuietSplit(Trace(s, before), OperationOf(Exec(s, before), e));
      QuietRun(s, before);
      QuietStep(Exec(s, before), e);
      assert Exec(s, es).src.queues.Keys == s.src.queues.Keys;
    }
  }

  lemma QuietBringsNothing(ops: seq<Operation>, id: SourceId)
    requires Quiet(ops)
    ensures NoArrivals(ops, id)
  {
  }

  /** No pending frame of the source is null, and its backlog and the exceptions on it are few. */
  predicate Drains(s: State, t: State, id: SourceId, longest: nat)
    requires id in s.src.queues
  {
    var q := Pending(s.src.queues, Flight(s), id);
    Null !in q && |q| + Between(s.thrown[id], t.thrown[id]) <= longest
  }

  lemma MulMonotone(n: nat, a: nat, b: nat)
    requires a <= b
    ensures n * a <= n * b
  {
  }

  lemma EnoughToDrain(s: State, t: State, id: SourceId, most: nat, longest: nat)
    requires id in s.src.queues && Drains(s, t, id, longest) && s.resets == t.resets && s.openings == t.openings
    requires Completed(t) - s.locked >= most * longest
    ensures var q := Pending(s.src.queues, Flight(s), id);
            Null !in q && EnoughTime(s, t, id, |q|, most)
  {
    MulMonotone(most, |Pending(s.src.queues, Flight(s), id)| + Between(s.thrown[id], t.thrown[id]), longest);
  }

  /** All sources at once: while nothing arrives and no source comes or goes, n times the longest backlog of
      completed passes empty every queue, counting an exception as one more frame of its source. */
  lemma AllDrained(before: seq<Event>, after: seq<Event>, longest: nat)
    requires var s, t := Exec(INITIAL, before), Exec(Exec(INITIAL, before), after);
             && Quiet(Trace(s, after)) && Completed(t) - s.locked >= |s.src.queues.Keys| * longest
             && forall id :: id in s.src.queues ==> Drains(s, t, id, longest)
    ensures var t := Exec(Exec(INITIAL, before), after);
            forall id :: id in Exec(INITIAL, before).src.queues ==>
              id in t.src.queues && Pending(t.src.queues, Flight(t), id) == []
  {
    hide Step, Inv, HostsThroughout, EnoughTime, NoArrivals, Quiet, Drains, Completed;
    var s := Exec(INITIAL, before);
    var t, most := Exec(s, after), |s.src.queues.Keys|;
    InvAlways(before);
    QuietRun(s, after);
    forall id | id in s.src.queues ensures id in t.src.queues && Pending(t.src.queues, Flight(t), id) == [] {
      QuietBringsNothing(Trace(s, after), id);
      EnoughToDrain(s, t, id, most, longest);
      DrainedFrom(s, after, id, most);
    }
  }
}
