/** How long a queued frame can wait, whatever the other sources and the scheduler do. */
module PipelineProgress {
  import opened Types
  import opened OrderedKeys
  import opened ServiceSpec
  import opened Pipeline
  import opened PipelineInvariant
  import opened PipelineRefinement

  // ----- what is counted -----

  /** `k` laps of `n` passes. */
  function Times(n: nat, k: nat): nat {
    if k == 0 then 0 else Times(n, k - 1) + n
  }

  lemma {:induction false} TimesIsProduct(n: nat, k: nat)
    ensures Times(n, k) == n * k
  {
    if k == 0 {
    } else {
      TimesIsProduct(n, k - 1);
    }
  }

  lemma {:induction false} TimesMonotone(n: nat, a: nat, b: nat)
    requires a <= b
    ensures Times(n, a) <= Times(n, b)
    decreases b
  {
    if a == b {
    } else {
      TimesMonotone(n, a, b - 1);
    }
  }

  /** What has happened so far: frames of one registration period moved, exceptions on its source,
      (un)registrations of the queue chosen last, registrations, and passes that chose a queue. */
  datatype Tally = Tally(moved: nat, thrown: nat, resets: nat, openings: nat, locked: nat) {
    predicate Since(start: Tally) {
      && start.moved <= moved && start.thrown <= thrown && start.resets <= resets
      && start.openings <= openings && start.locked <= locked
    }

    /** Laps that are used up: a turn of the source, with a result or an exception, or a lost position. */
    function Laps(start: Tally): nat
      requires Since(start)
    {
      (moved - start.moved) + (thrown - start.thrown) + (resets - start.resets)
    }
  }

  function MovedCount(o: Output, p: nat): nat {
    if |o.pushed| == |o.pushedIn| then |MovedIn(o.pushed, o.pushedIn, p)| else 0
  }

  function TallyOf(s: State, id: SourceId, per: nat): Tally {
    Tally(MovedCount(s.out, per), s.thrown[id], s.resets, s.openings, s.locked)
  }

  /** A frame is watched: it stands at position `place` among the frames of source `id` that were
      pending when the watch began at tally `start`, while at most `most` sources are registered. */
  datatype Watch = Watch(id: SourceId, per: nat, accepted: seq<Frame>, place: nat, most: nat, start: Tally)

  /** The source is registered, and at most `most` sources are. */
  predicate Hosts(s: State, id: SourceId, most: nat) {
    id in s.src.queues && |s.src.queues.Keys| <= most
  }

  /** It is still in the same period, and nothing accepted is forgotten. */
  predicate Watched(src: Sources, w: Watch) {
    && w.id in src.queues && |src.queues.Keys| <= w.most
    && w.id in src.period && src.period[w.id] == w.per && w.per < |src.ledger|
    && w.accepted <= src.ledger[w.per].accepted
  }

  /** The watched frame and those before it are not null. */
  predicate Sound(w: Watch) {
    && w.start.moved + w.place < |w.accepted|
    && forall j :: w.start.moved <= j <= w.start.moved + w.place ==> w.accepted[j] != Null
  }

  /** The watched source has been chosen in the current pass and has not been served yet. */
  predicate HasTurn(d: DetectorPc, current: SourceId, id: SourceId) {
    Undecided(d) && current == id
  }

  /** The passes begun so far, plus the choices still to come before the source's next turn, fit in the
      laps that are used up, the current one, and one choice for each registration. */
  predicate OnTime(w: Watch, keys: set<SourceId>, now: Tally, current: SourceId, hasTurn: bool)
    requires w.id in keys
  {
    && now.Since(w.start)
    && (now.moved > w.start.moved + w.place
        || now.locked - w.start.locked + (if hasTurn then 0 else Distance(keys, current, w.id))
           <= Times(w.most, now.Laps(w.start) + 1) + (now.openings - w.start.openings))
  }

  predicate StateOnTime(s: State, w: Watch)
    requires w.id in s.src.queues
  {
    OnTime(w, s.src.queues.Keys, TallyOf(s, w.id, w.per), s.current, HasTurn(s.detector, s.current, w.id))
  }

  predicate OnWatch(s: State, w: Watch) {
    Watched(s.src, w) && StateOnTime(s, w)
  }

  // ----- the arithmetic of turns -----

  lemma ChoiceOnTime(w: Watch, keys: set<SourceId>, now: Tally, current: SourceId)
    requires w.id in keys && OnTime(w, keys, now, current, false)
    ensures var next := ChooseByOrder(keys, current);
            OnTime(w, keys, now.(locked := now.locked + 1), next, next == w.id)
  {
    hide Times;
    ChooseApproaches(keys, current, w.id);
  }

  /** The turn ends with a result or an exception: the next one is a lap away at most. */
  lemma ServedOnTime(w: Watch, keys: set<SourceId>, now: Tally, later: Tally)
    requires w.id in keys && |keys| <= w.most && OnTime(w, keys, now, w.id, true)
    requires later == now.(moved := now.moved + 1) || later == now.(thrown := now.thrown + 1)
    ensures OnTime(w, keys, later, w.id, false)
  {
    hide Distance, Times;
    TimesNext(w.most, now.Laps(w.start) + 1);
  }

  /** Served after the watched frame has been moved, or not served at all. */
  lemma TurnOnTime(w: Watch, keys: set<SourceId>, now: Tally, current: SourceId, was: bool, has: bool)
    requires w.id in keys && OnTime(w, keys, now, current, was)
    requires now.moved <= w.start.moved + w.place ==> has == was
    ensures OnTime(w, keys, now, current, has)
  {
  }

  /** A position is lost: whatever the distance is now, it is a lap at most. */
  lemma TimesNext(n: nat, k: nat)
    ensures Times(n, k + 1) == Times(n, k) + n
  {
  }

  /** A position is lost: whatever the distance is now, it is a lap at most. */
  lemma ResetOnTime(w: Watch, keys: set<SourceId>, others: set<SourceId>, now: Tally, current: SourceId, hasTurn: bool,
                    added: nat)
    requires w.id in keys && w.id in others && |others| <= w.most && OnTime(w, keys, now, current, hasTurn)
    ensures OnTime(w, others, now.(resets := now.resets + 1, openings := now.openings + added), current, hasTurn)
  {
    hide Distance, Times;
    TimesNext(w.most, now.Laps(w.start) + 1);
  }

  lemma OpenOnTime(w: Watch, keys: set<SourceId>, k: SourceId, now: Tally, current: SourceId, hasTurn: bool)
    requires w.id in keys && k !in keys && |keys + {k}| <= w.most && OnTime(w, keys, now, current, hasTurn)
    ensures OnTime(w, keys + {k},
                   now.(openings := now.openings + 1, resets := now.resets + if k == current then 1 else 0),
                   current, hasTurn)
  {
    hide Distance, Times;
    if k == current {
      ResetOnTime(w, keys, keys + {k}, now, current, hasTurn, 1);
    } else {
      DistanceWith(keys, k, current, w.id);
    }
  }

  lemma CloseOnTime(w: Watch, keys: set<SourceId>, k: SourceId, now: Tally, current: SourceId, hasTurn: bool)
    requires w.id in keys && k in keys && k != w.id && |keys| <= w.most && OnTime(w, keys, now, current, hasTurn)
    ensures OnTime(w, keys - {k}, now.(resets := now.resets + if k == current then 1 else 0), current, hasTurn)
  {
    hide Distance, Times;
    if k == current {
      ResetOnTime(w, keys, keys - {k}, now, current, hasTurn, 0);
    } else {
      DistanceWith(keys - {k}, k, current, w.id);
      assert keys - {k} + {k} == keys;
    }
  }

  /** Passes that are over. */
  function Completed(s: State): int {
    if Chosen(s.detector) then s.locked - 1 else s.locked
  }

  /** After enough completed passes the watched frame has been moved. */
  lemma EnoughPasses(w: Watch, keys: set<SourceId>, now: Tally, current: SourceId, hasTurn: bool, completed: int)
    requires w.id in keys && OnTime(w, keys, now, current, hasTurn)
    requires completed <= if hasTurn then now.locked - 1 else now.locked
    requires completed - w.start.locked
             >= Times(w.most, w.place + 1 + (now.thrown - w.start.thrown) + (now.resets - w.start.resets))
                + (now.openings - w.start.openings)
    ensures now.moved > w.start.moved + w.place
  {
    if now.moved <= w.start.moved + w.place {
      assert Distance(keys, current, w.id) >= 1;
      hide Distance;
      TimesMonotone(w.most, now.Laps(w.start) + 1,
                    w.place + 1 + (now.thrown - w.start.thrown) + (now.resets - w.start.resets));
    }
  }

  // ----- the watch survives every step -----

  lemma DetectorLedger(s: State, outcome: Outcome)
    ensures var t := StepDetector(s, outcome);
            && t.src.ledger == s.src.ledger && t.src.period == s.src.period
            && t.src.queues.Keys == s.src.queues.Keys && t.producer == s.producer
            && t.openings == s.openings && t.resets == s.resets
  {
  }

  /** While the watched frame is pending, its queue has a head, and that head is not null. */
  lemma HeadReady(s: State, w: Watch)
    requires LedgerHolds(s) && Watched(s.src, w) && Sound(w)
    requires w.start.moved <= MovedCount(s.out, w.per) <= w.start.moved + w.place
    ensures var q := Pending(s.src.queues, Flight(s), w.id);
            q != [] && q[0] != Null
  {
    assert Balanced(s.src, s.out.pushed, s.out.pushedIn, Flight(s), w.per);
    var m := MovedCount(s.out, w.per);
    assert s.src.ledger[w.per].accepted[m] == w.accepted[m];
  }

  /** A push counts for the watched source exactly when its queue is the current one. */
  lemma PushCounts(s: State, w: Watch)
    requires LedgerHolds(s) && HeadStays(s) && s.detector.Push? && Watched(s.src, w)
    ensures MovedCount(PushResults(s, s.detector.frame, s.detector.found).out, w.per)
         == MovedCount(s.out, w.per) + if s.current == w.id then 1 else 0
  {
    var entry := Entry(s.current, s.detector.frame, s.detector.found);
    MovedAppend(s.out.pushed, s.out.pushedIn, entry, s.src.period[s.current], w.per);
  }

  lemma PushOnTime(s: State, w: Watch)
    requires LedgerHolds(s) && HeadStays(s) && s.detector.Push? && OnWatch(s, w)
    ensures OnWatch(PushResults(s, s.detector.frame, s.detector.found), w)
  {
    PushCounts(s, w);
    hide MovedCount, OnTime, LedgerHolds;
    var now := TallyOf(s, w.id, w.per);
    if s.current == w.id {
      ServedOnTime(w, s.src.queues.Keys, now, now.(moved := now.moved + 1));
    }
  }

  lemma ChooseOnTime(s: State, w: Watch)
    requires s.detector.Choose? && OnWatch(s, w)
    ensures OnWatch(ChooseQueue(s), w)
  {
    hide MovedCount, OnTime, ChooseByOrder;
    ChoiceOnTime(w, s.src.queues.Keys, TallyOf(s, w.id, w.per), s.current);
  }

  /** Inference throws on the head frame of the source. */
  predicate Fails(s: State, outcome: Outcome, id: SourceId) {
    s.detector.Infer? && s.current == id && outcome.Thrown?
  }

  lemma OtherFrame(s: State, outcome: Outcome)
    requires !s.detector.Choose? && !s.detector.Push?
    ensures var t := StepDetector(s, outcome);
            && t.locked == s.locked && t.current == s.current && t.out == s.out
            && forall id :: t.thrown[id] == s.thrown[id] + if Fails(s, outcome, id) then 1 else 0
  {
  }

  /** While the watched frame is pending its source loses its turn only when inference throws. */
  lemma TurnKept(s: State, outcome: Outcome, w: Watch)
    requires HeadStays(s) && LedgerHolds(s) && !s.detector.Choose? && !s.detector.Push?
    requires Watched(s.src, w) && Sound(w) && w.start.moved <= MovedCount(s.out, w.per)
    ensures var turn := HasTurn(StepDetector(s, outcome).detector, s.current, w.id);
            if Fails(s, outcome, w.id) then HasTurn(s.detector, s.current, w.id) && !turn
            else MovedCount(s.out, w.per) <= w.start.moved + w.place ==> turn == HasTurn(s.detector, s.current, w.id)
  {
    OneDecisionPerPass(s, outcome);
    if MovedCount(s.out, w.per) <= w.start.moved + w.place {
      HeadReady(s, w);
    }
  }

  /** The tally moves by the exception only, and the turn goes with it or stays. */
  lemma TurnCarries(s: State, t: State, w: Watch, fails: bool)
    requires OnWatch(s, w) && t.src.queues.Keys == s.src.queues.Keys && t.current == s.current
    requires var now := TallyOf(s, w.id, w.per);
             TallyOf(t, w.id, w.per) == if fails then now.(thrown := now.thrown + 1) else now
    requires var was, has := HasTurn(s.detector, s.current, w.id), HasTurn(t.detector, t.current, w.id);
             if fails then was && !has else MovedCount(s.out, w.per) <= w.start.moved + w.place ==> has == was
    ensures StateOnTime(t, w)
  {
    hide MovedCount, OnTime;
    var keys, now := s.src.queues.Keys, TallyOf(s, w.id, w.per);
    if fails {
      ServedOnTime(w, keys, now, now.(thrown := now.thrown + 1));
    } else {
      TurnOnTime(w, keys, now, s.current, HasTurn(s.detector, s.current, w.id), HasTurn(t.detector, t.current, w.id));
    }
  }

  lemma OtherOnTime(s: State, outcome: Outcome, w: Watch)
    requires HeadStays(s) && LedgerHolds(s) && !s.detector.Choose? && !s.detector.Push?
    requires Sound(w) && OnWatch(s, w)
    ensures OnWatch(StepDetector(s, outcome), w)
  {
    OtherFrame(s, outcome);
    DetectorLedger(s, outcome);
    TurnKept(s, outcome, w);
    hide StepDetector, LedgerHolds, HeadStays, MovedCount;
    TurnCarries(s, StepDetector(s, outcome), w, Fails(s, outcome, w.id));
  }

  lemma DetectorOnTime(s: State, outcome: Outcome, w: Watch)
    requires HeadStays(s) && LedgerHolds(s) && Sound(w) && OnWatch(s, w)
    ensures OnWatch(StepDetector(s, outcome), w)
  {
    hide OnWatch, HeadStays, LedgerHolds, ChooseQueue, PushResults;
    match s.detector
    case Choose => ChooseOnTime(s, w);
    case Push(frame, found) => PushOnTime(s, w);
    case _ => OtherOnTime(s, outcome, w);
  }

  /** What no operation of the producer changes. */
  lemma ProducerElsewhere(s: State)
    requires !s.producer.RegQueue? && !s.producer.UnregQueue? && !s.producer.AddPush?
    ensures var t := StepProducer(s);
            SameLedger(s.src, t.src) && t.openings == s.openings && t.resets == s.resets
  {
    ProducerSources(s);
  }

  lemma OpenWatched(s: State, k: SourceId, w: Watch)
    requires k !in s.src.queues && OnWatch(s, w) && Hosts(OpenPeriod(s, k), w.id, w.most)
    ensures OnWatch(OpenPeriod(s, k), w)
  {
    hide MovedCount, OnTime;
    assert OpenPeriod(s, k).src.queues.Keys == s.src.queues.Keys + {k};
    OpenOnTime(w, s.src.queues.Keys, k, TallyOf(s, w.id, w.per), s.current, HasTurn(s.detector, s.current, w.id));
  }

  lemma CloseWatched(s: State, k: SourceId, w: Watch)
    requires k in s.src.queues && OnWatch(s, w) && Hosts(ClosePeriod(s, k), w.id, w.most)
    ensures OnWatch(ClosePeriod(s, k), w)
  {
    hide MovedCount, OnTime;
    assert ClosePeriod(s, k).src.queues.Keys == s.src.queues.Keys - {k};
    CloseOnTime(w, s.src.queues.Keys, k, TallyOf(s, w.id, w.per), s.current, HasTurn(s.detector, s.current, w.id));
  }

  lemma AcceptWatched(s: State, k: SourceId, frame: Frame, w: Watch)
    requires k in s.src.queues && OnWatch(s, w)
    ensures OnWatch(Accept(s, k, frame), w)
  {
    hide MovedCount, OnTime;
    assert Accept(s, k, frame).src.queues.Keys == s.src.queues.Keys;
  }

  /** Only what the watch speaks of matters. */
  lemma WatchFrame(s: State, t: State, w: Watch)
    requires OnWatch(s, w) && SameLedger(s.src, t.src) && t.out == s.out && t.thrown == s.thrown
    requires t.resets == s.resets && t.openings == s.openings && t.locked == s.locked
    requires t.current == s.current && t.detector == s.detector
    ensures OnWatch(t, w)
  {
    hide MovedCount, OnTime;
  }

  lemma ProducerOnWatch(s: State, w: Watch)
    requires KeysAgree(s) && OnWatch(s, w) && Hosts(StepProducer(s), w.id, w.most)
    ensures OnWatch(StepProducer(s), w)
  {
    ProducerOutput(s);
    hide MovedCount, OnTime;
    match s.producer
    case RegQueue(k) =>
      assert StepProducer(s) == OpenPeriod(s, k).(producer := RegMutex(k));
      OpenWatched(s, k, w);
    case UnregQueue(k) =>
      assert StepProducer(s) == ClosePeriod(s, k).(producer := UnregMutex(k));
      CloseWatched(s, k, w);
    case AddPush(k, frame) =>
      assert StepProducer(s) == Accept(s, k, frame).(producer := AddUnlock(k));
      AcceptWatched(s, k, frame, w);
    case _ =>
      ProducerElsewhere(s);
      WatchFrame(s, StepProducer(s), w);
  }

  lemma ProcessorOnWatch(s: State, w: Watch)
    requires OnWatch(s, w)
    ensures OnWatch(StepProcessor(s), w)
  {
    ProcessorFrame(s);
    ProcessorCounts(s, w.per);
    hide StepProcessor, MovedCount, OnTime;
  }

  lemma ProcessorCounts(s: State, per: nat)
    ensures MovedCount(StepProcessor(s).out, per) == MovedCount(s.out, per)
  {
    ProcessorFrame(s);
    hide StepProcessor;
  }

  lemma CallOnWatch(s: State, e: Event, w: Watch)
    requires IsCall(e) && OnWatch(s, w)
    ensures OnWatch(Call(s, e), w)
  {
    CallOutput(s, e);
    assert Call(s, e).out.pushed == s.out.pushed && Call(s, e).out.pushedIn == s.out.pushedIn;
    assert MovedCount(Call(s, e).out, w.per) == MovedCount(s.out, w.per);
    hide Call, MovedCount, OnTime;
  }

  lemma {:induction false} StepOnWatch(s: State, e: Event, w: Watch)
    requires KeysAgree(s) && HeadStays(s) && LedgerHolds(s) && Sound(w) && OnWatch(s, w)
    requires Hosts(Step(s, e), w.id, w.most)
    ensures OnWatch(Step(s, e), w)
  {
    hide KeysAgree, HeadStays, LedgerHolds, Sound, OnWatch, Hosts, StepProducer, StepDetector, StepProcessor, Call;
    match e
    case ProducerStep => ProducerOnWatch(s, w);
    case DetectorStep(outcome) => DetectorOnTime(s, outcome, w);
    case ProcessorStep => ProcessorOnWatch(s, w);
    case _ => CallOnWatch(s, e, w);
  }

  // ----- over runs -----

  /** From `s` on, in every state of the run, the source is registered and at most `most` sources are. */
  predicate HostsThroughout(s: State, es: seq<Event>, id: SourceId, most: nat) {
    Hosts(Exec(s, es), id, most) && (es == [] || HostsThroughout(s, es[..|es| - 1], id, most))
  }

  lemma {:induction false} WatchKept(s: State, es: seq<Event>, w: Watch)
    requires Inv(s) && Sound(w) && OnWatch(s, w) && HostsThroughout(s, es, w.id, w.most)
    ensures OnWatch(Exec(s, es), w)
  {
    hide Control, KeysAgree, LocksAgree, HeadStays, WithinCapacity, LedgerHolds, OutputFlows,
         CounterAgrees, NoNullPushed, FlightIsLast;
    hide Inv, Sound, OnWatch, Hosts, Step;
    if es == [] {
    } else {
      var most := es[..|es| - 1];
      WatchKept(s, most, w);
      InvByRun(s, most);
      InvParts(Exec(s, most));
      StepOnWatch(Exec(s, most), es[|es| - 1], w);
    }
  }

  /** The watch that begins at state `s` for position `place` of the pending frames of `id`. */
  function WatchFrom(s: State, id: SourceId, place: nat, most: nat): Watch
    requires LedgerHolds(s) && id in s.src.queues
  {
    var per := s.src.period[id];
    Watch(id, per, s.src.ledger[per].accepted, place, most, TallyOf(s, id, per))
  }

  lemma WatchBegins(s: State, id: SourceId, place: nat, most: nat)
    requires LedgerHolds(s) && Hosts(s, id, most)
    requires place < |Pending(s.src.queues, Flight(s), id)|
    requires Null !in Pending(s.src.queues, Flight(s), id)[..place + 1]
    ensures var w := WatchFrom(s, id, place, most);
            Sound(w) && OnWatch(s, w)
  {
    var w := WatchFrom(s, id, place, most);
    var q := Pending(s.src.queues, Flight(s), id);
    assert Balanced(s.src, s.out.pushed, s.out.pushedIn, Flight(s), w.per);
    forall j | w.start.moved <= j <= w.start.moved + place ensures w.accepted[j] != Null {
      assert w.accepted[j] == q[j - w.start.moved] == q[..place + 1][j - w.start.moved];
    }
    assert Times(most, 1) == most;
    assert Distance(s.src.queues.Keys, s.current, id) <= most;
  }

  /** The pending frame of `id` at position `place` in state `s` has, by state `t`, been moved to the
      results as the frame that follows those moved before `s` and the `place` frames ahead of it. */
  predicate Delivered(s: State, t: State, id: SourceId, place: nat) {
    && id in s.src.queues && id in s.src.period && place < |Pending(s.src.queues, Flight(s), id)|
    && |s.out.pushed| == |s.out.pushedIn| && |t.out.pushed| == |t.out.pushedIn|
    && var per := s.src.period[id];
       var was := |MovedIn(s.out.pushed, s.out.pushedIn, per)|;
       var now := MovedIn(t.out.pushed, t.out.pushedIn, per);
       was + place < |now| && now[was + place] == Pending(s.src.queues, Flight(s), id)[place]
  }

  /** How often something happened between the two states. */
  function Between(before: nat, after: nat): nat { if before <= after then after - before else 0 }

  /** `most` passes for each of `turns` turns, for each exception on the source and for each
      (un)registration of the queue chosen last, and one for each registration between the two states. */
  function PassesNeeded(s: State, t: State, id: SourceId, turns: nat, most: nat): nat {
    most * (turns + Between(s.thrown[id], t.thrown[id]) + Between(s.resets, t.resets))
    + Between(s.openings, t.openings)
  }

  /** As many passes were completed between the two states. */
  predicate EnoughTime(s: State, t: State, id: SourceId, turns: nat, most: nat) {
    Completed(t) - s.locked >= PassesNeeded(s, t, id, turns, most)
  }

  lemma WatchFulfilled(s: State, t: State, id: SourceId, place: nat, most: nat)
    requires LedgerHolds(s) && id in s.src.queues && OnWatch(t, WatchFrom(s, id, place, most))
    requires EnoughTime(s, t, id, place + 1, most)
    ensures MovedCount(t.out, s.src.period[id]) > MovedCount(s.out, s.src.period[id]) + place
  {
    hide LedgerHolds, MovedCount, Distance;
    var w := WatchFrom(s, id, place, most);
    TimesIsProduct(most, place + 1 + Between(s.thrown[id], t.thrown[id]) + Between(s.resets, t.resets));
    hide Times;
    EnoughPasses(w, t.src.queues.Keys, TallyOf(t, id, w.per), t.current,
                 HasTurn(t.detector, t.current, id), Completed(t));
  }

  lemma WatchEnds(s: State, t: State, id: SourceId, place: nat, most: nat)
    requires LedgerHolds(s) && LedgerHolds(t) && id in s.src.queues
    requires place < |Pending(s.src.queues, Flight(s), id)|
    requires Watched(t.src, WatchFrom(s, id, place, most))
    requires MovedCount(t.out, s.src.period[id]) > MovedCount(s.out, s.src.period[id]) + place
    ensures Delivered(s, t, id, place)
  {
    var w := WatchFrom(s, id, place, most);
    assert Balanced(s.src, s.out.pushed, s.out.pushedIn, Flight(s), w.per);
    assert Balanced(t.src, t.out.pushed, t.out.pushedIn, Flight(t), w.per);
    assert t.src.ledger[w.per].accepted[w.start.moved + place] == w.accepted[w.start.moved + place];
  }

  // ----- what a null frame does -----

  lemma ProducerAccepts(s: State, per: nat)
    requires per < |s.src.ledger|
    ensures var t := StepProducer(s);
            per < |t.src.ledger| && s.src.ledger[per].accepted <= t.src.ledger[per].accepted
  {
    hide StepProducer;
    match s.producer
    case RegQueue(id) => RegisterSteps(s, id);
    case UnregQueue(id) => EraseSteps(s, id);
    case AddPush(id, frame) => AddSteps(s, id, frame);
    case _ => ProducerSources(s);
  }

  /** No step forgets an accepted frame, not even the end of the period. */
  lemma {:induction false} AcceptedGrows(s: State, e: Event, per: nat)
    requires per < |s.src.ledger|
    ensures per < |Step(s, e).src.ledger|
    ensures s.src.ledger[per].accepted <= Step(s, e).src.ledger[per].accepted
  {
    match e
    case ProducerStep => ProducerAccepts(s, per);
    case DetectorStep(outcome) => DetectorLedger(s, outcome);
    case ProcessorStep =>
    case _ => CallOutput(s, e);
  }

  lemma {:induction false} AcceptedKept(s: State, es: seq<Event>, per: nat)
    requires per < |s.src.ledger|
    ensures per < |Exec(s, es).src.ledger| && s.src.ledger[per].accepted <= Exec(s, es).src.ledger[per].accepted
  {
    hide Step;
    if es == [] {
    } else {
      AcceptedKept(s, es[..|es| - 1], per);
      AcceptedGrows(Exec(s, es[..|es| - 1]), es[|es| - 1], per);
    }
  }

  lemma {:induction false} MovedNotNull(pushed: seq<Entry>, pushedIn: seq<nat>, p: nat)
    requires |pushed| == |pushedIn| && forall i :: 0 <= i < |pushed| ==> pushed[i].frame != Null
    ensures Null !in MovedIn(pushed, pushedIn, p)
  {
    if pushed == [] {
    } else {
      MovedNotNull(pushed[..|pushed| - 1], pushedIn[..|pushed| - 1], p);
    }
  }

  /** A null frame, and every frame behind it, is never moved to the results: whatever happens. */
  lemma NullBlocks(before: seq<Event>, after: seq<Event>, id: SourceId, place: nat)
    requires var s := Exec(INITIAL, before);
             && id in s.src.queues
             && var q := Pending(s.src.queues, Flight(s), id);
                place < |q| && Null in q[..place + 1]
    ensures var s := Exec(INITIAL, before); !Delivered(s, Exec(s, after), id, place)
  {
    hide Step;
    InvAlways(before);
    NullBlocksFrom(Exec(INITIAL, before), after, id, place);
  }

  lemma NullBlocksFrom(s: State, es: seq<Event>, id: SourceId, place: nat)
    requires Inv(s) && id in s.src.queues
    requires var q := Pending(s.src.queues, Flight(s), id);
             place < |q| && Null in q[..place + 1]
    ensures !Delivered(s, Exec(s, es), id, place)
  {
    hide Step;
    var t := Exec(s, es);
    assert LedgerHolds(s) && LedgerHolds(t) && NoNullPushed(t) by { InvByRun(s, es); }
    AcceptedKept(s, es, s.src.period[id]);
    NullStays(s, t, id, place);
  }

  lemma NullStays(s: State, t: State, id: SourceId, place: nat)
    requires LedgerHolds(s) && LedgerHolds(t) && NoNullPushed(t) && id in s.src.queues
    requires var per := s.src.period[id];
             per < |t.src.ledger| && s.src.ledger[per].accepted <= t.src.ledger[per].accepted
    requires var q := Pending(s.src.queues, Flight(s), id);
             place < |q| && Null in q[..place + 1]
    ensures !Delivered(s, t, id, place)
  {
    var per, q := s.src.period[id], Pending(s.src.queues, Flight(s), id);
    var j :| 0 <= j <= place && q[..place + 1][j] == Null;
    var was, now := |MovedIn(s.out.pushed, s.out.pushedIn, per)|, MovedIn(t.out.pushed, t.out.pushedIn, per);
    assert Balanced(s.src, s.out.pushed, s.out.pushedIn, Flight(s), per);
    assert Balanced(t.src, t.out.pushed, t.out.pushedIn, Flight(t), per);
    assert s.src.ledger[per].accepted[was + j] == Null;
    MovedNotNull(t.out.pushed, t.out.pushedIn, per);
    NotNullThrough(now, t.src.ledger[per].accepted);
    assert t.src.ledger[per].accepted[was + j] == Null;
  }

  lemma NotNullThrough(moved: seq<Frame>, accepted: seq<Frame>)
    requires moved <= accepted && Null !in moved
    ensures forall k :: 0 <= k < |moved| ==> accepted[k] != Null
  {
    forall k | 0 <= k < |moved| ensures accepted[k] != Null {
      assert accepted[k] == moved[k];
    }
  }

  lemma NotNullDelivered(s: State, es: seq<Event>, id: SourceId, place: nat, most: nat)
    requires Inv(s) && Hosts(s, id, most) && HostsThroughout(s, es, id, most)
    requires var q := Pending(s.src.queues, Flight(s), id);
             place < |q| && Null !in q[..place + 1]
    requires EnoughTime(s, Exec(s, es), id, place + 1, most)
    ensures Delivered(s, Exec(s, es), id, place)
  {
    hide Control, KeysAgree, LocksAgree, HeadStays, WithinCapacity, OutputFlows, CounterAgrees,
         NoNullPushed, FlightIsLast;
    hide Step, Inv, EnoughTime, HostsThroughout, Delivered, StateOnTime;
    var t := Exec(s, es);
    InvParts(s);
    assert LedgerHolds(t) by {
      InvByRun(s, es);
      InvParts(t);
    }
    WatchBegins(s, id, place, most);
    WatchKept(s, es, WatchFrom(s, id, place, most));
    WatchFulfilled(s, t, id, place, most);
    WatchEnds(s, t, id, place, most);
  }

  /** Bounded waiting. From any reachable state and while the source stays registered, the frame at
      position `place` of its pending frames is moved to the results within `most` * (place + 1 + f + r) + o
      completed passes exactly when neither it nor a frame ahead of it is null: f is the number of times
      inference threw on the source, o the number of registrations meanwhile, r the number of times the
      queue chosen last was registered or unregistered, and `most` bounds the number of sources. Nothing
      is asked of the other sources, of the producer or of the scheduler. */
  lemma BoundedWaiting(before: seq<Event>, after: seq<Event>, id: SourceId, place: nat, most: nat)
    requires var s := Exec(INITIAL, before);
             && Hosts(s, id, most) && HostsThroughout(s, after, id, most)
             && place < |Pending(s.src.queues, Flight(s), id)|
             && EnoughTime(s, Exec(s, after), id, place + 1, most)
    ensures var s := Exec(INITIAL, before);
            Delivered(s, Exec(s, after), id, place) <==> Null !in Pending(s.src.queues, Flight(s), id)[..place + 1]
  {
    hide Step, Inv, EnoughTime, HostsThroughout, Delivered;
    var s := Exec(INITIAL, before);
    InvAlways(before);
    if Null in Pending(s.src.queues, Flight(s), id)[..place + 1] {
      NullBlocksFrom(s, after, id, place);
    } else {
      NotNullDelivered(s, after, id, place, most);
    }
  }

  // ----- what a source does on which inference never succeeds -----

  /** Inference succeeds on the head frame of the source. */
  predicate Succeeds(s: State, e: Event, id: SourceId) {
    e.DetectorStep? && s.detector.Infer? && s.current == id && e.outcome.Detected?
  }

  /** A frame of the source is past inference and not pushed yet. */
  function PastInference(s: State, id: SourceId): nat {
    if (s.detector.Count? || s.detector.SyncLock? || s.detector.Push?) && s.current == id then 1 else 0
  }

  predicate BelongsTo(src: Sources, per: nat, id: SourceId) {
    per < |src.ledger| && src.ledger[per].source == id
  }

  lemma ProducerBelongs(s: State, per: nat, id: SourceId)
    requires BelongsTo(s.src, per, id)
    ensures BelongsTo(StepProducer(s).src, per, id)
  {
    hide StepProducer;
    match s.producer
    case RegQueue(other) => RegisterSteps(s, other);
    case UnregQueue(other) => EraseSteps(s, other);
    case AddPush(other, frame) => AddSteps(s, other, frame);
    case _ => ProducerSources(s);
  }

  lemma PastInferenceKept(s: State, outcome: Outcome, id: SourceId)
    requires !s.detector.Push? && !Succeeds(s, DetectorStep(outcome), id)
    ensures PastInference(StepDetector(s, outcome), id) <= PastInference(s, id)
  {
  }

  lemma PushFailing(s: State, per: nat, id: SourceId)
    requires LedgerHolds(s) && HeadStays(s) && BelongsTo(s.src, per, id) && s.detector.Push?
    ensures var t := PushResults(s, s.detector.frame, s.detector.found);
            MovedCount(t.out, per) + PastInference(t, id) <= MovedCount(s.out, per) + PastInference(s, id)
  {
    MovedAppend(s.out.pushed, s.out.pushedIn, Entry(s.current, s.detector.frame, s.detector.found),
                s.src.period[s.current], per);
  }

  lemma DetectorFailing(s: State, outcome: Outcome, per: nat, id: SourceId)
    requires LedgerHolds(s) && HeadStays(s) && BelongsTo(s.src, per, id)
    requires !Succeeds(s, DetectorStep(outcome), id)
    ensures var t := StepDetector(s, outcome);
            MovedCount(t.out, per) + PastInference(t, id) <= MovedCount(s.out, per) + PastInference(s, id)
  {
    if s.detector.Push? {
      PushFailing(s, per, id);
    } else {
      DetectorOutput(s, outcome);
      PastInferenceKept(s, outcome, id);
    }
  }

  lemma {:induction false} StepFailing(s: State, e: Event, per: nat, id: SourceId)
    requires LedgerHolds(s) && HeadStays(s) && BelongsTo(s.src, per, id) && !Succeeds(s, e, id)
    ensures var t := Step(s, e);
            && BelongsTo(t.src, per, id)
            && MovedCount(t.out, per) + PastInference(t, id) <= MovedCount(s.out, per) + PastInference(s, id)
  {
    match e
    case ProducerStep =>
      ProducerBelongs(s, per, id);
      ProducerOutput(s);
    case DetectorStep(outcome) =>
      DetectorLedger(s, outcome);
      DetectorFailing(s, outcome, per, id);
    case ProcessorStep => ProcessorFrame(s);
    case _ => CallOutput(s, e);
  }

  /** From `s` on inference never succeeds on the source. */
  predicate NeverSucceeds(s: State, es: seq<Event>, id: SourceId) {
    es == []
    || var n := |es| - 1;
       NeverSucceeds(s, es[..n], id) && !Succeeds(Exec(s, es[..n]), es[n], id)
  }

  lemma {:induction false} FailingRun(s: State, es: seq<Event>, per: nat, id: SourceId)
    requires Inv(s) && NeverSucceeds(s, es, id) && BelongsTo(s.src, per, id)
    ensures var t := Exec(s, es);
            && BelongsTo(t.src, per, id)
            && MovedCount(t.out, per) + PastInference(t, id) <= MovedCount(s.out, per) + PastInference(s, id)
  {
    hide Control, KeysAgree, LocksAgree, HeadStays, WithinCapacity, LedgerHolds, OutputFlows,
         CounterAgrees, NoNullPushed, FlightIsLast;
    hide Step, Inv, MovedCount, PastInference, BelongsTo;
    if es == [] {
    } else {
      var most := es[..|es| - 1];
      FailingRun(s, most, per, id);
      InvByRun(s, most);
      InvParts(Exec(s, most));
      StepFailing(Exec(s, most), es[|es| - 1], per, id);
    }
  }

  /** While inference never succeeds on a source none of its pending frames is moved to the results,
      except the head when it was past inference already: whatever else happens. */
  lemma FailureBlocks(before: seq<Event>, after: seq<Event>, id: SourceId, place: nat)
    requires var s := Exec(INITIAL, before);
             id in s.src.queues && NeverSucceeds(s, after, id) && place >= PastInference(s, id)
    ensures var s := Exec(INITIAL, before); !Delivered(s, Exec(s, after), id, place)
  {
    hide Step, NeverSucceeds;
    var s := Exec(INITIAL, before);
    InvAlways(before);
    assert LedgerHolds(s) by { InvParts(s); }
    FailingRun(s, after, s.src.period[id], id);
  }

  // ----- passes and turns of the detection thread -----

  /** How far a pass has come. */
  function Position(d: DetectorPc): nat {
    match d
    case Test => 0
    case Lock => 1
    case Choose => 2
    case Check => 3
    case Fetch => 4
    case Infer(frame) => 5
    case Count(frame, found) => 6
    case SyncLock(frame, found) => 7
    case Push(frame, found) => 8
    case SyncUnlock(frame) => 9
    case QueueLock(frame) => 10
    case Pop(frame) => 11
    case QueueUnlock => 12
    case Release => 13
    case DetectorFault => 0
  }

  const PASS_STEPS := 14

  /** The turns of the detection thread in which it did not wait for a mutex. */
  function Turns(s: State, es: seq<Event>): nat {
    if es == [] then 0
    else
      var t, e := Exec(s, es[..|es| - 1]), es[|es| - 1];
      Turns(s, es[..|es| - 1]) + if e.DetectorStep? && !Waits(t, Detector) then 1 else 0
  }

  function Progress(s: State): int { PASS_STEPS * Completed(s) + Position(s.detector) }

  lemma DetectorProgress(s: State, outcome: Outcome)
    requires Control(s) && !s.detector.DetectorFault? && s.src.queues.Keys != {} && !Waits(s, Detector)
    ensures var t := StepDetector(s, outcome);
            Progress(t) >= Progress(s) + 1 && !t.detector.DetectorFault?
  {
    hide Control, ChooseByOrder;
    DetectorFacts(s);
  }

  lemma OthersProgress(s: State, e: Event)
    requires !e.DetectorStep?
    ensures var t := Step(s, e);
            t.detector == s.detector && t.locked == s.locked
  {
    match e
    case ProducerStep => ProducerOutput(s);
    case ProcessorStep => ProcessorFrame(s);
    case _ => CallOutput(s, e);
  }

  lemma {:induction false} TurnsProgress(s: State, es: seq<Event>, id: SourceId, most: nat)
    requires Inv(s) && !s.detector.DetectorFault? && HostsThroughout(s, es, id, most)
    ensures !Exec(s, es).detector.DetectorFault? && Progress(Exec(s, es)) >= Progress(s) + Turns(s, es)
  {
    hide KeysAgree, LocksAgree, HeadStays, WithinCapacity, LedgerHolds, OutputFlows,
         CounterAgrees, NoNullPushed, FlightIsLast;
    hide Inv, Step, Waits, Position;
    if es == [] {
    } else {
      var before, e := es[..|es| - 1], es[|es| - 1];
      var t := Exec(s, before);
      TurnsProgress(s, before, id, most);
      assert t.src.queues.Keys != {} by { assert id in t.src.queues.Keys; }
      assert Control(t) by {
        InvByRun(s, before);
        InvParts(t);
      }
      hide Control;
      StepProgress(t, e);
    }
  }

  lemma StepProgress(s: State, e: Event)
    requires Control(s) && !s.detector.DetectorFault? && s.src.queues.Keys != {}
    ensures var t := Step(s, e);
            && !t.detector.DetectorFault?
            && Progress(t) >= Progress(s) + if e.DetectorStep? && !Waits(s, Detector) then 1 else 0
  {
    hide Control, StepProducer, StepDetector, StepProcessor, Call, Waits, Position;
    if e.DetectorStep? {
      if Waits(s, Detector) {
        WaitingStays(s, e.outcome);
      } else {
        DetectorProgress(s, e.outcome);
      }
    } else {
      OthersProgress(s, e);
    }
  }

  lemma WaitingStays(s: State, outcome: Outcome)
    requires Waits(s, Detector)
    ensures StepDetector(s, outcome) == s
  {
  }

  lemma PositionBounded(d: DetectorPc)
    ensures 0 <= Position(d) < PASS_STEPS && (Chosen(d) ==> Position(d) >= 3)
  {
  }

  /** Passes complete: while the source stays registered, `PASS_STEPS` unblocked turns of the detection
      thread complete a pass. */
  lemma TurnsComplete(s: State, es: seq<Event>, id: SourceId, most: nat, passes: nat)
    requires Inv(s) && !s.detector.DetectorFault? && HostsThroughout(s, es, id, most)
    requires Turns(s, es) >= PASS_STEPS * (passes + 1)
    ensures Completed(Exec(s, es)) - s.locked >= passes
  {
    hide Inv, Exec, Turns, Position, HostsThroughout;
    TurnsProgress(s, es, id, most);
    PositionBounded(s.detector);
    PositionBounded(Exec(s, es).detector);
  }

  /** Bounded waiting in turns of the detection thread instead of passes. */
  lemma BoundedWaitingInTurns(before: seq<Event>, after: seq<Event>, id: SourceId, place: nat, most: nat)
    requires var s := Exec(INITIAL, before);
             && Hosts(s, id, most) && HostsThroughout(s, after, id, most) && !s.detector.DetectorFault?
             && place < |Pending(s.src.queues, Flight(s), id)|
             && Turns(s, after) >= PASS_STEPS * (PassesNeeded(s, Exec(s, after), id, place + 1, most) + 1)
    ensures var s := Exec(INITIAL, before);
            Delivered(s, Exec(s, after), id, place) <==> Null !in Pending(s.src.queues, Flight(s), id)[..place + 1]
  {
    hide Step, Inv, HostsThroughout, Delivered, PassesNeeded, Turns;
    var s := Exec(INITIAL, before);
    InvAlways(before);
    TurnsComplete(s, after, id, most, PassesNeeded(s, Exec(s, after), id, place + 1, most));
    BoundedWaiting(before, after, id, place, most);
  }
}
