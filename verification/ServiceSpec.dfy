/** What one call of the detection service, or one iteration of its loop, does when nothing interferes. */
module ServiceSpec {
  import opened Types
  import opened OrderedKeys
  import opened Strategies

  const CAPACITY := 30
  const COUNTER_MODULUS := 0x1_0000_0000_0000_0000

  /** One element of the result queue shared with the processing service. */
  datatype Entry = Entry(source: SourceId, frame: Frame, found: seq<Detection>)

  /** Frames wait in `queues`; detections wait in `results`. */
  datatype Flow = Flow(queues: Queues, results: seq<Entry>)

  function Registered(queues: Queues, id: SourceId): Queues {
    if id in queues then queues else queues[id := []]
  }

  function Unregistered(queues: Queues, id: SourceId): Queues {
    queues - {id}
  }

  function Enqueued(queues: Queues, id: SourceId, frame: Frame): Queues {
    if id in queues && |queues[id]| < CAPACITY then queues[id := queues[id] + [frame]] else queues
  }

  /** The queue whose turn it is either loses its head to the results, or nothing changes: it is
      empty, its head is null, or inference throws. */
  function Serve(flow: Flow, turn: SourceId, outcome: Outcome): Flow {
    if turn in flow.queues && flow.queues[turn] != [] && flow.queues[turn][0] != Null && outcome.Detected? then
      Flow(flow.queues[turn := flow.queues[turn][1..]],
           flow.results + [Entry(turn, flow.queues[turn][0], outcome.found)])
    else flow
  }

  /** One iteration of the detection loop: choose by the default strategy, then serve. */
  function Iteration(flow: Flow, current: SourceId, outcome: Outcome): (Flow, SourceId) {
    if flow.queues.Keys == {} then (flow, current)
    else
      var next := ChooseByOrder(flow.queues.Keys, current);
      (Serve(flow, next, outcome), next)
  }

  /** The iterations of the detection loop, one outcome each, and the queue id they end on. */
  function Iterations(flow: Flow, current: SourceId, outcomes: seq<Outcome>): (Flow, SourceId) {
    if outcomes == [] then (flow, current)
    else
      var last := |outcomes| - 1;
      var (before, turn) := Iterations(flow, current, outcomes[..last]);
      Iteration(before, turn, outcomes[last])
  }

  // ----- the atomic service -----

  /** What is waiting and detected, and the queue whose turn it is. */
  datatype Atomic = Atomic(flow: Flow, turn: SourceId)

  /** A source comes or goes, a frame arrives, the next queue is chosen, the chosen queue is served. */
  datatype Operation =
    | Opens(id: SourceId)
    | Closes(id: SourceId)
    | Arrives(id: SourceId, frame: Frame)
    | Chooses
    | Serves(outcome: Outcome)

  function Do(a: Atomic, op: Operation): Atomic {
    match op
    case Opens(id) => a.(flow := a.flow.(queues := Registered(a.flow.queues, id)))
    case Closes(id) => a.(flow := a.flow.(queues := Unregistered(a.flow.queues, id)))
    case Arrives(id, frame) => a.(flow := a.flow.(queues := Enqueued(a.flow.queues, id, frame)))
    case Chooses =>
      if a.flow.queues.Keys == {} then a else a.(turn := ChooseByOrder(a.flow.queues.Keys, a.turn))
    case Serves(outcome) => a.(flow := Serve(a.flow, a.turn, outcome))
  }

  function DoAll(a: Atomic, ops: seq<Operation>): Atomic {
    if ops == [] then a else Do(DoAll(a, ops[..|ops| - 1]), ops[|ops| - 1])
  }

  // ----- passes: a choice and the service that belongs to it -----

  /** A queue has been chosen and not served yet. */
  predicate Open(ops: seq<Operation>) {
    ops != []
    && var before, last := ops[..|ops| - 1], ops[|ops| - 1];
       last.Chooses? || (!last.Serves? && Open(before))
  }

  /** A choice is followed by its service before the next choice. */
  predicate Alternates(ops: seq<Operation>) {
    ops == []
    || var before, last := ops[..|ops| - 1], ops[|ops| - 1];
       Alternates(before) && (last.Chooses? ==> !Open(before)) && (last.Serves? ==> Open(before))
  }

  /** The answers of inference, one for every service. */
  function Answers(ops: seq<Operation>): seq<Outcome> {
    if ops == [] then []
    else Answers(ops[..|ops| - 1]) + if ops[|ops| - 1].Serves? then [ops[|ops| - 1].outcome] else []
  }

  function Choices(ops: seq<Operation>): nat {
    if ops == [] then 0 else Choices(ops[..|ops| - 1]) + if ops[|ops| - 1].Chooses? then 1 else 0
  }

  /** Every choice but an open one has been served, once. */
  lemma {:induction false} ServedOncePerChoice(ops: seq<Operation>)
    requires Alternates(ops)
    ensures Choices(ops) == |Answers(ops)| + if Open(ops) then 1 else 0
  {
    if ops == [] {
    } else {
      ServedOncePerChoice(ops[..|ops| - 1]);
    }
  }

  /** The same operations with every choice made together with its service, as one iteration. */
  function Iterate(a: Atomic, ops: seq<Operation>): Atomic {
    if ops == [] then a
    else
      var before, last := Iterate(a, ops[..|ops| - 1]), ops[|ops| - 1];
      match last
      case Chooses => before
      case Serves(outcome) =>
        var (flow, turn) := Iteration(before.flow, before.turn, outcome);
        Atomic(flow, turn)
      case _ => Do(before, last)
  }

  /** Choosing depends on the keys alone, so an arrival may be moved before it. */
  lemma ArrivalCommutes(a: Atomic, op: Operation)
    requires op.Arrives?
    ensures Do(Do(a, Chooses), op) == Do(Do(a, op), Chooses)
  {
    assert Do(a, op).flow.queues.Keys == a.flow.queues.Keys;
  }

  lemma ChooseThenServe(a: Atomic, outcome: Outcome)
    ensures var (flow, turn) := Iteration(a.flow, a.turn, outcome);
            Do(Do(a, Chooses), Serves(outcome)) == Atomic(flow, turn)
  {
    if a.flow.queues.Keys == {} {
      assert a.turn !in a.flow.queues.Keys;
    }
  }

  /** While no source comes or goes, choosing first and serving later is one iteration at the time of
      the service. */
  lemma {:induction false} PassesAreIterations(a: Atomic, ops: seq<Operation>)
    requires Alternates(ops) && forall op :: op in ops ==> !op.Opens? && !op.Closes?
    ensures DoAll(a, ops) == if Open(ops) then Do(Iterate(a, ops), Chooses) else Iterate(a, ops)
  {
    if ops == [] {
    } else {
      var before, last := ops[..|ops| - 1], ops[|ops| - 1];
      PassesAreIterations(a, before);
      assert last in ops;
      match last
      case Chooses =>
      case Serves(outcome) => ChooseThenServe(Iterate(a, before), outcome);
      case Arrives(id, frame) => ArrivalCommutes(Iterate(a, before), last);
    }
  }

  /** Without arrivals that is the loop of the detection service. */
  lemma {:induction false} QuietIterations(a: Atomic, ops: seq<Operation>)
    requires forall op :: op in ops ==> op.Chooses? || op.Serves?
    ensures var (flow, turn) := Iterations(a.flow, a.turn, Answers(ops));
            Iterate(a, ops) == Atomic(flow, turn)
  {
    if ops == [] {
    } else {
      var before, last := ops[..|ops| - 1], ops[|ops| - 1];
      QuietIterations(a, before);
      assert last in ops;
      if last.Serves? {
        assert Answers(ops)[..|Answers(ops)| - 1] == Answers(before);
      } else {
        assert Answers(ops) == Answers(before);
      }
    }
  }
}
