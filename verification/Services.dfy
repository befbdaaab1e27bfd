/** The detection service as one thread sees it when nothing interferes: the maps it updates in place,
    the calls of the producer, and the detection loop. */
module Services {
  import opened Types
  import opened OrderedKeys
  import opened Strategies
  import opened ServiceSpec

  /** Conversions between `unsigned` and `int` at the boundary of `contains` and of the frame header. */
  function AsSigned(id: SourceId): int { if id < 0x8000_0000 then id else id - 0x1_0000_0000 }

  function AsUnsigned(x: int): SourceId { x % 0x1_0000_0000 }

  /** Passing an id through the signed parameter of `contains` does not change it. */
  lemma SignedRoundTrip(id: SourceId)
    ensures -0x8000_0000 <= AsSigned(id) < 0x8000_0000
    ensures AsUnsigned(AsSigned(id)) == id
  {
  }

  /** A 64-bit unsigned counter after `n` increments. */
  function Wrapped(count: nat, n: nat): nat { (count + n) % COUNTER_MODULUS }

  lemma WrappedNext(count: nat, n: nat)
    ensures Wrapped(Wrapped(count, n), 1) == Wrapped(count, n + 1)
  {
  }

  lemma IterationsSnoc(flow: Flow, outcomes: seq<Outcome>, last: Outcome)
    ensures var (before, turn) := Iterations(flow, 0, outcomes);
            Iterations(flow, 0, outcomes + [last]) == Iteration(before, turn, last)
  {
    assert (outcomes + [last])[..|outcomes|] == outcomes;
  }

  /** The shared result queue. */
  class ResultQueue {
    var results: seq<Entry>

    constructor ()
      ensures results == []
    {
      results := [];
    }

    method PushResults(source: SourceId, frame: Frame, found: seq<Detection>)
      modifies this
      ensures results == old(results) + [Entry(source, frame, found)]
    {
      results := results + [Entry(source, frame, found)];
    }
  }

  class DetectionService {
    var queues: Queues
    var queueMutexes: set<SourceId>
    var droppedFrames: map<SourceId, int>
    var totalFramesProcessed: nat

    ghost predicate Valid()
      reads this
    {
      && queueMutexes == queues.Keys && droppedFrames.Keys == queues.Keys
      && (forall id :: id in queues ==> |queues[id]| <= CAPACITY)
      && totalFramesProcessed < COUNTER_MODULUS
    }

    constructor ()
      ensures Valid() && queues == map[] && totalFramesProcessed == 0
    {
      queues, queueMutexes, droppedFrames, totalFramesProcessed := map[], {}, map[], 0;
    }

    method Contains(sourceId: int) returns (known: bool)
      ensures known <==> AsUnsigned(sourceId) in queues
    {
      known := AsUnsigned(sourceId) in queues;
    }

    method RegisterSource(sourceId: SourceId) returns (accepted: bool)
      requires Valid()
      modifies this
      ensures Valid() && totalFramesProcessed == old(totalFramesProcessed)
      ensures accepted <==> sourceId !in old(queues)
      ensures queues == Registered(old(queues), sourceId)
      ensures queues == if accepted then old(queues)[sourceId := []] else old(queues)
      ensures droppedFrames == if accepted then old(droppedFrames)[sourceId := 0] else old(droppedFrames)
    {
      SignedRoundTrip(sourceId);
      var known := Contains(AsSigned(sourceId));
      if known {
        return false;
      }
      queues := queues[sourceId := []];
      queueMutexes := queueMutexes + {sourceId};
      droppedFrames := droppedFrames[sourceId := 0];
      return true;
    }

    method UnregisterSource(sourceId: SourceId) returns (removed: bool)
      requires Valid()
      modifies this
      ensures Valid() && totalFramesProcessed == old(totalFramesProcessed)
      ensures removed <==> sourceId in old(queues)
      ensures queues == Unregistered(old(queues), sourceId) == old(queues) - {sourceId}
      ensures droppedFrames == old(droppedFrames) - {sourceId}
    {
      SignedRoundTrip(sourceId);
      var known := Contains(AsSigned(sourceId));
      if !known {
        assert queues == queues - {sourceId} && droppedFrames == droppedFrames - {sourceId};
        return false;
      }
      queues := queues - {sourceId};
      queueMutexes := queueMutexes - {sourceId};
      droppedFrames := droppedFrames - {sourceId};
      return true;
    }

    method TryAddToQueue(sourceId: SourceId, frame: Frame) returns (added: bool)
      requires Valid()
      modifies this
      ensures Valid() && totalFramesProcessed == old(totalFramesProcessed)
      ensures added <==> sourceId in old(queues) && |old(queues)[sourceId]| < 30
      ensures queues == if added then old(queues)[sourceId := old(queues)[sourceId] + [frame]] else old(queues)
      ensures queues == Enqueued(old(queues), sourceId, frame) && droppedFrames == old(droppedFrames)
    {
      SignedRoundTrip(sourceId);
      var known := Contains(AsSigned(sourceId));
      if !known {
        return false;
      }
      if |queues[sourceId]| >= CAPACITY {
        return false;
      }
      queues := queues[sourceId := queues[sourceId] + [frame]];
      return true;
    }

    /** The body of the detection loop; `outcome` is what inference answers if it is asked. */
    method RunOnce(output: ResultQueue, current: SourceId, outcome: Outcome) returns (currentQueueId: SourceId)
      requires Valid()
      modifies this, output
      ensures if currentQueueId in old(queues) && old(queues)[currentQueueId] != []
                 && old(queues)[currentQueueId][0] != Null && outcome.Detected?
              then output.results == old(output.results)
                                     + [Entry(currentQueueId, old(queues)[currentQueueId][0], outcome.found)]
                   && queues == old(queues)[currentQueueId := old(queues)[currentQueueId][1..]]
              else output.results == old(output.results) && queues == old(queues)
      ensures Valid() && queues.Keys == old(queues).Keys && droppedFrames == old(droppedFrames)
      ensures (Flow(queues, output.results), currentQueueId)
           == Iteration(Flow(old(queues), old(output.results)), current, outcome)
      ensures if output.results == old(output.results) then totalFramesProcessed == old(totalFramesProcessed)
              else |output.results| == |old(output.results)| + 1
                   && totalFramesProcessed == Wrapped(old(totalFramesProcessed), 1)
    {
      currentQueueId := current;
      if queues.Keys == {} {
        return;
      }
      currentQueueId := ChooseByOrder(queues.Keys, currentQueueId);
      if queues[currentQueueId] == [] {
        return;
      }
      var frame := queues[currentQueueId][0];
      if frame == Null {
        return;
      }
      if outcome.Thrown? {
        return;
      }
      totalFramesProcessed := Wrapped(totalFramesProcessed, 1);
      output.PushResults(currentQueueId, frame, outcome.found);
      queues := queues[currentQueueId := queues[currentQueueId][1..]];
    }

    /** As many iterations of the endless detection loop as inference outcomes are given. */
    method Run(output: ResultQueue, outcomes: seq<Outcome>) returns (currentQueueId: SourceId)
      requires Valid()
      modifies this, output
      ensures Valid() && queues.Keys == old(queues).Keys && droppedFrames == old(droppedFrames)
      ensures (Flow(queues, output.results), currentQueueId)
           == Iterations(Flow(old(queues), old(output.results)), 0, outcomes)
      ensures |output.results| >= |old(output.results)|
      ensures totalFramesProcessed
           == Wrapped(old(totalFramesProcessed), |output.results| - |old(output.results)|)
    {
      hide Iteration;
      currentQueueId := 0;
      var i := 0;
      while i < |outcomes|
        invariant 0 <= i <= |outcomes|
        invariant Valid() && queues.Keys == old(queues).Keys && droppedFrames == old(droppedFrames)
        invariant (Flow(queues, output.results), currentQueueId)
               == Iterations(Flow(old(queues), old(output.results)), 0, outcomes[..i])
        invariant |output.results| >= |old(output.results)|
        invariant totalFramesProcessed
               == Wrapped(old(totalFramesProcessed), |output.results| - |old(output.results)|)
      {
        WrappedNext(old(totalFramesProcessed), |output.results| - |old(output.results)|);
        IterationsSnoc(Flow(old(queues), old(output.results)), outcomes[..i], outcomes[i]);
        assert outcomes[..i + 1] == outcomes[..i] + [outcomes[i]];
        currentQueueId := RunOnce(output, currentQueueId, outcomes[i]);
        i := i + 1;
      }
      assert outcomes[..i] == outcomes;
    }
  }
}
