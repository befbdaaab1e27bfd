/** The listening client over whole runs of messages, taken frames, channel errors and restores. */
module SourceHistory {
  import opened Types
  import opened Strategies
  import opened MessageBus
  import opened BusHistory
  import opened SourceListener

  datatype SiteEvent =
    | Announce(source: Option<Source>, tag: nat)
    | Retire(source: Option<Source>, tag: nat)
    | FrameArrives(header: Option<int>, image: Option<nat>, tag: nat)
    | Channel(event: BusEvent)                 // an error, a reconnection, a reply or a ready channel
    | FrameTaken(id: SourceId)                 // the detection thread pops a head

  function SiteStep(site: Site, e: SiteEvent): Site {
    match e
    case Announce(source, tag) => Announced(site, source, tag)
    case Retire(source, tag) => Retired(site, source, tag)
    case FrameArrives(header, image, tag) => Delivered(site, header, image, tag)
    case Channel(event) => if event.Perform? then site else site.(bus := BusStep(site.bus, event))
    case FrameTaken(id) => site.(queues := Service(site.queues, id))
  }

  function SiteRun(site: Site, es: seq<SiteEvent>): Site {
    if es == [] then site else SiteStep(SiteRun(site, es[..|es| - 1]), es[|es| - 1])
  }

  predicate Announces(e: SiteEvent, id: SourceId) {
    e.Announce? && e.source.Some? && e.source.value.id == id
  }

  predicate Retires(e: SiteEvent, id: SourceId) {
    e.Retire? && e.source.Some? && e.source.value.id == id
  }

  /** The source was announced and has not been retired since. */
  ghost predicate Live(es: seq<SiteEvent>, id: SourceId) {
    exists j :: 0 <= j < |es| && Announces(es[j], id) && forall k :: j < k < |es| ==> !Retires(es[k], id)
  }

  lemma LiveSnoc(es: seq<SiteEvent>, e: SiteEvent, id: SourceId)
    ensures Live(es + [e], id) <==> Announces(e, id) || (Live(es, id) && !Retires(e, id))
  {
    var all := es + [e];
    if Announces(e, id) {
      assert Announces(all[|es|], id);
    }
    if Live(es, id) && !Retires(e, id) {
      var j :| 0 <= j < |es| && Announces(es[j], id) && forall k :: j < k < |es| ==> !Retires(es[k], id);
      assert Announces(all[j], id);
      forall k | j < k < |all| ensures !Retires(all[k], id) {
        if k < |es| { assert all[k] == es[k]; }
      }
    }
    if Live(all, id) && !Announces(e, id) {
      var j :| 0 <= j < |all| && Announces(all[j], id) && forall k :: j < k < |all| ==> !Retires(all[k], id);
      assert all[|es|] == e;
      assert Announces(es[j], id);
      forall k | j < k < |es| ensures !Retires(es[k], id) {
        assert all[k] == es[k];
      }
    }
  }

  /** An announcement counts when its source was not live. */
  ghost predicate Counts(before: seq<SiteEvent>, e: SiteEvent) {
    e.Announce? && e.source.Some? && !Live(before, e.source.value.id)
  }

  /** What a counting announcement adds to the log. */
  function Recording(source: Source): seq<Action> {
    [DeclareExchange(source.exchange, Fanout), ListenFresh(source.exchange, NewFrame, ExclusiveAutodelete)]
  }

  /** One declare/listen pair per counting announcement, in order. */
  ghost function Recordings(es: seq<SiteEvent>): seq<Action> {
    if es == [] then []
    else
      var before, e := es[..|es| - 1], es[|es| - 1];
      Recordings(before) + if Counts(before, e) then Recording(e.source.value) else []
  }

  lemma StepQueues(site: Site, e: SiteEvent, id: SourceId)
    ensures id in SiteStep(site, e).queues <==> Announces(e, id) || (id in site.queues && !Retires(e, id))
  {
  }

  /** After any run, the registered sources are exactly those announced and not retired since. */
  lemma {:induction false} RegisteredAreLive(site: Site, es: seq<SiteEvent>, id: SourceId)
    requires site.queues.Keys == {}
    ensures id in SiteRun(site, es).queues <==> Live(es, id)
  {
    if es == [] {
    } else {
      var before, e := es[..|es| - 1], es[|es| - 1];
      RegisteredAreLive(site, before, id);
      StepQueues(SiteRun(site, before), e, id);
      assert es == before + [e];
      LiveSnoc(before, e, id);
    }
  }

  lemma StepLog(site: Site, e: SiteEvent)
    ensures SiteStep(site, e).bus.log
         == site.bus.log + (if e.Announce? && e.source.Some? && e.source.value.id !in site.queues
                            then Recording(e.source.value) else [])
  {
    match e
    case Channel(event) =>
      if event.ChannelReady? { ReadyKeepsLog(site.bus, event.answers); }
    case _ =>
  }

  /** In every run the log is the initial log followed by one declare/listen pair per announcement of a
      source that was not live, in order; duplicates, retirements, frames and restores add nothing. */
  lemma {:induction false} LogIsHistory(site: Site, es: seq<SiteEvent>)
    requires site.queues.Keys == {}
    ensures SiteRun(site, es).bus.log == site.bus.log + Recordings(es)
  {
    if es == [] {
    } else {
      var before, e := es[..|es| - 1], es[|es| - 1];
      LogIsHistory(site, before);
      StepLog(SiteRun(site, before), e);
      if e.Announce? && e.source.Some? {
        RegisteredAreLive(site, before, e.source.value.id);
      }
    }
  }

  /** What one more event adds to the log. */
  lemma LogGrows(site: Site, es: seq<SiteEvent>, e: SiteEvent)
    requires site.queues.Keys == {}
    ensures var s, t := SiteRun(site, es), SiteRun(site, es + [e]);
            if e.Announce? && e.source.Some? && !Live(es, e.source.value.id)
            then t.bus.log == s.bus.log + [DeclareExchange(e.source.value.exchange, Fanout),
                                           ListenFresh(e.source.value.exchange, NewFrame, ExclusiveAutodelete)]
            else t.bus.log == s.bus.log
  {
    assert (es + [e])[..|es|] == es;
    StepLog(SiteRun(site, es), e);
    if e.Announce? && e.source.Some? {
      RegisteredAreLive(site, es, e.source.value.id);
    }
  }

  lemma {:induction false} RunConcat(site: Site, es: seq<SiteEvent>, more: seq<SiteEvent>)
    ensures SiteRun(site, es + more) == SiteRun(SiteRun(site, es), more)
  {
    if more == [] {
      assert es + more == es;
    } else {
      RunConcat(site, es, more[..|more| - 1]);
      assert (es + more)[..|es + more| - 1] == es + more[..|more| - 1];
    }
  }

  lemma {:induction false} StaysUnregistered(site: Site, more: seq<SiteEvent>, id: SourceId)
    requires id !in site.queues && forall e :: e in more ==> !Announces(e, id)
    ensures id !in SiteRun(site, more).queues && site.bus.log <= SiteRun(site, more).bus.log
  {
    if more == [] {
    } else {
      var before, e := more[..|more| - 1], more[|more| - 1];
      assert e in more;
      StaysUnregistered(site, before, id);
      StepQueues(SiteRun(site, before), e, id);
      StepLog(SiteRun(site, before), e);
    }
  }

  /** A retired source stays unregistered until it is announced again, although its listener stays in
      the log, is replayed by every restore, and its frames keep arriving. */
  lemma RetiredStaysOut(site: Site, es: seq<SiteEvent>, more: seq<SiteEvent>, id: SourceId)
    requires site.queues.Keys == {} && !Live(es, id)
    requires forall e :: e in more ==> !Announces(e, id)
    ensures id !in SiteRun(site, es + more).queues
    ensures SiteRun(site, es).bus.log <= SiteRun(site, es + more).bus.log
  {
    RegisteredAreLive(site, es, id);
    RunConcat(site, es, more);
    StaysUnregistered(SiteRun(site, es), more, id);
  }

  // ----- listeners per exchange -----

  function Listeners(log: seq<Action>, exchange: string): nat {
    if log == [] then 0
    else Listeners(log[..|log| - 1], exchange)
         + if log[|log| - 1] == ListenFresh(exchange, NewFrame, ExclusiveAutodelete) then 1 else 0
  }

  /** How often a source on this exchange was announced while it was not live. */
  ghost function Admissions(es: seq<SiteEvent>, exchange: string): nat {
    if es == [] then 0
    else
      var before, e := es[..|es| - 1], es[|es| - 1];
      Admissions(before, exchange) + if Counts(before, e) && e.source.value.exchange == exchange then 1 else 0
  }

  lemma {:induction false} ListenersConcat(a: seq<Action>, b: seq<Action>, exchange: string)
    ensures Listeners(a + b, exchange) == Listeners(a, exchange) + Listeners(b, exchange)
  {
    if b == [] {
      assert a + b == a;
    } else {
      ListenersConcat(a, b[..|b| - 1], exchange);
      assert (a + b)[..|a + b| - 1] == a + b[..|b| - 1];
    }
  }

  lemma OneListener(source: Source, exchange: string)
    ensures Listeners(Recording(source), exchange) == if source.exchange == exchange then 1 else 0
  {
    var r := Recording(source);
    assert r[..1] == [r[0]];
    assert Listeners(r[..1], exchange) == 0;
  }

  lemma {:induction false} ListenersOfRecordings(es: seq<SiteEvent>, exchange: string)
    ensures Listeners(Recordings(es), exchange) == Admissions(es, exchange)
  {
    hide Recording, Live;
    if es == [] {
    } else {
      var before, e := es[..|es| - 1], es[|es| - 1];
      ListenersOfRecordings(before, exchange);
      if Counts(before, e) {
        ListenersConcat(Recordings(before), Recording(e.source.value), exchange);
        OneListener(e.source.value, exchange);
      } else {
        assert Recordings(es) == Recordings(before);
      }
    }
  }

  /** The log holds one frame listener per admission: a source that was retired and announced again has
      two, and a restore issues both. */
  lemma ListenersCountAdmissions(site: Site, es: seq<SiteEvent>, exchange: string)
    requires site.queues.Keys == {}
    ensures Listeners(SiteRun(site, es).bus.log, exchange)
         == Listeners(site.bus.log, exchange) + Admissions(es, exchange)
  {
    hide SiteRun, Recordings, Admissions, Listeners;
    LogIsHistory(site, es);
    ListenersConcat(site.bus.log, Recordings(es), exchange);
    ListenersOfRecordings(es, exchange);
  }

  // ----- what the queues hold -----

  /** A frame for the source whose image could be built. */
  predicate BringsFor(e: SiteEvent, id: SourceId) {
    e.FrameArrives? && e.header.Some? && e.image.Some? && e.header.value % 0x1_0000_0000 == id
  }

  /** The images that arrived for the source since it was last admitted, while it was live, and found fewer
      than 30 of their predecessors waiting. */
  ghost function Entered(es: seq<SiteEvent>, id: SourceId): seq<Frame>
    decreases |es|
  {
    if es == [] then []
    else
      var before, e := es[..|es| - 1], es[|es| - 1];
      if Announces(e, id) && !Live(before, id) then []
      else if BringsFor(e, id) && Live(before, id) && |Entered(before, id)| - Taken(before, id) < 30
      then Entered(before, id) + [Image(e.image.value)]
      else Entered(before, id)
  }

  /** How many of them have been taken. */
  ghost function Taken(es: seq<SiteEvent>, id: SourceId): nat
    decreases |es|
  {
    if es == [] then 0
    else
      var before, e := es[..|es| - 1], es[|es| - 1];
      if Announces(e, id) && !Live(before, id) then 0
      else Taken(before, id)
           + if e == FrameTaken(id) && Live(before, id) && Taken(before, id) < |Entered(before, id)| then 1 else 0
  }

  /** How one event changes the queue of a source that is registered before and after it. */
  lemma StepQueue(site: Site, e: SiteEvent, id: SourceId)
    requires id in site.queues && !Retires(e, id)
    ensures id in SiteStep(site, e).queues
    ensures var q := site.queues[id];
            SiteStep(site, e).queues[id]
            == if BringsFor(e, id) && |q| < 30 then q + [Image(e.image.value)]
               else if e == FrameTaken(id) && q != [] then q[1..]
               else q
  {
  }

  lemma StepAdmits(site: Site, e: SiteEvent, id: SourceId)
    requires id !in site.queues && Announces(e, id)
    ensures id in SiteStep(site, e).queues && SiteStep(site, e).queues[id] == []
  {
  }

  /** After any run the queue of a live source holds, in order, the images that entered since it was
      admitted less those taken from the front. */
  lemma {:induction false} QueueHolds(site: Site, es: seq<SiteEvent>, id: SourceId)
    requires site.queues.Keys == {}
    ensures Live(es, id) ==>
              && id in SiteRun(site, es).queues && Taken(es, id) <= |Entered(es, id)|
              && SiteRun(site, es).queues[id] == Entered(es, id)[Taken(es, id)..]
  {
    hide SiteStep, Live, BringsFor, Announces, Retires;
    RegisteredAreLive(site, es, id);
    if es == [] {
    } else {
      var before, e := es[..|es| - 1], es[|es| - 1];
      var s := SiteRun(site, before);
      QueueHolds(site, before, id);
      RegisteredAreLive(site, before, id);
      assert es == before + [e];
      LiveSnoc(before, e, id);
      if Live(es, id) {
        if Live(before, id) {
          NotBoth(e, id);
          StepQueue(s, e, id);
          QueueSlices(Entered(before, id), Taken(before, id));
          if BringsFor(e, id) { NotTaken(e, id); }
        } else {
          StepAdmits(s, e, id);
        }
      }
    }
  }

  lemma NotBoth(e: SiteEvent, id: SourceId)
    ensures Announces(e, id) ==> !Retires(e, id)
  {
  }

  lemma NotTaken(e: SiteEvent, id: SourceId)
    requires BringsFor(e, id)
    ensures e != FrameTaken(id)
  {
  }

  lemma QueueSlices(entered: seq<Frame>, taken: nat)
    requires taken <= |entered|
    ensures forall f :: (entered + [f])[taken..] == entered[taken..] + [f]
    ensures taken < |entered| ==> entered[taken..] != [] && entered[taken..][1..] == entered[taken + 1..]
  {
    forall f ensures (entered + [f])[taken..] == entered[taken..] + [f] {
    }
  }

  /** A frame changes the queue of no source but its own. */
  lemma OtherQueuesLeft(site: Site, header: Option<int>, image: Option<nat>, tag: nat, id: SourceId)
    requires header.None? || header.value % 0x1_0000_0000 != id
    ensures var t := SiteStep(site, FrameArrives(header, image, tag));
            && (id in t.queues <==> id in site.queues)
            && (id in site.queues ==> t.queues[id] == site.queues[id])
  {
  }

  // ----- acknowledgements -----

  /** The tags acknowledged, in order. */
  function Acknowledged(issued: seq<Command>): seq<nat> {
    if issued == [] then []
    else
      var last := issued[|issued| - 1];
      Acknowledged(issued[..|issued| - 1]) + if last.Acknowledge? then [last.tag] else []
  }

  /** A message is acknowledged unless it retires a source that is not live or brings a frame whose image
      could not be built. */
  ghost predicate Acknowledges(before: seq<SiteEvent>, e: SiteEvent) {
    || e.Announce?
    || (e.Retire? && (e.source.None? || Live(before, e.source.value.id)))
    || (e.FrameArrives? && (e.header.None? || e.image.Some?))
  }

  ghost function Tags(es: seq<SiteEvent>): seq<nat> {
    if es == [] then []
    else
      var before, e := es[..|es| - 1], es[|es| - 1];
      Tags(before) + if Acknowledges(before, e) then [e.tag] else []
  }

  lemma AcknowledgedSnoc(issued: seq<Command>, c: Command)
    ensures Acknowledged(issued + [c]) == Acknowledged(issued) + if c.Acknowledge? then [c.tag] else []
  {
    assert (issued + [c])[..|issued|] == issued;
  }

  lemma {:induction false} NoneAcknowledged(issued: seq<Command>, added: seq<Command>)
    requires forall c :: c in added ==> !c.Acknowledge?
    ensures Acknowledged(issued + added) == Acknowledged(issued)
  {
    if added == [] {
      assert issued + added == issued;
    } else {
      NoneAcknowledged(issued, added[..|added| - 1]);
      assert issued + added == (issued + added[..|added| - 1]) + [added[|added| - 1]];
      AcknowledgedSnoc(issued + added[..|added| - 1], added[|added| - 1]);
    }
  }

  lemma ChannelAcknowledges(site: Site, e: BusEvent)
    ensures Acknowledged(SiteStep(site, Channel(e)).bus.issued) == Acknowledged(site.bus.issued)
  {
    if !e.Perform? {
      var added := ChannelAdds(site.bus, e);
      NoneAcknowledged(site.bus.issued, added);
    }
  }

  lemma AcknowledgedAfter(was: seq<Command>, added: seq<Command>, tag: nat)
    requires forall c :: c in added ==> !c.Acknowledge?
    ensures Acknowledged(was + added + [Acknowledge(tag)]) == Acknowledged(was) + [tag]
  {
    hide Acknowledged;
    NoneAcknowledged(was, added);
    AcknowledgedSnoc(was + added, Acknowledge(tag));
  }

  lemma AnnounceAcknowledges(site: Site, source: Option<Source>, tag: nat)
    ensures Acknowledged(Announced(site, source, tag).bus.issued) == Acknowledged(site.bus.issued) + [tag]
  {
    hide Acknowledged;
    var was := site.bus.issued;
    var added := if source.None? || source.value.id in site.queues then []
                 else [ExchangeDeclare(source.value.exchange, Fanout), QueueDeclare(None, ExclusiveAutodelete)];
    AcknowledgedAfter(was, added, tag);
    assert Announced(site, source, tag).bus.issued == was + added + [Acknowledge(tag)];
  }

  lemma RetireAcknowledges(site: Site, source: Option<Source>, tag: nat)
    ensures Acknowledged(Retired(site, source, tag).bus.issued)
         == Acknowledged(site.bus.issued)
            + if source.None? || source.value.id in site.queues then [tag] else []
  {
    hide Acknowledged;
    var was := site.bus.issued;
    if source.None? || source.value.id in site.queues {
      var unbind := if source.Some? && source.value.exchange in site.bus.bound
                    then [QueueUnbind(source.value.exchange, site.bus.bound[source.value.exchange])] else [];
      AcknowledgedAfter(was, unbind, tag);
      assert Retired(site, source, tag).bus.issued == was + unbind + [Acknowledge(tag)];
    } else {
      assert Acknowledged(was) + [] == Acknowledged(was);
    }
  }

  /** In every run exactly these messages are acknowledged, once each and in order, whatever the channel
      replays in between. */
  lemma {:induction false} AcknowledgedExactly(site: Site, es: seq<SiteEvent>)
    requires site.queues.Keys == {}
    ensures Acknowledged(SiteRun(site, es).bus.issued) == Acknowledged(site.bus.issued) + Tags(es)
  {
    hide Live, Announced, Retired, Acknowledged;
    if es == [] {
    } else {
      var before, e := es[..|es| - 1], es[|es| - 1];
      var s := SiteRun(site, before);
      AcknowledgedExactly(site, before);
      match e
      case Announce(source, tag) => AnnounceAcknowledges(s, source, tag);
      case Retire(source, tag) =>
        RetireAcknowledges(s, source, tag);
        if source.Some? { RegisteredAreLive(site, before, source.value.id); }
      case FrameArrives(header, image, tag) => AcknowledgedSnoc(s.bus.issued, Acknowledge(tag));
      case Channel(event) => ChannelAcknowledges(s, event);
      case FrameTaken(id) =>
    }
  }
}
