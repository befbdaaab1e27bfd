/** The listening client: source announcements, retirements and frames, and how they drive the
    detection service and the action log. */
module SourceListener {
  import opened Types
  import opened Strategies
  import opened ServiceSpec
  import opened Services
  import opened MessageBus

  /** A parsed source message. */
  datatype Source = Source(id: SourceId, exchange: string)

  // ----- specification -----

  /** The client and the queues of the service it drives. */
  datatype Site = Site(bus: BusState, queues: Queues)

  function Issued(s: BusState, commands: seq<Command>): BusState {
    s.(issued := s.issued + commands)
  }

  /** An unreadable message is acknowledged; so is one for a registered source; only a new source is
      registered, its exchange declared and listened to. */
  function Announced(site: Site, source: Option<Source>, tag: nat): Site {
    if source.None? || source.value.id in site.queues then
      site.(bus := Issued(site.bus, [Acknowledge(tag)]))
    else
      var declared := Performed(site.bus, DeclareExchange(source.value.exchange, Fanout));
      var listening := Performed(declared, ListenFresh(source.value.exchange, NewFrame, ExclusiveAutodelete));
      Site(Issued(listening, [Acknowledge(tag)]), Registered(site.queues, source.value.id))
  }

  /** A retirement of an unknown source is not even acknowledged. */
  function Retired(site: Site, source: Option<Source>, tag: nat): Site {
    if source.None? then site.(bus := Issued(site.bus, [Acknowledge(tag)]))
    else if source.value.id !in site.queues then site
    else
      var unbind := if source.value.exchange in site.bus.bound
                    then [QueueUnbind(source.value.exchange, site.bus.bound[source.value.exchange])] else [];
      Site(Issued(site.bus, unbind + [Acknowledge(tag)]), Unregistered(site.queues, source.value.id))
  }

  /** A frame without an integer source header is acknowledged and dropped; one whose image cannot be
      built is dropped without an acknowledgement; any other is offered to its queue. */
  function Delivered(site: Site, header: Option<int>, image: Option<nat>, tag: nat): Site {
    if header.None? then site.(bus := Issued(site.bus, [Acknowledge(tag)]))
    else if image.None? then site
    else Site(Issued(site.bus, [Acknowledge(tag)]),
              Enqueued(site.queues, AsUnsigned(header.value), Image(image.value)))
  }

  function Declarations(exchanges: seq<(string, ExchangeType)>): seq<Action> {
    if exchanges == [] then []
    else Declarations(exchanges[..|exchanges| - 1])
         + [DeclareExchange(exchanges[|exchanges| - 1].0, exchanges[|exchanges| - 1].1)]
  }

  lemma {:induction false} DeclarationsAt(exchanges: seq<(string, ExchangeType)>, i: nat)
    requires i < |exchanges|
    ensures |Declarations(exchanges)| == |exchanges|
    ensures Declarations(exchanges)[i] == DeclareExchange(exchanges[i].0, exchanges[i].1)
    decreases |exchanges|
  {
    var last := |exchanges| - 1;
    if last > 0 {
      DeclarationsAt(exchanges[..last], if i < last then i else 0);
    } else {
      assert exchanges[..last] == [];
    }
  }

  lemma DeclarationsAll(exchanges: seq<(string, ExchangeType)>)
    ensures |Declarations(exchanges)| == |exchanges|
    ensures forall i :: 0 <= i < |exchanges| ==>
              Declarations(exchanges)[i] == DeclareExchange(exchanges[i].0, exchanges[i].1)
  {
    forall i | 0 <= i < |exchanges|
      ensures |Declarations(exchanges)| == |exchanges|
      ensures Declarations(exchanges)[i] == DeclareExchange(exchanges[i].0, exchanges[i].1)
    {
      DeclarationsAt(exchanges, i);
    }
  }

  lemma {:induction false} PerformedAllLog(s: BusState, actions: seq<Action>)
    ensures PerformedAll(s, actions).log == s.log + actions
  {
    if actions == [] {
    } else {
      PerformedAllLog(s, actions[..|actions| - 1]);
    }
  }

  function PerformedAll(s: BusState, actions: seq<Action>): BusState {
    if actions == [] then s
    else Performed(PerformedAll(s, actions[..|actions| - 1]), actions[|actions| - 1])
  }

  // ----- the code -----

  class RabbitmqClient {
    const bus: MessageBusClient
    const service: DetectionService
    const newSourceQueue: string
    const obsoleteSourceQueue: string

    constructor (service: DetectionService, newSourceQueue: string, obsoleteSourceQueue: string)
      requires service.Valid()
      ensures Valid() && this.service == service
      ensures this.newSourceQueue == newSourceQueue && this.obsoleteSourceQueue == obsoleteSourceQueue
      ensures bus.State() == FRESH_BUS && fresh(bus) && fresh(bus.actions)
    {
      this.bus := new MessageBusClient();
      this.service := service;
      this.newSourceQueue := newSourceQueue;
      this.obsoleteSourceQueue := obsoleteSourceQueue;
    }

    ghost predicate Valid()
      reads service
    {
      service.Valid()
    }

    ghost function View(): Site
      reads bus, bus.actions, service
    {
      Site(bus.State(), service.queues)
    }

    method InitExchanges(exchanges: seq<(string, ExchangeType)>)
      modifies bus, bus.actions
      ensures bus.State() == PerformedAll(old(bus.State()), Declarations(exchanges))
      ensures var log, added := bus.actions.actions, |exchanges|;
              && |log| == |old(bus.actions.actions)| + added && old(bus.actions.actions) <= log
              && forall i :: 0 <= i < added ==>
                   log[|old(bus.actions.actions)| + i] == DeclareExchange(exchanges[i].0, exchanges[i].1)
    {
      var i := 0;
      while i < |exchanges|
        invariant 0 <= i <= |exchanges|
        invariant bus.State() == PerformedAll(old(bus.State()), Declarations(exchanges[..i]))
      {
        assert exchanges[..i + 1][..i] == exchanges[..i];
        bus.Declare(exchanges[i].0, exchanges[i].1);
        i := i + 1;
      }
      assert exchanges[..i] == exchanges;
      PerformedAllLog(old(bus.State()), Declarations(exchanges));
      DeclarationsAll(exchanges);
    }

    method BindAvailableSources(exchange: string)
      modifies bus, bus.actions
      ensures bus.State()
            == Performed(old(bus.State()), ListenNamed(exchange, newSourceQueue, AvailableSource, NoFlags))
      ensures bus.actions.actions == old(bus.actions.actions)
                                     + [ListenNamed(exchange, newSourceQueue, AvailableSource, NoFlags)]
    {
      bus.AddNamedListener(exchange, newSourceQueue, AvailableSource, NoFlags);
    }

    method BindObsoleteSources(exchange: string)
      modifies bus, bus.actions
      ensures bus.State()
            == Performed(old(bus.State()), ListenNamed(exchange, obsoleteSourceQueue, ObsoleteSource, NoFlags))
      ensures bus.actions.actions == old(bus.actions.actions)
                                     + [ListenNamed(exchange, obsoleteSourceQueue, ObsoleteSource, NoFlags)]
    {
      bus.AddNamedListener(exchange, obsoleteSourceQueue, ObsoleteSource, NoFlags);
    }

    method OnAvailableSource(source: Option<Source>, tag: nat)
      requires Valid()
      modifies bus, bus.actions, service
      ensures Valid() && View() == Announced(old(View()), source, tag)
      ensures if source.None? || source.value.id in old(service.queues)
              then bus.issued == old(bus.issued) + [Acknowledge(tag)]
                   && bus.actions.actions == old(bus.actions.actions) && service.queues == old(service.queues)
              else bus.issued == old(bus.issued) + [ExchangeDeclare(source.value.exchange, Fanout),
                                                    QueueDeclare(None, ExclusiveAutodelete), Acknowledge(tag)]
                   && bus.actions.actions == old(bus.actions.actions)
                                             + [DeclareExchange(source.value.exchange, Fanout),
                                                ListenFresh(source.value.exchange, NewFrame, ExclusiveAutodelete)]
                   && service.queues == old(service.queues)[source.value.id := []]
    {
      if source.None? {
        bus.Issue(Acknowledge(tag));
        return;
      }
      var accepted := service.RegisterSource(source.value.id);
      if !accepted {
        bus.Issue(Acknowledge(tag));
        return;
      }
      bus.Declare(source.value.exchange, Fanout);
      bus.AddFreshListener(source.value.exchange, NewFrame, ExclusiveAutodelete);
      bus.Issue(Acknowledge(tag));
    }

    /** The service is asked to unregister twice; the second call changes nothing. */
    method OnObsoleteSource(source: Option<Source>, tag: nat)
      requires Valid()
      modifies bus, service
      ensures Valid() && View() == Retired(old(View()), source, tag)
      ensures source.Some? ==> service.queues == old(service.queues) - {source.value.id}
      ensures if source.None? then bus.issued == old(bus.issued) + [Acknowledge(tag)]
              else if source.value.id !in old(service.queues) then bus.issued == old(bus.issued)
              else if source.value.exchange in old(bus.bound)
              then bus.issued == old(bus.issued) + [QueueUnbind(source.value.exchange,
                                                                old(bus.bound)[source.value.exchange]),
                                                    Acknowledge(tag)]
              else bus.issued == old(bus.issued) + [Acknowledge(tag)]
    {
      if source.None? {
        bus.Issue(Acknowledge(tag));
        return;
      }
      var removed := service.UnregisterSource(source.value.id);
      if !removed {
        assert service.queues == old(service.queues);
        return;
      }
      var queue := bus.GetBoundQueue(source.value.exchange);
      if queue.Some? {
        bus.Issue(QueueUnbind(source.value.exchange, queue.value));
      }
      var again := service.UnregisterSource(source.value.id);
      assert !again;
      assert service.queues == old(service.queues) - {source.value.id};
      bus.Issue(Acknowledge(tag));
    }

    /** `image` is what decoding the message body gives: an image (a blank one when the body holds
        none), or nothing when it throws. */
    method OnNewFrame(header: Option<int>, image: Option<nat>, tag: nat)
      requires Valid()
      modifies bus, service
      ensures Valid() && View() == Delivered(old(View()), header, image, tag)
      ensures bus.issued == old(bus.issued) + if header.Some? && image.None? then [] else [Acknowledge(tag)]
      ensures service.queues
           == if header.Some? && image.Some?
                 && var id := header.value % 0x1_0000_0000; id in old(service.queues) && |old(service.queues)[id]| < 30
              then var id := header.value % 0x1_0000_0000;
                   old(service.queues)[id := old(service.queues)[id] + [Image(image.value)]]
              else old(service.queues)
    {
      if header.None? {
        bus.Issue(Acknowledge(tag));
        return;
      }
      if image.None? {
        return;
      }
      var added := service.TryAddToQueue(AsUnsigned(header.value), Image(image.value));
      bus.Issue(Acknowledge(tag));
    }
  }
}
