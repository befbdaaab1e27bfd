/** The data publisher: it declares a source's exchange the first time it publishes for that source. */
module Publishing {
  import opened Types
  import opened Services
  import opened MessageBus

  // ----- exchange names -----

  const PREFIX := "detection-results-"

  /** The decimal rendering of an id. */
  function Decimal(n: nat): (s: string)
    ensures s != []
  {
    if n < 10 then [('0' as int + n) as char] else Decimal(n / 10) + [('0' as int + n % 10) as char]
  }

  /** The number a decimal string denotes. */
  function Denoted(s: string): int {
    if s == [] then 0 else 10 * Denoted(s[..|s| - 1]) + (s[|s| - 1] as int - '0' as int)
  }

  lemma {:induction false} DecimalDenotes(n: nat)
    ensures Denoted(Decimal(n)) == n
  {
    var s := Decimal(n);
    if n < 10 {
      assert s[..0] == [];
    } else {
      DecimalDenotes(n / 10);
      assert s[..|s| - 1] == Decimal(n / 10);
    }
  }

  /** Digits only, and no leading zero. */
  lemma {:induction false} DecimalCanonical(n: nat)
    ensures forall i :: 0 <= i < |Decimal(n)| ==> '0' <= Decimal(n)[i] <= '9'
    ensures Decimal(n)[0] == '0' <==> n == 0
    ensures Decimal(0) == "0"
  {
    if n < 10 {
    } else {
      DecimalCanonical(n / 10);
    }
  }

  function ExchangeName(prefix: string, source: SourceId): string { prefix + Decimal(source) }

  /** The exchange of a source's detections. */
  function ExchangeFor(source: SourceId): string { ExchangeName(PREFIX, source) }

  lemma ExchangeOfSource42()
    ensures ExchangeFor(42) == "detection-results-42"
  {
    assert Decimal(4) == "4" && Decimal(42) == Decimal(4) + "2";
  }

  /** Under any prefix distinct sources get distinct exchanges. */
  lemma NamesDistinct(prefix: string, a: SourceId, b: SourceId)
    ensures ExchangeName(prefix, a) == ExchangeName(prefix, b) ==> a == b
  {
    assert ExchangeName(prefix, a)[|prefix|..] == Decimal(a) && ExchangeName(prefix, b)[|prefix|..] == Decimal(b);
    DecimalDenotes(a);
    DecimalDenotes(b);
  }

  // ----- specification -----

  datatype PublisherState = PublisherState(bus: BusState, declared: map<SourceId, string>)

  /** The exchange is declared in any case; the name remembered first stays. */
  function DeclaredAs(p: PublisherState, source: SourceId, prefix: string): PublisherState {
    PublisherState(Performed(p.bus, DeclareExchange(ExchangeName(prefix, source), Fanout)),
                   if source in p.declared then p.declared
                   else p.declared[source := ExchangeName(prefix, source)])
  }

  function Declared(p: PublisherState, source: SourceId): PublisherState {
    if source in p.declared then p else DeclaredAs(p, source, PREFIX)
  }

  /** Declare on first use, then publish if the channel is usable. */
  function Published(p: PublisherState, source: SourceId, found: seq<Detection>, usable: bool): PublisherState {
    var d := Declared(p, source);
    if usable then d.(bus := d.bus.(issued := d.bus.issued + [Publish(d.declared[source], found)])) else d
  }

  // ----- the code -----

  class DataPublisher {
    const client: MessageBusClient
    var declaredExchanges: map<SourceId, string>

    constructor (client: MessageBusClient)
      ensures this.client == client && declaredExchanges == map[]
    {
      this.client := client;
      declaredExchanges := map[];
    }

    ghost function State(): PublisherState
      reads this, client, client.actions
    {
      PublisherState(client.State(), declaredExchanges)
    }

    method IsDeclared(source: SourceId) returns (declared: bool)
      ensures declared <==> source in declaredExchanges
    {
      declared := source in declaredExchanges;
    }

    method DeclareFor(source: SourceId, prefix: string)
      modifies this, client, client.actions
      ensures State() == DeclaredAs(old(State()), source, prefix)
      ensures client.issued == old(client.issued) + [ExchangeDeclare(prefix + Decimal(source), Fanout)]
      ensures source in declaredExchanges
           && (source !in old(declaredExchanges) ==> declaredExchanges[source] == prefix + Decimal(source))
    {
      var exchange := prefix + Decimal(source);
      client.Declare(exchange, Fanout);
      if source !in declaredExchanges {
        declaredExchanges := declaredExchanges[source := exchange];
      }
    }

    /** `usable` is the channel's answer, `accepted` that of its publish call. */
    method Publish(source: SourceId, found: seq<Detection>, usable: bool, accepted: bool) returns (sent: bool)
      modifies this, client, client.actions
      ensures State() == Published(old(State()), source, found, usable)
      ensures source in declaredExchanges
           && (usable ==> client.issued != []
                          && client.issued[|client.issued| - 1] == MessageBus.Publish(declaredExchanges[source], found))
      ensures sent <==> usable && accepted
    {
      var declared := IsDeclared(source);
      if !declared {
        DeclareFor(source, PREFIX);
      }
      if usable {
        client.Issue(MessageBus.Publish(declaredExchanges[source], found));
      }
      return usable && accepted;
    }

    /** The overload with a limit publishes every detection and always reports success. */
    method PublishLimited(source: SourceId, found: seq<Detection>, limit: nat, usable: bool, accepted: bool)
      returns (sent: bool)
      modifies this, client, client.actions
      ensures State() == Published(old(State()), source, found, usable)
      ensures sent
    {
      if found == [] {
        var ignored := Publish(source, [], usable, accepted);
      } else {
        var ignored := Publish(source, found, usable, accepted);
      }
      return true;
    }
  }

  /** The processing service: its loop publishes the head of the result queue and then pops it. */
  class ProcessingService {
    const queue: ResultQueue
    var publisher: DataPublisher?

    constructor (queue: ResultQueue)
      ensures this.queue == queue && publisher == null
    {
      this.queue := queue;
      publisher := null;
    }

    method SetDataPublisher(publisher: DataPublisher)
      modifies this
      ensures this.publisher == publisher
    {
      this.publisher := publisher;
    }

    /** One pass of the loop. Without a publisher the head is popped unpublished. */
    method RunOnce(usable: bool, accepted: bool)
      modifies queue
      modifies publisher, if publisher == null then {} else {publisher.client}
      modifies if publisher == null then {} else {publisher.client.actions}
      ensures queue.results == if old(queue.results) == [] then [] else old(queue.results)[1..]
      ensures publisher != null ==>
        publisher.State() == if old(queue.results) == [] then old(publisher.State())
                             else Published(old(publisher.State()), old(queue.results)[0].source,
                                            old(queue.results)[0].found, usable)
      ensures publisher != null && old(queue.results) != [] && usable ==>
                var issued := publisher.client.issued;
                issued != [] && issued[|issued| - 1].Publish?
                && issued[|issued| - 1].found == old(queue.results)[0].found
    {
      if queue.results == [] {
        return;
      }
      var front := queue.results[0];
      if publisher != null {
        var sent := publisher.PublishLimited(front.source, front.found, 5, usable, accepted);
      }
      queue.results := queue.results[1..];
    }
  }
}
