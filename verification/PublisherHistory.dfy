/** The publishing client over whole runs: every publish follows the one declaration of its exchange. */
module PublisherHistory {
  import opened Types
  import opened MessageBus
  import opened BusHistory
  import opened Publishing

  datatype PublisherEvent =
    | Result(source: SourceId, found: seq<Detection>, usable: bool)
    | Channel(event: BusEvent)

  const FRESH_PUBLISHER := PublisherState(FRESH_BUS, map[])

  function PublisherStep(p: PublisherState, e: PublisherEvent): PublisherState {
    match e
    case Result(source, found, usable) => Published(p, source, found, usable)
    case Channel(event) => if event.Perform? then p else p.(bus := BusStep(p.bus, event))
  }

  function PublisherRun(p: PublisherState, es: seq<PublisherEvent>): PublisherState {
    if es == [] then p else PublisherStep(PublisherRun(p, es[..|es| - 1]), es[|es| - 1])
  }

  /** The sources of a run in the order of their first result. */
  function FirstSources(es: seq<PublisherEvent>): seq<SourceId> {
    if es == [] then []
    else
      var before, e := FirstSources(es[..|es| - 1]), es[|es| - 1];
      if e.Result? && e.source !in before then before + [e.source] else before
  }

  function DeclareActions(sources: seq<SourceId>): (r: seq<Action>)
    ensures |r| == |sources|
    ensures forall i :: 0 <= i < |r| ==> r[i] == DeclareExchange(ExchangeFor(sources[i]), Fanout)
  {
    if sources == [] then []
    else DeclareActions(sources[..|sources| - 1]) + [DeclareExchange(ExchangeFor(sources[|sources| - 1]), Fanout)]
  }

  ghost predicate Distinct<T>(s: seq<T>) {
    forall i, j :: 0 <= i < j < |s| ==> s[i] != s[j]
  }

  lemma DistinctSnoc(s: seq<SourceId>, x: SourceId)
    requires Distinct(s) && x !in s
    ensures Distinct(s + [x])
  {
    forall i, j | 0 <= i < j < |s + [x]| ensures (s + [x])[i] != (s + [x])[j] {
      assert s[i] in s;
    }
  }

  lemma {:induction false} FirstSourcesDistinct(es: seq<PublisherEvent>)
    ensures Distinct(FirstSources(es))
  {
    if es == [] {
    } else {
      FirstSourcesDistinct(es[..|es| - 1]);
      if es[|es| - 1].Result? && es[|es| - 1].source !in FirstSources(es[..|es| - 1]) {
        DistinctSnoc(FirstSources(es[..|es| - 1]), es[|es| - 1].source);
      }
    }
  }

  lemma DeclareSnoc(sources: seq<SourceId>, source: SourceId)
    ensures DeclareActions(sources + [source])
         == DeclareActions(sources) + [DeclareExchange(ExchangeFor(source), Fanout)]
  {
    assert (sources + [source])[..|sources|] == sources;
  }

  /** The publisher's map and its client's log agree: one declaration per declared source. */
  ghost predicate Agrees(p: PublisherState, sources: seq<SourceId>) {
    && p.bus.log == DeclareActions(sources)
    && (forall id :: id in p.declared <==> id in sources)
    && (forall id :: id in p.declared ==> p.declared[id] == ExchangeFor(id))
  }

  lemma DeclaredAgrees(p: PublisherState, source: SourceId, sources: seq<SourceId>)
    requires Agrees(p, sources)
    ensures Agrees(Declared(p, source), if source !in sources then sources + [source] else sources)
    ensures Declared(p, source).declared[source] == ExchangeFor(source)
  {
    if source !in sources {
      DeclareSnoc(sources, source);
    }
  }

  lemma ResultAgrees(p: PublisherState, source: SourceId, found: seq<Detection>, usable: bool, sources: seq<SourceId>)
    requires Agrees(Declared(p, source), sources)
    ensures Agrees(Published(p, source, found, usable), sources)
  {
  }

  lemma StepAgrees(p: PublisherState, e: PublisherEvent, sources: seq<SourceId>)
    requires Agrees(p, sources)
    ensures Agrees(PublisherStep(p, e), if e.Result? && e.source !in sources then sources + [e.source] else sources)
  {
    hide DeclareActions, Readied, Decimal;
    match e
    case Result(source, found, usable) =>
      DeclaredAgrees(p, source, sources);
      ResultAgrees(p, source, found, usable, if source !in sources then sources + [source] else sources);
    case Channel(event) =>
      if event.ChannelReady? { ReadyKeepsLog(p.bus, event.answers); }
  }

  /** In every run the client's log is one declaration per source that had a result, in order of their
      first results; restores keep it so. */
  lemma {:induction false} LogIsFirstSources(es: seq<PublisherEvent>)
    ensures Agrees(PublisherRun(FRESH_PUBLISHER, es), FirstSources(es))
  {
    if es == [] {
    } else {
      LogIsFirstSources(es[..|es| - 1]);
      StepAgrees(PublisherRun(FRESH_PUBLISHER, es[..|es| - 1]), es[|es| - 1], FirstSources(es[..|es| - 1]));
    }
  }

  // ----- publish after declare -----

  /** The command at position `i`, if it publishes, follows a declaration of its exchange. */
  ghost predicate Preceded(issued: seq<Command>, i: nat)
    requires i < |issued|
  {
    issued[i].Publish? ==> exists j :: 0 <= j < i && issued[j] == ExchangeDeclare(issued[i].exchange, Fanout)
  }

  ghost predicate AllPreceded(issued: seq<Command>) {
    forall i :: 0 <= i < |issued| ==> Preceded(issued, i)
  }

  /** Every declared exchange has been declared on the channel at some point. */
  ghost predicate AllDeclared(p: PublisherState) {
    forall id :: id in p.declared ==> ExchangeDeclare(p.declared[id], Fanout) in p.bus.issued
  }

  lemma PrecededConcat(a: seq<Command>, b: seq<Command>)
    requires AllPreceded(a) && forall c :: c in b ==> !c.Publish?
    ensures AllPreceded(a + b)
  {
    forall i | 0 <= i < |a + b| ensures Preceded(a + b, i) {
      if i < |a| {
        assert Preceded(a, i);
        if a[i].Publish? {
          var j :| 0 <= j < i && a[j] == ExchangeDeclare(a[i].exchange, Fanout);
          assert (a + b)[j] == a[j];
        }
      } else {
        assert (a + b)[i] in b;
      }
    }
  }

  lemma PrecededPublish(a: seq<Command>, exchange: string, found: seq<Detection>)
    requires AllPreceded(a) && ExchangeDeclare(exchange, Fanout) in a
    ensures AllPreceded(a + [Publish(exchange, found)])
  {
    var all := a + [Publish(exchange, found)];
    var d :| 0 <= d < |a| && a[d] == ExchangeDeclare(exchange, Fanout);
    assert all[d] == a[d];
    forall i | 0 <= i < |all| ensures Preceded(all, i) {
      if i < |a| {
        assert Preceded(a, i);
        if a[i].Publish? {
          var j :| 0 <= j < i && a[j] == ExchangeDeclare(a[i].exchange, Fanout);
          assert all[j] == a[j];
        }
      }
    }
  }

  lemma DeclaredOnce(p: PublisherState, source: SourceId)
    requires AllPreceded(p.bus.issued) && AllDeclared(p)
    ensures var d := Declared(p, source);
            AllPreceded(d.bus.issued) && AllDeclared(d) && source in d.declared
  {
    if source !in p.declared {
      var added := [ExchangeDeclare(ExchangeFor(source), Fanout)];
      PrecededConcat(p.bus.issued, added);
      assert added[0] in p.bus.issued + added;
    }
  }

  lemma StepPreceded(p: PublisherState, e: PublisherEvent)
    requires AllPreceded(p.bus.issued) && AllDeclared(p)
    ensures AllPreceded(PublisherStep(p, e).bus.issued) && AllDeclared(PublisherStep(p, e))
  {
    match e
    case Result(source, found, usable) =>
      DeclaredOnce(p, source);
      if usable {
        var d := Declared(p, source);
        PrecededPublish(d.bus.issued, d.declared[source], found);
      }
    case Channel(event) =>
      if !event.Perform? {
        var added := ChannelAdds(p.bus, event);
        PrecededConcat(p.bus.issued, added);
      }
  }

  lemma {:induction false} AlwaysPreceded(es: seq<PublisherEvent>)
    ensures var p := PublisherRun(FRESH_PUBLISHER, es);
            AllPreceded(p.bus.issued) && AllDeclared(p)
  {
    if es == [] {
    } else {
      AlwaysPreceded(es[..|es| - 1]);
      StepPreceded(PublisherRun(FRESH_PUBLISHER, es[..|es| - 1]), es[|es| - 1]);
    }
  }

  // ----- which results are published -----

  function Publishes(issued: seq<Command>): seq<Command> {
    if issued == [] then []
    else Publishes(issued[..|issued| - 1])
         + (if issued[|issued| - 1].Publish? then [issued[|issued| - 1]] else [])
  }

  /** One publish per result that met a usable channel, on the exchange of its source. */
  function Expected(es: seq<PublisherEvent>): seq<Command> {
    if es == [] then []
    else
      var e := es[|es| - 1];
      Expected(es[..|es| - 1]) + (if e.Result? && e.usable then [Publish(ExchangeFor(e.source), e.found)] else [])
  }

  lemma PublishesSnoc(issued: seq<Command>, c: Command)
    ensures Publishes(issued + [c]) == Publishes(issued) + if c.Publish? then [c] else []
  {
    assert (issued + [c])[..|issued|] == issued;
  }

  lemma {:induction false} PublishesNone(issued: seq<Command>, added: seq<Command>)
    requires forall c :: c in added ==> !c.Publish?
    ensures Publishes(issued + added) == Publishes(issued)
  {
    if added == [] {
      assert issued + added == issued;
    } else {
      PublishesNone(issued, added[..|added| - 1]);
      assert issued + added == (issued + added[..|added| - 1]) + [added[|added| - 1]];
      PublishesSnoc(issued + added[..|added| - 1], added[|added| - 1]);
    }
  }

  lemma PublishesOfResult(p: PublisherState, source: SourceId, found: seq<Detection>, usable: bool,
                          sources: seq<SourceId>)
    requires Agrees(p, sources)
    ensures Publishes(Published(p, source, found, usable).bus.issued)
         == Publishes(p.bus.issued) + if usable then [Publish(ExchangeFor(source), found)] else []
  {
    var d := Declared(p, source);
    DeclaredAgrees(p, source, sources);
    assert Publishes(d.bus.issued) == Publishes(p.bus.issued) by {
      PublishesSnoc(p.bus.issued, ExchangeDeclare(ExchangeFor(source), Fanout));
    }
    if usable {
      PublishesSnoc(d.bus.issued, Publish(ExchangeFor(source), found));
    }
  }

  /** In every run the published commands are, in order, exactly the results that met a usable channel,
      each on its source's own exchange; replays publish nothing again. */
  lemma {:induction false} PublishesExactly(es: seq<PublisherEvent>)
    ensures Publishes(PublisherRun(FRESH_PUBLISHER, es).bus.issued) == Expected(es)
  {
    if es == [] {
    } else {
      var before, e := es[..|es| - 1], es[|es| - 1];
      var p := PublisherRun(FRESH_PUBLISHER, before);
      PublishesExactly(before);
      match e
      case Result(source, found, usable) =>
        LogIsFirstSources(before);
        PublishesOfResult(p, source, found, usable, FirstSources(before));
      case Channel(event) =>
        if !event.Perform? {
          var added := ChannelAdds(p.bus, event);
          PublishesNone(p.bus.issued, added);
        }
    }
  }

  // ----- declarations on the present channel -----

  /** The exchange has been declared on the channel that is open now. */
  predicate DeclaredHere(b: BusState, exchange: string) {
    b.channelStart <= |b.issued| && ExchangeDeclare(exchange, Fanout) in b.issued[b.channelStart..]
  }

  /** The client is in the error state after this run. */
  predicate InError(es: seq<PublisherEvent>) { PublisherRun(FRESH_PUBLISHER, es).bus.inError }

  /** After `before` the event opens a new channel. */
  predicate OpensChannel(before: seq<PublisherEvent>, e: BusEvent) {
    e.Reconnect? && e.connected && !e.usable && InError(before)
  }

  /** After `before` the event replays the log. */
  predicate Replays(before: seq<PublisherEvent>, e: BusEvent) {
    e.ChannelReady? && e.answers != [] && InError(before)
  }

  /** Since the present channel was opened the source had its first result, or it had had one and a ready
      handler replayed the log. */
  predicate Introduced(es: seq<PublisherEvent>, source: SourceId) {
    es != []
    && var before, last := es[..|es| - 1], es[|es| - 1];
       match last
       case Result(other, found, usable) =>
         Introduced(before, source) || (other == source && source !in FirstSources(before))
       case Channel(e) =>
         !OpensChannel(before, e)
         && (Introduced(before, source) || (Replays(before, e) && source in FirstSources(before)))
  }

  lemma InTail(issued: seq<Command>, added: seq<Command>, from: nat, c: Command)
    requires from <= |issued|
    ensures c in (issued + added)[from..] <==> c in issued[from..] || c in added
  {
    assert (issued + added)[from..] == issued[from..] + added;
  }

  lemma {:induction false} DeclaredByReplay(sources: seq<SourceId>, source: SourceId)
    ensures ExchangeDeclare(ExchangeFor(source), Fanout) in CommandsOf(DeclareActions(sources)) <==> source in sources
  {
    if sources == [] {
    } else {
      var n := |sources| - 1;
      DeclaredByReplay(sources[..n], source);
      var log := DeclareActions(sources);
      assert log[..n] == DeclareActions(sources[..n]);
      if ExchangeFor(sources[n]) == ExchangeFor(source) {
        NamesDistinct(PREFIX, sources[n], source);
      }
      assert source in sources <==> source in sources[..n] || source == sources[n];
    }
  }

  lemma {:induction false} InRepeated(commands: seq<Command>, times: nat, c: Command)
    ensures c in Repeated(commands, times) <==> times > 0 && c in commands
  {
    if times == 0 {
    } else {
      InRepeated(commands, times - 1, c);
    }
  }

  lemma ReplayDeclares(b: BusState, answers: seq<bool>, sources: seq<SourceId>, source: SourceId)
    requires b.log == DeclareActions(sources) && b.channelStart <= |b.issued|
    ensures var exchange, t := ExchangeFor(source), Readied(b, answers);
            && t.channelStart == b.channelStart <= |t.issued|
            && (DeclaredHere(t, exchange)
                <==> DeclaredHere(b, exchange) || (b.inError && answers != [] && source in sources))
  {
    if b.inError {
      var commands := CommandsOf(b.log);
      var replay := Repeated(commands, Passes(answers));
      ReplayIsExact(b.(ready := true), answers);
      ReplayKeepsStart(b.(ready := true), answers);
      InTail(b.issued, replay, b.channelStart, ExchangeDeclare(ExchangeFor(source), Fanout));
      InRepeated(commands, Passes(answers), ExchangeDeclare(ExchangeFor(source), Fanout));
      DeclaredByReplay(sources, source);
      if answers != [] { PassMade(answers); }
    }
  }

  lemma {:induction false} ReplayKeepsStart(b: BusState, answers: seq<bool>)
    ensures RestoredWhileInError(b, answers).channelStart == b.channelStart
    decreases |answers|
  {
    if b.inError && answers != [] {
      ReplayKeepsStart(Restored(b, answers[0]), answers[1..]);
    }
  }

  /** What a result, or any other event of the channel, adds to the declarations on it. */
  lemma ResultDeclares(p: PublisherState, other: SourceId, found: seq<Detection>, usable: bool,
                       sources: seq<SourceId>, source: SourceId)
    requires Agrees(p, sources) && p.bus.channelStart <= |p.bus.issued|
    ensures var exchange, t := ExchangeFor(source), Published(p, other, found, usable).bus;
            && t.channelStart == p.bus.channelStart <= |t.issued|
            && (DeclaredHere(t, exchange)
                <==> DeclaredHere(p.bus, exchange) || (other == source && source !in sources))
  {
    var c := ExchangeDeclare(ExchangeFor(source), Fanout);
    var declare := if other in p.declared then [] else [ExchangeDeclare(ExchangeFor(other), Fanout)];
    var publish := if usable then [Publish(Declared(p, other).declared[other], found)] else [];
    assert Published(p, other, found, usable).bus.issued == p.bus.issued + (declare + publish);
    InTail(p.bus.issued, declare + publish, p.bus.channelStart, c);
    if c in declare {
      NamesDistinct(PREFIX, other, source);
    }
  }

  lemma ReplyDeclares(b: BusState, name: string, exchange: string)
    requires b.channelStart <= |b.issued|
    ensures var t := Answered(b, name);
            t.channelStart == b.channelStart <= |t.issued| && (DeclaredHere(t, exchange) <==> DeclaredHere(b, exchange))
  {
    if b.awaiting != [] {
      InTail(b.issued, [QueueBind(b.awaiting[0].exchange, name), Consume(name, b.awaiting[0].callback)],
             b.channelStart, ExchangeDeclare(exchange, Fanout));
    }
  }

  /** In every run a source's exchange has been declared on the present channel exactly when the source
      has been introduced since that channel was opened. */
  lemma {:induction false} DeclaredWhenIntroduced(es: seq<PublisherEvent>, source: SourceId)
    ensures var b := PublisherRun(FRESH_PUBLISHER, es).bus;
            && b.channelStart <= |b.issued|
            && (DeclaredHere(b, ExchangeFor(source)) <==> Introduced(es, source))
  {
    if es == [] {
    } else {
      var before, last := es[..|es| - 1], es[|es| - 1];
      var p := PublisherRun(FRESH_PUBLISHER, before);
      DeclaredWhenIntroduced(before, source);
      LogIsFirstSources(before);
      match last
      case Result(other, found, usable) => ResultDeclares(p, other, found, usable, FirstSources(before), source);
      case Channel(e) => ChannelDeclares(before, p, e, source);
    }
  }

  lemma ChannelDeclares(before: seq<PublisherEvent>, p: PublisherState, e: BusEvent, source: SourceId)
    requires p == PublisherRun(FRESH_PUBLISHER, before) && Agrees(p, FirstSources(before))
    requires p.bus.channelStart <= |p.bus.issued|
    ensures var b, t := p.bus, PublisherStep(p, Channel(e)).bus;
            && t.channelStart <= |t.issued|
            && (DeclaredHere(t, ExchangeFor(source))
                <==> !OpensChannel(before, e)
                     && (DeclaredHere(b, ExchangeFor(source))
                         || (Replays(before, e) && source in FirstSources(before))))
  {
    hide FirstSources, Readied, Answered, ExchangeFor;
    match e
    case ChannelReady(answers) => ReplayDeclares(p.bus, answers, FirstSources(before), source);
    case Reply(name) => ReplyDeclares(p.bus, name, ExchangeFor(source));
    case _ =>
  }

  /** After any run, a result that meets a usable channel is published last of all, and a declaration of
      its exchange on the same channel precedes it exactly when this is the source's first result or the
      source has been introduced since the channel was opened. */
  lemma PublishesOnOwnChannel(es: seq<PublisherEvent>, source: SourceId, found: seq<Detection>)
    ensures var b := PublisherRun(FRESH_PUBLISHER, es + [Result(source, found, true)]).bus;
            && b.issued != [] && b.issued[|b.issued| - 1] == Publish(ExchangeFor(source), found)
            && (DeclaredHere(b, ExchangeFor(source)) <==> source !in FirstSources(es) || Introduced(es, source))
  {
    var all := es + [Result(source, found, true)];
    assert all[..|all| - 1] == es;
    LogIsFirstSources(es);
    DeclaredAgrees(PublisherRun(FRESH_PUBLISHER, es), source, FirstSources(es));
    DeclaredWhenIntroduced(all, source);
  }

  /** Outside the error state every source that ever had a result has been introduced on the present
      channel: so nothing is then published before its exchange is declared there. */
  lemma {:induction false} IntroducedOutsideError(es: seq<PublisherEvent>, source: SourceId)
    requires !InError(es) && source in FirstSources(es)
    ensures Introduced(es, source)
  {
    var before, last := es[..|es| - 1], es[|es| - 1];
    var p := PublisherRun(FRESH_PUBLISHER, before);
    if last.Channel? && InError(before) {
      ErrorEndsWithFullReplay(p.bus, last.event);
    } else if source in FirstSources(before) {
      assert !InError(before);
      IntroducedOutsideError(before, source);
    }
  }

  /** In the error state it can happen: after a result, an error and a reconnection the next result of
      the source is published on a channel that knows nothing of its exchange. */
  lemma DeclarationLost()
    ensures var es := [Result(7, [], true), Channel(ChannelError), Channel(Reconnect(true, false))];
            var b := PublisherRun(FRESH_PUBLISHER, es + [Result(7, [], true)]).bus;
            && b.issued != [] && b.issued[|b.issued| - 1] == Publish(ExchangeFor(7), [])
            && !DeclaredHere(b, ExchangeFor(7))
  {
    var es := [Result(7, [], true), Channel(ChannelError), Channel(Reconnect(true, false))];
    assert es[..2][..1] == es[..1] && es[..1][..0] == [];
    assert FirstSources(es[..1]) == [7] && FirstSources(es[..2]) == [7];
    assert InError(es[..2]);
    assert !Introduced(es, 7);
    PublishesOnOwnChannel(es, 7, []);
  }

  /** Publish after declare, across reconnects: in every run, every result for `source` is published to
      that source's own exchange, a command declaring this exchange was issued before it, and the log
      holds exactly one declaration of it, which every restore therefore repeats exactly once. */
  lemma PublishAfterDeclare(es: seq<PublisherEvent>, source: SourceId)
    requires exists e :: e in es && e.Result? && e.source == source
    ensures var p := PublisherRun(FRESH_PUBLISHER, es);
            && source in p.declared && p.declared[source] == ExchangeFor(source)
            && (exists i :: 0 <= i < |p.bus.log| && p.bus.log[i] == DeclareExchange(ExchangeFor(source), Fanout))
            && Distinct(p.bus.log)
            && AllPreceded(p.bus.issued)
  {
    var p, sources := PublisherRun(FRESH_PUBLISHER, es), FirstSources(es);
    LogIsFirstSources(es);
    AlwaysPreceded(es);
    SourcesSeen(es, source);
    var k :| 0 <= k < |sources| && sources[k] == source;
    assert p.bus.log[k] == DeclareExchange(ExchangeFor(source), Fanout);
    FirstSourcesDistinct(es);
    forall i, j | 0 <= i < j < |p.bus.log| ensures p.bus.log[i] != p.bus.log[j] {
      NamesDistinct(PREFIX, sources[i], sources[j]);
    }
  }

  lemma {:induction false} SourcesSeen(es: seq<PublisherEvent>, source: SourceId)
    ensures source in FirstSources(es) <==> exists e :: e in es && e.Result? && e.source == source
  {
    if es == [] {
    } else {
      var before, last := es[..|es| - 1], es[|es| - 1];
      SourcesSeen(before, source);
      assert forall e :: e in es <==> e in before || e == last;
    }
  }
}
