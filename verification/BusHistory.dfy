/** The action log over whole runs of calls, channel errors, reconnections and restores. */
module BusHistory {
  import opened MessageBus

  datatype BusEvent =
    | Perform(action: Action)
    | ChannelError
    | ChannelReady(answers: seq<bool>)
    | Reconnect(connected: bool, usable: bool)
    | Reply(name: string)

  function BusStep(s: BusState, e: BusEvent): BusState {
    match e
    case Perform(action) => Performed(s, action)
    case ChannelError => s.(inError := true, ready := false)
    case ChannelReady(answers) => Readied(s, answers)
    case Reconnect(connected, usable) => Reconnected(s, connected, usable)
    case Reply(name) => Answered(s, name)
  }

  function BusRun(s: BusState, es: seq<BusEvent>): BusState {
    if es == [] then s else BusStep(BusRun(s, es[..|es| - 1]), es[|es| - 1])
  }

  /** How many passes a ready handler makes: up to the first usable answer. */
  function Passes(usable: seq<bool>): nat {
    if usable == [] then 0 else if usable[0] then 1 else 1 + Passes(usable[1..])
  }

  function Repeated(commands: seq<Command>, times: nat): seq<Command> {
    if times == 0 then [] else commands + Repeated(commands, times - 1)
  }

  /** Any number of restore passes leaves the log as it was; every pass issues exactly the logged
      commands in order; the error state ends exactly when some pass found the channel usable. */
  lemma {:induction false} ReplayIsExact(s: BusState, usable: seq<bool>)
    requires s.ready && s.inError
    ensures var t := RestoredWhileInError(s, usable);
            && t.log == s.log
            && t.issued == s.issued + Repeated(CommandsOf(s.log), Passes(usable))
            && t.ready
            && (t.inError <==> true !in usable)
    decreases |usable|
  {
    hide CommandsOf, RequestsOfAll;
    if usable == [] {
    } else {
      var next := Restored(s, usable[0]);
      if usable[0] {
        assert RestoredWhileInError(next, usable[1..]) == next;
        assert Repeated(CommandsOf(s.log), 1) == CommandsOf(s.log) + Repeated(CommandsOf(s.log), 0);
        assert usable[0] in usable;
      } else {
        ReplayIsExact(next, usable[1..]);
        assert forall b :: b in usable ==> b == usable[0] || b in usable[1..];
      }
    }
  }

  lemma ReadyKeepsLog(s: BusState, usable: seq<bool>)
    ensures Readied(s, usable).log == s.log
  {
    if s.inError {
      ReplayIsExact(s.(ready := true), usable);
    }
  }

  /** The declares and listens of a run, in order. */
  function Recorded(es: seq<BusEvent>): seq<Action> {
    if es == [] then []
    else Recorded(es[..|es| - 1]) + (if es[|es| - 1].Perform? then [es[|es| - 1].action] else [])
  }

  /** In every run the log is the initial log followed by the calls made, once each and in order:
      errors, reconnections and replays neither add to it nor lose anything. */
  lemma {:induction false} LogIsRecorded(s: BusState, es: seq<BusEvent>)
    ensures BusRun(s, es).log == s.log + Recorded(es)
  {
    if es == [] {
    } else {
      var before := es[..|es| - 1];
      LogIsRecorded(s, before);
      match es[|es| - 1]
      case ChannelReady(answers) => ReadyKeepsLog(BusRun(s, before), answers);
      case _ =>
    }
  }

  lemma {:induction false} RepeatedEnds(commands: seq<Command>, times: nat)
    requires times > 0
    ensures |Repeated(commands, times)| >= |commands|
    ensures Repeated(commands, times)[|Repeated(commands, times)| - |commands|..] == commands
  {
    if times > 1 {
      RepeatedEnds(commands, times - 1);
      var rest := Repeated(commands, times - 1);
      assert (commands + rest)[|commands + rest| - |commands|..] == rest[|rest| - |commands|..];
    } else {
      assert Repeated(commands, 0) == [];
    }
  }

  lemma PassMade(usable: seq<bool>)
    requires usable != []
    ensures Passes(usable) > 0
  {
  }

  /** The error state is left only by a ready handler that found the channel usable, and then the last
      commands issued are a full replay of the log. */
  lemma ErrorEndsWithFullReplay(s: BusState, e: BusEvent)
    requires s.inError && !BusStep(s, e).inError
    ensures var t := BusStep(s, e);
            && e.ChannelReady? && true in e.answers && t.ready && t.log == s.log
            && |s.issued| + |s.log| <= |t.issued|
            && t.issued[|t.issued| - |s.log|..] == CommandsOf(s.log)
  {
    match e
    case ChannelReady(answers) =>
      ReplayIsExact(s.(ready := true), answers);
      PassMade(answers);
      RepeatedEnds(CommandsOf(s.log), Passes(answers));
      var replay := Repeated(CommandsOf(s.log), Passes(answers));
      assert (s.issued + replay)[|s.issued + replay| - |s.log|..] == replay[|replay| - |s.log|..];
    case _ =>
  }

  // ----- what is not recorded is not replayed -----

  /** Declarations, bindings and consumers only. */
  predicate SetsUp(c: Command) { !c.Publish? && !c.Acknowledge? && !c.QueueUnbind? }

  lemma {:induction false} ReplaySetsUp(log: seq<Action>, c: Command)
    ensures c in CommandsOf(log) ==> SetsUp(c)
  {
    if log == [] {
    } else {
      ReplaySetsUp(log[..|log| - 1], c);
    }
  }

  /** What a ready handler adds to the issued commands. */
  lemma {:induction false} ReplaysAdd(s: BusState, usable: seq<bool>) returns (added: seq<Command>)
    ensures RestoredWhileInError(s, usable).issued == s.issued + added
    ensures forall c :: c in added ==> SetsUp(c)
    decreases |usable|
  {
    if !s.inError || usable == [] {
      added := [];
    } else {
      var once := if s.ready then CommandsOf(s.log) else [];
      var rest := ReplaysAdd(Restored(s, usable[0]), usable[1..]);
      added := once + rest;
      forall c | c in added ensures SetsUp(c) {
        ReplaySetsUp(s.log, c);
      }
    }
  }

  /** What any event of the channel adds to them. */
  lemma ChannelAdds(s: BusState, e: BusEvent) returns (added: seq<Command>)
    requires !e.Perform?
    ensures BusStep(s, e).issued == s.issued + added
    ensures forall c :: c in added ==> SetsUp(c)
  {
    added := [];
    match e
    case ChannelReady(usable) => added := ReplaysAdd(s.(ready := true), usable);
    case Reply(name) =>
      if s.awaiting != [] {
        added := [QueueBind(s.awaiting[0].exchange, name), Consume(name, s.awaiting[0].callback)];
      }
    case _ =>
  }

  // ----- which listener a reply serves -----

  predicate InError(es: seq<BusEvent>) { BusRun(FRESH_BUS, es).inError }

  predicate OpensChannel(before: seq<BusEvent>, e: BusEvent) {
    e.Reconnect? && e.connected && !e.usable && InError(before)
  }

  function RepeatedActions(actions: seq<Action>, times: nat): seq<Action> {
    if times == 0 then [] else actions + RepeatedActions(actions, times - 1)
  }

  function Listens(actions: seq<Action>): seq<Action> {
    if actions == [] then []
    else
      var last := actions[|actions| - 1];
      Listens(actions[..|actions| - 1]) + if last.DeclareExchange? then [] else [last]
  }

  /** The listen calls made on the present channel, replayed ones included. */
  function ListensHere(es: seq<BusEvent>): seq<Action> {
    if es == [] then []
    else
      var before, e := es[..|es| - 1], es[|es| - 1];
      match e
      case Perform(action) => ListensHere(before) + Listens([action])
      case ChannelReady(answers) =>
        ListensHere(before)
        + if InError(before) then Listens(RepeatedActions(Recorded(before), Passes(answers))) else []
      case _ => if OpensChannel(before, e) then [] else ListensHere(before)
  }

  /** How many of them the broker has answered. */
  function RepliesHere(es: seq<BusEvent>): nat {
    if es == [] then 0
    else
      var before, e := es[..|es| - 1], es[|es| - 1];
      if OpensChannel(before, e) then 0
      else RepliesHere(before) + if e.Reply? && RepliesHere(before) < |ListensHere(before)| then 1 else 0
  }

  /** The requests stand for these listen calls, one each, in order. */
  predicate StandFor(requests: seq<Request>, listens: seq<Action>) {
    && |requests| == |listens|
    && forall i :: 0 <= i < |requests| ==>
         !listens[i].DeclareExchange?
         && requests[i].exchange == listens[i].exchange && requests[i].callback == listens[i].callback
  }

  lemma StandForConcat(a: seq<Request>, b: seq<Request>, l: seq<Action>, m: seq<Action>)
    requires StandFor(a, l) && StandFor(b, m)
    ensures StandFor(a + b, l + m)
  {
  }

  lemma ListensOne(a: Action)
    ensures Listens([a]) == (if a.DeclareExchange? then [] else [a]) && StandFor(RequestsOf(a), Listens([a]))
  {
    assert [a][..0] == [];
  }

  lemma {:induction false} ListensConcat(a: seq<Action>, b: seq<Action>)
    ensures Listens(a + b) == Listens(a) + Listens(b)
  {
    if b == [] {
      assert a + b == a;
    } else {
      ListensConcat(a, b[..|b| - 1]);
      assert (a + b)[..|a + b| - 1] == a + b[..|b| - 1];
    }
  }

  lemma {:induction false} RequestsStandFor(log: seq<Action>)
    ensures StandFor(RequestsOfAll(log), Listens(log))
  {
    if log == [] {
    } else {
      var last := log[|log| - 1];
      RequestsStandFor(log[..|log| - 1]);
      ListensOne(last);
      StandForConcat(RequestsOfAll(log[..|log| - 1]), RequestsOf(last), Listens(log[..|log| - 1]), Listens([last]));
    }
  }

  /** Every pass of a ready handler asks once more for what the log asks for. */
  lemma {:induction false} ReplayAsks(s: BusState, answers: seq<bool>) returns (added: seq<Request>)
    requires s.ready
    ensures RestoredWhileInError(s, answers).awaiting == s.awaiting + added
    ensures s.inError ==> StandFor(added, Listens(RepeatedActions(s.log, Passes(answers))))
    ensures !s.inError ==> added == []
    decreases |answers|
  {
    if !s.inError || answers == [] {
      added := [];
    } else {
      var next := Restored(s, answers[0]);
      var rest := ReplayAsks(next, answers[1..]);
      RequestsStandFor(s.log);
      added := RequestsOfAll(s.log) + rest;
      var others := if answers[0] then [] else RepeatedActions(s.log, Passes(answers[1..]));
      assert RepeatedActions(s.log, Passes(answers)) == s.log + others;
      ListensConcat(s.log, others);
      StandForConcat(RequestsOfAll(s.log), rest, Listens(s.log), Listens(others));
    }
  }

  lemma MoreAwaited(awaiting: seq<Request>, listens: seq<Action>, replies: nat, added: seq<Request>, more: seq<Action>)
    requires replies <= |listens| && StandFor(awaiting, listens[replies..]) && StandFor(added, more)
    ensures StandFor(awaiting + added, (listens + more)[replies..])
  {
    StandForConcat(awaiting, added, listens[replies..], more);
    assert (listens + more)[replies..] == listens[replies..] + more;
  }

  lemma ReadyAwaits(before: seq<BusEvent>, answers: seq<bool>) returns (added: seq<Request>)
    ensures var s := BusRun(FRESH_BUS, before);
            var more := if s.inError then Listens(RepeatedActions(Recorded(before), Passes(answers))) else [];
            Readied(s, answers).awaiting == s.awaiting + added && StandFor(added, more)
  {
    hide BusRun, Listens, RestoredWhileInError;
    var s := BusRun(FRESH_BUS, before);
    LogIsRecorded(FRESH_BUS, before);
    assert FRESH_BUS.log + Recorded(before) == Recorded(before);
    added := ReplayAsks(s.(ready := true), answers);
    NothingAwaited();
  }

  /** In every run the outstanding requests stand for the listen calls made on the present channel that
      have not been answered, oldest first. */
  lemma {:induction false} AwaitedInOrder(es: seq<BusEvent>)
    ensures RepliesHere(es) <= |ListensHere(es)|
    ensures StandFor(BusRun(FRESH_BUS, es).awaiting, ListensHere(es)[RepliesHere(es)..])
  {
    hide StandFor, Listens, RequestsOf, RequestsOfAll, CommandsOf, CommandOf, Recorded, Readied, RepeatedActions;
    if es == [] {
      NothingAwaited();
    } else {
      var before, e := es[..|es| - 1], es[|es| - 1];
      var awaiting, l, r := BusRun(FRESH_BUS, before).awaiting, ListensHere(before), RepliesHere(before);
      AwaitedInOrder(before);
      match e
      case Perform(action) =>
        ListensOne(action);
        MoreAwaited(awaiting, l, r, RequestsOf(action), Listens([action]));
      case ChannelReady(answers) =>
        var added := ReadyAwaits(before, answers);
        MoreAwaited(awaiting, l, r, added, if InError(before)
                                           then Listens(RepeatedActions(Recorded(before), Passes(answers))) else []);
      case Reply(name) => ReplyTakesFirst(awaiting, l, r);
      case _ => NothingAwaited();
    }
  }

  lemma NothingAwaited()
    ensures StandFor([], [])
  {
  }

  lemma ReplyTakesFirst(awaiting: seq<Request>, listens: seq<Action>, replies: nat)
    requires replies <= |listens| && StandFor(awaiting, listens[replies..])
    ensures (awaiting == []) == (replies == |listens|)
    ensures awaiting != [] ==> StandFor(awaiting[1..], listens[replies + 1..])
  {
  }

  /** A reply binds and consumes for the oldest listen call of the present channel that has not been
      answered; a reply too many does nothing. */
  lemma ReplyServesOldest(es: seq<BusEvent>, name: string)
    ensures var s := BusRun(FRESH_BUS, es);
            var t := BusStep(s, Reply(name));
            if RepliesHere(es) < |ListensHere(es)| then
              var listen := ListensHere(es)[RepliesHere(es)];
              && !listen.DeclareExchange?
              && t.issued == s.issued + [QueueBind(listen.exchange, name), Consume(name, listen.callback)]
              && listen.exchange in t.bound && t.bound[listen.exchange] == name
            else t == s
  {
    AwaitedInOrder(es);
    var l, r := ListensHere(es), RepliesHere(es);
    assert r < |l| ==> l[r..][0] == l[r];
  }
}
