/** The reconnecting message-bus client: every declare or listen call records itself in an action log,
    and restoring a channel replays the log, which records it again. */
module MessageBus {
  import opened Types

  datatype ExchangeType = Direct | Fanout

  /** The queue flags the client passes. */
  datatype Flags = NoFlags | ExclusiveAutodelete

  /** The message handlers a listener can carry. */
  datatype Callback = AvailableSource | ObsoleteSource | NewFrame

  datatype Action =
    | DeclareExchange(exchange: string, kind: ExchangeType)
    | ListenNamed(exchange: string, queue: string, callback: Callback, flags: Flags)
    | ListenFresh(exchange: string, callback: Callback, flags: Flags)

  /** A command issued on the channel. */
  datatype Command =
    | ExchangeDeclare(exchange: string, kind: ExchangeType)
    | QueueDeclare(requested: Option<string>, flags: Flags)
    | QueueBind(exchange: string, queue: string)
    | QueueUnbind(exchange: string, queue: string)
    | Consume(queue: string, callback: Callback)
    | Acknowledge(tag: nat)
    | Publish(exchange: string, found: seq<Detection>)

  /** A queue declaration whose reply is outstanding, with what the reply handler captured. */
  datatype Request = Request(exchange: string, callback: Callback)

  // ----- specification -----

  datatype BusState = BusState(
    log: seq<Action>,
    issued: seq<Command>,
    awaiting: seq<Request>,
    bound: map<string, string>,
    ready: bool,
    inError: bool,
    channelStart: nat                         // history: commands issued before the present channel was opened
  )

  const FRESH_BUS := BusState([], [], [], map[], true, false, 0)

  function CommandOf(a: Action): Command {
    match a
    case DeclareExchange(exchange, kind) => ExchangeDeclare(exchange, kind)
    case ListenNamed(exchange, queue, callback, flags) => QueueDeclare(Some(queue), flags)
    case ListenFresh(exchange, callback, flags) => QueueDeclare(None, flags)
  }

  function RequestsOf(a: Action): seq<Request> {
    match a
    case DeclareExchange(exchange, kind) => []
    case ListenNamed(exchange, queue, callback, flags) => [Request(exchange, callback)]
    case ListenFresh(exchange, callback, flags) => [Request(exchange, callback)]
  }

  function CommandsOf(log: seq<Action>): (r: seq<Command>)
    ensures |r| == |log|
  {
    if log == [] then [] else CommandsOf(log[..|log| - 1]) + [CommandOf(log[|log| - 1])]
  }

  /** Command by command: what was logged is what is issued. */
  lemma {:induction false} CommandsAt(log: seq<Action>, i: nat)
    requires i < |log|
    ensures var a, c := log[i], CommandsOf(log)[i];
            && (a.DeclareExchange? ==> c == ExchangeDeclare(a.exchange, a.kind))
            && (a.ListenNamed? ==> c == QueueDeclare(Some(a.queue), a.flags))
            && (a.ListenFresh? ==> c == QueueDeclare(None, a.flags))
    decreases |log|
  {
    if i == |log| - 1 {
    } else {
      CommandsAt(log[..|log| - 1], i);
    }
  }

  function RequestsOfAll(log: seq<Action>): seq<Request> {
    if log == [] then [] else RequestsOfAll(log[..|log| - 1]) + RequestsOf(log[|log| - 1])
  }

  function Performed(s: BusState, a: Action): BusState {
    s.(log := s.log + [a], issued := s.issued + [CommandOf(a)], awaiting := s.awaiting + RequestsOf(a))
  }

  /** The log has been emptied and these actions performed since. */
  function Replayed(s: BusState, actions: seq<Action>): BusState {
    s.(log := actions,
       issued := s.issued + CommandsOf(actions),
       awaiting := s.awaiting + RequestsOfAll(actions),
       bound := map[])
  }

  lemma ReplayedNext(s: BusState, actions: seq<Action>, next: Action)
    ensures Performed(Replayed(s, actions), next) == Replayed(s, actions + [next])
  {
    assert (actions + [next])[..|actions|] == actions;
  }

  /** One restore pass: the logged commands are issued once more, in order, and the log is what it was;
      the channel leaves the error state only if it is usable and ready after the replay. */
  function Restored(s: BusState, usable: bool): BusState {
    if !s.inError || !s.ready then s
    else Replayed(s, s.log).(inError := !usable)
  }

  /** Restore passes while the error state lasts, as far as the answers of `usable` are given. */
  function RestoredWhileInError(s: BusState, usable: seq<bool>): BusState
    decreases |usable|
  {
    if !s.inError || usable == [] then s
    else RestoredWhileInError(Restored(s, usable[0]), usable[1..])
  }

  function Readied(s: BusState, usable: seq<bool>): BusState {
    RestoredWhileInError(s.(ready := true), usable)
  }

  /** A new channel knows nothing of the requests made on the old one. */
  function Opened(s: BusState): BusState {
    s.(awaiting := [], channelStart := |s.issued|)
  }

  /** The client reconnects only in the error state; a closed connection gets no channel, and a usable
      channel is kept. */
  function Reconnected(s: BusState, connected: bool, usable: bool): BusState {
    if s.inError && connected && !usable then Opened(s) else s
  }

  function Answered(s: BusState, name: string): BusState {
    if s.awaiting == [] then s
    else s.(issued := s.issued + [QueueBind(s.awaiting[0].exchange, name), Consume(name, s.awaiting[0].callback)],
            awaiting := s.awaiting[1..],
            bound := s.bound[s.awaiting[0].exchange := name])
  }

  // ----- the code -----

  /** The action storage. */
  class ActionStorage {
    var actions: seq<Action>

    constructor ()
      ensures actions == []
    {
      actions := [];
    }

    method Push(action: Action)
      modifies this
      ensures actions == old(actions) + [action]
    {
      actions := actions + [action];
    }

    method Clear()
      modifies this
      ensures actions == []
    {
      actions := [];
    }

    method GetAll() returns (all: seq<Action>)
      ensures all == actions
    {
      all := actions;
    }
  }

  class MessageBusClient {
    const actions: ActionStorage
    var issued: seq<Command>
    var awaiting: seq<Request>
    var bound: map<string, string>
    var isChannelReady: bool
    var isChannelInErrorState: bool
    var channelStart: nat

    constructor ()
      ensures State() == FRESH_BUS
      ensures fresh(actions)
    {
      actions := new ActionStorage();
      issued, awaiting, bound := [], [], map[];
      isChannelReady, isChannelInErrorState, channelStart := true, false, 0;
    }

    ghost function State(): BusState
      reads this, actions
    {
      BusState(actions.actions, issued, awaiting, bound, isChannelReady, isChannelInErrorState, channelStart)
    }

    method Declare(exchange: string, kind: ExchangeType)
      modifies this, actions
      ensures State() == Performed(old(State()), DeclareExchange(exchange, kind))
      ensures actions.actions == old(actions.actions) + [DeclareExchange(exchange, kind)]
      ensures issued == old(issued) + [ExchangeDeclare(exchange, kind)] && awaiting == old(awaiting)
    {
      actions.Push(DeclareExchange(exchange, kind));
      issued := issued + [ExchangeDeclare(exchange, kind)];
    }

    method AddNamedListener(exchange: string, queue: string, callback: Callback, flags: Flags)
      modifies this, actions
      ensures State() == Performed(old(State()), ListenNamed(exchange, queue, callback, flags))
      ensures actions.actions == old(actions.actions) + [ListenNamed(exchange, queue, callback, flags)]
      ensures issued == old(issued) + [QueueDeclare(Some(queue), flags)]
      ensures awaiting == old(awaiting) + [Request(exchange, callback)]
    {
      actions.Push(ListenNamed(exchange, queue, callback, flags));
      issued := issued + [QueueDeclare(Some(queue), flags)];
      awaiting := awaiting + [Request(exchange, callback)];
    }

    method AddFreshListener(exchange: string, callback: Callback, flags: Flags)
      modifies this, actions
      ensures State() == Performed(old(State()), ListenFresh(exchange, callback, flags))
      ensures actions.actions == old(actions.actions) + [ListenFresh(exchange, callback, flags)]
      ensures issued == old(issued) + [QueueDeclare(None, flags)]
      ensures awaiting == old(awaiting) + [Request(exchange, callback)]
    {
      actions.Push(ListenFresh(exchange, callback, flags));
      issued := issued + [QueueDeclare(None, flags)];
      awaiting := awaiting + [Request(exchange, callback)];
    }

    /** A logged action repeats the call that recorded it. */
    method Invoke(action: Action)
      modifies this, actions
      ensures State() == Performed(old(State()), action)
    {
      match action
      case DeclareExchange(exchange, kind) => Declare(exchange, kind);
      case ListenNamed(exchange, queue, callback, flags) => AddNamedListener(exchange, queue, callback, flags);
      case ListenFresh(exchange, callback, flags) => AddFreshListener(exchange, callback, flags);
    }

    /** `usable` is the channel's answer after the replay. */
    method Restore(usable: bool)
      modifies this, actions
      ensures State() == Restored(old(State()), usable)
      ensures old(isChannelInErrorState && isChannelReady) ==>
                bound == map[] && actions.actions == old(actions.actions) && isChannelInErrorState == !usable
    {
      if !isChannelInErrorState || !isChannelReady {
        return;
      }
      ghost var start := State();
      var actionsToRestore := actions.GetAll();
      actions.Clear();
      bound := map[];
      var i := 0;
      while i < |actionsToRestore|
        invariant 0 <= i <= |actionsToRestore|
        invariant State() == Replayed(start, actionsToRestore[..i])
      {
        ReplayedNext(start, actionsToRestore[..i], actionsToRestore[i]);
        assert actionsToRestore[..i + 1] == actionsToRestore[..i] + [actionsToRestore[i]];
        Invoke(actionsToRestore[i]);
        i := i + 1;
      }
      assert actionsToRestore[..i] == actionsToRestore;
      if usable && isChannelReady {
        isChannelInErrorState := false;
      }
    }

    method OnError()
      modifies this
      ensures State() == old(State()).(inError := true, ready := false)
    {
      isChannelInErrorState := true;
      isChannelReady := false;
    }

    /** The loop of the ready handler, as far as the answers of `usable` are given. */
    method OnReady(usable: seq<bool>)
      modifies this, actions
      ensures State() == Readied(old(State()), usable)
    {
      isChannelReady := true;
      ghost var start := State();
      var i := 0;
      while isChannelInErrorState && i < |usable|
        invariant 0 <= i <= |usable|
        invariant RestoredWhileInError(start, usable) == RestoredWhileInError(State(), usable[i..])
      {
        assert usable[i..][1..] == usable[i + 1..];
        Restore(usable[i]);
        i := i + 1;
      }
    }

    /** `connected` and `usable` are the answers of the connection and of the present channel. */
    method ChannelInit(connected: bool, usable: bool)
      modifies this
      ensures State() == if connected && !usable then Opened(old(State())) else old(State())
      ensures connected && !usable ==> awaiting == [] && channelStart == |issued|
      ensures actions.actions == old(actions.actions) && issued == old(issued)
    {
      if !connected {
        return;
      }
      if usable {
        return;
      }
      awaiting := [];
      channelStart := |issued|;
    }

    /** What the client's thread does each time the event loop returns. */
    method Reconnect(connected: bool, usable: bool)
      modifies this
      ensures State() == Reconnected(old(State()), connected, usable)
    {
      if isChannelInErrorState {
        ChannelInit(connected, usable);
      }
    }

    /** The broker answers the oldest outstanding queue declaration. */
    method OnQueueDeclared(name: string)
      modifies this
      ensures State() == Answered(old(State()), name)
      ensures old(awaiting) != [] ==>
                var request := old(awaiting)[0];
                && issued == old(issued) + [QueueBind(request.exchange, name), Consume(name, request.callback)]
                && bound == old(bound)[request.exchange := name] && awaiting == old(awaiting)[1..]
      ensures old(awaiting) == [] ==> issued == old(issued) && bound == old(bound) && awaiting == []
    {
      if awaiting != [] {
        var request := awaiting[0];
        issued := issued + [QueueBind(request.exchange, name)];
        bound := bound[request.exchange := name];
        issued := issued + [Consume(name, request.callback)];
        awaiting := awaiting[1..];
        assert issued == old(issued) + [QueueBind(request.exchange, name), Consume(name, request.callback)];
      }
    }

    method GetBoundQueue(exchange: string) returns (queue: Option<string>)
      ensures queue == if exchange in bound then Some(bound[exchange]) else None
    {
      if exchange !in bound {
        return None;
      }
      return Some(bound[exchange]);
    }

    /** Commands that are not recorded: acknowledging, unbinding, and publishing on a usable channel. */
    method Issue(command: Command)
      modifies this
      ensures State() == old(State()).(issued := old(issued) + [command])
    {
      issued := issued + [command];
    }
  }
}
