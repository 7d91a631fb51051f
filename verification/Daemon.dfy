/** The daemon as an event machine: one step per message, disconnect, timer tick or polkit signal. */
module Daemon {
  import opened Basics
  import opened Messages
  import opened Sessions
  import opened Providers
  import opened EventQueues
  import opened Routing
  import opened Services
  import opened Keyring
  import opened Pinentry
  import opened PolkitAgent

  datatype Input =
    // the world outside
    | Connect(socket: Socket)
    | HangUp(socket: Socket)
    | Advance(to: int)
    // messages of a user interface
    | Next(socket: Socket)
    | Subscribe(socket: Socket, order: seq<Id>)
    | Register(socket: Socket, registration: Registration, uuid: string, placed: seq<Socket>)
    | Heartbeat(socket: Socket)
    | Unregister(socket: Socket)
    | Respond(socket: Socket, id: Id, response: string)
    | Cancel(socket: Socket, id: Id)
    // messages of a requester
    | AskKeyring(socket: Socket, pid: Pid, keyringMessage: KeyringMessage, actor: Requestor, uuid: Id)
    | AskPinentry(socket: Socket, pid: Pid, pinentryMessage: PinentryMessage, actor: Requestor, uuid: Id)
    | Report(socket: Socket, pid: Pid, id: Id, verdict: Verdict, error: string)
    // the socket's disconnected signal, the maintenance tick, a result timer
    | Disconnected(socket: Socket, keyringOrder: seq<Id>, pinentryOrder: seq<Id>)
    | Tick
    | Timeout(id: Id)
    // polkit
    | PolkitBegin(id: Id, token: Token, identified: bool, context: Context, helper: Helper)
    | PolkitCancelAll(order: seq<Id>)
    | HelperPrompt(sender: Helper, prompt: string, echo: bool)
    | HelperDone(sender: Helper, gained: bool, next: Helper)
    | HelperError(sender: Helper, text: string)
    | HelperInfo(sender: Helper, text: string)

  /** Everything the session side keeps. */
  datatype Core = Core(
    live: Live, flows: map<Id, Flow>, retries: Retries,
    keyring: map<Id, KeyringRequest>, attempts: map<Id, Attempt>)
  {
    function AsKeyring(): KeyringState { KeyringState(keyring, Sess(live, [])) }

    function AsPinentry(): PinentryState { PinentryState(flows, retries, Sess(live, [])) }

    function AsPolkit(): PolkitState { PolkitState(attempts, Sess(live, [])) }

    function WithKeyring(k: KeyringState): Outcome {
      Outcome(this.(keyring := k.pending, live := k.sess.live), k.sess.out)
    }

    function WithPinentry(p: PinentryState): Outcome {
      Outcome(this.(flows := p.flows, retries := p.retries, live := p.sess.live), p.sess.out)
    }

    function WithPolkit(p: PolkitState): Outcome {
      Outcome(this.(attempts := p.attempts, live := p.sess.live), p.sess.out)
    }

    function Says(to: Socket, m: Message): Outcome {
      Outcome(this, [Send(to, m)])
    }

    /** handleRespond, after the sender has been found to be authorised. */
    function Responded(s: Socket, id: Id, response: string, now: int): Outcome {
      if id in keyring then
        WithKeyring(AsKeyring().Settle(id, Success))
          .Then([Send(keyring[id].socket, KeyringReply(id, Password(response))), Send(s, Ok(None))])
      else if AsPinentry().IsPending(id) then
        WithPinentry(AsPinentry().Respond(id, now))
          .Then([Send(flows[id].phase.request.socket, PinentryReply(id, AnswerTo(flows[id].phase.request, response))),
                 Send(s, Ok(None))])
      else if AsPinentry().Knows(id) then Says(s, Failure("Session is not accepting input"))
      else if id !in live then Says(s, Failure("Unknown session"))
      else if !live[id].source.Polkit? then Says(s, Failure("Session is not awaiting direct response"))
      else WithPolkit(AsPolkit().Submit(id, response)).Then([Send(s, Ok(None))])
    }

    /** handleCancel, after the sender has been found to be authorised. */
    function Cancelled(s: Socket, id: Id): Outcome {
      if id in keyring then
        WithKeyring(AsKeyring().Settle(id, Result.Cancelled))
          .Then([Send(keyring[id].socket, KeyringReply(id, Declined)), Send(s, Ok(None))])
      else if AsPinentry().Knows(id) then
        WithPinentry(AsPinentry().Cancel(id))
          .Then(if AsPinentry().IsPending(id)
                then [Send(flows[id].phase.request.socket, PinentryReply(id, Declined)), Send(s, Ok(None))]
                else [Send(s, Ok(None))])
      else if id !in live then Says(s, Failure("Unknown session"))
      else if !live[id].source.Polkit? then Says(s, Failure("Session is not cancellable from this path"))
      else WithPolkit(AsPolkit().CancelPending(id)).Then([Send(s, Ok(None))])
    }

    /** The sessions waiting for a vanished socket: keyring requests, then pinentry flows. */
    function Abandoned(s: Socket, keyringOrder: seq<Id>, pinentryOrder: seq<Id>): Outcome {
      var k := WithKeyring(AsKeyring().Cleanup(s, keyringOrder));
      var p := k.core.WithPinentry(k.core.AsPinentry().Cleanup(s, pinentryOrder));
      Outcome(p.core, k.out + p.out)
    }

    /** The session side of one input; `authorized` is the registry's verdict on the sender. */
    ghost function Step(i: Input, authorized: bool, now: int): Outcome {
      match i
      case AskKeyring(s, pid, m, actor, uuid) => WithKeyring(AsKeyring().Ask(m, s, pid, actor, uuid))
      case AskPinentry(s, pid, m, actor, uuid) => WithPinentry(AsPinentry().Ask(m, s, pid, actor, uuid))
      case Report(s, pid, id, verdict, error) =>
        WithPinentry(AsPinentry().Result(id, verdict, error, pid))
          .Then([Send(s, AsPinentry().ResultReply(id, verdict, pid))])
      case Respond(s, id, response) =>
        if authorized then Responded(s, id, response, now) else Says(s, Failure(NOT_ACTIVE))
      case Cancel(s, id) => if authorized then Cancelled(s, id) else Says(s, Failure(NOT_ACTIVE))
      case Disconnected(s, ko, po) => Abandoned(s, ko, po)
      case Timeout(id) =>
        if AsPinentry().IsAwaiting(id) then WithPinentry(AsPinentry().CloseFlow(id, Error, NO_RESULT))
          else Outcome(this, [])
      case PolkitBegin(id, token, identified, context, helper) =>
        WithPolkit(AsPolkit().Begin(id, token, identified, context, helper))
      case PolkitCancelAll(order) => WithPolkit(AsPolkit().CancelAll(order))
      case HelperPrompt(h, prompt, echo) => WithPolkit(AsPolkit().HelperPrompt(h, prompt, echo))
      case HelperDone(h, gained, next) => WithPolkit(AsPolkit().HelperDone(h, gained, next))
      case HelperError(h, text) => WithPolkit(AsPolkit().HelperError(h, text))
      case HelperInfo(h, text) => WithPolkit(AsPolkit().HelperInfo(h, text))
      case _ => Outcome(this, [])
    }
  }

  /** A session-side handler's result: the new state and its outputs in order. */
  datatype Outcome = Outcome(core: Core, out: seq<Effect>) {
    function Then(more: seq<Effect>): Outcome {
      this.(out := out + more)
    }
  }

  datatype System = System(core: Core, routes: Router) {
    ghost function Outputs(i: Input): Outcome {
      core.Step(i, (i.Respond? || i.Cancel?) && routes.registry.Authorized(i.socket), routes.now)
    }

    /** The routing side's own part of an input, before the session side's outputs are routed. */
    function Routed(i: Input): Router {
      match i
      case Connect(s) => routes.(connected := routes.connected + {s})
      case HangUp(s) => routes.(connected := routes.connected - {s})
      case Advance(t) => routes.(now := t)
      case Next(s) => routes.Next(s)
      case Subscribe(s, order) => routes.Subscribe(s, ReplayOf(core.live, order), |core.live|)
      case Register(s, r, uuid, placed) => routes.Register(s, r, uuid, placed)
      case Heartbeat(s) => routes.Heartbeat(s)
      case Unregister(s) => routes.Unregister(s)
      case Disconnected(s, _, _) => routes.Leave(s)
      case Tick => routes.Recheck()
      case _ => routes
    }

    ghost function Step(i: Input): System {
      var o := Outputs(i);
      System(o.core, Routed(i).ApplyAll(o.out))
    }

    /** What the world guarantees of an input: hash orders list the keys of their table, made ids
        are fresh, a disconnect is signalled after the socket hung up, the clock does not run back or past
        a due timer, a result timer fires no earlier than its deadline, and new helpers are not in use. */
    ghost predicate Enabled(i: Input) {
      match i
      case Advance(t) => t >= routes.now && forall id :: core.AsPinentry().IsAwaiting(id) ==>
        t <= core.flows[id].phase.deadline
      case Subscribe(_, order) => Enumerates(order, core.live.Keys)
      case Register(s, _, uuid, placed) =>
        && uuid != ""
        && Enumerates(placed, routes.registry.providers.Keys + {s})
        && (forall p :: p in routes.registry.providers ==> routes.registry.providers[p].id != uuid)
        && (forall k :: 0 <= k < |routes.sent| && routes.sent[k].message.Registered? ==>
           routes.sent[k].message.id != uuid)
      case AskKeyring(_, _, _, _, uuid) => uuid != "" && uuid !in core.live
      case AskPinentry(_, _, _, _, uuid) => uuid != "" && uuid !in core.live && uuid !in core.flows
      case Disconnected(s, ko, po) =>
        && s !in routes.connected
        && Enumerates(ko, core.keyring.Keys)
        && Enumerates(po, set id | id in core.flows && core.flows[id].phase.Pending?)
      case Timeout(id) => core.AsPinentry().IsAwaiting(id) && core.flows[id].phase.deadline <= routes.now
      case PolkitBegin(_, _, _, _, helper) => forall id :: id in core.attempts ==> core.attempts[id].helper != helper
      case HelperDone(_, _, next) => forall id :: id in core.attempts ==> core.attempts[id].helper != next
      case PolkitCancelAll(order) => Enumerates(order, core.attempts.Keys)
      case _ => true
    }
  }

  // ----- Runs -----

  function Init(connected: set<Socket>, now: int): System {
    System(Core(map[], map[], map[], map[], map[]),
           Router(Registry(map[], [], None), [], Queue([], []), connected, now, []))
  }

  ghost function After(d: System, run: seq<Input>): System {
    if run == [] then d else After(d, run[..|run| - 1]).Step(run[|run| - 1])
  }

  ghost predicate Admissible(d: System, run: seq<Input>) {
    run == [] || (Admissible(d, run[..|run| - 1]) && After(d, run[..|run| - 1]).Enabled(run[|run| - 1]))
  }

  /** Every output of a run, in order. */
  ghost function Trace(d: System, run: seq<Input>): seq<Effect> {
    if run == [] then []
    else Trace(d, run[..|run| - 1]) + After(d, run[..|run| - 1]).Outputs(run[|run| - 1]).out
  }
}
