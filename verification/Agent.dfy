/** The dispatcher half of CAgent: one method per message, disconnect, tick, timer and polkit signal,
    each proved to be one step of the daemon. */
module Agents {
  import opened Basics
  import opened Messages
  import opened Sessions
  import opened Providers
  import opened Routing
  import opened Services
  import opened Keyring
  import opened Pinentry
  import opened PolkitAgent
  import opened Daemon
  import opened Invariants
  import opened Runs

  class Agent {
    const hub: Hub
    const keyring: KeyringManager
    const pinentry: PinentryManager
    const listener: PolkitListener

    constructor (connected: set<Socket>, now: int)
      ensures Valid() && View() == Init(connected, now)
      ensures fresh(hub) && fresh(hub.store) && fresh(hub.store.Repr) && fresh(hub.registry) && fresh(hub.queue)
      ensures fresh(keyring) && fresh(pinentry) && fresh(listener) && fresh(listener.Repr)
    {
      hub := new Hub(connected, now);
      keyring := new KeyringManager();
      pinentry := new PinentryManager();
      listener := new PolkitListener();
    }

    ghost predicate Valid()
      reads this, hub, hub.store, hub.store.Repr, hub.registry, hub.queue, keyring, pinentry, listener, listener.Repr
    {
      hub.Valid() && keyring.Valid() && pinentry.Valid(hub) && listener.Valid()
    }

    ghost function State(): Core
      requires pinentry.View().Fit()
      reads hub`view, keyring, pinentry, listener
    {
      Core(hub.view.live, pinentry.View().Flows(), pinentry.retryInfo, keyring.pendingRequests, listener.attempts)
    }

    /** The daemon's state, as the event machine has it. */
    ghost function View(): System
      requires pinentry.View().Fit()
      reads this, hub, hub.registry, hub.queue, keyring, pinentry, listener
    {
      System(State(), hub.Routes())
    }

    /** What the handler under way has come to. */
    ghost function Now(): Outcome
      requires pinentry.View().Fit()
      reads hub`view, keyring, pinentry, listener
    {
      Outcome(State(), hub.view.out)
    }

    lemma Stepped(before: System, i: Input)
      requires hub.Valid() && keyring.Valid() && pinentry.View().Fit() && listener.Valid()
      requires before.core.AsPinentry().Owned() && Fair(before.core, i)
      requires hub.origin == before.Routed(i) && Now() == before.Outputs(i)
      ensures Valid() && View() == before.Step(i)
    {
      hide Core.Step, System.Routed, PinentryState.Owned, Fair, PinentryManager.Valid;
      Arrived(before, i);
    }

    lemma Arrived(before: System, i: Input)
      requires hub.Valid() && keyring.Valid() && pinentry.View().Fit() && listener.Valid()
      requires before.core.AsPinentry().Owned() && Fair(before.core, i)
      requires View() == before.Step(i)
      ensures Valid()
    {
      hide Core.Step, System.Routed, PinentryState.Owned, Fair;
      var authorized := (i.Respond? || i.Cancel?) && before.routes.registry.Authorized(i.socket);
      StepKeepsOwned(before.core, i, authorized, before.routes.now);
      assert State() == before.Step(i).core;
      OwnedHere();
    }

    lemma OwnedHere()
      requires pinentry.View().Fit()
      ensures State().AsPinentry().Owned() <==> pinentry.State(hub).Owned()
    {
    }

    ghost method Begin()
      requires Valid()
      modifies hub`view, hub`origin
      ensures Valid() && Now() == Outcome(old(State()), []) && State() == old(State())
      ensures hub.origin == old(hub.Routes()) && View() == old(View())
      ensures State().AsPinentry().Owned()
    {
      hide Hub.Valid, Tables.Flows, Tables.Fit, PolkitListener.Valid, PinentryState.Owned;
      OwnedHere();
      hub.Begin();
      OwnedHere();
    }

    // ----- Requesters -----

    method HandleKeyringRequest(socket: Socket, m: KeyringMessage, pid: Pid, actor: Requestor, uuid: Id)
      requires Valid()
      modifies hub, hub.store, hub.store.Repr, hub.queue, keyring
      ensures Valid() && fresh(hub.store.Repr - old(hub.store.Repr))
      ensures View() == old(View()).Step(AskKeyring(socket, pid, m, actor, uuid))
    {
      hide Hub.Valid, Tables.Flows, Tables.Fit, KeyringState.Ask, PolkitListener.Valid, PinentryState.Owned;
      ghost var before := View();
      Begin();
      keyring.HandleRequest(hub, m, socket, pid, actor, uuid);
      Stepped(before, AskKeyring(socket, pid, m, actor, uuid));
    }

    method HandlePinentryRequest(socket: Socket, m: PinentryMessage, pid: Pid, actor: Requestor, uuid: Id)
      requires Valid()
      modifies hub, hub.store, hub.store.Repr, hub.queue, pinentry
      ensures Valid() && fresh(hub.store.Repr - old(hub.store.Repr))
      ensures View() == old(View()).Step(AskPinentry(socket, pid, m, actor, uuid))
    {
      hide Hub.Valid, Tables.Flows, Tables.Fit, PinentryState.Ask, PolkitListener.Valid, PinentryState.Owned;
      ghost var before := View();
      Begin();
      pinentry.HandleRequest(hub, m, socket, pid, actor, uuid);
      Stepped(before, AskPinentry(socket, pid, m, actor, uuid));
    }

    method HandlePinentryResult(socket: Socket, pid: Pid, id: Id, verdict: Verdict, error: string)
      requires Valid()
      modifies hub, hub.store`sessions, hub.store.Repr, hub.registry, hub.queue, pinentry
      ensures Valid()
      ensures View() == old(View()).Step(Report(socket, pid, id, verdict, error))
    {
      hide Hub.Valid, Tables.Flows, Tables.Fit, PinentryState.Result, PinentryState.ResultReply, PolkitListener.Valid,
           PinentryState.Owned;
      ghost var before := View();
      Begin();
      var result := pinentry.HandleResult(hub, id, verdict, error, pid);
      hub.Reply(socket, result);
      Stepped(before, Report(socket, pid, id, verdict, error));
    }

    /** A result timer fires. */
    method OnResultTimeout(timer: TimerId)
      requires Valid() && timer in pinentry.running
      modifies hub, hub.store`sessions, hub.store.Repr, hub.registry, hub.queue, pinentry
      ensures Valid() && timer !in pinentry.running
      ensures View() == old(View()).Step(Timeout(old(pinentry.running[timer].cookie)))
    {
      hide Hub.Valid, Tables.Flows, Tables.Fit, PinentryState.CloseFlow, PolkitListener.Valid, PinentryState.Owned;
      ghost var before, cookie := View(), pinentry.running[timer].cookie;
      Begin();
      pinentry.HandleTimeout(hub, timer);
      Stepped(before, Timeout(cookie));
    }

    // ----- The user's answers -----

    method HandleRespond(socket: Socket, id: Id, response: string)
      requires Valid()
      modifies hub, hub.store`sessions, hub.store.Repr, hub.registry, hub.queue, keyring, pinentry
      ensures Valid()
      ensures View() == old(View()).Step(Respond(socket, id, response))
    {
      hide Hub.Valid, Tables.Flows, Tables.Fit, PolkitListener.Valid, PinentryState.Owned, Core.Responded;
      ghost var before := View();
      Begin();
      if !hub.registry.IsAuthorized(socket) {
        hub.Reply(socket, Failure(NOT_ACTIVE));
      } else {
        Answer(socket, id, response);
      }
      Stepped(before, Respond(socket, id, response));
    }

    /** The answer of a user interface that may answer. */
    method Answer(socket: Socket, id: Id, response: string)
      requires Valid() && hub.view.out == []
      modifies hub`sent, hub`view, hub.store`sessions, hub.store.Repr, hub.registry, hub.queue, keyring, pinentry
      ensures hub.Valid() && keyring.Valid() && pinentry.View().Fit() && listener.Valid()
      ensures Now() == old(State()).Responded(socket, id, response, hub.now)
    {
      hide Hub.Valid, Tables.Flows, Tables.Fit, PolkitListener.Valid, PinentryState.Owned, AnswerTo, Sess.Close,
           Submitted;
      if id in keyring.pendingRequests {
        var origSocket := keyring.pendingRequests[id].socket;
        var reply := keyring.HandleResponse(hub, id, response);
        hub.Reply(origSocket, reply);
        hub.Reply(socket, Ok(None));
      } else if pinentry.HasPendingInput(id) {
        AnswerFlow(socket, id, response);
      } else if pinentry.HasRequest(hub, id) {
        hub.Reply(socket, Failure("Session is not accepting input"));
      } else if !hub.HasSession(id) {
        hub.Reply(socket, Failure("Unknown session"));
      } else if !hub.IsSessionOf(id, Source.Polkit) {
        hub.Reply(socket, Failure("Session is not awaiting direct response"));
      } else {
        listener.SubmitPassword(hub, id, response);
        hub.Reply(socket, Ok(None));
      }
    }

    method AnswerFlow(socket: Socket, id: Id, response: string)
      requires Valid() && hub.view.out == [] && id !in keyring.pendingRequests && pinentry.HasPendingInput(id)
      modifies hub`sent, hub`view, pinentry
      ensures hub.Valid() && pinentry.View().Fit()
      ensures Now() == old(State()).Responded(socket, id, response, hub.now)
    {
      hide Hub.Valid, Tables.Flows, Tables.Fit, PolkitListener.Valid, PinentryState.Owned, AnswerTo, Submitted;
      var origSocket := pinentry.GetSocketForPendingInput(id);
      var reply := pinentry.HandleResponse(id, response, hub.now);
      hub.Reply(origSocket, reply);
      hub.Reply(socket, Ok(None));
    }

    method HandleCancel(socket: Socket, id: Id)
      requires Valid()
      modifies hub, hub.store`sessions, hub.store.Repr, hub.registry, hub.queue, keyring, pinentry, listener,
               listener.Repr
      ensures Valid() && listener.Repr <= old(listener.Repr)
      ensures View() == old(View()).Step(Cancel(socket, id))
    {
      hide Hub.Valid, Tables.Flows, Tables.Fit, PolkitListener.Valid, PinentryState.Owned, Core.Cancelled;
      ghost var before := View();
      Begin();
      if !hub.registry.IsAuthorized(socket) {
        hub.Reply(socket, Failure(NOT_ACTIVE));
      } else {
        Withdraw(socket, id);
      }
      Stepped(before, Cancel(socket, id));
    }

    /** A cancel from a user interface that may answer. */
    method Withdraw(socket: Socket, id: Id)
      requires Valid() && hub.view.out == []
      modifies hub`sent, hub`view, hub.store`sessions, hub.store.Repr, hub.registry, hub.queue, keyring, pinentry,
               listener, listener.Repr
      ensures hub.Valid() && keyring.Valid() && pinentry.View().Fit() && listener.Valid() &&
              listener.Repr <= old(listener.Repr)
      ensures Now() == old(State()).Cancelled(socket, id)
    {
      hide Hub.Valid, Tables.Flows, Tables.Fit, PolkitListener.Valid;
      hide PinentryState.Owned, Sess.Close, PinentryState.CloseFlow, PolkitState.CancelPending;
      if id in keyring.pendingRequests {
        WithdrawRequest(socket, id);
      } else if pinentry.HasRequest(hub, id) {
        WithdrawFlow(socket, id);
      } else if !hub.HasSession(id) {
        hub.Reply(socket, Failure("Unknown session"));
      } else if !hub.IsSessionOf(id, Source.Polkit) {
        hub.Reply(socket, Failure("Session is not cancellable from this path"));
      } else {
        listener.CancelPending(hub, id);
        hub.Reply(socket, Ok(None));
      }
    }

    method WithdrawRequest(socket: Socket, id: Id)
      requires Valid() && hub.view.out == [] && id in keyring.pendingRequests
      modifies hub`sent, hub`view, hub.store`sessions, hub.store.Repr, hub.registry, hub.queue, keyring
      ensures hub.Valid() && keyring.Valid()
      ensures Now() == old(State()).Cancelled(socket, id)
    {
      hide Hub.Valid, Tables.Flows, Tables.Fit, PolkitListener.Valid, PinentryState.Owned, Sess.Close;
      var origSocket := keyring.pendingRequests[id].socket;
      var reply := keyring.HandleCancel(hub, id);
      hub.Reply(origSocket, reply);
      hub.Reply(socket, Ok(None));
    }

    method WithdrawFlow(socket: Socket, id: Id)
      requires Valid() && hub.view.out == [] && id !in keyring.pendingRequests && State().AsPinentry().Knows(id)
      modifies hub`sent, hub`view, hub.store`sessions, hub.store.Repr, hub.registry, hub.queue, pinentry
      ensures hub.Valid() && pinentry.View().Fit()
      ensures Now() == old(State()).Cancelled(socket, id)
    {
      hide Hub.Valid, Tables.Flows, Tables.Fit, PolkitListener.Valid, PinentryState.Owned, PinentryState.CloseFlow;
      var origSocket := None;
      if pinentry.HasPendingInput(id) {
        origSocket := Some(pinentry.GetSocketForPendingInput(id));
      }
      var reply := pinentry.HandleCancel(hub, id);
      if origSocket.Some? {
        hub.Reply(origSocket.value, reply);
      }
      hub.Reply(socket, Ok(None));
    }

    // ----- Polkit -----

    method InitiateAuthentication(id: Id, token: Token, identified: bool, context: Context, helper: Helper)
      requires Valid() && helper !in listener.sessionToState
      requires Fair(State(), PolkitBegin(id, token, identified, context, helper))
      modifies hub, hub.store, hub.store.Repr, hub.queue, listener
      ensures Valid() && fresh(hub.store.Repr - old(hub.store.Repr)) && fresh(listener.Repr - old(listener.Repr))
      ensures View() == old(View()).Step(PolkitBegin(id, token, identified, context, helper))
    {
      hide Hub.Valid, Tables.Flows, Tables.Fit, PolkitListener.Valid, PinentryState.Owned, PolkitState.Begin, Fair;
      ghost var before := View();
      Begin();
      listener.InitiateAuthentication(hub, id, token, identified, context, helper);
      Stepped(before, PolkitBegin(id, token, identified, context, helper));
    }

    method OnHelperPrompt(sender: Helper, prompt: string, echo: bool)
      requires Valid()
      modifies hub, hub.store.Repr, hub.queue, listener.Repr
      ensures Valid()
      ensures View() == old(View()).Step(HelperPrompt(sender, prompt, echo))
    {
      hide Hub.Valid, Tables.Flows, Tables.Fit, PolkitListener.Valid, PinentryState.Owned, PolkitState.HelperPrompt;
      ghost var before := View();
      Begin();
      listener.OnSessionRequest(hub, sender, prompt, echo);
      Stepped(before, HelperPrompt(sender, prompt, echo));
    }

    method OnHelperError(sender: Helper, text: string)
      requires Valid()
      modifies hub, hub.store.Repr, hub.queue, listener.Repr
      ensures Valid()
      ensures View() == old(View()).Step(HelperError(sender, text))
    {
      hide Hub.Valid, Tables.Flows, Tables.Fit, PolkitListener.Valid, PinentryState.Owned, PolkitState.HelperError;
      ghost var before := View();
      Begin();
      listener.OnSessionError(hub, sender, text);
      Stepped(before, HelperError(sender, text));
    }

    method OnHelperInfo(sender: Helper, text: string)
      requires Valid()
      modifies hub, hub.store.Repr, hub.queue
      ensures Valid()
      ensures View() == old(View()).Step(HelperInfo(sender, text))
    {
      hide Hub.Valid, Tables.Flows, Tables.Fit, PolkitListener.Valid, PinentryState.Owned, PolkitState.HelperInfo;
      ghost var before := View();
      Begin();
      listener.OnSessionInfo(hub, sender, text);
      Stepped(before, HelperInfo(sender, text));
    }

    /** `next` is the helper session made if another attempt is due. */
    method OnHelperDone(sender: Helper, gained: bool, next: Helper)
      requires Valid() && next !in listener.sessionToState
      requires Fair(State(), HelperDone(sender, gained, next))
      modifies hub, hub.store`sessions, hub.store.Repr, hub.registry, hub.queue, listener, listener.Repr
      ensures Valid() && listener.Repr <= old(listener.Repr)
      ensures View() == old(View()).Step(HelperDone(sender, gained, next))
    {
      hide Hub.Valid, Tables.Flows, Tables.Fit, PolkitListener.Valid, PinentryState.Owned, PolkitState.HelperDone, Fair;
      ghost var before := View();
      Begin();
      listener.OnSessionCompleted(hub, sender, gained, next);
      Stepped(before, HelperDone(sender, gained, next));
    }

    method CancelAuthentication(order: seq<Id>)
      requires Valid() && Enumerates(order, listener.cookieToState.Keys)
      requires Fair(State(), PolkitCancelAll(order))
      modifies hub, hub.store`sessions, hub.store.Repr, hub.registry, hub.queue, listener, listener.Repr
      ensures Valid() && listener.Repr <= old(listener.Repr)
      ensures View() == old(View()).Step(PolkitCancelAll(order))
    {
      hide Hub.Valid, Tables.Flows, Tables.Fit, PolkitListener.Valid, PinentryState.Owned, PolkitState.CancelAll, Fair;
      ghost var before := View();
      Begin();
      listener.CancelAuthentication(hub, order);
      Stepped(before, PolkitCancelAll(order));
    }

    // ----- User interfaces -----

    /** A handler that touched only the routing tables has done its step. */
    ghost method Finish(before: System, i: Input)
      requires hub.Kept() && keyring.Valid() && pinentry.View().Fit() && listener.Valid()
      requires before.routes.Valid() && before.Enabled(i) && before.core.AsPinentry().Owned()
      requires hub.Routes() == before.Routed(i) && State() == before.core
      requires before.Outputs(i) == Outcome(before.core, [])
      modifies hub`view, hub`origin
      ensures Valid() && View() == before.Step(i)
    {
      hide Hub.Valid, Hub.Kept, Core.Step, System.Routed, PinentryState.Owned;
      hide Tables.Flows, Tables.Fit, PolkitListener.Valid, Router.Valid, System.Enabled;
      EnabledIsFair(before, i);
      RoutedKeepsValid(before, i);
      hub.Rebase();
      Stepped(before, i);
    }

    method HandleNext(socket: Socket)
      requires Valid()
      modifies hub, hub.queue
      ensures Valid()
      ensures View() == old(View()).Step(Next(socket))
    {
      hide Tables.Flows, Tables.Fit, PolkitListener.Valid, PinentryState.Owned, Router.ApplyAll, Router.Valid,
           Router.Next;
      ghost var before := View();
      Begin();
      hub.ServeNext(socket);
      Finish(before, Next(socket));
    }

    method HandleSubscribe(socket: Socket, order: seq<Id>)
      requires Valid() && View().Enabled(Subscribe(socket, order))
      modifies hub
      ensures Valid()
      ensures View() == old(View()).Step(Subscribe(socket, order))
    {
      hide Tables.Flows, Tables.Fit, PolkitListener.Valid, PinentryState.Owned, Router.ApplyAll, Router.Valid,
           Router.Subscribe;
      ghost var before := View();
      Begin();
      hub.ServeSubscribe(socket, order);
      Finish(before, Subscribe(socket, order));
    }

    method HandleUIRegister(socket: Socket, r: Registration, uuid: string, placed: seq<Socket>)
      requires Valid() && View().Enabled(Register(socket, r, uuid, placed))
      modifies hub, hub.registry
      ensures Valid()
      ensures View() == old(View()).Step(Register(socket, r, uuid, placed))
    {
      hide Tables.Flows, Tables.Fit, PolkitListener.Valid, PinentryState.Owned, Router.ApplyAll, Router.Valid,
           Router.Register;
      ghost var before := View();
      Begin();
      hub.ServeRegister(socket, r, uuid, placed);
      Finish(before, Register(socket, r, uuid, placed));
    }

    method HandleUIHeartbeat(socket: Socket)
      requires Valid()
      modifies hub, hub.registry
      ensures Valid()
      ensures View() == old(View()).Step(Heartbeat(socket))
    {
      hide Tables.Flows, Tables.Fit, PolkitListener.Valid, PinentryState.Owned, Router.ApplyAll, Router.Valid,
           Router.Heartbeat;
      ghost var before := View();
      Begin();
      hub.ServeHeartbeat(socket);
      Finish(before, Heartbeat(socket));
    }

    method HandleUIUnregister(socket: Socket)
      requires Valid()
      modifies hub, hub.registry
      ensures Valid()
      ensures View() == old(View()).Step(Unregister(socket))
    {
      hide Tables.Flows, Tables.Fit, PolkitListener.Valid, PinentryState.Owned, Router.ApplyAll, Router.Valid,
           Router.Unregister;
      ghost var before := View();
      Begin();
      hub.ServeUnregister(socket);
      Finish(before, Unregister(socket));
    }

    /** The maintenance timer fires. */
    method PruneStaleProviders()
      requires Valid()
      modifies hub, hub.registry
      ensures Valid()
      ensures View() == old(View()).Step(Tick)
    {
      hide Tables.Flows, Tables.Fit, PolkitListener.Valid, PinentryState.Owned, Router.ApplyAll, Router.Valid,
           Router.Recheck;
      ghost var before := View();
      Begin();
      hub.RegistryValid();
      hub.ReelectProvider();
      Finish(before, Tick);
    }

    // ----- Disconnects -----

    method OnClientDisconnected(socket: Socket, keyringOrder: seq<Id>, pinentryOrder: seq<Id>)
      requires Valid() && View().Enabled(Disconnected(socket, keyringOrder, pinentryOrder))
      modifies hub, hub.store`sessions, hub.store.Repr, hub.registry, hub.queue, keyring, pinentry
      ensures Valid()
      ensures View() == old(View()).Step(Disconnected(socket, keyringOrder, pinentryOrder))
    {
      hide Hub.Valid, Hub.Kept, Tables.Flows, Tables.Fit, PolkitListener.Valid, PinentryState.Owned, System.Enabled;
      hide Router.ApplyAll, Router.Valid, Router.Leave, Core.Abandoned;
      ghost var before, i := View(), Disconnected(socket, keyringOrder, pinentryOrder);
      EnabledIsFair(before, i);
      hub.RoutesValid();
      Begin();
      RoutedKeepsValid(before, i);
      hub.Following();
      hub.ServeDeparture(socket);
      hub.Rebase();
      CleanUp(socket, keyringOrder, pinentryOrder);
      Arrived(before, i);
    }

    /** The session half of a disconnect. */
    method CleanUp(socket: Socket, keyringOrder: seq<Id>, pinentryOrder: seq<Id>)
      requires hub.Valid() && keyring.Valid() && pinentry.View().Fit() && listener.Valid() && hub.view.out == []
      requires State().AsPinentry().Owned() && Fair(State(), Disconnected(socket, keyringOrder, pinentryOrder))
      modifies hub`sent, hub`view, hub`origin, hub.store`sessions, hub.store.Repr, hub.registry, hub.queue, keyring,
               pinentry
      ensures hub.Valid() && keyring.Valid() && pinentry.View().Fit() && listener.Valid()
      ensures var o := old(State()).Abandoned(socket, keyringOrder, pinentryOrder);
              State() == o.core && hub.Routes() == old(hub.Routes()).ApplyAll(o.out)
    {
      hide Hub.Valid, Tables.Flows, Tables.Fit, PolkitListener.Valid, Router.Valid, Router.ApplyAll,
           PinentryState.Owned;
      hide KeyringState.Cleanup, PinentryState.Cleanup;
      ghost var r := hub.Routes();
      CleanUpKeyring(socket, keyringOrder);
      ghost var k := hub.view.out;
      CleanUpPinentry(socket, pinentryOrder);
      ApplyAllAppend(r, k, hub.view.out);
    }

    method CleanUpKeyring(socket: Socket, order: seq<Id>)
      requires hub.Valid() && keyring.Valid() && pinentry.View().Fit() && hub.view.out == []
      requires State().AsPinentry().Owned() && Enumerates(order, keyring.pendingRequests.Keys)
      modifies hub`sent, hub`view, hub`origin, hub.store`sessions, hub.store.Repr, hub.registry, hub.queue, keyring
      ensures hub.Valid() && keyring.Valid() && pinentry.View().Fit() && State().AsPinentry().Owned()
      ensures var c := old(State()); Now() == c.WithKeyring(c.AsKeyring().Cleanup(socket, order))
      ensures hub.Routes() == old(hub.Routes()).ApplyAll(hub.view.out)
    {
      hide Hub.Valid, Tables.Flows, Tables.Fit, Router.Valid, Router.ApplyAll, KeyringState.Cleanup,
           PinentryState.Owned;
      KeyringCleanupKeepsOwned(State(), socket, order);
      hub.Begin();
      keyring.CleanupForSocket(hub, socket, order);
      hub.Following();
    }

    method CleanUpPinentry(socket: Socket, order: seq<Id>)
      requires hub.Valid() && pinentry.View().Fit() && State().AsPinentry().Owned()
      requires var flows := State().flows; Enumerates(order, set id | id in flows && flows[id].phase.Pending?)
      modifies hub`sent, hub`view, hub`origin, hub.store`sessions, hub.store.Repr, hub.registry, hub.queue, pinentry
      ensures hub.Valid() && pinentry.View().Fit()
      ensures var c := old(State()); Now() == c.WithPinentry(c.AsPinentry().Cleanup(socket, order))
      ensures hub.Routes() == old(hub.Routes()).ApplyAll(hub.view.out)
    {
      hide Hub.Valid, Tables.Flows, Tables.Fit, Router.Valid, Router.ApplyAll, PinentryState.Cleanup,
           PinentryState.Owned;
      OwnedHere();
      hub.Begin();
      OwnedHere();
      pinentry.PendingAreFlows();
      pinentry.CleanupForSocket(hub, socket, order);
      hub.Following();
    }
  }
}
