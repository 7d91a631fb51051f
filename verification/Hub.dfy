/** The service half of CAgent: sessions are created, updated and closed here, and every event and
    provider announcement leaves from here. The managers call back into it. */
module Services {
  import opened Basics
  import opened Messages
  import opened Sessions
  import opened Providers
  import opened EventQueues
  import opened Routing

  lemma {:induction false} PostEachAppend(r: Router, a: seq<Socket>, b: seq<Socket>, m: Message)
    ensures r.PostEach(a + b, m) == r.PostEach(a, m).PostEach(b, m)
    decreases |a|
  {
    if a == [] {
      assert a + b == b;
    } else {
      assert (a + b)[1..] == a[1..] + b;
      PostEachAppend(r.Post(a[0], m), a[1..], b, m);
    }
  }

  /** What a new subscriber is shown of the live sessions, in hash order. */
  function ReplayOf(live: Live, order: seq<Id>): seq<Event> {
    if order == [] then []
    else
      var id := order[|order| - 1];
      ReplayOf(live, order[..|order| - 1]) +
        if id in live then [CreatedEvent(id, live[id]), UpdatedEvent(id, live[id])] else []
  }

  lemma {:induction false} ReplayAppend(r: Router, s: Socket, a: seq<Event>, b: seq<Event>)
    ensures r.Replay(s, a + b) == r.Replay(s, a).Replay(s, b)
    decreases |a|
  {
    if a == [] {
      assert a + b == b;
    } else {
      assert (a + b)[1..] == a[1..] + b;
      ReplayAppend(r.Post(s, SessionEvent(a[0])), s, a[1..], b);
    }
  }

  lemma DeliverOne(r: Router, s: Socket, e: Event)
    ensures r.Deliver([(s, e)]) == r.Post(s, SessionEvent(e))
    ensures r.Replay(s, [e]) == r.Post(s, SessionEvent(e))
  {
    var one: Delivery := (s, e);
    assert [one][1..] == [] && [e][1..] == [];
  }

  class Hub {
    const store: SessionStore
    const registry: ProviderRegistry
    const queue: EventQueue
    var subscribers: seq<Socket>

    // The outside: which sockets are connected, the clock, and what has been written to whom.
    var connected: set<Socket>
    var now: int
    var sent: seq<Sent>

    // The live sessions and the outputs of the current step, and the routing state it started from.
    ghost var view: Sess
    ghost var origin: Router

    constructor (connected: set<Socket>, now: int)
      ensures Valid() && fresh(store) && fresh(registry) && fresh(queue) && fresh(store.Repr)
      ensures Routes() == Router(Registry(map[], [], None), [], Queue([], []), connected, now, [])
      ensures view == Sess(map[], [])
    {
      store := new SessionStore();
      registry := new ProviderRegistry();
      queue := new EventQueue(QUEUE_CAPACITY);
      subscribers, this.connected, this.now, sent := [], connected, now, [];
      view := Sess(map[], []);
      origin := Router(Registry(map[], [], None), [], Queue([], []), connected, now, []);
    }

    ghost function Routes(): Router
      reads this, registry, queue
    {
      Router(registry.View(), subscribers, queue.View(), connected, now, sent)
    }

    /** The routing state is what the step's outputs make of the state the step started from. */
    ghost predicate Valid()
      reads this, store, store.Repr, registry, queue
    {
      && store.Valid() && view.live == store.View()
      && queue.maxSize == QUEUE_CAPACITY
      && origin.Valid()
      && Routes() == origin.ApplyAll(view.out)
    }

    /** What does not depend on the routing state. */
    ghost predicate Kept()
      reads this`view, store, store.Repr
    {
      store.Valid() && view.live == store.View() && queue.maxSize == QUEUE_CAPACITY
    }

    /** A handler begins. */
    ghost method Begin()
      requires Valid()
      modifies this`view, this`origin
      ensures Valid() && view == old(view).(out := []) && origin == Routes() && Routes() == old(Routes())
      ensures Routes().Valid()
    {
      RoutesValid();
      view, origin := view.(out := []), Routes();
    }

    /** A handler that touched the routing tables itself goes on from there. */
    ghost method Rebase()
      requires Kept() && Routes().Valid()
      modifies this`view, this`origin
      ensures Valid() && view == old(view).(out := []) && origin == Routes() && Routes() == old(Routes())
    {
      view, origin := view.(out := []), Routes();
    }

    ghost method Record(effect: Effect)
      requires Routes() == origin.ApplyAll(view.out).Apply(effect)
      modifies this`view
      ensures view == old(view).Put([effect]) && Routes() == origin.ApplyAll(view.out)
    {
      view := view.Put([effect]);
      assert view.out[..|view.out| - 1] == old(view.out);
    }

    /** The store has just been changed. */
    ghost method Refresh()
      requires store.Valid()
      modifies this`view
      ensures view == old(view).(live := store.View())
    {
      view := view.(live := store.View());
    }

    // ----- Sockets -----

    method SendJson(to: Socket, m: Message)
      modifies this`sent
      ensures Routes() == old(Routes()).Post(to, m)
    {
      if to !in connected {
        return;
      }
      sent := sent + [Sent(to, m)];
    }

    method SendEach(to: seq<Socket>, m: Message)
      modifies this`sent
      ensures Routes() == old(Routes()).PostEach(to, m)
    {
      for i := 0 to |to|
        invariant Routes().PostEach(to[i..], m) == old(Routes()).PostEach(to, m)
      {
        assert to[i..][1..] == to[i + 1..];
        SendJson(to[i], m);
      }
    }

    /** A direct answer to whoever sent the message being handled. */
    method Reply(to: Socket, m: Message)
      requires Valid()
      modifies this`sent, this`view
      ensures Valid() && view == old(view).Put([Send(to, m)])
    {
      SendJson(to, m);
      Record(Send(to, m));
    }

    /** A call into polkit-qt, which never calls back before it returns. */
    ghost method CallPolkit(effect: Effect)
      requires Valid()
      requires effect.StartHelper? || effect.HelperResponse? || effect.CancelHelper? || effect.Complete?
      modifies this`view
      ensures Valid() && view == old(view).Put([effect])
    {
      Record(effect);
    }

    // ----- Providers -----

    function HasActiveProvider(): bool
      reads this, registry
    {
      registry.activeProvider.Some? && registry.activeProvider.value in registry.providers
    }

    method EmitProviderStatus()
      modifies this`sent
      ensures Routes() == old(Routes()).Announce()
    {
      var status := UiActive(false, "");
      if HasActiveProvider() {
        status := UiActive(true, registry.providers[registry.activeProvider.value].id);
      }
      var served := SendToProviders(status);
      SendToSubscribers(status, served);
      PostEachAppend(old(Routes()), registry.order, Filter(subscribers, NotIn(registry.order)), status);
    }

    /** First loop of the announcement: every registered socket, and who was reached. */
    method SendToProviders(status: Message) returns (served: set<Socket>)
      modifies this`sent
      ensures Routes() == old(Routes()).PostEach(registry.order, status)
      ensures forall s :: s in served <==> s in registry.order && s in connected
    {
      ghost var r := Routes();
      served := {};
      for i := 0 to |registry.order|
        invariant Routes() == r.PostEach(registry.order[..i], status)
        invariant forall s :: s in served <==> s in registry.order[..i] && s in connected
      {
        var socket := registry.order[i];
        assert registry.order[..i + 1] == registry.order[..i] + [socket];
        PostEachAppend(r, registry.order[..i], [socket], status);
        PostEachFrame(r, registry.order[..i], status);
        if socket in connected {
          SendJson(socket, status);
          served := served + {socket};
        }
      }
      assert registry.order[..|registry.order|] == registry.order;
    }

    /** Second loop: the subscribers that are not registered sockets reached before. */
    method SendToSubscribers(status: Message, served: set<Socket>)
      requires forall s :: s in served <==> s in registry.order && s in connected
      modifies this`sent
      ensures Routes() == old(Routes()).PostEach(Filter(subscribers, NotIn(registry.order)), status)
    {
      ghost var r, unlisted := Routes(), NotIn(registry.order);
      for i := 0 to |subscribers|
        invariant Routes() == r.PostEach(Filter(subscribers[..i], unlisted), status)
      {
        var subscriber := subscribers[i];
        assert subscribers[..i + 1] == subscribers[..i] + [subscriber];
        FilterAppend(subscribers[..i], [subscriber], unlisted);
        PostEachAppend(r, Filter(subscribers[..i], unlisted), Filter([subscriber], unlisted), status);
        if subscriber in connected && subscriber !in served {
          SendJson(subscriber, status);
        }
      }
      assert subscribers[..|subscribers|] == subscribers;
    }

    method RecheckProviders()
      requires Valid()
      modifies this`sent, this`view, registry
      ensures Valid() && view == old(view).Put([Recheck])
    {
      RoutesValid();
      ReelectProvider();
      Record(Effect.Recheck);
    }

    method ReelectProvider()
      requires registry.View().Valid()
      modifies this`sent, registry
      ensures Routes() == old(Routes()).Recheck()
    {
      var changed := registry.RecomputeActiveProvider(connected, now);
      if changed {
        EmitProviderStatus();
      }
    }

    lemma Following()
      requires Valid()
      ensures Kept() && Routes() == origin.ApplyAll(view.out)
    {
    }

    lemma RoutesValid()
      requires Valid()
      ensures Routes().Valid()
    {
      EffectsKeepValid(origin, view.out);
    }

    // ----- Events -----

    method EmitSessionEvent(event: Event)
      requires Valid()
      modifies this`sent, this`view, queue
      ensures Valid() && view == old(view).Put([Emit(event)])
    {
      Route(event);
      Record(Emit(event));
    }

    /** EventRouter::route. */
    method Route(event: Event)
      requires queue.maxSize >= 1
      modifies this`sent, queue
      ensures queue.maxSize == QUEUE_CAPACITY ==> Routes() == old(Routes()).Route(event)
    {
      ghost var r := Routes();
      if IsSessionEvent(event) && HasActiveProvider() {
        SendEach([registry.activeProvider.value], SessionEvent(event));
      } else {
        SendEach(subscribers, SessionEvent(event));
      }
      PostEachFrame(r, r.Targets(event), SessionEvent(event));
      queue.Enqueue(event);
      var deliveries := queue.DrainToWaiters();
      ghost var r' := Routes();
      for i := 0 to |deliveries|
        invariant Routes().Deliver(deliveries[i..]) == r'.Deliver(deliveries)
        invariant queue.View() == r'.queue
      {
        assert deliveries[i..][1..] == deliveries[i + 1..];
        SendJson(deliveries[i].0, SessionEvent(deliveries[i].1));
      }
    }

    // ----- Sessions -----

    predicate HasSession(id: Id)
      requires Valid()
      reads this, store, store.Repr, registry, queue
      ensures HasSession(id) <==> id in view.live
    {
      id in store.sessions
    }

    predicate IsSessionOf(id: Id, source: Source)
      requires Valid()
      reads this, store, store.Repr, registry, queue
      ensures IsSessionOf(id, source) <==> id in view.live && view.live[id].source == source
    {
      id in store.sessions && store.sessions[id].source == source
    }

    method CreateSession(id: Id, source: Source, context: Context)
      requires Valid()
      modifies this`sent, this`view, store, queue
      ensures Valid() && fresh(store.Repr - old(store.Repr))
      ensures view == old(view).Create(id, source, context)
    {
      hide Router.Valid, Router.ApplyAll, SessionStore.View, SessionStore.Valid;
      var event := store.CreateSession(id, source, context);
      Refresh();
      EmitSessionEvent(event);
    }

    method UpdateSessionPrompt(id: Id, prompt: string, echo: bool, clearError: bool)
      requires Valid()
      modifies this`sent, this`view, store.Repr, queue
      ensures Valid() && view == old(view).UpdatePrompt(id, prompt, echo, clearError)
    {
      hide Router.Valid, Router.ApplyAll, SessionStore.View, SessionStore.Valid;
      var updated := store.UpdatePrompt(id, prompt, echo, clearError);
      if updated == None {
        return;
      }
      Refresh();
      EmitSessionEvent(updated.value);
    }

    method UpdateSessionError(id: Id, error: string)
      requires Valid()
      modifies this`sent, this`view, store.Repr, queue
      ensures Valid() && view == old(view).UpdateError(id, error)
    {
      hide Router.Valid, Router.ApplyAll, SessionStore.View, SessionStore.Valid;
      var updated := store.UpdateError(id, error);
      if updated == None {
        return;
      }
      Refresh();
      EmitSessionEvent(updated.value);
    }

    method OnSessionInfo(id: Id, info: string)
      requires Valid()
      modifies this`sent, this`view, store.Repr, queue
      ensures Valid() && view == old(view).UpdateInfo(id, info)
    {
      hide Router.Valid, Router.ApplyAll, SessionStore.View, SessionStore.Valid;
      var updated := store.UpdateInfo(id, info);
      if updated == None {
        return;
      }
      Refresh();
      EmitSessionEvent(updated.value);
    }

    method UpdateSessionPinentryRetry(id: Id, curRetry: int, maxRetries: int)
      requires Valid()
      modifies this`view, store.Repr
      ensures Valid() && view == old(view).UpdateRetry(id, curRetry, maxRetries)
    {
      hide Router.Valid, Router.ApplyAll, SessionStore.View, SessionStore.Valid;
      var _ := store.UpdatePinentryRetry(id, curRetry, maxRetries);
      Refresh();
    }

    method CloseSession(id: Id, result: Result)
      requires Valid()
      modifies this`sent, this`view, store`sessions, store.Repr, registry, queue
      ensures Valid()
      ensures view == old(view).Close(id, result)
    {
      hide Router.Valid, Router.ApplyAll, SessionStore.View, SessionStore.Valid;
      var closed := store.CloseSession(id, result);
      if closed == None {
        return;
      }
      Refresh();
      if store.Empty() {
        RecheckProviders();
      }
      EmitSessionEvent(closed.value);
    }

    method OnSessionComplete(id: Id, success: bool)
      requires Valid()
      modifies this`sent, this`view, store`sessions, store.Repr, registry, queue
      ensures Valid()
      ensures view == old(view).Finish(id, success)
    {
      hide Router.Valid, Router.ApplyAll, SessionStore.View, SessionStore.Valid;
      var closed := store.CloseSession(id, if success then Success else Cancelled);
      if closed == None {
        return;
      }
      Refresh();
      EmitSessionEvent(closed.value);
      if store.Empty() {
        RecheckProviders();
      }
    }

    // ----- Handlers that touch no session -----

    method ServeNext(socket: Socket)
      requires Kept()
      modifies this`sent, queue
      ensures Kept() && Routes() == old(Routes()).Next(socket)
    {
      if queue.events == [] {
        queue.SubscribeNext(socket);
        return;
      }
      ghost var r := Routes();
      var event := queue.TakeNext();
      DeliverOne(r.(queue := queue.View()), socket, event.value);
      SendJson(socket, SessionEvent(event.value));
    }

    /** `order` is the order in which the table of sessions is walked. */
    method ServeSubscribe(socket: Socket, order: seq<Id>)
      requires Kept() && Enumerates(order, view.live.Keys)
      modifies this`sent, this`subscribers
      ensures Kept()
      ensures Routes() == old(Routes()).Subscribe(socket, ReplayOf(view.live, order), |view.live|)
    {
      hide Kept, ReplayOf, Router.Replay;
      if socket !in subscribers {
        subscribers := subscribers + [socket];
      }
      var isRegistered := socket in registry.providers;
      var isActive := isRegistered && registry.activeProvider == Some(socket);
      var hears := !isRegistered || isActive;
      if hears {
        ReplaySessions(socket, order);
      }
      var count := if hears then |store.sessions| else 0;
      SessionsCounted();
      SendJson(socket, Subscribed(count, if isRegistered then Some(isActive) else None));
      assert count == if hears then |view.live| else 0;
    }

    lemma SessionsCounted()
      requires Kept()
      ensures |store.sessions| == |view.live|
    {
      assert store.sessions.Keys == view.live.Keys;
      assert |store.sessions.Keys| == |view.live.Keys|;
    }

    method ReplaySessions(socket: Socket, order: seq<Id>)
      requires Kept() && forall k :: 0 <= k < |order| ==> order[k] in view.live
      modifies this`sent
      ensures Kept() && Routes() == old(Routes()).Replay(socket, ReplayOf(view.live, order))
    {
      ghost var r := Routes();
      for i := 0 to |order|
        invariant Routes() == r.Replay(socket, ReplayOf(view.live, order[..i]))
      {
        var id := order[i];
        assert order[..i + 1][..i] == order[..i];
        var session := store.sessions[id];
        var created := session.ToCreatedEvent();
        var updated := session.ToUpdatedEvent();
        ghost var shown := ReplayOf(view.live, order[..i]);
        ReplayAppend(r, socket, shown, [created] + [updated]);
        ReplayAppend(r.Replay(socket, shown), socket, [created], [updated]);
        DeliverOne(r.Replay(socket, shown), socket, created);
        DeliverOne(r.Replay(socket, shown).Post(socket, SessionEvent(created)), socket, updated);
        assert [created] + [updated] == [created, updated];
        SendJson(socket, SessionEvent(created));
        SendJson(socket, SessionEvent(updated));
      }
      assert order[..|order|] == order;
    }

    /** `placed` is the walking order of the table of providers after the insertion. */
    method ServeRegister(socket: Socket, r: Registration, uuid: string, placed: seq<Socket>)
      requires Routes().Valid() && Enumerates(placed, registry.providers.Keys + {socket})
      modifies this`sent, registry
      ensures Routes() == old(Routes()).Register(socket, r, uuid, placed)
    {
      RegisterKeepsValid(registry.View(), socket, r, uuid, now, placed);
      var provider := registry.RegisterProvider(socket, r, uuid, now, placed);
      var changed := registry.RecomputeActiveProvider(connected, now);
      var nowActive := registry.activeProvider == Some(socket);
      SendJson(socket, Registered(provider.id, Some(nowActive), provider.priority));
      if changed || nowActive {
        EmitProviderStatus();
      }
    }

    method ServeHeartbeat(socket: Socket)
      requires Routes().Valid()
      modifies this`sent, registry
      ensures Routes() == old(Routes()).Heartbeat(socket)
    {
      hide Router.Recheck;
      BeatKeepsValid(registry.View(), socket, now);
      var known := registry.Heartbeat(socket, now);
      if !known {
        SendJson(socket, Failure(NOT_REGISTERED));
        return;
      }
      ReelectProvider();
      SendJson(socket, Ok(Some(registry.activeProvider == Some(socket))));
    }

    method ServeUnregister(socket: Socket)
      requires Routes().Valid()
      modifies this`sent, registry
      ensures Routes() == old(Routes()).Unregister(socket)
    {
      hide Router.Recheck;
      RemoveKeepsValid(registry.View(), socket);
      var removed := registry.UnregisterProvider(socket);
      if !removed {
        SendJson(socket, Failure(NOT_REGISTERED));
        return;
      }
      ReelectProvider();
      SendJson(socket, Ok(None));
    }

    method LeaveRegistry(socket: Socket)
      requires registry.View().Valid()
      modifies this`sent, registry
      ensures Routes() ==
              var r := old(Routes());
              if socket in r.registry.providers then r.(registry := r.registry.Remove(socket)).Recheck() else r
    {
      hide Router.Recheck;
      RemoveKeepsValid(registry.View(), socket);
      var removed := registry.UnregisterProvider(socket);
      if removed {
        ReelectProvider();
      }
    }

    lemma RegistryValid()
      requires Routes().Valid()
      ensures registry.View().Valid()
    {
    }

    /** What a vanished socket leaves behind in the routing tables is taken out. */
    method ServeDeparture(socket: Socket)
      requires Routes().Valid()
      modifies this`sent, this`subscribers, registry, queue
      ensures Routes() == old(Routes()).Leave(socket)
    {
      hide Router.Recheck, Router.Valid;
      RegistryValid();
      subscribers := WithoutFirst(subscribers, socket);
      LeaveRegistry(socket);
      queue.RemoveWaiter(socket);
    }
  }
}
