/** Who receives what: the election, the subscribers, the `next` queue and the sockets, as one
    value. Session-side handlers reach it only through their effects. */
module Routing {
  import opened Basics
  import opened Messages
  import opened Providers
  import opened EventQueues

  const QUEUE_CAPACITY := 256

  predicate IsSessionEvent(e: Event) {
    !e.Notice?
  }

  datatype Router = Router(
    registry: Registry, subscribers: seq<Socket>, queue: Queue,
    connected: set<Socket>, now: int, sent: seq<Sent>)
  {
    ghost predicate Valid() {
      && registry.Settled()
      && Distinct(subscribers)
      && |queue.events| <= QUEUE_CAPACITY
      && (queue.events == [] || queue.waiters == [])
    }

    /** sendJson: a socket that is not connected gets nothing. */
    function Post(to: Socket, m: Message): Router {
      if to in connected then this.(sent := sent + [Sent(to, m)]) else this
    }

    function PostEach(to: seq<Socket>, m: Message): Router
      decreases |to|
    {
      if to == [] then this else Post(to[0], m).PostEach(to[1..], m)
    }

    function Deliver(ds: seq<Delivery>): Router
      decreases |ds|
    {
      if ds == [] then this else Post(ds[0].0, SessionEvent(ds[0].1)).Deliver(ds[1..])
    }

    function Status(): Message {
      if registry.HasActive() then UiActive(true, registry.providers[registry.active.value].id) else UiActive(false, "")
    }

    /** emitProviderStatus: the registered sockets, then the subscribers not served yet. */
    function Announce(): Router {
      PostEach(registry.order + Filter(subscribers, NotIn(registry.order)), Status())
    }

    function Recheck(): Router {
      var r := this.(registry := registry.Recompute(connected, now));
      if r.registry.active != registry.active then r.Announce() else r
    }

    /** The sockets an event is routed to: a session event to the elected provider if there is one. */
    function Targets(e: Event): seq<Socket> {
      if IsSessionEvent(e) && registry.HasActive() then [registry.active.value] else subscribers
    }

    function Route(e: Event): Router {
      var (q, ds) := queue.Publish(QUEUE_CAPACITY, e);
      PostEach(Targets(e), SessionEvent(e)).(queue := q).Deliver(ds)
    }

    function Apply(effect: Effect): Router {
      match effect
      case Emit(e) => Route(e)
      case Recheck => Recheck()
      case Send(to, m) => Post(to, m)
      case _ => this  // calls into polkit
    }

    function ApplyAll(effects: seq<Effect>): Router {
      if effects == [] then this
      else ApplyAll(effects[..|effects| - 1]).Apply(effects[|effects| - 1])
    }

    // ----- Handlers that touch no session -----

    function Next(s: Socket): Router {
      var (q, ds) := queue.Ask(s);
      this.(queue := q).Deliver(ds)
    }

    /** `replay` lists the live sessions' events, `count` their number. */
    function Subscribe(s: Socket, replay: seq<Event>, count: nat): Router {
      var r := this.(subscribers := if s in subscribers then subscribers else subscribers + [s]);
      var isActive := s in registry.providers && registry.active == Some(s);
      var hears := s !in registry.providers || isActive;
      var r' := if hears then r.Replay(s, replay) else r;
      r'.Post(s, Subscribed(if hears then count else 0,
                            if s in registry.providers then Some(isActive) else None))
    }

    function Replay(s: Socket, replay: seq<Event>): Router
      decreases |replay|
    {
      if replay == [] then this else Post(s, SessionEvent(replay[0])).Replay(s, replay[1..])
    }

    function Register(s: Socket, reg: Registration, uuid: string, placed: seq<Socket>): Router {
      var listed := registry.Register(s, reg, uuid, now, placed);
      var elected := listed.Recompute(connected, now);
      var nowActive := elected.active == Some(s);
      var r := this.(registry := elected)
        .Post(s, Registered(listed.providers[s].id, Some(nowActive), listed.providers[s].priority));
      if elected.active != registry.active || nowActive then r.Announce() else r
    }

    function Heartbeat(s: Socket): Router {
      if s !in registry.providers then Post(s, Failure(NOT_REGISTERED))
      else
        var r := this.(registry := registry.Beat(s, now)).Recheck();
        r.Post(s, Ok(Some(r.registry.active == Some(s))))
    }

    function Unregister(s: Socket): Router {
      if s !in registry.providers then Post(s, Failure(NOT_REGISTERED))
      else this.(registry := registry.Remove(s)).Recheck().Post(s, Ok(None))
    }

    /** What a disconnect takes out of the routing tables. */
    function Leave(s: Socket): Router {
      var r := this.(subscribers := WithoutFirst(subscribers, s));
      var r' := if s in registry.providers then r.(registry := registry.Remove(s)).Recheck() else r;
      r'.(queue := r'.queue.Forget(s))
    }
  }

  function WithoutFirst(list: seq<Socket>, s: Socket): seq<Socket> {
    if list == [] then []
    else if list[0] == s then list[1..]
    else [list[0]] + WithoutFirst(list[1..], s)
  }

  lemma {:induction false} ApplyAllAppend(r: Router, a: seq<Effect>, b: seq<Effect>)
    ensures r.ApplyAll(a + b) == r.ApplyAll(a).ApplyAll(b)
  {
    if b == [] {
      assert a + b == a;
    } else {
      assert (a + b)[..|a + b| - 1] == a + b[..|b| - 1];
      ApplyAllAppend(r, a, b[..|b| - 1]);
    }
  }

  // ----- Posting changes only what has been sent -----

  lemma {:induction false} PostEachFrame(r: Router, to: seq<Socket>, m: Message)
    ensures r.PostEach(to, m) == r.(sent := r.PostEach(to, m).sent)
    decreases |to|
  {
    if to != [] {
      PostEachFrame(r.Post(to[0], m), to[1..], m);
    }
  }

  lemma {:induction false} DeliverFrame(r: Router, ds: seq<Delivery>)
    ensures r.Deliver(ds) == r.(sent := r.Deliver(ds).sent)
    decreases |ds|
  {
    if ds != [] {
      DeliverFrame(r.Post(ds[0].0, SessionEvent(ds[0].1)), ds[1..]);
    }
  }

  lemma {:induction false} ReplayFrame(r: Router, s: Socket, replay: seq<Event>)
    ensures r.Replay(s, replay) == r.(sent := r.Replay(s, replay).sent)
    decreases |replay|
  {
    if replay != [] {
      ReplayFrame(r.Post(s, SessionEvent(replay[0])), s, replay[1..]);
    }
  }

  // ----- The tables stay consistent -----

  /** Handlers change neither the clock nor who is connected. */
  predicate SameWorld(r: Router, r': Router) {
    r'.connected == r.connected && r'.now == r.now
  }

  lemma RecheckKeepsValid(r: Router)
    requires r.registry.Valid() && r.(registry := Registry(map[], [], None)).Valid()
    ensures r.Recheck().Valid()
    ensures r.Recheck().registry == r.registry.Recompute(r.connected, r.now)
    ensures r.Recheck() == r.(registry := r.Recheck().registry, sent := r.Recheck().sent)
  {
    ElectionCorrect(r.registry, r.connected, r.now);
    var r' := r.(registry := r.registry.Recompute(r.connected, r.now));
    PostEachFrame(r', r'.registry.order + Filter(r'.subscribers, NotIn(r'.registry.order)), r'.Status());
  }

  lemma RouteKeepsValid(r: Router, e: Event)
    requires r.Valid()
    ensures r.Route(e).Valid()
    ensures r.Route(e) == r.(queue := r.Route(e).queue, sent := r.Route(e).sent)
  {
    var (q, ds) := r.queue.Publish(QUEUE_CAPACITY, e);
    PostEachFrame(r, r.Targets(e), SessionEvent(e));
    DeliverFrame(r.PostEach(r.Targets(e), SessionEvent(e)).(queue := q), ds);
  }

  lemma {:induction false} EffectsKeepValid(r: Router, effects: seq<Effect>)
    requires r.Valid()
    ensures r.ApplyAll(effects).Valid()
    ensures var r' := r.ApplyAll(effects);
            SameWorld(r, r') && r'.subscribers == r.subscribers
    ensures forall s :: s in r.ApplyAll(effects).registry.providers ==> s in r.registry.providers
  {
    if effects != [] {
      var n := |effects| - 1;
      EffectsKeepValid(r, effects[..n]);
      EffectKeepsValid(r.ApplyAll(effects[..n]), effects[n]);
    }
  }

  lemma EffectKeepsValid(r: Router, effect: Effect)
    requires r.Valid()
    ensures r.Apply(effect).Valid()
    ensures var r' := r.Apply(effect);
            && SameWorld(r, r') && r'.subscribers == r.subscribers
            && forall s :: s in r'.registry.providers ==> s in r.registry.providers
  {
    match effect
    case Emit(e) => RouteKeepsValid(r, e);
    case Recheck => RecheckKeepsValid(r);
    case _ =>
  }

  lemma NextKeepsValid(r: Router, s: Socket)
    requires r.Valid()
    ensures r.Next(s).Valid() && SameWorld(r, r.Next(s))
  {
    var (q, ds) := r.queue.Ask(s);
    DeliverFrame(r.(queue := q), ds);
  }

  lemma SubscribeKeepsValid(r: Router, s: Socket, replay: seq<Event>, count: nat)
    requires r.Valid()
    ensures r.Subscribe(s, replay, count).Valid() && SameWorld(r, r.Subscribe(s, replay, count))
  {
    var r' := r.(subscribers := if s in r.subscribers then r.subscribers else r.subscribers + [s]);
    ReplayFrame(r', s, replay);
  }

  /** A registration leaves the registry as the election after it does; the rest is messages. */
  lemma RegisterElects(r: Router, s: Socket, reg: Registration, uuid: string, placed: seq<Socket>)
    ensures var r' := r.Register(s, reg, uuid, placed);
            r' == r.(registry := r'.registry, sent := r'.sent)
    ensures r.Register(s, reg, uuid, placed).registry ==
            r.registry.Register(s, reg, uuid, r.now, placed).Recompute(r.connected, r.now)
  {
    hide Registry.Recompute;
    var listed := r.registry.Register(s, reg, uuid, r.now, placed);
    var elected := listed.Recompute(r.connected, r.now);
    var r' := r.(registry := elected)
      .Post(s, Registered(listed.providers[s].id, Some(elected.active == Some(s)), listed.providers[s].priority));
    PostEachFrame(r', r'.registry.order + Filter(r'.subscribers, NotIn(r'.registry.order)), r'.Status());
  }

  lemma RegisterKeepsTables(r: Router, s: Socket, reg: Registration, uuid: string, placed: seq<Socket>)
    requires r.Valid() && Enumerates(placed, r.registry.providers.Keys + {s})
    ensures r.Register(s, reg, uuid, placed).Valid() && SameWorld(r, r.Register(s, reg, uuid, placed))
  {
    hide Registry.Recompute, Router.Register;
    RegisterElects(r, s, reg, uuid, placed);
    RegisterKeepsValid(r.registry, s, reg, uuid, r.now, placed);
    ElectionCorrect(r.registry.Register(s, reg, uuid, r.now, placed), r.connected, r.now);
  }

  lemma HeartbeatKeepsValid(r: Router, s: Socket)
    requires r.Valid()
    ensures r.Heartbeat(s).Valid() && SameWorld(r, r.Heartbeat(s))
  {
    if s in r.registry.providers {
      assert r.registry.Beat(s, r.now).providers.Keys == r.registry.providers.Keys;
      RecheckKeepsValid(r.(registry := r.registry.Beat(s, r.now)));
    }
  }

  lemma UnregisterKeepsValid(r: Router, s: Socket)
    requires r.Valid()
    ensures r.Unregister(s).Valid() && SameWorld(r, r.Unregister(s))
  {
    if s in r.registry.providers {
      RemoveKeepsValid(r.registry, s);
      RecheckKeepsValid(r.(registry := r.registry.Remove(s)));
    }
  }

  lemma {:induction false} WithoutFirstGone(list: seq<Socket>, s: Socket)
    requires Distinct(list)
    ensures Distinct(WithoutFirst(list, s))
    ensures forall x :: x in WithoutFirst(list, s) <==> x in list && x != s
  {
    if list != [] {
      var head, rest := list[0], list[1..];
      assert forall i :: 0 <= i < |rest| ==> rest[i] == list[i + 1];
      assert head !in rest;
      WithoutFirstGone(rest, s);
    }
  }

  lemma RemovalScrubs(r: Router, s: Socket)
    requires r.Valid() && s in r.registry.providers
    ensures var r' := r.(registry := r.registry.Remove(s)).Recheck();
            && r'.Valid() && r' == r.(registry := r'.registry, sent := r'.sent)
            && s !in r'.registry.providers && s !in r'.registry.order && r'.registry.active != Some(s)
  {
    RemoveKeepsValid(r.registry, s);
    RecheckKeepsValid(r.(registry := r.registry.Remove(s)));
    ElectionCorrect(r.registry.Remove(s), r.connected, r.now);
  }

  /** A socket that leaves is in no routing table any more, and the tables stay consistent. */
  lemma LeaveScrubs(r: Router, s: Socket)
    requires r.Valid()
    ensures var r' := r.Leave(s);
            && r'.Valid()
            && s !in r'.subscribers && s !in r'.registry.providers && s !in r'.registry.order
            && r'.registry.active != Some(s) && s !in r'.queue.waiters
    ensures var r' := r.Leave(s);
            && SameWorld(r, r')
            && (forall o :: o in r'.subscribers <==> o in r.subscribers && o != s)
  {
    WithoutFirstGone(r.subscribers, s);
    var r' := r.(subscribers := WithoutFirst(r.subscribers, s));
    if s in r.registry.providers {
      RemovalScrubs(r', s);
    }
  }
}
