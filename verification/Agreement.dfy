/** The daemon and a fallback client agree on who is elected: whatever the client makes of the messages
    on their way to it is what the daemon's registry says. */
module Agreement {
  import opened Basics
  import opened Messages
  import opened Providers
  import opened EventQueues
  import opened Routing
  import opened Services
  import opened Daemon
  import opened Invariants
  import opened Reactions
  import F = Fallback

  // ----- The channel -----

  /** The messages written to `s`, in order. */
  function Inbox(sent: seq<Sent>, s: Socket): seq<Message> {
    if sent == [] then []
    else
      var last := sent[|sent| - 1];
      Inbox(sent[..|sent| - 1], s) + if last.to == s then [last.message] else []
  }

  const FRESH := F.Client(false, false, false, false, "", false, false, "", [], []).Connect()

  /** What the client on `s` will be when it has handled everything written to it since it connected. */
  function Mirror(r: Router, s: Socket): F.Client {
    FRESH.HandleAll(Inbox(r.sent, s))
  }

  lemma PostMirror(r: Router, to: Socket, m: Message, s: Socket)
    ensures Mirror(r.Post(to, m), s) == if to == s && to in r.connected then Mirror(r, s).Handle(m) else Mirror(r, s)
  {
    if to in r.connected {
      var inbox := Inbox(r.sent, s);
      var sent' := r.sent + [Sent(to, m)];
      assert sent'[..|r.sent|] == r.sent && r.Post(to, m).sent == sent';
      if to == s {
        assert Inbox(sent', s) == inbox + [m];
        assert (inbox + [m])[..|inbox|] == inbox;
        assert FRESH.HandleAll(inbox + [m]) == FRESH.HandleAll(inbox).Handle(m);
      } else {
        assert Inbox(sent', s) == inbox;
      }
    }
  }

  // ----- What messages do to the client's standing -----

  datatype Standing = Standing(registered: bool, id: string, active: bool)

  function StandingOf(c: F.Client): Standing {
    Standing(c.registered, c.id, c.active)
  }

  /** A registered client's standing after a message. */
  function Told(id: string, active: bool, m: Message): Standing {
    match m
    case UiActive(act, activeId) => Standing(true, id, !act || activeId == id)
    case Registered(newId, standing, _) => Standing(true, newId, if standing.Some? then standing.value else active)
    case Subscribed(_, standing) => Standing(true, id, if standing.Some? then standing.value else active)
    case Failure(text) => Standing(true, id, active && text != NOT_ACTIVE)
    case _ => Standing(true, id, active)
  }

  lemma HandleTells(c: F.Client, m: Message)
    requires c.registered && c.id != "" && !(m.Registered? && m.standing.None?)
    ensures StandingOf(c.Handle(m)) == Told(c.id, c.active, m)
  {
  }

  /** The id was given out by the daemon. */
  ghost predicate Minted(sent: seq<Sent>, id: string) {
    exists k :: 0 <= k < |sent| && sent[k].message.Registered? && sent[k].message.id == id
  }

  lemma PostTells(r: Router, to: Socket, m: Message, s: Socket)
    requires Mirror(r, s).registered && Mirror(r, s).id != "" && !(m.Registered? && m.standing.None?)
    ensures var c := Mirror(r, s);
            StandingOf(Mirror(r.Post(to, m), s)) == if to == s && to in r.connected then Told(c.id, c.active, m)
              else StandingOf(c)
    ensures forall id :: Minted(r.sent, id) ==> Minted(r.Post(to, m).sent, id)
  {
    PostMirror(r, to, m, s);
    HandleTells(Mirror(r, s), m);
    forall id | Minted(r.sent, id)
      ensures Minted(r.Post(to, m).sent, id)
    {
      var k :| 0 <= k < |r.sent| && r.sent[k].message.Registered? && r.sent[k].message.id == id;
      assert r.Post(to, m).sent[k] == r.sent[k];
    }
  }

  lemma {:induction false} PostEachTells(r: Router, to: seq<Socket>, m: Message, s: Socket)
    requires Mirror(r, s).registered && Mirror(r, s).id != "" && s in r.connected
    requires m.UiActive? || m.SessionEvent?
    ensures var c := Mirror(r, s);
            StandingOf(Mirror(r.PostEach(to, m), s)) == if s in to then Told(c.id, c.active, m) else StandingOf(c)
    ensures forall id :: Minted(r.sent, id) ==> Minted(r.PostEach(to, m).sent, id)
    decreases |to|
  {
    hide Mirror, Minted;
    if to != [] {
      PostTells(r, to[0], m, s);
      PostEachTells(r.Post(to[0], m), to[1..], m, s);
    }
  }

  lemma {:induction false} DeliverTells(r: Router, ds: seq<Delivery>, s: Socket)
    requires Mirror(r, s).registered && Mirror(r, s).id != ""
    ensures StandingOf(Mirror(r.Deliver(ds), s)) == StandingOf(Mirror(r, s))
    ensures forall id :: Minted(r.sent, id) ==> Minted(r.Deliver(ds).sent, id)
    decreases |ds|
  {
    hide Mirror, Minted;
    if ds != [] {
      PostTells(r, ds[0].0, SessionEvent(ds[0].1), s);
      DeliverTells(r.Post(ds[0].0, SessionEvent(ds[0].1)), ds[1..], s);
    }
  }

  lemma {:induction false} ReplayTells(r: Router, to: Socket, replay: seq<Event>, s: Socket)
    requires Mirror(r, s).registered && Mirror(r, s).id != ""
    ensures StandingOf(Mirror(r.Replay(to, replay), s)) == StandingOf(Mirror(r, s))
    ensures forall id :: Minted(r.sent, id) ==> Minted(r.Replay(to, replay).sent, id)
    decreases |replay|
  {
    hide Mirror, Minted;
    if replay != [] {
      PostTells(r, to, SessionEvent(replay[0]), s);
      ReplayTells(r.Post(to, SessionEvent(replay[0])), to, replay[1..], s);
    }
  }

  // ----- Agreement -----

  /** The client is registered under an id that is its alone, and once it has handled what is on its
      way it believes to be elected exactly when the daemon would let it answer. */
  ghost predicate Agrees(r: Router, s: Socket) {
    var c := Mirror(r, s);
    && s in r.connected
    && c.registered && c.id != "" && Minted(r.sent, c.id)
    && (c.active <==> r.registry.Authorized(s))
    && Own(r.registry, s, c.id)
  }

  ghost predicate Own(g: Registry, s: Socket, id: string) {
    forall o :: o in g.providers ==> (g.providers[o].id == id <==> o == s)
  }

  /** The daemon still has the client in one of its lists. */
  predicate Knows(r: Router, s: Socket) {
    s in r.registry.providers || s in r.subscribers
  }

  lemma RecheckAgrees(r: Router, s: Socket)
    requires r.registry.Valid() && r.(registry := Registry(map[], [], None)).Valid()
    requires s in r.connected && Mirror(r, s).registered && Mirror(r, s).id != "" && Minted(r.sent, Mirror(r, s).id)
    requires Own(r.registry, s, Mirror(r, s).id)
    requires r.registry.active == r.registry.Recompute(r.connected, r.now).active ==> 
               (Mirror(r, s).active <==> r.registry.Recompute(r.connected, r.now).Authorized(s))
    requires Knows(r.Recheck(), s)
    ensures Agrees(r.Recheck(), s)
  {
    hide Mirror, Minted, Registry.Recompute;
    RecheckKeepsValid(r);
    ElectionCorrect(r.registry, r.connected, r.now);
    var elected := r.registry.Recompute(r.connected, r.now);
    var r' := r.(registry := elected);
    assert Mirror(r', s) == Mirror(r, s) by {
      MirrorIgnoresRegistry(r, elected, s);
    }
    if elected.active != r.registry.active {
      AnnounceAgrees(r', s);
    }
  }

  lemma MirrorIgnoresRegistry(r: Router, g: Registry, s: Socket)
    ensures Mirror(r.(registry := g), s) == Mirror(r, s)
  {
  }

  /** An announcement sets the client right, whatever it believed before. */
  lemma AnnounceAgrees(r: Router, s: Socket)
    requires r.Valid() && s in r.connected && Knows(r, s)
    requires Mirror(r, s).registered && Mirror(r, s).id != "" && Minted(r.sent, Mirror(r, s).id)
    requires Own(r.registry, s, Mirror(r, s).id)
    ensures Agrees(r.Announce(), s)
  {
    hide Mirror, Minted;
    var to := r.registry.order + Filter(r.subscribers, NotIn(r.registry.order));
    PostEachFrame(r, to, r.Status());
    PostEachTells(r, to, r.Status(), s);
    assert s in r.registry.order <==> s in r.registry.providers;
    assert s in to;
    var active := r.registry.active;
    if active.Some? {
      var a := active.value;
      assert r.registry.providers[a].id == Mirror(r, s).id <==> a == s;
    }
  }

  /** A re-election keeps the agreement. */
  lemma ReelectionAgrees(r: Router, s: Socket)
    requires r.Valid() && Agrees(r, s) && Knows(r.Recheck(), s)
    ensures Agrees(r.Recheck(), s)
  {
    hide Mirror, Minted, Registry.Recompute;
    ElectionCorrect(r.registry, r.connected, r.now);
    RecheckAgrees(r, s);
  }

  lemma RouteAgrees(r: Router, e: Event, s: Socket)
    requires r.Valid() && Agrees(r, s)
    ensures Agrees(r.Route(e), s)
  {
    hide Mirror, Minted, Router.Targets;
    var (q, ds) := r.queue.Publish(QUEUE_CAPACITY, e);
    var posted := r.PostEach(r.Targets(e), SessionEvent(e));
    PostEachTells(r, r.Targets(e), SessionEvent(e), s);
    PostEachFrame(r, r.Targets(e), SessionEvent(e));
    MirrorIgnoresQueue(posted, q, s);
    DeliverTells(posted.(queue := q), ds, s);
    DeliverFrame(posted.(queue := q), ds);
  }

  lemma MirrorIgnoresQueue(r: Router, q: Queue, s: Socket)
    ensures Mirror(r.(queue := q), s) == Mirror(r, s)
  {
  }

  lemma SendAgrees(r: Router, to: Socket, m: Message, s: Socket)
    requires Agrees(r, s) && !m.Registered? && !m.UiActive?
    requires to == s && m.Subscribed? && m.standing.Some? ==> m.standing.value == r.registry.Authorized(s)
    requires to == s && m == Failure(NOT_ACTIVE) ==> !r.registry.Authorized(s)
    ensures Agrees(r.Post(to, m), s)
  {
    hide Mirror, Minted;
    PostTells(r, to, m, s);
  }

  /** The effect tells a socket that it may not answer. */
  predicate Refuses(e: Effect, s: Socket) {
    e == Send(s, Failure(NOT_ACTIVE))
  }

  /** Session-side effects send no registrations and no announcements of their own. */
  predicate Plain(e: Effect) {
    e.Send? ==>
      !e.message.Registered? && !e.message.UiActive? && !e.message.Subscribed? && !e.message.SessionEvent?
  }

  lemma ApplyAgrees(r: Router, e: Effect, s: Socket)
    requires r.Valid() && Agrees(r, s) && Plain(e) && Knows(r.Apply(e), s)
    requires Refuses(e, s) ==> !r.registry.Authorized(s)
    ensures Agrees(r.Apply(e), s)
  {
    hide Agrees, Router.Recheck, Router.Route;
    match e
    case Emit(event) => RouteAgrees(r, event, s);
    case Recheck => ReelectionAgrees(r, s);
    case Send(to, m) => SendAgrees(r, to, m, s);
    case _ =>
  }

  lemma {:induction false} EffectsAgree(r: Router, effects: seq<Effect>, s: Socket)
    requires r.Valid() && Agrees(r, s) && Knows(r.ApplyAll(effects), s)
    requires forall k :: 0 <= k < |effects| ==> Plain(effects[k])
    requires forall k :: 0 <= k < |effects| && Refuses(effects[k], s) ==> |effects| == 1 && !r.registry.Authorized(s)
    ensures Agrees(r.ApplyAll(effects), s)
  {
    hide Agrees, Router.Valid, Router.Apply, Plain;
    if effects != [] {
      var n := |effects| - 1;
      EffectsKeepValid(r, effects[..n]);
      EffectKeepsValid(r.ApplyAll(effects[..n]), effects[n]);
      EffectsAgree(r, effects[..n], s);
      if Refuses(effects[n], s) {
        assert effects[..n] == [];
      }
      ApplyAgrees(r.ApplyAll(effects[..n]), effects[n], s);
    }
  }

  // ----- What handlers send -----

  /** Everything put out is plain, and a refusal is put out alone. */
  ghost predicate Proper(out: seq<Effect>, mayRefuse: bool) {
    && (forall k :: 0 <= k < |out| ==> Plain(out[k]))
    && (forall k, s :: 0 <= k < |out| && Refuses(out[k], s) ==> |out| == 1 && mayRefuse)
  }

  lemma TextsDiffer()
    ensures NOT_ACTIVE !in {"Missing id", "Result sender does not own session", "Unknown pinentry session",
                            "Invalid result type"}
    ensures NOT_ACTIVE !in {"Session is not accepting input", "Unknown session",
                            "Session is not awaiting direct response", "Session is not cancellable from this path"}
  {
    assert |NOT_ACTIVE| == 22;
    assert |"Session is not cancellable from this path"| == 41;
  }

  lemma ToldIsProper(c: Core, i: Input, authorized: bool)
    ensures forall k :: 0 <= k < |SocketsAreTold(c, i, authorized)| ==> Plain(SocketsAreTold(c, i, authorized)[k])
    ensures !(FromUser(i) && !authorized) ==>
              forall k, s :: 0 <= k < |SocketsAreTold(c, i, authorized)| ==>
                !Refuses(SocketsAreTold(c, i, authorized)[k], s)
  {
    TextsDiffer();
  }

  /** Handlers of the session side never speak for the registry, and refuse only the unauthorised. */
  lemma StepIsProper(c: Core, i: Input, authorized: bool, now: int)
    requires Fair(c, i)
    ensures Proper(c.Step(i, authorized, now).out, FromUser(i) && !authorized)
  {
    hide Core.Step, SocketsAreTold, Plain, Refuses, Filter;
    var out := c.Step(i, authorized, now).out;
    if FromUser(i) && !authorized {
      RefusalIsAlone(c, i, now);
    } else {
      ReactionsExact(c, i, authorized, now);
      ToldIsProper(c, i, authorized);
      forall k | 0 <= k < |out|
        ensures Plain(out[k]) && forall s :: !Refuses(out[k], s)
      {
        OnlySendsCount(out[k]);
        if out[k].Send? {
          Selected(out, out[k], ToSocket);
        }
      }
    }
  }

  lemma OnlySendsCount(e: Effect)
    ensures !e.Send? ==> Plain(e) && forall s :: !Refuses(e, s)
  {
  }

  lemma RefusalIsAlone(c: Core, i: Input, now: int)
    requires FromUser(i)
    ensures Proper(c.Step(i, false, now).out, true)
  {
  }

  // ----- Handlers of the routing side -----

  lemma SameElected(g: Registry, g': Registry, s: Socket)
    requires g.Settled() && g'.Settled() && g.active == g'.active
    ensures g.Authorized(s) <==> g'.Authorized(s)
  {
  }

  /** The registry changes somehow and somebody is elected from it. */
  lemma ChangeAgrees(r: Router, g: Registry, s: Socket)
    requires r.Valid() && Agrees(r, s) && g.Valid() && g.active == r.registry.active
    requires Own(g, s, Mirror(r, s).id) && Knows(r.(registry := g).Recheck(), s)
    ensures Agrees(r.(registry := g).Recheck(), s)
  {
    hide Mirror, Minted, Registry.Recompute, Router.Recheck;
    var changed := r.(registry := g);
    MirrorIgnoresRegistry(r, g, s);
    ElectionCorrect(g, r.connected, r.now);
    var elected := g.Recompute(r.connected, r.now);
    if elected.active == g.active {
      SameElected(r.registry, elected, s);
    }
    RecheckAgrees(changed, s);
  }

  /** Every registered provider has an id of its own, given out by the daemon. */
  ghost predicate Named(r: Router) {
    && (forall o :: o in r.registry.providers ==>
       r.registry.providers[o].id != "" && Minted(r.sent, r.registry.providers[o].id))
    && (forall a, b :: a in r.registry.providers && b in r.registry.providers && a != b ==>
          r.registry.providers[a].id != r.registry.providers[b].id)
  }

  /** The id is unused and nobody has ever been given it. */
  ghost predicate FreshId(r: Router, uuid: string) {
    && uuid != "" && !Minted(r.sent, uuid)
    && forall p :: p in r.registry.providers ==> r.registry.providers[p].id != uuid
  }

  lemma AfterElection(r: Router, o: Socket, reg: Registration, uuid: string, placed: seq<Socket>)
    requires r.Valid() && Enumerates(placed, r.registry.providers.Keys + {o})
    ensures var listed := r.registry.Register(o, reg, uuid, r.now, placed);
            var elected := listed.Recompute(r.connected, r.now);
            && elected.Settled() && (o in elected.providers <==> o in r.connected)
            && (o in elected.providers ==> elected.providers[o].id == listed.providers[o].id)
            && listed.providers[o].id == (if o in r.registry.providers
               && r.registry.providers[o].id != "" then r.registry.providers[o].id else uuid)
            && (forall p :: p in elected.providers && p != o ==>
                  p in r.registry.providers && elected.providers[p].id == r.registry.providers[p].id)
  {
    RegisterKeepsValid(r.registry, o, reg, uuid, r.now, placed);
    ElectionCorrect(r.registry.Register(o, reg, uuid, r.now, placed), r.connected, r.now);
  }

  /** Registering makes the client and the daemon agree, whatever came before. */
  lemma RegisteringAgrees(r: Router, s: Socket, reg: Registration, uuid: string, placed: seq<Socket>)
    requires r.Valid() && Enumerates(placed, r.registry.providers.Keys + {s}) && s in r.connected
    requires Named(r) && FreshId(r, uuid)
    ensures Agrees(r.Register(s, reg, uuid, placed), s)
  {
    hide Mirror, Registry.Recompute;
    AfterElection(r, s, reg, uuid, placed);
    var listed := r.registry.Register(s, reg, uuid, r.now, placed);
    var elected := listed.Recompute(r.connected, r.now);
    var r0, m := r.(registry := elected), Registered(listed.providers[s].id, Some(elected.active == Some(s)),
      listed.providers[s].priority);
    MirrorIgnoresRegistry(r, elected, s);
    PostMirror(r0, s, m, s);
    var r1 := r0.Post(s, m);
    RegisteredStanding(Mirror(r, s), listed.providers[s].id, elected.active == Some(s), listed.providers[s].priority);
    assert Minted(r1.sent, listed.providers[s].id) by {
      assert r1.sent[|r.sent|] == Sent(s, m);
    }
    assert Own(elected, s, listed.providers[s].id);
    assert Agrees(r1, s);
    if elected.active != r.registry.active || elected.active == Some(s) {
      AnnounceAgrees(r1, s);
    }
  }

  lemma RegisteredStanding(c: F.Client, id: string, active: bool, priority: int)
    ensures StandingOf(c.Handle(Registered(id, Some(active), priority))) == Standing(true, id, active)
  {
  }

  /** Somebody else's registration keeps the agreement. */
  lemma OtherRegisterAgrees(r: Router, o: Socket, reg: Registration, uuid: string, placed: seq<Socket>, s: Socket)
    requires r.Valid() && Enumerates(placed, r.registry.providers.Keys + {o}) && o != s
    requires FreshId(r, uuid) && Agrees(r, s) && Knows(r.Register(o, reg, uuid, placed), s)
    ensures Agrees(r.Register(o, reg, uuid, placed), s)
  {
    hide Mirror, Minted, Registry.Recompute;
    AfterElection(r, o, reg, uuid, placed);
    var listed := r.registry.Register(o, reg, uuid, r.now, placed);
    var elected := listed.Recompute(r.connected, r.now);
    var nowActive := elected.active == Some(o);
    var r0, m := r.(registry := elected), Registered(listed.providers[o].id, Some(nowActive),
      listed.providers[o].priority);
    MirrorIgnoresRegistry(r, elected, s);
    PostTells(r0, o, m, s);
    var r1 := r0.Post(o, m);
    assert Own(elected, s, Mirror(r, s).id);
    if elected.active != r.registry.active || nowActive {
      PostEachFrame(r1, elected.order + Filter(r1.subscribers, NotIn(elected.order)), r1.Status());
      AnnounceAgrees(r1, s);
    } else {
      SameElected(r.registry, elected, s);
    }
  }

  lemma HeartbeatAgrees(r: Router, o: Socket, s: Socket)
    requires r.Valid() && Agrees(r, s) && Knows(r.Heartbeat(o), s)
    ensures Agrees(r.Heartbeat(o), s)
  {
    hide Mirror, Minted, Router.Recheck;
    if o in r.registry.providers {
      var g := r.registry.Beat(o, r.now);
      assert g.providers.Keys == r.registry.providers.Keys;
      ChangeAgrees(r, g, s);
      var r' := r.(registry := g).Recheck();
      SendAgrees(r', o, Ok(Some(r'.registry.active == Some(o))), s);
    } else {
      FailureAgrees(r, o, s);
    }
  }

  lemma FailureAgrees(r: Router, o: Socket, s: Socket)
    requires Agrees(r, s)
    ensures Agrees(r.Post(o, Failure(NOT_REGISTERED)), s)
  {
    assert |NOT_REGISTERED| != |NOT_ACTIVE|;
    SendAgrees(r, o, Failure(NOT_REGISTERED), s);
  }

  lemma RemovalAgrees(r: Router, o: Socket, s: Socket)
    requires r.Valid() && Agrees(r, s) && o in r.registry.providers
    requires Knows(r.(registry := r.registry.Remove(o)).Recheck(), s)
    ensures Agrees(r.(registry := r.registry.Remove(o)).Recheck(), s)
  {
    hide Mirror, Minted;
    RemoveKeepsValid(r.registry, o);
    ChangeAgrees(r, r.registry.Remove(o), s);
  }

  lemma UnregisterAgrees(r: Router, o: Socket, s: Socket)
    requires r.Valid() && Agrees(r, s) && Knows(r.Unregister(o), s)
    ensures Agrees(r.Unregister(o), s)
  {
    hide Agrees, Router.Recheck;
    if o in r.registry.providers {
      RemovalAgrees(r, o, s);
      SendAgrees(r.(registry := r.registry.Remove(o)).Recheck(), o, Ok(None), s);
    } else {
      FailureAgrees(r, o, s);
    }
  }

  lemma LeaveAgrees(r: Router, o: Socket, s: Socket)
    requires r.Valid() && Agrees(r, s) && Knows(r.Leave(o), s) && o != s
    ensures Agrees(r.Leave(o), s)
  {
    hide Mirror, Minted, Router.Recheck;
    WithoutFirstGone(r.subscribers, o);
    var r0 := r.(subscribers := WithoutFirst(r.subscribers, o));
    assert Mirror(r0, s) == Mirror(r, s) by {
      MirrorIgnoresSubscribers(r, r0.subscribers, s);
    }
    if o in r.registry.providers {
      RemovalAgrees(r0, o, s);
    }
    var r' := if o in r.registry.providers then r0.(registry := r0.registry.Remove(o)).Recheck() else r0;
    MirrorIgnoresQueue(r', r'.queue.Forget(o), s);
  }

  lemma MirrorIgnoresSubscribers(r: Router, subscribers: seq<Socket>, s: Socket)
    ensures Mirror(r.(subscribers := subscribers), s) == Mirror(r, s)
  {
  }

  lemma SubscribeAgrees(r: Router, o: Socket, replay: seq<Event>, count: nat, s: Socket)
    requires r.Valid() && Agrees(r, s)
    ensures Agrees(r.Subscribe(o, replay, count), s)
  {
    hide Mirror, Minted;
    var r0 := r.(subscribers := if o in r.subscribers then r.subscribers else r.subscribers + [o]);
    MirrorIgnoresSubscribers(r, r0.subscribers, s);
    ReplayTells(r0, o, replay, s);
    ReplayFrame(r0, o, replay);
    var isActive := o in r.registry.providers && r.registry.active == Some(o);
    var hears := o !in r.registry.providers || isActive;
    var r' := if hears then r0.Replay(o, replay) else r0;
    SendAgrees(r', o, Subscribed(if hears then count else 0, if o in r.registry.providers then Some(isActive)
      else None), s);
  }

  lemma NextAgrees(r: Router, o: Socket, s: Socket)
    requires r.Valid() && Agrees(r, s)
    ensures Agrees(r.Next(o), s)
  {
    hide Mirror, Minted;
    var (q, ds) := r.queue.Ask(o);
    MirrorIgnoresQueue(r, q, s);
    DeliverTells(r.(queue := q), ds, s);
    DeliverFrame(r.(queue := q), ds);
  }

  // ----- What has been sent stays sent -----

  ghost predicate Grows(r: Router, r': Router) {
    |r.sent| <= |r'.sent| && r'.sent[..|r.sent|] == r.sent
  }

  lemma GrowsMints(r: Router, r': Router, id: string)
    requires Grows(r, r') && Minted(r.sent, id)
    ensures Minted(r'.sent, id)
  {
    var k :| 0 <= k < |r.sent| && r.sent[k].message.Registered? && r.sent[k].message.id == id;
    assert r'.sent[k] == r'.sent[..|r.sent|][k];
  }

  lemma GrowsOn(a: Router, b: Router, c: Router)
    requires Grows(a, b) && Grows(b, c)
    ensures Grows(a, c)
  {
    assert c.sent[..|a.sent|] == c.sent[..|b.sent|][..|a.sent|];
  }

  lemma {:induction false} PostEachGrows(r: Router, to: seq<Socket>, m: Message)
    ensures Grows(r, r.PostEach(to, m))
    decreases |to|
  {
    if to != [] {
      PostEachGrows(r.Post(to[0], m), to[1..], m);
      GrowsOn(r, r.Post(to[0], m), r.PostEach(to, m));
    }
  }

  lemma {:induction false} DeliverGrows(r: Router, ds: seq<Delivery>)
    ensures Grows(r, r.Deliver(ds))
    decreases |ds|
  {
    if ds != [] {
      DeliverGrows(r.Post(ds[0].0, SessionEvent(ds[0].1)), ds[1..]);
      GrowsOn(r, r.Post(ds[0].0, SessionEvent(ds[0].1)), r.Deliver(ds));
    }
  }

  lemma {:induction false} ReplayGrows(r: Router, s: Socket, replay: seq<Event>)
    ensures Grows(r, r.Replay(s, replay))
    decreases |replay|
  {
    if replay != [] {
      ReplayGrows(r.Post(s, SessionEvent(replay[0])), s, replay[1..]);
      GrowsOn(r, r.Post(s, SessionEvent(replay[0])), r.Replay(s, replay));
    }
  }

  lemma RecheckGrows(r: Router)
    ensures Grows(r, r.Recheck())
  {
    var r' := r.(registry := r.registry.Recompute(r.connected, r.now));
    PostEachGrows(r', r'.registry.order + Filter(r'.subscribers, NotIn(r'.registry.order)), r'.Status());
  }

  lemma ApplyGrows(r: Router, e: Effect)
    ensures Grows(r, r.Apply(e))
  {
    match e
    case Emit(event) =>
      var (q, ds) := r.queue.Publish(QUEUE_CAPACITY, event);
      var posted := r.PostEach(r.Targets(event), SessionEvent(event));
      PostEachGrows(r, r.Targets(event), SessionEvent(event));
      DeliverGrows(posted.(queue := q), ds);
      GrowsOn(r, posted, r.Route(event));
    case Recheck => RecheckGrows(r);
    case _ =>
  }

  lemma {:induction false} EffectsGrow(r: Router, effects: seq<Effect>)
    ensures Grows(r, r.ApplyAll(effects))
  {
    if effects != [] {
      var n := |effects| - 1;
      EffectsGrow(r, effects[..n]);
      ApplyGrows(r.ApplyAll(effects[..n]), effects[n]);
      GrowsOn(r, r.ApplyAll(effects[..n]), r.ApplyAll(effects));
    }
  }

  lemma RegisterGrows(r: Router, s: Socket, reg: Registration, uuid: string, placed: seq<Socket>)
    ensures Grows(r, r.Register(s, reg, uuid, placed))
  {
    hide Registry.Recompute;
    var listed := r.registry.Register(s, reg, uuid, r.now, placed);
    var elected := listed.Recompute(r.connected, r.now);
    var r1 := r.(registry := elected)
      .Post(s, Registered(listed.providers[s].id, Some(elected.active == Some(s)), listed.providers[s].priority));
    PostEachGrows(r1, r1.registry.order + Filter(r1.subscribers, NotIn(r1.registry.order)), r1.Status());
    GrowsOn(r, r1, r1.Announce());
  }

  lemma RoutedGrows(d: System, i: Input)
    ensures Grows(d.routes, d.Routed(i))
  {
    hide Router.Recheck, Router.Register;
    var r := d.routes;
    match i
    case Next(s) => DeliverGrows(r.(queue := r.queue.Ask(s).0), r.queue.Ask(s).1);
    case Subscribe(s, order) => SubscribeGrows(r, s, ReplayOf(d.core.live, order), |d.core.live|);
    case Register(s, reg, uuid, placed) => RegisterGrows(r, s, reg, uuid, placed);
    case Heartbeat(s) => RecheckGrows(r.(registry := r.registry.Beat(s, r.now)));
    case Unregister(s) => RecheckGrows(r.(registry := r.registry.Remove(s)));
    case Disconnected(s, _, _) =>
      var r0 := r.(subscribers := WithoutFirst(r.subscribers, s));
      RecheckGrows(r0.(registry := r0.registry.Remove(s)));
    case Tick => RecheckGrows(r);
    case _ =>
  }

  lemma SubscribeGrows(r: Router, s: Socket, replay: seq<Event>, count: nat)
    ensures Grows(r, r.Subscribe(s, replay, count))
  {
    ReplayGrows(r.(subscribers := if s in r.subscribers then r.subscribers else r.subscribers + [s]), s, replay);
  }
}
