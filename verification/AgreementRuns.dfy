/** Agreement between the daemon and a fallback client over whole runs. */
module AgreementRuns {
  import opened Basics
  import opened Messages
  import opened Providers
  import opened EventQueues
  import opened Routing
  import opened Services
  import opened Daemon
  import opened Invariants
  import opened Runs
  import opened Clocks
  import opened Agreement
  import F = Fallback

  // ----- Ids -----

  ghost predicate KeepsIds(r: Router, r': Router) {
    forall p :: p in r'.registry.providers ==>
      p in r.registry.providers && r'.registry.providers[p].id == r.registry.providers[p].id
  }

  lemma RegisterMints(r: Router, s: Socket, reg: Registration, uuid: string, placed: seq<Socket>)
    requires s in r.connected
    ensures Minted(r.Register(s, reg, uuid, placed).sent,
            r.registry.Register(s, reg, uuid, r.now, placed).providers[s].id)
  {
    hide Registry.Recompute;
    var listed := r.registry.Register(s, reg, uuid, r.now, placed);
    var elected := listed.Recompute(r.connected, r.now);
    var m := Registered(listed.providers[s].id, Some(elected.active == Some(s)), listed.providers[s].priority);
    var r1 := r.(registry := elected).Post(s, m);
    PostEachGrows(r1, r1.registry.order + Filter(r1.subscribers, NotIn(r1.registry.order)), r1.Status());
    assert r1.sent[|r.sent|] == Sent(s, m);
    GrowsMints(r1, r1.Announce(), listed.providers[s].id);
  }

  lemma RegisterNamed(r: Router, s: Socket, reg: Registration, uuid: string, placed: seq<Socket>)
    requires r.Valid() && Named(r) && FreshId(r, uuid) && Enumerates(placed, r.registry.providers.Keys + {s})
    ensures Named(r.Register(s, reg, uuid, placed))
  {
    hide Minted, Router.Register, Registry.Recompute, Registry.Register;
    var r' := r.Register(s, reg, uuid, placed);
    AfterElection(r, s, reg, uuid, placed);
    RegisterElects(r, s, reg, uuid, placed);
    if s in r.connected {
      RegisterMints(r, s, reg, uuid, placed);
    }
    RegisterGrows(r, s, reg, uuid, placed);
    forall o | o in r.registry.providers
      ensures Minted(r'.sent, r.registry.providers[o].id)
    {
      GrowsMints(r, r', r.registry.providers[o].id);
    }
  }

  lemma KeepingIdsIsNamed(r: Router, r': Router)
    requires Named(r) && KeepsIds(r, r') && Grows(r, r')
    ensures Named(r')
  {
    hide Minted;
    forall o | o in r'.registry.providers
      ensures Minted(r'.sent, r'.registry.providers[o].id)
    {
      GrowsMints(r, r', r.registry.providers[o].id);
    }
  }

  lemma RoutedKeepsIds(d: System, i: Input)
    requires d.routes.Valid() && d.Enabled(i) && !i.Register?
    ensures KeepsIds(d.routes, d.Routed(i))
  {
    hide Router.Next, Router.Subscribe, Router.Register, Router.Recheck;
    var r := d.routes;
    match i
    case Heartbeat(s) => 
      if s in r.registry.providers {
        assert r.registry.Beat(s, r.now).providers.Keys == r.registry.providers.Keys;
        RecheckSweeps(r.(registry := r.registry.Beat(s, r.now)));
      }
    case Unregister(s) => DepartureKeepsIds(r, s);
    case Disconnected(s, _, _) => DepartureKeepsIds(r, s);
    case Tick => RecheckSweeps(r);
    case Next(s) => NextLeavesRegistry(r, s);
    case Subscribe(s, order) => SubscribeLeavesRegistry(r, s, ReplayOf(d.core.live, order), |d.core.live|);
    case _ =>
  }

  lemma DepartureKeepsIds(r: Router, s: Socket)
    requires r.Valid()
    ensures KeepsIds(r, r.Unregister(s)) && KeepsIds(r, r.Leave(s))
  {
    hide Router.Recheck;
    if s in r.registry.providers {
      RemoveKeepsValid(r.registry, s);
      WithoutFirstGone(r.subscribers, s);
      RecheckSweeps(r.(registry := r.registry.Remove(s)));
      RecheckSweeps(r.(subscribers := WithoutFirst(r.subscribers, s), registry := r.registry.Remove(s)));
    }
  }

  lemma EnabledIdIsFresh(d: System, i: Input)
    requires d.Enabled(i) && i.Register?
    ensures FreshId(d.routes, i.uuid)
    ensures Enumerates(i.placed, d.routes.registry.providers.Keys + {i.socket})
  {
  }

  lemma StepKeepsNamed(d: System, i: Input)
    requires d.routes.Valid() && Named(d.routes) && d.Enabled(i)
    ensures Named(d.Step(i).routes)
  {
    hide Core.Step, System.Enabled, Router.Valid, Named, Router.ApplyAll, Router.Register, FreshId;
    RoutedNamed(d, i);
    RoutedKeepsValid(d, i);
    EffectsRetain(d.Routed(i), d.Outputs(i).out);
    EffectsGrow(d.Routed(i), d.Outputs(i).out);
    KeepingIdsIsNamed(d.Routed(i), d.Step(i).routes);
  }

  lemma RoutedNamed(d: System, i: Input)
    requires d.routes.Valid() && Named(d.routes) && d.Enabled(i)
    ensures Named(d.Routed(i))
  {
    hide System.Enabled, Router.Valid, Named, Router.Register, FreshId, System.Routed;
    if i.Register? {
      EnabledIdIsFresh(d, i);
      RegisterNamed(d.routes, i.socket, i.registration, i.uuid, i.placed);
      RoutedRegister(d, i);
    } else {
      RoutedKeepsIds(d, i);
      RoutedGrows(d, i);
      KeepingIdsIsNamed(d.routes, d.Routed(i));
    }
  }

  lemma RoutedRegister(d: System, i: Input)
    requires i.Register?
    ensures d.Routed(i) == d.routes.Register(i.socket, i.registration, i.uuid, i.placed)
  {
  }

  // ----- Steps -----

  /** The connection of `s` is not lost by this input. */
  predicate KeepsConnection(i: Input, s: Socket) {
    !((i.HangUp? || i.Disconnected?) && i.socket == s)
  }

  lemma RoutedAgrees(d: System, i: Input, s: Socket)
    requires d.routes.Valid() && Named(d.routes) && d.Enabled(i) && KeepsConnection(i, s) && Knows(d.Routed(i), s)
    requires Agrees(d.routes, s) || (i.Register? && i.socket == s && s in d.routes.connected)
    ensures Agrees(d.Routed(i), s)
  {
    hide Named, FreshId, Router.Next, Router.Subscribe, Router.Register;
    hide Router.Heartbeat, Router.Unregister, Router.Leave, Router.Recheck, Mirror, Minted;
    var r := d.routes;
    match i
    case Register(o, reg, uuid, placed) =>
      EnabledIdIsFresh(d, i);
      if o == s {
        RegisteringAgrees(r, s, reg, uuid, placed);
      } else {
        OtherRegisterAgrees(r, o, reg, uuid, placed, s);
      }
    case Heartbeat(o) => HeartbeatAgrees(r, o, s);
    case Unregister(o) => UnregisterAgrees(r, o, s);
    case Disconnected(o, _, _) => LeaveAgrees(r, o, s);
    case Tick => ReelectionAgrees(r, s);
    case Next(o) => NextAgrees(r, o, s);
    case Subscribe(o, order) => SubscribeAgrees(r, o, ReplayOf(d.core.live, order), |d.core.live|, s);
    case _ => WorldAgrees(d, i, s);
  }

  lemma WorldAgrees(d: System, i: Input, s: Socket)
    requires Agrees(d.routes, s) && KeepsConnection(i, s) &&
             (i.Connect? || i.HangUp? || i.Advance? || d.Routed(i) == d.routes)
    ensures Agrees(d.Routed(i), s)
  {
    assert Mirror(d.Routed(i), s) == Mirror(d.routes, s);
  }

  lemma StepAgrees(d: System, i: Input, s: Socket)
    requires Sound(d) && Named(d.routes) && d.Enabled(i) && KeepsConnection(i, s) && Knows(d.Step(i).routes, s)
    requires Agrees(d.routes, s) || (i.Register? && i.socket == s && s in d.routes.connected)
    ensures Agrees(d.Step(i).routes, s)
  {
    hide Named, Agrees, Core.Step, System.Enabled, Router.ApplyAll, CoreSound, System.Routed;
    var authorized := (i.Respond? || i.Cancel?) && d.routes.registry.Authorized(i.socket);
    RoutedKeepsValid(d, i);
    EffectsKeepValid(d.Routed(i), d.Outputs(i).out);
    RoutedAgrees(d, i, s);
    EnabledIsFair(d, i);
    StepIsProper(d.core, i, authorized, d.routes.now);
    UserInputsRouteNothing(d, i);
    if FromUser(i) && !authorized {
      RefusedIsSender(d.core, i, authorized, d.routes.now, s);
    }
    EffectsAgree(d.Routed(i), d.Outputs(i).out, s);
  }

  lemma UserInputsRouteNothing(d: System, i: Input)
    ensures FromUser(i) ==> d.Routed(i) == d.routes
  {
  }

  /** Who is refused is who sent the input. */
  lemma RefusedIsSender(c: Core, i: Input, authorized: bool, now: int, s: Socket)
    requires FromUser(i) && !authorized
    ensures forall k :: 0 <= k < |c.Step(i, authorized, now).out| && Refuses(c.Step(i, authorized, now).out[k], s) ==>
            i.socket == s
  {
  }

  // ----- Runs -----

  /** Since some registration of `s` in the run, its connection has lasted and the daemon has kept it
      in a list: registered, or, after being thrown out for silence, still subscribed. */
  ghost predicate Enrolled(d: System, run: seq<Input>, s: Socket) {
    && run != []
    && var i := run[|run| - 1];
       && KeepsConnection(i, s) && Knows(After(d, run).routes, s)
       && ((i.Register? && i.socket == s && s in After(d, run).routes.connected) || Enrolled(d, run[..|run| - 1], s))
  }

  lemma {:induction false} RunKeepsNamed(d: System, run: seq<Input>)
    requires Sound(d) && Named(d.routes) && Admissible(d, run)
    ensures Named(After(d, run).routes)
  {
    hide Sound, Named, System.Step, System.Enabled;
    if run != [] {
      var rest := run[..|run| - 1];
      RunKeepsNamed(d, rest);
      RunKeepsSound(d, rest);
      RoutesOfSound(After(d, rest));
      StepKeepsNamed(After(d, rest), run[|run| - 1]);
    }
  }

  lemma {:induction false} EnrolledAgrees(d: System, run: seq<Input>, s: Socket)
    requires Sound(d) && Named(d.routes) && Admissible(d, run) && Enrolled(d, run, s)
    ensures Agrees(After(d, run).routes, s)
  {
    hide Sound, Named, System.Step, System.Enabled, Agrees, Knows;
    var rest, i := run[..|run| - 1], run[|run| - 1];
    RunKeepsSound(d, rest);
    RunKeepsNamed(d, rest);
    if i.Register? && i.socket == s && s in After(d, run).routes.connected {
      RoutesOfSound(After(d, rest));
      WorldAfterStep(After(d, rest), i);
    } else {
      EnrolledAgrees(d, rest, s);
    }
    StepAgrees(After(d, rest), i, s);
  }

  lemma AgreesMeans(r: Router, s: Socket)
    requires Agrees(r, s)
    ensures FRESH.HandleAll(Inbox(r.sent, s)).active <==> r.registry.Authorized(s)
  {
  }

  /** Agreement: in every run, for every enrolled client and however many of the messages sent to it
      are still on their way, folding its message handler over those messages makes it believe to be
      elected exactly when the daemon would let it answer. */
  lemma ClientAgreesWithDaemon(d: System, run: seq<Input>, s: Socket, handled: nat)
    requires Sound(d) && Named(d.routes) && Admissible(d, run) && Enrolled(d, run, s)
    requires handled <= |Inbox(After(d, run).routes.sent, s)|
    ensures var inbox := Inbox(After(d, run).routes.sent, s);
            var now := FRESH.HandleAll(inbox[..handled]);
            now.HandleAll(inbox[handled..]).active <==> After(d, run).routes.registry.Authorized(s)
  {
    hide Sound, Named, System.Step, System.Enabled, Enrolled, Agrees, Inbox, F.Client.HandleAll;
    EnrolledAgrees(d, run, s);
    AgreesMeans(After(d, run).routes, s);
    var inbox := Inbox(After(d, run).routes.sent, s);
    F.HandleAllAppend(FRESH, inbox[..handled], inbox[handled..]);
    assert inbox[..handled] + inbox[handled..] == inbox;
  }

  // ----- No event is filtered -----

  lemma {:induction false} PostEachShows(r: Router, to: seq<Socket>, e: Event, s: Socket)
    requires Mirror(r, s).active && Distinct(to) && s in r.connected && IsSessionEvent(e)
    ensures Mirror(r.PostEach(to, SessionEvent(e)), s) ==
            if s in to then Mirror(r, s).(shown := Mirror(r, s).shown + [e]) else Mirror(r, s)
    decreases |to|
  {
    hide Mirror;
    if to != [] {
      PostMirror(r, to[0], SessionEvent(e), s);
      var r' := r.Post(to[0], SessionEvent(e));
      if to[0] == s {
        assert s !in to[1..];
      }
      PostEachShows(r', to[1..], e, s);
    }
  }

  /** A session event routed to an agreeing client that may answer is shown, not filtered on arrival. */
  lemma RoutedEventIsShown(r: Router, e: Event, s: Socket)
    requires r.Valid() && Agrees(r, s) && IsSessionEvent(e) && s in r.Targets(e) && s !in r.queue.waiters
    ensures Mirror(r.Route(e), s) == Mirror(r, s).(shown := Mirror(r, s).shown + [e])
  {
    hide Mirror, Minted;
    assert r.registry.Authorized(s);
    var (q, ds) := r.queue.Publish(QUEUE_CAPACITY, e);
    var posted := r.PostEach(r.Targets(e), SessionEvent(e));
    PostEachShows(r, r.Targets(e), e, s);
    MirrorIgnoresQueue(posted, q, s);
    DeliverPasses(posted.(queue := q), ds, s);
  }

  lemma {:induction false} DeliverPasses(r: Router, ds: seq<Delivery>, s: Socket)
    requires forall k :: 0 <= k < |ds| ==> ds[k].0 != s
    ensures Mirror(r.Deliver(ds), s) == Mirror(r, s)
    decreases |ds|
  {
    hide Mirror;
    if ds != [] {
      PostMirror(r, ds[0].0, SessionEvent(ds[0].1), s);
      DeliverPasses(r.Post(ds[0].0, SessionEvent(ds[0].1)), ds[1..], s);
    }
  }
}
