/** From inputs to the window: what an enrolled client that may answer shows, and that what it shows is
    the truth about every session. */
module Windows {
  import opened Basics
  import opened Messages
  import opened Providers
  import opened EventQueues
  import opened Routing
  import opened Services
  import opened Daemon
  import opened Invariants
  import opened Runs
  import opened Agreement
  import opened AgreementRuns
  import opened Visibility
  import F = Fallback

  // ----- One event -----

  /** The events in order, each once or twice in a row: twice where the client was also waiting for one. */
  predicate Doubled(shown: seq<Event>, events: seq<Event>)
    decreases |events|
  {
    if events == [] then shown == []
    else
      var n, m, e := |events| - 1, |shown|, events[|events| - 1];
      || (m >= 1 && shown[m - 1] == e && Doubled(shown[..m - 1], events[..n]))
      || (m >= 2 && shown[m - 2..] == [e, e] && Doubled(shown[..m - 2], events[..n]))
  }

  lemma DoubledSplit(shown: seq<Event>, events: seq<Event>) returns (before: seq<Event>, x: seq<Event>)
    requires Doubled(shown, events) && events != []
    ensures shown == before + x && Doubled(before, events[..|events| - 1])
    ensures var e := events[|events| - 1]; x == [e] || x == [e, e]
  {
    var n, m, e := |events| - 1, |shown|, events[|events| - 1];
    if m >= 1 && shown[m - 1] == e && Doubled(shown[..m - 1], events[..n]) {
      before, x := shown[..m - 1], [e];
    } else {
      before, x := shown[..m - 2], [e, e];
      assert shown == shown[..m - 2] + shown[m - 2..];
    }
  }

  lemma {:induction false} DoubledLast(shown: seq<Event>, events: seq<Event>)
    requires Doubled(shown, events)
    ensures forall e :: e in events <==> e in shown
    ensures events != [] ==> shown != [] && shown[|shown| - 1] == events[|events| - 1]
    decreases |events|
  {
    if events != [] {
      hide Doubled;
      var n, e := |events| - 1, events[|events| - 1];
      var before, x := DoubledSplit(shown, events);
      DoubledLast(before, events[..n]);
      SameMembers(before, events[..n], x, e);
      assert events == events[..n] + [e];
    }
  }

  lemma SameMembers(shown: seq<Event>, events: seq<Event>, x: seq<Event>, e: Event)
    requires (forall o :: o in events <==> o in shown) && (x == [e] || x == [e, e])
    ensures forall o :: o in events + [e] <==> o in shown + x
  {
  }

  lemma DoubledOn(shown: seq<Event>, events: seq<Event>, x: seq<Event>, e: Event)
    requires Doubled(shown, events) && (x == [e] || x == [e, e])
    ensures Doubled(shown + x, events + [e])
  {
    assert (events + [e])[..|events|] == events;
    if x == [e] {
      assert (shown + x)[..|shown + x| - 1] == shown;
    } else {
      assert (shown + x)[..|shown + x| - 2] == shown && (shown + x)[|shown + x| - 2..] == [e, e];
    }
  }

  /** A session event that is put out is shown at once by an enrolled client that may answer. */
  lemma RouteShows(r: Router, e: Event, s: Socket)
    requires r.Valid() && Agrees(r, s) && Knows(r, s) && r.registry.Authorized(s) && IsSessionEvent(e)
    ensures var shown, shown' := Mirror(r, s).shown, Mirror(r.Route(e), s).shown;
            shown' == shown + [e] || (s in r.queue.waiters && shown' == shown + [e, e])
  {
    hide Mirror, Minted;
    var posted := r.PostEach(r.Targets(e), SessionEvent(e));
    var (q, ds) := r.queue.Publish(QUEUE_CAPACITY, e);
    assert s in r.Targets(e) && Distinct(r.Targets(e));
    PostEachShows(r, r.Targets(e), e, s);
    PostEachTells(r, r.Targets(e), SessionEvent(e), s);
    MirrorIgnoresQueue(posted, q, s);
    if r.queue.waiters == [] {
      assert ds == [];
      assert posted.(queue := q).Deliver([]) == posted.(queue := q);
    } else {
      NewEventGoesToWaiter(r.queue, e);
      OneDelivery(posted.(queue := q), r.queue.waiters[0], e, s);
      PostMirror(posted.(queue := q), r.queue.waiters[0], SessionEvent(e), s);
      ActiveShows(Mirror(posted, s), e);
    }
  }

  lemma ActiveShows(c: F.Client, e: Event)
    requires c.active && IsSessionEvent(e)
    ensures c.Handle(SessionEvent(e)) == c.(shown := c.shown + [e])
  {
  }

  lemma NewEventGoesToWaiter(q: Queue, e: Event)
    requires q.waiters != [] && q.events == []
    ensures q.Publish(QUEUE_CAPACITY, e).1 == [(q.waiters[0], e)]
  {
    var p := q.Enqueue(QUEUE_CAPACITY, e);
    assert p.events == [e] && p.Deliveries() == [(q.waiters[0], e)];
  }

  lemma OneDelivery(r: Router, to: Socket, e: Event, s: Socket)
    ensures r.Deliver([(to, e)]) == r.Post(to, SessionEvent(e))
  {
    assert [(to, e)][1..] == [];
    assert r.Post(to, SessionEvent(e)).Deliver([]) == r.Post(to, SessionEvent(e));
  }

  // ----- The outputs of a step -----

  /** The session events among outputs. */
  function Emitted(out: seq<Effect>): seq<Event> {
    if out == [] then []
    else
      var e := out[|out| - 1];
      Emitted(out[..|out| - 1]) + if e.Emit? && IsSessionEvent(e.event) then [e.event] else []
  }

  /** Between the two the client has come to show these events. */
  ghost predicate Shows(r: Router, r': Router, s: Socket, events: seq<Event>) {
    var shown, shown' := Mirror(r, s).shown, Mirror(r', s).shown;
    shown <= shown' && Doubled(shown'[|shown|..], events)
  }

  lemma ShowsNothing(r: Router, r': Router, s: Socket)
    requires Mirror(r', s).shown == Mirror(r, s).shown
    ensures Shows(r, r', s, [])
  {
  }

  lemma ShowsOn(a: Router, b: Router, c: Router, s: Socket, events: seq<Event>, e: Event)
    requires Shows(a, b, s, events)
    requires Mirror(c, s).shown == Mirror(b, s).shown + [e] || Mirror(c, s).shown == Mirror(b, s).shown + [e, e]
    ensures Shows(a, c, s, events + [e])
  {
    hide Mirror, Doubled;
    var x, y, z := Mirror(a, s).shown, Mirror(b, s).shown, Mirror(c, s).shown;
    assert z[|x|..] == y[|x|..] + z[|y|..];
    DoubledOn(y[|x|..], events, z[|y|..], e);
  }

  /** Outputs other than session events show nothing. */
  lemma QuietOutputs(r: Router, e: Effect, s: Socket)
    requires r.Valid() && Agrees(r, s) && Plain(e) && !(e.Emit? && IsSessionEvent(e.event))
    ensures Mirror(r.Apply(e), s).shown == Mirror(r, s).shown
  {
    hide Mirror, Minted, Router.Recheck;
    match e
    case Emit(event) => NoticeShowsNothing(r, event, s);
    case Recheck => RecheckShowsNothing(r, s);
    case Send(to, m) =>
      PostMirror(r, to, m, s);
      HandleShows(Mirror(r, s), m);
    case _ =>
  }

  lemma NoticeShowsNothing(r: Router, e: Event, s: Socket)
    requires r.Valid() && !IsSessionEvent(e)
    ensures Mirror(r.Route(e), s).shown == Mirror(r, s).shown
  {
    hide Mirror;
    var posted := r.PostEach(r.Targets(e), SessionEvent(e));
    var (q, ds) := r.queue.Publish(QUEUE_CAPACITY, e);
    StatusShowsNothing(r, r.Targets(e), SessionEvent(e), s);
    MirrorIgnoresQueue(posted, q, s);
    if r.queue.waiters == [] {
      assert ds == [];
      assert posted.(queue := q).Deliver([]) == posted.(queue := q);
    } else {
      NewEventGoesToWaiter(r.queue, e);
      OneDelivery(posted.(queue := q), r.queue.waiters[0], e, s);
      PostMirror(posted.(queue := q), r.queue.waiters[0], SessionEvent(e), s);
      HandleShows(Mirror(posted, s), SessionEvent(e));
    }
  }

  lemma RecheckShowsNothing(r: Router, s: Socket)
    ensures Mirror(r.Recheck(), s).shown == Mirror(r, s).shown
  {
    hide Mirror, Registry.Recompute;
    var r' := r.(registry := r.registry.Recompute(r.connected, r.now));
    MirrorIgnoresRegistry(r, r'.registry, s);
    StatusShowsNothing(r', r'.registry.order + Filter(r'.subscribers, NotIn(r'.registry.order)), r'.Status(), s);
  }

  lemma {:induction false} StatusShowsNothing(r: Router, to: seq<Socket>, m: Message, s: Socket)
    requires m.SessionEvent? ==> !IsSessionEvent(m.event)
    ensures Mirror(r.PostEach(to, m), s).shown == Mirror(r, s).shown
    decreases |to|
  {
    hide Mirror;
    if to != [] {
      PostMirror(r, to[0], m, s);
      HandleShows(Mirror(r, s), m);
      StatusShowsNothing(r.Post(to[0], m), to[1..], m, s);
    }
  }

  /** Every output of a step is shown in order, as long as the client may answer all through it. */
  lemma {:induction false} OutputsAreShown(r: Router, out: seq<Effect>, s: Socket)
    requires r.Valid() && Agrees(r, s) && Knows(r.ApplyAll(out), s)
    requires forall k :: 0 <= k < |out| ==> Plain(out[k])
    requires forall k :: 0 <= k < |out| && Refuses(out[k], s) ==> |out| == 1 && !r.registry.Authorized(s)
    requires forall k :: 0 <= k <= |out| ==> r.ApplyAll(out[..k]).registry.Authorized(s)
    ensures Shows(r, r.ApplyAll(out), s, Emitted(out))
  {
    hide Agrees, Router.Valid, Router.Apply, Plain, Registry.Authorized, Shows, Mirror;
    if out == [] {
      ShowsNothing(r, r, s);
    } else {
      var n := |out| - 1;
      var rest, e := out[..n], out[n];
      var r' := r.ApplyAll(rest);
      forall k | 0 <= k <= n
        ensures rest[..k] == out[..k]
      {
      }
      EffectsKeepValid(r, rest);
      EffectKeepsValid(r', e);
      EffectsAgree(r, rest, s);
      OutputsAreShown(r, rest, s);
      if e.Emit? && IsSessionEvent(e.event) {
        AppliedRoutes(r', e);
        RouteShows(r', e.event, s);
        ShowsOn(r, r', r'.Apply(e), s, Emitted(rest), e.event);
      } else {
        QuietOutputs(r', e, s);
        ShowsSame(r, r', r'.Apply(e), s, Emitted(rest));
        assert Emitted(out) == Emitted(rest);
      }
    }
  }

  lemma AppliedRoutes(r: Router, e: Effect)
    requires e.Emit?
    ensures r.Apply(e) == r.Route(e.event)
  {
  }

  lemma ShowsSame(a: Router, b: Router, c: Router, s: Socket, events: seq<Event>)
    requires Shows(a, b, s, events) && Mirror(c, s).shown == Mirror(b, s).shown
    ensures Shows(a, c, s, events)
  {
    hide Mirror, Doubled;
  }

  // ----- The routing side -----

  /** Both of these ask for events; nothing else the routing side does shows any. */
  predicate AsksForEvents(i: Input, s: Socket) {
    (i.Next? || i.Subscribe?) && i.socket == s
  }

  lemma PostShowsNothing(r: Router, to: Socket, m: Message, s: Socket)
    requires m.SessionEvent? ==> to != s
    ensures Mirror(r.Post(to, m), s).shown == Mirror(r, s).shown
  {
    hide Mirror;
    PostMirror(r, to, m, s);
    HandleShows(Mirror(r, s), m);
  }

  lemma RegisterShowsNothing(r: Router, o: Socket, reg: Registration, uuid: string, placed: seq<Socket>, s: Socket)
    ensures Mirror(r.Register(o, reg, uuid, placed), s).shown == Mirror(r, s).shown
  {
    hide Mirror, Registry.Recompute, Registry.Register;
    var listed := r.registry.Register(o, reg, uuid, r.now, placed);
    assert o in listed.providers by {
      Listed(r.registry, o, reg, uuid, r.now, placed);
    }
    var elected := listed.Recompute(r.connected, r.now);
    var m := Registered(listed.providers[o].id, Some(elected.active == Some(o)), listed.providers[o].priority);
    var r0 := r.(registry := elected);
    var r1 := r0.Post(o, m);
    MirrorIgnoresRegistry(r, elected, s);
    PostShowsNothing(r0, o, m, s);
    StatusShowsNothing(r1, r1.registry.order + Filter(r1.subscribers, NotIn(r1.registry.order)), r1.Status(), s);
  }

  lemma Listed(g: Registry, o: Socket, reg: Registration, uuid: string, now: int, placed: seq<Socket>)
    ensures o in g.Register(o, reg, uuid, now, placed).providers
  {
  }

  lemma HeartbeatShowsNothing(r: Router, o: Socket, s: Socket)
    ensures Mirror(r.Heartbeat(o), s).shown == Mirror(r, s).shown
  {
    hide Mirror, Router.Recheck;
    PostShowsNothing(r, o, Failure(NOT_REGISTERED), s);
    var r0 := r.(registry := r.registry.Beat(o, r.now));
    MirrorIgnoresRegistry(r, r0.registry, s);
    RecheckShowsNothing(r0, s);
    PostShowsNothing(r0.Recheck(), o, Ok(Some(r0.Recheck().registry.active == Some(o))), s);
  }

  lemma DepartureShowsNothing(r: Router, o: Socket, s: Socket)
    ensures Mirror(r.Unregister(o), s).shown == Mirror(r, s).shown
    ensures Mirror(r.Leave(o), s).shown == Mirror(r, s).shown
  {
    hide Mirror, Router.Recheck;
    PostShowsNothing(r, o, Failure(NOT_REGISTERED), s);
    var r0 := r.(registry := r.registry.Remove(o));
    MirrorIgnoresRegistry(r, r0.registry, s);
    RecheckShowsNothing(r0, s);
    PostShowsNothing(r0.Recheck(), o, Ok(None), s);
    var left := r.(subscribers := WithoutFirst(r.subscribers, o));
    var r1 := left.(registry := r.registry.Remove(o));
    SentDecides(r, left, s);
    SentDecides(r, r1, s);
    RecheckShowsNothing(r1, s);
    SentDecides(r1.Recheck(), r1.Recheck().(queue := r1.Recheck().queue.Forget(o)), s);
    SentDecides(left, left.(queue := left.queue.Forget(o)), s);
  }

  lemma SentDecides(r: Router, r': Router, s: Socket)
    requires r.sent == r'.sent
    ensures Mirror(r', s) == Mirror(r, s)
  {
  }

  lemma NextShowsNothing(r: Router, o: Socket, s: Socket)
    requires o != s
    ensures Mirror(r.Next(o), s).shown == Mirror(r, s).shown
  {
    hide Mirror;
    var (q, ds) := r.queue.Ask(o);
    MirrorIgnoresQueue(r, q, s);
    DeliverPasses(r.(queue := q), ds, s);
  }

  lemma SubscribeElsewhereShowsNothing(r: Router, o: Socket, replay: seq<Event>, count: nat, s: Socket)
    requires o != s
    ensures Mirror(r.Subscribe(o, replay, count), s).shown == Mirror(r, s).shown
  {
    hide Mirror;
    var r0 := r.(subscribers := if o in r.subscribers then r.subscribers else r.subscribers + [o]);
    SentDecides(r, r0, s);
    ReplayElsewhere(r0, o, replay, s);
    var isActive := o in r.registry.providers && r.registry.active == Some(o);
    var hears := o !in r.registry.providers || isActive;
    PostShowsNothing(if hears then r0.Replay(o, replay) else r0, o,
                     Subscribed(if hears then count else 0, if o in r.registry.providers then Some(isActive) else None),
                     s);
  }

  lemma {:induction false} ReplayElsewhere(r: Router, o: Socket, replay: seq<Event>, s: Socket)
    requires o != s
    ensures Mirror(r.Replay(o, replay), s) == Mirror(r, s)
    decreases |replay|
  {
    hide Mirror;
    if replay != [] {
      PostMirror(r, o, SessionEvent(replay[0]), s);
      ReplayElsewhere(r.Post(o, SessionEvent(replay[0])), o, replay[1..], s);
    }
  }

  lemma RoutedShowsNothing(d: System, i: Input, s: Socket)
    requires !AsksForEvents(i, s)
    ensures Mirror(d.Routed(i), s).shown == Mirror(d.routes, s).shown
  {
    hide Mirror, Router.Next, Router.Subscribe, Router.Register, Router.Heartbeat, Router.Unregister, Router.Leave;
    hide Router.Recheck;
    var r := d.routes;
    match i
    case Register(o, reg, uuid, placed) => RegisterShowsNothing(r, o, reg, uuid, placed, s);
    case Heartbeat(o) => HeartbeatShowsNothing(r, o, s);
    case Unregister(o) => DepartureShowsNothing(r, o, s);
    case Disconnected(o, _, _) => DepartureShowsNothing(r, o, s);
    case Tick => RecheckShowsNothing(r, s);
    case Next(o) => NextShowsNothing(r, o, s);
    case Subscribe(o, order) => SubscribeElsewhereShowsNothing(r, o, ReplayOf(d.core.live, order), |d.core.live|, s);
    case _ => SentDecides(r, d.Routed(i), s);
  }

  // ----- Steps -----

  /** A step shows the session events it puts out, in order, to an enrolled client that may answer all
      through it. */
  lemma StepShows(d: System, i: Input, s: Socket)
    requires Sound(d) && Named(d.routes) && d.Enabled(i) && Agrees(d.routes, s) && !AsksForEvents(i, s)
    requires KeepsConnection(i, s) && Knows(d.Step(i).routes, s) && Steady(d, i, s, true)
    ensures Shows(d.routes, d.Step(i).routes, s, Emitted(d.Outputs(i).out))
  {
    hide Named, Agrees, Shows, Core.Step, System.Enabled, Router.ApplyAll, CoreSound, System.Routed;
    hide Registry.Authorized, AsksForEvents, Mirror;
    var authorized := (i.Respond? || i.Cancel?) && d.routes.registry.Authorized(i.socket);
    var r, out := d.Routed(i), d.Outputs(i).out;
    RoutedKeepsValid(d, i);
    EffectsKeepValid(r, out);
    RoutedAgrees(d, i, s);
    RoutedShowsNothing(d, i, s);
    EnabledIsFair(d, i);
    StepIsProper(d.core, i, authorized, d.routes.now);
    UserInputsRouteNothing(d, i);
    if FromUser(i) && !authorized {
      RefusedIsSender(d.core, i, authorized, d.routes.now, s);
    }
    OutputsAreShown(r, out, s);
    ShowsFrom(d.routes, r, d.Step(i).routes, s, Emitted(out));
  }

  lemma ShowsFrom(a: Router, b: Router, c: Router, s: Socket, events: seq<Event>)
    requires Mirror(b, s).shown == Mirror(a, s).shown && Shows(b, c, s, events)
    ensures Shows(a, c, s, events)
  {
    hide Mirror, Doubled;
  }
}
