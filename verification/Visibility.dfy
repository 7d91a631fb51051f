/** Which session events an enrolled client shows: those that reach it while it may answer, however they
    reach it, and no others. */
module Visibility {
  import opened Basics
  import opened Messages
  import opened Sessions
  import opened Providers
  import opened EventQueues
  import opened Routing
  import opened Services
  import opened Daemon
  import opened Invariants
  import opened Runs
  import opened Agreement
  import opened AgreementRuns
  import F = Fallback

  // ----- What is posted and what is shown -----

  /** The session events among the messages, in order. */
  function Events(ms: seq<Message>): seq<Event> {
    if ms == [] then []
    else
      var m := ms[|ms| - 1];
      Events(ms[..|ms| - 1]) + if m.SessionEvent? && IsSessionEvent(m.event) then [m.event] else []
  }

  /** Every session event written to `s` so far. */
  function Posted(r: Router, s: Socket): seq<Event> {
    Events(Inbox(r.sent, s))
  }

  /** From `r` to `r'` the client on `s` comes to show all the session events posted to it in between,
      if it may answer, and none of them otherwise. */
  ghost predicate Seen(r: Router, r': Router, s: Socket, may: bool) {
    && Posted(r, s) <= Posted(r', s)
    && Mirror(r', s).shown == Mirror(r, s).shown + if may then Posted(r', s)[|Posted(r, s)|..] else []
  }

  lemma SeenOn(a: Router, b: Router, c: Router, s: Socket, may: bool)
    requires Seen(a, b, s, may) && Seen(b, c, s, may)
    ensures Seen(a, c, s, may)
  {
    hide Mirror, Posted;
    var x, y, z := Posted(a, s), Posted(b, s), Posted(c, s);
    assert z[|x|..] == y[|x|..] + z[|y|..];
  }

  lemma SeenSame(r: Router, r': Router, s: Socket, may: bool)
    requires r.sent == r'.sent
    ensures Seen(r, r', s, may)
  {
  }

  lemma PostedAfterPost(r: Router, to: Socket, m: Message, s: Socket)
    ensures Posted(r.Post(to, m), s) ==
            Posted(r, s) + if to == s && to in r.connected && m.SessionEvent? && IsSessionEvent(m.event)
              then [m.event] else []
  {
    if to in r.connected {
      var inbox, sent' := Inbox(r.sent, s), r.sent + [Sent(to, m)];
      assert sent'[..|r.sent|] == r.sent;
      if to == s {
        assert Inbox(sent', s) == inbox + [m];
        assert (inbox + [m])[..|inbox|] == inbox;
      } else {
        assert Inbox(sent', s) == inbox;
      }
    }
  }

  lemma HandleShows(c: F.Client, m: Message)
    ensures c.Handle(m).shown ==
            c.shown + if m.SessionEvent? && IsSessionEvent(m.event) && (c.active || !c.registered) then [m.event]
              else []
  {
    hide F.Client.SetActive, F.Client.ApplyPending;
    forall c0: F.Client, act
      ensures c0.SetActive(act).shown == c0.shown
    {
      StandingShowsNothing(c0, act);
    }
    forall c0: F.Client
      ensures c0.ApplyPending().shown == c0.shown
    {
      StandingShowsNothing(c0, true);
    }
  }

  lemma StandingShowsNothing(c: F.Client, act: bool)
    ensures c.SetActive(act).shown == c.shown && c.ApplyPending().shown == c.shown
  {
  }

  lemma PostSeen(r: Router, to: Socket, m: Message, s: Socket, may: bool)
    requires m.SessionEvent? && to == s ==> Mirror(r, s).registered && Mirror(r, s).active == may
    ensures Seen(r, r.Post(to, m), s, may)
  {
    hide Mirror, Posted;
    PostMirror(r, to, m, s);
    PostedAfterPost(r, to, m, s);
    HandleShows(Mirror(r, s), m);
  }

  lemma {:induction false} PostEachSeen(r: Router, to: seq<Socket>, m: Message, s: Socket, may: bool)
    requires m.SessionEvent? ==> Mirror(r, s).registered && Mirror(r, s).id != "" && Mirror(r, s).active == may
    ensures Seen(r, r.PostEach(to, m), s, may)
    decreases |to|
  {
    hide Mirror, Seen, Minted;
    if to == [] {
      SeenSame(r, r, s, may);
    } else {
      var r' := r.Post(to[0], m);
      PostSeen(r, to[0], m, s, may);
      if m.SessionEvent? {
        PostTells(r, to[0], m, s);
      }
      PostEachSeen(r', to[1..], m, s, may);
      SeenOn(r, r', r'.PostEach(to[1..], m), s, may);
    }
  }

  lemma {:induction false} DeliverSeen(r: Router, ds: seq<Delivery>, s: Socket, may: bool)
    requires Mirror(r, s).registered && Mirror(r, s).id != "" && Mirror(r, s).active == may
    ensures Seen(r, r.Deliver(ds), s, may)
    decreases |ds|
  {
    hide Mirror, Seen, Minted;
    if ds == [] {
      SeenSame(r, r, s, may);
    } else {
      var m := SessionEvent(ds[0].1);
      var r' := r.Post(ds[0].0, m);
      PostSeen(r, ds[0].0, m, s, may);
      PostTells(r, ds[0].0, m, s);
      DeliverSeen(r', ds[1..], s, may);
      SeenOn(r, r', r'.Deliver(ds[1..]), s, may);
    }
  }

  lemma {:induction false} ReplaySeen(r: Router, to: Socket, replay: seq<Event>, s: Socket, may: bool)
    requires Mirror(r, s).registered && Mirror(r, s).id != "" && Mirror(r, s).active == may
    ensures Seen(r, r.Replay(to, replay), s, may)
    decreases |replay|
  {
    hide Mirror, Seen, Minted;
    if replay == [] {
      SeenSame(r, r, s, may);
    } else {
      var m := SessionEvent(replay[0]);
      var r' := r.Post(to, m);
      PostSeen(r, to, m, s, may);
      PostTells(r, to, m, s);
      ReplaySeen(r', to, replay[1..], s, may);
      SeenOn(r, r', r'.Replay(to, replay[1..]), s, may);
    }
  }

  // ----- Handlers -----

  lemma RecheckSeen(r: Router, s: Socket, may: bool)
    ensures Seen(r, r.Recheck(), s, may)
  {
    hide Seen, Registry.Recompute;
    var r' := r.(registry := r.registry.Recompute(r.connected, r.now));
    SeenSame(r, r', s, may);
    PostEachSeen(r', r'.registry.order + Filter(r'.subscribers, NotIn(r'.registry.order)), r'.Status(), s, may);
    SeenOn(r, r', r'.Announce(), s, may);
  }

  lemma RouteSeen(r: Router, e: Event, s: Socket, may: bool)
    requires Agrees(r, s) && r.registry.Authorized(s) == may
    ensures Seen(r, r.Route(e), s, may)
  {
    hide Seen, Mirror, Minted, Router.Targets;
    var (q, ds) := r.queue.Publish(QUEUE_CAPACITY, e);
    var posted := r.PostEach(r.Targets(e), SessionEvent(e));
    var queued := posted.(queue := q);
    PostEachSeen(r, r.Targets(e), SessionEvent(e), s, may);
    PostEachTells(r, r.Targets(e), SessionEvent(e), s);
    MirrorIgnoresQueue(posted, q, s);
    SeenSame(posted, queued, s, may);
    DeliverSeen(queued, ds, s, may);
    SeenOn(r, posted, queued, s, may);
    SeenOn(r, queued, queued.Deliver(ds), s, may);
  }

  lemma ApplySeen(r: Router, e: Effect, s: Socket, may: bool)
    requires Agrees(r, s) && r.registry.Authorized(s) == may
    ensures Seen(r, r.Apply(e), s, may)
  {
    hide Seen, Mirror, Minted;
    match e
    case Emit(event) => RouteSeen(r, event, s, may);
    case Recheck => RecheckSeen(r, s, may);
    case Send(to, m) => PostSeen(r, to, m, s, may);
    case _ => SeenSame(r, r, s, may);
  }

  lemma RegisterSeen(r: Router, o: Socket, reg: Registration, uuid: string, placed: seq<Socket>, s: Socket, may: bool)
    ensures Seen(r, r.Register(o, reg, uuid, placed), s, may)
  {
    hide Seen, Registry.Recompute, Mirror;
    var listed := r.registry.Register(o, reg, uuid, r.now, placed);
    var elected := listed.Recompute(r.connected, r.now);
    var m := Registered(listed.providers[o].id, Some(elected.active == Some(o)), listed.providers[o].priority);
    var r0 := r.(registry := elected);
    var r1 := r0.Post(o, m);
    SeenSame(r, r0, s, may);
    PostSeen(r0, o, m, s, may);
    SeenOn(r, r0, r1, s, may);
    PostEachSeen(r1, r1.registry.order + Filter(r1.subscribers, NotIn(r1.registry.order)), r1.Status(), s, may);
    SeenOn(r, r1, r1.Announce(), s, may);
  }

  lemma HeartbeatSeen(r: Router, o: Socket, s: Socket, may: bool)
    ensures Seen(r, r.Heartbeat(o), s, may)
  {
    hide Seen, Router.Recheck, Mirror;
    if o in r.registry.providers {
      var r0 := r.(registry := r.registry.Beat(o, r.now));
      SeenSame(r, r0, s, may);
      RecheckSeen(r0, s, may);
      SeenOn(r, r0, r0.Recheck(), s, may);
      var m := Ok(Some(r0.Recheck().registry.active == Some(o)));
      PostSeen(r0.Recheck(), o, m, s, may);
      SeenOn(r, r0.Recheck(), r0.Recheck().Post(o, m), s, may);
    } else {
      PostSeen(r, o, Failure(NOT_REGISTERED), s, may);
    }
  }

  lemma UnregisterSeen(r: Router, o: Socket, s: Socket, may: bool)
    ensures Seen(r, r.Unregister(o), s, may)
  {
    hide Seen, Router.Recheck, Mirror;
    if o in r.registry.providers {
      var r0 := r.(registry := r.registry.Remove(o));
      SeenSame(r, r0, s, may);
      RecheckSeen(r0, s, may);
      SeenOn(r, r0, r0.Recheck(), s, may);
      PostSeen(r0.Recheck(), o, Ok(None), s, may);
      SeenOn(r, r0.Recheck(), r0.Recheck().Post(o, Ok(None)), s, may);
    } else {
      PostSeen(r, o, Failure(NOT_REGISTERED), s, may);
    }
  }

  lemma LeaveSeen(r: Router, o: Socket, s: Socket, may: bool)
    ensures Seen(r, r.Leave(o), s, may)
  {
    hide Seen, Router.Recheck, Mirror;
    var r0 := r.(subscribers := WithoutFirst(r.subscribers, o));
    SeenSame(r, r0, s, may);
    if o in r.registry.providers {
      var r1 := r0.(registry := r0.registry.Remove(o));
      SeenSame(r, r1, s, may);
      RecheckSeen(r1, s, may);
      SeenOn(r, r1, r1.Recheck(), s, may);
      SeenSame(r1.Recheck(), r.Leave(o), s, may);
      SeenOn(r, r1.Recheck(), r.Leave(o), s, may);
    } else {
      SeenSame(r, r.Leave(o), s, may);
    }
  }

  lemma NextSeen(r: Router, o: Socket, s: Socket, may: bool)
    requires Agrees(r, s) && r.registry.Authorized(s) == may
    ensures Seen(r, r.Next(o), s, may)
  {
    hide Seen, Mirror, Minted;
    var (q, ds) := r.queue.Ask(o);
    MirrorIgnoresQueue(r, q, s);
    SeenSame(r, r.(queue := q), s, may);
    DeliverSeen(r.(queue := q), ds, s, may);
    SeenOn(r, r.(queue := q), r.(queue := q).Deliver(ds), s, may);
  }

  lemma SubscribeSeen(r: Router, o: Socket, replay: seq<Event>, count: nat, s: Socket, may: bool)
    requires Agrees(r, s) && r.registry.Authorized(s) == may
    ensures Seen(r, r.Subscribe(o, replay, count), s, may)
  {
    hide Seen, Mirror, Minted;
    var r0 := r.(subscribers := if o in r.subscribers then r.subscribers else r.subscribers + [o]);
    MirrorIgnoresSubscribers(r, r0.subscribers, s);
    SeenSame(r, r0, s, may);
    ReplaySeen(r0, o, replay, s, may);
    SeenOn(r, r0, r0.Replay(o, replay), s, may);
    var isActive := o in r.registry.providers && r.registry.active == Some(o);
    var hears := o !in r.registry.providers || isActive;
    var r1 := if hears then r0.Replay(o, replay) else r0;
    var m := Subscribed(if hears then count else 0, if o in r.registry.providers then Some(isActive) else None);
    PostSeen(r1, o, m, s, may);
    SeenOn(r, r1, r1.Post(o, m), s, may);
  }

  lemma RoutedSeen(d: System, i: Input, s: Socket, may: bool)
    requires Agrees(d.routes, s) && d.routes.registry.Authorized(s) == may
    ensures Seen(d.routes, d.Routed(i), s, may)
  {
    hide Seen, Router.Next, Router.Subscribe, Router.Register, Router.Heartbeat, Router.Unregister, Router.Leave;
    hide Router.Recheck, Mirror, Minted;
    var r := d.routes;
    match i
    case Register(o, reg, uuid, placed) => RegisterSeen(r, o, reg, uuid, placed, s, may);
    case Heartbeat(o) => HeartbeatSeen(r, o, s, may);
    case Unregister(o) => UnregisterSeen(r, o, s, may);
    case Disconnected(o, _, _) => LeaveSeen(r, o, s, may);
    case Tick => RecheckSeen(r, s, may);
    case Next(o) => NextSeen(r, o, s, may);
    case Subscribe(o, order) => SubscribeSeen(r, o, ReplayOf(d.core.live, order), |d.core.live|, s, may);
    case _ => SeenSame(r, d.Routed(i), s, may);
  }

  // ----- Steps -----

  /** All through the step the client may answer, or all through it may not. */
  ghost predicate Steady(d: System, i: Input, s: Socket, may: bool) {
    && d.routes.registry.Authorized(s) == may
    && forall k :: 0 <= k <= |d.Outputs(i).out| ==>
         d.Routed(i).ApplyAll(d.Outputs(i).out[..k]).registry.Authorized(s) == may
  }

  lemma {:induction false} EffectsSeen(r: Router, effects: seq<Effect>, s: Socket, may: bool)
    requires r.Valid() && Agrees(r, s) && Knows(r.ApplyAll(effects), s)
    requires forall k :: 0 <= k < |effects| ==> Plain(effects[k])
    requires forall k :: 0 <= k < |effects| && Refuses(effects[k], s) ==> |effects| == 1 && !r.registry.Authorized(s)
    requires forall k :: 0 <= k < |effects| ==> r.ApplyAll(effects[..k]).registry.Authorized(s) == may
    ensures Seen(r, r.ApplyAll(effects), s, may)
  {
    hide Seen, Agrees, Router.Valid, Router.Apply, Plain, Registry.Authorized;
    if effects == [] {
      SeenSame(r, r.ApplyAll(effects), s, may);
    } else {
      var n := |effects| - 1;
      var rest := effects[..n];
      forall k | 0 <= k < n
        ensures rest[..k] == effects[..k]
      {
      }
      EffectsKeepValid(r, rest);
      EffectKeepsValid(r.ApplyAll(rest), effects[n]);
      EffectsAgree(r, rest, s);
      EffectsSeen(r, rest, s, may);
      ApplySeen(r.ApplyAll(rest), effects[n], s, may);
      SeenOn(r, r.ApplyAll(rest), r.ApplyAll(effects), s, may);
    }
  }

  lemma StepSeen(d: System, i: Input, s: Socket, may: bool)
    requires Sound(d) && Named(d.routes) && d.Enabled(i) && Agrees(d.routes, s)
    requires KeepsConnection(i, s) && Knows(d.Step(i).routes, s) && Steady(d, i, s, may)
    ensures Seen(d.routes, d.Step(i).routes, s, may)
  {
    hide Named, Agrees, Seen, Core.Step, System.Enabled, Router.ApplyAll, CoreSound, System.Routed, Registry.Authorized;
    var authorized := (i.Respond? || i.Cancel?) && d.routes.registry.Authorized(i.socket);
    var r, out := d.Routed(i), d.Outputs(i).out;
    RoutedKeepsValid(d, i);
    EffectsKeepValid(r, out);
    RoutedAgrees(d, i, s);
    RoutedSeen(d, i, s, may);
    EnabledIsFair(d, i);
    StepIsProper(d.core, i, authorized, d.routes.now);
    UserInputsRouteNothing(d, i);
    if FromUser(i) && !authorized {
      RefusedIsSender(d.core, i, authorized, d.routes.now, s);
    }
    EffectsSeen(r, out, s, may);
    SeenOn(d.routes, r, d.Step(i).routes, s, may);
  }

  // ----- Runs -----

  /** All through the run the client stays connected and in one of the daemon's lists, and may answer
      all the time, or never. */
  ghost predicate SteadyRun(d: System, run: seq<Input>, s: Socket, may: bool) {
    run == [] ||
    var before, i := After(d, run[..|run| - 1]), run[|run| - 1];
    && SteadyRun(d, run[..|run| - 1], s, may)
    && KeepsConnection(i, s) && Knows(After(d, run).routes, s) && Steady(before, i, s, may)
  }

  lemma {:induction false} RunSeen(d: System, run: seq<Input>, s: Socket, may: bool)
    requires Sound(d) && Named(d.routes) && Admissible(d, run) && Agrees(d.routes, s) && SteadyRun(d, run, s, may)
    ensures Seen(d.routes, After(d, run).routes, s, may) && Agrees(After(d, run).routes, s)
  {
    hide Sound, Named, System.Step, System.Enabled, Agrees, Knows, Seen, Steady;
    if run == [] {
      SeenSame(d.routes, d.routes, s, may);
    } else {
      var rest, i := run[..|run| - 1], run[|run| - 1];
      RunSeen(d, rest, s, may);
      RunKeepsSound(d, rest);
      RunKeepsNamed(d, rest);
      StepSeen(After(d, rest), i, s, may);
      StepAgrees(After(d, rest), i, s);
      SeenOn(d.routes, After(d, rest).routes, After(d, run).routes, s, may);
    }
  }

  /** From any point of any run on, for as long as an enrolled client may answer, it shows exactly the
      session events written to its socket, in order: routed, replayed to it as a subscriber, or handed
      to it as a puller. For as long as it may not answer it shows none. */
  lemma ElectedSeesEverySession(d: System, run: seq<Input>, more: seq<Input>, s: Socket, may: bool)
    requires Sound(d) && Named(d.routes) && Admissible(d, run + more) && Enrolled(d, run, s)
    requires SteadyRun(After(d, run), more, s, may)
    ensures Seen(After(d, run).routes, After(d, run + more).routes, s, may)
  {
    hide Sound, Named, System.Step, System.Enabled, Agrees, Seen, SteadyRun, Enrolled;
    AfterAppend(d, run, more);
    RunKeepsSound(d, run);
    RunKeepsNamed(d, run);
    EnrolledAgrees(d, run, s);
    RunSeen(After(d, run), more, s, may);
  }

  /** At every single output of every step: what is written to an enrolled client at that moment is shown
      if it may answer at that moment, and not otherwise. */
  lemma EveryOutputIsSeen(d: System, run: seq<Input>, i: Input, k: nat, s: Socket)
    requires Sound(d) && Named(d.routes) && Admissible(d, run + [i]) && Enrolled(d, run, s) && KeepsConnection(i, s)
    requires k < |After(d, run).Outputs(i).out|
    requires Knows(After(d, run).Routed(i).ApplyAll(After(d, run).Outputs(i).out[..k]), s)
    ensures var out := After(d, run).Outputs(i).out;
            var r := After(d, run).Routed(i).ApplyAll(out[..k]);
            Seen(r, r.Apply(out[k]), s, r.registry.Authorized(s))
  {
    hide Sound, Named, System.Step, System.Enabled, Enrolled, Core.Step, Agrees, System.Routed, Router.ApplyAll, Seen;
    var before := After(d, run);
    var out := before.Outputs(i).out;
    var r := before.Routed(i).ApplyAll(out[..k]);
    assert (run + [i])[..|run|] == run;
    RunKeepsSound(d, run);
    RoutesOfSound(before);
    RunKeepsNamed(d, run);
    EnrolledAgrees(d, run, s);
    RoutedKeepsValid(before, i);
    EffectsKeepValid(before.Routed(i), out[..k]);
    RoutedAgrees(before, i, s);
    EnabledIsFair(before, i);
    StepIsProper(before.core, i, (i.Respond? || i.Cancel?) &&
      before.routes.registry.Authorized(i.socket), before.routes.now);
    EffectsAgree(before.Routed(i), out[..k], s);
    ApplySeen(r, out[k], s, r.registry.Authorized(s));
  }

  // ----- The replay -----

  lemma {:induction false} PostedAfterReplay(r: Router, s: Socket, replay: seq<Event>)
    requires s in r.connected && forall k :: 0 <= k < |replay| ==> IsSessionEvent(replay[k])
    ensures Posted(r.Replay(s, replay), s) == Posted(r, s) + replay
    decreases |replay|
  {
    hide Posted;
    if replay != [] {
      PostedAfterPost(r, s, SessionEvent(replay[0]), s);
      PostedAfterReplay(r.Post(s, SessionEvent(replay[0])), s, replay[1..]);
      assert replay == [replay[0]] + replay[1..];
    }
  }

  lemma {:induction false} ReplayIsSessions(live: Live, order: seq<Id>)
    ensures forall k :: 0 <= k < |ReplayOf(live, order)| ==> IsSessionEvent(ReplayOf(live, order)[k])
  {
    if order != [] {
      ReplayIsSessions(live, order[..|order| - 1]);
    }
  }

  lemma SubscribeShows(r: Router, s: Socket, replay: seq<Event>, count: nat)
    requires Agrees(r, s) && r.registry.Authorized(s)
    requires forall k :: 0 <= k < |replay| ==> IsSessionEvent(replay[k])
    ensures Mirror(r.Subscribe(s, replay, count), s).shown == Mirror(r, s).shown + replay
  {
    hide Mirror, Posted, Minted;
    var r0 := r.(subscribers := if s in r.subscribers then r.subscribers else r.subscribers + [s]);
    SubscribeSeen(r, s, replay, count, s, true);
    PostedAfterReplay(r0, s, replay);
    PostedSame(r, r0, s);
    PostedAfterPost(r0.Replay(s, replay), s, SubscribedTo(r, s, count), s);
  }

  /** An enrolled client that may answer and subscribes, as it does when it becomes active, shows every
      live session: its creation and its state, in the order in which the daemon walks its table. */
  lemma SubscriberSeesLiveSessions(d: System, run: seq<Input>, s: Socket, order: seq<Id>)
    requires Sound(d) && Named(d.routes) && Admissible(d, run) && Enrolled(d, run, s)
    requires After(d, run).routes.registry.Authorized(s)
    ensures var before := After(d, run);
            Mirror(before.Step(Subscribe(s, order)).routes, s).shown ==
            Mirror(before.routes, s).shown + ReplayOf(before.core.live, order)
  {
    hide Sound, Named, System.Enabled, Enrolled, Mirror, Agrees, Router.Subscribe, Registry.Authorized;
    EnrolledAgrees(d, run, s);
    ReplayIsSessions(After(d, run).core.live, order);
    SubscribeShows(After(d, run).routes, s, ReplayOf(After(d, run).core.live, order), |After(d, run).core.live|);
  }

  function SubscribedTo(r: Router, s: Socket, count: nat): Message {
    Subscribed(count, if s in r.registry.providers then Some(r.registry.active == Some(s)) else None)
  }

  lemma PostedSame(r: Router, r': Router, s: Socket)
    requires r.sent == r'.sent
    ensures Posted(r, s) == Posted(r', s)
  {
  }
}
