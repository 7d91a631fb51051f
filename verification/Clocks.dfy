/** Heartbeats and the maintenance tick over whole runs: nobody stays elected long after falling
    silent, and nobody who keeps beating is thrown out. */
module Clocks {
  import opened Basics
  import opened Messages
  import opened Providers
  import opened Routing
  import opened Services
  import opened Daemon
  import opened Runs

  // ----- What one input does to the registry -----

  predicate Beats(i: Input, s: Socket) {
    (i.Register? || i.Heartbeat?) && i.socket == s
  }

  /** Everybody registered at the end was registered before with the same heartbeat, or is beating now. */
  ghost predicate Ages(r: Router, r': Router, i: Input) {
    forall s :: s in r'.registry.providers ==>
      || (s in r.registry.providers
          && r'.registry.providers[s].lastHeartbeatMs == r.registry.providers[s].lastHeartbeatMs)
      || (Beats(i, s) && r'.registry.providers[s].lastHeartbeatMs == r.now)
  }

  /** Nobody left is disconnected or stale. */
  ghost predicate Swept(r: Router) {
    forall s :: s in r.registry.providers ==> r.now - r.registry.providers[s].lastHeartbeatMs <= 15000
  }

  /** Whoever is connected and has beaten recently stays, with the same heartbeat. */
  ghost predicate Retains(r: Router, r': Router) {
    forall s :: s in r.registry.providers && s in r.connected
                && r.now - r.registry.providers[s].lastHeartbeatMs <= 15000 ==>
      s in r'.registry.providers && r'.registry.providers[s].lastHeartbeatMs == r.registry.providers[s].lastHeartbeatMs
  }

  ghost predicate OnlyLoses(r: Router, r': Router) {
    forall s :: s in r'.registry.providers ==>
      s in r.registry.providers && r'.registry.providers[s] == r.registry.providers[s]
  }

  lemma RecheckSweeps(r: Router)
    requires r.registry.Valid() && r.(registry := Registry(map[], [], None)).Valid()
    ensures Swept(r.Recheck()) && Retains(r, r.Recheck()) && OnlyLoses(r, r.Recheck())
  {
    RecheckKeepsValid(r);
    ElectionCorrect(r.registry, r.connected, r.now);
  }

  lemma ApplyRetains(r: Router, e: Effect)
    requires r.Valid()
    ensures Retains(r, r.Apply(e)) && OnlyLoses(r, r.Apply(e))
  {
    match e
    case Emit(event) => RouteKeepsValid(r, event);
    case Recheck => RecheckSweeps(r);
    case _ =>
  }

  lemma {:induction false} EffectsRetain(r: Router, effects: seq<Effect>)
    requires r.Valid()
    ensures Retains(r, r.ApplyAll(effects)) && OnlyLoses(r, r.ApplyAll(effects))
  {
    hide Router.Valid, Router.Apply;
    if effects != [] {
      var n := |effects| - 1;
      EffectsRetain(r, effects[..n]);
      EffectsKeepValid(r, effects[..n]);
      ApplyRetains(r.ApplyAll(effects[..n]), effects[n]);
    }
  }

  /** A handler of the registry: entries age, a tick sweeps, and who is connected, fresh and does not
      leave stays. */
  ghost predicate Handled(r: Router, r': Router, i: Input) {
    && Ages(r, r', i)
    && (i.Tick? ==> Swept(r'))
    && forall s :: s in r.registry.providers && s in r.connected && !Leaves(i, s)
                   && r.now - r.registry.providers[s].lastHeartbeatMs <= 15000 ==>
         s in r'.registry.providers
         && r'.registry.providers[s].lastHeartbeatMs ==
            if Beats(i, s) then r.now else r.registry.providers[s].lastHeartbeatMs
  }

  predicate Leaves(i: Input, s: Socket) {
    (i.HangUp? || i.Disconnected? || i.Unregister?) && i.socket == s
  }

  lemma RegisterAges(r: Router, i: Input)
    requires r.Valid() && i.Register? && Enumerates(i.placed, r.registry.providers.Keys + {i.socket})
    ensures Handled(r, r.Register(i.socket, i.registration, i.uuid, i.placed), i)
  {
    hide Router.Register, Registry.Recompute;
    RegisterElects(r, i.socket, i.registration, i.uuid, i.placed);
    RegisterKeepsValid(r.registry, i.socket, i.registration, i.uuid, r.now, i.placed);
    ElectionCorrect(r.registry.Register(i.socket, i.registration, i.uuid, r.now, i.placed), r.connected, r.now);
  }

  lemma HeartbeatAges(r: Router, i: Input)
    requires r.Valid() && i.Heartbeat?
    ensures Handled(r, r.Heartbeat(i.socket), i)
  {
    if i.socket in r.registry.providers {
      var beaten := r.(registry := r.registry.Beat(i.socket, r.now));
      assert beaten.registry.providers.Keys == r.registry.providers.Keys;
      RecheckSweeps(beaten);
    }
  }

  lemma RemovalAges(r: Router, s: Socket, i: Input)
    requires r.Valid() && s in r.registry.providers && Leaves(i, s)
    ensures Handled(r, r.(registry := r.registry.Remove(s)).Recheck(), i)
  {
    RemoveKeepsValid(r.registry, s);
    RecheckSweeps(r.(registry := r.registry.Remove(s)));
  }

  lemma DepartureAges(r: Router, i: Input)
    requires r.Valid() && (i.Disconnected? || i.Unregister?)
    ensures Handled(r, if i.Disconnected? then r.Leave(i.socket) else r.Unregister(i.socket), i)
  {
    hide Router.Recheck;
    var r' := if i.Disconnected? then r.(subscribers := WithoutFirst(r.subscribers, i.socket)) else r;
    if i.Disconnected? {
      WithoutFirstGone(r.subscribers, i.socket);
    }
    if i.socket in r.registry.providers {
      RemovalAges(r', i.socket, i);
    }
  }

  lemma RoutedAges(d: System, i: Input)
    requires d.routes.Valid() && d.Enabled(i)
    ensures Handled(d.routes, d.Routed(i), i)
  {
    hide Router.Next, Router.Subscribe, Router.Register, Router.Heartbeat, Router.Unregister, Router.Leave,
         Router.Recheck;
    var r := d.routes;
    match i
    case Register(_, _, _, _) => RegisterAges(r, i);
    case Heartbeat(_) => HeartbeatAges(r, i);
    case Unregister(_) => DepartureAges(r, i);
    case Disconnected(_, _, _) => DepartureAges(r, i);
    case Tick => RecheckSweeps(r);
    case Next(s) => NextLeavesRegistry(r, s);
    case Subscribe(s, order) => SubscribeLeavesRegistry(r, s, ReplayOf(d.core.live, order), |d.core.live|);
    case _ =>
  }

  lemma NextLeavesRegistry(r: Router, s: Socket)
    ensures r.Next(s).registry == r.registry
  {
    var (q, ds) := r.queue.Ask(s);
    DeliverFrame(r.(queue := q), ds);
  }

  lemma SubscribeLeavesRegistry(r: Router, s: Socket, replay: seq<Event>, count: nat)
    ensures r.Subscribe(s, replay, count).registry == r.registry
  {
    ReplayFrame(r.(subscribers := if s in r.subscribers then r.subscribers else r.subscribers + [s]), s, replay);
  }

  lemma StepAges(d: System, i: Input)
    requires d.routes.Valid() && d.Enabled(i)
    ensures Handled(d.routes, d.Step(i).routes, i)
  {
    hide Core.Step, System.Routed, System.Enabled, Router.Valid, Router.ApplyAll;
    RoutedKeepsValid(d, i);
    RoutedAges(d, i);
    EffectsKeepValid(d.Routed(i), d.Outputs(i).out);
    EffectsRetain(d.Routed(i), d.Outputs(i).out);
    AdvanceIsQuiet(d, i);
  }

  lemma AdvanceIsQuiet(d: System, i: Input)
    ensures i.Advance? || i.HangUp? || i.Connect? || i.Tick? ==> d.Outputs(i).out == []
    ensures d.Routed(i).ApplyAll([]) == d.Routed(i)
  {
  }

  // ----- Silent providers -----

  ghost function LastTick(d: System, run: seq<Input>): int {
    if run == [] then d.routes.now
    else if run[|run| - 1].Tick? then After(d, run[..|run| - 1]).routes.now
    else LastTick(d, run[..|run| - 1])
  }

  ghost predicate BeatSince(r: Router, since: int) {
    forall s :: s in r.registry.providers ==> r.registry.providers[s].lastHeartbeatMs >= since - 15000
  }

  lemma {:induction false} BeatSinceLastTick(d: System, run: seq<Input>)
    requires Sound(d) && Swept(d.routes) && Admissible(d, run)
    ensures BeatSince(After(d, run).routes, LastTick(d, run)) && LastTick(d, run) <= After(d, run).routes.now
  {
    hide Sound, System.Step;
    if run != [] {
      var rest, i := run[..|run| - 1], run[|run| - 1];
      BeatSinceLastTick(d, rest);
      RunKeepsSound(d, rest);
      RoutesOfSound(After(d, rest));
      StepAges(After(d, rest), i);
      WorldAfterStep(After(d, rest), i);
    }
  }

  /** In every run with maintenance ticks at most 5 seconds apart, the elected provider, like every
      registered one, last beat at most 20 seconds ago. */
  lemma ElectedHasBeaten(d: System, run: seq<Input>)
    requires Sound(d) && Swept(d.routes) && Admissible(d, run)
    requires After(d, run).routes.now - LastTick(d, run) <= 5000
    ensures var r := After(d, run).routes;
            && (r.registry.active.Some? ==> r.registry.active.value in r.registry.providers)
            && forall s :: s in r.registry.providers ==>
                 r.now - r.registry.providers[s].lastHeartbeatMs <= 20000
  {
    BeatSinceLastTick(d, run);
    RunKeepsSound(d, run);
  }

  // ----- Beating providers -----

  ghost function LastBeat(d: System, run: seq<Input>, s: Socket): int
    requires s in d.routes.registry.providers
  {
    if run == [] then d.routes.registry.providers[s].lastHeartbeatMs
    else if Beats(run[|run| - 1], s) then After(d, run[..|run| - 1]).routes.now
    else LastBeat(d, run[..|run| - 1], s)
  }

  /** All along the run `s` stays connected and never goes longer than the timeout without beating. */
  ghost predicate KeepsBeating(d: System, run: seq<Input>, s: Socket)
    requires s in d.routes.registry.providers
  {
    && After(d, run).routes.now - LastBeat(d, run, s) <= 15000
    && (run == [] || (KeepsBeating(d, run[..|run| - 1], s) && !Leaves(run[|run| - 1], s)))
  }

  /** A connected provider that keeps beating is never thrown out, in any run. */
  lemma {:induction false} BeatingIsEnough(d: System, run: seq<Input>, s: Socket)
    requires Sound(d) && Admissible(d, run)
    requires s in d.routes.registry.providers && s in d.routes.connected && KeepsBeating(d, run, s)
    ensures var r := After(d, run).routes;
            && s in r.connected && s in r.registry.providers
            && r.registry.providers[s].lastHeartbeatMs == LastBeat(d, run, s)
  {
    hide Sound, System.Step;
    if run != [] {
      var rest, i := run[..|run| - 1], run[|run| - 1];
      BeatingIsEnough(d, rest, s);
      RunKeepsSound(d, rest);
      RoutesOfSound(After(d, rest));
      StepAges(After(d, rest), i);
      WorldAfterStep(After(d, rest), i);
    }
  }
}
