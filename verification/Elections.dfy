/** Who is elected, over whole runs and in terms of what the providers asked for when they registered. */
module Elections {
  import opened Basics
  import opened Messages
  import opened Providers
  import opened Routing
  import opened Services
  import opened Daemon
  import opened Runs
  import opened Clocks
  import opened Agreement

  // ----- What the run says of a provider -----

  /** Its last registration. */
  function Latest(run: seq<Input>, s: Socket): Option<Registration> {
    if run == [] then None
    else
      var i := run[|run| - 1];
      if i.Register? && i.socket == s then Some(i.registration) else Latest(run[..|run| - 1], s)
  }

  /** When it last registered or beat. */
  ghost function BeatAt(d: System, run: seq<Input>, s: Socket): int {
    if run == [] then 0
    else if Clocks.Beats(run[|run| - 1], s) then After(d, run[..|run| - 1]).routes.now
    else BeatAt(d, run[..|run| - 1], s)
  }

  /** The kind of a provider: its name if it does not say, "unknown" if it has no name either. */
  function KindOf(r: Registration): string {
    if r.kind != "" then r.kind else if r.name != "" then r.name else "unknown"
  }

  /** The priority a registration asks for. */
  function Wanted(r: Registration): int {
    if r.priority.Some? then r.priority.value
    else if KindOf(r) == "quickshell" then 100
    else if KindOf(r) == "fallback" then 10
    else 50
  }

  // ----- What the registry keeps of it -----

  /** Nobody registered beats the elected one. */
  ghost predicate Led(g: Registry) {
    g.active.Some? ==> Unbeaten(g.active.value, g.providers)
  }

  /** Who is registered after an input has just registered, has just beaten, or is as it was. */
  ghost predicate Remembers(r: Router, r': Router, i: Input) {
    forall s :: s in r'.registry.providers ==>
      var p' := r'.registry.providers[s];
      if i.Register? && i.socket == s then p'.priority == Wanted(i.registration) && p'.lastHeartbeatMs == r.now
      else
        && s in r.registry.providers && p'.priority == r.registry.providers[s].priority
        && p'.lastHeartbeatMs == if i.Heartbeat? && i.socket == s then r.now
           else r.registry.providers[s].lastHeartbeatMs
  }

  lemma RecheckLeads(r: Router)
    requires r.registry.Valid() && r.(registry := Registry(map[], [], None)).Valid()
    ensures Led(r.Recheck().registry) && OnlyLoses(r, r.Recheck())
  {
    hide Registry.Recompute;
    RecheckKeepsValid(r);
    ElectionCorrect(r.registry, r.connected, r.now);
    assert r.Recheck().registry == r.registry.Recompute(r.connected, r.now);
  }

  lemma RegisterLeads(r: Router, i: Input)
    requires r.Valid() && i.Register? && Enumerates(i.placed, r.registry.providers.Keys + {i.socket})
    ensures var r' := r.Register(i.socket, i.registration, i.uuid, i.placed);
            Led(r'.registry) && Remembers(r, r', i)
  {
    hide Router.Register, Registry.Recompute;
    RegisterElects(r, i.socket, i.registration, i.uuid, i.placed);
    RegisterKeepsValid(r.registry, i.socket, i.registration, i.uuid, r.now, i.placed);
    ElectionCorrect(r.registry.Register(i.socket, i.registration, i.uuid, r.now, i.placed), r.connected, r.now);
  }

  lemma HeartbeatLeads(r: Router, i: Input)
    requires r.Valid() && i.Heartbeat? && Led(r.registry)
    ensures Led(r.Heartbeat(i.socket).registry) && Remembers(r, r.Heartbeat(i.socket), i)
  {
    hide Router.Recheck;
    if i.socket in r.registry.providers {
      var beaten := r.(registry := r.registry.Beat(i.socket, r.now));
      assert beaten.registry.providers.Keys == r.registry.providers.Keys;
      RecheckLeads(beaten);
    }
  }

  lemma DepartureLeads(r: Router, i: Input)
    requires r.Valid() && (i.Disconnected? || i.Unregister?) && Led(r.registry)
    ensures var r' := if i.Disconnected? then r.Leave(i.socket) else r.Unregister(i.socket);
            Led(r'.registry) && Remembers(r, r', i)
  {
    hide Router.Recheck;
    var r0 := if i.Disconnected? then r.(subscribers := WithoutFirst(r.subscribers, i.socket)) else r;
    if i.Disconnected? {
      WithoutFirstGone(r.subscribers, i.socket);
    }
    if i.socket in r.registry.providers {
      RemoveKeepsValid(r.registry, i.socket);
      RecheckLeads(r0.(registry := r.registry.Remove(i.socket)));
    }
  }

  lemma RoutedLeads(d: System, i: Input)
    requires d.routes.Valid() && d.Enabled(i) && Led(d.routes.registry)
    ensures Led(d.Routed(i).registry) && Remembers(d.routes, d.Routed(i), i)
  {
    hide Router.Next, Router.Subscribe, Router.Register, Router.Heartbeat, Router.Unregister, Router.Leave,
         Router.Recheck;
    var r := d.routes;
    match i
    case Register(_, _, _, _) => RegisterLeads(r, i);
    case Heartbeat(_) => HeartbeatLeads(r, i);
    case Unregister(_) => DepartureLeads(r, i);
    case Disconnected(_, _, _) => DepartureLeads(r, i);
    case Tick => RecheckLeads(r);
    case Next(s) => NextLeavesRegistry(r, s);
    case Subscribe(s, order) => SubscribeLeavesRegistry(r, s, ReplayOf(d.core.live, order), |d.core.live|);
    case _ =>
  }

  lemma {:induction false} EffectsLead(r: Router, effects: seq<Effect>)
    requires r.Valid() && Led(r.registry)
    ensures Led(r.ApplyAll(effects).registry)
  {
    hide Router.Valid, Router.Recheck, Router.Route, Led;
    if effects != [] {
      var n := |effects| - 1;
      EffectsLead(r, effects[..n]);
      EffectsKeepValid(r, effects[..n]);
      var r' := r.ApplyAll(effects[..n]);
      match effects[n]
      case Emit(e) => RouteKeepsValid(r', e);
      case Recheck => TickLeads(r');
      case _ =>
    }
  }

  lemma TickLeads(r: Router)
    requires r.Valid()
    ensures Led(r.Recheck().registry)
  {
    RecheckLeads(r);
  }

  lemma StepLeads(d: System, i: Input)
    requires d.routes.Valid() && d.Enabled(i) && Led(d.routes.registry)
    ensures Led(d.Step(i).routes.registry) && Remembers(d.routes, d.Step(i).routes, i)
  {
    hide Core.Step, System.Routed, System.Enabled, Router.Valid, Router.ApplyAll, Led;
    RoutedKeepsValid(d, i);
    RoutedLeads(d, i);
    EffectsLead(d.Routed(i), d.Outputs(i).out);
    EffectsRetain(d.Routed(i), d.Outputs(i).out);
  }

  /** Everybody registered asked for its priority in its last registration, and beat when the run says. */
  ghost predicate OnRecord(d: System, run: seq<Input>) {
    var providers := After(d, run).routes.registry.providers;
    forall s :: s in providers ==>
      && Latest(run, s).Some? && providers[s].priority == Wanted(Latest(run, s).value)
      && providers[s].lastHeartbeatMs == BeatAt(d, run, s)
  }

  lemma {:induction false} RunIsOnRecord(d: System, run: seq<Input>)
    requires Sound(d) && d.routes.registry.providers == map[] && Admissible(d, run)
    ensures OnRecord(d, run) && Led(After(d, run).routes.registry)
  {
    hide Sound, System.Step, System.Enabled, Led, Wanted;
    if run == [] {
      NobodyLeads(d);
    } else {
      var rest, i := run[..|run| - 1], run[|run| - 1];
      RunIsOnRecord(d, rest);
      RunKeepsSound(d, rest);
      RoutesOfSound(After(d, rest));
      StepLeads(After(d, rest), i);
    }
  }

  lemma NobodyLeads(d: System)
    requires Sound(d) && d.routes.registry.providers == map[]
    ensures Led(d.routes.registry)
  {
  }

  // ----- Who is elected -----

  /** In every run from a daemon with nobody registered: whoever is elected asked, when it last registered,
      for a priority at least as high as everybody else who is registered, and among equals nobody has
      beaten later. */
  lemma ElectedAskedForMost(d: System, run: seq<Input>, p: Socket)
    requires Sound(d) && d.routes.registry.providers == map[] && Admissible(d, run)
    requires p in After(d, run).routes.registry.providers
    ensures var active := After(d, run).routes.registry.active;
            && active.Some? && Latest(run, active.value).Some? && Latest(run, p).Some?
            && var a, b := Wanted(Latest(run, active.value).value), Wanted(Latest(run, p).value);
               a >= b && (a == b ==> BeatAt(d, run, active.value) >= BeatAt(d, run, p))
  {
    hide Sound, System.Step, System.Enabled, Wanted;
    RunIsOnRecord(d, run);
    RunKeepsSound(d, run);
    RoutesAreSettled(After(d, run));
  }

  /** Whoever registered while connected and has kept beating since is outranked by nobody who asked for
      less. */
  lemma BeatingIsHeard(d: System, run: seq<Input>, i: Input, more: seq<Input>, p: Socket)
    requires Sound(d) && d.routes.registry.providers == map[] && Admissible(d, run + [i] + more)
    requires i.Register? && i.socket == p && p in After(d, run).routes.connected
    requires var d' := After(d, run + [i]);
             p in d'.routes.registry.providers ==> KeepsBeating(d', more, p)
    ensures var whole := run + [i] + more;
            var active := After(d, whole).routes.registry.active;
            && active.Some? && Latest(whole, active.value).Some? && Latest(whole, p).Some?
            && Wanted(Latest(whole, active.value).value) >= Wanted(Latest(whole, p).value)
  {
    hide Sound, System.Step, System.Enabled, Wanted, KeepsBeating;
    AfterAppend(d, run + [i], more);
    assert (run + [i])[..|run|] == run;
    RunKeepsSound(d, run + [i]);
    RunKeepsSound(d, run);
    RoutesOfSound(After(d, run));
    RegistersWhenConnected(After(d, run), i);
    BeatingIsEnough(After(d, run + [i]), more, p);
    ElectedAskedForMost(d, run + [i] + more, p);
  }

  lemma RegistersWhenConnected(d: System, i: Input)
    requires d.routes.Valid() && d.Enabled(i) && i.Register? && i.socket in d.routes.connected
    ensures i.socket in d.Step(i).routes.registry.providers && i.socket in d.Step(i).routes.connected
  {
    hide Core.Step, Router.Register, Registry.Recompute;
    var r := d.routes;
    RegisterElects(r, i.socket, i.registration, i.uuid, i.placed);
    RegisterKeepsValid(r.registry, i.socket, i.registration, i.uuid, r.now, i.placed);
    ElectionCorrect(r.registry.Register(i.socket, i.registration, i.uuid, r.now, i.placed), r.connected, r.now);
    StepIsRegister(d, i);
    RegisterKeepsTables(r, i.socket, i.registration, i.uuid, i.placed);
  }

  /** Without a priority of its own quickshell comes before every unknown kind, and every unknown kind
      before the fallback: the lower one is never elected while the higher one is registered. */
  lemma KindsRank(d: System, run: seq<Input>, high: Socket, low: Socket)
    requires Sound(d) && d.routes.registry.providers == map[] && Admissible(d, run)
    requires high in After(d, run).routes.registry.providers
    requires Latest(run, high).Some? && Latest(run, high).value.priority == None
    requires Latest(run, low).Some? && Latest(run, low).value.priority == None
    requires var h, l := KindOf(Latest(run, high).value), KindOf(Latest(run, low).value);
             (h == "quickshell" && l != "quickshell") || (h != "fallback" && l == "fallback")
    ensures After(d, run).routes.registry.active != Some(low)
  {
    hide Sound, System.Step, System.Enabled, KindOf;
    ElectedAskedForMost(d, run, high);
  }

  /** The reply to a registration names the id under which the socket is registered, whether it is elected,
      and the priority it asked for. */
  lemma RegistrationIsConfirmed(d: System, i: Input)
    requires d.routes.Valid() && d.Enabled(i) && i.Register? && i.socket in d.routes.connected
    ensures var r, r' := d.routes, d.Step(i).routes;
            && i.socket in r'.registry.providers
            && var before, after := Inbox(r.sent, i.socket), Inbox(r'.sent, i.socket);
               && |before| < |after|
               && after[|before|] == Registered(r'.registry.providers[i.socket].id,
                                                Some(r'.registry.active == Some(i.socket)), Wanted(i.registration))
  {
    hide Core.Step, Registry.Recompute, Wanted, Inbox, Router.PostEach;
    var r, s := d.routes, i.socket;
    RegistersWhenConnected(d, i);
    StepIsRegister(d, i);
    RegisterElects(r, s, i.registration, i.uuid, i.placed);
    AfterElection(r, s, i.registration, i.uuid, i.placed);
    var listed := r.registry.Register(s, i.registration, i.uuid, r.now, i.placed);
    var elected := listed.Recompute(r.connected, r.now);
    var m := Registered(listed.providers[s].id, Some(elected.active == Some(s)), listed.providers[s].priority);
    assert m.priority == Wanted(i.registration) by {
      ListedAsWanted(r.registry, s, i.registration, i.uuid, r.now, i.placed);
    }
    var r1 := r.(registry := elected).Post(s, m);
    InboxGrows(r.sent, s, m);
    var to := r1.registry.order + Filter(r1.subscribers, NotIn(r1.registry.order));
    PostEachExtendsInbox(r1, to, r1.Status(), s);
  }

  lemma StepIsRegister(d: System, i: Input)
    requires i.Register?
    ensures d.Step(i).routes == d.routes.Register(i.socket, i.registration, i.uuid, i.placed)
  {
    hide Router.Register;
  }

  lemma ListedAsWanted(g: Registry, s: Socket, reg: Registration, uuid: string, now: int, placed: seq<Socket>)
    ensures g.Register(s, reg, uuid, now, placed).providers[s].priority == Wanted(reg)
  {
  }

  lemma InboxGrows(sent: seq<Sent>, s: Socket, m: Message)
    ensures Inbox(sent + [Sent(s, m)], s) == Inbox(sent, s) + [m]
  {
    assert (sent + [Sent(s, m)])[..|sent|] == sent;
  }

  lemma {:induction false} PostEachExtendsInbox(r: Router, to: seq<Socket>, m: Message, s: Socket)
    ensures Inbox(r.sent, s) <= Inbox(r.PostEach(to, m).sent, s)
    decreases |to|
  {
    hide Inbox;
    if to != [] {
      var r' := r.Post(to[0], m);
      if to[0] in r.connected {
        InboxExtends(r.sent, Sent(to[0], m), s);
      }
      PostEachExtendsInbox(r', to[1..], m, s);
    }
  }

  lemma InboxExtends(sent: seq<Sent>, last: Sent, s: Socket)
    ensures Inbox(sent, s) <= Inbox(sent + [last], s)
  {
    assert (sent + [last])[..|sent|] == sent;
  }

  /** The last message an input sends to its own socket is the reply: to a heartbeat whether the socket is
      elected, to a departure just ok, to both a refusal if it is not registered; to a subscription the
      number of live sessions, or zero if it is registered and not elected and so was shown none. */
  lemma SenderIsAnswered(d: System, i: Input)
    requires d.routes.Valid() && (i.Heartbeat? || i.Unregister? || i.Subscribe?) && i.socket in d.routes.connected
    ensures var r, r', s := d.routes, d.Step(i).routes, i.socket;
            var known, elected := s in r.registry.providers, r.registry.active == Some(s);
            r'.sent != [] &&
            r'.sent[|r'.sent| - 1] ==
              Sent(s, if i.Subscribe? then Subscribed(if known && !elected then 0 else |d.core.live|,
                                                      if known then Some(elected) else None)
                      else if !known then Failure("Provider not registered")
                      else if i.Heartbeat? then Ok(Some(r'.registry.active == Some(s)))
                      else Ok(None))
  {
    hide Registry.Recompute, Router.PostEach, Router.Replay;
    var r, s := d.routes, i.socket;
    StepIsRouted(d, i);
    if i.Subscribe? {
      ReplayFrame(r.(subscribers := if s in r.subscribers then r.subscribers else r.subscribers + [s]), s,
                  ReplayOf(d.core.live, i.order));
    } else if s in r.registry.providers {
      if i.Heartbeat? {
        assert r.registry.Beat(s, r.now).providers.Keys == r.registry.providers.Keys;
        RecheckKeepsValid(r.(registry := r.registry.Beat(s, r.now)));
      } else {
        RemoveKeepsValid(r.registry, s);
        RecheckKeepsValid(r.(registry := r.registry.Remove(s)));
      }
    }
  }

  lemma StepIsRouted(d: System, i: Input)
    requires i.Heartbeat? || i.Unregister? || i.Subscribe?
    ensures d.Step(i).routes == d.Routed(i)
  {
    hide System.Routed;
  }
}
