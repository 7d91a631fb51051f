/** Runs of the whole daemon: what holds in every reachable state. */
module Runs {
  import opened Basics
  import opened Messages
  import opened Routing
  import opened Keyring
  import opened Services
  import opened Daemon
  import opened Invariants

  ghost predicate Sound(d: System) {
    CoreSound(d.core) && d.routes.Valid()
  }

  lemma EnabledIsFair(d: System, i: Input)
    requires d.Enabled(i)
    ensures Fair(d.core, i)
  {
  }

  lemma RoutedKeepsValid(d: System, i: Input)
    requires d.routes.Valid() && d.Enabled(i)
    ensures d.Routed(i).Valid()
    ensures d.Routed(i).now == (if i.Advance? then i.to else d.routes.now)
    ensures d.Routed(i).connected ==
            if i.Connect? then d.routes.connected + {i.socket}
            else if i.HangUp? then d.routes.connected - {i.socket}
            else d.routes.connected
  {
    hide Router.Valid, Router.Next, Router.Subscribe, Router.Register;
    hide Router.Heartbeat, Router.Unregister, Router.Leave, Router.Recheck, Fair;
    match i
    case Next(s) => NextKeepsValid(d.routes, s);
    case Subscribe(s, order) => SubscribeKeepsValid(d.routes, s, ReplayOf(d.core.live, order), |d.core.live|);
    case Register(s, r, uuid, placed) => RegisterKeepsTables(d.routes, s, r, uuid, placed);
    case Heartbeat(s) => HeartbeatKeepsValid(d.routes, s);
    case Unregister(s) => UnregisterKeepsValid(d.routes, s);
    case Disconnected(s, _, _) => LeaveScrubs(d.routes, s);
    case Tick => TickKeepsValid(d.routes);
    case _ => SurroundingsKeepValid(d.routes);
  }

  lemma TickKeepsValid(r: Router)
    requires r.Valid()
    ensures r.Recheck().Valid() && SameWorld(r, r.Recheck())
  {
    RecheckKeepsValid(r);
  }

  lemma SurroundingsKeepValid(r: Router)
    requires r.Valid()
    ensures forall connected, now :: r.(connected := connected).Valid() && r.(now := now).Valid()
  {
  }

  lemma StepKeepsRoutes(d: System, i: Input)
    requires d.routes.Valid() && d.Enabled(i)
    ensures d.Step(i).routes.Valid()
  {
    hide Core.Step, System.Routed, System.Enabled, Router.Valid;
    RoutedKeepsValid(d, i);
    EffectsKeepValid(d.Routed(i), d.Outputs(i).out);
  }

  lemma StepKeepsSound(d: System, i: Input)
    requires Sound(d) && d.Enabled(i)
    ensures Sound(d.Step(i))
  {
    hide CoreSound, Core.Step, System.Routed, System.Enabled, Router.Valid;
    EnabledIsFair(d, i);
    StepKeepsCoreSound(d.core, i, (i.Respond? || i.Cancel?) && d.routes.registry.Authorized(i.socket), d.routes.now);
    RoutedKeepsValid(d, i);
    EffectsKeepValid(d.Routed(i), d.Outputs(i).out);
  }

  /** Time passes only by Advance, and sockets connect and hang up only by themselves. */
  lemma WorldAfterStep(d: System, i: Input)
    requires d.routes.Valid() && d.Enabled(i)
    ensures d.Step(i).routes.now == (if i.Advance? then i.to else d.routes.now)
    ensures d.Step(i).routes.connected ==
            if i.Connect? then d.routes.connected + {i.socket}
            else if i.HangUp? then d.routes.connected - {i.socket}
            else d.routes.connected
  {
    hide Core.Step, System.Routed, System.Enabled, Router.Valid;
    RoutedKeepsValid(d, i);
    EffectsKeepValid(d.Routed(i), d.Outputs(i).out);
  }

  lemma InitIsSound(connected: set<Socket>, now: int)
    ensures Sound(Init(connected, now)) && Partition(Init(connected, now).core)
  {
  }

  /** Every reachable state is sound. */
  lemma {:induction false} RunKeepsSound(d: System, run: seq<Input>)
    requires Sound(d) && Admissible(d, run)
    ensures Sound(After(d, run))
  {
    hide Sound, System.Step, System.Enabled;
    if run != [] {
      RunKeepsSound(d, run[..|run| - 1]);
      StepKeepsSound(After(d, run[..|run| - 1]), run[|run| - 1]);
    }
  }

  lemma {:induction false} AfterAppend(d: System, run: seq<Input>, more: seq<Input>)
    ensures After(d, run + more) == After(After(d, run), more)
    ensures Admissible(d, run + more) ==> Admissible(d, run) && Admissible(After(d, run), more)
  {
    hide System.Step, System.Enabled;
    if more == [] {
      assert run + more == run;
    } else {
      assert (run + more)[..|run + more| - 1] == run + more[..|more| - 1];
      AfterAppend(d, run, more[..|more| - 1]);
    }
  }

  /** The state before input number k of a run. */
  ghost function Before(d: System, run: seq<Input>, k: nat): System
    requires k <= |run|
  {
    After(d, run[..k])
  }

  lemma SystemKeepsPartition(d: System, i: Input)
    requires Partition(d.core) && d.Enabled(i)
    ensures Partition(d.Step(i).core) <==> !Collides(d.core, i)
  {
    hide System.Enabled, Core.Step, Partition, Collides, System.Routed;
    EnabledIsFair(d, i);
    StepKeepsPartition(d.core, i, (i.Respond? || i.Cancel?) && d.routes.registry.Authorized(i.socket), d.routes.now);
  }

  lemma WholeAfterInput(d: System, i: Input, id: Id)
    requires d.Enabled(i) && Whole(d.core, id) && !Overtakes(d.core, i, id)
    ensures Whole(d.Step(i).core, id)
  {
    hide Core.Step, System.Routed, System.Enabled, Whole;
    EnabledIsFair(d, i);
    StepKeepsWhole(d.core, i, (i.Respond? || i.Cancel?) && d.routes.registry.Authorized(i.socket), d.routes.now, id);
  }

  /** Nobody takes this id over for a session of another source in the run. */
  ghost predicate Undisturbed(d: System, run: seq<Input>, id: Id) {
    run == [] ||
    (Undisturbed(d, run[..|run| - 1], id) && !Overtakes(After(d, run[..|run| - 1]).core, run[|run| - 1], id))
  }

  lemma {:induction false} UndisturbedStaysWhole(d: System, run: seq<Input>, id: Id)
    requires Whole(d.core, id) && Admissible(d, run) && Undisturbed(d, run, id)
    ensures Whole(After(d, run).core, id)
  {
    hide System.Step, System.Enabled, Whole, Overtakes;
    if run != [] {
      UndisturbedStaysWhole(d, run[..|run| - 1], id);
      WholeAfterInput(After(d, run[..|run| - 1]), run[|run| - 1], id);
    }
  }

  /** In every reachable state somebody is elected exactly when somebody is registered, and then exactly
      one socket may answer; with nobody registered every socket may. */
  lemma OneProviderMayAnswer(d: System, run: seq<Input>)
    requires Sound(d) && Admissible(d, run)
    ensures var g := After(d, run).routes.registry;
            && (g.active.None? <==> g.providers == map[])
            && (g.providers == map[] ==> forall s :: g.Authorized(s))
            && (g.providers != map[] ==> g.active.Some? && forall s :: g.Authorized(s) <==> s == g.active.value)
  {
    hide Sound;
    RunKeepsSound(d, run);
    RoutesAreSettled(After(d, run));
  }

  lemma RoutesOfSound(d: System)
    requires Sound(d)
    ensures d.routes.Valid()
  {
  }

  lemma RoutesAreSettled(d: System)
    requires Sound(d)
    ensures d.routes.registry.Settled()
  {
  }

  /** No accepted request of the run claims a live session of another source. */
  ghost predicate Peaceful(d: System, run: seq<Input>) {
    run == [] ||
    (Peaceful(d, run[..|run| - 1]) && !Collides(After(d, run[..|run| - 1]).core, run[|run| - 1]))
  }

  ghost predicate AlwaysPartitioned(d: System, run: seq<Input>) {
    Partition(After(d, run).core) && (run == [] || AlwaysPartitioned(d, run[..|run| - 1]))
  }

  /** In every run the sessions stay split by source into the three tables exactly as long as no
      accepted request claims a live session of another source. */
  lemma {:induction false} PartitionOverRuns(d: System, run: seq<Input>)
    requires Partition(d.core) && Admissible(d, run)
    ensures AlwaysPartitioned(d, run) <==> Peaceful(d, run)
  {
    hide System.Enabled, System.Step, Partition, Collides;
    if run != [] {
      var rest := run[..|run| - 1];
      PartitionOverRuns(d, rest);
      if Partition(After(d, rest).core) {
        SystemKeepsPartition(After(d, rest), run[|run| - 1]);
      }
    }
  }

  /** A keyring request and a polkit request under the same id. */
  function SharedId(): seq<Input> {
    var actor := Requestor("app", "", "a", "app", 100);
    [AskKeyring(1, 100, KeyringMessage("x", None, "Unlock", "", "", 0), actor, "fresh"),
     PolkitBegin("x", 0, true, Context("", actor, "", "", "", "", "", 0, 0, false, false), 0)]
  }

  /** The split can be broken: two sources that use the same id leave one session in two tables. */
  lemma SharedIdBreaksPartition()
    ensures var d := Init({1}, 0);
            Admissible(d, SharedId()) && !AlwaysPartitioned(d, SharedId())
  {
    hide System.Step, System.Enabled, Collides, Partition;
    var d, run := Init({1}, 0), SharedId();
    assert run[..1] == [run[0]] && run[..1][..0] == [];
    assert After(d, run[..0]) == d;
    assert After(d, run[..1]) == d.Step(run[0]);
    FirstIsFiled();
    InitIsSound({1}, 0);
    PartitionOverRuns(d, run);
  }

  lemma FirstIsFiled()
    ensures var d, i := Init({1}, 0), SharedId();
            d.Enabled(i[0]) && d.Step(i[0]).Enabled(i[1]) && Collides(d.Step(i[0]).core, i[1])
  {
    hide Core.Step, System.Routed, FlowsAfter, KeyringAfter;
    var d, i := Init({1}, 0), SharedId();
    StepTables(d.core, i[0], false, 0);
    SourcesAfterStep(d.core, i[0], false, 0);
    LiveSources(d.Step(i[0]).core);
  }
}
