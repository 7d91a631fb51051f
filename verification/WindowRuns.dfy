/** End to end: what is typed, asked and failed appears in the window, and over whole runs the window is
    the truth. */
module WindowRuns {
  import opened Basics
  import opened Messages
  import opened Providers
  import opened Routing
  import opened Services
  import opened Daemon
  import opened Runs
  import opened EventGrammar
  import opened Pictures
  import opened Agreement
  import opened AgreementRuns
  import opened Visibility
  import opened Windows

  // ----- The window is the truth -----

  lemma {:induction false} AmongAppend(a: seq<Event>, b: seq<Event>, id: Id)
    ensures Among(a + b, id) == Among(a, id) + Among(b, id)
  {
    if b == [] {
      assert a + b == a;
    } else {
      assert (a + b)[..|a + b| - 1] == a + b[..|b| - 1];
      AmongAppend(a, b[..|b| - 1], id);
    }
  }

  lemma AmongLastOne(events: seq<Event>, e: Event, id: Id)
    ensures Among(events + [e], id) == Among(events, id) + if !e.Notice? && e.id == id then [e] else []
  {
    assert (events + [e])[..|events|] == events;
  }

  /** Being shown an event twice in a row makes no difference to the picture. */
  lemma {:induction false} DoublingIsHarmless(before: Option<Card>, shown: seq<Event>, events: seq<Event>, id: Id)
    requires Doubled(shown, events)
    ensures Picture(before, Among(shown, id)) == Picture(before, Among(events, id))
    decreases |events|
  {
    hide Picture, Among;
    if events != [] {
      var n, e := |events| - 1, events[|events| - 1];
      var rest, x := DoubledSplit(shown, events);
      DoublingIsHarmless(before, rest, events[..n], id);
      assert events == events[..n] + [e];
      AmongLastOne(events[..n], e, id);
      AmongLastOne(rest, e, id);
      LastPaintedAlike(before, Among(rest, id), Among(events[..n], id), e);
      if x == [e, e] {
        assert shown == rest + [e] + [e];
        AmongLastOne(rest + [e], e, id);
        LastPaintedAlike(before, Among(rest, id) + [e], Among(events[..n], id), e);
      }
    }
  }

  /** Pictures that are alike, or of which one already has the event, are alike after it. */
  lemma LastPaintedAlike(before: Option<Card>, a: seq<Event>, b: seq<Event>, e: Event)
    requires Picture(before, a) == Picture(before, b) || Picture(before, a) == Painted(Picture(before, b), e)
    ensures Picture(before, a + [e]) == Picture(before, b + [e]) == Painted(Picture(before, b), e)
    ensures a + [] == a && b + [] == b
  {
    LastPainted(before, a, e);
    LastPainted(before, b, e);
  }

  lemma {:induction false} AmongEmitted(out: seq<Effect>, id: Id)
    ensures Among(Emitted(out), id) == Of(out, id)
  {
    if out != [] {
      var rest, e := out[..|out| - 1], out[|out| - 1];
      AmongEmitted(rest, id);
      if e.Emit? {
        AmongLastOne(Emitted(rest), e.event, id);
      }
      assert Emitted(rest) + [] == Emitted(rest);
    }
  }

  /** Folding what has been shown since the first `from` events gives every session as it is. */
  ghost predicate TrueWindow(d: System, s: Socket, from: nat) {
    var shown := Mirror(d.routes, s).shown;
    from <= |shown| && forall id :: Picture(None, Among(shown[from..], id)) == Now(d.core, id)
  }

  lemma StepKeepsWindowTrue(d: System, i: Input, s: Socket, from: nat)
    requires Sound(d) && Named(d.routes) && d.Enabled(i) && Agrees(d.routes, s) && i != Next(s)
    requires KeepsConnection(i, s) && Knows(d.Step(i).routes, s) && Steady(d, i, s, true)
    requires TrueWindow(d, s, from)
    ensures TrueWindow(d.Step(i), s, from)
  {
    hide Sound, Named, System.Enabled, System.Step, Agrees, Knows, Steady, Shows, Mirror, Picture, Among, Of, Now;
    hide System.Outputs;
    if i.Subscribe? && i.socket == s {
      SubscribeKeepsWindowTrue(d, i, s, from);
    } else {
      StepShows(d, i, s);
      var x, x' := Mirror(d.routes, s).shown, Mirror(d.Step(i).routes, s).shown;
      var out := d.Outputs(i).out;
      ShowsMeans(d.routes, d.Step(i).routes, s, Emitted(out));
      forall id
        ensures Picture(None, Among(x'[from..], id)) == Now(d.Step(i).core, id)
      {
        assert x'[from..] == x[from..] + x'[|x|..];
        AmongAppend(x[from..], x'[|x|..], id);
        PictureAppend(None, Among(x[from..], id), Among(x'[|x|..], id));
        DoublingIsHarmless(Now(d.core, id), x'[|x|..], Emitted(out), id);
        AmongEmitted(out, id);
        StepPaintsTruth(d, i, id);
      }
    }
  }

  lemma ShowsMeans(r: Router, r': Router, s: Socket, events: seq<Event>)
    requires Shows(r, r', s, events)
    ensures Mirror(r, s).shown <= Mirror(r', s).shown
    ensures Doubled(Mirror(r', s).shown[|Mirror(r, s).shown|..], events)
  {
    hide Mirror, Doubled;
  }

  lemma AuthorizedWhenSteady(d: System, i: Input, s: Socket)
    requires Steady(d, i, s, true)
    ensures d.routes.registry.Authorized(s)
  {
  }

  /** A subscription shows every live session as it is. */
  lemma SubscribeShowsTruth(d: System, i: Input, s: Socket)
    requires d.Enabled(i) && i.Subscribe? && i.socket == s && Agrees(d.routes, s) && d.routes.registry.Authorized(s)
    ensures d.Step(i).core == d.core
    ensures var x, x' := Mirror(d.routes, s).shown, Mirror(d.Step(i).routes, s).shown;
            && x <= x'
            && forall id, before ::
                 Picture(before, Among(x'[|x|..], id)) == if id in d.core.live then Now(d.core, id) else before
  {
    hide Agrees, Mirror, Picture, Among, Now, Router.Subscribe, Registry.Authorized;
    var replay := ReplayOf(d.core.live, i.order);
    ReplayIsSessions(d.core.live, i.order);
    SubscribeShows(d.routes, s, replay, |d.core.live|);
    forall id, before
      ensures Picture(before, Among(replay, id)) == if id in d.core.live then Now(d.core, id) else before
    {
      ReplayTellsEverything(d.core, i.order, id, before);
    }
  }

  lemma SubscribeKeepsWindowTrue(d: System, i: Input, s: Socket, from: nat)
    requires d.Enabled(i) && i.Subscribe? && i.socket == s && Agrees(d.routes, s) && Steady(d, i, s, true)
    requires TrueWindow(d, s, from)
    ensures TrueWindow(d.Step(i), s, from)
  {
    hide System.Enabled, System.Step, Agrees, Steady, Mirror, Picture, Among, Now;
    AuthorizedWhenSteady(d, i, s);
    SubscribeShowsTruth(d, i, s);
    var x, x' := Mirror(d.routes, s).shown, Mirror(d.Step(i).routes, s).shown;
    forall id
      ensures Picture(None, Among(x'[from..], id)) == Now(d.Step(i).core, id)
    {
      assert x'[from..] == x[from..] + x'[|x|..];
      AmongAppend(x[from..], x'[|x|..], id);
      PictureAppend(None, Among(x[from..], id), Among(x'[|x|..], id));
      NoCard(d.core, id);
    }
  }

  lemma NoCard(c: Core, id: Id)
    ensures id !in c.live ==> Now(c, id) == None
  {
  }

  lemma {:induction false} RunKeepsWindowTrue(d: System, run: seq<Input>, s: Socket, from: nat)
    requires Sound(d) && Named(d.routes) && Admissible(d, run) && Agrees(d.routes, s) && SteadyRun(d, run, s, true)
    requires TrueWindow(d, s, from) && forall k :: 0 <= k < |run| ==> run[k] != Next(s)
    ensures TrueWindow(After(d, run), s, from)
  {
    hide Sound, Named, System.Step, System.Enabled, Agrees, Knows, Seen, Steady, TrueWindow;
    if run != [] {
      var rest, i := run[..|run| - 1], run[|run| - 1];
      RunKeepsWindowTrue(d, rest, s, from);
      RunSeen(d, rest, s, true);
      RunKeepsSound(d, rest);
      RunKeepsNamed(d, rest);
      StepKeepsWindowTrue(After(d, rest), i, s, from);
    }
  }

  /** In every run, from its subscription on and for as long as it may answer, a client that does not pull
      events one by one knows the truth: folding what it has shown since then gives exactly the live
      sessions, each with its context, prompt, echo, counters, error and information as the daemon has
      them. */
  lemma WindowIsTrue(d: System, run: seq<Input>, order: seq<Id>, more: seq<Input>, s: Socket, id: Id)
    requires Sound(d) && Named(d.routes) && Admissible(d, run + [Subscribe(s, order)] + more) && Enrolled(d, run, s)
    requires SteadyRun(After(d, run), [Subscribe(s, order)] + more, s, true)
    requires forall k :: 0 <= k < |more| ==> more[k] != Next(s)
    ensures var before, end := After(d, run), After(d, run + [Subscribe(s, order)] + more);
            var x, x' := Mirror(before.routes, s).shown, Mirror(end.routes, s).shown;
            x <= x' && Picture(None, Among(x'[|x|..], id)) == Now(end.core, id)
  {
    hide Sound, Named, System.Step, System.Enabled, Agrees, SteadyRun, Enrolled, TrueWindow, Mirror, Picture, Among,
         Now;
    hide Registry.Authorized;
    var i, before := Subscribe(s, order), After(d, run);
    assert run + [i] + more == run + ([i] + more);
    AfterAppend(d, run, [i] + more);
    AfterAppend(before, [i], more);
    AfterAppend(d, run + [i], more);
    OneStep(before, i);
    RunKeepsSound(d, run);
    RunKeepsNamed(d, run);
    EnrolledAgrees(d, run, s);
    SteadySplit(before, i, more, s);
    AuthorizedWhenSteady(before, i, s);
    SubscribeShowsTruth(before, i, s);
    var x := |Mirror(before.routes, s).shown|;
    assert TrueWindow(before.Step(i), s, x) by {
      WindowOpens(before, i, s);
    }
    StepKeepsSound(before, i);
    RunKeepsNamed(before, [i]);
    RunSeen(before, [i], s, true);
    RunKeepsWindowTrue(before.Step(i), more, s, x);
    RunSeen(before, [i] + more, s, true);
    WindowMeans(After(before, [i] + more), s, x, id);
    SeenGrows(before.routes, After(before, [i] + more).routes, s);
  }

  lemma SeenGrows(r: Router, r': Router, s: Socket)
    requires Seen(r, r', s, true)
    ensures Mirror(r, s).shown <= Mirror(r', s).shown
  {
    hide Mirror, Posted;
  }

  lemma WindowMeans(d: System, s: Socket, from: nat, id: Id)
    requires TrueWindow(d, s, from)
    ensures from <= |Mirror(d.routes, s).shown|
    ensures Picture(None, Among(Mirror(d.routes, s).shown[from..], id)) == Now(d.core, id)
  {
    hide Mirror, Picture, Among, Now;
  }

  lemma WindowOpens(d: System, i: Input, s: Socket)
    requires d.Enabled(i) && i.Subscribe? && i.socket == s && Agrees(d.routes, s) && d.routes.registry.Authorized(s)
    ensures TrueWindow(d.Step(i), s, |Mirror(d.routes, s).shown|)
  {
    hide System.Enabled, System.Step, Agrees, Mirror, Picture, Among, Now, Registry.Authorized;
    SubscribeShowsTruth(d, i, s);
    forall id
      ensures id !in d.core.live ==> Now(d.core, id) == None
    {
      NoCard(d.core, id);
    }
  }

  lemma OneStep(d: System, i: Input)
    ensures After(d, [i]) == d.Step(i) && (Admissible(d, [i]) ==> d.Enabled(i))
  {
    hide System.Step, System.Enabled;
    assert [i][..0] == [];
    assert After(d, []) == d;
  }

  lemma {:induction false} SteadySplit(d: System, i: Input, more: seq<Input>, s: Socket)
    requires SteadyRun(d, [i] + more, s, true)
    ensures KeepsConnection(i, s) && Knows(d.Step(i).routes, s) && Steady(d, i, s, true)
    ensures SteadyRun(d, [i], s, true) && SteadyRun(d.Step(i), more, s, true)
  {
    hide System.Step, Steady, Knows;
    var run := [i] + more;
    OneStep(d, i);
    if more == [] {
      assert run == [i] && [i][..0] == [];
      assert After(d, []) == d;
    } else {
      var n := |more| - 1;
      assert run[..|run| - 1] == [i] + more[..n];
      SteadySplit(d, i, more[..n], s);
      AfterAppend(d, [i], more[..n]);
      AfterAppend(d, [i], more);
    }
  }
}
