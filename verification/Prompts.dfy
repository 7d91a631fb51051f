/** What a request, a helper's prompt and a helper's failure look like in the window, from the input to
    the last thing shown. */
module Prompts {
  import opened Basics
  import opened Messages
  import opened Sessions
  import opened Providers
  import opened Routing
  import opened Keyring
  import opened Pinentry
  import opened PolkitAgent
  import opened Daemon
  import opened Runs
  import opened EventGrammar
  import opened Announcements
  import opened Pictures
  import opened Agreement
  import opened AgreementRuns
  import opened Visibility
  import opened Windows
  import opened WindowRuns

  /** These inputs present something to the user. */
  predicate Presents(i: Input) {
    i.AskKeyring? || i.AskPinentry? || i.PolkitBegin? || i.HelperPrompt? || i.HelperError? || i.HelperInfo?
  }

  // ----- Presenting leaves the election alone -----

  /** No re-election has been asked for in between. */
  predicate Calm(s: Sess, s': Sess) {
    s.out <= s'.out && forall k :: |s.out| <= k < |s'.out| ==> !s'.out[k].Recheck?
  }

  lemma UpdatesAreCalm(s: Sess, id: Id)
    ensures forall source, context :: Calm(s, s.Create(id, source, context))
    ensures forall prompt, echo, clear :: Calm(s, s.UpdatePrompt(id, prompt, echo, clear))
    ensures forall text :: Calm(s, s.UpdateError(id, text)) && Calm(s, s.UpdateInfo(id, text))
    ensures forall cur, max :: Calm(s, s.UpdateRetry(id, cur, max))
    ensures forall e: Effect :: !e.Recheck? ==> Calm(s, s.Put([e]))
    ensures Calm(s, s)
  {
  }

  lemma CalmOn(a: Sess, b: Sess, c: Sess)
    requires Calm(a, b) && Calm(b, c)
    ensures Calm(a, c)
  {
  }

  lemma KeyringAskIsCalm(k: KeyringState, m: KeyringMessage, s: Socket, pid: Pid, actor: Requestor, uuid: Id)
    ensures Calm(k.sess, k.Ask(m, s, pid, actor, uuid).sess)
  {
    hide Calm, Sess.Create, Sess.UpdatePrompt;
    var id := IdOf(m.cookie, uuid);
    var r := RequestOf(m, id, s, pid);
    var created := k.sess.Create(id, Source.Keyring, Keyring.ContextOf(r, actor));
    UpdatesAreCalm(k.sess, id);
    UpdatesAreCalm(created, id);
    CalmOn(k.sess, created, created.UpdatePrompt(id, r.message, false, true));
  }

  lemma PresentedIsCalm(s: Sess, r: PinentryRequest, actor: Requestor, cur: int, max: int, was: bool, reported: bool)
    ensures Calm(s, Presented(s, r, actor, cur, max, was, reported))
  {
    hide Calm, Sess.Create, Sess.UpdatePrompt, Sess.UpdateError, Sess.UpdateRetry;
    var id := r.cookie;
    var s1 := if was then s.UpdateError(id, OrElse(r.error, Pinentry.AUTH_FAILED)) else s;
    var s2 := if id in s.live then s1.UpdateRetry(id, cur, max)
      else s1.Create(id, Source.Pinentry, Pinentry.ContextOf(r, actor, cur, max));
    var s3 := s2.UpdatePrompt(id, r.prompt, false, false);
    UpdatesAreCalm(s, id);
    UpdatesAreCalm(s1, id);
    UpdatesAreCalm(s2, id);
    UpdatesAreCalm(s3, id);
    CalmOn(s, s1, s2);
    CalmOn(s, s2, s3);
    CalmOn(s, s3, s3.UpdateError(id, r.error));
  }

  lemma PolkitAskIsCalm(p: PolkitState, i: Input)
    requires i.PolkitBegin?
    ensures Calm(p.sess, p.Begin(i.id, i.token, i.identified, i.context, i.helper).sess)
  {
    hide Calm, Sess.Create;
    UpdatesAreCalm(p.sess, i.id);
    var created := p.sess.Create(i.id, Source.Polkit, i.context);
    UpdatesAreCalm(created, i.id);
    CalmOn(p.sess, created, created.Put([StartHelper(i.helper, i.id)]));
  }

  predicate NoRecheck(out: seq<Effect>) {
    forall k :: 0 <= k < |out| ==> !out[k].Recheck?
  }

  lemma PresentingIsCalm(c: Core, i: Input, authorized: bool, now: int)
    requires Presents(i)
    ensures NoRecheck(c.Step(i, authorized, now).out)
  {
    hide Sess.UpdateError, Sess.UpdatePrompt, Sess.UpdateInfo, Presented, ResolveRetryInfo, KeyringState.Ask, Parsed;
    hide PolkitState.Begin;
    if i.AskKeyring? {
      KeyringAskIsCalm(c.AsKeyring(), i.keyringMessage, i.socket, i.pid, i.actor, i.uuid);
    } else if i.AskPinentry? {
      var p, m := c.AsPinentry(), i.pinentryMessage;
      var id := OrElse(m.cookie, i.uuid);
      var counted := ResolveRetryInfo(p.retries, m.keyinfo, m.attempts);
      PresentedIsCalm(p.sess, Parsed(m, id, i.socket, i.pid), i.actor, counted.curRetry, counted.maxRetries,
                      p.IsAwaiting(id), id in p.flows && p.flows[id].reported);
    } else if i.PolkitBegin? {
      PolkitAskIsCalm(c.AsPolkit(), i);
    } else if Whose(c.attempts, i.sender).Some? {
      UpdatesAreCalm(Sess(c.live, []), Whose(c.attempts, i.sender).value);
    }
  }

  lemma {:induction false} CalmKeepsRegistry(r: Router, out: seq<Effect>)
    requires r.Valid() && NoRecheck(out)
    ensures r.ApplyAll(out).registry == r.registry && r.ApplyAll(out).Valid()
  {
    hide Router.Valid, Router.Route;
    if out != [] {
      var n := |out| - 1;
      CalmKeepsRegistry(r, out[..n]);
      EffectKeepsValid(r.ApplyAll(out[..n]), out[n]);
      var r' := r.ApplyAll(out[..n]);
      if out[n].Emit? {
        RouteKeepsValid(r', out[n].event);
      }
    }
  }

  /** Whoever may answer before something is presented may answer all through it. */
  lemma PresentingIsSteady(d: System, i: Input, s: Socket)
    requires d.routes.Valid() && Presents(i) && Knows(d.routes, s) && d.routes.registry.Authorized(s)
    ensures Steady(d, i, s, true) && Knows(d.Step(i).routes, s) && KeepsConnection(i, s) && !AsksForEvents(i, s)
  {
    hide Core.Step, Registry.Authorized, Router.Valid, Router.ApplyAll;
    var out := d.Outputs(i).out;
    PresentingIsCalm(d.core, i, false, d.routes.now);
    assert d.Routed(i) == d.routes;
    EffectsKeepValid(d.routes, out);
    CalmKeepsRegistry(d.routes, out);
    forall k | 0 <= k <= |out|
      ensures d.routes.ApplyAll(out[..k]).registry == d.routes.registry
    {
      CalmKeepsRegistry(d.routes, out[..k]);
    }
  }

  // ----- What is shown -----

  lemma {:induction false} OnlyAbout(events: seq<Event>, id: Id)
    requires forall k :: 0 <= k < |events| ==> !events[k].Notice? && events[k].id == id
    ensures Among(events, id) == events
  {
    if events != [] {
      OnlyAbout(events[..|events| - 1], id);
    }
  }

  lemma {:induction false} AmongHolds(events: seq<Event>, k: nat)
    requires k < |events| && !events[k].Notice?
    ensures Among(events, events[k].id) != []
  {
    if k < |events| - 1 {
      AmongHolds(events[..|events| - 1], k);
    }
  }

  lemma {:induction false} EmittedAreSessions(out: seq<Effect>)
    ensures forall k :: 0 <= k < |Emitted(out)| ==> !Emitted(out)[k].Notice?
  {
    if out != [] {
      EmittedAreSessions(out[..|out| - 1]);
    }
  }

  /** Outputs about one id only. */
  lemma OneIdOnly(out: seq<Effect>, id: Id)
    requires forall o :: o != id ==> Of(out, o) == []
    ensures Emitted(out) == Of(out, id)
  {
    hide Of, Emitted, Among;
    var events := Emitted(out);
    EmittedAreSessions(out);
    forall k | 0 <= k < |events|
      ensures events[k].id == id
    {
      AmongHolds(events, k);
      AmongEmitted(out, events[k].id);
    }
    OnlyAbout(events, id);
    AmongEmitted(out, id);
  }

  /** What the client on `s` shows when `i` follows the run. */
  ghost function NewlyShown(d: System, run: seq<Input>, i: Input, s: Socket): seq<Event> {
    var x, x' := Mirror(After(d, run).routes, s).shown, Mirror(After(d, run + [i]).routes, s).shown;
    if |x| <= |x'| then x'[|x|..] else []
  }

  /** The client is enrolled and may answer, and the input can follow the run. */
  ghost predicate Watches(d: System, run: seq<Input>, i: Input, s: Socket) {
    && Sound(d) && Named(d.routes) && Admissible(d, run + [i]) && Enrolled(d, run, s)
    && After(d, run).routes.registry.Authorized(s)
  }

  lemma PresentedIsShown(d: System, run: seq<Input>, i: Input, s: Socket, id: Id)
    requires Watches(d, run, i, s) && Presents(i)
    requires forall o :: o != id ==> Announced(After(d, run).core, i, false, o) == []
    ensures Doubled(NewlyShown(d, run, i, s), Announced(After(d, run).core, i, false, id))
    ensures Mirror(After(d, run + [i]).routes, s).shown ==
            Mirror(After(d, run).routes, s).shown + NewlyShown(d, run, i, s)
  {
    hide Sound, Named, System.Step, System.Enabled, Enrolled, Agrees, Knows, Registry.Authorized, Mirror, Doubled;
    hide Announced, Steady, Core.Step, Of, Emitted, Presents, Shows;
    var before := After(d, run);
    assert (run + [i])[..|run|] == run;
    RunKeepsSound(d, run);
    RunKeepsNamed(d, run);
    RoutesOfSound(before);
    EnrolledAgrees(d, run, s);
    EnrolledIsKnown(d, run, s);
    PresentingIsSteady(before, i, s);
    StepShows(before, i, s);
    ShowsMeans(before.routes, before.Step(i).routes, s, Emitted(before.Outputs(i).out));
    EnabledIsFair(before, i);
    forall o
      ensures Of(before.Outputs(i).out, o) == Announced(before.core, i, false, o)
    {
      PresentsAreNotAnswers(i);
      AnnouncementsExact(before.core, i, false, before.routes.now, o);
    }
    OneIdOnly(before.Outputs(i).out, id);
  }

  lemma PresentsAreNotAnswers(i: Input)
    requires Presents(i)
    ensures !i.Respond? && !i.Cancel?
  {
  }

  lemma EnrolledIsKnown(d: System, run: seq<Input>, s: Socket)
    requires Enrolled(d, run, s)
    ensures Knows(After(d, run).routes, s)
  {
    hide Knows, System.Step;
  }

  /** The last thing shown. */
  ghost predicate LastShown(d: System, run: seq<Input>, s: Socket, e: Event) {
    var shown := Mirror(After(d, run).routes, s).shown;
    shown != [] && shown[|shown| - 1] == e
  }

  lemma LastIsShown(d: System, run: seq<Input>, i: Input, s: Socket, id: Id)
    requires Watches(d, run, i, s) && Presents(i)
    requires forall o :: o != id ==> Announced(After(d, run).core, i, false, o) == []
    requires Announced(After(d, run).core, i, false, id) != []
    ensures var events := Announced(After(d, run).core, i, false, id);
            && LastShown(d, run + [i], s, events[|events| - 1])
            && forall e :: e in NewlyShown(d, run, i, s) <==> e in events
  {
    hide Watches, Announced, After, Mirror, NewlyShown, Presents, Doubled;
    PresentedIsShown(d, run, i, s, id);
    DoubledLast(NewlyShown(d, run, i, s), Announced(After(d, run).core, i, false, id));
  }

  lemma HelperOwnsId(c: Core, h: Helper, id: Id)
    requires c.AsPolkit().Sound() && id in c.attempts && c.attempts[id].helper == h
    ensures Whose(c.attempts, h) == Some(id)
  {
  }

  lemma PolkitIsSound(d: System, run: seq<Input>, i: Input)
    requires Sound(d) && Admissible(d, run + [i])
    ensures After(d, run).core.AsPolkit().Sound()
  {
    hide System.Step, System.Enabled;
    assert (run + [i])[..|run|] == run;
    RunKeepsSound(d, run);
  }

  /** The current helper of a live request, and what it says. */
  ghost predicate Speaks(c: Core, h: Helper, id: Id) {
    id in c.attempts && c.attempts[id].helper == h && id in c.live
  }

  /** A prompt of the current helper is the last thing shown: its text and whether to echo as the helper
      said, with no error and no information left. */
  lemma HelperPromptIsShown(d: System, run: seq<Input>, h: Helper, prompt: string, echo: bool, s: Socket, id: Id)
    requires Watches(d, run, HelperPrompt(h, prompt, echo), s) && Speaks(After(d, run).core, h, id)
    ensures LastShown(d, run + [HelperPrompt(h, prompt, echo)], s,
                      Updated(id, prompt, echo, Counters(After(d, run).core.live[id]), "", ""))
  {
    hide After, Mirror, Sound, Named, Admissible, Enrolled, Registry.Authorized, PolkitState.Sound;
    PolkitIsSound(d, run, HelperPrompt(h, prompt, echo));
    HelperOwnsId(After(d, run).core, h, id);
    LastIsShown(d, run, HelperPrompt(h, prompt, echo), s, id);
  }

  /** A failure or information of the current helper is the last thing shown; prompt and echo stay. */
  lemma HelperTextIsShown(d: System, run: seq<Input>, h: Helper, text: string, s: Socket, id: Id)
    requires Speaks(After(d, run).core, h, id)
    ensures var now := After(d, run).core.live[id];
            && (Watches(d, run, HelperError(h, text), s) ==>
                  LastShown(d, run + [HelperError(h, text)], s,
                            Updated(id, now.prompt, now.echo, Counters(now), text, now.info)))
            && (Watches(d, run, HelperInfo(h, text), s) ==>
                  LastShown(d, run + [HelperInfo(h, text)], s,
                            Updated(id, now.prompt, now.echo, Counters(now), now.error, text)))
  {
    hide After, Mirror, Sound, Named, Admissible, Enrolled, Registry.Authorized, PolkitState.Sound;
    if Watches(d, run, HelperError(h, text), s) {
      PolkitIsSound(d, run, HelperError(h, text));
      HelperOwnsId(After(d, run).core, h, id);
      LastIsShown(d, run, HelperError(h, text), s, id);
    }
    if Watches(d, run, HelperInfo(h, text), s) {
      PolkitIsSound(d, run, HelperInfo(h, text));
      HelperOwnsId(After(d, run).core, h, id);
      LastIsShown(d, run, HelperInfo(h, text), s, id);
    }
  }

  /** An accepted polkit request is shown with its message, requestor, action and user. */
  lemma PolkitRequestIsShown(d: System, run: seq<Input>, i: Input, s: Socket)
    requires Watches(d, run, i, s) && i.PolkitBegin? && i.identified && i.id !in After(d, run).core.attempts
    ensures var x := i.context;
            LastShown(d, run + [i], s,
                      Created(i.id, Source.Polkit, Context(x.message, x.requestor, x.actionId, x.user, "", "", "", 0, 0,
                                                           false, false)))
  {
    hide After, Mirror, Sound, Named, Admissible, Enrolled, Registry.Authorized;
    LastIsShown(d, run, i, s, i.id);
  }

  /** A keyring request is shown under its title, and its message is the prompt, not echoed. */
  lemma KeyringRequestIsShown(d: System, run: seq<Input>, i: Input, s: Socket)
    requires Watches(d, run, i, s) && i.AskKeyring?
    ensures var m := i.keyringMessage;
            var id := if m.cookie == "" then i.uuid else m.cookie;
            var title := if m.title.Some? then m.title.value else m.prompt;
            && Created(id, Source.Keyring, Context(title, i.actor, "", "", m.message, "", "", 0, 0, false, false))
               in NewlyShown(d, run, i, s)
            && LastShown(d, run + [i], s, Updated(id, m.message, false, None, "", ""))
  {
    hide After, Mirror, Sound, Named, Admissible, Enrolled, Registry.Authorized, NewlyShown;
    var m := i.keyringMessage;
    LastIsShown(d, run, i, s, if m.cookie == "" then i.uuid else m.cookie);
  }

  /** An accepted pinentry request is shown with its own prompt, not echoed, and with its error unless a
      retry was reported with it; a first request creates the session with all that it says. */
  lemma PinentryRequestIsShown(d: System, run: seq<Input>, i: Input, s: Socket)
    requires Watches(d, run, i, s) && i.AskPinentry?
    requires var m, c := i.pinentryMessage, After(d, run).core;
             var id := if m.cookie == "" then i.uuid else m.cookie;
             id in c.flows ==> c.flows[id].owner == i.pid
    ensures var m, c := i.pinentryMessage, After(d, run).core;
            var id := if m.cookie == "" then i.uuid else m.cookie;
            var prompt := if m.prompt == "" then "Enter passphrase:" else m.prompt;
            var (cur, max) := CountersFor(c.retries, m.keyinfo, m.attempts);
            && (id !in c.live ==>
                  Created(id, Source.Pinentry, Context(prompt, i.actor, "", "", "", m.description, m.keyinfo, cur, max,
                                                       m.confirmOnly, m.repeat)) in NewlyShown(d, run, i, s))
            && exists counters, error ::
                 && LastShown(d, run + [i], s, Updated(id, prompt, false, counters, error, ""))
                 && (m.error != "" && !(id in c.flows && c.flows[id].reported) ==> error == m.error)
                 && ((id in c.live ==> c.live[id].source == Source.Pinentry) ==> counters == Some((cur, max)))
                 && (id !in c.live && m.error == "" ==> error == "")
  {
    hide After, Mirror, Sound, Named, Admissible, Enrolled, Registry.Authorized, NewlyShown, CountersFor, Announced;
    hide LastShown;
    var m, c := i.pinentryMessage, After(d, run).core;
    var id := if m.cookie == "" then i.uuid else m.cookie;
    forall o | o != id
      ensures Announced(c, i, false, o) == []
    {
      ElsewhereNothing(c, i, o);
    }
    RequestAnnounced(c, i, id);
    LastIsShown(d, run, i, s, id);
    var events := Announced(c, i, false, id);
    var last := events[|events| - 1];
    assert last == Updated(id, AskedPrompt(m), false, last.retry, last.error, "");
    assert LastShown(d, run + [i], s, Updated(id, AskedPrompt(m), false, last.retry, last.error, ""));
  }

  lemma ElsewhereNothing(c: Core, i: Input, o: Id)
    requires i.AskPinentry? && o != if i.pinentryMessage.cookie == "" then i.uuid else i.pinentryMessage.cookie
    ensures Announced(c, i, false, o) == []
  {
  }

  lemma RequestAnnounced(c: Core, i: Input, id: Id)
    requires i.AskPinentry? && id == if i.pinentryMessage.cookie == "" then i.uuid else i.pinentryMessage.cookie
    requires id in c.flows ==> c.flows[id].owner == i.pid
    ensures var m, events := i.pinentryMessage, Announced(c, i, false, id);
            var (cur, max) := CountersFor(c.retries, m.keyinfo, m.attempts);
            && events != []
            && (id !in c.live ==>
                  Created(id, Source.Pinentry, Context(AskedPrompt(m), i.actor, "", "", "", m.description, m.keyinfo,
                                                       cur, max, m.confirmOnly, m.repeat)) in events)
            && var last := events[|events| - 1];
               && last.Updated? && last.id == id && last.prompt == AskedPrompt(m) && !last.echo && last.info == ""
               && (m.error != "" && !(id in c.flows && c.flows[id].reported) ==> last.error == m.error)
               && ((id in c.live ==> c.live[id].source == Source.Pinentry) ==> last.retry == Some((cur, max)))
               && (id !in c.live && m.error == "" ==> last.error == "")
  {
    hide CountersFor, AskedPrompt;
    if id !in c.live {
      assert Announced(c, i, false, id)[0].Created?;
    }
  }
}
