/** The events tell everything: whoever folds the events of a run over what it knew at the start knows
    every live session and its present state. */
module Pictures {
  import opened Basics
  import opened Messages
  import opened Sessions
  import opened Pinentry
  import opened Services
  import opened Daemon
  import opened Invariants
  import opened Runs
  import opened EventGrammar
  import opened Announcements

  /** What a watcher knows of a session. The counters are those last announced. */
  datatype Card = Card(
    source: Source, context: Context, prompt: string, echo: bool, counters: Option<(int, int)>, error: string,
    info: string)

  function Uncounted(context: Context): Context {
    context.(curRetry := 0, maxRetries := 0)
  }

  /** The watcher's picture of one id after one event about it. */
  function Painted(before: Option<Card>, e: Event): Option<Card> {
    match e
    case Created(_, source, context) =>
      Some(Card(source, Uncounted(context), "", false,
                if source.Pinentry? then Some((context.curRetry, context.maxRetries)) else None, "", ""))
    case Updated(_, prompt, echo, counters, error, info) =>
      if before.None? then None
      else Some(Card(before.value.source, before.value.context, prompt, echo, counters, error, info))
    case Closed(_, _, _) => None
    case Notice(_) => before
  }

  function Picture(before: Option<Card>, events: seq<Event>): Option<Card> {
    if events == [] then before else Painted(Picture(before, events[..|events| - 1]), events[|events| - 1])
  }

  lemma {:induction false} PictureAppend(before: Option<Card>, a: seq<Event>, b: seq<Event>)
    ensures Picture(before, a + b) == Picture(Picture(before, a), b)
  {
    hide Painted;
    if b == [] {
      assert a + b == a;
    } else {
      assert (a + b)[..|a + b| - 1] == a + b[..|b| - 1];
      PictureAppend(before, a, b[..|b| - 1]);
    }
  }

  /** The session as it is. */
  function Truth(session: Option<SessionData>): Option<Card> {
    if session.None? then None
    else
      var d := session.value;
      Some(Card(d.source, Uncounted(Public(d.source, d.context)), d.prompt, d.echo, Counters(d), d.error, d.info))
  }

  /** The picture painted by the events so far is the session as it is. */
  predicate TrueTo(l: Local, before: Option<Card>) {
    Picture(before, l.events) == Truth(l.session)
  }

  lemma LastPainted(before: Option<Card>, events: seq<Event>, e: Event)
    ensures Picture(before, events + [e]) == Painted(Picture(before, events), e)
  {
    assert (events + [e])[..|events|] == events;
  }

  lemma BecomeIsTrue(l: Local, d: SessionData, before: Option<Card>)
    requires TrueTo(l, before) && l.session.Some? && d.source == l.session.value.source
    requires Uncounted(d.context) == Uncounted(l.session.value.context)
    ensures TrueTo(l.Become(d), before)
  {
    LastPainted(before, l.events, Updated(l.id, d.prompt, d.echo, Counters(d), d.error, d.info));
  }

  lemma UpdatesAreTrue(l: Local, before: Option<Card>)
    requires TrueTo(l, before)
    ensures forall prompt, echo, clear :: TrueTo(l.Prompted(prompt, echo, clear), before)
    ensures forall text :: TrueTo(l.Erred(text), before) && TrueTo(l.Informed(text), before)
    ensures forall cur, max, prompt, echo, clear :: TrueTo(l.Recounted(cur, max).Prompted(prompt, echo, clear), before)
  {
    hide TrueTo, Local.Become;
    if l.session.Some? {
      forall d: SessionData | d.source == l.session.value.source
                              && Uncounted(d.context) == Uncounted(l.session.value.context)
        ensures TrueTo(l.Become(d), before)
      {
        BecomeIsTrue(l, d, before);
      }
      forall cur, max
        ensures forall prompt, echo, clear :: TrueTo(l.Recounted(cur, max).Prompted(prompt, echo, clear), before)
      {
        RecountedBecomes(l, cur, max);
      }
    }
  }

  lemma RecountedBecomes(l: Local, cur: int, max: int)
    requires l.session.Some?
    ensures var r := l.Recounted(cur, max);
            && r.session.Some? && r.id == l.id && r.events == l.events
            && r.session.value.source == l.session.value.source
            && Uncounted(r.session.value.context) == Uncounted(l.session.value.context)
    ensures forall d :: l.Recounted(cur, max).Become(d) == l.Become(d)
  {
  }

  lemma OpenedIsTrue(l: Local, source: Source, context: Context, before: Option<Card>)
    ensures TrueTo(l.Opened(source, context), before)
  {
    LastPainted(before, l.events, Created(l.id, source, Public(source, context)));
  }

  lemma ShutIsTrue(l: Local, result: Result, before: Option<Card>)
    requires TrueTo(l, before)
    ensures TrueTo(l.Shut(result), before)
  {
    if l.session.Some? {
      var text := if result == Success then "" else l.session.value.error;
      LastPainted(before, l.events, Closed(l.id, result, text));
    }
  }

  lemma RequestedIsTrue(l: Local, m: PinentryMessage, actor: Requestor, cur: int, max: int, failed: bool,
                        reported: bool, before: Option<Card>)
    requires TrueTo(l, before)
    ensures TrueTo(Requested(l, m, actor, cur, max, failed, reported), before)
  {
    hide TrueTo, Local.Erred, Local.Prompted, Local.Recounted, Local.Opened;
    var context := Context(AskedPrompt(m), actor, "", "", "", m.description, m.keyinfo, cur, max, m.confirmOnly,
                           m.repeat);
    var l1 := if failed then l.Erred(if m.error == "" then "Authentication failed" else m.error) else l;
    var l2 := if l.session.None? then l.Opened(Source.Pinentry, context) else l1.Recounted(cur, max);
    UpdatesAreTrue(l, before);
    UpdatesAreTrue(l1, before);
    OpenedIsTrue(l, Source.Pinentry, context, before);
    if l.session.None? {
      UpdatesAreTrue(l2, before);
    }
    UpdatesAreTrue(l2.Prompted(AskedPrompt(m), false, false), before);
  }

  lemma ExpectedOfIsTrue(c: Core, i: Input, authorized: bool, l: Local, source: Source, before: Option<Card>)
    requires TrueTo(l, before)
    ensures TrueTo(ExpectedOf(c, i, authorized, l, source), before)
  {
    hide TrueTo, Local.Erred, Local.Prompted, Local.Shut, Local.Informed, CancelsPolkit;
    UpdatesAreTrue(l, before);
    EndsAreTrue(l, before);
  }

  lemma EndsAreTrue(l: Local, before: Option<Card>)
    requires TrueTo(l, before)
    ensures forall result :: TrueTo(l.Shut(result), before)
    ensures forall text, result :: TrueTo(l.Erred(text).Shut(result), before)
    ensures forall text, more, result :: TrueTo(l.Erred(text).Erred(more).Shut(result), before)
  {
    hide TrueTo, Local.Erred, Local.Shut;
    UpdatesAreTrue(l, before);
    forall text
      ensures forall result :: TrueTo(l.Erred(text).Shut(result), before)
      ensures forall more, result :: TrueTo(l.Erred(text).Erred(more).Shut(result), before)
    {
      var l1 := l.Erred(text);
      UpdatesAreTrue(l1, before);
      forall result
        ensures TrueTo(l1.Shut(result), before)
      {
        ShutIsTrue(l1, result, before);
      }
      forall more, result
        ensures TrueTo(l1.Erred(more).Shut(result), before)
      {
        ShutIsTrue(l1.Erred(more), result, before);
      }
    }
    forall result
      ensures TrueTo(l.Shut(result), before)
    {
      ShutIsTrue(l, result, before);
    }
  }

  lemma ExpectedIsTrue(c: Core, i: Input, authorized: bool, id: Id)
    ensures TrueTo(Expected(c, i, authorized, id), Truth(Start(c, id).session))
  {
    hide TrueTo, ExpectedOf, Requested, Local.Opened, Local.Prompted, CountersFor;
    var l := Start(c, id);
    var before := Truth(l.session);
    StartIsTrue(c, id);
    match i
    case AskKeyring(_, _, m, actor, uuid) =>
      var context := Context(if m.title.Some? then m.title.value else m.prompt, actor, "", "", m.message,
                             "", "", 0, 3, false, false);
      OpenedIsTrue(l, Source.Keyring, context, before);
      UpdatesAreTrue(l.Opened(Source.Keyring, context), before);
    case AskPinentry(_, pid, m, actor, uuid) =>
      var (cur, max) := CountersFor(c.retries, m.keyinfo, m.attempts);
      RequestedIsTrue(l, m, actor, cur, max, id in c.flows && c.flows[id].phase.Awaiting?,
                      id in c.flows && c.flows[id].reported, before);
    case PolkitBegin(_, _, _, context, _) => OpenedIsTrue(l, Source.Polkit, context, before);
    case _ =>
      if l.session.Some? {
        ExpectedOfIsTrue(c, i, authorized, l, l.session.value.source, before);
      }
  }

  lemma StartIsTrue(c: Core, id: Id)
    ensures TrueTo(Start(c, id), Truth(Start(c, id).session))
  {
  }

  /** The session of an id as it is. */
  function Now(c: Core, id: Id): Option<Card> {
    Truth(if id in c.live then Some(c.live[id]) else None)
  }

  lemma StepPaintsTruth(d: System, i: Input, id: Id)
    requires d.Enabled(i)
    ensures Picture(Now(d.core, id), Of(d.Outputs(i).out, id)) == Now(d.Step(i).core, id)
  {
    hide Core.Step, System.Enabled, Of, Expected, Picture, Truth, System.Routed;
    var authorized := (i.Respond? || i.Cancel?) && d.routes.registry.Authorized(i.socket);
    EnabledIsFair(d, i);
    SessionsExact(d.core, i, authorized, d.routes.now, id);
    ExpectedIsTrue(d.core, i, authorized, id);
  }

  /** In every run, whatever ids are used for: folding the events about an id over what was known of it at
      the start gives the session as it is at the end, or nothing if there is none. */
  lemma {:induction false} EventsTellEverything(d: System, run: seq<Input>, id: Id)
    requires Admissible(d, run)
    ensures Picture(Now(d.core, id), Of(Trace(d, run), id)) == Now(After(d, run).core, id)
  {
    hide System.Step, System.Outputs, System.Enabled, Of, Picture, Now;
    if run == [] {
      NothingAbout([], id);
      NothingPainted(Now(d.core, id));
    } else {
      var rest, i := run[..|run| - 1], run[|run| - 1];
      EventsTellEverything(d, rest, id);
      StepPaintsTruth(After(d, rest), i, id);
      OfAppend(Trace(d, rest), After(d, rest).Outputs(i).out, id);
      PictureAppend(Now(d.core, id), Of(Trace(d, rest), id), Of(After(d, rest).Outputs(i).out, id));
    }
  }

  lemma NothingPainted(before: Option<Card>)
    ensures Picture(before, []) == before
  {
  }

  // ----- The replay -----

  /** The events of a list about one id. */
  function Among(events: seq<Event>, id: Id): seq<Event> {
    if events == [] then []
    else
      var e := events[|events| - 1];
      Among(events[..|events| - 1], id) + if !e.Notice? && e.id == id then [e] else []
  }

  lemma AmongLast(events: seq<Event>, a: Event, b: Event, id: Id)
    requires !a.Notice? && !b.Notice? && a.id == b.id
    ensures Among(events + [a, b], id) == Among(events, id) + if a.id == id then [a, b] else []
  {
    assert (events + [a, b])[..|events| + 1] == events + [a];
    assert (events + [a])[..|events|] == events;
  }

  lemma {:induction false} ReplayAmong(live: Live, order: seq<Id>, id: Id)
    requires Distinct(order)
    ensures Among(ReplayOf(live, order), id) ==
            if id in order && id in live then [CreatedEvent(id, live[id]), UpdatedEvent(id, live[id])] else []
  {
    hide Among, CreatedEvent, UpdatedEvent;
    if order == [] {
      AmongNone(id);
    } else {
      var n := |order| - 1;
      ReplayAmong(live, order[..n], id);
      var last := order[n];
      assert order == order[..n] + [last];
      assert last !in order[..n];
      if last !in live {
        assert ReplayOf(live, order) == ReplayOf(live, order[..n]);
      } else {
        EventsAreAbout(order[n], live[order[n]]);
        AmongLast(ReplayOf(live, order[..n]), CreatedEvent(order[n], live[order[n]]),
                  UpdatedEvent(order[n], live[order[n]]), id);
      }
    }
  }

  lemma AmongNone(id: Id)
    ensures Among([], id) == []
  {
  }

  lemma EventsAreAbout(id: Id, d: SessionData)
    ensures CreatedEvent(id, d).Created? && CreatedEvent(id, d).id == id
    ensures UpdatedEvent(id, d).Updated? && UpdatedEvent(id, d).id == id
  {
  }

  /** What a subscriber is replayed tells it everything, whatever it knew before: every live session as it
      is. */
  lemma ReplayTellsEverything(c: Core, order: seq<Id>, id: Id, before: Option<Card>)
    requires Enumerates(order, c.live.Keys)
    ensures Picture(before, Among(ReplayOf(c.live, order), id)) == if id in c.live then Now(c, id) else before
  {
    hide Among, Picture;
    ReplayAmong(c.live, order, id);
    NothingPainted(before);
    if id in c.live {
      var d := c.live[id];
      LastPainted(before, [], CreatedEvent(id, d));
      LastPainted(before, [CreatedEvent(id, d)], UpdatedEvent(id, d));
      assert [] + [CreatedEvent(id, d)] == [CreatedEvent(id, d)];
      assert [CreatedEvent(id, d)] + [UpdatedEvent(id, d)] == [CreatedEvent(id, d), UpdatedEvent(id, d)];
    }
  }
}
