/** What an input announces about a session, in literal events, for every input and every id. */
module Announcements {
  import opened Basics
  import opened Messages
  import opened Sessions
  import opened Keyring
  import opened Pinentry
  import opened PolkitAgent
  import opened Daemon
  import opened Summaries
  import opened Invariants
  import opened EventGrammar

  // ----- One session, seen alone -----

  /** The counters that the events of a session of this source carry. */
  function Counters(d: SessionData): Option<(int, int)> {
    if d.source == Source.Pinentry then Some((d.context.curRetry, d.context.maxRetries)) else None
  }

  /** One id: its session, and the events about it put out so far. */
  datatype Local = Local(id: Id, session: Option<SessionData>, events: seq<Event>) {
    function Become(d: SessionData): Local {
      Local(id, Some(d), events + [Updated(id, d.prompt, d.echo, Counters(d), d.error, d.info)])
    }

    function Prompted(prompt: string, echo: bool, clear: bool): Local {
      if session.None? then this
      else
        var d := session.value;
        Become(d.(prompt := prompt, echo := echo, error := if clear then "" else d.error, info := ""))
    }

    function Erred(text: string): Local {
      if session.None? then this else Become(session.value.(error := text))
    }

    function Informed(text: string): Local {
      if session.None? then this else Become(session.value.(info := text))
    }

    function Recounted(cur: int, max: int): Local {
      if session.None? || session.value.source != Source.Pinentry then this
      else
        var context := session.value.context.(curRetry := if cur < 0 then 0 else cur,
                                              maxRetries := if max <= 0 then 3 else max);
        this.(session := Some(session.value.(context := context)))
    }

    function Opened(source: Source, context: Context): Local {
      Local(id, Some(SessionData(source, context, "", false, "", "")), events +
        [Created(id, source, Public(source, context))])
    }

    function Shut(result: Result): Local {
      if session.None? then this
      else Local(id, None, events + [Closed(id, result, if result == Success then "" else session.value.error)])
    }
  }

  /** What a created event tells of a context: the message and the requestor always, polkit's action and
      user, the keyring's name, or pinentry's description, key, counters and flags. */
  function Public(source: Source, c: Context): Context {
    match source
    case Polkit => Context(c.message, c.requestor, c.actionId, c.user, "", "", "", 0, 0, false, false)
    case Keyring => Context(c.message, c.requestor, "", "", c.keyringName, "", "", 0, 0, false, false)
    case Pinentry =>
      Context(c.message, c.requestor, "", "", "", c.description, c.keyinfo, c.curRetry, c.maxRetries, c.confirmOnly,
              c.repeat)
  }

  function Look(s: Sess, id: Id): Local {
    Local(id, if id in s.live then Some(s.live[id]) else None, Of(s.out, id))
  }

  lemma OfLast(out: seq<Effect>, e: Effect, id: Id)
    ensures Of(out + [e], id) == Of(out, id) + if IsAbout(e, id) then [e.event] else []
  {
    assert (out + [e])[..|out|] == out;
  }

  lemma {:induction false} OfAppend(a: seq<Effect>, b: seq<Effect>, id: Id)
    ensures Of(a + b, id) == Of(a, id) + Of(b, id)
  {
    hide IsAbout;
    if b == [] {
      assert a + b == a;
    } else {
      assert (a + b)[..|a + b| - 1] == a + b[..|b| - 1];
      OfAppend(a, b[..|b| - 1], id);
    }
  }

  lemma SetLook(s: Sess, o: Id, d: SessionData, id: Id)
    ensures Look(s.Set(o, d), id) == if o == id then Look(s, id).Become(d) else Look(s, id)
  {
    hide Of;
    OfLast(s.out, Emit(UpdatedEvent(o, d)), id);
  }

  lemma UpdateLook(s: Sess, o: Id, id: Id)
    ensures forall prompt, echo, clear :: Look(s.UpdatePrompt(o, prompt, echo, clear), id) ==
              if o == id then Look(s, id).Prompted(prompt, echo, clear) else Look(s, id)
    ensures forall text :: Look(s.UpdateError(o, text), id) ==
              if o == id then Look(s, id).Erred(text) else Look(s, id)
    ensures forall text :: Look(s.UpdateInfo(o, text), id) ==
              if o == id then Look(s, id).Informed(text) else Look(s, id)
  {
    hide Of;
    forall d
      ensures Look(s.Set(o, d), id) == if o == id then Look(s, id).Become(d) else Look(s, id)
    {
      SetLook(s, o, d, id);
    }
  }

  lemma RecountLook(s: Sess, o: Id, cur: int, max: int, id: Id)
    ensures Look(s.UpdateRetry(o, cur, max), id) == if o == id then Look(s, id).Recounted(cur, max) else Look(s, id)
  {
    hide Of;
  }

  lemma CreateLook(s: Sess, o: Id, source: Source, context: Context, id: Id)
    ensures Look(s.Create(o, source, context), id) == if o == id then Look(s, id).Opened(source, context)
            else Look(s, id)
  {
    hide Of;
    OfLast(s.out, Emit(CreatedEvent(o, SessionData(source, context, "", false, "", ""))), id);
  }

  lemma CloseLook(s: Sess, o: Id, id: Id)
    ensures forall result :: Look(s.Close(o, result), id) == if o == id then Look(s, id).Shut(result) else Look(s, id)
    ensures forall gained :: Look(s.Finish(o, gained), id) ==
              if o == id then Look(s, id).Shut(if gained then Success else Cancelled) else Look(s, id)
  {
    hide Of;
    forall e
      ensures Of(s.out + [Emit(e)], id) == Of(s.out, id) + if IsAbout(Emit(e), id) then [e] else []
      ensures Of(s.out + [Effect.Recheck] + [Emit(e)], id) == Of(s.out + [Emit(e)], id)
      ensures Of(s.out + [Emit(e)] + [Effect.Recheck], id) == Of(s.out + [Emit(e)], id)
    {
      OfLast(s.out, Emit(e), id);
      OfLast(s.out, Effect.Recheck, id);
      OfLast(s.out + [Effect.Recheck], Emit(e), id);
      OfLast(s.out + [Emit(e)], Effect.Recheck, id);
    }
  }

  lemma PutLook(s: Sess, e: Effect, id: Id)
    requires !e.Emit?
    ensures Look(s.Put([e]), id) == Look(s, id)
  {
    OfLast(s.out, e, id);
  }

  /** Before an input nothing has been put out. */
  function Start(c: Core, id: Id): Local {
    Local(id, if id in c.live then Some(c.live[id]) else None, [])
  }

  /** One id after an input. */
  ghost function LookAfter(c: Core, i: Input, authorized: bool, now: int, id: Id): Local {
    var o := c.Step(i, authorized, now);
    Look(Sess(o.core.live, o.out), id)
  }

  lemma StartLooks(c: Core, id: Id)
    ensures Look(Sess(c.live, []), id) == Start(c, id)
  {
  }

  lemma ThenLook(o: Outcome, more: seq<Effect>, id: Id)
    requires forall k :: 0 <= k < |more| ==> !more[k].Emit?
    ensures Of(o.Then(more).out, id) == Of(o.out, id)
  {
    OfAppend(o.out, more, id);
    NothingAbout(more, id);
  }

  lemma {:induction false} NothingAbout(out: seq<Effect>, id: Id)
    requires forall k :: 0 <= k < |out| ==> !out[k].Emit?
    ensures Of(out, id) == []
  {
    if out != [] {
      NothingAbout(out[..|out| - 1], id);
    }
  }

  // ----- Each handler, for one id -----

  lemma KeyringAskLook(k: KeyringState, m: KeyringMessage, s: Socket, pid: Pid, actor: Requestor, uuid: Id, id: Id)
    ensures var named := if m.cookie == "" then uuid else m.cookie;
            var context := Context(if m.title.Some? then m.title.value else m.prompt, actor, "", "", m.message,
                                   "", "", 0, 3, false, false);
            Look(k.Ask(m, s, pid, actor, uuid).sess, id) ==
              if named == id then Look(k.sess, id).Opened(Source.Keyring, context).Prompted(m.message, false, true)
              else Look(k.sess, id)
  {
    hide Look, Sess.Create, Sess.UpdatePrompt;
    var named := IdOf(m.cookie, uuid);
    var context := Keyring.ContextOf(RequestOf(m, named, s, pid), actor);
    CreateLook(k.sess, named, Source.Keyring, context, id);
    UpdateLook(k.sess.Create(named, Source.Keyring, context), named, id);
  }

  /** The retry counters of a request: those in its description; without any, those last seen for its
      key; without these, none of three. */
  function CountersFor(retries: Retries, keyinfo: string, attempts: Option<(int, int)>): (int, int) {
    var (cur, max) :=
      if attempts.Some? then attempts.value
      else if keyinfo != "" && keyinfo in retries then (retries[keyinfo].curRetry, retries[keyinfo].maxRetries)
      else (0, 3);
    (if cur < 0 then 0 else cur, if max <= 0 then 3 else max)
  }

  function AskedPrompt(m: PinentryMessage): string {
    if m.prompt == "" then "Enter passphrase:" else m.prompt
  }

  lemma PresentedLook(s: Sess, r: PinentryRequest, actor: Requestor, cur: int, max: int, was: bool, reported: bool,
                      id: Id)
    requires cur >= 0 && max > 0
    ensures var context := Context(r.prompt, actor, "", "", "", r.description, r.keyinfo, cur, max, r.confirmOnly,
                                   r.repeat);
            var l := Look(s, id);
            var failed := if was then l.Erred(if r.error == "" then "Authentication failed" else r.error) else l;
            var begun := if id !in s.live then l.Opened(Source.Pinentry, context) else failed.Recounted(cur, max);
            var prompted := begun.Prompted(r.prompt, false, false);
            Look(Presented(s, r, actor, cur, max, was, reported), id) ==
              if r.cookie != id then l
              else if r.error != "" && !reported then prompted.Erred(r.error)
              else prompted
  {
    hide Look, Sess.Create, Sess.UpdatePrompt, Sess.UpdateError, Sess.UpdateRetry;
    hide Local.Erred, Local.Prompted, Local.Recounted, Local.Opened;
    var o := r.cookie;
    var s1 := if was then s.UpdateError(o, OrElse(r.error, Pinentry.AUTH_FAILED)) else s;
    var s2 := if o in s.live then s1.UpdateRetry(o, cur, max)
      else s1.Create(o, Source.Pinentry, Pinentry.ContextOf(r, actor, cur, max));
    var s3 := s2.UpdatePrompt(o, r.prompt, false, false);
    UpdateLook(s, o, id);
    RecountLook(s1, o, cur, max, id);
    CreateLook(s1, o, Source.Pinentry, Pinentry.ContextOf(r, actor, cur, max), id);
    UpdateLook(s2, o, id);
    UpdateLook(s3, o, id);
    if o !in s.live {
      UnknownStays(s, o, OrElse(r.error, Pinentry.AUTH_FAILED));
    }
  }

  lemma UnknownStays(s: Sess, id: Id, text: string)
    requires id !in s.live
    ensures s.UpdateError(id, text) == s
  {
  }

  lemma CloseFlowLook(p: PinentryState, o: Id, result: Result, error: string, id: Id)
    ensures var l := Look(p.sess, id);
            Look(p.CloseFlow(o, result, error).sess, id) ==
              if o != id || !p.IsSession(id) then l
              else if error != "" then l.Erred(error).Shut(result) else l.Shut(result)
  {
    hide Look, Sess.Close, Sess.UpdateError, Local.Erred, Local.Shut;
    var failed := if error != "" then p.sess.UpdateError(o, error) else p.sess;
    UpdateLook(p.sess, o, id);
    CloseLook(failed, o, id);
  }

  lemma SettleLook(k: KeyringState, o: Id, result: Result, id: Id)
    ensures Look(k.Settle(o, result).sess, id) ==
              if o == id && id in k.pending then Look(k.sess, id).Shut(result) else Look(k.sess, id)
  {
    hide Look, Sess.Close;
    CloseLook(k.sess, o, id);
  }

  lemma {:induction false} KeyringCleanupLook(k: KeyringState, s: Socket, order: seq<Id>, id: Id)
    requires Distinct(order)
    ensures var k' := k.Cleanup(s, order);
            var hit := id in order && id in k.pending && k.pending[id].socket == s;
            && Look(k'.sess, id) == (if hit then Look(k.sess, id).Shut(Cancelled) else Look(k.sess, id))
            && (id in k'.pending <==> id in k.pending && !hit)
            && (id in k'.pending ==> k'.pending[id] == k.pending[id])
  {
    hide Look, Sess.Close, Local.Shut;
    if order != [] {
      var n := |order| - 1;
      KeyringCleanupLook(k, s, order[..n], id);
      assert order == order[..n] + [order[n]];
      SettleLook(k.Cleanup(s, order[..n]), order[n], Cancelled, id);
    }
  }

  lemma {:induction false} CloseAllLook(p: PinentryState, ids: seq<Id>, id: Id)
    requires Distinct(ids)
    ensures Look(p.CloseAll(ids).sess, id) ==
              if id in ids && p.IsSession(id) then Look(p.sess, id).Erred("Pinentry disconnected").Shut(Cancelled)
              else Look(p.sess, id)
    ensures id !in ids ==> (p.CloseAll(ids).IsSession(id) <==> p.IsSession(id))
  {
    hide PinentryState.CloseFlow;
    if ids != [] {
      var n := |ids| - 1;
      var q := p.CloseAll(ids[..n]);
      CloseAllLook(p, ids[..n], id);
      assert ids == ids[..n] + [ids[n]];
      CloseFlowLook(q, ids[n], Cancelled, DISCONNECTED, id);
    }
  }

  lemma ConcludeLook(p: PolkitState, o: Id, gained: bool, id: Id)
    requires o in p.attempts
    ensures Look(p.Conclude(o, gained).sess, id) ==
              if o == id then Look(p.sess, id).Shut(if gained then Success else Cancelled) else Look(p.sess, id)
  {
    hide Look, Sess.Finish;
    var done := Complete(p.attempts[o].token, "");
    PutLook(p.sess, done, id);
    CloseLook(p.sess.Put([done]), o, id);
  }

  lemma {:induction false} CancelAllLook(p: PolkitState, order: seq<Id>, id: Id)
    requires Distinct(order)
    ensures var p' := p.CancelAll(order);
            && Look(p'.sess, id) ==
               (if id in order && id in p.attempts then Look(p.sess, id).Shut(Cancelled) else Look(p.sess, id))
            && (id in p'.attempts <==> id in p.attempts && id !in order)
  {
    hide Look, Sess.Finish, Local.Shut;
    if order != [] {
      var n := |order| - 1;
      CancelAllLook(p, order[..n], id);
      assert order == order[..n] + [order[n]];
      var q := p.CancelAll(order[..n]);
      if order[n] in q.attempts {
        ConcludeLook(q, order[n], false, id);
        assert q.Conclude(order[n], false).attempts == q.attempts - {order[n]};
      }
    }
  }

  // ----- What every input announces -----

  /** A request of pinentry: a session is created, or an attempt under way has failed; then the prompt is
      shown, and the request's own error unless a retry has been reported with it. */
  function AnnouncedRequest(c: Core, m: PinentryMessage, actor: Requestor, id: Id): seq<Event> {
    var (cur, max) := CountersFor(c.retries, m.keyinfo, m.attempts);
    var prompt := AskedPrompt(m);
    var failed := id in c.flows && c.flows[id].phase.Awaiting?;
    var failure := if m.error == "" then "Authentication failed" else m.error;
    var known := id in c.live;
    var counters := if known && c.live[id].source != Source.Pinentry then None else Some((cur, max));
    (if !known
     then [Created(id, Source.Pinentry,
                   Context(prompt, actor, "", "", "", m.description, m.keyinfo, cur, max, m.confirmOnly, m.repeat))]
     else if failed
     then [Updated(id, c.live[id].prompt, c.live[id].echo, Counters(c.live[id]), failure, c.live[id].info)]
     else [])
    + [Updated(id, prompt, false, counters, if !known then "" else if failed then failure else c.live[id].error, "")]
    + if m.error != "" && !(id in c.flows && c.flows[id].reported)
      then [Updated(id, prompt, false, counters, m.error, "")] else []
  }

  /** A session that ends with an error says so first. */
  function AnnouncedFailure(d: SessionData, id: Id, text: string, result: Result): seq<Event> {
    [Updated(id, d.prompt, d.echo, Counters(d), text, d.info), Closed(id, result, text)]
  }

  /** The events about `id` that an input causes while its session is `d`. */
  ghost function AnnouncedOf(c: Core, i: Input, authorized: bool, id: Id, d: SessionData): seq<Event>
  {
    var pinentry := d.source == Source.Pinentry;
    match i
    case Report(_, pid, named, verdict, error) =>
      var failure := if error == "" then "Authentication failed" else error;
      if named != id || id == "" || (id in c.flows && c.flows[id].owner != pid) || !pinentry then []
      else
        (match verdict
         case Succeeded => [Closed(id, Success, "")]
         case Retry => [Updated(id, d.prompt, d.echo, Counters(d), failure, d.info)]
         case Withdrawn => [Closed(id, Cancelled, d.error)]
         case Failed => AnnouncedFailure(d, id, failure, Error)
         case Unknown => [])
    case Timeout(named) =>
      if named == id && id in c.flows && c.flows[id].phase.Awaiting? && pinentry
      then AnnouncedFailure(d, id, "Pinentry did not report terminal result", Error) else []
    case Disconnected(s, _, _) =>
      if id in c.keyring && c.keyring[id].socket == s then [Closed(id, Cancelled, d.error)]
      else if id in c.flows && c.flows[id].phase.Pending? && c.flows[id].phase.request.socket == s && pinentry
      then AnnouncedFailure(d, id, "Pinentry disconnected", Cancelled) else []
    case Respond(_, named, _) =>
      if named == id && authorized && id in c.keyring then [Closed(id, Success, "")] else []
    case Cancel(_, named) =>
      if named == id && authorized && (id in c.keyring || pinentry || (CancelsPolkit(c, id) && id in c.attempts))
      then [Closed(id, Cancelled, d.error)] else []
    case PolkitCancelAll(_) => if id in c.attempts then [Closed(id, Cancelled, d.error)] else []
    case HelperDone(h, gained, _) =>
      if Whose(c.attempts, h) != Some(id) then []
      else if gained then [Closed(id, Success, "")]
      else
        [Updated(id, d.prompt, d.echo, Counters(d), "Authentication failed", d.info)]
        + if c.attempts[id].retryCount < 2 then []
          else AnnouncedFailure(d, id, "Too many failed attempts", Cancelled)
    case HelperPrompt(h, prompt, echo) =>
      if Whose(c.attempts, h) != Some(id) then [] else [Updated(id, prompt, echo, Counters(d), "", "")]
    case HelperError(h, text) =>
      if Whose(c.attempts, h) != Some(id) then [] else [Updated(id, d.prompt, d.echo, Counters(d), text, d.info)]
    case HelperInfo(h, text) =>
      if Whose(c.attempts, h) != Some(id) then [] else [Updated(id, d.prompt, d.echo, Counters(d), d.error, text)]
    case _ => []
  }

  /** The events about `id` that an input causes, in order. */
  ghost function Announced(c: Core, i: Input, authorized: bool, id: Id): seq<Event> {
    match i
    case AskKeyring(_, _, m, actor, uuid) =>
      if (if m.cookie == "" then uuid else m.cookie) != id then []
      else
        [Created(id, Source.Keyring, Context(if m.title.Some? then m.title.value else m.prompt, actor, "", "",
                                             m.message, "", "", 0, 0, false, false)),
         Updated(id, m.message, false, None, "", "")]
    case AskPinentry(_, pid, m, actor, uuid) =>
      if (if m.cookie == "" then uuid else m.cookie) != id || (id in c.flows && c.flows[id].owner != pid) then []
      else AnnouncedRequest(c, m, actor, id)
    case PolkitBegin(named, _, identified, x, _) =>
      if named != id || id in c.attempts || !identified then []
      else [Created(id, Source.Polkit,
                    Context(x.message, x.requestor, x.actionId, x.user, "", "", "", 0, 0, false, false))]
    case _ => if id in c.live then AnnouncedOf(c, i, authorized, id, c.live[id]) else []
  }

  // ----- The handlers do just that -----

  /** What becomes of the session of `id`, and of the events about it. */
  ghost function Expected(c: Core, i: Input, authorized: bool, id: Id): Local {
    var l := Start(c, id);
    match i
    case AskKeyring(_, _, m, actor, uuid) =>
      if (if m.cookie == "" then uuid else m.cookie) != id then l
      else
        l.Opened(Source.Keyring, Context(if m.title.Some? then m.title.value else m.prompt, actor, "", "", m.message,
                                         "", "", 0, 3, false, false))
         .Prompted(m.message, false, true)
    case AskPinentry(_, pid, m, actor, uuid) =>
      if (if m.cookie == "" then uuid else m.cookie) != id || (id in c.flows && c.flows[id].owner != pid) then l
      else
        var (cur, max) := CountersFor(c.retries, m.keyinfo, m.attempts);
        Requested(l, m, actor, cur, max, id in c.flows && c.flows[id].phase.Awaiting?,
                  id in c.flows && c.flows[id].reported)
    case PolkitBegin(named, _, identified, context, _) =>
      if named != id || id in c.attempts || !identified then l else l.Opened(Source.Polkit, context)
    case _ => if l.session.None? then l else ExpectedOf(c, i, authorized, l, l.session.value.source)
  }

  ghost function ExpectedOf(c: Core, i: Input, authorized: bool, l: Local, source: Source): Local {
    var id := l.id;
    match i
    case Report(_, pid, named, verdict, error) =>
      var failure := if error == "" then "Authentication failed" else error;
      if named != id || id == "" || (id in c.flows && c.flows[id].owner != pid) || !source.Pinentry? then l
      else
        (match verdict
         case Succeeded => l.Shut(Success)
         case Retry => l.Erred(failure)
         case Withdrawn => l.Shut(Cancelled)
         case Failed => l.Erred(failure).Shut(Error)
         case Unknown => l)
    case Timeout(named) =>
      if named == id && id in c.flows && c.flows[id].phase.Awaiting? && source.Pinentry?
      then l.Erred("Pinentry did not report terminal result").Shut(Error) else l
    case Disconnected(s, _, _) =>
      if id in c.keyring && c.keyring[id].socket == s then l.Shut(Cancelled)
      else if id in c.flows && c.flows[id].phase.Pending? && c.flows[id].phase.request.socket == s && source.Pinentry?
      then l.Erred("Pinentry disconnected").Shut(Cancelled) else l
    case Respond(_, named, _) => if named == id && authorized && id in c.keyring then l.Shut(Success) else l
    case Cancel(_, named) =>
      if named == id && authorized && (id in c.keyring || source.Pinentry? ||
        (CancelsPolkit(c, id) && id in c.attempts))
      then l.Shut(Cancelled) else l
    case PolkitCancelAll(_) => if id in c.attempts then l.Shut(Cancelled) else l
    case HelperDone(h, gained, _) =>
      if Whose(c.attempts, h) != Some(id) then l
      else if gained then l.Shut(Success)
      else if c.attempts[id].retryCount < 2 then l.Erred("Authentication failed")
      else l.Erred("Authentication failed").Erred("Too many failed attempts").Shut(Cancelled)
    case HelperPrompt(h, prompt, echo) =>
      if Whose(c.attempts, h) != Some(id) then l else l.Prompted(prompt, echo, true)
    case HelperError(h, text) => if Whose(c.attempts, h) != Some(id) then l else l.Erred(text)
    case HelperInfo(h, text) => if Whose(c.attempts, h) != Some(id) then l else l.Informed(text)
    case _ => l
  }

  lemma RequestedEvents(c: Core, m: PinentryMessage, actor: Requestor, id: Id)
    ensures var (cur, max) := CountersFor(c.retries, m.keyinfo, m.attempts);
            Requested(Start(c, id), m, actor, cur, max, id in c.flows && c.flows[id].phase.Awaiting?,
                      id in c.flows && c.flows[id].reported).events == AnnouncedRequest(c, m, actor, id)
  {
    hide CountersFor, AskedPrompt;
    CountersAreSane(c.retries, m.keyinfo, m.attempts);
  }

  lemma ExpectedEvents(c: Core, i: Input, authorized: bool, id: Id)
    ensures Expected(c, i, authorized, id).events == Announced(c, i, authorized, id)
  {
    hide Requested, AnnouncedRequest, CountersFor, ExpectedOf, AnnouncedOf;
    if i.AskPinentry? {
      RequestedEvents(c, i.pinentryMessage, i.actor, id);
    } else if id in c.live {
      if i.HelperDone? {
        DoneEvents(c, i, authorized, id);
      } else {
        ExpectedOfEvents(c, i, authorized, id);
      }
    }
  }

  lemma DoneEvents(c: Core, i: Input, authorized: bool, id: Id)
    requires id in c.live && i.HelperDone?
    ensures ExpectedOf(c, i, authorized, Start(c, id), c.live[id].source).events ==
            AnnouncedOf(c, i, authorized, id, c.live[id])
  {
  }

  lemma ExpectedOfEvents(c: Core, i: Input, authorized: bool, id: Id)
    requires id in c.live && !i.HelperDone?
    ensures ExpectedOf(c, i, authorized, Start(c, id), c.live[id].source).events ==
            AnnouncedOf(c, i, authorized, id, c.live[id])
  {
  }

  ghost predicate Exact(c: Core, i: Input, authorized: bool, now: int, id: Id) {
    LookAfter(c, i, authorized, now, id) == Expected(c, i, authorized, id)
  }

  lemma KeyringRequestExact(c: Core, i: Input, authorized: bool, now: int, id: Id)
    requires i.AskKeyring?
    ensures Exact(c, i, authorized, now, id)
  {
    hide Of, KeyringState.Ask;
    StartLooks(c, id);
    KeyringAskLook(c.AsKeyring(), i.keyringMessage, i.socket, i.pid, i.actor, i.uuid, id);
  }

  /** The session of an id that is asked for, after the request. */
  function Requested(l: Local, m: PinentryMessage, actor: Requestor, cur: int, max: int, failed: bool,
                     reported: bool): Local
  {
    var context := Context(AskedPrompt(m), actor, "", "", "", m.description, m.keyinfo, cur, max, m.confirmOnly,
                           m.repeat);
    var l1 := if failed then l.Erred(if m.error == "" then "Authentication failed" else m.error) else l;
    var l2 := if l.session.None? then l.Opened(Source.Pinentry, context) else l1.Recounted(cur, max);
    var l3 := l2.Prompted(AskedPrompt(m), false, false);
    if m.error != "" && !reported then l3.Erred(m.error) else l3
  }

  lemma CountersAreResolved(retries: Retries, keyinfo: string, attempts: Option<(int, int)>)
    ensures var counted := ResolveRetryInfo(retries, keyinfo, attempts);
            CountersFor(retries, keyinfo, attempts) == (counted.curRetry, counted.maxRetries)
  {
  }

  lemma PinentryAskLook(p: PinentryState, m: PinentryMessage, s: Socket, pid: Pid, actor: Requestor, uuid: Id, id: Id)
    ensures var named := if m.cookie == "" then uuid else m.cookie;
            var (cur, max) := CountersFor(p.retries, m.keyinfo, m.attempts);
            var l := Look(p.sess, id);
            Look(p.Ask(m, s, pid, actor, uuid).sess, id) ==
              if named != id || (id in p.flows && p.flows[id].owner != pid) then l
              else Requested(l, m, actor, cur, max, id in p.flows && p.flows[id].phase.Awaiting?,
                             id in p.flows && p.flows[id].reported)
  {
    hide Of, Presented, ResolveRetryInfo, CountersFor, Local.Erred, Local.Prompted, Local.Recounted, Local.Opened;
    var named := OrElse(m.cookie, uuid);
    var counted := ResolveRetryInfo(p.retries, m.keyinfo, m.attempts);
    CountersAreResolved(p.retries, m.keyinfo, m.attempts);
    CountersAreSane(p.retries, m.keyinfo, m.attempts);
    PresentedLook(p.sess, Parsed(m, named, s, pid), actor, counted.curRetry, counted.maxRetries,
                  p.IsAwaiting(named), named in p.flows && p.flows[named].reported, id);
  }

  lemma CountersAreSane(retries: Retries, keyinfo: string, attempts: Option<(int, int)>)
    ensures var (cur, max) := CountersFor(retries, keyinfo, attempts); cur >= 0 && max > 0
  {
  }

  lemma PinentryRequestExact(c: Core, i: Input, authorized: bool, now: int, id: Id)
    requires i.AskPinentry?
    ensures Exact(c, i, authorized, now, id)
  {
    hide Of, PinentryState.Ask, CountersFor, Requested, AnnouncedRequest;
    StartLooks(c, id);
    PinentryAskLook(c.AsPinentry(), i.pinentryMessage, i.socket, i.pid, i.actor, i.uuid, id);
  }

  lemma ReportExact(c: Core, i: Input, authorized: bool, now: int, id: Id)
    requires i.Report?
    ensures Exact(c, i, authorized, now, id)
  {
    hide Of, PinentryState.CloseFlow, Sess.UpdateError;
    var p := c.AsPinentry();
    StartLooks(c, id);
    CloseFlowLook(p, i.id, Success, "", id);
    CloseFlowLook(p, i.id, Result.Cancelled, "", id);
    CloseFlowLook(p, i.id, Error, OrElse(i.error, Pinentry.AUTH_FAILED), id);
    UpdateLook(p.sess, i.id, id);
    ThenLook(c.WithPinentry(p.Result(i.id, i.verdict, i.error, i.pid)),
             [Send(i.socket, p.ResultReply(i.id, i.verdict, i.pid))], id);
  }

  lemma DisconnectExact(c: Core, i: Input, authorized: bool, now: int, id: Id)
    requires i.Disconnected? && Fair(c, i)
    ensures Exact(c, i, authorized, now, id)
  {
    hide Of, KeyringState.Cleanup, PinentryState.CloseAll, PinentryState.ToClose;
    var k := c.WithKeyring(c.AsKeyring().Cleanup(i.socket, i.keyringOrder));
    var p := k.core.AsPinentry();
    var ids := p.ToClose(i.socket, i.pinentryOrder);
    StartLooks(c, id);
    StartLooks(k.core, id);
    KeyringCleanupLook(c.AsKeyring(), i.socket, i.keyringOrder, id);
    ToCloseMembers(p, i.socket, i.pinentryOrder);
    ToCloseDistinct(p, i.socket, i.pinentryOrder);
    CloseAllLook(p, ids, id);
    OfAppend(k.out, p.CloseAll(ids).sess.out, id);
  }

  lemma {:induction false} ToCloseDistinct(p: PinentryState, s: Socket, order: seq<Id>)
    requires Distinct(order)
    ensures Distinct(p.ToClose(s, order)) && forall id :: id in p.ToClose(s, order) ==> id in order
  {
    if order != [] {
      var n := |order| - 1;
      ToCloseDistinct(p, s, order[..n]);
      assert order == order[..n] + [order[n]];
      var before := p.ToClose(s, order[..n]);
      assert order[n] !in order[..n];
      assert forall k :: 0 <= k < |before| ==> before[k] in before;
    }
  }

  lemma TimeoutExact(c: Core, i: Input, authorized: bool, now: int, id: Id)
    requires i.Timeout?
    ensures Exact(c, i, authorized, now, id)
  {
    hide Of, PinentryState.CloseFlow;
    StartLooks(c, id);
    CloseFlowLook(c.AsPinentry(), i.id, Error, NO_RESULT, id);
  }

  lemma KeyringAnswerExact(c: Core, s: Socket, named: Id, response: string, now: int, id: Id)
    requires named in c.keyring
    ensures Exact(c, Respond(s, named, response), true, now, id)
  {
    hide Of, KeyringState.Settle;
    StartLooks(c, id);
    SettleLook(c.AsKeyring(), named, Success, id);
    ThenLook(c.WithKeyring(c.AsKeyring().Settle(named, Success)),
             [Send(c.keyring[named].socket, KeyringReply(named, Password(response))), Send(s, Ok(None))], id);
  }

  lemma RespondExact(c: Core, s: Socket, named: Id, response: string, now: int, id: Id)
    ensures Exact(c, Respond(s, named, response), true, now, id)
  {
    hide Of, KeyringState.Settle, Submitted, AnswerTo, Exact;
    if named in c.keyring {
      KeyringAnswerExact(c, s, named, response, now, id);
    } else {
      OtherAnswerExact(c, s, named, response, now, id);
    }
  }

  lemma OtherAnswerExact(c: Core, s: Socket, named: Id, response: string, now: int, id: Id)
    requires named !in c.keyring
    ensures Exact(c, Respond(s, named, response), true, now, id)
  {
    hide Of, Submitted, AnswerTo;
    StartLooks(c, id);
    NothingAbout(c.Step(Respond(s, named, response), true, now).out, id);
  }

  lemma CancelExact(c: Core, s: Socket, named: Id, now: int, id: Id)
    ensures Exact(c, Cancel(s, named), true, now, id)
  {
    hide Of, KeyringState.Settle, PinentryState.CloseFlow;
    var p := c.AsPinentry();
    StartLooks(c, id);
    if named in c.keyring {
      SettleLook(c.AsKeyring(), named, Result.Cancelled, id);
      ThenLook(c.WithKeyring(c.AsKeyring().Settle(named, Result.Cancelled)),
               [Send(c.keyring[named].socket, KeyringReply(named, Declined)), Send(s, Ok(None))], id);
    } else if p.Knows(named) {
      CloseFlowLook(p, named, Result.Cancelled, "", id);
      ThenLook(c.WithPinentry(p.Cancel(named)),
               if p.IsPending(named)
               then [Send(c.flows[named].phase.request.socket, PinentryReply(named, Declined)), Send(s, Ok(None))]
               else [Send(s, Ok(None))], id);
    } else if named in c.live && c.live[named].source.Polkit? {
      CancelPolkitExact(c, s, named, now, id);
    } else {
      NothingAbout(c.Step(Cancel(s, named), true, now).out, id);
    }
  }

  lemma CancelPolkitExact(c: Core, s: Socket, named: Id, now: int, id: Id)
    requires named !in c.keyring && !c.AsPinentry().Knows(named) && named in c.live && c.live[named].source.Polkit?
    ensures Exact(c, Cancel(s, named), true, now, id)
  {
    hide Of, PolkitState.Conclude;
    var p := c.AsPolkit();
    StartLooks(c, id);
    ThenLook(c.WithPolkit(p.CancelPending(named)), [Send(s, Ok(None))], id);
    if named in c.attempts {
      var called := p.(sess := p.sess.Put([CancelHelper(c.attempts[named].helper)]));
      PutLook(p.sess, CancelHelper(c.attempts[named].helper), id);
      ConcludeLook(called, named, false, id);
    }
  }

  lemma BeginExact(c: Core, i: Input, authorized: bool, now: int, id: Id)
    requires i.PolkitBegin?
    ensures Exact(c, i, authorized, now, id)
  {
    hide Of, Sess.Create;
    var start := Sess(c.live, []);
    StartLooks(c, id);
    var rejection := c.AsPolkit().Rejection(i.id, i.identified);
    if rejection.Some? {
      PutLook(start, Complete(i.token, rejection.value), id);
    } else {
      CreateLook(start, i.id, Source.Polkit, i.context, id);
      PutLook(start.Create(i.id, Source.Polkit, i.context), StartHelper(i.helper, i.id), id);
    }
  }

  lemma DoneExact(c: Core, i: Input, authorized: bool, now: int, id: Id)
    requires i.HelperDone?
    ensures Exact(c, i, authorized, now, id)
  {
    hide Of, Sess.UpdateError, PolkitState.Conclude;
    var p := c.AsPolkit();
    StartLooks(c, id);
    match Whose(c.attempts, i.sender)
    case None =>
    case Some(o) =>
      ConcludeLook(p, o, true, id);
      var q := p.(sess := p.sess.UpdateError(o, PolkitAgent.AUTH_FAILED));
      UpdateLook(p.sess, o, id);
      PutLook(q.sess, StartHelper(i.next, o), id);
      UpdateLook(q.sess, o, id);
      ConcludeLook(q.(sess := q.sess.UpdateError(o, TOO_MANY)), o, false, id);
  }

  lemma HelperExact(c: Core, i: Input, authorized: bool, now: int, id: Id)
    requires i.HelperPrompt? || i.HelperError? || i.HelperInfo?
    ensures Exact(c, i, authorized, now, id)
  {
    hide Of, Sess.UpdateError, Sess.UpdatePrompt, Sess.UpdateInfo, Local.Prompted, Local.Erred, Local.Informed;
    StartLooks(c, id);
    if id !in c.live {
      AbsentStays(Start(c, id));
    }
    match Whose(c.attempts, i.sender)
    case None =>
    case Some(o) => UpdateLook(Sess(c.live, []), o, id);
  }

  lemma AbsentStays(l: Local)
    requires l.session.None?
    ensures forall prompt, echo, clear :: l.Prompted(prompt, echo, clear) == l
    ensures forall text :: l.Erred(text) == l && l.Informed(text) == l
  {
  }

  lemma CancelAllExact(c: Core, i: Input, authorized: bool, now: int, id: Id)
    requires i.PolkitCancelAll? && Fair(c, i)
    ensures Exact(c, i, authorized, now, id)
  {
    hide Of, PolkitState.CancelAll;
    StartLooks(c, id);
    CancelAllLook(c.AsPolkit(), i.order, id);
  }

  lemma UserExact(c: Core, i: Input, authorized: bool, now: int, id: Id)
    requires FromUser(i)
    ensures Exact(c, i, authorized, now, id)
  {
    hide Of, Core.Responded, Core.Cancelled;
    if !authorized {
      NothingAbout(c.Step(i, authorized, now).out, id);
    } else if i.Respond? {
      RespondExact(c, i.socket, i.id, i.response, now, id);
    } else {
      CancelExact(c, i.socket, i.id, now, id);
    }
  }

  lemma PolkitExact(c: Core, i: Input, authorized: bool, now: int, id: Id)
    requires FromPolkit(i) && Fair(c, i)
    ensures Exact(c, i, authorized, now, id)
  {
    hide Exact, Fair;
    if i.PolkitBegin? {
      BeginExact(c, i, authorized, now, id);
    } else if i.PolkitCancelAll? {
      CancelAllExact(c, i, authorized, now, id);
    } else if i.HelperDone? {
      DoneExact(c, i, authorized, now, id);
    } else {
      HelperExact(c, i, authorized, now, id);
    }
  }

  /** Every input announces, about every id, exactly the events listed. */
  lemma AnnouncementsExact(c: Core, i: Input, authorized: bool, now: int, id: Id)
    requires Fair(c, i)
    ensures Of(c.Step(i, authorized, now).out, id) == Announced(c, i, authorized, id)
  {
    hide Of, Core.Step, Announced, Fair, Expected;
    SessionsExact(c, i, authorized, now, id);
    ExpectedEvents(c, i, authorized, id);
  }

  lemma SessionsExact(c: Core, i: Input, authorized: bool, now: int, id: Id)
    requires Fair(c, i)
    ensures Exact(c, i, authorized, now, id)
  {
    hide Exact, Fair;
    if FromUser(i) {
      UserExact(c, i, authorized, now, id);
    } else if FromPolkit(i) {
      PolkitExact(c, i, authorized, now, id);
    } else if i.AskKeyring? {
      KeyringRequestExact(c, i, authorized, now, id);
    } else if i.AskPinentry? {
      PinentryRequestExact(c, i, authorized, now, id);
    } else if i.Report? {
      ReportExact(c, i, authorized, now, id);
    } else if i.Disconnected? {
      DisconnectExact(c, i, authorized, now, id);
    } else if i.Timeout? {
      TimeoutExact(c, i, authorized, now, id);
    } else {
      RoutingExact(c, i, authorized, now, id);
    }
  }

  lemma RoutingExact(c: Core, i: Input, authorized: bool, now: int, id: Id)
    requires !FromUser(i) && !FromPolkit(i) && !FromRequester(i)
    ensures Exact(c, i, authorized, now, id)
  {
  }
}
