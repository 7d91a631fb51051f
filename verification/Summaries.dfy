/** What an input does, without the prompts: which sessions exist and of which source, and which
    sessions end, requests are answered, helpers start and polkit results are completed, in order. */
module Summaries {
  import opened Basics
  import opened Messages
  import opened Sessions
  import opened Keyring
  import opened Pinentry
  import opened PolkitAgent
  import opened Daemon

  datatype Mark =
    | Ended(id: Id, result: Result)
    | Answered(to: Socket, id: Id, answer: Answer)
    | Started(helper: Helper, id: Id)
    | Completed(token: Token)

  function MarkOf(e: Effect): seq<Mark> {
    match e
    case Emit(Closed(id, result, _)) => [Ended(id, result)]
    case Send(to, KeyringReply(id, answer)) => [Answered(to, id, answer)]
    case Send(to, PinentryReply(id, answer)) => [Answered(to, id, answer)]
    case StartHelper(helper, id) => [Started(helper, id)]
    case Complete(token, _) => [Completed(token)]
    case _ => []
  }

  function Marks(out: seq<Effect>): seq<Mark> {
    if out == [] then [] else Marks(out[..|out| - 1]) + MarkOf(out[|out| - 1])
  }

  lemma {:induction false} MarksAppend(a: seq<Effect>, b: seq<Effect>)
    ensures Marks(a + b) == Marks(a) + Marks(b)
  {
    hide MarkOf;
    if b == [] {
      assert a + b == a;
    } else {
      assert (a + b)[..|a + b| - 1] == a + b[..|b| - 1];
      MarksAppend(a, b[..|b| - 1]);
    }
  }

  lemma MarksLast(out: seq<Effect>, e: Effect)
    ensures Marks(out + [e]) == Marks(out) + MarkOf(e)
  {
    hide MarkOf;
    assert (out + [e])[..|out|] == out;
  }

  type Sources = map<Id, Source>

  function SourcesOf(live: Live): Sources {
    map id | id in live :: live[id].source
  }

  datatype Gist = Gist(sources: Sources, marks: seq<Mark>) {
    function Note(m: Mark): Gist {
      this.(marks := marks + [m])
    }

    function Open(id: Id, source: Source): Gist {
      this.(sources := sources[id := source])
    }

    function End(id: Id, result: Result): Gist {
      if id in sources then Gist(sources - {id}, marks + [Ended(id, result)]) else this
    }

    predicate Shows(id: Id, source: Source) {
      id in sources && sources[id] == source
    }

    /** closeFlow leaves sessions of other sources alone. */
    function EndFlow(id: Id, result: Result): Gist {
      if Shows(id, Source.Pinentry) then End(id, result) else this
    }

    function EndEach(ids: seq<Id>, result: Result): Gist {
      if ids == [] then this else EndEach(ids[..|ids| - 1], result).End(ids[|ids| - 1], result)
    }

    function EndFlows(ids: seq<Id>, result: Result): Gist {
      if ids == [] then this else EndFlows(ids[..|ids| - 1], result).EndFlow(ids[|ids| - 1], result)
    }

    function Conclude(id: Id, attempts: map<Id, Attempt>, gained: bool): Gist
      requires id in attempts
    {
      Note(Completed(attempts[id].token)).End(id, if gained then Success else Cancelled)
    }

    function ConcludeEach(ids: seq<Id>, attempts: map<Id, Attempt>): Gist
      requires forall id :: id in ids ==> id in attempts
    {
      if ids == [] then this
      else ConcludeEach(ids[..|ids| - 1], attempts).Conclude(ids[|ids| - 1], attempts, false)
    }
  }

  function GistOf(s: Sess): Gist {
    Gist(SourcesOf(s.live), Marks(s.out))
  }

  // ----- Sessions -----

  lemma SetGist(s: Sess, id: Id, d: SessionData)
    requires id in s.live && d.source == s.live[id].source
    ensures GistOf(s.Set(id, d)) == GistOf(s)
  {
    hide Marks;
    MarksLast(s.out, Emit(UpdatedEvent(id, d)));
  }

  lemma UpdatesGist(s: Sess, id: Id)
    ensures forall prompt, echo, clear :: GistOf(s.UpdatePrompt(id, prompt, echo, clear)) == GistOf(s)
    ensures forall error :: GistOf(s.UpdateError(id, error)) == GistOf(s)
    ensures forall info :: GistOf(s.UpdateInfo(id, info)) == GistOf(s)
  {
    hide GistOf;
    if id in s.live {
      forall d: SessionData | d.source == s.live[id].source
        ensures GistOf(s.Set(id, d)) == GistOf(s)
      {
        SetGist(s, id, d);
      }
    }
  }

  lemma RetryGist(s: Sess, id: Id, cur: int, max: int)
    ensures GistOf(s.UpdateRetry(id, cur, max)) == GistOf(s)
  {
  }

  lemma CreateGist(s: Sess, id: Id, source: Source, context: Context)
    ensures GistOf(s.Create(id, source, context)) == GistOf(s).Open(id, source)
  {
    hide Marks;
    var d := SessionData(source, context, "", false, "", "");
    MarksLast(s.out, Emit(CreatedEvent(id, d)));
    assert SourcesOf(s.live[id := d]) == SourcesOf(s.live)[id := source];
  }

  lemma EndGist(s: Sess, id: Id, result: Result)
    ensures GistOf(s.Close(id, result)) == GistOf(s).End(id, result)
    ensures GistOf(s.Finish(id, result.Success?)) == GistOf(s).End(id, if result.Success? then Success else Cancelled)
  {
    hide Marks;
    if id in s.live {
      var shut := if result.Success? then Success else Cancelled;
      MarksLast(s.out, Effect.Recheck);
      MarksLast(s.out, Emit(ClosedEvent(id, s.live[id], result)));
      MarksLast(s.out + [Effect.Recheck], Emit(ClosedEvent(id, s.live[id], result)));
      MarksLast(s.out, Emit(ClosedEvent(id, s.live[id], shut)));
      MarksLast(s.out + [Emit(ClosedEvent(id, s.live[id], shut))], Effect.Recheck);
      assert SourcesOf(s.live - {id}) == SourcesOf(s.live) - {id};
    }
  }

  lemma PutGist(s: Sess, e: Effect)
    ensures GistOf(s.Put([e])) == Gist(GistOf(s).sources, GistOf(s).marks + MarkOf(e))
  {
    hide Marks;
    MarksLast(s.out, e);
  }

  // ----- Keyring -----

  /** The cookies of `order` whose request came from this socket. */
  function KeyringFrom(keyring: map<Id, KeyringRequest>, s: Socket, order: seq<Id>): seq<Id> {
    if order == [] then []
    else
      var id := order[|order| - 1];
      KeyringFrom(keyring, s, order[..|order| - 1]) + if id in keyring && keyring[id].socket == s then [id] else []
  }

  lemma {:induction false} KeyringFromMembers(keyring: map<Id, KeyringRequest>, s: Socket, order: seq<Id>)
    ensures forall id :: id in KeyringFrom(keyring, s, order) <==>
            id in order && id in keyring && keyring[id].socket == s
  {
    if order != [] {
      KeyringFromMembers(keyring, s, order[..|order| - 1]);
    }
  }

  lemma KeyringAskGist(k: KeyringState, m: KeyringMessage, s: Socket, pid: Pid, actor: Requestor, uuid: Id)
    ensures GistOf(k.Ask(m, s, pid, actor, uuid).sess) == GistOf(k.sess).Open(IdOf(m.cookie, uuid), Source.Keyring)
  {
    hide GistOf;
    var id := IdOf(m.cookie, uuid);
    var context := Keyring.ContextOf(RequestOf(m, id, s, pid), actor);
    CreateGist(k.sess, id, Source.Keyring, context);
    UpdatesGist(k.sess.Create(id, Source.Keyring, context), id);
  }

  /** Cleaning up after a socket settles its requests, and only those. */
  lemma {:induction false} KeyringCleanupGist(k: KeyringState, s: Socket, order: seq<Id>)
    requires Distinct(order)
    ensures var k' := k.Cleanup(s, order);
            && GistOf(k'.sess) == GistOf(k.sess).EndEach(KeyringFrom(k.pending, s, order), Cancelled)
            && (forall id :: id in k'.pending <==> id in k.pending && !(id in order && k.pending[id].socket == s))
            && (forall id :: id in k'.pending ==> k'.pending[id] == k.pending[id])
  {
    hide GistOf;
    if order != [] {
      var n := |order| - 1;
      var id, rest := order[n], order[..n];
      KeyringCleanupGist(k, s, rest);
      EndGist(k.Cleanup(s, rest).sess, id, Cancelled);
      assert order == rest + [id] && id !in rest;
      var k1, from := k.Cleanup(s, rest), KeyringFrom(k.pending, s, rest);
      assert (from + [id])[..|from|] == from;
      if id in k.pending && k.pending[id].socket == s {
        assert KeyringFrom(k.pending, s, order) == from + [id];
        assert GistOf(k.sess).EndEach(from + [id], Cancelled) == GistOf(k1.sess).End(id, Cancelled);
        assert k.Cleanup(s, order) == k1.Settle(id, Cancelled);
      } else {
        assert KeyringFrom(k.pending, s, order) == from;
      }
    }
  }

  // ----- Pinentry -----

  lemma PresentedGist(s: Sess, r: PinentryRequest, actor: Requestor, cur: int, max: int, wasAwaiting: bool,
                      wasReported: bool)
    ensures GistOf(Presented(s, r, actor, cur, max, wasAwaiting, wasReported)) ==
            if r.cookie in s.live then GistOf(s) else GistOf(s).Open(r.cookie, Source.Pinentry)
  {
    hide GistOf;
    var id, context := r.cookie, Pinentry.ContextOf(r, actor, cur, max);
    UpdatesGist(s, id);
    var s1 := if wasAwaiting then s.UpdateError(id, OrElse(r.error, Pinentry.AUTH_FAILED)) else s;
    RetryGist(s1, id, cur, max);
    CreateGist(s1, id, Source.Pinentry, context);
    var s2 := if id in s.live then s1.UpdateRetry(id, cur, max) else s1.Create(id, Source.Pinentry, context);
    UpdatesGist(s2, id);
    UpdatesGist(s2.UpdatePrompt(id, r.prompt, false, false), id);
  }

  lemma PinentryAskGist(p: PinentryState, m: PinentryMessage, s: Socket, pid: Pid, actor: Requestor, uuid: Id)
    ensures var id := OrElse(m.cookie, uuid);
            GistOf(p.Ask(m, s, pid, actor, uuid).sess) ==
            if p.OwnedByOther(id, pid) || id in p.sess.live then GistOf(p.sess)
              else GistOf(p.sess).Open(id, Source.Pinentry)
  {
    hide GistOf, Presented, ResolveRetryInfo;
    var id := OrElse(m.cookie, uuid);
    var counted := ResolveRetryInfo(p.retries, m.keyinfo, m.attempts);
    PresentedGist(p.sess, Parsed(m, id, s, pid), actor, counted.curRetry, counted.maxRetries,
                  p.IsAwaiting(id), id in p.flows && p.flows[id].reported);
  }

  lemma CloseFlowGist(p: PinentryState, id: Id, result: Result, error: string)
    ensures GistOf(p.CloseFlow(id, result, error).sess) == GistOf(p.sess).EndFlow(id, result)
  {
    UpdatesGist(p.sess, id);
    var failed := if error != "" then p.sess.UpdateError(id, error) else p.sess;
    EndGist(failed, id, result);
  }

  lemma {:induction false} CloseAllGist(p: PinentryState, ids: seq<Id>)
    ensures GistOf(p.CloseAll(ids).sess) == GistOf(p.sess).EndFlows(ids, Cancelled)
    ensures p.CloseAll(ids).flows == p.flows - (set id | id in ids)
  {
    hide GistOf;
    if ids != [] {
      var n := |ids| - 1;
      CloseAllGist(p, ids[..n]);
      CloseFlowGist(p.CloseAll(ids[..n]), ids[n], Cancelled, DISCONNECTED);
      assert ids == ids[..n] + [ids[n]];
    }
  }

  lemma {:induction false} ToCloseMembers(p: PinentryState, s: Socket, order: seq<Id>)
    ensures forall id :: id in p.ToClose(s, order) <==> id in order && p.PendingFrom(id, s)
  {
    if order != [] {
      ToCloseMembers(p, s, order[..|order| - 1]);
    }
  }

  // ----- Polkit -----

  lemma ConcludeGist(p: PolkitState, id: Id, gained: bool)
    requires id in p.attempts
    ensures GistOf(p.Conclude(id, gained).sess) == GistOf(p.sess).Conclude(id, p.attempts, gained)
  {
    hide Marks, Sess.Finish;
    PutGist(p.sess, Complete(p.attempts[id].token, ""));
    EndGist(p.sess.Put([Complete(p.attempts[id].token, "")]), id, if gained then Success else Cancelled);
  }

  lemma {:induction false} CancelAllGist(p: PolkitState, order: seq<Id>)
    requires Distinct(order) && forall id :: id in order ==> id in p.attempts
    ensures GistOf(p.CancelAll(order).sess) == GistOf(p.sess).ConcludeEach(order, p.attempts)
    ensures p.CancelAll(order).attempts == p.attempts - (set id | id in order)
  {
    hide GistOf;
    if order != [] {
      var n := |order| - 1;
      assert order == order[..n] + [order[n]];
      CancelAllGist(p, order[..n]);
      ConcludeGist(p.CancelAll(order[..n]), order[n], false);
    }
  }

  // ----- Every input -----

  /** What each input does to the sessions and to those waiting for them. */
  ghost function Doing(c: Core, i: Input, authorized: bool): Gist
    requires i.PolkitCancelAll? ==> forall id :: id in i.order ==> id in c.attempts
  {
    var g := Gist(SourcesOf(c.live), []);
    match i
    case AskKeyring(_, _, m, _, uuid) => g.Open(IdOf(m.cookie, uuid), Source.Keyring)
    case AskPinentry(_, pid, m, _, uuid) =>
      var id := OrElse(m.cookie, uuid);
      if c.AsPinentry().OwnedByOther(id, pid) || id in c.live then g else g.Open(id, Source.Pinentry)
    case Report(_, pid, id, verdict, _) =>
      if !c.AsPinentry().AcceptsResult(id, pid) then g
      else (match verdict
            case Succeeded => g.End(id, Success)
            case Withdrawn => g.End(id, Cancelled)
            case Failed => g.End(id, Error)
            case _ => g)
    case Respond(_, id, response) =>
      if !authorized then g
      else if id in c.keyring then g.End(id, Success).Note(Answered(c.keyring[id].socket, id, Password(response)))
      else if c.AsPinentry().IsPending(id) then
        var r := c.flows[id].phase.request;
        g.Note(Answered(r.socket, id, AnswerTo(r, response)))
      else g
    case Cancel(_, id) =>
      if !authorized then g
      else if id in c.keyring then g.End(id, Cancelled).Note(Answered(c.keyring[id].socket, id, Declined))
      else if c.AsPinentry().IsPending(id) then
        g.EndFlow(id, Cancelled).Note(Answered(c.flows[id].phase.request.socket, id, Declined))
      else if c.AsPinentry().Knows(id) then g.EndFlow(id, Cancelled)
      else if id in c.live && c.live[id].source.Polkit? && id in c.attempts then g.Conclude(id, c.attempts, false)
      else g
    case Disconnected(s, ko, po) =>
      g.EndEach(KeyringFrom(c.keyring, s, ko), Cancelled).EndFlows(c.AsPinentry().ToClose(s, po), Cancelled)
    case Timeout(id) => if c.AsPinentry().IsAwaiting(id) then g.EndFlow(id, Error) else g
    case PolkitBegin(id, token, identified, _, helper) =>
      if id in c.attempts || !identified then g.Note(Completed(token))
      else g.Open(id, Source.Polkit).Note(Started(helper, id))
    case PolkitCancelAll(order) => g.ConcludeEach(order, c.attempts)
    case HelperDone(h, gained, next) =>
      (match Whose(c.attempts, h)
       case None => g
       case Some(id) =>
         if gained then g.Conclude(id, c.attempts, true)
         else if c.AsPolkit().MayRetry(id) then g.Note(Started(next, id))
         else g.Conclude(id, c.attempts, false))
    case _ => g
  }

  function GistOfOutcome(o: Outcome): Gist {
    GistOf(Sess(o.core.live, o.out))
  }

  lemma ThenGist(o: Outcome, a: Effect, b: Effect)
    ensures GistOfOutcome(o.Then([a])) == Gist(GistOfOutcome(o).sources, GistOfOutcome(o).marks + MarkOf(a))
    ensures GistOfOutcome(o.Then([a, b])) ==
            Gist(GistOfOutcome(o).sources, GistOfOutcome(o).marks + MarkOf(a) + MarkOf(b))
  {
    hide Marks;
    MarksLast(o.out, a);
    MarksLast(o.out + [a], b);
    assert o.out + [a, b] == o.out + [a] + [b];
  }

  lemma StartGist(c: Core)
    ensures GistOf(Sess(c.live, [])) == Gist(SourcesOf(c.live), [])
  {
  }

  lemma SaysGist(c: Core, to: Socket, m: Message)
    requires !m.KeyringReply? && !m.PinentryReply?
    ensures GistOfOutcome(c.Says(to, m)) == Gist(SourcesOf(c.live), [])
  {
    hide SourcesOf;
    StartGist(c);
    MarksLast([], Send(to, m));
  }

  lemma RespondedGist(c: Core, s: Socket, id: Id, response: string, now: int)
    ensures GistOfOutcome(c.Responded(s, id, response, now)) == Doing(c, Respond(s, id, response), true)
  {
    hide GistOf, SourcesOf, Sess.Close;
    var g := Sess(c.live, []);
    StartGist(c);
    if id in c.keyring {
      EndGist(g, id, Success);
      ThenGist(c.WithKeyring(c.AsKeyring().Settle(id, Success)),
               Send(c.keyring[id].socket, KeyringReply(id, Password(response))), Send(s, Ok(None)));
    } else if c.AsPinentry().IsPending(id) {
      ThenGist(c.WithPinentry(c.AsPinentry().Respond(id, now)),
               Send(c.flows[id].phase.request.socket, PinentryReply(id, AnswerTo(c.flows[id].phase.request, response))),
               Send(s, Ok(None)));
    } else if c.AsPinentry().Knows(id) {
      SaysGist(c, s, Failure("Session is not accepting input"));
    } else if id !in c.live {
      SaysGist(c, s, Failure("Unknown session"));
    } else if !c.live[id].source.Polkit? {
      SaysGist(c, s, Failure("Session is not awaiting direct response"));
    } else {
      if id in c.attempts {
        PutGist(g, HelperResponse(c.attempts[id].helper, response));
      }
      ThenGist(c.WithPolkit(c.AsPolkit().Submit(id, response)), Send(s, Ok(None)), Send(s, Ok(None)));
    }
  }

  lemma CancelledGist(c: Core, s: Socket, id: Id)
    ensures GistOfOutcome(c.Cancelled(s, id)) == Doing(c, Cancel(s, id), true)
  {
    hide GistOf, Sess.Close, PinentryState.CloseFlow, PolkitState.Conclude;
    StartGist(c);
    if id in c.keyring {
      EndGist(Sess(c.live, []), id, Result.Cancelled);
      ThenGist(c.WithKeyring(c.AsKeyring().Settle(id, Result.Cancelled)),
               Send(c.keyring[id].socket, KeyringReply(id, Declined)), Send(s, Ok(None)));
    } else if c.AsPinentry().IsPending(id) {
      CloseFlowGist(c.AsPinentry(), id, Result.Cancelled, "");
      ThenGist(c.WithPinentry(c.AsPinentry().Cancel(id)),
               Send(c.flows[id].phase.request.socket, PinentryReply(id, Declined)), Send(s, Ok(None)));
    } else if c.AsPinentry().Knows(id) {
      CloseFlowGist(c.AsPinentry(), id, Result.Cancelled, "");
      ThenGist(c.WithPinentry(c.AsPinentry().Cancel(id)), Send(s, Ok(None)), Send(s, Ok(None)));
    } else if id !in c.live {
      SaysGist(c, s, Failure("Unknown session"));
    } else if !c.live[id].source.Polkit? {
      SaysGist(c, s, Failure("Session is not cancellable from this path"));
    } else {
      CancelPendingGist(c.AsPolkit(), id);
      ThenGist(c.WithPolkit(c.AsPolkit().CancelPending(id)), Send(s, Ok(None)), Send(s, Ok(None)));
    }
  }

  lemma CancelPendingGist(p: PolkitState, id: Id)
    ensures GistOf(p.CancelPending(id).sess) ==
            if id in p.attempts then GistOf(p.sess).Conclude(id, p.attempts, false) else GistOf(p.sess)
  {
    if id in p.attempts {
      PutGist(p.sess, CancelHelper(p.attempts[id].helper));
      ConcludeGist(p.(sess := p.sess.Put([CancelHelper(p.attempts[id].helper)])), id, false);
    }
  }

  lemma {:induction false} ToCloseIsLocal(p: PinentryState, q: PinentryState, s: Socket, order: seq<Id>)
    requires p.flows == q.flows
    ensures p.ToClose(s, order) == q.ToClose(s, order)
  {
    if order != [] {
      ToCloseIsLocal(p, q, s, order[..|order| - 1]);
    }
  }

  lemma {:induction false} EndFlowsAfter(sources: Sources, marks: seq<Mark>, ids: seq<Id>, result: Result)
    ensures var g := Gist(sources, []).EndFlows(ids, result);
            Gist(sources, marks).EndFlows(ids, result) == Gist(g.sources, marks + g.marks)
  {
    if ids != [] {
      EndFlowsAfter(sources, marks, ids[..|ids| - 1], result);
    }
  }

  lemma AbandonedGist(c: Core, s: Socket, ko: seq<Id>, po: seq<Id>)
    requires Distinct(ko)
    ensures GistOfOutcome(c.Abandoned(s, ko, po)) == Doing(c, Disconnected(s, ko, po), false)
  {
    hide KeyringState.Cleanup, PinentryState.CloseAll, Marks;
    StartGist(c);
    KeyringCleanupGist(c.AsKeyring(), s, ko);
    var k := c.WithKeyring(c.AsKeyring().Cleanup(s, ko));
    var p := k.core.AsPinentry();
    ToCloseIsLocal(p, c.AsPinentry(), s, po);
    var ids := c.AsPinentry().ToClose(s, po);
    CloseAllGist(p, ids);
    StartGist(k.core);
    MarksAppend(k.out, p.CloseAll(ids).sess.out);
    EndFlowsAfter(SourcesOf(k.core.live), Marks(k.out), ids, Result.Cancelled);
  }

  lemma HelperDoneGist(p: PolkitState, h: Helper, gained: bool, next: Helper)
    ensures var g := GistOf(p.sess);
            GistOf(p.HelperDone(h, gained, next).sess) ==
            match Whose(p.attempts, h)
            case None => g
            case Some(id) =>
              if gained then g.Conclude(id, p.attempts, true)
              else if p.MayRetry(id) then g.Note(Started(next, id))
              else g.Conclude(id, p.attempts, false)
  {
    hide GistOf, PolkitState.Conclude;
    match Whose(p.attempts, h)
    case None =>
    case Some(id) =>
      UpdatesGist(p.sess, id);
      ConcludeGist(p, id, true);
      var q := p.(sess := p.sess.UpdateError(id, PolkitAgent.AUTH_FAILED));
      UpdatesGist(q.sess, id);
      PutGist(q.sess, StartHelper(next, id));
      ConcludeGist(q.(sess := q.sess.UpdateError(id, TOO_MANY)), id, false);
  }

  ghost predicate Summed(c: Core, i: Input, authorized: bool, now: int)
    requires i.PolkitCancelAll? ==> forall id :: id in i.order ==> id in c.attempts
  {
    GistOfOutcome(c.Step(i, authorized, now)) == Doing(c, i, authorized)
  }

  lemma PolkitGist(c: Core, i: Input, authorized: bool, now: int)
    requires i.PolkitBegin? || i.PolkitCancelAll? || i.HelperDone?
    requires i.PolkitCancelAll? ==> Distinct(i.order) && forall id :: id in i.order ==> id in c.attempts
    ensures Summed(c, i, authorized, now)
  {
    hide GistOf, PolkitState.HelperDone, PolkitState.CancelAll, PolkitState.Begin;
    StartGist(c);
    match i
    case PolkitBegin(id, token, identified, context, helper) =>
      BeginGist(c.AsPolkit(), id, token, identified, context, helper);
    case PolkitCancelAll(order) => CancelAllGist(c.AsPolkit(), order);
    case HelperDone(h, gained, next) => HelperDoneGist(c.AsPolkit(), h, gained, next);
  }

  lemma UserGist(c: Core, i: Input, authorized: bool, now: int)
    requires i.Respond? || i.Cancel?
    ensures Summed(c, i, authorized, now)
  {
    hide GistOf, Core.Responded, Core.Cancelled;
    SaysGist(c, i.socket, Failure(NOT_ACTIVE));
    match i
    case Respond(s, id, response) => RespondedGist(c, s, id, response, now);
    case Cancel(s, id) => CancelledGist(c, s, id);
  }

  lemma RequesterGist(c: Core, i: Input, authorized: bool, now: int)
    requires i.AskKeyring? || i.AskPinentry? || i.Timeout?
    ensures Summed(c, i, authorized, now)
  {
    hide GistOf, PinentryState.Ask, KeyringState.Ask, PinentryState.CloseFlow;
    StartGist(c);
    match i
    case AskKeyring(s, pid, m, actor, uuid) => KeyringAskGist(c.AsKeyring(), m, s, pid, actor, uuid);
    case AskPinentry(s, pid, m, actor, uuid) => PinentryAskGist(c.AsPinentry(), m, s, pid, actor, uuid);
    case Timeout(id) => CloseFlowGist(c.AsPinentry(), id, Error, NO_RESULT);
  }

  /** The sender of these inputs is not asked for. */
  lemma SenderIgnored(c: Core, i: Input, authorized: bool, now: int)
    requires i.Report? || i.Disconnected? || i.HelperPrompt? || i.HelperError? || i.HelperInfo?
    ensures c.Step(i, authorized, now) == c.Step(i, false, 0)
    ensures Doing(c, i, authorized) == Doing(c, i, false)
  {
  }

  /** The summary of every input. */
  lemma StepGist(c: Core, i: Input, authorized: bool, now: int)
    requires i.PolkitCancelAll? ==> Distinct(i.order) && forall id :: id in i.order ==> id in c.attempts
    requires i.Disconnected? ==> Distinct(i.keyringOrder)
    ensures GistOfOutcome(c.Step(i, authorized, now)) == Doing(c, i, authorized)
  {
    hide GistOfOutcome, Doing, Core.Step;
    if i.PolkitBegin? || i.PolkitCancelAll? || i.HelperDone? {
      PolkitGist(c, i, authorized, now);
    } else if i.Respond? || i.Cancel? {
      UserGist(c, i, authorized, now);
    } else if i.AskKeyring? || i.AskPinentry? || i.Timeout? {
      RequesterGist(c, i, authorized, now);
    } else if i.Report? || i.Disconnected? || i.HelperPrompt? || i.HelperError? || i.HelperInfo? {
      SenderIgnored(c, i, authorized, now);
      StepIsAbandoned(c, i);
      if i.Report? {
        ReportGist(c, i.socket, i.pid, i.id, i.verdict, i.error);
      } else if i.Disconnected? {
        AbandonedGist(c, i.socket, i.keyringOrder, i.pinentryOrder);
      } else {
        HelperUpdatesGist(c, i);
      }
    } else {
      RoutingGist(c, i, authorized, now);
    }
  }

  lemma StepIsAbandoned(c: Core, i: Input)
    ensures i.Disconnected? ==> c.Step(i, false, 0) == c.Abandoned(i.socket, i.keyringOrder, i.pinentryOrder)
    ensures i.HelperPrompt? || i.HelperError? || i.HelperInfo? ==> Doing(c, i, false) == Gist(SourcesOf(c.live), [])
  {
  }

  lemma RoutingGist(c: Core, i: Input, authorized: bool, now: int)
    requires i.Connect? || i.HangUp? || i.Advance? || i.Next? || i.Subscribe? || i.Register? || i.Heartbeat? ||
             i.Unregister? || i.Tick?
    ensures Summed(c, i, authorized, now)
  {
    StartGist(c);
  }

  lemma ReportGist(c: Core, s: Socket, pid: Pid, id: Id, verdict: Verdict, error: string)
    ensures GistOfOutcome(c.Step(Report(s, pid, id, verdict, error), false, 0)) ==
            Doing(c, Report(s, pid, id, verdict, error), false)
  {
    hide GistOf, PinentryState.CloseFlow, Sess.UpdateError;
    StartGist(c);
    var p := c.AsPinentry();
    UpdatesGist(p.sess, id);
    CloseFlowGist(p, id, Success, "");
    CloseFlowGist(p, id, Result.Cancelled, "");
    CloseFlowGist(p, id, Error, OrElse(error, Pinentry.AUTH_FAILED));
    var reply := Send(s, p.ResultReply(id, verdict, pid));
    ThenGist(c.WithPinentry(p.Result(id, verdict, error, pid)), reply, reply);
    assert MarkOf(reply) == [];
  }

  lemma BeginGist(p: PolkitState, id: Id, token: Token, identified: bool, context: Context, helper: Helper)
    ensures GistOf(p.Begin(id, token, identified, context, helper).sess) ==
            if id in p.attempts || !identified then GistOf(p.sess).Note(Completed(token))
            else GistOf(p.sess).Open(id, Source.Polkit).Note(Started(helper, id))
  {
    hide Marks, Sess.Create;
    var rejection := p.Rejection(id, identified);
    if rejection.Some? {
      PutGist(p.sess, Complete(token, rejection.value));
    } else {
      CreateGist(p.sess, id, Source.Polkit, context);
      PutGist(p.sess.Create(id, Source.Polkit, context), StartHelper(helper, id));
    }
  }

  lemma HelperUpdatesGist(c: Core, i: Input)
    requires i.HelperPrompt? || i.HelperError? || i.HelperInfo?
    ensures GistOfOutcome(c.Step(i, false, 0)) == Gist(SourcesOf(c.live), [])
  {
    hide GistOf, SourcesOf;
    StartGist(c);
    match Whose(c.attempts, i.sender)
    case None =>
    case Some(id) => UpdatesGist(Sess(c.live, []), id);
  }
}
