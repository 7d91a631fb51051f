/** The life of a session as subscribers see it: created, updated any number of times, closed, and
    possibly created again. */
module EventGrammar {
  import opened Basics
  import opened Messages
  import opened Sessions
  import opened Keyring
  import opened Pinentry
  import opened PolkitAgent
  import opened Daemon

  // ----- The rule, for one id -----

  /** A prefix of (created updated* closed)*, starting inside a lifetime if `open`. */
  predicate Lifetimes(events: seq<Event>, open: bool) {
    events == [] ||
    match events[0]
    case Created(_, _, _) => !open && Lifetimes(events[1..], true)
    case Updated(_, _, _, _, _, _) => open && Lifetimes(events[1..], true)
    case Closed(_, _, _) => open && Lifetimes(events[1..], false)
    case Notice(_) => Lifetimes(events[1..], open)
  }

  predicate IsAbout(e: Effect, id: Id) {
    e.Emit? && !e.event.Notice? && e.event.id == id
  }

  /** The events about one id, in the order they were put out. */
  function Of(out: seq<Effect>, id: Id): seq<Event> {
    if out == [] then []
    else
      var n := |out| - 1;
      Of(out[..n], id) + if IsAbout(out[n], id) then [out[n].event] else []
  }

  // ----- The rule, for all ids at once -----

  /** The ids open after these outputs; None once an output breaks the rule. */
  function Follow(out: seq<Effect>, open: set<Id>): Option<set<Id>> {
    if out == [] then Some(open)
    else
      match Follow(out[..|out| - 1], open)
      case None => None
      case Some(now) => Advanced(now, out[|out| - 1])
  }

  function Advanced(now: set<Id>, e: Effect): Option<set<Id>> {
    if !e.Emit? then Some(now)
    else
      match e.event
      case Created(id, _, _) => if id in now then None else Some(now + {id})
      case Updated(id, _, _, _, _, _) => if id in now then Some(now) else None
      case Closed(id, _, _) => if id in now then Some(now - {id}) else None
      case Notice(_) => Some(now)
  }

  function OpenAt(events: seq<Event>, open: bool): bool {
    if events == [] then open
    else
      var e := events[|events| - 1];
      if e.Notice? then OpenAt(events[..|events| - 1], open) else !e.Closed?
  }

  lemma {:induction false} LifetimesExtend(events: seq<Event>, e: Event, open: bool)
    ensures Lifetimes(events + [e], open) <==>
              Lifetimes(events, open) &&
              (match e
               case Created(_, _, _) => !OpenAt(events, open)
               case Updated(_, _, _, _, _, _) => OpenAt(events, open)
               case Closed(_, _, _) => OpenAt(events, open)
               case Notice(_) => true)
  {
    if events == [] {
      assert (events + [e])[1..] == [];
    } else {
      var first := events[0];
      var open' := if first.Notice? then open else !first.Closed?;
      assert (events + [e])[1..] == events[1..] + [e];
      LifetimesExtend(events[1..], e, open');
      OpenAtTail(events, open);
    }
  }

  lemma {:induction false} OpenAtTail(events: seq<Event>, open: bool)
    requires events != []
    ensures OpenAt(events, open) == OpenAt(events[1..], if events[0].Notice? then open else !events[0].Closed?)
  {
    if |events| > 1 {
      var n := |events| - 1;
      assert events[1..][..n - 1] == events[..n][1..];
      OpenAtTail(events[..n], open);
    }
  }

  /** Following all ids together is following each one alone. */
  lemma {:induction false} FollowIsPerId(out: seq<Effect>, open: set<Id>)
    ensures Follow(out, open).Some? <==> forall id :: Lifetimes(Of(out, id), id in open)
    ensures Follow(out, open).Some? ==> forall id :: OpenAt(Of(out, id), id in open) <==> id in Follow(out, open).value
  {
    if out != [] {
      var n := |out| - 1;
      var e := out[n];
      FollowIsPerId(out[..n], open);
      forall id
        ensures IsAbout(e, id) ==> Of(out, id) == Of(out[..n], id) + [e.event]
        ensures !IsAbout(e, id) ==> Of(out, id) == Of(out[..n], id)
      {
      }
      if e.Emit? && !e.event.Notice? {
        LifetimesExtend(Of(out[..n], e.event.id), e.event, e.event.id in open);
      }
    }
  }

  lemma {:induction false} FollowAppend(a: seq<Effect>, b: seq<Effect>, open: set<Id>)
    ensures Follow(a + b, open) == match Follow(a, open) case None => None case Some(now) => Follow(b, now)
  {
    if b == [] {
      assert a + b == a;
    } else {
      assert (a + b)[..|a + b| - 1] == a + b[..|b| - 1];
      FollowAppend(a, b[..|b| - 1], open);
    }
  }

  // ----- Sessions keep the rule -----

  /** The outputs so far keep the rule, and the live sessions are the open ids. */
  ghost predicate Tracks(s: Sess, open: set<Id>) {
    Follow(s.out, open) == Some(s.live.Keys)
  }

  predicate Silent(e: Effect) {
    !e.Emit?
  }

  lemma PutTracks(s: Sess, e: Effect, open: set<Id>)
    requires Silent(e)
    ensures Follow(s.out + [e], open) == Follow(s.out, open)
  {
    assert (s.out + [e])[..|s.out|] == s.out;
  }

  lemma EmitFollows(out: seq<Effect>, e: Effect, open: set<Id>)
    ensures Follow(out + [e], open) ==
              match Follow(out, open) case None => None case Some(now) => Advanced(now, e)
  {
    assert (out + [e])[..|out|] == out;
  }

  lemma SetTracks(s: Sess, id: Id, d: SessionData, open: set<Id>)
    requires Tracks(s, open) && id in s.live
    ensures Tracks(s.Set(id, d), open)
  {
    hide Follow;
    EmitFollows(s.out, Emit(UpdatedEvent(id, d)), open);
    assert s.live[id := d].Keys == s.live.Keys;
  }

  /** Creating a session keeps the rule exactly when its id is not live. */
  lemma CreateTracks(s: Sess, id: Id, source: Source, context: Context, open: set<Id>)
    requires Tracks(s, open)
    ensures id !in s.live ==> Tracks(s.Create(id, source, context), open)
    ensures id in s.live ==> Follow(s.Create(id, source, context).out, open) == None
  {
    hide Follow;
    var d := SessionData(source, context, "", false, "", "");
    EmitFollows(s.out, Emit(CreatedEvent(id, d)), open);
    assert s.live[id := d].Keys == s.live.Keys + {id};
  }

  lemma UpdatesTrack(s: Sess, id: Id, open: set<Id>)
    requires Tracks(s, open)
    ensures forall prompt, echo, clear :: Tracks(s.UpdatePrompt(id, prompt, echo, clear), open)
    ensures forall error :: Tracks(s.UpdateError(id, error), open)
    ensures forall info :: Tracks(s.UpdateInfo(id, info), open)
  {
    hide Follow;
    if id in s.live {
      forall d
        ensures Tracks(s.Set(id, d), open)
      {
        SetTracks(s, id, d, open);
      }
    }
  }

  lemma RetryTracks(s: Sess, id: Id, cur: int, max: int, open: set<Id>)
    requires Tracks(s, open)
    ensures Tracks(s.UpdateRetry(id, cur, max), open)
  {
    hide Follow;
    if id in s.live {
      assert s.live[id := WithRetry(s.live[id], cur, max)].Keys == s.live.Keys;
    }
  }

  lemma CloseTracks(s: Sess, id: Id, result: Result, open: set<Id>)
    requires Tracks(s, open)
    ensures Tracks(s.Close(id, result), open)
  {
    hide Follow;
    if id in s.live {
      var rest := s.(live := s.live - {id});
      PutTracks(s, Recheck, open);
      var checked := if rest.live == map[] then rest.Put([Recheck]) else rest;
      EmitFollows(checked.out, Emit(ClosedEvent(id, s.live[id], result)), open);
      assert (s.live - {id}).Keys == s.live.Keys - {id};
    }
  }

  lemma FinishTracks(s: Sess, id: Id, success: bool, open: set<Id>)
    requires Tracks(s, open)
    ensures Tracks(s.Finish(id, success), open)
  {
    hide Follow;
    if id in s.live {
      var closed := Emit(ClosedEvent(id, s.live[id], if success then Success else Cancelled));
      EmitFollows(s.out, closed, open);
      PutTracks(s.Put([closed]), Recheck, open);
      assert (s.live - {id}).Keys == s.live.Keys - {id};
    }
  }

  // ----- The managers keep the rule -----

  lemma {:induction false} PutAllTracks(s: Sess, more: seq<Effect>, open: set<Id>)
    requires Tracks(s, open) && forall k :: 0 <= k < |more| ==> Silent(more[k])
    ensures Tracks(s.Put(more), open)
  {
    if more == [] {
      assert s.out + more == s.out;
    } else {
      var n := |more| - 1;
      PutAllTracks(s, more[..n], open);
      PutTracks(s.Put(more[..n]), more[n], open);
      assert s.out + more == s.out + more[..n] + [more[n]];
    }
  }

  lemma {:induction false} KeyringCleanupTracks(k: KeyringState, socket: Socket, order: seq<Id>, open: set<Id>)
    requires Tracks(k.sess, open)
    ensures Tracks(k.Cleanup(socket, order).sess, open)
  {
    hide Tracks, Sess.Close;
    if order != [] {
      var n := |order| - 1;
      KeyringCleanupTracks(k, socket, order[..n], open);
      CloseTracks(k.Cleanup(socket, order[..n]).sess, order[n], Cancelled, open);
    }
  }

  lemma PresentedTracks(s: Sess, r: PinentryRequest, actor: Requestor, cur: int, max: int,
                        wasAwaiting: bool, wasReported: bool, open: set<Id>)
    requires Tracks(s, open)
    ensures Tracks(Presented(s, r, actor, cur, max, wasAwaiting, wasReported), open)
  {
    hide Tracks;
    UpdatesTrack(s, r.cookie, open);
    var s1 := if wasAwaiting then s.UpdateError(r.cookie, OrElse(r.error, Pinentry.AUTH_FAILED)) else s;
    RetryTracks(s1, r.cookie, cur, max, open);
    CreateTracks(s1, r.cookie, Source.Pinentry, Pinentry.ContextOf(r, actor, cur, max), open);
    var s2 :=
      if r.cookie in s.live then s1.UpdateRetry(r.cookie, cur, max)
      else s1.Create(r.cookie, Source.Pinentry, Pinentry.ContextOf(r, actor, cur, max));
    UpdatesTrack(s2, r.cookie, open);
    UpdatesTrack(s2.UpdatePrompt(r.cookie, r.prompt, false, false), r.cookie, open);
  }

  lemma CloseFlowTracks(p: PinentryState, id: Id, result: Result, error: string, open: set<Id>)
    requires Tracks(p.sess, open)
    ensures Tracks(p.CloseFlow(id, result, error).sess, open)
  {
    hide Tracks;
    UpdatesTrack(p.sess, id, open);
    var failed := if error != "" then p.sess.UpdateError(id, error) else p.sess;
    CloseTracks(failed, id, result, open);
  }

  lemma {:induction false} CloseAllTracks(p: PinentryState, ids: seq<Id>, open: set<Id>)
    requires Tracks(p.sess, open)
    ensures Tracks(p.CloseAll(ids).sess, open)
  {
    hide Tracks, PinentryState.CloseFlow;
    if ids != [] {
      var n := |ids| - 1;
      CloseAllTracks(p, ids[..n], open);
      CloseFlowTracks(p.CloseAll(ids[..n]), ids[n], Cancelled, DISCONNECTED, open);
    }
  }

  lemma ResultTracks(p: PinentryState, id: Id, verdict: Verdict, error: string, pid: Pid, open: set<Id>)
    requires Tracks(p.sess, open)
    ensures Tracks(p.Result(id, verdict, error, pid).sess, open)
  {
    hide Tracks, PinentryState.CloseFlow;
    UpdatesTrack(p.sess, id, open);
    CloseFlowTracks(p, id, Success, "", open);
    CloseFlowTracks(p, id, Cancelled, "", open);
    CloseFlowTracks(p, id, Error, OrElse(error, Pinentry.AUTH_FAILED), open);
  }

  lemma ConcludeTracks(p: PolkitState, id: Id, gained: bool, open: set<Id>)
    requires Tracks(p.sess, open) && id in p.attempts
    ensures Tracks(p.Conclude(id, gained).sess, open)
  {
    hide Tracks, Sess.Finish;
    PutAllTracks(p.sess, [Complete(p.attempts[id].token, "")], open);
    FinishTracks(p.sess.Put([Complete(p.attempts[id].token, "")]), id, gained, open);
  }

  lemma FailTracks(p: PolkitState, id: Id, next: Helper, open: set<Id>)
    requires Tracks(p.sess, open) && id in p.attempts
    ensures Tracks(p.Fail(id, next).sess, open)
  {
    hide Tracks, PolkitState.Conclude;
    PutAllTracks(p.sess, [StartHelper(next, id)], open);
    UpdatesTrack(p.sess, id, open);
    ConcludeTracks(p.(sess := p.sess.UpdateError(id, TOO_MANY)), id, false, open);
  }

  lemma HelperDoneTracks(p: PolkitState, h: Helper, gained: bool, next: Helper, open: set<Id>)
    requires Tracks(p.sess, open)
    ensures Tracks(p.HelperDone(h, gained, next).sess, open)
  {
    hide Tracks, PolkitState.Conclude, PolkitState.Fail;
    match Whose(p.attempts, h)
    case None =>
    case Some(id) =>
      UpdatesTrack(p.sess, id, open);
      ConcludeTracks(p, id, true, open);
      FailTracks(p.(sess := p.sess.UpdateError(id, PolkitAgent.AUTH_FAILED)), id, next, open);
  }

  lemma {:induction false} CancelAllTracks(p: PolkitState, order: seq<Id>, open: set<Id>)
    requires Tracks(p.sess, open)
    ensures Tracks(p.CancelAll(order).sess, open)
  {
    hide Tracks, PolkitState.Conclude;
    if order != [] {
      var n := |order| - 1;
      CancelAllTracks(p, order[..n], open);
      if order[n] in p.CancelAll(order[..n]).attempts {
        ConcludeTracks(p.CancelAll(order[..n]), order[n], false, open);
      }
    }
  }

  // ----- Every input keeps the rule, unless it creates a session that is live -----

  /** The input creates a session under an id that is live already. */
  predicate Recreates(c: Core, i: Input) {
    match i
    case AskKeyring(_, _, m, _, uuid) => IdOf(m.cookie, uuid) in c.live
    case PolkitBegin(id, _, identified, _, _) => identified && id !in c.attempts && id in c.live
    case _ => false
  }

  /** The outputs of an outcome keep the rule, given what was live before. */
  ghost predicate Follows(o: Outcome, open: set<Id>) {
    Tracks(Sess(o.core.live, o.out), open)
  }

  lemma ThenFollows(o: Outcome, more: seq<Effect>, open: set<Id>)
    requires Follows(o, open) && forall k :: 0 <= k < |more| ==> Silent(more[k])
    ensures Follows(o.Then(more), open)
  {
    PutAllTracks(Sess(o.core.live, o.out), more, open);
  }

  lemma StartTracks(c: Core)
    ensures Tracks(Sess(c.live, []), c.live.Keys)
  {
  }

  lemma SaysFollows(c: Core, to: Socket, m: Message)
    ensures Follows(c.Says(to, m), c.live.Keys)
  {
    StartTracks(c);
    PutAllTracks(Sess(c.live, []), [Send(to, m)], c.live.Keys);
  }

  lemma RespondedFollows(c: Core, s: Socket, id: Id, response: string, now: int)
    ensures Follows(c.Responded(s, id, response, now), c.live.Keys)
  {
    hide Follow, Sess.Close, Tracks;
    var open := c.live.Keys;
    StartTracks(c);
    if id in c.keyring {
      CloseTracks(Sess(c.live, []), id, Success, open);
      ThenFollows(c.WithKeyring(c.AsKeyring().Settle(id, Success)),
                  [Send(c.keyring[id].socket, KeyringReply(id, Password(response))), Send(s, Ok(None))], open);
    } else if c.AsPinentry().IsPending(id) {
      ThenFollows(c.WithPinentry(c.AsPinentry().Respond(id, now)),
                  [Send(c.flows[id].phase.request.socket,
                    PinentryReply(id, AnswerTo(c.flows[id].phase.request, response))),
                   Send(s, Ok(None))], open);
    } else if c.AsPinentry().Knows(id) {
      SaysFollows(c, s, Failure("Session is not accepting input"));
    } else if id !in c.live {
      SaysFollows(c, s, Failure("Unknown session"));
    } else if !c.live[id].source.Polkit? {
      SaysFollows(c, s, Failure("Session is not awaiting direct response"));
    } else {
      if id in c.attempts {
        PutAllTracks(Sess(c.live, []), [HelperResponse(c.attempts[id].helper, response)], open);
      }
      ThenFollows(c.WithPolkit(c.AsPolkit().Submit(id, response)), [Send(s, Ok(None))], open);
    }
  }

  lemma CancelledFollows(c: Core, s: Socket, id: Id)
    ensures Follows(c.Cancelled(s, id), c.live.Keys)
  {
    hide Follow, Sess.Close, Tracks, PinentryState.CloseFlow, PolkitState.Conclude;
    var open := c.live.Keys;
    StartTracks(c);
    if id in c.keyring {
      CloseTracks(Sess(c.live, []), id, Result.Cancelled, open);
      ThenFollows(c.WithKeyring(c.AsKeyring().Settle(id, Result.Cancelled)),
                  [Send(c.keyring[id].socket, KeyringReply(id, Declined)), Send(s, Ok(None))], open);
    } else if c.AsPinentry().Knows(id) {
      CloseFlowTracks(c.AsPinentry(), id, Result.Cancelled, "", open);
      ThenFollows(c.WithPinentry(c.AsPinentry().Cancel(id)),
                  if c.AsPinentry().IsPending(id)
                  then [Send(c.flows[id].phase.request.socket, PinentryReply(id, Declined)), Send(s, Ok(None))]
                  else [Send(s, Ok(None))], open);
    } else if id !in c.live {
      SaysFollows(c, s, Failure("Unknown session"));
    } else if !c.live[id].source.Polkit? {
      SaysFollows(c, s, Failure("Session is not cancellable from this path"));
    } else {
      CancelPendingTracks(c.AsPolkit(), id, open);
      ThenFollows(c.WithPolkit(c.AsPolkit().CancelPending(id)), [Send(s, Ok(None))], open);
    }
  }

  lemma CancelPendingTracks(p: PolkitState, id: Id, open: set<Id>)
    requires Tracks(p.sess, open)
    ensures Tracks(p.CancelPending(id).sess, open)
  {
    hide Tracks, PolkitState.Conclude;
    if id in p.attempts {
      PutAllTracks(p.sess, [CancelHelper(p.attempts[id].helper)], open);
      ConcludeTracks(p.(sess := p.sess.Put([CancelHelper(p.attempts[id].helper)])), id, false, open);
    }
  }

  lemma AbandonedFollows(c: Core, s: Socket, ko: seq<Id>, po: seq<Id>)
    ensures Follows(c.Abandoned(s, ko, po), c.live.Keys)
  {
    hide Follow, KeyringState.Cleanup, PinentryState.CloseAll;
    var open := c.live.Keys;
    StartTracks(c);
    KeyringCleanupTracks(c.AsKeyring(), s, ko, open);
    var k := c.WithKeyring(c.AsKeyring().Cleanup(s, ko));
    StartTracks(k.core);
    var p := k.core.AsPinentry();
    CloseAllTracks(p, p.ToClose(s, po), k.core.live.Keys);
    FollowAppend(k.out, p.Cleanup(s, po).sess.out, open);
  }

  /** One step keeps the rule exactly when it does not re-create a live session. */
  lemma StepFollows(c: Core, i: Input, authorized: bool, now: int)
    ensures !Recreates(c, i) ==> Follows(c.Step(i, authorized, now), c.live.Keys)
    ensures Recreates(c, i) ==> Follow(c.Step(i, authorized, now).out, c.live.Keys) == None
  {
    hide Follow, Tracks, PinentryState.CloseFlow, PolkitState.Conclude, PolkitState.HelperDone, PolkitState.CancelAll;
    hide Core.Responded, Core.Cancelled, Core.Abandoned, PinentryState.Result, PinentryState.ResultReply;
    hide Presented, ResolveRetryInfo, Sess.Create, Sess.UpdatePrompt, Sess.UpdateError, Sess.UpdateInfo;
    var open := c.live.Keys;
    StartTracks(c);
    match i
    case AskKeyring(s, pid, m, actor, uuid) => KeyringAskFollows(c, m, s, pid, actor, uuid);
    case AskPinentry(s, pid, m, actor, uuid) => PinentryAskFollows(c, m, s, pid, actor, uuid);
    case Report(s, pid, id, verdict, error) =>
      ResultTracks(c.AsPinentry(), id, verdict, error, pid, open);
      ThenFollows(c.WithPinentry(c.AsPinentry().Result(id, verdict, error, pid)),
                  [Send(s, c.AsPinentry().ResultReply(id, verdict, pid))], open);
    case Respond(s, id, response) =>
      RespondedFollows(c, s, id, response, now);
      SaysFollows(c, s, Failure(NOT_ACTIVE));
    case Cancel(s, id) =>
      CancelledFollows(c, s, id);
      SaysFollows(c, s, Failure(NOT_ACTIVE));
    case Disconnected(s, ko, po) => AbandonedFollows(c, s, ko, po);
    case Timeout(id) => CloseFlowTracks(c.AsPinentry(), id, Error, NO_RESULT, open);
    case PolkitBegin(id, token, identified, context, helper) => BeginFollows(c, id, token, identified, context, helper);
    case PolkitCancelAll(order) => CancelAllTracks(c.AsPolkit(), order, open);
    case HelperDone(h, gained, next) => HelperDoneTracks(c.AsPolkit(), h, gained, next, open);
    case HelperPrompt(h, prompt, echo) => HelperUpdatesFollow(c, i);
    case HelperError(h, text) => HelperUpdatesFollow(c, i);
    case HelperInfo(h, text) => HelperUpdatesFollow(c, i);
    case _ =>
  }

  lemma HelperUpdatesFollow(c: Core, i: Input)
    requires i.HelperPrompt? || i.HelperError? || i.HelperInfo?
    ensures Follows(c.Step(i, false, 0), c.live.Keys)
  {
    hide Tracks;
    StartTracks(c);
    match Whose(c.attempts, i.sender)
    case None =>
    case Some(id) => UpdatesTrack(Sess(c.live, []), id, c.live.Keys);
  }

  lemma KeyringAskFollows(c: Core, m: KeyringMessage, s: Socket, pid: Pid, actor: Requestor, uuid: Id)
    ensures var k := c.AsKeyring().Ask(m, s, pid, actor, uuid).sess;
            if IdOf(m.cookie, uuid) in c.live then Follow(k.out, c.live.Keys) == None else Tracks(k, c.live.Keys)
  {
    hide Follow;
    var id := IdOf(m.cookie, uuid);
    var r := RequestOf(m, id, s, pid);
    StartTracks(c);
    CreateTracks(Sess(c.live, []), id, Source.Keyring, Keyring.ContextOf(r, actor), c.live.Keys);
    var s1 := Sess(c.live, []).Create(id, Source.Keyring, Keyring.ContextOf(r, actor));
    if id in c.live {
      EmitFollows(s1.out, s1.UpdatePrompt(id, r.message, false, true).out[|s1.out|], c.live.Keys);
    } else {
      UpdatesTrack(s1, id, c.live.Keys);
    }
  }

  lemma PinentryAskFollows(c: Core, m: PinentryMessage, s: Socket, pid: Pid, actor: Requestor, uuid: Id)
    ensures Tracks(c.AsPinentry().Ask(m, s, pid, actor, uuid).sess, c.live.Keys)
  {
    hide Tracks, Presented, ResolveRetryInfo;
    var id := OrElse(m.cookie, uuid);
    StartTracks(c);
    var p := c.AsPinentry();
    var counted := ResolveRetryInfo(c.retries, m.keyinfo, m.attempts);
    PresentedTracks(p.sess, Parsed(m, id, s, pid), actor, counted.curRetry, counted.maxRetries,
                    p.IsAwaiting(id), id in p.flows && p.flows[id].reported, c.live.Keys);
  }

  lemma BeginFollows(c: Core, id: Id, token: Token, identified: bool, context: Context, helper: Helper)
    ensures var p := c.AsPolkit().Begin(id, token, identified, context, helper).sess;
            if identified && id !in c.attempts && id in c.live then Follow(p.out, c.live.Keys) == None
            else Tracks(p, c.live.Keys)
  {
    hide Follow;
    var s := Sess(c.live, []);
    StartTracks(c);
    var rejection := c.AsPolkit().Rejection(id, identified);
    if rejection.Some? {
      PutTracks(s, Complete(token, rejection.value), c.live.Keys);
    } else {
      CreateTracks(s, id, Source.Polkit, context, c.live.Keys);
      PutTracks(s.Create(id, Source.Polkit, context), StartHelper(helper, id), c.live.Keys);
    }
  }

  // ----- Runs -----

  /** No step of the run creates a session that is live. */
  ghost predicate Orderly(d: System, run: seq<Input>) {
    forall k :: 0 <= k < |run| ==> !Recreates(After(d, run[..k]).core, run[k])
  }

  lemma OrderlyLast(d: System, run: seq<Input>)
    ensures run == [] ==> Orderly(d, run)
    ensures var n := |run| - 1;
            run != [] ==> (Orderly(d, run) <==> Orderly(d, run[..n]) && !Recreates(After(d, run[..n]).core, run[n]))
  {
    hide After, Recreates;
    var n := |run| - 1;
    forall k | 0 <= k < n
      ensures run[..n][..k] == run[..k]
    {
    }
  }

  lemma {:induction false} RunFollows(d: System, run: seq<Input>)
    ensures Follow(Trace(d, run), d.core.live.Keys) ==
            if Orderly(d, run) then Some(After(d, run).core.live.Keys) else None
  {
    hide Core.Step, System.Routed, Recreates, Orderly;
    if run == [] {
      OrderlyLast(d, run);
    } else {
      var n := |run| - 1;
      var before := After(d, run[..n]);
      RunFollows(d, run[..n]);
      OrderlyLast(d, run);
      var authorized := (run[n].Respond? || run[n].Cancel?) && before.routes.registry.Authorized(run[n].socket);
      StepFollows(before.core, run[n], authorized, before.routes.now);
      FollowAppend(Trace(d, run[..n]), before.Outputs(run[n]).out, d.core.live.Keys);
    }
  }

  /** In every run, the events of every id form lifetimes (created updated* closed)* exactly when no
      input creates a session that is live; and then the ids inside a lifetime are the live ones. */
  lemma EventsFormLifetimes(d: System, run: seq<Input>)
    ensures Orderly(d, run) <==> forall id :: Lifetimes(Of(Trace(d, run), id), id in d.core.live)
    ensures Orderly(d, run) ==>
              forall id :: OpenAt(Of(Trace(d, run), id), id in d.core.live) <==> id in After(d, run).core.live
  {
    RunFollows(d, run);
    FollowIsPerId(Trace(d, run), d.core.live.Keys);
  }

  /** The same keyring cookie asked for twice while the first request is pending. */
  function AskedTwice(): seq<Input> {
    var ask := AskKeyring(1, 100, KeyringMessage("login", None, "Unlock", "", "", 0),
      Requestor("app", "", "a", "app", 100), "fresh");
    [ask, ask]
  }

  /** The rule can be broken: a cookie asked for twice creates its session twice. */
  lemma ReusedCookieBreaksLifetimes()
    ensures var d := Init({1}, 0);
            && Admissible(d, AskedTwice())
            && !forall id :: Lifetimes(Of(Trace(d, AskedTwice()), id), id in d.core.live)
  {
    hide Lifetimes, Of, Sess.UpdatePrompt;
    var d, run := Init({1}, 0), AskedTwice();
    assert run[..1] == [run[0]] && run[..1][..0] == [];
    assert After(d, run[..0]) == d;
    assert After(d, run[..1]) == d.Step(run[0]);
    var k := d.core.AsKeyring();
    assert "login" in k.Ask(run[0].keyringMessage, 1, 100, run[0].actor, "fresh").sess.live by {
      AskedIsLive(k, run[0].keyringMessage, 1, 100, run[0].actor, "fresh");
    }
    assert Recreates(After(d, run[..1]).core, run[1]);
    assert After(d, run[..1]).Enabled(run[1]) by {
      AskedIsLive(k, run[0].keyringMessage, 1, 100, run[0].actor, "fresh");
      assert "fresh"[0] != "login"[0];
    }
    EventsFormLifetimes(d, run);
  }

  lemma AskedIsLive(k: KeyringState, m: KeyringMessage, s: Socket, pid: Pid, actor: Requestor, uuid: Id)
    ensures k.Ask(m, s, pid, actor, uuid).sess.live.Keys == k.sess.live.Keys + {IdOf(m.cookie, uuid)}
  {
  }
}
