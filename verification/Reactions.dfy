/** What an input makes the daemon tell polkit and its sockets, case by case over the inputs and in
    literal messages; and where every typed password goes. */
module Reactions {
  import opened Basics
  import opened Messages
  import opened Sessions
  import opened Keyring
  import opened Pinentry
  import opened PolkitAgent
  import opened Daemon
  import opened Invariants
  import opened Runs

  predicate ToPolkit(e: Effect) {
    e.StartHelper? || e.HelperResponse? || e.CancelHelper? || e.Complete?
  }

  predicate ToSocket(e: Effect) {
    e.Send?
  }

  /** Session events and re-elections are not selected. */
  ghost predicate Deaf(keep: Effect -> bool) {
    !keep(Effect.Recheck) && forall e :: !keep(Emit(e))
  }

  /** Only session events and re-elections have been put out in between. */
  predicate Quiet(s: Sess, s': Sess) {
    && s.out <= s'.out
    && forall k :: |s.out| <= k < |s'.out| ==> s'.out[k].Emit? || s'.out[k].Recheck?
  }

  lemma {:induction false} NothingSelected(a: seq<Effect>, keep: Effect -> bool)
    requires forall k :: 0 <= k < |a| ==> !keep(a[k])
    ensures Filter(a, keep) == []
  {
    if a != [] {
      NothingSelected(a[1..], keep);
    }
  }

  lemma QuietTells(s: Sess, s': Sess, keep: Effect -> bool)
    requires Deaf(keep) && Quiet(s, s')
    ensures Filter(s'.out, keep) == Filter(s.out, keep)
  {
    var more := s'.out[|s.out|..];
    assert s'.out == s.out + more;
    FilterAppend(s.out, more, keep);
    NothingSelected(more, keep);
  }

  lemma OneSelected(e: Effect, keep: Effect -> bool)
    ensures Filter([e], keep) == if keep(e) then [e] else []
  {
    assert [e][1..] == [];
  }

  lemma PutTells(s: Sess, e: Effect, keep: Effect -> bool)
    ensures Filter(s.Put([e]).out, keep) == Filter(s.out, keep) + if keep(e) then [e] else []
  {
    FilterAppend(s.out, [e], keep);
    OneSelected(e, keep);
  }

  // ----- Which handlers are quiet -----

  lemma SessionsAreQuiet(s: Sess, id: Id)
    ensures forall source, context :: Quiet(s, s.Create(id, source, context))
    ensures forall prompt, echo, clear :: Quiet(s, s.UpdatePrompt(id, prompt, echo, clear))
    ensures forall text :: Quiet(s, s.UpdateError(id, text)) && Quiet(s, s.UpdateInfo(id, text))
    ensures forall cur, max :: Quiet(s, s.UpdateRetry(id, cur, max))
    ensures forall result :: Quiet(s, s.Close(id, result))
    ensures forall success :: Quiet(s, s.Finish(id, success))
  {
  }

  lemma QuietOn(a: Sess, b: Sess, c: Sess)
    requires Quiet(a, b) && Quiet(b, c)
    ensures Quiet(a, c)
  {
  }

  lemma {:induction false} KeyringCleanupIsQuiet(k: KeyringState, s: Socket, order: seq<Id>)
    ensures Quiet(k.sess, k.Cleanup(s, order).sess)
  {
    hide Quiet, Sess.Close;
    QuietOnce(k.sess);
    if order != [] {
      var id, rest := order[|order| - 1], order[..|order| - 1];
      var k' := k.Cleanup(s, rest);
      KeyringCleanupIsQuiet(k, s, rest);
      SessionsAreQuiet(k'.sess, id);
      QuietOn(k.sess, k'.sess, k.Cleanup(s, order).sess) by {
        QuietOnce(k'.sess);
      }
    }
  }

  lemma QuietOnce(s: Sess)
    ensures Quiet(s, s)
  {
  }

  lemma CloseFlowIsQuiet(p: PinentryState, id: Id, result: Result, error: string)
    ensures Quiet(p.sess, p.CloseFlow(id, result, error).sess)
  {
    hide Quiet, Sess.Close, Sess.UpdateError;
    QuietOnce(p.sess);
    SessionsAreQuiet(p.sess, id);
    var failed := if error != "" then p.sess.UpdateError(id, error) else p.sess;
    SessionsAreQuiet(failed, id);
    QuietOn(p.sess, failed, failed.Close(id, result));
  }

  lemma {:induction false} CloseAllIsQuiet(p: PinentryState, ids: seq<Id>)
    ensures Quiet(p.sess, p.CloseAll(ids).sess)
  {
    hide Quiet, PinentryState.CloseFlow;
    QuietOnce(p.sess);
    if ids != [] {
      var rest, id := ids[..|ids| - 1], ids[|ids| - 1];
      CloseAllIsQuiet(p, rest);
      CloseFlowIsQuiet(p.CloseAll(rest), id, Cancelled, DISCONNECTED);
      QuietOn(p.sess, p.CloseAll(rest).sess, p.CloseAll(ids).sess);
    }
  }

  lemma KeyringAskIsQuiet(k: KeyringState, m: KeyringMessage, s: Socket, pid: Pid, actor: Requestor, uuid: Id)
    ensures Quiet(k.sess, k.Ask(m, s, pid, actor, uuid).sess)
  {
    hide Quiet, Sess.Create, Sess.UpdatePrompt;
    var id := IdOf(m.cookie, uuid);
    var r := RequestOf(m, id, s, pid);
    var created := k.sess.Create(id, Source.Keyring, Keyring.ContextOf(r, actor));
    SessionsAreQuiet(k.sess, id);
    SessionsAreQuiet(created, id);
    QuietOn(k.sess, created, created.UpdatePrompt(id, r.message, false, true));
  }

  lemma PresentedIsQuiet(s: Sess, r: PinentryRequest, actor: Requestor, cur: int, max: int, was: bool, reported: bool)
    ensures Quiet(s, Presented(s, r, actor, cur, max, was, reported))
  {
    hide Quiet, Sess.Create, Sess.UpdatePrompt, Sess.UpdateError, Sess.UpdateRetry;
    var id := r.cookie;
    var s1 := if was then s.UpdateError(id, OrElse(r.error, Pinentry.AUTH_FAILED)) else s;
    var s2 := if id in s.live then s1.UpdateRetry(id, cur, max)
      else s1.Create(id, Source.Pinentry, Pinentry.ContextOf(r, actor, cur, max));
    var s3 := s2.UpdatePrompt(id, r.prompt, false, false);
    QuietOnce(s);
    SessionsAreQuiet(s, id);
    SessionsAreQuiet(s1, id);
    SessionsAreQuiet(s2, id);
    SessionsAreQuiet(s3, id);
    QuietOn(s, s1, s2);
    QuietOn(s, s2, s3);
    QuietOn(s, s3, s3.UpdateError(id, r.error));
  }

  lemma RequestsAreQuiet(c: Core, i: Input)
    requires i.AskKeyring? || i.AskPinentry?
    ensures Quiet(Sess(c.live, []), Sess(map[], c.Step(i, false, 0).out))
  {
    hide Presented, ResolveRetryInfo, Parsed, KeyringState.Ask;
    match i
    case AskKeyring(s, pid, m, actor, uuid) => KeyringAskIsQuiet(c.AsKeyring(), m, s, pid, actor, uuid);
    case AskPinentry(s, pid, m, actor, uuid) =>
      var p, id := c.AsPinentry(), OrElse(m.cookie, uuid);
      var counted := ResolveRetryInfo(p.retries, m.keyinfo, m.attempts);
      PresentedIsQuiet(p.sess, Parsed(m, id, s, pid), actor, counted.curRetry, counted.maxRetries, p.IsAwaiting(id),
                       id in p.flows && p.flows[id].reported);
  }

  lemma ResultIsQuiet(p: PinentryState, id: Id, verdict: Verdict, error: string, pid: Pid)
    ensures Quiet(p.sess, p.Result(id, verdict, error, pid).sess)
  {
    hide Quiet, PinentryState.CloseFlow, Sess.UpdateError;
    QuietOnce(p.sess);
    CloseFlowIsQuiet(p, id, Success, "");
    CloseFlowIsQuiet(p, id, Result.Cancelled, "");
    CloseFlowIsQuiet(p, id, Error, OrElse(error, Pinentry.AUTH_FAILED));
    SessionsAreQuiet(p.sess, id);
  }

  // ----- What polkit is told -----

  /** The id names a live polkit request that is neither a keyring request nor an open pinentry flow. */
  predicate UnderPolkit(c: Core, id: Id) {
    && id !in c.keyring && (id in c.flows ==> c.flows[id].phase.Retrying?)
    && id in c.live && c.live[id].source.Polkit? && id in c.attempts
  }

  /** One completion for each request, in the order given. */
  function Completions(attempts: map<Id, Attempt>, order: seq<Id>): seq<Effect> {
    if order == [] then []
    else
      var id := order[|order| - 1];
      Completions(attempts, order[..|order| - 1]) + if id in attempts then [Complete(attempts[id].token, "")] else []
  }

  ghost function PolkitIsTold(c: Core, i: Input, authorized: bool): seq<Effect> {
    match i
    case Respond(_, id, text) =>
      if authorized && UnderPolkit(c, id) then [HelperResponse(c.attempts[id].helper, text)] else []
    case Cancel(_, id) =>
      if authorized && UnderPolkit(c, id)
      then [CancelHelper(c.attempts[id].helper), Complete(c.attempts[id].token, "")] else []
    case PolkitBegin(id, token, identified, _, helper) =>
      if id in c.attempts then [Complete(token, "Duplicate session")]
      else if !identified
      then [Complete(token, "No identities, this is a problem with your system configuration.")]
      else [StartHelper(helper, id)]
    case PolkitCancelAll(order) => Completions(c.attempts, order)
    case HelperDone(h, gained, next) =>
      (match Whose(c.attempts, h)
       case None => []
       case Some(id) =>
         if !gained && c.attempts[id].retryCount < 2 then [StartHelper(next, id)]
         else [Complete(c.attempts[id].token, "")])
    case _ => []
  }

  // ----- What sockets are told by the session side -----

  ghost function SocketsAreTold(c: Core, i: Input, authorized: bool): seq<Effect> {
    match i
    case Report(s, pid, id, verdict, _) =>
      [Send(s, if id == "" then Failure("Missing id")
               else if id in c.flows && c.flows[id].owner != pid then Failure("Result sender does not own session")
               else if !(id in c.live && c.live[id].source.Pinentry?) then Failure("Unknown pinentry session")
               else if verdict.Unknown? then Failure("Invalid result type")
               else Ok(None))]
    case Respond(s, id, response) =>
      if !authorized then [Send(s, Failure("Not active UI provider"))]
      else if id in c.keyring then
        [Send(c.keyring[id].socket, KeyringReply(id, Password(response))), Send(s, Ok(None))]
      else if id in c.flows && c.flows[id].phase.Pending? then
        var r := c.flows[id].phase.request;
        [Send(r.socket, PinentryReply(id, if r.confirmOnly then Confirmed else Password(response))), Send(s, Ok(None))]
      else if KnownFlow(c, id) then [Send(s, Failure("Session is not accepting input"))]
      else if id !in c.live then [Send(s, Failure("Unknown session"))]
      else if c.live[id].source.Polkit? then [Send(s, Ok(None))]
      else [Send(s, Failure("Session is not awaiting direct response"))]
    case Cancel(s, id) =>
      if !authorized then [Send(s, Failure("Not active UI provider"))]
      else if id in c.keyring then [Send(c.keyring[id].socket, KeyringReply(id, Declined)), Send(s, Ok(None))]
      else if id in c.flows && c.flows[id].phase.Pending? then
        [Send(c.flows[id].phase.request.socket, PinentryReply(id, Declined)), Send(s, Ok(None))]
      else if KnownFlow(c, id) then [Send(s, Ok(None))]
      else if id !in c.live then [Send(s, Failure("Unknown session"))]
      else if c.live[id].source.Polkit? then [Send(s, Ok(None))]
      else [Send(s, Failure("Session is not cancellable from this path"))]
    case _ => []
  }

  /** An open flow, or a pinentry session. */
  predicate KnownFlow(c: Core, id: Id) {
    (id in c.flows && !c.flows[id].phase.Retrying?) || (id in c.live && c.live[id].source.Pinentry?)
  }

  ghost predicate Reacts(c: Core, i: Input, authorized: bool, now: int) {
    var out := c.Step(i, authorized, now).out;
    && Filter(out, ToPolkit) == PolkitIsTold(c, i, authorized)
    && Filter(out, ToSocket) == SocketsAreTold(c, i, authorized)
  }

  lemma QuietReacts(c: Core, out: seq<Effect>)
    requires Quiet(Sess(c.live, []), Sess(map[], out))
    ensures Filter(out, ToPolkit) == [] && Filter(out, ToSocket) == []
  {
    QuietTells(Sess(c.live, []), Sess(map[], out), ToPolkit);
    QuietTells(Sess(c.live, []), Sess(map[], out), ToSocket);
  }

  /** A quiet handler followed by messages. */
  lemma ThenReacts(c: Core, o: Outcome, more: seq<Effect>)
    requires Quiet(Sess(c.live, []), Sess(map[], o.out)) && forall k :: 0 <= k < |more| ==> more[k].Send?
    ensures Filter(o.Then(more).out, ToPolkit) == [] && Filter(o.Then(more).out, ToSocket) == more
  {
    QuietReacts(c, o.out);
    FilterAppend(o.out, more, ToPolkit);
    FilterAppend(o.out, more, ToSocket);
    NothingSelected(more, ToPolkit);
    AllSelected(more, ToSocket);
  }

  lemma {:induction false} AllSelected(a: seq<Effect>, keep: Effect -> bool)
    requires forall k :: 0 <= k < |a| ==> keep(a[k])
    ensures Filter(a, keep) == a
  {
    if a != [] {
      AllSelected(a[1..], keep);
    }
  }

  lemma RespondReacts(c: Core, s: Socket, id: Id, response: string, now: int)
    ensures Reacts(c, Respond(s, id, response), true, now)
  {
    hide Filter, Sess.Close, Submitted;
    var p, k := c.AsPinentry(), c.AsKeyring();
    var start := Sess(c.live, []);
    QuietOnce(start);
    SessionsAreQuiet(start, id);
    if id in c.keyring {
      ThenReacts(c, c.WithKeyring(k.Settle(id, Success)),
                 [Send(c.keyring[id].socket, KeyringReply(id, Password(response))), Send(s, Ok(None))]);
    } else if p.IsPending(id) {
      var r := c.flows[id].phase.request;
      ThenReacts(c, c.WithPinentry(p.Respond(id, now)),
                 [Send(r.socket, PinentryReply(id, AnswerTo(r, response))), Send(s, Ok(None))]);
    } else {
      DirectReacts(c, s, id, response, now);
    }
  }

  lemma DirectReacts(c: Core, s: Socket, id: Id, response: string, now: int)
    requires id !in c.keyring && !c.AsPinentry().IsPending(id)
    ensures Reacts(c, Respond(s, id, response), true, now)
  {
    hide Filter;
    if c.AsPinentry().Knows(id) || id !in c.live || !c.live[id].source.Polkit? {
      SaysReacts(c, s, Failure("Session is not accepting input"));
      SaysReacts(c, s, Failure("Unknown session"));
      SaysReacts(c, s, Failure("Session is not awaiting direct response"));
    } else {
      SaysReacts(c, s, Ok(None));
      if id in c.attempts {
        HandsOver(HelperResponse(c.attempts[id].helper, response), Send(s, Ok(None)));
      }
    }
  }

  lemma SaysReacts(c: Core, s: Socket, m: Message)
    ensures Filter([Send(s, m)], ToPolkit) == [] && Filter([Send(s, m)], ToSocket) == [Send(s, m)]
    ensures [] + [Send(s, m)] == [Send(s, m)]
  {
    OneSelected(Send(s, m), ToPolkit);
    OneSelected(Send(s, m), ToSocket);
  }

  lemma HandsOver(call: Effect, last: Effect)
    requires last.Send? && ToPolkit(call)
    ensures Filter(([] + [call]) + [last], ToPolkit) == [call] && Filter(([] + [call]) + [last], ToSocket) == [last]
  {
    hide Filter;
    var before: seq<Effect> := [] + [call];
    assert before == [call];
    FilterAppend(before, [last], ToPolkit);
    FilterAppend(before, [last], ToSocket);
    OneSelected(last, ToPolkit);
    OneSelected(last, ToSocket);
    OneSelected(call, ToPolkit);
    OneSelected(call, ToSocket);
  }

  /** What polkit and the sockets are told after more session handling. */
  lemma ConcludeReacts(p: PolkitState, id: Id, gained: bool)
    requires id in p.attempts
    ensures var out := p.Conclude(id, gained).sess.out;
            && Filter(out, ToPolkit) == Filter(p.sess.out, ToPolkit) + [Complete(p.attempts[id].token, "")]
            && Filter(out, ToSocket) == Filter(p.sess.out, ToSocket)
  {
    hide Filter, Sess.Finish;
    var done := Complete(p.attempts[id].token, "");
    PutTells(p.sess, done, ToPolkit);
    PutTells(p.sess, done, ToSocket);
    SessionsAreQuiet(p.sess.Put([done]), id);
    QuietTells(p.sess.Put([done]), p.sess.Put([done]).Finish(id, gained), ToPolkit);
    QuietTells(p.sess.Put([done]), p.sess.Put([done]).Finish(id, gained), ToSocket);
  }

  lemma CancelReacts(c: Core, s: Socket, id: Id, now: int)
    ensures Reacts(c, Cancel(s, id), true, now)
  {
    hide Filter, Sess.Close, PinentryState.CloseFlow, PolkitState.Conclude;
    var p, k := c.AsPinentry(), c.AsKeyring();
    var start := Sess(c.live, []);
    QuietOnce(start);
    SessionsAreQuiet(start, id);
    if id in c.keyring {
      ThenReacts(c, c.WithKeyring(k.Settle(id, Result.Cancelled)),
                 [Send(c.keyring[id].socket, KeyringReply(id, Declined)), Send(s, Ok(None))]);
    } else if p.Knows(id) {
      CloseFlowIsQuiet(p, id, Result.Cancelled, "");
      ThenReacts(c, c.WithPinentry(p.Cancel(id)),
                 if p.IsPending(id)
                 then [Send(c.flows[id].phase.request.socket, PinentryReply(id, Declined)), Send(s, Ok(None))]
                 else [Send(s, Ok(None))]);
    } else if id !in c.live || !c.live[id].source.Polkit? {
      SaysReacts(c, s, Failure("Unknown session"));
      SaysReacts(c, s, Failure("Session is not cancellable from this path"));
    } else {
      CancelPolkitReacts(c, s, id);
    }
  }

  lemma CancelPolkitReacts(c: Core, s: Socket, id: Id)
    ensures var out := c.WithPolkit(c.AsPolkit().CancelPending(id)).Then([Send(s, Ok(None))]).out;
            && Filter(out, ToSocket) == [Send(s, Ok(None))]
            && Filter(out, ToPolkit) ==
               if id in c.attempts then [CancelHelper(c.attempts[id].helper), Complete(c.attempts[id].token, "")]
                 else []
  {
    hide Filter, PolkitState.Conclude;
    var p := c.AsPolkit();
    SaysReacts(c, s, Ok(None));
    if id in c.attempts {
      var call := CancelHelper(c.attempts[id].helper);
      var called := p.(sess := p.sess.Put([call]));
      NothingSelected([], ToPolkit);
      NothingSelected([], ToSocket);
      PutTells(p.sess, call, ToPolkit);
      PutTells(p.sess, call, ToSocket);
      ConcludeReacts(called, id, false);
      var out := called.Conclude(id, false).sess.out;
      FilterAppend(out, [Send(s, Ok(None))], ToPolkit);
      FilterAppend(out, [Send(s, Ok(None))], ToSocket);
    }
  }

  lemma ReportReacts(c: Core, i: Input, authorized: bool, now: int)
    requires i.Report?
    ensures Reacts(c, i, authorized, now)
  {
    hide Filter, PinentryState.Result;
    var p := c.AsPinentry();
    ResultIsQuiet(p, i.id, i.verdict, i.error, i.pid);
    ThenReacts(c, c.WithPinentry(p.Result(i.id, i.verdict, i.error, i.pid)),
               [Send(i.socket, p.ResultReply(i.id, i.verdict, i.pid))]);
  }

  lemma DisconnectReacts(c: Core, i: Input, authorized: bool, now: int)
    requires i.Disconnected?
    ensures Reacts(c, i, authorized, now)
  {
    hide Filter, KeyringState.Cleanup, PinentryState.CloseAll;
    var k := c.WithKeyring(c.AsKeyring().Cleanup(i.socket, i.keyringOrder));
    var p := k.core.AsPinentry();
    var ids := p.ToClose(i.socket, i.pinentryOrder);
    KeyringCleanupIsQuiet(c.AsKeyring(), i.socket, i.keyringOrder);
    CloseAllIsQuiet(p, ids);
    QuietReacts(c, k.out);
    QuietReacts(k.core, p.CloseAll(ids).sess.out);
    FilterAppend(k.out, p.CloseAll(ids).sess.out, ToPolkit);
    FilterAppend(k.out, p.CloseAll(ids).sess.out, ToSocket);
  }

  lemma BeginReacts(c: Core, i: Input, authorized: bool, now: int)
    requires i.PolkitBegin?
    ensures Reacts(c, i, authorized, now)
  {
    hide Filter, Sess.Create;
    var start := Sess(c.live, []);
    var started := start.Create(i.id, Source.Polkit, i.context);
    NothingSelected([], ToPolkit);
    NothingSelected([], ToSocket);
    SessionsAreQuiet(start, i.id);
    QuietTells(start, started, ToPolkit);
    QuietTells(start, started, ToSocket);
    PutTells(started, StartHelper(i.helper, i.id), ToPolkit);
    PutTells(started, StartHelper(i.helper, i.id), ToSocket);
    forall text
      ensures Filter(start.Put([Complete(i.token, text)]).out, ToPolkit) == [Complete(i.token, text)]
      ensures Filter(start.Put([Complete(i.token, text)]).out, ToSocket) == []
    {
      PutTells(start, Complete(i.token, text), ToPolkit);
      PutTells(start, Complete(i.token, text), ToSocket);
    }
  }

  lemma DoneReacts(c: Core, i: Input, authorized: bool, now: int)
    requires i.HelperDone?
    ensures Reacts(c, i, authorized, now)
  {
    hide Filter, Sess.UpdateError, PolkitState.Conclude;
    var p := c.AsPolkit();
    NothingSelected([], ToPolkit);
    NothingSelected([], ToSocket);
    match Whose(c.attempts, i.sender)
    case None =>
    case Some(id) =>
      ConcludeReacts(p, id, true);
      var q := p.(sess := p.sess.UpdateError(id, PolkitAgent.AUTH_FAILED));
      UpdateTells(p.sess, id, PolkitAgent.AUTH_FAILED);
      PutTells(q.sess, StartHelper(i.next, id), ToPolkit);
      PutTells(q.sess, StartHelper(i.next, id), ToSocket);
      UpdateTells(q.sess, id, TOO_MANY);
      ConcludeReacts(q.(sess := q.sess.UpdateError(id, TOO_MANY)), id, false);
  }

  lemma UpdateTells(s: Sess, id: Id, text: string)
    ensures Filter(s.UpdateError(id, text).out, ToPolkit) == Filter(s.out, ToPolkit)
    ensures Filter(s.UpdateError(id, text).out, ToSocket) == Filter(s.out, ToSocket)
  {
    SessionsAreQuiet(s, id);
    QuietTells(s, s.UpdateError(id, text), ToPolkit);
    QuietTells(s, s.UpdateError(id, text), ToSocket);
  }

  lemma {:induction false} CancelAllReacts(p: PolkitState, order: seq<Id>)
    requires Distinct(order) && p.sess.out == []
    ensures var out := p.CancelAll(order).sess.out;
            Filter(out, ToPolkit) == Completions(p.attempts, order) && Filter(out, ToSocket) == []
    ensures p.CancelAll(order).attempts == p.attempts - (set id | id in order)
  {
    hide Filter, Sess.Finish;
    NothingSelected([], ToPolkit);
    NothingSelected([], ToSocket);
    if order != [] {
      var n := |order| - 1;
      CancelAllReacts(p, order[..n]);
      var q, id := p.CancelAll(order[..n]), order[n];
      assert order == order[..n] + [id];
      if id in q.attempts {
        ConcludeReacts(q, id, false);
      }
    }
  }

  lemma HelperReacts(c: Core, i: Input, authorized: bool, now: int)
    requires i.HelperPrompt? || i.HelperError? || i.HelperInfo?
    ensures Reacts(c, i, authorized, now)
  {
    hide Filter, Sess.UpdateError, Sess.UpdatePrompt, Sess.UpdateInfo;
    var start := Sess(c.live, []);
    QuietOnce(start);
    if Whose(c.attempts, i.sender).Some? {
      SessionsAreQuiet(start, Whose(c.attempts, i.sender).value);
    }
    QuietReacts(c, c.Step(i, authorized, now).out);
  }

  /** Every input tells polkit and the sockets exactly what is listed. */
  lemma ReactionsExact(c: Core, i: Input, authorized: bool, now: int)
    requires Fair(c, i)
    ensures Filter(c.Step(i, authorized, now).out, ToPolkit) == PolkitIsTold(c, i, authorized)
    ensures Filter(c.Step(i, authorized, now).out, ToSocket) == SocketsAreTold(c, i, authorized)
  {
    hide Filter, Core.Step, PolkitIsTold, SocketsAreTold;
    if FromUser(i) {
      UserReacts(c, i, authorized, now);
    } else if FromPolkit(i) {
      PolkitReacts(c, i, authorized, now);
    } else if i.Report? {
      ReportReacts(c, i, authorized, now);
    } else if i.Disconnected? {
      DisconnectReacts(c, i, authorized, now);
    } else {
      OtherReacts(c, i, authorized, now);
    }
  }

  lemma UserReacts(c: Core, i: Input, authorized: bool, now: int)
    requires FromUser(i)
    ensures Reacts(c, i, authorized, now)
  {
    hide Filter, PolkitIsTold, SocketsAreTold, Core.Responded, Core.Cancelled;
    if !authorized {
      RefusedReacts(c, i, now);
    } else if i.Respond? {
      RespondReacts(c, i.socket, i.id, i.response, now);
    } else {
      CancelReacts(c, i.socket, i.id, now);
    }
  }

  lemma RefusedReacts(c: Core, i: Input, now: int)
    requires FromUser(i)
    ensures Reacts(c, i, false, now)
  {
    hide Filter;
    SaysReacts(c, i.socket, Failure("Not active UI provider"));
  }

  lemma PolkitReacts(c: Core, i: Input, authorized: bool, now: int)
    requires Fair(c, i) && FromPolkit(i)
    ensures Reacts(c, i, authorized, now)
  {
    hide Filter, Reacts;
    if i.PolkitBegin? {
      BeginReacts(c, i, authorized, now);
    } else if i.PolkitCancelAll? {
      AllReacts(c, i, authorized, now);
    } else if i.HelperDone? {
      DoneReacts(c, i, authorized, now);
    } else {
      HelperReacts(c, i, authorized, now);
    }
  }

  lemma AllReacts(c: Core, i: Input, authorized: bool, now: int)
    requires Fair(c, i) && i.PolkitCancelAll?
    ensures Reacts(c, i, authorized, now)
  {
    hide Filter, PolkitState.CancelAll;
    CancelAllReacts(c.AsPolkit(), i.order);
  }

  lemma OtherReacts(c: Core, i: Input, authorized: bool, now: int)
    requires !FromUser(i) && !FromPolkit(i) && !i.Report? && !i.Disconnected?
    ensures Reacts(c, i, authorized, now)
  {
    hide Filter, PinentryState.CloseFlow, PinentryState.Ask, KeyringState.Ask;
    QuietOnce(Sess(c.live, []));
    if i.AskKeyring? || i.AskPinentry? {
      RequestsAreQuiet(c, i);
    } else if i.Timeout? {
      CloseFlowIsQuiet(c.AsPinentry(), i.id, Error, NO_RESULT);
    }
    QuietReacts(c, c.Step(i, authorized, now).out);
  }

  // ----- Answers of the user -----

  /** The input is an answer of a user interface that may answer, to a live polkit request whose current
      helper is `h`. */
  ghost predicate Types(d: System, i: Input, h: Helper, text: string) {
    && i.Respond? && i.response == text && d.routes.registry.Authorized(i.socket)
    && UnderPolkit(d.core, i.id) && d.core.attempts[i.id].helper == h
  }

  predicate IsPassword(e: Effect) {
    e.HelperResponse?
  }

  lemma {:induction false} FilterTwice(a: seq<Effect>)
    ensures Filter(Filter(a, ToPolkit), IsPassword) == Filter(a, IsPassword)
  {
    if a != [] {
      FilterTwice(a[1..]);
      FilterAppend([a[0]], Filter(a[1..], ToPolkit), IsPassword);
      OneSelected(a[0], IsPassword);
      assert Filter(a, IsPassword) == Filter([a[0]], IsPassword) + Filter(a[1..], IsPassword) by {
        FilterAppend([a[0]], a[1..], IsPassword);
        assert [a[0]] + a[1..] == a;
      }
    }
  }

  /** What one input makes the daemon hand to helpers: the text typed, to the helper of the request. */
  ghost function TypedBy(d: System, i: Input): seq<Effect> {
    if i.Respond? && d.routes.registry.Authorized(i.socket) && UnderPolkit(d.core, i.id)
    then [HelperResponse(d.core.attempts[i.id].helper, i.response)] else []
  }

  /** A helper is handed a password exactly when a user interface that may answer has typed that text for
      the live polkit request whose current helper it is, and then once. */
  lemma PasswordsExact(d: System, i: Input)
    requires d.Enabled(i)
    ensures forall h, text :: HelperResponse(h, text) in d.Outputs(i).out <==> Types(d, i, h, text)
    ensures Filter(d.Outputs(i).out, IsPassword) == TypedBy(d, i)
  {
    hide Filter, Core.Step, System.Enabled;
    var authorized := (i.Respond? || i.Cancel?) && d.routes.registry.Authorized(i.socket);
    var out := d.Outputs(i).out;
    EnabledIsFair(d, i);
    ReactionsExact(d.core, i, authorized, d.routes.now);
    FilterTwice(out);
    PasswordsTold(d, i, authorized);
    forall h, text
      ensures HelperResponse(h, text) in out <==> HelperResponse(h, text) in TypedBy(d, i)
    {
      Selected(out, HelperResponse(h, text), IsPassword);
    }
  }

  lemma Selected(a: seq<Effect>, e: Effect, keep: Effect -> bool)
    requires keep(e)
    ensures e in Filter(a, keep) <==> e in a
  {
  }

  lemma PasswordsTold(d: System, i: Input, authorized: bool)
    requires authorized == (FromUser(i) && d.routes.registry.Authorized(i.socket))
    ensures Filter(PolkitIsTold(d.core, i, authorized), IsPassword) == TypedBy(d, i)
  {
    hide Filter;
    NothingSelected([], IsPassword);
    if i.PolkitCancelAll? {
      CompletionsAreComplete(d.core.attempts, i.order);
      NothingSelected(Completions(d.core.attempts, i.order), IsPassword);
    } else if TypedBy(d, i) != [] {
      AllSelected(TypedBy(d, i), IsPassword);
    } else {
      NothingSelected(PolkitIsTold(d.core, i, authorized), IsPassword);
    }
  }

  lemma {:induction false} CompletionsAreComplete(attempts: map<Id, Attempt>, order: seq<Id>)
    ensures forall k :: 0 <= k < |Completions(attempts, order)| ==> Completions(attempts, order)[k].Complete?
  {
    if order != [] {
      CompletionsAreComplete(attempts, order[..|order| - 1]);
    }
  }

  ghost function TypedIn(d: System, run: seq<Input>): seq<Effect> {
    if run == [] then []
    else TypedIn(d, run[..|run| - 1]) + TypedBy(After(d, run[..|run| - 1]), run[|run| - 1])
  }

  ghost predicate TypedAtSomeStep(d: System, run: seq<Input>, h: Helper, text: string) {
    exists k :: 0 <= k < |run| && Types(Before(d, run, k), run[k], h, text)
  }

  lemma TypedEarlierOrNow(d: System, run: seq<Input>, h: Helper, text: string)
    requires run != []
    ensures var n := |run| - 1;
            TypedAtSomeStep(d, run, h, text) <==>
              TypedAtSomeStep(d, run[..n], h, text) || Types(Before(d, run, n), run[n], h, text)
  {
    hide Types, After;
    var n := |run| - 1;
    forall k | 0 <= k < n
      ensures run[..n][..k] == run[..k] && run[..n][k] == run[k]
    {
    }
    if k :| 0 <= k < n && Types(Before(d, run[..n], k), run[..n][k], h, text) {
      assert Types(Before(d, run, k), run[k], h, text);
    }
    if k :| 0 <= k < n && Types(Before(d, run, k), run[k], h, text) {
      assert Types(Before(d, run[..n], k), run[..n][k], h, text);
    }
  }

  /** In every run the passwords handed to helpers are, in order and one for one, the texts typed for the
      live polkit requests; each goes to the helper that was current when it was typed. */
  lemma {:induction false} PasswordsOverRuns(d: System, run: seq<Input>)
    requires Admissible(d, run)
    ensures Filter(Trace(d, run), IsPassword) == TypedIn(d, run)
    ensures forall h, text :: HelperResponse(h, text) in Trace(d, run) <==>
              exists k :: 0 <= k < |run| && Types(Before(d, run, k), run[k], h, text)
  {
    hide Filter, System.Enabled, System.Step, System.Outputs, Types, TypedBy, TypedAtSomeStep;
    if run == [] {
      NothingSelected([], IsPassword);
    } else {
      var rest, i := run[..|run| - 1], run[|run| - 1];
      PasswordsOverRuns(d, rest);
      PasswordsExact(After(d, rest), i);
      FilterAppend(Trace(d, rest), After(d, rest).Outputs(i).out, IsPassword);
    }
    forall h, text
      ensures HelperResponse(h, text) in Trace(d, run) <==> TypedAtSomeStep(d, run, h, text)
    {
      TypedInTrace(d, run, h, text);
    }
    TypedMeans(d, run);
  }

  lemma TypedMeans(d: System, run: seq<Input>)
    ensures forall h, text :: TypedAtSomeStep(d, run, h, text) <==>
              exists k :: 0 <= k < |run| && Types(Before(d, run, k), run[k], h, text)
  {
    hide Types, After;
  }

  lemma {:induction false} TypedInTrace(d: System, run: seq<Input>, h: Helper, text: string)
    requires Admissible(d, run)
    ensures HelperResponse(h, text) in Trace(d, run) <==> TypedAtSomeStep(d, run, h, text)
  {
    hide Filter, System.Enabled, System.Step, System.Outputs, Types, TypedAtSomeStep;
    if run == [] {
      TypedMeans(d, run);
    } else {
      TypedInTrace(d, run[..|run| - 1], h, text);
      TypedEarlierOrNow(d, run, h, text);
      PasswordsExact(After(d, run[..|run| - 1]), run[|run| - 1]);
    }
  }

  /** The answer, or the cancel, finds somebody to tell. */
  predicate Lands(c: Core, i: Input)
    requires FromUser(i)
  {
    || i.id in c.keyring
    || (if i.Respond? then i.id in c.flows && c.flows[i.id].phase.Pending? else i.id in c.flows)
    || i.id in c.attempts
  }

  /** Where ids are not shared between sources: who answers or cancels is told "ok" exactly if it may do
      so and there is a request to take it, and is otherwise refused, with no other effect at all. */
  lemma AllOrNothing(d: System, i: Input)
    requires FromUser(i) && Whole(d.core, i.id)
    ensures var ok := d.routes.registry.Authorized(i.socket) && Lands(d.core, i);
            && (ok ==> Send(i.socket, Ok(None)) in d.Outputs(i).out)
            && (!ok ==> exists text :: d.Outputs(i).out == [Send(i.socket, Failure(text))])
            && (!ok ==> d.Outputs(i).core == d.core)
  {
    hide Filter, Core.Step;
    var authorized := d.routes.registry.Authorized(i.socket);
    if authorized && Lands(d.core, i) {
      EverySendIsSelected(d, i);
    } else {
      RefusalIsAll(d.core, i, authorized, d.routes.now);
    }
  }

  lemma EverySendIsSelected(d: System, i: Input)
    requires FromUser(i) && Whole(d.core, i.id) && d.routes.registry.Authorized(i.socket) && Lands(d.core, i)
    ensures Send(i.socket, Ok(None)) in d.Outputs(i).out
  {
    hide Filter, Core.Step;
    ReactionsExact(d.core, i, true, d.routes.now);
    var told := SocketsAreTold(d.core, i, true);
    assert told[|told| - 1] == Send(i.socket, Ok(None));
    Selected(d.Outputs(i).out, Send(i.socket, Ok(None)), ToSocket);
  }

  lemma RefusalIsAll(c: Core, i: Input, authorized: bool, now: int)
    requires FromUser(i) && Whole(c, i.id) && !(authorized && Lands(c, i))
    ensures exists text :: c.Step(i, authorized, now).out == [Send(i.socket, Failure(text))]
    ensures c.Step(i, authorized, now).core == c
  {
    var out := c.Step(i, authorized, now).out;
    assert out == [Send(i.socket, Failure(out[0].message.text))];
  }
}
