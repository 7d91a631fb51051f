/** When the provider is elected anew because of a session, and who therefore hears of its end. */
module Reelections {
  import opened Basics
  import opened Messages
  import opened Sessions
  import opened Keyring
  import opened Pinentry
  import opened PolkitAgent
  import opened Daemon
  import opened Invariants
  import opened Reactions

  predicate IsRecheck(e: Effect) {
    e.Recheck?
  }

  predicate Ends(e: Effect) {
    e.Emit? && e.event.Closed?
  }

  /** Every re-election is put out right before an end. */
  predicate BeforeEnds(out: seq<Effect>) {
    forall k :: 0 <= k < |out| && out[k].Recheck? ==> k + 1 < |out| && Ends(out[k + 1])
  }

  /** Every re-election is put out right after an end. */
  predicate AfterEnds(out: seq<Effect>) {
    forall k :: 0 <= k < |out| && out[k].Recheck? ==> k > 0 && Ends(out[k - 1])
  }

  /** From `s` to `s'` somebody is elected anew exactly if the last session goes. */
  predicate Elects(s: Sess, s': Sess) {
    Filter(s'.out, IsRecheck) ==
      Filter(s.out, IsRecheck) + if s.live != map[] && s'.live == map[] then [Effect.Recheck] else []
  }

  lemma Appended(s: Sess, e: Effect)
    ensures Filter(s.out + [e], IsRecheck) == Filter(s.out, IsRecheck) + if e.Recheck? then [e] else []
    ensures BeforeEnds(s.out) && !e.Recheck? ==> BeforeEnds(s.out + [e])
    ensures BeforeEnds(s.out) && Ends(e) ==> BeforeEnds(s.out + [Effect.Recheck] + [e])
    ensures AfterEnds(s.out) && !e.Recheck? ==> AfterEnds(s.out + [e])
    ensures AfterEnds(s.out) && Ends(e) ==> AfterEnds(s.out + [e] + [Effect.Recheck])
  {
    FilterAppend(s.out, [e], IsRecheck);
    OneSelected(e, IsRecheck);
  }

  /** Nothing ends: no re-election. */
  lemma UpdatesElectNobody(s: Sess, id: Id)
    ensures forall prompt, echo, clear :: Calmly(s, s.UpdatePrompt(id, prompt, echo, clear))
    ensures forall text :: Calmly(s, s.UpdateError(id, text)) && Calmly(s, s.UpdateInfo(id, text))
    ensures forall cur, max :: Calmly(s, s.UpdateRetry(id, cur, max))
    ensures forall source, context :: Unmoved(s, s.Create(id, source, context))
    ensures forall e: Effect :: !e.Recheck? ==> Calmly(s, s.Put([e]))
  {
    hide Filter, BeforeEnds, AfterEnds;
    forall e: Effect | !e.Recheck?
      ensures Unmoved(s, s.Put([e]))
    {
      Appended(s, e);
    }
    if id in s.live {
      forall d: SessionData
        ensures Unmoved(s, s.Set(id, d))
      {
        Appended(s, Emit(UpdatedEvent(id, d)));
      }
    }
    forall source, context
      ensures Unmoved(s, s.Create(id, source, context))
    {
      Appended(s, Emit(CreatedEvent(id, SessionData(source, context, "", false, "", ""))));
    }
  }

  /** No re-election has been put out in between. */
  predicate Unmoved(s: Sess, s': Sess) {
    && Filter(s'.out, IsRecheck) == Filter(s.out, IsRecheck)
    && (BeforeEnds(s.out) ==> BeforeEnds(s'.out)) && (AfterEnds(s.out) ==> AfterEnds(s'.out))
  }

  /** ... and no session has come or gone. */
  predicate Calmly(s: Sess, s': Sess) {
    Unmoved(s, s') && s'.live.Keys == s.live.Keys
  }

  lemma KeysDecide(a: Live, b: Live)
    requires a.Keys == b.Keys
    ensures a == map[] <==> b == map[]
  {
  }

  lemma CloseElects(s: Sess, id: Id, result: Result)
    ensures Elects(s, s.Close(id, result)) && (BeforeEnds(s.out) ==> BeforeEnds(s.Close(id, result).out))
  {
    hide Filter, BeforeEnds;
    if id in s.live {
      var e := Emit(ClosedEvent(id, s.live[id], result));
      Appended(s, e);
      Appended(s, Effect.Recheck);
      Appended(s.Put([Effect.Recheck]), e);
    }
  }

  lemma FinishElects(s: Sess, id: Id, success: bool)
    ensures Elects(s, s.Finish(id, success)) && (AfterEnds(s.out) ==> AfterEnds(s.Finish(id, success).out))
  {
    hide Filter, AfterEnds;
    if id in s.live {
      var e := Emit(ClosedEvent(id, s.live[id], if success then Success else Cancelled));
      Appended(s, e);
      Appended(s.Put([e]), Effect.Recheck);
    }
  }

  /** Sessions only go. */
  predicate Shrinks(s: Sess, s': Sess) {
    s'.live.Keys <= s.live.Keys
  }

  lemma ElectsOn(a: Sess, b: Sess, c: Sess)
    requires Elects(a, b) && Elects(b, c) && Shrinks(a, b) && Shrinks(b, c)
    ensures Elects(a, c) && Shrinks(a, c)
  {
    hide Filter;
    assert b.live == map[] ==> c.live.Keys == {};
    assert a.live == map[] ==> b.live.Keys == {};
  }

  lemma CalmElects(a: Sess, b: Sess)
    requires Calmly(a, b)
    ensures Elects(a, b) && Shrinks(a, b)
  {
    hide Filter, BeforeEnds, AfterEnds;
    KeysDecide(a.live, b.live);
  }

  // ----- Managers: the election comes first -----

  predicate ElectsFirst(s: Sess, s': Sess) {
    Elects(s, s') && Shrinks(s, s') && (BeforeEnds(s.out) ==> BeforeEnds(s'.out))
  }

  lemma FirstOn(a: Sess, b: Sess, c: Sess)
    requires ElectsFirst(a, b) && ElectsFirst(b, c)
    ensures ElectsFirst(a, c)
  {
    hide Elects, Shrinks, BeforeEnds;
    ElectsOn(a, b, c);
  }

  lemma CloseFirst(s: Sess, id: Id, result: Result)
    ensures ElectsFirst(s, s.Close(id, result)) && ElectsFirst(s, s)
  {
    hide Elects, BeforeEnds;
    CloseElects(s, id, result);
    NothingElects(s);
  }

  lemma NothingElects(s: Sess)
    ensures Elects(s, s)
  {
  }

  lemma UpdateFirst(s: Sess, id: Id, text: string)
    ensures ElectsFirst(s, s.UpdateError(id, text))
  {
    hide Elects, BeforeEnds, AfterEnds, Filter;
    UpdatesElectNobody(s, id);
    CalmElects(s, s.UpdateError(id, text));
  }

  lemma CloseFlowFirst(p: PinentryState, id: Id, result: Result, error: string)
    ensures ElectsFirst(p.sess, p.CloseFlow(id, result, error).sess)
  {
    hide ElectsFirst, Sess.Close, Sess.UpdateError;
    var failed := if error != "" then p.sess.UpdateError(id, error) else p.sess;
    CloseFirst(p.sess, id, result);
    UpdateFirst(p.sess, id, error);
    CloseFirst(failed, id, result);
    FirstOn(p.sess, failed, failed.Close(id, result));
  }

  lemma {:induction false} CloseAllFirst(p: PinentryState, ids: seq<Id>)
    ensures ElectsFirst(p.sess, p.CloseAll(ids).sess)
  {
    hide ElectsFirst, PinentryState.CloseFlow;
    CloseFirst(p.sess, "", Success);
    if ids != [] {
      var q := p.CloseAll(ids[..|ids| - 1]);
      CloseAllFirst(p, ids[..|ids| - 1]);
      CloseFlowFirst(q, ids[|ids| - 1], Cancelled, DISCONNECTED);
      FirstOn(p.sess, q.sess, p.CloseAll(ids).sess);
    }
  }

  lemma {:induction false} KeyringCleanupFirst(k: KeyringState, s: Socket, order: seq<Id>)
    ensures ElectsFirst(k.sess, k.Cleanup(s, order).sess)
  {
    hide ElectsFirst, Sess.Close;
    CloseFirst(k.sess, "", Success);
    if order != [] {
      var q, id := k.Cleanup(s, order[..|order| - 1]), order[|order| - 1];
      KeyringCleanupFirst(k, s, order[..|order| - 1]);
      CloseFirst(q.sess, id, Cancelled);
      FirstOn(k.sess, q.sess, k.Cleanup(s, order).sess);
    }
  }

  // ----- Polkit: the end comes first -----

  predicate ElectsLast(s: Sess, s': Sess) {
    Elects(s, s') && Shrinks(s, s') && (AfterEnds(s.out) ==> AfterEnds(s'.out))
  }

  lemma LastOn(a: Sess, b: Sess, c: Sess)
    requires ElectsLast(a, b) && ElectsLast(b, c)
    ensures ElectsLast(a, c)
  {
    hide Elects, Shrinks, AfterEnds;
    ElectsOn(a, b, c);
  }

  lemma CalmLast(s: Sess, id: Id)
    ensures ElectsLast(s, s)
    ensures forall prompt, echo, clear :: ElectsLast(s, s.UpdatePrompt(id, prompt, echo, clear))
    ensures forall text :: ElectsLast(s, s.UpdateError(id, text)) && ElectsLast(s, s.UpdateInfo(id, text))
    ensures forall e: Effect :: !e.Recheck? ==> ElectsLast(s, s.Put([e]))
  {
    hide Elects, BeforeEnds, AfterEnds, Filter, Sess.UpdatePrompt, Sess.UpdateError, Sess.UpdateInfo;
    NothingElects(s);
    UpdatesElectNobody(s, id);
    forall s': Sess | Calmly(s, s')
      ensures ElectsLast(s, s')
    {
      CalmElects(s, s');
    }
  }

  lemma ConcludeLast(p: PolkitState, id: Id, gained: bool)
    requires id in p.attempts
    ensures ElectsLast(p.sess, p.Conclude(id, gained).sess)
  {
    hide ElectsLast, Sess.Finish;
    var done := Complete(p.attempts[id].token, "");
    CalmLast(p.sess, id);
    assert p.sess.Put([done]).Finish(id, gained) == p.Conclude(id, gained).sess;
    FinishLast(p.sess.Put([done]), id, gained);
    LastOn(p.sess, p.sess.Put([done]), p.Conclude(id, gained).sess);
  }

  lemma FinishLast(s: Sess, id: Id, success: bool)
    ensures ElectsLast(s, s.Finish(id, success))
  {
    hide Elects, AfterEnds;
    FinishElects(s, id, success);
  }

  lemma {:induction false} CancelAllLast(p: PolkitState, order: seq<Id>)
    ensures ElectsLast(p.sess, p.CancelAll(order).sess)
  {
    hide ElectsLast, PolkitState.Conclude;
    CalmLast(p.sess, "");
    if order != [] {
      var q, id := p.CancelAll(order[..|order| - 1]), order[|order| - 1];
      CancelAllLast(p, order[..|order| - 1]);
      if id in q.attempts {
        ConcludeLast(q, id, false);
        LastOn(p.sess, q.sess, p.CancelAll(order).sess);
      }
    }
  }

  lemma HelperDoneLast(p: PolkitState, h: Helper, gained: bool, next: Helper)
    ensures ElectsLast(p.sess, p.HelperDone(h, gained, next).sess)
  {
    hide ElectsLast, PolkitState.Conclude, Sess.UpdateError;
    match Whose(p.attempts, h)
    case None => CalmLast(p.sess, "");
    case Some(id) =>
      var q := p.(sess := p.sess.UpdateError(id, PolkitAgent.AUTH_FAILED));
      var q' := q.(sess := q.sess.UpdateError(id, TOO_MANY));
      ConcludeLast(p, id, true);
      CalmLast(p.sess, id);
      CalmLast(q.sess, id);
      LastOn(p.sess, q.sess, q.sess.Put([StartHelper(next, id)]));
      ConcludeLast(q', id, false);
      LastOn(p.sess, q.sess, q'.sess);
      LastOn(p.sess, q'.sess, q'.Conclude(id, false).sess);
  }

  // ----- Steps -----

  /** Polkit ends the session: its own signals, or a cancel that reaches it. */
  ghost predicate ByPolkit(c: Core, i: Input) {
    FromPolkit(i) || (i.Cancel? && UnderPolkit(c, i.id))
  }

  ghost predicate Arranged(c: Core, i: Input, authorized: bool, now: int) {
    var o := c.Step(i, authorized, now);
    && Filter(o.out, IsRecheck) == (if c.live != map[] && o.core.live == map[] then [Effect.Recheck] else [])
    && if ByPolkit(c, i) then AfterEnds(o.out) else BeforeEnds(o.out)
  }

  lemma FirstArranges(c: Core, o: Outcome, more: seq<Effect>)
    requires ElectsFirst(Sess(c.live, []), Sess(o.core.live, o.out)) && NoneOf(more)
    ensures var o' := o.Then(more);
            && Filter(o'.out, IsRecheck) == (if c.live != map[] && o.core.live == map[] then [Effect.Recheck] else [])
            && BeforeEnds(o'.out) && BeforeEnds(o.out)
            && Filter(o.out, IsRecheck) == Filter(o'.out, IsRecheck)
  {
    hide Filter;
    NothingSelected([], IsRecheck);
    FilterAppend(o.out, more, IsRecheck);
    NothingSelected(more, IsRecheck);
  }

  predicate NoneOf(more: seq<Effect>) {
    forall k :: 0 <= k < |more| ==> !more[k].Recheck?
  }

  lemma LastArranges(c: Core, o: Outcome, more: seq<Effect>)
    requires ElectsLast(Sess(c.live, []), Sess(o.core.live, o.out)) && NoneOf(more)
    ensures var o' := o.Then(more);
            && Filter(o'.out, IsRecheck) == (if c.live != map[] && o.core.live == map[] then [Effect.Recheck] else [])
            && AfterEnds(o'.out) && AfterEnds(o.out)
            && Filter(o.out, IsRecheck) == Filter(o'.out, IsRecheck)
  {
    hide Filter;
    NothingSelected([], IsRecheck);
    FilterAppend(o.out, more, IsRecheck);
    NothingSelected(more, IsRecheck);
  }

  lemma RespondArranged(c: Core, s: Socket, id: Id, response: string, now: int)
    ensures Arranged(c, Respond(s, id, response), true, now)
  {
    hide ElectsFirst, BeforeEnds, Filter, Sess.Close;
    if id in c.keyring {
      CloseFirst(Sess(c.live, []), id, Success);
      FirstArranges(c, c.WithKeyring(c.AsKeyring().Settle(id, Success)),
                    [Send(c.keyring[id].socket, KeyringReply(id, Password(response))), Send(s, Ok(None))]);
    } else {
      SettledElsewhere(c, s, id, response, now);
      QuietlyArranged(c.Step(Respond(s, id, response), true, now).out);
    }
  }

  lemma SettledElsewhere(c: Core, s: Socket, id: Id, response: string, now: int)
    requires id !in c.keyring
    ensures var o := c.Step(Respond(s, id, response), true, now); NoneOf(o.out) && o.core.live == c.live
  {
    hide Submitted, AnswerTo;
  }

  lemma QuietlyArranged(out: seq<Effect>)
    requires NoneOf(out)
    ensures Filter(out, IsRecheck) == [] && BeforeEnds(out)
  {
    NothingSelected(out, IsRecheck);
  }

  lemma CancelArranged(c: Core, s: Socket, id: Id, now: int)
    ensures Arranged(c, Cancel(s, id), true, now)
  {
    hide ElectsFirst, ElectsLast, BeforeEnds, AfterEnds, Filter, Sess.Close, PinentryState.CloseFlow;
    hide PolkitState.Conclude;
    var p := c.AsPinentry();
    if id in c.keyring {
      CloseFirst(Sess(c.live, []), id, Result.Cancelled);
      FirstArranges(c, c.WithKeyring(c.AsKeyring().Settle(id, Result.Cancelled)),
                    [Send(c.keyring[id].socket, KeyringReply(id, Declined)), Send(s, Ok(None))]);
    } else if p.Knows(id) {
      CloseFlowFirst(p, id, Result.Cancelled, "");
      FirstArranges(c, c.WithPinentry(p.Cancel(id)),
                    if p.IsPending(id)
                    then [Send(c.flows[id].phase.request.socket, PinentryReply(id, Declined)), Send(s, Ok(None))]
                    else [Send(s, Ok(None))]);
    } else if id !in c.live || !c.live[id].source.Polkit? || id !in c.attempts {
      var o := c.Step(Cancel(s, id), true, now);
      assert NoneOf(o.out) && o.core.live == c.live;
      QuietlyArranged(o.out);
    } else {
      CancelPolkitArranged(c, s, id);
    }
  }

  lemma CancelPolkitArranged(c: Core, s: Socket, id: Id)
    requires id in c.attempts
    ensures var o := c.WithPolkit(c.AsPolkit().CancelPending(id)).Then([Send(s, Ok(None))]);
            && Filter(o.out, IsRecheck) == (if c.live != map[] && o.core.live == map[] then [Effect.Recheck] else [])
            && AfterEnds(o.out)
  {
    hide ElectsLast, AfterEnds, Filter, PolkitState.Conclude;
    var p := c.AsPolkit();
    var call := CancelHelper(c.attempts[id].helper);
    var called := p.(sess := p.sess.Put([call]));
    CalmLast(p.sess, id);
    ConcludeLast(called, id, false);
    LastOn(p.sess, called.sess, called.Conclude(id, false).sess);
    LastArranges(c, c.WithPolkit(p.CancelPending(id)), [Send(s, Ok(None))]);
  }

  lemma RequesterArranged(c: Core, i: Input, authorized: bool, now: int)
    requires i.Report? || i.Timeout? || i.Disconnected?
    ensures Arranged(c, i, authorized, now)
  {
    hide ElectsFirst, BeforeEnds, Filter, PinentryState.CloseFlow, Sess.UpdateError, KeyringState.Cleanup;
    hide PinentryState.CloseAll;
    var p := c.AsPinentry();
    CloseFirst(p.sess, "", Success);
    if i.Report? {
      CloseFlowFirst(p, i.id, Success, "");
      CloseFlowFirst(p, i.id, Result.Cancelled, "");
      CloseFlowFirst(p, i.id, Error, OrElse(i.error, Pinentry.AUTH_FAILED));
      UpdateFirst(p.sess, i.id, OrElse(i.error, Pinentry.AUTH_FAILED));
      FirstArranges(c, c.WithPinentry(p.Result(i.id, i.verdict, i.error, i.pid)),
                    [Send(i.socket, p.ResultReply(i.id, i.verdict, i.pid))]);
    } else if i.Timeout? {
      CloseFlowFirst(p, i.id, Error, NO_RESULT);
      FirstArranges(c, c.Step(i, authorized, now), []);
    } else {
      DisconnectArranged(c, i, authorized, now);
    }
  }

  lemma DisconnectArranged(c: Core, i: Input, authorized: bool, now: int)
    requires i.Disconnected?
    ensures Arranged(c, i, authorized, now)
  {
    hide ElectsFirst, BeforeEnds, Filter, KeyringState.Cleanup, PinentryState.CloseAll;
    var start := Sess(c.live, []);
    var k := c.WithKeyring(c.AsKeyring().Cleanup(i.socket, i.keyringOrder));
    var q := k.core.AsPinentry();
    var ids := q.ToClose(i.socket, i.pinentryOrder);
    KeyringCleanupFirst(c.AsKeyring(), i.socket, i.keyringOrder);
    CloseAllFirst(q, ids);
    Shifted(Sess(k.core.live, []), q.CloseAll(ids).sess, k.out);
    FirstOn(start, Sess(k.core.live, k.out), Sess(q.CloseAll(ids).sess.live, k.out + q.CloseAll(ids).sess.out));
    FirstArranges(c, c.Step(i, authorized, now), []);
  }

  /** The same after other outputs. */
  lemma Shifted(s: Sess, s': Sess, before: seq<Effect>)
    requires ElectsFirst(s, s') && s.out == []
    ensures ElectsFirst(Sess(s.live, before), Sess(s'.live, before + s'.out))
  {
    hide Filter;
    NothingSelected([], IsRecheck);
    FilterAppend(before, s'.out, IsRecheck);
  }

  lemma PolkitArranged(c: Core, i: Input, authorized: bool, now: int)
    requires FromPolkit(i)
    ensures Arranged(c, i, authorized, now)
  {
    hide ElectsLast, AfterEnds, Filter, PolkitState.CancelAll, PolkitState.HelperDone, PolkitState.Begin;
    hide Sess.UpdateError, Sess.UpdatePrompt, Sess.UpdateInfo;
    var p := c.AsPolkit();
    CalmLast(p.sess, "");
    if i.PolkitBegin? {
      BeginArranged(c, i, authorized, now);
    } else if i.PolkitCancelAll? {
      CancelAllLast(p, i.order);
      LastArranges(c, c.Step(i, authorized, now), []);
    } else if i.HelperDone? {
      HelperDoneLast(p, i.sender, i.gained, i.next);
      LastArranges(c, c.Step(i, authorized, now), []);
    } else {
      if Whose(c.attempts, i.sender).Some? {
        CalmLast(p.sess, Whose(c.attempts, i.sender).value);
      }
      LastArranges(c, c.Step(i, authorized, now), []);
    }
  }

  lemma BeginArranged(c: Core, i: Input, authorized: bool, now: int)
    requires i.PolkitBegin?
    ensures Arranged(c, i, authorized, now)
  {
    hide Filter, Sess.Create, AfterEnds, BeforeEnds;
    var start := Sess(c.live, []);
    NothingSelected([], IsRecheck);
    assert AfterEnds([]) by {
      NoEffects();
    }
    UpdatesElectNobody(start, i.id);
    var created := start.Create(i.id, Source.Polkit, i.context);
    UpdatesElectNobody(created, i.id);
    CreatedIsLive(start, i.id, Source.Polkit, i.context);
  }

  lemma NoEffects()
    ensures AfterEnds([]) && BeforeEnds([])
  {
  }

  lemma CreatedIsLive(s: Sess, id: Id, source: Source, context: Context)
    ensures id in s.Create(id, source, context).live
  {
  }

  lemma AskArranged(c: Core, i: Input, authorized: bool, now: int)
    requires i.AskKeyring? || i.AskPinentry?
    ensures Arranged(c, i, authorized, now)
  {
    hide Filter, AfterEnds, BeforeEnds, Presented, KeyringState.Ask, ResolveRetryInfo, Parsed;
    NothingSelected([], IsRecheck);
    NoEffects();
    match i
    case AskKeyring(s, pid, m, actor, uuid) => KeyringAskUnmoved(c.AsKeyring(), m, s, pid, actor, uuid);
    case AskPinentry(s, pid, m, actor, uuid) =>
      var p, id := c.AsPinentry(), OrElse(m.cookie, uuid);
      var counted := ResolveRetryInfo(p.retries, m.keyinfo, m.attempts);
      PresentedUnmoved(p.sess, Parsed(m, id, s, pid), actor, counted.curRetry, counted.maxRetries, p.IsAwaiting(id),
                       id in p.flows && p.flows[id].reported);
      ParsedCookie(m, id, s, pid);
  }

  lemma ParsedCookie(m: PinentryMessage, id: Id, s: Socket, pid: Pid)
    ensures Parsed(m, id, s, pid).cookie == id
  {
  }

  lemma SameIsUnmoved(s: Sess)
    ensures Unmoved(s, s)
  {
  }

  lemma UnmovedOn(a: Sess, b: Sess, c: Sess)
    requires Unmoved(a, b) && Unmoved(b, c)
    ensures Unmoved(a, c)
  {
    hide Filter, BeforeEnds, AfterEnds;
  }

  lemma KeyringAskUnmoved(k: KeyringState, m: KeyringMessage, s: Socket, pid: Pid, actor: Requestor, uuid: Id)
    ensures Unmoved(k.sess, k.Ask(m, s, pid, actor, uuid).sess) && k.Ask(m, s, pid, actor, uuid).sess.live != map[]
  {
    hide Filter, BeforeEnds, AfterEnds, Sess.Create, Sess.UpdatePrompt;
    var id := IdOf(m.cookie, uuid);
    var r := RequestOf(m, id, s, pid);
    var created := k.sess.Create(id, Source.Keyring, Keyring.ContextOf(r, actor));
    CreatedIsLive(k.sess, id, Source.Keyring, Keyring.ContextOf(r, actor));
    UpdatesElectNobody(k.sess, id);
    UpdatesElectNobody(created, id);
    UnmovedOn(k.sess, created, created.UpdatePrompt(id, r.message, false, true));
    assert id in created.UpdatePrompt(id, r.message, false, true).live.Keys;
  }

  lemma PresentedUnmoved(s: Sess, r: PinentryRequest, actor: Requestor, cur: int, max: int, was: bool, reported: bool)
    ensures Unmoved(s, Presented(s, r, actor, cur, max, was, reported))
    ensures r.cookie in Presented(s, r, actor, cur, max, was, reported).live
  {
    hide Filter, BeforeEnds, AfterEnds, Sess.Create, Sess.UpdatePrompt, Sess.UpdateError, Sess.UpdateRetry, Unmoved;
    var id := r.cookie;
    var context := Pinentry.ContextOf(r, actor, cur, max);
    var s1 := if was then s.UpdateError(id, OrElse(r.error, Pinentry.AUTH_FAILED)) else s;
    var s2 := if id in s.live then s1.UpdateRetry(id, cur, max) else s1.Create(id, Source.Pinentry, context);
    var s3 := s2.UpdatePrompt(id, r.prompt, false, false);
    UpdatesElectNobody(s, id);
    UpdatesElectNobody(s1, id);
    UpdatesElectNobody(s2, id);
    UpdatesElectNobody(s3, id);
    assert Unmoved(s, s) by {
      SameIsUnmoved(s);
    }
    CreatedIsLive(s1, id, Source.Pinentry, context);
    UnmovedOn(s, s1, s2);
    UnmovedOn(s, s2, s3);
    UnmovedOn(s, s3, s3.UpdateError(id, r.error));
  }

  /** Somebody is elected anew because of an input's sessions exactly when the last session goes, and then
      once. Where the keyring or pinentry ends it, the election comes first, so that the end is announced to
      the new provider; where polkit does, the end comes first, and the old provider hears of it. */
  lemma ReelectionsExact(c: Core, i: Input, authorized: bool, now: int)
    ensures var o := c.Step(i, authorized, now);
            && Filter(o.out, IsRecheck) == (if c.live != map[] && o.core.live == map[] then [Effect.Recheck] else [])
            && if FromPolkit(i) || (i.Cancel? && UnderPolkit(c, i.id)) then AfterEnds(o.out) else BeforeEnds(o.out)
  {
    hide Filter, AfterEnds, BeforeEnds, Core.Step;
    if FromUser(i) {
      UserArranged(c, i, authorized, now);
    } else if FromPolkit(i) {
      PolkitArranged(c, i, authorized, now);
    } else if i.AskKeyring? || i.AskPinentry? {
      AskArranged(c, i, authorized, now);
    } else if i.Report? || i.Timeout? || i.Disconnected? {
      RequesterArranged(c, i, authorized, now);
    } else {
      NothingArranged(c, i, authorized, now);
    }
  }

  lemma NothingArranged(c: Core, i: Input, authorized: bool, now: int)
    requires !FromUser(i) && !FromPolkit(i) && !FromRequester(i)
    ensures Arranged(c, i, authorized, now)
  {
  }

  lemma UserArranged(c: Core, i: Input, authorized: bool, now: int)
    requires FromUser(i)
    ensures Arranged(c, i, authorized, now)
  {
    hide Filter, Core.Responded, Core.Cancelled;
    if !authorized {
      OneSelected(Send(i.socket, Failure(NOT_ACTIVE)), IsRecheck);
    } else if i.Respond? {
      RespondArranged(c, i.socket, i.id, i.response, now);
    } else {
      CancelArranged(c, i.socket, i.id, now);
    }
  }
}
