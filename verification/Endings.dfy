/** Why sessions end: the exact causes of every result, and where success can come from. */
module Endings {
  import opened Basics
  import opened Messages
  import opened Routing
  import opened Pinentry
  import opened PolkitAgent
  import opened Daemon
  import opened Summaries
  import opened Invariants
  import opened Runs

  /** The result an input ends a session with, if it ends it. */
  ghost function EndedBy(c: Core, i: Input, authorized: bool, id: Id): Option<Result> {
    var p := c.AsPinentry();
    if id !in c.live then None
    else
      match i
      case Report(_, pid, named, verdict, _) =>
        if named != id || !p.AcceptsResult(id, pid) then None
        else (match verdict
              case Succeeded => Some(Success)
              case Withdrawn => Some(Cancelled)
              case Failed => Some(Error)
              case _ => None)
      case Respond(_, named, _) => if named == id && authorized && id in c.keyring then Some(Success) else None
      case Cancel(_, named) =>
        if named == id && authorized && (id in c.keyring || p.IsSession(id) ||
          (CancelsPolkit(c, id) && id in c.attempts))
        then Some(Cancelled) else None
      case Disconnected(s, _, _) =>
        if (id in c.keyring && c.keyring[id].socket == s) || (p.PendingFrom(id, s) && p.IsSession(id))
        then Some(Cancelled) else None
      case Timeout(named) => if named == id && p.IsAwaiting(id) && p.IsSession(id) then Some(Error) else None
      case PolkitCancelAll(_) => if id in c.attempts then Some(Cancelled) else None
      case HelperDone(h, gained, _) =>
        if Whose(c.attempts, h) != Some(id) then None
        else if gained then Some(Success)
        else if c.AsPolkit().MayRetry(id) then None
        else Some(Cancelled)
      case _ => None
  }

  lemma {:induction false} EndEachMarks(g: Gist, ids: seq<Id>, result: Result)
    ensures forall m :: m in g.EndEach(ids, result).marks <==>
              m in g.marks || (m.Ended? && m.result == result && m.id in ids && m.id in g.sources)
  {
    if ids != [] {
      var rest := ids[..|ids| - 1];
      EndEachMarks(g, rest, result);
      EndEachSources(g, rest, result);
      assert ids == rest + [ids[|ids| - 1]];
    }
  }

  lemma {:induction false} EndFlowsMarks(g: Gist, ids: seq<Id>, result: Result)
    ensures forall m :: m in g.EndFlows(ids, result).marks <==>
              m in g.marks || (m.Ended? && m.result == result && m.id in ids && g.Shows(m.id, Source.Pinentry))
  {
    if ids != [] {
      var rest := ids[..|ids| - 1];
      EndFlowsMarks(g, rest, result);
      EndFlowsSources(g, rest, result);
      assert ids == rest + [ids[|ids| - 1]];
    }
  }

  lemma {:induction false} ConcludeEachMarks(g: Gist, ids: seq<Id>, attempts: map<Id, Attempt>)
    requires forall id :: id in ids ==> id in attempts
    ensures forall m: Mark :: m.Ended? ==>
              (m in g.ConcludeEach(ids, attempts).marks <==>
                m in g.marks || (m.result == Cancelled && m.id in ids && m.id in g.sources))
  {
    if ids != [] {
      var rest := ids[..|ids| - 1];
      ConcludeEachMarks(g, rest, attempts);
      ConcludeEachSources(g, rest, attempts);
      assert ids == rest + [ids[|ids| - 1]];
    }
  }

  lemma AbandonedEndings(c: Core, s: Socket, ko: seq<Id>, po: seq<Id>, authorized: bool, id: Id, result: Result)
    requires Fair(c, Disconnected(s, ko, po))
    ensures Ended(id, result) in Doing(c, Disconnected(s, ko, po), authorized).marks <==>
            EndedBy(c, Disconnected(s, ko, po), authorized, id) == Some(result)
  {
    hide SourcesOf;
    LiveSources(c);
    var g, k := Gist(SourcesOf(c.live), []), KeyringFrom(c.keyring, s, ko);
    KeyringFromMembers(c.keyring, s, ko);
    ToCloseMembers(c.AsPinentry(), s, po);
    EndEachMarks(g, k, Cancelled);
    EndEachSources(g, k, Cancelled);
    EndFlowsMarks(g.EndEach(k, Cancelled), c.AsPinentry().ToClose(s, po), Cancelled);
  }

  lemma PolkitEndings(c: Core, i: Input, authorized: bool, id: Id, result: Result)
    requires Fair(c, i) && FromPolkit(i)
    ensures Ended(id, result) in Doing(c, i, authorized).marks <==> EndedBy(c, i, authorized, id) == Some(result)
  {
    hide SourcesOf;
    LiveSources(c);
    if i.PolkitCancelAll? {
      ConcludeEachMarks(Gist(SourcesOf(c.live), []), i.order, c.attempts);
    }
  }

  lemma OtherEndings(c: Core, i: Input, authorized: bool, id: Id, result: Result)
    requires !FromPolkit(i) && !i.Disconnected?
    ensures Ended(id, result) in Doing(c, i, authorized).marks <==> EndedBy(c, i, authorized, id) == Some(result)
  {
    hide SourcesOf, Parsed;
    LiveSources(c);
  }

  /** An input ends a session with a result exactly in the cases of EndedBy. */
  lemma EndingsExact(c: Core, i: Input, authorized: bool, now: int, id: Id, result: Result)
    requires Fair(c, i)
    ensures Ended(id, result) in Marks(c.Step(i, authorized, now).out) <==>
            EndedBy(c, i, authorized, id) == Some(result)
  {
    hide Core.Step, Doing, EndedBy, SourcesOf, Marks;
    StepGist(c, i, authorized, now);
    if i.Disconnected? {
      AbandonedEndings(c, i.socket, i.keyringOrder, i.pinentryOrder, authorized, id, result);
    } else if FromPolkit(i) {
      PolkitEndings(c, i, authorized, id, result);
    } else {
      OtherEndings(c, i, authorized, id, result);
    }
  }

  // ----- Success -----

  /** The three ways to success: the owning process of a pinentry flow reports it, the helper of a
      polkit request completes having gained authorisation, or the authorised provider answers a
      pending keyring request. */
  ghost predicate Granted(d: System, i: Input, id: Id) {
    && id in d.core.live
    && match i
       case Report(_, pid, named, verdict, _) =>
         named == id && id != "" && verdict.Succeeded? && d.core.live[id].source.Pinentry?
            && id in d.core.flows && d.core.flows[id].owner == pid
       case HelperDone(h, gained, _) => gained && id in d.core.attempts && d.core.attempts[id].helper == h
       case Respond(s, named, _) => named == id && id in d.core.keyring && d.routes.registry.Authorized(s)
       case _ => false
  }

  /** The marks that an input leaves. */
  ghost function MarksOf(d: System, i: Input): seq<Mark> {
    Marks(d.Outputs(i).out)
  }

  lemma SuccessProvenance(d: System, i: Input, id: Id)
    requires Sound(d) && d.Enabled(i)
    ensures Ended(id, Success) in MarksOf(d, i) <==> Granted(d, i, id)
  {
    hide System.Enabled, Core.Step, Marks;
    var authorized := (i.Respond? || i.Cancel?) && d.routes.registry.Authorized(i.socket);
    EnabledIsFair(d, i);
    EndingsExact(d.core, i, authorized, d.routes.now, id, Success);
    OneHelperEach(d.core.AsPolkit());
  }

  lemma OneHelperEach(p: PolkitState)
    requires p.Sound()
    ensures forall h, id :: id in p.attempts && p.attempts[id].helper == h ==> Whose(p.attempts, h) == Some(id)
  {
  }

  /** The marks of a whole run. */
  lemma {:induction false} RunMarks(d: System, run: seq<Input>)
    ensures run == [] ==> Marks(Trace(d, run)) == []
    ensures run != [] ==>
              Marks(Trace(d, run)) ==
              Marks(Trace(d, run[..|run| - 1])) + MarksOf(After(d, run[..|run| - 1]), run[|run| - 1])
  {
    hide Core.Step, MarkOf;
    if run != [] {
      MarksAppend(Trace(d, run[..|run| - 1]), After(d, run[..|run| - 1]).Outputs(run[|run| - 1]).out);
    }
  }

  /** In every run a session ends with success exactly when, at some step, it was granted in one of the
      three ways; timeouts, disconnects, cancels and used-up attempts never lead to it. */
  lemma {:induction false} SuccessIsGranted(d: System, run: seq<Input>, id: Id)
    requires Sound(d) && Admissible(d, run)
    ensures Ended(id, Success) in Marks(Trace(d, run)) <==>
            exists k :: 0 <= k < |run| && Granted(Before(d, run, k), run[k], id)
  {
    hide Sound, Marks, Granted, System.Enabled, System.Step, System.Outputs;
    RunMarks(d, run);
    if run != [] {
      var n := |run| - 1;
      var rest := run[..n];
      SuccessIsGranted(d, rest, id);
      RunKeepsSound(d, rest);
      SuccessProvenance(Before(d, run, n), run[n], id);
      forall k | 0 <= k < n
        ensures Before(d, rest, k) == Before(d, run, k) && rest[k] == run[k]
      {
        assert rest[..k] == run[..k];
      }
      assert Granted(Before(d, run, n), run[n], id) ==>
             exists k :: 0 <= k < |run| && Granted(Before(d, run, k), run[k], id);
      if k :| 0 <= k < n && Granted(Before(d, rest, k), rest[k], id) {
        assert Granted(Before(d, run, k), run[k], id);
      }
    }
  }

  /** A request of this id is pending from the socket. */
  predicate PendingAt(c: Core, id: Id, s: Socket) {
    (id in c.keyring && c.keyring[id].socket == s) || c.AsPinentry().PendingFrom(id, s)
  }

  /** A socket that goes away ends exactly the sessions that were pending from it, as cancelled, and
      every other session stays live; with an id taken over by another source, a keyring request ends
      whatever session has its id, a pinentry request only one of its own source. */
  lemma DisconnectEndsItsOwn(d: System, s: Socket, ko: seq<Id>, po: seq<Id>, id: Id)
    requires Sound(d) && d.Enabled(Disconnected(s, ko, po))
    ensures var i, c := Disconnected(s, ko, po), d.core;
            var ends := id in c.live && PendingAt(c, id, s)
                        && (c.live[id].source.Pinentry? || (id in c.keyring && c.keyring[id].socket == s));
            var c' := d.Step(i).core;
            && (Ended(id, Cancelled) in MarksOf(d, i) <==> ends)
            && (forall result :: Ended(id, result) in MarksOf(d, i) ==> result == Cancelled)
            && (id in c'.live <==> id in c.live && !ends)
            && !PendingAt(c', id, s)
            && (Whole(c, id) ==> (ends <==> PendingAt(c, id, s)))
  {
    hide System.Enabled, Core.Step, Marks, SourcesOf, System.Routed;
    var i := Disconnected(s, ko, po);
    EnabledIsFair(d, i);
    forall result
      ensures Ended(id, result) in MarksOf(d, i) <==> EndedBy(d.core, i, false, id) == Some(result)
    {
      EndingsExact(d.core, i, false, d.routes.now, id, result);
    }
    StepTables(d.core, i, false, d.routes.now);
    SourcesAfterStep(d.core, i, false, d.routes.now);
    LiveSources(d.core);
    LiveSources(d.Step(i).core);
  }

  lemma {:induction false} EffectsAddNoWaiters(r: Router, effects: seq<Effect>)
    requires r.Valid()
    ensures forall s :: s in r.ApplyAll(effects).queue.waiters ==> s in r.queue.waiters
  {
    hide Router.Valid, Router.Recheck, Router.Route;
    if effects != [] {
      var n := |effects| - 1;
      EffectsAddNoWaiters(r, effects[..n]);
      EffectsKeepValid(r, effects[..n]);
      var r' := r.ApplyAll(effects[..n]);
      match effects[n]
      case Emit(e) => RouteAddsNoWaiters(r', e);
      case Recheck => RecheckLeavesQueue(r');
      case _ =>
    }
  }

  lemma RouteAddsNoWaiters(r: Router, e: Event)
    requires r.Valid()
    ensures forall s :: s in r.Route(e).queue.waiters ==> s in r.queue.waiters
  {
    var (q, ds) := r.queue.Publish(QUEUE_CAPACITY, e);
    PostEachFrame(r, r.Targets(e), SessionEvent(e));
    DeliverFrame(r.PostEach(r.Targets(e), SessionEvent(e)).(queue := q), ds);
  }

  lemma RecheckLeavesQueue(r: Router)
    requires r.Valid()
    ensures r.Recheck().queue == r.queue
  {
    RecheckKeepsValid(r);
  }

  /** A socket that goes away is in no table of the daemon any more. */
  lemma DisconnectScrubs(d: System, s: Socket, ko: seq<Id>, po: seq<Id>)
    requires Sound(d) && d.Enabled(Disconnected(s, ko, po))
    ensures var d' := d.Step(Disconnected(s, ko, po));
            && s !in d'.routes.subscribers
            && s !in d'.routes.registry.providers && d'.routes.registry.active != Some(s)
            && s !in d'.routes.queue.waiters
            && (forall id :: id in d'.core.keyring ==> d'.core.keyring[id].socket != s)
            && (forall id :: id in d'.core.flows && d'.core.flows[id].phase.Pending? ==>
               d'.core.flows[id].phase.request.socket != s)
  {
    hide System.Enabled, Core.Step, SourcesOf, Router.Leave, Router.ApplyAll;
    var i := Disconnected(s, ko, po);
    EnabledIsFair(d, i);
    StepTables(d.core, i, false, d.routes.now);
    LeaveScrubs(d.routes, s);
    EffectsKeepValid(d.routes.Leave(s), d.Outputs(i).out);
    EffectsAddNoWaiters(d.routes.Leave(s), d.Outputs(i).out);
  }
}
