/** The retry counters that a pinentry request is shown with, over whole runs: they are read off the
    descriptions, and remembered per key until a flow with that key ends. */
module RetryCounts {
  import opened Basics
  import opened Messages
  import opened Sessions
  import opened Keyring
  import opened Pinentry
  import opened PolkitAgent
  import opened Daemon
  import opened Invariants
  import opened Routing
  import opened Announcements

  /** What is kept for a key; nothing is kept as none of none. */
  function Kept(retries: Retries, key: string): (int, int) {
    if key in retries then (retries[key].curRetry, retries[key].maxRetries) else (0, 0)
  }

  /** A flow with this key is open before and not after. */
  ghost predicate Ends(flows: map<Id, Flow>, flows': map<Id, Flow>, key: string) {
    exists id :: id in flows && flows[id].keyinfo == key && id !in flows'
  }

  /** Flows may end; what is kept for their keys is forgotten, and the rest stays. */
  ghost predicate Forgets(p: PinentryState, p': PinentryState, key: string) {
    && (forall id :: id in p'.flows ==> id in p.flows && p'.flows[id].keyinfo == p.flows[id].keyinfo)
    && Kept(p'.retries, key) == if Ends(p.flows, p'.flows, key) then (0, 0) else Kept(p.retries, key)
  }

  lemma CloseFlowForgets(p: PinentryState, id: Id, result: Result, error: string, key: string)
    requires key != ""
    ensures Forgets(p, p.CloseFlow(id, result, error), key)
  {
    hide Sess.Close, Sess.UpdateError;
    if id in p.flows && p.flows[id].keyinfo == key {
      assert id !in p.CloseFlow(id, result, error).flows;
    }
  }

  lemma ForgetsOn(p: PinentryState, q: PinentryState, r: PinentryState, key: string)
    requires Forgets(p, q, key) && Forgets(q, r, key)
    ensures Forgets(p, r, key)
  {
    if Ends(q.flows, r.flows, key) {
      var id :| id in q.flows && q.flows[id].keyinfo == key && id !in r.flows;
      assert id in p.flows && p.flows[id].keyinfo == key;
    }
  }

  lemma {:induction false} CloseAllForgets(p: PinentryState, ids: seq<Id>, key: string)
    requires key != ""
    ensures Forgets(p, p.CloseAll(ids), key)
  {
    hide PinentryState.CloseFlow;
    if ids != [] {
      var q := p.CloseAll(ids[..|ids| - 1]);
      CloseAllForgets(p, ids[..|ids| - 1], key);
      CloseFlowForgets(q, ids[|ids| - 1], Cancelled, DISCONNECTED, key);
      ForgetsOn(p, q, p.CloseAll(ids), key);
    }
  }

  /** The numbers an accepted request brings for a key. */
  function Brings(c: Core, i: Input, key: string): Option<(int, int)> {
    if !i.AskPinentry? || i.pinentryMessage.keyinfo != key then None
    else
      var m := i.pinentryMessage;
      var id := if m.cookie == "" then i.uuid else m.cookie;
      if id in c.flows && c.flows[id].owner != i.pid then None else m.attempts
  }

  ghost predicate KeptAfter(c: Core, i: Input, authorized: bool, now: int, key: string) {
    var c' := c.Step(i, authorized, now).core;
    Kept(c'.retries, key) ==
      if Brings(c, i, key).Some? then Brings(c, i, key).value
      else if Ends(c.flows, c'.flows, key) then (0, 0)
      else Kept(c.retries, key)
  }

  lemma AskKeepsCounts(c: Core, i: Input, authorized: bool, now: int, key: string)
    requires key != "" && i.AskPinentry?
    ensures KeptAfter(c, i, authorized, now, key)
  {
    hide Presented, Parsed;
  }

  lemma ReportKeepsCounts(c: Core, i: Input, authorized: bool, now: int, key: string)
    requires key != "" && (i.Report? || i.Timeout?)
    ensures KeptAfter(c, i, authorized, now, key)
  {
    hide PinentryState.CloseFlow, Sess.UpdateError, PinentryState.ResultReply;
    var p := c.AsPinentry();
    CloseFlowForgets(p, i.id, Success, "", key);
    CloseFlowForgets(p, i.id, Result.Cancelled, "", key);
    CloseFlowForgets(p, i.id, Error, NO_RESULT, key);
    if i.Report? {
      CloseFlowForgets(p, i.id, Error, OrElse(i.error, Pinentry.AUTH_FAILED), key);
    }
  }

  lemma RespondKeepsCounts(c: Core, s: Socket, id: Id, response: string, now: int)
    ensures var c' := c.Responded(s, id, response, now).core;
            c'.retries == c.retries && forall o :: o in c.flows ==> o in c'.flows
  {
    hide Sess.Close, AnswerTo;
  }

  lemma CancelKeepsCounts(c: Core, s: Socket, id: Id, key: string)
    requires key != ""
    ensures Forgets(c.AsPinentry(), c.Cancelled(s, id).core.AsPinentry().(sess := Sess(c.live, [])), key)
  {
    hide PinentryState.CloseFlow, Sess.Close, Sess.Finish;
    CloseFlowForgets(c.AsPinentry(), id, Result.Cancelled, "", key);
  }

  lemma UserKeepsCounts(c: Core, i: Input, authorized: bool, now: int, key: string)
    requires key != "" && FromUser(i)
    ensures KeptAfter(c, i, authorized, now, key)
  {
    hide Core.Responded, Core.Cancelled;
    if i.Respond? {
      RespondKeepsCounts(c, i.socket, i.id, i.response, now);
    } else {
      CancelKeepsCounts(c, i.socket, i.id, key);
    }
  }

  lemma DisconnectKeepsCounts(c: Core, i: Input, authorized: bool, now: int, key: string)
    requires key != "" && i.Disconnected?
    ensures KeptAfter(c, i, authorized, now, key)
  {
    hide KeyringState.Cleanup, PinentryState.CloseAll;
    var k := c.WithKeyring(c.AsKeyring().Cleanup(i.socket, i.keyringOrder));
    var p := k.core.AsPinentry();
    CloseAllForgets(p, p.ToClose(i.socket, i.pinentryOrder), key);
  }

  lemma OthersKeepCounts(c: Core, i: Input, authorized: bool, now: int, key: string)
    requires !FromUser(i) && !i.AskPinentry? && !i.Report? && !i.Timeout? && !i.Disconnected?
    ensures KeptAfter(c, i, authorized, now, key)
  {
    hide PolkitState.Begin, PolkitState.CancelAll, PolkitState.HelperDone, KeyringState.Ask;
  }

  lemma StepKeepsCounts(c: Core, i: Input, authorized: bool, now: int, key: string)
    requires key != ""
    ensures KeptAfter(c, i, authorized, now, key)
  {
    hide KeptAfter;
    if i.AskPinentry? {
      AskKeepsCounts(c, i, authorized, now, key);
    } else if i.Report? || i.Timeout? {
      ReportKeepsCounts(c, i, authorized, now, key);
    } else if i.Disconnected? {
      DisconnectKeepsCounts(c, i, authorized, now, key);
    } else if FromUser(i) {
      UserKeepsCounts(c, i, authorized, now, key);
    } else {
      OthersKeepCounts(c, i, authorized, now, key);
    }
  }

  /** The numbers last brought for a key, if no flow with that key has ended since. */
  ghost function LastBrought(d: System, run: seq<Input>, key: string): Option<(int, int)> {
    if run == [] then None
    else
      var rest, i := run[..|run| - 1], run[|run| - 1];
      if Brings(After(d, rest).core, i, key).Some? then Brings(After(d, rest).core, i, key)
      else if Ends(After(d, rest).core.flows, After(d, run).core.flows, key) then None
      else LastBrought(d, rest, key)
  }

  /** In every run that starts with nothing kept: a request that brings no numbers is shown with those last
      brought for its key, unless a flow with that key has ended since; then, and without a key, it is shown
      as the first of three attempts. */
  lemma CountersAreRemembered(d: System, run: seq<Input>, key: string)
    requires d.core.retries == map[]
    ensures CountersFor(After(d, run).core.retries, key, None) ==
            if key == "" || LastBrought(d, run, key).None? then (0, 3)
            else
              var (cur, max) := LastBrought(d, run, key).value;
              (if cur < 0 then 0 else cur, if max <= 0 then 3 else max)
  {
    hide After, LastBrought;
    if key != "" {
      KeptIsLastBrought(d, run, key);
    }
  }

  lemma {:induction false} KeptIsLastBrought(d: System, run: seq<Input>, key: string)
    requires d.core.retries == map[] && key != ""
    ensures Kept(After(d, run).core.retries, key) ==
            if LastBrought(d, run, key).Some? then LastBrought(d, run, key).value else (0, 0)
  {
    hide Core.Step, System.Routed, Router.ApplyAll, Brings, Ends;
    if run != [] {
      var rest, i := run[..|run| - 1], run[|run| - 1];
      var before := After(d, rest);
      KeptIsLastBrought(d, rest, key);
      StepKeepsCounts(before.core, i, (i.Respond? || i.Cancel?) && before.routes.registry.Authorized(i.socket),
                      before.routes.now, key);
    }
  }
}
