/** Pinentry flows. The contract is one state per flow (`Flow`); the manager spreads it over six
    tables and a set of running timers, and refines it. */
module Pinentry {
  import opened Basics
  import opened Messages
  import opened Sessions
  import opened Services

  const RESULT_TIMEOUT_MS := 10000
  const AUTH_FAILED: string := "Authentication failed"
  const NO_RESULT: string := "Pinentry did not report terminal result"
  const DISCONNECTED: string := "Pinentry disconnected"

  /** The fields of `pinentry_request`. `attempts` is what the regular expression for
      "(n of m attempts)" captures in the description. */
  datatype PinentryMessage = PinentryMessage(
    cookie: Id, prompt: string, description: string, attempts: Option<(int, int)>,
    error: string, keyinfo: string, repeat: bool, confirmOnly: bool)

  datatype PinentryRequest = PinentryRequest(
    cookie: Id, socket: Socket, pid: Pid, prompt: string, description: string,
    error: string, keyinfo: string, repeat: bool, confirmOnly: bool)

  datatype RetryInfo = RetryInfo(keyinfo: string, curRetry: int, maxRetries: int)

  datatype Verdict = Succeeded | Retry | Withdrawn | Failed | Unknown

  function Parsed(m: PinentryMessage, id: Id, socket: Socket, pid: Pid): PinentryRequest {
    PinentryRequest(id, socket, pid, if m.prompt == "" then "Enter passphrase:" else m.prompt,
                    m.description, m.error, m.keyinfo, m.repeat, m.confirmOnly)
  }

  function ContextOf(r: PinentryRequest, actor: Requestor, curRetry: int, maxRetries: int): Context {
    Context(r.prompt, actor, "", "", "", r.description, r.keyinfo, curRetry, maxRetries, r.confirmOnly, r.repeat)
  }

  function OrElse(text: string, default: string): string {
    if text == "" then default else text
  }

  /** What the requester is told when the user answers. */
  function AnswerTo(r: PinentryRequest, response: string): Answer {
    if r.confirmOnly then Confirmed else Password(response)
  }

  datatype Phase =
    | Pending(request: PinentryRequest)
    | Awaiting(request: PinentryRequest, deadline: int)  // answered, terminal result not reported yet
    | Retrying                                           // the requester announced another attempt

  datatype Flow = Flow(owner: Pid, keyinfo: string, phase: Phase, reported: bool)

  function Submitted(flows: map<Id, Flow>, id: Id, now: int): map<Id, Flow> {
    if id in flows && flows[id].phase.Pending? then
      flows[id := flows[id].(phase := Awaiting(flows[id].phase.request, now + RESULT_TIMEOUT_MS))]
    else flows
  }

  type Retries = map<string, RetryInfo>

  datatype Counted = Counted(retries: Retries, curRetry: int, maxRetries: int)

  function ResolveRetryInfo(retries: Retries, keyinfo: string, attempts: Option<(int, int)>): Counted {
    var info := if keyinfo in retries then retries[keyinfo] else RetryInfo(keyinfo, 0, 0);
    var (cur, max) :=
      if attempts.Some? then attempts.value
      else if keyinfo != "" then (info.curRetry, if info.maxRetries > 0 then info.maxRetries else DEFAULT_MAX_RETRIES)
      else (0, DEFAULT_MAX_RETRIES);
    var noted := if attempts.Some? then RetryInfo(keyinfo, cur, max) else info.(keyinfo := keyinfo);
    Counted(if keyinfo != "" then retries[keyinfo := noted] else retries,
            if cur < 0 then 0 else cur, if max <= 0 then DEFAULT_MAX_RETRIES else max)
  }

  /** What the user gets to see of a request: an error if an attempt was under way, a session if
      there is none yet, the prompt, and the request's own error unless it was reported already. */
  function Presented(s: Sess, r: PinentryRequest, actor: Requestor, curRetry: int, maxRetries: int,
                     wasAwaiting: bool, wasReported: bool): Sess
  {
    var s1 := if wasAwaiting then s.UpdateError(r.cookie, OrElse(r.error, AUTH_FAILED)) else s;
    var s2 :=
      if r.cookie in s.live then s1.UpdateRetry(r.cookie, curRetry, maxRetries)
      else s1.Create(r.cookie, Source.Pinentry, ContextOf(r, actor, curRetry, maxRetries));
    var s3 := s2.UpdatePrompt(r.cookie, r.prompt, false, false);
    if r.error != "" && !wasReported then s3.UpdateError(r.cookie, r.error) else s3
  }

  datatype PinentryState = PinentryState(flows: map<Id, Flow>, retries: Retries, sess: Sess) {
    predicate OwnedByOther(id: Id, pid: Pid) {
      id in flows && flows[id].owner != pid
    }

    predicate IsPending(id: Id) {
      id in flows && flows[id].phase.Pending?
    }

    predicate IsAwaiting(id: Id) {
      id in flows && flows[id].phase.Awaiting?
    }

    predicate IsSession(id: Id) {
      id in sess.live && sess.live[id].source.Pinentry?
    }

    /** A request opens a flow, or is the next attempt of the flow it names. */
    function Ask(m: PinentryMessage, socket: Socket, pid: Pid, actor: Requestor, uuid: Id): PinentryState {
      var id := OrElse(m.cookie, uuid);
      if OwnedByOther(id, pid) then this
      else
        var r := Parsed(m, id, socket, pid);
        var keyinfo := if m.keyinfo == "" && id in flows then flows[id].keyinfo else m.keyinfo;
        var counted := ResolveRetryInfo(retries, m.keyinfo, m.attempts);
        var reported := id in flows && flows[id].reported;
        PinentryState(
          flows[id := Flow(pid, keyinfo, Pending(r), false)],
          counted.retries,
          Presented(sess, r, actor, counted.curRetry, counted.maxRetries, IsAwaiting(id), reported))
    }

    /** The user's answer goes to the requester, which now owes a terminal result. */
    function Respond(id: Id, now: int): PinentryState {
      this.(flows := Submitted(flows, id, now))
    }

    function CloseFlow(id: Id, result: Result, error: string): PinentryState {
      var failed := if error != "" then sess.UpdateError(id, error) else sess;
      PinentryState(
        flows - {id},
        if id in flows && flows[id].keyinfo != "" then retries - {flows[id].keyinfo} else retries,
        if IsSession(id) then failed.Close(id, result) else sess)
    }

    function NoteRetry(id: Id, error: string): PinentryState {
      PinentryState(
        if id !in flows then flows
        else flows[id := flows[id].(phase := if flows[id].phase.Awaiting? then Retrying else flows[id].phase,
                                    reported := true)],
        retries,
        sess.UpdateError(id, OrElse(error, AUTH_FAILED)))
    }

    predicate AcceptsResult(id: Id, pid: Pid) {
      id != "" && !OwnedByOther(id, pid) && IsSession(id)
    }

    function Result(id: Id, verdict: Verdict, error: string, pid: Pid): PinentryState {
      if !AcceptsResult(id, pid) then this
      else
        match verdict
        case Succeeded => CloseFlow(id, Success, "")
        case Retry => NoteRetry(id, error)
        case Withdrawn => CloseFlow(id, Cancelled, "")
        case Failed => CloseFlow(id, Error, OrElse(error, AUTH_FAILED))
        case Unknown => this
    }

    function ResultReply(id: Id, verdict: Verdict, pid: Pid): Message {
      if id == "" then Failure("Missing id")
      else if OwnedByOther(id, pid) then Failure("Result sender does not own session")
      else if !IsSession(id) then Failure("Unknown pinentry session")
      else if verdict.Unknown? then Failure("Invalid result type")
      else Ok(None)
    }

    predicate Knows(id: Id) {
      IsPending(id) || IsAwaiting(id) || IsSession(id)
    }

    function Cancel(id: Id): PinentryState {
      if Knows(id) then CloseFlow(id, Cancelled, "") else this
    }

    function PendingFrom(id: Id, socket: Socket): bool {
      IsPending(id) && flows[id].phase.request.socket == socket
    }

    /** The pending flows of a vanished socket, in hash order. */
    function ToClose(socket: Socket, order: seq<Id>): seq<Id> {
      if order == [] then []
      else
        var id := order[|order| - 1];
        ToClose(socket, order[..|order| - 1]) + if PendingFrom(id, socket) then [id] else []
    }

    function CloseAll(ids: seq<Id>): PinentryState {
      if ids == [] then this
      else CloseAll(ids[..|ids| - 1]).CloseFlow(ids[|ids| - 1], Cancelled, DISCONNECTED)
    }

    function Cleanup(socket: Socket, order: seq<Id>): PinentryState {
      CloseAll(ToClose(socket, order))
    }

    /** Every pinentry session has an owner. */
    ghost predicate Owned() {
      forall id :: IsSession(id) ==> id in flows
    }

    /** What holds of the flows in every reachable state. */
    ghost predicate Sound() {
      && Owned()
      && (forall id :: id in flows ==>
            && (flows[id].phase.Retrying? ==> flows[id].reported)
            && (!flows[id].phase.Retrying? ==>
                  flows[id].phase.request.cookie == id && flows[id].phase.request.pid == flows[id].owner))
    }
  }

  lemma AskKeepsOwned(p: PinentryState, m: PinentryMessage, socket: Socket, pid: Pid, actor: Requestor, uuid: Id)
    requires p.Owned()
    ensures p.Ask(m, socket, pid, actor, uuid).Owned()
  {
  }

  lemma NoteRetryKeepsOwned(p: PinentryState, id: Id, error: string)
    requires p.Owned()
    ensures p.IsSession(id) ==> id in p.flows
    ensures p.NoteRetry(id, error).Owned()
  {
  }

  lemma CloseFlowKeepsOwned(p: PinentryState, id: Id, result: Result, error: string)
    requires p.Owned()
    ensures p.CloseFlow(id, result, error).Owned()
  {
  }

  type TimerId = nat

  datatype RunningTimer = RunningTimer(cookie: Id, deadline: int)

  datatype AwaitingOutcome = AwaitingOutcome(request: PinentryRequest, timer: TimerId)

  /** The tables of the manager and the timers it has running, as one value. */
  datatype Tables = Tables(
    pending: map<Id, PinentryRequest>, awaiting: map<Id, AwaitingOutcome>,
    owners: map<Id, Pid>, keyinfos: map<Id, string>, reported: set<Id>,
    running: map<TimerId, RunningTimer>, next: TimerId)
  {
    /** The tables fit together, and the running timers are exactly those of the awaiting flows. */
    ghost predicate Fit() {
      && (forall id :: Fits(id))
      && (forall t :: t in running ==>
            t < next && running[t].cookie in awaiting && awaiting[running[t].cookie].timer == t)
    }

    predicate Fits(id: Id) {
      && (id in pending ==>
            id !in awaiting && id in owners && pending[id].cookie == id && pending[id].pid == owners[id])
      && (id in awaiting ==>
            && id in owners && awaiting[id].request.cookie == id && awaiting[id].request.pid == owners[id]
            && awaiting[id].timer in running && running[awaiting[id].timer].cookie == id)
      && (id in keyinfos ==> id in owners && keyinfos[id] != "")
      && (id in reported ==> id in owners)
      && (id in owners ==> id in pending || id in awaiting || id in reported)
    }

    function FlowOf(id: Id): Flow
      requires Fits(id) && id in owners
    {
      var phase :=
        if id in pending then Pending(pending[id])
        else if id in awaiting then Awaiting(awaiting[id].request, running[awaiting[id].timer].deadline)
        else Retrying;
      Flow(owners[id], if id in keyinfos then keyinfos[id] else "", phase, id in reported)
    }

    function Flows(): map<Id, Flow>
      requires Fit()
    {
      map id | id in owners :: FlowOf(id)
    }

    // ----- The table half of the handlers -----

    function Released(id: Id): Tables {
      if id in awaiting then this.(running := running - {awaiting[id].timer}, awaiting := awaiting - {id}) else this
    }

    function Forgotten(id: Id): Tables {
      Released(id).(pending := pending - {id}, owners := owners - {id}, reported := reported - {id},
                    keyinfos := keyinfos - {id})
    }

    function Filed(id: Id, r: PinentryRequest): Tables {
      Released(id).(owners := owners[id := r.pid], pending := pending[id := r], reported := reported - {id},
                    keyinfos := if r.keyinfo != "" then keyinfos[id := r.keyinfo] else keyinfos)
    }

    function Submitted(id: Id, now: int): Tables
      requires id in pending
    {
      this.(pending := pending - {id}, awaiting := awaiting[id := AwaitingOutcome(pending[id], next)],
            running := running[next := RunningTimer(id, now + RESULT_TIMEOUT_MS)], next := next + 1)
    }

    function Noted(id: Id): Tables {
      Released(id).(reported := reported + {id})
    }
  }

  /** The flow of an id can be read off the tables directly. */
  lemma FlowsMirrorTables(t: Tables, id: Id)
    requires t.Fit()
    ensures t.Fits(id)
    ensures id in t.owners <==> id in t.Flows()
    ensures id in t.owners ==> t.Flows()[id] == t.FlowOf(id)
  {
  }

  /** Stopping one flow's timer leaves every other timer running. */
  lemma TimersAreApart(t: Tables, a: Id, b: Id)
    requires t.Fits(a) && t.Fits(b) && a != b && a in t.awaiting && b in t.awaiting
    ensures t.awaiting[a].timer != t.awaiting[b].timer
  {
  }

  lemma OthersStayFit(t: Tables, t': Tables, id: Id, o: Id)
    requires t.Fits(id) && t.Fits(o) && o != id && t'.running.Keys >= t.Released(id).running.Keys
    requires forall k :: k in t.Released(id).running ==> t'.running[k] == t.running[k]
    requires o in t.pending <==> o in t'.pending
    requires o in t.pending ==> t.pending[o] == t'.pending[o]
    requires o in t.awaiting <==> o in t'.awaiting
    requires o in t.awaiting ==> t.awaiting[o] == t'.awaiting[o]
    requires o in t.owners <==> o in t'.owners
    requires o in t.owners ==> t.owners[o] == t'.owners[o]
    requires o in t.keyinfos <==> o in t'.keyinfos
    requires o in t.keyinfos ==> t.keyinfos[o] == t'.keyinfos[o]
    requires o in t.reported <==> o in t'.reported
    ensures SameFlow(t, t', o)
  {
    if id in t.awaiting && o in t.awaiting {
      TimersAreApart(t, id, o);
    }
  }

  ghost predicate SameFlow(t: Tables, t': Tables, o: Id)
    requires t.Fits(o)
  {
    && t'.Fits(o)
    && (o in t.owners <==> o in t'.owners)
    && (o in t.owners ==> t'.FlowOf(o) == t.FlowOf(o))
  }

  lemma FlowsChangeAt(t: Tables, t': Tables, id: Id)
    requires t.Fit() && t'.Fit() && forall o :: o != id ==> SameFlow(t, t', o)
    ensures id in t'.owners ==> t'.Flows() == t.Flows()[id := t'.FlowOf(id)]
    ensures id !in t'.owners ==> t'.Flows() == t.Flows() - {id}
  {
    forall o
      ensures o != id ==> (o in t.Flows() <==> o in t'.Flows())
      ensures o != id && o in t.Flows() ==> t'.Flows()[o] == t.Flows()[o]
    {
      FlowsMirrorTables(t, o);
      FlowsMirrorTables(t', o);
      assert o != id ==> SameFlow(t, t', o);
    }
    FlowsMirrorTables(t', id);
  }

  lemma ForgettingFits(t: Tables, id: Id)
    requires t.Fit()
    ensures t.Forgotten(id).Fit() && t.Forgotten(id).Flows() == t.Flows() - {id}
  {
    hide Tables.Flows;
    var t' := t.Forgotten(id);
    assert t.Fits(id);
    forall o
      ensures t'.Fits(o) && (o != id ==> SameFlow(t, t', o))
    {
      assert t.Fits(o);
      if o != id {
        OthersStayFit(t, t', id, o);
      }
    }
    FlowsChangeAt(t, t', id);
  }

  lemma FilingFits(t: Tables, id: Id, r: PinentryRequest)
    requires t.Fit() && r.cookie == id && (id in t.owners ==> t.owners[id] == r.pid)
    ensures var keyinfo := if r.keyinfo == "" && id in t.owners then t.FlowOf(id).keyinfo else r.keyinfo;
            t.Filed(id, r).Fit() && t.Filed(id, r).Flows() == t.Flows()[id := Flow(r.pid, keyinfo, Pending(r), false)]
  {
    hide Tables.Flows;
    var t' := t.Filed(id, r);
    assert t.Fits(id);
    forall o
      ensures t'.Fits(o) && (o != id ==> SameFlow(t, t', o))
    {
      assert t.Fits(o);
      if o != id {
        OthersStayFit(t, t', id, o);
      }
    }
    FlowsChangeAt(t, t', id);
  }

  lemma SubmittingFits(t: Tables, id: Id, now: int)
    requires t.Fit() && id in t.pending
    ensures id in t.owners && t.FlowOf(id).phase == Pending(t.pending[id])
    ensures t.Submitted(id, now).Fit()
    ensures t.Submitted(id, now).Flows() ==
              t.Flows()[id := t.FlowOf(id).(phase := Awaiting(t.pending[id], now + RESULT_TIMEOUT_MS))]
  {
    hide Tables.Flows;
    var t' := t.Submitted(id, now);
    assert t.Fits(id);
    forall o
      ensures t'.Fits(o) && (o != id ==> SameFlow(t, t', o))
    {
      assert t.Fits(o);
      if o != id {
        OthersStayFit(t, t', id, o);
      }
    }
    FlowsChangeAt(t, t', id);
  }

  lemma NotingFits(t: Tables, id: Id)
    requires t.Fit() && id in t.owners
    ensures t.Noted(id).Fit()
    ensures var f := t.FlowOf(id);
            t.Noted(id).Flows() ==
              t.Flows()[id := f.(phase := if f.phase.Awaiting? then Retrying else f.phase, reported := true)]
  {
    hide Tables.Flows;
    var t' := t.Noted(id);
    assert t.Fits(id);
    forall o
      ensures t'.Fits(o) && (o != id ==> SameFlow(t, t', o))
    {
      assert t.Fits(o);
      if o != id {
        OthersStayFit(t, t', id, o);
      }
    }
    FlowsChangeAt(t, t', id);
  }

  /** Timers and answered flows correspond one to one: as many of one as of the other, each timer with
      the deadline of its flow's current submission. */
  lemma TimersMatchAnswers(t: Tables)
    requires t.Fit()
    ensures |t.running| == |t.awaiting|
    ensures forall id :: id in t.awaiting ==>
              t.awaiting[id].timer in t.running && t.running[t.awaiting[id].timer].cookie == id
              && t.FlowOf(id).phase == Awaiting(t.awaiting[id].request, t.running[t.awaiting[id].timer].deadline)
    ensures forall k :: k in t.running ==>
              t.running[k].cookie in t.awaiting && t.awaiting[t.running[k].cookie].timer == k
  {
    assert forall id :: id in t.awaiting ==> t.Fits(id);
    var timers := map id | id in t.awaiting :: t.awaiting[id].timer;
    assert timers.Keys == t.awaiting.Keys;
    assert timers.Values == t.running.Keys by {
      forall k | k in t.running
        ensures k in timers.Values
      {
        assert timers[t.running[k].cookie] == k;
      }
    }
    InjectiveSize(timers);
    assert |t.awaiting.Keys| == |t.awaiting| && |t.running.Keys| == |t.running|;
  }

  lemma {:induction false} InjectiveSize(m: map<Id, TimerId>)
    requires forall a, b :: a in m && b in m && m[a] == m[b] ==> a == b
    ensures |m.Values| == |m.Keys|
    decreases |m|
  {
    if id :| id in m {
      var rest := m - {id};
      InjectiveSize(rest);
      assert m.Values == rest.Values + {m[id]} && m[id] !in rest.Values;
      assert m.Keys == rest.Keys + {id};
    }
  }

  // ----- Whole lives of the tables -----

  /** What the handlers do to the tables, each time as a whole. */
  datatype TableOp = Forget(id: Id) | File(request: PinentryRequest) | Submit(id: Id, now: int) | Note(id: Id)

  /** The handler checks this first. */
  predicate Proper(t: Tables, op: TableOp) {
    match op
    case Forget(_) => true
    case File(r) => r.cookie in t.owners ==> t.owners[r.cookie] == r.pid
    case Submit(id, _) => id in t.pending
    case Note(id) => id in t.owners
  }

  function Applied(t: Tables, op: TableOp): Tables
    requires Proper(t, op)
  {
    match op
    case Forget(id) => t.Forgotten(id)
    case File(r) => t.Filed(r.cookie, r)
    case Submit(id, now) => t.Submitted(id, now)
    case Note(id) => t.Noted(id)
  }

  lemma AppliedFits(t: Tables, op: TableOp)
    requires t.Fit() && Proper(t, op)
    ensures Applied(t, op).Fit()
    ensures t.next <= Applied(t, op).next
    ensures forall k :: k in Applied(t, op).running ==> k in t.running || k >= t.next
  {
    hide Tables.Flows;
    match op
    case Forget(id) => ForgettingFits(t, id);
    case File(r) => FilingFits(t, r.cookie, r);
    case Submit(id, now) => SubmittingFits(t, id, now);
    case Note(id) => NotingFits(t, id);
  }

  ghost predicate ProperAll(t: Tables, ops: seq<TableOp>)
    decreases |ops|
  {
    ops == [] || (Proper(t, ops[0]) && ProperAll(Applied(t, ops[0]), ops[1..]))
  }

  ghost function AppliedAll(t: Tables, ops: seq<TableOp>): Tables
    requires ProperAll(t, ops)
    decreases |ops|
  {
    if ops == [] then t else AppliedAll(Applied(t, ops[0]), ops[1..])
  }

  /** Closing these flows one after another. */
  function Forgets(ids: seq<Id>): (ops: seq<TableOp>)
    ensures |ops| == |ids| && forall k :: 0 <= k < |ids| ==> ops[k] == Forget(ids[k])
  {
    seq(|ids|, k requires 0 <= k < |ids| => Forget(ids[k]))
  }

  lemma {:induction false} OneMoreForgotten(t: Tables, ids: seq<Id>, id: Id)
    ensures ProperAll(t, Forgets(ids)) && ProperAll(t, Forgets(ids + [id]))
    ensures AppliedAll(t, Forgets(ids + [id])) == AppliedAll(t, Forgets(ids)).Forgotten(id)
    decreases |ids|
  {
    hide Tables.Forgotten;
    if ids == [] {
      assert Forgets([id])[1..] == [];
    } else {
      OneMoreForgotten(t.Forgotten(ids[0]), ids[1..], id);
      assert Forgets(ids)[1..] == Forgets(ids[1..]);
      assert (ids + [id])[1..] == ids[1..] + [id];
      assert Forgets(ids + [id])[1..] == Forgets(ids[1..] + [id]);
    }
  }

  /** However the tables go on, they fit, and a timer that was stopped or has fired never runs again:
      whatever runs later ran all along or was started later, for a later submission. */
  lemma {:induction false} StoppedTimersStayStopped(t: Tables, ops: seq<TableOp>, k: TimerId)
    requires t.Fit() && ProperAll(t, ops) && k < t.next && k !in t.running
    ensures AppliedAll(t, ops).Fit() && k !in AppliedAll(t, ops).running && k < AppliedAll(t, ops).next
    decreases |ops|
  {
    hide Tables.Fit, Applied, Proper;
    if ops != [] {
      AppliedFits(t, ops[0]);
      StoppedTimersStayStopped(Applied(t, ops[0]), ops[1..], k);
    }
  }

  class PinentryManager {
    var pendingRequests: map<Id, PinentryRequest>
    var awaitingOutcome: map<Id, AwaitingOutcome>
    var retryInfo: map<string, RetryInfo>
    var flowOwners: map<Id, Pid>
    var flowKeyinfos: map<Id, string>
    var retryReported: set<Id>

    // The single-shot timers that are running, and the number of the next one.
    var running: map<TimerId, RunningTimer>
    var nextTimer: TimerId

    constructor ()
      ensures View() == Tables(map[], map[], map[], map[], {}, map[], 0) && retryInfo == map[]
    {
      pendingRequests, awaitingOutcome, retryInfo, flowOwners, flowKeyinfos := map[], map[], map[], map[], map[];
      retryReported, running, nextTimer := {}, map[], 0;
    }

    ghost function View(): Tables
      reads this
    {
      Tables(pendingRequests, awaitingOutcome, flowOwners, flowKeyinfos, retryReported, running, nextTimer)
    }

    /** The tables fit together, and every pinentry session has an owner. */
    ghost predicate Valid(hub: Hub)
      reads this, hub`view
    {
      View().Fit() && State(hub).Owned()
    }

    ghost function State(hub: Hub): PinentryState
      requires View().Fit()
      reads this, hub`view
    {
      PinentryState(View().Flows(), retryInfo, hub.view)
    }

    lemma StateIsSound(hub: Hub)
      requires Valid(hub)
      ensures State(hub).Sound()
    {
      var t := View();
      forall id | id in t.owners
        ensures t.Fits(id)
      {
      }
    }

    lemma PendingAreFlows()
      requires View().Fit()
      ensures var flows := View().Flows(); pendingRequests.Keys == set id | id in flows && flows[id].phase.Pending?
    {
      forall id
        ensures id in pendingRequests <==> id in View().Flows() && View().Flows()[id].phase.Pending?
      {
        FlowsMirrorTables(View(), id);
      }
    }

    predicate HasPendingInput(cookie: Id)
      requires View().Fit()
      reads this
      ensures HasPendingInput(cookie) <==> cookie in View().Flows() && View().Flows()[cookie].phase.Pending?
    {
      FlowsMirrorTables(View(), cookie);
      cookie in pendingRequests
    }

    function GetSocketForPendingInput(cookie: Id): (s: Socket)
      requires View().Fit() && HasPendingInput(cookie)
      reads this
      ensures s == View().Flows()[cookie].phase.request.socket
    {
      FlowsMirrorTables(View(), cookie);
      pendingRequests[cookie].socket
    }

    predicate HasRequest(hub: Hub, cookie: Id)
      requires View().Fit() && hub.Valid()
      reads this, hub, hub.store, hub.store.Repr, hub.registry, hub.queue
      ensures HasRequest(hub, cookie) <==> State(hub).Knows(cookie)
    {
      FlowsMirrorTables(View(), cookie);
      cookie in pendingRequests || cookie in awaitingOutcome || hub.IsSessionOf(cookie, Source.Pinentry)
    }

    method ResolveRetry(keyinfo: string, attempts: Option<(int, int)>) returns (curRetry: int, maxRetries: int)
      modifies this`retryInfo
      ensures Counted(retryInfo, curRetry, maxRetries) == ResolveRetryInfo(old(retryInfo), keyinfo, attempts)
    {
      curRetry, maxRetries := 0, 3;
      var parsed := false;
      if attempts.Some? {
        curRetry, maxRetries := attempts.value.0, attempts.value.1;
        parsed := true;
      }
      if keyinfo != "" {
        var info := if keyinfo in retryInfo then retryInfo[keyinfo] else RetryInfo("", 0, 0);
        info := info.(keyinfo := keyinfo);
        if parsed {
          info := info.(curRetry := curRetry, maxRetries := maxRetries);
        } else {
          curRetry := info.curRetry;
          maxRetries := if info.maxRetries > 0 then info.maxRetries else 3;
        }
        retryInfo := retryInfo[keyinfo := info];
      }
      if curRetry < 0 {
        curRetry := 0;
      }
      if maxRetries <= 0 {
        maxRetries := 3;
      }
    }

    /** Stop the timer of an awaiting flow and forget the submission. */
    method CleanupAwaiting(cookie: Id)
      modifies this`awaitingOutcome, this`running
      ensures View() == old(View()).Released(cookie)
    {
      if cookie !in awaitingOutcome {
        return;
      }
      running := running - {awaitingOutcome[cookie].timer};
      awaitingOutcome := awaitingOutcome - {cookie};
    }

    method CloseFlow(hub: Hub, cookie: Id, result: Result, error: string)
      requires hub.Valid() && Valid(hub)
      modifies this, hub`sent, hub`view, hub.store`sessions, hub.store.Repr, hub.registry, hub.queue
      ensures hub.Valid() && Valid(hub) && View() == old(View()).Forgotten(cookie)
      ensures State(hub) == old(State(hub)).CloseFlow(cookie, result, error)
    {
      hide Hub.Valid, Tables.Flows, Tables.Fit, PinentryState.Owned, Sess.UpdateError, Sess.Close;
      FlowsMirrorTables(View(), cookie);
      CloseFlowKeepsOwned(State(hub), cookie, result, error);
      if hub.IsSessionOf(cookie, Source.Pinentry) {
        if error != "" {
          hub.UpdateSessionError(cookie, error);
        }
        hub.CloseSession(cookie, result);
      }
      ForgetFlow(cookie);
    }

    /** The table half of closeFlow. */
    method ForgetFlow(cookie: Id)
      requires View().Fit()
      modifies this
      ensures View() == old(View()).Forgotten(cookie) && View().Fit()
      ensures View().Flows() == old(View()).Flows() - {cookie}
      ensures retryInfo == if cookie in old(flowKeyinfos) then old(retryInfo) - {old(flowKeyinfos[cookie])}
              else old(retryInfo)
    {
      hide Tables.Flows;
      ForgettingFits(View(), cookie);
      assert View().Fits(cookie);
      pendingRequests := pendingRequests - {cookie};
      CleanupAwaiting(cookie);
      flowOwners := flowOwners - {cookie};
      retryReported := retryReported - {cookie};

      var keyinfo := if cookie in flowKeyinfos then flowKeyinfos[cookie] else "";
      flowKeyinfos := flowKeyinfos - {cookie};
      if keyinfo != "" {
        retryInfo := retryInfo - {keyinfo};
      }
    }

    method HandleRequest(hub: Hub, m: PinentryMessage, socket: Socket, pid: Pid, actor: Requestor, uuid: Id)
      requires hub.Valid() && Valid(hub)
      modifies this, hub`sent, hub`view, hub.store, hub.store.Repr, hub.queue
      ensures hub.Valid() && Valid(hub) && fresh(hub.store.Repr - old(hub.store.Repr))
      ensures State(hub) == old(State(hub)).Ask(m, socket, pid, actor, uuid)
      ensures var id := OrElse(m.cookie, uuid);
              View() == if id in old(flowOwners) && old(flowOwners[id]) != pid then old(View())
                        else old(View()).Filed(id, Parsed(m, id, socket, pid))
    {
      hide Hub.Valid, Tables.Flows, Tables.Fit, ResolveRetryInfo, ContextOf, PinentryState.Owned;
      hide Sess.UpdateError, Sess.UpdatePrompt, Sess.UpdateRetry, Sess.Create;
      var cookie := m.cookie;
      if cookie == "" {
        cookie := uuid;
      }
      var request := Parsed(m, cookie, socket, pid);
      FlowsMirrorTables(View(), cookie);
      if cookie in flowOwners && flowOwners[cookie] != pid {
        return;
      }
      AskKeepsOwned(State(hub), m, socket, pid, actor, uuid);
      var curRetry, maxRetries := ResolveRetry(request.keyinfo, m.attempts);
      var wasAwaiting, wasReported := FileRequest(request);
      PresentRequest(hub, request, actor, curRetry, maxRetries, wasAwaiting, wasReported);
    }

    /** The table half of a request. */
    method FileRequest(request: PinentryRequest) returns (wasAwaiting: bool, wasReported: bool)
      requires View().Fit() && (request.cookie in flowOwners ==> flowOwners[request.cookie] == request.pid)
      modifies this
      ensures View() == old(View()).Filed(request.cookie, request) && View().Fit() && retryInfo == old(retryInfo)
      ensures var id := request.cookie;
              var keyinfo := if request.keyinfo == "" && id in old(flowOwners) then old(View().FlowOf(id)).keyinfo
                else request.keyinfo;
              View().Flows() == old(View()).Flows()[id := Flow(request.pid, keyinfo, Pending(request), false)]
      ensures wasAwaiting == (request.cookie in old(awaitingOutcome))
      ensures wasReported == (request.cookie in old(retryReported))
    {
      hide Tables.Flows;
      var cookie := request.cookie;
      FilingFits(View(), cookie, request);
      flowOwners := flowOwners[cookie := request.pid];
      if request.keyinfo != "" {
        flowKeyinfos := flowKeyinfos[cookie := request.keyinfo];
      }
      wasAwaiting := cookie in awaitingOutcome;
      CleanupAwaiting(cookie);
      pendingRequests := pendingRequests[cookie := request];
      wasReported := cookie in retryReported;
      retryReported := retryReported - {cookie};
    }

    /** The session half of a request: what the user gets to see. */
    method PresentRequest(hub: Hub, request: PinentryRequest, actor: Requestor, curRetry: int, maxRetries: int,
                          wasAwaiting: bool, wasReported: bool)
      requires hub.Valid()
      modifies hub`sent, hub`view, hub.store, hub.store.Repr, hub.queue
      ensures hub.Valid() && fresh(hub.store.Repr - old(hub.store.Repr))
      ensures hub.view == Presented(old(hub.view), request, actor, curRetry, maxRetries, wasAwaiting, wasReported)
    {
      hide Hub.Valid, ContextOf, Sess.UpdateError, Sess.UpdatePrompt, Sess.UpdateRetry, Sess.Create;
      var cookie := request.cookie;
      var sessionExists := hub.HasSession(cookie);
      if wasAwaiting {
        hub.UpdateSessionError(cookie, OrElse(request.error, AUTH_FAILED));
      }
      if !sessionExists {
        hub.CreateSession(cookie, Source.Pinentry, ContextOf(request, actor, curRetry, maxRetries));
      } else {
        hub.UpdateSessionPinentryRetry(cookie, curRetry, maxRetries);
      }
      hub.UpdateSessionPrompt(cookie, request.prompt, false, false);
      if request.error != "" && !wasReported {
        hub.UpdateSessionError(cookie, request.error);
      }
    }

    method HandleResponse(cookie: Id, response: string, now: int) returns (reply: Message)
      requires View().Fit()
      modifies this
      ensures View().Fit() && flowOwners == old(flowOwners) && retryInfo == old(retryInfo)
      ensures View() == if cookie in old(pendingRequests) then old(View()).Submitted(cookie, now) else old(View())
      ensures View().Flows() == Submitted(old(View()).Flows(), cookie, now)
      ensures var flows := old(View()).Flows();
              cookie in flows && flows[cookie].phase.Pending? ==>
                reply == PinentryReply(cookie, AnswerTo(flows[cookie].phase.request, response))
      ensures reply ==
              if cookie in old(pendingRequests)
                then PinentryReply(cookie, AnswerTo(old(pendingRequests[cookie]), response))
              else if cookie in old(awaitingOutcome) then Failure("Session is already awaiting terminal result")
              else Failure("Unknown session")
    {
      hide Tables.Flows, Tables.Fit;
      FlowsMirrorTables(View(), cookie);
      if cookie !in pendingRequests {
        if cookie in awaitingOutcome {
          return Failure("Session is already awaiting terminal result");
        }
        return Failure("Unknown session");
      }
      SubmittingFits(View(), cookie, now);
      var request := pendingRequests[cookie];
      pendingRequests := pendingRequests - {cookie};
      reply := PinentryReply(cookie, AnswerTo(request, response));

      CleanupAwaiting(cookie);

      var timer := nextTimer;
      nextTimer := nextTimer + 1;
      awaitingOutcome := awaitingOutcome[cookie := AwaitingOutcome(request, timer)];
      running := running[timer := RunningTimer(cookie, now + RESULT_TIMEOUT_MS)];
      assert View() == old(View()).Submitted(cookie, now);
    }

    method HandleResult(hub: Hub, id: Id, verdict: Verdict, error: string, pid: Pid) returns (reply: Message)
      requires hub.Valid() && Valid(hub)
      modifies this, hub`sent, hub`view, hub.store`sessions, hub.store.Repr, hub.registry, hub.queue
      ensures hub.Valid() && Valid(hub)
      ensures State(hub) == old(State(hub)).Result(id, verdict, error, pid)
      ensures reply == old(State(hub)).ResultReply(id, verdict, pid)
      ensures View() == if reply != Ok(None) then old(View())
                        else if verdict.Retry? then old(View()).Noted(id)
                        else old(View()).Forgotten(id)
    {
      hide Hub.Valid, Tables.Flows, Tables.Fit, PinentryState.CloseFlow, PinentryState.Owned;
      FlowsMirrorTables(View(), id);
      if id == "" {
        return Failure("Missing id");
      }
      if id in flowOwners && flowOwners[id] != pid {
        return Failure("Result sender does not own session");
      }
      if !hub.IsSessionOf(id, Source.Pinentry) {
        return Failure("Unknown pinentry session");
      }
      match verdict {
        case Succeeded =>
          CloseFlow(hub, id, Success, "");
        case Retry =>
          NoteRetryKeepsOwned(State(hub), id, error);
          NotingFits(View(), id);
          CleanupAwaiting(id);
          retryReported := retryReported + {id};
          assert View() == old(View()).Noted(id);
          hub.UpdateSessionError(id, OrElse(error, AUTH_FAILED));
        case Withdrawn =>
          CloseFlow(hub, id, Cancelled, "");
        case Failed =>
          CloseFlow(hub, id, Error, OrElse(error, AUTH_FAILED));
        case Unknown =>
          return Failure("Invalid result type");
      }
      reply := Ok(None);
    }

    method HandleCancel(hub: Hub, cookie: Id) returns (reply: Message)
      requires hub.Valid() && Valid(hub)
      modifies this, hub`sent, hub`view, hub.store`sessions, hub.store.Repr, hub.registry, hub.queue
      ensures hub.Valid() && Valid(hub)
      ensures State(hub) == old(State(hub)).Cancel(cookie)
      ensures reply == if old(State(hub)).Knows(cookie) then PinentryReply(cookie, Declined)
              else Failure("Unknown session")
      ensures View() == if old(State(hub)).Knows(cookie) then old(View()).Forgotten(cookie) else old(View())
    {
      hide Hub.Valid, Tables.Flows, Tables.Fit, PinentryState.CloseFlow, PinentryState.Owned;
      FlowsMirrorTables(View(), cookie);
      if cookie in pendingRequests || cookie in awaitingOutcome || hub.IsSessionOf(cookie, Source.Pinentry) {
        CloseFlow(hub, cookie, Cancelled, "");
        return PinentryReply(cookie, Declined);
      }
      reply := Failure("Unknown session");
    }

    /** `order` is the order in which the hash of pending requests is walked. */
    method CleanupForSocket(hub: Hub, socket: Socket, order: seq<Id>)
      requires hub.Valid() && Valid(hub) && Enumerates(order, pendingRequests.Keys)
      modifies this, hub`sent, hub`view, hub.store`sessions, hub.store.Repr, hub.registry, hub.queue
      ensures hub.Valid() && Valid(hub)
      ensures State(hub) == old(State(hub)).Cleanup(socket, order)
      ensures var ops := Forgets(old(State(hub)).ToClose(socket, order));
              ProperAll(old(View()), ops) && View() == AppliedAll(old(View()), ops)
    {
      hide Hub.Valid, Tables.Flows, Tables.Fit, PinentryState.CloseFlow, PinentryState.Owned;
      ghost var p := State(hub);
      var cookiesToClose: seq<Id> := [];
      for i := 0 to |order|
        invariant cookiesToClose == p.ToClose(socket, order[..i])
        invariant View() == old(View()) && State(hub) == p && hub.Valid() && Valid(hub)
      {
        assert order[..i + 1][..i] == order[..i];
        FlowsMirrorTables(View(), order[i]);
        if pendingRequests[order[i]].socket == socket {
          cookiesToClose := cookiesToClose + [order[i]];
        }
      }
      assert order[..|order|] == order;
      for i := 0 to |cookiesToClose|
        invariant hub.Valid() && Valid(hub)
        invariant State(hub) == p.CloseAll(cookiesToClose[..i])
        invariant ProperAll(old(View()), Forgets(cookiesToClose[..i]))
        invariant View() == AppliedAll(old(View()), Forgets(cookiesToClose[..i]))
      {
        assert cookiesToClose[..i + 1][..i] == cookiesToClose[..i];
        OneMoreForgotten(old(View()), cookiesToClose[..i], cookiesToClose[i]);
        assert cookiesToClose[..i + 1] == cookiesToClose[..i] + [cookiesToClose[i]];
        CloseFlow(hub, cookiesToClose[i], Cancelled, DISCONNECTED);
      }
      assert cookiesToClose[..|cookiesToClose|] == cookiesToClose;
    }

    /** A running timer fires: it is a single-shot timer, so it stops running. */
    method HandleTimeout(hub: Hub, timer: TimerId)
      requires hub.Valid() && Valid(hub) && timer in running
      modifies this, hub`sent, hub`view, hub.store`sessions, hub.store.Repr, hub.registry, hub.queue
      ensures hub.Valid() && Valid(hub) && timer !in running
      ensures old(State(hub)).IsAwaiting(old(running[timer].cookie))
      ensures State(hub) == old(State(hub)).CloseFlow(old(running[timer].cookie), Error, NO_RESULT)
      ensures View() == old(View()).Forgotten(old(running[timer].cookie))
    {
      hide Hub.Valid, Tables.Flows, PinentryState.CloseFlow;
      var cookie := running[timer].cookie;
      FlowsMirrorTables(View(), cookie);
      CloseFlow(hub, cookie, Error, NO_RESULT);
    }
  }
}
