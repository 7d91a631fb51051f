/** The pinentry process and the daemon together: every interleaving of the process's calls with
    whatever else the daemon handles. */
module PinentryProtocol {
  import opened Basics
  import opened Messages
  import opened Sessions
  import opened Routing
  import opened Pinentry
  import opened Daemon
  import opened Summaries
  import opened Invariants
  import opened Runs
  import opened Endings
  import R = Replies
  import P = PinentryClient

  // ----- One flow under the daemon's other inputs -----

  /** The id is held by a pinentry flow with its session, or by nothing. */
  ghost predicate Private(c: Core, id: Id) {
    Whole(c, id) && id !in c.keyring && id !in c.attempts
  }

  /** The input claims the id for a session, or is a result from this process. */
  predicate Meddles(c: Core, i: Input, id: Id, pid: Pid) {
    || (Claim(c, i).Some? && Claim(c, i).value.0 == id)
    || (i.Report? && i.id == id && i.pid == pid)
  }

  /** The turns of the flow's story at this input. */
  ghost function Heard(d: System, i: Input, id: Id): seq<R.Turn> {
    R.Answers(MarksOf(d, i), id)
  }

  /** A flow that nobody meddles with is answered, withdrawn, timed out or left as it is. */
  lemma FlowUnderStep(d: System, i: Input, id: Id, pid: Pid)
    requires d.Enabled(i) && Private(d.core, id) && !Meddles(d.core, i, id, pid)
    requires id in d.core.flows ==> d.core.flows[id].owner == pid
    ensures var c' := d.Step(i).core;
            && Private(c', id)
            && (id !in d.core.flows ==> id !in c'.flows && Heard(d, i, id) == [])
            && (id in d.core.flows && !d.core.flows[id].phase.Pending? ==>
                  Heard(d, i, id) == [] && (id in c'.flows ==> c'.flows[id] == d.core.flows[id]))
    ensures id in d.core.flows && d.core.flows[id].phase.Pending? ==> PendingUnderStep(d, i, id)
  {
    hide Core.Step, System.Routed, Marks, Sess.UpdateError, System.Enabled, Whole;
    var authorized := (i.Respond? || i.Cancel?) && d.routes.registry.Authorized(i.socket);
    EnabledIsFair(d, i);
    StepTables(d.core, i, authorized, d.routes.now);
    StepKeepsWhole(d.core, i, authorized, d.routes.now, id);
    R.RepliesExact(d, i, id);
    SessionOfFlow(d.core, id);
  }

  lemma SessionOfFlow(c: Core, id: Id)
    requires Private(c, id)
    ensures c.AsPinentry().IsSession(id) <==> id in c.flows
    ensures id in c.live ==> id in c.flows
  {
  }

  /** A pending flow stays as it is, unanswered; or is answered and waits for the result; or is
      withdrawn; or its requester has gone. */
  ghost predicate PendingUnderStep(d: System, i: Input, id: Id)
    requires id in d.core.flows && d.core.flows[id].phase.Pending?
  {
    var f, c' := d.core.flows[id], d.Step(i).core;
    var r := f.phase.request;
    || (Heard(d, i, id) == [] && id in c'.flows && c'.flows[id] == f)
    || (i.Respond? && Heard(d, i, id) == [R.Told(r.socket, if r.confirmOnly then Confirmed else Password(i.response))]
        && id in c'.flows && c'.flows[id].owner == f.owner && c'.flows[id].phase.Awaiting?)
    || (Heard(d, i, id) == [R.Told(r.socket, Declined)] && id !in c'.flows)
    || (i.Disconnected? && i.socket == r.socket && Heard(d, i, id) == [] && id !in c'.flows)
  }

  // ----- The two processes -----

  datatype Stage =
    | Idle                                   // between commands
    | Midway(announced: bool)                // a retry has been reported; has the report got through?
    | Waiting(socket: Socket, confirm: bool) // a request has been handled, the reply is awaited
    | Over                                   // the loop has returned

  /** `channel` holds the replies on their way to the process; `used` the cookies it has used. It gave
      up on those in `lost`: the request did not get through, or no reply came in time, or the final
      report did not get through. Of these, `unheard` are the ones whose final report may still come,
      `dropped` the ones whose request was lost after a retry had been reported, and `stranded` the
      ones of these for which that report has got through. `overdue` are the cookies whose last retry
      report is still on its way, with no answer given since. `hungUp` are the sockets the process
      closed while it waited. */
  datatype Joint = Joint(
    d: System, c: P.Client, pid: Pid, stage: Stage, channel: seq<Answer>,
    used: set<Id>, lost: set<Id>, unheard: set<Id>, dropped: set<Id>, stranded: set<Id>, overdue: set<Id>,
    hungUp: set<Socket>)

  datatype Act =
    | Others(input: Input)
    | Configure(settings: P.Settings)
    | Ask(socket: Socket, confirm: bool, message: PinentryMessage, actor: Requestor, uuid: Id, unused: Id,
          delivered: bool)
    | Take
    | GiveUp
    | Report(socket: Socket, verdict: Verdict, error: string, delivered: bool)
    | Late(socket: Socket, id: Id, verdict: Verdict, error: string)  // a final report comes late
    | LateRetry(socket: Socket, id: Id, error: string)               // a retry report comes late
    | Quit

  /** The cookie of the next request. */
  function Cookie(j: Joint, uuid: Id): Id {
    if j.c.cookie == "" then uuid else j.c.cookie
  }

  ghost predicate Unheld(c: Core, id: Id) {
    id !in c.live && id !in c.flows && id !in c.keyring && id !in c.attempts
  }

  /** Nobody else uses the process's cookies, its pid, or its sockets. */
  ghost predicate Foreign(j: Joint, i: Input) {
    && (forall id :: id in j.used ==> !Meddles(j.d.core, i, id, j.pid))
    && (j.stage.Waiting? && (i.HangUp? || i.Disconnected?) ==> i.socket != j.stage.socket)
    && (i.Connect? ==> i.socket !in j.hungUp)
  }

  ghost predicate Can(j: Joint, a: Act) {
    match a
    case Others(i) => j.d.Enabled(i) && Foreign(j, i)
    case Configure(_) => j.stage.Idle?
    case Ask(socket, confirm, m, actor, uuid, unused, delivered) =>
      && MayAsk(j, confirm) && FreshFor(j, uuid)
      && m.cookie == Cookie(j, uuid) && m.confirmOnly == confirm
      && (delivered ==> socket in j.d.routes.connected && j.d.Enabled(AskPinentry(socket, j.pid, m, actor, unused)))
    case Take => j.stage.Waiting? && j.channel != []
    case GiveUp => j.stage.Waiting?
    case Report(_, verdict, _, _) =>
      j.stage.Idle? && j.c.awaiting && (verdict.Retry? || verdict.Succeeded? || verdict.Failed?)
    case Late(_, id, verdict, _) => id in j.unheard && (verdict.Succeeded? || verdict.Failed?)
    case LateRetry(_, id, _) => id in j.overdue
    case Quit => j.stage.Idle? && !j.c.awaiting
  }

  /** The process may send a request of this kind now. */
  predicate MayAsk(j: Joint, confirm: bool) {
    if j.stage.Midway? then !confirm else j.stage.Idle? && (confirm || !j.c.awaiting)
  }

  /** A made cookie is nobody's. */
  ghost predicate FreshFor(j: Joint, uuid: Id) {
    uuid != "" && (j.c.cookie == "" ==> uuid !in j.used && Unheld(j.d.core, uuid))
  }

  /** The answers told to this socket. */
  function ToldTo(turns: seq<R.Turn>, socket: Socket): seq<Answer> {
    if turns == [] then []
    else
      var t := turns[|turns| - 1];
      ToldTo(turns[..|turns| - 1], socket) + if t.Told? && t.socket == socket then [t.answer] else []
  }

  ghost function Do(j: Joint, a: Act): Joint {
    match a
    case Others(i) =>
      j.(d := j.d.Step(i),
         channel := if j.stage.Waiting? then j.channel + ToldTo(Heard(j.d, i, j.c.cookie), j.stage.socket)
           else j.channel,
         overdue := set id | id in j.overdue && Heard(j.d, i, id) == [])
    case Configure(settings) => j.(c := j.c.(settings := settings))
    case Ask(socket, confirm, m, actor, uuid, unused, delivered) =>
      var asked := j.(c := j.c.Asks(confirm, uuid), used := j.used + {Cookie(j, uuid)});
      if delivered then
        asked.(d := j.d.Step(AskPinentry(socket, j.pid, m, actor, unused)), stage := Waiting(socket, confirm))
      else
        asked.(c := asked.c.Takes(confirm, P.Silence), stage := Idle, lost := j.lost + {Cookie(j, uuid)},
               dropped := if j.stage.Midway? then j.dropped + {j.c.cookie} else j.dropped,
               stranded := if j.stage == Midway(true) then j.stranded + {j.c.cookie} else j.stranded)
    case Take =>
      if j.stage.Waiting? && j.channel != [] then
        j.(c := j.c.Takes(j.stage.confirm, P.Replied(j.channel[0])), stage := Idle, channel := j.channel[1..])
      else j
    case GiveUp =>
      if j.stage.Waiting? then
        j.(d := j.d.Step(HangUp(j.stage.socket)), c := j.c.Takes(j.stage.confirm, P.Silence),
           stage := Idle, channel := [], lost := j.lost + {j.c.cookie}, hungUp := j.hungUp + {j.stage.socket})
      else j
    case Report(socket, verdict, error, delivered) =>
      var missed := if delivered || verdict.Retry? then {} else {j.c.cookie};
      j.(d := if delivered then j.d.Step(Input.Report(socket, j.pid, j.c.cookie, verdict, error)) else j.d,
         c := j.c.Tells(verdict, error),
         stage := if verdict.Retry? then Midway(delivered) else Over,
         lost := j.lost + missed, unheard := j.unheard + missed,
         overdue := if verdict.Retry? && !delivered then j.overdue + {j.c.cookie} else j.overdue)
    case Late(socket, id, verdict, error) =>
      j.(d := j.d.Step(Input.Report(socket, j.pid, id, verdict, error)), unheard := j.unheard - {id})
    case LateRetry(socket, id, error) =>
      j.(d := j.d.Step(Input.Report(socket, j.pid, id, Verdict.Retry, error)), overdue := j.overdue - {id},
         stage := if id == j.c.cookie && j.stage.Midway? then Midway(true) else j.stage,
         stranded := if id in j.dropped then j.stranded + {id} else j.stranded)
    case Quit => j.(stage := Over)
  }

  // ----- What holds throughout -----

  predicate Held(c: Core, id: Id, pid: Pid) {
    id in c.flows && c.flows[id].owner == pid
  }

  /** The process is blocked: its request is pending, or the one reply to it is on its way and the
      daemon has moved on accordingly. */
  predicate Blocked(j: Joint)
    requires j.stage.Waiting?
  {
    var c, id := j.d.core, j.c.cookie;
    || (j.channel == [] && Held(c, id, j.pid) && c.flows[id].phase.Pending?
        && c.flows[id].phase.request.socket == j.stage.socket
        && c.flows[id].phase.request.confirmOnly == j.stage.confirm)
    || (j.channel == [Declined] && id !in c.flows)
    || (|j.channel| == 1 && j.c.Grants(j.stage.confirm, P.Replied(j.channel[0]))
        && (id in c.flows ==> Held(c, id, j.pid) && c.flows[id].phase.Awaiting?))
  }

  /** The daemon and the process are in step. */
  predicate InStep(j: Joint) {
    var c, id := j.d.core, j.c.cookie;
    && (!j.stage.Waiting? ==> j.channel == [])
    && match j.stage
       case Idle => j.c.AtRest() && (id != "" && id in c.flows ==> Held(c, id, j.pid) && c.flows[id].phase.Awaiting?)
       case Midway(announced) =>
         && !j.c.awaiting && id != ""
         && (id in c.flows ==>
               Held(c, id, j.pid) && if announced then c.flows[id].phase.Retrying? else c.flows[id].phase.Awaiting?)
       case Waiting(_, _) => id != "" && Blocked(j)
       case Over => id == "" && !j.c.awaiting
  }

  /** A cookie that is not the current one: the daemon holds nothing for it, unless it was lost. Then
      its flow may still be open, under this pid: waiting for its timer, or pending from a socket that
      was hung up, or, when it was stranded, for good. */
  ghost predicate Settled(j: Joint, id: Id) {
    id in j.d.core.flows ==>
      && id in j.lost && Held(j.d.core, id, j.pid)
      && (j.d.core.flows[id].phase.Retrying? <==> id in j.stranded)
      && (j.d.core.flows[id].phase.Pending? ==>
            id !in j.dropped && j.d.core.flows[id].phase.request.socket in j.hungUp)
  }

  /** Where a retry report that is still on its way finds its flow: before the next request, or with it
      pending, or, when that request was lost, as it was. */
  predicate StillDue(j: Joint, id: Id) {
    if id == j.c.cookie then j.stage == Midway(false) || (j.stage.Waiting? && j.channel == [])
    else
      && id in j.lost && id !in j.stranded
      && (id in j.d.core.flows && id !in j.dropped ==> j.d.core.flows[id].phase.Pending?)
  }

  ghost predicate Sim(j: Joint) {
    && "" !in j.used && j.lost <= j.used && j.unheard <= j.lost && j.stranded <= j.dropped <= j.lost
    && j.unheard !! j.dropped && j.overdue <= j.used && (forall id :: id in j.overdue ==> StillDue(j, id))
    && j.d.routes.Valid() && j.hungUp !! j.d.routes.connected
    && (j.c.cookie != "" ==> j.c.cookie in j.used && j.c.cookie !in j.lost)
    && (forall id :: id in j.used ==> Private(j.d.core, id))
    && (forall id :: id in j.used && id != j.c.cookie ==> Settled(j, id))
    && InStep(j)
  }

  function AtStart(d: System, pid: Pid, name: string): Joint {
    Joint(d, P.Client(name, P.BLANK, "", false, [], []), pid, Idle, [], {}, {}, {}, {}, {}, {}, {})
  }

  /** A process that has just started, whatever the daemon is doing. */
  lemma StartIsInStep(d: System, pid: Pid, name: string)
    requires d.routes.Valid()
    ensures Sim(AtStart(d, pid, name))
  {
  }

  // ----- Every act keeps it -----

  lemma ToldOne(turn: R.Turn, s: Socket)
    ensures ToldTo([], s) == []
    ensures ToldTo([turn], s) == if turn.Told? && turn.socket == s then [turn.answer] else []
  {
    assert [turn][..0] == [];
  }

  lemma OwnedByProcess(j: Joint, id: Id)
    requires Sim(j) && id in j.used
    ensures id != "" && Private(j.d.core, id)
    ensures id in j.d.core.flows ==> j.d.core.flows[id].owner == j.pid
  {
  }

  /** Under an input that does not meddle with it, a settled cookie stays settled. */
  lemma SettledUnderStep(j: Joint, i: Input, id: Id)
    requires Sim(j) && j.d.Enabled(i) && id in j.used && !Meddles(j.d.core, i, id, j.pid)
    ensures Private(j.d.Step(i).core, id)
    ensures Settled(j, id) ==> Settled(j.(d := j.d.Step(i)), id)
  {
    hide System.Step, System.Enabled, Meddles, Sim, Private, Heard;
    OwnedByProcess(j, id);
    FlowUnderStep(j.d, i, id, j.pid);
  }

  /** The sockets hung up stay so, and the routing tables stay consistent. */
  lemma SocketsUnderStep(j: Joint, i: Input)
    requires Sim(j) && j.d.Enabled(i) && (i.Connect? ==> i.socket !in j.hungUp)
    ensures j.d.Step(i).routes.Valid() && j.hungUp !! j.d.Step(i).routes.connected
    ensures i.HangUp? ==> j.hungUp + {i.socket} !! j.d.Step(i).routes.connected
  {
    hide System.Step, System.Enabled, Private, InStep, Settled, Router.Valid;
    StepKeepsRoutes(j.d, i);
    WorldAfterStep(j.d, i);
  }

  lemma OthersKeepCurrent(j: Joint, i: Input)
    requires Sim(j) && Can(j, Others(i))
    ensures InStep(Do(j, Others(i)))
  {
    hide System.Step, System.Enabled, Meddles, Heard, Private;
    var id := j.c.cookie;
    if id != "" {
      OwnedByProcess(j, id);
      FlowUnderStep(j.d, i, id, j.pid);
      if j.stage.Waiting? {
        ToldOne(R.Lost(0), j.stage.socket);
        if id in j.d.core.flows && j.d.core.flows[id].phase.Pending? {
          var r := j.d.core.flows[id].phase.request;
          ToldOne(R.Told(r.socket, Declined), j.stage.socket);
          if i.Respond? {
            ToldOne(R.Told(r.socket, AnswerTo(r, i.response)), j.stage.socket);
          }
        }
      }
    }
  }

  /** A retry report on its way finds its flow the same after others have acted, unless it was answered. */
  lemma OthersKeepDue(j: Joint, i: Input, id: Id)
    requires Sim(j) && Can(j, Others(i)) && id in j.overdue && Heard(j.d, i, id) == []
    ensures StillDue(Do(j, Others(i)), id)
  {
    hide System.Step, System.Enabled, Meddles, Heard, Private, Router.Valid;
    OwnedByProcess(j, id);
    FlowUnderStep(j.d, i, id, j.pid);
    if j.stage.Waiting? {
      ToldOne(R.Lost(0), j.stage.socket);
    }
    PendingStays(j.d, i, id);
  }

  lemma PendingStays(d: System, i: Input, id: Id)
    requires id in d.core.flows && d.core.flows[id].phase.Pending? ==> PendingUnderStep(d, i, id)
    ensures id in d.core.flows && d.core.flows[id].phase.Pending? && Heard(d, i, id) == [] &&
            id in d.Step(i).core.flows ==>
              d.Step(i).core.flows[id].phase.Pending?
  {
  }

  lemma OthersKeepSim(j: Joint, i: Input)
    requires Sim(j) && Can(j, Others(i))
    ensures Sim(Do(j, Others(i)))
  {
    hide System.Step, System.Enabled, Meddles, Private, InStep, Settled, Heard, Router.Valid, StillDue;
    OthersKeepCurrent(j, i);
    SocketsUnderStep(j, i);
    var j' := Do(j, Others(i));
    forall id | id in j.used
      ensures Private(j'.d.core, id) && (id != j.c.cookie ==> Settled(j', id))
    {
      SettledUnderStep(j, i, id);
      SettledSame(j.(d := j.d.Step(i)), j', id);
    }
    forall id | id in j'.overdue
      ensures StillDue(j', id)
    {
      OthersKeepDue(j, i, id);
    }
  }

  lemma SettledSame(j: Joint, j': Joint, id: Id)
    requires j.d.core == j'.d.core && j.lost == j'.lost && j.pid == j'.pid && j.hungUp == j'.hungUp
    requires (id in j.stranded <==> id in j'.stranded) && (id in j.dropped <==> id in j'.dropped)
    ensures Settled(j, id) == Settled(j', id)
  {
  }

  /** The process's own request: the flow is pending from its socket, whatever was left of it before. */
  lemma OwnRequest(d: System, i: Input, id: Id)
    requires i.AskPinentry? && d.Enabled(i) && id != "" && i.pinentryMessage.cookie == id
    requires Private(d.core, id) && (id in d.core.flows ==> d.core.flows[id].owner == i.pid)
    ensures var c' := d.Step(i).core;
            && Private(c', id) && Held(c', id, i.pid)
            && c'.flows[id].phase.Pending? && c'.flows[id].phase.request.socket == i.socket
            && c'.flows[id].phase.request.confirmOnly == i.pinentryMessage.confirmOnly
  {
    hide Core.Step, System.Routed, System.Enabled, Whole;
    EnabledIsFair(d, i);
    StepTables(d.core, i, false, d.routes.now);
    StepKeepsWhole(d.core, i, false, d.routes.now, id);
    assert !Collides(d.core, i) by {
      SourceOfPrivate(d.core, id);
    }
  }

  lemma SourceOfPrivate(c: Core, id: Id)
    requires Private(c, id)
    ensures id in c.live ==> c.live[id].source.Pinentry?
  {
  }

  lemma UnheldIsPrivate(c: Core, id: Id)
    requires Unheld(c, id)
    ensures Private(c, id)
  {
  }

  lemma AskKeepsSim(j: Joint, a: Act)
    requires Sim(j) && a.Ask? && a.delivered && Can(j, a)
    ensures Sim(Do(j, a))
  {
    hide System.Step, System.Enabled, Private, Settled, Unheld, Router.Valid;
    var i := AskPinentry(a.socket, j.pid, a.message, a.actor, a.unused);
    var current := Cookie(j, a.uuid);
    var j' := Do(j, a);
    CookieIsPrivate(j, a.uuid);
    OwnRequest(j.d, i, current);
    SocketsUnderStep(j, i);
    forall id | id in j.used && id != current
      ensures Private(j'.d.core, id) && Settled(j', id)
    {
      SettledUnderStep(j, i, id);
      SettledSame(j.(d := j.d.Step(i)), j', id);
    }
    forall id | id in j.overdue && id != current
      ensures StillDue(j', id)
    {
      assert StillDue(j, id);
      DueUnderStep(j, i, id);
      DueSame(j.(d := j.d.Step(i)), j', id);
    }
  }

  lemma CookieIsPrivate(j: Joint, uuid: Id)
    requires Sim(j) && FreshFor(j, uuid) && (j.stage.Idle? || j.stage.Midway?)
    ensures var id := Cookie(j, uuid);
            && id != "" && Private(j.d.core, id) && id !in j.lost
            && (id in j.d.core.flows ==> j.d.core.flows[id].owner == j.pid)
            && (j.c.cookie == "" ==> id !in j.d.core.flows)
  {
    hide Private;
    if j.c.cookie == "" {
      UnheldIsPrivate(j.d.core, uuid);
    } else {
      OwnedByProcess(j, j.c.cookie);
    }
  }

  /** A request that does not get through: the process forgets the cookie; the daemon is as it was. */
  lemma LostAskKeepsSim(j: Joint, a: Act)
    requires Sim(j) && a.Ask? && !a.delivered && Can(j, a)
    ensures Sim(Do(j, a))
  {
    hide Private, Unheld, Router.Valid;
    var current := Cookie(j, a.uuid);
    var j' := Do(j, a);
    CookieIsPrivate(j, a.uuid);
    forall id | id in j.used && id != current
      ensures Settled(j', id)
    {
      SettledGrows(j, j', id);
    }
  }

  /** The process's own report: a retry keeps the flow, a final result ends it. */
  lemma OwnReport(d: System, i: Input, id: Id)
    requires i.Report? && i.id == id && id != "" && !i.verdict.Unknown?
    requires Private(d.core, id) && (id in d.core.flows ==> d.core.flows[id].owner == i.pid)
    ensures var c' := d.Step(i).core;
            && Private(c', id)
            && (!i.verdict.Retry? ==> id !in c'.flows)
            && (i.verdict.Retry? ==> (id in c'.flows <==> id in d.core.flows))
            && (i.verdict.Retry? && id in d.core.flows ==>
                  && c'.flows[id].owner == i.pid
                  && c'.flows[id].phase ==
                     if d.core.flows[id].phase.Awaiting? then Retrying else d.core.flows[id].phase)
  {
    hide Core.Step, System.Routed, Whole, Sess.UpdateError;
    StepTables(d.core, i, false, d.routes.now);
    StepKeepsWhole(d.core, i, false, d.routes.now, id);
    SessionOfFlow(d.core, id);
  }

  lemma ReportKeepsSim(j: Joint, a: Act)
    requires Sim(j) && a.Report? && Can(j, a)
    ensures Sim(Do(j, a))
  {
    hide System.Step, System.Enabled, Private, Settled, Meddles, Router.Valid;
    var id := j.c.cookie;
    var i := Input.Report(a.socket, j.pid, id, a.verdict, a.error);
    var j' := Do(j, a);
    OwnedByProcess(j, id);
    OwnReport(j.d, i, id);
    ReportIsEnabled(j.d, i);
    SocketsUnderStep(j, i);
    forall o | o in j.used && o != id
      ensures Private(j'.d.core, o) && Settled(j', o)
    {
      OnlyOwnReport(j.d.core, i, o, j.pid);
      SettledUnderStep(j, i, o);
      SettledGrows(if a.delivered then j.(d := j.d.Step(i)) else j, j', o);
    }
    forall o | o in j.overdue && o != id
      ensures StillDue(j', o)
    {
      assert StillDue(j, o);
      OnlyOwnReport(j.d.core, i, o, j.pid);
      DueUnderStep(j, i, o);
      DueSame(if a.delivered then j.(d := j.d.Step(i)) else j, j', o);
    }
    if !a.verdict.Retry? {
      CurrentSettled(j', id);
    }
  }

  /** A final report that comes late ends what was left of its flow. */
  lemma LateKeepsSim(j: Joint, a: Act)
    requires Sim(j) && a.Late? && Can(j, a)
    ensures Sim(Do(j, a))
  {
    hide System.Step, System.Enabled, Private, Settled, Meddles, Router.Valid;
    var i := Input.Report(a.socket, j.pid, a.id, a.verdict, a.error);
    var j' := Do(j, a);
    OwnedByProcess(j, a.id);
    OwnReport(j.d, i, a.id);
    ReportIsEnabled(j.d, i);
    SocketsUnderStep(j, i);
    forall o | o in j.used && o != a.id
      ensures Private(j'.d.core, o) && (o != j.c.cookie ==> Settled(j', o))
    {
      OnlyOwnReport(j.d.core, i, o, j.pid);
      SettledUnderStep(j, i, o);
      SettledSame(j.(d := j.d.Step(i)), j', o);
    }
    CurrentSettled(j', a.id);
    LateKeepsCurrent(j, a);
    forall o | o in j'.overdue && o != a.id && o != j.c.cookie
      ensures StillDue(j', o)
    {
      assert StillDue(j, o);
      OnlyOwnReport(j.d.core, i, o, j.pid);
      DueUnderStep(j, i, o);
      DueSame(j.(d := j.d.Step(i)), j', o);
    }
    if a.id in j'.overdue {
      assert StillDue(j, a.id);
    }
    if j.c.cookie in j'.overdue {
      assert StillDue(j, j.c.cookie);
    }
  }

  /** A retry report that comes late, but before the next answer, leaves a pending request pending, and
      any other flow as one that was reported at once. */
  lemma LateRetryKeepsSim(j: Joint, a: Act)
    requires Sim(j) && a.LateRetry? && Can(j, a)
    ensures Sim(Do(j, a))
  {
    hide System.Step, System.Enabled, Private, Settled, Meddles, Router.Valid, InStep;
    var i := Input.Report(a.socket, j.pid, a.id, Verdict.Retry, a.error);
    var j' := Do(j, a);
    OwnedByProcess(j, a.id);
    OwnReport(j.d, i, a.id);
    ReportIsEnabled(j.d, i);
    SocketsUnderStep(j, i);
    assert StillDue(j, a.id);
    forall o | o in j.used && o != a.id
      ensures Private(j'.d.core, o) && (o != j.c.cookie ==> Settled(j', o))
      ensures o in j.overdue && o != j.c.cookie ==> StillDue(j', o)
    {
      OnlyOwnReport(j.d.core, i, o, j.pid);
      SettledUnderStep(j, i, o);
      SettledSame(j.(d := j.d.Step(i)), j', o);
      if o in j.overdue && o != j.c.cookie {
        assert StillDue(j, o);
        DueUnderStep(j, i, o);
        DueSame(j.(d := j.d.Step(i)), j', o);
      }
    }
    if j.c.cookie in j'.overdue {
      assert StillDue(j, j.c.cookie);
    }
    LateRetryKeepsCurrent(j, a);
    if a.id != j.c.cookie {
      LateRetrySettles(j, a);
    }
  }

  lemma LateRetryKeepsCurrent(j: Joint, a: Act)
    requires Sim(j) && a.LateRetry? && Can(j, a)
    ensures InStep(Do(j, a))
  {
    hide System.Step, System.Enabled, Meddles, Private, Heard, Router.Valid, Settled;
    var i, id := Input.Report(a.socket, j.pid, a.id, Verdict.Retry, a.error), j.c.cookie;
    assert StillDue(j, a.id);
    ReportIsEnabled(j.d, i);
    if id != "" {
      OwnedByProcess(j, id);
      if a.id == id {
        OwnReport(j.d, i, id);
        if j.stage.Waiting? {
          RetryKeepsRequest(j.d, i, id);
        }
      } else {
        OnlyOwnReport(j.d.core, i, id, j.pid);
        FlowUnderStep(j.d, i, id, j.pid);
        OwnMessagesAnswerNobody(j.d, i, id);
      }
    }
  }

  lemma RetryKeepsRequest(d: System, i: Input, id: Id)
    requires i.Report? && i.id == id && i.verdict.Retry? && id in d.core.flows && d.core.flows[id].phase.Pending?
    ensures id in d.Step(i).core.flows && d.Step(i).core.flows[id].phase == d.core.flows[id].phase
  {
    hide Core.Step, System.Routed, Sess.UpdateError;
    StepTables(d.core, i, false, d.routes.now);
  }

  lemma LateRetrySettles(j: Joint, a: Act)
    requires Sim(j) && a.LateRetry? && Can(j, a) && a.id != j.c.cookie
    ensures Settled(Do(j, a), a.id)
  {
    hide System.Step, System.Enabled, Meddles, Heard, Router.Valid, InStep;
    var i := Input.Report(a.socket, j.pid, a.id, Verdict.Retry, a.error);
    OwnedByProcess(j, a.id);
    OwnReport(j.d, i, a.id);
    assert Settled(j, a.id) && StillDue(j, a.id);
  }

  lemma LateKeepsCurrent(j: Joint, a: Act)
    requires Sim(j) && a.Late? && Can(j, a)
    ensures InStep(Do(j, a))
  {
    hide System.Step, System.Enabled, Meddles, Private, Heard, Router.Valid;
    var i, id := Input.Report(a.socket, j.pid, a.id, a.verdict, a.error), j.c.cookie;
    if id != "" {
      OwnedByProcess(j, id);
      OnlyOwnReport(j.d.core, i, id, j.pid);
      ReportIsEnabled(j.d, i);
      FlowUnderStep(j.d, i, id, j.pid);
      OwnMessagesAnswerNobody(j.d, i, id);
    }
  }

  /** The process's own messages answer nobody. */
  lemma OwnMessagesAnswerNobody(d: System, i: Input, id: Id)
    requires (i.Report? || i.AskPinentry?) && d.Enabled(i)
    ensures Heard(d, i, id) == []
  {
    hide System.Enabled, Marks, Core.Step;
    R.RepliesExact(d, i, id);
  }

  /** Under an own message about another cookie, a retry report on its way finds its flow the same. */
  lemma DueUnderStep(j: Joint, i: Input, id: Id)
    requires Sim(j) && j.d.Enabled(i) && id in j.overdue && id != j.c.cookie
    requires (i.Report? || i.AskPinentry?) && !Meddles(j.d.core, i, id, j.pid)
    ensures StillDue(j.(d := j.d.Step(i)), id)
  {
    hide System.Step, System.Enabled, Meddles, Private, Heard, Router.Valid, InStep;
    assert StillDue(j, id);
    OwnedByProcess(j, id);
    OwnMessagesAnswerNobody(j.d, i, id);
    FlowUnderStep(j.d, i, id, j.pid);
    PendingStays(j.d, i, id);
  }

  lemma DueSame(j: Joint, j': Joint, id: Id)
    requires StillDue(j, id) && id != j.c.cookie && id != j'.c.cookie && j.d.core == j'.d.core && j.lost <= j'.lost
    requires (id in j.stranded <==> id in j'.stranded) && (id in j.dropped <==> id in j'.dropped)
    ensures StillDue(j', id)
  {
  }

  lemma ReportIsEnabled(d: System, i: Input)
    requires i.Report?
    ensures d.Enabled(i)
  {
  }

  lemma OnlyOwnReport(c: Core, i: Input, o: Id, pid: Pid)
    requires i.Report? && i.id != o
    ensures !Meddles(c, i, o, pid)
  {
  }

  lemma SettledGrows(j: Joint, j': Joint, id: Id)
    requires j.d.core == j'.d.core && j.lost <= j'.lost && j.pid == j'.pid && j.hungUp <= j'.hungUp && Settled(j, id)
    requires (id in j.stranded <==> id in j'.stranded) && (id in j.dropped <==> id in j'.dropped)
    ensures Settled(j', id)
  {
  }

  lemma CurrentSettled(j: Joint, id: Id)
    requires id in j.d.core.flows ==>
               && id in j.lost && Held(j.d.core, id, j.pid)
               && (j.d.core.flows[id].phase.Retrying? <==> id in j.stranded)
               && (j.d.core.flows[id].phase.Pending? ==>
                     id !in j.dropped && j.d.core.flows[id].phase.request.socket in j.hungUp)
    ensures Settled(j, id)
  {
  }

  lemma HangUpLeavesCore(d: System, s: Socket)
    ensures d.Step(HangUp(s)).core == d.core && d.Enabled(HangUp(s))
  {
  }

  lemma QuietKeepsSim(j: Joint, a: Act)
    requires Sim(j) && Can(j, a) && (a.Take? || a.GiveUp? || a.Configure? || a.Quit?)
    ensures Sim(Do(j, a))
  {
    hide System.Step, System.Enabled, Private, Settled, Router.Valid;
    var j', id := Do(j, a), j.c.cookie;
    if a.GiveUp? {
      HangUpLeavesCore(j.d, j.stage.socket);
      SocketsUnderStep(j, HangUp(j.stage.socket));
    }
    forall o | o in j.used && o != id
      ensures Settled(j', o)
    {
      SettledGrows(j, j', o);
    }
    if j'.c.cookie != id {
      CurrentSettled(j', id);
    }
  }

  lemma ActKeepsSim(j: Joint, a: Act)
    requires Sim(j) && Can(j, a)
    ensures Sim(Do(j, a))
  {
    hide Sim, Can, Do;
    match a
    case Others(i) => OthersKeepSim(j, i);
    case Ask(_, _, _, _, _, _, delivered) =>
      if delivered {
        AskKeepsSim(j, a);
      } else {
        LostAskKeepsSim(j, a);
      }
    case Report(_, _, _, _) => ReportKeepsSim(j, a);
    case Late(_, _, _, _) => LateKeepsSim(j, a);
    case LateRetry(_, _, _) => LateRetryKeepsSim(j, a);
    case _ => QuietKeepsSim(j, a);
  }

  // ----- Runs of the two processes -----

  ghost function DoAll(j: Joint, acts: seq<Act>): Joint {
    if acts == [] then j else Do(DoAll(j, acts[..|acts| - 1]), acts[|acts| - 1])
  }

  ghost predicate CanAll(j: Joint, acts: seq<Act>) {
    acts == [] || (CanAll(j, acts[..|acts| - 1]) && Can(DoAll(j, acts[..|acts| - 1]), acts[|acts| - 1]))
  }

  /** In every interleaving the two processes stay in step: between commands a result is owed exactly
      when a flow is open, and the daemon then holds it awaiting under this pid or not at all; a blocked
      process always has its request pending or the one reply to it on its way. */
  lemma {:induction false} ProcessesStayInStep(j: Joint, acts: seq<Act>)
    requires Sim(j) && CanAll(j, acts)
    ensures Sim(DoAll(j, acts))
  {
    hide Sim, Can, Do;
    if acts != [] {
      var rest := acts[..|acts| - 1];
      ProcessesStayInStep(j, rest);
      ActKeepsSim(DoAll(j, rest), acts[|acts| - 1]);
    }
  }

  /** When the loop has returned, the daemon holds no flow and no session for any cookie the process
      used, other than those it gave up on. */
  lemma NothingIsLeftBehind(d: System, pid: Pid, name: string, acts: seq<Act>, id: Id)
    requires d.routes.Valid() && CanAll(AtStart(d, pid, name), acts)
    requires var j := DoAll(AtStart(d, pid, name), acts); j.stage.Over? && id in j.used && id !in j.lost
    ensures var c := DoAll(AtStart(d, pid, name), acts).d.core;
            id !in c.flows && id !in c.live
  {
    hide Can, Do;
    StartIsInStep(d, pid, name);
    ProcessesStayInStep(AtStart(d, pid, name), acts);
    SessionOfFlow(DoAll(AtStart(d, pid, name), acts).d.core, id);
  }
}
