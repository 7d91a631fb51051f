/** What the daemon still holds for the cookies the pinentry process gave up on, and for how long. */
module LostCookies {
  import opened Basics
  import opened Messages
  import opened Sessions
  import opened Routing
  import opened Pinentry
  import opened Daemon
  import opened Summaries
  import opened Invariants
  import opened Runs
  import opened PinentryProtocol
  import R = Replies
  import P = PinentryClient

  /** The daemon holds the flow with no timer running and no request pending from any socket: nothing
      but a cancel will end it. */
  predicate HeldForGood(c: Core, id: Id) {
    id in c.flows && !c.flows[id].phase.Awaiting? && !c.flows[id].phase.Pending?
  }

  /** What the daemon holds for a cookie the process has left: a session, and a flow that its timer, or
      the disconnect of a socket already hung up, will end; or a stranded flow. */
  lemma LeftCookies(j: Joint, id: Id)
    requires Sim(j) && id in j.used && id != j.c.cookie
    ensures HeldForGood(j.d.core, id) <==> id in j.d.core.flows && id in j.stranded
    ensures id in j.d.core.flows ==>
              && id in j.lost && id in j.d.core.live && j.d.core.flows[id].owner == j.pid
              && (|| j.d.core.flows[id].phase.Awaiting?
                  || (j.d.core.flows[id].phase.Pending? &&
                     j.d.core.flows[id].phase.request.socket !in j.d.routes.connected)
                  || id in j.stranded)
  {
    hide InStep, Router.Valid;
    assert Settled(j, id) && Private(j.d.core, id);
  }

  // ----- Which cookies are stranded -----

  /** Not an act of the process's own code: somebody else acts, or a report comes late. */
  predicate Around(a: Act) {
    a.Others? || a.Late? || a.LateRetry?
  }

  /** At act `m` the process reports a retry for this cookie, and until act `k` it does nothing else. */
  ghost predicate RetriedAt(j: Joint, acts: seq<Act>, m: int, k: int, id: Id) {
    && 0 <= m < k <= |acts|
    && acts[m].Report? && acts[m].verdict.Retry? && DoAll(j, acts[..m]).c.cookie == id
    && forall n :: m < n < k ==> Around(acts[n])
  }

  /** A retry report for this cookie comes late. */
  predicate Brings(a: Act, id: Id) {
    a.LateRetry? && a.id == id
  }

  /** The report of act `m` has got through, at once or late. */
  ghost predicate Arrived(acts: seq<Act>, m: int, id: Id)
    requires 0 <= m < |acts| && acts[m].Report?
  {
    acts[m].delivered || exists l :: m < l < |acts| && Brings(acts[l], id)
  }

  /** The request that follows the report of act `m` is act `k`, and does not get through. */
  ghost predicate LostAfterReport(j: Joint, acts: seq<Act>, m: int, k: int, id: Id) {
    RetriedAt(j, acts, m, k, id) && k < |acts| && acts[k].Ask? && !acts[k].delivered
  }

  /** The request does not get through, but the report before it does. */
  ghost predicate LostAfterRetry(j: Joint, acts: seq<Act>, m: int, k: int, id: Id) {
    LostAfterReport(j, acts, m, k, id) && Arrived(acts, m, id)
  }

  lemma ArrivedLater(acts: seq<Act>, a: Act, m: int, id: Id)
    requires 0 <= m < |acts| && acts[m].Report?
    ensures Arrived(acts + [a], m, id) <==> Arrived(acts, m, id) || Brings(a, id)
  {
    var all := acts + [a];
    assert all[|acts|] == a;
    forall l | m < l < |acts|
      ensures all[l] == acts[l]
    {
    }
  }

  lemma RetriedEarlier(j: Joint, acts: seq<Act>, a: Act, m: int, k: int, id: Id)
    requires k <= |acts|
    ensures RetriedAt(j, acts + [a], m, k, id) <==> RetriedAt(j, acts, m, k, id)
  {
    hide DoAll;
    var all := acts + [a];
    if 0 <= m < k {
      assert all[..m] == acts[..m];
      assert forall n :: 0 <= n < |acts| ==> all[n] == acts[n];
    }
  }

  lemma RetriedOneMore(j: Joint, acts: seq<Act>, a: Act, m: int, id: Id)
    ensures RetriedAt(j, acts + [a], m, |acts| + 1, id) <==>
              || (m == |acts| && a.Report? && a.verdict.Retry? && DoAll(j, acts).c.cookie == id)
              || (RetriedAt(j, acts, m, |acts|, id) && Around(a))
  {
    hide DoAll;
    var all := acts + [a];
    assert all[..|acts|] == acts && all[|acts|] == a;
    if 0 <= m < |acts| {
      assert all[..m] == acts[..m];
      assert forall n :: 0 <= n < |acts| ==> all[n] == acts[n];
    }
  }

  lemma OneActMidway(j: Joint, a: Act)
    requires Can(j, a)
    ensures Do(j, a).stage.Midway? <==> (a.Report? && a.verdict.Retry?) || (j.stage.Midway? && Around(a))
    ensures a.Report? && a.verdict.Retry? ==> Do(j, a).stage == Midway(a.delivered) && Do(j, a).c.cookie == j.c.cookie
    ensures Around(a) ==> Do(j, a).c.cookie == j.c.cookie
    ensures j.stage.Midway? && Around(a) ==>
              Do(j, a).stage == Midway(j.stage.announced || Brings(a, j.c.cookie))
  {
    hide System.Step, System.Enabled, Foreign, Heard, Unheld, P.Client.Asks;
  }

  /** The process is midway exactly when its last own act was a retry report; and the report has got
      through exactly when the stage says so. */
  lemma {:induction false} MidwayExactly(j: Joint, acts: seq<Act>, m: int, id: Id)
    requires j.stage.Idle? && CanAll(j, acts)
    ensures RetriedAt(j, acts, m, |acts|, id) ==>
              DoAll(j, acts).c.cookie == id && DoAll(j, acts).stage == Midway(Arrived(acts, m, id))
    ensures DoAll(j, acts).stage.Midway? ==> exists l :: RetriedAt(j, acts, l, |acts|, DoAll(j, acts).c.cookie)
  {
    hide Do, Can, RetriedAt, Arrived;
    if acts == [] {
      assert !RetriedAt(j, acts, m, 0, id) by {
        NothingRetried(j, m, id);
      }
    } else {
      var n := |acts| - 1;
      var rest, a := acts[..n], acts[n];
      var before := DoAll(j, rest);
      assert acts == rest + [a];
      MidwayExactly(j, rest, m, id);
      OneActMidway(before, a);
      RetriedOneMore(j, rest, a, m, id);
      var now := DoAll(j, acts);
      assert now == Do(before, a);
      if RetriedAt(j, acts, m, n + 1, id) {
        RetriedIsReport(j, acts, m, id);
        if m == n {
          ArrivedAtOnce(acts, id);
          assert now.stage == Midway(a.delivered) && Arrived(acts, m, id) == a.delivered;
        } else {
          RetriedIsReport(j, rest, m, id);
          ArrivedLater(rest, a, m, id);
          assert before.stage == Midway(Arrived(rest, m, id)) && before.c.cookie == id;
          assert now.stage == Midway(Arrived(acts, m, id));
        }
      }
      if DoAll(j, acts).stage.Midway? {
        if a.Report? {
          RetriedOneMore(j, rest, a, n, before.c.cookie);
          assert RetriedAt(j, acts, n, n + 1, before.c.cookie);
        } else {
          var l :| RetriedAt(j, rest, l, n, before.c.cookie);
          RetriedOneMore(j, rest, a, l, before.c.cookie);
          assert RetriedAt(j, acts, l, n + 1, before.c.cookie);
        }
      }
    }
  }

  lemma NothingRetried(j: Joint, m: int, id: Id)
    ensures !RetriedAt(j, [], m, 0, id)
  {
  }

  lemma RetriedIsReport(j: Joint, acts: seq<Act>, m: int, id: Id)
    ensures RetriedAt(j, acts, m, |acts|, id) ==> 0 <= m < |acts| && acts[m].Report? && acts[m].verdict.Retry?
  {
  }

  lemma ArrivedAtOnce(acts: seq<Act>, id: Id)
    requires acts != []
    ensures acts[|acts| - 1].Report? ==> (Arrived(acts, |acts| - 1, id) <==> acts[|acts| - 1].delivered)
  {
  }

  /** This act drops the cookie: its request, after a retry report, does not get through. */
  ghost predicate Drops(j: Joint, a: Act, id: Id) {
    a.Ask? && !a.delivered && j.stage.Midway? && j.c.cookie == id
  }

  lemma DroppedByAct(j: Joint, a: Act, id: Id)
    ensures id in Do(j, a).dropped <==> id in j.dropped || Drops(j, a, id)
    ensures id in Do(j, a).stranded <==>
              || id in j.stranded
              || (Drops(j, a, id) && j.stage == Midway(true))
              || (a.LateRetry? && a.id == id && id in j.dropped)
  {
    hide System.Step, Heard, P.Client.Takes, P.Client.Asks, P.Client.Tells;
  }

  /** The last act drops exactly the cookie whose retry was reported last. */
  lemma DropsExactly(j: Joint, acts: seq<Act>, a: Act, id: Id)
    requires j.stage.Idle? && CanAll(j, acts)
    ensures Drops(DoAll(j, acts), a, id) <==> exists m :: LostAfterReport(j, acts + [a], m, |acts|, id)
    ensures forall m :: LostAfterReport(j, acts + [a], m, |acts|, id) ==>
              0 <= m < |acts| && acts[m].Report? && DoAll(j, acts).stage == Midway(Arrived(acts, m, id))
  {
    hide Do, Can, RetriedAt, Arrived, DoAll;
    var all := acts + [a];
    assert all[|acts|] == a;
    MidwayExactly(j, acts, 0, id);
    forall m
      ensures LostAfterReport(j, all, m, |acts|, id) <==>
                RetriedAt(j, acts, m, |acts|, id) && a.Ask? && !a.delivered
      ensures RetriedAt(j, acts, m, |acts|, id) ==>
                && 0 <= m < |acts| && acts[m].Report?
                && DoAll(j, acts).c.cookie == id && DoAll(j, acts).stage == Midway(Arrived(acts, m, id))
    {
      RetriedEarlier(j, acts, a, m, |acts|, id);
      RetriedIsReport(j, acts, m, id);
      MidwayExactly(j, acts, m, id);
    }
    if Drops(DoAll(j, acts), a, id) {
      var l :| RetriedAt(j, acts, l, |acts|, id);
      assert LostAfterReport(j, all, l, |acts|, id);
    }
  }

  lemma LostEarlier(j: Joint, acts: seq<Act>, a: Act, m: int, k: int, id: Id)
    requires k < |acts|
    ensures LostAfterReport(j, acts + [a], m, k, id) <==> LostAfterReport(j, acts, m, k, id)
    ensures LostAfterReport(j, acts, m, k, id) ==> 0 <= m < |acts| && acts[m].Report?
  {
    hide DoAll;
    RetriedEarlier(j, acts, a, m, k, id);
    if 0 <= k {
      assert (acts + [a])[k] == acts[k];
    }
  }

  lemma LostSplits(j: Joint, acts: seq<Act>, a: Act, m: int, k: int, id: Id)
    requires j.stage.Idle? && CanAll(j, acts)
    ensures var all := acts + [a];
            && (LostAfterReport(j, all, m, k, id) ==> k <= |acts|)
            && (k < |acts| ==>
                  && (LostAfterReport(j, all, m, k, id) <==> LostAfterReport(j, acts, m, k, id))
                  && (LostAfterReport(j, acts, m, k, id) ==>
                        (LostAfterRetry(j, all, m, k, id) <==>
                           LostAfterRetry(j, acts, m, k, id) || Brings(a, id))))
            && (k == |acts| && LostAfterReport(j, all, m, k, id) ==>
                  (LostAfterRetry(j, all, m, k, id) <==> DoAll(j, acts).stage == Midway(true)))
  {
    hide Do, Can, RetriedAt, Arrived, DoAll, CanAll;
    if k < |acts| {
      LostEarlier(j, acts, a, m, k, id);
      if LostAfterReport(j, acts, m, k, id) {
        ArrivedLater(acts, a, m, id);
      }
    } else if k == |acts| && LostAfterReport(j, acts + [a], m, k, id) {
      DropsExactly(j, acts, a, id);
      ArrivedLater(acts, a, m, id);
      assert (acts + [a])[k] == a;
    }
    LostIsInside(j, acts + [a], m, k, id);
  }

  lemma LostIsInside(j: Joint, acts: seq<Act>, m: int, k: int, id: Id)
    ensures LostAfterReport(j, acts, m, k, id) ==> k < |acts|
    ensures acts == [] ==> !LostAfterReport(j, acts, m, k, id)
  {
  }

  /** A cookie is dropped exactly when a request of it after a retry report did not get through; and it
      is stranded exactly when that report did, at once or late. */
  lemma {:induction false} StrandedExactly(j: Joint, acts: seq<Act>, id: Id)
    requires j.stage.Idle? && j.stranded == {} && j.dropped == {} && CanAll(j, acts)
    ensures id in DoAll(j, acts).dropped <==> exists m, k :: LostAfterReport(j, acts, m, k, id)
    ensures id in DoAll(j, acts).stranded <==> exists m, k :: LostAfterRetry(j, acts, m, k, id)
  {
    hide Do, Can, Drops, LostAfterReport, Arrived;
    if acts == [] {
      forall m, k
        ensures !LostAfterReport(j, acts, m, k, id)
      {
        LostIsInside(j, acts, m, k, id);
      }
    } else {
      var n := |acts| - 1;
      assert acts == acts[..n] + [acts[n]];
      StrandedExactly(j, acts[..n], id);
      StrandedOneMore(j, acts[..n], acts[n], id);
    }
  }

  lemma StrandedOneMore(j: Joint, acts: seq<Act>, a: Act, id: Id)
    requires j.stage.Idle? && CanAll(j, acts)
    requires id in DoAll(j, acts).dropped <==> exists m, k :: LostAfterReport(j, acts, m, k, id)
    requires id in DoAll(j, acts).stranded <==> exists m, k :: LostAfterRetry(j, acts, m, k, id)
    ensures id in Do(DoAll(j, acts), a).dropped <==> exists m, k :: LostAfterReport(j, acts + [a], m, k, id)
    ensures id in Do(DoAll(j, acts), a).stranded <==> exists m, k :: LostAfterRetry(j, acts + [a], m, k, id)
  {
    hide Do, Can, Drops, LostAfterReport, LostAfterRetry, DoAll, CanAll;
    var before, all := DoAll(j, acts), acts + [a];
    DroppedByAct(before, a, id);
    DropsExactly(j, acts, a, id);
    forall m, k
      ensures LostAfterReport(j, acts, m, k, id) ==> k < |acts| && LostAfterReport(j, all, m, k, id)
      ensures LostAfterReport(j, all, m, k, id) && k < |acts| ==> LostAfterReport(j, acts, m, k, id)
      ensures LostAfterReport(j, all, m, k, id) ==> k <= |acts|
      ensures LostAfterReport(j, acts, m, k, id) ==>
                (LostAfterRetry(j, all, m, k, id) <==> LostAfterRetry(j, acts, m, k, id) || Brings(a, id))
      ensures k == |acts| && LostAfterReport(j, all, m, k, id) ==>
                (LostAfterRetry(j, all, m, k, id) <==> before.stage == Midway(true))
      ensures LostAfterRetry(j, acts, m, k, id) ==> LostAfterReport(j, acts, m, k, id)
      ensures LostAfterRetry(j, all, m, k, id) ==> LostAfterReport(j, all, m, k, id)
    {
      LostSplits(j, acts, a, m, k, id);
      LostIsInside(j, acts, m, k, id);
      RetryIsReport(j, acts, m, k, id);
      RetryIsReport(j, all, m, k, id);
    }
    if Drops(before, a, id) && before.stage == Midway(true) {
      var m :| LostAfterReport(j, all, m, |acts|, id);
      assert LostAfterRetry(j, all, m, |acts|, id);
    }
  }

  lemma RetryIsReport(j: Joint, acts: seq<Act>, m: int, k: int, id: Id)
    ensures LostAfterRetry(j, acts, m, k, id) ==> LostAfterReport(j, acts, m, k, id)
  {
  }

  /** For every interleaving and every cookie the process has left: the daemon holds it with neither a
      socket nor a timer to end it exactly when its undelivered request followed a retry report that got
      through, at once or late, and the flow is still open. */
  lemma HeldForGoodExactly(d: System, pid: Pid, name: string, acts: seq<Act>, id: Id)
    requires d.routes.Valid() && CanAll(AtStart(d, pid, name), acts)
    requires var j := DoAll(AtStart(d, pid, name), acts); id in j.used && id != j.c.cookie
    ensures var j0 := AtStart(d, pid, name);
            var c := DoAll(j0, acts).d.core;
            HeldForGood(c, id) <==> id in c.flows && exists m, k :: LostAfterRetry(j0, acts, m, k, id)
  {
    hide Can, Do, Sim, HeldForGood, LostAfterRetry, LostAfterReport;
    StartIsInStep(d, pid, name);
    ProcessesStayInStep(AtStart(d, pid, name), acts);
    LeftCookies(DoAll(AtStart(d, pid, name), acts), id);
    StrandedExactly(AtStart(d, pid, name), acts, id);
  }

  // ----- For how long -----

  /** A user interface that may answer cancels the session. */
  predicate CancelOf(d: System, i: Input, id: Id) {
    i.Cancel? && i.id == id && d.routes.registry.Authorized(i.socket)
  }

  /** Under an input that does not meddle with it a flow held for good goes only by a cancel. */
  lemma OnlyCancelEnds(d: System, i: Input, id: Id, pid: Pid)
    requires d.Enabled(i) && Private(d.core, id) && !Meddles(d.core, i, id, pid) && HeldForGood(d.core, id)
    requires d.core.flows[id].owner == pid
    ensures id in d.Step(i).core.flows <==> !CancelOf(d, i, id)
  {
    hide Core.Step, System.Routed, System.Enabled, Whole, Sess.UpdateError;
    EnabledIsFair(d, i);
    StepTables(d.core, i, (i.Respond? || i.Cancel?) && d.routes.registry.Authorized(i.socket), d.routes.now);
    SessionOfFlow(d.core, id);
  }

  /** The input that an act brings to the daemon, if any. */
  function InputOf(j: Joint, a: Act): Option<Input> {
    match a
    case Others(i) => Some(i)
    case Ask(socket, _, m, actor, _, unused, delivered) =>
      if delivered then Some(AskPinentry(socket, j.pid, m, actor, unused)) else None
    case Report(socket, verdict, error, delivered) =>
      if delivered then Some(Input.Report(socket, j.pid, j.c.cookie, verdict, error)) else None
    case Late(socket, id, verdict, error) => Some(Input.Report(socket, j.pid, id, verdict, error))
    case LateRetry(socket, id, error) => Some(Input.Report(socket, j.pid, id, Verdict.Retry, error))
    case GiveUp => if j.stage.Waiting? then Some(HangUp(j.stage.socket)) else None
    case _ => None
  }

  lemma ActIsInput(j: Joint, a: Act)
    ensures Do(j, a).d == match InputOf(j, a) case None => j.d case Some(i) => j.d.Step(i)
  {
    hide System.Step, Heard, P.Client.Takes, P.Client.Asks, P.Client.Tells;
  }

  /** Nothing the process does touches a stranded cookie, and nobody else meddles with it. */
  lemma StrandedIsLeftAlone(j: Joint, a: Act, id: Id)
    requires Sim(j) && Can(j, a) && id in j.stranded && InputOf(j, a).Some?
    ensures j.d.Enabled(InputOf(j, a).value) && !Meddles(j.d.core, InputOf(j, a).value, id, j.pid)
    ensures !a.Others? ==> !CancelOf(j.d, InputOf(j, a).value, id)
  {
    hide System.Enabled, InStep, Settled, Private, Router.Valid, Unheld;
    if a.Report? || a.Late? || a.LateRetry? {
      ReportIsEnabled(j.d, InputOf(j, a).value);
    }
    if a.GiveUp? {
      HangUpLeavesCore(j.d, j.stage.socket);
    }
  }

  lemma StrandedUnderAct(j: Joint, a: Act, id: Id)
    requires Sim(j) && Can(j, a) && id in j.stranded && id in j.d.core.flows
    ensures id in Do(j, a).d.core.flows <==> !(a.Others? && CancelOf(j.d, a.input, id))
    ensures id in Do(j, a).stranded
  {
    hide System.Step, System.Enabled, Can, Do, Private, CancelOf, Router.Valid, InStep, Meddles;
    assert id in j.used && id != j.c.cookie && Private(j.d.core, id);
    LeftCookies(j, id);
    ActIsInput(j, a);
    DroppedByAct(j, a, id);
    if InputOf(j, a).Some? {
      StrandedIsLeftAlone(j, a, id);
      OnlyCancelEnds(j.d, InputOf(j, a).value, id, j.pid);
    }
  }

  /** A stranded flow stays open, whatever else happens and however long, until a user interface that
      may answer cancels it; nothing else ends it. */
  lemma {:induction false} StrandedUntilCancelled(j: Joint, acts: seq<Act>, id: Id)
    requires Sim(j) && CanAll(j, acts) && id in j.stranded && id in j.d.core.flows
    requires forall k :: 0 <= k < |acts| && acts[k].Others? ==> !CancelOf(DoAll(j, acts[..k]).d, acts[k].input, id)
    ensures id in DoAll(j, acts).stranded && id in DoAll(j, acts).d.core.flows && HeldForGood(DoAll(j, acts).d.core, id)
  {
    hide Sim, Can, Do, CancelOf, HeldForGood;
    if acts != [] {
      var n := |acts| - 1;
      forall k | 0 <= k < n
        ensures acts[..n][..k] == acts[..k]
      {
      }
      StrandedUntilCancelled(j, acts[..n], id);
      ProcessesStayInStep(j, acts[..n]);
      StrandedUnderAct(DoAll(j, acts[..n]), acts[n], id);
    }
    ProcessesStayInStep(j, acts);
    StrandedIsHeld(DoAll(j, acts), id);
  }

  lemma StrandedIsHeld(j: Joint, id: Id)
    requires Sim(j) && id in j.stranded && id in j.d.core.flows
    ensures HeldForGood(j.d.core, id) && id in j.used && id != j.c.cookie
  {
    hide InStep, Router.Valid, Private;
    assert Settled(j, id);
  }

  // ----- A run in which it happens -----

  /** After an answer: the error is forgotten, a description set, and GETPIN comes again. The retry gets
      through, the request, too long for the daemon, does not; then the caller goes away. */
  function Again(m: PinentryMessage, actor: Requestor, described: P.Settings): seq<Act> {
    [Configure(P.BLANK), Configure(described), Act.Report(2, Verdict.Retry, AUTH_FAILED, true),
     Ask(3, false, m, actor, "other", "unused", false), Configure(described), Quit]
  }

  /** From any state in which a result is owed and the daemon holds the flow, this strands the flow. */
  lemma LostRequestStrands(j: Joint, m: PinentryMessage, actor: Requestor, described: P.Settings)
    requires Sim(j) && j.stage.Idle? && j.c.awaiting && j.c.cookie in j.d.core.flows
    requires m.cookie == j.c.cookie && !m.confirmOnly
    ensures var id, acts := j.c.cookie, Again(m, actor, described);
            var j' := DoAll(j, acts);
            && CanAll(j, acts) && j'.stage.Over?
            && id in j'.lost && HeldForGood(j'.d.core, id) && id in j'.d.core.live
  {
    hide System.Step, System.Enabled, Private, Settled, Router.Valid, StillDue, Foreign;
    var id, acts := j.c.cookie, Again(m, actor, described);
    var i := Input.Report(2, j.pid, id, Verdict.Retry, AUTH_FAILED);
    OwnedByProcess(j, id);
    OwnReport(j.d, i, id);
    SessionStays(j.d.Step(i).core, id);
    var j1 := Do(j, acts[0]);
    var j2 := Do(j1, acts[1]);
    var j3 := Do(j2, acts[2]);
    var j4 := Do(j3, acts[3]);
    var j5 := Do(j4, acts[4]);
    assert j3.stage == Midway(true) && j3.c.cookie == id;
    assert Can(j3, acts[3]);
    assert j4.stage.Idle? && !j4.c.awaiting;
    SixActs(j, acts[0], acts[1], acts[2], acts[3], acts[4], acts[5]);
    assert acts == [acts[0], acts[1], acts[2], acts[3], acts[4], acts[5]];
  }

  lemma SixActs(j: Joint, a: Act, b: Act, c: Act, d: Act, e: Act, f: Act)
    ensures DoAll(j, [a, b, c, d, e, f]) == Do(Do(Do(Do(Do(Do(j, a), b), c), d), e), f)
    ensures CanAll(j, [a, b, c, d, e, f]) <==>
              && Can(j, a) && Can(Do(j, a), b) && Can(Do(Do(j, a), b), c) && Can(Do(Do(Do(j, a), b), c), d)
              && Can(Do(Do(Do(Do(j, a), b), c), d), e) && Can(Do(Do(Do(Do(Do(j, a), b), c), d), e), f)
  {
    hide Do, Can;
    OneMore(j, [], a);
    OneMore(j, [a], b);
    OneMore(j, [a, b], c);
    OneMore(j, [a, b, c], d);
    OneMore(j, [a, b, c, d], e);
    OneMore(j, [a, b, c, d, e], f);
    assert [] + [a] == [a] && [a] + [b] == [a, b] && [a, b] + [c] == [a, b, c] && [a, b, c] + [d] == [a, b, c, d];
    assert [a, b, c, d] + [e] == [a, b, c, d, e] && [a, b, c, d, e] + [f] == [a, b, c, d, e, f];
  }

  lemma OneMore(j: Joint, acts: seq<Act>, a: Act)
    ensures DoAll(j, acts + [a]) == Do(DoAll(j, acts), a)
    ensures CanAll(j, acts + [a]) <==> CanAll(j, acts) && Can(DoAll(j, acts), a)
  {
    hide Do, Can;
    assert (acts + [a])[..|acts|] == acts;
  }

  lemma SessionStays(c: Core, id: Id)
    requires Private(c, id) && id in c.flows
    ensures id in c.live
  {
  }

  /** An authorised answer to the pending request reaches the process, which then owes a result. */
  lemma AnswerArrives(j: Joint, ui: Socket, response: string)
    requires Sim(j) && j.stage.Waiting? && !j.stage.confirm && j.channel == [] && j.d.routes.registry.Authorized(ui)
    ensures var id, answer := j.c.cookie, Others(Respond(ui, j.c.cookie, response));
            var j1 := Do(j, answer);
            var j2 := Do(j1, Take);
            && Can(j, answer) && Can(j1, Take)
            && j1.channel == [Password(response)]
            && j2.stage.Idle? && j2.c.awaiting && j2.c.cookie == id && id in j2.d.core.flows
  {
    hide Core.Step, System.Routed, Marks, System.Enabled, Router.Valid, Whole;
    var id, i := j.c.cookie, Respond(ui, j.c.cookie, response);
    assert i.Respond? && j.d.Enabled(i) by {
      RespondIsEnabled(j.d, i);
    }
    assert !j.c.Grants(false, P.Silence);
    AnswerIsTold(j, ui, response);
  }

  /** The daemon's side of it. */
  lemma AnswerIsTold(j: Joint, ui: Socket, response: string)
    requires Sim(j) && j.stage.Waiting? && !j.stage.confirm && j.channel == [] && j.d.routes.registry.Authorized(ui)
    ensures var id, i := j.c.cookie, Respond(ui, j.c.cookie, response);
            ToldTo(Heard(j.d, i, id), j.stage.socket) == [Password(response)] && id in j.d.Step(i).core.flows
  {
    hide Core.Step, System.Routed, Marks, Router.Valid, Whole, Heard, Settled, StillDue;
    var id, i := j.c.cookie, Respond(ui, j.c.cookie, response);
    assert Held(j.d.core, id, j.pid) && Private(j.d.core, id);
    StepTables(j.d.core, i, true, j.d.routes.now);
    var r := j.d.core.flows[id].phase.request;
    assert Heard(j.d, i, id) == [R.Told(r.socket, Password(response))] by {
      AnswerIsHeard(j.d, i, id);
    }
    ToldOne(R.Told(r.socket, Password(response)), j.stage.socket);
  }

  lemma AnswerIsHeard(d: System, i: Input, id: Id)
    requires i.Respond? && i.id == id && id !in d.core.keyring && id in d.core.flows
    requires d.core.flows[id].phase.Pending? && d.routes.registry.Authorized(i.socket)
    ensures var r := d.core.flows[id].phase.request;
            Heard(d, i, id) == [R.Told(r.socket, if r.confirmOnly then Confirmed else Password(i.response))]
  {
    hide System.Step, Marks, R.Answers;
    RespondIsEnabled(d, i);
    R.RepliesExact(d, i, id);
  }

  lemma RespondIsEnabled(d: System, i: Input)
    requires i.Respond?
    ensures d.Enabled(i)
  {
  }

  const SOMEBODY := Requestor("gpg", "", "g", "gpg", 100)

  function Wanted(description: string): PinentryMessage {
    PinentryMessage("c", "Enter passphrase:", description, None, "", "", false, false)
  }

  function Described(description: string): P.Settings {
    P.BLANK.(description := description)
  }

  /** A whole run: a request, its answer, and then a second GETPIN whose description is too long. */
  function Stranding(description: string): seq<Act> {
    [Ask(1, false, Wanted(""), SOMEBODY, "c", "unused", true), Others(Respond(9, "c", "secret")), Take]
    + Again(Wanted(description), SOMEBODY, Described(description))
  }

  /** Stranding happens: after this run the process has returned, and the daemon keeps flow and session
      with neither a socket nor a timer to end them. */
  lemma StrandingHappens(description: string)
    ensures var j := AtStart(Init({1, 9}, 0), 100, "100");
            var j' := DoAll(j, Stranding(description));
            && CanAll(j, Stranding(description)) && j'.stage.Over?
            && HeldForGood(j'.d.core, "c") && "c" in j'.d.core.live
  {
    hide System.Step, Sim, HeldForGood, Do, Can;
    var d := Init({1, 9}, 0);
    var j := AtStart(d, 100, "100");
    var acts, again := Stranding(description), Again(Wanted(description), SOMEBODY, Described(description));
    InitIsSound({1, 9}, 0);
    StartIsInStep(d, 100, "100");
    FirstRequest(j);
    var j1 := Do(j, acts[0]);
    AnswerArrives(j1, 9, "secret");
    var j2 := Do(j1, acts[1]);
    var j3 := Do(j2, Take);
    ActKeepsSim(j1, acts[1]);
    ActKeepsSim(j2, Take);
    LostRequestStrands(j3, Wanted(description), SOMEBODY, Described(description));
    OneMore(j, [], acts[0]);
    OneMore(j, [acts[0]], acts[1]);
    OneMore(j, [acts[0], acts[1]], acts[2]);
    assert [] + [acts[0]] == [acts[0]] && [acts[0]] + [acts[1]] == [acts[0], acts[1]];
    var first := [acts[0], acts[1]] + [acts[2]];
    DoAllAppend(j, first, again);
    assert acts == first + again;
  }

  lemma FirstRequest(j: Joint)
    requires Sim(j) && j == AtStart(Init({1, 9}, 0), 100, "100")
    ensures var a := Stranding("")[0];
            var j1 := Do(j, a);
            && Can(j, a) && Sim(j1) && j1.stage == Waiting(1, false) && j1.channel == [] && j1.c.cookie == "c"
            && j1.d.routes.registry.Authorized(9)
  {
    hide Core.Step, Sim, Router.ApplyAll, Router.Valid;
    var a := Stranding("")[0];
    InitIsSound({1, 9}, 0);
    assert Can(j, a);
    ActKeepsSim(j, a);
    var i := AskPinentry(1, 100, Wanted(""), SOMEBODY, "unused");
    RoutesOfInit();
    EffectsKeepValid(j.d.routes, j.d.Outputs(i).out);
    var r := j.d.Step(i).routes;
    assert forall s :: s !in r.registry.providers;
    assert r.registry.providers == map[];
    assert Do(j, a).d == j.d.Step(i);
  }

  lemma RoutesOfInit()
    ensures Init({1, 9}, 0).routes.Valid()
  {
  }

  lemma {:induction false} DoAllAppend(j: Joint, a: seq<Act>, b: seq<Act>)
    ensures DoAll(j, a + b) == DoAll(DoAll(j, a), b)
    ensures CanAll(j, a + b) <==> CanAll(j, a) && CanAll(DoAll(j, a), b)
  {
    hide Do, Can;
    if b == [] {
      assert a + b == a;
    } else {
      assert (a + b)[..|a + b| - 1] == a + b[..|b| - 1];
      DoAllAppend(j, a, b[..|b| - 1]);
    }
  }
}
