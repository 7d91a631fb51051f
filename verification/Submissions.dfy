/** Answered pinentry flows over time: who may report on them, and how long they wait. */
module Submissions {
  import opened Basics
  import opened Messages
  import opened Sessions
  import opened Pinentry
  import opened Daemon
  import opened Summaries
  import opened Invariants
  import opened Runs
  import opened Endings

  /** A result is answered "ok" exactly when it is a known one, for a pinentry session, from the process
      that owns the flow; the check for a foreign owner alone would let unowned cookies pass. */
  lemma OkMeansOwner(d: System, s: Socket, pid: Pid, id: Id, verdict: Verdict, error: string)
    requires Sound(d)
    ensures Send(s, Ok(None)) in d.Outputs(Report(s, pid, id, verdict, error)).out <==>
            && id != "" && !verdict.Unknown?
            && IsLive(d.core, id, Source.Pinentry) && id in d.core.flows && d.core.flows[id].owner == pid
  {
    hide PinentryState.Sound;
    var p := d.core.AsPinentry();
    assert p.Owned() by {
      OwnedFromSound(p);
    }
    var o := d.core.WithPinentry(p.Result(id, verdict, error, pid));
    ReportSendsNothing(p, id, verdict, error, pid);
    assert d.Outputs(Report(s, pid, id, verdict, error)).out == o.out + [Send(s, p.ResultReply(id, verdict, pid))];
  }

  lemma OwnedFromSound(p: PinentryState)
    requires p.Sound()
    ensures p.Owned()
  {
  }

  lemma ReportSendsNothing(p: PinentryState, id: Id, verdict: Verdict, error: string, pid: Pid)
    requires p.sess.out == []
    ensures forall e :: e in p.Result(id, verdict, error, pid).sess.out ==> !e.Send?
  {
  }

  // ----- Deadlines -----

  predicate Awaits(c: Core, id: Id) {
    id in c.flows && c.flows[id].phase.Awaiting?
  }

  /** Every answered flow is due within 10 seconds, and not overdue. */
  ghost predicate Timely(d: System) {
    forall id :: Awaits(d.core, id) ==>
      d.routes.now <= d.core.flows[id].phase.deadline <= d.routes.now + 10000
  }

  /** The inputs that settle what an answered flow waits for: its owner's next request or result, a
      cancel, its timer. */
  predicate Settles(d: System, i: Input, id: Id) {
    var p := d.core.AsPinentry();
    match i
    case AskPinentry(_, pid, m, _, uuid) => OrElse(m.cookie, uuid) == id && !p.OwnedByOther(id, pid)
    case Report(_, pid, named, verdict, _) => named == id && p.AcceptsResult(id, pid) && !verdict.Unknown?
    case Cancel(s, named) => named == id && d.routes.registry.Authorized(s) && id !in d.core.keyring
    case Timeout(named) => named == id
    case _ => false
  }

  lemma AwaitingUntilSettled(d: System, i: Input, id: Id)
    requires d.Enabled(i)
    ensures Awaits(d.core, id) && !Settles(d, i, id) ==>
              id in d.Step(i).core.flows && d.Step(i).core.flows[id] == d.core.flows[id]
    ensures Awaits(d.Step(i).core, id) ==>
              || (Awaits(d.core, id) && d.Step(i).core.flows[id].phase == d.core.flows[id].phase)
              || d.Step(i).core.flows[id].phase.deadline == d.routes.now + 10000
    ensures Awaits(d.core, id) && Settles(d, i, id) ==> !Awaits(d.Step(i).core, id)
  {
    hide Core.Step, System.Routed, Sess.UpdateError, System.Enabled;
    EnabledIsFair(d, i);
    StepTables(d.core, i, (i.Respond? || i.Cancel?) && d.routes.registry.Authorized(i.socket), d.routes.now);
  }

  lemma StepKeepsTimely(d: System, i: Input)
    requires Sound(d) && Timely(d) && d.Enabled(i)
    ensures Timely(d.Step(i))
  {
    hide Core.Step, System.Routed, Settles;
    WorldAfterStep(d, i);
    forall id | Awaits(d.Step(i).core, id)
      ensures d.Step(i).routes.now <= d.Step(i).core.flows[id].phase.deadline
      ensures d.Step(i).core.flows[id].phase.deadline <= d.Step(i).routes.now + 10000
    {
      AwaitingUntilSettled(d, i, id);
      AdvanceLeavesFlows(d, i);
    }
  }

  lemma AdvanceLeavesFlows(d: System, i: Input)
    ensures i.Advance? ==> d.Step(i).core == d.core
  {
  }

  /** In every run an answered flow waits no longer than 10 seconds. */
  lemma {:induction false} AnswersAreTimely(d: System, run: seq<Input>)
    requires Sound(d) && Timely(d) && Admissible(d, run)
    ensures Timely(After(d, run))
  {
    hide Sound, Timely, System.Step, System.Enabled;
    if run != [] {
      var rest := run[..|run| - 1];
      AnswersAreTimely(d, rest);
      RunKeepsSound(d, rest);
      StepKeepsTimely(After(d, rest), run[|run| - 1]);
    }
  }

  /** A flow that nothing settles keeps waiting under its first deadline. */
  lemma {:induction false} WaitsUnderOneDeadline(d: System, run: seq<Input>, id: Id)
    requires Sound(d) && Admissible(d, run) && Awaits(d.core, id)
    requires forall k :: 0 <= k < |run| ==> !Settles(Before(d, run, k), run[k], id)
    ensures id in After(d, run).core.flows && After(d, run).core.flows[id] == d.core.flows[id]
  {
    hide Sound, System.Step, System.Enabled, Settles;
    if run != [] {
      var n := |run| - 1;
      var rest := run[..n];
      forall k | 0 <= k < n
        ensures Before(d, rest, k) == Before(d, run, k)
      {
        assert rest[..k] == run[..k];
      }
      WaitsUnderOneDeadline(d, rest, id);
      assert Before(d, run, n) == After(d, rest);
      AwaitingUntilSettled(After(d, rest), run[n], id);
    }
  }

  /** Once more than 10 seconds have passed, something settled an answered flow: the next
      request or result of its owner, a cancel, or its timer. */
  lemma AnsweredFlowIsSettled(d: System, run: seq<Input>, id: Id)
    requires Sound(d) && Timely(d) && Admissible(d, run) && Awaits(d.core, id)
    requires After(d, run).routes.now > d.routes.now + 10000
    ensures exists k :: 0 <= k < |run| && Settles(Before(d, run, k), run[k], id)
  {
    hide Sound, System.Enabled, System.Step, Settles;
    AnswersAreTimely(d, run);
    if forall k :: 0 <= k < |run| ==> !Settles(Before(d, run, k), run[k], id) {
      WaitsUnderOneDeadline(d, run, id);
    }
  }

  /** When the timer is what settles it, the flow is gone, its session, unless another source has taken
      the id over, ends with an error, and nobody is answered. */
  lemma TimeoutEndsFlow(d: System, id: Id)
    requires Sound(d) && d.Enabled(Timeout(id))
    ensures var d' := d.Step(Timeout(id));
            && id !in d'.core.flows
            && MarksOf(d, Timeout(id)) == (if IsLive(d.core, id, Source.Pinentry) then [Ended(id, Error)] else [])
            && (id in d'.core.live <==> id in d.core.live && !d.core.live[id].source.Pinentry?)
            && (Whole(d.core, id) ==> IsLive(d.core, id, Source.Pinentry))
  {
    hide Core.Step, System.Routed, Marks;
    StepTables(d.core, Timeout(id), false, d.routes.now);
    SourcesAfterStep(d.core, Timeout(id), false, d.routes.now);
    StepGist(d.core, Timeout(id), false, d.routes.now);
    LiveSources(d.core);
    LiveSources(d.Step(Timeout(id)).core);
  }

  // ----- Nobody settles it -----

  /** No request, result or cancel settles the flow in the run, and nobody overtakes its session: only
      its timer may act. */
  ghost predicate LeftToItsTimer(d: System, run: seq<Input>, id: Id) {
    run == [] ||
    var before, i := After(d, run[..|run| - 1]), run[|run| - 1];
    && LeftToItsTimer(d, run[..|run| - 1], id)
    && (Settles(before, i, id) ==> i.Timeout?)
    && !Overtakes(before.core, i, id)
  }

  /** Either the flow still waits as at the start, or its timer has fired and its session ended. */
  ghost predicate WaitsOrEnded(d: System, run: seq<Input>, id: Id)
    requires id in d.core.flows
  {
    || (id in After(d, run).core.flows && After(d, run).core.flows[id] == d.core.flows[id] &&
       Whole(After(d, run).core, id))
    || Ended(id, Error) in Marks(Trace(d, run))
  }

  lemma {:induction false} WaitsOrEnds(d: System, run: seq<Input>, id: Id)
    requires Sound(d) && Admissible(d, run) && Awaits(d.core, id) && Whole(d.core, id) && LeftToItsTimer(d, run, id)
    ensures WaitsOrEnded(d, run, id)
  {
    hide Sound, System.Step, System.Enabled, System.Outputs, Settles, Overtakes, Whole, Marks;
    if run != [] {
      var rest, i := run[..|run| - 1], run[|run| - 1];
      var before := After(d, rest);
      WaitsOrEnds(d, rest, id);
      RunMarks(d, run);
      RunKeepsSound(d, rest);
      if Ended(id, Error) !in Marks(Trace(d, rest)) {
        if Settles(before, i, id) {
          TimerOfSettles(before, i, id);
          TimeoutEndsFlow(before, id);
          assert Ended(id, Error) in MarksOf(before, i);
        } else {
          AwaitingUntilSettled(before, i, id);
          WholeAfterInput(before, i, id);
        }
      }
    }
  }

  lemma TimerOfSettles(d: System, i: Input, id: Id)
    requires Settles(d, i, id) && i.Timeout?
    ensures i == Timeout(id)
  {
  }

  /** An answered flow that no request, result or cancel settles is ended by its timer: once the clock
      has passed its deadline, its session has ended with an error. */
  lemma UnsettledFlowEndsInError(d: System, run: seq<Input>, id: Id)
    requires Sound(d) && Timely(d) && Admissible(d, run) && Awaits(d.core, id) && Whole(d.core, id)
    requires LeftToItsTimer(d, run, id) && After(d, run).routes.now > d.core.flows[id].phase.deadline
    ensures Ended(id, Error) in Marks(Trace(d, run))
  {
    hide Sound, System.Step, System.Enabled, Marks, Whole, LeftToItsTimer;
    WaitsOrEnds(d, run, id);
    AnswersAreTimely(d, run);
  }
}
