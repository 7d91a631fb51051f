/** Where the text on a data line comes from: the user interface that was allowed to answer. */
module Secrets {
  import opened Basics
  import opened Messages
  import opened Routing
  import opened Daemon
  import opened PinentryProtocol
  import opened LostCookies
  import opened PinentryScripts
  import P = PinentryClient
  import S = PinentryScripts
  import R = Replies
  import T = PinentryTalk

  /** A user interface that may answer answers the flow: with what was typed, or, when only a confirmation
      was asked for, with yes; or it declines. */
  ghost predicate Gives(j: Joint, a: Act, id: Id, confirm: bool, answer: Answer) {
    a.Others? &&
    match a.input
    case Respond(s, named, response) =>
      named == id && j.d.routes.registry.Authorized(s) && answer == if confirm then Confirmed else Password(response)
    case Cancel(s, named) => named == id && j.d.routes.registry.Authorized(s) && answer == Declined
    case _ => false
  }

  /** The act gives the reply that is on its way. */
  lemma ReplyIsGiven(j: Joint, a: Act)
    requires Sim(j) && Can(j, a) && j.stage.Waiting? && j.channel == []
    requires Do(j, a).stage.Waiting? && Do(j, a).channel != []
    ensures Gives(j, a, j.c.cookie, j.stage.confirm, Do(j, a).channel[0])
    ensures Do(j, a).c.cookie == j.c.cookie && Do(j, a).stage == j.stage
  {
    hide System.Step, System.Enabled, Private, Settled, Router.Valid, Foreign, StillDue, R.Answers;
    assert a.Others?;
    R.RepliesExact(j.d, a.input, j.c.cookie);
    var reply := R.Reply(j.d.core, a.input, (a.input.Respond? || a.input.Cancel?) &&
      j.d.routes.registry.Authorized(a.input.socket), j.c.cookie);
    ToldOne(R.Lost(0), j.stage.socket);
    if reply != [] {
      assert reply == [reply[0]];
      ToldOne(reply[0], j.stage.socket);
      FlowIsPrivate(j, j.c.cookie);
    }
  }

  lemma FlowIsPrivate(j: Joint, id: Id)
    requires Sim(j) && id == j.c.cookie && id != ""
    ensures id !in j.d.core.keyring
  {
    hide System.Enabled, Settled, Router.Valid, StillDue, InStep;
  }

  /** While a reply is on its way nothing of the wait changes. */
  lemma ReplyStays(j: Joint, a: Act)
    requires Sim(j) && Can(j, a) && Sim(Do(j, a)) && j.stage.Waiting? && j.channel != [] && Do(j, a).stage.Waiting?
    ensures Do(j, a).stage == j.stage && Do(j, a).channel == j.channel && Do(j, a).c.cookie == j.c.cookie && Around(a)
  {
    hide System.Step, System.Enabled, Private, Settled, Router.Valid, Foreign, StillDue, R.Answers;
  }

  lemma WaitingMeansAround(j: Joint, a: Act)
    requires Sim(j) && Can(j, a) && Do(j, a).stage.Waiting? && Do(j, a).channel != []
    ensures j.stage.Waiting? && Around(a)
  {
    hide System.Step, System.Enabled, Private, Settled, Router.Valid, Foreign, StillDue, R.Answers;
  }

  ghost predicate GivenAt(j: Joint, acts: seq<Act>, k: nat, id: Id, confirm: bool, answer: Answer) {
    && k < |acts|
    && Gives(DoAll(j, acts[..k]), acts[k], id, confirm, answer)
    && forall m :: k <= m < |acts| ==> Around(acts[m])
  }

  /** In every interleaving: the reply on its way to the waiting process was given, since it asked, by a
      user interface that might answer at that moment, for the cookie of the request. */
  lemma {:induction false} RepliesAreGiven(j: Joint, acts: seq<Act>)
    requires Sim(j) && CanAll(j, acts) && !j.stage.Waiting?
    requires var j' := DoAll(j, acts); j'.stage.Waiting? && j'.channel != []
    ensures var j' := DoAll(j, acts);
            exists k: nat :: GivenAt(j, acts, k, j'.c.cookie, j'.stage.confirm, j'.channel[0])
  {
    hide Sim, Can, Do, Gives, Around;
    var n := |acts| - 1;
    var rest, a := acts[..n], acts[n];
    var before, j' := DoAll(j, rest), DoAll(j, acts);
    ProcessesStayInStep(j, rest);
    ActKeepsSim(before, a);
    WaitingMeansAround(before, a);
    if before.channel == [] {
      ReplyIsGiven(before, a);
      assert GivenAt(j, acts, n, j'.c.cookie, j'.stage.confirm, j'.channel[0]);
    } else {
      ReplyStays(before, a);
      RepliesAreGiven(j, rest);
      var k: nat :| GivenAt(j, rest, k, before.c.cookie, before.stage.confirm, before.channel[0]);
      assert rest[..k] == acts[..k];
      assert GivenAt(j, acts, k, j'.c.cookie, j'.stage.confirm, j'.channel[0]);
    }
  }

  /** For every script against the daemon, whatever else goes on: where a request has been settled and its
      lines are written, a data line among them carries exactly what a user interface that might answer
      typed, since the request was sent, for the cookie of the open flow. */
  lemma DataLineIsTyped(r: Running, acts: seq<Act>, a: Act, secret: string)
    requires Sim(r.j) && Placed(r) && ObeysAll(r, acts + [a]) && !r.j.stage.Waiting?
    requires var now := AdvanceAll(r, acts);
             && (now.todo.Request? || now.todo.Await?) && S.Advance(now, a).todo.Clear?
             && (now.script[0].command.GetPin? || now.script[0].command.Confirm?)
             && P.DataLine(secret) in T.Lines(now.script[0], now.j.c.pid)
    ensures exists k, s :: 0 <= k < |acts| && acts[k] == Others(Respond(s, AdvanceAll(r, acts).j.c.cookie, secret))
                           && DoAll(r.j, acts[..k]).d.routes.registry.Authorized(s)
                           && forall m :: k <= m < |acts| ==> Around(acts[m])
  {
    hide Sim, Can, Do, Placed;
    assert (acts + [a])[..|acts|] == acts;
    ScriptsAreInterleavings(r, acts);
    var now := AdvanceAll(r, acts);
    ReplyWasTaken(now, a, secret);
    RepliesAreGiven(r.j, acts);
    var k: nat :| GivenAt(r.j, acts, k, now.j.c.cookie, now.j.stage.confirm, now.j.channel[0]);
    assert acts[k] == Others(Respond(acts[k].input.socket, now.j.c.cookie, secret));
  }

  lemma ReplyWasTaken(now: Running, a: Act, secret: string)
    requires Placed(now) && Obeys(now, a) && S.Advance(now, a).todo.Clear?
    requires (now.todo.Request? || now.todo.Await?) && now.script != []
    requires now.script[0].command.GetPin? || now.script[0].command.Confirm?
    requires P.DataLine(secret) in T.Lines(now.script[0], now.j.c.pid)
    ensures now.j.stage.Waiting? && now.j.channel != [] && now.j.channel[0] == Password(secret)
  {
    hide Sim, Can, Do, Carries, FreshFor;
  }
}
