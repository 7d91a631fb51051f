/** The command loop of the pinentry process as acts of the two-process protocol: handling a command
    is a sequence of acts, so whatever holds of every interleaving of acts holds of every script. */
module PinentryScripts {
  import opened Basics
  import opened Messages
  import opened Pinentry
  import opened Daemon
  import opened Routing
  import opened PinentryProtocol
  import opened LostCookies
  import P = PinentryClient

  /** What the process does next. */
  datatype Todo =
    | Announce                  // report a retry: GETPIN while a result is owed
    | Request(confirm: bool)       // send the request of GETPIN or CONFIRM
    | Await(confirm: bool)      // wait for the reply
    | Clear                     // forget the error
    | Put(settings: P.Settings) // a command that only changes settings, or nothing
    | Close                     // BYE or the end of the stream
    | Ended

  /** The processes, the commands left, the one being handled first, and how far its handling is. */
  datatype Running = Running(j: Joint, script: seq<P.Turn>, todo: Todo)

  function First(c: P.Client, script: seq<P.Turn>): Todo {
    if script == [] || script[0].command.Bye? then Close
    else
      match script[0].command
      case GetPin => if c.awaiting then Announce else Request(false)
      case Confirm => Request(true)
      case _ => Put(P.Changed(c.settings, script[0].command))
  }

  /** The message carries what the process puts into its request. */
  predicate Carries(c: P.Client, confirm: bool, uuid: Id, m: PinentryMessage) {
    var calls := c.Asks(confirm, uuid).calls;
    calls[|calls| - 1] == P.Ask(m.cookie, m.prompt, m.description, m.error, m.keyinfo, m.repeat, m.confirmOnly)
  }

  /** The act is the world's, or it is what the code does at this point; the script tells which reply
      and which made id the world supplies. */
  ghost predicate Obeys(r: Running, a: Act) {
    if Around(a) then Can(r.j, a)
    else
      match r.todo
      case Announce => a.Report? && a.verdict.Retry? && a.error == OrElse(r.j.c.settings.error, AUTH_FAILED)
      case Request(confirm) =>
        && r.script != [] && a.Ask? && a.confirm == confirm && a.uuid == r.script[0].uuid && FreshFor(r.j, a.uuid)
        && Carries(r.j.c, confirm, a.uuid, a.message)
        && (if a.delivered
            then a.socket in r.j.d.routes.connected
                 && r.j.d.Enabled(AskPinentry(a.socket, r.j.pid, a.message, a.actor, a.unused))
            else !r.script[0].reply.Replied?)
      case Await(confirm) =>
        && r.script != []
        && if a.Take? then r.j.channel != [] && r.script[0].reply == P.Replied(r.j.channel[0])
           else a.GiveUp? && !r.script[0].reply.Replied?
      case Clear => a == Configure(r.j.c.settings.(error := ""))
      case Put(settings) => a == Configure(settings)
      case Close =>
        if !r.j.c.awaiting then a.Quit?
        else if r.j.c.settings.error != "" then a.Report? && a.verdict.Failed? && a.error == r.j.c.settings.error
        else a.Report? && a.verdict.Succeeded? && a.error == ""
      case Ended => false
  }

  ghost function Advance(r: Running, a: Act): Running {
    var j := Do(r.j, a);
    if Around(a) || (r.script == [] && !r.todo.Close?) then r.(j := j)
    else
      match r.todo
      case Announce => Running(j, r.script, Request(false))
      case Request(confirm) => Running(j, r.script, if a.Ask? && a.delivered then Await(confirm) else Clear)
      case Await(_) => Running(j, r.script, Clear)
      case Clear => Running(j, r.script[1..], First(j.c, r.script[1..]))
      case Put(_) => Running(j, r.script[1..], First(j.c, r.script[1..]))
      case Close => Running(j, [], Ended)
      case Ended => r.(j := j)
  }

  /** The process is where its code says it is. */
  predicate Placed(r: Running) {
    && (forall k :: 0 <= k < |r.script| ==> r.script[k].uuid != "")
    && (r.todo.Announce? || r.todo.Request? || r.todo.Await? || r.todo.Clear? || r.todo.Put? ==>
          r.script != [] && !r.script[0].command.Bye?)
    && match r.todo
       case Announce => r.j.stage.Idle? && r.j.c.awaiting
       case Request(confirm) => MayAsk(r.j, confirm)
       case Await(confirm) => r.j.stage.Waiting? && r.j.stage.confirm == confirm
       case Clear => r.j.stage.Idle?
       case Put(_) => r.j.stage.Idle?
       case Close => r.j.stage.Idle?
       case Ended => r.j.stage.Over?
  }

  // ----- What the rest of the script comes to -----

  /** A client without the lines it has written. */
  function Silent(c: P.Client): P.Client {
    c.(output := [])
  }

  /** The client after the rest of the handling and the rest of the script, by the code's own loop. */
  function Remains(c: P.Client, script: seq<P.Turn>, todo: Todo): P.Client {
    match todo
    case Ended => c
    case Close => c.Closes()
    case _ =>
      if script == [] then c
      else
        var t := script[0];
        var handled :=
          match todo
          case Announce => c.Retries().Asks(false, t.uuid).Delivers(false, t.reply)
          case Request(confirm) => c.Asks(confirm, t.uuid).Delivers(confirm, t.reply)
          case Await(confirm) => c.Delivers(confirm, t.reply)
          case Clear => c.(settings := c.settings.(error := ""))
          case Put(settings) => c.(settings := settings)
          case _ => c;
        handled.Run(script[1..])
  }

  lemma ClosesIgnoresOutput(c: P.Client, c': P.Client)
    requires Silent(c) == Silent(c')
    ensures Silent(c.Closes()) == Silent(c'.Closes())
  {
  }

  lemma RequestIgnoresOutput(c: P.Client, c': P.Client, confirm: bool, uuid: Id, reply: P.Reply)
    requires Silent(c) == Silent(c')
    ensures Silent(c.Asks(confirm, uuid).Delivers(confirm, reply)) ==
            Silent(c'.Asks(confirm, uuid).Delivers(confirm, reply))
  {
    SilenceForgets(c.Asks(confirm, uuid), confirm, reply);
    SilenceForgets(c'.Asks(confirm, uuid), confirm, reply);
  }

  lemma HandleIgnoresOutput(c: P.Client, c': P.Client, t: P.Turn)
    requires Silent(c) == Silent(c')
    ensures Silent(c.Handle(t)) == Silent(c'.Handle(t))
  {
    hide P.Client.Handle;
    if t.command.GetPin? || t.command.Confirm? {
      AskingIgnoresOutput(c, c', t);
    } else if t.command.Bye? {
      ByeIgnoresOutput(c, c', t);
    } else {
      SettingIgnoresOutput(c, c', t);
    }
  }

  lemma AskingIgnoresOutput(c: P.Client, c': P.Client, t: P.Turn)
    requires Silent(c) == Silent(c') && (t.command.GetPin? || t.command.Confirm?)
    ensures Silent(c.Handle(t)) == Silent(c'.Handle(t))
  {
    hide P.Client.Delivers, P.Client.Asks;
    if t.command.GetPin? {
      assert Silent(c.Retries()) == Silent(c'.Retries());
      RequestIgnoresOutput(c.Retries(), c'.Retries(), false, t.uuid, t.reply);
    } else {
      RequestIgnoresOutput(c, c', true, t.uuid, t.reply);
    }
  }

  lemma ByeIgnoresOutput(c: P.Client, c': P.Client, t: P.Turn)
    requires Silent(c) == Silent(c') && t.command.Bye?
    ensures Silent(c.Handle(t)) == Silent(c'.Handle(t))
  {
    hide P.Client.Closes;
    ClosesIgnoresOutput(c, c');
  }

  lemma SettingIgnoresOutput(c: P.Client, c': P.Client, t: P.Turn)
    requires Silent(c) == Silent(c') && !t.command.GetPin? && !t.command.Confirm? && !t.command.Bye?
    ensures Silent(c.Handle(t)) == Silent(c'.Handle(t))
  {
    hide P.Changed;
  }

  lemma {:induction false} RunIgnoresOutput(c: P.Client, c': P.Client, script: seq<P.Turn>)
    requires Silent(c) == Silent(c')
    ensures Silent(c.Run(script)) == Silent(c'.Run(script))
    decreases |script|
  {
    hide P.Client.Handle, P.Client.Closes;
    ClosesIgnoresOutput(c, c');
    if script != [] {
      HandleIgnoresOutput(c, c', script[0]);
      ClosesIgnoresOutput(c.Handle(script[0]), c'.Handle(script[0]));
      if !script[0].command.Bye? {
        RunIgnoresOutput(c.Handle(script[0]), c'.Handle(script[0]), script[1..]);
      }
    }
  }

  /** Starting on a script comes to running it. */
  lemma FirstComesToRun(c: P.Client, script: seq<P.Turn>)
    requires c.AtRest()
    ensures Silent(Remains(c, script, First(c, script))) == Silent(c.Run(script))
  {
    hide P.Client.Run;
    RunOnce(c, script);
    if script != [] && !script[0].command.Bye? {
      var t := script[0];
      if !t.command.GetPin? && !t.command.Confirm? {
        RunIgnoresOutput(c.(settings := P.Changed(c.settings, t.command)), c.Handle(t), script[1..]);
      }
    }
  }

  lemma RunOnce(c: P.Client, script: seq<P.Turn>)
    requires c.AtRest()
    ensures script == [] ==> c.Run(script) == c.Closes()
    ensures script != [] && script[0].command.Bye? ==> Silent(c.Run(script)) == Silent(c.Closes())
    ensures script != [] && !script[0].command.Bye? ==> c.Run(script) == c.Handle(script[0]).Run(script[1..])
  {
  }

  // ----- Every act of the code is an act of the protocol -----

  /** An act by the code is possible in the protocol: the protocol's guards ask nothing of the process
      that its code does not see to. */
  lemma ObeyingIsPossible(r: Running, a: Act)
    requires Sim(r.j) && Placed(r) && Obeys(r, a)
    ensures Can(r.j, a)
  {
    hide System.Step, System.Enabled, Foreign, Settled, Private, Router.Valid, FreshFor;
  }

  lemma SurroundingKeepsPlace(r: Running, a: Act)
    requires Sim(r.j) && Placed(r) && Around(a) && Can(r.j, a)
    ensures Placed(Advance(r, a)) && Advance(r, a).j.c == r.j.c
  {
    hide System.Step, System.Enabled, Foreign, Settled, Private, Router.Valid, Sim, Heard;
  }

  /** What remains to be done from here. */
  function Left(r: Running): P.Client {
    Silent(Remains(r.j.c, r.script, r.todo))
  }

  /** After an act by the code the process is where its code says it is, and what remains to be done
      comes to the same. */
  lemma OwnActKeepsPlace(r: Running, a: Act)
    requires Sim(r.j) && Placed(r) && Obeys(r, a) && !Around(a) && Sim(Do(r.j, a))
    ensures Placed(Advance(r, a)) && Left(Advance(r, a)) == Left(r)
  {
    hide Sim, Placed, Advance, Left;
    if r.todo.Request? {
      RequestKeepsPlace(r, a);
    } else if r.todo.Await? {
      ReplyKeepsPlace(r, a);
    } else if r.todo.Announce? || r.todo.Close? {
      ReportKeepsPlace(r, a);
    } else {
      SettingKeepsPlace(r, a);
    }
  }

  lemma RequestKeepsPlace(r: Running, a: Act)
    requires Placed(r) && Obeys(r, a) && !Around(a) && r.todo.Request?
    ensures Placed(Advance(r, a)) && Left(Advance(r, a)) == Left(r)
  {
    hide System.Step, System.Enabled, P.Client.Run, P.Client.Asks, P.Client.Takes, P.Client.Delivers, FreshFor, Carries;
    var confirm, reply := r.todo.confirm, r.script[0].reply;
    var asked := r.j.c.Asks(confirm, a.uuid);
    if !a.delivered {
      SilenceForgets(asked, confirm, reply);
      RunIgnoresOutput(Cleared(Do(r.j, a).c), asked.Delivers(confirm, reply), r.script[1..]);
    }
  }

  lemma ReplyKeepsPlace(r: Running, a: Act)
    requires Placed(r) && Obeys(r, a) && !Around(a) && r.todo.Await?
    ensures Placed(Advance(r, a)) && Left(Advance(r, a)) == Left(r)
  {
    hide System.Step, P.Client.Run, P.Client.Takes, P.Client.Delivers;
    var confirm, reply := r.todo.confirm, r.script[0].reply;
    SilenceForgets(r.j.c, confirm, reply);
    RunIgnoresOutput(Cleared(Do(r.j, a).c), r.j.c.Delivers(confirm, reply), r.script[1..]);
  }

  lemma ReportKeepsPlace(r: Running, a: Act)
    requires Sim(r.j) && Placed(r) && Obeys(r, a) && (r.todo.Announce? || r.todo.Close?)
    requires !Around(a)
    ensures Placed(Advance(r, a)) && Left(Advance(r, a)) == Left(r)
  {
    hide System.Step, P.Client.Run, P.Client.Asks, P.Client.Delivers, Settled, Private, Router.Valid;
  }

  lemma SettingKeepsPlace(r: Running, a: Act)
    requires Placed(r) && Obeys(r, a) && !Around(a) && Sim(Do(r.j, a)) && (r.todo.Clear? || r.todo.Put?)
    ensures Placed(Advance(r, a)) && Left(Advance(r, a)) == Left(r)
  {
    hide P.Client.Run, P.Client.Closes, P.Client.Retries, P.Client.Asks, P.Client.Delivers;
    hide P.Changed, Settled, Private, Router.Valid, System.Step;
    FirstComesToRun(Do(r.j, a).c, r.script[1..]);
  }

  function Cleared(c: P.Client): P.Client {
    c.(settings := c.settings.(error := ""))
  }

  /** Taking the reply and clearing the error is delivering it, but for the lines written. */
  lemma SilenceForgets(c: P.Client, confirm: bool, reply: P.Reply)
    ensures Silent(Cleared(c.Takes(confirm, reply))) == Silent(c.Delivers(confirm, reply))
    ensures !reply.Replied? ==> c.Takes(confirm, reply) == c.Takes(confirm, P.Silence)
  {
  }

  // ----- Runs -----

  ghost function AdvanceAll(r: Running, acts: seq<Act>): Running {
    if acts == [] then r else Advance(AdvanceAll(r, acts[..|acts| - 1]), acts[|acts| - 1])
  }

  /** Every act is the world's, or what the code does at that point. */
  ghost predicate ObeysAll(r: Running, acts: seq<Act>) {
    acts == [] ||
    (ObeysAll(r, acts[..|acts| - 1]) && Obeys(AdvanceAll(r, acts[..|acts| - 1]), acts[|acts| - 1]))
  }

  lemma AdvanceActs(r: Running, a: Act)
    ensures Advance(r, a).j == Do(r.j, a)
  {
    hide Do;
  }

  /** Whatever the commands, the replies and the other things that happen: what the code does is a
      possible interleaving of acts, and ends where the code's own loop ends. */
  lemma {:induction false} ScriptsAreInterleavings(r: Running, acts: seq<Act>)
    requires Sim(r.j) && Placed(r) && ObeysAll(r, acts)
    ensures CanAll(r.j, acts) && AdvanceAll(r, acts).j == DoAll(r.j, acts)
    ensures var r' := AdvanceAll(r, acts);
            Placed(r') && Left(r') == Left(r)
  {
    hide Sim, Can, Do, Placed, Obeys, Advance, Remains;
    if acts != [] {
      var rest, a := acts[..|acts| - 1], acts[|acts| - 1];
      ScriptsAreInterleavings(r, rest);
      ProcessesStayInStep(r.j, rest);
      var before := AdvanceAll(r, rest);
      ObeyingIsPossible(before, a);
      ActKeepsSim(before.j, a);
      AdvanceActs(before, a);
      if Around(a) {
        SurroundingKeepsPlace(before, a);
        SurroundingLeavesScript(before, a);
      } else {
        OwnActKeepsPlace(before, a);
      }
    }
  }

  lemma SurroundingLeavesScript(r: Running, a: Act)
    requires Around(a)
    ensures Advance(r, a).script == r.script && Advance(r, a).todo == r.todo
  {
    hide Do;
  }

  /** Every script run against the daemon, with everything else going on: when the loop has returned,
      the process is what its loop makes of the script, and the daemon holds nothing for its cookies
      but those it gave up on. */
  lemma ScriptAgainstDaemon(d: System, pid: Pid, name: string, script: seq<P.Turn>, acts: seq<Act>, id: Id)
    requires d.routes.Valid() && forall k :: 0 <= k < |script| ==> script[k].uuid != ""
    requires var j := AtStart(d, pid, name);
             ObeysAll(Running(j, script, First(j.c, script)), acts)
    requires var j := AtStart(d, pid, name);
             AdvanceAll(Running(j, script, First(j.c, script)), acts).todo.Ended?
    ensures var j := AtStart(d, pid, name);
            var j' := DoAll(j, acts);
            && Silent(j'.c) == Silent(j.c.Run(script))
            && (id in j'.used && id !in j'.lost ==> id !in j'.d.core.flows && id !in j'.d.core.live)
  {
    hide Can, Do, Obeys, Advance, P.Client.Run;
    var j := AtStart(d, pid, name);
    var r := Running(j, script, First(j.c, script));
    StartIsInStep(d, pid, name);
    ScriptsAreInterleavings(r, acts);
    FirstComesToRun(j.c, script);
    if id in DoAll(j, acts).used && id !in DoAll(j, acts).lost {
      NothingIsLeftBehind(d, pid, name, acts, id);
    }
  }

  // ----- The script that strands a flow -----

  function StrandingScript(description: string): seq<P.Turn> {
    [P.Turn(P.GetPin, "c", P.Replied(Password("secret"))), P.Turn(P.SetDesc(description), "other", P.Silence),
     P.Turn(P.GetPin, "other", P.Silence)]
  }

  lemma OneMoreObeys(r: Running, acts: seq<Act>, a: Act)
    ensures AdvanceAll(r, acts + [a]) == Advance(AdvanceAll(r, acts), a)
    ensures ObeysAll(r, acts + [a]) <==> ObeysAll(r, acts) && Obeys(AdvanceAll(r, acts), a)
  {
    hide Advance, Obeys;
    assert (acts + [a])[..|acts|] == acts;
  }

  lemma FourObey(r: Running, a: Act, b: Act, c: Act, d: Act)
    ensures AdvanceAll(r, [a, b, c, d]) == Advance(Advance(Advance(Advance(r, a), b), c), d)
    ensures ObeysAll(r, [a, b, c, d]) <==>
              && Obeys(r, a) && Obeys(Advance(r, a), b) && Obeys(Advance(Advance(r, a), b), c)
              && Obeys(Advance(Advance(Advance(r, a), b), c), d)
  {
    hide Advance, Obeys;
    OneMoreObeys(r, [], a);
    OneMoreObeys(r, [a], b);
    OneMoreObeys(r, [a, b], c);
    OneMoreObeys(r, [a, b, c], d);
    assert [] + [a] == [a] && [a] + [b] == [a, b] && [a, b] + [c] == [a, b, c] && [a, b, c] + [d] == [a, b, c, d];
  }

  /** The first GETPIN up to its reply. */
  lemma AnsweredObeys(j: Joint, description: string)
    requires j == AtStart(Init({1, 9}, 0), 100, "100") && Sim(j)
    ensures var r, acts := Running(j, StrandingScript(description), Request(false)), Stranding(description);
            var r1 := Advance(r, acts[0]);
            var r2 := Advance(r1, acts[1]);
            && Obeys(r, acts[0]) && Obeys(r1, acts[1]) && r2.todo == Await(false) && r2.script == r.script
            && r2.j.stage.Waiting? && !r2.j.stage.confirm && r2.j.channel == [Password("secret")]
            && r2.j.c.cookie == "c" && r2.j.c.settings == P.BLANK
  {
    hide System.Step, System.Enabled, Foreign, Heard, Sim;
    var r, acts := Running(j, StrandingScript(description), Request(false)), Stranding(description);
    FirstRequest(j);
    AnswerArrives(Advance(r, acts[0]).j, 9, "secret");
  }

  /** The first command: the request is answered, and the error forgotten. */
  lemma FirstCommandObeys(j: Joint, description: string)
    requires j == AtStart(Init({1, 9}, 0), 100, "100") && Sim(j)
    ensures var r, acts := Running(j, StrandingScript(description), Request(false)), Stranding(description)[..4];
            var r' := AdvanceAll(r, acts);
            && ObeysAll(r, acts)
            && r'.script == StrandingScript(description)[1..] && r'.todo == Put(Described(description))
            && r'.j.stage.Idle? && r'.j.c.awaiting && r'.j.c.cookie == "c" && r'.j.c.settings == P.BLANK
  {
    hide Advance, Obeys, Sim;
    var r, acts := Running(j, StrandingScript(description), Request(false)), Stranding(description);
    AnsweredObeys(j, description);
    ReplyObeys(Advance(Advance(r, acts[0]), acts[1]), description);
    FourObey(r, acts[0], acts[1], acts[2], acts[3]);
    assert acts[..4] == [acts[0], acts[1], acts[2], acts[3]];
  }

  lemma ReplyObeys(r: Running, description: string)
    requires r.todo == Await(false) && r.script == StrandingScript(description)
    requires r.j.stage.Waiting? && !r.j.stage.confirm && r.j.channel == [Password("secret")]
    requires r.j.c.cookie == "c" && r.j.c.settings == P.BLANK
    ensures var acts := Stranding(description);
            var r1 := Advance(r, acts[2]);
            var r2 := Advance(r1, acts[3]);
            && Obeys(r, acts[2]) && Obeys(r1, acts[3])
            && r2.script == StrandingScript(description)[1..] && r2.todo == Put(Described(description))
            && r2.j.stage.Idle? && r2.j.c.awaiting && r2.j.c.cookie == "c" && r2.j.c.settings == P.BLANK
  {
    var r1 := Advance(r, Take);
    assert r1.todo == Clear && r1.j.c.settings == P.BLANK;
  }

  /** The rest: SETDESC, the second GETPIN, and the end of the stream. */
  lemma OtherCommandsObey(r: Running, description: string)
    requires r.script == StrandingScript(description)[1..] && r.todo == Put(Described(description))
    requires r.j.stage.Idle? && r.j.c.awaiting && r.j.c.cookie == "c" && r.j.c.settings == P.BLANK
    ensures ObeysAll(r, Stranding(description)[4..]) && AdvanceAll(r, Stranding(description)[4..]).todo.Ended?
  {
    hide System.Step, Advance, Obeys;
    var acts := Stranding(description)[4..];
    SecondRequestObeys(r, description);
    var r3 := Advance(Advance(Advance(r, acts[0]), acts[1]), acts[2]);
    EndObeys(r3, description);
    FourObey(r, acts[0], acts[1], acts[2], acts[3]);
    OneMoreObeys(r, [acts[0], acts[1], acts[2], acts[3]], acts[4]);
    assert [acts[0], acts[1], acts[2], acts[3]] + [acts[4]] == acts;
  }

  lemma SecondRequestObeys(r: Running, description: string)
    requires r.script == StrandingScript(description)[1..] && r.todo == Put(Described(description))
    requires r.j.stage.Idle? && r.j.c.awaiting && r.j.c.cookie == "c" && r.j.c.settings == P.BLANK
    ensures var acts := Stranding(description)[4..];
            var r1 := Advance(r, acts[0]);
            var r2 := Advance(r1, acts[1]);
            var r3 := Advance(r2, acts[2]);
            && Obeys(r, acts[0]) && Obeys(r1, acts[1]) && Obeys(r2, acts[2])
            && r3.todo == Clear && r3.script == StrandingScript(description)[2..]
            && r3.j.stage.Idle? && !r3.j.c.awaiting && r3.j.c.settings == Described(description)
  {
    hide Advance, Obeys;
    var acts := Stranding(description)[4..];
    DescriptionObeys(r, description);
    RetryObeys(Advance(r, acts[0]), description);
  }

  lemma DescriptionObeys(r: Running, description: string)
    requires r.script == StrandingScript(description)[1..] && r.todo == Put(Described(description))
    requires r.j.stage.Idle? && r.j.c.awaiting && r.j.c.cookie == "c" && r.j.c.settings == P.BLANK
    ensures var a := Stranding(description)[4];
            var r1 := Advance(r, a);
            && Obeys(r, a) && r1.todo == Announce && r1.script == StrandingScript(description)[2..]
            && r1.j.stage.Idle? && r1.j.c.awaiting && r1.j.c.cookie == "c" && r1.j.c.settings == Described(description)
  {
  }

  lemma RetryObeys(r: Running, description: string)
    requires r.todo == Announce && r.script == StrandingScript(description)[2..]
    requires r.j.stage.Idle? && r.j.c.awaiting && r.j.c.cookie == "c" && r.j.c.settings == Described(description)
    ensures var acts := Stranding(description);
            var r1 := Advance(r, acts[5]);
            var r2 := Advance(r1, acts[6]);
            && Obeys(r, acts[5]) && Obeys(r1, acts[6])
            && r2.todo == Clear && r2.script == StrandingScript(description)[2..]
            && r2.j.stage.Idle? && !r2.j.c.awaiting && r2.j.c.settings == Described(description)
  {
    hide System.Step;
    var r1 := Advance(r, Stranding(description)[5]);
    assert r1.todo == Request(false) && r1.j.c.cookie == "c";
  }

  lemma EndObeys(r: Running, description: string)
    requires r.todo == Clear && r.script == StrandingScript(description)[2..]
    requires r.j.stage.Idle? && !r.j.c.awaiting && r.j.c.settings == Described(description)
    ensures var acts := Stranding(description)[4..];
            var r1 := Advance(r, acts[3]);
            Obeys(r, acts[3]) && Obeys(r1, acts[4]) && Advance(r1, acts[4]).todo.Ended?
  {
    var r1 := Advance(r, Configure(Described(description)));
    assert r1.script == [] && r1.todo == Close;
  }

  lemma {:induction false} ObeysAppend(r: Running, a: seq<Act>, b: seq<Act>)
    ensures AdvanceAll(r, a + b) == AdvanceAll(AdvanceAll(r, a), b)
    ensures ObeysAll(r, a + b) <==> ObeysAll(r, a) && ObeysAll(AdvanceAll(r, a), b)
  {
    hide Advance, Obeys;
    if b == [] {
      assert a + b == a;
    } else {
      assert (a + b)[..|a + b| - 1] == a + b[..|b| - 1];
      ObeysAppend(r, a, b[..|b| - 1]);
    }
  }

  /** The run that strands a flow is what the code does on GETPIN, SETDESC, GETPIN and the end of the
      stream, when the first GETPIN is answered and the second request, with that description, does not
      get through. The process reports no failure and returns; the daemon keeps flow and session. */
  lemma StrandingIsAScript(description: string)
    ensures var j := AtStart(Init({1, 9}, 0), 100, "100");
            var r := Running(j, StrandingScript(description), First(j.c, StrandingScript(description)));
            var j' := DoAll(j, Stranding(description));
            && ObeysAll(r, Stranding(description)) && AdvanceAll(r, Stranding(description)).todo.Ended?
            && HeldForGood(j'.d.core, "c") && "c" in j'.d.core.live
  {
    hide HeldForGood, Obeys, Advance, Do, Sim;
    var j, acts := AtStart(Init({1, 9}, 0), 100, "100"), Stranding(description);
    var r := Running(j, StrandingScript(description), First(j.c, StrandingScript(description)));
    assert r.todo == Request(false);
    StrandingHappens(description);
    StartInStep();
    FirstCommandObeys(j, description);
    OtherCommandsObey(AdvanceAll(r, acts[..4]), description);
    ObeysAppend(r, acts[..4], acts[4..]);
    assert acts == acts[..4] + acts[4..];
  }

  lemma StartInStep()
    ensures Sim(AtStart(Init({1, 9}, 0), 100, "100"))
  {
    RoutesOfInit();
    StartIsInStep(Init({1, 9}, 0), 100, "100");
  }
}
