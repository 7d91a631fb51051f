/** The pinentry process: an Assuan command loop that asks the daemon for secrets and owes it the result
    of every one it was given. */
module PinentryClient {
  import opened Basics
  import opened Messages
  import opened Pinentry

  datatype Settings = Settings(
    description: string, prompt: string, title: string, error: string,
    okText: string, cancelText: string, notOkText: string, keyinfo: string, repeat: string)

  const BLANK := Settings("", "", "", "", "", "", "", "", "")

  datatype Command =
    | Bye | SetDesc(text: string) | SetPrompt(text: string) | SetTitle(text: string) | SetError(text: string)
    | SetOk(text: string) | SetCancel(text: string) | SetNotOk(text: string) | SetKeyinfo(text: string)
    | SetRepeat(text: string) | GetInfo(what: string) | GetPin | Confirm | Reset
    | Acknowledged  // OPTION, MESSAGE, NOP and everything unknown

  /** What comes back of a request: nothing in time, an error, or a pinentry_response. */
  datatype Reply = Silence | Refused | Replied(answer: Answer)

  datatype Call =
    | Ask(cookie: Id, prompt: string, description: string, error: string, keyinfo: string, repeat: bool,
          confirmOnly: bool)
    | Tell(cookie: Id, verdict: Verdict, error: string)

  datatype Line = OkLine(comment: string) | ErrLine | DataLine(text: string)

  /** One command with what the world supplies while it is handled. */
  datatype Turn = Turn(command: Command, uuid: Id, reply: Reply)

  /** The settings after a command. */
  function Changed(s: Settings, command: Command): Settings {
    match command
    case SetDesc(text) => s.(description := text)
    case SetPrompt(text) => s.(prompt := text)
    case SetTitle(text) => s.(title := text)
    case SetError(text) => s.(error := text)
    case SetOk(text) => s.(okText := text)
    case SetCancel(text) => s.(cancelText := text)
    case SetNotOk(text) => s.(notOkText := text)
    case SetKeyinfo(text) => s.(keyinfo := text)
    case SetRepeat(text) => s.(repeat := text)
    case Reset => BLANK
    case _ => s
  }

  datatype Client = Client(pid: string, settings: Settings, cookie: Id, awaiting: bool, calls: seq<Call>,
                           output: seq<Line>) {
    function Say(l: Line): Client {
      this.(output := output + [l])
    }

    function Forget(): Client {
      this.(cookie := "", awaiting := false)
    }

    /** reportTerminalResult: only a retry keeps the flow. */
    function Tells(verdict: Verdict, error: string): Client {
      if cookie == "" then this
      else
        var c := this.(calls := calls + [Tell(cookie, verdict, error)]);
        if verdict.Retry? then c.(awaiting := false) else c.Forget()
    }

    /** The request is sent, under the flow's cookie or a new one. */
    function Asks(confirm: bool, uuid: Id): Client {
      var id := if cookie == "" then uuid else cookie;
      this.(cookie := id,
            calls := calls + [if confirm
                              then Ask(id, OrElse(settings.description, "Please confirm"), "", "", "", false, true)
                              else Ask(id, OrElse(settings.prompt, "Enter passphrase:"), settings.description,
                                       settings.error, settings.keyinfo, settings.repeat != "", false)])
    }

    /** Has the reply the form that this request hopes for? */
    function Grants(confirm: bool, reply: Reply): bool {
      reply.Replied? && if confirm then reply.answer.Confirmed? else reply.answer.Password?
    }

    /** The reply is taken: it opens the wait for a result, or ends the flow. */
    function Takes(confirm: bool, reply: Reply): Client {
      if Grants(confirm, reply) then this.(awaiting := true) else Forget()
    }

    function Retries(): Client {
      if awaiting then Tells(Verdict.Retry, OrElse(settings.error, AUTH_FAILED)) else this
    }

    function Set(s: Settings): Client {
      this.(settings := s).Say(OkLine(""))
    }

    function Closes(): Client {
      if awaiting then (if settings.error != "" then Tells(Failed, settings.error) else Tells(Succeeded, ""))
      else if settings.error != "" then Tells(Failed, settings.error)
      else Tells(Withdrawn, "")
    }

    function Delivers(confirm: bool, reply: Reply): Client {
      var c := Takes(confirm, reply);
      var c' :=
        if !Grants(confirm, reply) then c.Say(ErrLine)
        else if confirm then c.Say(OkLine(""))
        else if reply.answer.text == "" then c.Say(ErrLine)
        else c.Say(DataLine(reply.answer.text)).Say(OkLine(""));
      c'.(settings := settings.(error := ""))
    }

    function Handle(t: Turn): Client {
      match t.command
      case Bye => Closes().Say(OkLine("closing connection"))
      case GetInfo(what) =>
        var known := what == "pid" || what == "version" || what == "flavor" || what == "ttyinfo";
        (if known then Say(DataLine(Info(what, pid))) else this).Say(OkLine(""))
      case GetPin => Retries().Asks(false, t.uuid).Delivers(false, t.reply)
      case Confirm => Asks(true, t.uuid).Delivers(true, t.reply)
      case Acknowledged => Say(OkLine(""))
      case _ => Set(Changed(settings, t.command))
    }

    /** The whole loop: commands up to BYE or the end of the stream, then the final report. */
    function Run(script: seq<Turn>): Client
      decreases |script|
    {
      if script == [] then Closes()
      else if script[0].command.Bye? then Handle(script[0]).Closes()
      else Handle(script[0]).Run(script[1..])
    }

    /** Between commands: a result is owed exactly when a flow is open. */
    predicate AtRest() {
      awaiting <==> cookie != ""
    }
  }

  function Info(what: string, pid: string): string {
    if what == "pid" then pid else if what == "version" then "1.0.0" else if what == "flavor" then "bb" else ""
  }

  lemma HandleKeepsRest(c: Client, t: Turn)
    requires c.AtRest() && t.uuid != ""
    ensures c.Handle(t).AtRest()
    ensures t.command.Bye? ==> c.Handle(t).cookie == ""
  {
  }

  /** No call is a withdrawal, and only retries, successes and failures are ever reported. */
  ghost predicate NeverWithdraws(calls: seq<Call>) {
    forall k :: 0 <= k < |calls| && calls[k].Tell? ==>
      calls[k].cookie != "" && (calls[k].verdict.Retry? || calls[k].verdict.Succeeded? || calls[k].verdict.Failed?)
  }

  lemma TellsNeverWithdraws(c: Client, verdict: Verdict, error: string)
    requires NeverWithdraws(c.calls) && (c.cookie == "" || verdict.Retry? || verdict.Succeeded? || verdict.Failed?)
    ensures NeverWithdraws(c.Tells(verdict, error).calls)
  {
  }

  lemma ClosesNeverWithdraws(c: Client)
    requires c.AtRest() && NeverWithdraws(c.calls)
    ensures NeverWithdraws(c.Closes().calls)
  {
    hide NeverWithdraws, Client.Tells;
    TellsNeverWithdraws(c, Failed, c.settings.error);
    TellsNeverWithdraws(c, Succeeded, "");
    if c.cookie == "" {
      TellsNeverWithdraws(c, Withdrawn, "");
    }
  }

  lemma AsksNeverWithdraws(c: Client, confirm: bool, uuid: Id)
    requires NeverWithdraws(c.calls)
    ensures NeverWithdraws(c.Asks(confirm, uuid).calls)
  {
  }

  lemma HandleNeverWithdraws(c: Client, t: Turn)
    requires c.AtRest() && NeverWithdraws(c.calls)
    ensures NeverWithdraws(c.Handle(t).calls)
  {
    hide NeverWithdraws, Client.Tells, Client.Asks, Client.Closes;
    ClosesNeverWithdraws(c);
    TellsNeverWithdraws(c, Verdict.Retry, OrElse(c.settings.error, AUTH_FAILED));
    AsksNeverWithdraws(c, true, t.uuid);
    AsksNeverWithdraws(c.Retries(), false, t.uuid);
  }

  /** Over every script: when the loop returns no flow is open and no result is owed. */
  lemma {:induction false} RunSettles(c: Client, script: seq<Turn>)
    requires c.AtRest() && forall k :: 0 <= k < |script| ==> script[k].uuid != ""
    ensures c.Run(script).cookie == "" && !c.Run(script).awaiting
    decreases |script|
  {
    hide Client.Handle, Client.Closes;
    ClosesSettles(c);
    if script != [] {
      HandleKeepsRest(c, script[0]);
      if script[0].command.Bye? {
        ClosesSettles(c.Handle(script[0]));
      } else {
        RunSettles(c.Handle(script[0]), script[1..]);
      }
    }
  }

  /** Over every script: the branches that would report "cancelled" are never taken. */
  lemma {:induction false} RunNeverWithdraws(c: Client, script: seq<Turn>)
    requires c.AtRest() && NeverWithdraws(c.calls) && forall k :: 0 <= k < |script| ==> script[k].uuid != ""
    ensures NeverWithdraws(c.Run(script).calls)
    decreases |script|
  {
    hide Client.Handle, Client.Closes, NeverWithdraws;
    ClosesNeverWithdraws(c);
    if script != [] {
      HandleKeepsRest(c, script[0]);
      HandleNeverWithdraws(c, script[0]);
      if script[0].command.Bye? {
        ClosesNeverWithdraws(c.Handle(script[0]));
      } else {
        RunNeverWithdraws(c.Handle(script[0]), script[1..]);
      }
    }
  }

  lemma ClosesSettles(c: Client)
    requires c.AtRest()
    ensures c.Closes().cookie == "" && !c.Closes().awaiting
  {
  }

  // ----- When the process infers success -----

  predicate IsRequest(t: Turn) {
    t.command.GetPin? || t.command.Confirm?
  }

  /** The reply gives what the request hoped for. */
  predicate WasGranted(t: Turn) {
    t.reply.Replied? && if t.command.Confirm? then t.reply.answer.Confirmed? else t.reply.answer.Password?
  }

  /** The number of commands before the loop ends: those before the first BYE. */
  function Length(script: seq<Turn>): (n: nat)
    ensures n <= |script|
    ensures forall k :: 0 <= k < n ==> !script[k].command.Bye?
    ensures n < |script| ==> script[n].command.Bye?
  {
    if script == [] || script[0].command.Bye? then 0 else 1 + Length(script[1..])
  }

  /** Was the last request among the first `n` commands granted? `before` if there is none. */
  function LastGranted(script: seq<Turn>, n: nat, before: bool): bool
    requires n <= |script|
  {
    if n == 0 then before
    else if IsRequest(script[n - 1]) then WasGranted(script[n - 1])
    else LastGranted(script, n - 1, before)
  }

  /** The error after the first `n` commands: the last one set, unless a request or RESET came later. */
  function LastError(script: seq<Turn>, n: nat, before: string): string
    requires n <= |script|
  {
    if n == 0 then before
    else
      match script[n - 1].command
      case SetError(text) => text
      case GetPin => ""
      case Confirm => ""
      case Reset => ""
      case _ => LastError(script, n - 1, before)
  }

  /** A success has been reported. */
  ghost predicate Succeeds(calls: seq<Call>) {
    exists k :: 0 <= k < |calls| && calls[k].Tell? && calls[k].verdict.Succeeded?
  }

  lemma SucceedsAppend(calls: seq<Call>, more: Call)
    ensures Succeeds(calls + [more]) <==> Succeeds(calls) || (more.Tell? && more.verdict.Succeeded?)
  {
    var all := calls + [more];
    assert all[|calls|] == more;
    if k :| 0 <= k < |calls| && calls[k].Tell? && calls[k].verdict.Succeeded? {
      assert all[k] == calls[k];
    }
  }

  /** One command other than BYE: no success is reported; what is owed and the error are as the last
      request and the last setting of the error say. */
  lemma HandleDefers(c: Client, t: Turn)
    requires c.AtRest() && t.uuid != "" && !t.command.Bye?
    ensures Succeeds(c.Handle(t).calls) <==> Succeeds(c.calls)
    ensures c.Handle(t).awaiting == LastGranted([t], 1, c.awaiting)
    ensures c.Handle(t).settings.error == LastError([t], 1, c.settings.error)
  {
    hide Succeeds;
    if c.awaiting {
      SucceedsAppend(c.calls, Tell(c.cookie, Verdict.Retry, OrElse(c.settings.error, AUTH_FAILED)));
    }
    if IsRequest(t) {
      var asking := if t.command.GetPin? then c.Retries() else c;
      var asked := asking.Asks(t.command.Confirm?, t.uuid);
      SucceedsAppend(asking.calls, asked.calls[|asking.calls|]);
    }
  }

  lemma ClosingInfers(c: Client)
    requires c.AtRest()
    ensures Succeeds(c.Closes().calls) <==> Succeeds(c.calls) || (c.awaiting && c.settings.error == "")
  {
    hide Succeeds;
    SucceedsAppend(c.calls, Tell(c.cookie, Succeeded, ""));
    SucceedsAppend(c.calls, Tell(c.cookie, Failed, c.settings.error));
  }

  lemma ByeInfersLikeClosing(c: Client, t: Turn)
    requires c.AtRest() && t.command.Bye?
    ensures c.Handle(t).Closes().calls == c.Closes().calls
  {
  }

  /** The readers of a script see its first command as what came before the rest. */
  lemma {:induction false} FirstComesBefore(script: seq<Turn>, n: nat, granted: bool, error: string)
    requires 1 <= n <= |script|
    ensures LastGranted(script, n, granted) == LastGranted(script[1..], n - 1, LastGranted([script[0]], 1, granted))
    ensures LastError(script, n, error) == LastError(script[1..], n - 1, LastError([script[0]], 1, error))
  {
    if n > 1 {
      FirstComesBefore(script, n - 1, granted, error);
      assert script[1..][n - 2] == script[n - 1];
    }
  }

  /** Success is inferred: over every script from rest with no success reported yet, one is reported
      exactly when, where the loop ends, the last request was granted and no error is set. */
  lemma {:induction false} SuccessIsInferred(c: Client, script: seq<Turn>)
    requires c.AtRest() && !Succeeds(c.calls) && forall k :: 0 <= k < |script| ==> script[k].uuid != ""
    ensures Succeeds(c.Run(script).calls) <==>
            && LastGranted(script, Length(script), c.awaiting)
            && LastError(script, Length(script), c.settings.error) == ""
    decreases |script|
  {
    hide Client.Handle, Client.Closes, Succeeds;
    if script == [] {
      ClosingInfers(c);
    } else if script[0].command.Bye? {
      ClosingInfers(c);
      ByeInfersLikeClosing(c, script[0]);
    } else {
      HandleKeepsRest(c, script[0]);
      HandleDefers(c, script[0]);
      SuccessIsInferred(c.Handle(script[0]), script[1..]);
      FirstComesBefore(script, Length(script), c.awaiting, c.settings.error);
    }
  }

  /** A single granted GETPIN: the caller goes away without a word, and success is reported. */
  lemma SilenceIsSuccess()
    ensures var c := Client("1", BLANK, "", false, [], []);
            var granted := Turn(GetPin, "cookie", Replied(Password("secret")));
            c.Run([granted]).calls ==
              [Ask("cookie", "Enter passphrase:", "", "", "", false, false), Tell("cookie", Succeeded, "")]
  {
    var c, granted := Client("1", BLANK, "", false, [], []), Turn(GetPin, "cookie", Replied(Password("secret")));
    assert [granted][1..] == [];
    assert c.Run([granted]) == c.Handle(granted).Closes();
  }

  class PinentrySession {
    const pid: string
    var settings: Settings
    var flowCookie: Id
    var awaitingTerminalResult: bool

    // The requests made to the daemon and the lines written to the caller.
    var calls: seq<Call>
    var output: seq<Line>

    constructor (pid: string)
      ensures View() == Client(pid, BLANK, "", false, [], [])
    {
      this.pid := pid;
      settings, flowCookie, awaitingTerminalResult := BLANK, "", false;
      calls, output := [], [];
    }

    ghost function View(): Client
      reads this
    {
      Client(pid, settings, flowCookie, awaitingTerminalResult, calls, output)
    }

    method Send(l: Line)
      modifies this`output
      ensures View() == old(View()).Say(l)
    {
      output := output + [l];
    }

    method ResetFlow()
      modifies this`flowCookie, this`awaitingTerminalResult
      ensures View() == old(View()).Forget()
    {
      awaitingTerminalResult := false;
      flowCookie := "";
    }

    method ReportTerminalResult(verdict: Verdict, error: string)
      modifies this`flowCookie, this`awaitingTerminalResult, this`calls
      ensures View() == old(View()).Tells(verdict, error)
    {
      if flowCookie == "" {
        return;
      }
      calls := calls + [Tell(flowCookie, verdict, error)];
      if verdict == Verdict.Retry {
        awaitingTerminalResult := false;
      } else {
        ResetFlow();
      }
    }

    /** What BYE and the end of the stream report. */
    method ReportClosing()
      modifies this`flowCookie, this`awaitingTerminalResult, this`calls
      ensures View() == old(View()).Closes()
    {
      if awaitingTerminalResult {
        if settings.error != "" {
          ReportTerminalResult(Failed, settings.error);
        } else {
          ReportTerminalResult(Succeeded, "");
        }
        return;
      }
      if flowCookie != "" {
        if settings.error != "" {
          ReportTerminalResult(Failed, settings.error);
        } else {
          ReportTerminalResult(Withdrawn, "");
        }
      }
    }

    method RequestFromDaemon(confirm: bool, uuid: Id, reply: Reply) returns (granted: bool)
      modifies this`flowCookie, this`awaitingTerminalResult, this`calls
      ensures View() == old(View()).Asks(confirm, uuid).Takes(confirm, reply)
      ensures granted == View().Grants(confirm, reply)
    {
      if flowCookie == "" {
        flowCookie := uuid;
      }
      var cookie := flowCookie;
      if confirm {
        calls := calls + [Ask(cookie, OrElse(settings.description, "Please confirm"), "", "", "", false, true)];
      } else {
        calls := calls + [Ask(cookie, OrElse(settings.prompt, "Enter passphrase:"), settings.description,
                              settings.error, settings.keyinfo, settings.repeat != "", false)];
      }
      granted := reply.Replied? && if confirm then reply.answer.Confirmed? else reply.answer.Password?;
      if granted {
        awaitingTerminalResult := true;
      } else {
        ResetFlow();
      }
    }

    method HandleGetPin(uuid: Id, reply: Reply)
      modifies this
      ensures View() == old(View()).Handle(Turn(GetPin, uuid, reply))
      ensures output == old(output) + if reply.Replied? && reply.answer.Password? && reply.answer.text != ""
                then [DataLine(reply.answer.text), OkLine("")] else [ErrLine]
    {
      if awaitingTerminalResult {
        ReportTerminalResult(Verdict.Retry, OrElse(settings.error, AUTH_FAILED));
      }
      var success := RequestFromDaemon(false, uuid, reply);
      if success && reply.answer.text != "" {
        Send(DataLine(reply.answer.text));
        Send(OkLine(""));
      } else {
        Send(ErrLine);
      }
      settings := settings.(error := "");
    }

    method HandleConfirm(uuid: Id, reply: Reply)
      modifies this
      ensures View() == old(View()).Handle(Turn(Confirm, uuid, reply))
      ensures output == old(output) + if reply == Replied(Confirmed) then [OkLine("")] else [ErrLine]
    {
      var confirmed := RequestFromDaemon(true, uuid, reply);
      if confirmed {
        Send(OkLine(""));
      } else {
        Send(ErrLine);
      }
      settings := settings.(error := "");
    }

    method HandleCommand(t: Turn) returns (more: bool)
      modifies this
      ensures View() == old(View()).Handle(t) && more == !t.command.Bye?
    {
      more := true;
      match t.command
      case Bye =>
        ReportClosing();
        Send(OkLine("closing connection"));
        more := false;
      case SetDesc(text) => settings := settings.(description := text); Send(OkLine(""));
      case SetPrompt(text) => settings := settings.(prompt := text); Send(OkLine(""));
      case SetTitle(text) => settings := settings.(title := text); Send(OkLine(""));
      case SetError(text) => settings := settings.(error := text); Send(OkLine(""));
      case SetOk(text) => settings := settings.(okText := text); Send(OkLine(""));
      case SetCancel(text) => settings := settings.(cancelText := text); Send(OkLine(""));
      case SetNotOk(text) => settings := settings.(notOkText := text); Send(OkLine(""));
      case SetKeyinfo(text) => settings := settings.(keyinfo := text); Send(OkLine(""));
      case SetRepeat(text) => settings := settings.(repeat := text); Send(OkLine(""));
      case GetInfo(what) =>
        if what == "pid" {
          Send(DataLine(pid));
        } else if what == "version" {
          Send(DataLine("1.0.0"));
        } else if what == "flavor" {
          Send(DataLine("bb"));
        } else if what == "ttyinfo" {
          Send(DataLine(""));
        }
        Send(OkLine(""));
      case GetPin => HandleGetPin(t.uuid, t.reply);
      case Confirm => HandleConfirm(t.uuid, t.reply);
      case Reset => settings := BLANK; Send(OkLine(""));
      case Acknowledged => Send(OkLine(""));
    }

    /** The command loop, over the commands that arrive. At every command boundary a result is owed
        exactly when a flow is open. */
    method Run(script: seq<Turn>)
      requires View().AtRest() && forall k :: 0 <= k < |script| ==> script[k].uuid != ""
      modifies this
      ensures View() == old(View()).Run(script)
      ensures flowCookie == "" && !awaitingTerminalResult
    {
      hide Client.Handle, Client.Closes;
      RunSettles(View(), script);
      var i, more := 0, true;
      while i < |script| && more
        invariant 0 <= i <= |script| && View().AtRest()
        invariant old(View()).Run(script) == if more then View().Run(script[i..]) else View().Closes()
        decreases |script| - i
      {
        HandleKeepsRest(View(), script[i]);
        assert script[i..][1..] == script[i + 1..];
        more := HandleCommand(script[i]);
        i := i + 1;
      }
      ReportClosing();
    }
  }
}
