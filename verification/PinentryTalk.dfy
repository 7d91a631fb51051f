/** What the pinentry process says, to its caller and to the daemon, read off the commands and replies
    alone: no state of the process is mentioned. */
module PinentryTalk {
  import opened Basics
  import opened Messages
  import opened Pinentry
  import opened PinentryClient

  // ----- Reading a script -----

  /** The lines a command is answered with. GETPIN hands over a password that is not empty; CONFIRM
      says yes to a confirmation; everything else that comes back of a request is an error. */
  function Lines(t: Turn, pid: string): seq<Line> {
    match t.command
    case GetPin =>
      if t.reply.Replied? && t.reply.answer.Password? && t.reply.answer.text != ""
      then [DataLine(t.reply.answer.text), OkLine("")] else [ErrLine]
    case Confirm => if t.reply == Replied(Confirmed) then [OkLine("")] else [ErrLine]
    case GetInfo(what) =>
      if what == "pid" then [DataLine(pid), OkLine("")]
      else if what == "version" then [DataLine("1.0.0"), OkLine("")]
      else if what == "flavor" then [DataLine("bb"), OkLine("")]
      else if what == "ttyinfo" then [DataLine(""), OkLine("")]
      else [OkLine("")]
    case Bye => [OkLine("closing connection")]
    case _ => [OkLine("")]
  }

  function AllLines(script: seq<Turn>, n: nat, pid: string): seq<Line>
    requires n <= |script|
  {
    if n == 0 then [] else AllLines(script, n - 1, pid) + Lines(script[n - 1], pid)
  }

  datatype Field = Description | Prompt | Keyinfo | Repeat

  /** The text a command leaves in a field, if it touches it. */
  function Leaves(command: Command, f: Field): Option<string> {
    match command
    case Reset => Some("")
    case SetDesc(text) => if f.Description? then Some(text) else None
    case SetPrompt(text) => if f.Prompt? then Some(text) else None
    case SetKeyinfo(text) => if f.Keyinfo? then Some(text) else None
    case SetRepeat(text) => if f.Repeat? then Some(text) else None
    case _ => None
  }

  /** The text of a field after the first `n` commands, `before` if none of them touched it. */
  function Last(script: seq<Turn>, n: nat, f: Field, before: string): string
    requires n <= |script|
  {
    if n == 0 then before
    else
      match Leaves(script[n - 1].command, f)
      case Some(text) => text
      case None => Last(script, n - 1, f, before)
  }

  /** The cookie of the open flow after the first `n` commands: a granted request keeps the flow it was
      made under, any other ends it. */
  function OpenCookie(script: seq<Turn>, n: nat, before: Id): Id
    requires n <= |script|
  {
    if n == 0 then before
    else if !IsRequest(script[n - 1]) then OpenCookie(script, n - 1, before)
    else if WasGranted(script[n - 1]) then OrElse(OpenCookie(script, n - 1, before), script[n - 1].uuid)
    else ""
  }

  /** What command number `k` makes the process say to the daemon: GETPIN and CONFIRM ask under the open
      cookie or a new one, and GETPIN first reports a retry if the last request was granted. */
  function Says(c: Client, script: seq<Turn>, k: nat): seq<Call>
    requires k < |script|
  {
    var t, open := script[k], OpenCookie(script, k, c.cookie);
    var cookie := if open == "" then t.uuid else open;
    var prompt, description := Last(script, k, Prompt, c.settings.prompt),
        Last(script, k, Description, c.settings.description);
    var error, keyinfo := LastError(script, k, c.settings.error), Last(script, k, Keyinfo, c.settings.keyinfo);
    var repeat := Last(script, k, Repeat, c.settings.repeat) != "";
    match t.command
    case GetPin =>
      (if LastGranted(script, k, c.awaiting)
       then [Tell(open, Verdict.Retry, if error == "" then "Authentication failed" else error)] else [])
      + [Ask(cookie, if prompt == "" then "Enter passphrase:" else prompt, description, error, keyinfo, repeat, false)]
    case Confirm =>
      [Ask(cookie, if description == "" then "Please confirm" else description, "", "", "", false, true)]
    case _ => []
  }

  function AllSays(c: Client, script: seq<Turn>, n: nat): seq<Call>
    requires n <= |script|
  {
    if n == 0 then [] else AllSays(c, script, n - 1) + Says(c, script, n - 1)
  }

  /** What it says when the loop ends after `n` commands: a result if the last request was granted. */
  function SaysAtEnd(c: Client, script: seq<Turn>, n: nat): seq<Call>
    requires n <= |script|
  {
    var error := LastError(script, n, c.settings.error);
    if !LastGranted(script, n, c.awaiting) then []
    else [Tell(OpenCookie(script, n, c.cookie), if error == "" then Succeeded else Failed, error)]
  }

  // ----- The process does just that -----

  /** The process after the first `n` commands. */
  function Handled(c: Client, script: seq<Turn>, n: nat): Client
    requires n <= |script|
  {
    if n == 0 then c else Handled(c, script, n - 1).Handle(script[n - 1])
  }

  /** The process is what the readers of the script say. */
  predicate ReadOff(c: Client, script: seq<Turn>, n: nat)
    requires n <= |script|
  {
    var c' := Handled(c, script, n);
    && c'.pid == c.pid && c'.AtRest()
    && c'.cookie == OpenCookie(script, n, c.cookie) && c'.awaiting == LastGranted(script, n, c.awaiting)
    && c'.settings.prompt == Last(script, n, Prompt, c.settings.prompt)
    && c'.settings.description == Last(script, n, Description, c.settings.description)
    && c'.settings.keyinfo == Last(script, n, Keyinfo, c.settings.keyinfo)
    && c'.settings.repeat == Last(script, n, Repeat, c.settings.repeat)
    && c'.settings.error == LastError(script, n, c.settings.error)
  }

  predicate SaidSo(c: Client, script: seq<Turn>, n: nat)
    requires n <= |script|
  {
    && Handled(c, script, n).output == c.output + AllLines(script, n, c.pid)
    && Handled(c, script, n).calls == c.calls + AllSays(c, script, n)
  }

  predicate MadeIds(script: seq<Turn>) {
    forall k :: 0 <= k < |script| ==> script[k].uuid != ""
  }

  lemma StandingAfter(c: Client, t: Turn)
    requires c.AtRest() && t.uuid != "" && !t.command.Bye?
    ensures var c' := c.Handle(t);
            && c'.pid == c.pid && c'.AtRest()
            && c'.cookie == (if !IsRequest(t) then c.cookie else if WasGranted(t) then OrElse(c.cookie, t.uuid) else "")
            && c'.awaiting == if IsRequest(t) then WasGranted(t) else c.awaiting
  {
    hide Changed;
  }

  function Kept(left: Option<string>, before: string): string {
    if left.Some? then left.value else before
  }

  predicate Follows(s: Settings, command: Command, s': Settings) {
    && s'.prompt == Kept(Leaves(command, Prompt), s.prompt)
    && s'.description == Kept(Leaves(command, Description), s.description)
    && s'.keyinfo == Kept(Leaves(command, Keyinfo), s.keyinfo)
    && s'.repeat == Kept(Leaves(command, Repeat), s.repeat)
    && s'.error == match command
                   case SetError(text) => text
                   case GetPin => ""
                   case Confirm => ""
                   case Reset => ""
                   case _ => s.error
  }

  lemma ChangedFollows(s: Settings, command: Command)
    requires !command.GetPin? && !command.Confirm?
    ensures Follows(s, command, Changed(s, command))
  {
  }

  lemma SettingsAfter(c: Client, t: Turn)
    requires !t.command.Bye?
    ensures Follows(c.settings, t.command, c.Handle(t).settings)
  {
    hide Client.Tells, Client.Closes, Changed, Client.Asks, Client.Retries, Client.Delivers;
    if !IsRequest(t) {
      ChangedFollows(c.settings, t.command);
      assert c.Handle(t).settings == Changed(c.settings, t.command) by {
        OthersChange(c.settings, t.command);
      }
    }
    AskingSettings(c, t.uuid);
    if t.command.GetPin? {
      DeliverySettings(c.Retries().Asks(false, t.uuid), false, t.reply);
    } else if t.command.Confirm? {
      DeliverySettings(c.Asks(true, t.uuid), true, t.reply);
    }
  }

  lemma OthersChange(s: Settings, command: Command)
    ensures command.GetInfo? || command.Acknowledged? ==> Changed(s, command) == s
  {
  }

  lemma AskingSettings(c: Client, uuid: Id)
    ensures c.Retries().Asks(false, uuid).settings == c.settings && c.Asks(true, uuid).settings == c.settings
  {
    hide OrElse;
  }

  lemma DeliverySettings(c: Client, confirm: bool, reply: Reply)
    ensures c.Delivers(confirm, reply).settings == c.settings.(error := "")
  {
  }

  lemma {:induction false} HandledIsReadOff(c: Client, script: seq<Turn>, n: nat)
    requires c.AtRest() && MadeIds(script) && n <= |script|
    requires forall k :: 0 <= k < n ==> !script[k].command.Bye?
    ensures ReadOff(c, script, n)
  {
    hide Client.Handle, Leaves, IsRequest, WasGranted;
    if n > 0 {
      HandledIsReadOff(c, script, n - 1);
      var before, t := Handled(c, script, n - 1), script[n - 1];
      StandingAfter(before, t);
      SettingsAfter(before, t);
    }
  }

  lemma LinesOfCommand(c: Client, t: Turn)
    ensures c.Handle(t).output == c.output + Lines(t, c.pid)
  {
    hide Changed;
    if t.command.GetPin? {
      LinesOfRequest(c.Retries().Asks(false, t.uuid), false, t.reply);
    } else if t.command.Confirm? {
      LinesOfRequest(c.Asks(true, t.uuid), true, t.reply);
    }
  }

  lemma LinesOfRequest(c: Client, confirm: bool, reply: Reply)
    ensures c.Delivers(confirm, reply).output ==
            c.output + Lines(Turn(if confirm then Confirm else GetPin, "", reply), "")
  {
  }

  lemma CallsOfGetPin(c: Client, t: Turn)
    requires c.AtRest() && t.command.GetPin?
    ensures var s := c.settings;
            c.Handle(t).calls ==
            c.calls
            + (if c.awaiting
               then [Tell(c.cookie, Verdict.Retry, if s.error == "" then "Authentication failed" else s.error)] else [])
            + [Ask(if c.cookie == "" then t.uuid else c.cookie, if s.prompt == "" then "Enter passphrase:"
              else s.prompt,
                   s.description, s.error, s.keyinfo, s.repeat != "", false)]
  {
    CallsOfDelivery(c.Retries().Asks(false, t.uuid), false, t.reply);
  }

  lemma CallsOfDelivery(c: Client, confirm: bool, reply: Reply)
    ensures c.Delivers(confirm, reply).calls == c.calls
  {
  }

  lemma CallsOfOthers(c: Client, t: Turn)
    requires !t.command.GetPin? && !t.command.Bye?
    ensures var s := c.settings;
            c.Handle(t).calls ==
            c.calls + if !t.command.Confirm? then []
              else [Ask(if c.cookie == "" then t.uuid else c.cookie,
                        if s.description == "" then "Please confirm" else s.description, "", "", "", false, true)]
  {
    hide Changed;
    CallsOfDelivery(c.Asks(true, t.uuid), true, t.reply);
  }

  /** One command: its lines and its calls. */
  lemma OneCommand(c: Client, script: seq<Turn>, k: nat)
    requires k < |script| && !script[k].command.Bye? && ReadOff(c, script, k)
    ensures var before := Handled(c, script, k);
            && before.Handle(script[k]).output == before.output + Lines(script[k], c.pid)
            && before.Handle(script[k]).calls == before.calls + Says(c, script, k)
  {
    hide Client.Handle, Last, LastError, OpenCookie, LastGranted, Lines;
    var before, t := Handled(c, script, k), script[k];
    LinesOfCommand(before, t);
    if t.command.GetPin? {
      CallsOfGetPin(before, t);
    } else {
      CallsOfOthers(before, t);
    }
  }

  lemma {:induction false} HandledSaidSo(c: Client, script: seq<Turn>, n: nat)
    requires c.AtRest() && MadeIds(script) && n <= |script|
    requires forall k :: 0 <= k < n ==> !script[k].command.Bye?
    ensures SaidSo(c, script, n)
  {
    hide Client.Handle, ReadOff, Lines, Says;
    if n > 0 {
      HandledSaidSo(c, script, n - 1);
      HandledIsReadOff(c, script, n - 1);
      OneCommand(c, script, n - 1);
    }
  }

  lemma {:induction false} RunFromHandled(c: Client, script: seq<Turn>, n: nat)
    requires n <= |script| && forall k :: 0 <= k < n ==> !script[k].command.Bye?
    ensures c.Run(script) == Handled(c, script, n).Run(script[n..])
  {
    hide Client.Handle, Client.Closes;
    if n > 0 {
      RunFromHandled(c, script, n - 1);
      assert script[n - 1..][1..] == script[n..];
    } else {
      assert script[0..] == script;
    }
  }

  /** The commands that are answered: all before the first BYE, and that one. */
  function Answered(script: seq<Turn>): (n: nat)
    ensures n <= |script|
  {
    if Length(script) < |script| then Length(script) + 1 else |script|
  }

  lemma Ending(c: Client)
    requires c.AtRest()
    ensures c.Closes().output == c.output
    ensures c.Closes().calls ==
            c.calls + if !c.awaiting then []
              else [Tell(c.cookie, if c.settings.error == "" then Succeeded else Failed, c.settings.error)]
    ensures var said := c.Handle(Turn(Bye, "", Silence));
            said.output == c.output + [OkLine("closing connection")] && said.Closes().output == said.output
    ensures c.Handle(Turn(Bye, "", Silence)).Closes().calls == c.Closes().calls
  {
  }

  /** What the caller reads and what the daemon is told, over every script: every command up to the end of
      the loop is answered with the lines that its own command and reply call for, so a GETPIN writes the
      password that came back of it and nothing else; and the daemon is asked and told what the settings
      made before each request call for. */
  lemma TalkIsReadOff(c: Client, script: seq<Turn>)
    requires c.AtRest() && MadeIds(script)
    ensures c.Run(script).output == c.output + AllLines(script, Answered(script), c.pid)
    ensures c.Run(script).calls ==
            c.calls + AllSays(c, script, Length(script)) + SaysAtEnd(c, script, Length(script))
  {
    hide Client.Handle, Client.Closes, Last, OpenCookie, LastGranted;
    var n := Length(script);
    HandledSaidSo(c, script, n);
    HandledIsReadOff(c, script, n);
    RunFromHandled(c, script, n);
    var end := Handled(c, script, n);
    Ending(end);
    if n < |script| {
      ByeIsBye(end, script[n]);
      assert script[n..][0] == script[n];
    }
  }

  lemma ByeIsBye(c: Client, t: Turn)
    requires t.command.Bye?
    ensures c.Handle(t) == c.Handle(Turn(Bye, "", Silence))
  {
  }

  /** The one case in which the caller reads an error and the daemon is still told of a success: the last
      request was a GETPIN, answered with an empty password, and no error was set after it. */
  lemma RefusedYetSuccessful(c: Client, script: seq<Turn>, k: nat)
    requires c.AtRest() && c.calls == [] && MadeIds(script)
    requires k < Length(script) && IsRequest(script[k])
    requires forall m :: k < m < Length(script) ==> !IsRequest(script[m])
    ensures Succeeds(c.Run(script).calls) && Lines(script[k], c.pid) == [ErrLine] <==>
            && script[k].command.GetPin? && script[k].reply == Replied(Password(""))
            && LastError(script, Length(script), c.settings.error) == ""
  {
    hide LastError, Client.Run;
    SuccessIsInferred(c, script);
    LastRequest(script, k, Length(script), c.awaiting);
  }

  lemma {:induction false} LastRequest(script: seq<Turn>, k: nat, n: nat, before: bool)
    requires k < n <= |script| && IsRequest(script[k]) && forall m :: k < m < n ==> !IsRequest(script[m])
    ensures LastGranted(script, n, before) == WasGranted(script[k])
  {
    if k < n - 1 {
      LastRequest(script, k, n - 1, before);
    }
  }
}
