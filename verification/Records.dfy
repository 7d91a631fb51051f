/** What the tables hold for an id is what was last asked for it: read off the inputs of the run. */
module Records {
  import opened Basics
  import opened Messages
  import opened Sessions
  import opened Keyring
  import opened Pinentry
  import opened Daemon
  import opened Invariants
  import opened Runs
  import opened PolkitAgent
  import opened Endings

  /** The id a request is about: its cookie, or a made one. */
  function Names(i: Input): Option<Id> {
    match i
    case AskKeyring(_, _, m, _, uuid) => Some(if m.cookie == "" then uuid else m.cookie)
    case AskPinentry(_, _, m, _, uuid) => Some(if m.cookie == "" then uuid else m.cookie)
    case _ => None
  }

  /** The last keyring request for the id. */
  function LastKeyring(run: seq<Input>, id: Id): Option<Input> {
    if run == [] then None
    else
      var i := run[|run| - 1];
      if i.AskKeyring? && Names(i) == Some(id) then Some(i) else LastKeyring(run[..|run| - 1], id)
  }

  /** The keyring request as it was sent. */
  predicate AsSent(r: KeyringRequest, i: Input, id: Id) {
    i.AskKeyring? &&
    var m := i.keyringMessage;
    && r.cookie == id && r.socket == i.socket && r.pid == i.pid && r.message == m.message
    && r.title == (if m.title.Some? then m.title.value else m.prompt) && r.choice == m.choice && r.flags == m.flags
  }

  /** In every run that starts with none pending, a pending keyring request is the last one sent for its
      id. */
  lemma {:induction false} KeyringIsOnRecord(d: System, run: seq<Input>, id: Id)
    requires d.core.keyring == map[] && Admissible(d, run) && id in After(d, run).core.keyring
    ensures LastKeyring(run, id).Some? && AsSent(After(d, run).core.keyring[id], LastKeyring(run, id).value, id)
  {
    hide Core.Step, System.Routed, System.Enabled, FlowsAfter, AttemptsAfter;
    if run != [] {
      var rest, i := run[..|run| - 1], run[|run| - 1];
      var before := After(d, rest);
      EnabledIsFair(before, i);
      StepTables(before.core, i, (i.Respond? || i.Cancel?) && before.routes.registry.Authorized(i.socket),
                 before.routes.now);
      if !(i.AskKeyring? && Names(i) == Some(id)) {
        KeyringIsOnRecord(d, rest, id);
      }
    }
  }

  // ----- Pinentry flows -----

  /** The input is a request that opens or continues the flow of the id. */
  predicate Opens(c: Core, i: Input, id: Id) {
    i.AskPinentry? && Names(i) == Some(id) && (id in c.flows ==> c.flows[id].owner == i.pid)
  }

  /** The input is a retry report of the flow's owner. */
  predicate Retries(c: Core, i: Input, id: Id) {
    && i.Report? && i.id == id && i.verdict.Retry? && id != "" && id in c.flows && c.flows[id].owner == i.pid
    && id in c.live && c.live[id].source == Source.Pinentry
  }

  /** What the run says of an open flow: the last request for it, the last key that its requests named, and
      whether a retry has been reported since that request. */
  datatype Record = Record(request: Input, key: string, reported: bool)

  ghost function FlowRecord(d: System, run: seq<Input>, id: Id): Option<Record> {
    if run == [] then None
    else
      var rest, i := run[..|run| - 1], run[|run| - 1];
      var c, before := After(d, rest).core, FlowRecord(d, rest, id);
      if Opens(c, i, id) then
        var key := i.pinentryMessage.keyinfo;
        Some(Record(i, if key == "" && id in c.flows && before.Some? then before.value.key else key, false))
      else if before.Some? && Retries(c, i, id) then
        Some(before.value.(reported := true))
      else before
  }

  /** The flow is the last request for it: its owner sent it, its key is the last named, its request is
      held as it was sent until a retry is reported, and the report is noted. */
  predicate IsOnRecord(f: Flow, r: Record, id: Id) {
    var i := r.request;
    && i.AskPinentry? && f.owner == i.pid && f.keyinfo == r.key && f.reported == r.reported
    && (!f.phase.Retrying? ==>
          var m, q := i.pinentryMessage, f.phase.request;
          && q.cookie == id && q.socket == i.socket && q.pid == i.pid
          && q.prompt == (if m.prompt == "" then "Enter passphrase:" else m.prompt)
          && q.description == m.description && q.error == m.error && q.keyinfo == m.keyinfo && q.repeat == m.repeat
          && q.confirmOnly == m.confirmOnly)
    && (f.phase.Retrying? ==> f.reported)
  }

  lemma {:induction false} FlowsAreOnRecord(d: System, run: seq<Input>, id: Id)
    requires d.core.flows == map[] && Admissible(d, run) && id in After(d, run).core.flows
    ensures FlowRecord(d, run, id).Some? && IsOnRecord(After(d, run).core.flows[id], FlowRecord(d, run, id).value, id)
  {
    hide Core.Step, System.Routed, System.Enabled, KeyringAfter, AttemptsAfter, IsOnRecord;
    if run != [] {
      var rest, i := run[..|run| - 1], run[|run| - 1];
      var before := After(d, rest);
      EnabledIsFair(before, i);
      var authorized := (i.Respond? || i.Cancel?) && before.routes.registry.Authorized(i.socket);
      StepTables(before.core, i, authorized, before.routes.now);
      if id in before.core.flows {
        FlowsAreOnRecord(d, rest, id);
      }
      FlowStaysOnRecord(before.core, i, authorized, before.routes.now, id, FlowRecord(d, rest, id));
    }
  }

  lemma FlowStaysOnRecord(c: Core, i: Input, authorized: bool, now: int, id: Id, before: Option<Record>)
    requires id in FlowsAfter(c, i, authorized, now)
    requires id in c.flows ==> before.Some? && IsOnRecord(c.flows[id], before.value, id)
    ensures !Opens(c, i, id) ==> id in c.flows
    ensures var f := FlowsAfter(c, i, authorized, now)[id];
            if Opens(c, i, id) then
              var key := i.pinentryMessage.keyinfo;
              IsOnRecord(f, Record(i, if key == "" && id in c.flows && before.Some? then before.value.key else key,
                                   false), id)
            else if Retries(c, i, id) then
              IsOnRecord(f, before.value.(reported := true), id)
            else IsOnRecord(f, before.value, id)
  {
    hide Sess.UpdateError;
  }

  // ----- Polkit requests -----

  /** What the run says of a request under way: the token it was handed in with, the helper last made for
      it, and the helpers that have failed. */
  ghost function AttemptRecord(d: System, run: seq<Input>, id: Id): Option<Attempt> {
    if run == [] then None
    else
      var rest, i := run[..|run| - 1], run[|run| - 1];
      var attempts, before := After(d, rest).core.attempts, AttemptRecord(d, rest, id);
      if i.PolkitBegin? && i.id == id && i.identified && id !in attempts then Some(Attempt(i.token, i.helper, 0))
      else if before.Some? && i.HelperDone? && !i.gained && id in attempts && attempts[id].helper == i.sender then
        Some(Attempt(before.value.token, i.next, before.value.retryCount + 1))
      else before
  }

  lemma {:induction false} AttemptsAreOnRecord(d: System, run: seq<Input>, id: Id)
    requires Sound(d) && d.core.attempts == map[] && Admissible(d, run) && id in After(d, run).core.attempts
    ensures AttemptRecord(d, run, id) == Some(After(d, run).core.attempts[id])
  {
    hide Core.Step, System.Routed, System.Enabled, KeyringAfter, FlowsAfter, CoreSound;
    if run != [] {
      var rest, i := run[..|run| - 1], run[|run| - 1];
      var before := After(d, rest);
      EnabledIsFair(before, i);
      StepTables(before.core, i, (i.Respond? || i.Cancel?) && before.routes.registry.Authorized(i.socket),
                 before.routes.now);
      RunKeepsSound(d, rest);
      PolkitOfSound(before.core);
      OneHelperEach(before.core.AsPolkit());
      if id in before.core.attempts {
        AttemptsAreOnRecord(d, rest, id);
      }
    }
  }

  lemma PolkitOfSound(c: Core)
    requires CoreSound(c)
    ensures c.AsPolkit().Sound()
  {
  }
}
