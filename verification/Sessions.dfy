/** Authentication sessions and the store that owns them. `Sess` is the abstract side: the live
    sessions and the outputs of the current step. */
module Sessions {
  import opened Basics
  import opened Messages

  const DEFAULT_MAX_RETRIES := 3

  datatype SessionData = SessionData(
    source: Source, context: Context, prompt: string, echo: bool, error: string, info: string)

  /** The part of a context that the JSON of a session of this source carries. */
  function Visible(source: Source, context: Context): Context {
    var bare := Context(context.message, context.requestor, "", "", "", "", "", 0, 0, false, false);
    match source
    case Polkit => bare.(actionId := context.actionId, user := context.user)
    case Keyring => bare.(keyringName := context.keyringName)
    case Pinentry =>
      bare.(description := context.description, keyinfo := context.keyinfo,
            curRetry := context.curRetry, maxRetries := context.maxRetries,
            confirmOnly := context.confirmOnly, repeat := context.repeat)
  }

  function CreatedEvent(id: Id, d: SessionData): Event {
    Created(id, d.source, Visible(d.source, d.context))
  }

  function UpdatedEvent(id: Id, d: SessionData): Event {
    var retry := if d.source.Pinentry? then Some((d.context.curRetry, d.context.maxRetries)) else None;
    Updated(id, d.prompt, d.echo, retry, d.error, d.info)
  }

  function ClosedEvent(id: Id, d: SessionData, result: Result): Event {
    Closed(id, result, if result.Success? then "" else d.error)
  }

  function WithPrompt(d: SessionData, prompt: string, echo: bool, clearError: bool): SessionData {
    d.(prompt := prompt, echo := echo, error := if clearError then "" else d.error, info := "")
  }

  function WithRetry(d: SessionData, curRetry: int, maxRetries: int): SessionData {
    if !d.source.Pinentry? then d
    else
      d.(context := d.context.(curRetry := if curRetry < 0 then 0 else curRetry,
                               maxRetries := if maxRetries > 0 then maxRetries else DEFAULT_MAX_RETRIES))
  }

  type Live = map<Id, SessionData>

  /** Live sessions, and everything the current step has put out so far. */
  datatype Sess = Sess(live: Live, out: seq<Effect>) {
    function Put(effects: seq<Effect>): Sess {
      this.(out := out + effects)
    }

    function Set(id: Id, d: SessionData): Sess {
      Sess(live[id := d], out + [Emit(UpdatedEvent(id, d))])
    }

    function Create(id: Id, source: Source, context: Context): Sess {
      var d := SessionData(source, context, "", false, "", "");
      Sess(live[id := d], out + [Emit(CreatedEvent(id, d))])
    }

    function UpdatePrompt(id: Id, prompt: string, echo: bool, clearError: bool): Sess {
      if id in live then Set(id, WithPrompt(live[id], prompt, echo, clearError)) else this
    }

    function UpdateError(id: Id, error: string): Sess {
      if id in live then Set(id, live[id].(error := error)) else this
    }

    function UpdateInfo(id: Id, info: string): Sess {
      if id in live then Set(id, live[id].(info := info)) else this
    }

    // Changes the retry counters without telling anyone.
    function UpdateRetry(id: Id, curRetry: int, maxRetries: int): Sess {
      if id in live then this.(live := live[id := WithRetry(live[id], curRetry, maxRetries)]) else this
    }

    /** A manager closes a session: when it was the last one, the provider is re-elected first. */
    function Close(id: Id, result: Result): Sess {
      if id !in live then this
      else
        var rest := this.(live := live - {id});
        var checked := if rest.live == map[] then rest.Put([Recheck]) else rest;
        checked.Put([Emit(ClosedEvent(id, live[id], result))])
    }

    /** Polkit completes a session: the event goes out before the re-election. */
    function Finish(id: Id, success: bool): Sess {
      if id !in live then this
      else
        var closed := ClosedEvent(id, live[id], if success then Success else Cancelled);
        var rest := this.(live := live - {id}).Put([Emit(closed)]);
        if rest.live == map[] then rest.Put([Recheck]) else rest
    }
  }

  datatype State = Prompting | Shut

  class Session {
    const id: Id
    const source: Source
    var context: Context
    var state: State
    var prompt: string
    var error: string
    var info: string
    var echo: bool
    var result: Option<Result>

    constructor (id: Id, source: Source, context: Context)
      ensures this.id == id && this.source == source && state == Prompting && result == None
      ensures Data() == SessionData(source, context, "", false, "", "")
    {
      this.id, this.source, this.context := id, source, context;
      state, prompt, error, info, echo, result := Prompting, "", "", "", false, None;
    }

    ghost function Data(): SessionData
      reads this
    {
      SessionData(source, context, prompt, echo, error, info)
    }

    method SetPrompt(prompt: string, echo: bool, clearError: bool)
      modifies this
      ensures Data() == WithPrompt(old(Data()), prompt, echo, clearError)
      ensures state == Prompting && result == old(result)
    {
      this.prompt := prompt;
      this.echo := echo;
      state := Prompting;
      if clearError {
        error := "";
      }
      info := "";
    }

    method SetError(error: string)
      modifies this`error
      ensures Data() == old(Data()).(error := error)
    {
      this.error := error;
    }

    method SetInfo(info: string)
      modifies this`info
      ensures Data() == old(Data()).(info := info)
    {
      this.info := info;
    }

    method SetPinentryRetry(curRetry: int, maxRetries: int)
      modifies this`context
      ensures Data() == WithRetry(old(Data()), curRetry, maxRetries)
    {
      if source != Pinentry {
        return;
      }
      context := context.(curRetry := if curRetry < 0 then 0 else curRetry,
                          maxRetries := if maxRetries > 0 then maxRetries else DEFAULT_MAX_RETRIES);
    }

    method Close(result: Result)
      modifies this
      ensures state == Shut && this.result == Some(result)
      ensures Data() == if result.Success? then old(Data()).(error := "") else old(Data())
    {
      this.result := Some(result);
      state := Shut;
      if result == Success {
        error := "";
      }
    }

    method ToCreatedEvent() returns (event: Event)
      ensures event == CreatedEvent(id, Data())
    {
      event := Created(id, source, Visible(source, context));
    }

    method ToUpdatedEvent() returns (event: Event)
      ensures event == UpdatedEvent(id, Data())
      ensures event == Updated(id, prompt, echo, if source == Pinentry then Some((context.curRetry, context.maxRetries))
                                                 else None, error, info)
    {
      var retry := None;
      if source == Pinentry {
        retry := Some((context.curRetry, context.maxRetries));
      }
      event := Updated(id, prompt, echo, retry, error, info);
    }

    method ToClosedEvent() returns (event: Event)
      ensures event == Closed(id, if result.Some? then result.value else Error, error)
    {
      event := Closed(id, if result.Some? then result.value else Error, error);
    }
  }

  /** The map from ids to sessions; each session is owned by exactly one entry. */
  class SessionStore {
    var sessions: map<Id, Session>
    ghost var Repr: set<Session>

    constructor ()
      ensures Valid() && View() == map[] && Repr == {}
    {
      sessions, Repr := map[], {};
    }

    ghost predicate Valid()
      reads this, Repr
    {
      forall i :: i in sessions ==> sessions[i] in Repr && sessions[i].id == i && sessions[i].state == Prompting
    }

    ghost function View(): Live
      requires Valid()
      reads this, Repr
    {
      map i | i in sessions :: sessions[i].Data()
    }

    predicate Empty()
      requires Valid()
      reads this, Repr
      ensures Empty() <==> View() == map[]
    {
      assert forall i :: i in sessions <==> i in View();
      sessions == map[]
    }

    method CreateSession(id: Id, source: Source, context: Context) returns (event: Event)
      requires Valid()
      modifies this
      ensures Valid() && fresh(Repr - old(Repr))
      ensures View() == old(View())[id := SessionData(source, context, "", false, "", "")]
      ensures event == CreatedEvent(id, View()[id])
    {
      var session := new Session(id, source, context);
      event := session.ToCreatedEvent();
      sessions, Repr := sessions[id := session], Repr + {session};
    }

    method UpdatePrompt(id: Id, prompt: string, echo: bool, clearError: bool) returns (event: Option<Event>)
      requires Valid()
      modifies Repr
      ensures Valid() && sessions == old(sessions)
      ensures id !in old(View()) ==> event == None && View() == old(View())
      ensures id in old(View()) ==>
                && View() == old(View())[id := WithPrompt(old(View())[id], prompt, echo, clearError)]
                && event == Some(UpdatedEvent(id, View()[id]))
    {
      if id !in sessions {
        return None;
      }
      sessions[id].SetPrompt(prompt, echo, clearError);
      var e := sessions[id].ToUpdatedEvent();
      event := Some(e);
    }

    method UpdateError(id: Id, error: string) returns (event: Option<Event>)
      requires Valid()
      modifies Repr
      ensures Valid() && sessions == old(sessions)
      ensures id !in old(View()) ==> event == None && View() == old(View())
      ensures id in old(View()) ==>
                && View() == old(View())[id := old(View())[id].(error := error)]
                && event == Some(UpdatedEvent(id, View()[id]))
    {
      if id !in sessions {
        return None;
      }
      sessions[id].SetError(error);
      var e := sessions[id].ToUpdatedEvent();
      event := Some(e);
    }

    method UpdateInfo(id: Id, info: string) returns (event: Option<Event>)
      requires Valid()
      modifies Repr
      ensures Valid() && sessions == old(sessions)
      ensures id !in old(View()) ==> event == None && View() == old(View())
      ensures id in old(View()) ==>
                && View() == old(View())[id := old(View())[id].(info := info)]
                && event == Some(UpdatedEvent(id, View()[id]))
    {
      if id !in sessions {
        return None;
      }
      sessions[id].SetInfo(info);
      var e := sessions[id].ToUpdatedEvent();
      event := Some(e);
    }

    method UpdatePinentryRetry(id: Id, curRetry: int, maxRetries: int) returns (known: bool)
      requires Valid()
      modifies Repr
      ensures Valid() && sessions == old(sessions)
      ensures known == (id in sessions && sessions[id].source == Pinentry)
      ensures View() == Sess(old(View()), []).UpdateRetry(id, curRetry, maxRetries).live
    {
      if id !in sessions || sessions[id].source != Pinentry {
        return false;
      }
      sessions[id].SetPinentryRetry(curRetry, maxRetries);
      known := true;
    }

    method CloseSession(id: Id, result: Result) returns (event: Option<Event>)
      requires Valid()
      modifies this`sessions, Repr
      ensures Valid()
      ensures id !in old(View()) ==> event == None && View() == old(View())
      ensures id in old(View()) ==>
                && View() == old(View()) - {id}
                && event == Some(ClosedEvent(id, old(View())[id], result))
    {
      if id !in sessions {
        return None;
      }
      sessions[id].Close(result);
      var e := sessions[id].ToClosedEvent();
      event := Some(e);
      sessions := sessions - {id};
    }
  }
}
