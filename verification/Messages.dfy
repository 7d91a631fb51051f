/** What travels: session events, the messages the daemon writes to sockets, and the outputs of one
    daemon step. */
module Messages {
  import opened Basics

  datatype Source = Polkit | Keyring | Pinentry

  datatype Result = Success | Cancelled | Error

  datatype Requestor = Requestor(name: string, icon: string, fallbackLetter: string, fallbackKey: string, pid: int)

  datatype Context = Context(
    message: string, requestor: Requestor,
    actionId: string, user: string,
    keyringName: string,
    description: string, keyinfo: string, curRetry: int, maxRetries: int, confirmOnly: bool, repeat: bool)

  datatype Event =
    | Created(id: Id, source: Source, context: Context)
    | Updated(id: Id, prompt: string, echo: bool, retry: Option<(int, int)>, error: string, info: string)
    | Closed(id: Id, result: Result, error: string)
    | Notice(kind: string)  // any event whose type does not start with "session."

  /** What a requesting process is told: the secret, a confirmation, or that the user declined. */
  datatype Answer = Password(text: string) | Confirmed | Declined

  datatype Message =
    | Registered(id: string, standing: Option<bool>, priority: int)
    | UiActive(active: bool, id: string)
    | Subscribed(count: nat, standing: Option<bool>)
    | Ok(standing: Option<bool>)
    | Failure(text: string)
    | SessionEvent(event: Event)
    | KeyringReply(id: Id, answer: Answer)
    | PinentryReply(id: Id, answer: Answer)

  datatype Sent = Sent(to: Socket, message: Message)

  /** One output of a session-side handler, in the order the handler produces it. */
  datatype Effect =
    | Emit(event: Event)                      // emitSessionEvent
    | Recheck                                 // re-elect the provider, announce a change
    | Send(to: Socket, message: Message)      // sendJson
    | StartHelper(helper: nat, id: Id)        // new polkit helper session, initiated
    | HelperResponse(helper: nat, text: string)
    | CancelHelper(helper: nat)
    | Complete(token: nat, error: string)     // AsyncResult::setError, setCompleted

  const NOT_ACTIVE: string := "Not active UI provider"
  const NOT_REGISTERED: string := "Provider not registered"
}
