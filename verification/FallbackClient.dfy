/** The fallback user interface's side of the connection: its own idea of whether it is registered and
    elected, kept up to date from the daemon's messages. */
module Fallback {
  import opened Basics
  import opened Messages
  import L = Framing

  const FIRST_DELAY_MS := 200
  const LAST_DELAY_MS := 4000

  datatype Request =
    | Register(name: string, kind: string, priority: int)
    | Subscribe
    | Heartbeat(id: string)
    | Respond(id: Id, response: string)
    | Cancel(id: Id)

  const OWN_REGISTRATION := Register("bb-auth-fallback", "fallback", 10)

  /** What the client keeps about its standing, and what it has shown and asked for. */
  datatype Client = Client(
    connected: bool, registered: bool, subscribed: bool, active: bool, id: string,
    pendingKnown: bool, pendingActive: bool, pendingId: string,
    shown: seq<Event>, asked: seq<Request>)
  {
    function Ask(r: Request): Client {
      if connected then this.(asked := asked + [r]) else this
    }

    function WithPending(known: bool, act: bool, id: string): Client {
      this.(pendingKnown := known, pendingActive := act, pendingId := id)
    }

    /** Becoming active asks for the live sessions again. */
    function SetActive(act: bool): Client {
      if act == active then this
      else
        var c := this.(active := act);
        if act && connected && registered then c.Ask(Subscribe) else c
    }

    /** A status that came before the registration is applied after it. */
    function ApplyPending(): Client {
      if !pendingKnown || !registered || id == "" then this
      else SetActive(if pendingActive then pendingId == id else true).WithPending(false, false, "")
    }

    function Handle(m: Message): Client {
      match m
      case Subscribed(_, standing) =>
        var c := this.(subscribed := true);
        if standing.Some? then c.SetActive(standing.value) else c
      case Registered(newId, act, _) =>
        var c := this.(registered := true, id := newId);
        if act.Some? then c.SetActive(act.value).WithPending(false, false, "") else c.ApplyPending()
      case UiActive(act, activeId) =>
        if act && (!registered || id == "") then WithPending(true, true, activeId)
        else if !act && !registered then WithPending(true, false, "")
        else if !act then SetActive(true).WithPending(false, false, "")
        else SetActive(activeId == id)
      case Failure(text) => if text == NOT_ACTIVE then SetActive(false) else this
      case SessionEvent(e) => if (!active && registered) || e.Notice? then this else this.(shown := shown + [e])
      case _ => this
    }

    /** All the messages of a channel, in order. */
    function HandleAll(ms: seq<Message>): Client {
      if ms == [] then this else HandleAll(ms[..|ms| - 1]).Handle(ms[|ms| - 1])
    }

    /** A connection is made: nothing is known yet; registration and subscription are asked for. */
    function Connect(): Client {
      Disconnect().(connected := true).Ask(OWN_REGISTRATION).Ask(Subscribe)
    }

    function Disconnect(): Client {
      this.(connected := false, registered := false, subscribed := false, active := false, id := "")
        .WithPending(false, false, "")
    }
  }

  /** The next reconnect delay. */
  function Doubled(delay: int): int {
    if delay * 2 < LAST_DELAY_MS then delay * 2 else LAST_DELAY_MS
  }

  lemma {:induction false} HandleAllAppend(c: Client, a: seq<Message>, b: seq<Message>)
    ensures c.HandleAll(a + b) == c.HandleAll(a).HandleAll(b)
  {
    if b == [] {
      assert a + b == a;
    } else {
      assert (a + b)[..|a + b| - 1] == a + b[..|b| - 1];
      HandleAllAppend(c, a, b[..|b| - 1]);
    }
  }

  /** A message makes the client ask for something in one case only: it has become active and is
      registered; then it asks once for the live sessions. */
  lemma BecomingActiveSubscribes(c: Client, m: Message)
    requires c.connected
    ensures var c' := c.Handle(m);
            && c'.connected
            && c'.asked == c.asked + if !c.active && c'.active && c'.registered then [Subscribe] else []
  {
    hide Client.SetActive, Client.ApplyPending;
    match m
    case Registered(newId, act, _) =>
      var listed := c.(registered := true, id := newId);
      StandingAsks(listed, act.Some? && act.value);
    case Subscribed(_, standing) => StandingAsks(c.(subscribed := true), standing.Some? && standing.value);
    case UiActive(act, activeId) =>
      StandingAsks(c, true);
      StandingAsks(c, activeId == c.id);
    case Failure(_) => StandingAsks(c, false);
    case _ =>
  }

  /** What the client asks for when its standing is set. */
  predicate AsksIfActivated(c: Client, c': Client) {
    && c'.connected == c.connected && c'.registered == c.registered
    && c'.asked == c.asked + if !c.active && c'.active && c'.registered && c.connected then [Subscribe] else []
  }

  lemma StandingAsks(c: Client, act: bool)
    ensures AsksIfActivated(c, c.SetActive(act)) && AsksIfActivated(c, c.ApplyPending())
    ensures c.SetActive(act).active == act
  {
  }

  /** A status that comes before the reply to the registration is not lost: unless the reply itself says
      who is elected, the client ends up as if the status had come after it. */
  lemma StatusMayComeFirst(c: Client, act: bool, activeId: string, id: string, standing: Option<bool>, priority: int)
    requires !c.registered && id != ""
    ensures standing.None? ==>
              var status, reply := UiActive(act, activeId), Registered(id, None, priority);
              c.Handle(status).Handle(reply).active == c.Handle(reply).Handle(status).active == (!act || activeId == id)
    ensures standing.Some? ==>
              c.Handle(UiActive(act, activeId)).Handle(Registered(id, standing, priority)).active == standing.value
  {
  }

  function Activations(c: Client, ms: seq<Message>): seq<Request> {
    if ms == [] then []
    else
      var n := |ms| - 1;
      var before, after := c.HandleAll(ms[..n]), c.HandleAll(ms);
      Activations(c, ms[..n]) + if !before.active && after.active && after.registered then [Subscribe] else []
  }

  /** Over every channel: a client that has just connected registers and subscribes, and then subscribes
      once more each time it becomes active. */
  lemma {:induction false} AsksOncePerActivation(c: Client, ms: seq<Message>)
    ensures var joined := c.Connect();
            joined.asked == c.asked + [Register("bb-auth-fallback", "fallback", 10), Subscribe]
    ensures var joined := c.Connect();
            joined.HandleAll(ms).connected && joined.HandleAll(ms).asked == joined.asked + Activations(joined, ms)
  {
    hide Client.Handle;
    if ms != [] {
      AsksOncePerActivation(c, ms[..|ms| - 1]);
      BecomingActiveSubscribes(c.Connect().HandleAll(ms[..|ms| - 1]), ms[|ms| - 1]);
    }
  }

  class FallbackClient {
    var connected: bool
    var subscribed: bool
    var registered: bool
    var providerActive: bool
    var providerId: string
    var pendingProviderActiveKnown: bool
    var pendingProviderActive: bool
    var pendingProviderId: string
    var reconnectDelayMs: int
    var reconnectRunning: bool

    // What has been read and not handled yet. It outlives the connection.
    var buffer: L.Bytes

    // What has been emitted to the window and written to the socket.
    var shown: seq<Event>
    var asked: seq<Request>

    constructor ()
      ensures Valid() && View() == Client(false, false, false, false, "", false, false, "", [], []) && buffer == []
    {
      connected, subscribed, registered, providerActive, providerId := false, false, false, false, "";
      pendingProviderActiveKnown, pendingProviderActive, pendingProviderId := false, false, "";
      reconnectDelayMs, reconnectRunning, buffer := FIRST_DELAY_MS, false, [];
      shown, asked := [], [];
    }

    ghost function View(): Client
      reads this
    {
      Client(connected, registered, subscribed, providerActive, providerId,
             pendingProviderActiveKnown, pendingProviderActive, pendingProviderId, shown, asked)
    }

    /** The reconnect delay doubles between its bounds. */
    ghost predicate Valid()
      reads this
    {
      200 <= reconnectDelayMs <= 4000
    }

    method SendJson(r: Request)
      modifies this`asked
      ensures View() == old(View()).Ask(r)
    {
      if !connected {
        return;
      }
      asked := asked + [r];
    }

    method ClearPending()
      modifies this`pendingProviderActiveKnown, this`pendingProviderActive, this`pendingProviderId
      ensures View() == old(View()).WithPending(false, false, "")
    {
      pendingProviderActiveKnown := false;
      pendingProviderActive := false;
      pendingProviderId := "";
    }

    method SetProviderActive(active: bool)
      modifies this`providerActive, this`asked
      ensures View() == old(View()).SetActive(active)
    {
      if active == providerActive {
        return;
      }
      providerActive := active;
      if providerActive && connected && registered {
        SendJson(Subscribe);
      }
    }

    method ApplyPendingProviderState()
      modifies this`providerActive, this`asked, this`pendingProviderActiveKnown, this`pendingProviderActive,
               this`pendingProviderId
      ensures View() == old(View()).ApplyPending()
    {
      if !pendingProviderActiveKnown || !registered || providerId == "" {
        return;
      }
      var shouldBeActive := true;
      if pendingProviderActive {
        shouldBeActive := pendingProviderId == providerId;
      }
      SetProviderActive(shouldBeActive);
      ClearPending();
    }

    method HandleRegistered(id: string, active: Option<bool>, ghost priority: int)
      modifies this`registered, this`providerId, this`providerActive, this`asked,
               this`pendingProviderActiveKnown, this`pendingProviderActive, this`pendingProviderId
      ensures View() == old(View()).Handle(Registered(id, active, priority))
    {
      registered := true;
      providerId := id;
      if active.Some? {
        SetProviderActive(active.value);
        ClearPending();
      } else {
        ApplyPendingProviderState();
      }
    }

    method HandleUiActive(active: bool, activeId: string)
      modifies this`providerActive, this`asked,
               this`pendingProviderActiveKnown, this`pendingProviderActive, this`pendingProviderId
      ensures View() == old(View()).Handle(UiActive(active, activeId))
    {
      if active && (!registered || providerId == "") {
        pendingProviderActiveKnown := true;
        pendingProviderActive := true;
        pendingProviderId := activeId;
        return;
      }
      if !active {
        if !registered {
          pendingProviderActiveKnown := true;
          pendingProviderActive := false;
          pendingProviderId := "";
          return;
        }
        SetProviderActive(true);
        ClearPending();
        return;
      }
      SetProviderActive(activeId == providerId);
    }

    method HandleMessage(m: Message)
      modifies this
      ensures View() == old(View()).Handle(m)
      ensures reconnectDelayMs == old(reconnectDelayMs) && reconnectRunning == old(reconnectRunning)
    {
      hide Client.SetActive, Client.ApplyPending;
      match m
      case Subscribed(_, standing) =>
        subscribed := true;
        if standing.Some? {
          SetProviderActive(standing.value);
        }
      case Registered(id, active, priority) =>
        HandleRegistered(id, active, priority);
      case UiActive(active, activeId) =>
        HandleUiActive(active, activeId);
      case Failure(text) =>
        if text == NOT_ACTIVE {
          SetProviderActive(false);
        }
      case SessionEvent(e) =>
        if !providerActive && registered {
          return;
        }
        if !e.Notice? {
          shown := shown + [e];
        }
      case _ =>
    }

    /** `lines` are the messages found, in order. There is no limit on their length. */
    method OnReadyRead(chunk: L.Bytes) returns (lines: seq<L.Bytes>)
      modifies this`buffer
      ensures View() == old(View())
      ensures buffer == L.CutUp(old(buffer) + chunk).tail && lines == L.Messages(L.CutUp(old(buffer) + chunk).lines)
    {
      hide L.CutUp, L.Messages, L.Trimmed;
      lines := [];
      buffer := buffer + chunk;
      ghost var all, seen: seq<L.Bytes> := buffer, [];
      assert seen + L.CutUp(all).lines == L.CutUp(all).lines;
      L.MessagesOfNone();
      var newline := L.IndexOf(buffer);
      while newline != -1
        invariant newline == -1 ==> L.NEWLINE !in buffer
        invariant newline != -1 ==> 0 <= newline < |buffer| && buffer[newline] == L.NEWLINE
        invariant newline != -1 ==> L.NEWLINE !in buffer[..newline]
        invariant L.CutUp(all) == L.Cut(seen + L.CutUp(buffer).lines, L.CutUp(buffer).tail)
        invariant lines == L.Messages(seen)
        decreases |buffer|
      {
        L.CutNext(all, seen, buffer, newline);
        seen := seen + [buffer[..newline]];
        var line := L.Trimmed(buffer[..newline]);
        buffer := buffer[newline + 1..];
        if line != [] {
          lines := lines + [line];
        }
        newline := L.IndexOf(buffer);
      }
      L.NoNewlineNoLine(buffer);
      assert seen + [] == seen;
    }

    method OnConnected()
      requires Valid()
      modifies this
      ensures Valid() && View() == old(View()).Connect() && buffer == old(buffer)
      ensures reconnectDelayMs == 200 && reconnectRunning == old(reconnectRunning)
    {
      connected := true;
      reconnectDelayMs := FIRST_DELAY_MS;
      Reset();
      SendJson(OWN_REGISTRATION);
      SendJson(Subscribe);
    }

    method Reset()
      modifies this
      ensures View() == old(View()).Disconnect().(connected := old(connected)) && buffer == old(buffer)
      ensures reconnectDelayMs == old(reconnectDelayMs) && reconnectRunning == old(reconnectRunning)
    {
      subscribed := false;
      registered := false;
      providerId := "";
      ClearPending();
      SetProviderActive(false);
    }

    method OnDisconnected()
      requires Valid()
      modifies this
      ensures Valid() && View() == old(View()).Disconnect() && buffer == old(buffer)
      ensures reconnectRunning
      ensures reconnectDelayMs == if old(reconnectRunning) then old(reconnectDelayMs)
                else if 2 * old(reconnectDelayMs) < 4000 then 2 * old(reconnectDelayMs)
                else 4000
    {
      connected := false;
      Reset();
      StartReconnecting();
    }

    method OnError()
      requires Valid()
      modifies this`reconnectDelayMs, this`reconnectRunning
      ensures Valid() && View() == old(View()) && (connected || reconnectRunning)
      ensures reconnectDelayMs == if connected || old(reconnectRunning) then old(reconnectDelayMs)
                else if 2 * old(reconnectDelayMs) < 4000 then 2 * old(reconnectDelayMs)
                else 4000
    {
      if !connected {
        StartReconnecting();
      }
    }

    method StartReconnecting()
      requires Valid()
      modifies this`reconnectDelayMs, this`reconnectRunning
      ensures Valid() && View() == old(View()) && reconnectRunning
      ensures reconnectDelayMs == if old(reconnectRunning) then old(reconnectDelayMs)
                else if 2 * old(reconnectDelayMs) < 4000 then 2 * old(reconnectDelayMs)
                else 4000
    {
      if !reconnectRunning {
        reconnectRunning := true;
        reconnectDelayMs := Doubled(reconnectDelayMs);
      }
    }

    /** The watchdog repeats whatever the daemon has not confirmed. */
    method OnWatchdog()
      modifies this`asked
      ensures View() ==
              var c := old(View());
              var c' := if !c.registered then c.Ask(OWN_REGISTRATION) else c;
              if !c.subscribed then c'.Ask(Subscribe) else c'
    {
      if !connected {
        return;
      }
      if !registered {
        SendJson(OWN_REGISTRATION);
      }
      if !subscribed {
        SendJson(Subscribe);
      }
    }

    method OnHeartbeat()
      modifies this`asked
      ensures View() == if old(View()).registered then old(View()).Ask(Heartbeat(providerId)) else old(View())
    {
      if !connected || !registered {
        return;
      }
      SendJson(Heartbeat(providerId));
    }
  }
}
