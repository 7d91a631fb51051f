/** Keyring requests: pending until a provider answers or declines, or the requester goes away. */
module Keyring {
  import opened Basics
  import opened Messages
  import opened Sessions
  import opened Services

  datatype KeyringRequest = KeyringRequest(
    cookie: Id, socket: Socket, pid: Pid, title: string, message: string, choice: string, flags: int)

  /** The fields of `keyring_request`; `title` is optional and falls back to `prompt`. */
  datatype KeyringMessage = KeyringMessage(
    cookie: Id, title: Option<string>, prompt: string, message: string, choice: string, flags: int)

  function RequestOf(m: KeyringMessage, id: Id, socket: Socket, pid: Pid): KeyringRequest {
    KeyringRequest(id, socket, pid, if m.title.Some? then m.title.value else m.prompt, m.message, m.choice, m.flags)
  }

  function ContextOf(r: KeyringRequest, actor: Requestor): Context {
    Context(r.title, actor, "", "", r.message, "", "", 0, DEFAULT_MAX_RETRIES, false, false)
  }

  function IdOf(cookie: Id, uuid: Id): Id {
    if cookie == "" then uuid else cookie
  }

  datatype KeyringState = KeyringState(pending: map<Id, KeyringRequest>, sess: Sess) {
    function Ask(m: KeyringMessage, socket: Socket, pid: Pid, actor: Requestor, uuid: Id): KeyringState {
      var id := IdOf(m.cookie, uuid);
      var r := RequestOf(m, id, socket, pid);
      KeyringState(pending[id := r],
                   sess.Create(id, Source.Keyring, ContextOf(r, actor)).UpdatePrompt(id, r.message, false, true))
    }

    /** Remove the request and close its session, if there is such a request. */
    function Settle(id: Id, result: Result): KeyringState {
      if id in pending then KeyringState(pending - {id}, sess.Close(id, result)) else this
    }

    /** The requests of a vanished socket, met in hash order. */
    function Cleanup(socket: Socket, order: seq<Id>): KeyringState {
      if order == [] then this
      else
        var k, id := Cleanup(socket, order[..|order| - 1]), order[|order| - 1];
        if id in k.pending && k.pending[id].socket == socket then k.Settle(id, Cancelled) else k
    }
  }

  class KeyringManager {
    var pendingRequests: map<Id, KeyringRequest>

    constructor ()
      ensures pendingRequests == map[]
    {
      pendingRequests := map[];
    }

    ghost function State(hub: Hub): KeyringState
      reads this, hub`view
    {
      KeyringState(pendingRequests, hub.view)
    }

    /** Every request is filed under its own cookie. */
    ghost predicate Valid()
      reads this
    {
      forall id :: id in pendingRequests ==> pendingRequests[id].cookie == id
    }

    method HandleRequest(hub: Hub, m: KeyringMessage, socket: Socket, pid: Pid, actor: Requestor, uuid: Id)
      requires hub.Valid() && Valid()
      modifies this, hub`sent, hub`view, hub.store, hub.store.Repr, hub.queue
      ensures hub.Valid() && Valid() && fresh(hub.store.Repr - old(hub.store.Repr))
      ensures State(hub) == old(State(hub)).Ask(m, socket, pid, actor, uuid)
    {
      hide Hub.Valid;
      var cookie := m.cookie;
      if cookie == "" {
        cookie := uuid;
      }
      var title := if m.title.Some? then m.title.value else m.prompt;
      var request := KeyringRequest(cookie, socket, pid, title, m.message, m.choice, m.flags);
      pendingRequests := pendingRequests[cookie := request];
      var context := Context(request.title, actor, "", "", request.message, "", "", 0, DEFAULT_MAX_RETRIES, false,
        false);
      hub.CreateSession(cookie, Source.Keyring, context);
      hub.UpdateSessionPrompt(cookie, request.message, false, true);
    }

    method HandleResponse(hub: Hub, cookie: Id, response: string) returns (reply: Message)
      requires hub.Valid() && Valid()
      modifies this, hub`sent, hub`view, hub.store`sessions, hub.store.Repr, hub.registry, hub.queue
      ensures hub.Valid() && Valid()
      ensures State(hub) == old(State(hub)).Settle(cookie, Success)
      ensures reply == if cookie in old(pendingRequests) then KeyringReply(cookie, Password(response))
              else Failure("Unknown cookie")
    {
      hide Hub.Valid;
      if cookie !in pendingRequests {
        return Failure("Unknown cookie");
      }
      pendingRequests := pendingRequests - {cookie};
      hub.CloseSession(cookie, Success);
      reply := KeyringReply(cookie, Password(response));
    }

    method HandleCancel(hub: Hub, cookie: Id) returns (reply: Message)
      requires hub.Valid() && Valid()
      modifies this, hub`sent, hub`view, hub.store`sessions, hub.store.Repr, hub.registry, hub.queue
      ensures hub.Valid() && Valid()
      ensures State(hub) == old(State(hub)).Settle(cookie, Cancelled)
      ensures reply == if cookie in old(pendingRequests) then KeyringReply(cookie, Declined)
              else Failure("Unknown cookie")
    {
      hide Hub.Valid;
      if cookie !in pendingRequests {
        return Failure("Unknown cookie");
      }
      pendingRequests := pendingRequests - {cookie};
      hub.CloseSession(cookie, Cancelled);
      reply := KeyringReply(cookie, Declined);
    }

    /** `order` is the order in which the hash of pending requests is walked. */
    method CleanupForSocket(hub: Hub, socket: Socket, order: seq<Id>)
      requires hub.Valid() && Valid() && Enumerates(order, pendingRequests.Keys)
      modifies this, hub`sent, hub`view, hub.store`sessions, hub.store.Repr, hub.registry, hub.queue
      ensures hub.Valid() && Valid()
      ensures State(hub) == old(State(hub)).Cleanup(socket, order)
    {
      hide Hub.Valid;
      for i := 0 to |order|
        invariant hub.Valid() && Valid()
        invariant State(hub) == old(State(hub)).Cleanup(socket, order[..i])
        invariant forall j :: i <= j < |order| ==> order[j] in pendingRequests
      {
        assert order[..i + 1][..i] == order[..i];
        var it := pendingRequests[order[i]];
        if it.socket == socket {
          var cookie := it.cookie;
          pendingRequests := pendingRequests - {order[i]};
          hub.CloseSession(cookie, Cancelled);
        }
      }
      assert order[..|order|] == order;
    }
  }
}
