/** Polkit authentications: up to three helper sessions per request, one result each. */
module PolkitAgent {
  import opened Basics
  import opened Messages
  import opened Sessions
  import opened Services

  const MAX_AUTH_RETRIES := 3
  const AUTH_FAILED: string := "Authentication failed"
  const TOO_MANY: string := "Too many failed attempts"
  const DUPLICATE: string := "Duplicate session"
  const NO_IDENTITIES: string := "No identities, this is a problem with your system configuration."

  // A helper session of polkit-qt, and the AsyncResult it must complete.
  type Helper = nat
  type Token = nat

  /** A request being authenticated: its current helper, and how many helpers failed before it. */
  datatype Attempt = Attempt(token: Token, helper: Helper, retryCount: nat)

  /** The request whose current helper this is. */
  ghost function Whose(attempts: map<Id, Attempt>, h: Helper): (owner: Option<Id>)
    ensures owner.Some? ==> owner.value in attempts && attempts[owner.value].helper == h
    ensures owner.None? ==> forall id :: id in attempts ==> attempts[id].helper != h
  {
    if id :| id in attempts && attempts[id].helper == h then Some(id) else None
  }

  datatype PolkitState = PolkitState(attempts: map<Id, Attempt>, sess: Sess) {
    function Rejection(id: Id, identified: bool): Option<string> {
      if id in attempts then Some(DUPLICATE) else if !identified then Some(NO_IDENTITIES) else None
    }

    function Begin(id: Id, token: Token, identified: bool, context: Context, helper: Helper): PolkitState {
      var rejection := Rejection(id, identified);
      if rejection.Some? then this.(sess := sess.Put([Complete(token, rejection.value)]))
      else
        PolkitState(attempts[id := Attempt(token, helper, 0)],
                    sess.Create(id, Source.Polkit, context).Put([StartHelper(helper, id)]))
    }

    function MayRetry(id: Id): bool
      requires id in attempts
    {
      attempts[id].retryCount + 1 < MAX_AUTH_RETRIES
    }

    /** A helper of `id` failed: the next one starts. */
    function Reattempt(id: Id, next: Helper): PolkitState
      requires id in attempts
    {
      PolkitState(attempts[id := attempts[id].(helper := next, retryCount := attempts[id].retryCount + 1)],
                  sess.Put([StartHelper(next, id)]))
    }

    /** The request is over. */
    function Conclude(id: Id, gained: bool): PolkitState
      requires id in attempts
    {
      PolkitState(attempts - {id}, sess.Put([Complete(attempts[id].token, "")]).Finish(id, gained))
    }

    function Fail(id: Id, next: Helper): PolkitState
      requires id in attempts
    {
      if MayRetry(id) then Reattempt(id, next)
      else this.(sess := sess.UpdateError(id, TOO_MANY)).Conclude(id, false)
    }

    ghost function HelperDone(h: Helper, gained: bool, next: Helper): PolkitState {
      match Whose(attempts, h)
      case None => this
      case Some(id) =>
        if gained then Conclude(id, true)
        else this.(sess := sess.UpdateError(id, AUTH_FAILED)).Fail(id, next)
    }

    ghost function HelperPrompt(h: Helper, prompt: string, echo: bool): PolkitState {
      match Whose(attempts, h)
      case None => this
      case Some(id) => this.(sess := sess.UpdatePrompt(id, prompt, echo, true))
    }

    ghost function HelperError(h: Helper, text: string): PolkitState {
      match Whose(attempts, h)
      case None => this
      case Some(id) => this.(sess := sess.UpdateError(id, text))
    }

    ghost function HelperInfo(h: Helper, text: string): PolkitState {
      match Whose(attempts, h)
      case None => this
      case Some(id) => this.(sess := sess.UpdateInfo(id, text))
    }

    function Submit(id: Id, text: string): PolkitState {
      if id in attempts then this.(sess := sess.Put([HelperResponse(attempts[id].helper, text)])) else this
    }

    function CancelPending(id: Id): PolkitState {
      if id in attempts then this.(sess := sess.Put([CancelHelper(attempts[id].helper)])).Conclude(id, false) else this
    }

    /** polkitd cancels: every request ends, in hash order. */
    function CancelAll(order: seq<Id>): PolkitState {
      if order == [] then this
      else
        var p, id := CancelAll(order[..|order| - 1]), order[|order| - 1];
        if id in p.attempts then p.Conclude(id, false) else p
    }

    /** Helpers belong to one request each, and no request has used up its attempts. */
    ghost predicate Sound() {
      && (forall a, b :: a in attempts && b in attempts && attempts[a].helper == attempts[b].helper ==> a == b)
      && (forall id :: id in attempts ==> attempts[id].retryCount < MAX_AUTH_RETRIES)
    }
  }

  class SessionState {
    var inProgress: bool
    var cancelled: bool
    var gainedAuth: bool
    const cookie: Id
    var prompt: string
    var errorText: string
    var echoOn: bool
    var requestSent: bool
    const result: Token
    var session: Option<Helper>
    var retryCount: nat

    constructor (cookie: Id, result: Token, helper: Helper)
      ensures this.cookie == cookie && this.result == result && session == Some(helper)
      ensures inProgress && !cancelled && !gainedAuth && retryCount == 0
    {
      this.cookie, this.result, this.session := cookie, result, Some(helper);
      inProgress, cancelled, gainedAuth, retryCount := true, false, false, 0;
      prompt, errorText, echoOn, requestSent := "", "", false, false;
    }

    /** Under way, with a current helper. */
    ghost predicate Alive()
      reads this
    {
      inProgress && session.Some? && retryCount < MAX_AUTH_RETRIES
    }

    method Retry(next: Helper)
      requires Alive() && retryCount + 1 < MAX_AUTH_RETRIES
      modifies this`retryCount, this`session, this`cancelled
      ensures Alive() && !cancelled
      ensures View() == old(View()).(helper := next, retryCount := old(retryCount) + 1)
    {
      retryCount := retryCount + 1;
      session := Some(next);
      cancelled := false;
    }

    ghost function View(): Attempt
      requires session.Some?
      reads this
    {
      Attempt(result, session.value, retryCount)
    }
  }

  class PolkitListener {
    var cookieToState: map<Id, SessionState>
    var sessionToState: map<Helper, SessionState>
    ghost var Repr: set<SessionState>
    ghost var attempts: map<Id, Attempt>

    constructor ()
      ensures Valid() && attempts == map[] && Repr == {}
    {
      cookieToState, sessionToState, Repr, attempts := map[], map[], {}, map[];
    }

    /** The reverse map is exactly the map from the current helper of each live state to it; no live
        state has an outcome. */
    ghost predicate Valid()
      reads this, Repr
    {
      ValidBut(null)
    }

    /** Valid, except that the outcome of `finishing` may be known. */
    ghost predicate ValidBut(finishing: SessionState?)
      reads this, Repr
    {
      && attempts.Keys == cookieToState.Keys
      && (forall id :: id in cookieToState ==> Filed(id))
      && (forall h :: h in sessionToState ==> Indexed(h))
      && (forall id :: id in cookieToState && cookieToState[id] != finishing ==>
            !cookieToState[id].cancelled && !cookieToState[id].gainedAuth)
    }

    ghost predicate Filed(id: Id)
      reads this, Repr
    {
      && id in cookieToState && id in attempts && cookieToState[id] in Repr
      && var state := cookieToState[id];
         && state.cookie == id && state.Alive() && attempts[id] == state.View()
         && state.session.value in sessionToState && sessionToState[state.session.value] == state
    }

    ghost predicate Indexed(h: Helper)
      reads this, Repr
    {
      && h in sessionToState && sessionToState[h] in Repr
      && var state := sessionToState[h];
         state.cookie in cookieToState && cookieToState[state.cookie] == state && state.session == Some(h)
    }

    ghost function State(hub: Hub): PolkitState
      reads this, hub`view
    {
      PolkitState(attempts, hub.view)
    }

    lemma StateIsSound(hub: Hub)
      requires Valid()
      ensures State(hub).Sound()
    {
      forall id | id in attempts
        ensures Filed(id)
      {
      }
    }

    method FindStateForSession(h: Helper) returns (state: SessionState?)
      requires Valid()
      ensures state == null ==> Whose(attempts, h) == None
      ensures state != null ==>
                && state in Repr && state.cookie in cookieToState && cookieToState[state.cookie] == state
                && Whose(attempts, h) == Some(state.cookie)
    {
      forall id | id in attempts
        ensures Filed(id)
      {
      }
      if h !in sessionToState {
        return null;
      }
      state := sessionToState[h];
      assert Indexed(h);
    }

    method FileState(cookie: Id, result: Token, helper: Helper) returns (state: SessionState)
      requires Valid() && cookie !in cookieToState && helper !in sessionToState
      modifies this
      ensures Valid() && fresh(Repr - old(Repr)) && state in Repr
      ensures cookie in cookieToState && cookieToState[cookie] == state
      ensures attempts == old(attempts)[cookie := Attempt(result, helper, 0)]
    {
      state := new SessionState(cookie, result, helper);
      cookieToState := cookieToState[cookie := state];
      sessionToState := sessionToState[helper := state];
      Repr := Repr + {state};
      attempts := attempts[cookie := Attempt(result, helper, 0)];
      forall id | id in cookieToState
        ensures Filed(id)
      {
        assert id != cookie ==> old(Filed(id));
      }
      forall h | h in sessionToState
        ensures Indexed(h)
      {
        assert h != helper ==> old(Indexed(h));
      }
    }

    /** The failed helper of a state is replaced. */
    method ReplaceSession(state: SessionState, next: Helper)
      requires ValidBut(state) && state in Repr && !state.gainedAuth && !state.cancelled
      requires state.cookie in cookieToState && cookieToState[state.cookie] == state
      requires next !in sessionToState && state.retryCount + 1 < MAX_AUTH_RETRIES
      modifies this`sessionToState, this`attempts, state
      ensures Valid()
      ensures var a := old(attempts[state.cookie]);
              attempts == old(attempts)[state.cookie := a.(helper := next, retryCount := a.retryCount + 1)]
    {
      Unlink(state);
      Relink(state, next);
    }

    /** Valid, except that the current helper of `state` is not indexed. */
    ghost predicate Unlinked(state: SessionState)
      reads this, Repr, state
    {
      && attempts.Keys == cookieToState.Keys && state in Repr
      && state.cookie in cookieToState && cookieToState[state.cookie] == state
      && state.Alive() && attempts[state.cookie] == state.View() && !state.cancelled && !state.gainedAuth
      && (forall id :: id in cookieToState && id != state.cookie ==>
            Filed(id) && cookieToState[id] != state && !cookieToState[id].cancelled && !cookieToState[id].gainedAuth)
      && (forall h :: h in sessionToState ==> Indexed(h) && sessionToState[h] != state)
    }

    method Unlink(state: SessionState)
      requires ValidBut(state) && state in Repr && !state.gainedAuth && !state.cancelled
      requires state.cookie in cookieToState && cookieToState[state.cookie] == state
      modifies this`sessionToState
      ensures Unlinked(state) && sessionToState == old(sessionToState) - {old(state.session).value}
    {
      assert Filed(state.cookie);
      var was := state.session.value;
      sessionToState := sessionToState - {was};
      forall id | id in cookieToState && id != state.cookie
        ensures Filed(id) && cookieToState[id] != state
      {
        assert old(Filed(id));
      }
      forall h | h in sessionToState
        ensures Indexed(h) && sessionToState[h] != state
      {
        assert old(Indexed(h));
      }
    }

    method Relink(state: SessionState, next: Helper)
      requires Unlinked(state) && next !in sessionToState && state.retryCount + 1 < MAX_AUTH_RETRIES
      modifies this`sessionToState, this`attempts, state
      ensures Valid()
      ensures var a := old(attempts[state.cookie]);
              attempts == old(attempts)[state.cookie := a.(helper := next, retryCount := a.retryCount + 1)]
    {
      state.Retry(next);
      sessionToState := sessionToState[next := state];
      attempts := attempts[state.cookie := state.View()];
      forall id | id in cookieToState
        ensures Filed(id)
      {
        assert id != state.cookie ==> old(Filed(id));
      }
      forall h | h in sessionToState
        ensures Indexed(h)
      {
        assert h != next ==> old(Indexed(h));
      }
    }

    /** A finished state leaves both maps. */
    method RemoveState(state: SessionState)
      requires ValidBut(state) && state in Repr
      requires state.cookie in cookieToState && cookieToState[state.cookie] == state
      modifies this, state
      ensures Valid() && Repr == old(Repr) - {state}
      ensures attempts == old(attempts) - {state.cookie}
    {
      assert Filed(state.cookie);
      ghost var was := state.session.value;
      state.inProgress := false;
      sessionToState := sessionToState - {state.session.value};
      cookieToState := cookieToState - {state.cookie};
      Repr := Repr - {state};
      attempts := attempts - {state.cookie};
      forall id | id in cookieToState
        ensures Filed(id)
      {
        assert old(Filed(id));
      }
      forall h | h in sessionToState
        ensures Indexed(h)
      {
        assert old(Indexed(h)) && h != was;
      }
    }

    /** `helper` is the helper session made for this request; `identified` says that there is an
        identity to authenticate. */
    method InitiateAuthentication(hub: Hub, cookie: Id, result: Token, identified: bool, context: Context,
                                  helper: Helper)
      requires hub.Valid() && Valid() && helper !in sessionToState
      modifies this, hub`sent, hub`view, hub.store, hub.store.Repr, hub.queue
      ensures hub.Valid() && Valid() && fresh(Repr - old(Repr)) && fresh(hub.store.Repr - old(hub.store.Repr))
      ensures State(hub) == old(State(hub)).Begin(cookie, result, identified, context, helper)
    {
      hide Hub.Valid, Sess.Create, PolkitListener.ValidBut;
      Lookup(cookie);
      if cookie in cookieToState {
        hub.CallPolkit(Complete(result, DUPLICATE));
        return;
      }
      if !identified {
        hub.CallPolkit(Complete(result, NO_IDENTITIES));
        return;
      }
      var _ := FileState(cookie, result, helper);
      hub.CreateSession(cookie, Source.Polkit, context);
      hub.CallPolkit(StartHelper(helper, cookie));
    }

    /** The state filed under a cookie. */
    lemma Lookup(cookie: Id)
      requires Valid()
      ensures cookie in cookieToState <==> cookie in attempts
      ensures cookie in cookieToState ==>
                && cookieToState[cookie] in Repr && cookieToState[cookie].cookie == cookie
                && cookieToState[cookie].session == Some(attempts[cookie].helper)
                && !cookieToState[cookie].gainedAuth
    {
      if cookie in cookieToState {
        assert Filed(cookie);
      }
    }

    /** Notes for the record; none of them decides anything. */
    method NotePrompt(state: SessionState, prompt: string, echo: bool)
      requires Valid() && state in Repr
      modifies state
      ensures Valid()
    {
      state.prompt := prompt;
      state.echoOn := echo;
      state.requestSent := true;
      forall id | id in cookieToState
        ensures Filed(id)
      {
        assert old(Filed(id));
      }
      forall h | h in sessionToState
        ensures Indexed(h)
      {
        assert old(Indexed(h));
      }
    }

    method NoteError(state: SessionState, text: string, ghost finishing: SessionState?)
      requires ValidBut(finishing) && state in Repr
      modifies state`errorText
      ensures ValidBut(finishing)
    {
      state.errorText := text;
      forall id | id in cookieToState
        ensures Filed(id)
      {
        assert old(Filed(id));
      }
      forall h | h in sessionToState
        ensures Indexed(h)
      {
        assert old(Indexed(h));
      }
    }

    method NoteOutcome(state: SessionState, gained: bool, cancelled: bool)
      requires Valid() && state in Repr
      modifies state`gainedAuth, state`cancelled
      ensures ValidBut(state) && state.gainedAuth == gained && state.cancelled == cancelled
    {
      state.gainedAuth := gained;
      state.cancelled := cancelled;
      forall id | id in cookieToState
        ensures Filed(id)
      {
        assert old(Filed(id));
      }
      forall h | h in sessionToState
        ensures Indexed(h)
      {
        assert old(Indexed(h));
      }
    }

    method OnSessionRequest(hub: Hub, sender: Helper, request: string, echo: bool)
      requires hub.Valid() && Valid()
      modifies Repr, hub`sent, hub`view, hub.store.Repr, hub.queue
      ensures hub.Valid() && Valid()
      ensures State(hub) == old(State(hub)).HelperPrompt(sender, request, echo)
    {
      hide Hub.Valid, Sess.UpdatePrompt, PolkitListener.ValidBut;
      var state := FindStateForSession(sender);
      if state == null {
        return;
      }
      NotePrompt(state, request, echo);
      hub.UpdateSessionPrompt(state.cookie, request, echo, true);
    }

    method OnSessionError(hub: Hub, sender: Helper, text: string)
      requires hub.Valid() && Valid()
      modifies Repr, hub`sent, hub`view, hub.store.Repr, hub.queue
      ensures hub.Valid() && Valid()
      ensures State(hub) == old(State(hub)).HelperError(sender, text)
    {
      hide Hub.Valid, Sess.UpdateError, PolkitListener.ValidBut;
      var state := FindStateForSession(sender);
      if state == null {
        return;
      }
      NoteError(state, text, null);
      hub.UpdateSessionError(state.cookie, text);
    }

    method OnSessionInfo(hub: Hub, sender: Helper, text: string)
      requires hub.Valid() && Valid()
      modifies hub`sent, hub`view, hub.store.Repr, hub.queue
      ensures hub.Valid() && Valid()
      ensures State(hub) == old(State(hub)).HelperInfo(sender, text)
    {
      hide Hub.Valid, Sess.UpdateInfo, PolkitListener.ValidBut;
      var state := FindStateForSession(sender);
      if state == null {
        return;
      }
      hub.OnSessionInfo(state.cookie, text);
    }

    /** `next` is the helper session made if another attempt is due. */
    method OnSessionCompleted(hub: Hub, sender: Helper, gained: bool, next: Helper)
      requires hub.Valid() && Valid() && next !in sessionToState
      modifies this, Repr, hub`sent, hub`view, hub.store`sessions, hub.store.Repr, hub.registry, hub.queue
      ensures hub.Valid() && Valid() && Repr <= old(Repr)
      ensures State(hub) == old(State(hub)).HelperDone(sender, gained, next)
    {
      hide Hub.Valid, Sess.UpdateError, Sess.Finish, PolkitListener.ValidBut;
      var state := FindStateForSession(sender);
      if state == null {
        return;
      }
      NoteOutcome(state, gained, false);
      if !gained {
        NoteError(state, AUTH_FAILED, state);
        hub.UpdateSessionError(state.cookie, AUTH_FAILED);
      }
      FinishAuth(hub, state, next);
    }

    /** finishAuth, for a state whose outcome has been noted. */
    method FinishAuth(hub: Hub, state: SessionState, next: Helper)
      requires hub.Valid() && ValidBut(state) && state in Repr
      requires state.cookie in cookieToState && cookieToState[state.cookie] == state
      requires !state.gainedAuth && !state.cancelled ==> next !in sessionToState
      modifies this, Repr, hub`sent, hub`view, hub.store`sessions, hub.store.Repr, hub.registry, hub.queue
      ensures hub.Valid() && Valid() && Repr <= old(Repr)
      ensures state.cookie in old(attempts)
      ensures State(hub) ==
              if old(state.gainedAuth || state.cancelled)
                then old(State(hub)).Conclude(state.cookie, old(state.gainedAuth))
              else old(State(hub)).Fail(state.cookie, next)
    {
      hide Hub.Valid, Sess.UpdateError, Sess.Finish, PolkitListener.ValidBut;
      FinishingFacts(state);
      if !state.inProgress {
        return;
      }
      if !state.gainedAuth && !state.cancelled {
        if state.retryCount + 1 < MAX_AUTH_RETRIES {
          ReplaceSession(state, next);
          hub.CallPolkit(StartHelper(next, state.cookie));
          return;
        }
        NoteError(state, TOO_MANY, state);
        hub.UpdateSessionError(state.cookie, TOO_MANY);
      }
      CleanUp(hub, state);
    }

    /** The last part of finishAuth: the request is over. */
    method CleanUp(hub: Hub, state: SessionState)
      requires hub.Valid() && ValidBut(state) && state in Repr
      requires state.cookie in cookieToState && cookieToState[state.cookie] == state
      modifies this, state, hub`sent, hub`view, hub.store`sessions, hub.store.Repr, hub.registry, hub.queue
      ensures hub.Valid() && Valid() && Repr <= old(Repr)
      ensures state.cookie in old(attempts)
      ensures State(hub) == old(State(hub)).Conclude(state.cookie, old(state.gainedAuth))
    {
      hide Hub.Valid, Sess.Finish, PolkitListener.ValidBut;
      FinishingFacts(state);
      var gained := state.gainedAuth;
      RemoveState(state);
      hub.CallPolkit(Complete(state.result, ""));
      hub.OnSessionComplete(state.cookie, gained);
    }

    lemma FinishingFacts(state: SessionState)
      requires ValidBut(state)
      requires state.cookie in cookieToState && cookieToState[state.cookie] == state
      ensures state.inProgress && state.cookie in attempts && attempts[state.cookie].retryCount == state.retryCount
      ensures attempts[state.cookie].token == state.result
    {
      assert Filed(state.cookie);
    }

    method SubmitPassword(hub: Hub, cookie: Id, text: string)
      requires hub.Valid() && Valid()
      modifies hub`view
      ensures hub.Valid() && Valid()
      ensures State(hub) == old(State(hub)).Submit(cookie, text)
      ensures hub.view.live == old(hub.view.live)
      ensures hub.view.out == old(hub.view.out) + if cookie in attempts
                then [HelperResponse(attempts[cookie].helper, text)] else []
    {
      hide Hub.Valid, PolkitListener.ValidBut;
      Lookup(cookie);
      if cookie !in cookieToState {
        return;
      }
      var state := cookieToState[cookie];
      if state.session == None {
        return;
      }
      hub.CallPolkit(HelperResponse(state.session.value, text));
    }

    method CancelPending(hub: Hub, cookie: Id)
      requires hub.Valid() && Valid()
      modifies this, Repr, hub`sent, hub`view, hub.store`sessions, hub.store.Repr, hub.registry, hub.queue
      ensures hub.Valid() && Valid() && Repr <= old(Repr)
      ensures State(hub) == old(State(hub)).CancelPending(cookie)
    {
      hide Hub.Valid, Sess.Finish, PolkitListener.ValidBut;
      Lookup(cookie);
      if cookie !in cookieToState {
        return;
      }
      var state := cookieToState[cookie];
      if state.session == None {
        return;
      }
      hub.CallPolkit(CancelHelper(state.session.value));
      CancelState(hub, cookie);
    }

    /** `order` is the order in which the hash of live states is walked. */
    method CancelAuthentication(hub: Hub, order: seq<Id>)
      requires hub.Valid() && Valid() && Enumerates(order, cookieToState.Keys)
      modifies this, Repr, hub`sent, hub`view, hub.store`sessions, hub.store.Repr, hub.registry, hub.queue
      ensures hub.Valid() && Valid() && Repr <= old(Repr)
      ensures State(hub) == old(State(hub)).CancelAll(order)
    {
      assert forall j :: 0 <= j < |order| ==> order[j] in cookieToState && order[j] in attempts;
      hide Hub.Valid, Sess.Finish, PolkitListener.ValidBut;
      for i := 0 to |order|
        invariant hub.Valid() && Valid() && Repr <= old(Repr)
        invariant State(hub) == old(State(hub)).CancelAll(order[..i])
        invariant forall j :: i <= j < |order| ==> order[j] in attempts
      {
        assert order[..i + 1][..i] == order[..i];
        CancelState(hub, order[i]);
      }
      assert order[..|order|] == order;
    }

    method CancelState(hub: Hub, cookie: Id)
      requires hub.Valid() && Valid() && cookie in attempts
      modifies this, Repr, hub`sent, hub`view, hub.store`sessions, hub.store.Repr, hub.registry, hub.queue
      ensures hub.Valid() && Valid() && Repr <= old(Repr)
      ensures State(hub) == old(State(hub)).Conclude(cookie, false)
    {
      hide Hub.Valid, Sess.Finish, PolkitListener.ValidBut;
      Lookup(cookie);
      var state := cookieToState[cookie];
      NoteOutcome(state, state.gainedAuth, true);
      FinishAuth(hub, state, 0);  // a cancelled request needs no next helper
    }
  }
}
