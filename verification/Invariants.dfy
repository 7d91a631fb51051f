/** What holds of the daemon in every reachable state, and who holds which session. */
module Invariants {
  import opened Basics
  import opened Messages
  import opened Sessions
  import opened Keyring
  import opened Pinentry
  import opened PolkitAgent
  import opened Daemon
  import opened Summaries

  // ----- The tables after a step -----

  ghost predicate Filed(keyring: map<Id, KeyringRequest>) {
    forall id :: id in keyring ==> keyring[id].cookie == id
  }

  ghost predicate CoreSound(c: Core) {
    c.AsPinentry().Sound() && c.AsPolkit().Sound() && Filed(c.keyring)
  }

  /** What the world guarantees of an input to the session side. */
  ghost predicate Fair(c: Core, i: Input) {
    match i
    case PolkitBegin(_, _, _, _, helper) => forall id :: id in c.attempts ==> c.attempts[id].helper != helper
    case HelperDone(_, _, next) => forall id :: id in c.attempts ==> c.attempts[id].helper != next
    case PolkitCancelAll(order) => Enumerates(order, c.attempts.Keys)
    case Disconnected(_, ko, po) =>
      && Enumerates(ko, c.keyring.Keys)
      && Enumerates(po, set id | id in c.flows && c.flows[id].phase.Pending?)
    case _ => true
  }

  /** The tables after a disconnect: what was pending from the socket is gone, the rest is as it was. */
  lemma AbandonedTables(c: Core, s: Socket, ko: seq<Id>, po: seq<Id>)
    requires Enumerates(ko, c.keyring.Keys)
    requires Enumerates(po, set id | id in c.flows && c.flows[id].phase.Pending?)
    ensures var c' := c.Abandoned(s, ko, po).core;
            && c'.attempts == c.attempts
            && c'.keyring == (map id | id in c.keyring && c.keyring[id].socket != s :: c.keyring[id])
            && c'.flows == (map id | id in c.flows && !c.AsPinentry().PendingFrom(id, s) :: c.flows[id])
  {
    hide GistOf, KeyringState.Cleanup, PinentryState.CloseAll, PinentryState.ToClose;
    KeyringCleanupGist(c.AsKeyring(), s, ko);
    var k := c.WithKeyring(c.AsKeyring().Cleanup(s, ko));
    var p := k.core.AsPinentry();
    ToCloseMembers(p, s, po);
    CloseAllGist(p, p.ToClose(s, po));
  }

  function KeyringAfter(c: Core, i: Input, authorized: bool): map<Id, KeyringRequest> {
    match i
    case AskKeyring(s, pid, m, _, uuid) => c.keyring[IdOf(m.cookie, uuid) := RequestOf(m, IdOf(m.cookie, uuid), s, pid)]
    case Respond(_, id, _) => if authorized then c.keyring - {id} else c.keyring
    case Cancel(_, id) => if authorized then c.keyring - {id} else c.keyring
    case Disconnected(s, _, _) => map id | id in c.keyring && c.keyring[id].socket != s :: c.keyring[id]
    case _ => c.keyring
  }

  function FlowsAfter(c: Core, i: Input, authorized: bool, now: int): map<Id, Flow> {
    var p := c.AsPinentry();
    match i
    case AskPinentry(s, pid, m, _, uuid) =>
      var id := OrElse(m.cookie, uuid);
      if p.OwnedByOther(id, pid) then c.flows
      else
        var keyinfo := if m.keyinfo == "" && id in c.flows then c.flows[id].keyinfo else m.keyinfo;
        c.flows[id := Flow(pid, keyinfo, Pending(Parsed(m, id, s, pid)), false)]
    case Report(_, pid, id, verdict, error) =>
      if !p.AcceptsResult(id, pid) || verdict.Unknown? then c.flows
      else if verdict.Retry? then p.NoteRetry(id, error).flows
      else c.flows - {id}
    case Respond(_, id, _) => if authorized && id !in c.keyring then Submitted(c.flows, id, now) else c.flows
    case Cancel(_, id) => if authorized && id !in c.keyring && p.Knows(id) then c.flows - {id} else c.flows
    case Disconnected(s, _, _) => map id | id in c.flows && !p.PendingFrom(id, s) :: c.flows[id]
    case Timeout(id) => if p.IsAwaiting(id) then c.flows - {id} else c.flows
    case _ => c.flows
  }

  ghost function AttemptsAfter(c: Core, i: Input, authorized: bool): map<Id, Attempt> {
    match i
    case PolkitBegin(id, token, identified, _, helper) =>
      if id in c.attempts || !identified then c.attempts else c.attempts[id := Attempt(token, helper, 0)]
    case PolkitCancelAll(order) => map[]
    case HelperDone(h, gained, next) =>
      (match Whose(c.attempts, h)
       case None => c.attempts
       case Some(id) =>
         if !gained && c.AsPolkit().MayRetry(id) then c.AsPolkit().Reattempt(id, next).attempts
         else c.attempts - {id})
    case Cancel(_, id) => if authorized && CancelsPolkit(c, id) then c.attempts - {id} else c.attempts
    case _ => c.attempts
  }

  /** A cancel of this id reaches polkit. */
  predicate CancelsPolkit(c: Core, id: Id) {
    id !in c.keyring && !c.AsPinentry().Knows(id) && id in c.live && c.live[id].source.Polkit?
  }

  lemma RespondedTables(c: Core, s: Socket, id: Id, response: string, now: int)
    ensures var c' := c.Responded(s, id, response, now).core;
            c'.keyring == c.keyring - {id} && c'.attempts == c.attempts &&
            c'.flows == if id in c.keyring then c.flows else Submitted(c.flows, id, now)
  {
    hide Sess.Close, Submitted, AnswerTo;
    OnlyPendingSubmitted(c.flows, id, now);
  }

  lemma OnlyPendingSubmitted(flows: map<Id, Flow>, id: Id, now: int)
    ensures id !in flows || !flows[id].phase.Pending? ==> Submitted(flows, id, now) == flows
  {
  }

  lemma CancelledTables(c: Core, s: Socket, id: Id)
    ensures var c' := c.Cancelled(s, id).core;
            c'.keyring == c.keyring - {id} &&
            c'.attempts == (if CancelsPolkit(c, id) then c.attempts - {id} else c.attempts) &&
            c'.flows == if id !in c.keyring && c.AsPinentry().Knows(id) then c.flows - {id} else c.flows
  {
    hide Sess.Close, Sess.Finish, Sess.UpdateError;
  }

  lemma HelperTables(p: PolkitState, h: Helper, gained: bool, next: Helper)
    ensures p.HelperDone(h, gained, next).attempts ==
            match Whose(p.attempts, h)
            case None => p.attempts
            case Some(id) => if !gained && p.MayRetry(id) then p.Reattempt(id, next).attempts else p.attempts - {id}
  {
    hide Sess.Finish, Sess.UpdateError;
  }

  lemma ReportTables(p: PinentryState, id: Id, verdict: Verdict, error: string, pid: Pid)
    ensures p.Result(id, verdict, error, pid).flows ==
            if !p.AcceptsResult(id, pid) || verdict.Unknown? then p.flows
            else if verdict.Retry? then p.NoteRetry(id, error).flows
            else p.flows - {id}
  {
    hide Sess.UpdateError, Sess.Close;
  }

  lemma AskTables(p: PinentryState, m: PinentryMessage, socket: Socket, pid: Pid, actor: Requestor, uuid: Id)
    ensures var id := OrElse(m.cookie, uuid);
            p.Ask(m, socket, pid, actor, uuid).flows ==
            if p.OwnedByOther(id, pid) then p.flows
            else
              var keyinfo := if m.keyinfo == "" && id in p.flows then p.flows[id].keyinfo else m.keyinfo;
              p.flows[id := Flow(pid, keyinfo, Pending(Parsed(m, id, socket, pid)), false)]
  {
    hide Presented, ResolveRetryInfo, Parsed;
  }

  ghost predicate TablesAgree(c: Core, i: Input, authorized: bool, now: int) {
    var c' := c.Step(i, authorized, now).core;
    && c'.keyring == KeyringAfter(c, i, authorized)
    && c'.flows == FlowsAfter(c, i, authorized, now)
    && c'.attempts == AttemptsAfter(c, i, authorized)
  }

  predicate FromPolkit(i: Input) {
    i.PolkitBegin? || i.PolkitCancelAll? || i.HelperPrompt? || i.HelperDone? || i.HelperError? || i.HelperInfo?
  }

  predicate FromUser(i: Input) {
    i.Respond? || i.Cancel?
  }

  predicate FromRequester(i: Input) {
    i.AskKeyring? || i.AskPinentry? || i.Report? || i.Disconnected? || i.Timeout?
  }

  lemma PolkitTables(c: Core, i: Input, authorized: bool, now: int)
    requires Fair(c, i) && FromPolkit(i)
    ensures TablesAgree(c, i, authorized, now)
  {
    hide TablesAgree, Core.Step, Fair;
    if i.PolkitCancelAll? {
      CancelAllTables(c, i, authorized, now);
    } else if i.HelperDone? || i.PolkitBegin? {
      AttemptTables(c, i, authorized, now);
    } else {
      QuietTables(c, i, authorized, now);
    }
  }

  lemma CancelAllTables(c: Core, i: Input, authorized: bool, now: int)
    requires Fair(c, i) && i.PolkitCancelAll?
    ensures TablesAgree(c, i, authorized, now)
  {
    hide PolkitState.CancelAll;
    CancelAllGist(c.AsPolkit(), i.order);
    assert c.attempts - (set id | id in i.order) == map[];
  }

  lemma AttemptTables(c: Core, i: Input, authorized: bool, now: int)
    requires i.HelperDone? || i.PolkitBegin?
    ensures TablesAgree(c, i, authorized, now)
  {
    hide PolkitState.HelperDone, PolkitState.Reattempt, PolkitState.Begin;
    if i.HelperDone? {
      HelperTables(c.AsPolkit(), i.sender, i.gained, i.next);
    } else {
      BeginTables(c.AsPolkit(), i.id, i.token, i.identified, i.context, i.helper);
    }
  }

  lemma QuietTables(c: Core, i: Input, authorized: bool, now: int)
    requires i.HelperPrompt? || i.HelperError? || i.HelperInfo?
    ensures TablesAgree(c, i, authorized, now)
  {
    hide Sess.UpdateError, Sess.UpdatePrompt, Sess.UpdateInfo;
  }

  lemma BeginTables(p: PolkitState, id: Id, token: Token, identified: bool, context: Context, helper: Helper)
    ensures p.Begin(id, token, identified, context, helper).attempts ==
            if id in p.attempts || !identified then p.attempts else p.attempts[id := Attempt(token, helper, 0)]
  {
    hide Sess.Create;
  }

  lemma UserTables(c: Core, i: Input, authorized: bool, now: int)
    requires FromUser(i)
    ensures TablesAgree(c, i, authorized, now)
  {
    hide Core.Responded, Core.Cancelled, Submitted;
    match i
    case Respond(s, id, response) => RespondedTables(c, s, id, response, now);
    case Cancel(s, id) => CancelledTables(c, s, id);
  }

  lemma RequesterTables(c: Core, i: Input, authorized: bool, now: int)
    requires Fair(c, i) && FromRequester(i)
    ensures TablesAgree(c, i, authorized, now)
  {
    hide TablesAgree, Fair;
    if i.AskKeyring? || i.AskPinentry? {
      RequestTables(c, i, authorized, now);
    } else {
      EndTables(c, i, authorized, now);
    }
  }

  lemma RequestTables(c: Core, i: Input, authorized: bool, now: int)
    requires i.AskKeyring? || i.AskPinentry?
    ensures TablesAgree(c, i, authorized, now)
  {
    hide Sess.Create, Sess.UpdatePrompt, PinentryState.Ask, Parsed;
    if i.AskPinentry? {
      AskTables(c.AsPinentry(), i.pinentryMessage, i.socket, i.pid, i.actor, i.uuid);
    }
  }

  lemma EndTables(c: Core, i: Input, authorized: bool, now: int)
    requires Fair(c, i) && FromRequester(i) && !i.AskKeyring? && !i.AskPinentry?
    ensures TablesAgree(c, i, authorized, now)
  {
    hide Core.Abandoned, Sess.Close, Sess.UpdateError, PinentryState.Result, PinentryState.NoteRetry,
         PinentryState.ResultReply;
    match i
    case Disconnected(s, ko, po) => AbandonedTables(c, s, ko, po);
    case Report(_, pid, id, verdict, error) => ReportTables(c.AsPinentry(), id, verdict, error, pid);
    case Timeout(id) =>
  }

  /** The tables after every input. */
  lemma StepTables(c: Core, i: Input, authorized: bool, now: int)
    requires Fair(c, i)
    ensures TablesAgree(c, i, authorized, now)
  {
    if FromPolkit(i) {
      PolkitTables(c, i, authorized, now);
    } else if FromUser(i) {
      UserTables(c, i, authorized, now);
    } else if FromRequester(i) {
      RequesterTables(c, i, authorized, now);
    }
  }

  lemma StepSources(c: Core, i: Input, authorized: bool, now: int)
    requires Fair(c, i)
    ensures SourcesOf(c.Step(i, authorized, now).core.live) == Doing(c, i, authorized).sources
  {
    hide Core.Step, Doing, SourcesOf, Marks;
    StepGist(c, i, authorized, now);
  }

  // ----- What every step keeps -----

  lemma StepKeepsPolkit(c: Core, i: Input, authorized: bool, now: int)
    requires c.AsPolkit().Sound() && Fair(c, i)
    ensures c.Step(i, authorized, now).core.AsPolkit().Sound()
  {
    hide Core.Step;
    StepTables(c, i, authorized, now);
  }

  /** The second half of Sound: what a flow says about itself. */
  ghost predicate Coherent(flows: map<Id, Flow>) {
    forall id :: id in flows ==>
      && (flows[id].phase.Retrying? ==> flows[id].reported)
      && (!flows[id].phase.Retrying? ==>
            flows[id].phase.request.cookie == id && flows[id].phase.request.pid == flows[id].owner)
  }

  lemma StepKeepsCoherent(c: Core, i: Input, authorized: bool, now: int)
    requires Coherent(c.flows) && Fair(c, i)
    ensures Coherent(c.Step(i, authorized, now).core.flows)
  {
    hide Core.Step, Sess.UpdateError;
    StepTables(c, i, authorized, now);
  }

  ghost predicate EveryPinentryOwned(sources: Sources, flows: map<Id, Flow>) {
    forall id :: id in sources && sources[id].Pinentry? ==> id in flows
  }

  lemma {:induction false} EndEachSources(g: Gist, ids: seq<Id>, result: Result)
    ensures g.EndEach(ids, result).sources == g.sources - (set id | id in ids)
  {
    if ids != [] {
      EndEachSources(g, ids[..|ids| - 1], result);
      assert ids == ids[..|ids| - 1] + [ids[|ids| - 1]];
    }
  }

  lemma {:induction false} EndFlowsSources(g: Gist, ids: seq<Id>, result: Result)
    ensures g.EndFlows(ids, result).sources ==
            map id | id in g.sources && !(id in ids && g.sources[id].Pinentry?) :: g.sources[id]
  {
    if ids != [] {
      EndFlowsSources(g, ids[..|ids| - 1], result);
      assert ids == ids[..|ids| - 1] + [ids[|ids| - 1]];
    }
  }

  lemma {:induction false} ConcludeEachSources(g: Gist, ids: seq<Id>, attempts: map<Id, Attempt>)
    requires forall id :: id in ids ==> id in attempts
    ensures g.ConcludeEach(ids, attempts).sources == g.sources - (set id | id in ids)
  {
    if ids != [] {
      ConcludeEachSources(g, ids[..|ids| - 1], attempts);
      assert ids == ids[..|ids| - 1] + [ids[|ids| - 1]];
    }
  }

  /** Which sessions, and of which source, exist after every input. */
  ghost function SourcesAfter(c: Core, i: Input, authorized: bool): Sources {
    var sources := SourcesOf(c.live);
    var p := c.AsPinentry();
    match i
    case AskKeyring(_, _, m, _, uuid) => sources[IdOf(m.cookie, uuid) := Source.Keyring]
    case AskPinentry(_, pid, m, _, uuid) =>
      var id := OrElse(m.cookie, uuid);
      if p.OwnedByOther(id, pid) || id in sources then sources else sources[id := Source.Pinentry]
    case Report(_, pid, id, verdict, _) =>
      if p.AcceptsResult(id, pid) && !verdict.Unknown? && !verdict.Retry? then sources - {id} else sources
    case Respond(_, id, _) => if authorized && id in c.keyring then sources - {id} else sources
    case Cancel(_, id) =>
      if !authorized then sources
      else if id in c.keyring then sources - {id}
      else if p.Knows(id) then (if p.IsSession(id) then sources - {id} else sources)
      else if CancelsPolkit(c, id) && id in c.attempts then sources - {id}
      else sources
    case Disconnected(s, _, _) =>
      map id | id in sources && !(id in c.keyring && c.keyring[id].socket == s)
               && !(p.PendingFrom(id, s) && sources[id].Pinentry?) :: sources[id]
    case Timeout(id) => if p.IsAwaiting(id) && p.IsSession(id) then sources - {id} else sources
    case PolkitBegin(id, _, identified, _, _) =>
      if id in c.attempts || !identified then sources else sources[id := Source.Polkit]
    case PolkitCancelAll(_) => sources - c.attempts.Keys
    case HelperDone(h, gained, _) =>
      (match Whose(c.attempts, h)
       case None => sources
       case Some(id) => if !gained && c.AsPolkit().MayRetry(id) then sources else sources - {id})
    case _ => sources
  }

  lemma SourcesAfterStep(c: Core, i: Input, authorized: bool, now: int)
    requires Fair(c, i)
    ensures SourcesOf(c.Step(i, authorized, now).core.live) == SourcesAfter(c, i, authorized)
  {
    hide Core.Step, SourcesOf, Doing, SourcesAfter;
    StepSources(c, i, authorized, now);
    if i.Disconnected? {
      AbandonedSources(c, i.socket, i.keyringOrder, i.pinentryOrder);
      DisconnectIgnoresSender(c, i, authorized);
    } else if FromPolkit(i) {
      PolkitSources(c, i, authorized);
    } else {
      OtherSources(c, i, authorized);
    }
  }

  lemma DisconnectIgnoresSender(c: Core, i: Input, authorized: bool)
    requires i.Disconnected?
    ensures Doing(c, i, authorized) == Doing(c, i, false) && SourcesAfter(c, i, authorized) == SourcesAfter(c, i, false)
  {
  }

  lemma PolkitSources(c: Core, i: Input, authorized: bool)
    requires Fair(c, i) && FromPolkit(i)
    ensures Doing(c, i, authorized).sources == SourcesAfter(c, i, authorized)
  {
    hide SourcesOf;
    if i.PolkitCancelAll? {
      ConcludeEachSources(Gist(SourcesOf(c.live), []), i.order, c.attempts);
      assert (set id | id in i.order) == c.attempts.Keys;
    }
  }

  lemma OtherSources(c: Core, i: Input, authorized: bool)
    requires !i.Disconnected? && !FromPolkit(i)
    ensures Doing(c, i, authorized).sources == SourcesAfter(c, i, authorized)
  {
    hide SourcesOf, AnswerTo;
    LiveSources(c);
  }

  lemma LiveSources(c: Core)
    ensures SourcesOf(c.live).Keys == c.live.Keys
    ensures forall id :: id in c.live ==> SourcesOf(c.live)[id] == c.live[id].source
  {
  }

  lemma AbandonedSources(c: Core, s: Socket, ko: seq<Id>, po: seq<Id>)
    requires Fair(c, Disconnected(s, ko, po))
    ensures Doing(c, Disconnected(s, ko, po), false).sources == SourcesAfter(c, Disconnected(s, ko, po), false)
  {
    hide SourcesOf, KeyringFrom, PinentryState.ToClose, Gist.EndEach, Gist.EndFlows;
    var g, k, f := Gist(SourcesOf(c.live), []), KeyringFrom(c.keyring, s, ko), c.AsPinentry().ToClose(s, po);
    KeyringFromMembers(c.keyring, s, ko);
    ToCloseMembers(c.AsPinentry(), s, po);
    EndEachSources(g, k, Cancelled);
    EndFlowsSources(g.EndEach(k, Cancelled), f, Cancelled);
    forall id
      ensures id in k <==> id in c.keyring && c.keyring[id].socket == s
      ensures id in f <==> c.AsPinentry().PendingFrom(id, s)
    {
    }
  }

  lemma StepKeepsOwned(c: Core, i: Input, authorized: bool, now: int)
    requires c.AsPinentry().Owned() && Fair(c, i)
    ensures c.Step(i, authorized, now).core.AsPinentry().Owned()
  {
    hide Core.Step, SourcesOf, Sess.UpdateError, PinentryState.Owned;
    StepTables(c, i, authorized, now);
    SourcesAfterStep(c, i, authorized, now);
    LiveSources(c);
    OwnedBySource(c);
    OwnedBySource(c.Step(i, authorized, now).core);
  }

  lemma OwnedBySource(c: Core)
    ensures c.AsPinentry().Owned() <==> EveryPinentryOwned(SourcesOf(c.live), c.flows)
  {
  }

  /** Settling keyring requests leaves every remaining pinentry session its owner. */
  lemma KeyringCleanupKeepsOwned(c: Core, s: Socket, order: seq<Id>)
    requires c.AsPinentry().Owned() && Distinct(order)
    ensures c.WithKeyring(c.AsKeyring().Cleanup(s, order)).core.AsPinentry().Owned()
  {
    hide KeyringState.Cleanup, SourcesOf, PinentryState.Owned, Marks;
    var c' := c.WithKeyring(c.AsKeyring().Cleanup(s, order)).core;
    KeyringCleanupGist(c.AsKeyring(), s, order);
    EndEachSources(Gist(SourcesOf(c.live), Marks([])), KeyringFrom(c.keyring, s, order), Cancelled);
    OwnedBySource(c);
    OwnedBySource(c');
  }

  lemma StepKeepsCoreSound(c: Core, i: Input, authorized: bool, now: int)
    requires CoreSound(c) && Fair(c, i)
    ensures CoreSound(c.Step(i, authorized, now).core)
  {
    hide Core.Step;
    StepTables(c, i, authorized, now);
    StepKeepsPolkit(c, i, authorized, now);
    StepKeepsCoherent(c, i, authorized, now);
    StepKeepsOwned(c, i, authorized, now);
  }

  // ----- One table per source -----

  predicate IsLive(c: Core, id: Id, source: Source) {
    id in c.live && c.live[id].source == source
  }

  predicate Whole(c: Core, id: Id) {
    && (id in c.attempts <==> IsLive(c, id, Source.Polkit))
    && (id in c.keyring <==> IsLive(c, id, Source.Keyring))
    && (id in c.flows <==> IsLive(c, id, Source.Pinentry))
  }

  /** The live sessions split by source into the tables: each is held by the table of its source and
      by no other, and a table holds live sessions only. */
  ghost predicate Partition(c: Core) {
    forall id :: Whole(c, id)
  }

  /** The session that an input claims, when it is accepted, and the source it claims it for. */
  function Claim(c: Core, i: Input): Option<(Id, Source)> {
    match i
    case AskKeyring(_, _, m, _, uuid) => Some((IdOf(m.cookie, uuid), Source.Keyring))
    case AskPinentry(_, pid, m, _, uuid) =>
      var id := OrElse(m.cookie, uuid);
      if c.AsPinentry().OwnedByOther(id, pid) then None else Some((id, Source.Pinentry))
    case PolkitBegin(id, _, identified, _, _) =>
      if id in c.attempts || !identified then None else Some((id, Source.Polkit))
    case _ => None
  }

  /** The input claims a live session of another source. */
  predicate Collides(c: Core, i: Input) {
    Claim(c, i).Some? && var (id, source) := Claim(c, i).value; id in c.live && c.live[id].source != source
  }

  /** The input takes this id over for a session of another source. */
  predicate Overtakes(c: Core, i: Input, id: Id) {
    Collides(c, i) && Claim(c, i).value.0 == id
  }

  ghost predicate WholeAfter(c: Core, i: Input, authorized: bool, now: int, id: Id) {
    var sources, attempts := SourcesAfter(c, i, authorized), AttemptsAfter(c, i, authorized);
    var keyring, flows := KeyringAfter(c, i, authorized), FlowsAfter(c, i, authorized, now);
    && (id in attempts <==> id in sources && sources[id].Polkit?)
    && (id in keyring <==> id in sources && sources[id].Keyring?)
    && (id in flows <==> id in sources && sources[id].Pinentry?)
  }

  lemma WholeAfterStep(c: Core, i: Input, authorized: bool, now: int, id: Id)
    requires Fair(c, i)
    ensures Whole(c.Step(i, authorized, now).core, id) <==> WholeAfter(c, i, authorized, now, id)
  {
    hide Core.Step, SourcesOf, SourcesAfter, KeyringAfter, FlowsAfter, AttemptsAfter, Fair;
    StepTables(c, i, authorized, now);
    SourcesAfterStep(c, i, authorized, now);
    LiveSources(c.Step(i, authorized, now).core);
  }

  lemma RequesterKeepsWhole(c: Core, i: Input, authorized: bool, now: int, id: Id)
    requires Whole(c, id) && FromRequester(i)
    ensures WholeAfter(c, i, authorized, now, id) <==> !(Collides(c, i) && Claim(c, i).value.0 == id)
  {
    hide Whole, WholeAfter, Collides;
    if i.AskKeyring? || i.AskPinentry? {
      AskKeepsWhole(c, i, authorized, now, id);
    } else {
      EndKeepsWhole(c, i, authorized, now, id);
    }
  }

  lemma AskKeepsWhole(c: Core, i: Input, authorized: bool, now: int, id: Id)
    requires Whole(c, id) && (i.AskKeyring? || i.AskPinentry?)
    ensures WholeAfter(c, i, authorized, now, id) <==> !(Collides(c, i) && Claim(c, i).value.0 == id)
  {
    hide SourcesOf, Parsed, RequestOf;
    LiveSources(c);
  }

  lemma EndKeepsWhole(c: Core, i: Input, authorized: bool, now: int, id: Id)
    requires Whole(c, id) && FromRequester(i) && !i.AskKeyring? && !i.AskPinentry?
    ensures WholeAfter(c, i, authorized, now, id) && !Collides(c, i)
  {
    hide Sess.UpdateError, SourcesOf;
    LiveSources(c);
  }

  lemma UserKeepsWhole(c: Core, i: Input, authorized: bool, now: int, id: Id)
    requires Whole(c, id) && FromUser(i)
    ensures WholeAfter(c, i, authorized, now, id)
  {
    hide SourcesOf;
    LiveSources(c);
  }

  lemma OthersKeepWhole(c: Core, i: Input, authorized: bool, now: int, id: Id)
    requires Whole(c, id) && Fair(c, i) && !FromRequester(i) && !FromUser(i)
    ensures WholeAfter(c, i, authorized, now, id) <==> !(Collides(c, i) && Claim(c, i).value.0 == id)
  {
    hide Whole, WholeAfter, Collides, Fair;
    if FromPolkit(i) {
      PolkitKeepsWhole(c, i, authorized, now, id);
    } else {
      RoutingKeepsWhole(c, i, authorized, now, id);
    }
  }

  lemma PolkitKeepsWhole(c: Core, i: Input, authorized: bool, now: int, id: Id)
    requires Whole(c, id) && FromPolkit(i)
    ensures WholeAfter(c, i, authorized, now, id) <==> !(Collides(c, i) && Claim(c, i).value.0 == id)
  {
    if i.HelperDone? {
      HelperKeepsWhole(c, i, authorized, now, id);
    } else {
      hide SourcesOf, PolkitState.Reattempt, PolkitState.MayRetry;
      LiveSources(c);
    }
  }

  lemma HelperKeepsWhole(c: Core, i: Input, authorized: bool, now: int, id: Id)
    requires Whole(c, id) && i.HelperDone?
    ensures WholeAfter(c, i, authorized, now, id) && !Collides(c, i)
  {
    hide SourcesOf;
    LiveSources(c);
  }

  lemma RoutingKeepsWhole(c: Core, i: Input, authorized: bool, now: int, id: Id)
    requires Whole(c, id) && !FromPolkit(i) && !FromRequester(i) && !FromUser(i)
    ensures WholeAfter(c, i, authorized, now, id) && !Collides(c, i)
  {
    hide SourcesOf;
    LiveSources(c);
  }

  lemma StepKeepsWhole(c: Core, i: Input, authorized: bool, now: int, id: Id)
    requires Whole(c, id) && Fair(c, i)
    ensures Whole(c.Step(i, authorized, now).core, id) <==> !(Collides(c, i) && Claim(c, i).value.0 == id)
  {
    hide Core.Step, Whole, WholeAfter, Fair;
    WholeAfterStep(c, i, authorized, now, id);
    if FromRequester(i) {
      RequesterKeepsWhole(c, i, authorized, now, id);
    } else if FromUser(i) {
      UserKeepsWhole(c, i, authorized, now, id);
    } else {
      OthersKeepWhole(c, i, authorized, now, id);
    }
  }

  /** A step keeps the partition exactly when it does not claim another source's session. */
  lemma StepKeepsPartition(c: Core, i: Input, authorized: bool, now: int)
    requires Partition(c) && Fair(c, i)
    ensures Partition(c.Step(i, authorized, now).core) <==> !Collides(c, i)
  {
    hide Core.Step, Whole, Fair;
    assert forall id :: Whole(c, id);
    assert Collides(c, i) ==> !Whole(c.Step(i, authorized, now).core, Claim(c, i).value.0) by {
      if Collides(c, i) {
        StepKeepsWhole(c, i, authorized, now, Claim(c, i).value.0);
      }
    }
    forall id
      ensures Whole(c.Step(i, authorized, now).core, id) <==> !(Collides(c, i) && Claim(c, i).value.0 == id)
    {
      StepKeepsWhole(c, i, authorized, now, id);
    }
  }
}
