/** What becomes of every keyring and pinentry request: answered once, to the socket that asked last,
    or replaced by a later request, or lost with its flow, or still pending. */
module Replies {
  import opened Basics
  import opened Messages
  import opened Sessions
  import opened Keyring
  import opened Pinentry
  import opened PolkitAgent
  import opened Daemon
  import opened Summaries
  import opened Invariants
  import opened Runs
  import opened Endings

  // ----- The rule, for one id -----

  /** A request is accepted, its requester is told the answer, or it is closed without one. */
  datatype Turn = Asked(socket: Socket) | Told(socket: Socket, answer: Answer) | Lost(socket: Socket)

  /** The socket that waits after a turn; None when the turn makes no sense: only the socket that
      waits can be told or lost, and being told or lost ends the wait. */
  function Advanced(waiting: Option<Socket>, turn: Turn): Option<Option<Socket>> {
    match turn
    case Asked(s) => Some(Some(s))
    case Told(s, _) => if waiting == Some(s) then Some(None) else None
    case Lost(s) => if waiting == Some(s) then Some(None) else None
  }

  function Follow(waiting: Option<Socket>, story: seq<Turn>): Option<Option<Socket>> {
    if story == [] then Some(waiting)
    else
      match Follow(waiting, story[..|story| - 1])
      case None => None
      case Some(now) => Advanced(now, story[|story| - 1])
  }

  lemma {:induction false} FollowAppend(waiting: Option<Socket>, a: seq<Turn>, b: seq<Turn>)
    ensures Follow(waiting, a + b) == match Follow(waiting, a) case None => None case Some(now) => Follow(now, b)
  {
    if b == [] {
      assert a + b == a;
    } else {
      assert (a + b)[..|a + b| - 1] == a + b[..|b| - 1];
      FollowAppend(waiting, a, b[..|b| - 1]);
    }
  }

  function One(b: bool): nat {
    if b then 1 else 0
  }

  datatype Tally = Tally(asked: nat, told: nat, lost: nat, replaced: nat)

  function Counted(waiting: Option<Socket>, story: seq<Turn>): Tally {
    if story == [] then Tally(0, 0, 0, 0)
    else
      var rest := story[..|story| - 1];
      var t := Counted(waiting, rest);
      var held := Follow(waiting, rest).Some? && Follow(waiting, rest).value.Some?;
      match story[|story| - 1]
      case Asked(_) => t.(asked := t.asked + 1, replaced := t.replaced + One(held))
      case Told(_, _) => t.(told := t.told + 1)
      case Lost(_) => t.(lost := t.lost + 1)
  }

  /** Every request is answered, lost, replaced or still pending, and only one of these. */
  lemma {:induction false} EveryRequestCounts(waiting: Option<Socket>, story: seq<Turn>)
    requires Follow(waiting, story).Some?
    ensures var t := Counted(waiting, story);
            t.asked + One(waiting.Some?) == t.told + t.lost + t.replaced + One(Follow(waiting, story).value.Some?)
  {
    if story != [] {
      EveryRequestCounts(waiting, story[..|story| - 1]);
    }
  }

  // ----- The story the daemon tells -----

  /** The socket whose request for this id is pending. */
  function Waiting(c: Core, id: Id): Option<Socket> {
    if id in c.keyring then Some(c.keyring[id].socket)
    else if c.AsPinentry().IsPending(id) then Some(c.flows[id].phase.request.socket)
    else None
  }

  /** The answers about this id among the marks, in order. */
  function Answers(marks: seq<Mark>, id: Id): seq<Turn> {
    if marks == [] then []
    else
      var m := marks[|marks| - 1];
      Answers(marks[..|marks| - 1], id) + if m.Answered? && m.id == id then [Told(m.to, m.answer)] else []
  }

  /** The request for this id that an input brings, if it is accepted. */
  function Request(c: Core, i: Input, id: Id): seq<Turn> {
    match i
    case AskKeyring(s, _, m, _, uuid) => if IdOf(m.cookie, uuid) == id then [Asked(s)] else []
    case AskPinentry(s, pid, m, _, uuid) =>
      if OrElse(m.cookie, uuid) == id && !c.AsPinentry().OwnedByOther(id, pid) then [Asked(s)] else []
    case _ => []
  }

  /** A pending request is lost when its socket goes away, or when the owner of the flow reports a
      final result although it was not answered. */
  function Loss(c: Core, i: Input, id: Id): seq<Turn> {
    match i
    case Disconnected(s, _, _) => if Waiting(c, id) == Some(s) then [Lost(s)] else []
    case Report(_, pid, named, verdict, _) =>
      var p := c.AsPinentry();
      if named == id && p.IsPending(id) && p.AcceptsResult(id, pid) && !verdict.Retry? && !verdict.Unknown?
      then [Lost(c.flows[id].phase.request.socket)] else []
    case _ => []
  }

  ghost function Story(d: System, i: Input, id: Id): seq<Turn> {
    Request(d.core, i, id) + Answers(MarksOf(d, i), id) + Loss(d.core, i, id)
  }

  lemma {:induction false} NoAnswers(marks: seq<Mark>, id: Id)
    requires forall m :: m in marks ==> !m.Answered?
    ensures Answers(marks, id) == []
  {
    if marks != [] {
      NoAnswers(marks[..|marks| - 1], id);
    }
  }

  lemma {:induction false} ConcludeEachAnswersNobody(g: Gist, ids: seq<Id>, attempts: map<Id, Attempt>)
    requires forall id :: id in ids ==> id in attempts
    ensures forall m: Mark :: m.Answered? ==> (m in g.ConcludeEach(ids, attempts).marks <==> m in g.marks)
  {
    if ids != [] {
      ConcludeEachAnswersNobody(g, ids[..|ids| - 1], attempts);
    }
  }

  /** The answer an input gives, if any: it goes to the socket whose request is pending. */
  function Reply(c: Core, i: Input, authorized: bool, id: Id): seq<Turn> {
    if !authorized || Waiting(c, id) == None then []
    else
      match i
      case Respond(_, named, response) =>
        if named != id then []
        else [Told(Waiting(c, id).value,
                   if id !in c.keyring && c.flows[id].phase.request.confirmOnly then Confirmed
                   else Password(response))]
      case Cancel(_, named) => if named != id then [] else [Told(Waiting(c, id).value, Declined)]
      case _ => []
  }

  lemma OneAnswer(g: Gist, to: Socket, named: Id, answer: Answer, id: Id)
    requires forall m :: m in g.marks ==> !m.Answered?
    ensures Answers(g.Note(Answered(to, named, answer)).marks, id) == if named == id then [Told(to, answer)] else []
  {
    NoAnswers(g.marks, id);
    assert g.Note(Answered(to, named, answer)).marks[..|g.marks|] == g.marks;
  }

  lemma UserReplies(c: Core, i: Input, authorized: bool, id: Id)
    requires FromUser(i)
    ensures Answers(Doing(c, i, authorized).marks, id) == Reply(c, i, authorized, id)
  {
    hide SourcesOf, Answers;
    var g := Gist(SourcesOf(c.live), []);
    var result := if i.Respond? then Success else Cancelled;
    if authorized && i.id in c.keyring {
      OneAnswer(g.End(i.id, result), c.keyring[i.id].socket, i.id,
                if i.Respond? then Password(i.response) else Declined, id);
    } else if authorized && c.AsPinentry().IsPending(i.id) {
      var r := c.flows[i.id].phase.request;
      OneAnswer(if i.Respond? then g else g.EndFlow(i.id, Cancelled), r.socket, i.id,
                if i.Respond? then AnswerTo(r, i.response) else Declined, id);
    } else {
      NoAnswers(Doing(c, i, authorized).marks, id);
    }
  }

  lemma NobodyElseReplies(c: Core, i: Input, authorized: bool, id: Id)
    requires Fair(c, i) && !FromUser(i)
    ensures Answers(Doing(c, i, authorized).marks, id) == []
  {
    hide SourcesOf;
    var g := Gist(SourcesOf(c.live), []);
    if i.Disconnected? {
      var k := KeyringFrom(c.keyring, i.socket, i.keyringOrder);
      EndEachMarks(g, k, Cancelled);
      EndFlowsMarks(g.EndEach(k, Cancelled), c.AsPinentry().ToClose(i.socket, i.pinentryOrder), Cancelled);
    } else if i.PolkitCancelAll? {
      ConcludeEachAnswersNobody(g, i.order, c.attempts);
    }
    NoAnswers(Doing(c, i, authorized).marks, id);
  }

  /** Answers are given only by an authorised provider's respond or cancel, and to the pending request. */
  lemma RepliesExact(d: System, i: Input, id: Id)
    requires d.Enabled(i)
    ensures Answers(MarksOf(d, i), id) ==
            Reply(d.core, i, (i.Respond? || i.Cancel?) && d.routes.registry.Authorized(i.socket), id)
  {
    hide Core.Step, Doing, Marks;
    var authorized := (i.Respond? || i.Cancel?) && d.routes.registry.Authorized(i.socket);
    EnabledIsFair(d, i);
    StepGist(d.core, i, authorized, d.routes.now);
    if FromUser(i) {
      UserReplies(d.core, i, authorized, id);
    } else {
      NobodyElseReplies(d.core, i, authorized, id);
    }
  }

  lemma FollowOne(waiting: Option<Socket>, turn: Turn)
    ensures Follow(waiting, []) == Some(waiting)
    ensures Follow(waiting, [turn]) == Advanced(waiting, turn)
  {
    assert [turn][..0] == [];
  }

  ghost predicate StoryFits(c: Core, i: Input, authorized: bool, now: int, id: Id) {
    var c' := c.Step(i, authorized, now).core;
    Follow(Waiting(c, id), Request(c, i, id) + Reply(c, i, authorized, id) + Loss(c, i, id)) == Some(Waiting(c', id))
  }

  lemma UserStoryFits(c: Core, i: Input, authorized: bool, now: int, id: Id)
    requires Whole(c, id) && FromUser(i)
    ensures StoryFits(c, i, authorized, now, id)
  {
    hide Core.Step, Follow, SourcesOf, AnswerTo;
    StepTables(c, i, authorized, now);
    var story := Reply(c, i, authorized, id);
    assert Request(c, i, id) + story + Loss(c, i, id) == story;
    if story == [] {
      FollowOne(Waiting(c, id), Asked(0));
    } else {
      assert story == [story[0]];
      FollowOne(Waiting(c, id), story[0]);
    }
  }

  lemma AskStoryFits(c: Core, i: Input, authorized: bool, now: int, id: Id)
    requires Whole(c, id) && !Overtakes(c, i, id) && (i.AskKeyring? || i.AskPinentry?)
    ensures StoryFits(c, i, authorized, now, id)
  {
    hide Core.Step, Follow, SourcesOf, Sess.UpdateError;
    StepTables(c, i, authorized, now);
    var story := Request(c, i, id);
    assert story + Reply(c, i, authorized, id) + Loss(c, i, id) == story;
    FollowOne(Waiting(c, id), if story == [] then Asked(0) else story[0]);
    assert story == [] || story == [story[0]];
  }

  lemma OtherStoryFits(c: Core, i: Input, authorized: bool, now: int, id: Id)
    requires Whole(c, id) && Fair(c, i) && !FromUser(i) && !i.AskKeyring? && !i.AskPinentry?
    ensures StoryFits(c, i, authorized, now, id)
  {
    hide Core.Step, Follow, SourcesOf, Sess.UpdateError;
    StepTables(c, i, authorized, now);
    var story := Loss(c, i, id);
    assert Request(c, i, id) + Reply(c, i, authorized, id) + story == story;
    FollowOne(Waiting(c, id), if story == [] then Asked(0) else story[0]);
    assert story == [] || story == [story[0]];
  }

  // ----- Runs -----

  ghost function WholeStory(d: System, run: seq<Input>, id: Id): seq<Turn> {
    if run == [] then []
    else WholeStory(d, run[..|run| - 1], id) + Story(After(d, run[..|run| - 1]), run[|run| - 1], id)
  }

  lemma StepTellsStory(d: System, i: Input, id: Id)
    requires Whole(d.core, id) && d.Enabled(i) && !Overtakes(d.core, i, id)
    ensures Follow(Waiting(d.core, id), Story(d, i, id)) == Some(Waiting(d.Step(i).core, id))
  {
    hide Follow, Waiting, Reply, Request, Loss, Core.Step, System.Enabled, Marks, Whole, Overtakes, System.Routed;
    var authorized := (i.Respond? || i.Cancel?) && d.routes.registry.Authorized(i.socket);
    EnabledIsFair(d, i);
    RepliesExact(d, i, id);
    if FromUser(i) {
      UserStoryFits(d.core, i, authorized, d.routes.now, id);
    } else if i.AskKeyring? || i.AskPinentry? {
      AskStoryFits(d.core, i, authorized, d.routes.now, id);
    } else {
      OtherStoryFits(d.core, i, authorized, d.routes.now, id);
    }
  }

  /** In every run in which nobody takes the id over for another source, each answer goes once, to the
      socket whose request was accepted last and is still pending; and the socket that waits at the end
      is the one whose request is pending. */
  lemma {:induction false} RunTellsStory(d: System, run: seq<Input>, id: Id)
    requires Whole(d.core, id) && Admissible(d, run) && Undisturbed(d, run, id)
    ensures Follow(Waiting(d.core, id), WholeStory(d, run, id)) == Some(Waiting(After(d, run).core, id))
  {
    hide Waiting, Story, Whole, System.Step, System.Enabled, Overtakes, Advanced;
    if run != [] {
      var rest := run[..|run| - 1];
      RunTellsStory(d, rest, id);
      UndisturbedStaysWhole(d, rest, id);
      StepTellsStory(After(d, rest), run[|run| - 1], id);
      FollowAppend(Waiting(d.core, id), WholeStory(d, rest, id), Story(After(d, rest), run[|run| - 1], id));
    }
  }

  /** Conservation: requests accepted, plus one if one was pending, are those answered, lost or
      replaced, plus one if one is pending. */
  lemma RequestsAreConserved(d: System, run: seq<Input>, id: Id)
    requires Whole(d.core, id) && Admissible(d, run) && Undisturbed(d, run, id)
    ensures var t := Counted(Waiting(d.core, id), WholeStory(d, run, id));
            t.asked + One(Waiting(d.core, id).Some?) ==
              t.told + t.lost + t.replaced + One(Waiting(After(d, run).core, id).Some?)
  {
    RunTellsStory(d, run, id);
    EveryRequestCounts(Waiting(d.core, id), WholeStory(d, run, id));
  }
}
