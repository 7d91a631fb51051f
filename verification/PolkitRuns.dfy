/** Polkit requests over whole runs: every request handed in is completed once, after at most three
    helper sessions, and helpers that were replaced are not listened to. */
module PolkitRuns {
  import opened Basics
  import opened Messages
  import opened Pinentry
  import opened PolkitAgent
  import opened Daemon
  import opened Summaries
  import opened Invariants
  import opened Runs
  import opened Endings

  // ----- Replaced helpers -----

  /** A signal of a helper that is nobody's current one changes nothing and puts nothing out. */
  lemma StaleHelpersAreIgnored(d: System, i: Input)
    requires i.HelperPrompt? || i.HelperDone? || i.HelperError? || i.HelperInfo?
    requires forall id :: id in d.core.attempts ==> d.core.attempts[id].helper != i.sender
    ensures d.Step(i) == d && d.Outputs(i).out == []
  {
    assert Whose(d.core.attempts, i.sender) == None;
  }

  predicate IsCurrent(d: System, h: Helper) {
    exists id :: id in d.core.attempts && d.core.attempts[id].helper == h
  }

  /** The helper that an input makes, if it is needed. */
  function Made(i: Input): set<Helper> {
    if i.PolkitBegin? then {i.helper} else if i.HelperDone? then {i.next} else {}
  }

  function MadeBy(run: seq<Input>): set<Helper> {
    if run == [] then {} else MadeBy(run[..|run| - 1]) + Made(run[|run| - 1])
  }

  /** Helper sessions are never made twice. */
  predicate NeverReused(run: seq<Input>) {
    run == [] || (NeverReused(run[..|run| - 1]) && Made(run[|run| - 1]) !! MadeBy(run[..|run| - 1]))
  }

  /** A helper that is done, and one that nobody has, is nobody's after the step, unless it is made anew. */
  lemma OnlyMadeBecomeCurrent(d: System, i: Input, h: Helper)
    requires Sound(d) && d.Enabled(i) && h !in Made(i)
    ensures IsCurrent(d.Step(i), h) ==> IsCurrent(d, h)
    ensures i.HelperDone? && i.sender == h ==> !IsCurrent(d.Step(i), h)
  {
    hide Core.Step, System.Routed, System.Enabled;
    EnabledIsFair(d, i);
    StepTables(d.core, i, (i.Respond? || i.Cancel?) && d.routes.registry.Authorized(i.socket), d.routes.now);
    OneHelperEach(d.core.AsPolkit());
  }

  lemma {:induction false} NeverReusedApart(run: seq<Input>, more: seq<Input>, h: Helper)
    requires NeverReused(run + more) && h in MadeBy(run)
    ensures NeverReused(run) && h !in MadeBy(more) && h in MadeBy(run + more)
  {
    if more == [] {
      assert run + more == run;
    } else {
      var n := |more| - 1;
      assert (run + more)[..|run + more| - 1] == run + more[..n];
      NeverReusedApart(run, more[..n], h);
    }
  }

  lemma {:induction false} RetiredStays(d: System, run: seq<Input>, h: Helper)
    requires Sound(d) && Admissible(d, run) && !IsCurrent(d, h) && h !in MadeBy(run)
    ensures !IsCurrent(After(d, run), h)
  {
    hide Sound, System.Step, System.Enabled, IsCurrent;
    if run != [] {
      var rest := run[..|run| - 1];
      RetiredStays(d, rest, h);
      RunKeepsSound(d, rest);
      OnlyMadeBecomeCurrent(After(d, rest), run[|run| - 1], h);
    }
  }

  /** With helpers never made twice: once a helper has been replaced, or its request concluded, no
      signal from it ever changes anything again. */
  lemma RetiredHelpersAreIgnored(d: System, run: seq<Input>, more: seq<Input>, i: Input)
    requires Sound(d) && Admissible(d, run + more) && NeverReused(run + more)
    requires i.HelperPrompt? || i.HelperDone? || i.HelperError? || i.HelperInfo?
    requires i.sender in MadeBy(run) && !IsCurrent(After(d, run), i.sender)
    ensures var d' := After(d, run + more); d'.Step(i) == d' && d'.Outputs(i).out == []
  {
    hide Sound, System.Step, System.Enabled, System.Outputs;
    AfterAppend(d, run, more);
    RunKeepsSound(d, run);
    NeverReusedApart(run, more, i.sender);
    RetiredStays(After(d, run), more, i.sender);
    StaleHelpersAreIgnored(After(d, run + more), i);
  }

  // ----- Completion -----

  function Count<T(==)>(s: seq<T>, x: T): nat {
    if s == [] then 0 else Count(s[..|s| - 1], x) + if s[|s| - 1] == x then 1 else 0
  }

  lemma {:induction false} CountAppend<T>(a: seq<T>, b: seq<T>, x: T)
    ensures Count(a + b, x) == Count(a, x) + Count(b, x)
  {
    if b == [] {
      assert a + b == a;
    } else {
      assert (a + b)[..|a + b| - 1] == a + b[..|b| - 1];
      CountAppend(a, b[..|b| - 1], x);
    }
  }

  lemma CountOne<T>(x: T, y: T)
    ensures Count([x], y) == if x == y then 1 else 0
  {
    assert [x][..0] == [];
  }

  /** The requests under way that must complete this AsyncResult. */
  function Owing(attempts: map<Id, Attempt>, token: Token): set<Id> {
    set id | id in attempts && attempts[id].token == token
  }

  /** The input hands in a request with this AsyncResult. */
  function HandedIn(i: Input, token: Token): nat {
    if i.PolkitBegin? && i.token == token then 1 else 0
  }

  function Listed(ids: seq<Id>, attempts: map<Id, Attempt>, token: Token): set<Id> {
    set id | id in ids && id in attempts && attempts[id].token == token
  }

  lemma ListedGrows(ids: seq<Id>, last: Id, attempts: map<Id, Attempt>, token: Token)
    requires last !in ids && last in attempts
    ensures |Listed(ids + [last], attempts, token)| ==
            |Listed(ids, attempts, token)| + if attempts[last].token == token then 1 else 0
  {
    assert Listed(ids + [last], attempts, token) ==
           Listed(ids, attempts, token) + if attempts[last].token == token then {last} else {};
  }

  lemma {:induction false} ConcludeEachCompletes(g: Gist, ids: seq<Id>, attempts: map<Id, Attempt>, token: Token)
    requires Distinct(ids) && forall id :: id in ids ==> id in attempts
    ensures Count(g.ConcludeEach(ids, attempts).marks, Completed(token)) ==
            Count(g.marks, Completed(token)) + |Listed(ids, attempts, token)|
  {
    hide Gist.Conclude, Count;
    if ids == [] {
      assert Listed(ids, attempts, token) == {};
    } else {
      var n := |ids| - 1;
      ConcludeEachCompletes(g, ids[..n], attempts, token);
      ConcludeCompletes(g.ConcludeEach(ids[..n], attempts), ids[n], attempts, false, token);
      assert ids == ids[..n] + [ids[n]];
      ListedGrows(ids[..n], ids[n], attempts, token);
    }
  }

  lemma ConcludeCompletes(g: Gist, id: Id, attempts: map<Id, Attempt>, gained: bool, token: Token)
    requires id in attempts
    ensures Count(g.Conclude(id, attempts, gained).marks, Completed(token)) ==
            Count(g.marks, Completed(token)) + if attempts[id].token == token then 1 else 0
  {
    var noted := g.Note(Completed(attempts[id].token));
    assert noted.marks[..|g.marks|] == g.marks;
    assert id in g.sources ==> g.Conclude(id, attempts, gained).marks[..|noted.marks|] == noted.marks;
  }

  lemma OwingWithout(attempts: map<Id, Attempt>, id: Id, token: Token)
    requires id in attempts
    ensures |Owing(attempts - {id}, token)| + (if attempts[id].token == token then 1 else 0) == |Owing(attempts, token)|
  {
    assert Owing(attempts - {id}, token) == Owing(attempts, token) - {id};
  }

  lemma OwingStays(attempts: map<Id, Attempt>, id: Id, a: Attempt, token: Token)
    requires id in attempts && a.token == attempts[id].token
    ensures Owing(attempts[id := a], token) == Owing(attempts, token)
  {
  }

  lemma OwingWith(attempts: map<Id, Attempt>, id: Id, a: Attempt, token: Token)
    requires id !in attempts
    ensures |Owing(attempts[id := a], token)| == |Owing(attempts, token)| + if a.token == token then 1 else 0
  {
    assert Owing(attempts[id := a], token) == Owing(attempts, token) + if a.token == token then {id} else {};
  }

  lemma {:induction false} NothingCompleted(marks: seq<Mark>, token: Token)
    requires forall m :: m in marks ==> !m.Completed?
    ensures Count(marks, Completed(token)) == 0
  {
    if marks != [] {
      assert marks[|marks| - 1] in marks;
      NothingCompleted(marks[..|marks| - 1], token);
    }
  }

  /** What a step hands in and what was under way is completed by the step or still under way. */
  ghost predicate Balanced(c: Core, i: Input, authorized: bool, token: Token)
    requires Fair(c, i)
  {
    Count(Doing(c, i, authorized).marks, Completed(token)) + |Owing(AttemptsAfter(c, i, authorized), token)| ==
    HandedIn(i, token) + |Owing(c.attempts, token)|
  }

  lemma BeginBalanced(c: Core, i: Input, token: Token)
    requires i.PolkitBegin? && Fair(c, i)
    ensures Balanced(c, i, false, token) && Balanced(c, i, true, token)
  {
    hide SourcesOf, Owing, Count;
    if i.id !in c.attempts && i.identified {
      OwingWith(c.attempts, i.id, Attempt(i.token, i.helper, 0), token);
      NothingCompleted([Started(i.helper, i.id)], token);
      assert [] + [Started(i.helper, i.id)] == [Started(i.helper, i.id)];
    } else {
      CountOne(Completed(i.token), Completed(token));
      assert [] + [Completed(i.token)] == [Completed(i.token)];
    }
  }

  lemma HelperBalanced(c: Core, i: Input, authorized: bool, token: Token)
    requires i.HelperDone? && Fair(c, i)
    ensures Balanced(c, i, authorized, token)
  {
    hide SourcesOf, Owing, Gist.Conclude, Count;
    var g := Gist(SourcesOf(c.live), []);
    NothingCompleted([], token);
    match Whose(c.attempts, i.sender)
    case None =>
    case Some(id) =>
      OwingWithout(c.attempts, id, token);
      OwingStays(c.attempts, id, c.attempts[id].(helper := i.next, retryCount := c.attempts[id].retryCount + 1), token);
      ConcludeCompletes(g, id, c.attempts, i.gained, token);
      NothingCompleted([Started(i.next, id)], token);
      assert g.Note(Started(i.next, id)).marks == [Started(i.next, id)];
  }

  lemma UserBalanced(c: Core, i: Input, authorized: bool, token: Token)
    requires FromUser(i)
    ensures Balanced(c, i, authorized, token)
  {
    hide SourcesOf, Owing, Count, AnswerTo;
    if i.Cancel? && authorized && CancelsPolkit(c, i.id) && i.id in c.attempts {
      NothingCompleted([], token);
      OwingWithout(c.attempts, i.id, token);
      ConcludeCompletes(Gist(SourcesOf(c.live), []), i.id, c.attempts, false, token);
    } else {
      assert AttemptsAfter(c, i, authorized) == c.attempts;
      NothingCompleted(Doing(c, i, authorized).marks, token);
    }
  }

  lemma OthersBalanced(c: Core, i: Input, authorized: bool, token: Token)
    requires Fair(c, i) && !FromUser(i) && !i.PolkitBegin? && !i.HelperDone?
    ensures Balanced(c, i, authorized, token)
  {
    hide SourcesOf, Count;
    var g := Gist(SourcesOf(c.live), []);
    if i.PolkitCancelAll? {
      NothingCompleted([], token);
      ConcludeEachCompletes(g, i.order, c.attempts, token);
      assert Listed(i.order, c.attempts, token) == Owing(c.attempts, token);
      assert Owing(map[], token) == {};
    } else {
      if i.Disconnected? {
        var k := KeyringFrom(c.keyring, i.socket, i.keyringOrder);
        EndEachMarks(g, k, Cancelled);
        EndFlowsMarks(g.EndEach(k, Cancelled), c.AsPinentry().ToClose(i.socket, i.pinentryOrder), Cancelled);
      }
      NothingCompleted(Doing(c, i, authorized).marks, token);
    }
  }

  function HandedInBy(run: seq<Input>, token: Token): nat {
    if run == [] then 0 else HandedInBy(run[..|run| - 1], token) + HandedIn(run[|run| - 1], token)
  }

  lemma CompletionsOfStep(d: System, i: Input, token: Token)
    requires d.Enabled(i)
    ensures Count(MarksOf(d, i), Completed(token)) + |Owing(d.Step(i).core.attempts, token)| ==
            HandedIn(i, token) + |Owing(d.core.attempts, token)|
  {
    hide Core.Step, Doing, AttemptsAfter, KeyringAfter, FlowsAfter, Count, Owing, System.Enabled, System.Routed,
         Marks, SourcesOf;
    var authorized := (i.Respond? || i.Cancel?) && d.routes.registry.Authorized(i.socket);
    EnabledIsFair(d, i);
    StepGist(d.core, i, authorized, d.routes.now);
    StepTables(d.core, i, authorized, d.routes.now);
    if FromUser(i) {
      UserBalanced(d.core, i, authorized, token);
    } else if i.PolkitBegin? {
      BeginBalanced(d.core, i, token);
    } else if i.HelperDone? {
      HelperBalanced(d.core, i, authorized, token);
    } else {
      OthersBalanced(d.core, i, authorized, token);
    }
  }

  /** Conservation: in every run, every request handed in by polkit is completed once or still under
      way; none is completed twice, none is dropped. */
  lemma {:induction false} RequestsComplete(d: System, run: seq<Input>, token: Token)
    requires Admissible(d, run)
    ensures Count(Marks(Trace(d, run)), Completed(token)) + |Owing(After(d, run).core.attempts, token)| ==
            HandedInBy(run, token) + |Owing(d.core.attempts, token)|
  {
    hide System.Enabled, System.Step, System.Outputs, Owing, Marks;
    RunMarks(d, run);
    if run != [] {
      var rest := run[..|run| - 1];
      RequestsComplete(d, rest, token);
      CompletionsOfStep(After(d, rest), run[|run| - 1], token);
      CountAppend(Marks(Trace(d, rest)), MarksOf(After(d, rest), run[|run| - 1]), Completed(token));
    }
  }

  // ----- Attempts -----

  ghost predicate StartsHelper(d: System, i: Input, id: Id) {
    exists h :: Started(h, id) in MarksOf(d, i)
  }

  predicate Begins(c: Core, i: Input, id: Id) {
    i.PolkitBegin? && i.id == id && id !in c.attempts && i.identified
  }

  ghost predicate Reattempts(c: Core, i: Input, id: Id) {
    i.HelperDone? && !i.gained && Whose(c.attempts, i.sender) == Some(id) &&
      c.attempts[id].retryCount + 1 < 3
  }

  lemma {:induction false} ConcludeEachStartsNothing(g: Gist, ids: seq<Id>, attempts: map<Id, Attempt>)
    requires forall id :: id in ids ==> id in attempts
    ensures forall m: Mark :: m.Started? ==> (m in g.ConcludeEach(ids, attempts).marks <==> m in g.marks)
  {
    if ids != [] {
      ConcludeEachStartsNothing(g, ids[..|ids| - 1], attempts);
    }
  }

  lemma HelperStarts(d: System, i: Input, id: Id)
    requires d.Enabled(i)
    ensures StartsHelper(d, i, id) <==> Begins(d.core, i, id) || Reattempts(d.core, i, id)
  {
    hide Core.Step, Marks, SourcesOf, System.Enabled, Doing;
    var c, authorized := d.core, (i.Respond? || i.Cancel?) && d.routes.registry.Authorized(i.socket);
    EnabledIsFair(d, i);
    StepGist(c, i, authorized, d.routes.now);
    if FromPolkit(i) {
      PolkitStarts(c, i, authorized, id);
    } else {
      NobodyElseStarts(c, i, authorized, id);
    }
  }

  lemma PolkitStarts(c: Core, i: Input, authorized: bool, id: Id)
    requires FromPolkit(i) && Fair(c, i)
    ensures (exists h :: Started(h, id) in Doing(c, i, authorized).marks) <==> Begins(c, i, id) || Reattempts(c, i, id)
  {
    hide SourcesOf;
    if i.PolkitCancelAll? {
      ConcludeEachStartsNothing(Gist(SourcesOf(c.live), []), i.order, c.attempts);
    } else if Begins(c, i, id) {
      assert Started(i.helper, id) in Doing(c, i, authorized).marks;
    } else if Reattempts(c, i, id) {
      assert Started(i.next, id) in Doing(c, i, authorized).marks;
    }
  }

  lemma NobodyElseStarts(c: Core, i: Input, authorized: bool, id: Id)
    requires !FromPolkit(i)
    ensures forall h :: Started(h, id) !in Doing(c, i, authorized).marks
    ensures !Begins(c, i, id) && !Reattempts(c, i, id)
  {
    hide SourcesOf, AnswerTo;
    if i.Disconnected? {
      var g, k := Gist(SourcesOf(c.live), []), KeyringFrom(c.keyring, i.socket, i.keyringOrder);
      EndEachMarks(g, k, Cancelled);
      EndFlowsMarks(g.EndEach(k, Cancelled), c.AsPinentry().ToClose(i.socket, i.pinentryOrder), Cancelled);
    }
  }

  /** The helper sessions started for the request that is under way as `id`. */
  ghost function Helpers(d: System, run: seq<Input>, id: Id): nat {
    if run == [] then 0
    else
      var before, i := After(d, run[..|run| - 1]), run[|run| - 1];
      if !StartsHelper(before, i, id) then Helpers(d, run[..|run| - 1], id)
      else if i.PolkitBegin? then 1
      else Helpers(d, run[..|run| - 1], id) + 1
  }

  lemma AttemptAfterStep(d: System, i: Input, id: Id)
    requires d.Enabled(i) && id in d.Step(i).core.attempts
    ensures var a := d.Step(i).core.attempts[id];
            if Begins(d.core, i, id) then a.retryCount == 0
            else id in d.core.attempts && a.token == d.core.attempts[id].token
                 && a.retryCount == d.core.attempts[id].retryCount + if Reattempts(d.core, i, id) then 1 else 0
  {
    hide Core.Step, System.Routed, System.Enabled;
    EnabledIsFair(d, i);
    StepTables(d.core, i, (i.Respond? || i.Cancel?) && d.routes.registry.Authorized(i.socket), d.routes.now);
  }

  /** In every run a request under way has been given one helper session more than its failures, and
      never more than three. */
  lemma {:induction false} AtMostThreeHelpers(d: System, run: seq<Input>, id: Id)
    requires Sound(d) && d.core.attempts == map[] && Admissible(d, run) && id in After(d, run).core.attempts
    ensures Helpers(d, run, id) == After(d, run).core.attempts[id].retryCount + 1 <= 3
  {
    hide CoreSound, System.Step, System.Enabled, StartsHelper, Begins, Reattempts;
    RunKeepsSound(d, run);
    AttemptsAreFew(After(d, run).core, id);
    if run != [] {
      var before, i := After(d, run[..|run| - 1]), run[|run| - 1];
      AttemptAfterStep(before, i, id);
      HelperStarts(before, i, id);
      OneWayToStart(before.core, i, id);
      if !Begins(before.core, i, id) {
        AtMostThreeHelpers(d, run[..|run| - 1], id);
      }
    }
  }

  lemma OneWayToStart(c: Core, i: Input, id: Id)
    ensures Begins(c, i, id) ==> i.PolkitBegin? && !Reattempts(c, i, id)
    ensures Reattempts(c, i, id) ==> !i.PolkitBegin?
  {
  }

  lemma AttemptsAreFew(c: Core, id: Id)
    requires CoreSound(c) && id in c.attempts
    ensures c.attempts[id].retryCount < 3
  {
  }
}
