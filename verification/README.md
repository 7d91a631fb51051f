# bb-auth: a verified model of the daemon and its peers

bb-auth is an authentication agent: a daemon that collects password and confirmation requests from
polkit, a keyring prompter and pinentry processes, shows each as a session to one elected user
interface, and carries the user's answers back. This project models the daemon as a single-threaded
event machine, its two peer processes (the fallback user interface and the pinentry process), and the
byte and text processing between them, and proves what holds in every run.

How the files fit together:

- `Basics`, `Messages`: identifiers, events, messages, and the outputs of one step.
- `Sessions`, `EventQueues`, `Providers`, `Routing`: the store, the bounded queue, the election, and who
  receives what. `Routing` is the specification of delivery as a function on one value.
- `Hub`: the half of `CAgent` that the managers call back into. `Keyring`, `Pinentry`, `Polkit`: the three
  managers, as classes with the daemon's own tables, each proved against a small specification
  (`KeyringState`, `PinentryState`, `PolkitState`). The pinentry manager's six tables and its timers refine
  one map from cookies to flow states.
- `Agent`: the dispatching half of `CAgent`. Every method is proved to be one `System.Step`.
- `Daemon`: the event machine itself, its inputs, what the world guarantees of them (`Enabled`), and runs.
- `Summaries`, `Invariants`, `Runs`: what each input does to sessions and tables, and what every reachable
  state satisfies.
- `EventGrammar`, `Endings`, `Submissions`, `Replies`, `PolkitRuns`, `Clocks`: properties of whole runs.
- `FallbackClient`, `Agreement`, `AgreementRuns`: the fallback client and its agreement with the daemon.
  `Visibility`: which events it shows.
- `Reactions`, `Announcements`: what every input makes the daemon tell polkit, its sockets and its watchers,
  in literal messages. `Pictures`, `Windows`, `WindowRuns`, `Prompts`: from there to what a client shows, and
  that it is the truth. `Deliveries`, `Reelections`, `Elections`, `Records`, `RetryCounts`: who gets an event,
  who is elected and when, and what the tables hold, read off the inputs of a run.
- `PinentryClient`: the pinentry process. `PinentryProtocol`: its interleaving with the daemon.
  `PinentryTalk`: what it says, read off its script. `Secrets`: where the text on a data line comes from.
  `LostCookies`: what becomes of the cookies it gave up on. `PinentryScripts`: every script is such an
  interleaving.
- `Assuan`, `Framing`, `PromptText`, `PromptModel`: escaping, newline framing, and prompt texts.

Assumptions about the world, all written in `System.Enabled` or as named hypotheses of a theorem:

- Each handler runs to completion; sends, disconnects and calls into polkit-qt do not call back.
- Sockets are numbers, every connection has its own, and each direction is first in, first out.
- The clock does not run backwards, and a due result timer fires before the clock moves past it.
- Made ids are fresh: new UUIDs are not in use, and a provider id has never been given out before.
- Hash tables are walked in an arbitrary order that lists every key once; theorems hold for all orders.
- Ids of the three sources may collide. The partition into tables (`Peaceful`) and the event grammar
  (`Orderly`) are proved as equivalences: they hold exactly when no such collision happens. Theorems about
  one id say what they need of that id: that it is whole at the start (`Whole`) and not taken over by another
  source in the run (`Undisturbed`, `LeftToItsTimer`); these are implications.
- A request of the pinentry process is handled before the process stops waiting for it, or never (it cannot
  connect or write, `src/common/IpcClient.cpp:15-22`, or the message is over the size limit,
  `src/core/ipc/IpcServer.cpp:125-128` and `Framing.TooLongIsNotHandled`). The process waits
  one second for the answer to a report (`src/common/Constants.hpp:11`, `src/common/IpcClient.cpp:24`). A
  final report may be handled at any later time or never; a report of a retry at any later time before the
  user's next answer, or never.
- Helper sessions are distinct objects; the theorem about retired helpers says that none is made twice.

Where code and documentation differ, the code is modelled:

- `docs/PINENTRY_FLOW.md` says `session.closed` is emitted once per flow. A cookie may be used again after
  its flow was closed, so the property proved is `(created updated* closed)*` per id; and the store
  overwrites a live session without closing it when a keyring or polkit request reuses its id.
- The same document lists three states. A flow whose requester announced a retry and has not asked again is
  in none of them; it is the phase `Retrying` here.
- It also says (line 29) that success is never inferred. The daemon never does. The pinentry process does:
  `PinentryClient.SuccessIsInferred` says exactly when, and `SilenceIsSuccess` gives the shortest script.
- It says that a flow ends in `session.closed`. A flow whose retry was announced and whose next request does
  not get through stays open until somebody cancels it: `LostCookies.HeldForGoodExactly` says exactly when,
  and `PinentryScripts.StrandingIsAScript` gives the commands.
- The program writes "%%XX" where the Assuan protocol asks for "%XX". `Assuan` states the exact law of what
  the program writes, and the round trip of what the protocol asks for.

## Model

| member | source | states |
|---|---|---|
| `WindowRuns.WindowIsTrue` | src/fallback/FallbackClient.cpp:264-274 | In every run, from its subscription on and for as long as it may answer, a client that does not pull events knows the truth: folding what it has shown since gives exactly the live sessions, each with its context, prompt, echo, counters, error and information as the daemon has them |
| `Pictures.EventsTellEverything` | src/core/agent/SessionStore.cpp:5-62 | In every run, whatever ids are used: folding the events about an id over what was known at the start gives the session as it is at the end, or nothing if there is none |
| `Pictures.ReplayTellsEverything` | src/core/Agent.cpp:197-202 | What a new subscriber is replayed gives every live session as it is, whatever the subscriber believed before |
| `Announcements.AnnouncementsExact` | src/core/Session.cpp:112-143 | For every input and every id, the events about that id, in order and field by field: source and context when created, prompt, echo, counters, error and information when updated, result and error when closed |
| `Windows.RouteShows` | src/core/agent/EventRouter.hpp:17-33 | A session event put out is shown at once by every enrolled client that may answer: once, or twice in a row if it was also the caller that waited longest |
| `Windows.StepShows` | src/core/Agent.cpp:371-373 | A step shows the session events it puts out, in order, to an enrolled client that may answer all through it |
| `Prompts.HelperPromptIsShown` | src/core/PolkitListener.cpp:97-109 | After a prompt of a request's current helper the last thing an enrolled client that may answer shows is this id with exactly this prompt and echo flag, no error and no information |
| `Prompts.HelperTextIsShown` | src/core/PolkitListener.cpp:129-149 | After an error or information of the current helper the last thing shown is that text as the error or the information, prompt and echo unchanged |
| `Prompts.PolkitRequestIsShown` | src/core/PolkitListener.cpp:22-64 | An accepted polkit request is shown last, with its message, requestor, action and user |
| `Prompts.KeyringRequestIsShown` | src/core/managers/KeyringManager.cpp:11-53 | A keyring request is shown under its title, or its prompt if it has none, and the last thing shown is its message as the prompt, not echoed |
| `Prompts.PinentryRequestIsShown` | src/core/managers/PinentryManager.cpp:84-118 | An accepted pinentry request is shown last with its own prompt, or the default, not echoed, with its error unless a retry was reported with it, and with its counters; a first one creates the session with everything the request says |
| `PinentryTalk.TalkIsReadOff` | src/modes/pinentry.cpp:179-347 | Over every script: what the caller reads is, command by command, what that command and its reply call for, so GETPIN writes exactly the password that came back, if it is not empty, and CONFIRM says yes to a confirmation only; and the daemon is asked and told exactly what the settings made before each request call for |
| `PinentryTalk.RefusedYetSuccessful` | src/modes/pinentry.cpp:321-330 | The caller reads an error for its last request and the daemon is still told of a success iff that request is a GETPIN answered with an empty password and no error is set after it |
| `Secrets.DataLineIsTyped` | src/core/Agent.cpp:291-301 | For every script against the daemon, whatever else goes on: a data line written for a request carries exactly what a user interface that might answer typed, since the request was sent, for the cookie of the open flow |
| `Secrets.RepliesAreGiven` | src/core/Agent.cpp:291-301 | In every interleaving the reply on its way to the waiting process was given since it asked, by a user interface that might answer at that moment: what was typed, a yes, or a no, as the request called for |
| `Reactions.PasswordsOverRuns` | src/core/PolkitListener.cpp:204-213 | In every run the passwords handed to polkit helpers are, in order and one for one, the texts typed by a user interface that might answer for live polkit requests; each goes to the helper that was current then |
| `Reactions.PasswordsExact` | src/core/Agent.cpp:303-322 | For one input, in both directions, and exactly once |
| `Reactions.AllOrNothing` | src/core/Agent.cpp:272-369 | Where ids are not shared: who answers or cancels is told ok iff it may do so and there is a request to take it, and is otherwise refused with no other effect at all |
| `Reactions.ReactionsExact` | src/core/Agent.cpp:272-369 | For every input, the calls made to polkit and the messages written by the session side, in order and in literal texts |
| `Elections.ElectedAskedForMost` | src/core/agent/ProviderRegistry.cpp:22-105 | In every run from a daemon with nobody registered: whoever is elected asked, in its last registration, for a priority at least as high as everybody else registered, and among equals nobody has beaten later |
| `Elections.BeatingIsHeard` | src/core/agent/ProviderRegistry.cpp:54-105 | Whoever registered while connected and has kept beating since is outranked by nobody who asked for less |
| `Elections.KindsRank` | src/core/agent/ProviderRegistry.cpp:39-48 | Without a priority quickshell comes before every unknown kind and that before the fallback: the lower is never elected while the higher is registered |
| `Elections.RegistrationIsConfirmed` | src/core/Agent.cpp:229-239 | The reply to a registration names the id under which the socket is registered, whether it is elected, and the priority it asked for |
| `Elections.SenderIsAnswered` | src/core/Agent.cpp:187-270 | The replies to a heartbeat, a departure and a subscription: elected or not, ok, not registered, the number of sessions replayed |
| `Reelections.ReelectionsExact` | src/core/Agent.cpp:484-500 | Sessions cause a new election exactly when the last one goes, and then once; where keyring or pinentry ends it the election comes right before the closing event, where polkit does right after it |
| `Deliveries.QueueOverRuns` | src/core/agent/EventRouter.hpp:17-33 | In every run the daemon's queue is the queue of 256 after publishing every event put out, every call of `next`, and every disconnect, in the order in which they happened |
| `Deliveries.RouteSends` | src/core/agent/EventRouter.hpp:17-33 | Who is sent an event: a session event the elected provider if there is one, otherwise every connected subscriber; then the caller that waited longest, or else the queue, which keeps the last 256 |
| `RetryCounts.CountersAreRemembered` | src/core/managers/PinentryManager.cpp:267-301 | In every run a request that brings no counters is shown those last brought for its key, unless a flow with that key has ended since; then, and without a key, none of three |
| `Records.FlowsAreOnRecord` | src/core/managers/PinentryManager.cpp:56-121 | In every run an open flow is its last accepted request as it was sent, owned by its sender, under the last key its requests named, reported iff its owner has reported a retry since |
| `Records.KeyringIsOnRecord` | src/core/managers/KeyringManager.cpp:11-53 | In every run a pending keyring request is the last one sent for its id, field by field |
| `Records.AttemptsAreOnRecord` | src/core/PolkitListener.cpp:151-202 | In every run a polkit request under way has the token it was handed in with, the helper last made for it, and one failure for each helper replaced |
| `AgreementRuns.ClientAgreesWithDaemon` | src/fallback/FallbackClient.cpp:159-276 | In every run and for every split of the messages into handled and still on their way, an enrolled fallback client that handles what is on its way ends up active exactly when the registry authorises its socket |
| `Visibility.ElectedSeesEverySession` | src/fallback/FallbackClient.cpp:264-274 | From any point of any run on, for as long as an enrolled client may answer, it shows exactly the session events written to its socket, in order, however they reach it; for as long as it may not, it shows none |
| `Visibility.EveryOutputIsSeen` | src/core/Agent.cpp:371-373 | At every single output of every step, what is written to an enrolled client is shown if it may answer at that moment, and not otherwise |
| `Visibility.SubscriberSeesLiveSessions` | src/core/Agent.cpp:197-202 | An enrolled client that may answer and subscribes, as it does when it becomes active, shows the creation and the state of every live session, in the daemon's order |
| `AgreementRuns.RunKeepsNamed` | src/core/agent/ProviderRegistry.cpp:22-27 | In every run registered providers have distinct, non-empty ids, all of them given out by the daemon |
| `PinentryProtocol.ProcessesStayInStep` | src/modes/pinentry.cpp:73-159 | Every interleaving of the pinentry process with the rest of the daemon's inputs, requests and reports that do not get through, final reports that come late and retry reports that come late but before the next answer included, keeps the two in step: between commands a result is owed iff a flow is open, which the daemon then holds awaiting under this pid or not at all; a blocked process has its request pending or exactly one reply on its way |
| `PinentryProtocol.NothingIsLeftBehind` | src/modes/pinentry.cpp:116-133 | When the loop has returned, the daemon holds no flow and no session for any cookie used, other than those the process gave up on |
| `LostCookies.HeldForGoodExactly` | src/modes/pinentry.cpp:312-316 | For every interleaving and every cookie the process has left: the daemon holds its flow with neither a socket nor a timer to end it iff the flow is still open and an undelivered request for it followed a retry report that got through, at once or late |
| `LostCookies.LeftCookies` | src/modes/pinentry.cpp:377-383 | Whatever the daemon still holds for a cookie the process has left was given up on, has a live session under this pid, and is waiting for its timer, or pending from a socket that is not connected, or stranded; it is held for good iff it is stranded |
| `LostCookies.StrandedExactly` | src/modes/pinentry.cpp:312-316 | A cookie is dropped iff at some act a retry was reported for it and the next own act was its request, which was not delivered; it is stranded iff that report got through, before or after |
| `LostCookies.StrandedUntilCancelled` | src/core/managers/PinentryManager.cpp:185-190 | A stranded flow stays open through every further act of the two processes until a user interface that may answer cancels it |
| `LostCookies.LostRequestStrands` | src/core/ipc/IpcServer.cpp:125-128 | From every state in which a result is owed and the flow is held, a delivered retry and an undelivered request strand the flow, and the process returns |
| `LostCookies.StrandingHappens` | src/core/ipc/IpcServer.cpp:125-128 | A whole run, from the start of both processes, for every description: the process has returned and the daemon keeps flow and session, held for good |
| `PinentryScripts.StrandingIsAScript` | src/modes/pinentry.cpp:312-334 | That run is what the code does on GETPIN, SETDESC, GETPIN and the end of the stream |
| `PinentryScripts.ScriptsAreInterleavings` | src/modes/pinentry.cpp:179-347 | Whatever the script, the replies and everything else that happens: the acts of the code are a possible interleaving of acts of the protocol, and what remains to be done always comes to the same |
| `PinentryScripts.ScriptAgainstDaemon` | src/modes/pinentry.cpp:73-92 | Every script run against the daemon ends with the process as its own loop makes it of the script, calls included, and with nothing held for its cookies but those it gave up on |
| `PinentryScripts.ObeyingIsPossible` | src/modes/pinentry.cpp:179-347 | Wherever its code has got to, the process's next act meets the guards of the protocol: they ask nothing of the process that the code does not see to |
| `PinentryClient.SuccessIsInferred` | src/modes/pinentry.cpp:116-133 | Over every script a success is reported iff, where the loop ends, the last GETPIN or CONFIRM was granted and no error is set, whether or not the caller said anything about the outcome |
| `PinentryClient.SilenceIsSuccess` | src/modes/pinentry.cpp:117-124 | The literal script of one granted GETPIN and the end of the stream reports a request and then a success |
| `PinentryProtocol.FlowUnderStep` | src/core/managers/PinentryManager.cpp:56-226 | A flow with which nobody meddles is, at any input, left as it is, answered once to its own socket, withdrawn, timed out or dropped with its socket |
| `PinentryClient.RunNeverWithdraws` | src/modes/pinentry.cpp:116-133 | For every script the branches that report "cancelled" are never taken; only retries, successes and errors are reported, always for an open flow |
| `PinentryClient.RunSettles` | src/modes/pinentry.cpp:73-92 | For every script, when the loop returns no flow is open and no result is owed |
| `EventGrammar.EventsFormLifetimes` | src/core/agent/SessionStore.cpp:5-62 | In every run the events of every id form (created updated* closed)* exactly when no accepted request creates a session that is live; the ids inside a lifetime are then the live ones |
| `EventGrammar.FollowIsPerId` | src/core/Agent.cpp:371-373 | Checking all ids at once by one automaton is the same as checking the events of each id alone |
| `EventGrammar.ReusedCookieBreaksLifetimes` | src/core/managers/KeyringManager.cpp:32-52 | A concrete run in which a keyring cookie is asked for twice and its session is created twice |
| `Runs.PartitionOverRuns` | src/core/managers/KeyringManager.cpp:11-53 | In every run the live sessions split exactly by source into the polkit, keyring and pinentry tables as long as, and only as long as, no accepted request claims a live session of another source |
| `Runs.SharedIdBreaksPartition` | src/core/agent/SessionStore.cpp:5-10 | A concrete run in which a polkit request takes over the id of a pending keyring request and the split is lost |
| `Invariants.StepKeepsPartition` | src/core/managers/PinentryManager.cpp:76-106 | One input keeps the split exactly when it does not claim another source's live session |
| `Runs.RunKeepsSound` | src/core/Agent.cpp:151-369 | Every reachable state is sound: routing tables consistent, pinentry sessions owned, flows coherent, helpers distinct and attempts below the limit |
| `Endings.SuccessIsGranted` | src/core/managers/PinentryManager.cpp:180-183 | In every run a session ends with success iff at some step the owning pid reported it, polkit's current helper completed with authorisation gained, or the authorised provider answered a pending keyring request |
| `Endings.SuccessProvenance` | src/core/PolkitListener.cpp:111-127 | The same for one input, in both directions |
| `Endings.EndingsExact` | src/core/managers/PinentryManager.cpp:326-344 | An input ends a session with a result exactly in the listed cases; timeouts give errors, disconnects, cancels and used-up attempts give cancelled |
| `Endings.DisconnectEndsItsOwn` | src/core/managers/PinentryManager.cpp:254-265 | A disconnect ends exactly the live sessions pending from that socket, as cancelled; every other session stays live; when ids are shared between sources, a keyring request ends whatever session has its id and a pinentry request only one of its own |
| `Endings.DisconnectScrubs` | src/core/Agent.cpp:151-170 | After a disconnect the socket is in no subscriber list, registry entry, active pointer, waiter list or pending request |
| `Replies.RunTellsStory` | src/core/Agent.cpp:272-369 | In every run in which nobody takes the id over for another source, each answer goes once, to the socket whose request was accepted last and is still pending; nothing is answered twice or without a request |
| `Replies.RequestsAreConserved` | src/core/managers/PinentryManager.cpp:84-84 | Requests accepted, plus one if one was pending, equal those answered, lost and replaced, plus one if one is pending now |
| `Replies.RepliesExact` | src/core/Agent.cpp:280-301 | Only an authorised respond or cancel answers, and it answers exactly the pending request of that id |
| `Submissions.OkMeansOwner` | src/core/managers/PinentryManager.cpp:162-205 | A result is answered ok iff its kind is known, its id names a pinentry session and its sender owns the flow, although the owner check lets unowned cookies pass |
| `Submissions.AnswersAreTimely` | src/core/managers/PinentryManager.cpp:145-157 | In every run an answered flow is due within 10 seconds and is never overdue |
| `Submissions.AnsweredFlowIsSettled` | src/core/managers/PinentryManager.cpp:145-157 | Once more than 10 seconds have passed, the owner's next request or result, a cancel or the timer settled the flow |
| `Submissions.UnsettledFlowEndsInError` | src/core/managers/PinentryManager.cpp:149-157 | In every run in which no request, result or cancel settles an answered flow and nobody takes its id over, its session has ended with an error once the clock has passed its deadline |
| `Submissions.TimeoutEndsFlow` | src/core/managers/PinentryManager.cpp:149-151 | A result timer ends its flow, and its session unless another source has taken the id over, with an error, and answers nobody |
| `Submissions.AwaitingUntilSettled` | src/core/managers/PinentryManager.cpp:312-324 | Until it is settled an answered flow keeps its first deadline; a new deadline comes only from a new answer |
| `PolkitRuns.RequestsComplete` | src/core/PolkitListener.cpp:151-202 | In every run, for every AsyncResult: completions plus requests under way equal requests handed in plus those under way at the start, so none is completed twice or dropped |
| `PolkitRuns.AtMostThreeHelpers` | src/core/PolkitListener.cpp:160-177 | In every run a request under way has been given retryCount + 1 helper sessions, at most three |
| `PolkitRuns.HelperStarts` | src/core/PolkitListener.cpp:57-63 | A helper is started exactly when a request is accepted or a failed attempt may be repeated |
| `PolkitRuns.StaleHelpersAreIgnored` | src/core/PolkitListener.cpp:93-95 | A signal from a helper that is nobody's current one changes nothing and puts nothing out |
| `PolkitRuns.RetiredHelpersAreIgnored` | src/core/PolkitListener.cpp:93-95 | In every run in which helper sessions are never made twice, once a helper has been replaced or its request concluded no signal from it ever changes anything or puts anything out |
| `PolkitRuns.OnlyMadeBecomeCurrent` | src/core/PolkitListener.cpp:166-174 | A helper becomes current only when it is made; one that completes is nobody's afterwards |
| `Clocks.ElectedHasBeaten` | src/core/Agent.cpp:137-140 | In every run with ticks at most 5 seconds apart, the elected provider, like every registered one, last beat at most 20 seconds ago |
| `Clocks.BeatingIsEnough` | src/core/agent/ProviderRegistry.cpp:54-62 | In every run a connected provider that never lets 15 seconds pass without beating is never thrown out |
| `Providers.ElectionCorrect` | src/core/agent/ProviderRegistry.cpp:72-105 | Re-election removes exactly the disconnected and the stale, changes nobody else, elects a maximum by priority then heartbeat, and elects nobody iff nobody is left |
| `Providers.ElectionIgnoresHashOrder` | src/core/agent/ProviderRegistry.cpp:79-97 | When the maximum is unique the outcome does not depend on the order in which the hash is walked |
| `Runs.OneProviderMayAnswer` | src/core/agent/ProviderRegistry.cpp:111-121 | In every reachable state somebody is elected iff somebody is registered, and then exactly the elected socket may answer; otherwise every socket may |
| `EventQueues.QueueRefinesLog` | src/core/agent/EventQueue.hpp:23-29 | Over every life of the queue the log of published events is, in order, split into delivered, dropped and queued; the length stays within the capacity; between operations there are no events or no waiters |
| `EventQueues.CallersAreServedInOrder` | src/core/agent/EventQueue.hpp:23-29 | Over every life of the queue those served, in the order of their deliveries, followed by those still waiting are the callers in the order in which they asked, without those that were removed while they waited |
| `EventQueues.WaiterGetsNewEvent` | src/core/agent/EventRouter.hpp:31-32 | An event published while somebody waits goes to the longest waiter and is not dropped |
| `PromptModel.SummaryIsNotRepeated` | src/fallback/prompt/PromptModelBuilder.cpp:164-188 | Whatever summary, details and information were drafted, of the summary and the details shown neither begins the other in folded words |
| `PromptModel.WhatIsKept` | src/fallback/prompt/PromptModelBuilder.cpp:175-188 | A drafted summary stays; details of which neither the first line nor the whole begins it or is begun by it stay as they were; information that overlaps neither is added after them; and nothing else is shown |
| `PromptModel.PromotedKeepsWords` | src/fallback/prompt/PromptModelBuilder.cpp:164-174 | Without a summary the first line of the details becomes it, and every word stays, in order |
| `PromptModel.Reconcile` | src/fallback/prompt/PromptModelBuilder.cpp:164-188 | The builder's last steps compute the reconciliation; of summary and details neither begins the other in folded words |
| `PromptModel.InfoIsAppended` | src/fallback/prompt/PromptModelBuilder.cpp:186-188 | Information that overlaps neither summary nor details in folded words is appended on its own line, nothing else being lost but white space at the ends |
| `PromptModel.DeduplicatedIsApart` | src/fallback/prompt/PromptModelBuilder.cpp:175-185 | After the first detail line and then the whole details have been compared, neither of summary and details begins the other in folded words |
| `PromptText.CompareTextOfLines` | src/fallback/prompt/TextNormalize.cpp:22-30 | The compared text of two texts on separate lines is their compared texts with a space between, or the one that is not empty |
| `PromptText.CompareTextIsWords` | src/fallback/prompt/TextNormalize.cpp:22-30 | The compared text is the words of the text, folded, with one space between them: display clean-up before it has no influence |
| `PromptText.CompareTextIsIdempotent` | src/fallback/prompt/TextNormalize.cpp:22-30 | Comparing a compared text changes nothing more |
| `PromptText.DetailTextIsIdempotent` | src/fallback/prompt/TextNormalize.cpp:5-19 | Cleaning up a cleaned text changes nothing |
| `PromptText.DetailTextKeepsWords` | src/fallback/prompt/TextNormalize.cpp:5-19 | Cleaning up for display keeps exactly the words of the text, in order |
| `PromptText.KeptAreDistinct` | src/fallback/prompt/TextNormalize.cpp:63-86 | Of no two kept texts does one begin the other in folded words, and every value that is not blank is kept or overlaps a kept one |
| `PromptText.TextEquivalentIsOverlap` | src/fallback/prompt/TextNormalize.cpp:32-40 | Two texts are equivalent iff both have folded words and one of the two texts, as folded words with one space between, begins the other |
| `PromptText.FoldExact` | src/fallback/prompt/TextNormalize.cpp:22-30 | Comparison tells two characters apart unless they are the same, a letter and its capital, or both among the space and four punctuation marks |
| `PromptText.DetailTextLines` | src/fallback/prompt/TextNormalize.cpp:5-19 | The lines of a cleaned text are the lines of the text that have words, simplified; carriage returns end lines too |
| `PromptText.TrimmedExact` | src/fallback/prompt/TextNormalize.cpp:67-67 | Trimming takes the white space off both ends, all of it and nothing else |
| `PromptText.TrimmedComparesAlike` | src/fallback/prompt/TextNormalize.cpp:67-67 | White space at the ends does not matter for comparison |
| `PromptText.NormalizeDetailText` | src/fallback/prompt/TextNormalize.cpp:5-19 | The loop computes the cleaned text |
| `PromptText.NormalizeCompareText` | src/fallback/prompt/TextNormalize.cpp:22-30 | The replacements compute the compared text |
| `PromptText.UniqueJoined` | src/fallback/prompt/TextNormalize.cpp:63-86 | The nested loops keep exactly the non-blank values that repeat none kept before, joined by newlines |
| `Framing.ChunksDoNotMatter` | src/core/ipc/IpcServer.cpp:116-140 | For every split of a stream into reads: the connection survives iff no read takes the unfinished input over 65536 bytes, and then the messages handled are the trimmed non-empty lines of the whole stream and the residual is its newline-free tail |
| `Framing.MessagesArrive` | src/core/ipc/IpcServer.cpp:71-79 | Messages written with one newline each arrive one by one as they were written, in whatever pieces |
| `Framing.TooLongIsNotHandled` | src/core/ipc/IpcServer.cpp:124-128 | A message whose first 65537 bytes hold no newline is never handled, in whatever pieces it arrives; the connection is dropped as soon as the limit is passed |
| `Framing.ResidualHarmlessExactly` | src/fallback/FallbackClient.cpp:28-67 | What a lost connection left in the fallback client's buffer does no harm to the next connection, whatever is sent on it, iff it is blank |
| `Framing.ResidualSpoilsFirst` | src/fallback/FallbackClient.cpp:46-67 | Any other residual, glued to any first message, makes that one message a different, longer one |
| `Framing.CutIsExact` | src/core/ipc/IpcServer.cpp:128-131 | Cutting loses nothing and cuts at every newline: the lines, each with its newline, and the tail make up the stream, and hold no other newline |
| `Framing.TrimmedExact` | src/core/ipc/IpcServer.cpp:129-129 | Trimming takes the blanks off both ends, all of them and nothing else |
| `Framing.CutResumes` | src/core/ipc/IpcServer.cpp:128-131 | Cutting a stream can stop anywhere and go on from the tail |
| `Framing.IpcServer.OnReadyRead` | src/core/ipc/IpcServer.cpp:116-140 | One read handles, in order, the finished lines of residual plus chunk, or drops the connection over the limit; other sockets' buffers stay as they are |
| `Framing.IpcServer.OnNewConnection` | src/core/ipc/IpcServer.cpp:101-114 | A new connection starts with an empty buffer of its own |
| `Framing.IpcServer.OnDisconnected` | src/core/ipc/IpcServer.cpp:142-148 | A disconnect forgets that socket's buffer only |
| `Assuan.WrittenRoundTripExact` | src/modes/pinentry.cpp:21-54 | Decoding what the program writes gives the text back iff it contains no '%', CR or LF |
| `Assuan.WrittenRoundTrip` | src/modes/pinentry.cpp:41-54 | In general it gives the text with one more '%' before each such character, because the format string's "%%" is not collapsed |
| `Assuan.PercentComesBackDoubled` | src/modes/pinentry.cpp:48-48 | The concrete text "%" comes back as "%%" |
| `Assuan.SpecifiedRoundTrip` | src/modes/pinentry.cpp:21-39 | With the single-percent escape of the protocol decoding undoes encoding for every text |
| `Assuan.HexIsRead` | src/modes/pinentry.cpp:21-39 | Every escape of two hexadecimal digits, in either case, is read as the character of that code |
| `Assuan.PlainIsRead` | src/modes/pinentry.cpp:21-39 | A text without a percent sign is read as it is |
| `Assuan.EncodedIsOneLine` | src/modes/pinentry.cpp:174-177 | Encoded data contains no CR and no LF, in either style |
| `Assuan.EncodedIsInjective` | src/modes/pinentry.cpp:41-54 | Different texts are written differently, in either style |
| `Assuan.AssuanDecode` | src/modes/pinentry.cpp:21-39 | The index loop computes the decoded text |
| `Assuan.AssuanEncode` | src/modes/pinentry.cpp:41-54 | The range loop computes the encoded text, as the program writes it |
| `Agents.Agent.HandleKeyringRequest` | src/core/Agent.cpp:213-216 | One step of the daemon: a keyring request is filed and shown |
| `Agents.Agent.HandlePinentryRequest` | src/core/Agent.cpp:218-221 | One step of the daemon: a pinentry request opens or continues a flow |
| `Agents.Agent.HandlePinentryResult` | src/core/Agent.cpp:223-227 | One step of the daemon: a result is accepted or refused and answered |
| `Agents.Agent.OnResultTimeout` | src/core/managers/PinentryManager.cpp:149-157 | A running timer's firing is one timeout step of the cookie it runs for, and it runs no more |
| `Agents.Agent.HandleRespond` | src/core/Agent.cpp:272-322 | One step of the daemon, for every sender and id: keyring, pending flow, known flow, unknown, foreign and polkit sessions in this order |
| `Agents.Agent.HandleCancel` | src/core/Agent.cpp:324-369 | One step of the daemon, in the same order of cases |
| `Agents.Agent.InitiateAuthentication` | src/core/Agent.cpp:375-404 | One step of the daemon: a polkit request is accepted, shown and started, or completed at once with an error |
| `Agents.Agent.OnHelperPrompt` | src/core/Agent.cpp:406-414 | One step of the daemon: the current helper's prompt is shown |
| `Agents.Agent.OnHelperDone` | src/core/Agent.cpp:415-429 | One step of the daemon: success, another attempt, or the end of the request |
| `Agents.Agent.OnHelperError` | src/core/Agent.cpp:430-437 | One step of the daemon: the current helper's error is shown |
| `Agents.Agent.OnHelperInfo` | src/core/Agent.cpp:438-445 | One step of the daemon: the current helper's information is shown |
| `Agents.Agent.CancelAuthentication` | src/core/PolkitListener.cpp:84-91 | One step of the daemon: every polkit request ends, in any hash order |
| `Agents.Agent.HandleNext` | src/core/Agent.cpp:178-185 | One step of the daemon: the oldest queued event is handed out, or the socket waits |
| `Agents.Agent.HandleSubscribe` | src/core/Agent.cpp:187-211 | One step of the daemon: a subscriber is listed once and, unless registered and not elected, shown every live session, in any hash order |
| `Agents.Agent.HandleUIRegister` | src/core/Agent.cpp:229-239 | One step of the daemon: registration, election, reply and announcement, in this order |
| `Agents.Agent.HandleUIHeartbeat` | src/core/Agent.cpp:240-253 | One step of the daemon: a heartbeat is recorded and somebody elected, or the sender told it is not registered |
| `Agents.Agent.HandleUIUnregister` | src/core/Agent.cpp:254-270 | One step of the daemon: the provider leaves and somebody else is elected |
| `Agents.Agent.PruneStaleProviders` | src/core/Agent.cpp:512-519 | One step of the daemon: the maintenance tick re-elects |
| `Agents.Agent.OnClientDisconnected` | src/core/Agent.cpp:151-170 | One step of the daemon: routing tables first, then keyring requests, then pinentry flows |
| `Services.Hub.EmitProviderStatus` | src/core/Agent.cpp:520-542 | Every connected registered socket and every other connected subscriber gets the status once, in this order |
| `Services.Hub.Route` | src/core/agent/EventRouter.hpp:17-33 | A session event goes to the elected provider if there is one, any other to the subscribers; then it is queued and waiters are served |
| `Services.Hub.CreateSession` | src/core/Agent.cpp:449-454 | The session is stored under its id, replacing whatever was there, and announced |
| `Services.Hub.UpdateSessionPrompt` | src/core/Agent.cpp:456-463 | A known session's prompt is replaced and announced; an unknown id has no effect |
| `Services.Hub.UpdateSessionError` | src/core/Agent.cpp:465-472 | A known session's error is replaced and announced; an unknown id has no effect |
| `Services.Hub.OnSessionInfo` | src/core/Agent.cpp:438-445 | A known session's information is replaced and announced; an unknown id has no effect |
| `Services.Hub.UpdateSessionPinentryRetry` | src/core/Agent.cpp:474-482 | A pinentry session's counters change without an announcement; other sessions stay as they are |
| `Services.Hub.CloseSession` | src/core/Agent.cpp:484-500 | A known session is removed; if it was the last one the provider is re-elected before the event goes out |
| `Services.Hub.OnSessionComplete` | src/core/Agent.cpp:415-429 | A known session is removed and the event goes out before any re-election; success gives success, anything else cancelled |
| `Services.Hub.ServeRegister` | src/core/Agent.cpp:229-239 | Registers, elects, replies and announces if the elected socket changed or is the registering one |
| `Services.Hub.ServeDeparture` | src/core/Agent.cpp:151-163 | Takes the socket out of subscribers, registry and waiters, re-electing if it was registered |
| `Routing.LeaveScrubs` | src/core/Agent.cpp:151-163 | A socket that leaves is in no routing table any more, the tables stay consistent, other subscribers stay |
| `Routing.EffectsKeepValid` | src/core/Agent.cpp:484-500 | Whatever a handler puts out, the registry stays settled, subscribers stay distinct and the same, and nobody gets registered |
| `Providers.ProviderRegistry.RecomputeActiveProvider` | src/core/agent/ProviderRegistry.cpp:72-105 | The erase-while-walking loop elects as specified and returns true iff the active socket changed |
| `Providers.ProviderRegistry.RegisterProvider` | src/core/agent/ProviderRegistry.cpp:22-52 | A socket keeps its id when it registers again; the name defaults to "unknown", the kind to the name, the priority to 100 for quickshell, 10 for fallback and 50 for others; the heartbeat is now |
| `Providers.ProviderRegistry.Heartbeat` | src/core/agent/ProviderRegistry.cpp:54-62 | A registered socket's heartbeat is now; others are refused |
| `Providers.ProviderRegistry.UnregisterProvider` | src/core/agent/ProviderRegistry.cpp:64-70 | Removes exactly this socket and says whether it was there; the active pointer is left for the re-election |
| `EventQueues.EventQueue.Enqueue` | src/core/agent/EventQueue.cpp:19-24 | Appends the event; at capacity the oldest goes first |
| `EventQueues.EventQueue.TakeNext` | src/core/agent/EventQueue.cpp:15-17 | Takes the oldest event, if any |
| `EventQueues.EventQueue.RemoveWaiter` | src/core/agent/EventQueue.cpp:30-32 | Removes every occurrence of the socket, keeping the order of the others |
| `EventQueues.EventQueue.DrainToWaiters` | src/core/agent/EventQueue.hpp:23-29 | Pairs the longest waiters with the oldest events until one side is empty |
| `Sessions.Session.SetPrompt` | src/core/Session.cpp:7-15 | Prompt and echo are replaced, information is cleared, the error only if asked |
| `Sessions.Session.SetPinentryRetry` | src/core/Session.cpp:25-32 | Counters of pinentry sessions are replaced within bounds; others stay |
| `Sessions.Session.Close` | src/core/Session.cpp:34-40 | The session is closed with the result; success clears the error |
| `Sessions.Session.ToUpdatedEvent` | src/core/Session.cpp:116-133 | The id, prompt, echo flag, error and information as the fields are, and the counters for pinentry only |
| `Sessions.SessionStore.CreateSession` | src/core/agent/SessionStore.cpp:5-10 | A new session replaces whatever the id named; no other session changes |
| `Sessions.SessionStore.UpdatePrompt` | src/core/agent/SessionStore.cpp:12-20 | Changes exactly the named session's prompt and returns its event, or nothing for an unknown id |
| `Sessions.SessionStore.UpdateError` | src/core/agent/SessionStore.cpp:22-30 | Changes exactly the named session's error and returns its event, or nothing for an unknown id |
| `Sessions.SessionStore.UpdateInfo` | src/core/agent/SessionStore.cpp:32-40 | Changes exactly the named session's information and returns its event, or nothing for an unknown id |
| `Sessions.SessionStore.UpdatePinentryRetry` | src/core/agent/SessionStore.cpp:42-50 | Changes exactly a pinentry session's counters and says whether there was one |
| `Sessions.SessionStore.CloseSession` | src/core/agent/SessionStore.cpp:52-62 | Removes exactly the named session and returns its closing event, or nothing for an unknown id |
| `Keyring.KeyringManager.HandleRequest` | src/core/managers/KeyringManager.cpp:11-53 | Files the request under its cookie or a made one, replacing any pending one, and creates and prompts its session |
| `Keyring.KeyringManager.HandleResponse` | src/core/managers/KeyringManager.cpp:55-67 | A pending request is removed, its session succeeds and the secret is returned; an unknown cookie changes nothing |
| `Keyring.KeyringManager.HandleCancel` | src/core/managers/KeyringManager.cpp:69-81 | A pending request is removed and its session cancelled; an unknown cookie changes nothing |
| `Keyring.KeyringManager.CleanupForSocket` | src/core/managers/KeyringManager.cpp:92-104 | The erase-while-walking loop settles the socket's requests in the order they are met |
| `Summaries.KeyringCleanupGist` | src/core/managers/KeyringManager.cpp:92-104 | Exactly the requests of that socket go, their sessions end cancelled, all other requests stay unchanged |
| `Pinentry.PinentryManager.HandleRequest` | src/core/managers/PinentryManager.cpp:56-121 | On six tables and the running timers: the one-state-per-flow specification of a request; foreign pids are refused without effect |
| `Pinentry.PinentryManager.HandleResponse` | src/core/managers/PinentryManager.cpp:123-160 | A pending flow becomes awaiting with a deadline 10 seconds away and its requester's reply is returned; otherwise nothing changes |
| `Pinentry.PinentryManager.HandleResult` | src/core/managers/PinentryManager.cpp:162-205 | Refusals change nothing; retry keeps the flow, the final results close it |
| `Pinentry.PinentryManager.HandleCancel` | src/core/managers/PinentryManager.cpp:207-226 | A known flow or session is closed as cancelled; anything else is refused |
| `Pinentry.PinentryManager.CleanupForSocket` | src/core/managers/PinentryManager.cpp:254-265 | The flows pending from the socket, and only those, are closed one after another |
| `Pinentry.PinentryManager.CloseFlow` | src/core/managers/PinentryManager.cpp:326-344 | The flow leaves every table, its timer stops, its retry record goes, its session ends; sessions of other sources are left alone |
| `Pinentry.PinentryManager.HandleTimeout` | src/core/managers/PinentryManager.cpp:149-151 | A running timer belongs to an awaiting flow; firing it closes that flow with an error |
| `Pinentry.PinentryManager.ResolveRetry` | src/core/managers/PinentryManager.cpp:267-301 | Counters come from the description, else from the record of the key, within bounds, and the record is kept up to date |
| `Pinentry.PinentryManager.StateIsSound` | src/core/managers/PinentryManager.cpp:56-344 | When the tables fit, every pinentry session has an owner, a flow neither pending nor awaiting has been reported for retry, and requests carry their flow's cookie and owner |
| `Pinentry.TimersMatchAnswers` | src/core/managers/PinentryManager.cpp:145-157 | Running timers and awaiting flows are in bijection, each timer carrying the deadline of the flow's current submission |
| `Pinentry.StoppedTimersStayStopped` | src/core/managers/PinentryManager.cpp:312-324 | However the tables go on, through every sequence of requests, answers, retries and closings, they fit, and a timer that was stopped or has fired never runs again, so it cannot close a later lifetime of its cookie |
| `Pinentry.FilingFits` | src/core/managers/PinentryManager.cpp:70-84 | Filing a request keeps the tables fitting and replaces exactly this flow's state |
| `Pinentry.SubmittingFits` | src/core/managers/PinentryManager.cpp:132-157 | Moving a flow from pending to awaiting keeps the tables fitting and changes no other flow |
| `Pinentry.NotingFits` | src/core/managers/PinentryManager.cpp:185-189 | Noting a retry keeps the tables fitting; an awaiting flow becomes retrying, a pending one stays pending |
| `Pinentry.ForgettingFits` | src/core/managers/PinentryManager.cpp:335-340 | Forgetting a flow keeps the tables fitting and removes exactly this flow |
| `Invariants.StepKeepsOwned` | src/core/managers/PinentryManager.cpp:303-310 | Every input keeps every pinentry session owned |
| `Invariants.StepTables` | src/core/Agent.cpp:151-369 | The three tables after every input, as a function of the tables before it |
| `Invariants.SourcesAfterStep` | src/core/agent/SessionStore.cpp:5-62 | The live sessions and their sources after every input |
| `Summaries.StepGist` | src/core/Agent.cpp:151-369 | Which sessions each input opens and ends, which requests it answers, which helpers it starts and which results it completes, in order, by a second definition that knows nothing of prompts and events |
| `PolkitAgent.PolkitListener.InitiateAuthentication` | src/core/PolkitListener.cpp:22-64 | A duplicate cookie or a request without identities is completed at once with an error; otherwise the state is filed in both maps, shown and started |
| `PolkitAgent.PolkitListener.OnSessionCompleted` | src/core/PolkitListener.cpp:111-127 | Only the current helper's completion counts: success concludes, failure is shown and leads to another attempt or the end |
| `PolkitAgent.PolkitListener.FinishAuth` | src/core/PolkitListener.cpp:151-202 | Keeps the reverse map exactly the map from current helpers to live states, with at most three attempts |
| `PolkitAgent.PolkitListener.ReplaceSession` | src/core/PolkitListener.cpp:166-174 | The failed helper leaves the reverse map, the next one enters it, the count goes up by one |
| `PolkitAgent.PolkitListener.CancelPending` | src/core/PolkitListener.cpp:215-228 | A known request's helper is cancelled and the request concluded; an unknown cookie has no effect |
| `PolkitAgent.PolkitListener.CancelAuthentication` | src/core/PolkitListener.cpp:84-91 | Every request is concluded as not authorised, whatever the hash order |
| `PolkitAgent.PolkitListener.SubmitPassword` | src/core/PolkitListener.cpp:204-213 | The text goes, as it is, to the request's current helper and nowhere else; an unknown cookie has no effect |
| `PolkitAgent.PolkitListener.OnSessionRequest` | src/core/PolkitListener.cpp:97-109 | Only the current helper's prompt is shown, and it clears the error |
| `PolkitAgent.PolkitListener.OnSessionError` | src/core/PolkitListener.cpp:129-139 | Only the current helper's error is shown |
| `PolkitAgent.PolkitListener.OnSessionInfo` | src/core/PolkitListener.cpp:141-149 | Only the current helper's information is shown |
| `PolkitAgent.PolkitListener.StateIsSound` | src/core/PolkitListener.hpp:54-61 | No helper belongs to two live requests, and every live request has failed fewer than three times |
| `Fallback.FallbackClient.HandleMessage` | src/fallback/FallbackClient.cpp:191-276 | The client's reaction to every message, including statuses that arrive before the registration |
| `Fallback.FallbackClient.ApplyPendingProviderState` | src/fallback/FallbackClient.cpp:173-189 | A remembered status is applied once the id is known, then forgotten |
| `Fallback.FallbackClient.SetProviderActive` | src/fallback/FallbackClient.cpp:159-171 | Becoming active while connected and registered asks for the live sessions again; no change, no effect |
| `Fallback.FallbackClient.OnReadyRead` | src/fallback/FallbackClient.cpp:46-67 | One read finds, in order, the messages of buffer plus chunk, without a limit, and keeps the unfinished line |
| `Fallback.FallbackClient.OnConnected` | src/fallback/FallbackClient.cpp:11-26 | A new connection forgets everything known of the old one but its unfinished line, resets the reconnect delay, registers and subscribes |
| `Fallback.FallbackClient.OnDisconnected` | src/fallback/FallbackClient.cpp:28-44 | A lost connection is forgotten, but for its unfinished line, and the reconnect timer runs, its delay doubling within 200 to 4000 ms |
| `Fallback.FallbackClient.OnError` | src/fallback/FallbackClient.cpp:69-75 | A socket error while not connected leaves the reconnect timer running, its delay within bounds |
| `Fallback.FallbackClient.OnWatchdog` | src/fallback/FallbackClient.cpp:79-93 | Whatever the daemon has not confirmed is asked for again |
| `Fallback.FallbackClient.OnHeartbeat` | src/fallback/FallbackClient.cpp:95-104 | A heartbeat is sent when connected and registered, and only then |
| `Fallback.AsksOncePerActivation` | src/fallback/FallbackClient.cpp:159-171 | Over every channel: a client that has just connected registers with priority 10 and subscribes, and then subscribes once more each time it becomes active while registered, and never otherwise |
| `Fallback.StatusMayComeFirst` | src/fallback/FallbackClient.cpp:173-189 | A status that comes before the reply to the registration is applied as if it had come after it, unless the reply itself says who is elected |
| `Agreement.RegisteringAgrees` | src/core/Agent.cpp:229-239 | Handling a registration makes client and daemon agree, whatever came before |
| `Agreement.AnnounceAgrees` | src/core/Agent.cpp:520-542 | An announcement that reaches the client makes them agree, whatever it believed before |
| `Agreement.StepIsProper` | src/core/Agent.cpp:276-279 | Session handlers send no registrations or announcements, and tell nobody "not active" but an unauthorised sender, and then nothing else |
| `AgreementRuns.RoutedEventIsShown` | src/fallback/FallbackClient.cpp:264-274 | A session event routed to an agreeing client is added to what it shows, exactly once |
| `PinentryClient.PinentrySession.Run` | src/modes/pinentry.cpp:73-92 | The loop behaves as specified for every script, and at every boundary a result is owed iff a flow is open |
| `PinentryClient.PinentrySession.HandleCommand` | src/modes/pinentry.cpp:179-310 | The reaction to every command, and whether the loop goes on |
| `PinentryClient.PinentrySession.HandleGetPin` | src/modes/pinentry.cpp:312-334 | A retry is announced before the next request when a result is owed; the password that came back is written, then ok, or else an error; the error setting is cleared |
| `PinentryClient.PinentrySession.HandleConfirm` | src/modes/pinentry.cpp:336-347 | Asks for a confirmation without announcing a retry; ok is written iff it was confirmed |
| `PinentryClient.PinentrySession.RequestFromDaemon` | src/modes/pinentry.cpp:356-436 | Only the hoped-for reply opens the wait for a result; silence, errors and refusals end the flow |
| `PinentryClient.PinentrySession.ReportTerminalResult` | src/modes/pinentry.cpp:135-159 | Reports for an open flow only; a retry keeps the cookie, anything else forgets it |
| `PinentryProtocol.AskKeepsSim` | src/core/managers/PinentryManager.cpp:56-121 | The process's own request, first or repeated, leaves the flow pending from its socket |
| `PinentryProtocol.LostAskKeepsSim` | src/modes/pinentry.cpp:377-383 | A request that does not get through leaves the daemon as it was and the process without its cookie; if a retry had got through before, the flow is stranded |
| `PinentryProtocol.ReportKeepsSim` | src/core/managers/PinentryManager.cpp:162-205 | The process's own report, delivered or lost, keeps the two in step |
| `PinentryProtocol.LateKeepsSim` | src/core/managers/PinentryManager.cpp:162-205 | A final report that arrives after the process stopped waiting for its answer ends what was left of its flow and disturbs no other |
| `PinentryProtocol.LateRetryKeepsSim` | src/core/managers/PinentryManager.cpp:185-190 | A retry report that arrives late, but before the next answer, leaves a pending request pending and any other flow as if it had been reported at once |

## Left out

- Qt widgets, sockets, JSON parsing, D-Bus, polkit-qt, GCR and the keyring prompter: foreign code. Messages are a datatype, signals are inputs.
- Details carried by messages but used by no decision: name, kind and priority in `ui.active`, the details object of polkit requests, titles of pinentry requests.
- `ping`, bootstrap state, logging, command-line parsing, memory wiping, `MessageRouter`: nothing to prove.
- Launching the fallback process when nobody is elected: an operating-system effect that changes no state here.
- The `deferred` parameter of `closeSession`: no caller uses it.
- Reading `/proc` and resolving requestors: the requestor is an opaque value that comes with the request.
- Regular expressions: the retry counters in a description are an optional pair that comes with the request.
- The result word of `pinentry_result` and its lower-casing: a `Verdict` that comes with the message.
- A process that dies between two calls: the acts of `PinentryProtocol` end with the loop. After an announced retry its flow would stay open until it is cancelled, as with a lost request.
- That retry records do not outlive their flow: a flow that changes its key leaves the old key's record behind.
- The unused copy of the socket inside `AwaitingOutcome`: only the request's own socket field is followed.
- Real time between a timer's deadline and its firing: timers fire on time here.
- The unfinished line of a lost connection in the agreement theorems: they are about messages that arrive as sent; `Framing.ResidualHarmlessExactly` says when they do.
- How summary and details are first drafted from intents and pattern captures: the reconciliation is proved for every draft.
- Unicode case folding and normalisation: lower-casing is per character and covers the ASCII letters; characters are code points, not UTF-16 units.
- Pinentry.PinentryManager.HandleTimeout: a timer is known by a number instead of a QTimer object.
- PinentryProtocol.NothingIsLeftBehind: says nothing of the cookies the process gave up on; `LostCookies.LeftCookies` says what is held for those.
- PinentryProtocol.ProcessesStayInStep: a report of a retry that the daemon handles only after the user's next answer is not an act; it would leave an answered flow without its timer.
