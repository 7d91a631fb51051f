/** Where every event goes, and the `next` queue inside the whole daemon. */
module Deliveries {
  import opened Basics
  import opened Messages
  import opened Providers
  import opened EventQueues
  import opened Routing
  import opened Services
  import opened Daemon
  import opened Runs

  // ----- One event -----

  /** One copy of an event for each of the sockets that is connected, in order. */
  function Copies(to: seq<Socket>, e: Event, connected: set<Socket>): seq<Sent> {
    if to == [] then []
    else
      var last := to[|to| - 1];
      Copies(to[..|to| - 1], e, connected) + if last in connected then [Sent(last, SessionEvent(e))] else []
  }

  lemma {:induction false} CopiesFrom(to: seq<Socket>, e: Event, connected: set<Socket>)
    requires to != []
    ensures Copies(to, e, connected) ==
            (if to[0] in connected then [Sent(to[0], SessionEvent(e))] else []) + Copies(to[1..], e, connected)
  {
    if |to| == 1 {
      assert to[..0] == [] && to[1..] == [];
    } else {
      var n := |to| - 1;
      CopiesFrom(to[..n], e, connected);
      assert to[..n][1..] == to[1..][..n - 1];
    }
  }

  lemma {:induction false} PostEachCopies(r: Router, to: seq<Socket>, e: Event)
    ensures r.PostEach(to, SessionEvent(e)).sent == r.sent + Copies(to, e, r.connected)
    decreases |to|
  {
    hide Copies;
    if to == [] {
      NoCopies(e, r.connected);
    } else {
      CopiesFrom(to, e, r.connected);
      PostEachCopies(r.Post(to[0], SessionEvent(e)), to[1..], e);
    }
  }

  lemma NoCopies(e: Event, connected: set<Socket>)
    ensures Copies([], e, connected) == []
  {
  }

  /** Where an event goes: a session event to the elected provider if there is one, any other event, and
      every event while nobody is elected, to each subscriber; then to the caller of `next` that has waited
      longest, or, if nobody waits, into the queue, which keeps the last 256. */
  lemma RouteSends(r: Router, e: Event)
    requires r.Valid()
    ensures var to := if !e.Notice? && r.registry.active.Some? then [r.registry.active.value] else r.subscribers;
            var q := r.queue;
            && r.Route(e).sent ==
               r.sent + Copies(to, e, r.connected)
               + (if q.waiters == [] then [] else Copies([q.waiters[0]], e, r.connected))
            && r.Route(e).queue ==
               if q.waiters != [] then Queue([], q.waiters[1..])
               else Queue((if |q.events| < 256 then q.events else q.events[1..]) + [e], [])
  {
    hide Copies;
    var (q, ds) := r.queue.Publish(QUEUE_CAPACITY, e);
    var posted := r.PostEach(r.Targets(e), SessionEvent(e)).(queue := q);
    PostEachFrame(r, r.Targets(e), SessionEvent(e));
    PostEachCopies(r, r.Targets(e), e);
    DeliverFrame(posted, ds);
    if r.queue.waiters == [] {
      assert ds == [];
      assert posted.sent + [] == posted.sent;
    } else {
      var w := r.queue.waiters[0];
      var p := r.queue.Enqueue(QUEUE_CAPACITY, e);
      assert p.events == [e] && ds == [(w, e)];
      assert [(w, e)][1..] == [];
      assert posted.Deliver(ds) == posted.Post(w, SessionEvent(e)).Deliver([]);
      CopiesFrom([w], e, r.connected);
      assert [w][1..] == [];
      NoCopies(e, r.connected);
    }
  }

  // ----- The queue over runs -----

  function Played(q: Queue, ops: seq<Op>): Queue {
    if ops == [] then q else EventQueues.Step(Played(q, ops[..|ops| - 1]), 256, ops[|ops| - 1]).0
  }

  lemma {:induction false} PlayedAppend(q: Queue, a: seq<Op>, b: seq<Op>)
    ensures Played(q, a + b) == Played(Played(q, a), b)
  {
    hide EventQueues.Step;
    if b == [] {
      assert a + b == a;
    } else {
      assert (a + b)[..|a + b| - 1] == a + b[..|b| - 1];
      PlayedAppend(q, a, b[..|b| - 1]);
    }
  }

  lemma {:induction false} PlayedIsRun(ops: seq<Op>)
    ensures Played(Queue([], []), ops) == EventQueues.Run(256, ops).0
  {
    hide EventQueues.Step;
    if ops != [] {
      PlayedIsRun(ops[..|ops| - 1]);
    }
  }

  /** Everything put out is published, in order. */
  function Published(out: seq<Effect>): seq<Op> {
    if out == [] then []
    else
      var e := out[|out| - 1];
      Published(out[..|out| - 1]) + if e.Emit? then [Op.Publish(e.event)] else []
  }

  /** What an input does to the queue. */
  ghost function OpsOf(d: System, i: Input): seq<Op> {
    (if i.Next? then [Op.Ask(i.socket)] else if i.Disconnected? then [Op.Forget(i.socket)] else [])
    + Published(d.Outputs(i).out)
  }

  ghost function OpsIn(d: System, run: seq<Input>): seq<Op> {
    if run == [] then [] else OpsIn(d, run[..|run| - 1]) + OpsOf(After(d, run[..|run| - 1]), run[|run| - 1])
  }

  lemma PlayOne(q: Queue, op: Op)
    ensures Played(q, [op]) == EventQueues.Step(q, 256, op).0 && Played(q, []) == q
  {
    assert [op][..0] == [];
  }

  lemma RoutePublishes(r: Router, e: Event)
    ensures r.Route(e).queue == EventQueues.Step(r.queue, 256, Op.Publish(e)).0
  {
    var (q, ds) := r.queue.Publish(QUEUE_CAPACITY, e);
    DeliverFrame(r.PostEach(r.Targets(e), SessionEvent(e)).(queue := q), ds);
  }

  lemma {:induction false} EffectsPublish(r: Router, out: seq<Effect>)
    requires r.Valid()
    ensures r.ApplyAll(out).queue == Played(r.queue, Published(out))
  {
    hide Router.Valid, Router.Recheck, Router.Route, EventQueues.Step;
    if out != [] {
      var n := |out| - 1;
      var r' := r.ApplyAll(out[..n]);
      EffectsPublish(r, out[..n]);
      EffectsKeepValid(r, out[..n]);
      assert !out[n].Emit? ==> Published(out) == Published(out[..n]);
      match out[n]
      case Emit(e) =>
        RoutePublishes(r', e);
        PlayedAppend(r.queue, Published(out[..n]), [Op.Publish(e)]);
        PlayOne(r'.queue, Op.Publish(e));
      case Recheck => TickLeavesQueue(r');
      case _ =>
    }
  }

  lemma TickLeavesQueue(r: Router)
    requires r.Valid()
    ensures r.Recheck().queue == r.queue
  {
    RecheckKeepsValid(r);
  }

  lemma RegistryLeavesQueue(r: Router, i: Input)
    requires r.Valid() && (i.Heartbeat? || i.Unregister? || i.Disconnected?)
    ensures i.Heartbeat? ==> r.Heartbeat(i.socket).queue == r.queue
    ensures i.Unregister? ==> r.Unregister(i.socket).queue == r.queue
    ensures i.Disconnected? ==> r.Leave(i.socket).queue == r.queue.Forget(i.socket)
  {
    hide Router.Recheck;
    var s := i.socket;
    if s in r.registry.providers {
      if i.Heartbeat? {
        assert r.registry.Beat(s, r.now).providers.Keys == r.registry.providers.Keys;
        RecheckKeepsValid(r.(registry := r.registry.Beat(s, r.now)));
      } else {
        RemoveKeepsValid(r.registry, s);
        WithoutFirstGone(r.subscribers, s);
        RecheckKeepsValid(r.(registry := r.registry.Remove(s)));
        RecheckKeepsValid(r.(subscribers := WithoutFirst(r.subscribers, s), registry := r.registry.Remove(s)));
      }
    }
  }

  lemma RoutedPlays(d: System, i: Input)
    requires d.routes.Valid() && d.Enabled(i)
    ensures d.Routed(i).queue ==
            if i.Next? then EventQueues.Step(d.routes.queue, 256, Op.Ask(i.socket)).0
            else if i.Disconnected? then EventQueues.Step(d.routes.queue, 256, Op.Forget(i.socket)).0
            else d.routes.queue
  {
    hide Router.Register, Router.Heartbeat, Router.Unregister, Router.Leave, Router.Recheck, System.Enabled;
    var r := d.routes;
    match i
    case Next(s) =>
      var (q, ds) := r.queue.Ask(s);
      DeliverFrame(r.(queue := q), ds);
    case Subscribe(s, order) =>
      ReplayFrame(r.(subscribers := if s in r.subscribers then r.subscribers else r.subscribers + [s]), s,
                  ReplayOf(d.core.live, order));
    case Register(s, reg, uuid, placed) => RegisterElects(r, s, reg, uuid, placed);
    case Heartbeat(_) => RegistryLeavesQueue(r, i);
    case Unregister(_) => RegistryLeavesQueue(r, i);
    case Disconnected(_, _, _) => RegistryLeavesQueue(r, i);
    case Tick => TickLeavesQueue(r);
    case _ =>
  }

  /** In every run from an empty queue, the queue of the daemon is the queue of 256 after: every event put
      out has been published, every caller of `next` has asked, and every socket that went away has been
      forgotten, in the order in which it happened. */
  lemma {:induction false} QueueOverRuns(d: System, run: seq<Input>)
    requires Sound(d) && d.routes.queue == Queue([], []) && Admissible(d, run)
    ensures After(d, run).routes.queue == EventQueues.Run(256, OpsIn(d, run)).0
  {
    hide Sound, Core.Step, System.Routed, System.Enabled, Router.ApplyAll, Router.Valid, EventQueues.Step;
    if run != [] {
      var rest, i := run[..|run| - 1], run[|run| - 1];
      var before := After(d, rest);
      QueueOverRuns(d, rest);
      RunKeepsSound(d, rest);
      RoutesOfSound(before);
      RoutedPlays(before, i);
      RoutedKeepsValid(before, i);
      EffectsPublish(before.Routed(i), before.Outputs(i).out);
      var asked := if i.Next? then [Op.Ask(i.socket)] else if i.Disconnected? then [Op.Forget(i.socket)] else [];
      if asked != [] {
        PlayOne(before.routes.queue, asked[0]);
      } else {
        PlayOne(before.routes.queue, Op.Ask(0));
      }
      PlayedAppend(before.routes.queue, asked, Published(before.Outputs(i).out));
      PlayedIsRun(OpsIn(d, rest));
      PlayedIsRun(OpsIn(d, run));
      PlayedAppend(Queue([], []), OpsIn(d, rest), OpsOf(before, i));
    }
  }
}
