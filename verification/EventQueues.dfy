/** The bounded queue behind the `next` request: events wait for a puller, or pullers wait for an
    event. */
module EventQueues {
  import opened Basics
  import opened Messages

  type Delivery = (Socket, Event)

  datatype Queue = Queue(events: seq<Event>, waiters: seq<Socket>) {
    /** Append an event; at capacity the oldest one goes first. */
    function Enqueue(capacity: nat, e: Event): Queue {
      var kept := if |events| >= capacity && events != [] then events[1..] else events;
      this.(events := kept + [e])
    }

    /** Hand the oldest events to the longest waiting pullers until one side runs out. */
    function Drained(): Queue {
      var n := Matched();
      Queue(events[n..], waiters[n..])
    }

    function Deliveries(): seq<Delivery> {
      Pairs(waiters[..Matched()], events[..Matched()])
    }

    function Matched(): (n: nat)
      ensures n <= |events| && n <= |waiters|
    {
      if |events| <= |waiters| then |events| else |waiters|
    }

    function Publish(capacity: nat, e: Event): (Queue, seq<Delivery>) {
      var q := Enqueue(capacity, e);
      (q.Drained(), q.Deliveries())
    }

    function Ask(s: Socket): (Queue, seq<Delivery>) {
      if events == [] then (this.(waiters := waiters + [s]), [])
      else (this.(events := events[1..]), [(s, events[0])])
    }

    function Forget(s: Socket): Queue {
      this.(waiters := Filter(waiters, OtherThan(s)))
    }
  }

  function Pairs(sockets: seq<Socket>, events: seq<Event>): (r: seq<Delivery>)
    requires |sockets| == |events|
    ensures |r| == |events|
    ensures forall i :: 0 <= i < |r| ==> r[i] == (sockets[i], events[i])
  {
    seq(|events|, i requires 0 <= i < |events| => (sockets[i], events[i]))
  }

  // ----- A whole life of the queue, against the log of everything published -----

  datatype Op = Publish(event: Event) | Ask(socket: Socket) | Forget(socket: Socket)

  datatype Fate = Delivered(to: Socket) | Dropped

  function Step(q: Queue, capacity: nat, op: Op): (Queue, seq<Delivery>) {
    match op
    case Publish(e) => q.Publish(capacity, e)
    case Ask(s) => q.Ask(s)
    case Forget(s) => (q.Forget(s), [])
  }

  function Run(capacity: nat, ops: seq<Op>): (Queue, seq<Delivery>) {
    if ops == [] then (Queue([], []), [])
    else
      var (q, d) := Run(capacity, ops[..|ops| - 1]);
      var (q', d') := Step(q, capacity, ops[|ops| - 1]);
      (q', d + d')
  }

  /** Everything ever published, in order. */
  function Log(ops: seq<Op>): seq<Event> {
    if ops == [] then []
    else
      var op := ops[|ops| - 1];
      Log(ops[..|ops| - 1]) + if op.Publish? then [op.event] else []
  }

  /** The queue is the unsettled tail of the log, never longer than its capacity; the settled part
      was delivered or dropped strictly oldest first, `fates[i]` being what became of the i-th
      published event; events and waiters never coexist. */
  ghost predicate Refines(q: Queue, capacity: nat, log: seq<Event>, fates: seq<Fate>, deliveries: seq<Delivery>) {
    && |fates| <= |log|
    && q.events == log[|fates|..]
    && |q.events| <= capacity
    && (q.events == [] || q.waiters == [])
    && deliveries == Handed(log, fates)
  }

  function Handed(log: seq<Event>, fates: seq<Fate>): seq<Delivery>
    requires |fates| <= |log|
  {
    if fates == [] then []
    else
      var n := |fates| - 1;
      Handed(log, fates[..n]) + if fates[n].Delivered? then [(fates[n].to, log[n])] else []
  }

  lemma {:induction false} HandedIgnoresTail(log: seq<Event>, more: seq<Event>, fates: seq<Fate>)
    requires |fates| <= |log|
    ensures Handed(log + more, fates) == Handed(log, fates)
  {
    if fates != [] {
      HandedIgnoresTail(log, more, fates[..|fates| - 1]);
    }
  }

  /** What one operation settles: nothing, or the fate of the oldest unsettled event. */
  function Settled(q: Queue, capacity: nat, op: Op): seq<Fate> {
    match op
    case Publish(_) =>
      if q.waiters != [] then [Delivered(q.waiters[0])]
      else if |q.events| >= capacity then [Dropped]
      else []
    case Ask(s) => if q.events != [] then [Delivered(s)] else []
    case Forget(_) => []
  }

  function Fates(capacity: nat, ops: seq<Op>): seq<Fate> {
    if ops == [] then []
    else
      var before := ops[..|ops| - 1];
      Fates(capacity, before) + Settled(Run(capacity, before).0, capacity, ops[|ops| - 1])
  }

  lemma PublishRefines(q: Queue, capacity: nat, log: seq<Event>, fates: seq<Fate>, d: seq<Delivery>, e: Event)
    requires capacity >= 1 && Refines(q, capacity, log, fates, d)
    ensures var (q', d') := q.Publish(capacity, e);
            Refines(q', capacity, log + [e], fates + Settled(q, capacity, Publish(e)), d + d')
  {
    HandedIgnoresTail(log, [e], fates);
    var now := Settled(q, capacity, Publish(e));
    var (q', d') := q.Publish(capacity, e);
    if q.waiters != [] {
      assert q.Enqueue(capacity, e).events == [e];
      assert d' == [(q.waiters[0], e)];
      assert (log + [e])[|fates|] == e;
      assert q'.events == [];
    } else {
      assert d' == [] && q'.events == q.Enqueue(capacity, e).events;
    }
    if now != [] {
      assert (fates + now)[..|fates|] == fates;
    }
    assert now == [] ==> fates + now == fates;
  }

  lemma AskRefines(q: Queue, capacity: nat, log: seq<Event>, fates: seq<Fate>, d: seq<Delivery>, s: Socket)
    requires Refines(q, capacity, log, fates, d)
    ensures var (q', d') := q.Ask(s);
            Refines(q', capacity, log, fates + Settled(q, capacity, Ask(s)), d + d')
  {
    var now := Settled(q, capacity, Ask(s));
    if now != [] {
      assert (fates + now)[..|fates|] == fates;
    } else {
      assert fates + now == fates;
    }
  }

  lemma {:induction false} QueueRefinesLog(capacity: nat, ops: seq<Op>)
    requires capacity >= 1
    ensures var (q, deliveries) := Run(capacity, ops);
            Refines(q, capacity, Log(ops), Fates(capacity, ops), deliveries)
  {
    if ops != [] {
      var before, op := ops[..|ops| - 1], ops[|ops| - 1];
      QueueRefinesLog(capacity, before);
      var (q, d) := Run(capacity, before);
      var log, fates := Log(before), Fates(capacity, before);
      match op
      case Publish(e) => PublishRefines(q, capacity, log, fates, d, e);
      case Ask(s) => AskRefines(q, capacity, log, fates, d, s);
        assert log + [] == log;
      case Forget(s) =>
        assert log + [] == log && fates + [] == fates && d + [] == d;
    }
  }

  // ----- Pullers are served in the order they asked -----

  function Served(deliveries: seq<Delivery>): seq<Socket> {
    if deliveries == [] then [] else Served(deliveries[..|deliveries| - 1]) + [deliveries[|deliveries| - 1].0]
  }

  lemma {:induction false} ServedAppend(a: seq<Delivery>, b: seq<Delivery>)
    ensures Served(a + b) == Served(a) + Served(b) && |Served(a)| == |a|
    decreases |a| + |b|
  {
    if b == [] {
      assert a + b == a;
      if a != [] {
        ServedAppend(a[..|a| - 1], []);
      }
    } else {
      assert (a + b)[..|a + b| - 1] == a + b[..|b| - 1];
      ServedAppend(a, b[..|b| - 1]);
    }
  }

  /** Everybody who ever asked, in order, without those that were forgotten while they waited. */
  function Callers(capacity: nat, ops: seq<Op>): seq<Socket> {
    if ops == [] then []
    else
      var before := ops[..|ops| - 1];
      Called(Callers(capacity, before), |Run(capacity, before).1|, ops[|ops| - 1])
  }

  /** The callers after one operation; the first `n` have been served. */
  function Called(callers: seq<Socket>, n: nat, op: Op): seq<Socket> {
    match op
    case Publish(_) => callers
    case Ask(s) => callers + [s]
    case Forget(s) => if n <= |callers| then callers[..n] + Filter(callers[n..], OtherThan(s)) else callers
  }

  lemma OneServed(s: Socket, e: Event)
    ensures Served([(s, e)]) == [s] && Served([]) == []
  {
    var d: Delivery := (s, e);
    assert [d][..0] == [];
  }

  lemma PublishHands(q: Queue, capacity: nat, e: Event)
    requires capacity >= 1 && (q.events == [] || q.waiters == [])
    ensures var (q', d') := q.Publish(capacity, e);
            if q.waiters == [] then d' == [] && q'.waiters == []
            else d' == [(q.waiters[0], e)] && q'.waiters == q.waiters[1..]
  {
    if q.waiters != [] {
      assert q.Enqueue(capacity, e).events == [e];
    }
  }

  lemma StepServesInOrder(q: Queue, capacity: nat, d: seq<Delivery>, op: Op)
    requires capacity >= 1 && (q.events == [] || q.waiters == [])
    ensures var (q', d') := Step(q, capacity, op);
            Served(d + d') + q'.waiters == Called(Served(d) + q.waiters, |d|, op)
  {
    hide Served, Queue.Publish, Queue.Ask, Queue.Forget;
    match op
    case Publish(e) => PublishServes(q, capacity, d, e);
    case Ask(s) => AskServes(q, d, s);
    case Forget(s) => ForgetServes(q, d, s);
  }

  lemma AskServes(q: Queue, d: seq<Delivery>, s: Socket)
    requires q.events == [] || q.waiters == []
    ensures var (q', d') := q.Ask(s);
            Served(d + d') + q'.waiters == Served(d) + q.waiters + [s]
  {
    hide Served;
    var (q', d') := q.Ask(s);
    ServedAppend(d, d');
    OneServed(s, if q.events == [] then Notice("") else q.events[0]);
    if q.events == [] {
      assert d' == [] && q'.waiters == q.waiters + [s];
      assert Served(d) + (q.waiters + [s]) == Served(d) + q.waiters + [s];
    } else {
      assert q'.waiters == [];
    }
  }

  lemma ForgetServes(q: Queue, d: seq<Delivery>, s: Socket)
    ensures Served(d + []) + q.Forget(s).waiters == Called(Served(d) + q.waiters, |d|, Forget(s))
  {
    hide Served;
    ServedAppend(d, []);
    OneServed(s, Notice(""));
    var callers := Served(d) + q.waiters;
    assert d + [] == d;
    assert callers[..|d|] == Served(d) && callers[|d|..] == q.waiters;
  }

  lemma PublishServes(q: Queue, capacity: nat, d: seq<Delivery>, e: Event)
    requires capacity >= 1 && (q.events == [] || q.waiters == [])
    ensures var (q', d') := q.Publish(capacity, e);
            Served(d + d') + q'.waiters == Served(d) + q.waiters
  {
    hide Served, Queue.Publish;
    var (q', d') := q.Publish(capacity, e);
    PublishHands(q, capacity, e);
    ServedAppend(d, d');
    OneServed(if q.waiters == [] then 0 else q.waiters[0], e);
    if q.waiters != [] {
      assert Served(d) + [q.waiters[0]] + q.waiters[1..] == Served(d) + q.waiters;
    }
  }

  /** Those served, in the order of their deliveries, and then those still waiting, are the callers in
      the order in which they asked: nobody is overtaken. */
  lemma {:induction false} CallersAreServedInOrder(capacity: nat, ops: seq<Op>)
    requires capacity >= 1
    ensures var (q, deliveries) := Run(capacity, ops);
            Served(deliveries) + q.waiters == Callers(capacity, ops)
  {
    hide Step, Called;
    if ops == [] {
      OneServed(0, Notice(""));
    } else {
      var before := ops[..|ops| - 1];
      CallersAreServedInOrder(capacity, before);
      QueueRefinesLog(capacity, before);
      StepServesInOrder(Run(capacity, before).0, capacity, Run(capacity, before).1, ops[|ops| - 1]);
    }
  }

  /** While a puller is registered nothing is dropped: the new event itself goes to the one that
      has waited longest. */
  lemma WaiterGetsNewEvent(capacity: nat, ops: seq<Op>, e: Event)
    requires capacity >= 1
    ensures var q := Run(capacity, ops).0;
            q.waiters != [] ==>
              q.Publish(capacity, e) == (Queue([], q.waiters[1..]), [(q.waiters[0], e)])
  {
    QueueRefinesLog(capacity, ops);
    var q := Run(capacity, ops).0;
    if q.waiters != [] {
      var p := q.Enqueue(capacity, e);
      assert p.events == [e] && p.Drained().events == [];
      assert p.Deliveries() == [(p.waiters[0], e)];
    }
  }

  class EventQueue {
    const maxSize: nat
    var events: seq<Event>
    var waiters: seq<Socket>

    constructor (maxSize: nat)
      ensures this.maxSize == maxSize && View() == Queue([], [])
    {
      this.maxSize := maxSize;
      events, waiters := [], [];
    }

    ghost function View(): Queue
      reads this
    {
      Queue(events, waiters)
    }

    method TakeNext() returns (event: Option<Event>)
      modifies this
      ensures waiters == old(waiters)
      ensures if old(events) == [] then event == None && events == []
              else event == Some(old(events)[0]) && events == old(events)[1..]
    {
      if events == [] {
        return None;
      }
      event := Some(events[0]);
      events := events[1..];
    }

    method Enqueue(event: Event)
      requires maxSize >= 1
      modifies this
      ensures View() == old(View()).Enqueue(maxSize, event)
    {
      if |events| >= maxSize {
        events := events[1..];
      }
      events := events + [event];
    }

    method SubscribeNext(socket: Socket)
      modifies this
      ensures View() == old(View()).(waiters := old(waiters) + [socket])
    {
      waiters := waiters + [socket];
    }

    method RemoveWaiter(socket: Socket)
      modifies this
      ensures View() == old(View()).Forget(socket)
    {
      var kept: seq<Socket> := [];
      ghost var keep := OtherThan(socket);
      var i := 0;
      while i < |waiters|
        invariant 0 <= i <= |waiters|
        invariant waiters == old(waiters) && events == old(events)
        invariant kept == Filter(waiters[..i], keep)
      {
        FilterAppend(waiters[..i], [waiters[i]], keep);
        assert waiters[..i + 1] == waiters[..i] + [waiters[i]];
        if waiters[i] != socket {
          kept := kept + [waiters[i]];
        }
        i := i + 1;
      }
      assert waiters[..|waiters|] == waiters;
      waiters := kept;
    }

    /** The pairs handed to the send function, in order. */
    method DrainToWaiters() returns (deliveries: seq<Delivery>)
      modifies this
      ensures View() == old(View()).Drained() && deliveries == old(View()).Deliveries()
    {
      deliveries := [];
      ghost var n := 0;
      while waiters != [] && events != []
        invariant n <= old(View()).Matched()
        invariant waiters == old(waiters)[n..] && events == old(events)[n..]
        invariant deliveries == Pairs(old(waiters)[..n], old(events)[..n])
        decreases |events|
      {
        deliveries := deliveries + [(waiters[0], events[0])];
        waiters, events := waiters[1..], events[1..];
        n := n + 1;
      }
    }
  }
}
