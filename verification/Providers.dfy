/** The UI providers and the election of the one that may answer: highest priority first, then the
    most recent heartbeat. */
module Providers {
  import opened Basics

  const HEARTBEAT_TIMEOUT_MS := 15000

  datatype UIProvider = UIProvider(id: string, name: string, kind: string, priority: int, lastHeartbeatMs: int)

  /** The fields of `ui.register`; a missing priority is None. */
  datatype Registration = Registration(name: string, kind: string, priority: Option<int>)

  function Described(r: Registration, id: string, now: int): UIProvider {
    var name := if r.name == "" then "unknown" else r.name;
    var kind := if r.kind == "" then name else r.kind;
    var priority :=
      if r.priority.Some? then r.priority.value
      else if kind == "quickshell" then 100
      else if kind == "fallback" then 10
      else 50;
    UIProvider(id, name, kind, priority, now)
  }

  /** `order` is the order in which the hash of providers is walked. */
  datatype Registry = Registry(providers: map<Socket, UIProvider>, order: seq<Socket>, active: Option<Socket>) {
    ghost predicate Valid() {
      Enumerates(order, providers.Keys)
    }

    /** Between handlers somebody is elected exactly when somebody is registered. */
    ghost predicate Settled() {
      && Valid()
      && (active.None? <==> providers == map[])
      && (active.Some? ==> active.value in providers)
    }

    predicate Alive(s: Socket, connected: set<Socket>, now: int) {
      s in providers && s in connected && now - providers[s].lastHeartbeatMs <= HEARTBEAT_TIMEOUT_MS
    }

    function Register(s: Socket, r: Registration, uuid: string, now: int, placed: seq<Socket>): Registry {
      var id := if s in providers && providers[s].id != "" then providers[s].id else uuid;
      this.(providers := providers[s := Described(r, id, now)], order := placed)
    }

    function Beat(s: Socket, now: int): Registry {
      if s in providers then this.(providers := providers[s := providers[s].(lastHeartbeatMs := now)]) else this
    }

    function Remove(s: Socket): Registry {
      this.(providers := providers - {s}, order := Filter(order, OtherThan(s)))
    }

    /** What a re-election leaves: the entries that are alive, in the same walking order. */
    function Pruned(connected: set<Socket>, now: int): Registry {
      this.(providers := map s | s in providers && Alive(s, connected, now) :: providers[s],
            order := Survivors(|order|, connected, now))
    }

    /** The entries alive among the first `k` of a walk. */
    function Survivors(k: nat, connected: set<Socket>, now: int): seq<Socket>
      requires k <= |order|
    {
      if k == 0 then []
      else Survivors(k - 1, connected, now) + if Alive(order[k - 1], connected, now) then [order[k - 1]] else []
    }

    /** The best live provider among the first `k` of a walk: a later one replaces an earlier one
        only by beating it. */
    function Best(k: nat, connected: set<Socket>, now: int): (best: Option<Socket>)
      requires k <= |order|
      ensures best.Some? ==> Alive(best.value, connected, now)
    {
      if k == 0 then None
      else
        var s, best := order[k - 1], Best(k - 1, connected, now);
        if !Alive(s, connected, now) then best
        else if best.None? || Beats(providers[s], providers[best.value]) then Some(s)
        else best
    }

    function Recompute(connected: set<Socket>, now: int): Registry {
      Pruned(connected, now).(active := Best(|order|, connected, now))
    }

    predicate HasActive() {
      active.Some? && active.value in providers
    }

    /** May this socket answer and cancel sessions? */
    predicate Authorized(s: Socket) {
      providers == map[] || (s in providers && active == Some(s))
    }
  }

  predicate Beats(a: UIProvider, b: UIProvider) {
    a.priority > b.priority || (a.priority == b.priority && a.lastHeartbeatMs > b.lastHeartbeatMs)
  }

  ghost predicate Unbeaten(s: Socket, providers: map<Socket, UIProvider>) {
    s in providers && forall o :: o in providers ==> !Beats(providers[o], providers[s])
  }

  lemma {:induction false} BestIsUnbeaten(r: Registry, k: nat, connected: set<Socket>, now: int)
    requires k <= |r.order|
    ensures var best := r.Best(k, connected, now);
            && (best.None? ==> forall i :: 0 <= i < k ==> !r.Alive(r.order[i], connected, now))
            && (best.Some? ==> forall i :: 0 <= i < k && r.Alive(r.order[i], connected, now) ==>
                                             !Beats(r.providers[r.order[i]], r.providers[best.value]))
  {
    if k > 0 {
      BestIsUnbeaten(r, k - 1, connected, now);
    }
  }

  lemma {:induction false} SurvivorsAreAlive(r: Registry, k: nat, connected: set<Socket>, now: int)
    requires Distinct(r.order) && k <= |r.order|
    ensures Distinct(r.Survivors(k, connected, now))
    ensures forall s :: s in r.Survivors(k, connected, now) ==> s in r.order[..k] && r.Alive(s, connected, now)
    ensures forall i :: 0 <= i < k && r.Alive(r.order[i], connected, now) ==>
            r.order[i] in r.Survivors(k, connected, now)
  {
    if k > 0 {
      SurvivorsAreAlive(r, k - 1, connected, now);
    }
  }

  /** Re-election: exactly the disconnected and the stale leave, nobody else changes, and the winner
      is a maximum by (priority, heartbeat); nobody wins exactly when nobody is left. */
  lemma ElectionCorrect(r: Registry, connected: set<Socket>, now: int)
    requires r.Valid()
    ensures var r' := r.Recompute(connected, now);
            && r'.Settled()
            && (forall s :: s in r'.providers <==>
                  s in r.providers && s in connected && now - r.providers[s].lastHeartbeatMs <= 15000)
            && (forall s :: s in r'.providers ==> r'.providers[s] == r.providers[s])
            && (r'.active.Some? ==> Unbeaten(r'.active.value, r'.providers))
  {
    var n := |r.order|;
    SurvivorsAreAlive(r, n, connected, now);
    BestIsUnbeaten(r, n, connected, now);
    var rest := r.Pruned(connected, now);
    forall s
      ensures s in rest.providers <==> s in rest.order
    {
      if s in rest.providers {
        var i :| 0 <= i < n && r.order[i] == s;
      }
    }
  }

  /** Where the maximum is unique, the walking order of the hash does not matter. */
  lemma ElectionIgnoresHashOrder(r1: Registry, r2: Registry, connected: set<Socket>, now: int)
    requires r1.Valid() && r2.Valid() && r1.providers == r2.providers
    requires var live := r1.Pruned(connected, now).providers;
             forall s, t :: Unbeaten(s, live) && Unbeaten(t, live) ==> s == t
    ensures r1.Recompute(connected, now).active == r2.Recompute(connected, now).active
  {
    ElectionCorrect(r1, connected, now);
    ElectionCorrect(r2, connected, now);
    var p1, p2 := r1.Recompute(connected, now), r2.Recompute(connected, now);
    assert p1.providers == p2.providers;
  }

  lemma RegisterKeepsValid(r: Registry, s: Socket, reg: Registration, uuid: string, now: int, placed: seq<Socket>)
    requires r.Valid() && Enumerates(placed, r.providers.Keys + {s})
    ensures r.Register(s, reg, uuid, now, placed).Valid()
  {
    assert r.providers[s := Described(reg, uuid, now)].Keys == r.providers.Keys + {s};
  }

  lemma BeatKeepsValid(r: Registry, s: Socket, now: int)
    requires r.Valid()
    ensures r.Beat(s, now).Valid()
  {
    assert s in r.providers ==> r.Beat(s, now).providers.Keys == r.providers.Keys;
  }

  lemma RemoveKeepsValid(r: Registry, s: Socket)
    requires r.Valid()
    ensures r.Remove(s).Valid()
  {
    FilterDistinct(r.order, OtherThan(s));
  }

  class ProviderRegistry {
    var providers: map<Socket, UIProvider>
    var order: seq<Socket>
    var activeProvider: Option<Socket>

    constructor ()
      ensures View() == Registry(map[], [], None)
    {
      providers, order, activeProvider := map[], [], None;
    }

    ghost function View(): Registry
      reads this
    {
      Registry(providers, order, activeProvider)
    }

    /** `uuid` is a freshly made id and `placed` the walking order after the insertion. */
    method RegisterProvider(socket: Socket, r: Registration, uuid: string, now: int, placed: seq<Socket>)
      returns (provider: UIProvider)
      modifies this
      ensures View() == old(View()).Register(socket, r, uuid, now, placed)
      ensures socket in providers && provider == providers[socket]
      ensures provider.id == if socket in old(providers) && old(providers)[socket].id != ""
              then old(providers)[socket].id
                else uuid
      ensures provider.name == if r.name == "" then "unknown" else r.name
      ensures provider.kind == if r.kind == "" then provider.name else r.kind
      ensures provider.lastHeartbeatMs == now
      ensures provider.priority == if r.priority.Some? then r.priority.value
                else if provider.kind == "quickshell" then 100
                else if provider.kind == "fallback" then 10
                else 50
    {
      var id := if socket in providers then providers[socket].id else "";
      if id == "" {
        id := uuid;
      }
      var name := if r.name == "" then "unknown" else r.name;
      var kind := if r.kind == "" then name else r.kind;
      var priority: int;
      if r.priority.Some? {
        priority := r.priority.value;
      } else if kind == "quickshell" {
        priority := 100;
      } else if kind == "fallback" {
        priority := 10;
      } else {
        priority := 50;
      }
      provider := UIProvider(id, name, kind, priority, now);
      providers := providers[socket := provider];
      order := placed;
    }

    method Heartbeat(socket: Socket, now: int) returns (known: bool)
      modifies this
      ensures known == (socket in old(providers)) && View() == old(View()).Beat(socket, now)
    {
      if socket !in providers {
        return false;
      }
      providers := providers[socket := providers[socket].(lastHeartbeatMs := now)];
      known := true;
    }

    method UnregisterProvider(socket: Socket) returns (removed: bool)
      modifies this
      ensures removed == (socket in old(providers))
      ensures View() == if removed then old(View()).Remove(socket) else old(View())
    {
      if socket !in providers {
        return false;
      }
      removed := true;
      providers := providers - {socket};
      order := Filter(order, OtherThan(socket));
    }

    predicate IsAuthorized(socket: Socket)
      reads this
      ensures IsAuthorized(socket) <==> View().Authorized(socket)
    {
      if providers == map[] then true
      else if socket !in providers then false
      else activeProvider == Some(socket)
    }

    /** One walk over the hash: dead entries are erased on the way, the best survivor wins. */
    method RecomputeActiveProvider(connected: set<Socket>, now: int) returns (changed: bool)
      requires View().Valid()
      modifies this
      ensures View() == old(View()).Recompute(connected, now)
      ensures changed == (activeProvider != old(activeProvider))
    {
      ghost var before := View();
      ghost var k := 0;
      var best: Option<Socket> := None;
      var i: nat := 0;
      while i < |order|
        invariant Walking(before, k, connected, now, i, best)
        decreases |before.order| - k
      {
        i, best := Visit(before, k, connected, now, i, best);
        k := k + 1;
      }
      WalkDone(before, k, connected, now, i, best);
      changed := activeProvider != best;
      activeProvider := best;
    }

    /** The state of the walk: position `i`, best provider so far, `k` original entries behind. */
    ghost predicate Walking(before: Registry, k: nat, connected: set<Socket>, now: int, i: nat, best: Option<Socket>)
      reads this
    {
      && before.Valid() && k <= |before.order|
      && i == |before.Survivors(k, connected, now)|
      && order == WalkOrder(before, k, connected, now)
      && providers == WalkTable(before, k, connected, now)
      && best == before.Best(k, connected, now)
      && activeProvider == before.active
    }

    lemma WalkDone(before: Registry, k: nat, connected: set<Socket>, now: int, i: nat, best: Option<Socket>)
      requires Walking(before, k, connected, now, i, best) && i >= |order|
      ensures before.Recompute(connected, now) == Registry(providers, order, best)
    {
      WalkEnds(before, k, connected, now);
    }

    /** The body of the walk. */
    method Visit(ghost before: Registry, ghost k: nat, connected: set<Socket>, now: int, i: nat, best: Option<Socket>)
      returns (i': nat, best': Option<Socket>)
      requires Walking(before, k, connected, now, i, best) && i < |order|
      modifies this
      ensures k < |before.order| && Walking(before, k + 1, connected, now, i', best')
    {
      var socket := order[i];
      WalkMeets(before, k, connected, now);
      i', best' := i, best;
      if socket !in connected || now - providers[socket].lastHeartbeatMs > HEARTBEAT_TIMEOUT_MS {
        providers := providers - {socket};
        order := WithoutAt(order, i);
        return;
      }
      if best.None? || Beats(providers[socket], providers[best.value]) {
        best' := Some(socket);
      }
      i' := i + 1;
    }
  }

  // ----- The hash in the middle of the walk, `k` of its original entries behind -----

  function WalkOrder(r: Registry, k: nat, connected: set<Socket>, now: int): (order: seq<Socket>)
    requires k <= |r.order|
    ensures order == r.Survivors(k, connected, now) + r.order[k..]
  {
    if k == 0 then r.order
    else
      var order, met, s := WalkOrder(r, k - 1, connected, now), r.Survivors(k - 1, connected, now), r.order[k - 1];
      assert r.order[k - 1..] == [s] + r.order[k..];
      WithoutAtMiddle(met, s, r.order[k..]);
      assert met + ([s] + r.order[k..]) == (met + [s]) + r.order[k..];
      if r.Alive(s, connected, now) then order else WithoutAt(order, |met|)
  }

  function WalkTable(r: Registry, k: nat, connected: set<Socket>, now: int): map<Socket, UIProvider>
    requires k <= |r.order|
  {
    if k == 0 then r.providers
    else
      var table := WalkTable(r, k - 1, connected, now);
      if r.Alive(r.order[k - 1], connected, now) then table else table - {r.order[k - 1]}
  }

  lemma {:induction false} WalkTableContents(r: Registry, k: nat, connected: set<Socket>, now: int)
    requires k <= |r.order|
    ensures forall s :: s in WalkTable(r, k, connected, now) <==>
                          s in r.providers && (r.Alive(s, connected, now) || s !in r.order[..k])
    ensures forall s :: s in WalkTable(r, k, connected, now) ==>
                          WalkTable(r, k, connected, now)[s] == r.providers[s]
  {
    if k > 0 {
      WalkTableContents(r, k - 1, connected, now);
      assert r.order[..k] == r.order[..k - 1] + [r.order[k - 1]];
    }
  }

  /** The entry met next is still in the table, unchanged; so is the leader. */
  lemma WalkMeets(r: Registry, k: nat, connected: set<Socket>, now: int)
    requires r.Valid() && k <= |r.order|
    requires |r.Survivors(k, connected, now)| < |WalkOrder(r, k, connected, now)|
    ensures k < |r.order| && WalkOrder(r, k, connected, now)[|r.Survivors(k, connected, now)|] == r.order[k]
    ensures var table, best := WalkTable(r, k, connected, now), r.Best(k, connected, now);
            && r.order[k] in table && table[r.order[k]] == r.providers[r.order[k]]
            && (best.Some? ==> best.value in table && table[best.value] == r.providers[best.value])
  {
    var s := r.order[k];
    WalkTableContents(r, k, connected, now);
    assert forall j :: 0 <= j < k ==> r.order[j] != s;
    assert s !in r.order[..k];
  }

  lemma WalkEnds(r: Registry, k: nat, connected: set<Socket>, now: int)
    requires r.Valid() && k <= |r.order|
    requires |r.Survivors(k, connected, now)| >= |WalkOrder(r, k, connected, now)|
    ensures k == |r.order|
    ensures r.Recompute(connected, now) ==
              Registry(WalkTable(r, k, connected, now), WalkOrder(r, k, connected, now), r.Best(k, connected, now))
  {
    var rest, table := r.Pruned(connected, now), WalkTable(r, k, connected, now);
    WalkTableContents(r, k, connected, now);
    assert r.order[..k] == r.order;
    assert forall s :: s in table <==> s in rest.providers;
    assert table == rest.providers;
    assert r.order[k..] == [];
  }
}
