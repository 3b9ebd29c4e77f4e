/** The two tiers together (api/src/cache/layer.rs): any number of nodes, each with its own L1 cache and its
    place on the invalidation channel, over one Valkey. An invalidation evicts its own node's L1, then places
    the hold, then publishes; another node that receives the message evicts; its own node ignores it. */
module Coherence {
  import opened Bytes
  import L = L1Runs
  import V = Valkey

  /** Where a node's listener is. */
  datatype Ear = Off | Subscribed | Listening

  datatype Node = Node(l1: L.State, ear: Ear, inbox: set<nat>)

  datatype Progress = Evicting | Held | Published

  /** An invalidation: who made it, the generation of its own eviction, and how far it is. */
  datatype Invalidation = Invalidation(node: nat, gen: nat, progress: Progress, heldAt: nat)

  datatype System = System(valkey: V.State, nodes: map<nat, Node>, invalidations: map<nat, Invalidation>, l1Ttl: nat)

  datatype Action =
    | Write(key: string)
    | Invalidate(call: nat, node: nat, key: string)
    | PlaceHold(call: nat)
    | Publish(call: nat)
    | Handle(node: nat, call: nat)
    | Subscribe(node: nat)
    | Clear(node: nat)
    | Disconnect(node: nat)
    | Local(node: nat, step: L.Action)
    | Hit(node: nat, id: nat)
    | Miss(node: nat, id: nat)
    | Store(node: nat, id: nat, ttl: nat)
    | Fail(node: nat, id: nat)
    | Vanish(key: string)
    | Wait(d: nat)

  function Init(nodes: set<nat>, l1Ttl: nat): System {
    System(V.INIT, map n | n in nodes :: Node(L.INIT, Off, {}), map[], l1Ttl)
  }

  /** `ttl` spread by up to a tenth either way; `r` is the random part. */
  function Jittered(ttl: nat, r: nat): nat
    requires r <= 2 * (ttl / 10)
  {
    ttl - ttl / 10 + r
  }

  /** The times an L1 entry may be given: jittered for a value, plain for an absence. */
  predicate EntryTtl(l1Ttl: nat, ttl: nat) {
    ttl == l1Ttl || exists r: nat :: r <= 2 * (l1Ttl / 10) && ttl == Jittered(l1Ttl, r)
  }

  // ------------------------------------------------------------------ the steps

  predicate Loading(s: System, n: nat, id: nat) {
    n in s.nodes && id in s.nodes[n].l1.loaders && s.nodes[n].l1.loaders[id].pc.ReadSource?
  }

  /** The steps a node's L1 takes by itself: everything but reading, evicting and the passing of time. */
  predicate LocalStep(s: System, n: nat, a: L.Action) {
    && n in s.nodes && L.Enabled(s.nodes[n].l1, a)
    && !a.Draw? && !a.Lift? && !a.Wait?
    && (a.Advance? ==> !Loading(s, n, a.id) && EntryTtl(s.l1Ttl, a.ttl))
  }

  predicate Enabled(s: System, a: Action) {
    match a
    case Write(key) => true
    case Invalidate(call, node, key) => node in s.nodes && call !in s.valkey.calls && call !in s.invalidations
    case PlaceHold(call) =>
      && call in s.invalidations && call in s.valkey.calls && s.invalidations[call].progress.Evicting?
      && var i := s.invalidations[call];
      && i.node in s.nodes && i.gen in s.nodes[i.node].l1.evictions && s.nodes[i.node].l1.evictions[i.gen].stage.Done?
    case Publish(call) => call in s.invalidations && s.invalidations[call].progress.Held?
    case Handle(node, call) =>
      node in s.nodes && call in s.nodes[node].inbox && call in s.invalidations && call in s.valkey.calls
    case Subscribe(node) => node in s.nodes && s.nodes[node].ear.Off?
    case Clear(node) => node in s.nodes && s.nodes[node].ear.Subscribed?
    case Disconnect(node) => node in s.nodes
    case Local(node, step) => LocalStep(s, node, step)
    case Hit(node, id) => Loading(s, node, id) && V.Lookup(s.valkey, s.nodes[node].l1.loaders[id].key).Some?
    case Miss(node, id) => Loading(s, node, id) && (node, id) !in s.valkey.loads
    case Store(node, id, ttl) => (node, id) in s.valkey.loads
    case Fail(node, id) => (node, id) in s.valkey.loads
    case Vanish(key) => V.Enabled(s.valkey, V.Vanish(key))
    case Wait(d) => true
  }

  function On(s: System, n: nat, node: Node): System { s.(nodes := s.nodes[n := node]) }

  function Stepped(node: Node, a: L.Action): Node
    requires L.Enabled(node.l1, a)
  {
    node.(l1 := L.Next(node.l1, a))
  }

  /** A loader gets whatever value there is to get. */
  function GotValue(node: Node, id: nat, value: nat): Node
    requires id in node.l1.loaders && node.l1.loaders[id].pc.ReadSource?
  {
    node.(l1 := L.Moved(node.l1, id, value, 0).(clock := node.l1.clock + 1))
  }

  function Everywhere(s: System, a: L.Action): map<nat, Node>
    requires a.Lift? || a.Wait?
  {
    map n | n in s.nodes :: Stepped(s.nodes[n], a)
  }

  function Next(s: System, a: Action): System
    requires Enabled(s, a)
  {
    match a
    case Write(key) => s.(valkey := V.Next(s.valkey, V.Write(key)))
    case Invalidate(call, node, key) =>
      On(s.(valkey := V.Next(s.valkey, V.Invalidate(call, key)),
            invalidations := s.invalidations[call := Invalidation(node, s.nodes[node].l1.cache.generation + 1, Evicting, 0)]),
         node, Stepped(s.nodes[node], L.Draw(Some(key))))
    case PlaceHold(call) =>
      var c := s.valkey.calls[call];
      s.(valkey := V.Next(s.valkey, V.PlaceHold(call)),
         nodes := Everywhere(s, L.Lift(c.key, c.floor)),
         invalidations := s.invalidations[call := s.invalidations[call].(progress := Held, heldAt := s.valkey.now)])
    case Publish(call) =>
      s.(nodes := map n | n in s.nodes :: if s.nodes[n].ear.Off? then s.nodes[n] else s.nodes[n].(inbox := s.nodes[n].inbox + {call}),
         invalidations := s.invalidations[call := s.invalidations[call].(progress := Published)])
    case Handle(node, call) =>
      var m := s.nodes[node].(inbox := s.nodes[node].inbox - {call});
      On(s, node, if s.invalidations[call].node == node then m else Stepped(m, L.Draw(Some(s.valkey.calls[call].key))))
    case Subscribe(node) => On(s, node, s.nodes[node].(ear := Subscribed, inbox := {}))
    case Clear(node) => On(s, node, Stepped(s.nodes[node].(ear := Listening), L.Draw(None)))
    case Disconnect(node) => On(s, node, s.nodes[node].(ear := Off, inbox := {}))
    case Local(node, step) => On(s, node, Stepped(s.nodes[node], step))
    case Hit(node, id) =>
      var v := V.Lookup(s.valkey, s.nodes[node].l1.loaders[id].key).value;
      On(s, node, GotValue(s.nodes[node], id, v))
    case Miss(node, id) =>
      var k := s.nodes[node].l1.loaders[id].key;
      On(s.(valkey := V.Next(s.valkey, V.Read((node, id), k))), node,
         GotValue(s.nodes[node], id, V.Version(s.valkey, k)))
    case Store(node, id, ttl) => s.(valkey := V.Next(s.valkey, V.Store((node, id), ttl)))
    case Fail(node, id) => s.(valkey := V.Next(s.valkey, V.Fail((node, id))))
    case Vanish(key) => s.(valkey := V.Next(s.valkey, V.Vanish(key)))
    case Wait(d) => s.(valkey := V.Next(s.valkey, V.Wait(d)), nodes := Everywhere(s, L.Wait(d)))
  }

  /** Loads write to Valkey in time. */
  predicate Timely(s: System, a: Action) {
    a.Store? && (a.node, a.id) in s.valkey.loads ==> V.Timely(s.valkey, V.Store((a.node, a.id), a.ttl))
  }

  // ------------------------------------------------------------------ what every run keeps

  /** Every floor L1 goes by is that of a hold. */
  ghost predicate FloorsHeld(floors: map<string, nat>, holds: set<V.Hold>) {
    forall k :: k in floors ==> floors[k] == 0 || exists h :: h in holds && h.key == k && h.floor == floors[k]
  }

  predicate Raised(raises: set<L.Raise>, holds: set<V.Hold>) {
    forall h :: h in holds ==> L.Raise(h.key, h.floor, h.at) in raises
  }

  predicate TtlsOk(loaders: map<nat, L.Loader>, l1Ttl: nat) {
    forall id :: id in loaders ==> loaders[id].ttl <= l1Ttl + l1Ttl / 10
  }

  ghost predicate NodeOk(l1: L.State, holds: set<V.Hold>, now: nat, l1Ttl: nat) {
    && L.Inv(l1) && l1.now == now && FloorsHeld(l1.floors, holds) && Raised(l1.raises, holds) && TtlsOk(l1.loaders, l1Ttl)
  }

  ghost predicate NodesOk(s: System) {
    forall n :: n in s.nodes ==> NodeOk(s.nodes[n].l1, s.valkey.holds, s.valkey.now, s.l1Ttl)
  }

  /** A call past its hold has placed it. */
  predicate CallOk(s: System, c: nat) {
    && c in s.invalidations && c in s.valkey.calls
    && (!s.invalidations[c].progress.Evicting? ==>
          V.Hold(s.valkey.calls[c].key, s.valkey.calls[c].floor, s.invalidations[c].heldAt) in s.valkey.holds)
  }

  ghost predicate CallsOk(s: System) {
    forall c :: c in s.invalidations ==> CallOk(s, c)
  }

  /** Eviction `e` was drawn with the floor `floor` for `k` already placed. */
  predicate Covering(e: L.Eviction, k: string, floor: nat) {
    e.Covers(k) && floor <= L.Floor(e.floors, k)
  }

  ghost predicate Answered(l1: L.State, k: string, floor: nat) {
    exists g :: g in l1.evictions && Covering(l1.evictions[g], k, floor)
  }

  /** A listening node has each published message of others still to handle, or has answered it. */
  ghost predicate Delivered(s: System, n: nat, c: nat)
    requires n in s.nodes && c in s.invalidations && c in s.valkey.calls
  {
    s.invalidations[c].progress.Published? && s.invalidations[c].node != n && s.nodes[n].ear.Listening? ==>
      c in s.nodes[n].inbox || Answered(s.nodes[n].l1, s.valkey.calls[c].key, s.valkey.calls[c].floor)
  }

  ghost predicate DeliveredAll(s: System)
    requires CallsOk(s)
  {
    forall n, c :: n in s.nodes && c in s.invalidations ==> Delivered(s, n, c)
  }

  ghost predicate Inv(s: System) {
    V.Inv(s.valkey) && NodesOk(s) && CallsOk(s) && DeliveredAll(s)
  }

  // ------------------------------------------------------------------ reads reach the floors

  lemma ReadsReachFloor(s: System, n: nat, k: string)
    requires V.Inv(s.valkey) && NodesOk(s) && n in s.nodes
    ensures L.Floor(s.nodes[n].l1.floors, k) <= V.Version(s.valkey, k)
    ensures V.Lookup(s.valkey, k).Some? ==> L.Floor(s.nodes[n].l1.floors, k) <= V.Lookup(s.valkey, k).value
  {
    hide L.Inv;
    var floors := s.nodes[n].l1.floors;
    assert NodeOk(s.nodes[n].l1, s.valkey.holds, s.valkey.now, s.l1Ttl);
    if k in floors && floors[k] != 0 {
      var h :| h in s.valkey.holds && h.key == k && h.floor == floors[k];
      assert V.HoldOk(s.valkey, h);
    }
  }

  /** A hold placed is a floor on every node. */
  lemma HoldIsFloor(s: System, n: nat, h: V.Hold)
    requires NodesOk(s) && n in s.nodes && h in s.valkey.holds
    ensures h.floor <= L.Floor(s.nodes[n].l1.floors, h.key)
  {
    hide L.EvictionsOk, L.Marks, L.LoadersOk, L.SlotsOk, L.ReadsOk;
    assert NodeOk(s.nodes[n].l1, s.valkey.holds, s.valkey.now, s.l1Ttl);
  }

  // ------------------------------------------------------------------ preservation, node by node

  lemma NodeStep(l1: L.State, a: L.Action, holds: set<V.Hold>, now: nat, l1Ttl: nat)
    requires NodeOk(l1, holds, now, l1Ttl) && L.Enabled(l1, a)
    requires !a.Lift? && !a.Wait? && (a.Advance? ==> l1.loaders[a.id].pc.ReadSource? || EntryTtl(l1Ttl, a.ttl))
    ensures NodeOk(L.Next(l1, a), holds, now, l1Ttl)
  {
    hide L.Inv, FloorsHeld, Raised, L.Next, TtlsOk, EntryTtl;
    L.StepKeeps(l1, a);
    L.FloorsAndTimeStay(l1, a);
    TtlStep(l1, a, l1Ttl);
  }

  lemma TtlStep(l1: L.State, a: L.Action, l1Ttl: nat)
    requires TtlsOk(l1.loaders, l1Ttl) && L.Enabled(l1, a)
    requires a.Advance? ==> l1.loaders[a.id].pc.ReadSource? || EntryTtl(l1Ttl, a.ttl)
    ensures TtlsOk(L.Next(l1, a).loaders, l1Ttl)
  {
  }

  lemma LiftStep(l1: L.State, k: string, floor: nat, holds: set<V.Hold>, now: nat, l1Ttl: nat)
    requires NodeOk(l1, holds, now, l1Ttl)
    ensures NodeOk(L.Next(l1, L.Lift(k, floor)), holds + {V.Hold(k, floor, now)}, now, l1Ttl)
  {
    hide L.Inv;
    L.StepKeeps(l1, L.Lift(k, floor));
    var t := L.Next(l1, L.Lift(k, floor));
    var more := holds + {V.Hold(k, floor, now)};
    forall j | j in t.floors ensures t.floors[j] == 0 || exists h :: h in more && h.key == j && h.floor == t.floors[j] {
      if j == k && t.floors[k] == floor {
        assert V.Hold(k, floor, now) in more;
      } else if t.floors[j] != 0 {
        var h :| h in holds && h.key == j && h.floor == l1.floors[j];
        assert h in more;
      }
    }
  }

  lemma WaitStep(l1: L.State, d: nat, holds: set<V.Hold>, now: nat, l1Ttl: nat)
    requires NodeOk(l1, holds, now, l1Ttl)
    ensures NodeOk(L.Next(l1, L.Wait(d)), holds, now + d, l1Ttl)
  {
    hide L.Inv, FloorsHeld, Raised;
    L.StepKeeps(l1, L.Wait(d));
  }

  /** What is answered stays answered. */
  lemma AnsweredStays(l1: L.State, a: L.Action, k: string, floor: nat)
    requires L.Inv(l1) && L.Enabled(l1, a) && Answered(l1, k, floor)
    ensures Answered(L.Next(l1, a), k, floor)
  {
    hide L.Next, L.Enabled, L.Marks, L.LoadersOk, L.SlotsOk, L.ReadsOk, L.FloorsOk;
    var g :| g in l1.evictions && Covering(l1.evictions[g], k, floor);
    L.EvictionsStay(l1, a, g);
    assert Covering(L.Next(l1, a).evictions[g], k, floor);
  }

  /** Drawing an eviction now answers every call whose hold is placed. */
  lemma DrawAnswers(s: System, n: nat, scope: Option<string>, h: V.Hold)
    requires NodesOk(s) && n in s.nodes && h in s.valkey.holds && (scope.None? || scope == Some(h.key))
    ensures Answered(L.Next(s.nodes[n].l1, L.Draw(scope)), h.key, h.floor)
  {
    hide L.Inv;
    HoldIsFloor(s, n, h);
    var t := L.Next(s.nodes[n].l1, L.Draw(scope));
    assert Covering(t.evictions[t.cache.generation], h.key, h.floor);
  }

  // ------------------------------------------------------------------ preservation

  /** Valkey moves on without a hold, a new call or the time. */
  lemma ValkeyKeeps(s: System, v: V.State)
    requires Inv(s) && V.Inv(v) && v.holds == s.valkey.holds && v.now == s.valkey.now && v.calls == s.valkey.calls
    ensures Inv(s.(valkey := v))
  {
    hide V.Inv, NodeOk, Answered;
    var t := s.(valkey := v);
    forall c | c in t.invalidations ensures CallOk(t, c) {
      assert CallOk(s, c);
    }
    forall n, c | n in t.nodes && c in t.invalidations ensures Delivered(t, n, c) {
      assert Delivered(s, n, c);
    }
  }

  /** One node moves on. */
  lemma NodeKeeps(s: System, n: nat, node: Node)
    requires Inv(s) && n in s.nodes && NodeOk(node.l1, s.valkey.holds, s.valkey.now, s.l1Ttl)
    requires forall c :: c in s.invalidations ==> Delivered(On(s, n, node), n, c)
    ensures Inv(On(s, n, node))
  {
    hide V.Inv, NodeOk, Answered;
    var t := On(s, n, node);
    forall c | c in t.invalidations ensures CallOk(t, c) {
      assert CallOk(s, c);
    }
    forall m, c | m in t.nodes && c in t.invalidations ensures Delivered(t, m, c) {
      if m != n {
        assert Delivered(s, m, c);
      }
    }
  }

  /** A node's L1 takes a step; nothing handled or heard. */
  lemma L1Keeps(s: System, n: nat, a: L.Action)
    requires Inv(s) && n in s.nodes && L.Enabled(s.nodes[n].l1, a)
    requires !a.Lift? && !a.Wait? && (a.Advance? ==> s.nodes[n].l1.loaders[a.id].pc.ReadSource? || EntryTtl(s.l1Ttl, a.ttl))
    ensures Inv(On(s, n, Stepped(s.nodes[n], a)))
  {
    hide V.Inv, L.Inv, Answered, L.Next, L.Enabled, EntryTtl, FloorsHeld, Raised, TtlsOk;
    var l1 := s.nodes[n].l1;
    assert NodeOk(l1, s.valkey.holds, s.valkey.now, s.l1Ttl);
    NodeStep(l1, a, s.valkey.holds, s.valkey.now, s.l1Ttl);
    var t := On(s, n, Stepped(s.nodes[n], a));
    forall c | c in s.invalidations ensures Delivered(t, n, c) {
      assert CallOk(s, c) && Delivered(s, n, c);
      var call := s.valkey.calls[c];
      if Answered(l1, call.key, call.floor) {
        AnsweredStays(l1, a, call.key, call.floor);
      }
    }
    NodeKeeps(s, n, Stepped(s.nodes[n], a));
  }

  lemma GotValueKeeps(s: System, n: nat, id: nat, value: nat)
    requires Inv(s) && Loading(s, n, id)
    requires L.Floor(s.nodes[n].l1.floors, s.nodes[n].l1.loaders[id].key) <= value
    ensures Inv(On(s, n, GotValue(s.nodes[n], id, value)))
  {
    hide Inv;
    L1Keeps(s, n, L.Advance(id, value, 0));
  }

  lemma HitKeeps(s: System, n: nat, id: nat)
    requires Inv(s) && Enabled(s, Hit(n, id))
    ensures Inv(Next(s, Hit(n, id)))
  {
    hide V.Inv, NodesOk, CallsOk, DeliveredAll, GotValue, V.Lookup;
    var k := s.nodes[n].l1.loaders[id].key;
    ReadsReachFloor(s, n, k);
    GotValueKeeps(s, n, id, V.Lookup(s.valkey, k).value);
  }

  lemma MissKeeps(s: System, n: nat, id: nat)
    requires Inv(s) && Enabled(s, Miss(n, id))
    ensures Inv(Next(s, Miss(n, id)))
  {
    hide V.Inv, NodesOk, CallsOk, DeliveredAll, GotValue;
    var k := s.nodes[n].l1.loaders[id].key;
    ReadsReachFloor(s, n, k);
    var v := V.Next(s.valkey, V.Read((n, id), k));
    V.StepKeeps(s.valkey, V.Read((n, id), k));
    ValkeyKeeps(s, v);
    GotValueKeeps(s.(valkey := v), n, id, V.Version(s.valkey, k));
  }

  /** A node's ear changes: only a listener owes an answer. */
  lemma EarKeeps(s: System, n: nat, ear: Ear)
    requires Inv(s) && n in s.nodes && !ear.Listening?
    ensures Inv(On(s, n, s.nodes[n].(ear := ear, inbox := {})))
  {
    hide V.Inv, NodeOk, Answered, CallOk;
    NodeKeeps(s, n, s.nodes[n].(ear := ear, inbox := {}));
  }

  /** A call is made: Valkey knows of it, and its own node draws an eviction. */
  lemma InvalidateKeeps(s: System, call: nat, n: nat, key: string)
    requires Inv(s) && Enabled(s, Invalidate(call, n, key))
    ensures Inv(Next(s, Invalidate(call, n, key)))
  {
    hide V.Inv, NodesOk, Answered, L.Next;
    var i := Invalidation(n, s.nodes[n].l1.cache.generation + 1, Evicting, 0);
    var t := s.(valkey := V.Next(s.valkey, V.Invalidate(call, key)), invalidations := s.invalidations[call := i]);
    V.StepKeeps(s.valkey, V.Invalidate(call, key));
    NodesUnmoved(s, t);
    forall c | c in t.invalidations ensures CallOk(t, c) {
      assert c != call ==> CallOk(s, c);
    }
    forall m, c | m in t.nodes && c in t.invalidations ensures Delivered(t, m, c) {
      assert c != call ==> CallOk(s, c) && Delivered(s, m, c);
    }
    L1Keeps(t, n, L.Draw(Some(key)));
  }

  lemma NodesUnmoved(s: System, t: System)
    requires NodesOk(s) && t.valkey.holds == s.valkey.holds && t.valkey.now == s.valkey.now && t.l1Ttl == s.l1Ttl
    requires t.nodes.Keys == s.nodes.Keys && forall n :: n in s.nodes ==> t.nodes[n].l1 == s.nodes[n].l1
    ensures NodesOk(t)
  {
    hide NodeOk;
  }

  lemma HoldKeeps(s: System, call: nat)
    requires Inv(s) && Enabled(s, PlaceHold(call))
    ensures Inv(Next(s, PlaceHold(call)))
  {
    hide V.Inv, NodeOk, Answered, L.Next;
    var t := Next(s, PlaceHold(call));
    var k, floor := s.valkey.calls[call].key, s.valkey.calls[call].floor;
    V.StepKeeps(s.valkey, V.PlaceHold(call));
    forall n | n in t.nodes ensures NodeOk(t.nodes[n].l1, t.valkey.holds, t.valkey.now, t.l1Ttl) {
      LiftStep(s.nodes[n].l1, k, floor, s.valkey.holds, s.valkey.now, s.l1Ttl);
    }
    forall c | c in t.invalidations ensures CallOk(t, c) {
      assert CallOk(s, c);
    }
    forall n, c | n in t.nodes && c in t.invalidations ensures Delivered(t, n, c) {
      assert CallOk(s, c) && Delivered(s, n, c);
      EveryoneAnswers(s, n, c, L.Lift(k, floor));
    }
  }

  lemma EveryoneAnswers(s: System, n: nat, c: nat, a: L.Action)
    requires NodesOk(s) && n in s.nodes && c in s.valkey.calls && (a.Lift? || a.Wait?)
    ensures var call := s.valkey.calls[c];
            Answered(s.nodes[n].l1, call.key, call.floor) ==> Answered(L.Next(s.nodes[n].l1, a), call.key, call.floor)
  {
    hide L.Inv, Answered, L.Next;
    assert NodeOk(s.nodes[n].l1, s.valkey.holds, s.valkey.now, s.l1Ttl);
    var call := s.valkey.calls[c];
    if Answered(s.nodes[n].l1, call.key, call.floor) {
      AnsweredStays(s.nodes[n].l1, a, call.key, call.floor);
    }
  }

  lemma WaitKeeps(s: System, d: nat)
    requires Inv(s)
    ensures Inv(Next(s, Wait(d)))
  {
    hide V.Inv, NodeOk, Answered, L.Next;
    var t := Next(s, Wait(d));
    V.StepKeeps(s.valkey, V.Wait(d));
    forall n | n in t.nodes ensures NodeOk(t.nodes[n].l1, t.valkey.holds, t.valkey.now, t.l1Ttl) {
      WaitStep(s.nodes[n].l1, d, s.valkey.holds, s.valkey.now, s.l1Ttl);
    }
    forall c | c in t.invalidations ensures CallOk(t, c) {
      assert CallOk(s, c);
    }
    forall n, c | n in t.nodes && c in t.invalidations ensures Delivered(t, n, c) {
      assert CallOk(s, c) && Delivered(s, n, c);
      EveryoneAnswers(s, n, c, L.Wait(d));
    }
  }

  lemma PublishKeeps(s: System, call: nat)
    requires Inv(s) && Enabled(s, Publish(call))
    ensures Inv(Next(s, Publish(call)))
  {
    hide V.Inv, NodesOk, Answered;
    var t := Next(s, Publish(call));
    NodesUnmoved(s, t);
    forall c | c in t.invalidations ensures CallOk(t, c) {
      assert CallOk(s, c);
    }
    forall n, c | n in t.nodes && c in t.invalidations ensures Delivered(t, n, c) {
      assert CallOk(s, c) && Delivered(s, n, c);
    }
  }

  /** A listener draws an eviction: every call it had answered it still answers, and those of the
      eviction's scope it answers now. */
  lemma HearKeeps(s: System, n: nat, scope: Option<string>, ear: Ear, inbox: set<nat>)
    requires Inv(s) && n in s.nodes
    requires s.nodes[n].ear == ear || (scope.None? && ear.Listening?)
    requires forall c :: c in s.nodes[n].inbox && c !in inbox ==>
               c in s.valkey.calls && (scope.None? || scope == Some(s.valkey.calls[c].key))
    ensures Inv(On(s, n, Stepped(s.nodes[n].(ear := ear, inbox := inbox), L.Draw(scope))))
  {
    hide V.Inv, L.Inv, Answered, L.Next;
    var l1 := s.nodes[n].l1;
    var node := Stepped(s.nodes[n].(ear := ear, inbox := inbox), L.Draw(scope));
    assert NodeOk(l1, s.valkey.holds, s.valkey.now, s.l1Ttl);
    NodeStep(l1, L.Draw(scope), s.valkey.holds, s.valkey.now, s.l1Ttl);
    forall c | c in s.invalidations ensures Delivered(On(s, n, node), n, c) {
      assert CallOk(s, c) && Delivered(s, n, c);
      if s.invalidations[c].progress.Published? {
        HeardOne(s, n, scope, c);
      }
    }
    NodeKeeps(s, n, node);
  }

  lemma HeardOne(s: System, n: nat, scope: Option<string>, c: nat)
    requires NodesOk(s) && CallsOk(s) && n in s.nodes && c in s.invalidations && s.invalidations[c].progress.Published?
    ensures c in s.valkey.calls
    ensures var call, t := s.valkey.calls[c], L.Next(s.nodes[n].l1, L.Draw(scope));
            scope.None? || scope == Some(call.key) || Answered(s.nodes[n].l1, call.key, call.floor) ==>
              Answered(t, call.key, call.floor)
  {
    hide L.Inv, Answered, L.Next;
    assert CallOk(s, c) && NodeOk(s.nodes[n].l1, s.valkey.holds, s.valkey.now, s.l1Ttl);
    var call := s.valkey.calls[c];
    if scope.None? || scope == Some(call.key) {
      DrawAnswers(s, n, scope, V.Hold(call.key, call.floor, s.invalidations[c].heldAt));
    } else if Answered(s.nodes[n].l1, call.key, call.floor) {
      AnsweredStays(s.nodes[n].l1, L.Draw(scope), call.key, call.floor);
    }
  }

  lemma HandleKeeps(s: System, n: nat, call: nat)
    requires Inv(s) && Enabled(s, Handle(n, call))
    ensures Inv(Next(s, Handle(n, call)))
  {
    hide V.Inv, NodeOk, Answered, L.Next;
    var inbox := s.nodes[n].inbox - {call};
    if s.invalidations[call].node == n {
      forall c | c in s.invalidations ensures Delivered(On(s, n, s.nodes[n].(inbox := inbox)), n, c) {
        assert Delivered(s, n, c);
      }
      NodeKeeps(s, n, s.nodes[n].(inbox := inbox));
    } else {
      HearKeeps(s, n, Some(s.valkey.calls[call].key), s.nodes[n].ear, inbox);
    }
  }

  lemma ClearKeeps(s: System, n: nat)
    requires Inv(s) && Enabled(s, Clear(n))
    ensures Inv(Next(s, Clear(n)))
  {
    hide Inv, L.Next;
    HearKeeps(s, n, None, Listening, s.nodes[n].inbox);
  }

  lemma StepKeeps(s: System, a: Action)
    requires Inv(s) && Enabled(s, a) && Timely(s, a)
    ensures Inv(Next(s, a))
  {
    hide V.Inv, NodesOk, CallsOk, DeliveredAll, L.Next, L.Enabled, EntryTtl, V.Timely;
    match a
    case Write(key) =>
      ValkeyOnly(s, V.Write(key));
    case Invalidate(call, node, key) => InvalidateKeeps(s, call, node, key);
    case PlaceHold(call) => HoldKeeps(s, call);
    case Publish(call) => PublishKeeps(s, call);
    case Handle(node, call) => HandleKeeps(s, node, call);
    case Subscribe(node) => EarKeeps(s, node, Subscribed);
    case Clear(node) => ClearKeeps(s, node);
    case Disconnect(node) => EarKeeps(s, node, Off);
    case Local(node, step) => L1Keeps(s, node, step);
    case Hit(node, id) => HitKeeps(s, node, id);
    case Miss(node, id) => MissKeeps(s, node, id);
    case Store(node, id, ttl) => ValkeyOnly(s, V.Store((node, id), ttl));
    case Fail(node, id) => ValkeyOnly(s, V.Fail((node, id)));
    case Vanish(key) => ValkeyOnly(s, V.Vanish(key));
    case Wait(d) => WaitKeeps(s, d);
  }

  lemma ValkeyOnly(s: System, a: V.Action)
    requires Inv(s) && V.Enabled(s.valkey, a) && (a.Write? || a.Store? || a.Fail? || a.Vanish?)
    requires a.Store? ==> V.Timely(s.valkey, a)
    ensures Inv(s.(valkey := V.Next(s.valkey, a)))
  {
    hide Inv, V.Inv;
    assert V.Inv(s.valkey) by { InvValkey(s); }
    V.StepKeeps(s.valkey, a);
    ValkeyKeeps(s, V.Next(s.valkey, a));
  }

  lemma InvValkey(s: System)
    requires Inv(s)
    ensures V.Inv(s.valkey)
  {
  }

  // ------------------------------------------------------------------ runs

  datatype Run = Start(ids: set<nat>, ttl: nat) | Then(before: Run, action: Action)

  predicate Legal(r: Run)
    decreases r, 0
  {
    r.Then? ==> Legal(r.before) && Enabled(End(r.before), r.action)
  }

  function End(r: Run): System
    requires Legal(r)
    decreases r, 1
  {
    match r
    case Start(ids, ttl) => Init(ids, ttl)
    case Then(before, a) => Next(End(before), a)
  }

  ghost predicate AllTimely(r: Run)
    requires Legal(r)
  {
    r.Then? ==> AllTimely(r.before) && Timely(End(r.before), r.action)
  }

  lemma InitOk(ids: set<nat>, ttl: nat)
    ensures Inv(Init(ids, ttl))
  {
    hide L.Inv;
    L.InitOk();
  }

  lemma {:induction false} RunKeeps(r: Run)
    requires Legal(r) && AllTimely(r)
    ensures Inv(End(r))
  {
    hide Next, Enabled, Timely, Inv;
    match r
    case Start(ids, ttl) =>
      InitOk(ids, ttl);
    case Then(before, a) =>
      RunKeeps(before);
      StepKeeps(End(before), a);
  }

  // ------------------------------------------------------------------ a node's own run

  /** The step of node `n`'s own L1 that a step of the system is, if any. */
  function NodeAction(s: System, a: Action, n: nat): Option<L.Action>
    requires Enabled(s, a)
  {
    match a
    case Invalidate(call, node, key) => if node == n then Some(L.Draw(Some(key))) else None
    case PlaceHold(call) => Some(L.Lift(s.valkey.calls[call].key, s.valkey.calls[call].floor))
    case Handle(node, call) =>
      if node == n && s.invalidations[call].node != n then Some(L.Draw(Some(s.valkey.calls[call].key))) else None
    case Clear(node) => if node == n then Some(L.Draw(None)) else None
    case Local(node, step) => if node == n then Some(step) else None
    case Hit(node, id) =>
      if node == n then Some(L.Advance(id, V.Lookup(s.valkey, s.nodes[n].l1.loaders[id].key).value, 0)) else None
    case Miss(node, id) =>
      if node == n then Some(L.Advance(id, V.Version(s.valkey, s.nodes[n].l1.loaders[id].key), 0)) else None
    case Wait(d) => Some(L.Wait(d))
    case _ => None
  }

  lemma NodeFollows(s: System, a: Action, n: nat)
    requires V.Inv(s.valkey) && NodesOk(s) && Enabled(s, a) && n in s.nodes
    ensures n in Next(s, a).nodes
    ensures NodeAction(s, a, n).None? ==> Next(s, a).nodes[n].l1 == s.nodes[n].l1
    ensures NodeAction(s, a, n).Some? ==>
              && L.Enabled(s.nodes[n].l1, NodeAction(s, a, n).value)
              && Next(s, a).nodes[n].l1 == L.Next(s.nodes[n].l1, NodeAction(s, a, n).value)
  {
    hide V.Inv, NodesOk, V.Lookup, V.Version, V.Next;
    if (a.Hit? || a.Miss?) && a.node == n {
      ReadsReachFloor(s, n, s.nodes[n].l1.loaders[a.id].key);
    }
  }

  lemma NodesStay(s: System, a: Action)
    requires Enabled(s, a)
    ensures Next(s, a).nodes.Keys == s.nodes.Keys
  {
    hide L.Next, L.Enabled, V.Next, V.Lookup;
  }

  /** What node `n`'s L1 does in the run. */
  ghost function NodeRun(r: Run, n: nat): L.Run
    requires Legal(r)
  {
    match r
    case Start(_, _) => L.Start
    case Then(before, a) =>
      var step := NodeAction(End(before), a, n);
      if step.None? then NodeRun(before, n) else L.Then(NodeRun(before, n), step.value)
  }

  /** It is one of those that L1 is known by. */
  lemma {:induction false} NodeRunIsLegal(r: Run, n: nat)
    requires Legal(r) && AllTimely(r) && n in End(r).nodes
    ensures L.Legal(NodeRun(r, n)) && L.End(NodeRun(r, n)) == End(r).nodes[n].l1
  {
    hide Next, Enabled, Timely, Inv, L.Next, L.Enabled, NodeAction;
    if r.Then? {
      NodesStay(End(r.before), r.action);
      NodeRunIsLegal(r.before, n);
      RunKeeps(r.before);
      NodeSteps(End(r.before), r.action, n);
    }
  }

  lemma NodeSteps(s: System, a: Action, n: nat)
    requires Inv(s) && Enabled(s, a) && n in s.nodes
    ensures n in Next(s, a).nodes
    ensures NodeAction(s, a, n).None? ==> Next(s, a).nodes[n].l1 == s.nodes[n].l1
    ensures NodeAction(s, a, n).Some? ==>
              && L.Enabled(s.nodes[n].l1, NodeAction(s, a, n).value)
              && Next(s, a).nodes[n].l1 == L.Next(s.nodes[n].l1, NodeAction(s, a, n).value)
  {
    hide Next, Enabled, V.Inv, NodesOk, CallsOk, DeliveredAll, L.Next, L.Enabled, NodeAction;
    NodeFollows(s, a, n);
  }

  /** On node `n`, eviction records outlive the loads that need them, by what is forgotten or by time. */
  ghost predicate CarefulOn(r: Run, n: nat)
    requires Legal(r)
  {
    L.Legal(NodeRun(r, n)) && L.Careful(NodeRun(r, n))
  }

  lemma CarefulSees(r: Run, n: nat)
    requires Legal(r) && AllTimely(r) && n in End(r).nodes && CarefulOn(r, n)
    ensures L.AllSeen(End(r).nodes[n].l1)
  {
    hide Next, L.Careful, L.Legal, L.End, NodeRun, L.AllSeen;
    NodeRunIsLegal(r, n);
    L.CarefulSees(NodeRun(r, n));
  }

  // ------------------------------------------------------------------ the theorems

  /** Node `n` has an entry for `k` older than `floor`, put there by a loader with nothing left to recheck. */
  predicate Stale(s: System, n: nat, k: string, floor: nat) {
    && n in s.nodes && k in s.nodes[n].l1.cache.entries
    && var l1 := s.nodes[n].l1;
    && l1.cache.entries[k].loader in l1.loaders
    && L.Owner(l1, k).value < floor && !L.Owner(l1, k).Rechecking()
  }

  /** Node `n` has finished an eviction or clear begun once the hold was placed. */
  ghost predicate Evicted(s: System, n: nat, k: string, floor: nat) {
    n in s.nodes && exists g :: g in s.nodes[n].l1.evictions && s.nodes[n].l1.evictions[g].stage.Done?
                                && Covering(s.nodes[n].l1.evictions[g], k, floor)
  }

  /** From then on, whatever loads are under way or to come, no older value stays on that node, but by a loader
      that passed its recheck when the record of such an eviction was gone. */
  lemma EvictedNodesAreClean(r: Run, n: nat, k: string, floor: nat)
    requires Legal(r) && AllTimely(r) && Evicted(End(r), n, k, floor)
    ensures Stale(End(r), n, k, floor) ==>
              var l1 := End(r).nodes[n].l1;
              exists g :: g in l1.evictions && Covering(l1.evictions[g], k, floor) && L.Overlooked(L.Owner(l1, k), l1.evictions[g])
    ensures CarefulOn(r, n) ==> !Stale(End(r), n, k, floor)
  {
    hide Next, V.Inv, L.Inv, CallsOk, DeliveredAll, CarefulOn;
    RunKeeps(r);
    var s := End(r);
    assert NodeOk(s.nodes[n].l1, s.valkey.holds, s.valkey.now, s.l1Ttl);
    if Stale(s, n, k, floor) {
      var g :| g in s.nodes[n].l1.evictions && s.nodes[n].l1.evictions[g].stage.Done?
        && Covering(s.nodes[n].l1.evictions[g], k, floor);
      L.OutdatedIsCaught(s.nodes[n].l1, k, g);
      if CarefulOn(r, n) {
        CarefulSees(r, n);
      }
    }
  }

  /** A listening node that has a message of another's behind it, and its evictions finished, has evicted for
      that invalidation: on the message, or by its clear on subscribing. */
  lemma ListenersEvict(r: Run, n: nat, c: nat)
    requires Legal(r) && AllTimely(r) && n in End(r).nodes && c in End(r).invalidations
    requires var s := End(r);
             && s.nodes[n].ear.Listening? && c !in s.nodes[n].inbox && s.invalidations[c].node != n
             && s.invalidations[c].progress.Published?
             && forall g :: g in s.nodes[n].l1.evictions ==> s.nodes[n].l1.evictions[g].stage.Done?
    ensures c in End(r).valkey.calls
    ensures var call := End(r).valkey.calls[c];
            Evicted(End(r), n, call.key, call.floor) && (CarefulOn(r, n) ==> !Stale(End(r), n, call.key, call.floor))
  {
    hide Next, V.Inv, L.Inv, NodesOk, CarefulOn;
    RunKeeps(r);
    var s := End(r);
    assert CallOk(s, c) && Delivered(s, n, c);
    var call := s.valkey.calls[c];
    var g :| g in s.nodes[n].l1.evictions && Covering(s.nodes[n].l1.evictions[g], call.key, call.floor);
    assert Evicted(s, n, call.key, call.floor);
    EvictedNodesAreClean(r, n, call.key, call.floor);
  }

  /** On every node, the invalidating one too: an older value is gone, at the latest, by 11/10 of l1_ttl and
      its own loader's delay after the hold. */
  lemma StaleIsBounded(r: Run, n: nat, h: V.Hold)
    requires Legal(r) && AllTimely(r) && h in End(r).valkey.holds && n in End(r).nodes
    ensures var s := End(r);
            var l1 := s.nodes[n].l1;
            h.key in l1.cache.entries ==>
              && l1.cache.entries[h.key].loader in l1.loaders
              && var l := L.Owner(l1, h.key);
              (l.value < h.floor ==>
                l1.cache.entries[h.key].until <= h.at + (l.insertedAt - l.readAt) + s.l1Ttl + s.l1Ttl / 10)
  {
    hide Next, V.Inv, L.Inv, CallsOk, DeliveredAll;
    RunKeeps(r);
    var s := End(r);
    var l1 := s.nodes[n].l1;
    assert NodeOk(l1, s.valkey.holds, s.valkey.now, s.l1Ttl);
    if h.key in l1.cache.entries {
      L.OldExpires(l1, h.key, L.Raise(h.key, h.floor, h.at));
    }
  }

  // ------------------------------------------------------------------ the invalidating node's window

  /** A call's own eviction, of its key on its node, is finished once the hold is placed. */
  predicate OwnEviction(s: System, c: nat)
    requires CallOk(s, c)
  {
    var i := s.invalidations[c];
    && i.node in s.nodes && i.gen in s.nodes[i.node].l1.evictions
    && s.nodes[i.node].l1.evictions[i.gen].key == Some(s.valkey.calls[c].key)
    && (!i.progress.Evicting? ==> s.nodes[i.node].l1.evictions[i.gen].stage.Done?)
  }

  ghost predicate OwnEvictions(s: System)
    requires CallsOk(s)
  {
    forall c :: c in s.invalidations ==> OwnEviction(s, c)
  }

  /** Loader `id` of the call's node took its ticket once the call's own eviction had marked. */
  predicate LateTicket(s: System, c: nat, id: nat)
    requires CallOk(s, c) && OwnEviction(s, c)
  {
    var i := s.invalidations[c];
    var l1 := s.nodes[i.node].l1;
    && id in l1.loaders && l1.loaders[id].HasRead() && l1.loaders[id].key == s.valkey.calls[c].key
    && !l1.evictions[i.gen].stage.Drawn? && l1.evictions[i.gen].at <= l1.loaders[id].ticketAt
  }

  /** What the loader last read in the run came from Valkey, not from the source. */
  predicate FromValkey(r: Run, n: nat, id: nat) {
    r.Then? && (r.action == Hit(n, id) || (r.action != Miss(n, id) && FromValkey(r.before, n, id)))
  }

  /** It has read less than the call stands for. */
  predicate LateAndOld(s: System, c: nat, id: nat)
    requires CallOk(s, c) && OwnEviction(s, c)
  {
    LateTicket(s, c, id) && s.nodes[s.invalidations[c].node].l1.loaders[id].value < s.valkey.calls[c].floor
  }

  /** A loader with a late ticket and an older value has it from Valkey. */
  ghost predicate OldFromValkey(r: Run, s: System)
    requires CallsOk(s) && OwnEvictions(s)
  {
    forall c, id :: c in s.invalidations && LateAndOld(s, c, id) ==> FromValkey(r, s.invalidations[c].node, id)
  }

  /** A call stays what it is, and goes past its eviction only once that is done. */
  lemma CallStays(s: System, a: Action, c: nat)
    requires Enabled(s, a) && CallOk(s, c)
    ensures c in Next(s, a).invalidations && c in Next(s, a).valkey.calls
    ensures Next(s, a).valkey.calls[c] == s.valkey.calls[c]
    ensures var i, j := s.invalidations[c], Next(s, a).invalidations[c];
            && j.node == i.node && j.gen == i.gen
            && (i.progress.Evicting? && !j.progress.Evicting? ==>
                  && i.node in s.nodes && i.gen in s.nodes[i.node].l1.evictions
                  && s.nodes[i.node].l1.evictions[i.gen].stage.Done?)
            && (!i.progress.Evicting? ==> !j.progress.Evicting? && j.heldAt == i.heldAt)
  {
    hide L.Next, L.Enabled, L.Moved;
  }

  lemma EvictionPersists(s: System, a: Action, n: nat, g: nat)
    requires V.Inv(s.valkey) && NodesOk(s) && Enabled(s, a) && n in s.nodes && g in s.nodes[n].l1.evictions
    ensures n in Next(s, a).nodes && g in Next(s, a).nodes[n].l1.evictions
    ensures var e, f := s.nodes[n].l1.evictions[g], Next(s, a).nodes[n].l1.evictions[g];
            && f.key == e.key && (e.stage.Done? ==> f.stage.Done?)
            && (!e.stage.Drawn? ==> !f.stage.Drawn? && f.at == e.at)
            && (e.stage.Drawn? && !f.stage.Drawn? ==> f.at == s.nodes[n].l1.clock)
  {
    hide Next, Enabled, V.Inv, L.Next, L.Enabled, L.Marks, L.LoadersOk, L.SlotsOk, L.ReadsOk, L.FloorsOk, NodeAction;
    NodeFollows(s, a, n);
    assert NodeOk(s.nodes[n].l1, s.valkey.holds, s.valkey.now, s.l1Ttl);
    if NodeAction(s, a, n).Some? {
      L.EvictionsStay(s.nodes[n].l1, NodeAction(s, a, n).value, g);
    }
  }

  /** A call not there before is this step's, and its eviction is only drawn. */
  lemma NewCall(s: System, a: Action, c: nat)
    requires Enabled(s, a) && c !in s.invalidations && c in Next(s, a).invalidations
    ensures CallOk(Next(s, a), c) && OwnEviction(Next(s, a), c)
    ensures var i := Next(s, a).invalidations[c]; Next(s, a).nodes[i.node].l1.evictions[i.gen].stage.Drawn?
  {
    hide L.Moved;
  }

  lemma OwnEvictionsStep(s: System, a: Action)
    requires Inv(s) && OwnEvictions(s) && Enabled(s, a) && Inv(Next(s, a))
    ensures OwnEvictions(Next(s, a))
  {
    hide V.Inv, NodesOk, DeliveredAll, Next, Enabled;
    forall c | c in Next(s, a).invalidations ensures OwnEviction(Next(s, a), c) {
      if c in s.invalidations {
        assert CallOk(s, c) && OwnEviction(s, c);
        CallStays(s, a, c);
        EvictionPersists(s, a, s.invalidations[c].node, s.invalidations[c].gen);
      } else {
        NewCall(s, a, c);
      }
    }
  }

  /** A step of node `n` in which loader `id` reads is a hit or a miss of its own. */
  lemma ReadByHitOrMiss(s: System, a: Action, n: nat, id: nat)
    requires V.Inv(s.valkey) && NodesOk(s) && Enabled(s, a) && n in s.nodes && n in Next(s, a).nodes
    requires id in Next(s, a).nodes[n].l1.loaders && Next(s, a).nodes[n].l1.loaders[id].HasRead()
    ensures id in s.nodes[n].l1.loaders
    ensures var l, m := s.nodes[n].l1.loaders[id], Next(s, a).nodes[n].l1.loaders[id];
            && m.key == l.key && m.ticketAt == l.ticketAt
            && (l.HasRead() ==> m.value == l.value && a != Hit(n, id) && a != Miss(n, id))
            && (!l.HasRead() ==> a == Hit(n, id) || (a == Miss(n, id) && m.value == V.Version(s.valkey, l.key)))
  {
    hide Next, V.Inv, NodesOk, L.Next, L.Enabled, V.Lookup, V.Version;
    NodeFollows(s, a, n);
    if NodeAction(s, a, n).Some? {
      L.ReadsOnce(s.nodes[n].l1, NodeAction(s, a, n).value, id);
    }
  }

  lemma WindowStep(r: Run, s: System, a: Action, t: System, c: nat, id: nat)
    requires Inv(s) && OwnEvictions(s) && OldFromValkey(r, s) && Enabled(s, a) && t == Next(s, a)
    requires Inv(t) && OwnEvictions(t) && c in t.invalidations && LateAndOld(t, c, id)
    ensures FromValkey(Then(r, a), t.invalidations[c].node, id)
  {
    hide Next, Enabled, DeliveredAll, NodesOk, L.Inv;
    if c !in s.invalidations {
      NewCall(s, a, c);
    } else {
      assert CallOk(s, c) && OwnEviction(s, c);
      CallStays(s, a, c);
      var n, g := s.invalidations[c].node, s.invalidations[c].gen;
      EvictionPersists(s, a, n, g);
      ReadByHitOrMiss(s, a, n, id);
      TicketInThePast(s, n, id);
      if s.nodes[n].l1.loaders[id].HasRead() {
        assert LateAndOld(s, c, id);
      }
    }
  }

  lemma TicketInThePast(s: System, n: nat, id: nat)
    requires NodesOk(s) && n in s.nodes && id in s.nodes[n].l1.loaders
    ensures s.nodes[n].l1.loaders[id].ticketAt < s.nodes[n].l1.clock
  {
    hide L.EvictionsOk, L.Marks, L.SlotsOk, L.FloorsOk, L.ReadsOk;
    var l1 := s.nodes[n].l1;
    assert NodeOk(l1, s.valkey.holds, s.valkey.now, s.l1Ttl);
    assert L.LoaderOk(l1.loaders[id], l1.evictions, l1.clock);
  }

  lemma {:induction false} RunKeepsWindow(r: Run)
    requires Legal(r) && AllTimely(r)
    ensures Inv(End(r)) && OwnEvictions(End(r)) && OldFromValkey(r, End(r))
  {
    RunKeeps(r);
    hide Next, Enabled, Timely, Inv, LateAndOld;
    if r.Then? {
      RunKeepsWindow(r.before);
      var s, t := End(r.before), End(r);
      OwnEvictionsStep(s, r.action);
      forall c, id | c in t.invalidations && LateAndOld(t, c, id) ensures FromValkey(r, t.invalidations[c].node, id) {
        WindowStep(r.before, s, r.action, t, c, id);
      }
    }
  }

  /** Loader `id` is in the window of call `c`: its ticket is newer than the mark of the call's own eviction,
      and it read, from Valkey, no later than the hold was placed. */
  predicate InWindow(r: Run, s: System, c: nat, id: nat)
    requires CallOk(s, c) && OwnEviction(s, c)
  {
    && LateTicket(s, c, id)
    && s.nodes[s.invalidations[c].node].l1.loaders[id].readAt <= s.invalidations[c].heldAt
    && FromValkey(r, s.invalidations[c].node, id)
  }

  /** An older value on the invalidating node, with nothing left to recheck, is there by a loader in the window,
      or one that passed its recheck when the record of the call's own eviction was gone. */
  ghost predicate OnlyByWindow(r: Run, s: System, c: nat)
    requires CallOk(s, c) && OwnEviction(s, c)
  {
    var n, call := s.invalidations[c].node, s.valkey.calls[c];
    Stale(s, n, call.key, call.floor) ==>
      var l1 := s.nodes[n].l1;
      || InWindow(r, s, c, l1.cache.entries[call.key].loader)
      || L.Overlooked(L.Owner(l1, call.key), l1.evictions[s.invalidations[c].gen])
  }

  lemma StaleInWindow(r: Run, s: System, c: nat)
    requires Inv(s) && OwnEvictions(s) && OldFromValkey(r, s) && c in s.invalidations
    requires !s.invalidations[c].progress.Evicting?
    ensures CallOk(s, c) && OwnEviction(s, c) && OnlyByWindow(r, s, c)
  {
    hide V.Inv, DeliveredAll, NodeOk, FromValkey;
    assert CallOk(s, c) && OwnEviction(s, c);
    var i, call := s.invalidations[c], s.valkey.calls[c];
    if Stale(s, i.node, call.key, call.floor) {
      StaleOwner(s, i.node, call.key, i.gen, V.Hold(call.key, call.floor, i.heldAt));
      var id := s.nodes[i.node].l1.cache.entries[call.key].loader;
      assert LateTicket(s, c, id) ==> LateAndOld(s, c, id);
    }
  }

  /** In every run, once the hold is placed. */
  lemma StaleIsInWindow(r: Run, c: nat)
    requires Legal(r) && AllTimely(r) && c in End(r).invalidations && !End(r).invalidations[c].progress.Evicting?
    ensures CallOk(End(r), c) && OwnEviction(End(r), c) && OnlyByWindow(r, End(r), c)
  {
    hide Next, Inv, OwnEviction, OnlyByWindow, OldFromValkey;
    RunKeepsWindow(r);
    StaleInWindow(r, End(r), c);
  }

  lemma StaleOwner(s: System, n: nat, k: string, g: nat, h: V.Hold)
    requires NodesOk(s) && n in s.nodes && h in s.valkey.holds && h.key == k && Stale(s, n, k, h.floor)
    requires g in s.nodes[n].l1.evictions && s.nodes[n].l1.evictions[g].key == Some(k)
    requires s.nodes[n].l1.evictions[g].stage.Done?
    ensures var l := L.Owner(s.nodes[n].l1, k);
            && l.key == k && l.HasRead() && l.readAt <= h.at
            && (s.nodes[n].l1.evictions[g].at <= l.ticketAt || L.Overlooked(l, s.nodes[n].l1.evictions[g]))
  {
    hide L.EvictionsOk, L.Marks, L.LoadersOk, L.FloorsOk;
    var l1 := s.nodes[n].l1;
    assert NodeOk(l1, s.valkey.holds, s.valkey.now, s.l1Ttl);
    var l := L.Owner(l1, k);
    assert L.OwnerOk(l, k, l1.cache.entries[k], l1.evictions);
    assert L.ReadOk(l, l1.raises, l1.now);
    assert L.ReadByRaise(l, L.Raise(k, h.floor, h.at));
  }

  /** So the invalidating node is clean as well, unless a load of the key is in the window. */
  lemma CleanOutsideWindow(r: Run, c: nat)
    requires Legal(r) && AllTimely(r) && c in End(r).invalidations && !End(r).invalidations[c].progress.Evicting?
    requires CarefulOn(r, End(r).invalidations[c].node)
    ensures CallOk(End(r), c) && OwnEviction(End(r), c)
    ensures (forall id :: !InWindow(r, End(r), c, id)) ==>
              !Stale(End(r), End(r).invalidations[c].node, End(r).valkey.calls[c].key, End(r).valkey.calls[c].floor)
  {
    hide Next, InWindow, CarefulOn;
    StaleIsInWindow(r, c);
    CarefulSees(r, End(r).invalidations[c].node);
  }

  /** Loads are timely, and no record is forgotten, on any node, that a load still needs. */
  ghost predicate AllSound(r: Run)
    requires Legal(r)
  {
    AllTimely(r) && forall n :: n in End(r).nodes ==> RemembersOn(r, n)
  }

  ghost predicate RemembersOn(r: Run, n: nat)
    requires Legal(r)
  {
    L.Legal(NodeRun(r, n)) && L.Remembering(NodeRun(r, n))
  }

  lemma SoundIsCareful(r: Run, n: nat)
    requires Legal(r) && AllSound(r) && n in End(r).nodes
    ensures CarefulOn(r, n)
  {
    hide Next, L.Legal, L.End, NodeRun;
    assert RemembersOn(r, n);
  }

  /** A step that forgets no record keeps a run sound. */
  lemma SoundStep(r: Run, a: Action)
    requires Legal(Then(r, a)) && AllSound(r) && Timely(End(r), a) && (a.Local? ==> !a.step.Forget?)
    ensures AllSound(Then(r, a))
  {
    hide Next, Enabled, Timely, L.Next, L.Enabled, L.Remembers;
    NodesStay(End(r), a);
    forall n | n in End(r).nodes ensures RemembersOn(Then(r, a), n) {
      assert RemembersOn(r, n);
      NodeRunIsLegal(r, n);
      NodeRunIsLegal(Then(r, a), n);
      var step := NodeAction(End(r), a, n);
      if step.Some? {
        assert L.Remembers(L.End(NodeRun(r, n)), step.value) by { NoForgetting(End(r), a, n); }
      }
    }
  }

  lemma NoForgetting(s: System, a: Action, n: nat)
    requires Enabled(s, a) && (a.Local? ==> !a.step.Forget?) && NodeAction(s, a, n).Some? && n in s.nodes
    ensures L.Remembers(s.nodes[n].l1, NodeAction(s, a, n).value)
  {
  }
}

/** The invalidating node is not covered: a run, with every load timely and nothing forgotten, after which
    its L1 keeps a value older than the write it invalidated, with every loader and eviction finished. The
    value was read from Valkey between the node's own eviction and the hold. */
module InvalidatingNode {
  import opened Bytes
  import opened Coherence
  import L = L1Runs
  import T = L1
  import V = Valkey

  const TTL: nat := 10

  /** A system of one node, numbered 0, that is not listening. */
  function Lone(v: V.State, l1: L.State, calls: map<nat, Invalidation>): System {
    System(v, map[0 := Node(l1, Off, {})], calls, TTL)
  }

  /** A sound run to such a system. */
  ghost predicate To(r: Run, v: V.State, l1: L.State, calls: map<nat, Invalidation>) {
    hide Lone;
    Legal(r) && AllSound(r) && End(r) == Lone(v, l1, calls)
  }

  lemma Extend(r: Run, v: V.State, l1: L.State, calls: map<nat, Invalidation>, a: Action, w: V.State, m: L.State,
               others: map<nat, Invalidation>)
    returns (q: Run)
    requires To(r, v, l1, calls)
    requires Enabled(Lone(v, l1, calls), a) && Timely(Lone(v, l1, calls), a) && (a.Local? ==> !a.step.Forget?)
    requires Next(Lone(v, l1, calls), a) == Lone(w, m, others)
    ensures To(q, w, m, others)
  {
    hide Lone, Enabled, Timely, Next, AllSound;
    q := Then(r, a);
    SoundStep(r, a);
  }

  lemma LocalGo(r: Run, v: V.State, l1: L.State, calls: map<nat, Invalidation>, a: L.Action) returns (q: Run)
    requires To(r, v, l1, calls) && L.Enabled(l1, a) && !a.Draw? && !a.Lift? && !a.Wait? && !a.Forget?
    requires a.Advance? ==> a.ttl == TTL && !l1.loaders[a.id].pc.ReadSource?
    ensures To(q, v, L.Next(l1, a), calls)
  {
    hide L.Next, L.Enabled, To;
    var m := L.Next(l1, a);
    assert Lone(v, l1, calls).nodes[0 := Node(m, Off, {})] == Lone(v, m, calls).nodes;
    q := Extend(r, v, l1, calls, Local(0, a), v, m, calls);
  }

  lemma MissGo(r: Run, v: V.State, l1: L.State, calls: map<nat, Invalidation>, id: nat) returns (q: Run)
    requires To(r, v, l1, calls) && id in l1.loaders && l1.loaders[id].pc.ReadSource? && (0, id) !in v.loads
    ensures To(q, V.Next(v, V.Read((0, id), l1.loaders[id].key)),
               L.Moved(l1, id, V.Version(v, l1.loaders[id].key), 0).(clock := l1.clock + 1), calls)
  {
    hide L.Moved, To, V.Next, V.Version;
    var k := l1.loaders[id].key;
    var m := L.Moved(l1, id, V.Version(v, k), 0).(clock := l1.clock + 1);
    assert Lone(v, l1, calls).nodes[0 := Node(m, Off, {})] == Lone(v, m, calls).nodes;
    q := Extend(r, v, l1, calls, Miss(0, id), V.Next(v, V.Read((0, id), k)), m, calls);
  }

  lemma StoreGo(r: Run, v: V.State, l1: L.State, calls: map<nat, Invalidation>, id: nat, ttl: nat) returns (q: Run)
    requires To(r, v, l1, calls) && (0, id) in v.loads && V.Timely(v, V.Store((0, id), ttl))
    ensures To(q, V.Next(v, V.Store((0, id), ttl)), l1, calls)
  {
    hide To, V.Next, V.Timely;
    q := Extend(r, v, l1, calls, Store(0, id, ttl), V.Next(v, V.Store((0, id), ttl)), l1, calls);
  }

  lemma WriteGo(r: Run, v: V.State, l1: L.State, calls: map<nat, Invalidation>, k: string) returns (q: Run)
    requires To(r, v, l1, calls)
    ensures To(q, V.Next(v, V.Write(k)), l1, calls)
  {
    hide To, V.Next;
    q := Extend(r, v, l1, calls, Write(k), V.Next(v, V.Write(k)), l1, calls);
  }

  lemma InvalidateGo(r: Run, v: V.State, l1: L.State, k: string) returns (q: Run)
    requires To(r, v, l1, map[]) && 0 !in v.calls
    ensures To(q, V.Next(v, V.Invalidate(0, k)), L.Next(l1, L.Draw(Some(k))),
               map[0 := Invalidation(0, l1.cache.generation + 1, Evicting, 0)])
  {
    hide To, V.Next, L.Next;
    var m := L.Next(l1, L.Draw(Some(k)));
    assert Lone(v, l1, map[]).nodes[0 := Node(m, Off, {})] == Lone(v, m, map[]).nodes;
    q := Extend(r, v, l1, map[], Invalidate(0, 0, k), V.Next(v, V.Invalidate(0, k)), m,
                map[0 := Invalidation(0, l1.cache.generation + 1, Evicting, 0)]);
  }

  // The one loader at a time, on L1's own clock.

  lemma L1Begins(l1: L.State, id: nat, k: string)
    requires id !in l1.loaders
    ensures L.Enabled(l1, L.Begin(id, k))
    ensures L.Next(l1, L.Begin(id, k)) ==
            l1.(loaders := l1.loaders[id := L.Begun(l1, k)], clock := l1.clock + 1)
  {
  }

  /** Where a loader goes next when nothing has been evicted or cleared since its ticket. */
  function Onwards(l1: L.State, l: L.Loader): L.Loader {
    match l.pc
    case TakeCleared => l.(ticket := l.ticket.(cleared := l1.cache.cleared), clearedAt := l1.clock, pc := L.ReadSource)
    case ReadSource => l.(readAt := l1.now, pc := L.CheckEvicted)
    case CheckEvicted => l.(pc := L.CheckCleared)
    case CheckCleared => l.(pc := L.Pc.Insert)
    case Insert => l.(insertedAt := l1.now, ttl := TTL, pc := L.RecheckEvicted)
    case RecheckEvicted => l.(pc := L.RecheckCleared, recheckedAt := l1.clock)
    case RecheckCleared => l.(pc := L.Finished)
    case Undo => l.(pc := L.Finished)
    case Finished => l
  }

  lemma L1Moves(l1: L.State, id: nat)
    requires id in l1.loaders && l1.cache.Evicted(l1.loaders[id].key) == l1.loaders[id].ticket.evicted
    requires var pc := l1.loaders[id].pc;
             && !pc.Finished? && !pc.ReadSource? && !pc.Undo?
             && (!pc.TakeCleared? ==> l1.cache.cleared == l1.loaders[id].ticket.cleared)
    ensures L.Enabled(l1, L.Advance(id, 0, TTL))
    ensures var l := l1.loaders[id];
            L.Next(l1, L.Advance(id, 0, TTL)) ==
              l1.(cache := if l.pc.Insert? then l1.cache.Put(l.key, L.Slot(id, l1.now + TTL)) else l1.cache,
                  loaders := l1.loaders[id := Onwards(l1, l)], clock := l1.clock + 1)
  {
  }

  lemma L1Reads(l1: L.State, id: nat, value: nat)
    requires id in l1.loaders && l1.loaders[id].pc.ReadSource? && l1.loaders[id].value == value
    ensures L.Moved(l1, id, value, 0) == l1.(loaders := l1.loaders[id := Onwards(l1, l1.loaders[id])])
  {
  }

  lemma L1GivesUp(l1: L.State, id: nat)
    requires id in l1.loaders && l1.loaders[id].pc.CheckEvicted?
    ensures L.Enabled(l1, L.GiveUp(id))
    ensures L.Next(l1, L.GiveUp(id)) == l1.(loaders := l1.loaders - {id}, clock := l1.clock + 1)
  {
  }

  lemma L1Evicts(l1: L.State, gen: nat)
    requires gen in l1.evictions && l1.evictions[gen].key.Some?
    ensures var e := l1.evictions[gen];
            && (e.stage.Drawn? ==>
                  && L.Enabled(l1, L.Mark(gen))
                  && L.Next(l1, L.Mark(gen)) == l1.(cache := l1.cache.Marked(e.key, gen),
                       evictions := l1.evictions[gen := e.(stage := L.Marked, at := l1.clock, markedAt := l1.now)], clock := l1.clock + 1))
            && (e.stage.Marked? ==>
                  && L.Enabled(l1, L.Empty(gen))
                  && L.Next(l1, L.Empty(gen)) == l1.(cache := l1.cache.Drop(e.key.value),
                       evictions := l1.evictions[gen := e.(stage := L.Done)], clock := l1.clock + 1))
  {
  }

  // ------------------------------------------------------------------ the run

  const LOADED := V.INIT.(cells := map["k" := V.Value(0, 60_000)])

  function Loads(l: L.Loader, id: nat): map<nat, L.Loader> { map[id := l] }

  /** The key is loaded and put in Valkey; the node keeps nothing of it. */
  lemma LoadsOnce() returns (r: Run)
    ensures To(r, LOADED, L.INIT.(clock := 4), map[])
  {
    r := Begins();
    hide To, L.Next, L.Moved, L.Enabled;
    var l := L.Loader("k", L.ReadSource, T.Ticket(None, 0), 0, 1, 0, 0, 0, 0, 0, 0);
    var l1 := L.INIT.(loaders := Loads(l, 0), clock := 2);
    r := MissGo(r, V.INIT, l1, map[], 0);
    L1Reads(l1, 0, 0);
    assert l1.loaders[0 := l.(pc := L.CheckEvicted)] == Loads(l.(pc := L.CheckEvicted), 0);
    var read := L.INIT.(loaders := Loads(l.(pc := L.CheckEvicted), 0), clock := 3);
    var v := V.INIT.(loads := map[(0, 0) := V.Load("k", 0, 0)]);
    assert V.Next(V.INIT, V.Read((0, 0), "k")) == v;
    r := StoreGo(r, v, read, map[], 0, 60_000);
    assert V.Next(v, V.Store((0, 0), 60_000)) == LOADED;
    L1GivesUp(read, 0);
    r := LocalGo(r, LOADED, read, map[], L.GiveUp(0));
    assert read.loaders - {0} == map[];
  }

  lemma Starts() returns (r: Run)
    ensures To(r, V.INIT, L.INIT, map[])
  {
    r := Start({0}, TTL);
    assert Init({0}, TTL).nodes == Lone(V.INIT, L.INIT, map[]).nodes;
  }

  lemma Begins() returns (r: Run)
    ensures var l := L.Loader("k", L.ReadSource, T.Ticket(None, 0), 0, 1, 0, 0, 0, 0, 0, 0);
            To(r, V.INIT, L.INIT.(loaders := Loads(l, 0), clock := 2), map[])
  {
    hide To, L.Next, L.Moved, L.Enabled;
    r := Starts();
    L1Begins(L.INIT, 0, "k");
    r := LocalGo(r, V.INIT, L.INIT, map[], L.Begin(0, "k"));
    var l := L.Loader("k", L.TakeCleared, T.Ticket(None, 0), 0, 0, 0, 0, 0, 0, 0, 0);
    var l1 := L.INIT.(loaders := Loads(l, 0), clock := 1);
    assert L.INIT.loaders[0 := l] == Loads(l, 0);
    L1Moves(l1, 0);
    assert l1.loaders[0 := Onwards(l1, l)] == Loads(Onwards(l1, l), 0);
    r := LocalGo(r, V.INIT, l1, map[], L.Advance(0, 0, TTL));
  }

  const CALLED := LOADED.(versions := map["k" := 1], calls := map[0 := V.Call("k", 1)])
  const OWN := L.Eviction(Some("k"), L.Drawn, 0, 0, map[])
  const EVICTED := L.INIT.(cache := T.Cache(map[], map["k" := 1], 1, 0),
    evictions := map[1 := OWN.(stage := L.Done, at := 5)], clock := 7)
  const CALL := Invalidation(0, 1, Evicting, 0)

  /** The key is written; the node starts to invalidate it, and finishes its own eviction. */
  lemma EvictsItself() returns (r: Run)
    ensures To(r, CALLED, EVICTED, map[0 := CALL])
  {
    hide To, L.Next, L.Moved, L.Enabled;
    r := LoadsOnce();
    var l1 := L.INIT.(clock := 4);
    r := WriteGo(r, LOADED, l1, map[], "k");
    var v := LOADED.(versions := map["k" := 1]);
    assert V.Next(LOADED, V.Write("k")) == v;
    r := InvalidateGo(r, v, l1, "k");
    assert V.Next(v, V.Invalidate(0, "k")) == CALLED;
    var drawn := L.INIT.(cache := T.Cache(map[], map[], 1, 0), evictions := map[1 := OWN], clock := 5);
    L1Draws(l1);
    assert To(r, CALLED, drawn, map[0 := CALL]);
    L1Evicts(drawn, 1);
    r := LocalGo(r, CALLED, drawn, map[0 := CALL], L.Mark(1));
    var marked := L.INIT.(cache := T.Cache(map[], map["k" := 1], 1, 0),
      evictions := map[1 := OWN.(stage := L.Marked, at := 5)], clock := 6);
    assert drawn.evictions[1 := OWN.(stage := L.Marked, at := 5)] == marked.evictions;
    assert drawn.cache.Marked(Some("k"), 1) == marked.cache;
    L1Evicts(marked, 1);
    r := LocalGo(r, CALLED, marked, map[0 := CALL], L.Empty(1));
    assert marked.evictions[1 := OWN.(stage := L.Done, at := 5)] == EVICTED.evictions;
    assert marked.cache.Drop("k") == EVICTED.cache;
  }

  lemma L1Draws(l1: L.State)
    requires l1 == L.INIT.(clock := 4)
    ensures L.Next(l1, L.Draw(Some("k"))) == L.INIT.(cache := T.Cache(map[], map[], 1, 0), evictions := map[1 := OWN], clock := 5)
  {
  }

  /** Loader 1, whose ticket is newer than that eviction, about to read. */
  const SECOND := L.Loader("k", L.ReadSource, T.Ticket(Some(1), 0), 7, 8, 0, 0, 0, 0, 0, 0)

  /** Before the hold is placed, a load begins. */
  lemma BeginsInBetween() returns (r: Run)
    ensures To(r, CALLED, EVICTED.(loaders := map[1 := SECOND], clock := 9), map[0 := CALL])
  {
    hide To, L.Next, L.Moved, L.Enabled;
    r := EvictsItself();
    L1Begins(EVICTED, 1, "k");
    r := LocalGo(r, CALLED, EVICTED, map[0 := CALL], L.Begin(1, "k"));
    var l1 := EVICTED.(loaders := map[1 := L.Begun(EVICTED, "k")], clock := 8);
    assert EVICTED.loaders[1 := L.Begun(EVICTED, "k")] == l1.loaders;
    L1Moves(l1, 1);
    r := LocalGo(r, CALLED, l1, map[0 := CALL], L.Advance(1, 0, TTL));
    assert l1.loaders[1 := Onwards(l1, l1.loaders[1])] == map[1 := SECOND];
  }

  /** It finds the old value in Valkey. The invalidation is published, every loader and eviction on its node has
      finished, and yet the node holds the version before the write. */
  lemma InvalidatorCanStayStale() returns (r: Run)
    ensures Legal(r) && AllSound(r)
    ensures var s := End(r);
            && 0 in s.invalidations && s.invalidations[0].progress.Published? && s.invalidations[0].node == 0
            && 0 in s.valkey.calls && s.valkey.calls[0] == V.Call("k", 1)
            && 0 in s.nodes && Stale(s, 0, "k", 1)
            && (forall id :: id in s.nodes[0].l1.loaders ==> s.nodes[0].l1.loaders[id].pc.Finished?)
            && (forall g :: g in s.nodes[0].l1.evictions ==> s.nodes[0].l1.evictions[g].stage.Done?)
  {
    hide Legal, AllSound, End, Next;
    var q := BeginsInBetween();
    q := WindowIsReal(q, 0, 1);
    r := Publishes(q, 0);
  }

  lemma Publishes(q: Run, c: nat) returns (r: Run)
    requires Legal(q) && c in End(q).invalidations && End(q).invalidations[c].progress.Held?
    ensures r == Then(q, Publish(c)) && Legal(r) && (AllSound(q) ==> AllSound(r))
    ensures End(r).valkey == End(q).valkey && End(r).nodes.Keys == End(q).nodes.Keys
    ensures forall n :: n in End(q).nodes ==> End(r).nodes[n].l1 == End(q).nodes[n].l1
    ensures End(r).invalidations == End(q).invalidations[c := End(q).invalidations[c].(progress := Published)]
  {
    hide AllSound;
    r := Then(q, Publish(c));
    if AllSound(q) {
      SoundStep(q, Publish(c));
    }
  }

  // ------------------------------------------------------------------ what a hit in the window leaves

  /** Loader `id` of node `n` is at `pc` with `value`, with nothing evicted or cleared since its ticket; and
      once it has inserted, the entry is its own. */
  predicate Along(s: System, n: nat, id: nat, k: string, value: nat, pc: L.Pc) {
    && n in s.nodes && id in s.nodes[n].l1.loaders
    && var l1, l := s.nodes[n].l1, s.nodes[n].l1.loaders[id];
    && l.pc == pc && l.key == k && l.value == value
    && l1.cache.Evicted(k) == l.ticket.evicted && l1.cache.cleared == l.ticket.cleared
    && (l.Inserted() ==> k in l1.cache.entries && l1.cache.entries[k].loader == id)
  }

  predicate Leads(pc: L.Pc, next: L.Pc) {
    match pc
    case CheckEvicted => next.CheckCleared?
    case CheckCleared => next.Insert?
    case Insert => next.RecheckEvicted?
    case RecheckEvicted => next.RecheckCleared?
    case RecheckCleared => next.Finished?
    case _ => false
  }

  lemma L1Along(l1: L.State, id: nat, ttl: nat)
    requires id in l1.loaders && 0 < ttl
    requires var l := l1.loaders[id];
             && (l.pc.CheckEvicted? || l.pc.CheckCleared? || l.pc.Insert? || l.pc.RecheckEvicted? || l.pc.RecheckCleared?)
             && l1.cache.Evicted(l.key) == l.ticket.evicted && l1.cache.cleared == l.ticket.cleared
    ensures L.Enabled(l1, L.Advance(id, 0, ttl))
    ensures var l, m := l1.loaders[id], L.Next(l1, L.Advance(id, 0, ttl));
            && id in m.loaders && Leads(l.pc, m.loaders[id].pc)
            && m.loaders[id].key == l.key && m.loaders[id].value == l.value && m.loaders[id].ticket == l.ticket
            && m.cache == (if l.pc.Insert? then l1.cache.Put(l.key, L.Slot(id, l1.now + ttl)) else l1.cache)
            && m.evictions == l1.evictions && m.loaders.Keys == l1.loaders.Keys
  {
  }

  /** The rest of the system, as a load goes on. */
  predicate SameAround(s: System, t: System, n: nat) {
    && n in s.nodes && n in t.nodes && t.nodes[n].l1.evictions == s.nodes[n].l1.evictions
    && t.nodes[n].l1.loaders.Keys == s.nodes[n].l1.loaders.Keys
    && t.l1Ttl == s.l1Ttl && t.valkey == s.valkey && t.invalidations == s.invalidations
  }

  /** Run `q`, that goes on from `r`, is as sound as it. */
  ghost predicate AsSound(r: Run, q: Run)
    requires Legal(r) && Legal(q)
  {
    (AllTimely(r) ==> AllTimely(q)) && (AllSound(r) ==> AllSound(q))
  }

  lemma AsSoundStep(r: Run, a: Action)
    requires Legal(Then(r, a)) && !a.Store? && (a.Local? ==> !a.step.Forget?)
    ensures AsSound(r, Then(r, a))
  {
    hide Next, Enabled, AllSound;
    if AllSound(r) {
      SoundStep(r, a);
    }
  }

  lemma AdvanceOnce(r: Run, n: nat, id: nat, k: string, value: nat, pc: L.Pc, next: L.Pc) returns (q: Run)
    requires Legal(r) && 0 < End(r).l1Ttl && Along(End(r), n, id, k, value, pc) && Leads(pc, next)
    ensures q == Then(r, Local(n, L.Advance(id, 0, End(r).l1Ttl))) && Legal(q) && AsSound(r, q)
    ensures Along(End(q), n, id, k, value, next) && SameAround(End(r), End(q), n)
  {
    var s := End(r);
    var a := L.Advance(id, 0, s.l1Ttl);
    L1Along(s.nodes[n].l1, id, s.l1Ttl);
    hide L.Next, L.Enabled, AsSound;
    q := Then(r, Local(n, a));
    AsSoundStep(r, Local(n, a));
  }

  /** Run `q` goes on to become run `r`. */
  predicate Continues(q: Run, r: Run) {
    q == r || (r.Then? && Continues(q, r.before))
  }

  /** Each of the loader's steps passes. */
  lemma FinishesLoad(r: Run, n: nat, id: nat, k: string, value: nat) returns (q: Run)
    requires Legal(r) && 0 < End(r).l1Ttl && Along(End(r), n, id, k, value, L.CheckEvicted)
    ensures Continues(r, q) && Legal(q) && AsSound(r, q) && Along(End(q), n, id, k, value, L.Finished)
    ensures SameAround(End(r), End(q), n)
  {
    hide Legal, End, AllTimely, AllSound, Along;
    var q1 := AdvanceOnce(r, n, id, k, value, L.CheckEvicted, L.CheckCleared);
    assert Continues(r, q1);
    var q2 := AdvanceOnce(q1, n, id, k, value, L.CheckCleared, L.Pc.Insert);
    assert Continues(r, q2);
    var q3 := AdvanceOnce(q2, n, id, k, value, L.Pc.Insert, L.RecheckEvicted);
    assert Continues(r, q3);
    var q4 := AdvanceOnce(q3, n, id, k, value, L.RecheckEvicted, L.RecheckCleared);
    assert Continues(r, q4);
    q := AdvanceOnce(q4, n, id, k, value, L.RecheckCleared, L.Finished);
  }

  /** Nothing has been evicted or cleared since the loader's ticket. */
  predicate Unspoiled(l1: L.State, id: nat) {
    && id in l1.loaders && l1.cache.Evicted(l1.loaders[id].key) == l1.loaders[id].ticket.evicted
    && l1.cache.cleared == l1.loaders[id].ticket.cleared
  }

  lemma HitsOnce(r: Run, n: nat, id: nat) returns (q: Run)
    requires Legal(r) && Enabled(End(r), Hit(n, id)) && Unspoiled(End(r).nodes[n].l1, id)
    ensures q == Then(r, Hit(n, id)) && Legal(q) && AsSound(r, q) && SameAround(End(r), End(q), n)
    ensures var k := End(r).nodes[n].l1.loaders[id].key;
            Along(End(q), n, id, k, V.Lookup(End(r).valkey, k).value, L.CheckEvicted)
  {
    hide V.Lookup, AsSound;
    q := Then(r, Hit(n, id));
    AsSoundStep(r, Hit(n, id));
  }

  /** From every state a run may reach: a load that hits Valkey, and then goes on with nothing evicted or cleared
      since its ticket, leaves its node stale exactly when what Valkey held was below the floor. */
  lemma HitLeavesStale(r: Run, n: nat, id: nat, floor: nat) returns (q: Run)
    requires Legal(r) && 0 < End(r).l1Ttl && Enabled(End(r), Hit(n, id))
    requires Unspoiled(End(r).nodes[n].l1, id)
    ensures Continues(Then(r, Hit(n, id)), q) && Legal(q) && AsSound(r, q) && SameAround(End(r), End(q), n)
    ensures var k := End(r).nodes[n].l1.loaders[id].key;
            Stale(End(q), n, k, floor) <==> V.Lookup(End(r).valkey, k).value < floor
    ensures id in End(q).nodes[n].l1.loaders && End(q).nodes[n].l1.loaders[id].pc.Finished?
  {
    hide Legal, End, AllTimely, AllSound, Along, V.Lookup, Unspoiled, Next;
    q := HitsOnce(r, n, id);
    var k := End(r).nodes[n].l1.loaders[id].key;
    var v := V.Lookup(End(r).valkey, k).value;
    q := FinishesLoad(q, n, id, k, v);
    AlongIsStale(End(q), n, id, k, v, floor);
  }

  lemma AlongIsStale(s: System, n: nat, id: nat, k: string, value: nat, floor: nat)
    requires Along(s, n, id, k, value, L.Finished)
    ensures Stale(s, n, k, floor) <==> value < floor
    ensures s.nodes[n].l1.loaders[id].pc.Finished?
  {
  }

  /** A call about to place its hold, and a load on its node about to hit Valkey for its key. */
  predicate HitBeforeHold(s: System, c: nat, id: nat) {
    && Enabled(s, PlaceHold(c)) && Enabled(s, Hit(s.invalidations[c].node, id))
    && s.nodes[s.invalidations[c].node].l1.loaders[id].key == s.valkey.calls[c].key
    && Unspoiled(s.nodes[s.invalidations[c].node].l1, id)
  }

  /** The hold is placed and the load finished, and nothing else has changed on its node. */
  predicate HeldSince(s: System, t: System, c: nat, id: nat)
    requires c in s.invalidations
  {
    var n := s.invalidations[c].node;
    && c in t.invalidations && t.invalidations[c].progress.Held? && t.invalidations[c].node == n
    && t.valkey.calls == s.valkey.calls
    && n in s.nodes && n in t.nodes && t.nodes[n].l1.evictions == s.nodes[n].l1.evictions
    && t.nodes[n].l1.loaders.Keys == s.nodes[n].l1.loaders.Keys
    && id in t.nodes[n].l1.loaders && t.nodes[n].l1.loaders[id].pc.Finished?
  }

  /** The window is no wider than it need be: from every state a run may reach, a load that hits Valkey in it
      leaves the invalidating node stale past the hold exactly when what Valkey held was older. */
  lemma WindowIsReal(r: Run, c: nat, id: nat) returns (q: Run)
    requires Legal(r) && 0 < End(r).l1Ttl && HitBeforeHold(End(r), c, id)
    ensures Legal(q) && AsSound(r, q) && Continues(Then(r, Hit(End(r).invalidations[c].node, id)), q)
    ensures HeldSince(End(r), End(q), c, id)
    ensures var n, call := End(r).invalidations[c].node, End(r).valkey.calls[c];
            Stale(End(q), n, call.key, call.floor) <==> V.Lookup(End(r).valkey, call.key).value < call.floor
  {
    hide Legal, End, AllTimely, AllSound, V.Lookup, Unspoiled, Next, Stale;
    var n, call := End(r).invalidations[c].node, End(r).valkey.calls[c];
    var p := HitLeavesStale(r, n, id, call.floor);
    q := HoldsAfter(p, c, n, call);
    assert Continues(Then(r, Hit(n, id)), q);
  }

  lemma HoldsAfter(r: Run, c: nat, n: nat, call: V.Call) returns (q: Run)
    requires Legal(r) && Enabled(End(r), PlaceHold(c)) && n in End(r).nodes
    requires End(r).valkey.calls[c] == call
    ensures q == Then(r, PlaceHold(c)) && Legal(q) && AsSound(r, q)
    ensures c in End(q).invalidations && End(q).invalidations[c].progress.Held?
    ensures End(q).invalidations[c].node == End(r).invalidations[c].node && End(q).valkey.calls == End(r).valkey.calls
    ensures n in End(q).nodes && End(q).nodes[n].l1.evictions == End(r).nodes[n].l1.evictions
    ensures End(q).nodes[n].l1.loaders == End(r).nodes[n].l1.loaders
    ensures Stale(End(q), n, call.key, call.floor) <==> Stale(End(r), n, call.key, call.floor)
  {
    hide AsSound;
    q := Then(r, PlaceHold(c));
    AsSoundStep(r, PlaceHold(c));
  }
}
