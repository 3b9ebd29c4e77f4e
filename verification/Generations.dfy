/** Master-key generations (api/src/key_custody/envelope.rs, generations.rs): nodes that share an environment
    and a table of wrapped data keys create generations under an advisory lock, adopt and load each other's,
    and encrypt under their current one. Every atomic step of any number of nodes and creations. */
module Generations {
  import opened Bytes

  /** What all nodes have in common: the generations of the environment, and what the backends give back for
      a wrapped key under a version's context. */
  datatype Site = Site(env: map<nat, nat>, unwrap: (string, nat, nat) -> Option<nat>)

  /** A generation in the table. Rows are never changed. */
  datatype Row = Row(backend: string, wrapped: nat)

  /** A value at rest: the generation it names, and the key it was sealed with. */
  datatype Blob = Blob(version: nat, key: nat)

  datatype Custody = Custody(backends: set<string>, primary: Option<string>)

  /** How far a node's attaching is: the backends are set, the rows it read and has still to unwrap, then the
      version to use. From the first on, its other calls may load and create. */
  datatype Attach = Detached | Opened | Reading(rows: map<nat, Row>, todo: set<nat>) | Chosen(version: nat) | Attached | Broken

  datatype Node = Node(keys: map<nat, nat>, current: nat, custody: Option<Custody>, attach: Attach)

  datatype Pc = Waiting | Holding | Ready(version: nat, key: nat, wrapped: nat) | Adopting(version: nat)
              | Committed(version: nat, key: nat) | Finished(version: nat) | Failed

  /** A call of `ensure_generation`. */
  datatype Task = Task(node: nat, backend: string, force: bool, pc: Pc)

  /** An encryption that has loaded `current`. */
  datatype Pick = Pick(node: nat, version: nat)

  datatype State = State(
    table: map<nat, Row>,
    lock: Option<nat>,
    nodes: map<nat, Node>,
    tasks: map<nat, Task>,
    picks: map<nat, Pick>,
    stored: set<Blob>,
    older: set<nat>)        // versions of rows at rest from before

  datatype Action =
    | AttachBegin(n: nat, backends: set<string>, primary: Option<string>)
    | AttachRead(n: nat)
    | AttachWithout(n: nat)
    | AttachRow(n: nat, v: nat, reachable: bool)
    | AttachFail(n: nat)
    | AttachPick(n: nat, v: nat)
    | AttachEnsure(n: nat, t: nat)
    | AttachAdopt(n: nat, t: nat)
    | AttachStore(n: nat)
    | NewGeneration(n: nat, t: nat)
    | TakeLock(t: nat)
    | Adopt(t: nat, v: nat)
    | LoadAdopted(t: nat)
    | Choose(t: nat, highest: nat, envHighest: nat, inUse: nat, key: nat, wrapped: nat)
    | Commit(t: nat)
    | Abort(t: nat)
    | WriteKey(t: nat)
    | RaiseCurrent(t: nat)
    | Load(n: nat, v: nat)
    | PickCurrent(p: nat, n: nat)
    | Seal(p: nat)
    | Delete(b: Blob)
    | DeleteOlder(v: nat)

  function Init(site: Site, ids: set<nat>, current: nat, table: map<nat, Row>, older: set<nat>): State {
    State(table, None, map n | n in ids :: Node(site.env, current, None, Detached), map[], map[], {}, older)
  }

  /** The greatest of a set of versions, 0 for none. */
  ghost predicate IsHighest(h: nat, versions: set<nat>) {
    (versions == {} && h == 0) || (h in versions && forall v :: v in versions ==> v <= h)
  }

  function Max(a: nat, b: nat): nat { if a < b then b else a }

  function OfBackend(table: map<nat, Row>, backend: string): set<nat> { set v | v in table && table[v].backend == backend }

  function InUse(s: State): set<nat> { (set b | b in s.stored :: b.version) + s.older }

  /** The key of a version, the same for everyone. */
  function KeyOf(site: Site, table: map<nat, Row>, v: nat): Option<nat> {
    if v in site.env then Some(site.env[v])
    else if v in table then site.unwrap(table[v].backend, v, table[v].wrapped)
    else None
  }

  // ------------------------------------------------------------------ the steps

  predicate At(s: State, t: nat) { t in s.tasks && s.tasks[t].node in s.nodes }

  /** A row the node has the backend for, and which the backend gives back. */
  predicate Loadable(site: Site, node: Node, v: nat, row: Row) {
    node.custody.Some? && row.backend in node.custody.value.backends && site.unwrap(row.backend, v, row.wrapped).Some?
  }

  /** `unwrap_row`: the key is kept, and a generation of the primary backend's moves `current` up. */
  function Loaded(site: Site, node: Node, v: nat, row: Row): Node
    requires Loadable(site, node, v, row)
  {
    node.(keys := node.keys[v := site.unwrap(row.backend, v, row.wrapped).value],
          current := if node.custody.value.primary == Some(row.backend) then Max(node.current, v) else node.current)
  }

  ghost predicate Enabled(site: Site, s: State, a: Action) {
    match a
    case AttachBegin(n, backends, primary) =>
      n in s.nodes && s.nodes[n].custody.None? && (primary.Some? ==> primary.value in backends)
    case AttachRead(n) => n in s.nodes && s.nodes[n].attach.Opened?
    case AttachWithout(n) =>
      // The table cannot be read, and there is no backend that would need it.
      n in s.nodes && s.nodes[n].attach.Opened? && s.nodes[n].custody == Some(Custody({}, None))
    case AttachRow(n, v, reachable) =>
      n in s.nodes && s.nodes[n].attach.Reading? && v in s.nodes[n].attach.todo && v in s.nodes[n].attach.rows && v !in site.env
    case AttachFail(n) => n in s.nodes && (s.nodes[n].attach.Opened? || s.nodes[n].attach.Reading? || s.nodes[n].attach.Chosen?)
    case AttachPick(n, v) =>
      && n in s.nodes && s.nodes[n].attach.Reading? && s.nodes[n].attach.todo == {} && s.nodes[n].custody.Some?
      && (s.nodes[n].custody.value.primary.Some? ==>
            OfBackend(s.nodes[n].attach.rows, s.nodes[n].custody.value.primary.value) != {}
            && IsHighest(v, OfBackend(s.nodes[n].attach.rows, s.nodes[n].custody.value.primary.value)))
    case AttachEnsure(n, t) =>
      && n in s.nodes && s.nodes[n].attach.Reading? && s.nodes[n].attach.todo == {} && t !in s.tasks
      && s.nodes[n].custody.Some? && s.nodes[n].custody.value.primary.Some?
      && OfBackend(s.nodes[n].attach.rows, s.nodes[n].custody.value.primary.value) == {}
    case AttachAdopt(n, t) =>
      && n in s.nodes && s.nodes[n].attach.Reading? && s.nodes[n].attach.todo == {}
      && t in s.tasks && s.tasks[t].node == n && !s.tasks[t].force && s.tasks[t].pc.Finished?
    case AttachStore(n) => n in s.nodes && s.nodes[n].attach.Chosen? && s.nodes[n].attach.version in s.nodes[n].keys
    case NewGeneration(n, t) => n in s.nodes && s.nodes[n].custody.Some? && s.nodes[n].custody.value.primary.Some? && t !in s.tasks
    case TakeLock(t) => t in s.tasks && s.tasks[t].pc.Waiting? && s.lock.None?
    case Adopt(t, v) =>
      t in s.tasks && s.tasks[t].pc.Holding? && !s.tasks[t].force
      && OfBackend(s.table, s.tasks[t].backend) != {} && IsHighest(v, OfBackend(s.table, s.tasks[t].backend))
    case LoadAdopted(t) =>
      && At(s, t) && s.tasks[t].pc.Adopting?
      && var v, node := s.tasks[t].pc.version, s.nodes[s.tasks[t].node];
      v in node.keys || (v in s.table && Loadable(site, node, v, s.table[v]))
    case Choose(t, highest, envHighest, inUse, key, wrapped) =>
      && t in s.tasks && s.tasks[t].pc.Holding? && (s.tasks[t].force || OfBackend(s.table, s.tasks[t].backend) == {})
      && IsHighest(highest, s.table.Keys) && IsHighest(envHighest, site.env.Keys) && IsHighest(inUse, InUse(s))
      // The backend has to give the key back before it is used.
      && site.unwrap(s.tasks[t].backend, Max(Max(highest, envHighest), inUse) + 1, wrapped) == Some(key)
    case Commit(t) => t in s.tasks && s.tasks[t].pc.Ready?
    case Abort(t) => t in s.tasks && !s.tasks[t].pc.Committed? && !s.tasks[t].pc.Finished?
    case WriteKey(t) => At(s, t) && s.tasks[t].pc.Committed?
    case RaiseCurrent(t) => At(s, t) && s.tasks[t].pc.Finished? && s.tasks[t].force
    case Load(n, v) =>
      n in s.nodes && v !in s.nodes[n].keys && v in s.table && Loadable(site, s.nodes[n], v, s.table[v])
    case PickCurrent(p, n) => n in s.nodes && p !in s.picks
    case Seal(p) => p in s.picks && s.picks[p].node in s.nodes
    case Delete(b) => true
    case DeleteOlder(v) => true
  }

  function OnNode(s: State, n: nat, node: Node): State { s.(nodes := s.nodes[n := node]) }

  function OnTask(s: State, t: nat, pc: Pc): State
    requires t in s.tasks
  {
    s.(tasks := s.tasks[t := s.tasks[t].(pc := pc)])
  }

  /** The lock, when a task that may hold it lets go. */
  function Unlocked(s: State, t: nat): Option<nat> { if s.lock == Some(t) then None else s.lock }

  function Next(site: Site, s: State, a: Action): State
    requires Enabled(site, s, a)
  {
    match a
    case AttachBegin(n, backends, primary) =>
      OnNode(s, n, s.nodes[n].(custody := Some(Custody(backends, primary)), attach := Opened))
    case AttachRead(n) => OnNode(s, n, s.nodes[n].(attach := Reading(s.table, s.table.Keys)))
    case AttachWithout(n) => OnNode(s, n, s.nodes[n].(attach := Attached))
    case AttachRow(n, v, reachable) =>
      var node := s.nodes[n].(attach := s.nodes[n].attach.(todo := s.nodes[n].attach.todo - {v}));
      var row := s.nodes[n].attach.rows[v];
      OnNode(s, n, if reachable && Loadable(site, node, v, row) then Loaded(site, node, v, row) else node)
    case AttachFail(n) => OnNode(s, n, s.nodes[n].(attach := Broken))
    case AttachPick(n, v) =>
      OnNode(s, n, s.nodes[n].(attach := if s.nodes[n].custody.value.primary.Some? then Chosen(v) else Attached))
    case AttachEnsure(n, t) => s.(tasks := s.tasks[t := Task(n, s.nodes[n].custody.value.primary.value, false, Waiting)])
    case AttachAdopt(n, t) => OnNode(s, n, s.nodes[n].(attach := Chosen(s.tasks[t].pc.version)))
    case AttachStore(n) => OnNode(s, n, s.nodes[n].(current := s.nodes[n].attach.version, attach := Attached))
    case NewGeneration(n, t) => s.(tasks := s.tasks[t := Task(n, s.nodes[n].custody.value.primary.value, true, Waiting)])
    case TakeLock(t) => OnTask(s, t, Holding).(lock := Some(t))
    case Adopt(t, v) => OnTask(s, t, Adopting(v)).(lock := Unlocked(s, t))
    case LoadAdopted(t) =>
      var v, n := s.tasks[t].pc.version, s.tasks[t].node;
      OnTask(if v in s.nodes[n].keys then s else OnNode(s, n, Loaded(site, s.nodes[n], v, s.table[v])), t, Finished(v))
    case Choose(t, highest, envHighest, inUse, key, wrapped) =>
      OnTask(s, t, Ready(Max(Max(highest, envHighest), inUse) + 1, key, wrapped))
    case Commit(t) =>
      var pc := s.tasks[t].pc;
      OnTask(s, t, Committed(pc.version, pc.key)).(table := s.table[pc.version := Row(s.tasks[t].backend, pc.wrapped)],
        lock := Unlocked(s, t))
    case Abort(t) => OnTask(s, t, Failed).(lock := Unlocked(s, t))
    case WriteKey(t) =>
      var pc, n := s.tasks[t].pc, s.tasks[t].node;
      OnTask(OnNode(s, n, s.nodes[n].(keys := s.nodes[n].keys[pc.version := pc.key])), t, Finished(pc.version))
    case RaiseCurrent(t) =>
      var n := s.tasks[t].node;
      OnNode(s, n, s.nodes[n].(current := Max(s.nodes[n].current, s.tasks[t].pc.version)))
    case Load(n, v) => OnNode(s, n, Loaded(site, s.nodes[n], v, s.table[v]))
    case PickCurrent(p, n) => s.(picks := s.picks[p := Pick(n, s.nodes[n].current)])
    case Seal(p) =>
      var v, node := s.picks[p].version, s.nodes[s.picks[p].node];
      s.(picks := s.picks - {p}, stored := if v in node.keys then s.stored + {Blob(v, node.keys[v])} else s.stored)
    case Delete(b) => s.(stored := s.stored - {b})
    case DeleteOlder(v) => s.(older := s.older - {v})
  }

  // ------------------------------------------------------------------ what every run keeps

  ghost predicate NodeOk(site: Site, table: map<nat, Row>, node: Node) {
    && (forall v :: v in node.keys ==> KeyOf(site, table, v) == Some(node.keys[v]))
    && (forall v :: v in site.env ==> v in node.keys)
    && (node.current == 0 || node.current in node.keys)
    && (node.attach.Reading? ==> forall v :: v in node.attach.rows ==> v in table && table[v] == node.attach.rows[v])
    && (node.attach.Attached? && node.custody.Some? && node.custody.value.primary.Some? ==> node.current in node.keys)
  }

  /** A version above everything there is. */
  predicate Unused(site: Site, table: map<nat, Row>, uses: set<nat>, v: nat) {
    (forall x :: x in table ==> x < v) && (forall x :: x in site.env ==> x < v) && (forall x :: x in uses ==> x < v)
  }

  ghost predicate TaskOk(site: Site, table: map<nat, Row>, lock: Option<nat>, nodes: map<nat, Node>, uses: set<nat>,
                         t: nat, task: Task) {
    && (lock == Some(t) <==> task.pc.Holding? || task.pc.Ready?)
    && match task.pc
       case Ready(v, k, w) =>
         && Unused(site, table, uses, v) && site.unwrap(task.backend, v, w) == Some(k)
         && (!task.force ==> OfBackend(table, task.backend) == {})
       case Adopting(v) => v in table
       case Committed(v, k) => KeyOf(site, table, v) == Some(k)
       case Finished(v) => task.node in nodes && v in nodes[task.node].keys
       case _ => true
  }

  ghost predicate NodesOk(site: Site, table: map<nat, Row>, nodes: map<nat, Node>) {
    forall n :: n in nodes ==> NodeOk(site, table, nodes[n])
  }

  ghost predicate TasksOk(site: Site, table: map<nat, Row>, lock: Option<nat>, nodes: map<nat, Node>, uses: set<nat>,
                          tasks: map<nat, Task>) {
    && (lock.Some? ==> lock.value in tasks)
    && forall t :: t in tasks ==> TaskOk(site, table, lock, nodes, uses, t, tasks[t])
  }

  ghost predicate StoredOk(site: Site, table: map<nat, Row>, stored: set<Blob>) {
    forall b :: b in stored ==> KeyOf(site, table, b.version) == Some(b.key)
  }

  ghost predicate Inv(site: Site, s: State) {
    && NodesOk(site, s.table, s.nodes)
    && TasksOk(site, s.table, s.lock, s.nodes, InUse(s), s.tasks)
    && StoredOk(site, s.table, s.stored)
  }

  // ------------------------------------------------------------------ the kinds of step

  /** A node moves on, forgetting no key. */
  lemma NodeStep(site: Site, s: State, n: nat, node: Node)
    requires Inv(site, s) && n in s.nodes && NodeOk(site, s.table, node)
    requires forall v :: v in s.nodes[n].keys ==> v in node.keys
    ensures Inv(site, OnNode(s, n, node))
  {
    hide NodeOk, StoredOk, Unused, KeyOf, InUse, OfBackend;
    assert InUse(OnNode(s, n, node)) == InUse(s) by { SameUses(s, OnNode(s, n, node)); }
    forall t | t in s.tasks ensures TaskOk(site, s.table, s.lock, OnNode(s, n, node).nodes, InUse(s), t, s.tasks[t]) {
      assert TaskOk(site, s.table, s.lock, s.nodes, InUse(s), t, s.tasks[t]);
    }
  }

  lemma SameUses(s: State, t: State)
    requires s.stored == t.stored && s.older == t.older
    ensures InUse(s) == InUse(t)
  {
  }

  /** A task moves on, and with it perhaps the lock, which only it can have had. */
  lemma TaskStep(site: Site, s: State, t: nat, task: Task, lock: Option<nat>)
    requires Inv(site, s) && TaskOk(site, s.table, lock, s.nodes, InUse(s), t, task)
    requires lock == s.lock || (lock == Some(t) && s.lock.None?) || (lock.None? && s.lock == Some(t))
    ensures Inv(site, s.(tasks := s.tasks[t := task], lock := lock))
  {
    hide NodeOk, StoredOk, Unused, KeyOf, InUse, OfBackend;
    var n := s.(tasks := s.tasks[t := task], lock := lock);
    assert InUse(n) == InUse(s) by { SameUses(s, n); }
    forall i | i in n.tasks ensures TaskOk(site, n.table, n.lock, n.nodes, InUse(s), i, n.tasks[i]) {
      if i != t {
        assert TaskOk(site, s.table, s.lock, s.nodes, InUse(s), i, s.tasks[i]);
      }
    }
  }

  /** What is at rest changes, to nothing a chosen version is not above. */
  lemma StoredStep(site: Site, s: State, stored: set<Blob>, older: set<nat>, picks: map<nat, Pick>)
    requires Inv(site, s) && older <= s.older
    requires forall b :: b in stored ==> KeyOf(site, s.table, b.version) == Some(b.key)
    ensures Inv(site, s.(stored := stored, older := older, picks := picks))
  {
    hide NodeOk, OfBackend;
    var n := s.(stored := stored, older := older, picks := picks);
    forall t | t in s.tasks ensures TaskOk(site, s.table, s.lock, s.nodes, InUse(n), t, s.tasks[t]) {
      var task := s.tasks[t];
      assert TaskOk(site, s.table, s.lock, s.nodes, InUse(s), t, task);
      if task.pc.Ready? {
        forall x | x in InUse(n) ensures x < task.pc.version {
          assert x in older ==> x in InUse(s);
        }
      }
    }
  }

  lemma LoadedOk(site: Site, table: map<nat, Row>, node: Node, v: nat, row: Row)
    requires NodeOk(site, table, node) && v in table && table[v] == row && v !in site.env && Loadable(site, node, v, row)
    ensures NodeOk(site, table, Loaded(site, node, v, row))
  {
  }

  // ------------------------------------------------------------------ the steps

  lemma AttachKeeps(site: Site, s: State, a: Action)
    requires Inv(site, s) && Enabled(site, s, a)
    requires a.AttachBegin? || a.AttachRead? || a.AttachWithout? || a.AttachFail? || a.AttachPick? || a.AttachAdopt? || a.AttachStore?
    ensures Inv(site, Next(site, s, a))
  {
    hide StoredOk, TasksOk, KeyOf, OfBackend, InUse;
    assert NodeOk(site, s.table, s.nodes[a.n]);
    assert NodeOk(site, s.table, Next(site, s, a).nodes[a.n]);
    NodeStep(site, s, a.n, Next(site, s, a).nodes[a.n]);
  }

  lemma AttachRowKeeps(site: Site, s: State, n: nat, v: nat, reachable: bool)
    requires Inv(site, s) && Enabled(site, s, AttachRow(n, v, reachable))
    ensures Inv(site, Next(site, s, AttachRow(n, v, reachable)))
  {
    hide StoredOk, TasksOk, KeyOf, InUse;
    assert NodeOk(site, s.table, s.nodes[n]);
    var node := s.nodes[n].(attach := s.nodes[n].attach.(todo := s.nodes[n].attach.todo - {v}));
    var row := s.nodes[n].attach.rows[v];
    if reachable && Loadable(site, node, v, row) {
      LoadedOk(site, s.table, node, v, row);
      NodeStep(site, s, n, Loaded(site, node, v, row));
    } else {
      NodeStep(site, s, n, node);
    }
  }

  lemma LoadKeeps(site: Site, s: State, n: nat, v: nat)
    requires Inv(site, s) && Enabled(site, s, Load(n, v))
    ensures Inv(site, Next(site, s, Load(n, v)))
  {
    hide StoredOk, TasksOk, InUse, KeyOf;
    assert NodeOk(site, s.table, s.nodes[n]);
    LoadedOk(site, s.table, s.nodes[n], v, s.table[v]);
    NodeStep(site, s, n, Loaded(site, s.nodes[n], v, s.table[v]));
  }

  /** A new call of `ensure_generation`. */
  lemma NewTaskKeeps(site: Site, s: State, t: nat, n: nat, backend: string, force: bool)
    requires Inv(site, s) && t !in s.tasks
    ensures Inv(site, s.(tasks := s.tasks[t := Task(n, backend, force, Waiting)]))
  {
    hide NodesOk, StoredOk, InUse;
    assert s.lock != Some(t);
    TaskStep(site, s, t, Task(n, backend, force, Waiting), s.lock);
    assert s.(tasks := s.tasks[t := Task(n, backend, force, Waiting)])
        == s.(tasks := s.tasks[t := Task(n, backend, force, Waiting)], lock := s.lock);
  }

  lemma TakeLockKeeps(site: Site, s: State, t: nat)
    requires Inv(site, s) && Enabled(site, s, TakeLock(t))
    ensures Inv(site, Next(site, s, TakeLock(t)))
  {
    hide NodesOk, StoredOk, InUse, TasksOk;
    TaskStep(site, s, t, s.tasks[t].(pc := Holding), Some(t));
  }

  lemma AdoptKeeps(site: Site, s: State, t: nat, v: nat)
    requires Inv(site, s) && Enabled(site, s, Adopt(t, v))
    ensures Inv(site, Next(site, s, Adopt(t, v)))
  {
    hide NodesOk, StoredOk, InUse;
    assert TaskOk(site, s.table, s.lock, s.nodes, InUse(s), t, s.tasks[t]);
    TaskStep(site, s, t, s.tasks[t].(pc := Adopting(v)), None);
  }

  lemma AbortKeeps(site: Site, s: State, t: nat)
    requires Inv(site, s) && Enabled(site, s, Abort(t))
    ensures Inv(site, Next(site, s, Abort(t)))
  {
    hide NodesOk, StoredOk, InUse, Unused;
    assert TaskOk(site, s.table, s.lock, s.nodes, InUse(s), t, s.tasks[t]);
    TaskStep(site, s, t, s.tasks[t].(pc := Failed), Unlocked(s, t));
  }

  lemma ChooseKeeps(site: Site, s: State, a: Action)
    requires Inv(site, s) && Enabled(site, s, a) && a.Choose?
    ensures Inv(site, Next(site, s, a))
  {
    hide NodesOk, StoredOk, InUse;
    var version := Max(Max(a.highest, a.envHighest), a.inUse) + 1;
    assert TaskOk(site, s.table, s.lock, s.nodes, InUse(s), a.t, s.tasks[a.t]);
    assert Unused(site, s.table, InUse(s), version);
    TaskStep(site, s, a.t, s.tasks[a.t].(pc := Ready(version, a.key, a.wrapped)), s.lock);
  }

  lemma LoadAdoptedKeeps(site: Site, s: State, t: nat)
    requires Inv(site, s) && Enabled(site, s, LoadAdopted(t))
    ensures Inv(site, Next(site, s, LoadAdopted(t)))
  {
    hide StoredOk, InUse, KeyOf, Unused;
    var v, n := s.tasks[t].pc.version, s.tasks[t].node;
    assert NodeOk(site, s.table, s.nodes[n]);
    var m := if v in s.nodes[n].keys then s else OnNode(s, n, Loaded(site, s.nodes[n], v, s.table[v]));
    if v !in s.nodes[n].keys {
      LoadedOk(site, s.table, s.nodes[n], v, s.table[v]);
      NodeStep(site, s, n, Loaded(site, s.nodes[n], v, s.table[v]));
    }
    TaskFinishes(site, m, t, v);
  }

  lemma KeyAdded(site: Site, table: map<nat, Row>, node: Node, v: nat, key: nat)
    requires NodeOk(site, table, node) && KeyOf(site, table, v) == Some(key)
    ensures NodeOk(site, table, node.(keys := node.keys[v := key]))
  {
    hide KeyOf;
  }

  lemma WriteKeyKeeps(site: Site, s: State, t: nat)
    requires Inv(site, s) && Enabled(site, s, WriteKey(t))
    ensures Inv(site, Next(site, s, WriteKey(t)))
  {
    hide StoredOk, InUse, Unused;
    var pc, n := s.tasks[t].pc, s.tasks[t].node;
    assert NodeOk(site, s.table, s.nodes[n]);
    assert TaskOk(site, s.table, s.lock, s.nodes, InUse(s), t, s.tasks[t]);
    var node := s.nodes[n].(keys := s.nodes[n].keys[pc.version := pc.key]);
    KeyAdded(site, s.table, s.nodes[n], pc.version, pc.key);
    hide KeyOf, NodeOk;
    NodeStep(site, s, n, node);
    TaskFinishes(site, OnNode(s, n, node), t, pc.version);
  }

  lemma TaskFinishes(site: Site, s: State, t: nat, v: nat)
    requires Inv(site, s) && t in s.tasks && s.tasks[t].node in s.nodes && v in s.nodes[s.tasks[t].node].keys
    requires s.tasks[t].pc.Committed? || s.tasks[t].pc.Adopting?
    ensures Inv(site, OnTask(s, t, Finished(v)))
  {
    hide NodesOk, StoredOk, InUse, KeyOf, Unused;
    assert TaskOk(site, s.table, s.lock, s.nodes, InUse(s), t, s.tasks[t]);
    TaskStep(site, s, t, s.tasks[t].(pc := Finished(v)), s.lock);
  }

  lemma RaiseKeeps(site: Site, s: State, t: nat)
    requires Inv(site, s) && Enabled(site, s, RaiseCurrent(t))
    ensures Inv(site, Next(site, s, RaiseCurrent(t)))
  {
    hide StoredOk, InUse, KeyOf;
    var n := s.tasks[t].node;
    assert NodeOk(site, s.table, s.nodes[n]);
    assert TaskOk(site, s.table, s.lock, s.nodes, InUse(s), t, s.tasks[t]);
    NodeStep(site, s, n, s.nodes[n].(current := Max(s.nodes[n].current, s.tasks[t].pc.version)));
  }

  lemma SealKeeps(site: Site, s: State, p: nat)
    requires Inv(site, s) && Enabled(site, s, Seal(p))
    ensures Inv(site, Next(site, s, Seal(p)))
  {
    hide TasksOk, InUse, KeyOf;
    assert NodeOk(site, s.table, s.nodes[s.picks[p].node]);
    StoredStep(site, s, Next(site, s, Seal(p)).stored, s.older, s.picks - {p});
  }

  /** A generation is committed: it is new to everyone, so everybody's keys stay what they were. */
  lemma CommitKeeps(site: Site, s: State, t: nat)
    requires Inv(site, s) && Enabled(site, s, Commit(t))
    ensures Inv(site, Next(site, s, Commit(t)))
  {
    hide InUse;
    var pc := s.tasks[t].pc;
    assert TaskOk(site, s.table, s.lock, s.nodes, InUse(s), t, s.tasks[t]);
    var table := s.table[pc.version := Row(s.tasks[t].backend, pc.wrapped)];
    var n := Next(site, s, Commit(t));
    assert InUse(n) == InUse(s) by { SameUses(s, n); }
    assert NodesOk(site, table, s.nodes) by { TableGrows(site, s.table, table, s.nodes, s.stored); }
    assert StoredOk(site, table, s.stored) by { TableGrows(site, s.table, table, s.nodes, s.stored); }
    hide NodesOk, StoredOk;
    forall i | i in n.tasks ensures TaskOk(site, table, n.lock, n.nodes, InUse(s), i, n.tasks[i]) {
      if i != t {
        assert TaskOk(site, s.table, s.lock, s.nodes, InUse(s), i, s.tasks[i]);
      }
    }
  }

  lemma TableGrows(site: Site, table: map<nat, Row>, more: map<nat, Row>, nodes: map<nat, Node>, stored: set<Blob>)
    requires NodesOk(site, table, nodes) && StoredOk(site, table, stored)
    requires forall v :: v in table ==> v in more && more[v] == table[v]
    ensures NodesOk(site, more, nodes) && StoredOk(site, more, stored)
  {
    forall n | n in nodes ensures NodeOk(site, more, nodes[n]) {
      assert NodeOk(site, table, nodes[n]);
    }
  }

  lemma StepKeeps(site: Site, s: State, a: Action)
    requires Inv(site, s) && Enabled(site, s, a)
    ensures Inv(site, Next(site, s, a))
  {
    hide NodesOk, TasksOk, KeyOf, InUse;
    match a
    case AttachBegin(n, backends, primary) => AttachKeeps(site, s, a);
    case AttachRead(n) => AttachKeeps(site, s, a);
    case AttachWithout(n) => AttachKeeps(site, s, a);
    case AttachRow(n, v, reachable) => AttachRowKeeps(site, s, n, v, reachable);
    case AttachFail(n) => AttachKeeps(site, s, a);
    case AttachPick(n, v) => AttachKeeps(site, s, a);
    case AttachEnsure(n, t) => NewTaskKeeps(site, s, t, n, s.nodes[n].custody.value.primary.value, false);
    case AttachAdopt(n, t) => AttachKeeps(site, s, a);
    case AttachStore(n) => AttachKeeps(site, s, a);
    case NewGeneration(n, t) => NewTaskKeeps(site, s, t, n, s.nodes[n].custody.value.primary.value, true);
    case TakeLock(t) => TakeLockKeeps(site, s, t);
    case Adopt(t, v) => AdoptKeeps(site, s, t, v);
    case LoadAdopted(t) => LoadAdoptedKeeps(site, s, t);
    case Choose(t, highest, envHighest, inUse, key, wrapped) => ChooseKeeps(site, s, a);
    case Commit(t) => CommitKeeps(site, s, t);
    case Abort(t) => AbortKeeps(site, s, t);
    case WriteKey(t) => WriteKeyKeeps(site, s, t);
    case RaiseCurrent(t) => RaiseKeeps(site, s, t);
    case Load(n, v) => LoadKeeps(site, s, n, v);
    case PickCurrent(p, n) => StoredStep(site, s, s.stored, s.older, s.picks[p := Pick(n, s.nodes[n].current)]);
    case Seal(p) => SealKeeps(site, s, p);
    case Delete(b) => StoredStep(site, s, s.stored - {b}, s.older, s.picks);
    case DeleteOlder(v) => StoredStep(site, s, s.stored, s.older - {v}, s.picks);
  }

  // ------------------------------------------------------------------ runs

  datatype Run =
    | Start(site: Site, ids: set<nat>, current: nat, table: map<nat, Row>, older: set<nat>)
    | Then(before: Run, action: Action)
  {
    function Where(): Site {
      match this
      case Start(site, _, _, _, _) => site
      case Then(before, _) => before.Where()
    }
  }

  /** Each step is enabled; a current version from the environment is one of the environment's. */
  ghost predicate Legal(r: Run)
    decreases r, 0
  {
    match r
    case Start(site, ids, current, table, older) => current == 0 || current in site.env
    case Then(before, a) => Legal(before) && Enabled(before.Where(), End(before), a)
  }

  ghost function End(r: Run): State
    requires Legal(r)
    decreases r, 1
  {
    match r
    case Start(site, ids, current, table, older) => Init(site, ids, current, table, older)
    case Then(before, a) => Next(before.Where(), End(before), a)
  }

  lemma {:induction false} RunKeeps(r: Run)
    requires Legal(r)
    ensures Inv(r.Where(), End(r))
  {
    hide Next, Enabled;
    match r
    case Start(site, ids, current, table, older) =>
    case Then(before, a) =>
      RunKeeps(before);
      StepKeeps(before.Where(), End(before), a);
  }

  // ------------------------------------------------------------------ the theorems

  /** All nodes that hold a version hold the same key. */
  lemma SameKeyEverywhere(r: Run, m: nat, n: nat, v: nat)
    requires Legal(r) && m in End(r).nodes && n in End(r).nodes && v in End(r).nodes[m].keys && v in End(r).nodes[n].keys
    ensures End(r).nodes[m].keys[v] == End(r).nodes[n].keys[v]
  {
    hide Next, TasksOk, StoredOk, KeyOf;
    RunKeeps(r);
    assert NodeOk(r.Where(), End(r).table, End(r).nodes[m]) && NodeOk(r.Where(), End(r).table, End(r).nodes[n]);
  }

  /** What any node sealed opens on any node that has its generation, or once it has loaded it. */
  lemma EveryBlobOpens(r: Run, b: Blob, n: nat)
    requires Legal(r) && b in End(r).stored && n in End(r).nodes
    ensures var s, site := End(r), r.Where();
            && (b.version in s.nodes[n].keys ==> s.nodes[n].keys[b.version] == b.key)
            && (b.version !in s.nodes[n].keys ==>
                  && b.version in s.table
                  && (Loadable(site, s.nodes[n], b.version, s.table[b.version]) ==>
                        Loaded(site, s.nodes[n], b.version, s.table[b.version]).keys[b.version] == b.key))
  {
    hide Next, TasksOk;
    RunKeeps(r);
    assert NodeOk(r.Where(), End(r).table, End(r).nodes[n]);
  }

  /** A generation is committed under a version that is in neither the table nor the environment nor any row
      at rest, and above all of them. */
  lemma CommittedVersionsAreNew(r: Run, t: nat)
    requires Legal(Then(r, Commit(t)))
    ensures var s, n := End(r), End(Then(r, Commit(t)));
            && s.tasks[t].pc.Ready?
            && var v := s.tasks[t].pc.version;
            && v !in s.table && v !in r.Where().env && v !in InUse(s) && v in n.table
            && (forall x :: x in s.table.Keys + r.Where().env.Keys + InUse(s) ==> x < v)
            && n.table == s.table[v := n.table[v]]
  {
    hide InUse;
    RunKeeps(r);
    var s := End(r);
    assert TaskOk(r.Where(), s.table, s.lock, s.nodes, InUse(s), t, s.tasks[t]);
  }

  /** Nobody else is between choosing and committing. */
  lemma OneCreatorAtATime(r: Run, a: nat, b: nat)
    requires Legal(r) && a in End(r).tasks && b in End(r).tasks
    requires End(r).tasks[a].pc.Ready? && (End(r).tasks[b].pc.Ready? || End(r).tasks[b].pc.Holding?)
    ensures a == b
  {
    hide Next, InUse, NodesOk, StoredOk;
    RunKeeps(r);
    var s := End(r);
    assert TaskOk(r.Where(), s.table, s.lock, s.nodes, InUse(s), a, s.tasks[a]);
    assert TaskOk(r.Where(), s.table, s.lock, s.nodes, InUse(s), b, s.tasks[b]);
  }

  /** No backend has two generations. */
  predicate OneEach(table: map<nat, Row>) {
    forall v, w :: v in table && w in table && table[v].backend == table[w].backend ==> v == w
  }

  /** Nodes only start: nobody asks for a new generation. */
  predicate OnlyStarts(r: Run) {
    match r
    case Start(site, ids, current, table, older) => OneEach(table)
    case Then(before, a) => OnlyStarts(before) && !a.NewGeneration?
  }

  predicate NoneForced(tasks: map<nat, Task>) { forall t :: t in tasks ==> !tasks[t].force }

  /** However many nodes start at once, each backend ends up with one generation. */
  lemma {:induction false} FirstStartsCreateOne(r: Run)
    requires Legal(r) && OnlyStarts(r)
    ensures OneEach(End(r).table) && NoneForced(End(r).tasks)
  {
    hide Next, Enabled;
    if r.Then? {
      FirstStartsCreateOne(r.before);
      RunKeeps(r.before);
      StartsStep(r.Where(), End(r.before), r.action);
    }
  }

  lemma StartsStep(site: Site, s: State, a: Action)
    requires Inv(site, s) && Enabled(site, s, a) && !a.NewGeneration? && OneEach(s.table) && NoneForced(s.tasks)
    ensures OneEach(Next(site, s, a).table) && NoneForced(Next(site, s, a).tasks)
  {
    if a.Commit? {
      assert TaskOk(site, s.table, s.lock, s.nodes, InUse(s), a.t, s.tasks[a.t]);
      CommitsOne(site, s, a.t);
    } else {
      hide NodesOk, TasksOk, StoredOk, OneEach;
      TableOnlyByCommit(site, s, a);
    }
  }

  lemma CommitsOne(site: Site, s: State, t: nat)
    requires Enabled(site, s, Commit(t)) && OneEach(s.table) && NoneForced(s.tasks)
    requires OfBackend(s.table, s.tasks[t].backend) == {}
    ensures OneEach(Next(site, s, Commit(t)).table) && NoneForced(Next(site, s, Commit(t)).tasks)
  {
    forall v | v in s.table ensures s.table[v].backend != s.tasks[t].backend {
      assert v !in OfBackend(s.table, s.tasks[t].backend);
    }
  }

  lemma TableOnlyByCommit(site: Site, s: State, a: Action)
    requires Enabled(site, s, a) && !a.Commit? && !a.NewGeneration? && NoneForced(s.tasks)
    ensures Next(site, s, a).table == s.table && NoneForced(Next(site, s, a).tasks)
  {
    hide IsHighest, OfBackend, InUse, KeyOf, Unlocked, Loaded, Loadable;
  }

  /** Attached, with a backend new generations go to. */
  predicate InService(node: Node) { node.attach.Attached? && node.custody.Some? && node.custody.value.primary.Some? }

  /** From then on the current generation is loaded and never goes back. */
  lemma CurrentIsLoadedAndGrows(r: Run, a: Action, n: nat)
    requires Legal(Then(r, a)) && n in End(r).nodes && InService(End(r).nodes[n])
    ensures var s, t := End(r), End(Then(r, a));
            && s.nodes[n].current in s.nodes[n].keys
            && n in t.nodes && InService(t.nodes[n]) && s.nodes[n].current <= t.nodes[n].current
            && t.nodes[n].current in t.nodes[n].keys
  {
    hide Next, Enabled, TasksOk, StoredOk, KeyOf;
    RunKeeps(r);
    RunKeeps(Then(r, a));
    assert NodeOk(r.Where(), End(r).table, End(r).nodes[n]);
    StaysInService(r.Where(), End(r), a, n);
    CurrentSteps(r.Where(), End(r), a, n);
    assert NodeOk(r.Where(), End(Then(r, a)).table, End(Then(r, a)).nodes[n]);
  }

  lemma StaysInService(site: Site, s: State, a: Action, n: nat)
    requires Enabled(site, s, a) && n in s.nodes
    ensures n in Next(site, s, a).nodes
    ensures InService(s.nodes[n]) ==> InService(Next(site, s, a).nodes[n]) && a != AttachStore(n)
  {
    hide IsHighest, OfBackend, InUse, KeyOf, Unlocked;
  }

  /** Exactly when a step takes a node's current generation back: when attaching ends, and the generation it
      settled on is older than one loaded meanwhile. */
  lemma CurrentSteps(site: Site, s: State, a: Action, n: nat)
    requires Enabled(site, s, a) && n in s.nodes
    ensures n in Next(site, s, a).nodes
    ensures Next(site, s, a).nodes[n].current < s.nodes[n].current <==>
            a == AttachStore(n) && s.nodes[n].attach.version < s.nodes[n].current
  {
    hide IsHighest, OfBackend, InUse, KeyOf, Unlocked;
  }
}

/** A run in which a node's current generation goes back: while it attaches, with the generation to use already
    chosen from the table it read, it creates a newer one; then attaching ends. */
module AttachStepsBack {
  import opened Bytes
  import opened Generations

  /** One backend, which always gives the same key. */
  function Here(): Site { Site(map[], (backend: string, v: nat, wrapped: nat) => Some(7)) }

  const FIRST := Row("b", 0)
  const CUSTODY := Some(Custody({"b"}, Some("b")))

  /** One node, and at most one call of `ensure_generation`. */
  function Lone(table: map<nat, Row>, lock: Option<nat>, node: Node, tasks: map<nat, Task>): State {
    State(table, lock, map[0 := node], tasks, map[], {}, {})
  }

  ghost predicate To(r: Run, s: State) {
    Legal(r) && r.Where() == Here() && End(r) == s
  }

  lemma Extend(r: Run, s: State, a: Action, t: State) returns (q: Run)
    requires To(r, s) && Enabled(Here(), s, a) && Next(Here(), s, a) == t
    ensures q == Then(r, a) && To(q, t)
  {
    hide Enabled, Next, Here;
    q := Then(r, a);
  }

  function AtStep(attach: Attach): Node { Node(map[1 := 7], 1, CUSTODY, attach) }

  lemma Reads() returns (r: Run)
    ensures To(r, Lone(map[1 := FIRST], None, Node(map[], 0, CUSTODY, Reading(map[1 := FIRST], {1})), map[]))
  {
    r := Start(Here(), {0}, 0, map[1 := FIRST], {});
    var idle := Node(map[], 0, None, Detached);
    assert End(r).nodes == map[0 := idle];
    assert To(r, Lone(map[1 := FIRST], None, idle, map[]));
    hide To;
    var begun := Node(map[], 0, CUSTODY, Opened);
    OneNode(map[1 := FIRST], None, idle, begun, map[]);
    r := Extend(r, Lone(map[1 := FIRST], None, idle, map[]), AttachBegin(0, {"b"}, Some("b")),
      Lone(map[1 := FIRST], None, begun, map[]));
    var reading := Node(map[], 0, CUSTODY, Reading(map[1 := FIRST], {1}));
    assert map[1 := FIRST].Keys == {1};
    OneNode(map[1 := FIRST], None, begun, reading, map[]);
    r := Extend(r, Lone(map[1 := FIRST], None, begun, map[]), AttachRead(0), Lone(map[1 := FIRST], None, reading, map[]));
  }

  lemma OneNode(table: map<nat, Row>, lock: Option<nat>, a: Node, b: Node, tasks: map<nat, Task>)
    ensures OnNode(Lone(table, lock, a, tasks), 0, b) == Lone(table, lock, b, tasks)
  {
    assert map[0 := a][0 := b] == map[0 := b];
  }

  /** It loads the one generation there is, and settles on it. */
  lemma Settles() returns (r: Run)
    ensures To(r, Lone(map[1 := FIRST], None, AtStep(Attach.Chosen(1)), map[]))
  {
    hide To;
    r := Reads();
    var reading := Node(map[], 0, CUSTODY, Reading(map[1 := FIRST], {1}));
    var loaded := AtStep(Reading(map[1 := FIRST], {}));
    assert {1} - {1} == {};
    OneNode(map[1 := FIRST], None, reading, loaded, map[]);
    r := Extend(r, Lone(map[1 := FIRST], None, reading, map[]), AttachRow(0, 1, true), Lone(map[1 := FIRST], None, loaded, map[]));
    assert OfBackend(map[1 := FIRST], "b") == {1};
    OneNode(map[1 := FIRST], None, loaded, AtStep(Attach.Chosen(1)), map[]);
    r := Extend(r, Lone(map[1 := FIRST], None, loaded, map[]), AttachPick(0, 1),
      Lone(map[1 := FIRST], None, AtStep(Attach.Chosen(1)), map[]));
  }

  function Making(pc: Pc): map<nat, Task> { map[0 := Task(0, "b", true, pc)] }

  /** A step of the one task. */
  lemma OneTask(s: State, from: Pc, pc: Pc)
    requires s.tasks == Making(from)
    ensures OnTask(s, 0, pc) == s.(tasks := Making(pc))
  {
    assert s.tasks[0 := s.tasks[0].(pc := pc)] == Making(pc);
  }

  const BOTH := map[1 := FIRST, 2 := FIRST]

  /** Meanwhile a new generation is begun on the same node. */
  lemma Locks() returns (r: Run)
    ensures To(r, Lone(map[1 := FIRST], Some(0), AtStep(Attach.Chosen(1)), Making(Holding)))
  {
    hide To;
    r := Settles();
    var node := AtStep(Attach.Chosen(1));
    var s0 := Lone(map[1 := FIRST], None, node, map[]);
    var s1 := Lone(map[1 := FIRST], None, node, Making(Waiting));
    assert s0.tasks[0 := Task(0, "b", true, Waiting)] == Making(Waiting);
    r := Extend(r, s0, NewGeneration(0, 0), s1);
    var s2 := Lone(map[1 := FIRST], Some(0), node, Making(Holding));
    OneTask(s1, Waiting, Holding);
    r := Extend(r, s1, TakeLock(0), s2);
  }

  lemma Creates() returns (r: Run)
    ensures To(r, Lone(BOTH, None, AtStep(Attach.Chosen(1)), Making(Committed(2, 7))))
  {
    hide To;
    r := Locks();
    var node := AtStep(Attach.Chosen(1));
    var s2 := Lone(map[1 := FIRST], Some(0), node, Making(Holding));
    var s3 := Lone(map[1 := FIRST], Some(0), node, Making(Ready(2, 7, 0)));
    Chooses(node);
    r := Extend(r, s2, Choose(0, 1, 0, 0, 7, 0), s3);
    OneTask(s3, Ready(2, 7, 0), Committed(2, 7));
    assert map[1 := FIRST][2 := FIRST] == BOTH;
    r := Extend(r, s3, Commit(0), Lone(BOTH, None, node, Making(Committed(2, 7))));
  }

  lemma Chooses(node: Node)
    ensures var s := Lone(map[1 := FIRST], Some(0), node, Making(Holding));
            && Enabled(Here(), s, Choose(0, 1, 0, 0, 7, 0))
            && Next(Here(), s, Choose(0, 1, 0, 0, 7, 0)) == s.(tasks := Making(Ready(2, 7, 0)))
  {
    var s := Lone(map[1 := FIRST], Some(0), node, Making(Holding));
    assert s.table.Keys == {1} && Here().env.Keys == {} && InUse(s) == {};
    OneTask(s, Holding, Ready(2, 7, 0));
  }

  const NEWER := Node(map[1 := 7, 2 := 7], 2, CUSTODY, Attach.Chosen(1))

  /** The node goes by the new one. */
  lemma Raises() returns (r: Run)
    ensures To(r, Lone(BOTH, None, NEWER, Making(Finished(2))))
  {
    hide To;
    r := Creates();
    var node := AtStep(Attach.Chosen(1));
    var both := NEWER.(current := 1);
    assert map[1 := 7][2 := 7] == both.keys;
    OneNode(BOTH, None, node, both, Making(Committed(2, 7)));
    OneTask(Lone(BOTH, None, both, Making(Committed(2, 7))), Committed(2, 7), Finished(2));
    r := Extend(r, Lone(BOTH, None, node, Making(Committed(2, 7))), WriteKey(0), Lone(BOTH, None, both, Making(Finished(2))));
    OneNode(BOTH, None, both, NEWER, Making(Finished(2)));
    r := Extend(r, Lone(BOTH, None, both, Making(Finished(2))), RaiseCurrent(0), Lone(BOTH, None, NEWER, Making(Finished(2))));
  }

  /** And then, attached, by the old one again. */
  lemma CurrentCanStepBack() returns (r: Run)
    ensures r.Then? && Legal(r)
    ensures var s, t := End(r.before), End(r);
            && 0 in s.nodes && s.nodes[0].current == 2 && 2 in s.nodes[0].keys
            && 0 in t.nodes && t.nodes[0].attach.Attached? && t.nodes[0].current == 1
  {
    hide To;
    var before := Raises();
    var older := NEWER.(current := 1, attach := Attached);
    OneNode(BOTH, None, NEWER, older, Making(Finished(2)));
    r := Extend(before, Lone(BOTH, None, NEWER, Making(Finished(2))), AttachStore(0), Lone(BOTH, None, older, Making(Finished(2))));
    Reached(before, Lone(BOTH, None, NEWER, Making(Finished(2))));
    Reached(r, Lone(BOTH, None, older, Making(Finished(2))));
  }

  lemma Reached(r: Run, s: State)
    requires To(r, s)
    ensures Legal(r) && End(r) == s
  {
  }
}
