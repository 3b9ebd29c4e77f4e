/** Where a tenant lives (api/src/db/router.rs): one node's cached placements over a registry that anyone
    may change at any time. Lookups that find no fresh placement go through the gates, read the registry,
    stamp what they read and cache it, step by step. Times are in milliseconds. */
module Router {
  import opened Bytes
  import G = Gates

  const PLACEMENT_TTL: nat := 15_000

  /** A tenant's row in the registry: the database its region names, if it is configured here. */
  datatype Row = Row(database: Option<nat>, relocating: bool)

  /** The registry's states of one tenant, oldest first, each with when it came about; no row: deleted. */
  datatype Version = Version(row: Option<Row>, since: nat)

  /** A cached placement. `version` and `readAt` say which state of the registry it is, and when it was read. */
  datatype Placement = Placement(index: nat, relocating: bool, fetched: nat, version: nat, readAt: nat) {
    /** How long the registry read took to come back. */
    function Delay(): int { fetched - readAt }
  }

  /** A registry read under way: the state seen, when, and once it is back the stamp. */
  datatype Query = Query(version: nat, readAt: nat, stamp: Option<nat>)

  /** A lookup settled: by which placement, and when. One settled by a cached placement is dated at its look at
      the clock; one settled by its own registry read is dated at the stamp it then took, not when it returns. */
  datatype Decision = Decision(tenant: string, placement: Placement, at: nat)

  datatype State = State(
    history: map<string, seq<Version>>,
    gates: G.State,
    placements: map<string, Placement>,
    queries: map<nat, Query>,
    highest: map<string, nat>,        // the newest state of each tenant ever cached
    decisions: set<Decision>,
    now: nat)

  datatype Action =
    | Change(tenant: string, row: Option<Row>)
    | Lookup(id: nat, tenant: string)
    | Gate(step: G.Action)
    | Recheck(id: nat)
    | Select(id: nat)
    | Stamp(id: nat)
    | Insert(id: nat)
    | GiveUp(id: nat)
    | Cancel(id: nat)
    | Forget(tenant: string)
    | Sweep
    | Wait(d: nat)

  const INIT := State(map[], G.INIT, map[], map[], map[], {}, 0)

  function History(history: map<string, seq<Version>>, t: string): seq<Version> {
    if t in history then history[t] else [Version(None, 0)]
  }

  function Current(history: map<string, seq<Version>>, t: string): nat
    requires History(history, t) != []
  {
    |History(history, t)| - 1
  }

  predicate Fresh(p: Placement, now: nat) { now < p.fetched + PLACEMENT_TTL }

  predicate Cached(s: State, t: string) { t in s.placements && Fresh(s.placements[t], s.now) }

  // ------------------------------------------------------------------ the steps

  /** The gate steps that are no step of the lookup itself. */
  predicate GateStep(a: G.Action) { a.GetGate? || a.Lock? || a.Unlock? || a.Release? || a.DropRef? }

  predicate Loading(s: State, id: nat) { G.AtGate(s.gates, id, G.Loading) }

  predicate Seen(s: State, id: nat) {
    && Loading(s, id) && id in s.queries && s.queries[id].version < |History(s.history, s.gates.callers[id].key)|
  }

  /** The row a read gave, with a database configured here. */
  predicate Usable(s: State, id: nat)
    requires Seen(s, id)
  {
    var row := History(s.history, s.gates.callers[id].key)[s.queries[id].version].row;
    row.Some? && row.value.database.Some?
  }

  predicate Enabled(s: State, a: Action) {
    match a
    case Change(tenant, row) => true
    case Lookup(id, tenant) => id !in s.gates.callers
    case Gate(step) => GateStep(step) && G.Enabled(s.gates, step)
    case Recheck(id) => G.AtGate(s.gates, id, G.Inside)
    case Select(id) => Loading(s, id) && id !in s.queries && History(s.history, s.gates.callers[id].key) != []
    case Stamp(id) => Seen(s, id) && Usable(s, id) && s.queries[id].stamp.None?
    case Insert(id) => Seen(s, id) && Usable(s, id) && s.queries[id].stamp.Some?
    case GiveUp(id) => Loading(s, id)   // the read failed, or gave no row or no database configured here
    case Cancel(id) => G.Enabled(s.gates, G.Cancel(id))
    case Forget(tenant) => true
    case Sweep => true
    case Wait(d) => true
  }

  function Decided(s: State, t: string, p: Placement): State { s.(decisions := s.decisions + {Decision(t, p, s.now)}) }

  function PlacementOf(s: State, id: nat): Placement
    requires Seen(s, id) && Usable(s, id) && s.queries[id].stamp.Some?
  {
    var r := s.queries[id];
    var row := History(s.history, s.gates.callers[id].key)[r.version].row.value;
    Placement(row.database.value, row.relocating, r.stamp.value, r.version, r.readAt)
  }

  function Next(s: State, a: Action): State
    requires Enabled(s, a)
  {
    match a
    case Change(t, row) => s.(history := s.history[t := History(s.history, t) + [Version(row, s.now)]])
    case Lookup(id, t) =>
      if Cached(s, t) then Decided(s, t, s.placements[t]) else s.(gates := G.Next(s.gates, G.Arrive(id, t)))
    case Gate(step) => s.(gates := G.Next(s.gates, step))
    case Recheck(id) =>
      // A lookup that waited for another's read takes what it stored.
      var t := s.gates.callers[id].key;
      if Cached(s, t) then Decided(s, t, s.placements[t]).(gates := G.Next(s.gates, G.Skip(id)))
      else s.(gates := G.Next(s.gates, G.Decide(id)))
    case Select(id) => s.(queries := s.queries[id := Query(Current(s.history, s.gates.callers[id].key), s.now, None)])
    case Stamp(id) => s.(queries := s.queries[id := s.queries[id].(stamp := Some(s.now))])
    case Insert(id) =>
      var t, p := s.gates.callers[id].key, PlacementOf(s, id);
      s.(placements := s.placements[t := p], highest := s.highest[t := p.version], queries := s.queries - {id},
         decisions := s.decisions + {Decision(t, p, p.fetched)}, gates := G.Next(s.gates, G.EndLoad(id, None)))
    case GiveUp(id) => s.(queries := s.queries - {id}, gates := G.Next(s.gates, G.EndLoad(id, None)))
    case Cancel(id) => s.(queries := s.queries - {id}, gates := G.Next(s.gates, G.Cancel(id)))
    case Forget(t) => s.(placements := s.placements - {t})
    case Sweep => s.(placements := map t | t in s.placements && s.now < s.placements[t].fetched + 10 * PLACEMENT_TTL :: s.placements[t])
    case Wait(d) => s.(now := s.now + d, gates := G.Next(s.gates, G.Wait(d)))
  }

  // ------------------------------------------------------------------ what every run keeps

  predicate HistoryOk(h: seq<Version>, now: nat) {
    && 0 < |h| && (forall i :: 0 <= i < |h| ==> h[i].since <= now)
    && (forall i, j :: 0 <= i < j < |h| ==> h[i].since <= h[j].since)
  }

  /** State `v` is what the registry held at time `at`. */
  predicate SeenAt(h: seq<Version>, v: nat, at: nat) {
    && v < |h| && h[v].since <= at && (forall j :: v < j < |h| ==> at <= h[j].since)
  }

  predicate PlacementOk(h: seq<Version>, p: Placement, now: nat) {
    && SeenAt(h, p.version, p.readAt) && p.readAt <= p.fetched <= now
    && h[p.version].row == Some(Row(Some(p.index), p.relocating))
  }

  predicate QueryOk(h: seq<Version>, q: Query, highest: map<string, nat>, t: string, now: nat) {
    && SeenAt(h, q.version, q.readAt) && q.readAt <= now
    && (q.stamp.Some? ==> q.readAt <= q.stamp.value <= now)
    && (t in highest ==> highest[t] <= q.version)
  }

  predicate DecisionOk(h: seq<Version>, d: Decision, now: nat) {
    PlacementOk(h, d.placement, now) && d.at <= now && d.at < d.placement.fetched + PLACEMENT_TTL
  }

  ghost predicate HistoriesOk(history: map<string, seq<Version>>, now: nat) {
    forall t :: t in history ==> HistoryOk(history[t], now)
  }

  ghost predicate PlacementsOk(history: map<string, seq<Version>>, placements: map<string, Placement>,
                               highest: map<string, nat>, now: nat) {
    forall t :: t in placements ==>
      && PlacementOk(History(history, t), placements[t], now)
      && t in highest && placements[t].version <= highest[t]
  }

  ghost predicate HighestOk(history: map<string, seq<Version>>, highest: map<string, nat>) {
    forall t :: t in highest ==> highest[t] < |History(history, t)|
  }

  /** Only a lookup that is loading has a query out. */
  ghost predicate QueriesOk(history: map<string, seq<Version>>, callers: map<nat, G.Caller>, queries: map<nat, Query>,
                            highest: map<string, nat>, now: nat) {
    forall id :: id in queries ==>
      && id in callers && callers[id].pc.Loading?
      && QueryOk(History(history, callers[id].key), queries[id], highest, callers[id].key, now)
  }

  ghost predicate DecisionsOk(history: map<string, seq<Version>>, decisions: set<Decision>, now: nat) {
    forall d :: d in decisions ==> DecisionOk(History(history, d.tenant), d, now)
  }

  ghost predicate Inv(s: State) {
    && G.Inv(s.gates) && s.gates.now == s.now
    && HistoriesOk(s.history, s.now)
    && PlacementsOk(s.history, s.placements, s.highest, s.now)
    && HighestOk(s.history, s.highest)
    && QueriesOk(s.history, s.gates.callers, s.queries, s.highest, s.now)
    && DecisionsOk(s.history, s.decisions, s.now)
  }

  // ------------------------------------------------------------------ time and the registry move on

  /** A new state of the registry was seen by nobody yet. */
  lemma SeenStays(h: seq<Version>, v: nat, at: nat, row: Option<Row>, now: nat)
    requires SeenAt(h, v, at) && at <= now
    ensures SeenAt(h + [Version(row, now)], v, at) && (h + [Version(row, now)])[v] == h[v]
  {
  }

  lemma SeenNow(h: seq<Version>, now: nat)
    requires HistoryOk(h, now)
    ensures SeenAt(h, |h| - 1, now)
  {
  }

  lemma HistoryFound(history: map<string, seq<Version>>, t: string, now: nat)
    requires HistoriesOk(history, now)
    ensures HistoryOk(History(history, t), now)
  {
  }

  /** What was seen so far is no less so with another state added. */
  lemma PlacementStays(h: seq<Version>, p: Placement, row: Option<Row>, now: nat)
    requires PlacementOk(h, p, now)
    ensures PlacementOk(h + [Version(row, now)], p, now)
  {
    SeenStays(h, p.version, p.readAt, row, now);
  }

  lemma QueryStays(h: seq<Version>, q: Query, highest: map<string, nat>, t: string, row: Option<Row>,
                   now: nat)
    requires QueryOk(h, q, highest, t, now)
    ensures QueryOk(h + [Version(row, now)], q, highest, t, now)
  {
    SeenStays(h, q.version, q.readAt, row, now);
  }

  lemma PlacementsChange(s: State, t: string, row: Option<Row>)
    requires PlacementsOk(s.history, s.placements, s.highest, s.now)
    requires DecisionsOk(s.history, s.decisions, s.now)
    ensures var history := s.history[t := History(s.history, t) + [Version(row, s.now)]];
            && PlacementsOk(history, s.placements, s.highest, s.now)
            && DecisionsOk(history, s.decisions, s.now)
  {
    hide PlacementOk;
    var h := History(s.history, t);
    var history := s.history[t := h + [Version(row, s.now)]];
    forall u | u in s.placements ensures PlacementOk(History(history, u), s.placements[u], s.now) {
      if u == t {
        PlacementStays(h, s.placements[u], row, s.now);
      }
    }
    forall d | d in s.decisions ensures DecisionOk(History(history, d.tenant), d, s.now) {
      assert DecisionOk(History(s.history, d.tenant), d, s.now);
      if d.tenant == t {
        PlacementStays(h, d.placement, row, s.now);
      }
    }
  }

  lemma QueriesChange(s: State, t: string, row: Option<Row>)
    requires QueriesOk(s.history, s.gates.callers, s.queries, s.highest, s.now)
    ensures var history := s.history[t := History(s.history, t) + [Version(row, s.now)]];
            QueriesOk(history, s.gates.callers, s.queries, s.highest, s.now)
  {
    hide QueryOk;
    forall id | id in s.queries && s.gates.callers[id].key == t
      ensures QueryOk(History(s.history, t) + [Version(row, s.now)], s.queries[id], s.highest, t, s.now)
    {
      QueryStays(History(s.history, t), s.queries[id], s.highest, t, row, s.now);
    }
  }

  lemma HistoriesChange(s: State, t: string, row: Option<Row>)
    requires HistoriesOk(s.history, s.now) && HighestOk(s.history, s.highest)
    ensures var history := s.history[t := History(s.history, t) + [Version(row, s.now)]];
            HistoriesOk(history, s.now) && HighestOk(history, s.highest)
  {
    HistoryFound(s.history, t, s.now);
  }

  lemma ChangeKeeps(s: State, t: string, row: Option<Row>)
    requires Inv(s)
    ensures Inv(Next(s, Change(t, row)))
  {
    hide G.Inv, HistoriesOk, HighestOk, PlacementsOk, QueriesOk, DecisionsOk;
    HistoriesChange(s, t, row);
    PlacementsChange(s, t, row);
    QueriesChange(s, t, row);
  }

  lemma WaitKeeps(s: State, d: nat)
    requires Inv(s)
    ensures Inv(Next(s, Wait(d)))
  {
    hide G.Inv, SeenAt;
    G.StepKeeps(s.gates, G.Wait(d));
  }

  // ------------------------------------------------------------------ the other steps

  /** The gates take a step in which nobody with a query out moves. */
  lemma GatesMove(s: State, a: G.Action)
    requires Inv(s) && G.Enabled(s.gates, a) && !a.Wait?
    requires !a.Arrive? ==> a.id !in s.queries
    ensures Inv(s.(gates := G.Next(s.gates, a)))
  {
    hide G.Inv, G.StrongCount, HistoriesOk, PlacementsOk, HighestOk, DecisionsOk, QueryOk;
    G.StepKeeps(s.gates, a);
    forall id | id in s.queries ensures id in G.Next(s.gates, a).callers && G.Next(s.gates, a).callers[id] == s.gates.callers[id] {
      assert id in s.gates.callers;
    }
  }

  lemma GateKeeps(s: State, step: G.Action)
    requires Inv(s) && Enabled(s, Gate(step))
    ensures Inv(Next(s, Gate(step)))
  {
    hide G.Inv, G.Next, HistoriesOk, PlacementsOk, HighestOk, DecisionsOk, QueryOk;
    assert step.id !in s.queries;
    GatesMove(s, step);
  }

  lemma DecidedKeeps(s: State, t: string)
    requires Inv(s) && Cached(s, t)
    ensures Inv(Decided(s, t, s.placements[t]))
  {
    hide G.Inv, HistoriesOk, HighestOk, QueriesOk, PlacementOk;
  }

  lemma LookupKeeps(s: State, id: nat, t: string)
    requires Inv(s) && Enabled(s, Lookup(id, t))
    ensures Inv(Next(s, Lookup(id, t)))
  {
    hide Inv, G.Next;
    if Cached(s, t) {
      DecidedKeeps(s, t);
    } else {
      GatesMove(s, G.Arrive(id, t));
    }
  }

  lemma RecheckKeeps(s: State, id: nat)
    requires Inv(s) && Enabled(s, Recheck(id))
    ensures Inv(Next(s, Recheck(id)))
  {
    hide G.Inv, G.Next, HistoriesOk, PlacementsOk, HighestOk, DecisionsOk, QueryOk;
    assert id !in s.queries;
    var t := s.gates.callers[id].key;
    if Cached(s, t) {
      DecidedKeeps(s, t);
      GatesMove(Decided(s, t, s.placements[t]), G.Skip(id));
    } else {
      GatesMove(s, G.Decide(id));
    }
  }

  lemma SelectKeeps(s: State, id: nat)
    requires Inv(s) && Enabled(s, Select(id))
    ensures Inv(Next(s, Select(id)))
  {
    hide G.Inv, PlacementsOk, DecisionsOk, SeenAt;
    var t := s.gates.callers[id].key;
    HistoryFound(s.history, t, s.now);
    SeenNow(History(s.history, t), s.now);
  }

  lemma StampKeeps(s: State, id: nat)
    requires Inv(s) && Enabled(s, Stamp(id))
    ensures Inv(Next(s, Stamp(id)))
  {
    hide G.Inv, HistoriesOk, PlacementsOk, HighestOk, DecisionsOk, SeenAt;
  }

  /** A query ends, with nobody else having one out for the tenant. */
  lemma QueryEnds(s: State, id: nat, a: G.Action)
    requires Inv(s) && (a == G.EndLoad(id, None) || a == G.Cancel(id)) && G.Enabled(s.gates, a)
    ensures Inv(s.(queries := s.queries - {id}, gates := G.Next(s.gates, a)))
  {
    hide G.Inv, G.Next, HistoriesOk, PlacementsOk, HighestOk, DecisionsOk, QueryOk;
    var t := s.(queries := s.queries - {id});
    assert Inv(t);
    GatesMove(t, a);
  }

  lemma InsertKeeps(s: State, id: nat)
    requires Inv(s) && Enabled(s, Insert(id))
    ensures Inv(Next(s, Insert(id)))
  {
    hide G.Inv, G.Next, SeenAt;
    var t, p := s.gates.callers[id].key, PlacementOf(s, id);
    assert PlacementOk(History(s.history, t), p, s.now);
    var q := s.queries - {id};
    OnlyQuery(s, id);
    var m := s.(placements := s.placements[t := p], highest := s.highest[t := p.version], queries := q,
                decisions := s.decisions + {Decision(t, p, p.fetched)});
    InsertedOk(s, id, p, m);
    QueryEnds(m, id, G.EndLoad(id, None));
    assert m.queries - {id} == m.queries;
  }

  lemma OnlyQuery(s: State, id: nat)
    requires Inv(s) && id in s.queries
    ensures forall i :: i in s.queries && i != id ==> s.gates.callers[i].key != s.gates.callers[id].key
  {
    hide G.Inv, HistoriesOk, PlacementsOk, HighestOk, DecisionsOk, QueryOk;
    forall i | i in s.queries && i != id ensures s.gates.callers[i].key != s.gates.callers[id].key {
      if s.gates.callers[i].key == s.gates.callers[id].key {
        G.OneInside(s.gates, i, id);
      }
    }
  }

  lemma InsertedOk(s: State, id: nat, p: Placement, m: State)
    requires Inv(s) && id in s.queries && id in s.gates.callers && p.version == s.queries[id].version
    requires p.fetched <= s.now
    requires PlacementOk(History(s.history, s.gates.callers[id].key), p, s.now)
    requires forall i :: i in s.queries && i != id ==> s.gates.callers[i].key != s.gates.callers[id].key
    requires var t := s.gates.callers[id].key;
             m == s.(placements := s.placements[t := p], highest := s.highest[t := p.version], queries := s.queries - {id},
                     decisions := s.decisions + {Decision(t, p, p.fetched)})
    ensures Inv(m)
  {
    hide G.Inv, HistoriesOk, PlacementsOk, HighestOk, DecisionsOk, QueriesOk;
    PlacementAdded(s, s.gates.callers[id].key, p);
    QueriesStay(s, id, p.version);
  }

  lemma PlacementAdded(s: State, t: string, p: Placement)
    requires PlacementsOk(s.history, s.placements, s.highest, s.now)
    requires HighestOk(s.history, s.highest) && DecisionsOk(s.history, s.decisions, s.now)
    requires PlacementOk(History(s.history, t), p, s.now)
    ensures PlacementsOk(s.history, s.placements[t := p], s.highest[t := p.version], s.now)
    ensures HighestOk(s.history, s.highest[t := p.version])
    ensures DecisionsOk(s.history, s.decisions + {Decision(t, p, p.fetched)}, s.now)
  {
  }

  lemma QueriesStay(s: State, id: nat, version: nat)
    requires QueriesOk(s.history, s.gates.callers, s.queries, s.highest, s.now) && id in s.queries
    requires forall i :: i in s.queries && i != id ==> s.gates.callers[i].key != s.gates.callers[id].key
    ensures QueriesOk(s.history, s.gates.callers, s.queries - {id}, s.highest[s.gates.callers[id].key := version], s.now)
  {
    hide SeenAt;
  }

  lemma PlacementsShrink(s: State, placements: map<string, Placement>)
    requires Inv(s) && forall t :: t in placements ==> t in s.placements && placements[t] == s.placements[t]
    ensures Inv(s.(placements := placements))
  {
    hide G.Inv, HistoriesOk, HighestOk, DecisionsOk, QueriesOk, PlacementOk;
  }

  lemma StepKeeps(s: State, a: Action)
    requires Inv(s) && Enabled(s, a)
    ensures Inv(Next(s, a))
  {
    hide Inv, G.Next;
    match a
    case Change(t, row) => ChangeKeeps(s, t, row);
    case Lookup(id, t) => LookupKeeps(s, id, t);
    case Gate(step) => GateKeeps(s, step);
    case Recheck(id) => RecheckKeeps(s, id);
    case Select(id) => SelectKeeps(s, id);
    case Stamp(id) => StampKeeps(s, id);
    case Insert(id) => InsertKeeps(s, id);
    case GiveUp(id) => QueryEnds(s, id, G.EndLoad(id, None));
    case Cancel(id) => QueryEnds(s, id, G.Cancel(id));
    case Forget(t) => PlacementsShrink(s, s.placements - {t});
    case Sweep => PlacementsShrink(s, Next(s, Sweep).placements);
    case Wait(d) => WaitKeeps(s, d);
  }

  // ------------------------------------------------------------------ runs

  datatype Run = Start | Then(before: Run, action: Action)

  predicate Legal(r: Run)
    decreases r, 0
  {
    r.Then? ==> Legal(r.before) && Enabled(End(r.before), r.action)
  }

  function End(r: Run): State
    requires Legal(r)
    decreases r, 1
  {
    match r
    case Start => INIT
    case Then(before, a) => Next(End(before), a)
  }

  lemma {:induction false} RunKeeps(r: Run)
    requires Legal(r)
    ensures Inv(End(r))
  {
    hide Next, Enabled;
    match r
    case Start =>
    case Then(before, a) =>
      RunKeeps(before);
      StepKeeps(End(before), a);
  }

  /** A placement used for a tenant was read less than PLACEMENT_TTL, and that registry read's own delay, before. */
  lemma PlacementsAreRecent(r: Run, d: Decision)
    requires Legal(r) && d in End(r).decisions
    ensures var s := End(r);
            && 0 <= d.placement.Delay() && d.at < d.placement.readAt + PLACEMENT_TTL + d.placement.Delay()
            && SeenAt(History(s.history, d.tenant), d.placement.version, d.placement.readAt)
            && History(s.history, d.tenant)[d.placement.version].row == Some(Row(Some(d.placement.index), d.placement.relocating))
  {
    hide Next, G.Inv, SeenAt;
    RunKeeps(r);
    assert DecisionOk(History(End(r).history, d.tenant), d, End(r).now);
  }

  /** A registry read is stamped within `slack` of the state it saw. */
  predicate Prompt(s: State, a: Action, slack: nat) {
    a.Stamp? && a.id in s.queries ==> s.now <= s.queries[a.id].readAt + slack
  }

  ghost predicate AllPrompt(r: Run, slack: nat)
    requires Legal(r)
  {
    r.Then? ==> AllPrompt(r.before, slack) && Prompt(End(r.before), r.action, slack)
  }

  /** Every read that is back was back within `slack`. */
  ghost predicate Within(s: State, slack: nat) {
    && (forall id :: id in s.queries && s.queries[id].stamp.Some? ==> s.queries[id].stamp.value <= s.queries[id].readAt + slack)
    && (forall t :: t in s.placements ==> s.placements[t].Delay() <= slack)
    && (forall d :: d in s.decisions ==> d.placement.Delay() <= slack)
  }

  lemma WithinStep(s: State, a: Action, slack: nat)
    requires Within(s, slack) && Enabled(s, a) && Prompt(s, a, slack)
    ensures Within(Next(s, a), slack)
  {
    hide G.Next, G.Enabled;
  }

  /** So if reads take no longer than `slack`, no placement used is older than that and PLACEMENT_TTL. */
  lemma {:induction false} DelaysAreBounded(r: Run, slack: nat)
    requires Legal(r) && AllPrompt(r, slack)
    ensures Within(End(r), slack)
  {
    hide Next, Enabled, Prompt;
    if r.Then? {
      DelaysAreBounded(r.before, slack);
      WithinStep(End(r.before), r.action, slack);
    }
  }

  /** The registry has the tenant relocating in every state from the one that came about at `from` on. */
  predicate RelocatingFrom(h: seq<Version>, from: nat, first: nat) {
    && first < |h| && h[first].since <= from
    && forall v :: first <= v < |h| ==> h[v].row.Some? && h[v].row.value.relocating
  }

  /** So a tenant relocating since `from` is refused by every lookup settled PLACEMENT_TTL, and the registry
      read's own delay, later, or after that. */
  lemma RelocatingIsRefused(r: Run, d: Decision, from: nat, first: nat)
    requires Legal(r) && d in End(r).decisions
    requires RelocatingFrom(History(End(r).history, d.tenant), from, first)
    requires from + PLACEMENT_TTL + d.placement.Delay() <= d.at
    ensures d.placement.relocating
  {
    hide Next, Inv;
    PlacementsAreRecent(r, d);
  }

  /** What a node caches for a tenant never goes back to an older state, even across a `forget`. */
  lemma NeverGoesBack(r: Run, a: Action, t: string)
    requires Legal(Then(r, a))
    ensures var s, n := End(r), End(Then(r, a));
            && (t in s.highest ==> t in n.highest && s.highest[t] <= n.highest[t])
            && (t in n.placements && (t !in s.placements || n.placements[t] != s.placements[t]) && t in s.highest ==>
                  s.highest[t] <= n.placements[t].version)
            && (t in s.placements && t in n.placements ==> s.placements[t].version <= n.placements[t].version)
  {
    hide Next, Enabled, Inv;
    RunKeeps(r);
    CachedGrows(End(r), a, t);
  }

  lemma CachedGrows(s: State, a: Action, t: string)
    requires Inv(s) && Enabled(s, a)
    ensures var n := Next(s, a);
            && (t in s.highest ==> t in n.highest && s.highest[t] <= n.highest[t])
            && (t in n.placements && (t !in s.placements || n.placements[t] != s.placements[t]) && t in s.highest ==>
                  s.highest[t] <= n.placements[t].version)
            && (t in s.placements && t in n.placements ==> s.placements[t].version <= n.placements[t].version)
  {
    hide G.Inv, G.Next, SeenAt;
  }
}

/** The router as one call at a time runs it: `Db` with its databases and its placements. What the registry
    answers and what the clock shows at each look are given. */
module RouterDb {
  import opened Bytes
  import opened Router

  const HOME := "home"
  const MASTER := "master"
  const PLACEMENTS_KEPT: nat := 100_000

  datatype Unroutable = Relocating | UnknownRegion(name: string)

  datatype Known = Known(index: nat, relocating: bool, fetched: nat)

  /** What the registry says of a tenant: its region, none for the home database, and whether it is moving. */
  datatype Entry = Entry(region: Option<string>, relocating: bool)

  /** The clock at the first look, at the look inside the gate, and when the registry has answered. */
  datatype Clock = Clock(first: nat, second: nat, answered: nat)

  predicate IsFresh(k: Known, now: nat) { now < k.fetched + PLACEMENT_TTL }

  function RegionOf(name: string): Option<string> { if name == HOME then None else Some(name) }

  predicate Hosts(databases: seq<string>, i: nat, region: Option<string>) {
    i < |databases| && RegionOf(databases[i]) == region
  }

  /** The other tenants' placements stay as they are, but for those long past their time when there are too many. */
  predicate OthersKept(before: map<string, Known>, after: map<string, Known>, tenant: string, now: nat) {
    && (forall t :: t in after && t != tenant ==> t in before && after[t] == before[t])
    && (forall t :: t in before && t != tenant ==>
          (t in after <==> |before| < PLACEMENTS_KEPT || now < before[t].fetched + 10 * PLACEMENT_TTL))
  }

  class Db {
    const databases: seq<string>
    var placements: map<string, Known>

    ghost predicate Valid()
      reads this
    {
      databases != [] && databases[0] == HOME && forall t :: t in placements ==> placements[t].index < |databases|
    }

    constructor (databases: seq<string>)
      requires databases != [] && databases[0] == HOME
      ensures Valid() && this.databases == databases && placements == map[]
    {
      this.databases := databases;
      placements := map[];
    }

    /** The first database of the region. */
    method Position(region: Option<string>) returns (i: Option<nat>)
      ensures i.Some? ==> Hosts(databases, i.value, region) && forall j: nat :: j < i.value ==> !Hosts(databases, j, region)
      ensures i.None? ==> forall j: nat :: !Hosts(databases, j, region)
    {
      for j := 0 to |databases|
        invariant forall k: nat :: k < j ==> !Hosts(databases, k, region)
      {
        if RegionOf(databases[j]) == region {
          return Some(j);
        }
      }
      return None;
    }

    /** Keep the placements not too long past their time. */
    method Retain(now: nat)
      modifies this
      ensures forall t :: t in placements <==> t in old(placements) && now < old(placements)[t].fetched + 10 * PLACEMENT_TTL
      ensures forall t :: t in placements ==> placements[t] == old(placements)[t]
    {
      var left := placements.Keys;
      while left != {}
        invariant left <= old(placements).Keys
        invariant forall t :: t in placements <==>
                    t in old(placements) && (t in left || now < old(placements)[t].fetched + 10 * PLACEMENT_TTL)
        invariant forall t :: t in placements ==> placements[t] == old(placements)[t]
        decreases |left|
      {
        var t :| t in left;
        if placements[t].fetched + 10 * PLACEMENT_TTL <= now {
          placements := placements - {t};
        }
        left := left - {t};
      }
    }

    /** Read the registry and remember what it says. */
    method Fetch(tenant: string, entry: Option<Entry>, answered: nat) returns (r: Result<Option<Known>, Unroutable>)
      requires Valid()
      modifies this
      ensures Valid()
      ensures entry.None? ==> r == Ok(None) && placements == old(placements)
      ensures entry.Some? && r.Err? ==>
                && r.error == UnknownRegion(if entry.value.region.Some? then entry.value.region.value else "")
                && (forall j: nat :: !Hosts(databases, j, entry.value.region)) && placements == old(placements)
      ensures entry.Some? && r.Ok? ==>
                && r.value.Some? && r.value.value.fetched == answered && r.value.value.relocating == entry.value.relocating
                && Hosts(databases, r.value.value.index, entry.value.region)
                && tenant in placements && placements[tenant] == r.value.value
                && OthersKept(old(placements), placements, tenant, answered)
    {
      if entry.None? {
        return Ok(None);
      }
      var index := Position(entry.value.region);
      if index.None? {
        return Err(UnknownRegion(if entry.value.region.Some? then entry.value.region.value else ""));
      }
      var k := Known(index.value, entry.value.relocating, answered);
      if |placements| >= PLACEMENTS_KEPT {
        Retain(answered);
      }
      placements := placements[tenant := k];
      return Ok(Some(k));
    }

    /** `fetch_once`, once it has the gate: another's read may have settled it. */
    method FetchOnce(tenant: string, entry: Option<Entry>, clock: Clock) returns (r: Result<Option<Known>, Unroutable>)
      requires Valid()
      modifies this
      ensures Valid()
      ensures tenant in old(placements) && IsFresh(old(placements)[tenant], clock.second) ==>
                r == Ok(Some(old(placements)[tenant])) && placements == old(placements)
      ensures !(tenant in old(placements) && IsFresh(old(placements)[tenant], clock.second)) ==>
                && Answers(r, entry)
                && (r.Err? || r.value.None? ==> placements == old(placements))
                && (r.Ok? && r.value.Some? ==>
                      && r.value.value.fetched == clock.answered && tenant in placements && placements[tenant] == r.value.value
                      && OthersKept(old(placements), placements, tenant, clock.answered))
    {
      if tenant in placements && IsFresh(placements[tenant], clock.second) {
        return Ok(Some(placements[tenant]));
      }
      r := Fetch(tenant, entry, clock.answered);
    }

    /** `r` is what the registry entry says. */
    predicate Answers(r: Result<Option<Known>, Unroutable>, entry: Option<Entry>) {
      match entry
      case None => r == Ok(None)
      case Some(e) =>
        if r.Err? then r.error.UnknownRegion? && forall j :: 0 <= j < |databases| ==> !Hosts(databases, j, e.region)
        else r.value.Some? && r.value.value.relocating == e.relocating && Hosts(databases, r.value.value.index, e.region)
    }

    /** The database a tenant lives in: never one that neither a placement still trusted nor the registry
        names, save for a tenant the registry no longer has. */
    method Locate(tenant: string, entry: Option<Entry>, clock: Clock) returns (r: Result<nat, Unroutable>)
      requires Valid()
      modifies this
      ensures Valid() && (r.Ok? ==> r.value < |databases|)
      ensures |databases| == 1 || tenant == MASTER ==> r == Ok(0) && placements == old(placements)
      ensures |databases| > 1 && tenant != MASTER ==>
                var trusted := tenant in old(placements)
                  && (IsFresh(old(placements)[tenant], clock.first) || IsFresh(old(placements)[tenant], clock.second));
                if trusted then
                  r == if old(placements)[tenant].relocating then Err(Relocating) else Ok(old(placements)[tenant].index)
                else match entry
                  case Some(e) =>
                    && (r.Ok? <==> !e.relocating && exists j :: 0 <= j < |databases| && Hosts(databases, j, e.region))
                    && (r.Ok? ==> Hosts(databases, r.value, e.region))
                    && (r.Err? && r.error.Relocating? ==> e.relocating)
                  case None =>
                    r == Ok(if tenant in old(placements) && !old(placements)[tenant].relocating then old(placements)[tenant].index else 0)
    {
      if |databases| == 1 || tenant == MASTER {
        return Ok(0);
      }
      var cached := if tenant in placements then Some(placements[tenant]) else None;
      var known: Known;
      if cached.Some? && IsFresh(cached.value, clock.first) {
        known := cached.value;
      } else {
        var fetched :- FetchOnce(tenant, entry, clock);
        if fetched.Some? {
          known := fetched.value;
        } else if cached.Some? && !cached.value.relocating {
          known := cached.value;
        } else {
          return Ok(0);
        }
      }
      if known.relocating {
        return Err(Relocating);
      }
      return Ok(known.index);
    }

    method Forget(tenant: string)
      requires Valid()
      modifies this
      ensures Valid() && placements == old(placements) - {tenant}
    {
      placements := placements - {tenant};
    }
  }
}
