/** The shared tier (api/src/cache/layer.rs): invalidations put a hold on a key for INVALIDATION_HOLD, and
    a loader's write is refused while it stands. Any number of loads and invalidations overlap; time is in
    milliseconds; values, positive or negative, are the version of the source they were read from. */
module Valkey {
  import opened Bytes

  const INVALIDATION_HOLD: nat := 5000

  /** What a key holds, and until when. */
  datatype Cell = Held(until: nat) | Value(version: nat, until: nat)

  /** A load under way: what it read from the source, and when. */
  datatype Load = Load(key: string, version: nat, readAt: nat)

  /** A loader, by its node and number there. */
  type LoadId = (nat, nat)

  /** An invalidation called for, after a write that made the source reach `floor`. */
  datatype Call = Call(key: string, floor: nat)

  /** A hold as it was placed. */
  datatype Hold = Hold(key: string, floor: nat, at: nat)

  datatype State = State(
    versions: map<string, nat>,
    cells: map<string, Cell>,
    loads: map<LoadId, Load>,
    calls: map<nat, Call>,
    holds: set<Hold>,
    now: nat)

  datatype Action =
    | Write(key: string)
    | Invalidate(call: nat, key: string)
    | PlaceHold(call: nat)
    | Read(id: LoadId, key: string)
    | Store(id: LoadId, ttl: nat)
    | Fail(id: LoadId)
    | Vanish(key: string)
    | Wait(d: nat)

  const INIT := State(map[], map[], map[], map[], {}, 0)

  function Version(s: State, k: string): nat { if k in s.versions then s.versions[k] else 0 }

  predicate HeldNow(s: State, k: string) {
    k in s.cells && s.cells[k].Held? && s.now < s.cells[k].until
  }

  /** What a node's read of the key gives: a hold and an expired value both read as a miss. */
  function Lookup(s: State, k: string): Option<nat> {
    if k in s.cells && s.cells[k].Value? && s.now < s.cells[k].until then Some(s.cells[k].version) else None
  }

  predicate Enabled(s: State, a: Action) {
    match a
    case Write(key) => true
    case Invalidate(call, key) => call !in s.calls
    case PlaceHold(call) => call in s.calls
    case Read(id, key) => id !in s.loads
    case Store(id, ttl) => id in s.loads
    case Fail(id) => id in s.loads
    case Vanish(key) => !HeldNow(s, key)   // a value may go at any time; a hold stands its time
    case Wait(d) => true
  }

  /** Set unless invalidated. */
  function Stored(s: State, k: string, version: nat, ttl: nat): State {
    if HeldNow(s, k) then s else s.(cells := s.cells[k := Value(version, s.now + ttl)])
  }

  function Next(s: State, a: Action): State
    requires Enabled(s, a)
  {
    match a
    case Write(key) => s.(versions := s.versions[key := Version(s, key) + 1])
    case Invalidate(call, key) => s.(calls := s.calls[call := Call(key, Version(s, key))])
    case PlaceHold(call) =>
      var c := s.calls[call];
      s.(cells := s.cells[c.key := Held(s.now + INVALIDATION_HOLD)], holds := s.holds + {Hold(c.key, c.floor, s.now)})
    case Read(id, key) => s.(loads := s.loads[id := Load(key, Version(s, key), s.now)])
    case Store(id, ttl) =>
      var l := s.loads[id];
      Stored(s, l.key, l.version, ttl).(loads := s.loads - {id})
    case Fail(id) => s.(loads := s.loads - {id})
    case Vanish(key) => s.(cells := s.cells - {key})
    case Wait(d) => s.(now := s.now + d)
  }

  /** A load writes within INVALIDATION_HOLD of reading its source. */
  predicate Timely(s: State, a: Action) {
    a.Store? && a.id in s.loads ==> s.now < s.loads[a.id].readAt + INVALIDATION_HOLD
  }

  // ------------------------------------------------------------------ what every run keeps

  predicate LoadOk(l: Load, h: Hold) {
    l.key == h.key && l.version < h.floor ==> l.readAt <= h.at
  }

  /** While a hold stands the key is held at least as long; afterwards nothing older has come back. */
  predicate HoldOk(s: State, h: Hold) {
    && h.floor <= Version(s, h.key) && h.at <= s.now
    && (s.now < h.at + INVALIDATION_HOLD ==>
          h.key in s.cells && s.cells[h.key].Held? && h.at + INVALIDATION_HOLD <= s.cells[h.key].until)
    && (h.key in s.cells && s.cells[h.key].Value? ==> h.floor <= s.cells[h.key].version)
  }

  ghost predicate Inv(s: State) {
    && (forall h :: h in s.holds ==> HoldOk(s, h))
    && (forall c :: c in s.calls ==> s.calls[c].floor <= Version(s, s.calls[c].key))
    && (forall id :: id in s.loads ==> s.loads[id].readAt <= s.now)
    && (forall id, h :: id in s.loads && h in s.holds ==> LoadOk(s.loads[id], h))
  }

  lemma HoldKeeps(s: State, a: Action, h: Hold)
    requires Inv(s) && Enabled(s, a) && Timely(s, a) && h in s.holds
    ensures HoldOk(Next(s, a), h)
  {
    assert HoldOk(s, h);
    if a.Store? {
      assert LoadOk(s.loads[a.id], h);
    }
  }

  lemma LoadKeeps(s: State, a: Action, id: LoadId, h: Hold)
    requires Inv(s) && Enabled(s, a) && id in Next(s, a).loads && h in Next(s, a).holds
    ensures LoadOk(Next(s, a).loads[id], h)
  {
    if h in s.holds {
      if a.Read? && a.id == id {
        assert HoldOk(s, h);
      } else {
        assert LoadOk(s.loads[id], h);
      }
    }
  }

  lemma StepKeeps(s: State, a: Action)
    requires Inv(s) && Enabled(s, a) && Timely(s, a)
    ensures Inv(Next(s, a))
  {
    hide HoldOk, LoadOk;
    var t := Next(s, a);
    forall h | h in t.holds ensures HoldOk(t, h) {
      if h in s.holds {
        HoldKeeps(s, a, h);
      } else {
        NewHold(s, a.call);
      }
    }
    forall id, h | id in t.loads && h in t.holds ensures LoadOk(t.loads[id], h) {
      LoadKeeps(s, a, id, h);
    }
  }

  lemma NewHold(s: State, call: nat)
    requires Inv(s) && Enabled(s, PlaceHold(call))
    ensures HoldOk(Next(s, PlaceHold(call)), Hold(s.calls[call].key, s.calls[call].floor, s.now))
  {
  }

  // ------------------------------------------------------------------ runs

  datatype Run = Start | Then(before: Run, action: Action)

  predicate Legal(r: Run)
    decreases r, 0
  {
    r.Then? ==> Legal(r.before) && Enabled(End(r.before), r.action)
  }

  function End(r: Run): State
    requires Legal(r)
    decreases r, 1
  {
    match r
    case Start => INIT
    case Then(before, a) => Next(End(before), a)
  }

  ghost predicate AllTimely(r: Run)
    requires Legal(r)
  {
    r.Then? ==> AllTimely(r.before) && Timely(End(r.before), r.action)
  }

  lemma {:induction false} RunKeeps(r: Run)
    requires Legal(r) && AllTimely(r)
    ensures Inv(End(r))
  {
    hide Next, Enabled;
    match r
    case Start =>
    case Then(before, a) =>
      RunKeeps(before);
      StepKeeps(End(before), a);
  }

  /** After an invalidation has placed its hold, no read of the key ever gives a value older than the
      write that was invalidated. */
  lemma NothingOlderAfterInvalidation(r: Run, h: Hold)
    requires Legal(r) && AllTimely(r) && h in End(r).holds
    ensures Lookup(End(r), h.key).Some? ==> h.floor <= Lookup(End(r), h.key).value
  {
    hide Next, Enabled;
    RunKeeps(r);
    assert HoldOk(End(r), h);
  }

  // ------------------------------------------------------------------ how long a load may take

  /** Every load of the run writes less than `d` after its read. */
  ghost predicate AllWithin(r: Run, d: nat)
    requires Legal(r)
  {
    match r
    case Start => true
    case Then(before, a) =>
      AllWithin(before, d) && (a.Store? ==> End(before).now < End(before).loads[a.id].readAt + d)
  }

  /** No run whose loads all take less than `d` ever reads below the floor of a hold. */
  ghost predicate NeverBelow(d: nat) {
    forall r: Run, h: Hold :: Legal(r) && AllWithin(r, d) && h in End(r).holds ==> ReadsReach(End(r), h)
  }

  predicate ReadsReach(s: State, h: Hold) {
    Lookup(s, h.key).Some? ==> h.floor <= Lookup(s, h.key).value
  }

  lemma {:induction false} WithinIsTimely(r: Run, d: nat)
    requires Legal(r) && AllWithin(r, d) && d <= INVALIDATION_HOLD
    ensures AllTimely(r)
  {
    hide Next;
    if r.Then? {
      WithinIsTimely(r.before, d);
    }
  }

  /** A load that writes INVALIDATION_HOLD after its read, and no later, puts an older value back. */
  lemma SlowLoadPutsBack() returns (r: Run, h: Hold)
    ensures Legal(r) && AllWithin(r, INVALIDATION_HOLD + 1) && h in End(r).holds && !ReadsReach(End(r), h)
  {
    r := Then(Then(Start, Read((0, 0), "k")), Write("k"));
    assert AllWithin(r, INVALIDATION_HOLD + 1);
    assert End(r) == INIT.(versions := map["k" := 1], loads := map[(0, 0) := Load("k", 0, 0)]);
    r := Then(Then(r, Invalidate(0, "k")), PlaceHold(0));
    h := Hold("k", 1, 0);
    assert AllWithin(r, INVALIDATION_HOLD + 1);
    assert End(r) == State(map["k" := 1], map["k" := Held(INVALIDATION_HOLD)], map[(0, 0) := Load("k", 0, 0)],
                           map[0 := Call("k", 1)], {h}, 0);
    r := Then(r, Wait(INVALIDATION_HOLD));
    assert End(r).now == INVALIDATION_HOLD && End(r).loads == map[(0, 0) := Load("k", 0, 0)];
    r := Then(r, Store((0, 0), 60_000));
    assert End(r).cells == map["k" := Value(0, INVALIDATION_HOLD + 60_000)];
  }

  lemma {:induction false} WithinMore(r: Run, d: nat, e: nat)
    requires Legal(r) && AllWithin(r, d) && d <= e
    ensures AllWithin(r, e)
  {
    hide Next;
    if r.Then? {
      WithinMore(r.before, d, e);
    }
  }

  /** The hold is exactly long enough: a bound on loads keeps older values out if and only if it is no longer
      than INVALIDATION_HOLD. */
  lemma HoldIsExact(d: nat)
    ensures NeverBelow(d) <==> d <= INVALIDATION_HOLD
  {
    hide Next, Enabled;
    if d <= INVALIDATION_HOLD {
      forall r: Run, h: Hold | Legal(r) && AllWithin(r, d) && h in End(r).holds ensures ReadsReach(End(r), h) {
        WithinIsTimely(r, d);
        NothingOlderAfterInvalidation(r, h);
      }
    } else {
      var r, h := SlowLoadPutsBack();
      WithinMore(r, INVALIDATION_HOLD + 1, d);
      assert !ReadsReach(End(r), h);
    }
  }
}
