/** Single flight (api/src/cache/layer.rs, and the placement gates of api/src/db/router.rs): callers that
    miss a key share a reference-counted gate found in a map; a gate is taken out of the map by the last
    caller to leave it, and made anew by the next. Every atomic step of any number of callers. */
module Gates {
  import opened Bytes

  /** A load that failed, and when it ended. */
  datatype Failure = Failure(at: nat, error: nat)

  /** A gate: a lock around the last load's failure. */
  datatype Gate = Gate(key: string, lockedBy: Option<nat>, failed: Option<Failure>)

  datatype Pc = Arrived | Waiting | Inside | Loading | Leaving | Releasing | Dropping | Done

  datatype Outcome = Pending | Finished | Failed(failure: Failure) | Shared(failure: Failure)

  datatype Caller = Caller(key: string, pc: Pc, gate: nat, arrived: nat, outcome: Outcome) {
    /** Has a reference to its gate. */
    predicate Holds() { !pc.Arrived? && !pc.Done? }
    /** Has the gate's lock. */
    predicate Locks() { pc.Inside? || pc.Loading? || pc.Leaving? }
    /** Has not yet looked whether to take the gate out of the map. */
    predicate Counts() { Holds() && !pc.Dropping? }
  }

  datatype State = State(
    loading: map<string, nat>,
    gates: map<nat, Gate>,
    callers: map<nat, Caller>,
    failures: set<(string, Failure)>,   // every load that ever failed
    now: nat)

  datatype Action =
    | Arrive(id: nat, key: string)
    | GetGate(id: nat, newGate: nat)
    | Lock(id: nat)
    | Decide(id: nat)
    | Skip(id: nat)
    | EndLoad(id: nat, error: Option<nat>)
    | Unlock(id: nat)
    | Release(id: nat)
    | DropRef(id: nat)
    | Cancel(id: nat)
    | Wait(d: nat)

  const INIT := State(map[], map[], map[], {}, 0)

  /** The callers with a reference to gate `g`, and the keys it is filed under. */
  function Refs(callers: map<nat, Caller>, g: nat): set<nat> {
    set id | id in callers && callers[id].Holds() && callers[id].gate == g
  }

  function Filed(loading: map<string, nat>, g: nat): set<string> { set k | k in loading && loading[k] == g }

  function StrongCount(s: State, g: nat): nat { |Refs(s.callers, g)| + |Filed(s.loading, g)| }

  // ------------------------------------------------------------------ the steps

  predicate At(s: State, id: nat, pc: Pc) { id in s.callers && s.callers[id].pc == pc }

  /** At a place that finds its gate. */
  predicate AtGate(s: State, id: nat, pc: Pc) { At(s, id, pc) && s.callers[id].gate in s.gates }

  predicate Enabled(s: State, a: Action) {
    match a
    case Arrive(id, key) => id !in s.callers
    case GetGate(id, newGate) => At(s, id, Arrived) && newGate !in s.gates
    case Lock(id) => AtGate(s, id, Waiting) && s.gates[s.callers[id].gate].lockedBy.None?
    case Decide(id) => AtGate(s, id, Inside)
    case Skip(id) => AtGate(s, id, Inside)
    case EndLoad(id, error) => AtGate(s, id, Loading)
    case Unlock(id) => AtGate(s, id, Leaving)
    case Release(id) => At(s, id, Releasing)
    case DropRef(id) => At(s, id, Dropping)
    case Cancel(id) => id in s.callers && (s.callers[id].pc.Waiting? || AtGate(s, id, Inside) || AtGate(s, id, Loading))
    case Wait(d) => true
  }

  function Moved(s: State, id: nat, pc: Pc): State
    requires id in s.callers
  {
    s.(callers := s.callers[id := s.callers[id].(pc := pc)])
  }

  function Ended(s: State, id: nat, outcome: Outcome): State
    requires id in s.callers
  {
    s.(callers := s.callers[id := s.callers[id].(pc := Leaving, outcome := outcome)])
  }

  function WithGate(s: State, g: nat, gate: Gate): State { s.(gates := s.gates[g := gate]) }

  function Next(s: State, a: Action): State
    requires Enabled(s, a)
  {
    match a
    case Arrive(id, key) => s.(callers := s.callers[id := Caller(key, Arrived, 0, s.now, Pending)])
    case GetGate(id, newGate) =>
      var c := s.callers[id];
      if c.key in s.loading then s.(callers := s.callers[id := c.(pc := Waiting, gate := s.loading[c.key])])
      else WithGate(s.(loading := s.loading[c.key := newGate], callers := s.callers[id := c.(pc := Waiting, gate := newGate)]),
                    newGate, Gate(c.key, None, None))
    case Lock(id) =>
      var g := s.callers[id].gate;
      WithGate(Moved(s, id, Inside), g, s.gates[g].(lockedBy := Some(id)))
    case Decide(id) =>
      var c := s.callers[id];
      var failed := s.gates[c.gate].failed;
      if failed.Some? && failed.value.at >= c.arrived then Ended(s, id, Shared(failed.value)) else Moved(s, id, Loading)
    case Skip(id) =>
      // What it came for turns out to be there by now.
      var g := s.callers[id].gate;
      WithGate(Ended(s, id, Finished), g, s.gates[g].(failed := None))
    case EndLoad(id, error) =>
      var c := s.callers[id];
      if error.None? then WithGate(Ended(s, id, Finished), c.gate, s.gates[c.gate].(failed := None))
      else
        var f := Failure(s.now, error.value);
        WithGate(Ended(s, id, Failed(f)), c.gate, s.gates[c.gate].(failed := Some(f))).(failures := s.failures + {(c.key, f)})
    case Unlock(id) =>
      var g := s.callers[id].gate;
      WithGate(Moved(s, id, Releasing), g, s.gates[g].(lockedBy := None))
    case Release(id) =>
      var c := s.callers[id];
      if c.key in s.loading && s.loading[c.key] == c.gate && StrongCount(s, c.gate) == 2
      then Moved(s, id, Dropping).(loading := s.loading - {c.key})
      else Moved(s, id, Dropping)
    case DropRef(id) => Moved(s, id, Done)
    case Cancel(id) =>
      var g := s.callers[id].gate;
      if s.callers[id].pc.Waiting? then Moved(s, id, Done)
      else WithGate(Moved(s, id, Done), g, s.gates[g].(lockedBy := None))
    case Wait(d) => s.(now := s.now + d)
  }

  // ------------------------------------------------------------------ what every run keeps

  predicate CallerOk(s: State, id: nat)
    requires id in s.callers
  {
    var c := s.callers[id];
    && c.arrived <= s.now
    && (c.Holds() ==> c.gate in s.gates && s.gates[c.gate].key == c.key)
    && (c.Counts() ==> c.key in s.loading && s.loading[c.key] == c.gate)
    && (c.Locks() ==> s.gates[c.gate].lockedBy == Some(id))
    && (c.outcome.Shared? ==> (c.key, c.outcome.failure) in s.failures && c.arrived <= c.outcome.failure.at)
  }

  predicate GateOk(s: State, g: nat)
    requires g in s.gates
  {
    var gate := s.gates[g];
    && (gate.lockedBy.Some? ==>
          var id := gate.lockedBy.value;
          id in s.callers && s.callers[id].Locks() && s.callers[id].gate == g)
    && (gate.failed.Some? ==> (gate.key, gate.failed.value) in s.failures)
  }

  ghost predicate Inv(s: State) {
    && (forall id :: id in s.callers ==> CallerOk(s, id))
    && (forall g :: g in s.gates ==> GateOk(s, g))
    && (forall k :: k in s.loading ==> s.loading[k] in s.gates && s.gates[s.loading[k]].key == k)
  }

  /** Two in all, one in the map and one its own: nobody else has the gate. */
  lemma CountTwoIsAlone(s: State, id: nat, other: nat)
    requires id in s.callers && s.callers[id].Holds() && other in s.callers && other != id
    requires var c := s.callers[id]; c.key in s.loading && s.loading[c.key] == c.gate && StrongCount(s, c.gate) == 2
    ensures !(s.callers[other].Holds() && s.callers[other].gate == s.callers[id].gate)
  {
    var c := s.callers[id];
    var refs, filed := Refs(s.callers, c.gate), Filed(s.loading, c.gate);
    assert c.key in filed && |filed| >= 1;
    if s.callers[other].Holds() && s.callers[other].gate == c.gate {
      assert {id, other} <= refs;
      SubsetSize({id, other}, refs);
    }
  }

  lemma {:induction false} SubsetSize<T>(a: set<T>, b: set<T>)
    requires a <= b
    ensures |a| <= |b|
  {
    if a != {} {
      var x :| x in a;
      SubsetSize(a - {x}, b - {x});
    }
  }

  lemma ReleaseKeeps(s: State, id: nat)
    requires Inv(s) && Enabled(s, Release(id))
    ensures Inv(Next(s, Release(id)))
  {
    hide StrongCount;
    var t := Next(s, Release(id));
    assert CallerOk(s, id);
    forall i | i in t.callers ensures CallerOk(t, i) {
      assert CallerOk(s, i);
      if i != id && t.loading != s.loading {
        CountTwoIsAlone(s, id, i);
      }
    }
    forall g | g in t.gates ensures GateOk(t, g) {
      assert GateOk(s, g);
    }
  }

  /** The other steps leave the gates others have in the map. */
  lemma OthersKeep(s: State, a: Action, i: nat)
    requires Inv(s) && Enabled(s, a) && !a.Release? && !a.Arrive? && !a.Wait? && i in s.callers && i != a.id
    ensures CallerOk(Next(s, a), i)
  {
    assert CallerOk(s, i) && CallerOk(s, a.id);
    hide Inv, StrongCount;
  }

  lemma ActorKeeps(s: State, a: Action)
    requires Inv(s) && Enabled(s, a) && !a.Release? && !a.Arrive? && !a.Wait?
    ensures a.id in Next(s, a).callers && CallerOk(Next(s, a), a.id)
  {
    hide StrongCount;
    assert CallerOk(s, a.id);
    if a.Decide? {
      assert GateOk(s, s.callers[a.id].gate);
    }
  }

  /** A gate the step is not about stays as it is, with whoever locks it. */
  lemma OtherGateKeeps(s: State, a: Action, g: nat)
    requires Inv(s) && Enabled(s, a) && !a.Release? && g in s.gates
    requires a.Arrive? || a.Wait? || (s.callers[a.id].Holds() ==> s.callers[a.id].gate != g)
    ensures g in Next(s, a).gates && GateOk(Next(s, a), g)
  {
    hide StrongCount, CallerOk;
    assert GateOk(s, g);
  }

  lemma OwnGateKeeps(s: State, a: Action, g: nat)
    requires Inv(s) && Enabled(s, a) && !a.Release? && !a.Arrive? && !a.Wait? && g in s.gates
    requires s.callers[a.id].Holds() && s.callers[a.id].gate == g
    ensures g in Next(s, a).gates && GateOk(Next(s, a), g)
  {
    hide StrongCount;
    assert GateOk(s, g) && CallerOk(s, a.id);
  }

  lemma GateKeeps(s: State, a: Action, g: nat)
    requires Inv(s) && Enabled(s, a) && !a.Release? && g in Next(s, a).gates
    ensures GateOk(Next(s, a), g)
  {
    hide StrongCount, CallerOk;
    if g in s.gates {
      if a.Arrive? || a.Wait? || (s.callers[a.id].Holds() ==> s.callers[a.id].gate != g) {
        OtherGateKeeps(s, a, g);
      } else {
        OwnGateKeeps(s, a, g);
      }
    }
  }

  lemma FiledKeeps(s: State, a: Action, k: string)
    requires Inv(s) && Enabled(s, a) && !a.Release? && k in Next(s, a).loading
    ensures var t := Next(s, a); t.loading[k] in t.gates && t.gates[t.loading[k]].key == k
  {
    hide StrongCount, CallerOk, GateOk;
  }

  lemma OtherKeeps(s: State, a: Action)
    requires Inv(s) && Enabled(s, a) && !a.Release?
    ensures Inv(Next(s, a))
  {
    var t := Next(s, a);
    forall i | i in t.callers ensures CallerOk(t, i) {
      if a.Arrive? || a.Wait? {
        assert i in s.callers ==> CallerOk(s, i);
      } else if i == a.id {
        ActorKeeps(s, a);
      } else {
        OthersKeep(s, a, i);
      }
    }
    hide StrongCount, CallerOk, GateOk;
    forall g | g in t.gates ensures GateOk(t, g) {
      GateKeeps(s, a, g);
    }
    forall k | k in t.loading ensures t.loading[k] in t.gates && t.gates[t.loading[k]].key == k {
      FiledKeeps(s, a, k);
    }
  }

  lemma StepKeeps(s: State, a: Action)
    requires Inv(s) && Enabled(s, a)
    ensures Inv(Next(s, a))
  {
    hide Inv, Next;
    if a.Release? {
      ReleaseKeeps(s, a.id);
    } else {
      OtherKeeps(s, a);
    }
  }

  // ------------------------------------------------------------------ runs

  datatype Run = Start | Then(before: Run, action: Action)

  predicate Legal(r: Run)
    decreases r, 0
  {
    r.Then? ==> Legal(r.before) && Enabled(End(r.before), r.action)
  }

  function End(r: Run): State
    requires Legal(r)
    decreases r, 1
  {
    match r
    case Start => INIT
    case Then(before, a) => Next(End(before), a)
  }

  lemma {:induction false} RunKeeps(r: Run)
    requires Legal(r)
    ensures Inv(End(r))
  {
    hide Next, Enabled;
    match r
    case Start =>
    case Then(before, a) =>
      RunKeeps(before);
      StepKeeps(End(before), a);
  }

  lemma OneInside(s: State, a: nat, b: nat)
    requires Inv(s) && a in s.callers && b in s.callers && s.callers[a].key == s.callers[b].key
    requires s.callers[a].Locks() && s.callers[b].Locks()
    ensures a == b
  {
    assert CallerOk(s, a) && CallerOk(s, b);
  }

  /** Although gates come and go, at most one load of a key runs at a time. */
  lemma OneLoadPerKey(r: Run, a: nat, b: nat)
    requires Legal(r) && At(End(r), a, Loading) && At(End(r), b, Loading)
    requires End(r).callers[a].key == End(r).callers[b].key
    ensures a == b
  {
    hide Next, Inv;
    RunKeeps(r);
    OneInside(End(r), a, b);
  }

  /** A failure handed to a caller is that of a load of its own key that ended no earlier than it arrived. */
  lemma SharedFailuresAreTimely(r: Run, id: nat)
    requires Legal(r) && id in End(r).callers && End(r).callers[id].outcome.Shared?
    ensures var c := End(r).callers[id];
            (c.key, c.outcome.failure) in End(r).failures && c.arrived <= c.outcome.failure.at
  {
    hide Next;
    RunKeeps(r);
    assert CallerOk(End(r), id);
  }
}
