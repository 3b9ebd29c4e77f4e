/** The in-process cache (api/src/cache/l1.rs) as what its atomic operations do to its four fields. */
module L1 {
  import opened Bytes

  /** What a loader saw before it read the source. */
  datatype Ticket = Ticket(evicted: Option<nat>, cleared: nat)

  datatype Cache<V> = Cache(entries: map<string, V>, evicted: map<string, nat>, generation: nat, cleared: nat) {
    function Evicted(k: string): Option<nat> { if k in evicted then Some(evicted[k]) else None }

    function Put(k: string, v: V): Cache<V> { this.(entries := entries[k := v]) }

    function Drop(k: string): Cache<V> { this.(entries := entries - {k}) }

    /** `fetch_add`: the generation drawn is the new value. */
    function Drawn(): Cache<V> { this.(generation := generation + 1) }

    /** Mark the key, or with no key the whole cache, as evicted in generation `g`. */
    function Marked(key: Option<string>, g: nat): Cache<V> {
      match key
      case Some(k) => this.(evicted := evicted[k := g])
      case None => this.(cleared := g)
    }

    function Emptied(key: Option<string>): Cache<V> {
      match key
      case Some(k) => Drop(k)
      case None => this.(entries := map[])
    }

    /** An eviction record whose time is up. */
    function Forgotten(k: string): Cache<V> { this.(evicted := evicted - {k}) }

    function TicketFor(k: string): Ticket { Ticket(Evicted(k), cleared) }

    /** No mark is of a generation still to be drawn. */
    ghost predicate Sound() {
      cleared <= generation && forall k :: k in evicted ==> evicted[k] <= generation
    }
  }

  /** A value with the time it is to live for. */
  datatype Held<V> = Held(value: V, ttl: nat)

  /** What happens to the cache, one call at a time. */
  datatype Call<V> =
    | Store(key: string, held: Held<V>)
    | StoreFresh(key: string, held: Held<V>, ticket: Ticket)
    | Remove(key: string)
    | Clear
  {
    /** Whether it spoils the tickets for `k`. */
    predicate Spoils(k: string) { Clear? || (Remove? && key == k) }
  }

  function Inserted<V>(c: Cache<Held<V>>, k: string, held: Held<V>): Cache<Held<V>> {
    if held.ttl == 0 then c.Drop(k) else c.Put(k, held)
  }

  function Called<V>(c: Cache<Held<V>>, call: Call<V>): Cache<Held<V>> {
    match call
    case Store(k, held) => Inserted(c, k, held)
    case StoreFresh(k, held, ticket) => if c.TicketFor(k) == ticket then Inserted(c, k, held) else c
    case Remove(k) => c.Drawn().Marked(Some(k), c.generation + 1).Emptied(Some(k))
    case Clear => c.Drawn().Marked(None, c.generation + 1).Emptied(None)
  }

  function CalledAll<V>(c: Cache<Held<V>>, calls: seq<Call<V>>): Cache<Held<V>>
    decreases |calls|
  {
    if calls == [] then c else CalledAll(Called(c, calls[0]), calls[1..])
  }

  /** Marks made since some generation stay visible as such. */
  ghost predicate Newer<V>(c: Cache<V>, k: string, generation: nat) {
    c.cleared > generation || (k in c.evicted && c.evicted[k] > generation)
  }

  lemma {:induction false} SinceTicket<V>(c: Cache<Held<V>>, k: string, calls: seq<Call<V>>, generation: nat)
    requires c.Sound() && generation <= c.generation
    ensures CalledAll(c, calls).Sound()
    ensures Newer(c, k, generation) ==> Newer(CalledAll(c, calls), k, generation)
    ensures (exists i :: 0 <= i < |calls| && calls[i].Spoils(k)) ==> Newer(CalledAll(c, calls), k, generation)
    ensures (forall i :: 0 <= i < |calls| ==> !calls[i].Spoils(k)) ==> CalledAll(c, calls).TicketFor(k) == c.TicketFor(k)
    decreases |calls|
  {
    if calls != [] {
      var d := Called(c, calls[0]);
      SinceTicket(d, k, calls[1..], generation);
      assert forall i :: 1 <= i < |calls| ==> calls[i] == calls[1..][i - 1];
      if exists i :: 1 <= i < |calls| && calls[i].Spoils(k) {
        var i :| 1 <= i < |calls| && calls[i].Spoils(k);
        assert calls[1..][i - 1].Spoils(k);
      }
    }
  }

  /** Call by call, `insert_fresh` takes a value if and only if its key was not evicted, nor the cache
      cleared, since its ticket. */
  lemma FreshUnlessSpoiled<V>(c: Cache<Held<V>>, k: string, calls: seq<Call<V>>)
    requires c.Sound()
    ensures CalledAll(c, calls).TicketFor(k) == c.TicketFor(k) <==> forall i :: 0 <= i < |calls| ==> !calls[i].Spoils(k)
  {
    SinceTicket(c, k, calls, c.generation);
  }

  predicate Undisturbed<V>(k: string, calls: seq<Call<V>>) {
    forall i :: 0 <= i < |calls| ==> !calls[i].Spoils(k)
  }

  lemma InsertedBetween<V>(c: Cache<Held<V>>, k: string, before: seq<Call<V>>, held: Held<V>, after: seq<Call<V>>)
    requires c.Sound()
    ensures var d := CalledAll(Inserted(CalledAll(c, before), k, held), after);
            && d.Sound()
            && (d.TicketFor(k) == c.TicketFor(k) <==> Undisturbed(k, before) && Undisturbed(k, after))
  {
    SinceTicket(c, k, before, c.generation);
    var m := Inserted(CalledAll(c, before), k, held);
    GenerationsGrow(c, before);
    SinceTicket(m, k, after, c.generation);
  }

  lemma {:induction false} GenerationsGrow<V>(c: Cache<Held<V>>, calls: seq<Call<V>>)
    ensures c.generation <= CalledAll(c, calls).generation
    decreases |calls|
  {
    if calls != [] {
      GenerationsGrow(Called(c, calls[0]), calls[1..]);
    }
  }

  class L1Cache<V> {
    var entries: map<string, Held<V>>
    var evicted: map<string, nat>
    var generation: nat
    var cleared: nat

    ghost function Contents(): Cache<Held<V>>
      reads this
    {
      Cache(entries, evicted, generation, cleared)
    }

    constructor ()
      ensures Contents() == Cache(map[], map[], 0, 0) && Contents().Sound()
    {
      entries, evicted, generation, cleared := map[], map[], 0, 0;
    }

    method TakeTicket(key: string) returns (t: Ticket)
      ensures t == Contents().TicketFor(key)
    {
      t := Ticket(if key in evicted then Some(evicted[key]) else None, cleared);
    }

    method Get(key: string) returns (v: Option<V>)
      ensures v.Some? <==> key in entries
      ensures v.Some? ==> v.value == entries[key].value
    {
      v := if key in entries then Some(entries[key].value) else None;
    }

    method Put(key: string, value: V, ttl: nat)
      modifies this`entries
      ensures Contents() == Called(old(Contents()), Store(key, Held(value, ttl)))
    {
      if ttl == 0 {
        entries := entries - {key};
        return;
      }
      entries := entries[key := Held(value, ttl)];
    }

    /** `insert_fresh`, with what other callers do between its check and its insertion and between that and
        its recheck. */
    method PutFresh(key: string, value: V, ttl: nat, ticket: Ticket, before: seq<Call<V>>, after: seq<Call<V>>)
      returns (taken: bool)
      requires Contents().Sound()
      modifies this
      ensures Contents().Sound()
      ensures taken <==> old(Contents()).TicketFor(key) == ticket && Undisturbed(key, before) && Undisturbed(key, after)
      ensures old(Contents()).TicketFor(key) != ticket ==> Contents() == old(Contents())
      ensures old(Contents()).TicketFor(key) == ticket ==>
                var c := CalledAll(Inserted(CalledAll(old(Contents()), before), key, Held(value, ttl)), after);
                Contents() == if taken then c else c.Drop(key)
    {
      var now := TakeTicket(key);
      if now != ticket {
        return false;
      }
      Perform(before);
      Put(key, value, ttl);
      Perform(after);
      now := TakeTicket(key);
      InsertedBetween(old(Contents()), key, before, Held(value, ttl), after);
      if now != ticket {
        entries := entries - {key};
        return false;
      }
      return true;
    }

    /** What other callers do. */
    method Perform(calls: seq<Call<V>>)
      requires Contents().Sound()
      modifies this
      ensures Contents() == CalledAll(old(Contents()), calls) && Contents().Sound()
    {
      for i := 0 to |calls|
        invariant CalledAll(Contents(), calls[i..]) == CalledAll(old(Contents()), calls) && Contents().Sound()
      {
        assert calls[i..][1..] == calls[i + 1..];
        match calls[i] {
          case Store(key, held) => Put(key, held.value, held.ttl);
          case StoreFresh(key, held, ticket) =>
            var now := TakeTicket(key);
            if now == ticket {
              Put(key, held.value, held.ttl);
            }
          case Remove(key) => Evict(key);
          case Clear => EvictAll();
        }
      }
    }

    method Evict(key: string)
      requires Contents().Sound()
      modifies this
      ensures Contents() == Called(old(Contents()), Remove(key)) && Contents().Sound()
      ensures key !in entries && generation > old(generation)
    {
      generation := generation + 1;
      evicted := evicted[key := generation];
      entries := entries - {key};
    }

    method EvictAll()
      requires Contents().Sound()
      modifies this
      ensures Contents() == Called(old(Contents()), Clear) && Contents().Sound()
      ensures entries == map[] && generation > old(generation)
    {
      generation := generation + 1;
      cleared := generation;
      entries := map[];
    }
  }
}

/** Every interleaving of loaders, evictions and clears over one such cache. A loader takes a ticket (two
    reads), reads, and then checks, inserts, rechecks and undoes, one atomic step at a time; an eviction
    or clear draws a generation, marks and empties. Values are version numbers, and `floors` is what a
    read that starts now is certain to reach: for a loader of the source, the last write. */
module L1Runs {
  import opened Bytes
  import opened L1

  /** The loader's next step. */
  datatype Pc = TakeCleared | ReadSource | CheckEvicted | CheckCleared | Insert | RecheckEvicted | RecheckCleared | Undo | Finished

  datatype Loader = Loader(
    key: string,
    pc: Pc,
    ticket: Ticket,
    ticketAt: nat,      // when the ticket's two halves were read, on the clock of steps,
    clearedAt: nat,
    recheckedAt: nat,   // and when the recheck of the record was passed
    value: nat,
    begunAt: nat,       // when the ticket was taken, the value read and inserted, in real time
    readAt: nat,
    insertedAt: nat,
    ttl: nat)
  {
    predicate HasTicket() { !pc.TakeCleared? }
    predicate HasRead() { !pc.TakeCleared? && !pc.ReadSource? }
    predicate Inserted() { pc.RecheckEvicted? || pc.RecheckCleared? || pc.Undo? || pc.Finished? }
    predicate Rechecking() { pc.RecheckEvicted? || pc.RecheckCleared? || pc.Undo? }
    predicate Watching() { !pc.RecheckCleared? && !pc.Undo? && !pc.Finished? }
  }

  datatype Stage = Drawn | Marked | Done

  /** An eviction of one key, or of all (a clear): when it marked, on the clock of steps and in real time, and
      what reads were certain of when it began. */
  datatype Eviction = Eviction(key: Option<string>, stage: Stage, at: nat, markedAt: nat, floors: map<string, nat>) {
    predicate Covers(k: string) { key.None? || key == Some(k) }
  }

  /** An entry: who inserted it, and until when it lives. */
  datatype Slot = Slot(loader: nat, until: nat)

  datatype Raise = Raise(key: string, floor: nat, at: nat)

  datatype State = State(
    cache: Cache<Slot>,
    loaders: map<nat, Loader>,
    evictions: map<nat, Eviction>,   // by the generation drawn
    floors: map<string, nat>,
    raises: set<Raise>,
    clock: nat,
    now: nat)

  datatype Action =
    | Begin(id: nat, key: string)
    | Advance(id: nat, value: nat, ttl: nat)
    | GiveUp(id: nat)
    | Draw(scope: Option<string>)
    | Mark(gen: nat)
    | Empty(gen: nat)
    | Vanish(key: string)
    | Forget(key: string)
    | Lift(key: string, floor: nat)
    | Wait(d: nat)

  function Floor(floors: map<string, nat>, k: string): nat { if k in floors then floors[k] else 0 }

  function Max(a: nat, b: nat): nat { if a < b then b else a }

  /** How long a record of an eviction is kept, in milliseconds. */
  const EVICTION_MEMORY: nat := 120_000

  const INIT := State(Cache(map[], map[], 0, 0), map[], map[], map[], {}, 0, 0)

  // ------------------------------------------------------------------ the steps

  predicate Enabled(s: State, a: Action) {
    match a
    case Begin(id, key) => id !in s.loaders
    case Advance(id, value, ttl) =>
      && id in s.loaders && !s.loaders[id].pc.Finished?
      && (s.loaders[id].pc.ReadSource? ==> Floor(s.floors, s.loaders[id].key) <= value)
    case GiveUp(id) => id in s.loaders && (s.loaders[id].pc.ReadSource? || s.loaders[id].pc.CheckEvicted?)
    case Draw(scope) => true
    case Mark(gen) => gen in s.evictions && s.evictions[gen].stage.Drawn?
    case Empty(gen) => gen in s.evictions && s.evictions[gen].stage.Marked?
    case Vanish(key) => true
    case Forget(key) => true
    case Lift(key, floor) => true
    case Wait(d) => true
  }

  function With(s: State, id: nat, l: Loader): State { s.(loaders := s.loaders[id := l]) }

  /** One step of a loader. `value` is what it reads, `ttl` what it inserts for. */
  function Moved(s: State, id: nat, value: nat, ttl: nat): State
    requires id in s.loaders && !s.loaders[id].pc.Finished?
  {
    var l := s.loaders[id];
    match l.pc
    case TakeCleared => With(s, id, l.(ticket := l.ticket.(cleared := s.cache.cleared), clearedAt := s.clock, pc := ReadSource))
    case ReadSource => With(s, id, l.(value := value, readAt := s.now, pc := CheckEvicted))
    case CheckEvicted => With(s, id, l.(pc := if s.cache.Evicted(l.key) == l.ticket.evicted then CheckCleared else Finished))
    case CheckCleared => With(s, id, l.(pc := if s.cache.cleared == l.ticket.cleared then Insert else Finished))
    case Insert =>
      // An entry for no time at all is a removal.
      With(s.(cache := if ttl == 0 then s.cache.Drop(l.key) else s.cache.Put(l.key, Slot(id, s.now + ttl))), id,
           l.(insertedAt := s.now, ttl := ttl, pc := RecheckEvicted))
    case RecheckEvicted =>
      With(s, id, if s.cache.Evicted(l.key) == l.ticket.evicted then l.(pc := RecheckCleared, recheckedAt := s.clock)
                  else l.(pc := Undo))
    case RecheckCleared => With(s, id, l.(pc := if s.cache.cleared == l.ticket.cleared then Finished else Undo))
    case Undo => With(s.(cache := s.cache.Drop(l.key)), id, l.(pc := Finished))
  }

  function Begun(s: State, key: string): Loader {
    Loader(key, TakeCleared, Ticket(s.cache.Evicted(key), 0), s.clock, 0, 0, 0, s.now, 0, 0, 0)
  }

  function Changed(s: State, a: Action): State
    requires Enabled(s, a)
  {
    match a
    case Begin(id, key) =>
      With(s, id, Begun(s, key))
    case Advance(id, value, ttl) => Moved(s, id, value, ttl)
    case GiveUp(id) => s.(loaders := s.loaders - {id})
    case Draw(scope) =>
      var cache := s.cache.Drawn();
      s.(cache := cache, evictions := s.evictions[cache.generation := Eviction(scope, Drawn, 0, 0, s.floors)])
    case Mark(gen) =>
      var e := s.evictions[gen];
      s.(cache := s.cache.Marked(e.key, gen), evictions := s.evictions[gen := e.(stage := Marked, at := s.clock, markedAt := s.now)])
    case Empty(gen) =>
      var e := s.evictions[gen];
      s.(cache := s.cache.Emptied(e.key), evictions := s.evictions[gen := e.(stage := Done)])
    case Vanish(key) => s.(cache := s.cache.Drop(key))
    case Forget(key) => s.(cache := s.cache.Forgotten(key))
    case Lift(key, floor) =>
      s.(floors := s.floors[key := Max(Floor(s.floors, key), floor)], raises := s.raises + {Raise(key, floor, s.now)})
    case Wait(d) => s.(now := s.now + d)
  }

  function Next(s: State, a: Action): State
    requires Enabled(s, a)
  {
    Changed(s, a).(clock := s.clock + 1)
  }

  // ------------------------------------------------------------------ what every run keeps

  /** `e` marked the cache after `l` had taken the half of its ticket that would have shown it. */
  predicate Missed(l: Loader, e: Eviction) {
    && !e.stage.Drawn? && e.Covers(l.key)
    && (if e.key.Some? then l.ticketAt < e.at else l.HasTicket() && l.clearedAt < e.at)
  }

  ghost predicate EvictionsOk(evictions: map<nat, Eviction>, generation: nat, clock: nat) {
    forall g :: g in evictions ==> 0 < g <= generation && (!evictions[g].stage.Drawn? ==> evictions[g].at < clock)
  }

  /** `g` is the last eviction of its kind to have marked. */
  ghost predicate Latest(evictions: map<nat, Eviction>, key: Option<string>, g: nat) {
    && g in evictions && evictions[g].key == key && !evictions[g].stage.Drawn?
    && forall h :: h in evictions && evictions[h].key == key && !evictions[h].stage.Drawn? ==> evictions[h].at <= evictions[g].at
  }

  /** The marks in the cache are those of the latest evictions. */
  ghost predicate Marks(evicted: map<string, nat>, cleared: nat, evictions: map<nat, Eviction>) {
    && (forall k :: k in evicted ==> Latest(evictions, Some(k), evicted[k]))
    && (cleared != 0 ==> Latest(evictions, None, cleared))
    && (cleared == 0 ==> forall h :: h in evictions && evictions[h].key.None? ==> evictions[h].stage.Drawn?)
  }

  /** Generation `g` marked before time `at`. */
  predicate MarkedBefore(evictions: map<nat, Eviction>, key: Option<string>, g: nat, at: nat) {
    g in evictions && evictions[g].key == key && !evictions[g].stage.Drawn? && evictions[g].at < at
  }

  /** What a ticket saw was marked before it was taken. */
  predicate TicketOk(l: Loader, evictions: map<nat, Eviction>, clock: nat) {
    && l.ticketAt < clock && (l.HasTicket() ==> l.clearedAt < clock) && l.recheckedAt <= clock
    && (l.ticket.evicted.Some? ==> MarkedBefore(evictions, Some(l.key), l.ticket.evicted.value, l.ticketAt))
    && (l.HasTicket() && l.ticket.cleared != 0 ==> MarkedBefore(evictions, None, l.ticket.cleared, l.clearedAt))
  }

  /** A value older than an eviction was read under a ticket that missed it. */
  predicate PairOk(l: Loader, e: Eviction) {
    l.HasRead() && e.Covers(l.key) && l.value < Floor(e.floors, l.key) && !e.stage.Drawn? ==> Missed(l, e)
  }

  ghost predicate LoaderOk(l: Loader, evictions: map<nat, Eviction>, clock: nat) {
    TicketOk(l, evictions, clock) && forall g :: g in evictions ==> PairOk(l, evictions[g])
  }

  ghost predicate LoadersOk(loaders: map<nat, Loader>, evictions: map<nat, Eviction>, clock: nat) {
    forall id :: id in loaders ==> LoaderOk(loaders[id], evictions, clock)
  }

  /** `e` marked between the loader's ticket and the recheck it passed: by then its record was gone. */
  predicate Overlooked(l: Loader, e: Eviction) {
    e.key == Some(l.key) && !e.stage.Drawn? && l.ticketAt < e.at < l.recheckedAt
  }

  /** An entry under a ticket that missed an eviction is still to be dropped, by one or the other, unless its
      loader overlooked that eviction. */
  predicate StillToDrop(l: Loader, e: Eviction) {
    e.stage.Marked? || l.pc.RecheckEvicted? || l.pc.Undo? || (e.key.None? && l.pc.RecheckCleared?) || Overlooked(l, e)
  }

  ghost predicate OwnerOk(l: Loader, k: string, slot: Slot, evictions: map<nat, Eviction>) {
    && l.key == k && l.Inserted() && slot.until == l.insertedAt + l.ttl
    && forall g :: g in evictions && Missed(l, evictions[g]) ==> StillToDrop(l, evictions[g])
  }

  ghost predicate SlotsOk(entries: map<string, Slot>, loaders: map<nat, Loader>, evictions: map<nat, Eviction>) {
    forall k :: k in entries ==>
      entries[k].loader in loaders && OwnerOk(loaders[entries[k].loader], k, entries[k], evictions)
  }

  ghost predicate FloorsOk(evictions: map<nat, Eviction>, floors: map<string, nat>, raises: set<Raise>, now: nat) {
    && (forall g, k :: g in evictions && k in evictions[g].floors ==> evictions[g].floors[k] <= Floor(floors, k))
    && (forall r :: r in raises ==> r.floor <= Floor(floors, r.key) && r.at <= now)
  }

  /** A value below a floor was read no later than the floor was raised. */
  predicate ReadByRaise(l: Loader, r: Raise) {
    l.HasRead() && l.key == r.key && l.value < r.floor ==> l.readAt <= r.at
  }

  ghost predicate ReadOk(l: Loader, raises: set<Raise>, now: nat) {
    l.readAt <= now && forall r :: r in raises ==> ReadByRaise(l, r)
  }

  ghost predicate ReadsOk(loaders: map<nat, Loader>, raises: set<Raise>, now: nat) {
    forall id :: id in loaders ==> ReadOk(loaders[id], raises, now)
  }

  ghost predicate Inv(s: State) {
    && EvictionsOk(s.evictions, s.cache.generation, s.clock)
    && Marks(s.cache.evicted, s.cache.cleared, s.evictions)
    && LoadersOk(s.loaders, s.evictions, s.clock)
    && SlotsOk(s.cache.entries, s.loaders, s.evictions)
    && FloorsOk(s.evictions, s.floors, s.raises, s.now)
    && ReadsOk(s.loaders, s.raises, s.now)
  }

  // ------------------------------------------------------------------ a loader sees what it missed

  /** A loader whose ticket missed an eviction of its key finds the same mark if and only if its ticket has no
      record and the eviction's is gone. */
  lemma SeesEviction(s: State, l: Loader, g: nat)
    requires Marks(s.cache.evicted, s.cache.cleared, s.evictions) && LoaderOk(l, s.evictions, s.clock)
    requires g in s.evictions && s.evictions[g].key.Some? && Missed(l, s.evictions[g])
    ensures s.cache.Evicted(l.key) == l.ticket.evicted <==> l.ticket.evicted.None? && l.key !in s.cache.evicted
  {
    if l.key in s.cache.evicted {
      assert Latest(s.evictions, Some(l.key), s.cache.evicted[l.key]);
    }
  }

  lemma SeesClear(s: State, l: Loader, g: nat)
    requires Marks(s.cache.evicted, s.cache.cleared, s.evictions) && LoaderOk(l, s.evictions, s.clock)
    requires g in s.evictions && s.evictions[g].key.None? && Missed(l, s.evictions[g])
    ensures s.cache.cleared != l.ticket.cleared
  {
  }

  // ------------------------------------------------------------------ preservation

  /** A step that only moves one loader, owning no entry unless it still answers for it. */
  lemma LoaderStep(s: State, id: nat, l: Loader)
    requires Inv(s)
    requires LoaderOk(l, s.evictions, s.clock + 1) && ReadOk(l, s.raises, s.now)
    requires forall k :: k in s.cache.entries && s.cache.entries[k].loader == id ==> OwnerOk(l, k, s.cache.entries[k], s.evictions)
    ensures Inv(With(s, id, l).(clock := s.clock + 1))
  {
    hide OwnerOk, PairOk, ReadOk, Latest;
    var t := With(s, id, l).(clock := s.clock + 1);
    forall i | i in t.loaders ensures LoaderOk(t.loaders[i], t.evictions, t.clock) {
      if i != id {
        assert LoaderOk(s.loaders[i], s.evictions, s.clock);
      }
    }
  }

  lemma EntriesStep(s: State, entries: map<string, Slot>)
    requires Inv(s)
    requires forall k :: k in entries ==> k in s.cache.entries && entries[k] == s.cache.entries[k]
    ensures Inv(s.(cache := s.cache.(entries := entries)))
  {
    hide OwnerOk, LoadersOk, Marks, FloorsOk, ReadsOk, EvictionsOk;
  }

  /** Entries only go: the clock may move on. */
  lemma ClockStep(s: State)
    requires Inv(s)
    ensures Inv(s.(clock := s.clock + 1))
  {
    hide SlotsOk, Marks, FloorsOk, ReadsOk, PairOk;
    forall i | i in s.loaders ensures LoaderOk(s.loaders[i], s.evictions, s.clock + 1) {
      assert LoaderOk(s.loaders[i], s.evictions, s.clock);
    }
  }

  lemma NotOwner(s: State, id: nat)
    requires SlotsOk(s.cache.entries, s.loaders, s.evictions) && (id in s.loaders ==> !s.loaders[id].Inserted())
    ensures forall k :: k in s.cache.entries ==> s.cache.entries[k].loader != id
  {
  }

  lemma BeginKeeps(s: State, id: nat, key: string)
    requires Inv(s) && id !in s.loaders
    ensures Inv(Next(s, Begin(id, key)))
  {
    hide SlotsOk, OwnerOk, LoadersOk, ReadsOk, FloorsOk;
    var l := Begun(s, key);
    NotOwner(s, id);
    if key in s.cache.evicted {
      assert Latest(s.evictions, Some(key), s.cache.evicted[key]);
    }
    LoaderStep(s, id, l);
  }

  /** Steps before the insertion, and those that change nothing but the loader's place. */
  lemma TakeClearedKeeps(s: State, id: nat)
    requires Inv(s) && id in s.loaders && s.loaders[id].pc.TakeCleared?
    ensures Inv(Moved(s, id, 0, 0).(clock := s.clock + 1))
  {
    hide SlotsOk, OwnerOk, FloorsOk;
    var l := s.loaders[id];
    NotOwner(s, id);
    assert LoaderOk(l, s.evictions, s.clock) && ReadOk(l, s.raises, s.now);
    var m := l.(ticket := l.ticket.(cleared := s.cache.cleared), clearedAt := s.clock, pc := ReadSource);
    forall g | g in s.evictions ensures PairOk(m, s.evictions[g]) {
      assert PairOk(l, s.evictions[g]);
    }
    LoaderStep(s, id, m);
  }

  lemma ReadKeeps(s: State, id: nat, value: nat)
    requires Inv(s) && id in s.loaders && s.loaders[id].pc.ReadSource?
    requires Floor(s.floors, s.loaders[id].key) <= value
    ensures Inv(Moved(s, id, value, 0).(clock := s.clock + 1))
  {
    hide SlotsOk, OwnerOk, Marks;
    var l := s.loaders[id];
    NotOwner(s, id);
    assert LoaderOk(l, s.evictions, s.clock) && ReadOk(l, s.raises, s.now);
    var m := l.(value := value, readAt := s.now, pc := CheckEvicted);
    forall g | g in s.evictions ensures PairOk(m, s.evictions[g]) {
      assert PairOk(l, s.evictions[g]);
      assert Floor(s.evictions[g].floors, m.key) <= value;
    }
    LoaderStep(s, id, m);
  }

  /** A loader that has read keeps what it read and its ticket. */
  lemma MovedOk(s: State, l: Loader, m: Loader)
    requires LoaderOk(l, s.evictions, s.clock) && ReadOk(l, s.raises, s.now)
    requires l.HasRead() && m.HasRead() && (m.recheckedAt == l.recheckedAt || m.recheckedAt <= s.clock)
    requires m == l.(pc := m.pc, recheckedAt := m.recheckedAt, insertedAt := m.insertedAt, ttl := m.ttl)
    ensures LoaderOk(m, s.evictions, s.clock + 1) && ReadOk(m, s.raises, s.now)
  {
    forall g | g in s.evictions ensures PairOk(m, s.evictions[g]) {
      assert PairOk(l, s.evictions[g]);
    }
    forall r | r in s.raises ensures ReadByRaise(m, r) {
      assert ReadByRaise(l, r);
    }
  }

  /** A move to a place from which an entry is no less answered for. */
  lemma PlaceStep(s: State, id: nat, m: Loader)
    requires Inv(s) && id in s.loaders && s.loaders[id].HasRead() && m.HasRead()
    requires m.recheckedAt == s.loaders[id].recheckedAt || m.recheckedAt <= s.clock
    requires m == s.loaders[id].(pc := m.pc, recheckedAt := m.recheckedAt)
    requires forall k :: k in s.cache.entries && s.cache.entries[k].loader == id ==>
               OwnerOk(m, k, s.cache.entries[k], s.evictions)
    ensures Inv(With(s, id, m).(clock := s.clock + 1))
  {
    hide SlotsOk, OwnerOk, Marks, FloorsOk, LoaderOk, ReadOk;
    assert LoaderOk(s.loaders[id], s.evictions, s.clock) && ReadOk(s.loaders[id], s.raises, s.now);
    MovedOk(s, s.loaders[id], m);
    LoaderStep(s, id, m);
  }

  lemma CheckKeeps(s: State, id: nat)
    requires Inv(s) && id in s.loaders && (s.loaders[id].pc.CheckEvicted? || s.loaders[id].pc.CheckCleared?)
    ensures Inv(Moved(s, id, 0, 0).(clock := s.clock + 1))
  {
    hide OwnerOk, LoadersOk, Marks, FloorsOk, ReadsOk, EvictionsOk;
    NotOwner(s, id);
    PlaceStep(s, id, Moved(s, id, 0, 0).loaders[id]);
  }

  lemma PutStep(s: State, id: nat)
    requires Inv(s) && id in s.loaders && s.loaders[id].pc.RecheckEvicted?
    ensures var l := s.loaders[id];
            Inv(s.(cache := s.cache.Put(l.key, Slot(id, l.insertedAt + l.ttl))))
  {
    hide LoadersOk, Marks, FloorsOk, ReadsOk, EvictionsOk;
  }

  lemma InsertKeeps(s: State, id: nat, ttl: nat)
    requires Inv(s) && id in s.loaders && s.loaders[id].pc.Insert?
    ensures Inv(Moved(s, id, 0, ttl).(clock := s.clock + 1))
  {
    hide OwnerOk, Marks, FloorsOk, EvictionsOk, LoaderOk, ReadOk;
    var l := s.loaders[id];
    var m := l.(insertedAt := s.now, ttl := ttl, pc := RecheckEvicted);
    var s1 := s.(cache := s.cache.Drop(l.key));
    EntriesStep(s, s1.cache.entries);
    NotOwner(s1, id);
    assert LoaderOk(l, s1.evictions, s1.clock) && ReadOk(l, s1.raises, s1.now);
    MovedOk(s1, l, m);
    LoaderStep(s1, id, m);
    if ttl != 0 {
      var s2 := With(s1, id, m).(clock := s.clock + 1);
      PutStep(s2, id);
      assert s.cache.entries[l.key := Slot(id, s.now + ttl)] == s2.cache.entries[l.key := Slot(id, s.now + ttl)];
    }
  }

  lemma RecheckEvictedKeeps(s: State, id: nat)
    requires Inv(s) && id in s.loaders && s.loaders[id].pc.RecheckEvicted?
    ensures Inv(Moved(s, id, 0, 0).(clock := s.clock + 1))
  {
    hide FloorsOk, ReadsOk, EvictionsOk, LoaderOk, Marks;
    var l := s.loaders[id];
    var m := Moved(s, id, 0, 0).loaders[id];
    assert LoaderOk(l, s.evictions, s.clock);
    forall k | k in s.cache.entries && s.cache.entries[k].loader == id ensures OwnerOk(m, k, s.cache.entries[k], s.evictions) {
      assert OwnerOk(l, k, s.cache.entries[k], s.evictions);
      forall g | g in s.evictions && Missed(m, s.evictions[g]) ensures StillToDrop(m, s.evictions[g]) {
        Positive(s, g);
      }
    }
    PlaceStep(s, id, m);
  }

  lemma RecheckClearedKeeps(s: State, id: nat)
    requires Inv(s) && id in s.loaders && s.loaders[id].pc.RecheckCleared?
    ensures Inv(Moved(s, id, 0, 0).(clock := s.clock + 1))
  {
    hide FloorsOk, ReadsOk, EvictionsOk, LoaderOk, Marks;
    var l := s.loaders[id];
    var m := Moved(s, id, 0, 0).loaders[id];
    assert LoaderOk(l, s.evictions, s.clock);
    forall k | k in s.cache.entries && s.cache.entries[k].loader == id ensures OwnerOk(m, k, s.cache.entries[k], s.evictions) {
      assert OwnerOk(l, k, s.cache.entries[k], s.evictions);
      forall g | g in s.evictions && Missed(m, s.evictions[g]) ensures StillToDrop(m, s.evictions[g]) {
        assert StillToDrop(l, s.evictions[g]);
        if s.evictions[g].key.None? {
          SeesClear(s, l, g);
        }
      }
    }
    PlaceStep(s, id, m);
  }

  lemma UndoKeeps(s: State, id: nat)
    requires Inv(s) && id in s.loaders && s.loaders[id].pc.Undo?
    ensures Inv(Moved(s, id, 0, 0).(clock := s.clock + 1))
  {
    hide FloorsOk, ReadsOk, EvictionsOk, LoadersOk, Marks;
    var l := s.loaders[id];
    var s1 := s.(cache := s.cache.Drop(l.key));
    EntriesStep(s, s1.cache.entries);
    PlaceStep(s1, id, l.(pc := Finished));
  }

  lemma AdvanceKeeps(s: State, id: nat, value: nat, ttl: nat)
    requires Inv(s) && Enabled(s, Advance(id, value, ttl))
    ensures Inv(Next(s, Advance(id, value, ttl)))
  {
    hide Inv;
    match s.loaders[id].pc
    case TakeCleared => TakeClearedKeeps(s, id);
    case ReadSource => ReadKeeps(s, id, value);
    case CheckEvicted => CheckKeeps(s, id);
    case CheckCleared => CheckKeeps(s, id);
    case Insert => InsertKeeps(s, id, ttl);
    case RecheckEvicted => RecheckEvictedKeeps(s, id);
    case RecheckCleared => RecheckClearedKeeps(s, id);
    case Undo => UndoKeeps(s, id);
  }

  lemma GiveUpKeeps(s: State, id: nat)
    requires Inv(s) && Enabled(s, GiveUp(id))
    ensures Inv(Next(s, GiveUp(id)))
  {
    hide OwnerOk, LoaderOk, ReadOk, Marks, FloorsOk, EvictionsOk;
    NotOwner(s, id);
    var s1 := s.(loaders := s.loaders - {id});
    assert Inv(s1);
    ClockStep(s1);
  }

  // A changed eviction, seen from the loaders.

  /** Replacing or adding an eviction that asks no higher floor and no generation not drawn. */
  lemma EvictionStep(s: State, g: nat, e: Eviction, generation: nat)
    requires EvictionsOk(s.evictions, s.cache.generation, s.clock) && FloorsOk(s.evictions, s.floors, s.raises, s.now)
    requires s.cache.generation <= generation && 0 < g <= generation && (!e.stage.Drawn? ==> e.at <= s.clock)
    requires e.floors == (if g in s.evictions then s.evictions[g].floors else s.floors)
    ensures EvictionsOk(s.evictions[g := e], generation, s.clock + 1)
    ensures FloorsOk(s.evictions[g := e], s.floors, s.raises, s.now)
  {
  }

  lemma DrawnLatest(s: State, g: nat, e: Eviction)
    requires Marks(s.cache.evicted, s.cache.cleared, s.evictions) && g !in s.evictions && e.stage.Drawn?
    ensures Marks(s.cache.evicted, s.cache.cleared, s.evictions[g := e])
  {
    var t := s.evictions[g := e];
    forall k | k in s.cache.evicted ensures Latest(t, Some(k), s.cache.evicted[k]) {
      LatestStays(s.evictions, Some(k), s.cache.evicted[k], g, e);
    }
    if s.cache.cleared != 0 {
      LatestStays(s.evictions, None, s.cache.cleared, g, e);
    }
  }

  /** An eviction that is still drawn, of another kind, or already counted does not outdo the latest. */
  lemma LatestStays(evictions: map<nat, Eviction>, key: Option<string>, g: nat, h: nat, e: Eviction)
    requires Latest(evictions, key, g)
    requires e.stage.Drawn? || e.key != key || (h in evictions && !evictions[h].stage.Drawn? && e == evictions[h].(stage := e.stage))
    requires h == g ==> !e.stage.Drawn? && e.key == key
    ensures Latest(evictions[h := e], key, g)
  {
  }

  lemma DrawKeeps(s: State, scope: Option<string>)
    requires Inv(s)
    ensures Inv(Next(s, Draw(scope)))
  {
    hide EvictionsOk, Marks, LoadersOk, SlotsOk, FloorsOk, ReadsOk;
    var g := s.cache.generation + 1;
    var e := Eviction(scope, Drawn, 0, 0, s.floors);
    Undrawn(s);
    EvictionStep(s, g, e, g);
    DrawnLatest(s, g, e);
    LoadersSeeDrawn(s, g, e);
  }

  lemma Undrawn(s: State)
    requires EvictionsOk(s.evictions, s.cache.generation, s.clock)
    ensures s.cache.generation + 1 !in s.evictions
  {
  }

  lemma LoadersSeeDrawn(s: State, g: nat, e: Eviction)
    requires LoadersOk(s.loaders, s.evictions, s.clock)
    requires SlotsOk(s.cache.entries, s.loaders, s.evictions)
    requires g !in s.evictions && e.stage.Drawn?
    ensures LoadersOk(s.loaders, s.evictions[g := e], s.clock + 1)
    ensures SlotsOk(s.cache.entries, s.loaders, s.evictions[g := e])
  {
    var t := s.evictions[g := e];
    forall id | id in s.loaders ensures LoaderOk(s.loaders[id], t, s.clock + 1) {
      assert LoaderOk(s.loaders[id], s.evictions, s.clock);
      assert TicketOk(s.loaders[id], s.evictions, s.clock);
      forall h | h in t ensures PairOk(s.loaders[id], t[h]) {
        if h != g {
          assert PairOk(s.loaders[id], s.evictions[h]);
        }
      }
    }
    forall k | k in s.cache.entries ensures OwnerOk(s.loaders[s.cache.entries[k].loader], k, s.cache.entries[k], t) {
      assert OwnerOk(s.loaders[s.cache.entries[k].loader], k, s.cache.entries[k], s.evictions);
    }
  }

  lemma MarkKeeps(s: State, gen: nat)
    requires Inv(s) && Enabled(s, Mark(gen))
    ensures Inv(Next(s, Mark(gen)))
  {
    hide EvictionsOk, Marks, LoadersOk, SlotsOk, FloorsOk, ReadsOk;
    var e := s.evictions[gen].(stage := Marked, at := s.clock, markedAt := s.now);
    Positive(s, gen);
    EvictionStep(s, gen, e, s.cache.generation);
    MarkedLatest(s, gen, e);
    LoadersSeeMarked(s, gen, e);
    SlotsSeeMarked(s, gen, e);
  }

  lemma Positive(s: State, gen: nat)
    requires EvictionsOk(s.evictions, s.cache.generation, s.clock) && gen in s.evictions
    ensures 0 < gen <= s.cache.generation && (!s.evictions[gen].stage.Drawn? ==> s.evictions[gen].at < s.clock)
  {
  }

  lemma NewLatest(s: State, gen: nat, e: Eviction)
    requires EvictionsOk(s.evictions, s.cache.generation, s.clock) && !e.stage.Drawn? && e.at == s.clock
    ensures Latest(s.evictions[gen := e], e.key, gen)
  {
  }

  lemma MarkedLatest(s: State, gen: nat, e: Eviction)
    requires EvictionsOk(s.evictions, s.cache.generation, s.clock) && Marks(s.cache.evicted, s.cache.cleared, s.evictions)
    requires gen in s.evictions && s.evictions[gen].stage.Drawn?
    requires e == s.evictions[gen].(stage := Marked, at := s.clock, markedAt := s.now)
    ensures var c := s.cache.Marked(e.key, gen);
            Marks(c.evicted, c.cleared, s.evictions[gen := e])
  {
    NewLatest(s, gen, e);
    Positive(s, gen);
    hide EvictionsOk;
    var c, t := s.cache.Marked(e.key, gen), s.evictions[gen := e];
    forall k | k in c.evicted ensures Latest(t, Some(k), c.evicted[k]) {
      if Some(k) != e.key {
        assert Latest(s.evictions, Some(k), s.cache.evicted[k]);
        LatestStays(s.evictions, Some(k), s.cache.evicted[k], gen, e);
      }
    }
    if e.key.Some? && c.cleared != 0 {
      LatestStays(s.evictions, None, s.cache.cleared, gen, e);
    }
  }

  lemma LoadersSeeMarked(s: State, gen: nat, e: Eviction)
    requires LoadersOk(s.loaders, s.evictions, s.clock)
    requires gen in s.evictions && s.evictions[gen].stage.Drawn?
    requires e == s.evictions[gen].(stage := Marked, at := s.clock, markedAt := s.now)
    ensures LoadersOk(s.loaders, s.evictions[gen := e], s.clock + 1)
  {
    var t := s.evictions[gen := e];
    forall id | id in s.loaders ensures LoaderOk(s.loaders[id], t, s.clock + 1) {
      var l := s.loaders[id];
      assert LoaderOk(l, s.evictions, s.clock);
      assert TicketOk(l, s.evictions, s.clock);
      forall h | h in t ensures PairOk(l, t[h]) {
        assert PairOk(l, s.evictions[h]);
      }
    }
  }

  lemma SlotsSeeMarked(s: State, gen: nat, e: Eviction)
    requires SlotsOk(s.cache.entries, s.loaders, s.evictions)
    requires gen in s.evictions && s.evictions[gen].stage.Drawn?
    requires e == s.evictions[gen].(stage := Marked, at := s.clock, markedAt := s.now)
    ensures SlotsOk(s.cache.entries, s.loaders, s.evictions[gen := e])
  {
    forall k | k in s.cache.entries
      ensures OwnerOk(s.loaders[s.cache.entries[k].loader], k, s.cache.entries[k], s.evictions[gen := e])
    {
      assert OwnerOk(s.loaders[s.cache.entries[k].loader], k, s.cache.entries[k], s.evictions);
    }
  }

  lemma EmptyKeeps(s: State, gen: nat)
    requires Inv(s) && Enabled(s, Empty(gen))
    ensures Inv(Next(s, Empty(gen)))
  {
    hide EvictionsOk, Marks, LoadersOk, SlotsOk, FloorsOk, ReadsOk;
    var e := s.evictions[gen].(stage := Done);
    var c := s.cache.Emptied(e.key);
    Positive(s, gen);
    EntriesStep(s, c.entries);
    EvictionStep(s, gen, e, s.cache.generation);
    DoneLatest(s, gen, e);
    LoadersSeeDone(s.(cache := c), gen);
  }

  lemma DoneLatest(s: State, gen: nat, e: Eviction)
    requires Marks(s.cache.evicted, s.cache.cleared, s.evictions)
    requires gen in s.evictions && s.evictions[gen].stage.Marked? && e == s.evictions[gen].(stage := Done)
    ensures Marks(s.cache.evicted, s.cache.cleared, s.evictions[gen := e])
  {
    forall k | k in s.cache.evicted ensures Latest(s.evictions[gen := e], Some(k), s.cache.evicted[k]) {
      LatestStays(s.evictions, Some(k), s.cache.evicted[k], gen, e);
    }
    if s.cache.cleared != 0 {
      LatestStays(s.evictions, None, s.cache.cleared, gen, e);
    }
  }

  lemma LoadersSeeDone(s: State, gen: nat)
    requires LoadersOk(s.loaders, s.evictions, s.clock)
    requires SlotsOk(s.cache.entries, s.loaders, s.evictions)
    requires gen in s.evictions && s.evictions[gen].stage.Marked?
    requires forall k :: k in s.cache.entries ==> !s.evictions[gen].Covers(k)
    ensures var t := s.evictions[gen := s.evictions[gen].(stage := Done)];
            LoadersOk(s.loaders, t, s.clock + 1) && SlotsOk(s.cache.entries, s.loaders, t)
  {
    var t := s.evictions[gen := s.evictions[gen].(stage := Done)];
    forall id | id in s.loaders ensures LoaderOk(s.loaders[id], t, s.clock + 1) {
      var l := s.loaders[id];
      assert LoaderOk(l, s.evictions, s.clock);
      assert TicketOk(l, s.evictions, s.clock);
      forall h | h in t ensures PairOk(l, t[h]) {
        assert PairOk(l, s.evictions[h]);
      }
    }
    forall k | k in s.cache.entries ensures OwnerOk(s.loaders[s.cache.entries[k].loader], k, s.cache.entries[k], t) {
      assert OwnerOk(s.loaders[s.cache.entries[k].loader], k, s.cache.entries[k], s.evictions);
    }
  }

  // The rest.

  lemma VanishKeeps(s: State, key: string)
    requires Inv(s)
    ensures Inv(Next(s, Vanish(key)))
  {
    hide LoadersOk, SlotsOk, Marks, FloorsOk, ReadsOk, EvictionsOk;
    var c := s.cache.Drop(key);
    EntriesStep(s, c.entries);
    ClockStep(s.(cache := c));
  }

  lemma ForgetKeeps(s: State, key: string)
    requires Inv(s)
    ensures Inv(Next(s, Forget(key)))
  {
    hide EvictionsOk, Marks, LoadersOk, SlotsOk, FloorsOk, ReadsOk;
    var c := s.cache.Forgotten(key);
    MarksForget(s, key);
    ClockStep(s.(cache := c));
  }

  lemma MarksForget(s: State, key: string)
    requires Marks(s.cache.evicted, s.cache.cleared, s.evictions)
    ensures Marks(s.cache.Forgotten(key).evicted, s.cache.cleared, s.evictions)
  {
    hide Latest;
  }

  lemma LiftKeeps(s: State, key: string, floor: nat)
    requires Inv(s)
    ensures Inv(Next(s, Lift(key, floor)))
  {
    hide SlotsOk, LoadersOk, Marks, EvictionsOk;
    var t := Changed(s, Lift(key, floor));
    assert forall k :: Floor(s.floors, k) <= Floor(t.floors, k);
    assert FloorsOk(t.evictions, t.floors, t.raises, t.now);
    forall id | id in s.loaders ensures ReadOk(s.loaders[id], t.raises, s.now) {
      assert ReadOk(s.loaders[id], s.raises, s.now);
    }
    ClockStep(t);
  }

  lemma WaitKeeps(s: State, d: nat)
    requires Inv(s)
    ensures Inv(Next(s, Wait(d)))
  {
    hide SlotsOk, LoadersOk, Marks, EvictionsOk;
    forall id | id in s.loaders ensures ReadOk(s.loaders[id], s.raises, s.now + d) {
      assert ReadOk(s.loaders[id], s.raises, s.now);
    }
    ClockStep(s.(now := s.now + d));
  }

  lemma StepKeeps(s: State, a: Action)
    requires Inv(s) && Enabled(s, a)
    ensures Inv(Next(s, a))
  {
    hide Inv, Next;
    match a
    case Begin(id, key) => BeginKeeps(s, id, key);
    case Advance(id, value, ttl) => AdvanceKeeps(s, id, value, ttl);
    case GiveUp(id) => GiveUpKeeps(s, id);
    case Draw(scope) => DrawKeeps(s, scope);
    case Mark(gen) => MarkKeeps(s, gen);
    case Empty(gen) => EmptyKeeps(s, gen);
    case Vanish(key) => VanishKeeps(s, key);
    case Forget(key) => ForgetKeeps(s, key);
    case Lift(key, floor) => LiftKeeps(s, key, floor);
    case Wait(d) => WaitKeeps(s, d);
  }

  // ------------------------------------------------------------------ runs

  datatype Run = Start | Then(before: Run, action: Action)

  predicate Legal(r: Run)
    decreases r, 0
  {
    r.Then? ==> Legal(r.before) && Enabled(End(r.before), r.action)
  }

  function End(r: Run): State
    requires Legal(r)
    decreases r, 1
  {
    match r
    case Start => INIT
    case Then(before, a) => Next(End(before), a)
  }

  lemma {:induction false} RunKeeps(r: Run)
    requires Legal(r)
    ensures Inv(End(r))
  {
    hide Next, Inv, Enabled;
    match r
    case Start =>
      InitOk();
    case Then(before, a) =>
      RunKeeps(before);
      StepKeeps(End(before), a);
  }

  lemma InitOk()
    ensures Inv(INIT)
  {
  }

  /** The loader that put an entry there. */
  function Owner(s: State, k: string): Loader
    requires k in s.cache.entries && s.cache.entries[k].loader in s.loaders
  {
    s.loaders[s.cache.entries[k].loader]
  }

  /** The entry for `k` is older than finished eviction `g` of it. */
  predicate Outdated(s: State, k: string, g: nat)
    requires k in s.cache.entries && s.cache.entries[k].loader in s.loaders
  {
    && g in s.evictions && s.evictions[g].stage.Done? && s.evictions[g].Covers(k)
    && Owner(s, k).value < Floor(s.evictions[g].floors, k)
  }

  lemma OutdatedIsCaught(s: State, k: string, g: nat)
    requires Inv(s) && k in s.cache.entries
    ensures s.cache.entries[k].loader in s.loaders
    ensures Outdated(s, k, g) ==>
              var l := Owner(s, k);
              || l.pc.RecheckEvicted? || l.pc.Undo? || (l.pc.RecheckCleared? && s.evictions[g].key.None?)
              || Overlooked(l, s.evictions[g])
  {
    hide EvictionsOk, Marks, FloorsOk, ReadsOk;
    assert OwnerOk(Owner(s, k), k, s.cache.entries[k], s.evictions);
    if Outdated(s, k, g) {
      assert LoaderOk(Owner(s, k), s.evictions, s.clock);
      assert PairOk(Owner(s, k), s.evictions[g]);
    }
  }

  lemma OldExpires(s: State, k: string, raise: Raise)
    requires Inv(s) && k in s.cache.entries && raise in s.raises && raise.key == k
    ensures s.cache.entries[k].loader in s.loaders
    ensures var l := Owner(s, k);
            l.value < raise.floor ==> s.cache.entries[k].until <= raise.at + (l.insertedAt - l.readAt) + l.ttl
  {
    hide EvictionsOk, Marks, FloorsOk, LoadersOk;
    assert OwnerOk(Owner(s, k), k, s.cache.entries[k], s.evictions);
    assert ReadOk(Owner(s, k), s.raises, s.now);
    assert ReadByRaise(Owner(s, k), raise);
  }

  /** In every interleaving: once an eviction or clear has finished, an entry read before the write behind
      it is there only while the loader that put it there has still to recheck or undo, or if that loader
      passed its recheck when the record of the eviction was gone. */
  lemma OutdatedOnlyWhileRechecking(r: Run, k: string, g: nat)
    requires Legal(r) && k in End(r).cache.entries
    ensures var s := End(r);
            && s.cache.entries[k].loader in s.loaders
            && (Outdated(s, k, g) ==>
                  var l := Owner(s, k);
                  || l.pc.RecheckEvicted? || l.pc.Undo? || (l.pc.RecheckCleared? && s.evictions[g].key.None?)
                  || Overlooked(l, s.evictions[g]))
            && (Careful(r) && g in s.evictions ==> !Overlooked(Owner(s, k), s.evictions[g]))
  {
    hide Next, Inv, Careful;
    RunKeeps(r);
    OutdatedIsCaught(End(r), k, g);
    if Careful(r) {
      CarefulSees(r);
    }
  }

  /** On its own time: an entry below a floor expires within its time to live of when the floor was raised,
      give or take how long its loader took from reading to inserting. No eviction is needed for that. */
  lemma OldEntriesExpire(r: Run, k: string, raise: Raise)
    requires Legal(r) && k in End(r).cache.entries
    requires raise in End(r).raises && raise.key == k
    ensures var s := End(r);
            && s.cache.entries[k].loader in s.loaders
            && var l := Owner(s, k);
            (l.value < raise.floor ==> s.cache.entries[k].until <= raise.at + (l.insertedAt - l.readAt) + l.ttl)
  {
    hide Next, Inv;
    RunKeeps(r);
    OldExpires(End(r), k, raise);
  }

  /** Only `Lift` moves the floors and only `Wait` the time. */
  lemma FloorsAndTimeStay(s: State, a: Action)
    requires Enabled(s, a) && !a.Lift? && !a.Wait?
    ensures Next(s, a).floors == s.floors && Next(s, a).raises == s.raises && Next(s, a).now == s.now
  {
  }

  /** Evictions are never undone, and keep what they were drawn for and when they marked. */
  lemma EvictionsStay(s: State, a: Action, g: nat)
    requires Enabled(s, a) && EvictionsOk(s.evictions, s.cache.generation, s.clock) && g in s.evictions
    ensures g in Next(s, a).evictions && Next(s, a).evictions[g].key == s.evictions[g].key
    ensures Next(s, a).evictions[g].floors == s.evictions[g].floors
    ensures s.evictions[g].stage.Done? ==> Next(s, a).evictions[g].stage.Done?
    ensures !s.evictions[g].stage.Drawn? ==>
              && !Next(s, a).evictions[g].stage.Drawn?
              && Next(s, a).evictions[g].at == s.evictions[g].at && Next(s, a).evictions[g].markedAt == s.evictions[g].markedAt
    ensures s.evictions[g].stage.Drawn? && !Next(s, a).evictions[g].stage.Drawn? ==>
              Next(s, a).evictions[g].at == s.clock && Next(s, a).evictions[g].markedAt == s.now && a == Mark(g)
  {
  }

  lemma NewEviction(s: State, a: Action, g: nat)
    requires Enabled(s, a) && g in Next(s, a).evictions && g !in s.evictions
    ensures Next(s, a).evictions[g].stage.Drawn?
  {
  }

  /** A loader keeps its key and ticket; and only passing its recheck of the record dates that. */
  lemma LoadersStay(s: State, a: Action, id: nat)
    requires Enabled(s, a) && id in Next(s, a).loaders
    ensures id !in s.loaders ==>
              var m := Next(s, a).loaders[id]; a == Begin(id, m.key) && m == Begun(s, m.key)
    ensures id in s.loaders ==>
              var l, m := s.loaders[id], Next(s, a).loaders[id];
              && m.key == l.key && m.ticketAt == l.ticketAt && m.begunAt == l.begunAt
              && m.ticket.evicted == l.ticket.evicted && (m.Watching() ==> l.Watching())
              && (m.recheckedAt == l.recheckedAt
                  || (m.recheckedAt == s.clock && a.Advance? && a.id == id && l.pc.RecheckEvicted?
                      && s.cache.Evicted(l.key) == l.ticket.evicted))
  {
  }

  /** A loader that has read reads no more, and keeps its ticket; and only an advance at its read reads. */
  lemma ReadsOnce(s: State, a: Action, id: nat)
    requires Enabled(s, a) && id in Next(s, a).loaders && Next(s, a).loaders[id].HasRead()
    ensures id in s.loaders
    ensures var l, m := s.loaders[id], Next(s, a).loaders[id];
            && m.key == l.key && m.ticketAt == l.ticketAt
            && (l.HasRead() ==> m.value == l.value && m.readAt == l.readAt)
            && (!l.HasRead() ==> l.pc.ReadSource? && a.Advance? && a.id == id && m.value == a.value)
  {
  }

  // ------------------------------------------------------------------ when nothing is overlooked

  ghost predicate AllSeen(s: State) {
    forall id, g :: id in s.loaders && g in s.evictions ==> !Overlooked(s.loaders[id], s.evictions[g])
  }

  /** Loader `id` is about to pass its recheck though it missed eviction `g`. */
  predicate Blind(s: State, a: Action, id: nat, g: nat) {
    && a.Advance? && a.id == id && id in s.loaders && s.loaders[id].pc.RecheckEvicted?
    && g in s.evictions && s.evictions[g].key == Some(s.loaders[id].key) && Missed(s.loaders[id], s.evictions[g])
    && s.loaders[id].ticket.evicted.None? && s.loaders[id].key !in s.cache.evicted
  }

  /** An eviction is overlooked only by such a step. */
  lemma OverlooksBlind(s: State, a: Action, id: nat, g: nat)
    requires Inv(s) && Enabled(s, a) && id in Next(s, a).loaders && g in Next(s, a).evictions
    requires Overlooked(Next(s, a).loaders[id], Next(s, a).evictions[g])
    ensures id in s.loaders && g in s.evictions
    ensures Overlooked(s.loaders[id], s.evictions[g]) || Blind(s, a, id, g)
  {
    hide Next, Marks, SlotsOk, FloorsOk, ReadsOk;
    LoadersStay(s, a, id);
    if g !in s.evictions {
      NewEviction(s, a, g);
    }
    EvictionsStay(s, a, g);
    assert LoaderOk(s.loaders[id], s.evictions, s.clock);
    if !Overlooked(s.loaders[id], s.evictions[g]) && !s.evictions[g].stage.Drawn? {
      BlindHere(s, a, id, g);
    }
  }

  lemma BlindHere(s: State, a: Action, id: nat, g: nat)
    requires Inv(s) && a.Advance? && a.id == id && id in s.loaders && s.loaders[id].pc.RecheckEvicted?
    requires s.cache.Evicted(s.loaders[id].key) == s.loaders[id].ticket.evicted
    requires g in s.evictions && s.evictions[g].key == Some(s.loaders[id].key) && Missed(s.loaders[id], s.evictions[g])
    ensures Blind(s, a, id, g)
  {
    hide Marks, LoaderOk, SlotsOk, FloorsOk, ReadsOk;
    assert LoaderOk(s.loaders[id], s.evictions, s.clock);
    SeesEviction(s, s.loaders[id], g);
  }

  lemma SeenStep(s: State, a: Action)
    requires Inv(s) && Enabled(s, a) && AllSeen(s) && forall id, g :: !Blind(s, a, id, g)
    ensures AllSeen(Next(s, a))
  {
    hide Next, Inv, Blind, Overlooked;
    var t := Next(s, a);
    forall id, g | id in t.loaders && g in t.evictions ensures !Overlooked(t.loaders[id], t.evictions[g]) {
      if Overlooked(t.loaders[id], t.evictions[g]) {
        OverlooksBlind(s, a, id, g);
      }
    }
  }

  // By what is forgotten: no record goes while a ticket older than it, with none in it, is still watching.

  predicate Remembers(s: State, a: Action) {
    a.Forget? && a.key in s.cache.evicted && s.cache.evicted[a.key] in s.evictions ==>
      forall id :: id in s.loaders && s.loaders[id].key == a.key && s.loaders[id].Watching() && s.loaders[id].ticket.evicted.None? ==>
        s.evictions[s.cache.evicted[a.key]].at <= s.loaders[id].ticketAt
  }

  ghost predicate Remembering(r: Run)
    requires Legal(r)
  {
    r.Then? ==> Remembering(r.before) && Remembers(End(r.before), r.action)
  }

  predicate Sighted(l: Loader, e: Eviction, recorded: bool) {
    e.key == Some(l.key) && l.Watching() && l.ticket.evicted.None? && !recorded ==> !Missed(l, e)
  }

  ghost predicate AllSighted(s: State) {
    forall id, g :: id in s.loaders && g in s.evictions ==>
      Sighted(s.loaders[id], s.evictions[g], s.loaders[id].key in s.cache.evicted)
  }

  lemma SightedStep(s: State, a: Action)
    requires Inv(s) && AllSighted(s) && Enabled(s, a) && Remembers(s, a)
    ensures AllSighted(Next(s, a))
  {
    hide Next, Inv, Sighted, Remembers;
    var t := Next(s, a);
    forall id, g | id in t.loaders && g in t.evictions
      ensures Sighted(t.loaders[id], t.evictions[g], t.loaders[id].key in t.cache.evicted)
    {
      SightedPair(s, a, id, g);
    }
  }

  /** A record goes only by being forgotten; and a mark puts one there. */
  lemma RecordsStay(s: State, a: Action, k: string)
    requires Enabled(s, a)
    ensures k in s.cache.evicted && k !in Next(s, a).cache.evicted ==> a == Forget(k)
    ensures a.Mark? && s.evictions[a.gen].key == Some(k) ==> k in Next(s, a).cache.evicted
  {
  }

  lemma SightedPair(s: State, a: Action, id: nat, g: nat)
    requires Inv(s) && AllSighted(s) && Enabled(s, a) && Remembers(s, a)
    requires id in Next(s, a).loaders && g in Next(s, a).evictions
    ensures Sighted(Next(s, a).loaders[id], Next(s, a).evictions[g], Next(s, a).loaders[id].key in Next(s, a).cache.evicted)
  {
    hide Next, SlotsOk, FloorsOk, ReadsOk, LoadersOk;
    LoadersStay(s, a, id);
    var k := Next(s, a).loaders[id].key;
    RecordsStay(s, a, k);
    if g !in s.evictions {
      NewEviction(s, a, g);
    } else {
      EvictionsStay(s, a, g);
      if id in s.loaders {
        assert Sighted(s.loaders[id], s.evictions[g], k in s.cache.evicted);
        if k in s.cache.evicted {
          assert Latest(s.evictions, Some(k), s.cache.evicted[k]);
        }
      }
    }
  }

  lemma SightedIsNotBlind(s: State, a: Action, id: nat, g: nat)
    requires AllSighted(s)
    ensures !Blind(s, a, id, g)
  {
  }

  lemma {:induction false} RememberingSees(r: Run)
    requires Legal(r) && Remembering(r)
    ensures AllSighted(End(r)) && AllSeen(End(r))
  {
    hide Next, Inv, Enabled, Remembers, Overlooked, Sighted, Blind;
    if r.Then? {
      RememberingSees(r.before);
      RunKeeps(r.before);
      SightedStep(End(r.before), r.action);
      forall id, g ensures !Blind(End(r.before), r.action, id, g) {
        SightedIsNotBlind(End(r.before), r.action, id, g);
      }
      SeenStep(End(r.before), r.action);
    }
  }

  // By time: records are kept for EVICTION_MEMORY, and loads recheck sooner than that after their ticket.

  predicate Expired(s: State, a: Action) {
    a.Forget? && a.key in s.cache.evicted && s.cache.evicted[a.key] in s.evictions ==>
      s.evictions[s.cache.evicted[a.key]].markedAt + EVICTION_MEMORY <= s.now
  }

  /** A record is forgotten only once EVICTION_MEMORY has passed since it was made. */
  ghost predicate RecordsKept(r: Run)
    requires Legal(r)
  {
    r.Then? ==> RecordsKept(r.before) && Expired(End(r.before), r.action)
  }

  predicate RecheckWithin(s: State, a: Action, d: nat) {
    a.Advance? && a.id in s.loaders && s.loaders[a.id].pc.RecheckEvicted? ==> s.now < s.loaders[a.id].begunAt + d
  }

  /** Every load that gets to its recheck does so less than `d` after its ticket. */
  ghost predicate RechecksWithin(r: Run, d: nat)
    requires Legal(r)
  {
    r.Then? ==> RechecksWithin(r.before, d) && RecheckWithin(End(r.before), r.action, d)
  }

  /** Marks and tickets are in the same order in real time as on the clock of steps. */
  ghost predicate Timed(s: State) {
    && (forall g :: g in s.evictions && !s.evictions[g].stage.Drawn? ==> s.evictions[g].markedAt <= s.now)
    && (forall g, h :: g in s.evictions && h in s.evictions ==> InOrder(s.evictions[g], s.evictions[h]))
    && (forall id :: id in s.loaders ==> s.loaders[id].begunAt <= s.now)
    && (forall id, g :: id in s.loaders && g in s.evictions ==> After(s.loaders[id], s.evictions[g]))
  }

  predicate InOrder(e: Eviction, f: Eviction) {
    !e.stage.Drawn? && !f.stage.Drawn? && e.at <= f.at ==> e.markedAt <= f.markedAt
  }

  predicate After(l: Loader, e: Eviction) {
    !e.stage.Drawn? && l.ticketAt < e.at ==> l.begunAt <= e.markedAt
  }

  /** An eviction that marked less than EVICTION_MEMORY ago is on record. */
  predicate OnRecord(s: State, e: Eviction) {
    e.key.Some? && !e.stage.Drawn? && s.now < e.markedAt + EVICTION_MEMORY ==> e.key.value in s.cache.evicted
  }

  ghost predicate AllOnRecord(s: State) {
    forall g :: g in s.evictions ==> OnRecord(s, s.evictions[g])
  }

  lemma TimeGoesOn(s: State, a: Action)
    requires Enabled(s, a)
    ensures s.now <= Next(s, a).now
  {
  }

  lemma TimedStep(s: State, a: Action)
    requires Inv(s) && Timed(s) && Enabled(s, a)
    ensures Timed(Next(s, a))
  {
    hide Next, Marks, SlotsOk, FloorsOk, ReadsOk;
    var t := Next(s, a);
    TimeGoesOn(s, a);
    forall g | g in t.evictions
      ensures g !in s.evictions ==> t.evictions[g].stage.Drawn?
      ensures g in s.evictions && !s.evictions[g].stage.Drawn? ==>
                && !t.evictions[g].stage.Drawn? && t.evictions[g].at == s.evictions[g].at
                && t.evictions[g].markedAt == s.evictions[g].markedAt
      ensures g in s.evictions && s.evictions[g].stage.Drawn? && !t.evictions[g].stage.Drawn? ==>
                t.evictions[g].at == s.clock && t.evictions[g].markedAt == s.now && a == Mark(g)
    {
      if g in s.evictions {
        EvictionsStay(s, a, g);
      } else {
        NewEviction(s, a, g);
      }
    }
    forall id, g | id in t.loaders && g in t.evictions ensures t.loaders[id].begunAt <= t.now && After(t.loaders[id], t.evictions[g]) {
      LoadersStay(s, a, id);
      if id in s.loaders && g in s.evictions {
        assert After(s.loaders[id], s.evictions[g]);
      }
    }
    forall id | id in t.loaders ensures t.loaders[id].begunAt <= t.now {
      LoadersStay(s, a, id);
    }
    forall g, h | g in t.evictions && h in t.evictions ensures InOrder(t.evictions[g], t.evictions[h]) {
      assert g in s.evictions && h in s.evictions ==> InOrder(s.evictions[g], s.evictions[h]);
    }
  }

  lemma RecordStep(s: State, a: Action)
    requires Inv(s) && Timed(s) && AllOnRecord(s) && Enabled(s, a) && Expired(s, a)
    ensures AllOnRecord(Next(s, a))
  {
    hide Next, SlotsOk, FloorsOk, ReadsOk, LoadersOk;
    var t := Next(s, a);
    TimeGoesOn(s, a);
    forall g | g in t.evictions ensures OnRecord(t, t.evictions[g]) {
      if g !in s.evictions {
        NewEviction(s, a, g);
      } else if t.evictions[g].key.Some? {
        EvictionsStay(s, a, g);
        var k := t.evictions[g].key.value;
        RecordsStay(s, a, k);
        assert OnRecord(s, s.evictions[g]);
        if k in s.cache.evicted {
          assert Latest(s.evictions, Some(k), s.cache.evicted[k]);
          assert InOrder(s.evictions[g], s.evictions[s.cache.evicted[k]]);
        }
      }
    }
  }

  /** A loader that rechecks within EVICTION_MEMORY of its ticket has the record to see. */
  lemma NotBlindInTime(s: State, a: Action, id: nat, g: nat)
    requires Timed(s) && AllOnRecord(s) && RecheckWithin(s, a, EVICTION_MEMORY)
    ensures !Blind(s, a, id, g)
  {
  }

  lemma {:induction false} PromptSees(r: Run)
    requires Legal(r) && RecordsKept(r) && RechecksWithin(r, EVICTION_MEMORY)
    ensures Timed(End(r)) && AllOnRecord(End(r)) && AllSeen(End(r))
  {
    hide Next, Inv, Enabled, Expired, RecheckWithin, Overlooked, InOrder, After, OnRecord, Blind;
    if r.Then? {
      PromptSees(r.before);
      RunKeeps(r.before);
      var s := End(r.before);
      TimedStep(s, r.action);
      RecordStep(s, r.action);
      forall id, g ensures !Blind(s, r.action, id, g) {
        NotBlindInTime(s, r.action, id, g);
      }
      SeenStep(s, r.action);
    }
  }

  /** Either will do. */
  ghost predicate Careful(r: Run)
    requires Legal(r)
  {
    Remembering(r) || (RecordsKept(r) && RechecksWithin(r, EVICTION_MEMORY))
  }

  lemma CarefulSees(r: Run)
    requires Legal(r) && Careful(r)
    ensures AllSeen(End(r))
  {
    hide Next, Remembering, RecordsKept, RechecksWithin;
    if Remembering(r) {
      RememberingSees(r);
    } else {
      PromptSees(r);
    }
  }

  /** With its loader finished, the entry for `k` is older than finished eviction `g` of it. */
  predicate Survives(s: State, k: string, g: nat) {
    && k in s.cache.entries && s.cache.entries[k].loader in s.loaders
    && Owner(s, k).pc.Finished? && Outdated(s, k, g)
  }

  /** Then none survives its eviction. */
  lemma NoneSurvives(r: Run, k: string, g: nat)
    requires Legal(r) && Careful(r)
    ensures !Survives(End(r), k, g)
  {
    hide Next, Careful;
    if Survives(End(r), k, g) {
      OutdatedOnlyWhileRechecking(r, k, g);
    }
  }

  // ------------------------------------------------------------------ and when it is

  /** Run `q` goes on to become run `r`. */
  predicate Continues(q: Run, r: Run) {
    q == r || (r.Then? && Continues(q, r.before))
  }

  /** A loader at `pc`, with no record in its ticket, none there, and nothing cleared since; and once it has
      inserted, the entry is its own. */
  predicate Unhindered(s: State, id: nat, l: Loader, pc: Pc) {
    && id in s.loaders && s.loaders[id] == l.(pc := pc, recheckedAt := s.loaders[id].recheckedAt,
         insertedAt := s.loaders[id].insertedAt, ttl := s.loaders[id].ttl)
    && l.ticket.evicted.None? && l.key !in s.cache.evicted && s.cache.cleared == l.ticket.cleared
    && (s.loaders[id].Inserted() ==> l.key in s.cache.entries && s.cache.entries[l.key].loader == id)
  }

  /** How many steps a loader that has read has left. */
  function Left(pc: Pc): nat {
    match pc
    case CheckEvicted => 5
    case CheckCleared => 4
    case Insert => 3
    case RecheckEvicted => 2
    case RecheckCleared => 1
    case _ => 0
  }

  /** What stays as a load goes on; and so do the bounds of the run. */
  ghost predicate SameBut(r: Run, q: Run, id: nat)
    requires Legal(r) && Legal(q)
  {
    var s, t := End(r), End(q);
    && t.evictions == s.evictions && t.now == s.now && t.loaders.Keys == s.loaders.Keys
    && (forall i :: i in s.loaders && i != id ==> t.loaders[i] == s.loaders[i])
    && (id in s.loaders ==> t.loaders[id].begunAt == s.loaders[id].begunAt)
    && (RecordsKept(r) ==> RecordsKept(q))
    && (forall d: nat :: id in s.loaders && RechecksWithin(r, d) && s.now < s.loaders[id].begunAt + d ==> RechecksWithin(q, d))
  }

  /** With nothing recorded, the loader passes each of its checks. */
  lemma Passes(s: State, id: nat, l: Loader, pc: Pc)
    requires Unhindered(s, id, l, pc) && 0 < Left(pc)
    ensures Enabled(s, Advance(id, 0, 1))
    ensures var t := Next(s, Advance(id, 0, 1));
            && id in t.loaders && Unhindered(t, id, l, t.loaders[id].pc)
            && Left(t.loaders[id].pc) == Left(pc) - 1 && (0 < Left(t.loaders[id].pc) || t.loaders[id].pc.Finished?)
            && t.loaders[id].begunAt == s.loaders[id].begunAt && t.loaders == s.loaders[id := t.loaders[id]]
            && t.evictions == s.evictions && t.now == s.now
  {
  }

  lemma GoesOn(r: Run, id: nat, l: Loader, pc: Pc) returns (q: Run, next: Pc)
    requires Legal(r) && Unhindered(End(r), id, l, pc) && 0 < Left(pc)
    ensures q == Then(r, Advance(id, 0, 1)) && Legal(q) && Unhindered(End(q), id, l, next) && SameBut(r, q, id)
    ensures Left(next) == Left(pc) - 1 && (0 < Left(next) || next.Finished?)
  {
    hide Next, Enabled, Unhindered, Left;
    Passes(End(r), id, l, pc);
    q := Then(r, Advance(id, 0, 1));
    next := End(q).loaders[id].pc;
  }

  lemma SameButThen(r: Run, p: Run, q: Run, id: nat)
    requires Legal(r) && Legal(p) && Legal(q) && SameBut(r, p, id) && SameBut(p, q, id) && id in End(r).loaders
    ensures SameBut(r, q, id)
  {
    hide Legal, End, RecordsKept, RechecksWithin;
  }

  lemma {:induction false} ContinuesBefore(r: Run, a: Action, q: Run)
    requires Continues(Then(r, a), q)
    ensures Continues(r, q)
  {
    if q != Then(r, a) {
      ContinuesBefore(r, a, q.before);
    }
  }

  lemma {:induction false} GoesToItsEnd(r: Run, id: nat, l: Loader, pc: Pc) returns (q: Run)
    requires Legal(r) && Unhindered(End(r), id, l, pc) && (0 < Left(pc) || pc.Finished?)
    ensures Continues(r, q) && Legal(q) && Unhindered(End(q), id, l, Finished) && SameBut(r, q, id)
    decreases Left(pc)
  {
    hide Legal, End, Unhindered, SameBut, Continues;
    if pc.Finished? {
      q := r;
      assert Continues(r, r) && SameBut(r, r, id) by { SameAsSelf(r, id); }
    } else {
      var p, next := GoesOn(r, id, l, pc);
      q := GoesToItsEnd(p, id, l, next);
      ContinuesBefore(r, Advance(id, 0, 1), q);
      assert id in End(r).loaders by { UnhinderedIsThere(End(r), id, l, pc); }
      SameButThen(r, p, q, id);
    }
  }

  lemma SameAsSelf(r: Run, id: nat)
    requires Legal(r)
    ensures Continues(r, r) && SameBut(r, r, id)
  {
  }

  lemma UnhinderedIsThere(s: State, id: nat, l: Loader, pc: Pc)
    requires Unhindered(s, id, l, pc)
    ensures id in s.loaders
  {
  }

  /** A loader that may yet overlook: it has read, under a ticket without a record, nothing was cleared since, and
      if it has inserted its entry is there. */
  predicate MayOverlook(s: State, id: nat) {
    && id in s.loaders && s.loaders[id].HasRead() && s.loaders[id].Watching() && s.loaders[id].ticket.evicted.None?
    && s.loaders[id].ticket.cleared == s.cache.cleared
    && (s.loaders[id].Inserted() ==>
          s.loaders[id].key in s.cache.entries && s.cache.entries[s.loaders[id].key].loader == id)
  }

  lemma Forgets(r: Run, id: nat) returns (q: Run)
    requires Legal(r) && MayOverlook(End(r), id)
    ensures q == Then(r, Forget(End(r).loaders[id].key)) && Legal(q)
    ensures Unhindered(End(q), id, End(r).loaders[id], End(r).loaders[id].pc) && End(q).loaders == End(r).loaders
    ensures End(q).evictions == End(r).evictions && End(q).now == End(r).now
    ensures RecordsKept(r) && Expired(End(r), Forget(End(r).loaders[id].key)) ==> RecordsKept(q)
    ensures forall d: nat :: RechecksWithin(r, d) ==> RechecksWithin(q, d)
  {
    q := Then(r, Forget(End(r).loaders[id].key));
  }

  /** From every state a run may reach with such a loader: if the record of its key is forgotten and the load
      goes on, then its entry survives a finished eviction of the key exactly when its value is older. */
  lemma ForgettingLeaves(r: Run, id: nat, g: nat) returns (q: Run)
    requires Legal(r) && MayOverlook(End(r), id)
    requires g in End(r).evictions && End(r).evictions[g].stage.Done?
    requires End(r).evictions[g].Covers(End(r).loaders[id].key)
    ensures var l := End(r).loaders[id];
            && Legal(q) && Continues(Then(r, Forget(l.key)), q)
            && (Survives(End(q), l.key, g) <==> l.value < Floor(End(r).evictions[g].floors, l.key))
            && (RecordsKept(r) && Expired(End(r), Forget(l.key)) ==> RecordsKept(q))
            && (forall d: nat :: RechecksWithin(r, d) && End(r).now < l.begunAt + d ==> RechecksWithin(q, d))
  {
    hide Legal, End, RecordsKept, RechecksWithin, Expired;
    var p := Forgets(r, id);
    q := GoesToItsEnd(p, id, End(r).loaders[id], End(r).loaders[id].pc);
  }

  // A run to such a state.

  /** A loader of "k" that has read version 0 and taken its ticket, with nothing recorded. */
  const SLOW := Loader("k", CheckEvicted, Ticket(None, 0), 0, 1, 0, 0, 0, 0, 0, 0)

  /** Run `r` keeps every record and has nothing rechecked. */
  ghost predicate To(r: Run, s: State) {
    Legal(r) && End(r) == s && RecordsKept(r) && forall d: nat :: RechecksWithin(r, d)
  }

  lemma Extend(r: Run, s: State, a: Action, t: State) returns (q: Run)
    requires To(r, s) && Enabled(s, a) && Next(s, a) == t && !a.Forget?
    requires a.Advance? ==> !s.loaders[a.id].pc.RecheckEvicted?
    ensures To(q, t)
  {
    hide Enabled, Next;
    q := Then(r, a);
    forall d: nat ensures RechecksWithin(q, d) {
      assert RechecksWithin(r, d);
    }
  }

  lemma Starts() returns (r: Run)
    ensures To(r, INIT)
  {
    r := Start;
  }

  lemma ReadsSlowly() returns (r: Run)
    ensures To(r, INIT.(loaders := map[0 := SLOW], clock := 3))
  {
    hide To;
    r := Starts();
    var s := INIT.(loaders := map[0 := SLOW.(pc := TakeCleared, clearedAt := 0)], clock := 1);
    r := Extend(r, INIT, Begin(0, "k"), s);
    var t := INIT.(loaders := map[0 := SLOW.(pc := ReadSource)], clock := 2);
    r := Extend(r, s, Advance(0, 0, 0), t);
    r := Extend(r, t, Advance(0, 0, 0), INIT.(loaders := map[0 := SLOW], clock := 3));
  }

  const WRITTEN := INIT.(loaders := map[0 := SLOW], floors := map["k" := 1], raises := {Raise("k", 1, 0)}, clock := 4)
  const EVICTION := Eviction(Some("k"), Drawn, 0, 0, map["k" := 1])
  const EVICTED := WRITTEN.(cache := Cache(map[], map["k" := 1], 1, 0),
    evictions := map[1 := EVICTION.(stage := Done, at := 5)], clock := 7)

  /** Meanwhile the key is written and evicted. */
  lemma ReadThenEvicted() returns (r: Run)
    ensures To(r, EVICTED)
  {
    hide To;
    r := ReadsSlowly();
    r := Extend(r, INIT.(loaders := map[0 := SLOW], clock := 3), Lift("k", 1), WRITTEN);
    var s := WRITTEN.(cache := INIT.cache.(generation := 1), evictions := map[1 := EVICTION], clock := 5);
    r := Extend(r, WRITTEN, Draw(Some("k")), s);
    var t := s.(cache := s.cache.(evicted := map["k" := 1]), evictions := map[1 := EVICTION.(stage := Marked, at := 5)], clock := 6);
    r := Extend(r, s, Mark(1), t);
    assert t.cache.Drop("k") == t.cache;
    r := Extend(r, t, Empty(1), EVICTED);
  }

  /** A load that rechecks EVICTION_MEMORY after its ticket, and no later, survives its eviction. */
  lemma SlowLoadSurvives() returns (r: Run)
    ensures Legal(r) && RecordsKept(r) && RechecksWithin(r, EVICTION_MEMORY + 1) && Survives(End(r), "k", 1)
  {
    hide Legal, End, RecordsKept, RechecksWithin, Survives;
    var q := ReadThenEvicted();
    q := Extend(q, EVICTED, Wait(EVICTION_MEMORY), EVICTED.(now := EVICTION_MEMORY, clock := 8));
    r := ForgettingLeaves(q, 0, 1);
  }

  /** No run that keeps its records, and whose loads recheck less than `d` after their tickets, has an entry
      that survives its eviction. */
  ghost predicate NeverSurvives(d: nat) {
    forall r: Run, k: string, g: nat :: Legal(r) && RecordsKept(r) && RechecksWithin(r, d) ==> !Survives(End(r), k, g)
  }

  lemma {:induction false} WithinMore(r: Run, d: nat, e: nat)
    requires Legal(r) && RechecksWithin(r, d) && d <= e
    ensures RechecksWithin(r, e)
  {
    hide Next;
    if r.Then? {
      WithinMore(r.before, d, e);
    }
  }

  /** The memory is exactly long enough: a bound on loads keeps evicted values out if and only if it is no longer
      than EVICTION_MEMORY. */
  lemma MemoryIsExact(d: nat)
    ensures NeverSurvives(d) <==> d <= EVICTION_MEMORY
  {
    hide Next, Enabled;
    if d <= EVICTION_MEMORY {
      forall r: Run, k: string, g: nat | Legal(r) && RecordsKept(r) && RechecksWithin(r, d) ensures !Survives(End(r), k, g) {
        WithinMore(r, d, EVICTION_MEMORY);
        NoneSurvives(r, k, g);
      }
    } else {
      var r := SlowLoadSurvives();
      WithinMore(r, EVICTION_MEMORY + 1, d);
    }
  }
}
