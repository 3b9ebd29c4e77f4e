/** The two-tier cache as one call at a time runs it (api/src/cache/layer.rs): a node's L1 caches, the Valkey
    behind them, read-through loads, invalidations and the messages they publish. The clock and what the
    loader gives are parameters. */
module Layer {
  import opened Bytes
  import opened L1
  import Valkey
  import Coherence

  /** What a loader writes: a value, or that there is none. */
  datatype Loaded = Json(value: nat) | Negative

  /** What a Valkey key holds, and until when: what a loader wrote, or an invalidation's hold. */
  datatype Cell = Kept(loaded: Loaded, until: nat) | Invalidated(until: nat)

  /** What was done to a key: a loader's write that went through, or a hold. */
  datatype Event = Wrote(key: string, loaded: Loaded, at: nat, ttl: nat) | Placed(key: string, at: nat)

  /** The last thing done to the key. */
  function LastOf(log: seq<Event>, k: string): Option<Event>
    decreases |log|
  {
    if log == [] then None
    else if log[|log| - 1].key == k then Some(log[|log| - 1])
    else LastOf(log[..|log| - 1], k)
  }

  lemma LastOfAppended(log: seq<Event>, e: Event, k: string)
    ensures LastOf(log + [e], k) == if e.key == k then Some(e) else LastOf(log, k)
  {
    assert (log + [e])[..|log|] == log;
  }

  /** What L1 holds of a key: a value, or that there is none. */
  datatype Local = Present(value: nat) | Absent

  datatype Lookup = Hit(value: nat) | NotThere | Miss

  datatype Message = Message(nodeId: nat, keys: seq<string>)

  function ToLocal(v: Option<nat>): Local { if v.Some? then Present(v.value) else Absent }

  function ToLoaded(v: Option<nat>): Loaded { if v.Some? then Json(v.value) else Negative }

  function FromLocal(l: Local): Option<nat> { if l.Present? then Some(l.value) else None }

  /** `jittered`, with `random` drawn from as wide a range as the spread. */
  function Spread(ttl: nat, random: nat): (t: nat)
    ensures ttl - ttl / 10 <= t <= ttl + ttl / 10
  {
    Coherence.Jittered(ttl, random % (2 * (ttl / 10) + 1))
  }

  /** A Valkey expiry is in whole seconds, and at least one. */
  function WriteTtl(ttl: nat, random: nat): nat {
    var seconds := Spread(ttl, random) / 1000;
    1000 * (if seconds < 1 then 1 else seconds)
  }

  /** What a key's last event leaves in it. */
  function CellOf(e: Event): Cell {
    match e
    case Wrote(_, loaded, at, ttl) => Kept(loaded, at + ttl)
    case Placed(_, at) => Invalidated(at + Valkey.INVALIDATION_HOLD)
  }

  /** What a read gives by what was last done to the key: a hold, its time up or not, and a write whose time
      is up are misses. */
  predicate Reads(log: seq<Event>, k: string, now: nat, l: Lookup) {
    match l
    case Hit(v) => LastOf(log, k).Some? && LastOf(log, k).value.Wrote? && LastOf(log, k).value.loaded == Json(v)
                   && now < LastOf(log, k).value.at + LastOf(log, k).value.ttl
    case NotThere => LastOf(log, k).Some? && LastOf(log, k).value.Wrote? && LastOf(log, k).value.loaded == Negative
                     && now < LastOf(log, k).value.at + LastOf(log, k).value.ttl
    case Miss => LastOf(log, k).None? || LastOf(log, k).value.Placed?
                 || LastOf(log, k).value.at + LastOf(log, k).value.ttl <= now
  }

  /** An invalidation was the last thing done to the key, less than its hold ago. */
  predicate HeldBy(log: seq<Event>, k: string, now: nat) {
    LastOf(log, k).Some? && LastOf(log, k).value.Placed? && now < LastOf(log, k).value.at + Valkey.INVALIDATION_HOLD
  }

  class Server {
    var cells: map<string, Cell>
    var published: seq<Message>
    ghost var log: seq<Event>

    ghost predicate Valid()
      reads this
    {
      && (forall k :: k in cells <==> LastOf(log, k).Some?)
      && (forall k :: k in cells ==> cells[k] == CellOf(LastOf(log, k).value))
    }

    constructor ()
      ensures Valid() && log == [] && published == []
    {
      cells, published, log := map[], [], [];
    }

    /** A loader's write: only while no invalidation holds the key. */
    method SetUnlessInvalidated(k: string, loaded: Loaded, ttl: nat, now: nat) returns (written: bool)
      requires Valid()
      modifies this`cells, this`log
      ensures Valid() && (written <==> !HeldBy(old(log), k, now))
      ensures log == if written then old(log) + [Wrote(k, loaded, now, ttl)] else old(log)
    {
      if k in cells && now < cells[k].until && cells[k].Invalidated? {
        return false;
      }
      cells := cells[k := Kept(loaded, now + ttl)];
      log := log + [Wrote(k, loaded, now, ttl)];
      forall x ensures LastOf(log, x) == if x == k then Some(Wrote(k, loaded, now, ttl)) else LastOf(old(log), x) {
        LastOfAppended(old(log), Wrote(k, loaded, now, ttl), x);
      }
      return true;
    }

    /** An invalidation's hold goes over whatever is there. */
    method Hold(k: string, now: nat)
      requires Valid()
      modifies this`cells, this`log
      ensures Valid() && log == old(log) + [Placed(k, now)]
    {
      cells := cells[k := Invalidated(now + Valkey.INVALIDATION_HOLD)];
      log := log + [Placed(k, now)];
      forall x ensures LastOf(log, x) == if x == k then Some(Placed(k, now)) else LastOf(old(log), x) {
        LastOfAppended(old(log), Placed(k, now), x);
      }
    }

    method Read(k: string, now: nat) returns (l: Lookup)
      requires Valid()
      ensures Reads(log, k, now, l)
    {
      if k !in cells || cells[k].until <= now {
        return Miss;
      }
      match cells[k] {
        case Kept(Json(v), _) => return Hit(v);
        case Kept(Negative, _) => return NotThere;
        case Invalidated(_) => return Miss;
      }
    }
  }

  /** A loader's write that is tried. */
  datatype Attempt = Attempt(key: string, loaded: Loaded, at: nat, ttl: nat)

  /** What a series of them leaves: those go through that meet no hold. */
  function After(log: seq<Event>, attempts: seq<Attempt>): seq<Event>
    decreases |attempts|
  {
    if attempts == [] then log else
      var a := attempts[0];
      After(if HeldBy(log, a.key, a.at) then log else log + [Wrote(a.key, a.loaded, a.at, a.ttl)], attempts[1..])
  }

  /** Whatever loaders try before a hold ends, on this key or others, the key reads as a miss until it does. */
  lemma {:induction false} HoldOutlasts(log: seq<Event>, k: string, at: nat, attempts: seq<Attempt>, now: nat, l: Lookup)
    requires LastOf(log, k) == Some(Placed(k, at)) && now < at + Valkey.INVALIDATION_HOLD
    requires forall i :: 0 <= i < |attempts| ==> attempts[i].at < at + Valkey.INVALIDATION_HOLD
    requires Reads(After(log, attempts), k, now, l)
    ensures l.Miss?
    decreases |attempts|
  {
    if attempts != [] {
      var a := attempts[0];
      LastOfAppended(log, Wrote(a.key, a.loaded, a.at, a.ttl), k);
      HoldOutlasts(if HeldBy(log, a.key, a.at) then log else log + [Wrote(a.key, a.loaded, a.at, a.ttl)],
        k, at, attempts[1..], now, l);
    }
  }

  /** The entries of other keys are as they were. */
  ghost predicate SameElsewhere<T>(before: map<string, T>, after: map<string, T>, keys: seq<string>) {
    && (forall k :: k !in keys ==> (k in after <==> k in before))
    && (forall k :: k !in keys && k in after ==> k in before && after[k] == before[k])
  }

  /** These keys are gone and every ticket for them is spoiled; other keys, and their tickets, are as they were. */
  ghost predicate EvictedOnly(before: Cache<Held<Local>>, after: Cache<Held<Local>>, keys: seq<string>) {
    && before.generation <= after.generation && after.cleared == before.cleared
    && (forall k :: k in keys ==> k !in after.entries && k in after.evicted && before.generation < after.evicted[k])
    && SameElsewhere(before.entries, after.entries, keys) && SameElsewhere(before.evicted, after.evicted, keys)
  }

  lemma NothingEvicted(c: Cache<Held<Local>>)
    ensures EvictedOnly(c, c, [])
  {
  }

  lemma EvictedMore(before: Cache<Held<Local>>, mid: Cache<Held<Local>>, keys: seq<string>, k: string)
    requires EvictedOnly(before, mid, keys)
    ensures EvictedOnly(before, Called(mid, Remove(k)), keys + [k])
  {
  }

  class CacheLayer {
    const nodeId: nat
    const l1: L1Cache<Local>
    const material: L1Cache<Local>
    const server: Server
    const l1Ttl: nat
    const negativeTtl: nat

    ghost predicate Valid()
      reads this, l1, material, server
    {
      l1 != material && l1.Contents().Sound() && material.Contents().Sound() && server.Valid()
    }

    constructor (nodeId: nat, server: Server, l1Ttl: nat, negativeTtl: nat)
      requires server.Valid()
      ensures Valid() && fresh(l1) && fresh(material) && this.server == server && this.nodeId == nodeId
      ensures l1.entries == map[] && material.entries == map[]
    {
      this.nodeId, this.server, this.l1Ttl, this.negativeTtl := nodeId, server, l1Ttl, negativeTtl;
      var a := new L1Cache<Local>();
      var b := new L1Cache<Local>();
      l1, material := a, b;
    }

    /** Read through L1, then Valkey, then the loader; what the lower tiers give is kept in the higher ones,
        and an invalidation's hold is never overwritten. */
    method GetOrLoad(k: string, ttl: nat, loaded: Result<Option<nat>, nat>, now: nat, random: nat)
      returns (r: Result<Option<nat>, nat>)
      requires Valid()
      modifies l1, server`cells, server`log
      ensures Valid()
      ensures k in old(l1.entries) ==>
                r == Ok(FromLocal(old(l1.entries)[k].value)) && l1.Contents() == old(l1.Contents()) && server.log == old(server.log)
      ensures k !in old(l1.entries) ==>
                && (forall v: nat :: Reads(old(server.log), k, now, Hit(v)) ==> r == Ok(Some(v)) && server.log == old(server.log))
                && (Reads(old(server.log), k, now, NotThere) ==> r == Ok(None) && server.log == old(server.log))
      ensures k !in old(l1.entries) && Reads(old(server.log), k, now, Miss) ==>
                && r == loaded
                && (loaded.Err? ==> l1.Contents() == old(l1.Contents()) && server.log == old(server.log))
                && (loaded.Ok? && HeldBy(old(server.log), k, now) ==> server.log == old(server.log))
                && (loaded.Ok? && !HeldBy(old(server.log), k, now) ==>
                      var kept := WriteTtl(if loaded.value.Some? then ttl else negativeTtl, random);
                      server.log == old(server.log) + [Wrote(k, ToLoaded(loaded.value), now, kept)])
      ensures r.Ok? && 0 < l1Ttl ==> k in l1.entries && FromLocal(l1.entries[k].value) == r.value
      ensures SameElsewhere(old(l1.entries), l1.entries, [k])
    {
      var here := l1.Get(k);
      if here.Some? {
        return Ok(FromLocal(here.value));
      }
      var ticket := l1.TakeTicket(k);
      var found := server.Read(k, now);
      match found {
        case Hit(v) =>
          Keep(k, Some(v), random, ticket);
          return Ok(Some(v));
        case NotThere =>
          Keep(k, None, random, ticket);
          return Ok(None);
        case Miss =>
      }
      if loaded.Err? {
        return loaded;
      }
      match loaded.value {
        case Some(v) =>
          var _ := server.SetUnlessInvalidated(k, Json(v), WriteTtl(ttl, random), now);
        case None =>
          var _ := server.SetUnlessInvalidated(k, Negative, WriteTtl(negativeTtl, random), now);
      }
      Keep(k, loaded.value, random, ticket);
      return loaded;
    }

    /** Into L1, under a ticket taken before the read: a value for a jittered time, an absence for the plain one. */
    method Keep(k: string, v: Option<nat>, random: nat, ticket: Ticket)
      requires Valid() && l1.Contents().TicketFor(k) == ticket
      modifies l1
      ensures Valid()
      ensures 0 < l1Ttl ==> k in l1.entries && l1.entries[k].value == ToLocal(v)
      ensures l1.evicted == old(l1.evicted) && l1.generation == old(l1.generation) && l1.cleared == old(l1.cleared)
      ensures SameElsewhere(old(l1.entries), l1.entries, [k])
    {
      var ttl := if v.Some? then Spread(l1Ttl, random) else l1Ttl;
      var taken := l1.PutFresh(k, ToLocal(v), ttl, ticket, [], []);
      assert Undisturbed<Local>(k, []);
    }

    /** Evict everywhere: the own L1 first, then a hold on every key, then the message. */
    method Invalidate(keys: seq<string>, now: nat)
      requires Valid()
      modifies l1, material, server
      ensures Valid()
      ensures EvictedOnly(old(l1.Contents()), l1.Contents(), keys)
      ensures EvictedOnly(old(material.Contents()), material.Contents(), keys)
      ensures forall x :: LastOf(server.log, x) == if x in keys then Some(Placed(x, now)) else LastOf(old(server.log), x)
      ensures server.published == if keys == [] then old(server.published) else old(server.published) + [Message(nodeId, keys)]
    {
      if keys == [] {
        return;
      }
      EvictKeys(keys);
      for i := 0 to |keys|
        invariant server.Valid() && server.published == old(server.published)
        invariant forall x :: LastOf(server.log, x) == if x in keys[..i] then Some(Placed(x, now)) else LastOf(old(server.log), x)
        modifies server
      {
        ghost var before := server.log;
        server.Hold(keys[i], now);
        assert keys[..i + 1] == keys[..i] + [keys[i]];
        forall x ensures LastOf(server.log, x) == if x in keys[..i + 1] then Some(Placed(x, now)) else LastOf(old(server.log), x) {
          LastOfAppended(before, Placed(keys[i], now), x);
        }
      }
      assert keys[..|keys|] == keys;
      server.published := server.published + [Message(nodeId, keys)];
    }

    /** Evict the keys from both L1 caches. */
    method EvictKeys(keys: seq<string>)
      requires Valid()
      modifies l1, material
      ensures Valid()
      ensures EvictedOnly(old(l1.Contents()), l1.Contents(), keys)
      ensures EvictedOnly(old(material.Contents()), material.Contents(), keys)
    {
      hide EvictedOnly;
      assert EvictedOnly(l1.Contents(), l1.Contents(), []) && EvictedOnly(material.Contents(), material.Contents(), []) by {
        NothingEvicted(l1.Contents());
        NothingEvicted(material.Contents());
      }
      for i := 0 to |keys|
        invariant Valid()
        invariant EvictedOnly(old(l1.Contents()), l1.Contents(), keys[..i])
        invariant EvictedOnly(old(material.Contents()), material.Contents(), keys[..i])
      {
        EvictedMore(old(l1.Contents()), l1.Contents(), keys[..i], keys[i]);
        EvictedMore(old(material.Contents()), material.Contents(), keys[..i], keys[i]);
        l1.Evict(keys[i]);
        material.Evict(keys[i]);
        assert keys[..i + 1] == keys[..i] + [keys[i]];
      }
      assert keys[..|keys|] == keys;
    }

    /** A message from the channel: others' keys are evicted, the own ones were already. */
    method Handle(m: Message)
      requires Valid()
      modifies l1, material
      ensures Valid()
      ensures m.nodeId == nodeId ==> l1.Contents() == old(l1.Contents()) && material.Contents() == old(material.Contents())
      ensures m.nodeId != nodeId ==>
                && EvictedOnly(old(l1.Contents()), l1.Contents(), m.keys)
                && EvictedOnly(old(material.Contents()), material.Contents(), m.keys)
    {
      if m.nodeId == nodeId {
        return;
      }
      EvictKeys(m.keys);
    }

    /** On subscribing, everything goes: messages may have been missed. */
    method Subscribed()
      requires Valid()
      modifies l1, material
      ensures Valid() && l1.entries == map[] && material.entries == map[]
      ensures l1.cleared > old(l1.cleared) && material.cleared > old(material.cleared)
    {
      l1.EvictAll();
      material.EvictAll();
    }
  }
}
