/** The leader lock (api/src/jobs/leader.rs): a key in Valkey set if absent with an expiry, pushed out and
    deleted only by who knows its token. Any number of nodes acquire, extend and release, and time passes.
    Times are in milliseconds. */
module Leases {
  import opened Bytes

  /** What the key holds, and until when. */
  datatype Lock = Lock(token: nat, until: nat)

  /** A lease as its holder counts it: from its acquisition or last successful extension, for its ttl. */
  datatype Lease = Lease(name: string, until: nat)

  datatype State = State(locks: map<string, Lock>, leases: map<nat, Lease>, now: nat)

  datatype Action =
    | Acquire(token: nat, name: string, ttl: nat)
    | Extend(token: nat, ttl: nat)
    | Release(token: nat)
    | Wait(d: nat)

  const INIT := State(map[], map[], 0)

  /** The key as a command finds it: gone once its time is up. */
  function Find(locks: map<string, Lock>, name: string, now: nat): Option<nat> {
    if name in locks && now < locks[name].until then Some(locks[name].token) else None
  }

  /** Set if absent, with an expiry. */
  function SetNx(locks: map<string, Lock>, name: string, token: nat, ttl: nat, now: nat): map<string, Lock> {
    if Find(locks, name, now).None? then locks[name := Lock(token, now + ttl)] else locks
  }

  /** Compare and expire. */
  function ExpireIf(locks: map<string, Lock>, name: string, token: nat, ttl: nat, now: nat): map<string, Lock> {
    if Find(locks, name, now) == Some(token) then locks[name := Lock(token, now + ttl)] else locks
  }

  /** Compare and delete. */
  function DeleteIf(locks: map<string, Lock>, name: string, token: nat, now: nat): map<string, Lock> {
    if Find(locks, name, now) == Some(token) then locks - {name} else locks
  }

  /** Tokens are never used twice; an expiry of nothing is refused by the server. */
  predicate Enabled(s: State, a: Action) {
    match a
    case Acquire(token, name, ttl) => token !in s.leases && 0 < ttl
    case Extend(token, ttl) => token in s.leases
    case Release(token) => token in s.leases
    case Wait(d) => true
  }

  function Next(s: State, a: Action): State
    requires Enabled(s, a)
  {
    match a
    case Acquire(token, name, ttl) =>
      // A lease of no time at all when the lock is taken.
      var got := Find(s.locks, name, s.now).None?;
      s.(locks := SetNx(s.locks, name, token, ttl, s.now),
         leases := s.leases[token := Lease(name, if got then s.now + ttl else s.now)])
    case Extend(token, ttl) =>
      var l := s.leases[token];
      var got := Find(s.locks, l.name, s.now) == Some(token);
      s.(locks := ExpireIf(s.locks, l.name, token, ttl, s.now),
         leases := if got then s.leases[token := l.(until := s.now + ttl)] else s.leases)
    case Release(token) =>
      var l := s.leases[token];
      var got := Find(s.locks, l.name, s.now) == Some(token);
      s.(locks := DeleteIf(s.locks, l.name, token, s.now),
         leases := if got then s.leases[token := l.(until := s.now)] else s.leases)
    case Wait(d) => s.(now := s.now + d)
  }

  // ------------------------------------------------------------------ what every run keeps

  predicate Live(s: State, token: nat) { token in s.leases && s.now < s.leases[token].until }

  /** A lease is live exactly when the lock is its own. */
  ghost predicate Inv(s: State) {
    && (forall t :: Live(s, t) ==> s.leases[t].name in s.locks && s.locks[s.leases[t].name] == Lock(t, s.leases[t].until))
    && (forall n :: n in s.locks && s.now < s.locks[n].until ==>
          s.locks[n].token in s.leases && s.leases[s.locks[n].token] == Lease(n, s.locks[n].until))
  }

  lemma StepKeeps(s: State, a: Action)
    requires Inv(s) && Enabled(s, a)
    ensures Inv(Next(s, a))
  {
    var n := Next(s, a);
    forall t | Live(n, t) ensures n.leases[t].name in n.locks && n.locks[n.leases[t].name] == Lock(t, n.leases[t].until) {
    }
  }

  datatype Run = Start | Then(before: Run, action: Action)

  predicate Legal(r: Run)
    decreases r, 0
  {
    r.Then? ==> Legal(r.before) && Enabled(End(r.before), r.action)
  }

  function End(r: Run): State
    requires Legal(r)
    decreases r, 1
  {
    match r
    case Start => INIT
    case Then(before, a) => Next(End(before), a)
  }

  lemma {:induction false} RunKeeps(r: Run)
    requires Legal(r)
    ensures Inv(End(r))
  {
    hide Next, Enabled;
    match r
    case Start =>
    case Then(before, a) =>
      RunKeeps(before);
      StepKeeps(End(before), a);
  }

  // ------------------------------------------------------------------ the theorems

  /** At most one lease of a name is live at any instant. */
  lemma AtMostOneLease(r: Run, a: nat, b: nat)
    requires Legal(r) && Live(End(r), a) && Live(End(r), b) && End(r).leases[a].name == End(r).leases[b].name
    ensures a == b
  {
    hide Next;
    RunKeeps(r);
  }

  /** `extend` succeeds if and only if the lease is still live, and a holder whose lease lapsed changes
      nothing, be it by extending or by releasing: a successor's lock is out of its reach. */
  lemma LapsedHasNoReach(r: Run, token: nat, ttl: nat)
    requires Legal(r) && token in End(r).leases
    ensures var s := End(r);
            && (Find(s.locks, s.leases[token].name, s.now) == Some(token) <==> Live(s, token))
            && (!Live(s, token) ==> Next(s, Extend(token, ttl)) == s && Next(s, Release(token)) == s)
  {
    RunKeeps(r);
  }

  /** Nothing but time and its own release ends a lease: what others do leaves it as it is, and an extension
      in time renews it. */
  lemma OnlyTimeEndsALease(r: Run, token: nat, a: Action)
    requires Legal(Then(r, a)) && Live(End(r), token)
    requires !a.Wait? && a != Release(token)
    ensures var s, n := End(r), End(Then(r, a));
            && token in n.leases
            && n.leases[token] == (if a.Extend? && a.token == token then s.leases[token].(until := s.now + a.ttl) else s.leases[token])
            && s.leases[token].name in n.locks && n.locks[s.leases[token].name] == Lock(token, n.leases[token].until)
  {
    RunKeeps(r);
  }

  /** And a lock is taken exactly when no lease of its name is live. */
  lemma AcquiredWhenFree(r: Run, token: nat, name: string, ttl: nat)
    requires Legal(Then(r, Acquire(token, name, ttl)))
    ensures Live(End(Then(r, Acquire(token, name, ttl))), token) <==> forall t :: Live(End(r), t) ==> End(r).leases[t].name != name
  {
    RunKeeps(r);
    var s := End(r);
    if Find(s.locks, name, s.now).Some? {
      assert Live(s, s.locks[name].token);
    }
  }

  // ------------------------------------------------------------------ as it runs

  /** The server's keys, and the holder's calls on them. */
  class LockServer {
    var locks: map<string, Lock>

    constructor ()
      ensures locks == map[]
    {
      locks := map[];
    }

    /** No answer for an expiry of nothing, which the server refuses. */
    method TryAcquire(name: string, token: nat, ttl: nat, now: nat) returns (acquired: Option<bool>)
      modifies this
      ensures acquired.None? <==> ttl == 0
      ensures ttl == 0 ==> locks == old(locks)
      ensures 0 < ttl ==> locks == SetNx(old(locks), name, token, ttl, now)
      ensures acquired == Some(true) <==> 0 < ttl && Find(old(locks), name, now).None?
      ensures acquired == Some(true) ==> Find(locks, name, now) == Some(token)
    {
      if ttl == 0 {
        return None;
      }
      if name in locks && now < locks[name].until {
        return Some(false);
      }
      locks := locks[name := Lock(token, now + ttl)];
      return Some(true);
    }

    method ExtendLock(name: string, token: nat, ttl: nat, now: nat) returns (extended: bool)
      modifies this
      ensures locks == ExpireIf(old(locks), name, token, ttl, now)
      ensures extended <==> Find(old(locks), name, now) == Some(token)
    {
      if name in locks && now < locks[name].until && locks[name].token == token {
        locks := locks[name := Lock(token, now + ttl)];
        return true;
      }
      return false;
    }

    method ReleaseLock(name: string, token: nat, now: nat)
      modifies this
      ensures locks == DeleteIf(old(locks), name, token, now)
    {
      if name in locks && now < locks[name].until && locks[name].token == token {
        locks := locks - {name};
      }
    }

    /** `hold_while`: renew at each tick, the work going on regardless. It holds the lock throughout if and
        only if no tick comes as late as the expiry before it. */
    method HoldWhile(name: string, token: nat, ttl: nat, taken: nat, ticks: seq<nat>) returns (held: bool)
      requires name in locks && locks[name] == Lock(token, taken + ttl)
      requires forall i :: 0 <= i < |ticks| ==> taken <= ticks[i] && (0 < i ==> ticks[i - 1] <= ticks[i])
      modifies this
      ensures held <==> forall i :: 0 <= i < |ticks| ==> ticks[i] < (if i == 0 then taken else ticks[i - 1]) + ttl
      ensures held ==> name in locks && locks[name] == Lock(token, (if ticks == [] then taken else ticks[|ticks| - 1]) + ttl)
      ensures forall n :: n != name ==> (n in locks <==> n in old(locks)) && (n in locks ==> locks[n] == old(locks)[n])
    {
      held := true;
      for i := 0 to |ticks|
        invariant held <==> forall j :: 0 <= j < i ==> ticks[j] < (if j == 0 then taken else ticks[j - 1]) + ttl
        invariant name in locks && locks[name].token == token
        invariant held ==> locks[name].until == (if i == 0 then taken else ticks[i - 1]) + ttl
        invariant !held ==> 0 < i && locks[name].until <= ticks[i - 1]
        invariant forall n :: n != name ==> (n in locks <==> n in old(locks)) && (n in locks ==> locks[n] == old(locks)[n])
      {
        var extended := ExtendLock(name, token, ttl, ticks[i]);
        held := held && extended;
      }
    }
  }
}
