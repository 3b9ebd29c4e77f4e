/** Version tokens (api/src/cache/layer.rs, api/src/cache/keys.rs): a token in Valkey that cached values hang
    off, minted on first read or by a bump, held by each node's L1 for VERSION_L1_TTL. Any number of nodes
    read tokens, bump them, and load and read values under the tokens they hold. Values are the version of
    the source they were read from; times are in milliseconds. */
module Versions {
  import opened Bytes

  const VERSION_L1_TTL: nat := 2000

  /** A token as minted: its key, and the version the source had reached by then. */
  datatype Mint = Mint(key: string, floor: nat)

  /** A token in Valkey, and when it was set. */
  datatype Cell = Cell(token: nat, setAt: nat)

  /** A token in a node's L1: when it was found to be the token, and when it was inserted. */
  datatype Kept = Kept(token: nat, askedAt: nat, insertedAt: nat)

  datatype Pc = Ask | TrySet | Again | Keep | Have

  /** A call of `version`, and after it the holder of the token it gave. */
  datatype Call = Call(node: nat, key: string, pc: Pc, token: nat, askedAt: nat)

  /** A value under a token, loaded, cached or served. */
  datatype Item = Item(token: nat, name: string, version: nat)

  datatype State = State(
    source: map<string, nat>,
    tokens: map<nat, Mint>,
    valkey: map<string, Cell>,
    l1: map<(nat, string), Kept>,
    calls: map<nat, Call>,
    bumps: map<nat, string>,          // tokens minted by bumps that have still to set them
    loads: map<nat, Item>,
    cached: set<Item>,                // in either tier, on any node
    served: set<Item>,
    now: nat)

  datatype Action =
    | Write(key: string)
    | Bump(token: nat, key: string)
    | SetToken(token: nat)
    | Evict(node: nat, key: string)
    | Begin(id: nat, node: nat, key: string)
    | Get(id: nat, newToken: nat)
    | SetNx(id: nat)
    | GetAgain(id: nat)
    | KeepIt(id: nat)
    | Load(load: nat, id: nat, name: string)
    | Store(load: nat)
    | Hit(id: nat, item: Item)
    | Vanish(key: string)
    | Wait(d: nat)

  const INIT := State(map[], map[], map[], map[], map[], map[], map[], {}, {}, 0)

  function Source(source: map<string, nat>, k: string): nat { if k in source then source[k] else 0 }

  /** The node's L1 still serves the token. */
  predicate InL1(s: State, n: nat, k: string) {
    (n, k) in s.l1 && s.now < s.l1[(n, k)].insertedAt + VERSION_L1_TTL
  }

  predicate At(s: State, id: nat, pc: Pc) { id in s.calls && s.calls[id].pc == pc }

  predicate Enabled(s: State, a: Action) {
    match a
    case Write(key) => true
    case Bump(token, key) => token !in s.tokens
    case SetToken(token) => token in s.bumps
    case Evict(node, key) => true
    case Begin(id, node, key) => id !in s.calls
    case Get(id, newToken) => At(s, id, Ask) && newToken !in s.tokens
    case SetNx(id) => At(s, id, TrySet)
    case GetAgain(id) => At(s, id, Again)
    case KeepIt(id) => At(s, id, Keep)
    case Load(load, id, name) => At(s, id, Have) && load !in s.loads
    case Store(load) => load in s.loads
    case Hit(id, item) => At(s, id, Have) && item in s.cached && item.token == s.calls[id].token
    case Vanish(key) => true
    case Wait(d) => true
  }

  function To(s: State, id: nat, c: Call): State { s.(calls := s.calls[id := c]) }

  /** A token is minted for `k` now. */
  function Minted(s: State, token: nat, k: string): State { s.(tokens := s.tokens[token := Mint(k, Source(s.source, k))]) }

  function Next(s: State, a: Action): State
    requires Enabled(s, a)
  {
    match a
    case Write(k) => s.(source := s.source[k := Source(s.source, k) + 1])
    case Bump(token, k) => Minted(s, token, k).(bumps := s.bumps[token := k])
    case SetToken(token) => s.(valkey := s.valkey[s.bumps[token] := Cell(token, s.now)], bumps := s.bumps - {token})
    case Evict(n, k) => s.(l1 := s.l1 - {(n, k)})
    case Begin(id, n, k) =>
      To(s, id, if InL1(s, n, k) then Call(n, k, Have, s.l1[(n, k)].token, s.l1[(n, k)].askedAt) else Call(n, k, Ask, 0, 0))
    case Get(id, newToken) =>
      var c := s.calls[id];
      if c.key in s.valkey then To(s, id, c.(pc := Keep, token := s.valkey[c.key].token, askedAt := s.now))
      else To(Minted(s, newToken, c.key), id, c.(pc := TrySet, token := newToken))
    case SetNx(id) =>
      var c := s.calls[id];
      if c.key in s.valkey then To(s, id, c.(pc := Again))
      else To(s, id, c.(pc := Keep, askedAt := s.now)).(valkey := s.valkey[c.key := Cell(c.token, s.now)])
    case GetAgain(id) =>
      // The token that was there may be gone again: then it goes by its own.
      var c := s.calls[id];
      To(s, id, c.(pc := Keep, token := if c.key in s.valkey then s.valkey[c.key].token else c.token, askedAt := s.now))
    case KeepIt(id) =>
      var c := s.calls[id];
      To(s, id, c.(pc := Have)).(l1 := s.l1[(c.node, c.key) := Kept(c.token, c.askedAt, s.now)])
    case Load(load, id, name) =>
      var c := s.calls[id];
      var item := Item(c.token, name, Source(s.source, c.key));
      s.(loads := s.loads[load := item], served := s.served + {item})
    case Store(load) => s.(cached := s.cached + {s.loads[load]}, loads := s.loads - {load})
    case Hit(id, item) => s.(served := s.served + {item})
    case Vanish(k) => s.(valkey := s.valkey - {k})
    case Wait(d) => s.(now := s.now + d)
  }

  // ------------------------------------------------------------------ what every run keeps

  predicate TokenOf(tokens: map<nat, Mint>, token: nat, k: string) { token in tokens && tokens[token].key == k }

  /** A token asked for by `askedAt` that is not the one in Valkey now was asked for before that was set. */
  predicate AskedBefore(valkey: map<string, Cell>, k: string, token: nat, askedAt: nat) {
    k in valkey && token != valkey[k].token ==> askedAt <= valkey[k].setAt
  }

  predicate CallOk(tokens: map<nat, Mint>, valkey: map<string, Cell>, now: nat, c: Call) {
    && (!c.pc.Ask? ==> TokenOf(tokens, c.token, c.key))
    && (c.pc.Keep? ==> c.askedAt <= now && AskedBefore(valkey, c.key, c.token, c.askedAt))
  }

  predicate KeptOk(tokens: map<nat, Mint>, valkey: map<string, Cell>, now: nat, k: string, kept: Kept) {
    && TokenOf(tokens, kept.token, k) && kept.askedAt <= kept.insertedAt <= now
    && AskedBefore(valkey, k, kept.token, kept.askedAt)
  }

  /** Read no earlier than its token was minted. */
  predicate ItemOk(tokens: map<nat, Mint>, i: Item) { i.token in tokens && tokens[i.token].floor <= i.version }

  ghost predicate TokensOk(source: map<string, nat>, tokens: map<nat, Mint>, bumps: map<nat, string>) {
    && (forall t :: t in tokens ==> tokens[t].floor <= Source(source, tokens[t].key))
    && (forall t :: t in bumps ==> TokenOf(tokens, t, bumps[t]))
  }

  ghost predicate ValkeyOk(tokens: map<nat, Mint>, valkey: map<string, Cell>, now: nat) {
    forall k :: k in valkey ==> TokenOf(tokens, valkey[k].token, k) && valkey[k].setAt <= now
  }

  ghost predicate CallsOk(tokens: map<nat, Mint>, valkey: map<string, Cell>, now: nat, calls: map<nat, Call>) {
    forall id :: id in calls ==> CallOk(tokens, valkey, now, calls[id])
  }

  ghost predicate L1Ok(tokens: map<nat, Mint>, valkey: map<string, Cell>, now: nat, l1: map<(nat, string), Kept>) {
    forall p :: p in l1 ==> KeptOk(tokens, valkey, now, p.1, l1[p])
  }

  ghost predicate ItemsOk(tokens: map<nat, Mint>, loads: map<nat, Item>, cached: set<Item>, served: set<Item>) {
    && (forall l :: l in loads ==> ItemOk(tokens, loads[l]))
    && (forall i :: i in cached ==> ItemOk(tokens, i))
    && (forall i :: i in served ==> ItemOk(tokens, i))
  }

  ghost predicate Inv(s: State) {
    && TokensOk(s.source, s.tokens, s.bumps)
    && ValkeyOk(s.tokens, s.valkey, s.now)
    && CallsOk(s.tokens, s.valkey, s.now, s.calls)
    && L1Ok(s.tokens, s.valkey, s.now, s.l1)
    && ItemsOk(s.tokens, s.loads, s.cached, s.served)
  }

  // ------------------------------------------------------------------ the kinds of step

  lemma MintStep(s: State, token: nat, k: string)
    requires Inv(s) && token !in s.tokens
    ensures Inv(Minted(s, token, k)) && TokenOf(Minted(s, token, k).tokens, token, k)
  {
    hide AskedBefore;
  }

  /** A token of the key goes into Valkey: everything asked for so far was asked for before. */
  lemma SetStep(s: State, k: string, token: nat)
    requires Inv(s) && TokenOf(s.tokens, token, k)
    ensures Inv(s.(valkey := s.valkey[k := Cell(token, s.now)]))
  {
    hide TokensOk, ItemsOk;
  }

  lemma CallStep(s: State, id: nat, c: Call)
    requires Inv(s) && CallOk(s.tokens, s.valkey, s.now, c)
    ensures Inv(To(s, id, c))
  {
    hide TokensOk, ItemsOk, ValkeyOk, L1Ok, CallOk;
  }

  lemma L1Step(s: State, l1: map<(nat, string), Kept>)
    requires Inv(s)
    requires forall p :: p in l1 ==> (p in s.l1 && l1[p] == s.l1[p]) || KeptOk(s.tokens, s.valkey, s.now, p.1, l1[p])
    ensures Inv(s.(l1 := l1))
  {
    hide TokensOk, ItemsOk, ValkeyOk, CallsOk, KeptOk;
  }

  lemma ItemsStep(s: State, loads: map<nat, Item>, cached: set<Item>, served: set<Item>, item: Item)
    requires Inv(s) && ItemOk(s.tokens, item)
    requires forall l :: l in loads ==> (l in s.loads && loads[l] == s.loads[l]) || loads[l] == item
    requires cached <= s.cached + {item} && served <= s.served + {item}
    ensures Inv(s.(loads := loads, cached := cached, served := served))
  {
    hide TokensOk, ValkeyOk, CallsOk, L1Ok, ItemOk;
  }

  lemma VanishStep(s: State, k: string)
    requires Inv(s)
    ensures Inv(s.(valkey := s.valkey - {k}))
  {
    hide TokensOk, ItemsOk;
  }

  lemma WaitStep(s: State, d: nat)
    requires Inv(s)
    ensures Inv(s.(now := s.now + d))
  {
    hide TokensOk, ItemsOk, AskedBefore;
  }

  lemma WriteStep(s: State, k: string)
    requires Inv(s)
    ensures Inv(s.(source := s.source[k := Source(s.source, k) + 1]))
  {
    hide ItemsOk, ValkeyOk, CallsOk, L1Ok;
  }

  // ------------------------------------------------------------------ the steps

  lemma BumpKeeps(s: State, token: nat, k: string)
    requires Inv(s) && Enabled(s, Bump(token, k))
    ensures Inv(Next(s, Bump(token, k)))
  {
    hide ItemsOk, ValkeyOk, CallsOk, L1Ok;
    MintStep(s, token, k);
  }

  lemma SetTokenKeeps(s: State, token: nat)
    requires Inv(s) && Enabled(s, SetToken(token))
    ensures Inv(Next(s, SetToken(token)))
  {
    hide ItemsOk, ValkeyOk, CallsOk, L1Ok;
    SetStep(s, s.bumps[token], token);
  }

  lemma BeginKeeps(s: State, id: nat, n: nat, k: string)
    requires Inv(s) && Enabled(s, Begin(id, n, k))
    ensures Inv(Next(s, Begin(id, n, k)))
  {
    hide TokensOk, ItemsOk, ValkeyOk, CallsOk;
    if InL1(s, n, k) {
      assert KeptOk(s.tokens, s.valkey, s.now, k, s.l1[(n, k)]);
    }
    CallStep(s, id, Next(s, Begin(id, n, k)).calls[id]);
  }

  lemma GetKeeps(s: State, id: nat, newToken: nat)
    requires Inv(s) && Enabled(s, Get(id, newToken))
    ensures Inv(Next(s, Get(id, newToken)))
  {
    hide TokensOk, ItemsOk, CallsOk, L1Ok;
    var c := s.calls[id];
    if c.key in s.valkey {
      CallStep(s, id, c.(pc := Keep, token := s.valkey[c.key].token, askedAt := s.now));
    } else {
      MintStep(s, newToken, c.key);
      CallStep(Minted(s, newToken, c.key), id, c.(pc := TrySet, token := newToken));
    }
  }

  lemma SetNxKeeps(s: State, id: nat)
    requires Inv(s) && Enabled(s, SetNx(id))
    ensures Inv(Next(s, SetNx(id)))
  {
    hide TokensOk, ItemsOk, ValkeyOk, L1Ok;
    var c := s.calls[id];
    assert CallOk(s.tokens, s.valkey, s.now, c);
    if c.key in s.valkey {
      CallStep(s, id, c.(pc := Again));
    } else {
      SetStep(s, c.key, c.token);
      CallStep(s.(valkey := s.valkey[c.key := Cell(c.token, s.now)]), id, c.(pc := Keep, askedAt := s.now));
    }
  }

  lemma GetAgainKeeps(s: State, id: nat)
    requires Inv(s) && Enabled(s, GetAgain(id))
    ensures Inv(Next(s, GetAgain(id)))
  {
    hide TokensOk, ItemsOk, L1Ok;
    var c := s.calls[id];
    assert CallOk(s.tokens, s.valkey, s.now, c);
    CallStep(s, id, Next(s, GetAgain(id)).calls[id]);
  }

  lemma KeepKeeps(s: State, id: nat)
    requires Inv(s) && Enabled(s, KeepIt(id))
    ensures Inv(Next(s, KeepIt(id)))
  {
    hide TokensOk, ItemsOk, L1Ok, ValkeyOk;
    var c := s.calls[id];
    assert CallOk(s.tokens, s.valkey, s.now, c);
    CallStep(s, id, c.(pc := Have));
    var kept := Kept(c.token, c.askedAt, s.now);
    assert KeptOk(s.tokens, s.valkey, s.now, c.key, kept);
    L1Step(To(s, id, c.(pc := Have)), s.l1[(c.node, c.key) := kept]);
  }

  lemma LoadKeeps(s: State, load: nat, id: nat, name: string)
    requires Inv(s) && Enabled(s, Load(load, id, name))
    ensures Inv(Next(s, Load(load, id, name)))
  {
    hide ItemsOk, L1Ok, ValkeyOk;
    var c := s.calls[id];
    assert CallOk(s.tokens, s.valkey, s.now, c);
    var item := Item(c.token, name, Source(s.source, c.key));
    ItemsStep(s, s.loads[load := item], s.cached, s.served + {item}, item);
  }

  lemma StepKeeps(s: State, a: Action)
    requires Inv(s) && Enabled(s, a)
    ensures Inv(Next(s, a))
  {
    hide TokensOk, ValkeyOk, CallsOk, L1Ok, ItemOk;
    match a
    case Write(k) => WriteStep(s, k);
    case Bump(token, k) => BumpKeeps(s, token, k);
    case SetToken(token) => SetTokenKeeps(s, token);
    case Evict(n, k) => L1Step(s, s.l1 - {(n, k)});
    case Begin(id, n, k) => BeginKeeps(s, id, n, k);
    case Get(id, newToken) => GetKeeps(s, id, newToken);
    case SetNx(id) => SetNxKeeps(s, id);
    case GetAgain(id) => GetAgainKeeps(s, id);
    case KeepIt(id) => KeepKeeps(s, id);
    case Load(load, id, name) => LoadKeeps(s, load, id, name);
    case Store(load) => ItemsStep(s, s.loads - {load}, s.cached + {s.loads[load]}, s.served, s.loads[load]);
    case Hit(id, item) => ItemsStep(s, s.loads, s.cached, s.served + {item}, item);
    case Vanish(k) => VanishStep(s, k);
    case Wait(d) => WaitStep(s, d);
  }

  // ------------------------------------------------------------------ runs

  datatype Run = Start | Then(before: Run, action: Action)

  predicate Legal(r: Run)
    decreases r, 0
  {
    r.Then? ==> Legal(r.before) && Enabled(End(r.before), r.action)
  }

  function End(r: Run): State
    requires Legal(r)
    decreases r, 1
  {
    match r
    case Start => INIT
    case Then(before, a) => Next(End(before), a)
  }

  lemma {:induction false} RunKeeps(r: Run)
    requires Legal(r)
    ensures Inv(End(r))
  {
    hide Next, Enabled;
    match r
    case Start =>
    case Then(before, a) =>
      RunKeeps(before);
      StepKeeps(End(before), a);
  }

  /** Run `q` goes on to become run `r`. */
  predicate Continues(q: Run, r: Run) {
    q == r || (r.Then? && Continues(q, r.before))
  }

  /** A token stays what it was minted as. */
  lemma {:induction false} TokenStays(q: Run, r: Run, token: nat)
    requires Legal(r) && Continues(q, r)
    ensures Legal(q) && (token in End(q).tokens ==> token in End(r).tokens && End(r).tokens[token] == End(q).tokens[token])
  {
    hide Next, Enabled;
    if q != r {
      TokenStays(q, r.before, token);
      if token in End(q).tokens {
        StepLeavesTokens(End(r.before), r.action, token);
      }
    }
  }

  lemma StepLeavesTokens(s: State, a: Action, token: nat)
    requires Enabled(s, a) && token in s.tokens
    ensures token in Next(s, a).tokens && Next(s, a).tokens[token] == s.tokens[token]
  {
    hide InL1, Source;
  }

  // ------------------------------------------------------------------ the theorems

  /** Every value cached or served under a token was read from the source after the token was minted. */
  lemma ReadAfterMinting(r: Run, item: Item)
    requires Legal(r) && (item in End(r).cached || item in End(r).served)
    ensures item.token in End(r).tokens && End(r).tokens[item.token].floor <= item.version
  {
    hide Next;
    RunKeeps(r);
    assert ItemOk(End(r).tokens, item);
  }

  /** So whoever holds a token from a bump never gets a value older than what was written before the bump. */
  lemma BumpedReadersSeeTheWrite(before: Run, token: nat, k: string, r: Run, item: Item)
    requires Legal(r) && Continues(Then(before, Bump(token, k)), r) && item in End(r).served && item.token == token
    ensures Legal(before) && Source(End(before).source, k) <= item.version
  {
    TokenStays(Then(before, Bump(token, k)), r, token);
    hide Next;
    ReadAfterMinting(r, item);
  }

  /** A token other than the one in Valkey that a node's L1 still serves was asked for before the one in Valkey
      was set: it is gone within VERSION_L1_TTL, and the delay of the call that inserted it, of being replaced. */
  lemma OldTokensGo(r: Run, n: nat, k: string)
    requires Legal(r) && InL1(End(r), n, k) && k in End(r).valkey
    requires End(r).l1[(n, k)].token != End(r).valkey[k].token
    ensures var s := End(r);
            var kept := s.l1[(n, k)];
            && kept.askedAt <= kept.insertedAt
            && s.now < s.valkey[k].setAt + (kept.insertedAt - kept.askedAt) + VERSION_L1_TTL
  {
    hide Next;
    RunKeeps(r);
    assert KeptOk(End(r).tokens, End(r).valkey, End(r).now, k, End(r).l1[(n, k)]);
  }
}
