/** The encryptor as one call at a time runs it (api/src/key_custody/envelope.rs): its keys, its current
    generation and the loads that failed, over the table of generations. The AEADs and the backends' unwrap
    are functions given with the laws they are relied on for. */
module Envelope {
  import opened Bytes
  import opened Generations

  const LOAD_RETRY: nat := 30_000
  const LOAD_FAILURES_MAX: nat := 1024
  const XCHACHA_NONCE_LEN: nat := 24
  const SALT_LEN: nat := 32
  const GCM_NONCE_LEN: nat := 12

  datatype Cipher = Aes256GcmHkdf | XChaCha20Poly1305

  datatype Encrypted = Encrypted(cipher: Cipher, version: nat, nonce: bytes, ciphertext: bytes)

  /** What goes before an AES-256-GCM message is its key's salt and its IV. */
  function NonceLen(c: Cipher): nat {
    match c
    case Aes256GcmHkdf => SALT_LEN + GCM_NONCE_LEN
    case XChaCha20Poly1305 => XCHACHA_NONCE_LEN
  }

  datatype Suite = Suite(
    seal: (Cipher, nat, bytes, bytes, bytes) -> bytes,
    open: (Cipher, nat, bytes, bytes, bytes) -> Option<bytes>)
  {
    ghost predicate Valid() {
      forall c, k, n, p, a :: |n| == NonceLen(c) ==> open(c, k, n, seal(c, k, n, p, a), a) == Some(p)
    }
  }

  datatype ProviderError = NotLoaded | UnknownVersion | Unavailable | LegacyRefused | BadNonce | DecryptionFailed

  /** Opening a value with the key of its version. */
  function Open(suite: Suite, legacyReads: bool, key: nat, e: Encrypted, aad: bytes): Result<bytes, ProviderError> {
    if e.cipher.XChaCha20Poly1305? && !legacyReads then Err(LegacyRefused)
    else if |e.nonce| != NonceLen(e.cipher) then Err(BadNonce)
    else match suite.open(e.cipher, key, e.nonce, e.ciphertext, aad)
      case Some(plain) => Ok(plain)
      case None => Err(DecryptionFailed)
  }

  /** With the right key a sealed value opens, unless it is of the old cipher and those are not read here. */
  lemma OpensExactly(suite: Suite, legacyReads: bool, key: nat, c: Cipher, v: nat, nonce: bytes, plain: bytes, aad: bytes)
    requires suite.Valid() && |nonce| == NonceLen(c)
    ensures var e := Encrypted(c, v, nonce, suite.seal(c, key, nonce, plain, aad));
            Open(suite, legacyReads, key, e, aad) ==
              if c.XChaCha20Poly1305? && !legacyReads then Err(LegacyRefused) else Ok(plain)
  {
  }

  /** The table of generations, and whether it can be read just now. */
  class Table {
    var rows: map<nat, Row>
    var readable: bool

    constructor (rows: map<nat, Row>, readable: bool)
      ensures this.rows == rows && this.readable == readable
    {
      this.rows, this.readable := rows, readable;
    }

    /** The newest generation of the backend, and the highest of any. */
    method Latest(backend: string) returns (newest: Option<nat>, highest: nat)
      ensures newest.None? <==> OfBackend(rows, backend) == {}
      ensures newest.Some? ==> IsHighest(newest.value, OfBackend(rows, backend))
      ensures IsHighest(highest, rows.Keys)
    {
      newest, highest := None, 0;
      var left := rows.Keys;
      while left != {}
        invariant left <= rows.Keys
        invariant newest.None? ==> forall v :: v in rows && v !in left ==> rows[v].backend != backend
        invariant newest.Some? ==> newest.value in rows && rows[newest.value].backend == backend
        invariant newest.Some? ==> forall v :: v in rows && v !in left && rows[v].backend == backend ==> v <= newest.value
        invariant highest == 0 || highest in rows
        invariant forall v :: v in rows && v !in left ==> v <= highest
        decreases |left|
      {
        var v :| v in left;
        if rows[v].backend == backend && (newest.None? || newest.value < v) {
          newest := Some(v);
        }
        if highest < v {
          highest := v;
        }
        left := left - {v};
      }
      NoneHighest(rows.Keys, highest);
      assert newest.None? ==> OfBackend(rows, backend) == {};
      assert newest.Some? ==> newest.value in OfBackend(rows, backend);
    }

    /** The versions above `after`, newest last. */
    method NewerThan(after: nat) returns (versions: seq<nat>)
      ensures forall v :: v in versions <==> v in rows && after < v
      ensures forall i, j :: 0 <= i < j < |versions| ==> versions[i] < versions[j]
    {
      var left := set v | v in rows && after < v;
      versions := [];
      while left != {}
        invariant forall v :: v in left ==> v in rows && after < v
        invariant forall v :: v in versions ==> v in rows && after < v
        invariant forall v :: v in rows && after < v ==> v in left || v in versions
        invariant forall i, j :: 0 <= i < j < |versions| ==> versions[i] < versions[j]
        invariant forall i, v :: 0 <= i < |versions| && v in left ==> versions[i] < v
        decreases |left|
      {
        var least := LeastOf(left);
        versions := versions + [least];
        left := left - {least};
      }
    }
  }

  method LeastOf(versions: set<nat>) returns (l: nat)
    requires versions != {}
    ensures l in versions && forall v :: v in versions ==> l <= v
  {
    l :| l in versions;
    var left := versions;
    while left != {}
      invariant left <= versions && l in versions
      invariant forall v :: v in versions && v !in left ==> l <= v
      decreases |left|
    {
      var v :| v in left;
      if v < l {
        l := v;
      }
      left := left - {v};
    }
  }

  /** A bound that is in the set, or 0. */
  lemma NoneHighest(versions: set<nat>, h: nat)
    requires (h == 0 || h in versions) && forall v :: v in versions ==> v <= h
    ensures IsHighest(h, versions)
  {
    if h == 0 && h !in versions {
      assert forall v :: v in versions ==> false;
    }
  }

  /** A version newer than every one there is a key of. */
  predicate Above(keys: map<nat, nat>, v: nat) {
    0 < v && forall x :: x in keys ==> x < v
  }

  predicate CanLoad(site: Site, custody: Option<Custody>, rows: map<nat, Row>, v: nat) {
    custody.Some? && v in rows && rows[v].backend in custody.value.backends && KeyOf(site, rows, v).Some?
  }

  /** A load of the version failed less than LOAD_RETRY ago. */
  predicate FailedLately(failures: map<nat, nat>, v: nat, now: nat) {
    v in failures && now < failures[v] + LOAD_RETRY
  }

  class EnvelopeEncryptor {
    const site: Site
    const legacyReads: bool
    const writeCipher: Cipher
    var keys: map<nat, nat>
    var current: nat
    var custody: Option<Custody>
    var failures: map<nat, nat>

    /** Every key is that of its version; the environment's are there; what is current is loaded. */
    ghost predicate Valid(rows: map<nat, Row>)
      reads this
    {
      && (forall v :: v in keys ==> KeyOf(site, rows, v) == Some(keys[v]))
      && (forall v :: v in site.env ==> v in keys)
      && (current == 0 || current in keys)
      && |failures| <= LOAD_FAILURES_MAX
    }

    constructor (site: Site, current: nat, writeCipher: Cipher, legacyReads: bool)
      requires current == 0 || current in site.env
      ensures keys == site.env && this.current == current && custody == None && failures == map[]
      ensures this.site == site && this.writeCipher == writeCipher && this.legacyReads == legacyReads
      ensures forall rows :: Valid(rows)
    {
      this.site, this.current, this.writeCipher, this.legacyReads := site, current, writeCipher, legacyReads;
      keys, custody, failures := site.env, None, map[];
    }

    /** Keep a row's key, if there is a backend for it which is up and gives the key back. */
    method UnwrapRow(v: nat, row: Row, up: bool) returns (ok: bool)
      requires custody.Some?
      modifies this
      ensures custody == old(custody) && failures == old(failures)
      ensures ok <==> up && row.backend in custody.value.backends && site.unwrap(row.backend, v, row.wrapped).Some?
      ensures ok ==> keys == old(keys)[v := site.unwrap(row.backend, v, row.wrapped).value]
      ensures ok ==> current == if custody.value.primary == Some(row.backend) then Max(old(current), v) else old(current)
      ensures !ok ==> keys == old(keys) && current == old(current)
    {
      if row.backend !in custody.value.backends || !up {
        return false;
      }
      match site.unwrap(row.backend, v, row.wrapped) {
        case None => return false;
        case Some(key) =>
          keys := keys[v := key];
          if custody.value.primary == Some(row.backend) && current < v {
            current := v;
          }
          return true;
      }
    }

    /** The table has the version, under a backend this node has and which gives it back. */
    predicate Reachable(rows: map<nat, Row>, v: nat)
      reads this
    {
      CanLoad(site, custody, rows, v)
    }

    /** The key of a version, loaded on first use. One that failed to load is not asked for again for a while. */
    method Key(table: Table, v: nat, now: nat, up: bool) returns (r: Result<nat, ProviderError>)
      requires Valid(table.rows)
      modifies this
      ensures Valid(table.rows) && custody == old(custody)
      ensures r.Ok? <==> v in keys
      ensures r.Ok? ==> KeyOf(site, table.rows, v) == Some(r.value)
      ensures forall x :: x in old(keys) ==> x in keys && keys[x] == old(keys)[x]
      ensures old(current) <= current
      ensures v !in old(keys) ==>
                (r.Ok? <==> table.readable && up && Reachable(table.rows, v) && !FailedLately(old(failures), v, now))
      ensures r.Err? ==>
                r.error == if custody.None? || FailedLately(old(failures), v, now) || (table.readable && v !in table.rows)
                           then UnknownVersion else Unavailable
      ensures forall x :: x in keys ==> x in old(keys) || x == v
      ensures r.Ok? && v !in old(keys) && custody.value.primary == Some(table.rows[v].backend) ==> v <= current
      ensures r.Err? && custody.Some? ==> v in failures && now < failures[v] + LOAD_RETRY
      ensures forall x :: x in failures && (x != v || r.Ok?) ==> x in old(failures) && failures[x] == old(failures)[x]
      ensures r.Ok? || |old(failures)| < LOAD_FAILURES_MAX ==>
                forall x :: x in old(failures) && x != v ==> x in failures && failures[x] == old(failures)[x]
    {
      if v in keys {
        return Ok(keys[v]);
      }
      if custody.None? {
        return Err(UnknownVersion);
      }
      if FailedLately(failures, v, now) {
        return Err(UnknownVersion);
      }
      var error := UnknownVersion;
      if !table.readable {
        error := Unavailable;
      } else if v in table.rows {
        var ok := UnwrapRow(v, table.rows[v], up);
        if ok {
          Fewer(failures, v);
          failures := failures - {v};
          return Ok(keys[v]);
        }
        error := Unavailable;
      }
      if |failures| >= LOAD_FAILURES_MAX {
        failures := map[];
      }
      OneMore(failures, v, now);
      failures := failures[v := now];
      return Err(error);
    }

    /** Under the creation lock: the newest generation of the backend, or a new one when there is none or one
        is asked for. `inUse` is the highest version of a row at rest; `key` is drawn at random, and `wrapped`
        is what the backend made of it. */
    method EnsureGeneration(table: Table, backend: string, force: bool, inUse: nat, key: nat, wrapped: nat, now: nat,
                            up: bool)
      returns (r: Result<(nat, bool), ProviderError>)
      requires Valid(table.rows) && custody.Some?
      modifies this, table`rows
      ensures Valid(table.rows) && custody == old(custody) && old(current) <= current
      ensures r.Ok? ==> table.readable && r.value.0 in keys && r.value.0 in table.rows && table.rows[r.value.0].backend == backend
      ensures r.Ok? ==> (r.value.1 <==> force || OfBackend(old(table.rows), backend) == {})
      ensures r.Ok? && r.value.1 ==>
                && Unused(site, old(table.rows), {inUse}, r.value.0)
                && table.rows == old(table.rows)[r.value.0 := Row(backend, wrapped)]
      ensures r.Ok? && !r.value.1 ==> IsHighest(r.value.0, OfBackend(old(table.rows), backend))
      ensures r.Err? || !r.value.1 ==> table.rows == old(table.rows)
      ensures forall x :: x in old(keys) ==> x in keys && keys[x] == old(keys)[x]
    {
      if backend !in custody.value.backends {
        return Err(NotLoaded);
      }
      if !table.readable {
        return Err(Unavailable);
      }
      var newest, highest := table.Latest(backend);
      if newest.Some? && !force {
        var k :- Key(table, newest.value, now, up);
        return Ok((newest.value, false));
      }
      if !up {
        return Err(Unavailable);
      }
      var version :- Create(table, backend, highest, inUse, key, wrapped);
      return Ok((version, true));
    }

    /** A version above all there are, if the backend gives the key back under it. */
    method Create(table: Table, backend: string, highest: nat, inUse: nat, key: nat, wrapped: nat)
      returns (r: Result<nat, ProviderError>)
      requires Valid(table.rows) && IsHighest(highest, table.rows.Keys)
      modifies this, table`rows
      ensures Valid(table.rows) && custody == old(custody) && current == old(current)
      ensures r.Ok? ==>
                && Unused(site, old(table.rows), {inUse}, r.value) && r.value in keys
                && table.rows == old(table.rows)[r.value := Row(backend, wrapped)]
      ensures r.Err? ==> table.rows == old(table.rows)
      ensures forall x :: x in old(keys) ==> x in keys && keys[x] == old(keys)[x]
    {
      var envHighest := HighestOf(site.env.Keys);
      var version := Max(Max(highest, envHighest), inUse) + 1;
      if site.unwrap(backend, version, wrapped) != Some(key) {
        return Err(Unavailable);
      }
      table.rows := table.rows[version := Row(backend, wrapped)];
      keys := keys[version := key];
      return Ok(version);
    }

    /** Create a generation and make it current. */
    method NewGeneration(table: Table, inUse: nat, key: nat, wrapped: nat, now: nat, up: bool)
      returns (r: Result<nat, ProviderError>)
      requires Valid(table.rows)
      modifies this, table`rows
      ensures Valid(table.rows) && custody == old(custody) && old(current) <= current
      ensures r.Ok? ==> r.value in keys && r.value == current && Unused(site, old(table.rows), {inUse}, r.value)
      ensures r.Err? ==> table.rows == old(table.rows)
    {
      if custody.None? || custody.value.primary.None? {
        return Err(NotLoaded);
      }
      var made :- EnsureGeneration(table, custody.value.primary.value, true, inUse, key, wrapped, now, up);
      if current < made.0 {
        current := made.0;
      }
      return Ok(made.0);
    }

    /** Load the versions in turn, each if it can be. */
    method LoadEach(table: Table, versions: seq<nat>, now: nat, down: set<nat>)
      requires Valid(table.rows) && custody.Some? && table.readable
      modifies this
      ensures Valid(table.rows) && custody == old(custody) && old(current) <= current
      ensures forall x :: x in old(keys) ==> x in keys && keys[x] == old(keys)[x]
      ensures forall v :: v in versions && Reachable(table.rows, v) && v !in down && v !in old(failures) ==> v in keys
      ensures forall v :: v in keys && v !in old(keys) ==>
                Reachable(table.rows, v) && (custody.value.primary == Some(table.rows[v].backend) ==> v <= current)
    {
      ghost var here, rows := custody, table.rows;
      for i := 0 to |versions|
        invariant Valid(table.rows) && custody == here && old(current) <= current
        invariant forall x :: x in old(keys) ==> x in keys && keys[x] == old(keys)[x]
        invariant forall x :: x in failures && CanLoad(site, here, rows, x) && x !in down ==> x in old(failures)
        invariant forall v :: v in versions[..i] && CanLoad(site, here, rows, v) && v !in down && v !in old(failures) ==> v in keys
        invariant forall v :: v in keys && v !in old(keys) ==>
                    CanLoad(site, here, rows, v) && v in rows && (here.value.primary == Some(rows[v].backend) ==> v <= current)
      {
        hide KeyOf, CanLoad;
        var k := Key(table, versions[i], now, versions[i] !in down);
        assert versions[..i + 1] == versions[..i] + [versions[i]];
      }
      assert versions[..|versions|] == versions;
    }

    /** Adopt the generations others created since: those of the table above all that are known. `down` are the
        versions whose backend does not answer just now. */
    method Refresh(table: Table, now: nat, down: set<nat>) returns (r: Result<(), ProviderError>)
      requires Valid(table.rows)
      modifies this
      ensures r == if custody.Some? && !table.readable then Err(Unavailable) else Ok(())
      ensures r.Err? ==> keys == old(keys) && current == old(current) && failures == old(failures)
      ensures Valid(table.rows) && custody == old(custody) && old(current) <= current
      ensures forall x :: x in old(keys) ==> x in keys && keys[x] == old(keys)[x]
      ensures r.Ok? ==> forall v :: v in table.rows && Above(old(keys), v) && v !in down && v !in old(failures) ==>
                (v in keys <==> Reachable(table.rows, v))
      ensures forall v :: v in keys && v !in old(keys) ==>
                v in table.rows && custody.Some? && (custody.value.primary == Some(table.rows[v].backend) ==> v <= current)
    {
      if custody.None? {
        return Ok(());
      }
      if !table.readable {
        return Err(Unavailable);
      }
      var seen := HighestOf(keys.Keys);
      var newer := table.NewerThan(seen);
      LoadEach(table, newer, now, down);
      return Ok(());
    }

    /** Unwrap the table's rows in turn, unless one is of a version the environment defines too. */
    method UnwrapAll(rows: map<nat, Row>, order: seq<nat>, down: set<nat>) returns (clear: bool)
      requires Valid(rows) && custody.Some? && forall v :: v in order <==> v in rows
      modifies this
      ensures Valid(rows) && custody == old(custody)
      ensures clear <==> forall v :: v in rows ==> v !in site.env
      ensures clear ==> forall v :: v in rows && v !in down && Reachable(rows, v) ==> v in keys
    {
      for i := 0 to |order|
        invariant Valid(rows) && custody == old(custody)
        invariant forall j :: 0 <= j < i ==> order[j] !in site.env
        invariant forall j :: 0 <= j < i && order[j] !in down && Reachable(rows, order[j]) ==> order[j] in keys
      {
        var v := order[i];
        assert v in rows;
        if v in site.env {
          return false;
        }
        var ok := UnwrapRow(v, rows[v], v !in down);
      }
      return true;
    }

    /** Read the table once and unwrap what can be; a node without a backend starts even where it cannot be
        read. With a primary backend, settle on its newest generation, or on the first one, made here or by
        another node meanwhile. `order` is the versions in order. */
    method AttachTo(table: Table, backends: set<string>, primary: Option<string>, order: seq<nat>,
                    inUse: nat, key: nat, wrapped: nat, now: nat, down: set<nat>, up: bool)
      returns (r: Result<(), ProviderError>)
      requires Valid(table.rows) && (forall v :: v in order <==> v in table.rows)
      modifies this, table`rows
      ensures Valid(table.rows)
      ensures r.Ok? ==> old(custody).None? && custody == Some(Custody(backends, primary))
      ensures r.Ok? && table.readable ==> forall v :: v in old(table.rows) ==> v !in site.env
      ensures !table.readable && old(custody).None? ==>
                && (r.Ok? <==> primary.None? && backends == {})
                && keys == old(keys) && current == old(current) && table.rows == old(table.rows)
      ensures r.Ok? ==> forall v :: v in old(table.rows) && v !in down && Reachable(old(table.rows), v) ==> v in keys
      ensures r.Ok? && primary.Some? ==>
                && current in keys && current in table.rows && table.rows[current].backend == primary.value
                && (OfBackend(old(table.rows), primary.value) != {} ==> IsHighest(current, OfBackend(old(table.rows), primary.value)))
      ensures forall v :: v in old(table.rows) ==> v in table.rows && table.rows[v] == old(table.rows)[v]
    {
      if primary.Some? && primary.value !in backends {
        return Err(NotLoaded);
      }
      if custody.Some? {
        return Err(NotLoaded);
      }
      custody := Some(Custody(backends, primary));
      if !table.readable {
        if primary.None? && backends == {} {
          return Ok(());
        }
        return Err(Unavailable);
      }
      var clear := UnwrapAll(table.rows, order, down);
      if !clear {
        return Err(UnknownVersion);
      }
      if primary.Some? {
        var newest, _ := table.Latest(primary.value);
        var version: nat;
        if newest.Some? {
          version := newest.value;
        } else {
          var made :- EnsureGeneration(table, primary.value, false, inUse, key, wrapped, now, up);
          version := made.0;
        }
        if version !in keys {
          return Err(Unavailable);
        }
        current := version;
      }
      return Ok(());
    }

    /** What it gives names the current generation, and opens to the plaintext under that generation's key, the
        one every node has for it, wherever its cipher is read. */
    method Encrypt(suite: Suite, ghost rows: map<nat, Row>, plain: bytes, aad: bytes, nonce: bytes)
      returns (r: Result<Encrypted, ProviderError>)
      requires Valid(rows) && |nonce| == NonceLen(writeCipher)
      ensures r.Ok? <==> current in keys
      ensures r.Err? ==> r.error.NotLoaded?
      ensures r.Ok? ==> r.value == Encrypted(writeCipher, current, nonce, suite.seal(writeCipher, keys[current], nonce, plain, aad))
      ensures r.Ok? && suite.Valid() ==>
                && KeyOf(site, rows, current).Some?
                && forall legacy :: Open(suite, legacy, KeyOf(site, rows, current).value, r.value, aad) ==
                     if writeCipher.XChaCha20Poly1305? && !legacy then Err(LegacyRefused) else Ok(plain)
    {
      if current !in keys {
        return Err(NotLoaded);
      }
      var e := Encrypted(writeCipher, current, nonce, suite.seal(writeCipher, keys[current], nonce, plain, aad));
      forall legacy | suite.Valid()
        ensures Open(suite, legacy, keys[current], e, aad) ==
                  if writeCipher.XChaCha20Poly1305? && !legacy then Err(LegacyRefused) else Ok(plain)
      {
        OpensExactly(suite, legacy, keys[current], writeCipher, current, nonce, plain, aad);
      }
      return Ok(e);
    }

    method Decrypt(suite: Suite, table: Table, e: Encrypted, aad: bytes, now: nat, up: bool)
      returns (r: Result<bytes, ProviderError>)
      requires Valid(table.rows)
      modifies this
      ensures Valid(table.rows)
      ensures e.cipher.XChaCha20Poly1305? && !legacyReads ==> r == Err(LegacyRefused)
      ensures e.version in keys ==>
                && KeyOf(site, table.rows, e.version).Some?
                && r == Open(suite, legacyReads, KeyOf(site, table.rows, e.version).value, e, aad)
      ensures e.version !in keys ==> r.Err?
      ensures e.version in old(keys) ==> e.version in keys
    {
      if e.cipher.XChaCha20Poly1305? && !legacyReads {
        return Err(LegacyRefused);
      }
      var key :- Key(table, e.version, now, up);
      return Open(suite, legacyReads, key, e, aad);
    }
  }

  method HighestOf(versions: set<nat>) returns (h: nat)
    ensures IsHighest(h, versions)
  {
    h := 0;
    var left := versions;
    while left != {}
      invariant left <= versions && (h == 0 || h in versions)
      invariant forall v :: v in versions && v !in left ==> v <= h
      decreases |left|
    {
      var v :| v in left;
      if h < v {
        h := v;
      }
      left := left - {v};
    }
    NoneHighest(versions, h);
  }

  lemma Fewer(m: map<nat, nat>, k: nat)
    ensures |m - {k}| <= |m|
  {
    assert m.Keys - {k} == (m - {k}).Keys;
    if k in m {
      assert m.Keys == (m - {k}).Keys + {k};
    } else {
      assert m - {k} == m;
    }
  }

  lemma OneMore(m: map<nat, nat>, k: nat, v: nat)
    ensures |m[k := v]| <= |m| + 1
  {
    assert m[k := v].Keys == m.Keys + {k};
  }

  /** In every run of the nodes: what any of them sealed, every node that has the generation decrypts, as does
      every node that can load it once it has; unless it is of the old cipher and the node does not read that. */
  lemma AnyNodeDecrypts(suite: Suite, legacyReads: bool, r: Run, b: Blob, n: nat, c: Cipher, nonce: bytes, plain: bytes,
                        aad: bytes)
    requires suite.Valid() && |nonce| == NonceLen(c)
    requires Legal(r) && b in End(r).stored && n in End(r).nodes
    ensures var s, site := End(r), r.Where();
            var e := Encrypted(c, b.version, nonce, suite.seal(c, b.key, nonce, plain, aad));
            var result := if c.XChaCha20Poly1305? && !legacyReads then Err(LegacyRefused) else Ok(plain);
            && (b.version in s.nodes[n].keys ==> Open(suite, legacyReads, s.nodes[n].keys[b.version], e, aad) == result)
            && (b.version !in s.nodes[n].keys ==>
                  && b.version in s.table
                  && (Loadable(site, s.nodes[n], b.version, s.table[b.version]) ==>
                        Open(suite, legacyReads, Loaded(site, s.nodes[n], b.version, s.table[b.version]).keys[b.version], e, aad) == result))
  {
    hide Open, Legal, End;
    EveryBlobOpens(r, b, n);
    OpensExactly(suite, legacyReads, b.key, c, b.version, nonce, plain, aad);
  }
}
