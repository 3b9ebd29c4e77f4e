# rIDM protocols, verified

A Dafny model of four parts of rIDM, with proofs of what they promise.

**Kerberos** (`api/src/kerberos`). The DER reader and encoder, SPNEGO framing (section 4.2 of RFC 4178),
principal names, keytab files, n-fold (section 5.1 of RFC 3961), AES with ciphertext stealing and both kinds
of authenticated encryption (RFC 3962, RFC 8009), the AP-REQ acceptor (section 3.2.3 of RFC 4120), and the
key distribution center and client the repository's own tests use. All of it is concrete except AES on one
block, HMAC, SHA-256 and the calendar, which are functions with the laws the code relies on (`Primitives.Env`).
Each message format is a function; the readers, loops and buffers are methods proved equal to those functions;
the laws are lemmas about the functions.

**The two-tier cache** (`api/src/cache`). The in-process cache, the Valkey tier and their combination over
any number of nodes are step machines: an action is one atomic step of one actor, a run is any sequence of
enabled actions, and the theorems are about the end of every run. Values are version numbers of the source
they were read from, so "older" is `<`. The same operations are also classes whose methods run one call at
a time.

**Placements and leases** (`api/src/db/router.rs`, `api/src/jobs/leader.rs`). Timed machines over a registry
that anyone may change, and over keys that expire; times are natural numbers of milliseconds.

**Master-key generations** (`api/src/key_custody`). Nodes that share an environment and a table create, adopt
and load generations and encrypt under a current one. The AEADs and the backends' wrapping are functions with
the laws relied on.

| file | what it holds |
|---|---|
| `Arith`, `Bytes`, `Utf8`, `Primitives` | arithmetic laws, big-endian numbers, UTF-8, foreign functions |
| `Der`, `DerReader` | DER as functions, and the cursor over it |
| `Spnego`, `Principals`, `Keytab` | framing, names, key files |
| `NFold`, `Aes`, `AesBuffers`, `Crypto` | key derivation and encryption |
| `Acceptor`, `AcceptorReader`, `Kdc` | accepting a request, as functions and as it runs; issuing one; end to end |
| `L1`, `Valkey`, `Coherence`, `Versions`, `Gates`, `Layer` | the cache |
| `Router`, `Leases` | placements, leader locks |
| `Generations`, `Envelope` | master keys |

## What does not hold as one might expect

Each of these has a lemma that shows it, and a theorem that says when the expectation does hold.

- An L1 entry older than a finished eviction can survive it: if the record of the eviction is forgotten while a load
  whose ticket has no record is still to recheck, that load's entry survives exactly when its value is older
  (`L1Runs.ForgettingLeaves`). Otherwise none does (`L1Runs.RememberingSees`, `L1Runs.NoneSurvives`). In time: with
  records kept for EVICTION_MEMORY, a bound on how long after its ticket a load rechecks keeps evicted values out if
  and only if it is no longer than EVICTION_MEMORY (`L1Runs.MemoryIsExact`). A run is careful if either keeps evicted
  values out: what it forgets, or how long its loads take. In any run an old entry expires on its own time
  (`L1Runs.OldEntriesExpire`).
- A load that writes to Valkey as late as the hold after its read puts an older value back
  (`Valkey.SlowLoadPutsBack`). A bound on how long loads take keeps older values out if and only if it is no
  longer than the hold (`Valkey.HoldIsExact`).
- The node that invalidates is not covered by its own invalidation: it can keep the old value with every step
  finished (`InvalidatingNode.InvalidatorCanStayStale`). It does so only by a load whose ticket is newer than the
  mark of the node's own eviction and which read, from Valkey, no later than the hold was placed; without such a
  load it is clean (`Coherence.StaleIsInWindow`, `Coherence.CleanOutsideWindow`). In that window a load that finds
  the key in Valkey leaves the node stale exactly when what it finds is older (`InvalidatingNode.WindowIsReal`).
  How long that lasts is bounded (`Coherence.StaleIsBounded`).
- A node's current generation can step back while it attaches (`AttachStepsBack.CurrentCanStepBack`), exactly when
  the generation it settles on is older than one it loaded or made meanwhile (`Generations.CurrentSteps`); once
  attached it never does.
- Printing and parsing a principal is the identity exactly on complete names without outer white space whose
  printed form fits (`Principals.RoundTrip`); what comes back otherwise is given for every principal
  (`Principals.ParseDisplay`).

## Model

| member | source | states |
|---|---|---|
| `Der.ReadTlv` | api/src/kerberos/der.rs:59-209 | reading an encoded item followed by any bytes gives back its tag and content and leaves those bytes, for every single-byte tag and content under 2^24 bytes |
| `Der.LongTlvRefused` | api/src/kerberos/der.rs:59-88 | longer contents are refused |
| `Der.SingleTlv` | api/src/kerberos/der.rs:134-141 | an item alone is read whole |
| `Der.TrailingRefused` | api/src/kerberos/der.rs:134-141 | one with anything after it is refused |
| `Der.ExplicitTlv` | api/src/kerberos/der.rs:108-240 | a wrapped field is found, required or optional, and what follows it is left; how much wrapping adds |
| `Der.ExplicitOptAbsent` | api/src/kerberos/der.rs:99-120 | an optional field that is another field is absent, and nothing is consumed |
| `Der.EncIntDecodes` | api/src/kerberos/der.rs:144-228 | decoding undoes encoding for every 64-bit integer |
| `Der.EncIntShortest` | api/src/kerberos/der.rs:144-228 | no shorter content decodes to the same integer |
| `Der.ExplicitInt` | api/src/kerberos/der.rs:108-228 | an integer field reads back to its value |
| `DerReader.Reader.NextItem` | api/src/kerberos/der.rs:59-88 | the cursor gives the item, or the error, that the grammar gives, moves past it, and on an error stays |
| `DerReader.Reader.ExpectTag` | api/src/kerberos/der.rs:91-97 | the same for an item of a given tag |
| `DerReader.Reader.OptionalTag` | api/src/kerberos/der.rs:99-106 | the same for an optional item |
| `DerReader.Reader.ExplicitField` | api/src/kerberos/der.rs:108-112 | the same for a wrapped field |
| `DerReader.Reader.ExplicitOptField` | api/src/kerberos/der.rs:114-120 | the same for an optional wrapped field |
| `DerReader.Reader.SkipFieldsUntil` | api/src/kerberos/der.rs:122-131 | skipping stops in front of the wanted field, and always stops |
| `DerReader.SingleItem` | api/src/kerberos/der.rs:134-141 | the one item a buffer holds |
| `DerReader.IntOf` | api/src/kerberos/der.rs:144-153 | the shifting loop computes the two's complement value |
| `DerReader.EncodeInt` | api/src/kerberos/der.rs:216-228 | the trimming loop computes the shortest encoding |
| `Utf8.DecodeExactly` | api/src/kerberos/der.rs:157-162 | bytes decode to a text exactly when they are its encoding |
| `Spnego.ParseWrapped` | api/src/kerberos/spnego.rs:61-192 | for every AP-REQ, both mechanisms, framed or bare: parsing the token made around it gives it, its mechanism and framing back exactly when the frame fits in a length the reader takes, and is refused for its length otherwise |
| `Spnego.AnswerBack` | api/src/kerberos/spnego.rs:148-220 | there is an answer exactly when the offer was framed or there is an AP-REP, and the client gets that AP-REP, or none, out of it exactly when it fits |
| `Spnego.ReadToken` | api/src/kerberos/spnego.rs:61-80 | the readers compute the parse |
| `Spnego.ReadSpnego` | api/src/kerberos/spnego.rs:113-142 | the same for the negotiation token |
| `Spnego.ReadGssFrame` | api/src/kerberos/spnego.rs:93-98 | the same for the outer frame |
| `Spnego.ReadApReq` | api/src/kerberos/spnego.rs:101-110 | the same for the inner token |
| `Principals.ParseDisplay` | api/src/kerberos/principal.rs:19-100 | for every principal: what parsing its printed form gives, and when it is an error |
| `Principals.RoundTrip` | api/src/kerberos/principal.rs:19-100 | parsing undoes printing exactly for complete names with no outer white space that fit, whatever slashes, at-signs and backslashes they hold |
| `Principals.PrintingInjective` | api/src/kerberos/principal.rs:79-100 | so no two of those print alike |
| `Principals.ParseText` | api/src/kerberos/principal.rs:19-57 | the character loop computes the scan |
| `Principals.EscapeText` | api/src/kerberos/principal.rs:79-87 | the escaping loop, likewise |
| `Principals.PrintText` | api/src/kerberos/principal.rs:89-100 | the printing loop, likewise |
| `Keytab.ParsePrefix` | api/src/kerberos/keytab.rs:144-253 | a written file with holes anywhere, cut anywhere: at a record's end it gives exactly the entries before the cut, anywhere else an error |
| `Keytab.RoundTrip` | api/src/kerberos/keytab.rs:144-253 | such a file uncut gives its entries in order, both widths of version number and unsupported types kept |
| `Keytab.ParseWritten` | api/src/kerberos/keytab.rs:144-253 | parsing undoes writing exactly for the lists of well-formed entries within the limits |
| `Keytab.ParsedIsWellFormed` | api/src/kerberos/keytab.rs:144-228 | whatever the file, what is read from it is well formed and within the limits |
| `Keytab.KeyRecordValues` | api/src/kerberos/keytab.rs:230-253 | what a list of well-formed entries is written as has those entries as its values |
| `Keytab.WriteEntries` | api/src/kerberos/keytab.rs:230-253 | for any entries, the writing loop makes the file of their records, fields cut to their widths |
| `Keytab.WrittenRecords` | api/src/kerberos/keytab.rs:230-253 | of well-formed entries those are records that hold them |
| `Keytab.ReadFile` | api/src/kerberos/keytab.rs:144-184 | the reading loop computes the parse, errors included |
| `Keytab.ReadEntry` | api/src/kerberos/keytab.rs:186-228 | the same for one record |
| `Keytab.ReadTexts` | api/src/kerberos/keytab.rs:193-196 | the same for its components |
| `Keytab.ReadKey` | api/src/kerberos/keytab.rs:197-227 | the same for its key and its late version number |
| `Keytab.Cursor.TakeBytes` | api/src/kerberos/keytab.rs:106-113 | the cursor gives the bytes and moves past them, or fails |
| `Keytab.Cursor.TakeNumber` | api/src/kerberos/keytab.rs:115-127 | the same for big-endian numbers |
| `Keytab.Cursor.TakeCounted` | api/src/kerberos/keytab.rs:129-132 | the same for counted bytes |
| `Keytab.Cursor.TakeText` | api/src/kerberos/keytab.rs:134-140 | the same for text |
| `Records.PrefixBack` | api/src/kerberos/keytab.rs:144-184 | the record framing alone, for any record codec: a cut stream of records parses exactly when the cut is at a boundary, to the values before it |
| `NFold.StreamByteIsRotated` | api/src/kerberos/aes.rs:321-326 | the byte the loop picks by bit arithmetic is byte i of the copies of the input, each rotated 13 bits further right |
| `NFold.LcmIsLeast` | api/src/kerberos/aes.rs:314-344 | the length folded over is the least common multiple |
| `NFold.Compute` | api/src/kerberos/aes.rs:311-340 | n-fold computes the one's-complement sum of the chunks of that stream, for all non-empty inputs and positive lengths |
| `NFold.FoldedIsCongruent` | api/src/kerberos/aes.rs:311-340 | read big-endian that is congruent to the sum of the chunks modulo 256^n - 1, and zero only if the sum is |
| `NFold.AddStream` | api/src/kerberos/aes.rs:318-330 | the carry is at most 1 after every byte, and with it the sum so far is kept |
| `NFold.EndAround` | api/src/kerberos/aes.rs:331-338 | the end-around carry loop stops, with the folded value |
| `NFold.AddCarry` | api/src/kerberos/aes.rs:333-337 | one pass adds the carry and hands on what overflows |
| `Aes.CtsDecryptEncrypt` | api/src/kerberos/aes.rs:223-278 | decryption undoes encryption and length is kept, for every text of at least a block and any invertible block function |
| `Aes.CtsEncryptDecrypt` | api/src/kerberos/aes.rs:223-278 | and the other way round |
| `AesBuffers.EncryptBlocks` | api/src/kerberos/aes.rs:207-212 | chaining in place over a buffer is block chaining of what it held |
| `AesBuffers.DecryptBlocks` | api/src/kerberos/aes.rs:214-221 | the same for decrypting |
| `AesBuffers.StealEncrypt` | api/src/kerberos/aes.rs:226-244 | padding, chaining in place, swapping and cutting is the stealing encryption |
| `AesBuffers.StealDecrypt` | api/src/kerberos/aes.rs:246-278 | putting the stolen bytes back is the stealing decryption |
| `Aes.DeriveDk` | api/src/kerberos/aes.rs:280-292 | the chained derivation loop gives the first bytes of the chain of encryptions of the folded constant |
| `Aes.DeriveKdf` | api/src/kerberos/aes.rs:293-309 | the counter loop gives the first bytes of the counter-mode stream |
| `Aes.DecryptUndoesEncrypt` | api/src/kerberos/aes.rs:117-167 | what is encrypted decrypts, and how long it is |
| `Aes.EncryptUndoesDecrypt` | api/src/kerberos/aes.rs:117-167 | whatever decrypts is an encryption of it under some confounder |
| `Aes.DecryptExactly` | api/src/kerberos/aes.rs:117-167 | for every profile, right-length key and usage: decrypting gives a text on exactly the encryptions of that text, in both kinds |
| `Crypto.RoundTrip` | api/src/kerberos/crypto.rs:23-62 | by type number: a right-length key decrypts what it encrypted |
| `Crypto.TablesAgree` | api/src/kerberos/keytab.rs:28-39 | the keytab's table of types and the cipher's agree, key lengths included |
| `Acceptor.SameService` | api/src/kerberos/acceptor.rs:142-185 | the service read by skipping fields is the one read by parsing them |
| `Acceptor.ServiceAgrees` | api/src/kerberos/acceptor.rs:142-185 | for every byte string: past the service check, the service seen first is the configured one; refused for its service, it is the one reported |
| `AcceptorReader.ReadPrincipal` | api/src/kerberos/acceptor.rs:101-123 | the component loop computes the name, with its limits and errors |
| `AcceptorReader.ReadEncryptedData` | api/src/kerberos/acceptor.rs:88-98 | the reader computes the encrypted part |
| `AcceptorReader.ReadEncryptionKey` | api/src/kerberos/acceptor.rs:130-137 | the same for a key |
| `AcceptorReader.ReadService` | api/src/kerberos/acceptor.rs:142-153 | the same for the service, skipping to it |
| `AcceptorReader.ReadRequestFields` | api/src/kerberos/acceptor.rs:157-174 | the same for the request |
| `AcceptorReader.ReadTicketHead` | api/src/kerberos/acceptor.rs:176-182 | the same for the ticket up to its encrypted part |
| `AcceptorReader.KeepCandidates` | api/src/kerberos/acceptor.rs:187-195 | the filter keeps, in order, the keys of the type, service and version asked for |
| `AcceptorReader.FirstThatOpens` | api/src/kerberos/acceptor.rs:202-208 | the loop gives the first that decrypts, or the last failure |
| `AcceptorReader.UnlockTicket` | api/src/kerberos/acceptor.rs:186-209 | opening the ticket, its failures told apart |
| `AcceptorReader.ReadTicketPart` | api/src/kerberos/acceptor.rs:211-226 | the reader computes the ticket's contents |
| `AcceptorReader.AnyRealm` | api/src/kerberos/acceptor.rs:237-241 | the realm is listed, ignoring case |
| `AcceptorReader.CheckTicketPart` | api/src/kerberos/acceptor.rs:227-251 | the checks on it, in their order; it passes exactly when valid, in time, of a listed realm and with a session key the authenticator's type fits |
| `AcceptorReader.ReadMutualFlag` | api/src/kerberos/acceptor.rs:273-285 | the checksum's flag, with its malformed cases |
| `AcceptorReader.ReadAuthenticator` | api/src/kerberos/acceptor.rs:261-294 | the authenticator: same client, and fresh |
| `AcceptorReader.AcceptRequest` | api/src/kerberos/acceptor.rs:157-309 | the whole of accepting, stage by stage |
| `Kdc.EncNameBack` | api/src/kerberos/testing.rs:54-67 | a realm and a name are read back by the acceptor |
| `Kdc.RequestBack` | api/src/kerberos/testing.rs:216-228 | so is the AP-REQ, with its ticket and sealed authenticator |
| `Kdc.TicketBack` | api/src/kerberos/testing.rs:167-179 | so is the ticket |
| `Kdc.PartBack` | api/src/kerberos/testing.rs:129-164 | so is its encrypted part |
| `Kdc.AuthenticatorBack` | api/src/kerberos/testing.rs:181-209 | the authenticator passes exactly when it names the ticket's client and is within the skew |
| `Kdc.ApRepVerifies` | api/src/kerberos/testing.rs:246-270 | the AP-REP the acceptor builds passes the client's check |
| `Kdc.IssuedAccepted` | api/src/kerberos/acceptor.rs:157-309 | accepting what was issued refuses it for the first condition it breaks, and otherwise grants it |
| `Kdc.EndToEnd` | api/src/kerberos/testing.rs:128-270 | for every request with well-formed names and times: the token carries it; it is refused for the stated reason or granted, naming its client and times and with its own replay key; and the AP-REP in the answer is the acceptor's |
| `Kdc.AcceptedExactlyWhenAcceptable` | api/src/kerberos/acceptor.rs:157-345 | accepted if and only if service, version, flag, times, realm, clients and clock agree; then it names the client, and proves itself to it exactly if asked |
| `L1.FreshUnlessSpoiled` | api/src/cache/l1.rs:90-146 | over any sequence of calls: a ticket is still good if and only if its key was not evicted nor the cache cleared since |
| `L1.L1Cache.TakeTicket` | api/src/cache/l1.rs:90-95 | a ticket is the key's last eviction and the last clear |
| `L1.L1Cache.Get` | api/src/cache/l1.rs:124-126 | the value held, if any |
| `L1.L1Cache.Put` | api/src/cache/l1.rs:128-134 | an entry for no time is a removal |
| `L1.L1Cache.PutFresh` | api/src/cache/l1.rs:101-122 | with anything other callers do before and after its insertion: it is taken if and only if the ticket was good and none of that spoiled it, and otherwise undone |
| `L1.L1Cache.Evict` | api/src/cache/l1.rs:136-140 | the key is gone and its tickets spoiled |
| `L1.L1Cache.EvictAll` | api/src/cache/l1.rs:142-146 | all are gone and every ticket spoiled |
| `L1Runs.SeesEviction` | api/src/cache/l1.rs:101-122 | a loader whose ticket missed an eviction of its key finds the same mark if and only if its ticket has no record and the eviction's is gone, though marks may be written out of order |
| `L1Runs.SeesClear` | api/src/cache/l1.rs:101-122 | one whose ticket missed a clear always finds another |
| `L1Runs.StepKeeps` | api/src/cache/l1.rs:54-146 | every step of every actor keeps the invariant |
| `L1Runs.OutdatedOnlyWhileRechecking` | api/src/cache/l1.rs:54-146 | in every interleaving, an entry older than a finished eviction or clear is there only while its loader has still to recheck or undo, or if its loader passed the recheck with that eviction's record gone, which a careful run never does |
| `L1Runs.NoneSurvives` | api/src/cache/l1.rs:54-146 | so in a careful run none is there once its loader has finished |
| `L1Runs.OldEntriesExpire` | api/src/cache/l1.rs:25-41 | in every run, evictions or not, an entry expires within its time to live, and its loader's delay, of the floor that made it old |
| `L1Runs.OverlooksBlind` | api/src/cache/l1.rs:101-122 | an eviction is overlooked only by a recheck under a ticket without a record, with none there |
| `L1Runs.RememberingSees` | api/src/cache/l1.rs:43-55 | none is, if no record is forgotten while an older ticket without one has still to recheck |
| `L1Runs.PromptSees` | api/src/cache/l1.rs:54-55 | nor if records are kept for EVICTION_MEMORY and loads recheck sooner after their ticket |
| `L1Runs.ForgettingLeaves` | api/src/cache/l1.rs:54-55 | from every reachable state: forgetting a record under a load with no record in its ticket leaves an entry that survives a finished eviction exactly when its value is older |
| `L1Runs.SlowLoadSurvives` | api/src/cache/l1.rs:54-55 | a run that keeps its records, with a load rechecking EVICTION_MEMORY after its ticket, and an entry that survives |
| `L1Runs.MemoryIsExact` | api/src/cache/l1.rs:54-55 | for every d: no entry survives its eviction in any run that keeps its records and whose loads recheck less than d after their ticket, if and only if d is at most EVICTION_MEMORY |
| `Valkey.StepKeeps` | api/src/cache/layer.rs:35-54 | every step keeps the invariant of holds, loads and cells |
| `Valkey.NothingOlderAfterInvalidation` | api/src/cache/layer.rs:197-475 | if every load writes less than the hold after its read, then after any invalidation no read gives a value older than the write behind it, for any overlap |
| `Valkey.SlowLoadPutsBack` | api/src/cache/layer.rs:41-54 | a run whose loads take at most the hold, and which reads below the floor of a hold |
| `Valkey.HoldIsExact` | api/src/cache/layer.rs:41-54 | for every d: no run whose loads all take less than d ever reads below a hold's floor, if and only if d is at most INVALIDATION_HOLD |
| `Layer.Spread` | api/src/cache/layer.rs:56-65 | the spread is at most a tenth either way |
| `Layer.Server.SetUnlessInvalidated` | api/src/cache/layer.rs:44-54 | a loader's write goes through exactly when the last thing done to the key was no hold, or one whose time is up |
| `Layer.Server.Hold` | api/src/cache/layer.rs:366-376 | a hold goes over whatever is there |
| `Layer.Server.Read` | api/src/cache/layer.rs:446-462 | by what was last done to the key: what a loader wrote, while its time lasts; a miss after a hold, or when that time is up, or when nothing was done |
| `Layer.HoldOutlasts` | api/src/cache/layer.rs:35-54 | whatever loaders try before a hold ends, the key reads as a miss until it does |
| `Layer.CacheLayer.GetOrLoad` | api/src/cache/layer.rs:134-245 | the first tier that has the key answers; only a miss loads; a failure changes nothing; the answer is kept in L1, and in Valkey unless held; no other key is touched |
| `Layer.CacheLayer.Invalidate` | api/src/cache/layer.rs:336-383 | afterwards the keys are gone from both L1 caches and their tickets spoiled, a hold is the last thing done to each, and one message with them is out; no other key, and no ticket for one, is touched |
| `Layer.CacheLayer.Handle` | api/src/cache/layer.rs:423-442 | another's keys are gone from both L1 caches and their tickets spoiled, no other key or ticket is touched; the own message changes nothing |
| `Layer.CacheLayer.Subscribed` | api/src/cache/layer.rs:407-420 | everything is gone and every ticket spoiled |
| `Coherence.ReadsReachFloor` | api/src/cache/layer.rs:134-245 | no read of either tier below L1 gives less than what the holds placed so far stand for |
| `Coherence.StepKeeps` | api/src/cache/layer.rs:134-444 | every step of nodes, Valkey and channel keeps the system's invariant |
| `Coherence.NodeRunIsLegal` | api/src/cache/layer.rs:134-444 | what any node's L1 does in a run of the system is a run of L1 by itself |
| `Coherence.CarefulSees` | api/src/cache/l1.rs:54-55 | so with its records kept long enough no load on a node overlooks an eviction |
| `Coherence.EvictedNodesAreClean` | api/src/cache/layer.rs:336-444 | a node that finished an eviction or clear begun after the hold never again keeps an older value, but by a load that overlooked such an eviction; with records kept long enough, never |
| `Coherence.ListenersEvict` | api/src/cache/layer.rs:385-444 | a listening node other than the invalidator, with the message behind it or having cleared since, has done so |
| `Coherence.StaleIsBounded` | api/src/cache/layer.rs:56-195 | on every node, whatever its L1 forgets, an older value is gone within 11/10 of l1_ttl and its loader's delay of the hold |
| `Coherence.StaleIsInWindow` | api/src/cache/layer.rs:336-432 | on the invalidating node, once the hold is placed, an older value is there only by a loader with a ticket newer than the node's own eviction that read it from Valkey by the hold, or one that overlooked that eviction |
| `Coherence.CleanOutsideWindow` | api/src/cache/layer.rs:336-432 | so without such a loader, and with records kept long enough, the invalidating node is clean |
| `InvalidatingNode.InvalidatorCanStayStale` | api/src/cache/layer.rs:336-444 | a run in which the invalidating node keeps one though everything has finished |
| `InvalidatingNode.HitLeavesStale` | api/src/cache/layer.rs:154-160 | from every reachable state, a load that hits Valkey and goes on unspoiled leaves its node below a floor exactly when what it found was |
| `InvalidatingNode.WindowIsReal` | api/src/cache/layer.rs:336-383 | from every reachable state in the window, such a load leaves the invalidating node stale past the hold exactly when what it found was older than the write |
| `Versions.ReadAfterMinting` | api/src/cache/layer.rs:267-333 | every value cached or served under a token was read after the token was minted |
| `Versions.BumpedReadersSeeTheWrite` | api/src/cache/layer.rs:302-333 | who holds a bump's token never gets a value older than what was written before the bump |
| `Versions.OldTokensGo` | api/src/cache/layer.rs:23-27 | a token replaced in Valkey is gone from L1 within VERSION_L1_TTL, and the delay of the call that inserted it, of being replaced |
| `Gates.CountTwoIsAlone` | api/src/cache/layer.rs:257-265 | a reference count of two means nobody else has the gate |
| `Gates.OneLoadPerKey` | api/src/cache/layer.rs:175-265 | at most one load of a key runs at a time, though gates are removed and made anew and callers may be cancelled |
| `Gates.SharedFailuresAreTimely` | api/src/cache/layer.rs:175-195 | a shared failure is of the caller's key and ended no earlier than the caller arrived |
| `Router.StepKeeps` | api/src/db/router.rs:154-243 | every step of lookups, registry and time keeps the invariant |
| `Router.PlacementsAreRecent` | api/src/db/router.rs:154-243 | a placement used was what the registry held less than PLACEMENT_TTL, and that registry read's own delay, before |
| `Router.DelaysAreBounded` | api/src/db/router.rs:214-243 | no such delay is longer than registry reads take at most |
| `Router.RelocatingIsRefused` | api/src/db/router.rs:24-28 | so a tenant relocating since T is refused from T plus that on |
| `Router.NeverGoesBack` | api/src/db/router.rs:188-259 | in every run, a node's placements of a tenant never go back to an older state of the registry, even after a `forget` |
| `RouterDb.Db.Position` | api/src/db/router.rs:223-228 | the first database of the region, or none is |
| `RouterDb.Db.Retain` | api/src/db/router.rs:237-239 | exactly the placements long past their time go |
| `RouterDb.Db.Fetch` | api/src/db/router.rs:214-243 | what the registry says is remembered; an unknown region or a missing tenant changes nothing; other placements stay, but for those long past their time once there are too many |
| `RouterDb.Db.FetchOnce` | api/src/db/router.rs:190-212 | another's fresh read is taken, else the registry's answer, remembered in the same way |
| `RouterDb.Db.Locate` | api/src/db/router.rs:154-178 | where a tenant is sent: by a placement still trusted, else by the registry, refused while it moves, and the old place or home once it is gone |
| `RouterDb.Db.Forget` | api/src/db/router.rs:255-259 | only that tenant's placement goes |
| `Leases.AtMostOneLease` | api/src/jobs/leader.rs:12-89 | at most one lease of a name is live at any instant |
| `Leases.LapsedHasNoReach` | api/src/jobs/leader.rs:41-89 | extending works if and only if the lease is live; a holder that lapsed changes nothing by extending or releasing |
| `Leases.OnlyTimeEndsALease` | api/src/jobs/leader.rs:41-89 | nothing others do shortens a live lease, and an extension renews it |
| `Leases.AcquiredWhenFree` | api/src/jobs/leader.rs:12-33 | the lock is got exactly when no lease of its name is live |
| `Leases.LockServer.TryAcquire` | api/src/jobs/leader.rs:12-33 | set if absent; no answer, and no change, for a time to live of zero |
| `Leases.LockServer.ExtendLock` | api/src/jobs/leader.rs:46-56 | compare and expire |
| `Leases.LockServer.ReleaseLock` | api/src/jobs/leader.rs:80-89 | compare and delete |
| `Leases.LockServer.HoldWhile` | api/src/jobs/leader.rs:61-77 | the renewal loop holds the lock throughout if and only if no tick is as late as the expiry before it |
| `Generations.StepKeeps` | api/src/key_custody/envelope.rs:195-460 | every step of every node keeps the invariant |
| `Generations.SameKeyEverywhere` | api/src/key_custody/envelope.rs:195-460 | all nodes that hold a version hold the same key |
| `Generations.EveryBlobOpens` | api/src/key_custody/envelope.rs:392-460 | what any node sealed is under the key every node has, or would load, for its version |
| `Generations.CommittedVersionsAreNew` | api/src/key_custody/envelope.rs:341-390 | a committed version is above every one in the table, the environment and the rows at rest |
| `Generations.OneCreatorAtATime` | api/src/key_custody/generations.rs:65-72 | nobody else is choosing or committing meanwhile |
| `Generations.FirstStartsCreateOne` | api/src/key_custody/envelope.rs:244-275 | however many nodes start at once, each backend has one generation |
| `Generations.CurrentIsLoadedAndGrows` | api/src/key_custody/envelope.rs:272-416 | once attached with a primary backend, the current generation is loaded and never goes back |
| `Generations.CurrentSteps` | api/src/key_custody/envelope.rs:260-291 | exactly which step takes a current generation back |
| `AttachStepsBack.CurrentCanStepBack` | api/src/key_custody/envelope.rs:244-291 | a run in which it does, on a node that makes a generation while it attaches |
| `Envelope.OpensExactly` | api/src/key_custody/envelope.rs:479-560 | a sealed value opens with its key, unless its cipher is the old one and that is not read |
| `Envelope.AnyNodeDecrypts` | api/src/key_custody/envelope.rs:418-560 | in every run, every node that has or can load the generation decrypts what any node sealed |
| `Envelope.Table.Latest` | api/src/key_custody/generations.rs:74-86 | the newest of the backend, if any, and the highest of all |
| `Envelope.Table.NewerThan` | api/src/key_custody/generations.rs:54-63 | exactly the versions above, in order |
| `Envelope.EnvelopeEncryptor.UnwrapRow` | api/src/key_custody/envelope.rs:392-416 | a key is kept exactly when the backend is there, answers and gives it back, and moves the current one up only for the primary |
| `Envelope.EnvelopeEncryptor.Key` | api/src/key_custody/envelope.rs:420-460 | exactly when an unknown version loads, and which error it is otherwise, an unreadable table included; a failure is remembered, and below the limit no other is forgotten; no key is lost |
| `Envelope.EnvelopeEncryptor.EnsureGeneration` | api/src/key_custody/envelope.rs:341-390 | the newest of the backend is adopted, or one is created that is above all there is and that the backend gives back; neither without the table |
| `Envelope.EnvelopeEncryptor.Create` | api/src/key_custody/envelope.rs:360-389 | the creation itself |
| `Envelope.EnvelopeEncryptor.NewGeneration` | api/src/key_custody/envelope.rs:280-291 | a version above all there is, loaded, and current |
| `Envelope.EnvelopeEncryptor.Refresh` | api/src/key_custody/envelope.rs:296-307 | of the versions above all known, those that can be loaded are; current reaches the newest of the primary's among them and never goes back; an unreadable table is an error that changes nothing |
| `Envelope.EnvelopeEncryptor.UnwrapAll` | api/src/key_custody/envelope.rs:228-242 | all that answer are loaded, unless a version is defined twice |
| `Envelope.EnvelopeEncryptor.AttachTo` | api/src/key_custody/envelope.rs:195-275 | on success nothing is defined twice, all that answer are loaded, and the primary's newest, or first, generation is current and loaded; without the table only a node without a backend starts, on what it had |
| `Envelope.EnvelopeEncryptor.Encrypt` | api/src/key_custody/envelope.rs:582-591 | it works exactly when the current generation is loaded; what it gives names that generation and opens to the plaintext under the key every node has for it, wherever its cipher is read |
| `Envelope.EnvelopeEncryptor.Decrypt` | api/src/key_custody/envelope.rs:593-620 | it opens with the key of the version named, or fails |

## Left out

- AES on a block, HMAC, SHA-256, HKDF, the AEADs and the backends' wrapping are arbitrary functions with inverse or length laws; so nothing is said about what a wrong key gives.
- The calendar: a KerberosTime is any encoding of whole seconds in the years 0 to 9999 that decodes to itself.
- Kdc.EndToEnd: requests whose ticket is sealed with another key than the service's are not covered, since what a wrong key gives is a matter of the MAC.
- The texts of errors, `etype_name`, `info`, `name` and `normalize_realm`: easy members.
- The build of `crypto.rs` without the `kerberos` feature, which refuses everything.
- Capacity and expiry of the L1 caches and memory pressure in Valkey: an entry or value may go at any step; a hold stands its time.
- Capacity of the eviction records: one pushed out before its time is a `Forget` step like any other, so `L1Runs.MemoryIsExact` is about runs in which none is; `L1Runs.RememberingSees` and `L1Runs.ForgettingLeaves` are about all.
- Randomness: jitter, tokens, keys and confounders are parameters; tokens and generations' keys are not assumed more than unique or given.
- Several keys in one invalidation or bump are, in the machines, several of one key each, which allows every interleaving of theirs and more; `Layer.CacheLayer.Invalidate` has them together.
- `CacheLayer.version` and `bump_versions` run step by step only (`Versions`); one call at a time their races do not exist.
- Leftover gates: two callers that leave at once may both leave a gate in the map; only mutual exclusion is claimed.
- The deleted-tenant branch of `locate` is in `RouterDb.Db.Locate` but outside the staleness bound, as it uses a placement of any age on purpose.
- Moving rows of a tenant between databases while `highest_version_in_use` scans them: the scan is one step.
- The remaining jobs, HTTP, configuration, LDAP, TLS and user interface.
