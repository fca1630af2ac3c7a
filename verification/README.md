# gateflow, modelled in Dafny

gateflow drives multi-step "flows" (register → send code → verify code →
complete) defined by a schema, and keeps each session's progress in a
TTL-backed key-value store. The store key is never shown to the caller. The
caller holds a public key, which is the encryption of the private store key,
and every operation recovers the private key by decrypting it.

The model covers four pieces:

- `GateKeeper` (`gatekeeper.dfy`): the gate state machine over one stored
  record `{activeGateIndex, session}`. Its operations are `test`, `knock`,
  `next`, `setData`, `getData`, `getActiveGate` and `destroy`, plus the
  private helpers behind them.
- `GateFlow` (`gateflow.dfy`): `buildSchema`, `create` and `continue`.
- `GateFlowStore` (`gateflowstore.dfy`): public/private key handling,
  `sset`/`srset`/`sget`/`sdel`, and the public `create`/`get`/`set`/`destroy`.
- `RedisMock` (`redis_mock.dfy`): the in-memory backend (`set`/`get`/`del`
  on a map). It is the backend semantics used everywhere.

Supporting modules:

- `Base`: results, errors, JavaScript values, `indexOf`/`join`.
- `FlowTypes`: schema, session record, well-formedness.
- `Encrypter`: random hex tokens, the IV framing of `encrypt`/`decrypt`, and
  an abstract block cipher.
- `FlowProperties`: properties that span several operations.

Every operation is a pure function from a backend state to a `Step`: the
settled result (`Ok` or the thrown `Err`), the backend after the call, and
the list of backend commands issued. The command list is how the contracts
say "fails before any backend access" (`calls == []`) and "every write uses
mode EX and the configured ttl" (`WritesUseTtl`). `Traced` states that the
new backend state is exactly what replaying those commands on the mock
produces. `Lookup(cfg, kv, key)` is the reference view: the record a public
key designates, if it decrypts and a record is stored under its private key.

Parameters stand in for the environment:

- The entropy source is a `Draw`: the bytes `randomBytes` returns for the
  private key (48) and for the IV (16).
- The cipher is a `Cipher` value with `seal`/`open` functions. The only thing
  assumed of it is `RoundTrips`: opening what was sealed with a 16-byte IV
  gives back the plaintext. Lemmas that need this assumption take it as a
  `requires`.

Some behaviours of the code a reader may not expect; the model follows the code:

- **Missing record.** A key that decrypts but has no record makes `sget`
  return `""`, and `get` then fails in `JSON.parse`. The model calls this
  outcome `NotFound`. So `continue` on a finished or destroyed session fails
  with that parse error. The `cache === undefined` check that would throw
  "Invalid key" (src/gateflow.ts:30-31) is never reached.
- **"Invalid key" branches.** The `cache === undefined` branches in
  `getTest` and `continue` can never run and are not modelled. As a result
  `test` never reports "Invalid key" in its error list: a missing record
  makes it throw.
- **Decryption errors.** The `catch` in `decrypt` maps only an IV of the
  wrong length to "Invalid key" (src/encrypter.ts:44-49). An empty token fails
  with "Value must be string with non-zero length." Any other cipher failure
  is rethrown unchanged
  (`CipherFailure`). The IV length is counted in UTF-8 bytes, because that
  is how the IV string reaches the cipher.
- **`del` reply.** The mock's `del` always replies with a count of 0.

## Model

| member | source | states |
|---|---|---|
| RedisMock.Set | test/mock/redis.ts:6-12 | `set` stores the value under the key, overwriting; every other key keeps its value |
| RedisMock.Get | test/mock/redis.ts:13-19 | `get` yields the stored value exactly when the key is present, otherwise undefined (for keys not inherited from `Object.prototype`) |
| RedisMock.Del | test/mock/redis.ts:20-28 | `del` removes the key, leaves all others, leaves the map unchanged when the key is absent, and replies 0 |
| RedisMock.ReadsOnly | test/mock/redis.ts:13-19 | a sequence of `get` commands leaves the backend unchanged |
| RedisMock.GetAfterSet | test/mock/redis.ts:6-19 | `get` after `set` on the same key returns the value set |
| RedisMock.GetOtherKey | test/mock/redis.ts:6-28 | `set` and `del` on one key do not change what `get` returns for any other key |
| RedisMock.GetAfterDel | test/mock/redis.ts:13-28 | `get` after `del` on the same key finds nothing |
| RedisMock.SetOverwrites | test/mock/redis.ts:6-12 | a later `set` replaces an earlier one; mode and duration make no difference to the state |
| RedisMock.DelIdempotent | test/mock/redis.ts:20-28 | deleting a key twice equals deleting it once |
| Encrypter.Hex | src/encrypter.ts:20 | hex encoding yields two hex digits per byte |
| Encrypter.Random | src/encrypter.ts:13-23 | `random(n)` yields exactly n lower-case hex characters |
| Encrypter.RandomKeepsHalf | src/encrypter.ts:13-23 | for even n, two draws give the same `random(n)` token iff their first n/2 bytes agree |
| Encrypter.Encrypt | src/encrypter.ts:25-32 | `encrypt` rejects exactly the empty string, with the validation error; otherwise the token starts with a 16-character hex IV |
| Encrypter.Decrypt | src/encrypter.ts:34-50 | `decrypt` fails with the validation error iff the token is empty, with "Invalid key" iff the IV is not 16 bytes, and otherwise succeeds iff the cipher opens the body, returning what it opens |
| Encrypter.ShortTokenIsInvalidKey | src/encrypter.ts:38-47 | a non-empty ASCII token shorter than the IV is rejected as "Invalid key" |
| Encrypter.DecryptEncrypt | src/encrypter.ts:25-50 | decrypting an encryption of a non-empty plaintext returns that plaintext |
| Encrypter.EncryptFresh | src/encrypter.ts:25-32 | encrypting one plaintext under two different IVs gives two different tokens |
| GateFlowStore.Serialize | src/gateflowstore.ts:113-116 | a serialised record is never the empty text and parses back to the same record |
| GateFlowStore.Parse | src/gateflowstore.ts:118-121 | parsing fails exactly on the empty text, as `NotFound` |
| GateFlowStore.GetPrivateKey | src/gateflowstore.ts:29-35 | the private key is what the cipher opens from the body under a 16-byte IV; an empty public key fails with the validation error, one whose IV is not 16 bytes (a short ASCII one in particular) with "Invalid key", and a well-framed one succeeds iff the cipher opens its body |
| GateFlowStore.GetPublicPrivateKey | src/gateflowstore.ts:37-41 | the private key is 48 hex characters and the public key decrypts back to it |
| GateFlowStore.SSet | src/gateflowstore.ts:43-58 | stores the value under a new private key, touches no other entry, writes with EX and ttl, and returns a public key that decrypts to that private key |
| GateFlowStore.SRSet | src/gateflowstore.ts:60-75 | an undecryptable key fails with the cipher's error before any backend call; otherwise the value is stored under the private key, nothing else changes, and the write uses EX and ttl |
| GateFlowStore.SGet | src/gateflowstore.ts:77-93 | an undecryptable key fails before any backend call; otherwise one `get` is issued, and a missing value reads as the empty text |
| GateFlowStore.SDel | src/gateflowstore.ts:95-111 | an undecryptable key fails before any backend call; otherwise exactly the entry under the private key is removed, with no error if absent |
| GateFlowStore.Create | src/gateflowstore.ts:113-116 | create always succeeds and returns a key that designates exactly the stored record; only that entry changes |
| GateFlowStore.Get | src/gateflowstore.ts:118-121 | get succeeds iff the key designates a record and returns it; a decryptable key without a record fails with `NotFound`; the backend is only read |
| GateFlowStore.Destroy | src/gateflowstore.ts:123-125 | destroy fails closed on an undecryptable key; otherwise afterwards the key designates nothing and no other entry changes |
| GateFlowStore.Set | src/gateflowstore.ts:127-131 | set fails closed on an undecryptable key; otherwise it returns the record, the key designates it afterwards, and only that entry changes |
| GateFlowStore.Chain | src/gateflowstore.ts:47-64 | two store steps run in order replay their combined command list, and every write in it uses EX and ttl |
| GateFlowStore.LookupFrame | src/gateflowstore.ts:47-64 | a write under one private key leaves what every other public key designates unchanged |
| GateFlowStore.CreateThenGet | src/gateflowstore.ts:113-121 | get with the key create returned yields the created record |
| GateFlowStore.SetThenGet | src/gateflowstore.ts:118-131 | get after set with the same decryptable key yields the record set |
| GateFlowStore.DestroyThenGet | src/gateflowstore.ts:77-125 | get after destroy fails: with `NotFound` for a decryptable key, else with the same cipher error |
| GateFlowStore.SetLeavesOthers | src/gateflowstore.ts:60-111 | set and destroy under one key leave records behind other private keys unchanged |
| GateKeeper.GetGateIndex | src/gatekeeper.ts:93-95 | returns the first schema position carrying the name, or -1 iff no position carries it |
| GateKeeper.IsValidGate | src/gatekeeper.ts:97-104 | a gate is valid iff the index is a schema position and the gate is on its allow-list |
| GateKeeper.GetCache | src/gatekeeper.ts:110-112 | reads the record the keeper's key designates, failing when there is none, with `NotFound` when the key decrypts but the record is gone, without changing the backend |
| GateKeeper.SetCache | src/gatekeeper.ts:106-108 | after a successful write the keeper's key designates the given record; only its entry changes |
| GateKeeper.SetGate | src/gatekeeper.ts:86-91 | stores the record with only its active index replaced |
| GateKeeper.GetTest | src/gatekeeper.ts:70-84 | a non-string or empty gate fails with "Gate was not defined" before any read; otherwise the result is valid iff the gate is allowed, with errors [] or ["Invalid gate"] |
| GateKeeper.Test | src/gatekeeper.ts:60-63 | test never changes the backend; isValid iff errors is empty iff the gate is on the active allow-list; returns the current session; a record that is gone fails with `NotFound` |
| GateKeeper.Knock | src/gatekeeper.ts:50-58 | a rejected gate fails with "Invalid gate" and changes nothing; an accepted one moves the index to the first position named by the gate, keeping the session; a record that is gone fails with `NotFound` |
| GateKeeper.Next | src/gatekeeper.ts:22-32 | advances the index by one without any allow-list check; at the schema length it deletes the record and reports completion; returns the session read before the step; a record that is gone fails with `NotFound` |
| GateKeeper.Destroy | src/gatekeeper.ts:34-36 | afterwards the key designates no record; other entries unchanged |
| GateKeeper.GetData | src/gatekeeper.ts:38-41 | returns the session of the designated record, failing iff there is none, with `NotFound` when the key decrypts but the record is gone |
| GateKeeper.SetData | src/gatekeeper.ts:43-48 | sets one session field to the value, keeps every other field and the active index, and returns the value; a record that is gone fails with `NotFound` |
| GateKeeper.GetActiveGate | src/gatekeeper.ts:65-68 | returns the name of the active position; an index outside the schema is a TypeError; a record that is gone fails with `NotFound` |
| GateFlow.BuildSchema | src/gateflow.ts:13 | the schema definition comes back unchanged |
| GateFlow.Create | src/gateflow.ts:15-23 | always succeeds; the new key designates a record at index 0 holding the given session, or `{}` |
| GateFlow.Continue | src/gateflow.ts:25-34 | a non-string or empty key fails with "Key is not defined" before any backend call; otherwise it succeeds iff the key designates a record, and returns a keeper with the same key |
| FlowProperties.KnockAgreesWithTest | src/gatekeeper.ts:50-63 | knock succeeds iff test reports the gate valid |
| FlowProperties.AllowedNameHasIndex | src/gatekeeper.ts:3 | in a well-formed schema every allowed name has a schema position |
| FlowProperties.KnockThenActiveGate | src/gatekeeper.ts:50-95 | in a well-formed schema, after an accepted knock the knocked gate is the active gate |
| FlowProperties.TransitionsKeepLive | src/gatekeeper.ts:22-58 | knock, setData and next keep a live record on a schema position, or next deletes it |
| FlowProperties.KnockRegresses | test/test.spec.ts:235-261 | in the example flow, knocking "mfasend" from "mfaverify" moves back to position 1; "complete" is refused there |
| FlowProperties.SetDataMerges | src/gatekeeper.ts:43-48 | setData is exactly a one-field shallow merge of the session |
| FlowProperties.SetDataTwice | test/test.spec.ts:169-188 | setting two fields keeps both and all earlier fields |
| FlowProperties.NextRunsToCompletion | src/gatekeeper.ts:22-32 | from position i, next called schema-length minus i times reports "not completed" until the last call, which completes and deletes the record |
| FlowProperties.CreateThenContinue | test/test.spec.ts:44-49 | continuing a freshly created key yields a keeper with the same key |
| FlowProperties.ContinueForeignKey | test/test.spec.ts:108-112 | continue with a token that is no encryption ("complete") fails with "Invalid key" before any backend call |
| FlowProperties.CreateThenFirstGate | test/test.spec.ts:51-65 | a fresh session's active gate is the first schema name and its data is the initial session |
| FlowProperties.FlowCompletesThenKeyIsDead | src/gateflow.ts:25-34 | next alone completes a fresh flow on exactly the schema-length-th call, after which continue fails with `NotFound` |
| FlowProperties.KnockOwnGate | test/test.spec.ts:214-230 | in the example flow, a session at positions 1 to 3 may knock on its own gate and stays there |
| FlowProperties.ExampleFlowStart | test/test.spec.ts:202-217 | the example walk: next, continue, knock "mfasend", next reach position 2 with the session intact |
| FlowProperties.ExampleFlowFinish | test/test.spec.ts:219-233 | the example walk from position 2 reaches "complete", the fourth next reports completion, and the key is then dead |

## Left out

- The block cipher (AES-256-CTR keyed by the SHA-256 of the secret) is abstract: `Cipher.seal`/`open` with the `RoundTrips` assumption. The model does not say what a foreign token with a well-formed IV decrypts to. In CTR mode it usually decrypts to garbage, which then designates no record.
- Randomness is a parameter (`Draw`). Nothing guarantees that private keys are unique. A colliding key silently overwrites another session, as in the source.
- TTL expiry, connection handling and `quit` of a real Redis server are external. The mock ignores expiry.
- Backend error callbacks are not modelled: the mock never reports an error.
- The mock's `data` is a plain object literal (test/mock/redis.ts:5), so keys inherited from `Object.prototype` behave differently from map keys: `get("toString")` returns an inherited function, `set("__proto__", v)` stores nothing, and `del("toString")` finds the key but removes nothing. The model treats every key as an ordinary map key. This is harmless for the store: it only ever uses private keys that are 48 hex characters (`sset`) or that came out of decryption of a token the store issued, and no hex string is such a property name. A token forged so that it decrypts to such a name would reach the difference; the model does not cover that case.
- Promises and callbacks are not modelled. Neither is the lost-update race between concurrent read-modify-write sequences on one key: each operation is one atomic step.
- JSON is treated as an exact encoding of a record. Dropping `undefined` values, key order and floating-point numbers are not modelled (numbers are integers).
- The TypeScript generics are not modelled. Neither is the `schema` field that `create` writes into the record but never reads back (src/gateflow.ts:18).
- The constructors of `GateKeeper` and `GateFlow` only store their arguments; they are the `Keeper` and `Flow` values. The `GateFlowStore` constructor stores the backend and ttl and builds an `Encrypter`, whose constructor derives the AES key as the SHA-256 digest of the secret (src/encrypter.ts:8-11, src/gateflowstore.ts:23-27). `Config.cipher` stands for the cipher keyed by that digest; the hash is not modelled.
- `getPrivateKey`'s check for an undefined plaintext, and the `cache === undefined` branches of `getTest` and `continue`, can never run, so they are not modelled.
- JavaScript strings are UTF-16: `slice` counts code units, while the model counts Unicode scalar values. The two differ for characters outside the Basic Multilingual Plane, and for lone surrogates, which a JavaScript string may hold but a Dafny `char` cannot represent. Such strings are not modelled.
- GateKeeper.SetData: a property named `"__proto__"` is modelled as an ordinary session field. In the source, `Object.assign` writes it through the prototype setter (src/gatekeeper.ts:45), so no own field is created and `JSON.stringify` stores none; a later `getData` does not see it.
- FlowProperties.SetDataMerges: the exact one-field merge is proved for every property name, including `"__proto__"`, for which the source stores no field (see the `GateKeeper.SetData` line).
- FlowProperties.SetDataTwice: both fields are proved kept for every pair of distinct names, including `"__proto__"`, which the source does not store (see the `GateKeeper.SetData` line).
