/** The session store: records are kept in the backend under a random
    private key, and callers only ever see the public key, its encryption.
    Every keyed operation recovers the private key by decrypting the public
    one; no table relates the two.

    Each operation is a pure function from the backend state to a `Step`:
    the settled result, the new backend state and the backend commands
    issued, in order.  Records are written as `Json(cache)`; the model treats
    JSON serialisation as exact. */
module GateFlowStore {
  import opened Base
  import opened FlowTypes
  import RedisMock
  import Encrypter

  /** What the store reads back for a key: the empty string, or the JSON
      text of a flow record. */
  datatype Text = Blank | Json(cache: FlowCache)

  type Backend = RedisMock.Mock<Text>

  type Command = RedisMock.Command<Text>

  /** The store's configuration: the expiry in seconds written with every
      `set`, and the cipher derived from the secret. */
  datatype Config = Config(ttl: int, cipher: Encrypter.Cipher)

  /** The bytes the entropy source yields while a key pair is made: 48 for
      `random()` (the private key) and 16 for the IV inside `encrypt`. */
  datatype Draw = Draw(keyBytes: seq<Encrypter.byte>, ivBytes: seq<Encrypter.byte>) {
    predicate Sized() {
      |keyBytes| == Encrypter.KeyLength && |ivBytes| == Encrypter.IvLength
    }
  }

  /** One operation's effect: its result, the backend after it, and the
      backend commands it issued. */
  datatype Step<T> = Step(result: Result<T>, backend: Backend, calls: seq<Command>)

  /** Every write asks the backend to expire the key after `ttl` seconds. */
  const ExpiryMode: string := "EX"

  /** `JSON.stringify` of a record. */
  function Serialize(c: FlowCache): (t: Text)
    ensures t != Blank
    ensures Parse(t) == Ok(c)
  {
    Json(c)
  }

  /** `JSON.parse`: the empty string is a syntax error, which is how a
      missing record surfaces. */
  function Parse(t: Text): (r: Result<FlowCache>)
    ensures r.Err? <==> t == Blank
    ensures r.Err? ==> r.error == NotFound
  {
    match t
    case Blank => Err(NotFound)
    case Json(c) => Ok(c)
  }

  /** The private key a public key designates, if `getPrivateKey` succeeds. */
  function PrivateKey(cfg: Config, key: string): Option<string> {
    match GetPrivateKey(cfg, key)
    case Ok(pk) => Some(pk)
    case Err(_) => None
  }

  /** The record a public key currently designates, if any. */
  function Lookup(cfg: Config, kv: Backend, key: string): Option<FlowCache> {
    match PrivateKey(cfg, key)
    case None => None
    case Some(pk) => if pk in kv.data && kv.data[pk].Json? then Some(kv.data[pk].cache) else None
  }

  /** The new backend state is what the issued commands produce. */
  predicate Traced<T>(kv: Backend, s: Step<T>) {
    s.backend == RedisMock.Replay(kv, s.calls)
  }

  /** Every `set` issued carries mode "EX" and the configured ttl. */
  predicate WritesUseTtl(cfg: Config, calls: seq<Command>) {
    forall i :: 0 <= i < |calls| && calls[i].SetCmd? ==>
      calls[i].mode == ExpiryMode && calls[i].duration == cfg.ttl
  }

  /** A key that does not decrypt is rejected with the cipher's error before
      any backend call. */
  predicate FailsClosed<T>(cfg: Config, kv: Backend, key: string, s: Step<T>) {
    var d := Encrypter.Decrypt(cfg.cipher, key);
    d.Err? ==> s.result.Err? && s.result.error == d.error && s.backend == kv && s.calls == []
  }

  /** Only the entry under `pk` may differ between the two states. */
  predicate OnlyTouches(kv: Backend, kv': Backend, pk: string) {
    kv'.data - {pk} == kv.data - {pk}
  }

  /** `getPrivateKey`: decryption of the public key.  Its own check for an
      undefined plaintext cannot fire, since decryption returns a string or
      throws. */
  function GetPrivateKey(cfg: Config, publicKey: string): (r: Result<string>)
    ensures |publicKey| == 0 ==> r == Err(EmptyValue)
    ensures 0 < |publicKey| < Encrypter.IvLength && Encrypter.IsAscii(publicKey) ==> r == Err(InvalidKey)
    ensures r.Err? && r.error == InvalidKey <==>
      |publicKey| > 0 && Encrypter.ByteLength(Encrypter.IvOf(publicKey)) != Encrypter.IvLength
    ensures r.Err? ==> r.error == EmptyValue || r.error == InvalidKey || r.error == CipherFailure
    ensures |publicKey| > 0 && Encrypter.ByteLength(Encrypter.IvOf(publicKey)) == Encrypter.IvLength ==>
      var iv := Encrypter.IvOf(publicKey);
      (r.Ok? <==> cfg.cipher.open(iv, publicKey[|iv|..]).Some?)
    ensures r.Ok? ==>
      var iv := Encrypter.IvOf(publicKey);
      Encrypter.ByteLength(iv) == Encrypter.IvLength && cfg.cipher.open(iv, publicKey[|iv|..]) == Some(r.value)
  {
    Encrypter.ShortAsciiIv(publicKey);
    Encrypter.Decrypt(cfg.cipher, publicKey)
  }

  /** A key designates a private key whose record is gone: the case `get`
      reports as `NotFound`. */
  predicate Missing(cfg: Config, kv: Backend, key: string) {
    PrivateKey(cfg, key).Some? && Lookup(cfg, kv, key).None?
  }

  /** `getPublicPrivateKey`: a fresh 48-character hex private key and its
      encryption, which decrypts back to it. */
  function GetPublicPrivateKey(cfg: Config, draw: Draw): (r: (string, string))
    requires draw.Sized()
    ensures |r.0| == Encrypter.KeyLength && Encrypter.IsHex(r.0)
    ensures Encrypter.RoundTrips(cfg.cipher) ==> PrivateKey(cfg, r.1) == Some(r.0)
  {
    var privateKey := Encrypter.Random(draw.keyBytes, Encrypter.KeyLength);
    var publicKey := Encrypter.Encrypt(cfg.cipher, draw.ivBytes, privateKey);
    KeyPairDecrypts(cfg.cipher, draw.ivBytes, privateKey);
    (privateKey, publicKey.value)
  }

  lemma KeyPairDecrypts(c: Encrypter.Cipher, ivBytes: seq<Encrypter.byte>, privateKey: string)
    requires |ivBytes| == Encrypter.IvLength && |privateKey| > 0
    ensures Encrypter.RoundTrips(c) ==>
      Encrypter.Decrypt(c, Encrypter.Encrypt(c, ivBytes, privateKey).value) == Ok(privateKey)
  {
    if Encrypter.RoundTrips(c) {
      Encrypter.DecryptEncrypt(c, ivBytes, privateKey);
    }
  }

  /** `sset`: stores `value` under a fresh private key and returns the
      public key. */
  function SSet(cfg: Config, kv: Backend, value: Text, draw: Draw): (r: Step<string>)
    requires draw.Sized()
    ensures r.result.Ok?
    ensures Traced(kv, r) && WritesUseTtl(cfg, r.calls)
    ensures Encrypter.RoundTrips(cfg.cipher) ==>
      var pk := PrivateKey(cfg, r.result.value);
      pk.Some? && pk.value in r.backend.data && r.backend.data[pk.value] == value
      && OnlyTouches(kv, r.backend, pk.value)
  {
    var (privateKey, publicKey) := GetPublicPrivateKey(cfg, draw);
    var cmd := RedisMock.SetCmd(privateKey, value, ExpiryMode, cfg.ttl);
    Step(Ok(publicKey), RedisMock.Set(kv, privateKey, value, ExpiryMode, cfg.ttl), [cmd])
  }

  /** `srset`: overwrites the value under the private key behind
      `publicKey`. */
  function SRSet(cfg: Config, kv: Backend, publicKey: string, value: Text): (r: Step<()>)
    ensures FailsClosed(cfg, kv, publicKey, r)
    ensures Traced(kv, r) && WritesUseTtl(cfg, r.calls)
    ensures PrivateKey(cfg, publicKey).Some? ==>
      var pk := PrivateKey(cfg, publicKey).value;
      r.result.Ok? && pk in r.backend.data && r.backend.data[pk] == value
      && OnlyTouches(kv, r.backend, pk)
  {
    match GetPrivateKey(cfg, publicKey)
    case Err(e) => Step(Err(e), kv, [])
    case Ok(pk) =>
      var cmd := RedisMock.SetCmd(pk, value, ExpiryMode, cfg.ttl);
      Step(Ok(()), RedisMock.Set(kv, pk, value, ExpiryMode, cfg.ttl), [cmd])
  }

  /** `sget`: reads the value under the private key behind `publicKey`; a
      missing value reads as the empty string. */
  function SGet(cfg: Config, kv: Backend, publicKey: string): (r: Step<Text>)
    ensures FailsClosed(cfg, kv, publicKey, r)
    ensures r.backend == kv && Traced(kv, r)
    ensures PrivateKey(cfg, publicKey).Some? ==>
      var pk := PrivateKey(cfg, publicKey).value;
      r.calls == [RedisMock.GetCmd(pk)]
      && r.result == Ok(if pk in kv.data then kv.data[pk] else Blank)
  {
    match GetPrivateKey(cfg, publicKey)
    case Err(e) => Step(Err(e), kv, [])
    case Ok(pk) =>
      var value := match RedisMock.Get(kv, pk)
        case None => Blank
        case Some(t) => t;
      Step(Ok(value), kv, [RedisMock.GetCmd(pk)])
  }

  /** `sdel`: deletes the entry under the private key behind `publicKey`;
      deleting an absent entry is not an error. */
  function SDel(cfg: Config, kv: Backend, publicKey: string): (r: Step<()>)
    ensures FailsClosed(cfg, kv, publicKey, r)
    ensures Traced(kv, r) && WritesUseTtl(cfg, r.calls)
    ensures PrivateKey(cfg, publicKey).Some? ==>
      var pk := PrivateKey(cfg, publicKey).value;
      r.result.Ok? && r.backend.data == kv.data - {pk}
  {
    match GetPrivateKey(cfg, publicKey)
    case Err(e) => Step(Err(e), kv, [])
    case Ok(pk) =>
      Step(Ok(()), RedisMock.Del(kv, pk).0, [RedisMock.DelCmd(pk)])
  }

  /** `create`: stores a record under a fresh key pair and returns the
      public key, which then designates exactly that record. */
  function Create(cfg: Config, kv: Backend, data: FlowCache, draw: Draw): (r: Step<string>)
    requires draw.Sized()
    ensures r.result.Ok?
    ensures Traced(kv, r) && WritesUseTtl(cfg, r.calls)
    ensures Encrypter.RoundTrips(cfg.cipher) ==>
      Lookup(cfg, r.backend, r.result.value) == Some(data)
      && OnlyTouches(kv, r.backend, PrivateKey(cfg, r.result.value).value)
  {
    SSet(cfg, kv, Serialize(data), draw)
  }

  /** `get`: the record a public key designates.  A key that decrypts but
      has no record fails with `NotFound`; the backend is only read. */
  function Get(cfg: Config, kv: Backend, key: string): (r: Step<FlowCache>)
    ensures FailsClosed(cfg, kv, key, r)
    ensures r.backend == kv && Traced(kv, r)
    ensures r.result.Ok? <==> Lookup(cfg, kv, key).Some?
    ensures r.result.Ok? ==> Lookup(cfg, kv, key) == Some(r.result.value)
    ensures Missing(cfg, kv, key) ==> r.result == Err(NotFound)
  {
    var s := SGet(cfg, kv, key);
    match s.result
    case Err(e) => Step(Err(e), s.backend, s.calls)
    case Ok(text) => Step(Parse(text), s.backend, s.calls)
  }

  /** `destroy`: deletes the record behind a public key. */
  function Destroy(cfg: Config, kv: Backend, key: string): (r: Step<()>)
    ensures FailsClosed(cfg, kv, key, r)
    ensures Traced(kv, r) && WritesUseTtl(cfg, r.calls)
    ensures PrivateKey(cfg, key).Some? ==>
      r.result.Ok? && Lookup(cfg, r.backend, key) == None
      && OnlyTouches(kv, r.backend, PrivateKey(cfg, key).value)
  {
    SDel(cfg, kv, key)
  }

  /** `set`: overwrites the record behind a public key and returns it. */
  function Set(cfg: Config, kv: Backend, key: string, data: FlowCache): (r: Step<FlowCache>)
    ensures FailsClosed(cfg, kv, key, r)
    ensures Traced(kv, r) && WritesUseTtl(cfg, r.calls)
    ensures PrivateKey(cfg, key).Some? ==>
      r.result == Ok(data) && Lookup(cfg, r.backend, key) == Some(data)
      && OnlyTouches(kv, r.backend, PrivateKey(cfg, key).value)
  {
    var s := SRSet(cfg, kv, key, Serialize(data));
    match s.result
    case Err(e) => Step(Err(e), s.backend, s.calls)
    case Ok(_) => Step(Ok(data), s.backend, s.calls)
  }

  /** Running one step after another: the backend is what the two traces
      replayed in order produce, and the writes of both carry the ttl. */
  lemma Chain<T, U>(cfg: Config, kv: Backend, first: Step<T>, second: Step<U>)
    requires Traced(kv, first) && Traced(first.backend, second)
    requires WritesUseTtl(cfg, first.calls) && WritesUseTtl(cfg, second.calls)
    ensures RedisMock.Replay(kv, first.calls + second.calls) == second.backend
    ensures WritesUseTtl(cfg, first.calls + second.calls)
  {
    RedisMock.ReplayAppend(kv, first.calls, second.calls);
    var all := first.calls + second.calls;
    forall i | 0 <= i < |all| && all[i].SetCmd?
      ensures all[i].mode == ExpiryMode && all[i].duration == cfg.ttl
    {
      if i >= |first.calls| {
        assert all[i] == second.calls[i - |first.calls|];
      }
    }
  }

  /** Only the entry under `pk` changed, so a key designating any other
      private key still designates the same record. */
  lemma LookupFrame(cfg: Config, kv: Backend, kv': Backend, pk: string, other: string)
    requires OnlyTouches(kv, kv', pk)
    requires PrivateKey(cfg, other) != Some(pk)
    ensures Lookup(cfg, kv', other) == Lookup(cfg, kv, other)
  {
    if PrivateKey(cfg, other).Some? {
      var q := PrivateKey(cfg, other).value;
      assert q in kv'.data <==> q in kv'.data - {pk};
      assert q in kv.data <==> q in kv.data - {pk};
      if q in kv.data {
        assert kv.data[q] == (kv.data - {pk})[q] == (kv'.data - {pk})[q] == kv'.data[q];
      }
    }
  }

  /** Create, then get with the returned key, yields the record created. */
  lemma CreateThenGet(cfg: Config, kv: Backend, data: FlowCache, draw: Draw)
    requires Encrypter.RoundTrips(cfg.cipher) && draw.Sized()
    ensures var c := Create(cfg, kv, data, draw);
      Get(cfg, c.backend, c.result.value).result == Ok(data)
  {
  }

  /** Set, then get with the same key, yields the record set. */
  lemma SetThenGet(cfg: Config, kv: Backend, key: string, data: FlowCache)
    requires PrivateKey(cfg, key).Some?
    ensures Get(cfg, Set(cfg, kv, key, data).backend, key).result == Ok(data)
  {
  }

  /** After destroy, get with the same key fails with `NotFound`; if the
      key did not decrypt, both fail with the cipher's error. */
  lemma DestroyThenGet(cfg: Config, kv: Backend, key: string)
    ensures var d := Destroy(cfg, kv, key);
      var g := Get(cfg, d.backend, key);
      g.result.Err?
      && (PrivateKey(cfg, key).Some? ==> g.result.error == NotFound)
      && (PrivateKey(cfg, key).None? ==> d.result.error == g.result.error)
  {
  }

  /** A write under one public key leaves every record behind a different
      private key as it was. */
  lemma SetLeavesOthers(cfg: Config, kv: Backend, key: string, data: FlowCache, other: string)
    requires PrivateKey(cfg, key).Some?
    requires PrivateKey(cfg, other) != PrivateKey(cfg, key)
    ensures Lookup(cfg, Set(cfg, kv, key, data).backend, other) == Lookup(cfg, kv, other)
    ensures Lookup(cfg, Destroy(cfg, kv, key).backend, other) == Lookup(cfg, kv, other)
  {
    var pk := PrivateKey(cfg, key).value;
    LookupFrame(cfg, kv, Set(cfg, kv, key, data).backend, pk, other);
    LookupFrame(cfg, kv, Destroy(cfg, kv, key).backend, pk, other);
  }
}
