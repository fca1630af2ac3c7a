/** The entry point: starts new sessions at the first gate and resumes
    existing ones by public key, handing out gate keepers. */
module GateFlow {
  import opened Base
  import opened FlowTypes
  import Store = GateFlowStore
  import Encrypter
  import opened GateKeeper

  /** A flow over one schema; the store's configuration is passed to each
      operation. */
  datatype Flow = Flow(schema: Schema)

  /** `buildSchema`: returns its argument unchanged; it exists only so that
      callers get the schema's shape checked at compile time. */
  function BuildSchema(structure: Schema): (r: Schema)
    ensures r == structure
  {
    structure
  }

  /** The session data a new session starts with: the argument, or `{}`
      when it is left undefined. */
  function InitialSession(session: Option<Session>): Session {
    session.GetOr(map[])
  }

  /** `create(session = {})`: stores a record at index 0 holding the given
      session data under a fresh key, and returns a keeper for that key. */
  function Create(cfg: Store.Config, kv: Store.Backend, flow: Flow, session: Option<Session>, draw: Store.Draw): (r: Store.Step<Keeper>)
    requires draw.Sized()
    ensures r.result.Ok? && r.result.value.schema == flow.schema
    ensures Store.Traced(kv, r) && Store.WritesUseTtl(cfg, r.calls)
    ensures Encrypter.RoundTrips(cfg.cipher) ==>
      Store.Lookup(cfg, r.backend, r.result.value.key) == Some(FlowCache(0, InitialSession(session)))
      && Store.OnlyTouches(kv, r.backend, Store.PrivateKey(cfg, r.result.value.key).value)
  {
    var s := Store.Create(cfg, kv, FlowCache(0, InitialSession(session)), draw);
    Store.Step(Ok(Keeper(s.result.value, flow.schema)), s.backend, s.calls)
  }

  /** `continue(key)`: refuses anything but a non-empty string before
      touching the store, then reads the record to confirm it exists and
      returns a keeper bound to the same key.  The backend is only read. */
  function Continue(cfg: Store.Config, kv: Store.Backend, flow: Flow, key: Value): (r: Store.Step<Keeper>)
    ensures !IsNonEmptyString(key) ==> r.result == Err(KeyNotDefined) && r.calls == []
    ensures r.backend == kv
    ensures IsNonEmptyString(key) ==> Store.FailsClosed(cfg, kv, key.s, r)
    ensures IsNonEmptyString(key) ==> (r.result.Ok? <==> Store.Lookup(cfg, kv, key.s).Some?)
    ensures IsNonEmptyString(key) && Store.Missing(cfg, kv, key.s) ==> r.result == Err(NotFound)
    ensures r.result.Ok? ==> r.result.value == Keeper(key.s, flow.schema)
  {
    if !IsNonEmptyString(key) then Store.Step(Err(KeyNotDefined), kv, [])
    else
      var g := Store.Get(cfg, kv, key.s);
      match g.result
      case Err(e) => Store.Step(Err(e), g.backend, g.calls)
      case Ok(_) => Store.Step(Ok(Keeper(key.s, flow.schema)), g.backend, g.calls)
  }
}
