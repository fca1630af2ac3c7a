/** The gate keeper: a stateless façade over the one record a public key
    designates.  Every operation re-reads the record through the store, so a
    keeper is just the public key and the schema. */
module GateKeeper {
  import opened Base
  import opened FlowTypes
  import Store = GateFlowStore

  const InvalidGateMessage: string := "Invalid gate"

  /** A keeper bound to a public key and a schema. */
  datatype Keeper = Keeper(key: string, schema: Schema)

  /** What `test` reports: validity, the errors found, and the session data. */
  datatype Report = Report(isValid: bool, errors: seq<string>, session: Session)

  /** What the internal validation returns: validity, errors, and the record read. */
  datatype Check = Check(isValid: bool, errors: seq<string>, cache: FlowCache)

  /** `getGateIndex`: the first schema position carrying the name `gate`,
      or -1 when no position does. */
  function GetGateIndex(schema: Schema, gate: string): (r: int)
    ensures -1 <= r < |schema|
    ensures r == -1 <==> forall i :: 0 <= i < |schema| ==> schema[i].name != gate
    ensures 0 <= r ==> schema[r].name == gate
    ensures 0 <= r ==> forall j :: 0 <= j < r ==> schema[j].name != gate
  {
    var names := Names(schema);
    var r := IndexOf(names, gate);
    assert r == -1 ==> forall i :: 0 <= i < |schema| ==> names[i] != gate;
    assert 0 <= r ==> forall j :: 0 <= j < r ==> names[..r][j] != gate;
    r
  }

  /** `isValidGate`: whether `gate` is on the allow-list of position
      `gateIndex`; a position outside the schema allows nothing. */
  function IsValidGate(schema: Schema, gate: string, gateIndex: int): (r: bool)
    ensures r <==> 0 <= gateIndex < |schema| && gate in schema[gateIndex].allowed
  {
    if !(0 <= gateIndex < |schema|) then false
    else IndexOf(schema[gateIndex].allowed, gate) != -1
  }

  /** `getCache`: the record behind the keeper's key. */
  function GetCache(cfg: Store.Config, kv: Store.Backend, k: Keeper): (r: Store.Step<FlowCache>)
    ensures Store.FailsClosed(cfg, kv, k.key, r)
    ensures r.backend == kv && Store.Traced(kv, r)
    ensures r.result.Ok? <==> Store.Lookup(cfg, kv, k.key).Some?
    ensures r.result.Ok? ==> Store.Lookup(cfg, kv, k.key) == Some(r.result.value)
    ensures Store.Missing(cfg, kv, k.key) ==> r.result == Err(NotFound)
  {
    Store.Get(cfg, kv, k.key)
  }

  /** `setCache`: overwrites the record behind the keeper's key. */
  function SetCache(cfg: Store.Config, kv: Store.Backend, k: Keeper, c: FlowCache): (r: Store.Step<FlowCache>)
    ensures Store.FailsClosed(cfg, kv, k.key, r)
    ensures Store.Traced(kv, r) && Store.WritesUseTtl(cfg, r.calls)
    ensures Store.PrivateKey(cfg, k.key).Some? ==>
      r.result == Ok(c) && Store.Lookup(cfg, r.backend, k.key) == Some(c)
      && Store.OnlyTouches(kv, r.backend, Store.PrivateKey(cfg, k.key).value)
  {
    Store.Set(cfg, kv, k.key, c)
  }

  /** `setGate`: stores `c` with its active index replaced. */
  function SetGate(cfg: Store.Config, kv: Store.Backend, k: Keeper, gateIndex: int, c: FlowCache): (r: Store.Step<FlowCache>)
    ensures Store.FailsClosed(cfg, kv, k.key, r)
    ensures Store.Traced(kv, r) && Store.WritesUseTtl(cfg, r.calls)
    ensures Store.PrivateKey(cfg, k.key).Some? ==>
      Store.Lookup(cfg, r.backend, k.key) == Some(FlowCache(gateIndex, c.session))
      && Store.OnlyTouches(kv, r.backend, Store.PrivateKey(cfg, k.key).value)
  {
    SetCache(cfg, kv, k, c.(activeGateIndex := gateIndex))
  }

  /** `getTest`: rejects a gate that is not a non-empty string before
      reading anything, then reads the record and checks the gate against
      the allow-list of its active position. */
  function GetTest(cfg: Store.Config, kv: Store.Backend, k: Keeper, gate: Value): (r: Store.Step<Check>)
    ensures !IsNonEmptyString(gate) ==>
      r.result == Err(GateNotDefined) && r.backend == kv && r.calls == []
    ensures r.backend == kv && Store.Traced(kv, r)
    ensures IsNonEmptyString(gate) ==> Store.FailsClosed(cfg, kv, k.key, r)
    ensures IsNonEmptyString(gate) ==> (r.result.Ok? <==> Store.Lookup(cfg, kv, k.key).Some?)
    ensures IsNonEmptyString(gate) && Store.Missing(cfg, kv, k.key) ==> r.result == Err(NotFound)
    ensures r.result.Ok? ==>
      var ch := r.result.value;
      Store.Lookup(cfg, kv, k.key) == Some(ch.cache)
      && (ch.isValid <==> IsValidGate(k.schema, gate.s, ch.cache.activeGateIndex))
      && ch.errors == (if ch.isValid then [] else [InvalidGateMessage])
  {
    if !IsNonEmptyString(gate) then Store.Step(Err(GateNotDefined), kv, [])
    else
      var s := GetCache(cfg, kv, k);
      match s.result
      case Err(e) => Store.Step(Err(e), s.backend, s.calls)
      case Ok(c) =>
        var errors := if IsValidGate(k.schema, gate.s, c.activeGateIndex) then [] else [InvalidGateMessage];
        Store.Step(Ok(Check(|errors| == 0, errors, c)), s.backend, s.calls)
  }

  /** `test`: validates `gate` without changing anything; valid exactly when
      no error was found, which is when the gate is on the active allow-list. */
  function Test(cfg: Store.Config, kv: Store.Backend, k: Keeper, gate: Value): (r: Store.Step<Report>)
    ensures !IsNonEmptyString(gate) ==>
      r.result == Err(GateNotDefined) && r.calls == []
    ensures r.backend == kv
    ensures IsNonEmptyString(gate) ==> Store.FailsClosed(cfg, kv, k.key, r)
    ensures r.result.Ok? ==> (r.result.value.isValid <==> |r.result.value.errors| == 0)
    ensures IsNonEmptyString(gate) && Store.Lookup(cfg, kv, k.key).None? ==> r.result.Err?
    ensures IsNonEmptyString(gate) && Store.Missing(cfg, kv, k.key) ==> r.result == Err(NotFound)
    ensures IsNonEmptyString(gate) && Store.Lookup(cfg, kv, k.key).Some? ==>
      var c := Store.Lookup(cfg, kv, k.key).value;
      r.result.Ok? && r.result.value.session == c.session
      && (r.result.value.isValid <==>
            0 <= c.activeGateIndex < |k.schema| && gate.s in k.schema[c.activeGateIndex].allowed)
      && (r.result.value.errors == [] || r.result.value.errors == [InvalidGateMessage])
  {
    var t := GetTest(cfg, kv, k, gate);
    match t.result
    case Err(e) => Store.Step(Err(e), t.backend, t.calls)
    case Ok(ch) => Store.Step(Ok(Report(ch.isValid, ch.errors, ch.cache.session)), t.backend, t.calls)
  }

  /** `knock`: validates like `test`; a rejected gate fails with the errors
      joined by ", " and changes nothing.  An accepted gate moves the
      active index to the first schema position carrying that name, which
      may lie before the current one, and leaves the session data alone. */
  function Knock(cfg: Store.Config, kv: Store.Backend, k: Keeper, gate: Value): (r: Store.Step<string>)
    ensures !IsNonEmptyString(gate) ==>
      r.result == Err(GateNotDefined) && r.backend == kv && r.calls == []
    ensures IsNonEmptyString(gate) ==> Store.FailsClosed(cfg, kv, k.key, r)
    ensures Store.Traced(kv, r) && Store.WritesUseTtl(cfg, r.calls)
    ensures Store.Lookup(cfg, kv, k.key).None? ==> r.result.Err? && r.backend == kv
    ensures IsNonEmptyString(gate) && Store.Missing(cfg, kv, k.key) ==> r.result == Err(NotFound)
    ensures IsNonEmptyString(gate) && Store.Lookup(cfg, kv, k.key).Some? ==>
      var c := Store.Lookup(cfg, kv, k.key).value;
      if IsValidGate(k.schema, gate.s, c.activeGateIndex) then
        r.result == Ok(gate.s)
        && Store.Lookup(cfg, r.backend, k.key)
           == Some(FlowCache(GetGateIndex(k.schema, gate.s), c.session))
        && Store.OnlyTouches(kv, r.backend, Store.PrivateKey(cfg, k.key).value)
      else
        r.result == Err(Rejected(InvalidGateMessage)) && r.backend == kv
  {
    var t := GetTest(cfg, kv, k, gate);
    match t.result
    case Err(e) => Store.Step(Err(e), t.backend, t.calls)
    case Ok(ch) =>
      if !ch.isValid then
        Store.Step(Err(Rejected(Join(ch.errors, ", "))), t.backend, t.calls)
      else
        var w := SetGate(cfg, t.backend, k, GetGateIndex(k.schema, gate.s), ch.cache);
        Store.Chain(cfg, kv, t, w);
        match w.result
        case Err(e) => Store.Step(Err(e), w.backend, t.calls + w.calls)
        case Ok(_) => Store.Step(Ok(gate.s), w.backend, t.calls + w.calls)
  }

  /** `next`: advances the active index by one, with no allow-list check.
      Reaching the schema length deletes the record and reports completion;
      either way the session data read before the step is returned. */
  function Next(cfg: Store.Config, kv: Store.Backend, k: Keeper): (r: Store.Step<(bool, Session)>)
    ensures Store.FailsClosed(cfg, kv, k.key, r)
    ensures Store.Traced(kv, r) && Store.WritesUseTtl(cfg, r.calls)
    ensures Store.Lookup(cfg, kv, k.key).None? ==> r.result.Err? && r.backend == kv
    ensures Store.Missing(cfg, kv, k.key) ==> r.result == Err(NotFound)
    ensures Store.Lookup(cfg, kv, k.key).Some? ==>
      var c := Store.Lookup(cfg, kv, k.key).value;
      var pk := Store.PrivateKey(cfg, k.key).value;
      Store.OnlyTouches(kv, r.backend, pk)
      && if c.activeGateIndex + 1 == |k.schema| then
        r.result == Ok((true, c.session)) && Store.Lookup(cfg, r.backend, k.key) == None
      else
        r.result == Ok((false, c.session))
        && Store.Lookup(cfg, r.backend, k.key) == Some(FlowCache(c.activeGateIndex + 1, c.session))
  {
    var g := GetCache(cfg, kv, k);
    match g.result
    case Err(e) => Store.Step(Err(e), g.backend, g.calls)
    case Ok(c) =>
      var gateIndex := c.activeGateIndex + 1;
      if gateIndex == |k.schema| then
        var d := Destroy(cfg, g.backend, k);
        Store.Chain(cfg, kv, g, d);
        match d.result
        case Err(e) => Store.Step(Err(e), d.backend, g.calls + d.calls)
        case Ok(_) => Store.Step(Ok((true, c.session)), d.backend, g.calls + d.calls)
      else
        var w := SetGate(cfg, g.backend, k, gateIndex, c);
        Store.Chain(cfg, kv, g, w);
        match w.result
        case Err(e) => Store.Step(Err(e), w.backend, g.calls + w.calls)
        case Ok(_) => Store.Step(Ok((false, c.session)), w.backend, g.calls + w.calls)
  }

  /** `destroy`: deletes the record unconditionally. */
  function Destroy(cfg: Store.Config, kv: Store.Backend, k: Keeper): (r: Store.Step<()>)
    ensures Store.FailsClosed(cfg, kv, k.key, r)
    ensures Store.Traced(kv, r) && Store.WritesUseTtl(cfg, r.calls)
    ensures Store.PrivateKey(cfg, k.key).Some? ==>
      r.result.Ok? && Store.Lookup(cfg, r.backend, k.key) == None
      && Store.OnlyTouches(kv, r.backend, Store.PrivateKey(cfg, k.key).value)
  {
    Store.Destroy(cfg, kv, k.key)
  }

  /** `getData`: the session data of the record. */
  function GetData(cfg: Store.Config, kv: Store.Backend, k: Keeper): (r: Store.Step<Session>)
    ensures Store.FailsClosed(cfg, kv, k.key, r)
    ensures r.backend == kv
    ensures r.result.Ok? <==> Store.Lookup(cfg, kv, k.key).Some?
    ensures r.result.Ok? ==> r.result.value == Store.Lookup(cfg, kv, k.key).value.session
    ensures Store.Missing(cfg, kv, k.key) ==> r.result == Err(NotFound)
  {
    var g := GetCache(cfg, kv, k);
    match g.result
    case Err(e) => Store.Step(Err(e), g.backend, g.calls)
    case Ok(c) => Store.Step(Ok(c.session), g.backend, g.calls)
  }

  /** `setData(property, data)`: shallow-merges one field into the session
      data, keeping every other field and the active index, and returns
      `data`. */
  function SetData(cfg: Store.Config, kv: Store.Backend, k: Keeper, property: string, data: Value): (r: Store.Step<Value>)
    ensures Store.FailsClosed(cfg, kv, k.key, r)
    ensures Store.Traced(kv, r) && Store.WritesUseTtl(cfg, r.calls)
    ensures Store.Lookup(cfg, kv, k.key).None? ==> r.result.Err? && r.backend == kv
    ensures Store.Missing(cfg, kv, k.key) ==> r.result == Err(NotFound)
    ensures Store.Lookup(cfg, kv, k.key).Some? ==>
      var c := Store.Lookup(cfg, kv, k.key).value;
      var after := Store.Lookup(cfg, r.backend, k.key);
      r.result == Ok(data)
      && Store.OnlyTouches(kv, r.backend, Store.PrivateKey(cfg, k.key).value)
      && after.Some?
      && after.value.activeGateIndex == c.activeGateIndex
      && property in after.value.session && after.value.session[property] == data
      && (forall f :: f != property ==> (f in after.value.session <==> f in c.session))
      && (forall f :: f != property && f in c.session ==> after.value.session[f] == c.session[f])
  {
    var g := GetCache(cfg, kv, k);
    match g.result
    case Err(e) => Store.Step(Err(e), g.backend, g.calls)
    case Ok(c) =>
      var w := SetCache(cfg, g.backend, k, c.(session := c.session[property := data]));
      Store.Chain(cfg, kv, g, w);
      match w.result
      case Err(e) => Store.Step(Err(e), w.backend, g.calls + w.calls)
      case Ok(_) => Store.Step(Ok(data), w.backend, g.calls + w.calls)
  }

  /** `getActiveGate`: the name of the record's active schema position.  An
      index outside the schema makes the source read a property of
      `undefined`, a TypeError. */
  function GetActiveGate(cfg: Store.Config, kv: Store.Backend, k: Keeper): (r: Store.Step<string>)
    ensures Store.FailsClosed(cfg, kv, k.key, r)
    ensures r.backend == kv
    ensures Store.Lookup(cfg, kv, k.key).None? ==> r.result.Err?
    ensures Store.Missing(cfg, kv, k.key) ==> r.result == Err(NotFound)
    ensures Store.Lookup(cfg, kv, k.key).Some? ==>
      var c := Store.Lookup(cfg, kv, k.key).value;
      if Live(k.schema, c) then r.result == Ok(k.schema[c.activeGateIndex].name)
      else r.result == Err(NoActiveGate)
  {
    var g := GetCache(cfg, kv, k);
    match g.result
    case Err(e) => Store.Step(Err(e), g.backend, g.calls)
    case Ok(c) =>
      if 0 <= c.activeGateIndex < |k.schema| then Store.Step(Ok(k.schema[c.activeGateIndex].name), g.backend, g.calls)
      else Store.Step(Err(NoActiveGate), g.backend, g.calls)
  }
}
