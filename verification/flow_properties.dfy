/** Properties of the flow that span several operations: the gate keeper's
    transitions keep a session on a schema position, `knock` and `test`
    agree, `next` runs a session to completion and deletes it, and
    `setData` merges. */
module FlowProperties {
  import opened Base
  import opened FlowTypes
  import Store = GateFlowStore
  import Encrypter
  import opened GateKeeper
  import opened GateFlow

  /** `knock` succeeds exactly when `test` reports the gate valid. */
  lemma KnockAgreesWithTest(cfg: Store.Config, kv: Store.Backend, k: Keeper, gate: Value)
    ensures Knock(cfg, kv, k, gate).result.Ok?
        <==> Test(cfg, kv, k, gate).result.Ok? && Test(cfg, kv, k, gate).result.value.isValid
  {
  }

  /** In a well-formed schema every allowed name is found by `getGateIndex`. */
  lemma AllowedNameHasIndex(schema: Schema, i: int, gate: string)
    requires WellFormed(schema)
    requires 0 <= i < |schema| && gate in schema[i].allowed
    ensures 0 <= GetGateIndex(schema, gate)
  {
    var names := Names(schema);
    assert gate in names;
    var j :| 0 <= j < |names| && names[j] == gate;
    assert schema[j].name == gate;
  }

  /** In a well-formed schema an accepted knock makes the knocked gate the
      active one, and the record stays on a schema position. */
  lemma KnockThenActiveGate(cfg: Store.Config, kv: Store.Backend, k: Keeper, gate: string)
    requires WellFormed(k.schema) && |gate| > 0
    requires Store.Lookup(cfg, kv, k.key).Some?
    requires IsValidGate(k.schema, gate, Store.Lookup(cfg, kv, k.key).value.activeGateIndex)
    ensures var after := Knock(cfg, kv, k, Str(gate)).backend;
      Store.Lookup(cfg, after, k.key).Some?
      && Live(k.schema, Store.Lookup(cfg, after, k.key).value)
      && GetActiveGate(cfg, after, k).result == Ok(gate)
  {
    var c := Store.Lookup(cfg, kv, k.key).value;
    AllowedNameHasIndex(k.schema, c.activeGateIndex, gate);
    var i := GetGateIndex(k.schema, gate);
    var after := Knock(cfg, kv, k, Str(gate)).backend;
    assert Store.Lookup(cfg, after, k.key) == Some(FlowCache(i, c.session));
    assert k.schema[i].name == gate;
  }

  /** Every transition keeps a live record on a schema position: `knock`
      (in a well-formed schema), `setData`, and `next`, which either moves
      to the following position or deletes the record. */
  lemma TransitionsKeepLive(cfg: Store.Config, kv: Store.Backend, k: Keeper, gate: Value, property: string, data: Value)
    requires WellFormed(k.schema)
    requires Store.Lookup(cfg, kv, k.key).Some? && Live(k.schema, Store.Lookup(cfg, kv, k.key).value)
    ensures var after := Store.Lookup(cfg, Knock(cfg, kv, k, gate).backend, k.key);
      after.Some? && Live(k.schema, after.value)
    ensures var after := Store.Lookup(cfg, SetData(cfg, kv, k, property, data).backend, k.key);
      after.Some? && Live(k.schema, after.value)
    ensures var after := Store.Lookup(cfg, Next(cfg, kv, k).backend, k.key);
      after.None? || Live(k.schema, after.value)
  {
    var c := Store.Lookup(cfg, kv, k.key).value;
    if IsNonEmptyString(gate) && IsValidGate(k.schema, gate.s, c.activeGateIndex) {
      KnockThenActiveGate(cfg, kv, k, gate.s);
    }
  }

  /** The flow of the library's own tests. */
  const ExampleSchema: Schema := [
    Gate("register", ["register"]),
    Gate("mfasend", ["register", "mfasend", "mfaverify"]),
    Gate("mfaverify", ["register", "mfasend", "mfaverify"]),
    Gate("complete", ["register", "mfasend", "mfaverify", "complete"])
  ]

  /** Knocking moves a session backwards: from "mfaverify" (position 2),
      knocking on "mfasend" makes position 1 active, session data intact;
      "complete" is refused there. */
  lemma KnockRegresses(cfg: Store.Config, kv: Store.Backend, key: string, session: Session)
    requires Store.Lookup(cfg, kv, key) == Some(FlowCache(2, session))
    ensures var k := Keeper(key, ExampleSchema);
      var s := Knock(cfg, kv, k, Str("mfasend"));
      s.result == Ok("mfasend")
      && Store.Lookup(cfg, s.backend, key) == Some(FlowCache(1, session))
      && GetActiveGate(cfg, s.backend, k).result == Ok("mfasend")
    ensures var s := Knock(cfg, kv, Keeper(key, ExampleSchema), Str("complete"));
      s.result == Err(Rejected("Invalid gate")) && s.backend == kv
  {
    var names := Names(ExampleSchema);
    assert names[0] == "register" && names[1] == "mfasend";
    assert GetGateIndex(ExampleSchema, "mfasend") == 1;
    assert "complete" !in ExampleSchema[2].allowed;
  }

  /** `setData` is exactly a shallow merge of one field. */
  lemma SetDataMerges(cfg: Store.Config, kv: Store.Backend, k: Keeper, property: string, data: Value)
    requires Store.Lookup(cfg, kv, k.key).Some?
    ensures var c := Store.Lookup(cfg, kv, k.key).value;
      Store.Lookup(cfg, SetData(cfg, kv, k, property, data).backend, k.key)
      == Some(FlowCache(c.activeGateIndex, c.session[property := data]))
  {
    var c := Store.Lookup(cfg, kv, k.key).value;
    var after := Store.Lookup(cfg, SetData(cfg, kv, k, property, data).backend, k.key).value;
    assert after.session.Keys == c.session[property := data].Keys;
    assert after.session == c.session[property := data];
  }

  /** Setting two fields one after the other keeps both and everything the
      session held before. */
  lemma SetDataTwice(cfg: Store.Config, kv: Store.Backend, k: Keeper, p1: string, d1: Value, p2: string, d2: Value)
    requires Store.Lookup(cfg, kv, k.key).Some?
    requires p1 != p2
    ensures var c := Store.Lookup(cfg, kv, k.key).value;
      var kv1 := SetData(cfg, kv, k, p1, d1).backend;
      var kv2 := SetData(cfg, kv1, k, p2, d2).backend;
      var data := GetData(cfg, kv2, k).result;
      data == Ok(c.session[p1 := d1][p2 := d2])
      && p1 in data.value && data.value[p1] == d1
      && p2 in data.value && data.value[p2] == d2
      && (forall f :: f in c.session && f != p1 && f != p2 ==> f in data.value && data.value[f] == c.session[f])
  {
    var kv1 := SetData(cfg, kv, k, p1, d1).backend;
    SetDataMerges(cfg, kv, k, p1, d1);
    SetDataMerges(cfg, kv1, k, p2, d2);
  }

  /** `next` called `n` times in a row: the backend after the last call and
      the result of each call. */
  function NextTimes(cfg: Store.Config, kv: Store.Backend, k: Keeper, n: nat): (r: (Store.Backend, seq<Result<(bool, Session)>>))
    ensures |r.1| == n
    decreases n
  {
    if n == 0 then (kv, [])
    else
      var s := Next(cfg, kv, k);
      var rest := NextTimes(cfg, s.backend, k, n - 1);
      (rest.0, [s.result] + rest.1)
  }

  /** From position `i`, `next` called `|schema| - i` times reports
      "not completed" on every call but the last, which reports completion;
      each returns the session data unchanged, and the record is gone
      afterwards. */
  lemma {:induction false} NextRunsToCompletion(cfg: Store.Config, kv: Store.Backend, k: Keeper, c: FlowCache)
    requires Store.Lookup(cfg, kv, k.key) == Some(c) && Live(k.schema, c)
    ensures var r := NextTimes(cfg, kv, k, |k.schema| - c.activeGateIndex);
      (forall j :: 0 <= j < |r.1| - 1 ==> r.1[j] == Ok((false, c.session)))
      && r.1[|r.1| - 1] == Ok((true, c.session))
      && Store.Lookup(cfg, r.0, k.key) == None
    decreases |k.schema| - c.activeGateIndex
  {
    var n := |k.schema| - c.activeGateIndex;
    var s := Next(cfg, kv, k);
    if c.activeGateIndex + 1 < |k.schema| {
      var c' := FlowCache(c.activeGateIndex + 1, c.session);
      NextRunsToCompletion(cfg, s.backend, k, c');
      var rest := NextTimes(cfg, s.backend, k, n - 1);
      var r := NextTimes(cfg, kv, k, n);
      assert r.1 == [s.result] + rest.1;
      forall j | 0 <= j < |r.1| - 1
        ensures r.1[j] == Ok((false, c.session))
      {
        if j > 0 {
          assert r.1[j] == rest.1[j - 1];
        }
      }
    }
  }

  /** A key a fresh `create` returned resumes to a keeper with that same key. */
  lemma CreateThenContinue(cfg: Store.Config, kv: Store.Backend, flow: Flow, session: Option<Session>, draw: Store.Draw)
    requires Encrypter.RoundTrips(cfg.cipher) && draw.Sized()
    ensures var c := Create(cfg, kv, flow, session, draw);
      var key := c.result.value.key;
      Continue(cfg, c.backend, flow, Str(key)).result == Ok(Keeper(key, flow.schema))
  {
    var c := Create(cfg, kv, flow, session, draw);
    KeyIsNonEmpty(cfg, c.backend, c.result.value.key);
  }

  /** A key designating a record is a non-empty string. */
  lemma KeyIsNonEmpty(cfg: Store.Config, kv: Store.Backend, key: string)
    requires Store.PrivateKey(cfg, key).Some?
    ensures |key| > 0
  {
  }

  /** Resuming with a token that is no encryption at all, such as the gate
      name "complete", fails with "Invalid key" without touching the store:
      its IV is too short. */
  lemma ContinueForeignKey(cfg: Store.Config, kv: Store.Backend, flow: Flow)
    ensures var r := Continue(cfg, kv, flow, Str("complete"));
      r.result == Err(InvalidKey) && r.calls == [] && r.backend == kv
  {
    Encrypter.ShortTokenIsInvalidKey(cfg.cipher, "complete");
  }

  /** A fresh session sits on the first gate with the session data it was
      created with (`{}` when none was given). */
  lemma CreateThenFirstGate(cfg: Store.Config, kv: Store.Backend, flow: Flow, session: Option<Session>, draw: Store.Draw)
    requires Encrypter.RoundTrips(cfg.cipher) && draw.Sized()
    requires |flow.schema| > 0
    ensures var c := Create(cfg, kv, flow, session, draw);
      GetActiveGate(cfg, c.backend, c.result.value).result == Ok(flow.schema[0].name)
      && GetData(cfg, c.backend, c.result.value).result == Ok(InitialSession(session))
  {
  }

  /** A fresh session driven by `next` alone completes exactly on the
      `|schema|`-th call, and its key can no longer be resumed: `continue`
      then fails because the deleted record reads as empty text. */
  lemma FlowCompletesThenKeyIsDead(cfg: Store.Config, kv: Store.Backend, flow: Flow, session: Option<Session>, draw: Store.Draw)
    requires Encrypter.RoundTrips(cfg.cipher) && draw.Sized()
    requires |flow.schema| > 0
    ensures var c := Create(cfg, kv, flow, session, draw);
      var r := NextTimes(cfg, c.backend, c.result.value, |flow.schema|);
      |r.1| == |flow.schema|
      && (forall j :: 0 <= j < |r.1| - 1 ==> r.1[j] == Ok((false, InitialSession(session))))
      && r.1[|r.1| - 1] == Ok((true, InitialSession(session)))
      && Continue(cfg, r.0, flow, Str(c.result.value.key)).result == Err(NotFound)
  {
    var c := Create(cfg, kv, flow, session, draw);
    var k := c.result.value;
    NextRunsToCompletion(cfg, c.backend, k, FlowCache(0, InitialSession(session)));
    KeyIsNonEmpty(cfg, c.backend, k.key);
  }

  /** In the example flow a session at position 1, 2 or 3 may knock on its
      own gate: the record stays put and that gate is the active one. */
  lemma KnockOwnGate(cfg: Store.Config, kv: Store.Backend, key: string, i: int, s0: Session)
    requires 1 <= i < 4
    requires Store.Lookup(cfg, kv, key) == Some(FlowCache(i, s0))
    ensures var k := Keeper(key, ExampleSchema);
      var kn := Knock(cfg, kv, k, Str(ExampleSchema[i].name));
      kn.result == Ok(ExampleSchema[i].name)
      && Store.Lookup(cfg, kn.backend, key) == Some(FlowCache(i, s0))
      && GetActiveGate(cfg, kn.backend, k).result == Ok(ExampleSchema[i].name)
  {
    var names := Names(ExampleSchema);
    assert names[0] == "register" && names[1] == "mfasend" && names[2] == "mfaverify" && names[3] == "complete";
    assert GetGateIndex(ExampleSchema, ExampleSchema[i].name) == i;
  }

  /** The first half of the library's walk through the example flow: a
      fresh session advances to "mfasend", is resumed, knocks on
      "mfasend" and advances again, to position 2. */
  lemma ExampleFlowStart(cfg: Store.Config, kv: Store.Backend, draw: Store.Draw, s0: Session)
    requires Encrypter.RoundTrips(cfg.cipher) && draw.Sized()
    ensures var flow := Flow(ExampleSchema);
      var c := Create(cfg, kv, flow, Some(s0), draw);
      var k := c.result.value;
      var n1 := Next(cfg, c.backend, k);
      var kn2 := Knock(cfg, n1.backend, k, Str("mfasend"));
      var n2 := Next(cfg, kn2.backend, k);
      n1.result == Ok((false, s0))
      && Continue(cfg, n1.backend, flow, Str(k.key)).result == Ok(k)
      && kn2.result == Ok("mfasend") && n2.result == Ok((false, s0))
      && Store.Lookup(cfg, n2.backend, k.key) == Some(FlowCache(2, s0))
  {
    var c := Create(cfg, kv, Flow(ExampleSchema), Some(s0), draw);
    var k := c.result.value;
    KeyIsNonEmpty(cfg, c.backend, k.key);
    var n1 := Next(cfg, c.backend, k);
    assert Store.Lookup(cfg, n1.backend, k.key) == Some(FlowCache(1, s0));
    KnockOwnGate(cfg, n1.backend, k.key, 1, s0);
  }

  /** The second half: from position 2 the session knocks on "mfaverify",
      advances, knocks on "complete" and advances once more, which completes
      the flow with the session data and leaves the key dead. */
  lemma ExampleFlowFinish(cfg: Store.Config, kv: Store.Backend, key: string, s0: Session)
    requires Store.Lookup(cfg, kv, key) == Some(FlowCache(2, s0))
    ensures var k := Keeper(key, ExampleSchema);
      var kn3 := Knock(cfg, kv, k, Str("mfaverify"));
      var n3 := Next(cfg, kn3.backend, k);
      var kn4 := Knock(cfg, n3.backend, k, Str("complete"));
      var n4 := Next(cfg, kn4.backend, k);
      GetActiveGate(cfg, kn3.backend, k).result == Ok("mfaverify")
      && n3.result == Ok((false, s0))
      && GetActiveGate(cfg, kn4.backend, k).result == Ok("complete")
      && n4.result == Ok((true, s0))
      && Continue(cfg, n4.backend, Flow(ExampleSchema), Str(key)).result == Err(NotFound)
  {
    var k := Keeper(key, ExampleSchema);
    KeyIsNonEmpty(cfg, kv, key);
    KnockOwnGate(cfg, kv, key, 2, s0);
    var kn3 := Knock(cfg, kv, k, Str("mfaverify"));
    var n3 := Next(cfg, kn3.backend, k);
    assert Store.Lookup(cfg, n3.backend, key) == Some(FlowCache(3, s0));
    KnockOwnGate(cfg, n3.backend, key, 3, s0);
  }
}
