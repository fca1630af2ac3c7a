/** The shapes the gate keeper works on: a flow schema and the one record
    stored per session (`FlowCache`). */
module FlowTypes {
  import opened Base

  /** One schema position: the gate's own name and the names a session
      positioned here may knock on. */
  datatype Gate = Gate(name: string, allowed: seq<string>)

  type Schema = seq<Gate>

  /** The caller's session data, a plain object. */
  type Session = map<string, Value>

  /** The stored record: the active schema position and the session data. */
  datatype FlowCache = FlowCache(activeGateIndex: int, session: Session)

  /** The gate names in schema order. */
  function Names(schema: Schema): (r: seq<string>)
    ensures |r| == |schema|
    ensures forall i :: 0 <= i < |schema| ==> r[i] == schema[i].name
  {
    seq(|schema|, i requires 0 <= i < |schema| => schema[i].name)
  }

  /** Every name an allow-list mentions is the name of some schema position
      (the source types allowed names as a subtype of gate names). */
  predicate WellFormed(schema: Schema) {
    forall i, a :: 0 <= i < |schema| && a in schema[i].allowed ==> a in Names(schema)
  }

  /** A record a live session may hold: its index is a schema position. */
  predicate Live(schema: Schema, c: FlowCache) {
    0 <= c.activeGateIndex < |schema|
  }
}
