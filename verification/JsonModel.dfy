/** JSON values as JSON.parse yields them. An object keeps its fields in order;
    a number literal too large for a double becomes an infinity. */
module JsonModel {
  import opened Collections

  datatype Num = Fin(value: real) | PosInf | NegInf | NaN

  datatype Json =
    | JNull
    | JBool(flag: bool)
    | JNum(num: Num)
    | JStr(text: string)
    | JArr(items: seq<Json>)
    | JObj(fields: seq<(string, Json)>)

  /** The value of a property, None standing for undefined. */
  function Lookup(fields: seq<(string, Json)>, name: string): Option<Json> {
    if fields == [] then None
    else if fields[|fields| - 1].0 == name then Some(fields[|fields| - 1].1)
    else Lookup(fields[..|fields| - 1], name)
  }

  /** The i-th field decides when no later field has its name. */
  lemma {:induction false} LookupBefore(fields: seq<(string, Json)>, i: nat, name: string)
    requires 0 < i <= |fields| && fields[i - 1].0 == name
    requires forall k :: i <= k < |fields| ==> fields[k].0 != name
    ensures Lookup(fields, name) == Some(fields[i - 1].1)
  {
    if i < |fields| {
      LookupBefore(fields[..|fields| - 1], i, name);
    }
  }

  lemma {:induction false} LookupNone(fields: seq<(string, Json)>, name: string)
    requires forall k :: 0 <= k < |fields| ==> fields[k].0 != name
    ensures Lookup(fields, name) == None
  {
    if fields != [] {
      LookupNone(fields[..|fields| - 1], name);
    }
  }

  /** isRecord(value) ? value : {} */
  function RecordFields(value: Option<Json>): seq<(string, Json)> {
    if value.Some? && value.value.JObj? then value.value.fields else []
  }

  /** Optional chaining: value?.name */
  function Member(value: Option<Json>, name: string): Option<Json> {
    if value.Some? && value.value.JObj? then Lookup(value.value.fields, name) else None
  }

  /** a ?? b: null and undefined fall through. */
  function CoalesceJson(a: Option<Json>, b: Option<Json>): Option<Json> {
    if a.Some? && !a.value.JNull? then a else b
  }

  predicate IsTrue(value: Option<Json>) {
    value == Some(JBool(true))
  }

  /** numberValue: finite numbers only. */
  function NumberValue(value: Option<Json>): Option<real> {
    match value
    case Some(JNum(Fin(r))) => Some(r)
    case _ => None
  }

  /** What JSON.stringify followed by JSON.parse makes of a number. */
  function StoredNum(n: Num): Json {
    if n.Fin? then JNum(n) else JNull
  }
}
