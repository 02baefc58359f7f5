/** The JSON values the event store keeps, with the accessors the decoders use. */
module Json {
  import opened Wrappers

  datatype Json =
    | JNull
    | JBool(b: bool)
    | JNum(n: int)
    | JStr(s: string)
    | JArr(items: seq<Json>)
    | JObj(fields: map<string, Json>)

  const I64_MIN: int := -0x8000_0000_0000_0000
  const I64_MAX: int := 0x7FFF_FFFF_FFFF_FFFF
  const U64_MAX: int := 0xFFFF_FFFF_FFFF_FFFF

  predicate FitsI64(n: int) { I64_MIN <= n <= I64_MAX }

  predicate FitsU64(n: int) { 0 <= n <= U64_MAX }

  /** The `as i32` cast: keep the low 32 bits, read them in two's complement. */
  function AsI32(n: int): (r: int)
    ensures -0x8000_0000 <= r < 0x8000_0000
    ensures (r - n) % 0x1_0000_0000 == 0
  {
    var low := n % 0x1_0000_0000;
    if low < 0x8000_0000 then low else low - 0x1_0000_0000
  }

  function AsI64(j: Json): Option<int> {
    if j.JNum? && FitsI64(j.n) then Some(j.n) else None
  }

  function At(data: Json, i: nat): Option<Json> {
    if data.JArr? && i < |data.items| then Some(data.items[i]) else None
  }

  function GetStr(data: Json, i: nat): Option<string> {
    match At(data, i) case Some(JStr(s)) => Some(s) case _ => None
  }

  function GetU64(data: Json, i: nat): Option<int> {
    match At(data, i) case Some(JNum(n)) => (if FitsU64(n) then Some(n) else None) case _ => None
  }

  function GetI64(data: Json, i: nat): Option<int> {
    match At(data, i) case Some(j) => AsI64(j) case None => None
  }

  function GetI32(data: Json, i: nat): Option<int> {
    match GetI64(data, i) case Some(n) => Some(AsI32(n)) case None => None
  }

  function GetBool(data: Json, i: nat): Option<bool> {
    match At(data, i) case Some(JBool(b)) => Some(b) case _ => None
  }

  function Field(data: Json, key: string): Option<Json> {
    if data.JObj? && key in data.fields then Some(data.fields[key]) else None
  }

  function FieldI64(data: Json, key: string): Option<int> {
    match Field(data, key) case Some(j) => AsI64(j) case None => None
  }

  /** PostgreSQL's `jsonb || jsonb`: objects merge, anything else joins as arrays. */
  function Concat(a: Json, b: Json): Json {
    if a.JObj? && b.JObj? then JObj(a.fields + b.fields)
    else JArr(Elements(a) + Elements(b))
  }

  function Elements(j: Json): seq<Json> {
    if j.JArr? then j.items else [j]
  }

  /** Joining keeps every array item in order; joining two objects keeps the right one's fields. */
  lemma ConcatMeans(a: Json, b: Json)
    ensures a.JArr? && b.JArr? ==> Concat(a, b) == JArr(a.items + b.items)
    ensures a.JArr? && !b.JArr? ==> Concat(a, b) == JArr(a.items + [b])
    ensures !a.JArr? && b.JArr? ==> Concat(a, b) == JArr([a] + b.items)
    ensures !a.JArr? && !b.JArr? && !(a.JObj? && b.JObj?) ==> Concat(a, b) == JArr([a, b])
    ensures a.JObj? && b.JObj? ==>
              && Concat(a, b).JObj?
              && Concat(a, b).fields.Keys == a.fields.Keys + b.fields.Keys
              && forall k :: k in Concat(a, b).fields ==>
                   Concat(a, b).fields[k] == if k in b.fields then b.fields[k] else a.fields[k]
  {
  }
}
