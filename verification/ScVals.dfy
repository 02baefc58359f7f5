/** Contract values and their JSON form. */
module ScVals {
  import opened Wrappers
  import opened Json
  import opened Decimal
  import opened Model
  import opened Projections

  const TWO64: int := 0x1_0000_0000_0000_0000

  datatype ScVal =
    | Bool(b: bool)
    | Void
    | Error(text: string)
    | U32(n: int)
    | I32(n: int)
    | U64(n: int)
    | I64(n: int)
    | Timepoint(n: int)
    | Duration(n: int)
    | U128(hi: int, lo: int)
    | I128(hi: int, lo: int)
    | U256
    | I256
    | Bytes(hex: string)
    | String(s: string)
    | Symbol(s: string)
    | Vec(items: seq<ScVal>)
    | NoVec
    | Map(entries: seq<Entry>)
    | NoMap
    | Address(strkey: string)
    | ContractInstance
    | LedgerKeyContractInstance
    | LedgerKeyNonce

  datatype Entry = Entry(key: ScVal, val: ScVal)

  /** A 128-bit value from its halves; the shifted high half and the low half share no bits. */
  function Join(hi: int, lo: int): int { hi * TWO64 + lo }

  function I128Json(hi: int, lo: int): Json {
    var v := Join(hi, lo);
    if FitsI64(v) then JNum(v) else JStr(PrintInt(v))
  }

  function U128Json(hi: int, lo: int): Json {
    var v := Join(hi, lo);
    if FitsU64(v) then JNum(v) else JStr(PrintInt(v))
  }

  function TextOf(v: ScVal): Option<string> {
    if v.Symbol? || v.String? then Some(v.s) else None
  }

  /** None when a map somewhere has a key that is neither symbol nor string. */
  function JsonOf(v: ScVal): Option<Json>
    decreases v, 0
  {
    match v
    case Bool(b) => Some(JBool(b))
    case Error(text) => Some(JStr(text))
    case U32(n) => Some(JNum(n))
    case I32(n) => Some(JNum(n))
    case U64(n) => Some(JNum(n))
    case I64(n) => Some(JNum(n))
    case Timepoint(n) => Some(JNum(n))
    case Duration(n) => Some(JNum(n))
    case U128(hi, lo) => Some(U128Json(hi, lo))
    case I128(hi, lo) => Some(I128Json(hi, lo))
    case Bytes(hex) => Some(JStr(hex))
    case String(s) => Some(JStr(s))
    case Symbol(s) => Some(JStr(s))
    case Address(strkey) => Some(JStr(strkey))
    case Vec(items) =>
      var js :- JsonItems(items);
      Some(JArr(js))
    case Map(entries) =>
      var fields :- JsonFields(entries);
      Some(JObj(fields))
    case _ => Some(JNull)
  }

  function JsonItems(items: seq<ScVal>): (r: Option<seq<Json>>)
    ensures r.Some? ==> |r.value| == |items| && forall i :: 0 <= i < |items| ==> JsonOf(items[i]) == Some(r.value[i])
    decreases items, 1
  {
    if items == [] then Some([])
    else
      var front :- JsonItems(items[..|items| - 1]);
      var last :- JsonOf(items[|items| - 1]);
      Some(front + [last])
  }

  /** Entries are inserted in order, so the last of several equal keys stays. */
  function JsonFields(entries: seq<Entry>): Option<map<string, Json>>
    decreases entries, 1
  {
    if entries == [] then Some(map[])
    else
      var front :- JsonFields(entries[..|entries| - 1]);
      var last :- JsonEntry(entries[|entries| - 1]);
      Some(front[last.0 := last.1])
  }

  function JsonEntry(entry: Entry): Option<(string, Json)>
    decreases entry, 1
  {
    match entry
    case Entry(k, v) =>
      var key :- TextOf(k);
      var val :- JsonOf(v);
      Some((key, val))
  }

  predicate IsText(v: ScVal) { v.Symbol? || v.String? }

  predicate TextIs(v: ScVal, s: string) { v == Symbol(s) || v == String(s) }

  /** Every map in the value has texts for keys. */
  predicate Readable(v: ScVal) {
    match v
    case Vec(items) => forall i :: 0 <= i < |items| ==> Readable(items[i])
    case Map(entries) => forall i :: 0 <= i < |entries| ==> IsText(entries[i].key) && Readable(entries[i].val)
    case _ => true
  }

  ghost predicate LastKey(entries: seq<Entry>, i: int, k: string) {
    0 <= i < |entries| && TextIs(entries[i].key, k) && forall j :: i < j < |entries| ==> !TextIs(entries[j].key, k)
  }

  predicate IsCount(v: ScVal) { v.U32? || v.I32? || v.U64? || v.I64? || v.Timepoint? || v.Duration? }

  /** A 128-bit value too wide for a JSON number: 64 bits, signed or not as the value is. */
  predicate TooWide(v: ScVal)
    requires v.U128? || v.I128?
  {
    var n := v.hi * 0x1_0000_0000_0000_0000 + v.lo;
    if v.U128? then !(0 <= n < 0x1_0000_0000_0000_0000) else !(-0x8000_0000_0000_0000 <= n < 0x8000_0000_0000_0000)
  }

  /** What a JSON value says about the contract value it was read from, form by form. */
  ghost predicate Denotes(v: ScVal, j: Json)
    decreases v
  {
    match j
    case JNull =>
      || v.Void? || v.U256? || v.I256? || v.NoVec? || v.NoMap?
      || v.ContractInstance? || v.LedgerKeyContractInstance? || v.LedgerKeyNonce?
    case JBool(b) => v == Bool(b)
    case JNum(n) =>
      if v.U128? || v.I128? then !TooWide(v) && n == v.hi * 0x1_0000_0000_0000_0000 + v.lo
      else IsCount(v) && n == v.n
    case JStr(s) =>
      if v.U128? || v.I128? then TooWide(v) && s == PrintInt(v.hi * 0x1_0000_0000_0000_0000 + v.lo)
      else TextIs(v, s) || v == Address(s) || v == Bytes(s) || v == Error(s)
    case JArr(js) =>
      v.Vec? && |v.items| == |js| && forall i :: 0 <= i < |js| ==> Denotes(v.items[i], js[i])
    case JObj(fields) =>
      && v.Map? && Readable(v)
      && (forall k :: k in fields <==> exists i :: 0 <= i < |v.entries| && TextIs(v.entries[i].key, k))
      && (forall i, k :: LastKey(v.entries, i, k) && k in fields ==> Denotes(v.entries[i].val, fields[k]))
  }

  lemma {:induction false} ItemsExact(items: seq<ScVal>)
    ensures JsonItems(items).Some? <==> forall i :: 0 <= i < |items| ==> JsonOf(items[i]).Some?
  {
    if items != [] {
      var front := items[..|items| - 1];
      ItemsExact(front);
      assert forall i :: 0 <= i < |front| ==> items[i] == front[i];
    }
  }

  ghost predicate EntryReads(entry: Entry) {
    IsText(entry.key) && JsonOf(entry.val).Some?
  }

  /** The object's keys are the entries' keys, and each holds the value of the last entry with it. */
  ghost predicate FieldsOf(entries: seq<Entry>, fields: map<string, Json>) {
    && (forall k :: k in fields <==> exists i :: 0 <= i < |entries| && TextIs(entries[i].key, k))
    && (forall i, k :: LastKey(entries, i, k) ==> k in fields && JsonOf(entries[i].val) == Some(fields[k]))
  }

  lemma FieldsSnoc(front: seq<Entry>, last: Entry, before: map<string, Json>)
    requires FieldsOf(front, before) && EntryReads(last)
    ensures FieldsOf(front + [last], before[last.key.s := JsonOf(last.val).value])
  {
    var entries, fields := front + [last], before[last.key.s := JsonOf(last.val).value];
    assert entries[|front|] == last && forall i :: 0 <= i < |front| ==> entries[i] == front[i];
    forall k ensures k in fields <==> exists i :: 0 <= i < |entries| && TextIs(entries[i].key, k) {
      assert TextIs(entries[|front|].key, last.key.s);
      if k in before {
        var i :| 0 <= i < |front| && TextIs(front[i].key, k);
        assert TextIs(entries[i].key, k);
      }
    }
    forall i, k | LastKey(entries, i, k) ensures k in fields && JsonOf(entries[i].val) == Some(fields[k]) {
      if i < |front| {
        assert LastKey(front, i, k) && !TextIs(entries[|front|].key, k);
      }
    }
  }

  lemma {:induction false} FieldsExact(entries: seq<Entry>)
    ensures JsonFields(entries).Some? <==> forall i :: 0 <= i < |entries| ==> EntryReads(entries[i])
    ensures JsonFields(entries).Some? ==> FieldsOf(entries, JsonFields(entries).value)
  {
    if entries != [] {
      var n := |entries| - 1;
      var front, last := entries[..n], entries[n];
      FieldsExact(front);
      assert forall i :: 0 <= i < n ==> entries[i] == front[i];
      assert JsonEntry(last) == if EntryReads(last) then Some((last.key.s, JsonOf(last.val).value)) else None;
      if JsonFields(front).Some? && EntryReads(last) {
        FieldsSnoc(front, last, JsonFields(front).value);
        assert entries == front + [last];
      }
    }
  }

  lemma {:induction false} ReadableExact(v: ScVal)
    ensures Readable(v) <==> JsonOf(v).Some?
    decreases v
  {
    match v
    case Vec(items) =>
      ItemsExact(items);
      forall i | 0 <= i < |items| ensures Readable(items[i]) <==> JsonOf(items[i]).Some? {
        ReadableExact(items[i]);
      }
    case Map(entries) =>
      FieldsExact(entries);
      forall i | 0 <= i < |entries|
        ensures IsText(entries[i].key) && Readable(entries[i].val) <==> EntryReads(entries[i])
      {
        ReadableExact(entries[i].val);
      }
    case _ =>
  }

  lemma LastKeyExists(entries: seq<Entry>, i: int, k: string) returns (last: int)
    requires 0 <= i < |entries| && TextIs(entries[i].key, k)
    ensures LastKey(entries, last, k)
    decreases |entries| - i
  {
    if j :| i < j < |entries| && TextIs(entries[j].key, k) {
      last := LastKeyExists(entries, j, k);
    } else {
      last := i;
    }
  }

  ghost predicate ValueExact(v: ScVal) {
    forall j :: JsonOf(v) == Some(j) <==> Denotes(v, j)
  }

  lemma VecExact(items: seq<ScVal>)
    requires forall i :: 0 <= i < |items| ==> ValueExact(items[i])
    ensures ValueExact(Vec(items))
  {
    ItemsExact(items);
    forall j ensures JsonOf(Vec(items)) == Some(j) <==> Denotes(Vec(items), j) {
      if Denotes(Vec(items), j) {
        forall i | 0 <= i < |items| ensures JsonOf(items[i]) == Some(j.items[i]) {
          assert ValueExact(items[i]);
        }
        assert JsonItems(items).value == j.items;
      }
      if JsonOf(Vec(items)) == Some(j) {
        assert forall i :: 0 <= i < |items| ==> ValueExact(items[i]) && JsonOf(items[i]) == Some(j.items[i]);
      }
    }
  }

  lemma MapSame(entries: seq<Entry>, fields: map<string, Json>, given: map<string, Json>)
    requires forall i :: 0 <= i < |entries| ==> ValueExact(entries[i].val)
    requires FieldsOf(entries, fields) && Denotes(Map(entries), JObj(given))
    ensures fields == given
  {
    forall k ensures k in fields <==> k in given {}
    forall k | k in fields ensures fields[k] == given[k] {
      var i :| 0 <= i < |entries| && TextIs(entries[i].key, k);
      var last := LastKeyExists(entries, i, k);
      assert ValueExact(entries[last].val) && Denotes(entries[last].val, given[k]);
      assert JsonOf(entries[last].val) == Some(fields[k]);
    }
  }

  lemma MapDenotes(entries: seq<Entry>, fields: map<string, Json>)
    requires forall i :: 0 <= i < |entries| ==> ValueExact(entries[i].val)
    requires FieldsOf(entries, fields) && Readable(Map(entries))
    ensures Denotes(Map(entries), JObj(fields))
  {
    forall i, k | LastKey(entries, i, k) && k in fields ensures Denotes(entries[i].val, fields[k]) {
      assert ValueExact(entries[i].val);
    }
  }

  lemma MapExact(entries: seq<Entry>)
    requires forall i :: 0 <= i < |entries| ==> ValueExact(entries[i].val)
    ensures ValueExact(Map(entries))
  {
    var v := Map(entries);
    FieldsExact(entries);
    ReadableExact(v);
    if Readable(v) {
      var fields := JsonFields(entries).value;
      assert JsonOf(v) == Some(JObj(fields));
      MapDenotes(entries, fields);
      forall j ensures JsonOf(v) == Some(j) <==> Denotes(v, j) {
        if Denotes(v, j) {
          MapSame(entries, fields, j.fields);
        }
      }
    }
  }

  lemma WideExact(v: ScVal)
    requires v.U128? || v.I128?
    ensures ValueExact(v)
  {
    var n := v.hi * 0x1_0000_0000_0000_0000 + v.lo;
    assert JsonOf(v) == Some(if TooWide(v) then JStr(PrintInt(n)) else JNum(n));
  }

  lemma PlainExact(v: ScVal, j: Json)
    requires !v.Vec? && !v.Map? && !v.U128? && !v.I128?
    ensures JsonOf(v) == Some(j) <==> Denotes(v, j)
  {
  }

  /** The reader gives exactly what the forms say: every kind of value, nested ones and repeated keys included. */
  lemma {:induction false} DenotesExact(v: ScVal)
    ensures forall j :: JsonOf(v) == Some(j) <==> Denotes(v, j)
    ensures ValueExact(v)
    decreases v
  {
    match v
    case Vec(items) =>
      forall i | 0 <= i < |items| ensures ValueExact(items[i]) {
        DenotesExact(items[i]);
      }
      VecExact(items);
    case Map(entries) =>
      forall i | 0 <= i < |entries| ensures ValueExact(entries[i].val) {
        DenotesExact(entries[i].val);
      }
      MapExact(entries);
    case U128(_, _) => WideExact(v);
    case I128(_, _) => WideExact(v);
    case _ =>
      forall j ensures JsonOf(v) == Some(j) <==> Denotes(v, j) {
        PlainExact(v, j);
      }
  }

  /** The number a stored amount stands for, printed as a JSON number or as a string. */
  function Amount(j: Json): Option<int> {
    match j
    case JNum(n) => Some(n)
    case JStr(s) => ParseInt(s)
    case _ => None
  }

  /** No 128-bit amount loses a digit on its way into JSON, signed or unsigned. */
  lemma AmountExact(hi: int, lo: int)
    ensures Amount(I128Json(hi, lo)) == Some(hi * 0x1_0000_0000_0000_0000 + lo)
    ensures Amount(U128Json(hi, lo)) == Some(hi * 0x1_0000_0000_0000_0000 + lo)
  {
    PrintParse(Join(hi, lo));
  }

  /** Different signed halves stand for different amounts, so the JSON form determines them. */
  lemma AmountInjective(hi: int, lo: int, hi': int, lo': int)
    requires FitsI64(hi) && FitsU64(lo) && FitsI64(hi') && FitsU64(lo')
    requires I128Json(hi, lo) == I128Json(hi', lo')
    ensures hi == hi' && lo == lo'
  {
    AmountExact(hi, lo);
    AmountExact(hi', lo');
    assert Join(hi, lo) == Join(hi', lo');
    assert (hi - hi') * TWO64 == lo' - lo;
  }

  /** The ranges of the two 64-bit halves. */
  predicate IsWide(v: ScVal) {
    (v.I128? && FitsI64(v.hi) && FitsU64(v.lo)) || (v.U128? && FitsU64(v.hi) && FitsU64(v.lo))
  }

  /** A positional decoder reads a 128-bit amount exactly when it fits i64, and otherwise reads nothing. */
  lemma PositionalAmount(items: seq<ScVal>, data: Json, i: nat)
    requires JsonOf(Vec(items)) == Some(data) && i < |items|
    requires IsWide(items[i])
    ensures
      var v := Join(items[i].hi, items[i].lo);
      GetI64(data, i) == if FitsI64(v) then Some(v) else None
  {
    assert JsonItems(items).Some? && data.items == JsonItems(items).value;
    assert JsonOf(items[i]) == Some(data.items[i]);
  }

  /** The amounts a decoded statement carries, in payload order. */
  function Money(d: Decoded): seq<int> {
    match d
    case OnEscrow(Create(_, made)) => [made.amount]
    case OnEscrow(Deposit(_, amount, _)) => [amount]
    case OnEscrow(Release(_, amount, _)) => [amount]
    case OnFinancing(Create(_, made)) => [made.totalAmount, made.drawnAmount, made.repaidAmount]
    case OnFinancing(Deposit(_, amount, _)) => [amount]
    case OnFinancing(Release(_, amount, _)) => [amount]
    case OnFinancing(Refund(_, amount, _, _)) => [amount]
    case _ => []
  }

  /** Where the event's payload carries its amounts. */
  function AmountSlots(e: ChainEvent): seq<nat> {
    if e.contractName == ESCROW then
      if e.eventName == "EscrowCreated" then [3]
      else if e.eventName == "EscrowDeposited" || e.eventName == "EscrowReleased" then [2]
      else []
    else if e.contractName == FINANCING then
      if e.eventName == "FinancingCreated" then [3, 4, 8]
      else if e.eventName == "FinancingDeposited" || e.eventName == "FinancingReleased" ||
              e.eventName == "FinancingRefunded" then [1]
      else []
    else []
  }

  /** A statement carries exactly what the positional reader finds at the payload's amount slots. */
  lemma MoneyIsRead(e: ChainEvent)
    ensures Decode(e) != Malformed ==> |Money(Decode(e))| == |AmountSlots(e)|
    ensures forall n :: 0 <= n < |AmountSlots(e)| ==>
              if GetI64(e.data, AmountSlots(e)[n]).None? then Decode(e) == Malformed
              else Decode(e) != Malformed ==> Money(Decode(e))[n] == GetI64(e.data, AmountSlots(e)[n]).value
  {
  }

  /** From contract value to table statement an amount is the same number or the payload is rejected. */
  lemma AmountEndToEnd(e: ChainEvent, items: seq<ScVal>, n: nat)
    requires JsonOf(Vec(items)) == Some(e.data)
    requires n < |AmountSlots(e)| && AmountSlots(e)[n] < |items|
    requires IsWide(items[AmountSlots(e)[n]])
    ensures
      var slot := items[AmountSlots(e)[n]];
      var v := Join(slot.hi, slot.lo);
      && (!FitsI64(v) ==> Decode(e) == Malformed)
      && (Decode(e) != Malformed ==> |Money(Decode(e))| == |AmountSlots(e)| && Money(Decode(e))[n] == v)
  {
    PositionalAmount(items, e.data, AmountSlots(e)[n]);
    MoneyIsRead(e);
  }
}
