/** The identity projection: the on-chain columns of the `farmers` table. */
module Identities {
  import opened Wrappers
  import opened Json
  import opened Keyed

  const FARMER_ID_PREFIX := "va:farmer:"

  datatype Row = Row(id: string, metadata: Json, metadataHash: string, registered: bool,
                     createdLedger: Option<int>, updatedLedger: Option<int>, markers: Json)

  datatype Op =
    | Register(key: string, created: Option<int>, updated: Option<int>, markers: Json)
    | Metadata(key: string, updated: Option<int>)
    | Marker(key: string, marker: Json)

  function FarmerId(address: string): string { FARMER_ID_PREFIX + address }

  function Fresh(op: Op): Row
    requires op.Register?
  {
    Row(FarmerId(op.key), JObj(map[]), "", true, op.created, op.updated, op.markers)
  }

  function Step(op: Op, row: Option<Row>): Option<Row> {
    match (op, row)
    case (Register(_, _, _, _), None) => Some(Fresh(op))
    case (Register(_, created, updated, markers), Some(was)) =>
      Some(was.(registered := true,
                createdLedger := created.OrElse(was.createdLedger),
                updatedLedger := updated.OrElse(was.updatedLedger),
                markers := markers))
    case (Metadata(_, updated), Some(was)) =>
      Some(was.(updatedLedger := updated.OrElse(was.updatedLedger)))
    case (Marker(_, marker), Some(was)) => Some(was.(markers := Concat(was.markers, marker)))
    case (_, None) => None
  }

  const RULES: Rules<Op, Row> :=
    Rules((op: Op) => op.key, (op: Op) => op.Register?, (op, row) => Step(op, row), (op, row) => false)

  predicate SetsCreated(op: Op, k: string) {
    op.Register? && op.key == k && op.created.Some?
  }

  predicate SetsUpdated(op: Op, k: string) {
    !op.Marker? && op.key == k && op.updated.Some?
  }

  ghost predicate HasCreatedLedger(ops: seq<Op>, k: string) {
    exists op :: op in ops && SetsCreated(op, k)
  }

  ghost predicate HasUpdatedLedger(ops: seq<Op>, k: string) {
    exists op :: op in ops && SetsUpdated(op, k)
  }

  ghost predicate CoveredRow(row: Row, ops: seq<Op>, k: string) {
    && Created(RULES, ops, k)
    && row.id == FarmerId(k) && row.metadata == JObj(map[]) && row.metadataHash == ""
    && (HasCreatedLedger(ops, k) || row.createdLedger == None)
    && (HasUpdatedLedger(ops, k) || row.updatedLedger == None)
  }

  ghost predicate Covered(t: map<string, Row>, ops: seq<Op>) {
    forall k :: k in t ==> CoveredRow(t[k], ops, k)
  }

  lemma Snoc(front: seq<Op>, op: Op, k: string)
    ensures Created(RULES, front + [op], k) <==> Created(RULES, front, k) || (op.Register? && op.key == k)
    ensures HasCreatedLedger(front + [op], k) <==> HasCreatedLedger(front, k) || SetsCreated(op, k)
    ensures HasUpdatedLedger(front + [op], k) <==> HasUpdatedLedger(front, k) || SetsUpdated(op, k)
  {
    CreatedSnoc(RULES, front, op, k);
    assert forall o :: o in front + [op] <==> o in front || o == op;
  }

  /** `a` is where a pass over `ops` takes the row `r`, `b` where it takes no row. */
  ghost predicate Remembers(a: Option<Row>, b: Option<Row>, ops: seq<Op>, k: string, r: Row) {
    && a.Some?
    && (b.Some? <==> Created(RULES, ops, k))
    && (b.None? ==> a == Some(r) && !HasCreatedLedger(ops, k) && !HasUpdatedLedger(ops, k))
    && (b.Some? ==>
          && a.value == b.value.(id := r.id, metadata := r.metadata, metadataHash := r.metadataHash,
                                 createdLedger := b.value.createdLedger.OrElse(r.createdLedger),
                                 updatedLedger := b.value.updatedLedger.OrElse(r.updatedLedger))
          && b.value.id == FarmerId(k) && b.value.metadata == JObj(map[]) && b.value.metadataHash == ""
          && (b.value.createdLedger.Some? <==> HasCreatedLedger(ops, k))
          && (b.value.updatedLedger.Some? <==> HasUpdatedLedger(ops, k)))
  }

  lemma RemembersSnoc(a: Option<Row>, b: Option<Row>, front: seq<Op>, op: Op, k: string, r: Row)
    requires Remembers(a, b, front, k, r)
    requires op.key == k && !op.Register? ==> b.Some?
    ensures
      if op.key == k then Remembers(Step(op, a), Step(op, b), front + [op], k, r)
      else Remembers(a, b, front + [op], k, r)
  {
    Snoc(front, op, k);
  }

  /** After a registration only the API columns and unset ledgers remember the past. */
  lemma {:induction false} Simulates(ops: seq<Op>, k: string, r: Row)
    requires CreatedFirst(RULES, ops)
    ensures Remembers(RowAt(RULES, ops, k, Some(r)), RowAt(RULES, ops, k, None), ops, k, r)
  {
    if ops != [] {
      var front, op := ops[..|ops| - 1], ops[|ops| - 1];
      assert ops == front + [op];
      CreatedFirstPrefix(RULES, front, ops);
      Simulates(front, k, r);
      assert op.key == k && !op.Register? ==> Created(RULES, front, k);
      RemembersSnoc(RowAt(RULES, front, k, Some(r)), RowAt(RULES, front, k, None), front, op, k, r);
    }
  }

  /** The single-fold row laid over the row that was there. */
  function Merged(was: Option<Row>, made: Option<Row>): Option<Row> {
    match (was, made)
    case (None, _) => made
    case (Some(r), None) => Some(r)
    case (Some(r), Some(b)) =>
      Some(b.(id := r.id, metadata := r.metadata, metadataHash := r.metadataHash,
              createdLedger := b.createdLedger.OrElse(r.createdLedger),
              updatedLedger := b.updatedLedger.OrElse(r.updatedLedger)))
  }

  /** What a pass leaves, over any table at all. */
  lemma Merges(ops: seq<Op>, t: map<string, Row>, k: string)
    requires CreatedFirst(RULES, ops)
    ensures Get(Fold(RULES, ops, t), k) == Merged(Get(t, k), Get(Fold(RULES, ops, map[]), k))
  {
    FoldAt(RULES, ops, t, k);
    FoldAt(RULES, ops, map[], k);
    if k in t {
      Simulates(ops, k, t[k]);
    }
  }

  /** What the API does to one row: it makes a farmer's row, or gives it a new profile. */
  predicate ApiWrite(key: string, was: Option<Row>, row: Row) {
    match was
    case None => row.id == FarmerId(key) && row.registered && row.markers == JArr([])
    case Some(r) =>
      row == r.(metadata := row.metadata, metadataHash := row.metadataHash, updatedLedger := row.updatedLedger)
  }

  /** A pass over `ops` erases the past exactly when it starts from covered rows. */
  lemma PassConverges(ops: seq<Op>, t: map<string, Row>)
    requires CreatedFirst(RULES, ops)
    ensures Fold(RULES, ops, t) == Fold(RULES, ops, map[]) <==> Covered(t, ops)
  {
    forall k | k in t
      ensures RowAt(RULES, ops, k, Some(t[k])) == RowAt(RULES, ops, k, None) <==> CoveredRow(t[k], ops, k)
    {
      Simulates(ops, k, t[k]);
    }
    PassAgrees(RULES, ops, t, (k, row) => CoveredRow(row, ops, k));
  }

  lemma ReplayCovered(passes: seq<seq<Op>>, q: seq<Op>)
    requires Prefixes(passes, q)
    ensures Covered(Replay(RULES, passes, map[]), q)
  {
    ReplayKeeps(RULES, passes, q, (k, row) => CoveredRow(row, q, k));
  }

  /** Replaying prefixes and then the whole equals applying the whole once, from empty. */
  lemma ReplayConverges(passes: seq<seq<Op>>, q: seq<Op>)
    requires CreatedFirst(RULES, q)
    requires Prefixes(passes, q)
    ensures Fold(RULES, q, Replay(RULES, passes, map[])) == Fold(RULES, q, map[])
  {
    ReplayCovered(passes, q);
    PassConverges(q, Replay(RULES, passes, map[]));
  }

  function MarkersOf(ops: seq<Op>, k: string): seq<Json> {
    if ops == [] then []
    else
      var op := ops[|ops| - 1];
      MarkersOf(ops[..|ops| - 1], k) + if op.Marker? && op.key == k then [op.marker] else []
  }

  lemma {:induction false} MarkerRun(ops: seq<Op>, k: string, row: Row)
    requires !Created(RULES, ops, k)
    requires row.markers.JArr?
    requires forall op :: op in ops && op.Marker? ==> op.marker.JObj?
    ensures
      var s := RowAt(RULES, ops, k, Some(row));
      s.Some? && s.value.markers == JArr(row.markers.items + MarkersOf(ops, k))
  {
    if ops != [] {
      var front, op := ops[..|ops| - 1], ops[|ops| - 1];
      assert ops == front + [op];
      MarkerRun(front, k, row);
    }
  }

  /** No marker is lost or duplicated, over whatever table the pass started from. */
  lemma MarkerList(ops: seq<Op>, t: map<string, Row>, k: string, c: int)
    requires LastCreated(RULES, ops, c, k)
    requires ops[c].markers.JArr?
    requires forall op :: op in ops && op.Marker? ==> op.marker.JObj?
    ensures k in Fold(RULES, ops, t)
    ensures Fold(RULES, ops, t)[k].markers == JArr(ops[c].markers.items + MarkersOf(ops[c + 1..], k))
  {
    var upTo, rest := ops[..c + 1], ops[c + 1..];
    assert upTo[..c] == ops[..c];
    assert ops == upTo + rest;
    RowSplit(RULES, upTo, rest, k, Get(t, k));
    FoldAt(RULES, ops, t, k);
    MarkerRun(rest, k, RowAt(RULES, upTo, k, Get(t, k)).value);
  }

  function GivesCreated(k: string): Op -> bool { (op: Op) => SetsCreated(op, k) }

  function GivesUpdated(k: string): Op -> bool { (op: Op) => SetsUpdated(op, k) }

  /** What the projection says about a farmer beside the marker list, without folding. */
  ghost predicate Describes(row: Option<Row>, ops: seq<Op>, k: string) {
    && (row.Some? <==> Created(RULES, ops, k))
    && (row.Some? ==>
          && row.value.id == "va:farmer:" + k && row.value.registered
          && row.value.metadata == JObj(map[]) && row.value.metadataHash == ""
          && (forall i :: Last(ops, GivesCreated(k), i) ==> row.value.createdLedger == ops[i].created)
          && (NoneOf(ops, GivesCreated(k)) ==> row.value.createdLedger == None)
          && (forall i :: Last(ops, GivesUpdated(k), i) ==> row.value.updatedLedger == ops[i].updated)
          && (NoneOf(ops, GivesUpdated(k)) ==> row.value.updatedLedger == None))
  }

  lemma DescribesSnoc(row: Option<Row>, front: seq<Op>, op: Op, k: string)
    requires Describes(row, front, k)
    requires row.None? && op.key == k ==> op.Register?
    requires row.None? ==> NoneOf(front, GivesCreated(k)) && NoneOf(front, GivesUpdated(k))
    ensures Describes(if op.key == k then Step(op, row) else row, front + [op], k)
  {
    var ops := front + [op];
    CreatedSnoc(RULES, front, op, k);
    LastSnoc(front, op, GivesCreated(k), 0);
    LastSnoc(front, op, GivesUpdated(k), 0);
    assert ops[|front|] == op && forall i :: 0 <= i < |front| ==> ops[i] == front[i];
    forall i
      ensures Last(ops, GivesCreated(k), i) <==>
        if SetsCreated(op, k) then i == |front| else Last(front, GivesCreated(k), i)
      ensures Last(ops, GivesUpdated(k), i) <==>
        if SetsUpdated(op, k) then i == |front| else Last(front, GivesUpdated(k), i)
    {
      LastSnoc(front, op, GivesCreated(k), i);
      LastSnoc(front, op, GivesUpdated(k), i);
    }
  }

  lemma {:induction false} Ungiven(ops: seq<Op>, k: string)
    requires CreatedFirst(RULES, ops) && !Created(RULES, ops, k)
    ensures NoneOf(ops, GivesCreated(k)) && NoneOf(ops, GivesUpdated(k))
  {
    if ops != [] {
      var front, op := ops[..|ops| - 1], ops[|ops| - 1];
      assert ops == front + [op];
      CreatedFirstPrefix(RULES, front, ops);
      CreatedSnoc(RULES, front, op, k);
      Ungiven(front, k);
      LastSnoc(front, op, GivesCreated(k), 0);
      LastSnoc(front, op, GivesUpdated(k), 0);
      assert RULES.creates(op) || Created(RULES, front, op.key);
    }
  }

  lemma {:induction false} RowMeaning(ops: seq<Op>, k: string)
    requires CreatedFirst(RULES, ops)
    ensures Describes(RowAt(RULES, ops, k, None), ops, k)
  {
    if ops != [] {
      var front, op := ops[..|ops| - 1], ops[|ops| - 1];
      assert ops == front + [op];
      CreatedFirstPrefix(RULES, front, ops);
      RowMeaning(front, k);
      var row := RowAt(RULES, front, k, None);
      if row.None? {
        Ungiven(front, k);
      }
      assert op.key == k && !op.Register? ==> Created(RULES, front, k);
      DescribesSnoc(row, front, op, k);
    }
  }

  /** Each ledger by value: the last one the events gave. */
  lemma ProjectionMeaning(ops: seq<Op>, k: string)
    requires CreatedFirst(RULES, ops)
    ensures Describes(Get(Fold(RULES, ops, map[]), k), ops, k)
  {
    FoldAt(RULES, ops, map[], k);
    RowMeaning(ops, k);
  }
}
