/** The verification projection: one row per `va:verification` id. */
module Verifications {
  import opened Wrappers
  import opened Ids
  import opened Keyed

  datatype Row = Row(contractId: string, batchId: Reference, subject: string, proofHash: string,
                     issuer: string, issuedLedger: int, revoked: bool, revokedLedger: Option<int>)

  datatype Op = Create(key: string, made: Row) | Revoke(key: string, ledger: int)

  function Step(op: Op, row: Option<Row>): Option<Row> {
    match (op, row)
    case (Create(_, made), None) => Some(made)
    case (Create(_, made), Some(was)) =>
      Some(made.(revoked := was.revoked, revokedLedger := was.revokedLedger))
    case (Revoke(_, ledger), Some(was)) => Some(was.(revoked := true, revokedLedger := Some(ledger)))
    case (Revoke(_, _), None) => None
  }

  const RULES: Rules<Op, Row> :=
    Rules((op: Op) => op.key, (op: Op) => op.Create?, (op, row) => Step(op, row), (op, row) => false)

  ghost predicate HasRevoke(ops: seq<Op>, k: string) {
    exists op :: op in ops && op.Revoke? && op.key == k
  }

  ghost predicate FreshRows(ops: seq<Op>) {
    forall op :: op in ops && op.Create? ==> !op.made.revoked && op.made.revokedLedger == None
  }

  predicate RevokesAt(ops: seq<Op>, i: int, k: string) {
    0 <= i < |ops| && ops[i].Revoke? && ops[i].key == k
  }

  /** Revoked while the row exists, in a pass from empty. */
  ghost predicate RevokedAfter(ops: seq<Op>, k: string) {
    exists i :: RevokesAt(ops, i, k) && Created(RULES, ops[..i], k)
  }

  /** Revoked before the row exists, which a pass from empty does not notice. */
  ghost predicate RevokedEarly(ops: seq<Op>, k: string) {
    exists i :: RevokesAt(ops, i, k) && !Created(RULES, ops[..i], k)
  }

  /** Each id revoked before its first creation is revoked again after it. */
  ghost predicate RevokedAgain(ops: seq<Op>) {
    forall k :: RevokedEarly(ops, k) && Created(RULES, ops, k) ==> RevokedAfter(ops, k)
  }

  /** A row that a pass over `ops` can start from and still end in the state of one clean pass. */
  ghost predicate CoveredRow(row: Row, ops: seq<Op>, k: string) {
    && Created(RULES, ops, k)
    && (RevokedAfter(ops, k) || (!RevokedEarly(ops, k) && !row.revoked && row.revokedLedger == None))
  }

  ghost predicate Covered(t: map<string, Row>, ops: seq<Op>) {
    forall k :: k in t ==> CoveredRow(t[k], ops, k)
  }

  function Core(row: Row): Row {
    row.(revoked := false, revokedLedger := None)
  }

  lemma Snoc(front: seq<Op>, op: Op, k: string)
    ensures Created(RULES, front + [op], k) <==> Created(RULES, front, k) || (op.Create? && op.key == k)
    ensures RevokedAfter(front + [op], k) <==>
              RevokedAfter(front, k) || (op.Revoke? && op.key == k && Created(RULES, front, k))
    ensures RevokedEarly(front + [op], k) <==>
              RevokedEarly(front, k) || (op.Revoke? && op.key == k && !Created(RULES, front, k))
  {
    var ops := front + [op];
    CreatedSnoc(RULES, front, op, k);
    assert ops[..|front|] == front;
    forall i | 0 <= i < |front| ensures ops[..i] == front[..i] && RevokesAt(ops, i, k) == RevokesAt(front, i, k) {}
    assert RevokesAt(ops, |front|, k) <==> op.Revoke? && op.key == k;
  }

  /** `a` is where a pass over `ops` takes the row `r`, `b` where it takes no row. */
  ghost predicate Remembers(a: Option<Row>, b: Option<Row>, ops: seq<Op>, k: string, r: Row) {
    && a.Some?
    && (b.Some? <==> Created(RULES, ops, k))
    && (b.Some? ==> Core(a.value) == Core(b.value))
    && if RevokedAfter(ops, k) then a == b
       else
         && (b.Some? ==> b.value == Core(b.value))
         && (a.value.revoked <==> r.revoked || RevokedEarly(ops, k))
         && (if RevokedEarly(ops, k) then a.value.revokedLedger.Some? else a.value.revokedLedger == r.revokedLedger)
  }

  lemma RemembersSnoc(a: Option<Row>, b: Option<Row>, front: seq<Op>, op: Op, k: string, r: Row)
    requires Remembers(a, b, front, k, r)
    requires op.Create? ==> !op.made.revoked && op.made.revokedLedger == None
    ensures
      if op.key == k then Remembers(Step(op, a), Step(op, b), front + [op], k, r)
      else Remembers(a, b, front + [op], k, r)
  {
    Snoc(front, op, k);
  }

  /** After a creation only the revocation remembers the past, until the pass revokes the row itself. */
  lemma {:induction false} Simulates(ops: seq<Op>, k: string, r: Row)
    requires FreshRows(ops)
    ensures Remembers(RowAt(RULES, ops, k, Some(r)), RowAt(RULES, ops, k, None), ops, k, r)
  {
    if ops != [] {
      var front, op := ops[..|ops| - 1], ops[|ops| - 1];
      assert ops == front + [op];
      Simulates(front, k, r);
      RemembersSnoc(RowAt(RULES, front, k, Some(r)), RowAt(RULES, front, k, None), front, op, k, r);
    }
  }

  /** A pass over `ops` erases the past exactly when it starts from covered rows. */
  lemma PassConverges(ops: seq<Op>, t: map<string, Row>)
    requires FreshRows(ops)
    ensures Fold(RULES, ops, t) == Fold(RULES, ops, map[]) <==> Covered(t, ops)
  {
    forall k | k in t
      ensures RowAt(RULES, ops, k, Some(t[k])) == RowAt(RULES, ops, k, None) <==> CoveredRow(t[k], ops, k)
    {
      Simulates(ops, k, t[k]);
    }
    PassAgrees(RULES, ops, t, (k, row) => CoveredRow(row, ops, k));
  }

  lemma StepCovered(q: seq<Op>, op: Op, row: Option<Row>)
    requires FreshRows(q) && RevokedAgain(q) && op in q
    requires row.Some? ==> CoveredRow(row.value, q, op.key)
    ensures Step(op, row).Some? ==> CoveredRow(Step(op, row).value, q, op.key)
  {
    var i :| 0 <= i < |q| && q[i] == op;
    assert op.Create? ==> Created(RULES, q, op.key);
    assert op.Revoke? ==> RevokesAt(q, i, op.key);
  }

  lemma ReplayCovered(passes: seq<seq<Op>>, q: seq<Op>)
    requires FreshRows(q) && RevokedAgain(q) && Prefixes(passes, q)
    ensures Covered(Replay(RULES, passes, map[]), q)
  {
    var ok := (k, row) => CoveredRow(row, q, k);
    forall op, row: Option<Row> | op in q && (row.Some? ==> ok(RULES.key(op), row.value))
      ensures RULES.step(op, row).Some? ==> ok(RULES.key(op), RULES.step(op, row).value)
    {
      StepCovered(q, op, row);
    }
    ReplayKeeps(RULES, passes, q, ok);
  }

  /** Replaying prefixes and then the whole equals applying the whole once, from empty. */
  lemma ReplayConverges(passes: seq<seq<Op>>, q: seq<Op>)
    requires FreshRows(q) && RevokedAgain(q) && Prefixes(passes, q)
    ensures Fold(RULES, q, Replay(RULES, passes, map[])) == Fold(RULES, q, map[])
  {
    ReplayCovered(passes, q);
    PassConverges(q, Replay(RULES, passes, map[]));
  }

  ghost predicate Reconverges(passes: seq<seq<Op>>, q: seq<Op>) {
    Prefixes(passes, q) ==> Fold(RULES, q, Replay(RULES, passes, map[])) == Fold(RULES, q, map[])
  }

  /** The exact condition on the events: every replay converges if and only if early revocations are repeated. */
  lemma ReplayExact(q: seq<Op>)
    requires FreshRows(q)
    ensures (forall passes :: Reconverges(passes, q)) <==> RevokedAgain(q)
  {
    if RevokedAgain(q) {
      forall passes ensures Reconverges(passes, q) {
        if Prefixes(passes, q) {
          ReplayConverges(passes, q);
        }
      }
    }
    if forall passes :: Reconverges(passes, q) {
      assert Reconverges([q], q);
      assert [q][..0] == [];
      assert Replay(RULES, [q], map[]) == Fold(RULES, q, map[]);
      PassConverges(q, Fold(RULES, q, map[]));
      forall k | RevokedEarly(q, k) && Created(RULES, q, k) ensures RevokedAfter(q, k) {
        FoldAt(RULES, q, map[], k);
        RowExists(q, k);
      }
    }
  }

  lemma RowExists(ops: seq<Op>, k: string)
    requires FreshRows(ops)
    ensures RowAt(RULES, ops, k, None).Some? <==> Created(RULES, ops, k)
  {
    var some := Row("", Reference("", ""), "", "", "", 0, false, None);
    Simulates(ops, k, some);
  }

  /** Where every id is created first, no revocation is early. */
  lemma CreatedFirstIsEnough(ops: seq<Op>)
    requires CreatedFirst(RULES, ops)
    ensures RevokedAgain(ops)
  {
    forall k, i | RevokesAt(ops, i, k) ensures Created(RULES, ops[..i], k) {
      assert !RULES.creates(ops[i]) && RULES.key(ops[i]) == k;
    }
  }

  ghost predicate LastRevoke(ops: seq<Op>, i: int, k: string) {
    && 0 <= i < |ops| && ops[i].Revoke? && ops[i].key == k
    && forall j :: i < j < |ops| ==> !(ops[j].Revoke? && ops[j].key == k)
  }

  /** What the projection says about an id, without folding. */
  ghost predicate Describes(row: Option<Row>, ops: seq<Op>, k: string) {
    && (row.Some? <==> Created(RULES, ops, k))
    && (row.Some? ==>
          && (forall i :: LastCreated(RULES, ops, i, k) ==> Core(row.value) == Core(ops[i].made))
          && (row.value.revoked <==> HasRevoke(ops, k))
          && (row.value.revokedLedger.None? <==> !HasRevoke(ops, k))
          && (forall i :: LastRevoke(ops, i, k) ==> row.value.revokedLedger == Some(ops[i].ledger)))
  }

  lemma LastSnoc(front: seq<Op>, op: Op, k: string, i: int)
    ensures LastCreated(RULES, front + [op], i, k) <==>
              if op.Create? && op.key == k then i == |front| else LastCreated(RULES, front, i, k)
    ensures LastRevoke(front + [op], i, k) <==>
              if op.Revoke? && op.key == k then i == |front| else LastRevoke(front, i, k)
  {
    var ops := front + [op];
    assert ops[|front|] == op;
    assert forall j :: 0 <= j < |front| ==> ops[j] == front[j];
    if 0 <= i < |front| {
      assert ops[i + 1..] == front[i + 1..] + [op];
      CreatedSnoc(RULES, front[i + 1..], op, k);
    }
  }

  lemma DescribesSnoc(front: seq<Op>, op: Op, k: string, row: Option<Row>)
    requires Describes(row, front, k) && (op.Create? ==> !op.made.revoked && op.made.revokedLedger.None?)
    requires row.None? ==> !HasRevoke(front, k) && !(op.Revoke? && op.key == k)
    ensures Describes(if op.key == k then Step(op, row) else row, front + [op], k)
  {
    var ops := front + [op];
    CreatedSnoc(RULES, front, op, k);
    assert forall o :: o in ops <==> o in front || o == op;
    assert HasRevoke(ops, k) <==> HasRevoke(front, k) || (op.Revoke? && op.key == k);
    forall i ensures LastCreated(RULES, ops, i, k) <==>
                       if op.Create? && op.key == k then i == |front| else LastCreated(RULES, front, i, k)
    {
      LastSnoc(front, op, k, i);
    }
    forall i ensures LastRevoke(ops, i, k) <==>
                       if op.Revoke? && op.key == k then i == |front| else LastRevoke(front, i, k)
    {
      LastSnoc(front, op, k, i);
    }
  }

  lemma {:induction false} RowMeaning(ops: seq<Op>, k: string)
    requires CreatedFirst(RULES, ops) && FreshRows(ops)
    ensures Describes(RowAt(RULES, ops, k, None), ops, k)
  {
    if ops != [] {
      var front, op := ops[..|ops| - 1], ops[|ops| - 1];
      assert ops == front + [op];
      CreatedFirstPrefix(RULES, front, ops);
      RowMeaning(front, k);
      DescribesSnoc(front, op, k, RowAt(RULES, front, k, None));
    }
  }

  /** A row exists for each created id, with the last creation's fields and the last revocation's ledger. */
  lemma ProjectionMeaning(ops: seq<Op>, k: string)
    requires CreatedFirst(RULES, ops) && FreshRows(ops)
    ensures Describes(Get(Fold(RULES, ops, map[]), k), ops, k)
  {
    FoldAt(RULES, ops, map[], k);
    RowMeaning(ops, k);
  }

  /** The hypothesis is needed: a revocation seen before its creation is lost by one pass, kept by two. */
  lemma RevokedBeforeCreatedDiverges(made: Row)
    requires !made.revoked
    ensures
      var q := [Revoke("7", 5), Create("7", made)];
      Fold(RULES, q, Fold(RULES, q, map[])) != Fold(RULES, q, map[])
  {
    var q := [Revoke("7", 5), Create("7", made)];
    FoldTwo(RULES, q[0], q[1], map[]);
    FoldTwo(RULES, q[0], q[1], map["7" := made]);
    assert Fold(RULES, q, map[]) == map["7" := made];
  }
}
