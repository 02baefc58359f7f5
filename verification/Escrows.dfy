/** The escrow projection: one row per `va:escrow` id. */
module Escrows {
  import opened Wrappers
  import opened Ids
  import opened Json
  import opened Keyed

  datatype Status = Open | Released | Refunded

  datatype Row = Row(contractId: string, depositor: string, beneficiary: string, amount: int,
                     releasedAmount: int, bookingRef: Reference, conditionKind: int,
                     conditionReleaser: Option<string>, conditionTimeoutLedger: Option<int>,
                     createdLedger: int, updatedLedger: int, status: Status)

  datatype Op =
    | Create(key: string, made: Row)
    | Deposit(key: string, amount: int, ledger: int)
    | Release(key: string, amount: int, ledger: int)
    | Refund(key: string, ledger: int)

  /** An UPDATE whose BIGINT result is out of range is refused and changes nothing. */
  predicate Fails(op: Op, row: Option<Row>) {
    match (op, row)
    case (Deposit(_, amount, _), Some(was)) => !FitsI64(was.amount + amount)
    case (Release(_, amount, _), Some(was)) => !FitsI64(was.releasedAmount + amount)
    case _ => false
  }

  function Step(op: Op, row: Option<Row>): Option<Row> {
    if Fails(op, row) then row else
    match (op, row)
    case (Create(_, made), None) => Some(made)
    case (Create(_, made), Some(was)) =>
      Some(made.(releasedAmount := was.releasedAmount, status := was.status))
    case (Deposit(_, amount, ledger), Some(was)) =>
      Some(was.(amount := was.amount + amount, updatedLedger := ledger))
    case (Release(_, amount, ledger), Some(was)) =>
      Some(was.(releasedAmount := was.releasedAmount + amount, updatedLedger := ledger,
                status := if was.releasedAmount + amount >= was.amount then Released else Open))
    case (Refund(_, ledger), Some(was)) =>
      Some(was.(status := Refunded, releasedAmount := was.amount, updatedLedger := ledger))
    case (_, None) => None
  }

  const RULES: Rules<Op, Row> :=
    Rules((op: Op) => op.key, (op: Op) => op.Create?, (op, row) => Step(op, row), (op, row) => Fails(op, row))

  ghost predicate HasRelease(ops: seq<Op>, k: string) {
    exists op :: op in ops && op.Release? && op.key == k
  }

  ghost predicate HasRefund(ops: seq<Op>, k: string) {
    exists op :: op in ops && op.Refund? && op.key == k
  }

  ghost predicate FreshRows(ops: seq<Op>) {
    forall op :: op in ops && op.Create? ==> op.made.releasedAmount == 0 && op.made.status == Open
  }

  ghost predicate WellFormed(ops: seq<Op>) {
    CreatedFirst(RULES, ops) && FreshRows(ops)
  }

  lemma Snoc(front: seq<Op>, op: Op, k: string)
    ensures Created(RULES, front + [op], k) <==> Created(RULES, front, k) || (op.Create? && op.key == k)
    ensures HasRelease(front + [op], k) <==> HasRelease(front, k) || (op.Release? && op.key == k)
    ensures HasRefund(front + [op], k) <==> HasRefund(front, k) || (op.Refund? && op.key == k)
  {
    CreatedSnoc(RULES, front, op, k);
    assert forall o :: o in front + [op] <==> o in front || o == op;
  }

  function Core(row: Row): Row { row.(releasedAmount := 0, status := Open) }

  function Releases(ops: seq<Op>, k: string): int {
    if ops == [] then 0
    else
      var op := ops[|ops| - 1];
      Releases(ops[..|ops| - 1], k) + if op.Release? && op.key == k then op.amount else 0
  }

  function Deposits(ops: seq<Op>, k: string): int {
    if ops == [] then 0
    else
      var op := ops[|ops| - 1];
      Deposits(ops[..|ops| - 1], k) + if op.Deposit? && op.key == k then op.amount else 0
  }

  /** `a` is where a pass over `ops` takes the row `r`, `b` where it takes no row. */
  ghost predicate Remembers(a: Option<Row>, b: Option<Row>, ops: seq<Op>, k: string, r: Row) {
    && a.Some?
    && (b.Some? <==> Created(RULES, ops, k))
    && (b.None? ==> a == Some(r) && !HasRefund(ops, k) && !HasRelease(ops, k))
    && (b.Some? ==> Core(a.value) == Core(b.value))
    && (b.Some? && HasRefund(ops, k) ==> a == b)
    && (b.Some? && !HasRefund(ops, k) ==>
          && a.value.releasedAmount == r.releasedAmount + b.value.releasedAmount
          && (HasRelease(ops, k) && r.releasedAmount == 0 ==> a.value.status == b.value.status)
          && (!HasRelease(ops, k) ==> a.value.status == r.status && b.value.status == Open))
  }

  lemma RemembersSnoc(a: Option<Row>, b: Option<Row>, front: seq<Op>, op: Op, k: string, r: Row)
    requires Remembers(a, b, front, k, r) && op.key == k
    requires b.None? ==> op.Create? && op.made.releasedAmount == 0 && op.made.status == Open
    requires !Fails(op, a) && !Fails(op, b)
    ensures Remembers(Step(op, a), Step(op, b), front + [op], k, r)
  {
    Snoc(front, op, k);
  }

  lemma RemembersSkip(a: Option<Row>, b: Option<Row>, front: seq<Op>, op: Op, k: string, r: Row)
    requires Remembers(a, b, front, k, r) && op.key != k
    ensures Remembers(a, b, front + [op], k, r)
  {
    Snoc(front, op, k);
  }

  /** One pass over an existing row: releases pile up on the old total until a refund forgets it. */
  lemma {:induction false} Simulates(ops: seq<Op>, k: string, r: Row)
    requires WellFormed(ops)
    requires SoundAt(RULES, ops, k, Some(r)) && SoundAt(RULES, ops, k, None)
    ensures Remembers(RowAt(RULES, ops, k, Some(r)), RowAt(RULES, ops, k, None), ops, k, r)
  {
    if ops != [] {
      var front, op := ops[..|ops| - 1], ops[|ops| - 1];
      assert ops == front + [op];
      CreatedFirstPrefix(RULES, front, ops);
      Simulates(front, k, r);
      var a, b := RowAt(RULES, front, k, Some(r)), RowAt(RULES, front, k, None);
      if op.key == k {
        assert op in ops && (!op.Create? ==> Created(RULES, front, k));
        RemembersSnoc(a, b, front, op, k, r);
      } else {
        RemembersSkip(a, b, front, op, k, r);
      }
    }
  }

  ghost predicate CoveredRow(row: Row, ops: seq<Op>, k: string) {
    && Created(RULES, ops, k)
    && (HasRefund(ops, k) || (row.releasedAmount == 0 && (row.status == Open || HasRelease(ops, k))))
  }

  ghost predicate Covered(t: map<string, Row>, ops: seq<Op>) {
    forall k :: k in t ==> CoveredRow(t[k], ops, k)
  }

  /**
   The exact condition under which an escrow pass is idempotent: each row it meets is
   refunded by the pass itself, or has nothing released yet.
   */
  lemma PassConverges(ops: seq<Op>, t: map<string, Row>)
    requires WellFormed(ops)
    requires Sound(RULES, ops, t) && Sound(RULES, ops, map[])
    ensures Fold(RULES, ops, t) == Fold(RULES, ops, map[]) <==> Covered(t, ops)
  {
    forall k | k in t
      ensures RowAt(RULES, ops, k, Some(t[k])) == RowAt(RULES, ops, k, None) <==> CoveredRow(t[k], ops, k)
    {
      SoundRow(RULES, ops, t, k);
      SoundRow(RULES, ops, map[], k);
      Simulates(ops, k, t[k]);
    }
    PassAgrees(RULES, ops, t, (k, row) => CoveredRow(row, ops, k));
  }

  /** Once a pass holds a refund of `k`, its row is the single-fold row whatever came before. */
  lemma RefundForgetsPast(ops: seq<Op>, t: map<string, Row>, k: string)
    requires WellFormed(ops)
    requires Sound(RULES, ops, t) && Sound(RULES, ops, map[])
    requires HasRefund(ops, k)
    ensures k in Fold(RULES, ops, map[])
    ensures Get(Fold(RULES, ops, t), k) == Get(Fold(RULES, ops, map[]), k)
  {
    FoldAt(RULES, ops, t, k);
    FoldAt(RULES, ops, map[], k);
    SoundRow(RULES, ops, t, k);
    SoundRow(RULES, ops, map[], k);
    var i :| 0 <= i < |ops| && ops[i].Refund? && ops[i].key == k;
    assert forall op :: op in ops[..i] ==> op in ops;
    assert Created(RULES, ops, k);
    if k in t {
      Simulates(ops, k, t[k]);
    } else {
      CreatedRowExists(ops, k, None);
    }
  }

  lemma {:induction false} CreatedRowExists(ops: seq<Op>, k: string, r: Option<Row>)
    ensures RowAt(RULES, ops, k, r).Some? <==> r.Some? || Created(RULES, ops, k)
  {
    if ops != [] {
      var front, op := ops[..|ops| - 1], ops[|ops| - 1];
      assert ops == front + [op];
      CreatedRowExists(front, k, r);
      Snoc(front, op, k);
    }
  }

  lemma ReleasesSnoc(front: seq<Op>, op: Op, k: string)
    ensures Releases(front + [op], k) == Releases(front, k) + if op.Release? && op.key == k then op.amount else 0
  {
    assert (front + [op])[..|front|] == front;
  }

  lemma ReleasedStep(front: seq<Op>, op: Op, k: string, base: int, row: Option<Row>)
    requires !Fails(op, row) && op.key == k && !op.Refund?
    requires row.None? ==> op.Create? && op.made.releasedAmount == 0 && Releases(front, k) == 0 && base == 0
    requires row.Some? ==> row.value.releasedAmount == base + Releases(front, k)
    ensures Step(op, row).Some? && Step(op, row).value.releasedAmount == base + Releases(front + [op], k)
  {
    ReleasesSnoc(front, op, k);
  }

  lemma {:induction false} ReleasedInPass(ops: seq<Op>, k: string, r: Option<Row>)
    requires WellFormed(ops) && !HasRefund(ops, k)
    requires SoundAt(RULES, ops, k, r)
    ensures
      var s := RowAt(RULES, ops, k, r);
      && (s.None? ==> Releases(ops, k) == 0)
      && (s.Some? ==>
            s.value.releasedAmount == (if r.Some? then r.value.releasedAmount else 0) + Releases(ops, k))
  {
    if ops != [] {
      var front, op := ops[..|ops| - 1], ops[|ops| - 1];
      assert ops == front + [op] && op in ops;
      CreatedFirstPrefix(RULES, front, ops);
      Snoc(front, op, k);
      ReleasedInPass(front, k, r);
      CreatedRowExists(front, k, r);
      var before := RowAt(RULES, front, k, r);
      if op.key == k {
        assert !op.Create? ==> Created(RULES, front, k);
        ReleasedStep(front, op, k, if r.Some? then r.value.releasedAmount else 0, before);
      } else {
        ReleasesSnoc(front, op, k);
      }
    }
  }

  function TotalReleases(passes: seq<seq<Op>>, k: string): int {
    if passes == [] then 0
    else TotalReleases(passes[..|passes| - 1], k) + Releases(passes[|passes| - 1], k)
  }

  /** Without a refund, every pass adds the releases of its prefix again. */
  lemma {:induction false} ReleasedLaw(passes: seq<seq<Op>>, k: string)
    requires forall i :: 0 <= i < |passes| ==> WellFormed(passes[i]) && !HasRefund(passes[i], k)
    requires ReplaySound(RULES, passes)
    ensures
      var t := Replay(RULES, passes, map[]);
      if k in t then t[k].releasedAmount == TotalReleases(passes, k) else TotalReleases(passes, k) == 0
  {
    if passes != [] {
      var before, p := passes[..|passes| - 1], passes[|passes| - 1];
      ReleasedLaw(before, k);
      var t := Replay(RULES, before, map[]);
      SoundRow(RULES, p, t, k);
      FoldAt(RULES, p, t, k);
      ReleasedInPass(p, k, Get(t, k));
      CreatedRowExists(p, k, Get(t, k));
    }
  }

  ghost predicate ZeroReleases(ops: seq<Op>, k: string) {
    forall op :: op in ops && op.Release? && op.key == k ==> op.amount == 0
  }

  /** Each created id is refunded, or releases nothing. */
  ghost predicate Repeatable(ops: seq<Op>) {
    forall k :: Created(RULES, ops, k) ==> HasRefund(ops, k) || ZeroReleases(ops, k)
  }

  lemma StepCovered(q: seq<Op>, op: Op, row: Option<Row>)
    requires FreshRows(q) && Repeatable(q) && op in q
    requires row.Some? ==> CoveredRow(row.value, q, op.key)
    ensures Step(op, row).Some? ==> CoveredRow(Step(op, row).value, q, op.key)
  {
    assert op.Create? ==> Created(RULES, q, op.key);
    assert op.Release? ==> HasRelease(q, op.key);
    assert op.Refund? ==> HasRefund(q, op.key);
  }

  lemma ReplayCovered(passes: seq<seq<Op>>, q: seq<Op>)
    requires FreshRows(q) && Repeatable(q) && Prefixes(passes, q)
    ensures Covered(Replay(RULES, passes, map[]), q)
  {
    var ok := (k, row) => CoveredRow(row, q, k);
    forall op, row: Option<Row> | op in q && (row.Some? ==> ok(RULES.key(op), row.value))
      ensures RULES.step(op, row).Some? ==> ok(RULES.key(op), RULES.step(op, row).value)
    {
      StepCovered(q, op, row);
    }
    ReplayKeeps(RULES, passes, q, ok);
  }

  /** If the last pass over all of `q` is accepted, it leaves what one pass from empty leaves. */
  ghost predicate Reconverges(passes: seq<seq<Op>>, q: seq<Op>) {
    Prefixes(passes, q) && Sound(RULES, q, Replay(RULES, passes, map[])) ==>
      Fold(RULES, q, Replay(RULES, passes, map[])) == Fold(RULES, q, map[])
  }

  /** BIGINT has room for a second pass after any first one. */
  ghost predicate Roomy(q: seq<Op>) {
    forall n: nat :: n <= |q| ==> SecondFits(q, n)
  }

  ghost predicate SecondFits(q: seq<Op>, n: nat)
    requires n <= |q|
  {
    Sound(RULES, q, Fold(RULES, q[..n], map[]))
  }

  lemma {:induction false} SomeReleased(q: seq<Op>, k: string) returns (n: nat)
    requires !ZeroReleases(q, k)
    ensures n <= |q| && Releases(q[..n], k) != 0
  {
    var front, op := q[..|q| - 1], q[|q| - 1];
    assert q == front + [op];
    if !ZeroReleases(front, k) {
      n := SomeReleased(front, k);
      assert front[..n] == q[..n];
    } else {
      assert op.Release? && op.key == k && op.amount != 0;
      n := if Releases(front, k) != 0 then |front| else |q|;
      assert q[..|front|] == front && q[..|q|] == q;
    }
  }

  /** A release repeated shows: one pass that reaches it, then a whole one, is not the whole one alone. */
  lemma RepeatShows(q: seq<Op>, k: string)
    requires WellFormed(q) && Roomy(q)
    requires Created(RULES, q, k) && !HasRefund(q, k) && !ZeroReleases(q, k)
    ensures exists passes :: !Reconverges(passes, q)
  {
    var n := SomeReleased(q, k);
    var p := q[..n];
    var t := Fold(RULES, p, map[]);
    assert q[..0] == [] && SecondFits(q, 0) && SecondFits(q, n);
    CreatedFirstPrefix(RULES, p, q);
    SoundRow(RULES, q, map[], k);
    SoundPrefix(p, q, k);
    ReleasedInPass(p, k, None);
    FoldAt(RULES, p, map[], k);
    PassConverges(q, t);
    assert [p][..0] == [];
    assert Replay(RULES, [p], map[]) == t;
    assert !Reconverges([p], q);
  }

  lemma SoundPrefix(p: seq<Op>, q: seq<Op>, k: string)
    requires p <= q && SoundAt(RULES, q, k, None)
    ensures SoundAt(RULES, p, k, None)
  {
    assert q == p + q[|p|..];
    RowSplit(RULES, p, q[|p|..], k, None);
  }

  /**
   The exact condition on the events: an accepted replay of prefixes never shows if and only if each
   created id is refunded or releases nothing, as long as BIGINT has room for the repetition.
   */
  lemma ReplayExact(q: seq<Op>)
    requires WellFormed(q) && Sound(RULES, q, map[])
    ensures Repeatable(q) ==> forall passes :: Reconverges(passes, q)
    ensures Roomy(q) ==> ((forall passes :: Reconverges(passes, q)) <==> Repeatable(q))
  {
    if Repeatable(q) {
      forall passes ensures Reconverges(passes, q) {
        if Prefixes(passes, q) && Sound(RULES, q, Replay(RULES, passes, map[])) {
          ReplayCovered(passes, q);
          PassConverges(q, Replay(RULES, passes, map[]));
        }
      }
    } else if Roomy(q) {
      var k :| Created(RULES, q, k) && !HasRefund(q, k) && !ZeroReleases(q, k);
      RepeatShows(q, k);
    }
  }

  lemma TwoStep(c: Op, r: Op, k: string, row: Option<Row>)
    requires c.key == k && r.key == k
    ensures SoundAt(RULES, [c, r], k, row) <==> !Fails(c, row) && !Fails(r, Step(c, row))
    ensures WellFormed([c, r]) <== c.Create? && !r.Create? && c.made.releasedAmount == 0 && c.made.status == Open
  {
    var q := [c, r];
    var one := [c];
    assert q[..1] == one && one[..0] == [];
    assert RowAt(RULES, one, k, row) == Step(c, row);
    assert SoundAt(RULES, one, k, row) <==> !Fails(c, row);
    assert c in one;
  }

  lemma SoundTwo(c: Op, r: Op)
    requires c.key == r.key && !Fails(c, None) && !Fails(r, Step(c, None))
    ensures Sound(RULES, [c, r], map[])
  {
    var q := [c, r];
    assert q[..1] == [c] && [c][..0] == [];
    assert Fold(RULES, [c], map[]) == Apply(RULES, c, map[]);
  }

  /** The room is needed: the largest release is refused when repeated, so no accepted replay shows it. */
  lemma RefusedRepeatHides(made: Row, passes: seq<seq<Op>>)
    requires made.releasedAmount == 0 && made.status == Open
    ensures
      var q := [Create("11", made), Release("11", I64_MAX, 5)];
      Reconverges(passes, q) && !Repeatable(q)
  {
    var c, r := Create("11", made), Release("11", I64_MAX, 5);
    var q := [c, r];
    assert c in q && r in q && !HasRefund(q, "11");
    var t := Replay(RULES, passes, map[]);
    if Prefixes(passes, q) && Sound(RULES, q, t) {
      var ok := (k: string, row: Row) =>
        k == "11" && ((row.releasedAmount == 0 && row.status == Open) || row.releasedAmount == I64_MAX);
      ReplayKeeps(RULES, passes, q, ok);
      TwoStep(c, r, "11", None);
      SoundTwo(c, r);
      forall k | k in t ensures CoveredRow(t[k], q, k) {
        assert ok(k, t[k]);
        SoundRow(RULES, q, t, k);
        TwoStep(c, r, k, Some(t[k]));
      }
      PassConverges(q, t);
    }
  }

  lemma {:induction false} AmountRun(ops: seq<Op>, k: string, row: Row)
    requires !Created(RULES, ops, k)
    requires SoundAt(RULES, ops, k, Some(row))
    ensures
      var s := RowAt(RULES, ops, k, Some(row));
      s.Some? && s.value.amount == row.amount + Deposits(ops, k)
  {
    if ops != [] {
      assert ops == ops[..|ops| - 1] + [ops[|ops| - 1]];
      AmountRun(ops[..|ops| - 1], k, row);
    }
  }

  /** The amount is the created amount plus the deposits of the last pass, each counted once. */
  lemma AmountLaw(ops: seq<Op>, t: map<string, Row>, k: string, c: int)
    requires Sound(RULES, ops, t)
    requires LastCreated(RULES, ops, c, k)
    ensures k in Fold(RULES, ops, t)
    ensures Fold(RULES, ops, t)[k].amount == ops[c].made.amount + Deposits(ops[c + 1..], k)
  {
    var upTo, rest := ops[..c + 1], ops[c + 1..];
    assert upTo[..c] == ops[..c];
    assert ops == upTo + rest;
    SoundRow(RULES, ops, t, k);
    RowSplit(RULES, upTo, rest, k, Get(t, k));
    FoldAt(RULES, ops, t, k);
    AmountRun(rest, k, RowAt(RULES, upTo, k, Get(t, k)).value);
  }

  /** The amount an id stands at: what it was last created with, plus the deposits since. */
  function AmountOf(ops: seq<Op>, k: string): int {
    if ops == [] then 0
    else
      var before, op := AmountOf(ops[..|ops| - 1], k), ops[|ops| - 1];
      if op.key != k then before
      else if op.Create? then op.made.amount
      else if op.Deposit? then before + op.amount
      else before
  }

  /** What an id has released: since its last refund, which released all it stood at. */
  function ReleasedOf(ops: seq<Op>, k: string): int {
    if ops == [] then 0
    else
      var front, op := ops[..|ops| - 1], ops[|ops| - 1];
      if op.key == k && op.Refund? then AmountOf(front, k)
      else ReleasedOf(front, k) + if op.key == k && op.Release? then op.amount else 0
  }

  lemma {:induction false} AmountOfIs(ops: seq<Op>, k: string, c: int)
    requires LastCreated(RULES, ops, c, k)
    ensures AmountOf(ops, k) == ops[c].made.amount + Deposits(ops[c + 1..], k)
  {
    var n := |ops| - 1;
    var front := ops[..n];
    if c < n {
      assert ops[c + 1..] == front[c + 1..] + [ops[n]];
      CreatedSnoc(RULES, front[c + 1..], ops[n], k);
      assert ops[c + 1..][..|ops[c + 1..]| - 1] == front[c + 1..];
      AmountOfIs(front, k, c);
    } else {
      assert ops[c + 1..] == [];
    }
  }

  /** The kinds of statement that decide a column of an id. */
  function Refunds(k: string): Op -> bool { (op: Op) => op.key == k && op.Refund? }

  lemma {:induction false} ReleasedInAll(ops: seq<Op>, k: string)
    requires NoneOf(ops, Refunds(k))
    ensures ReleasedOf(ops, k) == Releases(ops, k)
  {
    if ops != [] {
      var n := |ops| - 1;
      assert !Refunds(k)(ops[n]);
      ReleasedInAll(ops[..n], k);
    }
  }

  lemma RefundAgain(ops: seq<Op>, k: string)
    requires ops != []
    ensures
      var n := |ops| - 1;
      ReleasedOf(ops, k) ==
        if Refunds(k)(ops[n]) then AmountOf(ops[..n], k)
        else ReleasedOf(ops[..n], k) + if ops[n].key == k && ops[n].Release? then ops[n].amount else 0
  {
  }

  lemma {:induction false} ReleasedSince(ops: seq<Op>, k: string, j: nat)
    requires Last(ops, Refunds(k), j)
    ensures ReleasedOf(ops, k) == AmountOf(ops[..j], k) + Releases(ops[j + 1..], k)
  {
    var n := |ops| - 1;
    RefundAgain(ops, k);
    if j < n {
      var front, rest := ops[..n], ops[j + 1..n];
      ReleasedSince(front, k, j);
      assert front[..j] == ops[..j] && front[j + 1..] == rest;
      ReleasesSnoc(rest, ops[n], k);
      assert ops[j + 1..] == rest + [ops[n]];
    } else {
      assert Refunds(k)(ops[n]) && ops[j + 1..] == [];
    }
  }

  function SetsStatus(k: string): Op -> bool { (op: Op) => op.key == k && (op.Release? || op.Refund?) }

  function Writes(k: string): Op -> bool { (op: Op) => op.key == k }

  function Creates(k: string): Op -> bool { (op: Op) => op.key == k && op.Create? }

  function LedgerOf(op: Op): int {
    if op.Create? then op.made.updatedLedger else op.ledger
  }

  function TermsBy(op: Op): Row {
    if op.Create? then Terms(op.made) else NO_TERMS
  }

  const NO_TERMS := Row("", "", "", 0, 0, Reference("", ""), 0, None, None, 0, 0, Open)

  /** The status a release or a refund leaves. */
  function StatusBy(ops: seq<Op>, i: nat, k: string): Status
    requires i < |ops|
  {
    if ops[i].Refund? then Refunded
    else if ReleasedOf(ops[..i + 1], k) >= AmountOf(ops[..i], k) then Released
    else Open
  }

  /** The columns that only a creation writes. */
  function Terms(row: Row): Row {
    row.(amount := 0, releasedAmount := 0, status := Open, updatedLedger := 0)
  }

  /** The status is what the last release or refund left, or open. */
  ghost predicate StatusHolds(ops: seq<Op>, k: string, status: Status) {
    && (forall i :: Last(ops, SetsStatus(k), i) ==> status == StatusBy(ops, i, k))
    && (NoneOf(ops, SetsStatus(k)) ==> status == Open)
  }

  ghost predicate Columns(row: Row, ops: seq<Op>, k: string) {
    && Column(ops, Creates(k), TermsBy, Terms(row))
    && row.amount == AmountOf(ops, k)
    && row.releasedAmount == ReleasedOf(ops, k)
    && StatusHolds(ops, k, row.status)
    && Column(ops, Writes(k), LedgerOf, row.updatedLedger)
  }

  /** What the projection says about an id, without folding. */
  ghost predicate Describes(row: Option<Row>, ops: seq<Op>, k: string) {
    (row.Some? <==> Created(RULES, ops, k)) && (row.Some? ==> Columns(row.value, ops, k))
  }

  lemma Totals(front: seq<Op>, op: Op, k: string)
    ensures
      var ops, own := front + [op], op.key == k;
      && AmountOf(ops, k) == (if own && op.Create? then op.made.amount
                              else AmountOf(front, k) + if own && op.Deposit? then op.amount else 0)
      && ReleasedOf(ops, k) == (if own && op.Refund? then AmountOf(front, k)
                                else ReleasedOf(front, k) + if own && op.Release? then op.amount else 0)
  {
    assert (front + [op])[..|front|] == front;
  }

  lemma StatusNext(front: seq<Op>, op: Op, k: string, was: Status, now: Status)
    requires StatusHolds(front, k, was)
    requires now ==
             if op.key == k && op.Refund? then Refunded
             else if op.key == k && op.Release? then
               if ReleasedOf(front, k) + op.amount >= AmountOf(front, k) then Released else Open
             else was
    ensures StatusHolds(front + [op], k, now)
  {
    var ops := front + [op];
    Totals(front, op, k);
    assert ops[..|front|] == front && ops[..|front| + 1] == ops && ops[|front|] == op;
    LastSnoc(front, op, SetsStatus(k), 0);
    forall i | Last(ops, SetsStatus(k), i) ensures now == StatusBy(ops, i, k) {
      LastSnoc(front, op, SetsStatus(k), i);
      assert i < |front| ==> ops[..i + 1] == front[..i + 1] && ops[..i] == front[..i];
    }
  }

  lemma ColumnsNext(was: Row, now: Row, front: seq<Op>, op: Op, k: string)
    requires Columns(was, front, k) && op.key == k && !Fails(op, Some(was))
    requires Step(op, Some(was)) == Some(now)
    ensures Columns(now, front + [op], k)
  {
    Totals(front, op, k);
    ColumnSnoc(front, op, Creates(k), TermsBy, Terms(was));
    ColumnSnoc(front, op, Writes(k), LedgerOf, was.updatedLedger);
    StatusNext(front, op, k, was.status, now.status);
  }

  lemma ColumnsAside(row: Row, front: seq<Op>, op: Op, k: string)
    requires Columns(row, front, k) && op.key != k
    ensures Columns(row, front + [op], k)
  {
    Totals(front, op, k);
    ColumnSnoc(front, op, Creates(k), TermsBy, Terms(row));
    ColumnSnoc(front, op, Writes(k), LedgerOf, row.updatedLedger);
    StatusNext(front, op, k, row.status, row.status);
  }

  /** The first creation of an id. */
  lemma ColumnsFirst(front: seq<Op>, op: Op, k: string)
    requires op.Create? && op.key == k && op.made.releasedAmount == 0 && op.made.status == Open
    requires NoneOf(front, Writes(k)) && ReleasedOf(front, k) == 0
    ensures Columns(op.made, front + [op], k)
  {
    Totals(front, op, k);
    ColumnSnoc(front, op, Creates(k), TermsBy, Terms(op.made));
    ColumnSnoc(front, op, Writes(k), LedgerOf, op.made.updatedLedger);
    assert NoneOf(front, SetsStatus(k));
    StatusNext(front, op, k, Open, Open);
  }

  lemma DescribesSnoc(row: Option<Row>, front: seq<Op>, op: Op, k: string)
    requires Describes(row, front, k)
    requires op.key == k ==> !Fails(op, row) && (row.None? ==> op.Create?)
    requires op.Create? ==> op.made.releasedAmount == 0 && op.made.status == Open
    requires row.None? ==> NoneOf(front, Writes(k)) && ReleasedOf(front, k) == 0
    ensures Describes(if op.key == k then Step(op, row) else row, front + [op], k)
  {
    CreatedSnoc(RULES, front, op, k);
    if row.Some? {
      if op.key == k {
        ColumnsNext(row.value, Step(op, row).value, front, op, k);
      } else {
        ColumnsAside(row.value, front, op, k);
      }
    } else if op.key == k {
      ColumnsFirst(front, op, k);
    }
  }

  lemma {:induction false} Unwritten(ops: seq<Op>, k: string)
    requires CreatedFirst(RULES, ops) && !Created(RULES, ops, k)
    ensures NoneOf(ops, Writes(k)) && ReleasedOf(ops, k) == 0
  {
    if ops != [] {
      var front, op := ops[..|ops| - 1], ops[|ops| - 1];
      assert ops == front + [op];
      CreatedFirstPrefix(RULES, front, ops);
      CreatedSnoc(RULES, front, op, k);
      Unwritten(front, k);
      LastSnoc(front, op, Writes(k), 0);
      assert RULES.creates(op) || Created(RULES, front, op.key);
    }
  }

  lemma {:induction false} RowMeaning(ops: seq<Op>, k: string)
    requires WellFormed(ops) && SoundAt(RULES, ops, k, None)
    ensures Describes(RowAt(RULES, ops, k, None), ops, k)
  {
    if ops != [] {
      var front, op := ops[..|ops| - 1], ops[|ops| - 1];
      assert ops == front + [op];
      CreatedFirstPrefix(RULES, front, ops);
      RowMeaning(front, k);
      var row := RowAt(RULES, front, k, None);
      assert op in ops && (op.key == k && !op.Create? ==> Created(RULES, front, k));
      if row.None? {
        Unwritten(front, k);
      }
      DescribesSnoc(row, front, op, k);
    }
  }

  /**
   What one accepted pass from empty says about an id: terms of the last creation, running amount and
   release, the status its last release or refund left, the ledger of its last statement.
   */
  lemma ProjectionMeaning(ops: seq<Op>, k: string)
    requires WellFormed(ops) && Sound(RULES, ops, map[])
    ensures Describes(Get(Fold(RULES, ops, map[]), k), ops, k)
  {
    SoundRow(RULES, ops, map[], k);
    FoldAt(RULES, ops, map[], k);
    RowMeaning(ops, k);
  }

  /** A statement is refused exactly when its sum would leave 64 bits. */
  lemma Refusals(op: Op, row: Option<Row>)
    ensures Fails(op, row) <==>
              row.Some? &&
              ((op.Deposit? && !(-0x8000_0000_0000_0000 <= row.value.amount + op.amount < 0x8000_0000_0000_0000)) ||
               (op.Release? &&
                !(-0x8000_0000_0000_0000 <= row.value.releasedAmount + op.amount < 0x8000_0000_0000_0000)))
  {
  }

  /** A half-released escrow of 10 reads as fully released after a second identical pass. */
  lemma SecondPassOverstates(made: Row)
    requires made.amount == 10 && made.releasedAmount == 0 && made.status == Open
    ensures
      var q := [Create("11", made), Release("11", 6, 5)];
      var once := Fold(RULES, q, map[]);
      var twice := Fold(RULES, q, once);
      && "11" in once && once["11"].releasedAmount == 6 && once["11"].status == Open
      && "11" in twice && twice["11"].releasedAmount == 12 && twice["11"].status == Released
  {
    var c, r := Create("11", made), Release("11", 6, 5);
    FoldTwo(RULES, c, r, map[]);
    FoldTwo(RULES, c, r, Fold(RULES, [c, r], map[]));
  }
}
