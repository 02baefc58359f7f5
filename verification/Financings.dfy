/** The financing projection: one row per `va:financing` id. */
module Financings {
  import opened Wrappers
  import opened Json
  import opened Keyed

  datatype Status = Active | Defaulted | Refunded

  datatype Row = Row(contractId: string, funder: string, beneficiary: string, totalAmount: int,
                     drawnAmount: int, milestoneCount: int, milestones: Json, drawnLedger: Option<int>,
                     repaidAmount: int, defaulted: bool, defaultedLedger: Option<int>,
                     updatedLedger: Option<int>, status: Status)

  datatype Op =
    | Create(key: string, made: Row)
    | Deposit(key: string, amount: int, ledger: int)
    | Release(key: string, amount: int, ledger: int)
    | Refund(key: string, amount: int, isDefault: bool, defaultLedger: Option<int>)

  /** An UPDATE whose BIGINT result is out of range is refused and changes nothing. */
  predicate Fails(op: Op, row: Option<Row>) {
    match (op, row)
    case (Deposit(_, amount, _), Some(was)) => !FitsI64(was.drawnAmount + amount)
    case (Release(_, amount, _), Some(was)) => !FitsI64(was.drawnAmount + amount)
    case (Refund(_, amount, _, _), Some(was)) => !FitsI64(was.drawnAmount - amount)
    case _ => false
  }

  function Step(op: Op, row: Option<Row>): Option<Row> {
    if Fails(op, row) then row else
    match (op, row)
    case (Create(_, made), None) => Some(made)
    case (Create(_, made), Some(was)) => Some(made.(status := was.status))
    case (Deposit(_, amount, ledger), Some(was)) =>
      Some(was.(drawnAmount := was.drawnAmount + amount, updatedLedger := Some(ledger)))
    case (Release(_, amount, ledger), Some(was)) =>
      Some(was.(drawnAmount := was.drawnAmount + amount, drawnLedger := Some(ledger),
                updatedLedger := Some(ledger)))
    case (Refund(_, amount, isDefault, defaultLedger), Some(was)) =>
      Some(was.(status := if isDefault then Defaulted else Refunded,
                defaulted := isDefault,
                defaultedLedger := defaultLedger.OrElse(was.defaultedLedger),
                drawnAmount := Max(was.drawnAmount - amount, 0)))
    case (_, None) => None
  }

  const RULES: Rules<Op, Row> :=
    Rules((op: Op) => op.key, (op: Op) => op.Create?, (op, row) => Step(op, row), (op, row) => Fails(op, row))

  ghost predicate HasRefund(ops: seq<Op>, k: string) {
    exists op :: op in ops && op.Refund? && op.key == k
  }

  /** The status an id is first inserted with; a later creation never rewrites it. */
  ghost function FirstStatus(ops: seq<Op>, k: string): Status
    requires Created(RULES, ops, k)
  {
    var front, op := ops[..|ops| - 1], ops[|ops| - 1];
    assert ops == front + [op];
    if Created(RULES, front, k) then FirstStatus(front, k) else op.made.status
  }

  ghost predicate CoveredRow(row: Row, ops: seq<Op>, k: string) {
    Created(RULES, ops, k) && (HasRefund(ops, k) || row.status == FirstStatus(ops, k))
  }

  ghost predicate Covered(t: map<string, Row>, ops: seq<Op>) {
    forall k :: k in t ==> CoveredRow(t[k], ops, k)
  }

  function Core(row: Row): Row { row.(status := Active) }

  lemma Snoc(front: seq<Op>, op: Op, k: string)
    ensures Created(RULES, front + [op], k) <==> Created(RULES, front, k) || (op.Create? && op.key == k)
    ensures HasRefund(front + [op], k) <==> HasRefund(front, k) || (op.Refund? && op.key == k)
    ensures Created(RULES, front + [op], k) ==>
              FirstStatus(front + [op], k) == if Created(RULES, front, k) then FirstStatus(front, k) else op.made.status
  {
    var ops := front + [op];
    CreatedSnoc(RULES, front, op, k);
    assert forall o :: o in ops <==> o in front || o == op;
    assert ops[..|ops| - 1] == front;
  }

  /** A statement acts alike on rows that differ in status only. */
  lemma StepCore(op: Op, a: Row, b: Row)
    requires Core(a) == Core(b)
    ensures Fails(op, Some(a)) == Fails(op, Some(b))
    ensures Step(op, Some(a)).Some? && Step(op, Some(b)).Some?
    ensures Core(Step(op, Some(a)).value) == Core(Step(op, Some(b)).value)
    ensures op.Refund? && !Fails(op, Some(a)) ==> Step(op, Some(a)) == Step(op, Some(b))
    ensures !op.Refund? ==> Step(op, Some(a)).value.status == a.status
  {
  }

  /** `a` is where a pass over `ops` takes the row `r`, `b` where it takes no row. */
  ghost predicate Remembers(a: Option<Row>, b: Option<Row>, ops: seq<Op>, k: string, r: Row) {
    && a.Some?
    && (b.Some? <==> Created(RULES, ops, k))
    && (b.None? ==> a == Some(r) && !HasRefund(ops, k))
    && (b.Some? ==> Core(a.value) == Core(b.value))
    && (b.Some? && !HasRefund(ops, k) ==> a.value.status == r.status && b.value.status == FirstStatus(ops, k))
  }

  lemma RemembersSnoc(a: Option<Row>, b: Option<Row>, front: seq<Op>, op: Op, k: string, r: Row)
    requires Remembers(a, b, front, k, r) && op.key == k
    requires b.None? ==> op.Create?
    ensures Remembers(Step(op, a), Step(op, b), front + [op], k, r)
    ensures b.Some? && HasRefund(front, k) && a == b ==> Step(op, a) == Step(op, b)
    ensures b.Some? && op.Refund? && !Fails(op, b) ==> Step(op, a) == Step(op, b)
  {
    Snoc(front, op, k);
    if b.Some? {
      StepCore(op, a.value, b.value);
    }
  }

  /** After a creation only the status remembers the past, until a refund sets it. */
  lemma {:induction false} Simulates(ops: seq<Op>, k: string, r: Row)
    requires CreatedFirst(RULES, ops)
    ensures
      var a, b := RowAt(RULES, ops, k, Some(r)), RowAt(RULES, ops, k, None);
      && Remembers(a, b, ops, k, r)
      && (SoundAt(RULES, ops, k, None) && b.Some? && HasRefund(ops, k) ==> a == b)
  {
    if ops != [] {
      var front, op := ops[..|ops| - 1], ops[|ops| - 1];
      assert ops == front + [op];
      CreatedFirstPrefix(RULES, front, ops);
      Simulates(front, k, r);
      Snoc(front, op, k);
      if op.key == k {
        assert !op.Create? ==> Created(RULES, front, k);
        RemembersSnoc(RowAt(RULES, front, k, Some(r)), RowAt(RULES, front, k, None), front, op, k, r);
      }
    }
  }

  /** A pass over `ops` erases the past exactly when it starts from covered rows. */
  lemma PassConverges(ops: seq<Op>, t: map<string, Row>)
    requires CreatedFirst(RULES, ops)
    requires Sound(RULES, ops, map[])
    ensures Fold(RULES, ops, t) == Fold(RULES, ops, map[]) <==> Covered(t, ops)
  {
    forall k | k in t
      ensures RowAt(RULES, ops, k, Some(t[k])) == RowAt(RULES, ops, k, None) <==> CoveredRow(t[k], ops, k)
    {
      SoundRow(RULES, ops, map[], k);
      Simulates(ops, k, t[k]);
    }
    PassAgrees(RULES, ops, t, (k, row) => CoveredRow(row, ops, k));
  }

  /** Whether a pass is refused somewhere does not depend on what the table held before. */
  lemma {:induction false} SoundAnywhere(ops: seq<Op>, t: map<string, Row>)
    requires CreatedFirst(RULES, ops)
    ensures Sound(RULES, ops, t) <==> Sound(RULES, ops, map[])
  {
    if ops != [] {
      var front, op := ops[..|ops| - 1], ops[|ops| - 1];
      assert forall i :: 0 <= i < |front| ==> front[..i] == ops[..i];
      SoundAnywhere(front, t);
      FoldAt(RULES, front, t, op.key);
      FoldAt(RULES, front, map[], op.key);
      if op.key in t {
        Simulates(front, op.key, t[op.key]);
      }
    }
  }

  lemma {:induction false} FirstStatusKept(p: seq<Op>, q: seq<Op>, k: string)
    requires p <= q && Created(RULES, p, k)
    ensures Created(RULES, q, k) && FirstStatus(q, k) == FirstStatus(p, k)
  {
    if |p| < |q| {
      FirstStatusKept(p, q[..|q| - 1], k);
      assert forall op :: op in q[..|q| - 1] ==> op in q;
    } else {
      assert p == q;
    }
  }

  lemma {:induction false} CoveredRowAfter(p: seq<Op>, q: seq<Op>, k: string, r: Option<Row>)
    requires p <= q
    requires r.Some? ==> CoveredRow(r.value, q, k)
    ensures var s := RowAt(RULES, p, k, r); if s.Some? then CoveredRow(s.value, q, k) else !Created(RULES, p, k)
  {
    if p != [] {
      var front, op := p[..|p| - 1], p[|p| - 1];
      assert p == front + [op] && op in q;
      CoveredRowAfter(front, q, k, r);
      if op.Create? && op.key == k && RowAt(RULES, front, k, r).None? {
        CreatedSnoc(RULES, front, op, k);
        FirstStatusKept(p, q, k);
      }
    }
  }

  /** However many passes over prefixes of `q` ran before, and wherever each one stopped. */
  lemma {:induction false} ReplayCovered(passes: seq<seq<Op>>, q: seq<Op>)
    requires Prefixes(passes, q)
    ensures Covered(Replay(RULES, passes, map[]), q)
  {
    if passes != [] {
      var t := Replay(RULES, passes[..|passes| - 1], map[]);
      var p := passes[|passes| - 1];
      ReplayCovered(passes[..|passes| - 1], q);
      forall k | k in Fold(RULES, p, t)
        ensures CoveredRow(Fold(RULES, p, t)[k], q, k)
      {
        FoldAt(RULES, p, t, k);
        CoveredRowAfter(p, q, k, Get(t, k));
      }
    }
  }

  /** Replaying prefixes and then the whole equals applying the whole once, from empty. */
  lemma ReplayConverges(passes: seq<seq<Op>>, q: seq<Op>)
    requires CreatedFirst(RULES, q) && Sound(RULES, q, map[])
    requires Prefixes(passes, q)
    ensures Fold(RULES, q, Replay(RULES, passes, map[])) == Fold(RULES, q, map[])
  {
    ReplayCovered(passes, q);
    PassConverges(q, Replay(RULES, passes, map[]));
  }

  lemma RowNext(ops: seq<Op>, n: nat, k: string, r: Option<Row>)
    requires n < |ops|
    ensures
      RowAt(RULES, ops[..n + 1], k, r) ==
        if ops[n].key == k then Step(ops[n], RowAt(RULES, ops[..n], k, r)) else RowAt(RULES, ops[..n], k, r)
  {
    assert ops[..n + 1][..n] == ops[..n];
  }

  /** Where the prefixes of the three events below leave a row. */
  lemma ThreeSteps(q: seq<Op>, k: string, r: Option<Row>)
    requires |q| == 3
    ensures RowAt(RULES, q[..0], k, r) == r
    ensures RowAt(RULES, q[..1], k, r) == if q[0].key == k then Step(q[0], r) else r
    ensures
      var one := RowAt(RULES, q[..1], k, r);
      RowAt(RULES, q[..2], k, r) == if q[1].key == k then Step(q[1], one) else one
    ensures
      var two := RowAt(RULES, q[..2], k, r);
      RowAt(RULES, q[..3], k, r) == if q[2].key == k then Step(q[2], two) else two
  {
    RowNext(q, 0, k, r);
    RowNext(q, 1, k, r);
    RowNext(q, 2, k, r);
  }

  /** A repeated pass that is cut can leave a table that no prefix of the events leads to. */
  lemma CutPassMatchesNoPrefix(made: Row, n: nat)
    requires made.drawnAmount == 0 && n <= 3
    ensures
      var q := [Create("1", made), Deposit("1", 5, 9), Create("2", made)];
      Fold(RULES, q[..1], Fold(RULES, q, map[])) != Fold(RULES, q[..n], map[])
  {
    var q := [Create("1", made), Deposit("1", 5, 9), Create("2", made)];
    var full := Fold(RULES, q, map[]);
    assert q[..3] == q;
    ThreeSteps(q, "1", None);
    ThreeSteps(q, "2", None);
    FoldAt(RULES, q, map[], "1");
    FoldAt(RULES, q, map[], "2");
    ThreeSteps(q, "1", Get(full, "1"));
    ThreeSteps(q, "2", Get(full, "2"));
    FoldAt(RULES, q[..1], full, "1");
    FoldAt(RULES, q[..1], full, "2");
    FoldAt(RULES, q[..n], map[], "1");
    FoldAt(RULES, q[..n], map[], "2");
  }

  /** The signed change an event announces for `k`, before the refund's clamp at zero. */
  function Delta(op: Op, k: string): int {
    if op.key != k then 0 else
    match op
    case Create(_, _) => 0
    case Deposit(_, amount, _) => amount
    case Release(_, amount, _) => amount
    case Refund(_, amount, _, _) => -amount
  }

  function Sum(ops: seq<Op>, k: string): int {
    if ops == [] then 0 else Sum(ops[..|ops| - 1], k) + Delta(ops[|ops| - 1], k)
  }

  ghost predicate RefundAt(ops: seq<Op>, i: int, k: string) {
    0 <= i < |ops| && ops[i].Refund? && ops[i].key == k
  }

  /** `d` is the maximum of `d0 + S(n)` and of `S(n) - S(i + 1)` over the refunds `i`. */
  ghost predicate ClampedTotal(d: int, d0: int, ops: seq<Op>, k: string) {
    var total := Sum(ops, k);
    && d >= d0 + total
    && (forall i :: RefundAt(ops, i, k) ==> d >= total - Sum(ops[..i + 1], k))
    && (d == d0 + total || exists i :: RefundAt(ops, i, k) && d == total - Sum(ops[..i + 1], k))
  }

  lemma {:induction false} DrawnRun(ops: seq<Op>, k: string, row: Row)
    requires !Created(RULES, ops, k)
    requires SoundAt(RULES, ops, k, Some(row))
    ensures RowAt(RULES, ops, k, Some(row)).Some?
    ensures ClampedTotal(RowAt(RULES, ops, k, Some(row)).value.drawnAmount, row.drawnAmount, ops, k)
  {
    if ops != [] {
      var front, op := ops[..|ops| - 1], ops[|ops| - 1];
      assert ops == front + [op];
      DrawnRun(front, k, row);
      assert ops[..|front| + 1] == ops;
      forall i | RefundAt(front, i, k)
        ensures RefundAt(ops, i, k) && ops[..i + 1] == front[..i + 1] {}
      forall i | RefundAt(ops, i, k) && i < |front|
        ensures RefundAt(front, i, k) && ops[..i + 1] == front[..i + 1] {}
      if RefundAt(ops, |front|, k) {
        assert Sum(ops, k) - Sum(ops[..|front| + 1], k) == 0;
      }
    }
  }

  lemma DrawnRow(ops: seq<Op>, k: string, c: int, r: Option<Row>)
    requires LastCreated(RULES, ops, c, k) && SoundAt(RULES, ops, k, r)
    ensures
      var s := RowAt(RULES, ops, k, r);
      s.Some? && ClampedTotal(s.value.drawnAmount, ops[c].made.drawnAmount, ops[c + 1..], k)
  {
    var upTo, rest := ops[..c + 1], ops[c + 1..];
    assert upTo[..c] == ops[..c];
    assert ops == upTo + rest;
    RowSplit(RULES, upTo, rest, k, r);
    DrawnRun(rest, k, RowAt(RULES, upTo, k, r).value);
  }

  /** The drawn amount after a whole pass, over whatever table it started from. */
  lemma DrawnClosedForm(ops: seq<Op>, t: map<string, Row>, k: string, c: int)
    requires Sound(RULES, ops, t)
    requires LastCreated(RULES, ops, c, k)
    ensures k in Fold(RULES, ops, t)
    ensures ClampedTotal(Fold(RULES, ops, t)[k].drawnAmount, ops[c].made.drawnAmount, ops[c + 1..], k)
  {
    SoundRow(RULES, ops, t, k);
    FoldAt(RULES, ops, t, k);
    DrawnRow(ops, k, c, Get(t, k));
  }

  /** Conservation is exact exactly when no refund goes below the running total. */
  lemma DrawnConserved(d: int, d0: int, ops: seq<Op>, k: string)
    requires ClampedTotal(d, d0, ops, k)
    ensures d == d0 + Sum(ops, k) <==> forall i :: RefundAt(ops, i, k) ==> d0 + Sum(ops[..i + 1], k) >= 0
  {
  }

  lemma {:induction false} DrawnNeverNegative(ops: seq<Op>, k: string, row: Row)
    requires row.drawnAmount >= 0
    requires forall op :: op in ops && op.key == k ==>
                            match op
                            case Create(_, made) => made.drawnAmount >= 0
                            case Deposit(_, amount, _) => amount >= 0
                            case Release(_, amount, _) => amount >= 0
                            case Refund(_, _, _, _) => true
    ensures var s := RowAt(RULES, ops, k, Some(row)); s.Some? && s.value.drawnAmount >= 0
  {
    if ops != [] {
      var front := ops[..|ops| - 1];
      assert ops == front + [ops[|ops| - 1]];
      DrawnNeverNegative(front, k, row);
    }
  }

  // The kinds of statement that decide a column of an id.

  function Refunds(k: string): Op -> bool { (op: Op) => op.key == k && op.Refund? }

  function Defaults(k: string): Op -> bool { (op: Op) => op.key == k && (op.Create? || op.Refund?) }

  function DatesDefault(k: string): Op -> bool {
    (op: Op) => op.key == k && (op.Create? || (op.Refund? && op.defaultLedger.Some?))
  }

  function Draws(k: string): Op -> bool { (op: Op) => op.key == k && (op.Create? || op.Release?) }

  function Dates(k: string): Op -> bool { (op: Op) => op.key == k && !op.Refund? }

  function Creates(k: string): Op -> bool { (op: Op) => op.key == k && op.Create? }

  // What a statement of the kind says about the column.

  function TermsBy(op: Op): Row { if op.Create? then Terms(op.made) else NO_TERMS }

  function DefaultedBy(op: Op): bool {
    match op
    case Create(_, made) => made.defaulted
    case Refund(_, _, isDefault, _) => isDefault
    case _ => false
  }

  function DefaultLedgerBy(op: Op): Option<int> {
    match op
    case Create(_, made) => made.defaultedLedger
    case Refund(_, _, _, ledger) => ledger
    case _ => None
  }

  function DrawnLedgerBy(op: Op): Option<int> {
    match op
    case Create(_, made) => made.drawnLedger
    case Release(_, _, ledger) => Some(ledger)
    case _ => None
  }

  function UpdatedBy(op: Op): Option<int> {
    match op
    case Create(_, made) => made.updatedLedger
    case Deposit(_, _, ledger) => Some(ledger)
    case Release(_, _, ledger) => Some(ledger)
    case _ => None
  }

  function StatusBy(op: Op): Status {
    if op.Refund? && op.isDefault then Defaulted else Refunded
  }

  /** The columns that only a creation writes. */
  function Terms(row: Row): Row {
    row.(drawnAmount := 0, drawnLedger := None, defaulted := false, defaultedLedger := None, updatedLedger := None,
         status := Active)
  }

  const NO_TERMS := Row("", "", "", 0, 0, 0, JNull, None, 0, false, None, None, Active)

  ghost predicate Columns(row: Row, ops: seq<Op>, k: string) {
    && Column(ops, Creates(k), TermsBy, Terms(row))
    && Column(ops, Defaults(k), DefaultedBy, row.defaulted)
    && Column(ops, DatesDefault(k), DefaultLedgerBy, row.defaultedLedger)
    && Column(ops, Draws(k), DrawnLedgerBy, row.drawnLedger)
    && Column(ops, Dates(k), UpdatedBy, row.updatedLedger)
    && Column(ops, Refunds(k), StatusBy, row.status)
  }

  /** What the projection says about an id beside its drawn amount, without folding. */
  ghost predicate Describes(row: Option<Row>, ops: seq<Op>, k: string) {
    && (row.Some? <==> Created(RULES, ops, k))
    && (row.Some? ==>
          && Columns(row.value, ops, k)
          && (NoneOf(ops, Refunds(k)) ==> row.value.status == FirstStatus(ops, k)))
  }

  /** A column after one more statement: its new value if the statement is of its kind, else the old one. */
  lemma ColumnNext<V>(front: seq<Op>, op: Op, kind: Op -> bool, says: Op -> V, was: V, now: V)
    requires Column(front, kind, says, was)
    requires now == if kind(op) then says(op) else was
    ensures Column(front + [op], kind, says, now)
  {
    ColumnSnoc(front, op, kind, says, was);
  }

  lemma ColumnsNext(was: Row, now: Row, front: seq<Op>, op: Op, k: string)
    requires Columns(was, front, k)
    requires Terms(now) == if Creates(k)(op) then TermsBy(op) else Terms(was)
    requires now.defaulted == if Defaults(k)(op) then DefaultedBy(op) else was.defaulted
    requires now.defaultedLedger == if DatesDefault(k)(op) then DefaultLedgerBy(op) else was.defaultedLedger
    requires now.drawnLedger == if Draws(k)(op) then DrawnLedgerBy(op) else was.drawnLedger
    requires now.updatedLedger == if Dates(k)(op) then UpdatedBy(op) else was.updatedLedger
    requires now.status == if Refunds(k)(op) then StatusBy(op) else was.status
    ensures Columns(now, front + [op], k)
  {
    ColumnNext(front, op, Creates(k), TermsBy, Terms(was), Terms(now));
    ColumnNext(front, op, Defaults(k), DefaultedBy, was.defaulted, now.defaulted);
    ColumnNext(front, op, DatesDefault(k), DefaultLedgerBy, was.defaultedLedger, now.defaultedLedger);
    ColumnNext(front, op, Draws(k), DrawnLedgerBy, was.drawnLedger, now.drawnLedger);
    ColumnNext(front, op, Dates(k), UpdatedBy, was.updatedLedger, now.updatedLedger);
    ColumnNext(front, op, Refunds(k), StatusBy, was.status, now.status);
  }

  /** The first creation of an id. */
  lemma ColumnsFirst(front: seq<Op>, op: Op, k: string)
    requires op.Create? && op.key == k && NoneOf(front, Refunds(k))
    ensures Columns(op.made, front + [op], k)
  {
    ColumnSnoc(front, op, Creates(k), TermsBy, Terms(op.made));
    ColumnSnoc(front, op, Defaults(k), DefaultedBy, op.made.defaulted);
    ColumnSnoc(front, op, DatesDefault(k), DefaultLedgerBy, op.made.defaultedLedger);
    ColumnSnoc(front, op, Draws(k), DrawnLedgerBy, op.made.drawnLedger);
    ColumnSnoc(front, op, Dates(k), UpdatedBy, op.made.updatedLedger);
    ColumnSnoc(front, op, Refunds(k), StatusBy, op.made.status);
  }

  lemma DescribesSnoc(row: Option<Row>, front: seq<Op>, op: Op, k: string)
    requires Describes(row, front, k)
    requires op.key == k ==> !Fails(op, row) && (row.None? ==> op.Create?)
    requires row.None? ==> NoneOf(front, Refunds(k))
    ensures Describes(if op.key == k then Step(op, row) else row, front + [op], k)
  {
    Snoc(front, op, k);
    LastSnoc(front, op, Refunds(k), 0);
    if row.Some? {
      ColumnsNext(row.value, if op.key == k then Step(op, row).value else row.value, front, op, k);
    } else if op.key == k {
      ColumnsFirst(front, op, k);
    }
  }

  lemma {:induction false} Unrefunded(ops: seq<Op>, k: string)
    requires CreatedFirst(RULES, ops) && !Created(RULES, ops, k)
    ensures NoneOf(ops, Refunds(k))
  {
    if ops != [] {
      var front, op := ops[..|ops| - 1], ops[|ops| - 1];
      assert ops == front + [op];
      CreatedFirstPrefix(RULES, front, ops);
      CreatedSnoc(RULES, front, op, k);
      Unrefunded(front, k);
      LastSnoc(front, op, Refunds(k), 0);
      assert RULES.creates(op) || Created(RULES, front, op.key);
    }
  }

  lemma {:induction false} RowMeaning(ops: seq<Op>, k: string)
    requires CreatedFirst(RULES, ops) && SoundAt(RULES, ops, k, None)
    ensures Describes(RowAt(RULES, ops, k, None), ops, k)
  {
    if ops != [] {
      var front, op := ops[..|ops| - 1], ops[|ops| - 1];
      assert ops == front + [op];
      CreatedFirstPrefix(RULES, front, ops);
      RowMeaning(front, k);
      var row := RowAt(RULES, front, k, None);
      if row.None? {
        Unrefunded(front, k);
      }
      assert op.key == k && !op.Create? ==> Created(RULES, front, k);
      DescribesSnoc(row, front, op, k);
    }
  }

  /**
   What one accepted pass from empty says about an id, beside the drawn amount that DrawnClosedForm gives:
   terms of the last creation, and each other column by the last statement of the kind that writes it.
   */
  lemma ProjectionMeaning(ops: seq<Op>, k: string)
    requires CreatedFirst(RULES, ops) && Sound(RULES, ops, map[])
    ensures Describes(Get(Fold(RULES, ops, map[]), k), ops, k)
  {
    SoundRow(RULES, ops, map[], k);
    FoldAt(RULES, ops, map[], k);
    RowMeaning(ops, k);
  }

  /** A statement is refused exactly when its sum would leave 64 bits. */
  lemma Refusals(op: Op, row: Option<Row>)
    ensures Fails(op, row) <==>
              row.Some? && !op.Create? &&
              !(-0x8000_0000_0000_0000 <=
                row.value.drawnAmount + (if op.Refund? then 0 - op.amount else op.amount) < 0x8000_0000_0000_0000)
  {
  }
}
