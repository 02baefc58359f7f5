/**
 A projection table is a map from row id to row. Every statement names one row id
 and acts on that row alone. A table is described by the row id a statement names,
 whether it is the row's creation, what it does to the row, and when it is refused
 (a BIGINT out of range).
 */
module Keyed {
  import opened Wrappers

  datatype Rules<!Op, !Row> = Rules(
    key: Op -> string,
    creates: Op -> bool,
    step: (Op, Option<Row>) -> Option<Row>,
    fails: (Op, Option<Row>) -> bool)

  function Get<Row>(t: map<string, Row>, k: string): Option<Row> {
    if k in t then Some(t[k]) else None
  }

  function Put<Row>(t: map<string, Row>, k: string, r: Option<Row>): map<string, Row> {
    match r
    case Some(row) => t[k := row]
    case None => t - {k}
  }

  /** One statement. */
  function Apply<Op, Row>(rules: Rules<Op, Row>, op: Op, t: map<string, Row>): map<string, Row> {
    var k := rules.key(op);
    Put(t, k, rules.step(op, Get(t, k)))
  }

  /** One pass: the statements of `ops` in order. */
  function Fold<Op, Row>(rules: Rules<Op, Row>, ops: seq<Op>, t: map<string, Row>): map<string, Row> {
    if ops == [] then t
    else Apply(rules, ops[|ops| - 1], Fold(rules, ops[..|ops| - 1], t))
  }

  /** What one pass does to the row with id `k`. */
  function RowAt<Op, Row>(rules: Rules<Op, Row>, ops: seq<Op>, k: string, r: Option<Row>): Option<Row> {
    if ops == [] then r
    else
      var before := RowAt(rules, ops[..|ops| - 1], k, r);
      var op := ops[|ops| - 1];
      if rules.key(op) == k then rules.step(op, before) else before
  }

  /** The whole pass runs: no statement of it is refused. */
  predicate Sound<Op, Row>(rules: Rules<Op, Row>, ops: seq<Op>, t: map<string, Row>) {
    ops == [] ||
    var front, op := ops[..|ops| - 1], ops[|ops| - 1];
    Sound(rules, front, t) && !rules.fails(op, Get(Fold(rules, front, t), rules.key(op)))
  }

  predicate SoundAt<Op, Row>(rules: Rules<Op, Row>, ops: seq<Op>, k: string, r: Option<Row>) {
    ops == [] ||
    var front, op := ops[..|ops| - 1], ops[|ops| - 1];
    SoundAt(rules, front, k, r) && (rules.key(op) == k ==> !rules.fails(op, RowAt(rules, front, k, r)))
  }

  /** Several passes, one on top of the other. */
  function Replay<Op, Row>(rules: Rules<Op, Row>, passes: seq<seq<Op>>, t: map<string, Row>): map<string, Row> {
    if passes == [] then t
    else Fold(rules, passes[|passes| - 1], Replay(rules, passes[..|passes| - 1], t))
  }

  /** Every statement of every pass is accepted. */
  predicate ReplaySound<Op, Row>(rules: Rules<Op, Row>, passes: seq<seq<Op>>) {
    passes == [] ||
    var before, p := passes[..|passes| - 1], passes[|passes| - 1];
    ReplaySound(rules, before) && Sound(rules, p, Replay(rules, before, map[]))
  }

  ghost predicate Created<Op, Row>(rules: Rules<Op, Row>, ops: seq<Op>, k: string) {
    exists op :: op in ops && rules.creates(op) && rules.key(op) == k
  }

  /** Every row is created before anything else happens to it. */
  ghost predicate CreatedFirst<Op, Row>(rules: Rules<Op, Row>, ops: seq<Op>) {
    forall i :: 0 <= i < |ops| && !rules.creates(ops[i]) ==> Created(rules, ops[..i], rules.key(ops[i]))
  }

  /** The last statement that creates the row. */
  ghost predicate LastCreated<Op, Row>(rules: Rules<Op, Row>, ops: seq<Op>, c: int, k: string) {
    && 0 <= c < |ops| && rules.creates(ops[c]) && rules.key(ops[c]) == k
    && !Created(rules, ops[c + 1..], k)
  }

  lemma CreatedFirstPrefix<Op, Row>(rules: Rules<Op, Row>, p: seq<Op>, q: seq<Op>)
    requires p <= q && CreatedFirst(rules, q)
    ensures CreatedFirst(rules, p)
  {
    assert forall i :: 0 <= i < |p| ==> p[i] == q[i] && p[..i] == q[..i];
  }

  lemma CreatedSnoc<Op, Row>(rules: Rules<Op, Row>, front: seq<Op>, op: Op, k: string)
    ensures Created(rules, front + [op], k) <==> Created(rules, front, k) || (rules.creates(op) && rules.key(op) == k)
  {
    assert forall o :: o in front + [op] <==> o in front || o == op;
  }

  /** Every pass covers some leading part of `q`. */
  ghost predicate Prefixes<T>(passes: seq<seq<T>>, q: seq<T>) {
    forall i :: 0 <= i < |passes| ==> passes[i] <= q
  }

  lemma {:induction false} FoldAt<Op, Row>(rules: Rules<Op, Row>, ops: seq<Op>, t: map<string, Row>, k: string)
    ensures Get(Fold(rules, ops, t), k) == RowAt(rules, ops, k, Get(t, k))
  {
    if ops != [] {
      FoldAt(rules, ops[..|ops| - 1], t, k);
    }
  }

  lemma {:induction false} SoundRow<Op, Row>(rules: Rules<Op, Row>, ops: seq<Op>, t: map<string, Row>, k: string)
    requires Sound(rules, ops, t)
    ensures SoundAt(rules, ops, k, Get(t, k))
  {
    if ops != [] {
      var front := ops[..|ops| - 1];
      SoundRow(rules, front, t, k);
      FoldAt(rules, front, t, k);
    }
  }

  lemma SameRows<Row>(t: map<string, Row>, u: map<string, Row>)
    requires forall k :: Get(t, k) == Get(u, k)
    ensures t == u
  {
    forall k ensures k in t <==> k in u
    {
      assert Get(t, k) == Get(u, k);
    }
    forall k | k in t ensures t[k] == u[k]
    {
      assert Get(t, k) == Get(u, k);
    }
  }

  ghost predicate AllRows<Row>(t: map<string, Row>, ok: (string, Row) -> bool) {
    forall k :: k in t ==> ok(k, t[k])
  }

  /** A pass erases the past exactly when each row it meets ends where no row would. */
  lemma PassAgrees<Op, Row>(rules: Rules<Op, Row>, ops: seq<Op>, t: map<string, Row>, ok: (string, Row) -> bool)
    requires forall k :: k in t ==>
               (RowAt(rules, ops, k, Some(t[k])) == RowAt(rules, ops, k, None) <==> ok(k, t[k]))
    ensures Fold(rules, ops, t) == Fold(rules, ops, map[]) <==> AllRows(t, ok)
  {
    var a, b := Fold(rules, ops, t), Fold(rules, ops, map[]);
    forall k ensures Get(a, k) == Get(b, k) <==> (k in t ==> ok(k, t[k])) {
      FoldAt(rules, ops, t, k);
      FoldAt(rules, ops, map[], k);
    }
    if AllRows(t, ok) {
      SameRows(a, b);
    }
  }

  /** A pass may be cut anywhere: the second part continues from the first. */
  lemma {:induction false} FoldSplit<Op, Row>(rules: Rules<Op, Row>, a: seq<Op>, b: seq<Op>, t: map<string, Row>)
    ensures Fold(rules, a + b, t) == Fold(rules, b, Fold(rules, a, t))
  {
    if b == [] {
      assert a + b == a;
    } else {
      assert (a + b)[..|a + b| - 1] == a + b[..|b| - 1];
      FoldSplit(rules, a, b[..|b| - 1], t);
    }
  }

  lemma FoldTwo<Op, Row>(rules: Rules<Op, Row>, a: Op, b: Op, t: map<string, Row>)
    ensures Fold(rules, [a, b], t) == Apply(rules, b, Apply(rules, a, t))
  {
    var one := [a];
    assert one[..0] == [];
    assert Fold(rules, one, t) == Apply(rules, a, t);
    assert [a, b][..1] == one;
  }

  lemma {:induction false} RowSplit<Op, Row>(rules: Rules<Op, Row>, a: seq<Op>, b: seq<Op>, k: string, r: Option<Row>)
    ensures RowAt(rules, a + b, k, r) == RowAt(rules, b, k, RowAt(rules, a, k, r))
    ensures SoundAt(rules, a + b, k, r) <==>
              SoundAt(rules, a, k, r) && SoundAt(rules, b, k, RowAt(rules, a, k, r))
  {
    if b == [] {
      assert a + b == a;
    } else {
      assert (a + b)[..|a + b| - 1] == a + b[..|b| - 1];
      RowSplit(rules, a, b[..|b| - 1], k, r);
    }
  }

  lemma ReplaySnoc<Op, Row>(rules: Rules<Op, Row>, before: seq<seq<Op>>, p: seq<Op>, t: map<string, Row>)
    ensures Replay(rules, before + [p], t) == Fold(rules, p, Replay(rules, before, t))
    ensures ReplaySound(rules, before + [p]) <==>
              ReplaySound(rules, before) && Sound(rules, p, Replay(rules, before, map[]))
  {
    assert (before + [p])[..|before|] == before;
  }

  /** No statement of `q` takes a row from where the property holds to where it fails. */
  ghost predicate StepKeeps<Op(!new), Row(!new)>(rules: Rules<Op, Row>, q: seq<Op>, ok: (string, Row) -> bool) {
    forall op, row: Option<Row> :: op in q && (row.Some? ==> ok(rules.key(op), row.value)) ==>
      rules.step(op, row).Some? ==> ok(rules.key(op), rules.step(op, row).value)
  }

  lemma {:induction false} FoldKeeps<Op(!new), Row(!new)>(
      rules: Rules<Op, Row>, p: seq<Op>, q: seq<Op>, t: map<string, Row>, ok: (string, Row) -> bool)
    requires StepKeeps(rules, q, ok) && p <= q && AllRows(t, ok)
    ensures AllRows(Fold(rules, p, t), ok)
  {
    if p != [] {
      assert p[|p| - 1] in q;
      FoldKeeps(rules, p[..|p| - 1], q, t, ok);
    }
  }

  /** However many passes over prefixes of `q` ran, and wherever each one stopped. */
  lemma {:induction false} ReplayKeeps<Op(!new), Row(!new)>(
      rules: Rules<Op, Row>, passes: seq<seq<Op>>, q: seq<Op>, ok: (string, Row) -> bool)
    requires StepKeeps(rules, q, ok) && Prefixes(passes, q)
    ensures AllRows(Replay(rules, passes, map[]), ok)
  {
    if passes != [] {
      var before, p := passes[..|passes| - 1], passes[|passes| - 1];
      ReplayKeeps(rules, before, q, ok);
      FoldKeeps(rules, p, q, Replay(rules, before, map[]), ok);
    }
  }

  /** The last statement of a kind. */
  ghost predicate Last<Op(!new)>(ops: seq<Op>, kind: Op -> bool, i: int) {
    0 <= i < |ops| && kind(ops[i]) && forall j :: i < j < |ops| ==> !kind(ops[j])
  }

  ghost predicate NoneOf<Op(!new)>(ops: seq<Op>, kind: Op -> bool) {
    forall j :: 0 <= j < |ops| ==> !kind(ops[j])
  }

  lemma LastSnoc<Op(!new)>(front: seq<Op>, op: Op, kind: Op -> bool, i: int)
    ensures Last(front + [op], kind, i) <==> if kind(op) then i == |front| else Last(front, kind, i)
    ensures NoneOf(front + [op], kind) <==> NoneOf(front, kind) && !kind(op)
  {
    var ops := front + [op];
    assert ops[|front|] == op;
    assert forall j :: 0 <= j < |front| ==> ops[j] == front[j];
  }

  /** A column holds what the last statement of the kind that writes it says. */
  ghost predicate Column<Op(!new), V>(ops: seq<Op>, kind: Op -> bool, says: Op -> V, v: V) {
    forall i :: Last(ops, kind, i) ==> v == says(ops[i])
  }

  lemma ColumnSnoc<Op(!new), V>(front: seq<Op>, op: Op, kind: Op -> bool, says: Op -> V, v: V)
    ensures kind(op) ==> Column(front + [op], kind, says, says(op))
    ensures !kind(op) && Column(front, kind, says, v) ==> Column(front + [op], kind, says, v)
    ensures NoneOf(front + [op], kind) <==> NoneOf(front, kind) && !kind(op)
  {
    var ops := front + [op];
    LastSnoc(front, op, kind, 0);
    forall i | Last(ops, kind, i)
      ensures ops[i] == if kind(op) then op else front[i]
      ensures !kind(op) ==> Last(front, kind, i)
    {
      LastSnoc(front, op, kind, i);
    }
  }
}
