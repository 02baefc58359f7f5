/** Decoding stored events and applying them to the four projection tables. */
module Projections {
  import opened Wrappers
  import opened Json
  import opened Ids
  import opened Keyed
  import opened Model
  import V = Verifications
  import E = Escrows
  import F = Financings
  import I = Identities

  datatype Tables = Tables(verifications: map<string, V.Row>, escrows: map<string, E.Row>,
                           financings: map<string, F.Row>, farmers: map<string, I.Row>)

  const EMPTY := Tables(map[], map[], map[], map[])

  const VERIFICATION := "verification"
  const ESCROW := "escrow"
  const FINANCING := "financing"
  const IDENTITY := "identity"

  function VerificationCreated(e: ChainEvent): Option<V.Op> {
    var id :- GetU64(e.data, 0);
    var batch :- GetStr(e.data, 1);
    var subject :- GetStr(e.data, 2);
    var proof :- GetStr(e.data, 3);
    var issuer :- GetStr(e.data, 4);
    var issued :- GetI64(e.data, 5);
    Some(V.Create(CounterId(VERIFICATION_PREFIX, id),
                  V.Row(e.contractId, Reference("batch", batch), subject, proof, issuer, issued, false, None)))
  }

  function VerificationRevoked(e: ChainEvent): Option<V.Op> {
    var id :- GetU64(e.data, 0);
    var ledger :- GetI64(e.data, 3);
    Some(V.Revoke(CounterId(VERIFICATION_PREFIX, id), ledger))
  }

  function EscrowCreated(e: ChainEvent): Option<E.Op> {
    var id :- GetU64(e.data, 0);
    var depositor :- GetStr(e.data, 1);
    var beneficiary :- GetStr(e.data, 2);
    var amount :- GetI64(e.data, 3);
    var kind :- GetI32(e.data, 4);
    var booking :- GetStr(e.data, 7);
    var created :- GetI64(e.data, 8);
    var updated :- GetI64(e.data, 9);
    Some(E.Create(CounterId(ESCROW_PREFIX, id),
                  E.Row(e.contractId, depositor, beneficiary, amount, 0, Reference("booking", booking), kind,
                        GetStr(e.data, 5), GetI64(e.data, 6), created, updated, E.Open)))
  }

  function EscrowDeposited(e: ChainEvent): Option<E.Op> {
    var id :- GetU64(e.data, 0);
    var amount :- GetI64(e.data, 2);
    var ledger :- GetI64(e.data, 3);
    Some(E.Deposit(CounterId(ESCROW_PREFIX, id), amount, ledger))
  }

  function EscrowReleased(e: ChainEvent): Option<E.Op> {
    var id :- GetU64(e.data, 0);
    var amount :- GetI64(e.data, 2);
    var ledger :- GetI64(e.data, 3);
    Some(E.Release(CounterId(ESCROW_PREFIX, id), amount, ledger))
  }

  function EscrowRefunded(e: ChainEvent): Option<E.Op> {
    var id :- GetU64(e.data, 0);
    var ledger :- GetI64(e.data, 3);
    Some(E.Refund(CounterId(ESCROW_PREFIX, id), ledger))
  }

  function FinancingCreated(e: ChainEvent): Option<F.Op> {
    var id :- GetU64(e.data, 0);
    var funder :- GetStr(e.data, 1);
    var beneficiary :- GetStr(e.data, 2);
    var total :- GetI64(e.data, 3);
    var drawn :- GetI64(e.data, 4);
    var count :- GetI32(e.data, 5);
    var milestones :- At(e.data, 6);
    var repaid :- GetI64(e.data, 8);
    var isDefault :- GetBool(e.data, 9);
    var drawnLedger := GetI64(e.data, 7);
    Some(F.Create(CounterId(FINANCING_PREFIX, id),
                  F.Row(e.contractId, funder, beneficiary, total, drawn, count, milestones, drawnLedger, repaid,
                        isDefault, GetI64(e.data, 10), drawnLedger,
                        if isDefault then F.Defaulted else F.Active)))
  }

  function FinancingDeposited(e: ChainEvent): Option<F.Op> {
    var id :- GetU64(e.data, 0);
    var amount :- GetI64(e.data, 1);
    var ledger :- GetI64(e.data, 2);
    Some(F.Deposit(CounterId(FINANCING_PREFIX, id), amount, ledger))
  }

  function FinancingReleased(e: ChainEvent): Option<F.Op> {
    var id :- GetU64(e.data, 0);
    var amount :- GetI64(e.data, 1);
    var ledger :- GetI64(e.data, 2);
    Some(F.Release(CounterId(FINANCING_PREFIX, id), amount, ledger))
  }

  function FinancingRefunded(e: ChainEvent): Option<F.Op> {
    var id :- GetU64(e.data, 0);
    var amount :- GetI64(e.data, 1);
    var isDefault :- GetBool(e.data, 2);
    Some(F.Refund(CounterId(FINANCING_PREFIX, id), amount, isDefault, GetI64(e.data, 3)))
  }

  /** Identity events name the farmer in their first topic. */
  function Address(e: ChainEvent): Option<string> {
    GetStr(e.topics, 0)
  }

  function FarmerRegistered(e: ChainEvent): Option<I.Op> {
    var address :- Address(e);
    var markers := match Field(e.data, "verification_markers") case Some(m) => m case None => JArr([]);
    Some(I.Register(address, FieldI64(e.data, "created_ledger"), FieldI64(e.data, "updated_ledger"), markers))
  }

  function FarmerMetadataUpdated(e: ChainEvent): Option<I.Op> {
    var address :- Address(e);
    Some(I.Metadata(address, FieldI64(e.data, "updated_ledger")))
  }

  function VerificationMarkerSet(e: ChainEvent): Option<I.Op> {
    var address :- Address(e);
    Some(I.Marker(address, e.data))
  }

  /** The statement an event asks for; unknown events ask for none, bad payloads are errors. */
  datatype Decoded =
    | Malformed
    | Ignored
    | OnVerification(v: V.Op)
    | OnEscrow(x: E.Op)
    | OnFinancing(f: F.Op)
    | OnIdentity(i: I.Op)

  function ForVerification(op: Option<V.Op>): Decoded { if op.Some? then OnVerification(op.value) else Malformed }

  function ForEscrow(op: Option<E.Op>): Decoded { if op.Some? then OnEscrow(op.value) else Malformed }

  function ForFinancing(op: Option<F.Op>): Decoded { if op.Some? then OnFinancing(op.value) else Malformed }

  function ForIdentity(op: Option<I.Op>): Decoded { if op.Some? then OnIdentity(op.value) else Malformed }

  function Decode(e: ChainEvent): Decoded {
    if e.contractName == VERIFICATION then
      if e.eventName == "VerificationCreated" then ForVerification(VerificationCreated(e))
      else if e.eventName == "VerificationRevoked" then ForVerification(VerificationRevoked(e))
      else Ignored
    else if e.contractName == ESCROW then
      if e.eventName == "EscrowCreated" then ForEscrow(EscrowCreated(e))
      else if e.eventName == "EscrowDeposited" then ForEscrow(EscrowDeposited(e))
      else if e.eventName == "EscrowReleased" then ForEscrow(EscrowReleased(e))
      else if e.eventName == "EscrowRefunded" then ForEscrow(EscrowRefunded(e))
      else Ignored
    else if e.contractName == IDENTITY then
      if e.eventName == "FarmerRegistered" then ForIdentity(FarmerRegistered(e))
      else if e.eventName == "FarmerMetadataUpdated" then ForIdentity(FarmerMetadataUpdated(e))
      else if e.eventName == "VerificationMarkerSet" then ForIdentity(VerificationMarkerSet(e))
      else Ignored
    else if e.contractName == FINANCING then
      if e.eventName == "FinancingCreated" then ForFinancing(FinancingCreated(e))
      else if e.eventName == "FinancingDeposited" then ForFinancing(FinancingDeposited(e))
      else if e.eventName == "FinancingReleased" then ForFinancing(FinancingReleased(e))
      else if e.eventName == "FinancingRefunded" then ForFinancing(FinancingRefunded(e))
      else Ignored
    else Ignored
  }

  datatype ApplyError = BadPayload | OutOfRange

  /** One event: the new tables and whether a builder consumed it, or an error and no change. */
  function ApplyEvent(e: ChainEvent, t: Tables): Result<(Tables, bool), ApplyError> {
    ApplyDecoded(Decode(e), t)
  }

  function ApplyDecoded(d: Decoded, t: Tables): Result<(Tables, bool), ApplyError> {
    match d
    case Malformed => Err(BadPayload)
    case Ignored => Ok((t, false))
    case OnVerification(op) => Ok((t.(verifications := Apply(V.RULES, op, t.verifications)), true))
    case OnIdentity(op) => Ok((t.(farmers := Apply(I.RULES, op, t.farmers)), true))
    case OnEscrow(op) =>
      if E.Fails(op, Get(t.escrows, op.key)) then Err(OutOfRange)
      else Ok((t.(escrows := Apply(E.RULES, op, t.escrows)), true))
    case OnFinancing(op) =>
      if F.Fails(op, Get(t.financings, op.key)) then Err(OutOfRange)
      else Ok((t.(financings := Apply(F.RULES, op, t.financings)), true))
  }

  /** `done` events were applied or skipped before the pass ended or stopped. */
  datatype PassResult = PassResult(tables: Tables, done: nat, applied: nat, ok: bool)

  /** One projection pass: events in order, stopping at the first error. */
  function Pass(q: seq<ChainEvent>, t: Tables): (r: PassResult)
    ensures r.applied <= r.done <= |q| && (r.ok <==> r.done == |q|)
  {
    if q == [] then PassResult(t, 0, 0, true)
    else
      var s := Pass(q[..|q| - 1], t);
      if !s.ok then s
      else
        match ApplyEvent(q[|q| - 1], s.tables)
        case Ok((u, consumed)) => PassResult(u, s.done + 1, s.applied + if consumed then 1 else 0, true)
        case Err(_) => s.(ok := false)
  }

  lemma {:induction false} PassCut(q: seq<ChainEvent>, t: Tables)
    ensures Pass(q[..Pass(q, t).done], t) == Pass(q, t).(ok := true)
  {
    if q != [] {
      PassCut(q[..|q| - 1], t);
      if Pass(q, t).done < |q| {
        assert q[..|q| - 1][..Pass(q, t).done] == q[..Pass(q, t).done];
      } else {
        assert q[..|q|] == q;
      }
    }
  }

  /** A pass over more events first does what the shorter pass does, and goes on only if that one ended well. */
  lemma {:induction false} PassExtends(p: seq<ChainEvent>, q: seq<ChainEvent>, t: Tables)
    requires p <= q
    ensures !Pass(p, t).ok ==> Pass(q, t) == Pass(p, t)
    ensures Pass(p, t).ok <==> |p| <= Pass(q, t).done
  {
    if |p| < |q| {
      PassExtends(p, q[..|q| - 1], t);
    } else {
      assert p == q;
    }
  }

  /** A pass that gets as far as a malformed event stops there. */
  lemma PassStopsAt(q: seq<ChainEvent>, n: nat, t: Tables)
    requires n < |q| && Decode(q[n]).Malformed?
    requires Pass(q[..n], t).ok
    ensures Pass(q, t) == Pass(q[..n], t).(ok := false)
  {
    var upTo := q[..n + 1];
    assert upTo[..n] == q[..n];
    assert !Pass(upTo, t).ok;
    PassExtends(upTo, q, t);
  }

  /** The statements a pass sends to one table. */
  function Select<Op>(q: seq<ChainEvent>, pick: Decoded -> seq<Op>): seq<Op> {
    if q == [] then [] else Select(q[..|q| - 1], pick) + pick(Decode(q[|q| - 1]))
  }

  /** An event of an unknown name is skipped: the pass does what it does without it. */
  lemma {:induction false} SkipsUnknown(a: seq<ChainEvent>, e: ChainEvent, b: seq<ChainEvent>, t: Tables)
    requires Decode(e) == Ignored
    ensures
      var given, without := Pass(a + [e] + b, t), Pass(a + b, t);
      given.tables == without.tables && given.ok == without.ok && given.applied == without.applied
  {
    if b == [] {
      assert a + [e] + b == a + [e] && a + b == a;
      assert (a + [e])[..|a|] == a;
    } else {
      var n := |b| - 1;
      SkipsUnknown(a, e, b[..n], t);
      assert (a + [e] + b)[..|a| + 1 + n] == a + [e] + b[..n];
      assert (a + b)[..|a| + n] == a + b[..n];
      assert (a + [e] + b)[|a| + 1 + n] == b[n] == (a + b)[|a| + n];
    }
  }

  lemma {:induction false} SelectPrefix<Op>(p: seq<ChainEvent>, q: seq<ChainEvent>, pick: Decoded -> seq<Op>)
    requires p <= q
    ensures Select(p, pick) <= Select(q, pick)
  {
    if |p| < |q| {
      SelectPrefix(p, q[..|q| - 1], pick);
    } else {
      assert p == q;
    }
  }

  const TO_VERIFICATIONS: Decoded -> seq<V.Op> := (d: Decoded) => if d.OnVerification? then [d.v] else []
  const TO_ESCROWS: Decoded -> seq<E.Op> := (d: Decoded) => if d.OnEscrow? then [d.x] else []
  const TO_FINANCINGS: Decoded -> seq<F.Op> := (d: Decoded) => if d.OnFinancing? then [d.f] else []
  const TO_FARMERS: Decoded -> seq<I.Op> := (d: Decoded) => if d.OnIdentity? then [d.i] else []

  function VOps(q: seq<ChainEvent>): seq<V.Op> { Select(q, TO_VERIFICATIONS) }

  function EOps(q: seq<ChainEvent>): seq<E.Op> { Select(q, TO_ESCROWS) }

  function FOps(q: seq<ChainEvent>): seq<F.Op> { Select(q, TO_FINANCINGS) }

  function IOps(q: seq<ChainEvent>): seq<I.Op> { Select(q, TO_FARMERS) }

  lemma FoldOne<Op, Row>(rules: Rules<Op, Row>, ops: seq<Op>, last: seq<Op>, t: map<string, Row>)
    requires |last| <= 1
    ensures last == [] ==> ops + last == ops
    ensures last != [] ==>
              && Fold(rules, ops + last, t) == Apply(rules, last[0], Fold(rules, ops, t))
              && (Sound(rules, ops + last, t) <==>
                    Sound(rules, ops, t) && !rules.fails(last[0], Get(Fold(rules, ops, t), rules.key(last[0]))))
  {
    if last != [] {
      assert (ops + last)[..|ops + last| - 1] == ops;
    }
  }

  /** The four folds, and whether their statements are all accepted. */
  function Folds(v: seq<V.Op>, x: seq<E.Op>, f: seq<F.Op>, i: seq<I.Op>, t: Tables): Tables {
    Tables(Fold(V.RULES, v, t.verifications), Fold(E.RULES, x, t.escrows),
           Fold(F.RULES, f, t.financings), Fold(I.RULES, i, t.farmers))
  }

  predicate Accepted(x: seq<E.Op>, f: seq<F.Op>, t: Tables) {
    Sound(E.RULES, x, t.escrows) && Sound(F.RULES, f, t.financings)
  }

  lemma FoldsStep(d: Decoded, v: seq<V.Op>, x: seq<E.Op>, f: seq<F.Op>, i: seq<I.Op>, t: Tables)
    requires Accepted(x, f, t)
    ensures
      var xs, fs := x + TO_ESCROWS(d), f + TO_FINANCINGS(d);
      match ApplyDecoded(d, Folds(v, x, f, i, t))
      case Ok((u, _)) =>
        && !d.Malformed? && Accepted(xs, fs, t)
        && u == Folds(v + TO_VERIFICATIONS(d), xs, fs, i + TO_FARMERS(d), t)
      case Err(_) => d.Malformed? || !Accepted(xs, fs, t)
  {
    FoldOne(V.RULES, v, TO_VERIFICATIONS(d), t.verifications);
    FoldOne(E.RULES, x, TO_ESCROWS(d), t.escrows);
    FoldOne(F.RULES, f, TO_FINANCINGS(d), t.financings);
    FoldOne(I.RULES, i, TO_FARMERS(d), t.farmers);
  }

  lemma AcceptedFront(d: Decoded, x: seq<E.Op>, f: seq<F.Op>, t: Tables)
    requires Accepted(x + TO_ESCROWS(d), f + TO_FINANCINGS(d), t)
    ensures Accepted(x, f, t)
  {
    FoldOne(E.RULES, x, TO_ESCROWS(d), t.escrows);
    FoldOne(F.RULES, f, TO_FINANCINGS(d), t.financings);
  }

  predicate Clean(q: seq<ChainEvent>) {
    forall e :: e in q ==> !Decode(e).Malformed?
  }

  /** A pass is a fold per table, and it ends well exactly when no payload is bad and no sum overflows. */
  lemma {:induction false} PassFolds(q: seq<ChainEvent>, t: Tables)
    ensures Pass(q, t).ok <==> Clean(q) && Accepted(EOps(q), FOps(q), t)
    ensures Pass(q, t).ok ==> Pass(q, t).tables == Folds(VOps(q), EOps(q), FOps(q), IOps(q), t)
  {
    if q != [] {
      var front, e := q[..|q| - 1], q[|q| - 1];
      var d := Decode(e);
      PassFolds(front, t);
      assert Clean(q) <==> Clean(front) && !d.Malformed? by {
        assert forall o :: o in q <==> o in front || o == e;
      }
      if Accepted(EOps(front), FOps(front), t) {
        FoldsStep(d, VOps(front), EOps(front), FOps(front), IOps(front), t);
      } else if Accepted(EOps(q), FOps(q), t) {
        AcceptedFront(d, EOps(front), FOps(front), t);
      }
    }
  }

  /** The contract names and event names that have a builder. */
  const KNOWN: set<(string, string)> := {
    ("verification", "VerificationCreated"), ("verification", "VerificationRevoked"),
    ("escrow", "EscrowCreated"), ("escrow", "EscrowDeposited"), ("escrow", "EscrowReleased"),
    ("escrow", "EscrowRefunded"),
    ("identity", "FarmerRegistered"), ("identity", "FarmerMetadataUpdated"), ("identity", "VerificationMarkerSet"),
    ("financing", "FinancingCreated"), ("financing", "FinancingDeposited"), ("financing", "FinancingReleased"),
    ("financing", "FinancingRefunded")
  }

  /** Exactly the other events are skipped. */
  lemma IgnoredExactly(e: ChainEvent)
    ensures Decode(e) == Ignored <==> (e.contractName, e.eventName) !in KNOWN
  {
  }

  /** An event fails exactly when it cannot be read, or when its statement is refused. */
  lemma FailsExactly(e: ChainEvent, t: Tables)
    ensures
      var r, d := ApplyEvent(e, t), Decode(e);
      && (r == Err(BadPayload) <==> d.Malformed?)
      && (r == Err(OutOfRange) <==>
            || (d.OnEscrow? && E.Fails(d.x, Get(t.escrows, d.x.key)))
            || (d.OnFinancing? && F.Fails(d.f, Get(t.financings, d.f.key))))
      && (r.Ok? ==> (r.value.1 <==> (e.contractName, e.eventName) in KNOWN))
  {
    IgnoredExactly(e);
  }

  function Consumed(q: seq<ChainEvent>): nat {
    if q == [] then 0
    else Consumed(q[..|q| - 1]) + if (q[|q| - 1].contractName, q[|q| - 1].eventName) in KNOWN then 1 else 0
  }

  /** A pass that succeeds counts the events that have a builder. */
  lemma {:induction false} AppliedCounts(q: seq<ChainEvent>, t: Tables)
    requires Pass(q, t).ok
    ensures Pass(q, t).applied == Consumed(q)
  {
    if q != [] {
      AppliedCounts(q[..|q| - 1], t);
      IgnoredExactly(q[|q| - 1]);
    }
  }
}
