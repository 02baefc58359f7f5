/** The indexer over its database tables: store, projections and the ingest procedure. */
module IndexerService {
  import opened Wrappers
  import opened Json
  import opened Keyed
  import opened Model
  import opened Store
  import opened Projections
  import opened Ingestion
  import opened Sources
  import V = Verifications
  import E = Escrows
  import F = Financings
  import I = Identities

  /** An ingest that is not cut: every planned statement has its turn. */
  function CompleteIngest(db: Db, contract: string, chain: seq<ChainEvent>, head: int): Db {
    var batch := Pulled(db, contract, chain);
    var floor := head - TRUSTED_CUTOFF;
    Ingested(db, contract, batch, floor, Statements(db, contract, batch, floor))
  }

  /** A whole ingest does to the database what an ingest step of a run does when it is not cut. */
  ghost predicate Outcome(db: Db, t: Db, r: Result<nat, ApplyError>, contract: string, chain: seq<ChainEvent>,
                          head: int)
  {
    var batch := Pulled(db, contract, chain);
    var pass := Pass(ToReplay(db, contract, batch, head - TRUSTED_CUTOFF), db.tables);
    && t == CompleteIngest(db, contract, chain, head)
    && (r.Ok? <==> batch == [] || pass.ok)
    && (r.Ok? ==> r.value == |batch|)
  }

  lemma EmptyOutcome(db: Db, contract: string, chain: seq<ChainEvent>, head: int)
    requires Pulled(db, contract, chain) == []
    ensures Outcome(db, db, Ok(0), contract, chain, head)
  {
  }

  lemma AbsorbedOutcome(db: Db, t: Db, r: Result<nat, ApplyError>, contract: string, chain: seq<ChainEvent>, head: int)
    requires Pulled(db, contract, chain) != []
    requires Absorbed(db, t, r, contract, Pulled(db, contract, chain), head - TRUSTED_CUTOFF)
    ensures Outcome(db, t, r, contract, chain, head)
  {
  }

  ghost predicate Absorbed(db: Db, t: Db, r: Result<nat, ApplyError>, contract: string, batch: seq<ChainEvent>,
                           floor: int)
  {
    batch != [] &&
    var pass := Pass(ToReplay(db, contract, batch, floor), db.tables);
    && t.events == AppendAll(db.events, batch)
    && t.cursors == db.cursors[contract := batch[|batch| - 1].Position()]
    && t.tables == pass.tables
    && r.Ok? == pass.ok
    && (r.Ok? ==> r.value == |batch|)
  }

  function Ticked(db: Db, contracts: seq<string>, events: map<Cursor, ChainEvent>, head: int): Db {
    if contracts == [] then db
    else
      var c := contracts[|contracts| - 1];
      CompleteIngest(Ticked(db, contracts[..|contracts| - 1], events, head), c, ChainOf(events, c), head)
  }

  lemma TickedNext(db: Db, contracts: seq<string>, i: nat, events: map<Cursor, ChainEvent>, head: int)
    requires i < |contracts|
    ensures
      Ticked(db, contracts[..i + 1], events, head) ==
        CompleteIngest(Ticked(db, contracts[..i], events, head), contracts[i], ChainOf(events, contracts[i]), head)
  {
    assert contracts[..i + 1][..i] == contracts[..i];
  }

  class Indexer {
    var events: Events
    var cursors: map<string, Cursor>
    var verifications: map<string, V.Row>
    var escrows: map<string, E.Row>
    var financings: map<string, F.Row>
    var farmers: map<string, I.Row>

    constructor ()
      ensures State() == Db(map[], map[], EMPTY)
    {
      events, cursors := map[], map[];
      verifications, escrows, financings, farmers := map[], map[], map[], map[];
    }

    function Projected(): Tables
      reads this
    {
      Tables(verifications, escrows, financings, farmers)
    }

    function State(): Db
      reads this
    {
      Db(events, cursors, Projected())
    }

    method AppendEvents(batch: seq<ChainEvent>)
      modifies this`events
      ensures events == AppendAll(old(events), batch) && KeepsFirst(old(events), batch, events)
    {
      for i := 0 to |batch|
        invariant events == AppendAll(old(events), batch[..i])
      {
        assert batch[..i + 1][..i] == batch[..i];
        if KeyOf(batch[i]) !in events {
          events := events[KeyOf(batch[i]) := batch[i]];
        }
      }
      assert batch[..|batch|] == batch;
      AppendKeepsFirst(old(events), batch);
    }

    method GetCursor(contract: string) returns (r: Cursor)
      ensures r == CursorOf(cursors, contract)
    {
      if contract in cursors {
        r := cursors[contract];
      } else {
        r := START;
      }
    }

    method SetCursor(contract: string, cursor: Cursor)
      modifies this`cursors
      ensures cursors == old(cursors)[contract := cursor]
    {
      cursors := cursors[contract := cursor];
    }

    method Rewind(contract: string, fromLedger: int)
      modifies this`events, this`cursors
      ensures State() == Rewound(old(State()), contract, fromLedger)
    {
      events := map k | k in events && !(k.contractId == contract && k.position.ledger >= fromLedger) :: events[k];
      cursors := map c | c in cursors && c != contract :: cursors[c];
    }

    method FinalizedEvents(contract: string, floor: int) returns (r: seq<ChainEvent>)
      ensures r == Finalized(events, contract, floor)
    {
      r := Finalized(events, contract, floor);
    }

    method UpsertVerification(key: string, made: V.Row)
      modifies this`verifications
      ensures verifications == Apply(V.RULES, V.Create(key, made), old(verifications))
    {
      if key in verifications {
        var was := verifications[key];
        verifications := verifications[key := V.Row(
          made.contractId, made.batchId, made.subject, made.proofHash, made.issuer, made.issuedLedger,
          was.revoked, was.revokedLedger)];
      } else {
        verifications := verifications[key := made];
      }
    }

    method RevokeVerification(key: string, ledger: int)
      modifies this`verifications
      ensures verifications == Apply(V.RULES, V.Revoke(key, ledger), old(verifications))
    {
      if key in verifications {
        verifications := verifications[key := verifications[key].(revoked := true, revokedLedger := Some(ledger))];
      }
    }

    method UpsertEscrow(key: string, made: E.Row)
      modifies this`escrows
      ensures escrows == Apply(E.RULES, E.Create(key, made), old(escrows))
    {
      if key in escrows {
        var was := escrows[key];
        escrows := escrows[key := was.(
          contractId := made.contractId, depositor := made.depositor, beneficiary := made.beneficiary,
          amount := made.amount, bookingRef := made.bookingRef, conditionKind := made.conditionKind,
          conditionReleaser := made.conditionReleaser, conditionTimeoutLedger := made.conditionTimeoutLedger,
          createdLedger := made.createdLedger, updatedLedger := made.updatedLedger)];
      } else {
        escrows := escrows[key := made];
      }
    }

    method AddEscrowDeposit(key: string, amount: int, ledger: int) returns (ok: bool)
      modifies this`escrows
      ensures ok == !E.Fails(E.Deposit(key, amount, ledger), Get(old(escrows), key))
      ensures escrows == Apply(E.RULES, E.Deposit(key, amount, ledger), old(escrows))
    {
      ok := true;
      if key in escrows {
        var was := escrows[key];
        if FitsI64(was.amount + amount) {
          escrows := escrows[key := was.(amount := was.amount + amount, updatedLedger := ledger)];
        } else {
          ok := false;
        }
      }
    }

    method ReleaseEscrow(key: string, amount: int, ledger: int) returns (ok: bool)
      modifies this`escrows
      ensures ok == !E.Fails(E.Release(key, amount, ledger), Get(old(escrows), key))
      ensures escrows == Apply(E.RULES, E.Release(key, amount, ledger), old(escrows))
    {
      ok := true;
      if key in escrows {
        var was := escrows[key];
        var released := was.releasedAmount + amount;
        if FitsI64(released) {
          escrows := escrows[key := was.(releasedAmount := released, updatedLedger := ledger,
                                         status := if released >= was.amount then E.Released else E.Open)];
        } else {
          ok := false;
        }
      }
    }

    method RefundEscrow(key: string, ledger: int)
      modifies this`escrows
      ensures escrows == Apply(E.RULES, E.Refund(key, ledger), old(escrows))
    {
      if key in escrows {
        var was := escrows[key];
        escrows := escrows[key := was.(status := E.Refunded, releasedAmount := was.amount, updatedLedger := ledger)];
      }
    }

    method UpsertFinancing(key: string, made: F.Row)
      modifies this`financings
      ensures financings == Apply(F.RULES, F.Create(key, made), old(financings))
    {
      if key in financings {
        financings := financings[key := made.(status := financings[key].status)];
      } else {
        financings := financings[key := made];
      }
    }

    method AddFinancingDeposit(key: string, amount: int, ledger: int) returns (ok: bool)
      modifies this`financings
      ensures ok == !F.Fails(F.Deposit(key, amount, ledger), Get(old(financings), key))
      ensures financings == Apply(F.RULES, F.Deposit(key, amount, ledger), old(financings))
    {
      ok := true;
      if key in financings {
        var was := financings[key];
        var drawn := was.drawnAmount + amount;
        if FitsI64(drawn) {
          financings := financings[key := was.(drawnAmount := drawn, updatedLedger := Some(ledger))];
        } else {
          ok := false;
        }
      }
    }

    method ReleaseFinancing(key: string, amount: int, ledger: int) returns (ok: bool)
      modifies this`financings
      ensures ok == !F.Fails(F.Release(key, amount, ledger), Get(old(financings), key))
      ensures financings == Apply(F.RULES, F.Release(key, amount, ledger), old(financings))
    {
      ok := true;
      if key in financings {
        var was := financings[key];
        var drawn := was.drawnAmount + amount;
        if FitsI64(drawn) {
          financings := financings[key := was.(drawnAmount := drawn, drawnLedger := Some(ledger),
                                               updatedLedger := Some(ledger))];
        } else {
          ok := false;
        }
      }
    }

    method RefundFinancing(key: string, amount: int, isDefault: bool, defaultLedger: Option<int>) returns (ok: bool)
      modifies this`financings
      ensures ok == !F.Fails(F.Refund(key, amount, isDefault, defaultLedger), Get(old(financings), key))
      ensures financings == Apply(F.RULES, F.Refund(key, amount, isDefault, defaultLedger), old(financings))
    {
      ok := true;
      if key in financings {
        var was := financings[key];
        var drawn := was.drawnAmount - amount;
        if FitsI64(drawn) {
          financings := financings[key := was.(
            status := if isDefault then F.Defaulted else F.Refunded, defaulted := isDefault,
            defaultedLedger := if defaultLedger.Some? then defaultLedger else was.defaultedLedger,
            drawnAmount := if drawn < 0 then 0 else drawn)];
        } else {
          ok := false;
        }
      }
    }

    method UpsertIdentityFarmer(key: string, created: Option<int>, updated: Option<int>, markers: Json)
      modifies this`farmers
      ensures farmers == Apply(I.RULES, I.Register(key, created, updated, markers), old(farmers))
    {
      if key in farmers {
        var was := farmers[key];
        farmers := farmers[key := was.(
          registered := true,
          createdLedger := if created.Some? then created else was.createdLedger,
          updatedLedger := if updated.Some? then updated else was.updatedLedger,
          markers := markers)];
      } else {
        farmers := farmers[key := I.Row(I.FarmerId(key), JObj(map[]), "", true, created, updated, markers)];
      }
    }

    method UpdateIdentityMetadata(key: string, updated: Option<int>)
      modifies this`farmers
      ensures farmers == Apply(I.RULES, I.Metadata(key, updated), old(farmers))
    {
      if key in farmers && updated.Some? {
        farmers := farmers[key := farmers[key].(updatedLedger := updated)];
      }
    }

    method AppendIdentityMarker(key: string, marker: Json)
      modifies this`farmers
      ensures farmers == Apply(I.RULES, I.Marker(key, marker), old(farmers))
    {
      if key in farmers {
        farmers := farmers[key := farmers[key].(markers := Concat(farmers[key].markers, marker))];
      }
    }

    /** Whether a builder consumed the event; a refused statement is an error and changes nothing. */
    method ApplyEvent(e: ChainEvent) returns (r: Result<bool, ApplyError>)
      modifies this`verifications, this`escrows, this`financings, this`farmers
      ensures
        match Projections.ApplyEvent(e, old(Projected()))
        case Ok((t, consumed)) => r == Ok(consumed) && Projected() == t
        case Err(error) => r == Err(error) && Projected() == old(Projected())
    {
      var accepted := true;
      match Decode(e) {
        case Malformed => return Err(BadPayload);
        case Ignored => return Ok(false);
        case OnVerification(op) =>
          match op {
            case Create(key, made) => UpsertVerification(key, made);
            case Revoke(key, ledger) => RevokeVerification(key, ledger);
          }
        case OnEscrow(op) =>
          match op {
            case Create(key, made) => UpsertEscrow(key, made);
            case Deposit(key, amount, ledger) => accepted := AddEscrowDeposit(key, amount, ledger);
            case Release(key, amount, ledger) => accepted := ReleaseEscrow(key, amount, ledger);
            case Refund(key, ledger) => RefundEscrow(key, ledger);
          }
        case OnFinancing(op) =>
          match op {
            case Create(key, made) => UpsertFinancing(key, made);
            case Deposit(key, amount, ledger) => accepted := AddFinancingDeposit(key, amount, ledger);
            case Release(key, amount, ledger) => accepted := ReleaseFinancing(key, amount, ledger);
            case Refund(key, amount, isDefault, ledger) =>
              accepted := RefundFinancing(key, amount, isDefault, ledger);
          }
        case OnIdentity(op) =>
          match op {
            case Register(key, created, updated, markers) => UpsertIdentityFarmer(key, created, updated, markers);
            case Metadata(key, updated) => UpdateIdentityMetadata(key, updated);
            case Marker(key, marker) => AppendIdentityMarker(key, marker);
          }
      }
      r := if accepted then Ok(true) else Err(OutOfRange);
    }

    /** The projection pass: the finalized events in order, returning at the first error. */
    method ReplayFinalized(contract: string, floor: int) returns (r: Result<nat, ApplyError>)
      modifies this`verifications, this`escrows, this`financings, this`farmers
      ensures
        var pass := Pass(Finalized(events, contract, floor), old(Projected()));
        && Projected() == pass.tables
        && (r.Ok? <==> pass.ok)
        && (r.Ok? ==> r.value == pass.applied)
    {
      var finalized := FinalizedEvents(contract, floor);
      var applied := 0;
      for i := 0 to |finalized|
        invariant
          var pass := Pass(finalized[..i], old(Projected()));
          pass.ok && Projected() == pass.tables && applied == pass.applied
      {
        assert finalized[..i + 1][..i] == finalized[..i];
        var consumed := ApplyEvent(finalized[i]);
        if consumed.Err? {
          PassExtends(finalized[..i + 1], finalized, old(Projected()));
          return Err(consumed.error);
        }
        if consumed.value {
          applied := applied + 1;
        }
      }
      assert finalized[..|finalized|] == finalized;
      r := Ok(applied);
    }

    /** The writing half of an ingest: appends, then the cursor, then the pass; errors stop the pass. */
    method Absorb(contract: string, batch: seq<ChainEvent>, floor: int) returns (r: Result<nat, ApplyError>)
      requires batch != []
      modifies this
      ensures Absorbed(old(State()), State(), r, contract, batch, floor)
    {
      AppendEvents(batch);
      var last := batch[|batch| - 1];
      SetCursor(contract, Cursor(last.ledger, last.op, last.event));
      assert Projected() == old(Projected());
      var applied := ReplayFinalized(contract, floor);
      if applied.Err? {
        return Err(applied.error);
      }
      r := Ok(|batch|);
    }

    /**
     Pulls what follows the cursor and absorbs it; with nothing new it returns before the pass.
     What it does to the database is an ingest step of a run that is not cut.
     */
    method Ingest(source: StubEventSource, contract: string) returns (r: Result<nat, ApplyError>)
      modifies this
      ensures Outcome(old(State()), State(), r, contract, source.Chain(contract), source.head)
    {
      var cursor := GetCursor(contract);
      var batch := source.EventsAfter(contract, cursor);
      ghost var db, chain := State(), source.Chain(contract);
      assert batch == Pulled(db, contract, chain);
      if |batch| == 0 {
        EmptyOutcome(db, contract, chain, source.head);
        return Ok(0);
      }
      var head := source.HeadLedger();
      r := Absorb(contract, batch, head - TRUSTED_CUTOFF);
      AbsorbedOutcome(db, State(), r, contract, chain, head);
    }

    /** One tick of the background loop: every configured contract, whatever the others return. */
    method Tick(source: StubEventSource, contracts: seq<string>)
      modifies this
      ensures State() == Ticked(old(State()), contracts, source.events, source.head)
    {
      for i := 0 to |contracts|
        invariant State() == Ticked(old(State()), contracts[..i], source.events, source.head)
      {
        TickedNext(old(State()), contracts, i, source.events, source.head);
        var _ := Ingest(source, contracts[i]);
      }
      assert contracts[..|contracts|] == contracts;
    }
  }
}
