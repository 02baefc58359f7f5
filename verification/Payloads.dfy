/** The contracts' positional payloads, field by field, and what each must do to a table. */
module Payloads {
  import opened Wrappers
  import opened Json
  import opened Ids
  import opened Model
  import opened Projections
  import V = Verifications
  import E = Escrows
  import F = Financings
  import I = Identities

  /** The events as the contracts name their fields. */
  datatype Published =
    | VerificationMade(id: int, batch: string, subject: string, proof: string, issuer: string, issued: int)
    | VerificationWithdrawn(id: int, party: string, revoked: bool, ledger: int)
    | EscrowMade(id: int, depositor: string, beneficiary: string, amount: int, kind: int, releaser: Option<string>,
                 timeout: Option<int>, booking: string, created: int, updated: int)
    | EscrowPaidIn(id: int, from: string, amount: int, ledger: int)
    | EscrowPaidOut(id: int, to: string, amount: int, ledger: int)
    | EscrowReturned(id: int, to: string, amount: int, ledger: int)
    | FinancingMade(id: int, funder: string, beneficiary: string, total: int, drawn: int, count: int, milestones: Json,
                    drawnLedger: Option<int>, repaid: int, isDefault: bool, defaultLedger: Option<int>)
    | FinancingPaidIn(id: int, amount: int, ledger: int)
    | FinancingPaidOut(id: int, amount: int, ledger: int)
    | FinancingReturned(id: int, amount: int, isDefault: bool, defaultLedger: Option<int>)

  function Contract(p: Published): string {
    if p.VerificationMade? || p.VerificationWithdrawn? then VERIFICATION
    else if p.EscrowMade? || p.EscrowPaidIn? || p.EscrowPaidOut? || p.EscrowReturned? then ESCROW
    else FINANCING
  }

  function EventName(p: Published): string {
    match p
    case VerificationMade(_, _, _, _, _, _) => "VerificationCreated"
    case VerificationWithdrawn(_, _, _, _) => "VerificationRevoked"
    case EscrowMade(_, _, _, _, _, _, _, _, _, _) => "EscrowCreated"
    case EscrowPaidIn(_, _, _, _) => "EscrowDeposited"
    case EscrowPaidOut(_, _, _, _) => "EscrowReleased"
    case EscrowReturned(_, _, _, _) => "EscrowRefunded"
    case FinancingMade(_, _, _, _, _, _, _, _, _, _, _) => "FinancingCreated"
    case FinancingPaidIn(_, _, _) => "FinancingDeposited"
    case FinancingPaidOut(_, _, _) => "FinancingReleased"
    case FinancingReturned(_, _, _, _) => "FinancingRefunded"
  }

  function TextOrNull(s: Option<string>): Json {
    match s case Some(t) => JStr(t) case None => JNull
  }

  function NumOrNull(n: Option<int>): Json {
    match n case Some(i) => JNum(i) case None => JNull
  }

  function Payload(p: Published): seq<Json> {
    match p
    case VerificationMade(id, batch, subject, proof, issuer, issued) =>
      [JNum(id), JStr(batch), JStr(subject), JStr(proof), JStr(issuer), JNum(issued), JBool(false), JNum(0)]
    case VerificationWithdrawn(id, party, revoked, ledger) =>
      [JNum(id), JStr(party), JBool(revoked), JNum(ledger)]
    case EscrowMade(id, depositor, beneficiary, amount, kind, releaser, timeout, booking, created, updated) =>
      [JNum(id), JStr(depositor), JStr(beneficiary), JNum(amount), JNum(kind), TextOrNull(releaser), NumOrNull(timeout),
       JStr(booking), JNum(created), JNum(updated)]
    case EscrowPaidIn(id, from, amount, ledger) => [JNum(id), JStr(from), JNum(amount), JNum(ledger)]
    case EscrowPaidOut(id, to, amount, ledger) => [JNum(id), JStr(to), JNum(amount), JNum(ledger)]
    case EscrowReturned(id, to, amount, ledger) => [JNum(id), JStr(to), JNum(amount), JNum(ledger)]
    case FinancingMade(id, funder, beneficiary, total, drawn, count, milestones, drawnLedger, repaid, isDefault, at) =>
      [JNum(id), JStr(funder), JStr(beneficiary), JNum(total), JNum(drawn), JNum(count), milestones,
       NumOrNull(drawnLedger), JNum(repaid), JBool(isDefault), NumOrNull(at)]
    case FinancingPaidIn(id, amount, ledger) => [JNum(id), JNum(amount), JNum(ledger)]
    case FinancingPaidOut(id, amount, ledger) => [JNum(id), JNum(amount), JNum(ledger)]
    case FinancingReturned(id, amount, isDefault, at) => [JNum(id), JNum(amount), JBool(isDefault), NumOrNull(at)]
  }

  /** An optional number out of range is stored as NULL. */
  function Kept(n: Option<int>): Option<int> {
    if n.Some? && FitsI64(n.value) then n else None
  }

  /** The required numbers fit their columns; a refund's amount is stored for financing only. */
  predicate Fits(p: Published) {
    FitsU64(p.id) &&
    match p
    case VerificationMade(_, _, _, _, _, issued) => FitsI64(issued)
    case VerificationWithdrawn(_, _, _, ledger) => FitsI64(ledger)
    case EscrowMade(_, _, _, amount, kind, _, _, _, created, updated) =>
      FitsI64(amount) && FitsI64(kind) && FitsI64(created) && FitsI64(updated)
    case EscrowPaidIn(_, _, amount, ledger) => FitsI64(amount) && FitsI64(ledger)
    case EscrowPaidOut(_, _, amount, ledger) => FitsI64(amount) && FitsI64(ledger)
    case EscrowReturned(_, _, _, ledger) => FitsI64(ledger)
    case FinancingMade(_, _, _, total, drawn, count, _, _, repaid, _, _) =>
      FitsI64(total) && FitsI64(drawn) && FitsI64(count) && FitsI64(repaid)
    case FinancingPaidIn(_, amount, ledger) => FitsI64(amount) && FitsI64(ledger)
    case FinancingPaidOut(_, amount, ledger) => FitsI64(amount) && FitsI64(ledger)
    case FinancingReturned(_, amount, _, _) => FitsI64(amount)
  }

  /** The statement each event must become. */
  function Statement(p: Published, contractId: string): Decoded
    requires p.id >= 0
  {
    match p
    case VerificationMade(id, batch, subject, proof, issuer, issued) =>
      OnVerification(V.Create(
        CounterId(VERIFICATION_PREFIX, id),
        V.Row(contractId := contractId, batchId := Reference("batch", batch), subject := subject, proofHash := proof,
              issuer := issuer, issuedLedger := issued, revoked := false, revokedLedger := None)))
    case VerificationWithdrawn(id, _, _, ledger) => OnVerification(V.Revoke(CounterId(VERIFICATION_PREFIX, id), ledger))
    case EscrowMade(id, depositor, beneficiary, amount, kind, releaser, timeout, booking, created, updated) =>
      OnEscrow(E.Create(
        CounterId(ESCROW_PREFIX, id),
        E.Row(contractId := contractId, depositor := depositor, beneficiary := beneficiary, amount := amount,
              releasedAmount := 0, bookingRef := Reference("booking", booking), conditionKind := AsI32(kind),
              conditionReleaser := releaser, conditionTimeoutLedger := Kept(timeout), createdLedger := created,
              updatedLedger := updated, status := E.Open)))
    case EscrowPaidIn(id, _, amount, ledger) => OnEscrow(E.Deposit(CounterId(ESCROW_PREFIX, id), amount, ledger))
    case EscrowPaidOut(id, _, amount, ledger) => OnEscrow(E.Release(CounterId(ESCROW_PREFIX, id), amount, ledger))
    case EscrowReturned(id, _, _, ledger) => OnEscrow(E.Refund(CounterId(ESCROW_PREFIX, id), ledger))
    case FinancingMade(id, funder, beneficiary, total, drawn, count, milestones, drawnLedger, repaid, isDefault, at) =>
      OnFinancing(F.Create(
        CounterId(FINANCING_PREFIX, id),
        F.Row(contractId := contractId, funder := funder, beneficiary := beneficiary, totalAmount := total,
              drawnAmount := drawn, milestoneCount := AsI32(count), milestones := milestones,
              drawnLedger := Kept(drawnLedger),
              repaidAmount := repaid, defaulted := isDefault, defaultedLedger := Kept(at),
              updatedLedger := Kept(drawnLedger),
              status := if isDefault then F.Defaulted else F.Active)))
    case FinancingPaidIn(id, amount, ledger) => OnFinancing(F.Deposit(CounterId(FINANCING_PREFIX, id), amount, ledger))
    case FinancingPaidOut(id, amount, ledger) => OnFinancing(F.Release(CounterId(FINANCING_PREFIX, id), amount, ledger))
    case FinancingReturned(id, amount, isDefault, at) =>
      OnFinancing(F.Refund(CounterId(FINANCING_PREFIX, id), amount, isDefault, Kept(at)))
  }

  ghost predicate Carries(e: ChainEvent, p: Published) {
    e.contractName == Contract(p) && e.eventName == EventName(p) && e.data == JArr(Payload(p))
  }

  lemma DecodesVerification(p: Published, e: ChainEvent)
    requires Carries(e, p) && Contract(p) == VERIFICATION
    ensures Decode(e) == if Fits(p) then Statement(p, e.contractId) else Malformed
  {
  }

  lemma DecodesEscrowMade(p: Published, e: ChainEvent)
    requires Carries(e, p) && p.EscrowMade?
    ensures Decode(e) == if Fits(p) then Statement(p, e.contractId) else Malformed
  {
  }

  lemma DecodesEscrow(p: Published, e: ChainEvent)
    requires Carries(e, p) && Contract(p) == ESCROW
    ensures Decode(e) == if Fits(p) then Statement(p, e.contractId) else Malformed
  {
    if p.EscrowMade? {
      DecodesEscrowMade(p, e);
    }
  }

  lemma DecodesFinancingMade(p: Published, e: ChainEvent)
    requires Carries(e, p) && p.FinancingMade?
    ensures Decode(e) == if Fits(p) then Statement(p, e.contractId) else Malformed
  {
  }

  lemma DecodesFinancing(p: Published, e: ChainEvent)
    requires Carries(e, p) && Contract(p) == FINANCING
    ensures Decode(e) == if Fits(p) then Statement(p, e.contractId) else Malformed
  {
    if p.FinancingMade? {
      DecodesFinancingMade(p, e);
    }
  }

  /** Every payload becomes the statement its fields ask for, or is rejected for a required number out of range. */
  lemma DecodesPublished(p: Published, e: ChainEvent)
    requires Carries(e, p)
    ensures Decode(e) == if Fits(p) then Statement(p, e.contractId) else Malformed
  {
    if Contract(p) == VERIFICATION {
      DecodesVerification(p, e);
    } else if Contract(p) == ESCROW {
      DecodesEscrow(p, e);
    } else {
      DecodesFinancing(p, e);
    }
  }

  /** The identity events: objects with optional fields, about the farmer named by the first topic. */
  datatype IdentityEvent =
    | FarmerMade(created: Option<Json>, updated: Option<Json>, markers: Option<Json>, rest: map<string, Json>)
    | FarmerChanged(updated: Option<Json>, rest: map<string, Json>)
    | MarkerSet(marker: Json)

  function WithField(fields: map<string, Json>, key: string, j: Option<Json>): map<string, Json> {
    match j
    case Some(value) => fields[key := value]
    case None => fields - {key}
  }

  function IdentityName(p: IdentityEvent): string {
    match p
    case FarmerMade(_, _, _, _) => "FarmerRegistered"
    case FarmerChanged(_, _) => "FarmerMetadataUpdated"
    case MarkerSet(_) => "VerificationMarkerSet"
  }

  function IdentityData(p: IdentityEvent): Json {
    match p
    case FarmerMade(created, updated, markers, rest) =>
      JObj(WithField(WithField(WithField(rest, "created_ledger", created), "updated_ledger", updated),
                     "verification_markers", markers))
    case FarmerChanged(updated, rest) => JObj(WithField(rest, "updated_ledger", updated))
    case MarkerSet(marker) => marker
  }

  ghost predicate CarriesIdentity(e: ChainEvent, p: IdentityEvent) {
    e.contractName == "identity" && e.eventName == IdentityName(p) && e.data == IdentityData(p)
  }

  /** A ledger field that is absent, no number, or out of range is no ledger. */
  function Ledger(j: Option<Json>): Option<int> {
    match j
    case Some(JNum(n)) => if -0x8000_0000_0000_0000 <= n < 0x8000_0000_0000_0000 then Some(n) else None
    case _ => None
  }

  function IdentityStatement(p: IdentityEvent, address: string): Decoded {
    match p
    case FarmerMade(created, updated, markers, _) =>
      OnIdentity(I.Register(key := address, created := Ledger(created), updated := Ledger(updated),
                            markers := if markers.Some? then markers.value else JArr([])))
    case FarmerChanged(updated, _) => OnIdentity(I.Metadata(key := address, updated := Ledger(updated)))
    case MarkerSet(marker) => OnIdentity(I.Marker(key := address, marker := marker))
  }

  predicate FirstTopicIs(topics: Json, address: string) {
    topics.JArr? && topics.items != [] && topics.items[0] == JStr(address)
  }

  lemma FieldReads(fields: map<string, Json>, key: string)
    ensures FieldI64(JObj(fields), key) == Ledger(if key in fields then Some(fields[key]) else None)
  {
  }

  /** Each identity event becomes the statement its fields ask for, about the farmer its first topic names. */
  lemma DecodesIdentity(p: IdentityEvent, e: ChainEvent, address: string)
    requires CarriesIdentity(e, p) && FirstTopicIs(e.topics, address)
    ensures Decode(e) == IdentityStatement(p, address)
  {
    if p.FarmerMade? {
      var fields := e.data.fields;
      FieldReads(fields, "created_ledger");
      FieldReads(fields, "updated_ledger");
      assert "created_ledger" in fields <==> p.created.Some?;
      assert "updated_ledger" in fields <==> p.updated.Some?;
      assert "verification_markers" in fields <==> p.markers.Some?;
    } else if p.FarmerChanged? {
      FieldReads(e.data.fields, "updated_ledger");
    }
  }

  /** And is rejected exactly when the first topic is not a text, whatever its data. */
  lemma IdentityRejected(e: ChainEvent)
    requires e.contractName == "identity"
    requires e.eventName in {"FarmerRegistered", "FarmerMetadataUpdated", "VerificationMarkerSet"}
    ensures Decode(e) == Malformed <==> forall address :: !FirstTopicIs(e.topics, address)
  {
    if e.topics.JArr? && e.topics.items != [] && e.topics.items[0].JStr? {
      assert FirstTopicIs(e.topics, e.topics.items[0].s);
    }
  }

  predicate IdAt(data: Json, i: nat) {
    data.JArr? && i < |data.items| && data.items[i].JNum? && 0 <= data.items[i].n < 0x1_0000_0000_0000_0000
  }

  predicate NumAt(data: Json, i: nat) {
    && data.JArr? && i < |data.items| && data.items[i].JNum?
    && -0x8000_0000_0000_0000 <= data.items[i].n < 0x8000_0000_0000_0000
  }

  predicate TextAt(data: Json, i: nat) { data.JArr? && i < |data.items| && data.items[i].JStr? }

  predicate FlagAt(data: Json, i: nat) { data.JArr? && i < |data.items| && data.items[i].JBool? }

  /** Every required place of the payload holds a value of its kind; the others may hold anything. */
  predicate Complete(eventName: string, d: Json) {
    match eventName
    case "VerificationCreated" =>
      IdAt(d, 0) && TextAt(d, 1) && TextAt(d, 2) && TextAt(d, 3) && TextAt(d, 4) && NumAt(d, 5)
    case "VerificationRevoked" => IdAt(d, 0) && NumAt(d, 3)
    case "EscrowCreated" =>
      && IdAt(d, 0) && TextAt(d, 1) && TextAt(d, 2) && NumAt(d, 3) && NumAt(d, 4) && TextAt(d, 7) && NumAt(d, 8)
      && NumAt(d, 9)
    case "EscrowDeposited" => IdAt(d, 0) && NumAt(d, 2) && NumAt(d, 3)
    case "EscrowReleased" => IdAt(d, 0) && NumAt(d, 2) && NumAt(d, 3)
    case "EscrowRefunded" => IdAt(d, 0) && NumAt(d, 3)
    case "FinancingCreated" =>
      && IdAt(d, 0) && TextAt(d, 1) && TextAt(d, 2) && NumAt(d, 3) && NumAt(d, 4) && NumAt(d, 5) && NumAt(d, 8)
      && FlagAt(d, 9)
    case "FinancingDeposited" => IdAt(d, 0) && NumAt(d, 1) && NumAt(d, 2)
    case "FinancingReleased" => IdAt(d, 0) && NumAt(d, 1) && NumAt(d, 2)
    case "FinancingRefunded" => IdAt(d, 0) && NumAt(d, 1) && FlagAt(d, 2)
    case _ => true
  }

  lemma PlacesRead(d: Json, i: nat)
    ensures IdAt(d, i) <==> GetU64(d, i).Some?
    ensures NumAt(d, i) <==> GetI64(d, i).Some?
    ensures NumAt(d, i) <==> GetI32(d, i).Some?
    ensures TextAt(d, i) <==> GetStr(d, i).Some?
    ensures FlagAt(d, i) <==> GetBool(d, i).Some?
  {
  }

  ghost predicate Rejects(e: ChainEvent) { Decode(e) == Malformed <==> !Complete(e.eventName, e.data) }

  lemma RejectsEscrow(e: ChainEvent)
    requires (e.contractName, e.eventName) in KNOWN && e.contractName == "escrow"
    ensures Rejects(e)
  {
    forall i: nat { PlacesRead(e.data, i); }
  }

  lemma RejectsFinancing(e: ChainEvent)
    requires (e.contractName, e.eventName) in KNOWN && e.contractName == "financing"
    ensures Rejects(e)
  {
    forall i: nat { PlacesRead(e.data, i); }
  }

  /** A positional event is rejected exactly when a required place is missing or holds something else. */
  lemma RejectedExactly(e: ChainEvent)
    requires (e.contractName, e.eventName) in KNOWN && e.contractName != "identity"
    ensures Decode(e) == Malformed <==> !Complete(e.eventName, e.data)
  {
    if e.contractName == "escrow" {
      RejectsEscrow(e);
    } else if e.contractName == "financing" {
      RejectsFinancing(e);
    } else {
      forall i: nat { PlacesRead(e.data, i); }
    }
  }
}
