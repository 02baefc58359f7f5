/** From an event as the RPC server returns it to the statement it becomes, field by field. */
module Arrivals {
  import opened Wrappers
  import opened Json
  import opened Model
  import opened Projections
  import opened ScVals
  import opened Rpc
  import opened Payloads

  /** What a chain event says about the server's event it was read from. */
  ghost predicate Means(ev: RpcEvent, name: string, e: ChainEvent) {
    && e.contractId == ev.contractId && e.contractName == name
    && ev.topic != [] && ev.topic[0].Some? && TextIs(ev.topic[0].value, e.eventName)
    && ev.id.Some? && IsPlace(e, ev.id.value.0, ev.id.value.1)
    && e.topics.JArr? && |e.topics.items| == |ev.topic| - 1
    && (forall i :: 0 <= i < |e.topics.items| ==> PartMeans(ev.topic[i + 1], e.topics.items[i]))
    && PartMeans(ev.value, e.data)
  }

  ghost predicate PartMeans(part: Option<ScVal>, j: Json) {
    part.Some? && Denotes(part.value, j)
  }

  /** Ledger in the high word, operation in the low word read as a signed one. */
  predicate IsPlace(e: ChainEvent, toid: int, event: int) {
    && e.ledger == toid / 0x1_0000_0000
    && e.op == (var low := toid % 0x1_0000_0000; if low < 0x8000_0000 then low else low - 0x1_0000_0000)
    && e.event == event
  }

  lemma PartExact(part: Option<ScVal>, j: Json)
    ensures part.Some? && JsonOf(part.value) == Some(j) <==> PartMeans(part, j)
  {
    if part.Some? {
      DenotesExact(part.value);
    }
  }

  lemma {:induction false} TopicsExact(topic: seq<Option<ScVal>>, items: seq<Json>)
    ensures TopicsJson(topic) == Some(items) <==>
              |items| == |topic| && forall i :: 0 <= i < |items| ==> PartMeans(topic[i], items[i])
  {
    if topic != [] && items != [] {
      var n, m := |topic| - 1, |items| - 1;
      TopicsExact(topic[..n], items[..m]);
      PartExact(topic[n], items[m]);
      assert items == items[..m] + [items[m]];
      assert forall i :: 0 <= i < m && i < n ==> items[..m][i] == items[i] && topic[..n][i] == topic[i];
    }
  }

  lemma PlaceExact(toid: int, event: int, e: ChainEvent)
    ensures e.Position() == PositionOf(toid, event) <==> IsPlace(e, toid, event)
  {
  }

  lemma MeansDecodes(ev: RpcEvent, name: string, e: ChainEvent)
    requires Means(ev, name, e)
    ensures DecodeRpcEvent(ev, name) == Some(e)
  {
    assert forall i :: 0 <= i < |e.topics.items| ==> ev.topic[1..][i] == ev.topic[i + 1];
    TopicsExact(ev.topic[1..], e.topics.items);
    PartExact(ev.value, e.data);
    PlaceExact(ev.id.value.0, ev.id.value.1, e);
  }

  lemma DecodesMeans(ev: RpcEvent, name: string, e: ChainEvent)
    requires DecodeRpcEvent(ev, name) == Some(e)
    ensures Means(ev, name, e)
  {
    TopicsExact(ev.topic[1..], e.topics.items);
    assert forall i :: 0 <= i < |e.topics.items| ==> ev.topic[1..][i] == ev.topic[i + 1];
    PartExact(ev.value, e.data);
    PlaceExact(ev.id.value.0, ev.id.value.1, e);
  }

  /** A server event decodes to exactly the chain event whose every field says what the server's says. */
  lemma DecodedExactly(ev: RpcEvent, name: string, e: ChainEvent)
    ensures DecodeRpcEvent(ev, name) == Some(e) <==> Means(ev, name, e)
  {
    if Means(ev, name, e) {
      MeansDecodes(ev, name, e);
    }
    if DecodeRpcEvent(ev, name) == Some(e) {
      DecodesMeans(ev, name, e);
    }
  }

  /** An amount as the contracts hold it: 128 bits in two halves. */
  function Wide(n: int): ScVal {
    I128(n / 0x1_0000_0000_0000_0000, n % 0x1_0000_0000_0000_0000)
  }

  function LedgerOrVoid(n: Option<int>): ScVal {
    match n case Some(ledger) => U32(ledger) case None => Void
  }

  function AddressOrVoid(s: Option<string>): ScVal {
    match s case Some(address) => Address(address) case None => Void
  }

  /** A published event's fields as contract values. */
  function Values(p: Published, milestones: ScVal): seq<ScVal> {
    match p
    case VerificationMade(id, batch, subject, proof, issuer, issued) =>
      [U64(id), Bytes(batch), Address(subject), Bytes(proof), Address(issuer), U32(issued), Bool(false), U32(0)]
    case VerificationWithdrawn(id, party, revoked, ledger) => [U64(id), Address(party), Bool(revoked), U32(ledger)]
    case EscrowMade(id, depositor, beneficiary, amount, kind, releaser, timeout, booking, created, updated) =>
      [U64(id), Address(depositor), Address(beneficiary), Wide(amount), U32(kind), AddressOrVoid(releaser),
       LedgerOrVoid(timeout), Bytes(booking), U32(created), U32(updated)]
    case EscrowPaidIn(id, from, amount, ledger) => [U64(id), Address(from), Wide(amount), U32(ledger)]
    case EscrowPaidOut(id, to, amount, ledger) => [U64(id), Address(to), Wide(amount), U32(ledger)]
    case EscrowReturned(id, to, amount, ledger) => [U64(id), Address(to), Wide(amount), U32(ledger)]
    case FinancingMade(id, funder, beneficiary, total, drawn, count, _, drawnLedger, repaid, isDefault, at) =>
      [U64(id), Address(funder), Address(beneficiary), Wide(total), Wide(drawn), U32(count), milestones,
       LedgerOrVoid(drawnLedger), Wide(repaid), Bool(isDefault), LedgerOrVoid(at)]
    case FinancingPaidIn(id, amount, ledger) => [U64(id), Wide(amount), U32(ledger)]
    case FinancingPaidOut(id, amount, ledger) => [U64(id), Wide(amount), U32(ledger)]
    case FinancingReturned(id, amount, isDefault, at) => [U64(id), Wide(amount), Bool(isDefault), LedgerOrVoid(at)]
  }

  /** What the amount of a refunded escrow is told in; the indexer does not store it. */
  predicate ToldAmountFits(p: Published) {
    p.EscrowReturned? ==> -0x8000_0000_0000_0000 <= p.amount < 0x8000_0000_0000_0000
  }

  lemma WideDenotes(n: int)
    requires FitsI64(n)
    ensures Denotes(Wide(n), JNum(n))
  {
  }

  ghost predicate ListDenotes(vals: seq<ScVal>, js: seq<Json>) {
    |vals| == |js| && forall i :: 0 <= i < |js| ==> Denotes(vals[i], js[i])
  }

  lemma EscrowMadeDenotes(p: Published, milestones: ScVal)
    requires Fits(p) && p.EscrowMade?
    ensures ListDenotes(Values(p, milestones), Payload(p))
  {
    WideDenotes(p.amount);
  }

  lemma FinancingMadeDenotes(p: Published, milestones: ScVal)
    requires Fits(p) && p.FinancingMade? && Denotes(milestones, p.milestones)
    ensures ListDenotes(Values(p, milestones), Payload(p))
  {
    WideDenotes(p.total);
    WideDenotes(p.drawn);
    WideDenotes(p.repaid);
  }

  lemma VerificationDenotes(p: Published, milestones: ScVal)
    requires p.VerificationMade? || p.VerificationWithdrawn?
    ensures ListDenotes(Values(p, milestones), Payload(p))
  {
  }

  lemma SumDenotes(p: Published, milestones: ScVal)
    requires Fits(p) && ToldAmountFits(p)
    requires !p.VerificationMade? && !p.VerificationWithdrawn? && !p.EscrowMade? && !p.FinancingMade?
    ensures ListDenotes(Values(p, milestones), Payload(p))
  {
    WideDenotes(p.amount);
  }

  lemma ValuesDenote(p: Published, milestones: ScVal)
    requires Fits(p) && ToldAmountFits(p)
    requires p.FinancingMade? ==> Denotes(milestones, p.milestones)
    ensures ListDenotes(Values(p, milestones), Payload(p))
  {
    if p.VerificationMade? || p.VerificationWithdrawn? {
      VerificationDenotes(p, milestones);
    } else if p.EscrowMade? {
      EscrowMadeDenotes(p, milestones);
    } else if p.FinancingMade? {
      FinancingMadeDenotes(p, milestones);
    } else {
      SumDenotes(p, milestones);
    }
  }

  /** The server's event of a published one, with any readable topics behind its name. */
  ghost predicate Publishes(ev: RpcEvent, p: Published, milestones: ScVal) {
    && ev.topic != [] && ev.topic[0] == Some(Symbol(EventName(p)))
    && (forall i :: 1 <= i < |ev.topic| ==> ev.topic[i].Some? && Readable(ev.topic[i].value))
    && ev.id.Some? && ev.value == Some(Vec(Values(p, milestones)))
  }

  lemma {:induction false} TopicsRead(topic: seq<Option<ScVal>>)
    requires forall i :: 0 <= i < |topic| ==> topic[i].Some? && Readable(topic[i].value)
    ensures TopicsJson(topic).Some?
  {
    if topic != [] {
      TopicsRead(topic[..|topic| - 1]);
      ReadableExact(topic[|topic| - 1].value);
    }
  }

  /**
   End to end: a published event whose numbers fit arrives as the chain event that carries it, and so as
   the statement its fields ask for.
   */
  lemma PublishedArrives(ev: RpcEvent, p: Published, milestones: ScVal)
    requires Publishes(ev, p, milestones) && Fits(p) && ToldAmountFits(p)
    requires p.FinancingMade? ==> Denotes(milestones, p.milestones)
    ensures DecodeRpcEvent(ev, Contract(p)).Some?
    ensures
      var e := DecodeRpcEvent(ev, Contract(p)).value;
      Carries(e, p) && IsPlace(e, ev.id.value.0, ev.id.value.1) && Decode(e) == Statement(p, ev.contractId)
  {
    ValuesDenote(p, milestones);
    assert Denotes(Vec(Values(p, milestones)), JArr(Payload(p)));
    TopicsRead(ev.topic[1..]);
    var items := TopicsJson(ev.topic[1..]).value;
    TopicsExact(ev.topic[1..], items);
    var at := ev.id.value;
    var low := at.0 % 0x1_0000_0000;
    var e := ChainEvent(ev.contractId, Contract(p), EventName(p), at.0 / 0x1_0000_0000,
                        if low < 0x8000_0000 then low else low - 0x1_0000_0000, at.1, JArr(items), JArr(Payload(p)));
    assert forall i :: 0 <= i < |items| ==> ev.topic[1..][i] == ev.topic[i + 1];
    MeansDecodes(ev, Contract(p), e);
    DecodesPublished(p, e);
  }
}
