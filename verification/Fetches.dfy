/** Ingesting from the RPC source: a fetch is the pull of a run, and an ingest of it a step of one. */
module Fetches {
  import opened Wrappers
  import opened Model
  import opened Store
  import opened Projections
  import opened Ingestion
  import opened Feeds
  import opened Runs
  import opened Guarantees
  import opened Rpc
  import opened IndexerService

  /** Every event of the feed is the contract's. */
  ghost predicate FeedOf(server: seq<RpcEvent>, contract: string) {
    forall ev :: ev in server ==> ev.contractId == contract
  }

  lemma DecodedPlace(server: seq<RpcEvent>, contract: string, name: string, e: ChainEvent)
    requires ValidServer(server) && FeedOf(server, contract) && e in DecodedChain(server, name)
    ensures e.contractId == contract && e.contractName == name && e.Position().IsAfter(START)
  {
    DecodedMembers(server, name, e);
    var i :| 0 <= i < |server| && DecodeRpcEvent(server[i], name) == Some(e);
    assert server[i] in server && ValidEvent(server[i]);
  }

  /** A feed of sound ids in order decodes to a chain that a run can publish. */
  lemma FeedIsChain(server: seq<RpcEvent>, contract: string, name: string)
    requires ValidServer(server) && FeedOf(server, contract) && SoundIds(server) && IdsAscend(server)
    ensures ValidChain(DecodedChain(server, name), contract, name)
  {
    DecodedChainOrdered(server, name);
    forall e | e in DecodedChain(server, name)
      ensures e.contractId == contract && e.contractName == name && e.Position().IsAfter(START)
    {
      DecodedPlace(server, contract, name, e);
    }
  }

  /** What a fetch that stops early has read is the chain as it stood before the rest was published. */
  lemma {:induction false} ReadIsPrefix(server: seq<RpcEvent>, stop: nat, name: string)
    requires stop <= |server|
    ensures DecodedChain(server[..stop], name) <= DecodedChain(server, name)
  {
    if stop < |server| {
      var n := |server| - 1;
      ReadIsPrefix(server[..n], stop, name);
      assert server[..n][..stop] == server[..stop];
    } else {
      assert server[..stop] == server;
    }
  }

  /** An uncut ingest is the step of a run that gives every planned statement its turn. */
  lemma UncutIsStep(s: Sys, c: string)
    requires c in s.feeds
    ensures
      var k := Statements(s.db, c, Batch(s, c), Floor(s));
      && Next(s, Ingest(c, k)).db == CompleteIngest(s.db, c, s.feeds[c].chain, s.head)
      && (Batch(s, c) != [] ==> Completes(s, c, k))
  {
    IngestNext(s, c, Statements(s.db, c, Batch(s, c), Floor(s)));
  }

  /** The events of an ordered chain ten or more ledgers below the head. */
  ghost predicate IsFinal(q: seq<ChainEvent>, chain: seq<ChainEvent>, head: int) {
    q <= chain && forall i :: 0 <= i < |chain| ==> (i < |q| <==> chain[i].ledger <= head - 10)
  }

  /**
   Finality, with the number: whichever source it pulls from, an ingest that pulled something over rows in
   step with the chain runs its pass over exactly the events at or below head - 10; one at head - 9 is out.
   */
  lemma IngestIsFinal(db: Db, t: Db, r: Result<nat, ApplyError>, contract: string, name: string,
                      chain: seq<ChainEvent>, head: int) returns (q: seq<ChainEvent>)
    requires Outcome(db, t, r, contract, chain, head) && Pulled(db, contract, chain) != []
    requires ValidChain(chain, contract, name) && InSync(db, contract, chain)
    ensures IsFinal(q, chain, head)
    ensures t.tables == Pass(q, db.tables).tables && (r.Ok? <==> Pass(q, db.tables).ok)
  {
    q := UpTo(chain, head - 10);
    UpToExact(chain, head - 10);
    ReplaysFinalized(db, contract, name, chain, head - 10);
  }

  /** And one that pulled nothing changes nothing, whatever the head. */
  lemma QuietIngest(db: Db, t: Db, r: Result<nat, ApplyError>, contract: string, chain: seq<ChainEvent>, head: int)
    requires Outcome(db, t, r, contract, chain, head) && Pulled(db, contract, chain) == []
    ensures t == db && r == Ok(0)
  {
  }

  /**
   An ingest from the RPC source does what an uncut ingest step does over the chain read so far: all of
   it when the server fills its pages, and up to the first short page otherwise.
   */
  method IngestFromRpc(ix: Indexer, server: seq<RpcEvent>, contract: string, name: string, limit: nat,
                       pages: nat -> nat, head: int)
    returns (r: Result<nat, ApplyError>)
    requires ValidServer(server) && limit > 0
    modifies ix
    ensures
      var from := FirstAt(server, StartLedger(CursorOf(old(ix.cursors), contract)));
      Outcome(old(ix.State()), ix.State(), r, contract,
              DecodedChain(server[..FirstShort(server, from, limit, pages)], name), head)
  {
    var cursor := ix.GetCursor(contract);
    var batch := EventsAfter(server, name, cursor, limit, pages);
    ghost var from := FirstAt(server, StartLedger(cursor));
    ghost var db, chain := ix.State(), DecodedChain(server[..FirstShort(server, from, limit, pages)], name);
    assert batch == Pulled(db, contract, chain);
    if |batch| == 0 {
      EmptyOutcome(db, contract, chain, head);
      return Ok(0);
    }
    r := ix.Absorb(contract, batch, head - TRUSTED_CUTOFF);
    AbsorbedOutcome(db, ix.State(), r, contract, chain, head);
  }
}
