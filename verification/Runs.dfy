/**
 The indexer as a transition system: sources publish events and advance their heads, ingests run
 to the end or are cut after any statement, chains fork, operators rewind when they come to it,
 and the API writes farmers' rows.
 */
module Runs {
  import opened Wrappers
  import opened Keyed
  import opened Model
  import opened Store
  import opened Projections
  import opened Replays
  import opened Ingestion
  import opened Feeds
  import I = Identities

  /** `log` records what has been written to the `farmers` table. */
  datatype Sys = Sys(db: Db, feeds: map<string, Feed>, head: int, log: seq<Entry>)

  datatype Step =
    | Publish(e: ChainEvent)
    | Advance(head: int)
    | Ingest(contract: string, k: nat)
    | Rewind(contract: string, fromLedger: int)
    | Fork(contract: string, fromLedger: int, chain: seq<ChainEvent>)
    | WriteFarmer(address: string, row: I.Row)

  /** No two contracts share a name. */
  ghost predicate OneEach(feeds: map<string, Feed>) {
    forall c, d :: c in feeds && d in feeds && feeds[c].name == feeds[d].name ==> c == d
  }

  ghost predicate Initial(s: Sys) {
    && s.db == Db(map[], map[], EMPTY) && s.log == []
    && OneEach(s.feeds)
    && forall c :: c in s.feeds ==> NewFeed(c, s.feeds[c])
  }

  ghost predicate NewFeed(c: string, f: Feed) {
    ValidChain(f.chain, c, f.name) && f.fork == None && f.floor == None && f.passes == []
  }

  /** What the source, the operator and the API may do. A fork keeps everything below its ledger. */
  ghost predicate Legal(s: Sys, step: Step) {
    match step
    case Publish(e) =>
      e.contractId in s.feeds &&
      ValidChain(s.feeds[e.contractId].chain + [e], e.contractId, s.feeds[e.contractId].name)
    case Advance(head) => s.head <= head
    case Ingest(c, _) => c in s.feeds
    case Rewind(c, _) => c in s.feeds
    case Fork(c, ledger, chain) =>
      c in s.feeds && ValidChain(chain, c, s.feeds[c].name) && AgreeBelow(s.feeds[c].chain, chain, ledger)
    case WriteFarmer(address, row) => I.ApiWrite(address, Get(s.db.tables.farmers, address), row)
  }

  function Floor(s: Sys): int { s.head - TRUSTED_CUTOFF }

  function Batch(s: Sys, c: string): seq<ChainEvent>
    requires c in s.feeds
  {
    Pulled(s.db, c, s.feeds[c].chain)
  }

  /** The ingest gets past its cursor write and applies at least one statement, if there is one. */
  predicate Replaying(s: Sys, c: string, k: nat)
    requires c in s.feeds
  {
    Batch(s, c) != [] && k > |Batch(s, c)| + 1
  }

  /** What the projection pass of an ingest cut after `k` statements gets through. */
  function Executing(s: Sys, c: string, k: nat): seq<ChainEvent>
    requires c in s.feeds
  {
    var q := Reached(s.db, c, Batch(s, c), Floor(s), k);
    q[..Pass(q, s.db.tables).done]
  }

  /**
   Until a fork is rewound, passes stay below it; and it does not reach down to a floor that a
   pass has already used.
   */
  ghost predicate Shallow(s: Sys, step: Step)
    requires Legal(s, step)
  {
    match step
    case Fork(c, ledger, _) => s.feeds[c].floor.Some? ==> s.feeds[c].floor.value < ledger
    case Ingest(c, k) => s.feeds[c].fork.Some? && Replaying(s, c, k) ==> Floor(s) < s.feeds[c].fork.value
    case _ => true
  }

  /** The state after an ingest, with its pass on record. */
  function AfterPass(s: Sys, c: string, db: Db, p: seq<ChainEvent>): Sys
    requires c in s.feeds
  {
    var f := s.feeds[c];
    s.(db := db,
       feeds := s.feeds[c := f.(floor := Some(Floor(s)), passes := f.passes + [p])],
       log := if f.name == IDENTITY then s.log + [Ran(p)] else s.log)
  }

  function AfterIngest(s: Sys, c: string, k: nat): Sys
    requires c in s.feeds
  {
    var db := Ingested(s.db, c, Batch(s, c), Floor(s), k);
    if Replaying(s, c, k) then AfterPass(s, c, db, Executing(s, c, k)) else s.(db := db)
  }

  function Next(s: Sys, step: Step): Sys
    requires Legal(s, step)
  {
    match step
    case Publish(e) =>
      var f := s.feeds[e.contractId];
      s.(feeds := s.feeds[e.contractId := f.(chain := f.chain + [e])])
    case Advance(head) => s.(head := head)
    case Ingest(c, k) => AfterIngest(s, c, k)
    case Rewind(c, ledger) =>
      var f := s.feeds[c];
      s.(db := Rewound(s.db, c, ledger), feeds := s.feeds[c := f.(fork := Healed(f.fork, ledger))])
    case Fork(c, ledger, chain) =>
      var f := s.feeds[c];
      s.(feeds := s.feeds[c := f.(chain := chain, fork := Some(Lowest(f.fork, ledger)))])
    case WriteFarmer(address, row) =>
      var t := s.db.tables;
      s.(db := s.db.(tables := t.(farmers := t.farmers[address := row])), log := s.log + [Wrote(address, row)])
  }

  ghost predicate StoreOk(s: Sys) {
    OneEach(s.feeds) && forall c :: c in s.feeds ==> FeedOk(s.db, c, s.feeds[c])
  }

  /** The finalized events that passes of the contract may have seen. */
  function Used(f: Feed): seq<ChainEvent> {
    match f.floor
    case Some(floor) => UpTo(f.chain, floor)
    case None => []
  }

  /** A contract's table is its recorded passes, replayed; for identity, between the API's writes. */
  ghost predicate Explained(t: Tables, log: seq<Entry>, f: Feed) {
    if f.name == IDENTITY then t.farmers == ReplayLog(log) && RanOf(log) == f.passes
    else SameTable(f.name, t, ReplayAll(f.passes))
  }

  /** Besides, each pass ran over events of the chain finalized at the highest floor used. */
  ghost predicate TableOk(t: Tables, log: seq<Entry>, f: Feed, floor: int) {
    && Explained(t, log, f)
    && Executed(f.passes)
    && Prefixes(f.passes, Used(f))
    && (f.floor.Some? ==> f.floor.value <= floor)
  }

  ghost predicate TablesOk(s: Sys) {
    StoreOk(s) && forall c :: c in s.feeds ==> TableOk(s.db.tables, s.log, s.feeds[c], Floor(s))
  }

  lemma OtherIngestView(s: Sys, c: string, d: string, k: nat)
    requires StoreOk(s) && c in s.feeds && d in s.feeds && c != d
    ensures SameView(c, s.feeds[c].name, Ingested(s.db, d, Batch(s, d), Floor(s), k), s.db)
  {
    assert FeedOk(s.db, d, s.feeds[d]);
    FeedIngests(s.db, d, s.feeds[d], Floor(s), k);
    IngestFrame(s.db, d, s.feeds[d].name, Batch(s, d), Floor(s), k, c, s.feeds[c].name);
  }

  lemma OtherRewindView(db: Db, d: string, ledger: int, c: string)
    requires c != d
    ensures SameStore(c, Rewound(db, d, ledger), db)
  {
  }

  lemma IngestNext(s: Sys, c: string, k: nat)
    requires c in s.feeds
    ensures
      var t, f := Next(s, Ingest(c, k)), s.feeds[c];
      && t.db == Ingested(s.db, c, Batch(s, c), Floor(s), k) && t.head == s.head
      && t.feeds.Keys == s.feeds.Keys
      && (forall d :: d in s.feeds && d != c ==> t.feeds[d] == s.feeds[d])
      && t.feeds[c].(floor := f.floor, passes := f.passes) == f
  {
  }

  lemma IngestStep(s: Sys, d: string, k: nat, c: string)
    requires StoreOk(s) && d in s.feeds && c in s.feeds
    ensures FeedOk(Next(s, Ingest(d, k)).db, c, Next(s, Ingest(d, k)).feeds[c])
  {
    assert FeedOk(s.db, c, s.feeds[c]);
    IngestNext(s, d, k);
    if c == d {
      FeedIngests(s.db, c, s.feeds[c], Floor(s), k);
    } else {
      OtherIngestView(s, c, d, k);
      FeedBeside(Next(s, Ingest(d, k)).db, s.db, c, s.feeds[c]);
    }
  }

  lemma RewindStep(s: Sys, d: string, ledger: int, c: string)
    requires StoreOk(s) && d in s.feeds && c in s.feeds
    ensures FeedOk(Next(s, Rewind(d, ledger)).db, c, Next(s, Rewind(d, ledger)).feeds[c])
  {
    assert FeedOk(s.db, c, s.feeds[c]);
    if c == d {
      FeedRewinds(s.db, c, s.feeds[c], ledger);
    } else {
      OtherRewindView(s.db, d, ledger, c);
      FeedBeside(Rewound(s.db, d, ledger), s.db, c, s.feeds[c]);
    }
  }

  lemma PublishStep(s: Sys, e: ChainEvent, c: string)
    requires StoreOk(s) && Legal(s, Publish(e)) && c in s.feeds
    ensures FeedOk(Next(s, Publish(e)).db, c, Next(s, Publish(e)).feeds[c])
  {
    assert FeedOk(s.db, c, s.feeds[c]);
    if c == e.contractId {
      FeedGrows(s.db, c, s.feeds[c], s.feeds[c].chain + [e]);
    }
  }

  lemma ForkStep(s: Sys, d: string, ledger: int, chain: seq<ChainEvent>, c: string)
    requires StoreOk(s) && Legal(s, Fork(d, ledger, chain)) && c in s.feeds
    ensures FeedOk(Next(s, Fork(d, ledger, chain)).db, c, Next(s, Fork(d, ledger, chain)).feeds[c])
  {
    assert FeedOk(s.db, c, s.feeds[c]);
    if c == d {
      FeedForks(s.db, c, s.feeds[c], ledger, chain);
    }
  }

  lemma WriteStep(s: Sys, step: Step, c: string)
    requires StoreOk(s) && step.WriteFarmer? && Legal(s, step) && c in s.feeds
    ensures FeedOk(Next(s, step).db, c, Next(s, step).feeds[c])
  {
    assert FeedOk(s.db, c, s.feeds[c]);
    FeedBeside(Next(s, step).db, s.db, c, s.feeds[c]);
  }

  lemma NextFeed(s: Sys, step: Step, c: string)
    requires StoreOk(s) && Legal(s, step) && c in s.feeds
    ensures c in Next(s, step).feeds && FeedOk(Next(s, step).db, c, Next(s, step).feeds[c])
  {
    match step
    case Publish(e) => PublishStep(s, e, c);
    case Advance(_) =>
    case Ingest(d, k) => IngestStep(s, d, k, c);
    case Rewind(d, ledger) => RewindStep(s, d, ledger, c);
    case Fork(d, ledger, chain) => ForkStep(s, d, ledger, chain, c);
    case WriteFarmer(_, _) => WriteStep(s, step, c);
  }

  /** No step adds a contract or renames one; only a fork may take events from a chain. */
  lemma NextShape(s: Sys, step: Step)
    requires Legal(s, step)
    ensures
      var t := Next(s, step);
      && t.feeds.Keys == s.feeds.Keys
      && forall c :: c in s.feeds ==>
           && t.feeds[c].name == s.feeds[c].name
           && (!(step.Fork? && step.contract == c) ==> s.feeds[c].chain <= t.feeds[c].chain)
  {
  }

  /** Every step, however an ingest is cut and whether or not a fork stands, keeps each store in step. */
  lemma StepKeepsStore(s: Sys, step: Step)
    requires StoreOk(s) && Legal(s, step)
    ensures StoreOk(Next(s, step))
  {
    NextShape(s, step);
    forall c | c in s.feeds ensures FeedOk(Next(s, step).db, c, Next(s, step).feeds[c]) {
      NextFeed(s, step, c);
    }
  }

  /** A recorded pass starts from its table as the replay left it, so it replays alike. */
  lemma PassRecorded(name: string, t: Tables, passes: seq<seq<ChainEvent>>, q: seq<ChainEvent>)
    requires Named(q, name) && SameTable(name, t, ReplayAll(passes)) && Executed(passes)
    ensures
      var more := passes + [q[..Pass(q, t).done]];
      SameTable(name, Pass(q, t).tables, ReplayAll(more)) && Executed(more)
  {
    var p := q[..Pass(q, t).done];
    PassCut(q, t);
    assert Named(p, name);
    PassLocal(p, name, t, ReplayAll(passes));
    assert (passes + [p])[..|passes|] == passes;
  }

  lemma UsedGrows(f: Feed, chain: seq<ChainEvent>, floor: int)
    requires f.chain <= chain && Ordered(chain)
    requires f.floor.Some? ==> f.floor.value <= floor
    ensures Used(f) <= UpTo(chain, floor)
  {
    if f.floor.Some? {
      UpToGrows(f.chain, chain, f.floor.value, floor);
    }
  }

  lemma PrefixesGrow<T>(passes: seq<seq<T>>, q: seq<T>, longer: seq<T>)
    requires Prefixes(passes, q) && q <= longer
    ensures Prefixes(passes, longer)
  {
  }

  /** The feed of an ingest's contract once its pass is on record. */
  function Recorded(f: Feed, floor: int, p: seq<ChainEvent>): Feed {
    f.(floor := Some(floor), passes := f.passes + [p])
  }

  lemma PassExplained(t: Tables, log: seq<Entry>, f: Feed, q: seq<ChainEvent>)
    requires Named(q, f.name) && Explained(t, log, f) && Executed(f.passes)
    ensures
      var p := q[..Pass(q, t).done];
      && Explained(Pass(q, t).tables, if f.name == IDENTITY then log + [Ran(p)] else log, Recorded(f, 0, p))
      && Executed(f.passes + [p])
  {
    if f.name == IDENTITY {
      IdentityRecorded(t, log, q);
    } else {
      PassRecorded(f.name, t, f.passes, q);
    }
  }

  lemma PassTable(t: Tables, log: seq<Entry>, f: Feed, floor: int, q: seq<ChainEvent>)
    requires TableOk(t, log, f, floor) && Ordered(f.chain)
    requires Named(q, f.name) && q <= UpTo(f.chain, floor)
    ensures
      var p := q[..Pass(q, t).done];
      TableOk(Pass(q, t).tables, if f.name == IDENTITY then log + [Ran(p)] else log, Recorded(f, floor, p), floor)
  {
    PassExplained(t, log, f, q);
    UsedGrows(f, f.chain, floor);
    PrefixesGrow(f.passes, Used(f), UpTo(f.chain, floor));
  }

  /** What the pass of an ingest reads is finalized on the chain as it stands, fork or no fork. */
  lemma ReachedFinal(db: Db, c: string, f: Feed, floor: int, k: nat)
    requires FeedOk(db, c, f) && (f.fork.Some? ==> floor < f.fork.value)
    ensures
      var q := Reached(db, c, Pulled(db, c, f.chain), floor, k);
      Named(q, f.name) && q <= UpTo(f.chain, floor)
  {
    FeedIngests(db, c, f, floor, k);
    ReachedNamed(db, c, f.name, Pulled(db, c, f.chain), floor, k);
    match f.fork
    case None => ReplaysFinalized(db, c, f.name, f.chain, floor);
    case Some(ledger) => ReplaysBelowFork(db, c, f.name, f.chain, ledger, floor);
  }

  /** Before its first apply an ingest has not touched a table. */
  lemma QuietTables(db: Db, c: string, batch: seq<ChainEvent>, floor: int, k: nat)
    requires batch == [] || k <= |batch| + 1
    ensures Ingested(db, c, batch, floor, k).tables == db.tables
  {
    assert k <= |batch| + 1 ==> Reached(db, c, batch, floor, k) == [];
  }

  lemma OwnIngestTable(s: Sys, c: string, k: nat)
    requires StoreOk(s) && c in s.feeds && TableOk(s.db.tables, s.log, s.feeds[c], Floor(s))
    requires Shallow(s, Ingest(c, k))
    ensures
      var t := AfterIngest(s, c, k);
      TableOk(t.db.tables, t.log, t.feeds[c], Floor(t))
  {
    var f, batch := s.feeds[c], Batch(s, c);
    assert FeedOk(s.db, c, f);
    if Replaying(s, c, k) {
      ReachedFinal(s.db, c, f, Floor(s), k);
      PassTable(s.db.tables, s.log, f, Floor(s), Reached(s.db, c, batch, Floor(s), k));
    } else {
      QuietTables(s.db, c, batch, Floor(s), k);
    }
  }

  lemma OtherIngestTable(s: Sys, d: string, k: nat, c: string)
    requires StoreOk(s) && c in s.feeds && d in s.feeds && c != d
    requires TableOk(s.db.tables, s.log, s.feeds[c], Floor(s))
    ensures
      var t := AfterIngest(s, d, k);
      c in t.feeds && TableOk(t.db.tables, t.log, t.feeds[c], Floor(t))
  {
    OtherIngestView(s, c, d, k);
    assert s.feeds[c].name != s.feeds[d].name;
  }

  lemma ForkTable(t: Tables, log: seq<Entry>, f: Feed, floor: int, ledger: int, chain: seq<ChainEvent>)
    requires TableOk(t, log, f, floor) && Ordered(f.chain) && Ordered(chain)
    requires AgreeBelow(f.chain, chain, ledger) && (f.floor.Some? ==> f.floor.value < ledger)
    ensures TableOk(t, log, f.(chain := chain, fork := Some(Lowest(f.fork, ledger))), floor)
  {
    if f.floor.Some? {
      SameBelow(f.chain, chain, ledger - 1, f.floor.value);
    }
  }

  lemma GrowTable(t: Tables, log: seq<Entry>, f: Feed, floor: int, chain: seq<ChainEvent>)
    requires TableOk(t, log, f, floor) && f.chain <= chain && Ordered(chain)
    ensures TableOk(t, log, f.(chain := chain), floor)
  {
    if f.floor.Some? {
      UsedGrows(f, chain, f.floor.value);
      PrefixesGrow(f.passes, Used(f), UpTo(chain, f.floor.value));
    }
  }

  /** An API write goes into the log of the farmers table and touches no other. */
  lemma WriteTable(t: Tables, log: seq<Entry>, f: Feed, floor: int, address: string, row: I.Row)
    requires TableOk(t, log, f, floor)
    ensures TableOk(t.(farmers := t.farmers[address := row]), log + [Wrote(address, row)], f, floor)
  {
    LogNext(log, Wrote(address, row));
    assert RanOf(log) + [] == RanOf(log);
  }

  lemma NextTable(s: Sys, step: Step, c: string)
    requires StoreOk(s) && Legal(s, step) && Shallow(s, step)
    requires c in s.feeds && TableOk(s.db.tables, s.log, s.feeds[c], Floor(s))
    ensures
      var t := Next(s, step);
      c in t.feeds && TableOk(t.db.tables, t.log, t.feeds[c], Floor(t))
  {
    var t, log, f := s.db.tables, s.log, s.feeds[c];
    assert FeedOk(s.db, c, f);
    match step
    case Publish(e) => if c == e.contractId { GrowTable(t, log, f, Floor(s), f.chain + [e]); }
    case Advance(_) =>
    case Ingest(d, k) => if c == d { OwnIngestTable(s, c, k); } else { OtherIngestTable(s, d, k, c); }
    case Rewind(_, _) =>
    case Fork(d, ledger, chain) => if c == d { ForkTable(t, log, f, Floor(s), ledger, chain); }
    case WriteFarmer(address, row) => WriteTable(t, log, f, Floor(s), address, row);
  }

  /** Every shallow step keeps each table a replay of passes over finalized prefixes. */
  lemma StepKeepsTables(s: Sys, step: Step)
    requires TablesOk(s) && Legal(s, step) && Shallow(s, step)
    ensures TablesOk(Next(s, step))
  {
    StepKeepsStore(s, step);
    NextShape(s, step);
    forall c | c in s.feeds
      ensures TableOk(Next(s, step).db.tables, Next(s, step).log, Next(s, step).feeds[c], Floor(Next(s, step)))
    {
      NextTable(s, step, c);
    }
  }
}
