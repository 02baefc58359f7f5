/** One ingest of one contract, as the list of statements it sends to the database. */
module Ingestion {
  import opened Wrappers
  import opened Model
  import opened Store
  import opened Projections
  import opened Replays

  const TRUSTED_CUTOFF := 10

  datatype Db = Db(events: Events, cursors: map<string, Cursor>, tables: Tables)

  function Take<T>(q: seq<T>, n: int): (r: seq<T>)
    ensures r <= q
  {
    if n <= 0 then [] else if n < |q| then q[..n] else q
  }

  function Pulled(db: Db, contract: string, chain: seq<ChainEvent>): seq<ChainEvent> {
    After(chain, CursorOf(db.cursors, contract))
  }

  /** The events the projection pass runs over. */
  function ToReplay(db: Db, contract: string, batch: seq<ChainEvent>, floor: int): seq<ChainEvent> {
    Finalized(AppendAll(db.events, batch), contract, floor)
  }

  /** The part of the pass that the first `k` statements reach. */
  function Reached(db: Db, contract: string, batch: seq<ChainEvent>, floor: int, k: nat): seq<ChainEvent> {
    Take(ToReplay(db, contract, batch, floor), k - |batch| - 1)
  }

  /** The appends, the cursor write, and one apply per finalized event; none when nothing was pulled. */
  function Statements(db: Db, contract: string, batch: seq<ChainEvent>, floor: int): nat {
    if batch == [] then 0 else |batch| + 1 + |ToReplay(db, contract, batch, floor)|
  }

  /** The database once the first `k` statements have run; a failing apply ends the list early. */
  function Ingested(db: Db, contract: string, batch: seq<ChainEvent>, floor: int, k: nat): Db {
    if batch == [] then db
    else if k <= |batch| then db.(events := AppendAll(db.events, batch[..k]))
    else
      Db(AppendAll(db.events, batch),
         db.cursors[contract := batch[|batch| - 1].Position()],
         Pass(Reached(db, contract, batch, floor, k), db.tables).tables)
  }

  /** DELETE of the raw rows from a ledger on, then of the cursor; projections are not touched. */
  function Rewound(db: Db, contract: string, fromLedger: int): Db {
    db.(events := DropFrom(db.events, contract, fromLedger), cursors := db.cursors - {contract})
  }

  ghost predicate SameStored(contract: string, a: Events, b: Events) {
    forall k: EventKey :: k.contractId == contract ==> (k in a <==> k in b) && (k in a ==> a[k] == b[k])
  }

  /** Two databases agree on a contract's raw rows and cursor. */
  ghost predicate SameStore(contract: string, a: Db, b: Db) {
    && SameStored(contract, a.events, b.events)
    && (contract in a.cursors <==> contract in b.cursors)
    && CursorOf(a.cursors, contract) == CursorOf(b.cursors, contract)
  }

  /** Two databases agree on everything an ingest of this contract reads and writes. */
  ghost predicate SameView(contract: string, name: string, a: Db, b: Db) {
    SameStore(contract, a, b) && SameTable(name, a.tables, b.tables)
  }

  /** The stored rows of a contract all carry its name. */
  ghost predicate NamedRows(contract: string, name: string, events: Events) {
    forall k :: k in events && k.contractId == contract ==> events[k].contractName == name
  }

  ghost predicate Belongs(batch: seq<ChainEvent>, contract: string, name: string) {
    forall e :: e in batch ==> e.contractId == contract && e.contractName == name
  }

  lemma {:induction false} AppendNamed(events: Events, batch: seq<ChainEvent>, contract: string, name: string)
    requires Belongs(batch, contract, name) && NamedRows(contract, name, events)
    ensures NamedRows(contract, name, AppendAll(events, batch))
  {
    if batch != [] {
      assert batch[|batch| - 1] in batch;
      AppendNamed(events, batch[..|batch| - 1], contract, name);
    }
  }

  lemma FinalizedNamed(events: Events, contract: string, name: string, floor: int)
    requires NamedRows(contract, name, events)
    ensures Named(Finalized(events, contract, floor), name)
  {
    var q := Finalized(events, contract, floor);
    var ps := SortPositions(FinalizedPositions(events, contract, floor));
    forall e | e in q ensures e.contractName == name {
      var i :| 0 <= i < |q| && q[i] == e;
      assert ps[i] in ps;
      assert EventKey(contract, ps[i]) in events;
    }
  }

  lemma ReachedNamed(db: Db, contract: string, name: string, batch: seq<ChainEvent>, floor: int, k: nat)
    requires Belongs(batch, contract, name) && NamedRows(contract, name, db.events)
    ensures Named(Reached(db, contract, batch, floor, k), name)
  {
    AppendNamed(db.events, batch, contract, name);
    FinalizedNamed(AppendAll(db.events, batch), contract, name, floor);
  }

  lemma OtherRows(events: Events, batch: seq<ChainEvent>, contract: string, name: string, other: string)
    requires Belongs(batch, contract, name) && other != contract
    ensures SameStored(other, AppendAll(events, batch), events)
  {
    forall k: EventKey | k.contractId == other
      ensures (k in AppendAll(events, batch) <==> k in events)
      ensures k in events ==> AppendAll(events, batch)[k] == events[k]
    {
      AppendFrame(events, batch, k);
    }
  }

  lemma OtherTables(db: Db, contract: string, name: string, batch: seq<ChainEvent>, floor: int, k: nat,
                    otherName: string)
    requires Belongs(batch, contract, name) && NamedRows(contract, name, db.events)
    requires otherName != name
    ensures SameTable(otherName, Pass(Reached(db, contract, batch, floor, k), db.tables).tables, db.tables)
  {
    ReachedNamed(db, contract, name, batch, floor, k);
    PassLocal(Reached(db, contract, batch, floor, k), name, db.tables, db.tables);
  }

  /** An ingest, finished or not, changes nothing that another contract's ingest looks at. */
  lemma IngestFrame(db: Db, contract: string, name: string, batch: seq<ChainEvent>, floor: int, k: nat,
                    other: string, otherName: string)
    requires Belongs(batch, contract, name) && NamedRows(contract, name, db.events)
    requires other != contract && otherName != name
    ensures SameView(other, otherName, Ingested(db, contract, batch, floor, k), db)
  {
    if k <= |batch| {
      OtherRows(db.events, batch[..k], contract, name, other);
    } else {
      OtherRows(db.events, batch, contract, name, other);
      OtherTables(db, contract, name, batch, floor, k, otherName);
    }
  }

  lemma {:induction false} AppendCongruent(contract: string, a: Events, b: Events, batch: seq<ChainEvent>)
    requires SameStored(contract, a, b)
    requires forall e :: e in batch ==> e.contractId == contract
    ensures SameStored(contract, AppendAll(a, batch), AppendAll(b, batch))
  {
    if batch != [] {
      assert batch[|batch| - 1] in batch;
      AppendCongruent(contract, a, b, batch[..|batch| - 1]);
    }
  }

  lemma FinalizedCongruent(contract: string, a: Events, b: Events, floor: int)
    requires SameStored(contract, a, b)
    ensures Finalized(a, contract, floor) == Finalized(b, contract, floor)
  {
    assert FinalizedPositions(a, contract, floor) == FinalizedPositions(b, contract, floor);
    var ps := SortPositions(FinalizedPositions(a, contract, floor));
    forall i | 0 <= i < |ps|
      ensures Finalized(a, contract, floor)[i] == Finalized(b, contract, floor)[i]
    {
      assert ps[i] in ps;
      assert EventKey(contract, ps[i]) in a;
    }
  }

  /** An ingest is a function of what it looks at. */
  lemma IngestCongruent(a: Db, b: Db, contract: string, name: string, chain: seq<ChainEvent>, floor: int, k: nat)
    requires SameView(contract, name, a, b)
    requires Belongs(chain, contract, name) && NamedRows(contract, name, a.events)
    ensures Pulled(a, contract, chain) == Pulled(b, contract, chain)
    ensures
      var batch := Pulled(a, contract, chain);
      SameView(contract, name, Ingested(a, contract, batch, floor, k), Ingested(b, contract, batch, floor, k))
  {
    var batch := Pulled(a, contract, chain);
    AfterSubset(chain, CursorOf(a.cursors, contract));
    assert forall n: nat, e :: n <= |batch| && e in batch[..n] ==> e in batch;
    AppendCongruent(contract, a.events, b.events, batch);
    if k <= |batch| {
      AppendCongruent(contract, a.events, b.events, batch[..k]);
    }
    FinalizedCongruent(contract, AppendAll(a.events, batch), AppendAll(b.events, batch), floor);
    ReachedNamed(a, contract, name, batch, floor, k);
    PassLocal(Reached(a, contract, batch, floor, k), name, a.tables, b.tables);
  }

  lemma {:induction false} AfterSubset(chain: seq<ChainEvent>, cursor: Cursor)
    ensures forall e :: e in After(chain, cursor) ==> e in chain
  {
    if chain != [] {
      AfterSubset(chain[..|chain| - 1], cursor);
    }
  }

  /** An ingest keeps the rows of a contract named. */
  lemma IngestNamed(db: Db, contract: string, name: string, batch: seq<ChainEvent>, floor: int, k: nat)
    requires Belongs(batch, contract, name) && NamedRows(contract, name, db.events)
    ensures NamedRows(contract, name, Ingested(db, contract, batch, floor, k).events)
  {
    AppendNamed(db.events, batch, contract, name);
    if k <= |batch| {
      AppendNamed(db.events, batch[..k], contract, name);
    }
  }
}
