/** Interleaving the ingests of several contracts. */
module Schedules {
  import opened Wrappers
  import opened Model
  import opened Store
  import opened Projections
  import opened Replays
  import opened Ingestion

  /** One ingest call: what the source holds, the finality floor, and where the call stops. */
  datatype Job = Job(contract: string, chain: seq<ChainEvent>, floor: int, k: nat)

  function Do(job: Job, db: Db): Db {
    Ingested(db, job.contract, Pulled(db, job.contract, job.chain), job.floor, job.k)
  }

  function DoAll(jobs: seq<Job>, db: Db): Db {
    if jobs == [] then db else Do(jobs[|jobs| - 1], DoAll(jobs[..|jobs| - 1], db))
  }

  function Only(jobs: seq<Job>, contract: string): seq<Job> {
    if jobs == [] then []
    else
      var job := jobs[|jobs| - 1];
      Only(jobs[..|jobs| - 1], contract) + if job.contract == contract then [job] else []
  }

  /** Contract ids with their names; no two contracts share a name. */
  ghost predicate Registry(names: map<string, string>) {
    forall c, d :: c in names && d in names && names[c] == names[d] ==> c == d
  }

  ghost predicate Registered(jobs: seq<Job>, names: map<string, string>) {
    forall job :: job in jobs ==>
      job.contract in names && Belongs(job.chain, job.contract, names[job.contract])
  }

  ghost predicate NamedStore(db: Db, names: map<string, string>) {
    forall c :: c in names ==> NamedRows(c, names[c], db.events)
  }

  lemma PulledBelongs(job: Job, db: Db, name: string)
    requires Belongs(job.chain, job.contract, name)
    ensures Belongs(Pulled(db, job.contract, job.chain), job.contract, name)
  {
    AfterSubset(job.chain, CursorOf(db.cursors, job.contract));
  }

  lemma DoNamed(job: Job, db: Db, names: map<string, string>)
    requires Registry(names) && Registered([job], names) && NamedStore(db, names)
    ensures NamedStore(Do(job, db), names)
  {
    assert job in [job];
    var name := names[job.contract];
    PulledBelongs(job, db, name);
    var batch := Pulled(db, job.contract, job.chain);
    forall c | c in names ensures NamedRows(c, names[c], Do(job, db).events) {
      if c == job.contract {
        IngestNamed(db, c, name, batch, job.floor, job.k);
      } else {
        IngestFrame(db, job.contract, name, batch, job.floor, job.k, c, names[c]);
      }
    }
  }

  /** What a schedule does for one contract is what that contract's own calls do alone. */
  lemma {:induction false} OwnCallsDecide(jobs: seq<Job>, db: Db, names: map<string, string>, contract: string)
    requires Registry(names) && Registered(jobs, names) && NamedStore(db, names) && contract in names
    ensures NamedStore(DoAll(jobs, db), names) && NamedStore(DoAll(Only(jobs, contract), db), names)
    ensures SameView(contract, names[contract], DoAll(jobs, db), DoAll(Only(jobs, contract), db))
  {
    if jobs != [] {
      var front, job := jobs[..|jobs| - 1], jobs[|jobs| - 1];
      assert job in jobs && forall j :: j in front ==> j in jobs;
      OwnCallsDecide(front, db, names, contract);
      var a, b := DoAll(front, db), DoAll(Only(front, contract), db);
      DoNamed(job, a, names);
      PulledBelongs(job, a, names[job.contract]);
      if job.contract == contract {
        DoNamed(job, b, names);
        IngestCongruent(a, b, contract, names[contract], job.chain, job.floor, job.k);
        assert Only(jobs, contract)[..|Only(jobs, contract)| - 1] == Only(front, contract);
      } else {
        IngestFrame(a, job.contract, names[job.contract], Pulled(a, job.contract, job.chain), job.floor, job.k,
                    contract, names[contract]);
        assert Only(jobs, contract) == Only(front, contract);
      }
    }
  }

  lemma SameName(jobs: seq<Job>, perm: seq<Job>, db: Db, names: map<string, string>, name: string)
    requires Registry(names) && NamedStore(db, names)
    requires Registered(jobs, names) && Registered(perm, names)
    requires forall c :: c in names ==> Only(jobs, c) == Only(perm, c)
    ensures SameTable(name, DoAll(jobs, db).tables, DoAll(perm, db).tables)
  {
    if c :| c in names && names[c] == name {
      OwnCallsDecide(jobs, db, names, c);
      OwnCallsDecide(perm, db, names, c);
    } else {
      Outside(jobs, db, names, name);
      Outside(perm, db, names, name);
    }
  }

  lemma {:induction false} Outside(jobs: seq<Job>, db: Db, names: map<string, string>, name: string)
    requires Registry(names) && Registered(jobs, names) && NamedStore(db, names)
    requires forall d :: d in names ==> names[d] != name
    ensures NamedStore(DoAll(jobs, db), names)
    ensures SameTable(name, DoAll(jobs, db).tables, db.tables)
  {
    if jobs != [] {
      var front, job := jobs[..|jobs| - 1], jobs[|jobs| - 1];
      assert job in jobs && forall j :: j in front ==> j in jobs;
      Outside(front, db, names, name);
      var a := DoAll(front, db);
      DoNamed(job, a, names);
      PulledBelongs(job, a, names[job.contract]);
      ReachedNamed(a, job.contract, names[job.contract], Pulled(a, job.contract, job.chain), job.floor, job.k);
      PassLocal(Reached(a, job.contract, Pulled(a, job.contract, job.chain), job.floor, job.k),
                names[job.contract], a.tables, a.tables);
      assert SameTable(name, Do(job, a).tables, a.tables);
    }
  }

  /**
   Any interleaving that keeps each contract's own calls in order, calls cut short included,
   reaches the same store, the same cursors and the same four tables.
   */
  lemma ScheduleIndependence(jobs: seq<Job>, perm: seq<Job>, db: Db, names: map<string, string>)
    requires Registry(names) && NamedStore(db, names)
    requires Registered(jobs, names) && Registered(perm, names)
    requires forall c :: c in names ==> Only(jobs, c) == Only(perm, c)
    ensures DoAll(jobs, db) == DoAll(perm, db)
  {
    var a, b := DoAll(jobs, db), DoAll(perm, db);
    SameName(jobs, perm, db, names, VERIFICATION);
    SameName(jobs, perm, db, names, ESCROW);
    SameName(jobs, perm, db, names, FINANCING);
    SameName(jobs, perm, db, names, IDENTITY);
    assert a.tables == b.tables;
    forall c: string ensures SameStored(c, a.events, b.events)
                     && (c in a.cursors <==> c in b.cursors) && CursorOf(a.cursors, c) == CursorOf(b.cursors, c)
    {
      if c in names {
        OwnCallsDecide(jobs, db, names, c);
        OwnCallsDecide(perm, db, names, c);
      } else {
        ForeignRows(jobs, db, names, c);
        ForeignRows(perm, db, names, c);
      }
    }
    forall k: EventKey ensures (k in a.events <==> k in b.events) && (k in a.events ==> a.events[k] == b.events[k]) {
      assert SameStored(k.contractId, a.events, b.events);
    }
    assert a.events == b.events;
    assert a.cursors == b.cursors by {
      assert forall c :: c in a.cursors ==> a.cursors[c] == CursorOf(a.cursors, c);
      assert forall c :: c in b.cursors ==> b.cursors[c] == CursorOf(b.cursors, c);
    }
  }

  lemma {:induction false} ForeignRows(jobs: seq<Job>, db: Db, names: map<string, string>, c: string)
    requires Registry(names) && Registered(jobs, names) && NamedStore(db, names) && c !in names
    ensures NamedStore(DoAll(jobs, db), names)
    ensures
      var after := DoAll(jobs, db);
      && SameStored(c, after.events, db.events)
      && (c in after.cursors <==> c in db.cursors) && CursorOf(after.cursors, c) == CursorOf(db.cursors, c)
  {
    if jobs != [] {
      var front, job := jobs[..|jobs| - 1], jobs[|jobs| - 1];
      assert job in jobs && forall j :: j in front ==> j in jobs;
      ForeignRows(front, db, names, c);
      var a := DoAll(front, db);
      DoNamed(job, a, names);
      var name := names[job.contract];
      PulledBelongs(job, a, name);
      IngestFrame(a, job.contract, name, Pulled(a, job.contract, job.chain), job.floor, job.k, c, name + "'");
    }
  }
}
