/** The background loop visits its contracts in hash-map order; the order does not matter. */
module Ticks {
  import opened Model
  import opened Store
  import opened Ingestion
  import opened Sources
  import opened IndexerService
  import opened Schedules

  function JobFor(c: string, events: map<Cursor, ChainEvent>, head: int, k: nat): Job {
    Job(c, ChainOf(events, c), head - TRUSTED_CUTOFF, k)
  }

  function Jobs(contracts: seq<string>, events: map<Cursor, ChainEvent>, head: int, k: nat): (r: seq<Job>)
    ensures |r| == |contracts|
    ensures forall i :: 0 <= i < |r| ==> r[i] == JobFor(contracts[i], events, head, k)
  {
    if contracts == [] then []
    else Jobs(contracts[..|contracts| - 1], events, head, k) + [JobFor(contracts[|contracts| - 1], events, head, k)]
  }

  /** The longest list of statements any ingest of the tick plans. */
  function Longest(db: Db, contracts: seq<string>, events: map<Cursor, ChainEvent>, head: int): nat {
    if contracts == [] then 0
    else
      var front, c := contracts[..|contracts| - 1], contracts[|contracts| - 1];
      var before := Ticked(db, front, events, head);
      var batch := Pulled(before, c, ChainOf(events, c));
      var mine, theirs := Statements(before, c, batch, head - TRUSTED_CUTOFF), Longest(db, front, events, head);
      if mine < theirs then theirs else mine
  }

  lemma EnoughStatements(db: Db, c: string, batch: seq<ChainEvent>, floor: int, k: nat)
    requires k >= Statements(db, c, batch, floor)
    ensures Ingested(db, c, batch, floor, k) == Ingested(db, c, batch, floor, Statements(db, c, batch, floor))
  {
  }

  lemma {:induction false} TickIsSchedule(
      db: Db, contracts: seq<string>, events: map<Cursor, ChainEvent>, head: int, k: nat)
    requires k >= Longest(db, contracts, events, head)
    ensures Ticked(db, contracts, events, head) == DoAll(Jobs(contracts, events, head, k), db)
  {
    if contracts != [] {
      var front, c := contracts[..|contracts| - 1], contracts[|contracts| - 1];
      TickIsSchedule(db, front, events, head, k);
      var before := Ticked(db, front, events, head);
      EnoughStatements(before, c, Pulled(before, c, ChainOf(events, c)), head - TRUSTED_CUTOFF, k);
      var jobs := Jobs(contracts, events, head, k);
      assert jobs[..|jobs| - 1] == Jobs(front, events, head, k);
    }
  }

  lemma OnlyNext(contracts: seq<string>, events: map<Cursor, ChainEvent>, head: int, k: nat, c: string)
    requires contracts != []
    ensures
      var front, last := contracts[..|contracts| - 1], contracts[|contracts| - 1];
      Only(Jobs(contracts, events, head, k), c) ==
        Only(Jobs(front, events, head, k), c) + if last == c then [JobFor(c, events, head, k)] else []
  {
    var jobs := Jobs(contracts, events, head, k);
    assert jobs[..|jobs| - 1] == Jobs(contracts[..|contracts| - 1], events, head, k);
  }

  lemma {:induction false} OnlyCounts(
      contracts: seq<string>, events: map<Cursor, ChainEvent>, head: int, k: nat, c: string)
    ensures |Only(Jobs(contracts, events, head, k), c)| == multiset(contracts)[c]
  {
    if contracts != [] {
      var front, last := contracts[..|contracts| - 1], contracts[|contracts| - 1];
      OnlyCounts(front, events, head, k, c);
      OnlyNext(contracts, events, head, k, c);
      assert contracts == front + [last];
    }
  }

  lemma {:induction false} OnlyRepeats(
      contracts: seq<string>, events: map<Cursor, ChainEvent>, head: int, k: nat, c: string)
    ensures forall job :: job in Only(Jobs(contracts, events, head, k), c) ==> job == JobFor(c, events, head, k)
  {
    if contracts != [] {
      OnlyRepeats(contracts[..|contracts| - 1], events, head, k, c);
      OnlyNext(contracts, events, head, k, c);
    }
  }

  lemma SameJobs(contracts: seq<string>, perm: seq<string>, events: map<Cursor, ChainEvent>, head: int, k: nat,
                 c: string)
    requires multiset(contracts) == multiset(perm)
    ensures Only(Jobs(contracts, events, head, k), c) == Only(Jobs(perm, events, head, k), c)
  {
    OnlyCounts(contracts, events, head, k, c);
    OnlyCounts(perm, events, head, k, c);
    OnlyRepeats(contracts, events, head, k, c);
    OnlyRepeats(perm, events, head, k, c);
    var a, b := Only(Jobs(contracts, events, head, k), c), Only(Jobs(perm, events, head, k), c);
    forall i | 0 <= i < |a| ensures a[i] == b[i] {
      assert a[i] in a && b[i] in b;
    }
  }

  lemma JobsRegistered(contracts: seq<string>, perm: seq<string>, events: map<Cursor, ChainEvent>, head: int, k: nat,
                       names: map<string, string>)
    requires multiset(contracts) == multiset(perm)
    requires forall c :: c in contracts ==> c in names && Belongs(ChainOf(events, c), c, names[c])
    ensures Registered(Jobs(perm, events, head, k), names)
  {
    var jobs := Jobs(perm, events, head, k);
    forall job | job in jobs
      ensures job.contract in names && Belongs(job.chain, job.contract, names[job.contract])
    {
      var i :| 0 <= i < |jobs| && jobs[i] == job;
      assert jobs[i] == JobFor(perm[i], events, head, k);
      assert perm[i] in multiset(perm);
    }
  }

  /** Two ticks over the same contracts in different orders end in the same database. */
  lemma TickOrderIrrelevant(db: Db, contracts: seq<string>, perm: seq<string>, events: map<Cursor, ChainEvent>,
                            head: int, names: map<string, string>)
    requires multiset(contracts) == multiset(perm)
    requires Registry(names) && NamedStore(db, names)
    requires forall c :: c in contracts ==> c in names && Belongs(ChainOf(events, c), c, names[c])
    ensures Ticked(db, contracts, events, head) == Ticked(db, perm, events, head)
  {
    var k := Longest(db, contracts, events, head) + Longest(db, perm, events, head);
    TickIsSchedule(db, contracts, events, head, k);
    TickIsSchedule(db, perm, events, head, k);
    forall c | c in names
      ensures Only(Jobs(contracts, events, head, k), c) == Only(Jobs(perm, events, head, k), c)
    {
      SameJobs(contracts, perm, events, head, k, c);
    }
    JobsRegistered(contracts, contracts, events, head, k, names);
    JobsRegistered(contracts, perm, events, head, k, names);
    ScheduleIndependence(Jobs(contracts, events, head, k), Jobs(perm, events, head, k), db, names);
  }
}
