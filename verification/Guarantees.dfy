/** What holds in every state of every run, and what a completed ingest restores. */
module Guarantees {
  import opened Wrappers
  import opened Keyed
  import opened Model
  import opened Store
  import opened Projections
  import opened Replays
  import opened Ingestion
  import opened Feeds
  import opened Runs
  import E = Escrows
  import I = Identities

  /** The states and steps of a run; ingests may be cut anywhere, any number of times. */
  ghost predicate IsRun(states: seq<Sys>, steps: seq<Step>) {
    && |states| == |steps| + 1
    && Initial(states[0])
    && forall i :: 0 <= i < |steps| ==> FollowsAt(states, steps, i)
  }

  ghost predicate FollowsAt(states: seq<Sys>, steps: seq<Step>, i: int)
    requires 0 <= i < |steps| && |states| == |steps| + 1
  {
    Legal(states[i], steps[i]) && states[i + 1] == Next(states[i], steps[i])
  }

  ghost predicate ShallowRun(states: seq<Sys>, steps: seq<Step>)
    requires IsRun(states, steps)
  {
    forall i :: 0 <= i < |steps| ==> ShallowAt(states, steps, i)
  }

  ghost predicate ShallowAt(states: seq<Sys>, steps: seq<Step>, i: int)
    requires 0 <= i < |steps| && |states| == |steps| + 1
  {
    Legal(states[i], steps[i]) && Shallow(states[i], steps[i])
  }

  lemma InitialOk(s: Sys)
    requires Initial(s)
    ensures TablesOk(s)
  {
    forall c | c in s.feeds ensures FeedOk(s.db, c, s.feeds[c]) {
      assert NewFeed(c, s.feeds[c]);
      assert StoreAt(s.db, c, s.feeds[c].chain, 0, 0);
    }
    forall c | c in s.feeds ensures TableOk(s.db.tables, s.log, s.feeds[c], Floor(s)) {
      assert NewFeed(c, s.feeds[c]);
    }
  }

  lemma {:induction false} ReachableStore(states: seq<Sys>, steps: seq<Step>, i: nat)
    requires IsRun(states, steps) && i < |states|
    ensures StoreOk(states[i])
  {
    if i == 0 {
      InitialOk(states[0]);
    } else {
      ReachableStore(states, steps, i - 1);
      assert FollowsAt(states, steps, i - 1);
      StepKeepsStore(states[i - 1], steps[i - 1]);
    }
  }

  lemma {:induction false} ReachableTables(states: seq<Sys>, steps: seq<Step>, i: nat)
    requires IsRun(states, steps) && ShallowRun(states, steps) && i < |states|
    ensures TablesOk(states[i])
  {
    if i == 0 {
      InitialOk(states[0]);
    } else {
      ReachableTables(states, steps, i - 1);
      assert FollowsAt(states, steps, i - 1);
      assert ShallowAt(states, steps, i - 1);
      StepKeepsTables(states[i - 1], steps[i - 1]);
    }
  }

  lemma AheadOfMark(chain: seq<ChainEvent>, c: string, name: string, j: int)
    requires ValidChain(chain, c, name) && 0 <= j <= |chain|
    ensures forall n :: j <= n < |chain| ==> chain[n].Position().IsAfter(Mark(chain, j))
  {
    forall n | j <= n < |chain| ensures chain[n].Position().IsAfter(Mark(chain, j)) {
      assert chain[n] in chain;
      assert j > 0 ==> Precedes(chain, j - 1, n);
    }
  }

  lemma SyncedRows(db: Db, c: string, name: string, chain: seq<ChainEvent>, m: int, j: int)
    requires ValidChain(chain, c, name) && StoreAt(db, c, chain, m, j)
    ensures forall e :: e in chain && !e.Position().IsAfter(CursorOf(db.cursors, c)) ==> Stored(db.events, c, e)
    ensures forall k :: k in db.events && k.contractId == c ==> db.events[k] in chain && KeyOf(db.events[k]) == k
  {
    AheadOfMark(chain, c, name, j);
    forall e | e in chain && !e.Position().IsAfter(CursorOf(db.cursors, c)) ensures Stored(db.events, c, e) {
      var n :| 0 <= n < |chain| && chain[n] == e;
      assert n < j;
    }
    forall k | k in db.events && k.contractId == c
      ensures db.events[k] in chain && KeyOf(db.events[k]) == k
    {
      assert Occupied(chain, m, k.position);
      var n :| 0 <= n < m && chain[n].Position() == k.position;
      assert Stored(db.events, c, chain[n]) && chain[n] in chain;
    }
  }

  /** With forks rewound, every source event up to the cursor is in the raw store, and nothing foreign is. */
  lemma NoEventLost(states: seq<Sys>, steps: seq<Step>, i: nat, c: string)
    requires IsRun(states, steps) && i < |states| && c in states[i].feeds
    requires states[i].feeds[c].fork.None?
    ensures
      var db, chain := states[i].db, states[i].feeds[c].chain;
      && (forall e :: e in chain && !e.Position().IsAfter(CursorOf(db.cursors, c)) ==> Stored(db.events, c, e))
      && (forall k :: k in db.events && k.contractId == c ==> db.events[k] in chain && KeyOf(db.events[k]) == k)
  {
    ReachableStore(states, steps, i);
    var db, f := states[i].db, states[i].feeds[c];
    assert FeedOk(db, c, f);
    var m, j :| StoreAt(db, c, f.chain, m, j);
    SyncedRows(db, c, f.name, f.chain, m, j);
  }

  /** Under a standing fork, the rows below it are events of the new chain, each at its own key. */
  lemma NothingForeignBelowFork(states: seq<Sys>, steps: seq<Step>, i: nat, c: string)
    requires IsRun(states, steps) && i < |states| && c in states[i].feeds
    requires states[i].feeds[c].fork.Some?
    ensures
      var db, f := states[i].db, states[i].feeds[c];
      forall k :: k in db.events && k.contractId == c && k.position.ledger < f.fork.value ==>
        db.events[k] in f.chain && KeyOf(db.events[k]) == k
  {
    ReachableStore(states, steps, i);
    var db, f := states[i].db, states[i].feeds[c];
    assert FeedOk(db, c, f);
    var m, j :| BehindAt(db, c, f.chain, f.fork.value, m, j);
    var rows := DropFrom(db.events, c, f.fork.value);
    forall k | k in db.events && k.contractId == c && k.position.ledger < f.fork.value
      ensures db.events[k] in f.chain && KeyOf(db.events[k]) == k
    {
      assert k in rows && Occupied(f.chain, m, k.position);
      var n :| 0 <= n < m && f.chain[n].Position() == k.position;
      assert Stored(rows, c, f.chain[n]) && f.chain[n] in f.chain;
    }
  }

  /** An ingest is complete once every statement it plans has had its turn. */
  ghost predicate Completes(s: Sys, c: string, k: nat)
    requires c in s.feeds
  {
    Batch(s, c) != [] && k >= Statements(s.db, c, Batch(s, c), Floor(s))
  }

  /** The raw rows are the whole chain and the cursor stands at its last event. */
  ghost predicate AtEnd(db: Db, c: string, chain: seq<ChainEvent>) {
    chain != [] && HoldsPrefix(db.events, c, chain, |chain|) && CursorOf(db.cursors, c) == Mark(chain, |chain|)
  }

  lemma CaughtUp(db: Db, c: string, name: string, chain: seq<ChainEvent>, floor: int, k: nat)
    requires ValidChain(chain, c, name) && InSync(db, c, chain)
    requires Pulled(db, c, chain) != [] && k > |Pulled(db, c, chain)|
    ensures
      var t := Ingested(db, c, Pulled(db, c, chain), floor, k);
      && AtEnd(t, c, chain)
      && CursorOf(t.cursors, c).IsAfter(CursorOf(db.cursors, c))
  {
    var m, j :| StoreAt(db, c, chain, m, j);
    IngestStore(db, c, name, chain, floor, k, m, j);
    AheadOfMark(chain, c, name, j);
  }

  /** An ingest that gets past its appends stores the whole chain and moves the cursor forward to its end. */
  lemma CatchesUp(s: Sys, c: string, k: nat)
    requires StoreOk(s) && c in s.feeds && s.feeds[c].fork.None?
    requires Batch(s, c) != [] && k > |Batch(s, c)|
    ensures
      var t, chain := Next(s, Ingest(c, k)), s.feeds[c].chain;
      && AtEnd(t.db, c, chain)
      && CursorOf(t.db.cursors, c).IsAfter(CursorOf(s.db.cursors, c))
  {
    assert FeedOk(s.db, c, s.feeds[c]);
    IngestNext(s, c, k);
    CaughtUp(s.db, c, s.feeds[c].name, s.feeds[c].chain, Floor(s), k);
  }

  lemma CompletedPass(s: Sys, c: string, k: nat)
    requires StoreOk(s) && c in s.feeds && s.feeds[c].fork.None? && Completes(s, c, k)
    ensures
      var q, t := UpTo(s.feeds[c].chain, Floor(s)), Next(s, Ingest(c, k));
      && Reached(s.db, c, Batch(s, c), Floor(s), k) == q
      && t.db.tables == Pass(q, s.db.tables).tables
      && c in t.feeds
      && (q != [] ==> t.feeds[c].passes == s.feeds[c].passes + [q[..Pass(q, s.db.tables).done]])
  {
    assert FeedOk(s.db, c, s.feeds[c]);
    ReplaysFinalized(s.db, c, s.feeds[c].name, s.feeds[c].chain, Floor(s));
  }

  lemma AppliesFinal(s: Sys, c: string, k: nat, n: nat)
    requires StoreOk(s) && c in s.feeds && s.feeds[c].fork.None? && n < |s.feeds[c].chain|
    requires Completes(s, c, k) && s.feeds[c].chain[n].ledger <= Floor(s)
    requires Pass(UpTo(s.feeds[c].chain, Floor(s)), s.db.tables).ok
    ensures
      var f, t := s.feeds[c], Next(s, Ingest(c, k));
      var q := UpTo(f.chain, Floor(s));
      && c in t.feeds && t.feeds[c].passes == f.passes + [q]
      && n < |q| && q[n] == f.chain[n]
  {
    var f := s.feeds[c];
    var q := UpTo(f.chain, Floor(s));
    assert FeedOk(s.db, c, f);
    CompletedPass(s, c, k);
    UpToReaches(f.chain, Floor(s), n);
    assert q[..|q|] == q;
  }

  /**
   Catching up: an ingest that pulls nothing changes nothing, however far the head has moved; the first
   completed one that pulls something applies every event whose ledger the floor has reached.
   */
  lemma AppliedOnceFinal(s: Sys, c: string, k: nat, n: nat)
    requires StoreOk(s) && c in s.feeds && s.feeds[c].fork.None? && n < |s.feeds[c].chain|
    ensures Batch(s, c) == [] ==> Next(s, Ingest(c, k)) == s
    ensures
      var f, t := s.feeds[c], Next(s, Ingest(c, k));
      var q := UpTo(f.chain, Floor(s));
      Completes(s, c, k) && f.chain[n].ledger <= Floor(s) && Pass(q, s.db.tables).ok ==>
        && c in t.feeds && t.feeds[c].passes == f.passes + [q]
        && n < |q| && q[n] == f.chain[n]
  {
    var f := s.feeds[c];
    if Completes(s, c, k) && f.chain[n].ledger <= Floor(s) && Pass(UpTo(f.chain, Floor(s)), s.db.tables).ok {
      AppliesFinal(s, c, k, n);
    }
  }

  /** The projections rebuilt by one pass: every table but escrow, and identity while the API has not written. */
  ghost predicate Rebuilds(name: string, log: seq<Entry>) {
    name != ESCROW && (name == IDENTITY ==> RanOnly(log))
  }

  lemma PassForgetsPast(t: Tables, log: seq<Entry>, c: string, f: Feed, floor: int)
    requires TableOk(t, log, f, floor) && ValidChain(f.chain, c, f.name)
    requires Rebuilds(f.name, log) && Replayable(f.name, UpTo(f.chain, floor))
    ensures
      var q := UpTo(f.chain, floor);
      && SameTable(f.name, Pass(q, t).tables, Pass(q, EMPTY).tables)
      && Pass(q, t).done == Pass(q, EMPTY).done
      && Pass(q, t).ok == Pass(q, EMPTY).ok
  {
    var q := UpTo(f.chain, floor);
    UsedGrows(f, f.chain, floor);
    PrefixesGrow(f.passes, Used(f), q);
    if f.name == IDENTITY {
      RanOnlyReplays(log);
    }
    assert Named(q, f.name);
    PassLocal(q, f.name, t, ReplayAll(f.passes));
    Converges(f.passes, q, f.name);
  }

  /**
   A completed ingest that pulled something leaves the contract's table equal to one fold, from empty,
   of the chain's finalized events, whatever crashes came before.
   */
  lemma IngestConverges(s: Sys, c: string, k: nat)
    requires TablesOk(s) && c in s.feeds && s.feeds[c].fork.None? && Completes(s, c, k)
    requires Rebuilds(s.feeds[c].name, s.log) && Replayable(s.feeds[c].name, UpTo(s.feeds[c].chain, Floor(s)))
    ensures
      var f := s.feeds[c];
      var q := UpTo(f.chain, Floor(s));
      && SameTable(f.name, Next(s, Ingest(c, k)).db.tables, Pass(q, EMPTY).tables)
      && Pass(q, s.db.tables).done == Pass(q, EMPTY).done
      && Pass(q, s.db.tables).ok == Pass(q, EMPTY).ok
  {
    assert FeedOk(s.db, c, s.feeds[c]);
    CompletedPass(s, c, k);
    PassForgetsPast(s.db.tables, s.log, c, s.feeds[c], Floor(s));
  }

  ghost predicate NoWrites(steps: seq<Step>, n: nat)
    requires n <= |steps|
  {
    forall i :: 0 <= i < n ==> !steps[i].WriteFarmer?
  }

  lemma {:induction false} UnwrittenLog(states: seq<Sys>, steps: seq<Step>, n: nat)
    requires IsRun(states, steps) && n <= |steps| && NoWrites(steps, n)
    ensures RanOnly(states[n].log)
  {
    if n > 0 {
      UnwrittenLog(states, steps, n - 1);
      assert FollowsAt(states, steps, n - 1);
      LogStep(states[n - 1], steps[n - 1]);
    }
  }

  lemma LogStep(s: Sys, step: Step)
    requires Legal(s, step) && !step.WriteFarmer? && RanOnly(s.log)
    ensures RanOnly(Next(s, step).log)
  {
  }

  /** So along any run: wherever crashes, growth, rewinds and shallow forks came before the ingest. */
  lemma RunConverges(states: seq<Sys>, steps: seq<Step>, i: nat, c: string, k: nat)
    requires IsRun(states, steps) && ShallowRun(states, steps)
    requires i < |steps| && steps[i] == Ingest(c, k)
    requires c in states[i].feeds && states[i].feeds[c].fork.None? && Completes(states[i], c, k)
    requires states[i].feeds[c].name != ESCROW
    requires states[i].feeds[c].name == IDENTITY ==> NoWrites(steps, i)
    requires Replayable(states[i].feeds[c].name, UpTo(states[i].feeds[c].chain, Floor(states[i])))
    ensures
      var f := states[i].feeds[c];
      SameTable(f.name, states[i + 1].db.tables, Pass(UpTo(f.chain, Floor(states[i])), EMPTY).tables)
  {
    ReachableTables(states, steps, i);
    assert FollowsAt(states, steps, i);
    if states[i].feeds[c].name == IDENTITY {
      UnwrittenLog(states, steps, i);
    }
    IngestConverges(states[i], c, k);
  }

  /**
   The farmers table, which the API writes too: a completed ingest leaves, for every farmer, the row of
   one fold of the finalized events over the row that was there, which keeps its id, its profile and
   the ledgers the events do not give. Nothing else of the past shows.
   */
  lemma RunMergesProfiles(states: seq<Sys>, steps: seq<Step>, i: nat, c: string, k: nat, id: string)
    requires IsRun(states, steps)
    requires i < |steps| && steps[i] == Ingest(c, k)
    requires c in states[i].feeds && states[i].feeds[c].fork.None? && Completes(states[i], c, k)
    requires states[i].feeds[c].name == IDENTITY && BeginsWithCreation(IDENTITY, states[i].feeds[c].chain)
    ensures
      var q := UpTo(states[i].feeds[c].chain, Floor(states[i]));
      && Get(states[i + 1].db.tables.farmers, id) ==
           I.Merged(Get(states[i].db.tables.farmers, id), Get(Pass(q, EMPTY).tables.farmers, id))
      && Pass(q, states[i].db.tables).ok == Pass(q, EMPTY).ok
  {
    var s := states[i];
    var f := s.feeds[c];
    var q := UpTo(f.chain, Floor(s));
    ReachableStore(states, steps, i);
    assert FeedOk(s.db, c, f);
    assert FollowsAt(states, steps, i);
    CompletedPass(s, c, k);
    BeginsPrefix(IDENTITY, q, f.chain);
    assert Named(q, IDENTITY);
    IdentityPass(q, s.db.tables);
    IdentityMerges(q, s.db.tables, id);
  }

  /**
   In every state of a run of shallow forks, a table is its recorded passes replayed, with the API's
   writes between them for identity, and no pass saw an event off the chain or above the highest floor used.
   */
  lemma FinalitySafety(states: seq<Sys>, steps: seq<Step>, i: nat, c: string, p: nat, e: ChainEvent)
    requires IsRun(states, steps) && ShallowRun(states, steps) && i < |states| && c in states[i].feeds
    ensures Explained(states[i].db.tables, states[i].log, states[i].feeds[c])
    ensures
      var s := states[i];
      var f := s.feeds[c];
      p < |f.passes| && e in f.passes[p] ==>
        f.floor.Some? && e in f.chain && e.ledger <= f.floor.value <= s.head - 10
  {
    ReachableTables(states, steps, i);
    var s := states[i];
    var f := s.feeds[c];
    assert FeedOk(s.db, c, f) && TableOk(s.db.tables, s.log, f, Floor(s));
    if p < |f.passes| && e in f.passes[p] {
      UsedEvents(f, f.passes[p], e);
    }
  }

  lemma UsedEvents(f: Feed, p: seq<ChainEvent>, e: ChainEvent)
    requires Ordered(f.chain) && p <= Used(f) && e in p
    ensures f.floor.Some? && e in f.chain && e.ledger <= f.floor.value
  {
    var n :| 0 <= n < |p| && p[n] == e;
    UpToExact(f.chain, f.floor.value);
    assert f.chain[n] == Used(f)[n] == e;
  }

  lemma CleanStopsShort(p: seq<ChainEvent>, chain: seq<ChainEvent>, n: nat)
    requires p <= chain && Clean(p) && n < |chain| && Decode(chain[n]).Malformed?
    ensures p <= chain[..n]
  {
    assert forall h :: 0 <= h < |p| ==> p[h] in p && p[h] == chain[h];
  }

  /** No pass of any run of shallow forks got to the first undecodable event of the chain, or past it. */
  lemma NothingPastBadEvent(states: seq<Sys>, steps: seq<Step>, i: nat, c: string, n: nat, p: nat)
    requires IsRun(states, steps) && ShallowRun(states, steps) && i < |states| && c in states[i].feeds
    requires n < |states[i].feeds[c].chain| && Decode(states[i].feeds[c].chain[n]).Malformed?
    requires p < |states[i].feeds[c].passes|
    ensures states[i].feeds[c].passes[p] <= states[i].feeds[c].chain[..n]
  {
    ReachableTables(states, steps, i);
    var s := states[i];
    var f := s.feeds[c];
    assert TableOk(s.db.tables, s.log, f, Floor(s));
    ExecutedClean(f.passes, p);
    assert f.passes[p] <= Used(f) <= f.chain;
    CleanStopsShort(f.passes[p], f.chain, n);
  }

  lemma {:induction false} ExecutedClean(passes: seq<seq<ChainEvent>>, i: nat)
    requires Executed(passes) && i < |passes|
    ensures Clean(passes[i])
  {
    var before, p := passes[..|passes| - 1], passes[|passes| - 1];
    if i == |passes| - 1 {
      PassFolds(p, ReplayAll(before));
    } else {
      ExecutedClean(before, i);
    }
  }

  /** What an ingest leaves whose pass ended at the n-th event, with the ingest itself run to its end. */
  ghost predicate StoppedAt(s: Sys, t: Sys, c: string, n: nat)
    requires c in s.feeds && n < |s.feeds[c].chain|
  {
    var f := s.feeds[c];
    && t.db.tables == Pass(f.chain[..n], s.db.tables).tables
    && c in t.feeds && t.feeds[c].passes == f.passes + [f.chain[..n]]
    && !Pass(UpTo(f.chain, Floor(s)), s.db.tables).ok
    && AtEnd(t.db, c, f.chain)
  }

  lemma StopsThere(s: Sys, c: string, k: nat, n: nat)
    requires StoreOk(s) && c in s.feeds && s.feeds[c].fork.None? && Completes(s, c, k)
    requires n < |s.feeds[c].chain| && Decode(s.feeds[c].chain[n]).Malformed?
    requires s.feeds[c].chain[n].ledger <= Floor(s) && Pass(s.feeds[c].chain[..n], s.db.tables).ok
    ensures StoppedAt(s, Next(s, Ingest(c, k)), c, n)
  {
    var f := s.feeds[c];
    assert FeedOk(s.db, c, f);
    UpToReaches(f.chain, Floor(s), n);
    PassStopsAt(UpTo(f.chain, Floor(s)), n, s.db.tables);
    CompletedPass(s, c, k);
    CatchesUp(s, c, k);
  }

  /**
   In any run, a completed ingest whose floor has reached a bad event applies exactly the events before
   it and fails there, while the raw store and the cursor still run to the end of the chain.
   */
  lemma StopsAtBadEvent(states: seq<Sys>, steps: seq<Step>, i: nat, c: string, k: nat, n: nat)
    requires IsRun(states, steps) && i < |steps| && steps[i] == Ingest(c, k)
    requires c in states[i].feeds && states[i].feeds[c].fork.None? && Completes(states[i], c, k)
    requires n < |states[i].feeds[c].chain| && Decode(states[i].feeds[c].chain[n]).Malformed?
    requires states[i].feeds[c].chain[n].ledger <= Floor(states[i])
    requires Pass(states[i].feeds[c].chain[..n], states[i].db.tables).ok
    ensures StoppedAt(states[i], states[i + 1], c, n)
  {
    ReachableStore(states, steps, i);
    assert FollowsAt(states, steps, i);
    StopsThere(states[i], c, k, n);
  }

  /** Between two points of a run the contract's chain does not fork. */
  ghost predicate NoFork(steps: seq<Step>, c: string, start: nat, stop: nat)
    requires start <= stop <= |steps|
  {
    forall h :: start <= h < stop ==> !(steps[h].Fork? && steps[h].contract == c)
  }

  /** What one step does to a feed whose chain does not fork. */
  lemma FeedStep(s: Sys, step: Step, c: string)
    requires Legal(s, step) && c in s.feeds && !(step.Fork? && step.contract == c)
    ensures
      var t, f := Next(s, step), s.feeds[c];
      && c in t.feeds && t.feeds[c].name == f.name && f.chain <= t.feeds[c].chain
      && t.feeds[c].fork == if step.Rewind? && step.contract == c then Healed(f.fork, step.fromLedger) else f.fork
  {
  }

  lemma {:induction false} FeedBetween(states: seq<Sys>, steps: seq<Step>, c: string, start: nat, stop: nat)
    requires IsRun(states, steps) && start <= stop <= |steps| && NoFork(steps, c, start, stop)
    requires c in states[start].feeds
    ensures
      && c in states[stop].feeds
      && var f, g := states[start].feeds[c], states[stop].feeds[c];
      g.name == f.name && f.chain <= g.chain && (g.fork == f.fork || g.fork == None)
    decreases stop
  {
    if start < stop {
      FeedBetween(states, steps, c, start, stop - 1);
      assert FollowsAt(states, steps, stop - 1);
      FeedStep(states[stop - 1], steps[stop - 1], c);
    }
  }

  /** The fork of a chain at one point of a run and a rewind that reaches it at a later one, with no other fork. */
  ghost predicate Recovery(states: seq<Sys>, steps: seq<Step>, c: string, at: nat, back: nat, i: nat)
    requires IsRun(states, steps)
  {
    && at < back < i < |steps|
    && steps[at].Fork? && steps[at].contract == c
    && c in states[at].feeds && states[at].feeds[c].fork.None?
    && steps[back].Rewind? && steps[back].contract == c && steps[back].fromLedger <= steps[at].fromLedger
    && NoFork(steps, c, at + 1, i)
  }

  /** The ingests in between, cut or whole, and whatever else happened, leave nothing of the old chain behind. */
  lemma Recovers(states: seq<Sys>, steps: seq<Step>, c: string, at: nat, back: nat, i: nat)
    requires IsRun(states, steps) && Recovery(states, steps, c, at, back, i)
    ensures c in states[i].feeds && c in states[at].feeds
    ensures states[i].feeds[c].fork.None? && steps[at].chain <= states[i].feeds[c].chain
    ensures states[i].feeds[c].name == states[at].feeds[c].name
  {
    assert FollowsAt(states, steps, at);
    FeedBetween(states, steps, c, at + 1, back);
    assert FollowsAt(states, steps, back);
    FeedStep(states[back], steps[back], c);
    FeedBetween(states, steps, c, back + 1, i);
  }

  /**
   Once a chain has forked and a rewind has reached the fork, one ingest makes the raw rows and the
   cursor those of the new chain, however many ingests ran, or were cut, between fork and rewind.
   */
  lemma ReorgRestores(states: seq<Sys>, steps: seq<Step>, c: string, at: nat, back: nat, i: nat, k: nat)
    requires IsRun(states, steps) && Recovery(states, steps, c, at, back, i)
    requires steps[i] == Ingest(c, k) && c in states[i].feeds
    requires Batch(states[i], c) != [] && k > |Batch(states[i], c)|
    ensures
      steps[at].chain <= states[i].feeds[c].chain && AtEnd(states[i + 1].db, c, states[i].feeds[c].chain)
  {
    var s := states[i];
    Recovers(states, steps, c, at, back, i);
    ReachableStore(states, steps, i);
    assert FollowsAt(states, steps, i);
    CatchesUp(s, c, k);
  }

  /** If every floor used before the rewind is below the fork, the table is the fold of the new chain as well. */
  lemma ReorgConverges(states: seq<Sys>, steps: seq<Step>, c: string, at: nat, back: nat, i: nat, k: nat)
    requires IsRun(states, steps) && ShallowRun(states, steps) && Recovery(states, steps, c, at, back, i)
    requires steps[i] == Ingest(c, k) && c in states[i].feeds && Completes(states[i], c, k)
    requires states[i].feeds[c].name != ESCROW
    requires states[i].feeds[c].name == IDENTITY ==> NoWrites(steps, i)
    requires Replayable(states[i].feeds[c].name, UpTo(states[i].feeds[c].chain, Floor(states[i])))
    ensures
      var f := states[i].feeds[c];
      && steps[at].chain <= f.chain
      && SameTable(f.name, states[i + 1].db.tables, Pass(UpTo(f.chain, Floor(states[i])), EMPTY).tables)
  {
    Recovers(states, steps, c, at, back, i);
    RunConverges(states, steps, i, c, k);
  }

  /** The statements the contract's passes have sent to the escrow table so far. */
  function EscrowPasses(f: Feed): seq<seq<E.Op>> {
    OpPasses(f.passes, TO_ESCROWS)
  }

  lemma EscrowHistory(t: Tables, log: seq<Entry>, f: Feed, floor: int)
    requires TableOk(t, log, f, floor) && f.name == ESCROW && BeginsWithCreation(ESCROW, f.chain)
    ensures t.escrows == Replay(E.RULES, EscrowPasses(f), map[])
    ensures ReplaySound(E.RULES, EscrowPasses(f))
    ensures forall i :: 0 <= i < |f.passes| ==> E.WellFormed(EscrowPasses(f)[i])
  {
    ReplayFolds(f.passes);
    forall i | 0 <= i < |f.passes| ensures E.WellFormed(EscrowPasses(f)[i]) {
      assert f.passes[i] <= Used(f) <= f.chain;
      BeginsPrefix(ESCROW, f.passes[i], f.chain);
      DecodedRowsFresh(f.passes[i]);
    }
  }

  /**
   In every state of a run of shallow forks, the released amount of an escrow with no refund applied is
   the sum, over all passes finished or cut, of the releases each pass got through.
   */
  lemma EscrowReleased(states: seq<Sys>, steps: seq<Step>, i: nat, c: string, id: string)
    requires IsRun(states, steps) && ShallowRun(states, steps) && i < |states| && c in states[i].feeds
    requires states[i].feeds[c].name == ESCROW && BeginsWithCreation(ESCROW, states[i].feeds[c].chain)
    requires forall p :: 0 <= p < |states[i].feeds[c].passes| ==>
               !E.HasRefund(EscrowPasses(states[i].feeds[c])[p], id)
    ensures
      var t, total := states[i].db.tables.escrows, E.TotalReleases(EscrowPasses(states[i].feeds[c]), id);
      if id in t then t[id].releasedAmount == total else total == 0
  {
    ReachableTables(states, steps, i);
    var s := states[i];
    var f := s.feeds[c];
    assert TableOk(s.db.tables, s.log, f, Floor(s));
    EscrowHistory(s.db.tables, s.log, f, Floor(s));
    E.ReleasedLaw(EscrowPasses(f), id);
  }

  lemma EscrowPass(q: seq<ChainEvent>, chain: seq<ChainEvent>, t: Tables, id: string)
    requires q <= chain && BeginsWithCreation(ESCROW, chain) && Pass(q, t).ok
    ensures
      var after := Pass(q, t).tables.escrows;
      && (forall n :: LastCreated(E.RULES, EOps(q), n, id) ==>
            id in after && after[id].amount == EOps(q)[n].made.amount + E.Deposits(EOps(q)[n + 1..], id))
      && (Pass(q, EMPTY).ok && E.HasRefund(EOps(q), id) ==>
            Get(after, id) == Get(Pass(q, EMPTY).tables.escrows, id))
  {
    BeginsPrefix(ESCROW, q, chain);
    DecodedRowsFresh(q);
    PassFolds(q, t);
    PassFolds(q, EMPTY);
    forall n | LastCreated(E.RULES, EOps(q), n, id)
      ensures
        var after := Fold(E.RULES, EOps(q), t.escrows);
        id in after && after[id].amount == EOps(q)[n].made.amount + E.Deposits(EOps(q)[n + 1..], id)
    {
      E.AmountLaw(EOps(q), t.escrows, id, n);
    }
    if Pass(q, EMPTY).ok && E.HasRefund(EOps(q), id) {
      E.RefundForgetsPast(EOps(q), t.escrows, id);
    }
  }

  /**
   In any run, after a completed ingest amount counts once each deposit of what its pass got through, and a
   row with a refund in that part is exact, whether or not the pass then stopped at an event.
   */
  lemma EscrowAfterIngest(states: seq<Sys>, steps: seq<Step>, i: nat, c: string, k: nat, id: string)
    requires IsRun(states, steps) && i < |steps| && steps[i] == Ingest(c, k)
    requires c in states[i].feeds && states[i].feeds[c].fork.None? && Completes(states[i], c, k)
    requires states[i].feeds[c].name == ESCROW && BeginsWithCreation(ESCROW, states[i].feeds[c].chain)
    ensures
      var q, t := UpTo(states[i].feeds[c].chain, Floor(states[i])), states[i + 1].db.tables.escrows;
      var p := q[..Pass(q, states[i].db.tables).done];
      && (forall n :: LastCreated(E.RULES, EOps(p), n, id) ==>
            id in t && t[id].amount == EOps(p)[n].made.amount + E.Deposits(EOps(p)[n + 1..], id))
      && (Pass(p, EMPTY).ok && E.HasRefund(EOps(p), id) ==>
            Get(t, id) == Get(Pass(p, EMPTY).tables.escrows, id))
  {
    var s, f := states[i], states[i].feeds[c];
    var q := UpTo(f.chain, Floor(s));
    ReachableStore(states, steps, i);
    assert FollowsAt(states, steps, i);
    CompletedPass(s, c, k);
    PassCut(q, s.db.tables);
    EscrowPass(q[..Pass(q, s.db.tables).done], f.chain, s.db.tables, id);
  }

  /** The contract is neither rewound nor forked, and its ingests get at least to their cursor write. */
  ghost predicate Steady(states: seq<Sys>, steps: seq<Step>, c: string)
    requires |states| == |steps| + 1
  {
    forall i :: 0 <= i < |steps| ==> SteadyStep(states[i], steps[i], c)
  }

  ghost predicate SteadyStep(s: Sys, step: Step, c: string) {
    match step
    case Ingest(d, k) => d == c && c in s.feeds ==> k > |Batch(s, c)|
    case Rewind(d, _) => d != c
    case Fork(d, _, _) => d != c
    case _ => true
  }

  function PulledBy(s: Sys, step: Step, c: string): seq<ChainEvent> {
    if step.Ingest? && step.contract == c && c in s.feeds then Batch(s, c) else []
  }

  /** Everything the contract's ingests have pulled, in order, up to the n-th state. */
  function PulledSoFar(states: seq<Sys>, steps: seq<Step>, c: string, n: nat): seq<ChainEvent>
    requires |states| == |steps| + 1 && n <= |steps|
  {
    if n == 0 then []
    else PulledSoFar(states, steps, c, n - 1) + PulledBy(states[n - 1], steps[n - 1], c)
  }

  /** The batches so far are a prefix of the chain, the raw rows are that prefix, the cursor its end. */
  ghost predicate HasPulled(db: Db, c: string, chain: seq<ChainEvent>, pulled: seq<ChainEvent>) {
    pulled <= chain && StoreAt(db, c, chain, |pulled|, |pulled|)
  }

  lemma PullsRest(db: Db, c: string, name: string, chain: seq<ChainEvent>, floor: int, k: nat, before: seq<ChainEvent>)
    requires ValidChain(chain, c, name) && HasPulled(db, c, chain, before)
    requires k > |Pulled(db, c, chain)|
    ensures
      var batch := Pulled(db, c, chain);
      HasPulled(Ingested(db, c, batch, floor, k), c, chain, before + batch)
  {
    IngestStore(db, c, name, chain, floor, k, |before|, |before|);
    assert before + chain[|before|..] == chain;
  }

  lemma PulledCarries(a: Db, b: Db, c: string, chain: seq<ChainEvent>, longer: seq<ChainEvent>, pulled: seq<ChainEvent>)
    requires SameStore(c, a, b) && HasPulled(b, c, chain, pulled) && chain <= longer
    ensures HasPulled(a, c, longer, pulled)
  {
    var j := |pulled|;
    HoldsCarries(a.events, b.events, c, chain, longer, j);
    assert j > 0 ==> longer[j - 1] == chain[j - 1];
  }

  lemma SteadyIngest(s: Sys, c: string, k: nat, before: seq<ChainEvent>)
    requires StoreOk(s) && c in s.feeds && k > |Batch(s, c)|
    requires HasPulled(s.db, c, s.feeds[c].chain, before)
    ensures
      var t := Next(s, Ingest(c, k));
      c in t.feeds && HasPulled(t.db, c, t.feeds[c].chain, before + Batch(s, c))
  {
    assert FeedOk(s.db, c, s.feeds[c]);
    IngestNext(s, c, k);
    PullsRest(s.db, c, s.feeds[c].name, s.feeds[c].chain, Floor(s), k, before);
  }

  lemma SteadyOther(s: Sys, step: Step, c: string, pulled: seq<ChainEvent>)
    requires StoreOk(s) && Legal(s, step) && c in s.feeds && SteadyStep(s, step, c)
    requires !(step.Ingest? && step.contract == c)
    requires HasPulled(s.db, c, s.feeds[c].chain, pulled)
    ensures
      var t := Next(s, step);
      c in t.feeds && HasPulled(t.db, c, t.feeds[c].chain, pulled)
  {
    var t, chain := Next(s, step), s.feeds[c].chain;
    FeedStep(s, step, c);
    if step.Ingest? {
      IngestNext(s, step.contract, step.k);
      OtherIngestView(s, c, step.contract, step.k);
    } else if step.Rewind? {
      OtherRewindView(s.db, step.contract, step.fromLedger, c);
    }
    PulledCarries(t.db, s.db, c, chain, t.feeds[c].chain, pulled);
  }

  lemma PulledStep(s: Sys, step: Step, c: string, before: seq<ChainEvent>)
    requires StoreOk(s) && Legal(s, step) && c in s.feeds && SteadyStep(s, step, c)
    requires HasPulled(s.db, c, s.feeds[c].chain, before)
    ensures
      var t := Next(s, step);
      c in t.feeds && HasPulled(t.db, c, t.feeds[c].chain, before + PulledBy(s, step, c))
  {
    if step.Ingest? && step.contract == c {
      SteadyIngest(s, c, step.k, before);
    } else {
      assert before + [] == before;
      SteadyOther(s, step, c, before);
    }
  }

  lemma NothingPulled(s: Sys, c: string)
    requires Initial(s) && c in s.feeds
    ensures HasPulled(s.db, c, s.feeds[c].chain, [])
  {
    assert NewFeed(c, s.feeds[c]);
    assert StoreAt(s.db, c, s.feeds[c].chain, 0, 0);
  }

  /**
   Batching independence: however growth and ingests interleave, the batches laid end to end
   are the chain up to the cursor, each event once and in order, and the raw rows are exactly those.
   */
  lemma {:induction false} PulledOnceInOrder(states: seq<Sys>, steps: seq<Step>, c: string, n: nat)
    requires IsRun(states, steps) && Steady(states, steps, c) && n <= |steps|
    requires c in states[0].feeds
    ensures c in states[n].feeds
    ensures HasPulled(states[n].db, c, states[n].feeds[c].chain, PulledSoFar(states, steps, c, n))
  {
    if n == 0 {
      NothingPulled(states[0], c);
    } else {
      PulledOnceInOrder(states, steps, c, n - 1);
      ReachableStore(states, steps, n - 1);
      assert FollowsAt(states, steps, n - 1);
      assert SteadyStep(states[n - 1], steps[n - 1], c);
      PulledStep(states[n - 1], steps[n - 1], c, PulledSoFar(states, steps, c, n - 1));
    }
  }
}
