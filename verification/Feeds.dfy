/**
 One contract's source, raw rows and cursor, and what holds between them: in the ordinary
 course, and after its chain has forked under rows that nobody has rewound yet.
 */
module Feeds {
  import opened Wrappers
  import opened Model
  import opened Store
  import opened Ingestion

  /**
   `fork` is the lowest ledger at which the chain has been replaced since the last rewind that
   reached it. `floor` and `passes` record history: the highest floor a projection pass used, and
   the events each pass got through.
   */
  datatype Feed = Feed(name: string, chain: seq<ChainEvent>, fork: Option<int>, floor: Option<int>,
                       passes: seq<seq<ChainEvent>>)

  ghost predicate ValidChain(chain: seq<ChainEvent>, contract: string, name: string) {
    && Ordered(chain)
    && Belongs(chain, contract, name)
    && forall e :: e in chain ==> e.Position().IsAfter(START)
  }

  /** Two chains hold the same events below a ledger. */
  ghost predicate AgreeBelow(chain: seq<ChainEvent>, fork: seq<ChainEvent>, ledger: int) {
    UpTo(fork, ledger - 1) == UpTo(chain, ledger - 1)
  }

  /** The store holds the first `m` events of the chain and the cursor stands at the j-th. */
  ghost predicate StoreAt(db: Db, c: string, chain: seq<ChainEvent>, m: int, j: int) {
    && 0 <= j <= m <= |chain|
    && HoldsPrefix(db.events, c, chain, m)
    && CursorOf(db.cursors, c) == Mark(chain, j)
  }

  ghost predicate InSync(db: Db, c: string, chain: seq<ChainEvent>) {
    exists m, j :: StoreAt(db, c, chain, m, j)
  }

  /** The rows below the ledger are the first `m` events; the cursor is past it, or stands at the j-th. */
  ghost predicate BehindAt(db: Db, c: string, chain: seq<ChainEvent>, ledger: int, m: int, j: int) {
    && 0 <= j <= m <= |chain|
    && HoldsPrefix(DropFrom(db.events, c, ledger), c, chain, m)
    && (CursorOf(db.cursors, c).ledger >= ledger || CursorOf(db.cursors, c) == Mark(chain, j))
  }

  /** Forked at the ledger and not yet rewound: from the ledger on, old and new rows may mix. */
  ghost predicate Behind(db: Db, c: string, chain: seq<ChainEvent>, ledger: int) {
    exists m, j :: BehindAt(db, c, chain, ledger, m, j)
  }

  ghost predicate Stands(db: Db, c: string, chain: seq<ChainEvent>, fork: Option<int>) {
    match fork
    case Some(ledger) => Behind(db, c, chain, ledger)
    case None => InSync(db, c, chain)
  }

  ghost predicate FeedOk(db: Db, c: string, f: Feed) {
    ValidChain(f.chain, c, f.name) && NamedRows(c, f.name, db.events) && Stands(db, c, f.chain, f.fork)
  }

  /** From a mark of the chain, the first `n` pulled events are the next `n` of it. */
  lemma PulledSlice(db: Db, c: string, name: string, chain: seq<ChainEvent>, j: nat, n: nat)
    requires ValidChain(chain, c, name) && j <= |chain| && CursorOf(db.cursors, c) == Mark(chain, j)
    requires j + n <= |chain| || n <= |Pulled(db, c, chain)|
    ensures Pulled(db, c, chain) == chain[j..] && |Pulled(db, c, chain)| == |chain| - j
    ensures Pulled(db, c, chain)[..n] == chain[j..j + n]
    ensures j < |chain| ==> Pulled(db, c, chain)[|chain| - j - 1] == chain[|chain| - 1]
  {
    AfterMark(chain, j);
  }

  lemma CursorAfter(db: Db, c: string, batch: seq<ChainEvent>, floor: int, k: nat)
    ensures
      var t := Ingested(db, c, batch, floor, k);
      if k <= |batch| then t.events == AppendAll(db.events, batch[..k]) && t.cursors == db.cursors
      else
        && t.events == AppendAll(db.events, batch)
        && CursorOf(t.cursors, c) == if batch == [] then CursorOf(db.cursors, c) else batch[|batch| - 1].Position()
  {
  }

  lemma CutStore(db: Db, c: string, name: string, chain: seq<ChainEvent>, floor: int, k: nat, m: int, j: int)
    requires ValidChain(chain, c, name) && StoreAt(db, c, chain, m, j) && j + k <= |chain|
    ensures StoreAt(Ingested(db, c, chain[j..], floor, k), c, chain, Max(m, j + k), j)
  {
    CursorAfter(db, c, chain[j..], floor, k);
    assert chain[j..][..k] == chain[j..j + k];
    AppendKeepsPrefix(db.events, c, chain, m, j, j + k);
  }

  lemma PastStore(db: Db, c: string, name: string, chain: seq<ChainEvent>, floor: int, k: nat, m: int, j: int)
    requires ValidChain(chain, c, name) && StoreAt(db, c, chain, m, j) && j + k > |chain|
    ensures StoreAt(Ingested(db, c, chain[j..], floor, k), c, chain, |chain|, |chain|)
  {
    CursorAfter(db, c, chain[j..], floor, k);
    assert chain[j..|chain|] == chain[j..];
    AppendKeepsPrefix(db.events, c, chain, m, j, |chain|);
  }

  /** Where an ingest leaves the store and the cursor, wherever it is cut. */
  lemma IngestStore(db: Db, c: string, name: string, chain: seq<ChainEvent>, floor: int, k: nat, m: int, j: int)
    requires ValidChain(chain, c, name) && StoreAt(db, c, chain, m, j)
    ensures Pulled(db, c, chain) == chain[j..]
    ensures
      var t := Ingested(db, c, chain[j..], floor, k);
      if k <= |chain| - j then StoreAt(t, c, chain, Max(m, j + k), j)
      else StoreAt(t, c, chain, |chain|, |chain|)
  {
    AfterMark(chain, j);
    if k <= |chain| - j {
      CutStore(db, c, name, chain, floor, k, m, j);
    } else {
      PastStore(db, c, name, chain, floor, k, m, j);
    }
  }

  lemma SyncIngests(db: Db, c: string, name: string, chain: seq<ChainEvent>, floor: int, k: nat)
    requires ValidChain(chain, c, name) && InSync(db, c, chain)
    ensures InSync(Ingested(db, c, Pulled(db, c, chain), floor, k), c, chain)
  {
    var m, j :| StoreAt(db, c, chain, m, j);
    IngestStore(db, c, name, chain, floor, k, m, j);
  }

  /** A cursor past the ledger pulls nothing from below it. */
  lemma PulledHigh(db: Db, c: string, name: string, chain: seq<ChainEvent>, ledger: int)
    requires ValidChain(chain, c, name) && CursorOf(db.cursors, c).ledger >= ledger
    ensures forall e :: e in Pulled(db, c, chain) ==> e.contractId == c && e.ledger >= ledger
  {
    AfterOnly(chain, CursorOf(db.cursors, c));
  }

  lemma {:induction false} AfterOnly(chain: seq<ChainEvent>, cursor: Cursor)
    ensures forall e :: e in After(chain, cursor) ==> e in chain && e.Position().IsAfter(cursor)
  {
    if chain != [] {
      AfterOnly(chain[..|chain| - 1], cursor);
    }
  }

  lemma StretchSides(chain: seq<ChainEvent>, c: string, name: string, ledger: int, j: int, lo: int, hi: int)
    requires ValidChain(chain, c, name) && 0 <= j <= lo <= hi <= |chain|
    requires lo <= |UpTo(chain, ledger - 1)| && (lo < hi ==> lo == |UpTo(chain, ledger - 1)|)
    ensures forall e :: e in chain[j..lo] ==> e.ledger < ledger
    ensures forall e :: e in chain[lo..hi] ==> e.contractId == c && e.ledger >= ledger
  {
    UpToExact(chain, ledger - 1);
    forall e | e in chain[lo..hi] ensures e.contractId == c && e.ledger >= ledger {
      var i :| lo <= i < hi && chain[i] == e;
      assert e in chain;
    }
  }

  /** Appending a stretch of the chain shows below the ledger as the part of it that lies there. */
  lemma AppendStretch(events: Events, c: string, name: string, chain: seq<ChainEvent>, ledger: int,
                      j: int, lo: int, hi: int)
    requires ValidChain(chain, c, name) && 0 <= j <= lo <= hi <= |chain|
    requires lo <= |UpTo(chain, ledger - 1)| && (lo < hi ==> lo == |UpTo(chain, ledger - 1)|)
    ensures
      DropFrom(AppendAll(events, chain[j..hi]), c, ledger) == AppendAll(DropFrom(events, c, ledger), chain[j..lo])
  {
    StretchSides(chain, c, name, ledger, j, lo, hi);
    assert chain[j..hi] == chain[j..lo] + chain[lo..hi];
    AppendSplit(events, chain[j..lo], chain[lo..hi]);
    AppendHigh(AppendAll(events, chain[j..lo]), c, chain[lo..hi], ledger);
    AppendLow(events, c, chain[j..lo], ledger);
  }

  lemma AppendAcross(events: Events, c: string, name: string, chain: seq<ChainEvent>, ledger: int,
                     m: int, j: int, hi: int)
    requires ValidChain(chain, c, name) && 0 <= j <= m && j <= hi <= |chain|
    requires HoldsPrefix(DropFrom(events, c, ledger), c, chain, m)
    ensures
      HoldsPrefix(DropFrom(AppendAll(events, chain[j..hi]), c, ledger), c, chain,
                  Max(m, Min(hi, |UpTo(chain, ledger - 1)|)))
  {
    RowsBelow(events, c, chain, ledger, m);
    var lo := Min(hi, |UpTo(chain, ledger - 1)|);
    AppendStretch(events, c, name, chain, ledger, j, lo, hi);
    AppendKeepsPrefix(DropFrom(events, c, ledger), c, chain, m, j, lo);
  }

  lemma RowsBelow(events: Events, c: string, chain: seq<ChainEvent>, ledger: int, m: int)
    requires Ordered(chain) && HoldsPrefix(DropFrom(events, c, ledger), c, chain, m)
    ensures m <= |UpTo(chain, ledger - 1)|
  {
    UpToExact(chain, ledger - 1);
    if m > 0 {
      assert Stored(DropFrom(events, c, ledger), c, chain[m - 1]);
    }
  }

  /** The last pulled event lies from the ledger on, or ends a chain that is all below it. */
  ghost predicate EndsWell(batch: seq<ChainEvent>, chain: seq<ChainEvent>, ledger: int, reach: int)
    requires batch != []
  {
    var last := batch[|batch| - 1];
    last.ledger >= ledger || (reach == |chain| && last.Position() == Mark(chain, |chain|))
  }

  lemma HighAppends(db: Db, c: string, name: string, chain: seq<ChainEvent>, ledger: int, m: int, j: int, n: nat)
    requires ValidChain(chain, c, name) && BehindAt(db, c, chain, ledger, m, j)
    requires CursorOf(db.cursors, c).ledger >= ledger && n <= |Pulled(db, c, chain)|
    ensures HoldsPrefix(DropFrom(AppendAll(db.events, Pulled(db, c, chain)[..n]), c, ledger), c, chain, m)
    ensures Pulled(db, c, chain) != [] ==> EndsWell(Pulled(db, c, chain), chain, ledger, m)
  {
    var batch := Pulled(db, c, chain);
    PulledHigh(db, c, name, chain, ledger);
    assert forall e :: e in batch[..n] ==> e in batch;
    AppendHigh(db.events, c, batch[..n], ledger);
    assert batch != [] ==> batch[|batch| - 1] in batch;
  }

  lemma LowRows(events: Events, c: string, name: string, chain: seq<ChainEvent>, ledger: int, m: int, j: int, hi: int)
    returns (reach: int)
    requires ValidChain(chain, c, name) && 0 <= j <= m && j <= hi <= |chain|
    requires HoldsPrefix(DropFrom(events, c, ledger), c, chain, m)
    ensures m <= reach
    ensures HoldsPrefix(DropFrom(AppendAll(events, chain[j..hi]), c, ledger), c, chain, reach)
    ensures hi == |chain| > 0 ==> chain[|chain| - 1].ledger >= ledger || reach == |chain|
  {
    reach := Max(m, Min(hi, |UpTo(chain, ledger - 1)|));
    AppendAcross(events, c, name, chain, ledger, m, j, hi);
    RowsBelow(events, c, chain, ledger, m);
    LastEvent(chain, ledger);
  }

  lemma LowEnds(batch: seq<ChainEvent>, chain: seq<ChainEvent>, ledger: int, reach: int)
    requires batch != [] && chain != [] && batch[|batch| - 1] == chain[|chain| - 1]
    requires chain[|chain| - 1].ledger >= ledger || reach == |chain|
    ensures EndsWell(batch, chain, ledger, reach)
  {
  }

  lemma LowAppends(events: Events, c: string, name: string, chain: seq<ChainEvent>, ledger: int, m: int, j: nat,
                   n: nat, part: seq<ChainEvent>)
    returns (reach: int)
    requires ValidChain(chain, c, name) && j <= m && j + n <= |chain| && part == chain[j..j + n]
    requires HoldsPrefix(DropFrom(events, c, ledger), c, chain, m)
    ensures m <= reach && HoldsPrefix(DropFrom(AppendAll(events, part), c, ledger), c, chain, reach)
    ensures j + n == |chain| > 0 ==> chain[|chain| - 1].ledger >= ledger || reach == |chain|
  {
    reach := LowRows(events, c, name, chain, ledger, m, j, j + n);
  }

  /** The first `n` pulled events, appended while the fork stands: how far the rows below it then reach. */
  lemma BehindAppends(db: Db, c: string, name: string, chain: seq<ChainEvent>, ledger: int, m: int, j: int, n: nat)
    returns (reach: int)
    requires ValidChain(chain, c, name) && BehindAt(db, c, chain, ledger, m, j)
    requires n <= |Pulled(db, c, chain)|
    ensures m <= reach
    ensures HoldsPrefix(DropFrom(AppendAll(db.events, Pulled(db, c, chain)[..n]), c, ledger), c, chain, reach)
    ensures n == |Pulled(db, c, chain)| > 0 ==> EndsWell(Pulled(db, c, chain), chain, ledger, reach)
  {
    var batch := Pulled(db, c, chain);
    if CursorOf(db.cursors, c).ledger >= ledger {
      HighAppends(db, c, name, chain, ledger, m, j, n);
      reach := m;
    } else {
      PulledSlice(db, c, name, chain, j, n);
      reach := LowAppends(db.events, c, name, chain, ledger, m, j, n, batch[..n]);
      if n == |batch| > 0 {
        LowEnds(batch, chain, ledger, reach);
      }
    }
  }

  lemma LastEvent(chain: seq<ChainEvent>, ledger: int)
    requires Ordered(chain)
    ensures chain != [] ==> chain[|chain| - 1].ledger >= ledger || |UpTo(chain, ledger - 1)| == |chain|
  {
    UpToExact(chain, ledger - 1);
  }

  lemma BehindCut(db: Db, c: string, name: string, chain: seq<ChainEvent>, ledger: int, m: int, j: int, t: Db, n: nat)
    requires ValidChain(chain, c, name) && BehindAt(db, c, chain, ledger, m, j)
    requires n <= |Pulled(db, c, chain)|
    requires t.events == AppendAll(db.events, Pulled(db, c, chain)[..n])
    requires CursorOf(t.cursors, c) == CursorOf(db.cursors, c)
    ensures Behind(t, c, chain, ledger)
  {
    var reach := BehindAppends(db, c, name, chain, ledger, m, j, n);
    assert BehindAt(t, c, chain, ledger, reach, j);
  }

  lemma BehindPast(db: Db, c: string, name: string, chain: seq<ChainEvent>, ledger: int, m: int, j: int, t: Db)
    requires ValidChain(chain, c, name) && BehindAt(db, c, chain, ledger, m, j)
    requires Pulled(db, c, chain) != []
    requires t.events == AppendAll(db.events, Pulled(db, c, chain))
    requires CursorOf(t.cursors, c) == Pulled(db, c, chain)[|Pulled(db, c, chain)| - 1].Position()
    ensures Behind(t, c, chain, ledger)
  {
    var batch := Pulled(db, c, chain);
    assert batch[..|batch|] == batch;
    var reach := BehindAppends(db, c, name, chain, ledger, m, j, |batch|);
    EndsBehind(t, c, chain, ledger, batch, reach);
  }

  lemma EndsBehind(t: Db, c: string, chain: seq<ChainEvent>, ledger: int, batch: seq<ChainEvent>, reach: int)
    requires batch != [] && EndsWell(batch, chain, ledger, reach)
    requires 0 <= reach && HoldsPrefix(DropFrom(t.events, c, ledger), c, chain, reach)
    requires CursorOf(t.cursors, c) == batch[|batch| - 1].Position()
    ensures Behind(t, c, chain, ledger)
  {
    if batch[|batch| - 1].ledger >= ledger {
      assert BehindAt(t, c, chain, ledger, reach, 0);
    } else {
      assert BehindAt(t, c, chain, ledger, reach, reach);
    }
  }

  /** An ingest, cut or whole, keeps the rows below a standing fork a prefix of the new chain. */
  lemma BehindIngests(db: Db, c: string, name: string, chain: seq<ChainEvent>, ledger: int, floor: int, k: nat)
    requires ValidChain(chain, c, name) && Behind(db, c, chain, ledger)
    ensures Behind(Ingested(db, c, Pulled(db, c, chain), floor, k), c, chain, ledger)
  {
    var m, j :| BehindAt(db, c, chain, ledger, m, j);
    var batch := Pulled(db, c, chain);
    var t := Ingested(db, c, batch, floor, k);
    CursorAfter(db, c, batch, floor, k);
    if k <= |batch| {
      BehindCut(db, c, name, chain, ledger, m, j, t, k);
    } else if batch != [] {
      BehindPast(db, c, name, chain, ledger, m, j, t);
    }
  }

  lemma DropKeepsPrefix(events: Events, c: string, chain: seq<ChainEvent>, m: int, ledger: int, fork: seq<ChainEvent>)
    requires Ordered(chain) && Ordered(fork) && HoldsPrefix(events, c, chain, m)
    requires AgreeBelow(chain, fork, ledger)
    ensures HoldsPrefix(DropFrom(events, c, ledger), c, fork, Min(m, |UpTo(chain, ledger - 1)|))
  {
    var kept := UpTo(chain, ledger - 1);
    var n := Min(m, |kept|);
    var after := DropFrom(events, c, ledger);
    UpToExact(chain, ledger - 1);
    assert kept <= chain && kept <= fork;
    forall i | 0 <= i < n ensures Stored(after, c, fork[i]) {
      assert fork[i] == kept[i] == chain[i];
      assert Stored(events, c, chain[i]);
    }
    forall k | k in after && k.contractId == c ensures Occupied(fork, n, k.position) {
      assert Occupied(chain, m, k.position);
      var i :| 0 <= i < m && chain[i].Position() == k.position;
      assert chain[i].ledger < ledger;
      assert fork[i] == kept[i] == chain[i];
    }
  }

  lemma MarkCarries(chain: seq<ChainEvent>, fork: seq<ChainEvent>, ledger: int, j: nat)
    requires Ordered(chain) && AgreeBelow(chain, fork, ledger) && j <= |chain|
    requires Mark(chain, j).ledger < ledger
    ensures j <= |UpTo(chain, ledger - 1)| <= |fork| && Mark(fork, j) == Mark(chain, j)
  {
    var kept := UpTo(chain, ledger - 1);
    UpToExact(chain, ledger - 1);
    assert kept <= chain && kept <= fork;
    if j > 0 {
      assert fork[j - 1] == kept[j - 1] == chain[j - 1];
    }
  }

  /** Rows that match the chain below some ledger match a fork of it below the fork's own ledger. */
  lemma ForkFrom(db: Db, rows: Events, c: string, chain: seq<ChainEvent>, m: int, j: int, ledger: int,
                 fork: seq<ChainEvent>)
    requires Ordered(chain) && Ordered(fork) && AgreeBelow(chain, fork, ledger)
    requires 0 <= j <= m && HoldsPrefix(rows, c, chain, m)
    requires DropFrom(rows, c, ledger) == DropFrom(db.events, c, ledger)
    requires CursorOf(db.cursors, c).ledger >= ledger || CursorOf(db.cursors, c) == Mark(chain, j)
    ensures Behind(db, c, fork, ledger)
  {
    DropKeepsPrefix(rows, c, chain, m, ledger, fork);
    var n := Min(m, |UpTo(chain, ledger - 1)|);
    if CursorOf(db.cursors, c).ledger >= ledger {
      assert BehindAt(db, c, fork, ledger, n, 0);
    } else {
      MarkCarries(chain, fork, ledger, j);
      assert BehindAt(db, c, fork, ledger, n, j);
    }
  }

  function Lowest(fork: Option<int>, ledger: int): int {
    match fork
    case Some(was) => Min(was, ledger)
    case None => ledger
  }

  lemma Forks(db: Db, c: string, name: string, chain: seq<ChainEvent>, fork: Option<int>, ledger: int,
              next: seq<ChainEvent>)
    requires ValidChain(chain, c, name) && ValidChain(next, c, name) && AgreeBelow(chain, next, ledger)
    requires Stands(db, c, chain, fork)
    ensures Behind(db, c, next, Lowest(fork, ledger))
  {
    match fork
    case None =>
      var m, j :| StoreAt(db, c, chain, m, j);
      ForkFrom(db, db.events, c, chain, m, j, ledger, next);
    case Some(was) =>
      var lowest := Lowest(fork, ledger);
      var m, j :| BehindAt(db, c, chain, was, m, j);
      DropTwice(db.events, c, was, lowest);
      SameBelow(chain, next, ledger - 1, lowest - 1);
      ForkFrom(db, DropFrom(db.events, c, was), c, chain, m, j, lowest, next);
  }

  /** What a rewind from the ledger leaves of a standing fork. */
  function Healed(fork: Option<int>, ledger: int): Option<int> {
    match fork
    case Some(at) => if ledger <= at then None else fork
    case None => None
  }

  /** A rewind that reaches the fork puts store and chain back in step. */
  lemma Rewinds(db: Db, c: string, name: string, chain: seq<ChainEvent>, fork: Option<int>, ledger: int)
    requires ValidChain(chain, c, name) && Stands(db, c, chain, fork)
    ensures Stands(Rewound(db, c, ledger), c, chain, Healed(fork, ledger))
  {
    var t := Rewound(db, c, ledger);
    var below := |UpTo(chain, ledger - 1)|;
    match fork
    case None =>
      var m, j :| StoreAt(db, c, chain, m, j);
      DropKeepsPrefix(db.events, c, chain, m, ledger, chain);
      assert StoreAt(t, c, chain, Min(m, below), 0);
    case Some(at) =>
      var m, j :| BehindAt(db, c, chain, at, m, j);
      if ledger <= at {
        DropKeepsPrefix(DropFrom(db.events, c, at), c, chain, m, ledger, chain);
        DropTwice(db.events, c, at, ledger);
        assert StoreAt(t, c, chain, Min(m, below), 0);
      } else {
        DropTwice(db.events, c, ledger, at);
        assert BehindAt(t, c, chain, at, m, 0);
      }
  }

  lemma HoldsCarries(a: Events, b: Events, c: string, chain: seq<ChainEvent>, longer: seq<ChainEvent>, m: int)
    requires SameStored(c, a, b) && HoldsPrefix(b, c, chain, m) && chain <= longer
    ensures HoldsPrefix(a, c, longer, m)
  {
    forall i | 0 <= i < m ensures Stored(a, c, longer[i]) {
      assert longer[i] == chain[i] && Stored(b, c, chain[i]);
    }
    forall k | k in a && k.contractId == c ensures Occupied(longer, m, k.position) {
      assert Occupied(chain, m, k.position);
      var i :| 0 <= i < m && chain[i].Position() == k.position;
      assert longer[i] == chain[i];
    }
  }

  lemma DropCarries(a: Events, b: Events, c: string, ledger: int)
    requires SameStored(c, a, b)
    ensures SameStored(c, DropFrom(a, c, ledger), DropFrom(b, c, ledger))
  {
  }

  /** What is said of a contract rests on its own rows and cursor, and survives a longer chain. */
  lemma StandsCarries(a: Db, b: Db, c: string, chain: seq<ChainEvent>, longer: seq<ChainEvent>, fork: Option<int>)
    requires SameStore(c, a, b) && Stands(b, c, chain, fork) && chain <= longer
    ensures Stands(a, c, longer, fork)
  {
    match fork
    case None =>
      var m, j :| StoreAt(b, c, chain, m, j);
      HoldsCarries(a.events, b.events, c, chain, longer, m);
      assert j > 0 ==> longer[j - 1] == chain[j - 1];
      assert StoreAt(a, c, longer, m, j);
    case Some(ledger) =>
      var m, j :| BehindAt(b, c, chain, ledger, m, j);
      DropCarries(a.events, b.events, c, ledger);
      HoldsCarries(DropFrom(a.events, c, ledger), DropFrom(b.events, c, ledger), c, chain, longer, m);
      assert j > 0 ==> longer[j - 1] == chain[j - 1];
      assert BehindAt(a, c, longer, ledger, m, j);
  }

  lemma NamedCarries(a: Events, b: Events, c: string, name: string)
    requires SameStored(c, a, b) && NamedRows(c, name, b)
    ensures NamedRows(c, name, a)
  {
    forall k | k in a && k.contractId == c ensures a[k].contractName == name {
      assert k in b && a[k] == b[k];
    }
  }

  lemma FeedBeside(a: Db, b: Db, c: string, f: Feed)
    requires FeedOk(b, c, f) && SameStore(c, a, b)
    ensures FeedOk(a, c, f)
  {
    NamedCarries(a.events, b.events, c, f.name);
    StandsCarries(a, b, c, f.chain, f.chain, f.fork);
  }

  lemma FeedGrows(db: Db, c: string, f: Feed, longer: seq<ChainEvent>)
    requires FeedOk(db, c, f) && f.chain <= longer && ValidChain(longer, c, f.name)
    ensures FeedOk(db, c, f.(chain := longer))
  {
    StandsCarries(db, db, c, f.chain, longer, f.fork);
  }

  lemma FeedIngests(db: Db, c: string, f: Feed, floor: int, k: nat)
    requires FeedOk(db, c, f)
    ensures Belongs(Pulled(db, c, f.chain), c, f.name)
    ensures FeedOk(Ingested(db, c, Pulled(db, c, f.chain), floor, k), c, f)
  {
    AfterSubset(f.chain, CursorOf(db.cursors, c));
    IngestNamed(db, c, f.name, Pulled(db, c, f.chain), floor, k);
    match f.fork
    case None => SyncIngests(db, c, f.name, f.chain, floor, k);
    case Some(ledger) => BehindIngests(db, c, f.name, f.chain, ledger, floor, k);
  }

  lemma FeedRewinds(db: Db, c: string, f: Feed, ledger: int)
    requires FeedOk(db, c, f)
    ensures FeedOk(Rewound(db, c, ledger), c, f.(fork := Healed(f.fork, ledger)))
  {
    Rewinds(db, c, f.name, f.chain, f.fork, ledger);
  }

  lemma FeedForks(db: Db, c: string, f: Feed, ledger: int, next: seq<ChainEvent>)
    requires FeedOk(db, c, f) && ValidChain(next, c, f.name) && AgreeBelow(f.chain, next, ledger)
    ensures FeedOk(db, c, f.(chain := next, fork := Some(Lowest(f.fork, ledger))))
  {
    Forks(db, c, f.name, f.chain, f.fork, ledger, next);
  }

  lemma StoresWhole(db: Db, c: string, name: string, chain: seq<ChainEvent>)
    requires ValidChain(chain, c, name) && InSync(db, c, chain)
    ensures HoldsPrefix(AppendAll(db.events, Pulled(db, c, chain)), c, chain, |chain|)
  {
    var m, j :| StoreAt(db, c, chain, m, j);
    AfterMark(chain, j);
    AppendKeepsPrefix(db.events, c, chain, m, j, |chain|);
    assert chain[j..|chain|] == chain[j..];
  }

  /** In sync, the finalized list read by an ingest is the finalized prefix of the whole chain. */
  lemma ReplaysFinalized(db: Db, c: string, name: string, chain: seq<ChainEvent>, floor: int)
    requires ValidChain(chain, c, name) && InSync(db, c, chain)
    ensures ToReplay(db, c, Pulled(db, c, chain), floor) == UpTo(chain, floor)
  {
    StoresWhole(db, c, name, chain);
    FinalizedIsUpTo(AppendAll(db.events, Pulled(db, c, chain)), c, chain, |chain|, floor);
    assert chain[..|chain|] == chain;
  }

  /** Under a standing fork, a floor below it still reads finalized events of the new chain only. */
  lemma ReplaysBelowFork(db: Db, c: string, name: string, chain: seq<ChainEvent>, ledger: int, floor: int)
    requires ValidChain(chain, c, name) && Behind(db, c, chain, ledger) && floor < ledger
    ensures ToReplay(db, c, Pulled(db, c, chain), floor) <= UpTo(chain, floor)
  {
    var m, j :| BehindAt(db, c, chain, ledger, m, j);
    var batch := Pulled(db, c, chain);
    var stored := AppendAll(db.events, batch);
    var reach := BehindAppends(db, c, name, chain, ledger, m, j, |batch|);
    assert batch[..|batch|] == batch;
    FinalizedBelow(stored, c, ledger, floor);
    FinalizedIsUpTo(DropFrom(stored, c, ledger), c, chain, reach, floor);
    UpToGrows(chain[..reach], chain, floor, floor);
  }

  lemma SameBelow(a: seq<ChainEvent>, b: seq<ChainEvent>, floor: int, lower: int)
    requires Ordered(a) && Ordered(b) && lower <= floor && UpTo(a, floor) == UpTo(b, floor)
    ensures UpTo(a, lower) == UpTo(b, lower)
  {
    UpToGrows(a, a, lower, floor);
    UpToGrows(b, b, lower, floor);
    UpToExact(a, lower);
    UpToExact(b, lower);
    var n, m := |UpTo(a, lower)|, |UpTo(b, lower)|;
    var common := UpTo(a, floor);
    assert common <= a && common <= b;
    assert n < |common| ==> a[n] == common[n] == b[n];
    assert m < |common| ==> a[m] == common[m] == b[m];
  }
}
