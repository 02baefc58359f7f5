/** The raw event store and the cursors, statement by statement. */
module Store {
  import opened Wrappers
  import opened Model

  /** The natural key of a stored event. */
  datatype EventKey = EventKey(contractId: string, position: Cursor)

  type Events = map<EventKey, ChainEvent>

  function KeyOf(e: ChainEvent): EventKey { EventKey(e.contractId, e.Position()) }

  /** INSERT ... ON CONFLICT DO NOTHING. */
  function AppendOne(events: Events, e: ChainEvent): Events {
    if KeyOf(e) in events then events else events[KeyOf(e) := e]
  }

  function AppendAll(events: Events, batch: seq<ChainEvent>): Events {
    if batch == [] then events
    else AppendOne(AppendAll(events, batch[..|batch| - 1]), batch[|batch| - 1])
  }

  function CursorOf(cursors: map<string, Cursor>, contract: string): Cursor {
    if contract in cursors then cursors[contract] else START
  }

  /** DELETE of the rows at or after a ledger. */
  function DropFrom(events: Events, contract: string, fromLedger: int): Events {
    map k | k in events && !(k.contractId == contract && k.position.ledger >= fromLedger) :: events[k]
  }

  ghost predicate IsLeast(p: Cursor, ps: set<Cursor>) {
    p in ps && forall q :: q in ps && q != p ==> q.IsAfter(p)
  }

  lemma {:induction false} LeastExists(ps: set<Cursor>)
    requires ps != {}
    ensures exists p :: IsLeast(p, ps)
    decreases |ps|
  {
    var p :| p in ps;
    if ps == {p} {
      assert IsLeast(p, ps);
    } else {
      LeastExists(ps - {p});
      var q :| IsLeast(q, ps - {p});
      if q.IsAfter(p) {
        assert forall r :: r in ps && r != p ==> r in ps - {p};
        assert IsLeast(p, ps);
      } else {
        assert forall r :: r in ps && r != q ==> r == p || r in ps - {p};
        assert IsLeast(q, ps);
      }
    }
  }

  ghost predicate Below(ps: seq<Cursor>, i: int, j: int)
    requires 0 <= i < |ps| && 0 <= j < |ps|
  {
    ps[j].IsAfter(ps[i])
  }

  ghost predicate Ascending(ps: seq<Cursor>) {
    forall i, j :: 0 <= i < j < |ps| ==> Below(ps, i, j)
  }

  lemma AscendingCons(p: Cursor, rest: seq<Cursor>)
    requires Ascending(rest)
    requires forall q :: q in rest ==> q.IsAfter(p)
    ensures Ascending([p] + rest)
  {
    var all := [p] + rest;
    forall i, j | 0 <= i < j < |all| ensures Below(all, i, j) {
      assert all[j] == rest[j - 1];
      if i > 0 {
        assert Below(rest, i - 1, j - 1);
      } else {
        assert rest[j - 1] in rest;
      }
    }
  }

  /** ORDER BY ledger, operation, event. */
  function SortPositions(ps: set<Cursor>): (r: seq<Cursor>)
    ensures forall p :: p in r <==> p in ps
    ensures Ascending(r)
  {
    if ps == {} then []
    else
      LeastExists(ps);
      var p :| p in ps && forall q :: q in ps && q != p ==> q.IsAfter(p);
      var rest := SortPositions(ps - {p});
      AscendingCons(p, rest);
      [p] + rest
  }

  lemma {:induction false} SortedUnique(a: seq<Cursor>, b: seq<Cursor>)
    requires Ascending(a) && Ascending(b)
    requires forall p :: p in a <==> p in b
    ensures a == b
  {
    assert (a != [] ==> a[0] in a) && (b != [] ==> b[0] in b);
    if a != [] {
      assert a[0] in b && b[0] in a;
      var i :| 0 <= i < |b| && b[i] == a[0];
      var j :| 0 <= j < |a| && a[j] == b[0];
      assert (i > 0 ==> Below(b, 0, i)) && (j > 0 ==> Below(a, 0, j));
      forall p ensures p in a[1..] <==> p in b[1..] {
        assert p in a <==> p == a[0] || p in a[1..];
        assert p in b <==> p == b[0] || p in b[1..];
        if p in a[1..] { FirstOnce(a, p); }
        if p in b[1..] { FirstOnce(b, p); }
      }
      AscendingTail(a);
      AscendingTail(b);
      SortedUnique(a[1..], b[1..]);
    }
  }

  lemma FirstOnce(a: seq<Cursor>, p: Cursor)
    requires Ascending(a) && a != [] && p in a[1..]
    ensures p != a[0]
  {
    var i :| 0 <= i < |a[1..]| && a[1..][i] == p;
    assert Below(a, 0, i + 1);
  }

  lemma AscendingTail(a: seq<Cursor>)
    requires Ascending(a) && a != []
    ensures Ascending(a[1..])
  {
    forall i, j | 0 <= i < j < |a[1..]| ensures Below(a[1..], i, j) {
      assert Below(a, i + 1, j + 1);
    }
  }

  function FinalizedPositions(events: Events, contract: string, floor: int): set<Cursor> {
    set k | k in events && k.contractId == contract && k.position.ledger <= floor :: k.position
  }

  /** The stored events of a contract at or below the floor, in chain order. */
  function Finalized(events: Events, contract: string, floor: int): seq<ChainEvent> {
    var ps := SortPositions(FinalizedPositions(events, contract, floor));
    seq(|ps|, i requires 0 <= i < |ps| =>
      assert ps[i] in ps;
      events[EventKey(contract, ps[i])])
  }

  ghost predicate Stored(events: Events, contract: string, e: ChainEvent) {
    var k := EventKey(contract, e.Position());
    k in events && events[k] == e
  }

  ghost predicate Occupied(chain: seq<ChainEvent>, m: int, p: Cursor)
    requires m <= |chain|
  {
    exists i :: 0 <= i < m && chain[i].Position() == p
  }

  /** The raw rows of a contract are exactly the first `m` events of its chain. */
  ghost predicate HoldsPrefix(events: Events, contract: string, chain: seq<ChainEvent>, m: int) {
    && 0 <= m <= |chain|
    && (forall i :: 0 <= i < m ==> Stored(events, contract, chain[i]))
    && (forall k :: k in events && k.contractId == contract ==> Occupied(chain, m, k.position))
  }

  lemma FinalizedIsUpTo(events: Events, contract: string, chain: seq<ChainEvent>, m: int, floor: int)
    requires Ordered(chain) && HoldsPrefix(events, contract, chain, m)
    ensures Finalized(events, contract, floor) == UpTo(chain[..m], floor)
  {
    var final := UpTo(chain[..m], floor);
    OrderedPrefix(chain[..m], chain);
    UpToExact(chain[..m], floor);
    var want := seq(|final|, i requires 0 <= i < |final| => final[i].Position());
    var positions := FinalizedPositions(events, contract, floor);
    var got := SortPositions(positions);
    forall i, j | 0 <= i < j < |want| ensures Below(want, i, j) {
      assert Precedes(chain, i, j);
    }
    forall p | p in want ensures p in got {
      var i :| 0 <= i < |want| && want[i] == p;
      assert Stored(events, contract, chain[i]);
      assert EventKey(contract, p) in events;
      assert p in positions;
    }
    forall p | p in got ensures p in want {
      assert p in positions && EventKey(contract, p) in events;
      assert Occupied(chain, m, EventKey(contract, p).position);
      var i :| 0 <= i < m && chain[i].Position() == p;
      assert chain[..m][i] == chain[i];
      assert want[i] == p;
    }
    SortedUnique(want, got);
    forall i | 0 <= i < |final|
      ensures Finalized(events, contract, floor)[i] == final[i]
    {
      assert got[i] == want[i];
      assert Stored(events, contract, chain[i]);
    }
  }

  ghost predicate OfOne(chain: seq<ChainEvent>, contract: string) {
    forall e :: e in chain ==> e.contractId == contract
  }

  lemma AppendOneKeepsPrefix(events: Events, contract: string, chain: seq<ChainEvent>, m: int, i: int)
    requires Ordered(chain) && HoldsPrefix(events, contract, chain, m)
    requires 0 <= i <= m && i < |chain| && chain[i].contractId == contract
    ensures HoldsPrefix(AppendOne(events, chain[i]), contract, chain, Max(m, i + 1))
  {
    var e := chain[i];
    if i < m {
      assert Stored(events, contract, chain[i]);
    } else {
      var after := AppendOne(events, e);
      forall h | 0 <= h < m ensures chain[h].Position() != e.Position() {
        assert Precedes(chain, h, i);
      }
      assert KeyOf(e) !in events;
      forall h | 0 <= h < m + 1 ensures Stored(after, contract, chain[h]) {
        assert h < m ==> Stored(events, contract, chain[h]);
      }
      forall k | k in after && k.contractId == contract ensures Occupied(chain, m + 1, k.position) {
        if k == KeyOf(e) {
          assert chain[i].Position() == k.position;
        } else {
          assert Occupied(chain, m, k.position);
        }
      }
    }
  }

  function AppendRange(events: Events, chain: seq<ChainEvent>, lo: nat, hi: nat): Events
    requires hi <= |chain|
  {
    if hi <= lo then events else AppendOne(AppendRange(events, chain, lo, hi - 1), chain[hi - 1])
  }

  lemma {:induction false} RangeIsSlice(events: Events, chain: seq<ChainEvent>, lo: nat, hi: nat)
    requires lo <= hi <= |chain|
    ensures AppendAll(events, chain[lo..hi]) == AppendRange(events, chain, lo, hi)
  {
    if lo < hi {
      var batch := chain[lo..hi];
      RangeIsSlice(events, chain, lo, hi - 1);
      assert batch[..|batch| - 1] == chain[lo..hi - 1] && batch[|batch| - 1] == chain[hi - 1];
    }
  }

  lemma {:induction false} RangeKeepsPrefix(
      events: Events, contract: string, chain: seq<ChainEvent>, m: int, lo: nat, hi: nat)
    requires Ordered(chain) && HoldsPrefix(events, contract, chain, m)
    requires OfOne(chain, contract)
    requires lo <= m && lo <= hi <= |chain|
    ensures HoldsPrefix(AppendRange(events, chain, lo, hi), contract, chain, Max(m, hi))
    decreases hi
  {
    if lo < hi {
      RangeKeepsPrefix(events, contract, chain, m, lo, hi - 1);
      assert chain[hi - 1] in chain;
      AppendOneKeepsPrefix(AppendRange(events, chain, lo, hi - 1), contract, chain, Max(m, hi - 1), hi - 1);
    }
  }

  /** Appending in chain order from any point at or before the frontier keeps the rows a prefix. */
  lemma AppendKeepsPrefix(events: Events, contract: string, chain: seq<ChainEvent>, m: int, lo: nat, hi: nat)
    requires Ordered(chain) && HoldsPrefix(events, contract, chain, m)
    requires OfOne(chain, contract)
    requires lo <= m && lo <= hi <= |chain|
    ensures HoldsPrefix(AppendAll(events, chain[lo..hi]), contract, chain, Max(m, hi))
  {
    RangeIsSlice(events, chain, lo, hi);
    RangeKeepsPrefix(events, contract, chain, m, lo, hi);
  }

  /** Appending one contract's events leaves every other contract's rows alone. */
  lemma {:induction false} AppendFrame(events: Events, batch: seq<ChainEvent>, k: EventKey)
    requires forall e :: e in batch ==> e.contractId != k.contractId
    ensures k in AppendAll(events, batch) <==> k in events
    ensures k in events ==> AppendAll(events, batch)[k] == events[k]
  {
    if batch != [] {
      assert batch[|batch| - 1] in batch;
      AppendFrame(events, batch[..|batch| - 1], k);
    }
  }

  lemma {:induction false} AppendSplit(events: Events, a: seq<ChainEvent>, b: seq<ChainEvent>)
    ensures AppendAll(events, a + b) == AppendAll(AppendAll(events, a), b)
  {
    if b == [] {
      assert a + b == a;
    } else {
      assert (a + b)[..|a + b| - 1] == a + b[..|b| - 1];
      AppendSplit(events, a, b[..|b| - 1]);
    }
  }

  lemma DropTwice(events: Events, contract: string, a: int, b: int)
    requires b <= a
    ensures DropFrom(DropFrom(events, contract, a), contract, b) == DropFrom(events, contract, b)
    ensures DropFrom(DropFrom(events, contract, b), contract, a) == DropFrom(events, contract, b)
  {
  }

  /** Events from the ledger on do not show in the rows below it. */
  lemma {:induction false} AppendHigh(events: Events, contract: string, batch: seq<ChainEvent>, ledger: int)
    requires forall e :: e in batch ==> e.contractId == contract && e.ledger >= ledger
    ensures DropFrom(AppendAll(events, batch), contract, ledger) == DropFrom(events, contract, ledger)
  {
    if batch != [] {
      assert batch[|batch| - 1] in batch;
      AppendHigh(events, contract, batch[..|batch| - 1], ledger);
    }
  }

  /** Events below the ledger are appended to the rows below it. */
  lemma {:induction false} AppendLow(events: Events, contract: string, batch: seq<ChainEvent>, ledger: int)
    requires forall e :: e in batch ==> e.ledger < ledger
    ensures
      DropFrom(AppendAll(events, batch), contract, ledger) == AppendAll(DropFrom(events, contract, ledger), batch)
  {
    if batch != [] {
      var e := batch[|batch| - 1];
      assert e in batch;
      AppendLow(events, contract, batch[..|batch| - 1], ledger);
      LowOne(AppendAll(events, batch[..|batch| - 1]), contract, e, ledger);
    }
  }

  lemma LowOne(events: Events, contract: string, e: ChainEvent, ledger: int)
    requires e.ledger < ledger
    ensures DropFrom(AppendOne(events, e), contract, ledger) == AppendOne(DropFrom(events, contract, ledger), e)
  {
  }

  /** A floor below the ledger sees only rows below it. */
  lemma FinalizedBelow(events: Events, contract: string, ledger: int, floor: int)
    requires floor < ledger
    ensures Finalized(DropFrom(events, contract, ledger), contract, floor) == Finalized(events, contract, floor)
  {
    var kept := DropFrom(events, contract, ledger);
    assert FinalizedPositions(kept, contract, floor) == FinalizedPositions(events, contract, floor);
    var ps := SortPositions(FinalizedPositions(events, contract, floor));
    forall i | 0 <= i < |ps|
      ensures Finalized(kept, contract, floor)[i] == Finalized(events, contract, floor)[i]
    {
      assert ps[i] in ps;
      assert EventKey(contract, ps[i]) in kept;
    }
  }

  /** The natural key of the raw table, column by column. */
  predicate HasKey(e: ChainEvent, k: EventKey) {
    && e.contractId == k.contractId
    && e.ledger == k.position.ledger && e.op == k.position.op && e.event == k.position.event
  }

  /** The first event of the batch with the key. */
  ghost predicate FirstWith(batch: seq<ChainEvent>, i: int, k: EventKey) {
    0 <= i < |batch| && HasKey(batch[i], k) && forall j :: 0 <= j < i ==> !HasKey(batch[j], k)
  }

  /** Rows that were there stay as they were; each new key gets the batch's first event with it, and no other is new. */
  ghost predicate KeepsFirst(events: Events, batch: seq<ChainEvent>, after: Events) {
    && (forall k :: k in events ==> k in after && after[k] == events[k])
    && (forall k, i :: k !in events && FirstWith(batch, i, k) ==> k in after && after[k] == batch[i])
    && (forall k :: k in after && k !in events ==> exists i :: FirstWith(batch, i, k))
  }

  lemma FirstSnoc(front: seq<ChainEvent>, e: ChainEvent, k: EventKey, i: int)
    ensures FirstWith(front + [e], i, k) <==>
              FirstWith(front, i, k) ||
              (i == |front| && HasKey(e, k) && forall j :: 0 <= j < |front| ==> !HasKey(front[j], k))
  {
    var batch := front + [e];
    assert batch[|front|] == e && forall j :: 0 <= j < |front| ==> batch[j] == front[j];
  }

  lemma {:induction false} FirstExists(batch: seq<ChainEvent>, k: EventKey) returns (i: int)
    requires exists j :: 0 <= j < |batch| && HasKey(batch[j], k)
    ensures FirstWith(batch, i, k)
  {
    var front := batch[..|batch| - 1];
    if j :| 0 <= j < |front| && HasKey(front[j], k) {
      i := FirstExists(front, k);
      assert batch == front + [batch[|front|]];
      FirstSnoc(front, batch[|front|], k, i);
    } else {
      i := |batch| - 1;
      assert forall j :: 0 <= j < i ==> front[j] == batch[j];
    }
  }

  lemma KeepsFirstSnoc(events: Events, front: seq<ChainEvent>, e: ChainEvent, before: Events)
    requires KeepsFirst(events, front, before)
    ensures KeepsFirst(events, front + [e], AppendOne(before, e))
  {
    var batch, after := front + [e], AppendOne(before, e);
    forall k, i | k !in events && FirstWith(batch, i, k) ensures k in after && after[k] == batch[i] {
      FirstSnoc(front, e, k, i);
      if i == |front| {
        assert k == KeyOf(e);
        assert k in before ==> exists h :: FirstWith(front, h, k);
      }
    }
    forall k | k in after && k !in events ensures exists i :: FirstWith(batch, i, k) {
      if k in before {
        var i :| FirstWith(front, i, k);
        FirstSnoc(front, e, k, i);
      } else {
        assert HasKey(batch[|front|], k);
        var i := FirstExists(batch, k);
      }
    }
  }

  /** What re-inserting does: first writer wins, in the store and within the batch. */
  lemma {:induction false} AppendKeepsFirst(events: Events, batch: seq<ChainEvent>)
    ensures KeepsFirst(events, batch, AppendAll(events, batch))
  {
    if batch != [] {
      var front := batch[..|batch| - 1];
      AppendKeepsFirst(events, front);
      KeepsFirstSnoc(events, front, batch[|batch| - 1], AppendAll(events, front));
      assert front + [batch[|batch| - 1]] == batch;
    }
  }
}
