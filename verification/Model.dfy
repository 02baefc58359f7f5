/** Chain events, their positions, and sequences of events in chain order. */
module Model {
  import opened Wrappers
  import opened Json

  datatype Cursor = Cursor(ledger: int, op: int, event: int) {
    predicate IsAfter(other: Cursor) {
      || ledger > other.ledger
      || (ledger == other.ledger && (op > other.op || (op == other.op && event > other.event)))
    }
  }

  const START := Cursor(0, -1, -1)

  datatype ChainEvent = ChainEvent(contractId: string, contractName: string, eventName: string,
                                   ledger: int, op: int, event: int, topics: Json, data: Json)
  {
    function Position(): Cursor { Cursor(ledger, op, event) }
  }

  ghost predicate Precedes(es: seq<ChainEvent>, i: int, j: int)
    requires 0 <= i < |es| && 0 <= j < |es|
  {
    es[j].Position().IsAfter(es[i].Position())
  }

  /** Chain order, each position once. */
  ghost predicate Ordered(es: seq<ChainEvent>) {
    forall i, j :: 0 <= i < j < |es| ==> Precedes(es, i, j)
  }

  lemma OrderedPrefix(p: seq<ChainEvent>, q: seq<ChainEvent>)
    requires p <= q && Ordered(q)
    ensures Ordered(p)
  {
    forall i, j | 0 <= i < j < |p| ensures Precedes(p, i, j) {
      assert Precedes(q, i, j);
    }
  }

  /** The events strictly after a cursor. */
  function After(es: seq<ChainEvent>, cursor: Cursor): seq<ChainEvent> {
    if es == [] then []
    else
      var e := es[|es| - 1];
      After(es[..|es| - 1], cursor) + if e.Position().IsAfter(cursor) then [e] else []
  }

  /** The events left once everything above the floor is dropped from the end. */
  function UpTo(es: seq<ChainEvent>, floor: int): (r: seq<ChainEvent>)
    ensures r <= es
  {
    if es == [] then []
    else if es[|es| - 1].ledger <= floor then es
    else UpTo(es[..|es| - 1], floor)
  }

  /** The position of the j-th event, counting from one; START before the first. */
  function Mark(es: seq<ChainEvent>, j: nat): Cursor
    requires j <= |es|
  {
    if j == 0 then START else es[j - 1].Position()
  }

  ghost predicate Splits(es: seq<ChainEvent>, i: int, j: int, cursor: Cursor)
    requires 0 <= i < |es|
  {
    es[i].Position().IsAfter(cursor) <==> j <= i
  }

  lemma MarkSplits(es: seq<ChainEvent>, j: nat, i: nat)
    requires Ordered(es) && j <= |es| && i < |es| && es[i].Position().IsAfter(START)
    ensures Splits(es, i, j, Mark(es, j))
  {
    if 0 < j <= i {
      assert Precedes(es, j - 1, i);
    } else if i < j - 1 {
      assert Precedes(es, i, j - 1);
    }
  }

  /** On an ordered chain that begins after START, what follows a mark is a suffix. */
  lemma AfterMark(es: seq<ChainEvent>, j: nat)
    requires Ordered(es) && j <= |es|
    requires forall e :: e in es ==> e.Position().IsAfter(START)
    ensures After(es, Mark(es, j)) == es[j..]
  {
    forall i | 0 <= i < |es| ensures Splits(es, i, j, Mark(es, j)) {
      assert es[i] in es;
      MarkSplits(es, j, i);
    }
    AfterCut(es, j, Mark(es, j));
  }

  lemma {:induction false} AfterCut(es: seq<ChainEvent>, j: nat, cursor: Cursor)
    requires j <= |es|
    requires forall i :: 0 <= i < |es| ==> Splits(es, i, j, cursor)
    ensures After(es, cursor) == es[j..]
  {
    if es != [] {
      var n := |es| - 1;
      var front, m := es[..n], if j <= n then j else n;
      forall i | 0 <= i < n ensures Splits(front, i, m, cursor) {
        assert Splits(es, i, j, cursor);
      }
      AfterCut(front, m, cursor);
      assert Splits(es, n, j, cursor);
      assert j <= n ==> es[j..] == front[j..] + [es[n]];
    }
  }

  /** On an ordered chain the finalized prefix is exactly the events at or below the floor. */
  lemma {:induction false} UpToExact(es: seq<ChainEvent>, floor: int)
    requires Ordered(es)
    ensures forall i :: 0 <= i < |es| ==> (i < |UpTo(es, floor)| <==> es[i].ledger <= floor)
  {
    if es != [] {
      var n := |es| - 1;
      if es[n].ledger > floor {
        OrderedPrefix(es[..n], es);
        UpToExact(es[..n], floor);
      } else {
        forall i | 0 <= i < n ensures es[i].ledger <= floor {
          assert Precedes(es, i, n);
        }
      }
    }
  }

  lemma UpToReaches(es: seq<ChainEvent>, floor: int, n: nat)
    requires Ordered(es) && n < |es| && es[n].ledger <= floor
    ensures
      var q := UpTo(es, floor);
      n < |q| && q[..n] == es[..n] && q[n] == es[n]
  {
    UpToExact(es, floor);
  }

  /** The finalized list of a later pass extends the list of an earlier one. */
  lemma UpToGrows(es: seq<ChainEvent>, more: seq<ChainEvent>, floor: int, higher: int)
    requires es <= more && Ordered(more) && floor <= higher
    ensures UpTo(es, floor) <= UpTo(more, higher)
  {
    OrderedPrefix(es, more);
    UpToExact(es, floor);
    UpToExact(more, higher);
    var short, long := UpTo(es, floor), UpTo(more, higher);
    assert |long| < |es| ==> es[|long|].ledger == more[|long|].ledger;
  }

  /** No event is missed from the start: every position with non-negative parts lies after it. */
  lemma StartBeforeAll(ledger: int, op: int, event: int)
    requires ledger >= 0 && op >= 0 && event >= 0
    ensures Cursor(ledger, op, event).IsAfter(START) && !START.IsAfter(Cursor(ledger, op, event))
    ensures START.ledger == 0
  {
  }
}
