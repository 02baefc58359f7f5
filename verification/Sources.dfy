/** The in-memory event source, the reference for what an event source returns. */
module Sources {
  import opened Wrappers
  import opened Model
  import opened Store

  /** Events in key order. */
  function InOrder(events: map<Cursor, ChainEvent>): seq<ChainEvent> {
    var ps := SortPositions(events.Keys);
    seq(|ps|, i requires 0 <= i < |ps| => assert ps[i] in ps; events[ps[i]])
  }

  function OfContract(es: seq<ChainEvent>, contract: string): seq<ChainEvent> {
    if es == [] then []
    else
      var e := es[|es| - 1];
      OfContract(es[..|es| - 1], contract) + if e.contractId == contract then [e] else []
  }

  /** The whole chain of a contract as the source knows it. */
  function ChainOf(events: map<Cursor, ChainEvent>, contract: string): seq<ChainEvent> {
    OfContract(InOrder(events), contract)
  }

  ghost predicate Keyed(events: map<Cursor, ChainEvent>) {
    forall p :: p in events ==> events[p].Position() == p
  }

  /** The filtered chain is in chain order and holds exactly the contract's events. */
  lemma ChainOfIsOrdered(events: map<Cursor, ChainEvent>, contract: string)
    requires Keyed(events)
    ensures Ordered(ChainOf(events, contract))
    ensures forall e :: e in ChainOf(events, contract) <==> e in events.Values && e.contractId == contract
  {
    var all := InOrder(events);
    var ps := SortPositions(events.Keys);
    forall i, j | 0 <= i < j < |all| ensures Precedes(all, i, j) {
      assert ps[i] in ps && ps[j] in ps;
      assert all[i].Position() == ps[i] && all[j].Position() == ps[j];
      assert Below(ps, i, j);
    }
    forall e ensures e in all <==> e in events.Values {
      if e in all {
        var i :| 0 <= i < |all| && all[i] == e;
        assert ps[i] in ps;
      }
      if e in events.Values {
        var p :| p in events && events[p] == e;
        assert p in ps;
        var i :| 0 <= i < |ps| && ps[i] == p;
        assert all[i] == e;
      }
    }
    OfContractKeeps(all, contract);
  }

  lemma {:induction false} OfContractKeeps(es: seq<ChainEvent>, contract: string)
    requires Ordered(es)
    ensures Ordered(OfContract(es, contract))
    ensures forall e :: e in OfContract(es, contract) <==> e in es && e.contractId == contract
  {
    if es != [] {
      var front, e := es[..|es| - 1], es[|es| - 1];
      OrderedPrefix(front, es);
      OfContractKeeps(front, contract);
      var kept, all := OfContract(front, contract), OfContract(es, contract);
      assert forall o :: o in es <==> o in front || o == e;
      forall i, j | 0 <= i < j < |all| ensures Precedes(all, i, j) {
        if j < |kept| {
          assert Precedes(kept, i, j);
        } else {
          assert kept[i] in front;
          var h :| 0 <= h < |front| && front[h] == kept[i];
          assert Precedes(es, h, |es| - 1);
        }
      }
    }
  }

  class StubEventSource {
    var events: map<Cursor, ChainEvent>
    var head: int

    ghost predicate Valid()
      reads this
    {
      Keyed(events)
    }

    constructor ()
      ensures Valid() && events == map[] && head == 0
    {
      events := map[];
      head := 0;
    }

    method Push(e: ChainEvent)
      requires Valid()
      modifies this`events
      ensures Valid() && events == old(events)[e.Position() := e]
    {
      events := events[Cursor(e.ledger, e.op, e.event) := e];
    }

    method SetHead(ledger: int)
      modifies this`head
      ensures head == ledger
    {
      head := ledger;
    }

    function Chain(contract: string): seq<ChainEvent>
      reads this
    {
      ChainOf(events, contract)
    }

    /** A contract's events strictly after the cursor, in chain order. */
    method EventsAfter(contract: string, cursor: Cursor) returns (r: seq<ChainEvent>)
      ensures r == After(Chain(contract), cursor)
    {
      r := [];
      var all := InOrder(events);
      for i := 0 to |all|
        invariant r == After(OfContract(all[..i], contract), cursor)
      {
        assert all[..i + 1][..i] == all[..i];
        var e := all[i];
        ghost var chain := OfContract(all[..i], contract);
        assert OfContract(all[..i + 1], contract) == chain + if e.contractId == contract then [e] else [];
        assert (chain + [e])[..|chain|] == chain && chain + [] == chain;
        if e.contractId == contract && e.Position().IsAfter(cursor) {
          r := r + [e];
        }
      }
      assert all[..|all|] == all;
    }

    method HeadLedger() returns (r: int)
      ensures r == head
    {
      r := head;
    }
  }
}
