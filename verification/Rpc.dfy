/** The RPC event source: positions from operation ids, and the paged fetch. */
module Rpc {
  import opened Wrappers
  import opened Json
  import opened Model
  import opened ScVals

  const TWO32: int := 0x1_0000_0000
  const TWO31: int := 0x8000_0000

  function LowWord(toid: int): int { toid % TWO32 }

  /** The ledger is the high word of the operation id; the low word is cast to i32. */
  function PositionOf(toid: int, event: int): Cursor {
    Cursor(toid / TWO32, AsI32(toid % TWO32), event)
  }

  lemma PositionInjective(a: int, i: int, b: int, j: int)
    requires FitsU64(a) && FitsU64(b)
    ensures PositionOf(a, i) == PositionOf(b, j) <==> a == b && i == j
  {
    if PositionOf(a, i) == PositionOf(b, j) {
      assert a % TWO32 == b % TWO32;
      assert a == TWO32 * (a / TWO32) + a % TWO32;
      assert b == TWO32 * (b / TWO32) + b % TWO32;
    }
  }

  /** Below 2^31 the split keeps the order of (operation id, event index). */
  lemma PositionOrder(a: int, i: int, b: int, j: int)
    requires FitsU64(a) && FitsU64(b) && LowWord(a) < TWO31 && LowWord(b) < TWO31
    ensures PositionOf(a, i).IsAfter(PositionOf(b, j)) <==> a > b || (a == b && i > j)
  {
    assert a == TWO32 * (a / TWO32) + a % TWO32;
    assert b == TWO32 * (b / TWO32) + b % TWO32;
  }

  ghost predicate OrderKept(a: int, b: int) {
    PositionOf(a, 0).IsAfter(PositionOf(b, 0)) <==> a > b
  }

  /** 2^31 is the exact boundary: an id keeps its place among sound ids if and only if it is below it. */
  lemma OrderBoundary(a: int)
    requires FitsU64(a)
    ensures
      (forall b :: FitsU64(b) && LowWord(b) < TWO31 ==> OrderKept(a, b)) <==> LowWord(a) < TWO31
  {
    if LowWord(a) < TWO31 {
      forall b | FitsU64(b) && LowWord(b) < TWO31 ensures OrderKept(a, b) {
        PositionOrder(a, 0, b, 0);
      }
    } else {
      var b := TWO32 * (a / TWO32);
      assert a == b + a % TWO32;
      assert b / TWO32 == a / TWO32 && LowWord(b) == 0;
      assert !OrderKept(a, b);
    }
  }

  /** An event as the server returns it; parts that fail to parse are None. */
  datatype RpcEvent = RpcEvent(contractId: string, ledger: int, id: Option<(int, int)>,
                               topic: seq<Option<ScVal>>, value: Option<ScVal>)

  function TopicsJson(topic: seq<Option<ScVal>>): Option<seq<Json>> {
    if topic == [] then Some([])
    else
      var front :- TopicsJson(topic[..|topic| - 1]);
      var scval :- topic[|topic| - 1];
      var last :- JsonOf(scval);
      Some(front + [last])
  }

  /** None when the layout is unexpected; such events are skipped. */
  function DecodeRpcEvent(ev: RpcEvent, contractName: string): Option<ChainEvent> {
    if ev.topic == [] then None
    else
      var head :- ev.topic[0];
      var name :- TextOf(head);
      var id :- ev.id;
      var topics :- TopicsJson(ev.topic[1..]);
      var value :- ev.value;
      var data :- JsonOf(value);
      var at := PositionOf(id.0, id.1);
      Some(ChainEvent(ev.contractId, contractName, name, at.ledger, at.op, at.event, JArr(topics), data))
  }

  /** The chain the server describes: its decodable events, in order. */
  function DecodedChain(server: seq<RpcEvent>, contractName: string): seq<ChainEvent> {
    if server == [] then []
    else
      DecodedChain(server[..|server| - 1], contractName) +
      match DecodeRpcEvent(server[|server| - 1], contractName)
      case Some(e) => [e]
      case None => []
  }

  /** Ledgers exist from 1 on, events come by ledger, and an id names its own ledger. */
  ghost predicate ValidServer(server: seq<RpcEvent>) {
    ByLedger(server) && forall ev :: ev in server ==> ValidEvent(ev)
  }

  ghost predicate ValidEvent(ev: RpcEvent) {
    && 1 <= ev.ledger < TWO32
    && (ev.id.Some? ==> FitsU64(ev.id.value.0) && ev.id.value.0 / TWO32 == ev.ledger)
  }

  ghost predicate NotLater(server: seq<RpcEvent>, i: int, j: int)
    requires 0 <= i < |server| && 0 <= j < |server|
  {
    server[i].ledger <= server[j].ledger
  }

  ghost predicate ByLedger(server: seq<RpcEvent>) {
    forall i, j :: 0 <= i < j < |server| ==> NotLater(server, i, j)
  }

  datatype EventStart = FromLedger(ledger: int) | FromCursor(next: nat)

  /** The first event at or after a ledger. */
  function FirstAt(server: seq<RpcEvent>, ledger: int): (r: nat)
    ensures r <= |server|
  {
    if server == [] || server[|server| - 1].ledger < ledger then |server|
    else FirstAt(server[..|server| - 1], ledger)
  }

  lemma {:induction false} FirstAtExact(server: seq<RpcEvent>, ledger: int)
    requires ByLedger(server)
    ensures forall i :: 0 <= i < |server| ==> (i < FirstAt(server, ledger) <==> server[i].ledger < ledger)
  {
    if server != [] {
      var n := |server| - 1;
      if server[n].ledger >= ledger {
        forall i, j | 0 <= i < j < n ensures NotLater(server[..n], i, j) {
          assert NotLater(server, i, j);
        }
        FirstAtExact(server[..n], ledger);
      } else {
        forall i | 0 <= i < n ensures server[i].ledger < ledger {
          assert NotLater(server, i, n);
        }
      }
    }
  }

  function PageStart(server: seq<RpcEvent>, start: EventStart): (r: nat)
    ensures r <= |server|
  {
    match start
    case FromLedger(ledger) => FirstAt(server, ledger)
    case FromCursor(next) => if next < |server| then next else |server|
  }

  /** How much the server puts on the page that starts at a position: at most the limit, and what is left. */
  function PageLength(server: seq<RpcEvent>, at: nat, limit: nat, pages: nat -> nat): (r: nat)
    requires at <= |server|
    ensures r <= limit && at + r <= |server|
  {
    Min(Min(limit, pages(at)), |server| - at)
  }

  /** One page and the cursor just past it. */
  function GetEvents(server: seq<RpcEvent>, start: EventStart, limit: nat, pages: nat -> nat): (r: (seq<RpcEvent>, nat))
    ensures r.1 == PageStart(server, start) + |r.0| <= |server|
    ensures r.0 == server[PageStart(server, start)..r.1]
    ensures |r.0| == PageLength(server, PageStart(server, start), limit, pages)
  {
    var first := PageStart(server, start);
    var next := first + PageLength(server, first, limit, pages);
    (server[first..next], next)
  }

  /** The end of the first short page, where the fetch stops. */
  function FirstShort(server: seq<RpcEvent>, at: nat, limit: nat, pages: nat -> nat): (r: nat)
    requires at <= |server| && limit > 0
    ensures at <= r <= |server|
    decreases |server| - at
  {
    var n := PageLength(server, at, limit, pages);
    if n < limit then at + n else FirstShort(server, at + n, limit, pages)
  }

  lemma NextShort(server: seq<RpcEvent>, at: nat, limit: nat, pages: nat -> nat)
    requires at <= |server| && limit > 0
    ensures
      var n := PageLength(server, at, limit, pages);
      FirstShort(server, at, limit, pages) == if n < limit then at + n else FirstShort(server, at + n, limit, pages)
  {
  }

  /** A server that fills every page but the last is read to its end. */
  lemma {:induction false} FullPages(server: seq<RpcEvent>, at: nat, limit: nat, pages: nat -> nat)
    requires at <= |server| && limit > 0 && forall p :: pages(p) >= limit
    ensures FirstShort(server, at, limit, pages) == |server|
    decreases |server| - at
  {
    var n := PageLength(server, at, limit, pages);
    assert pages(at) >= limit;
    if n == limit {
      FullPages(server, at + n, limit, pages);
    }
  }

  /** The ledger a fetch starts from: never ledger 0, cast to u32. */
  function StartLedger(cursor: Cursor): int {
    (if cursor.ledger < 1 then 1 else cursor.ledger) % TWO32
  }

  lemma {:induction false} OldEventsDropOut(server: seq<RpcEvent>, name: string, cursor: Cursor)
    requires forall ev :: ev in server && ev.id.Some? ==>
                            ev.id.value.0 / TWO32 < (if cursor.ledger < 1 then 1 else cursor.ledger) &&
                            ev.id.value.0 / TWO32 >= 1
    ensures After(DecodedChain(server, name), cursor) == []
  {
    if server != [] {
      var front, ev := server[..|server| - 1], server[|server| - 1];
      assert ev in server && forall o :: o in front ==> o in server;
      OldEventsDropOut(front, name, cursor);
      var chain := DecodedChain(front, name);
      match DecodeRpcEvent(ev, name)
      case Some(e) =>
        assert (chain + [e])[..|chain|] == chain;
        assert e.ledger < cursor.ledger;
      case None => assert chain + [] == chain;
    }
  }

  /** Starting at ledger max(1, cursor ledger) omits nothing that is after the cursor. */
  lemma StartOmitsNothing(server: seq<RpcEvent>, name: string, cursor: Cursor)
    requires ValidServer(server)
    ensures After(DecodedChain(server[..FirstAt(server, StartLedger(cursor))], name), cursor) == []
  {
    var skipped := server[..FirstAt(server, StartLedger(cursor))];
    FirstAtExact(server, StartLedger(cursor));
    forall ev | ev in skipped && ev.id.Some?
      ensures ev.id.value.0 / TWO32 < (if cursor.ledger < 1 then 1 else cursor.ledger)
      ensures ev.id.value.0 / TWO32 >= 1
    {
      var i :| 0 <= i < |skipped| && skipped[i] == ev;
      assert server[i] == ev && server[i] in server && ValidEvent(ev);
    }
    OldEventsDropOut(skipped, name, cursor);
  }

  /** What one server event adds to the result. */
  function Kept(ev: RpcEvent, name: string, cursor: Cursor): seq<ChainEvent> {
    match DecodeRpcEvent(ev, name)
    case Some(e) => if e.Position().IsAfter(cursor) then [e] else []
    case None => []
  }

  function Keeper(name: string, cursor: Cursor): RpcEvent -> seq<ChainEvent> {
    ev => Kept(ev, name, cursor)
  }

  function KeptAll(server: seq<RpcEvent>, name: string, cursor: Cursor): seq<ChainEvent> {
    Gather(server, Keeper(name, cursor))
  }

  /** Decoding then filtering event by event is filtering the decoded chain. */
  lemma {:induction false} KeptIsAfter(server: seq<RpcEvent>, name: string, cursor: Cursor)
    ensures KeptAll(server, name, cursor) == After(DecodedChain(server, name), cursor)
  {
    if server != [] {
      var n := |server| - 1;
      KeptIsAfter(server[..n], name, cursor);
      var chain := DecodedChain(server[..n], name);
      match DecodeRpcEvent(server[n], name)
      case Some(e) => assert (chain + [e])[..|chain|] == chain;
      case None => assert chain + [] == chain;
    }
  }

  /** One page: keep what decodes and lies after the cursor. */
  method TakePage(page: seq<RpcEvent>, name: string, cursor: Cursor, before: seq<ChainEvent>)
    returns (decoded: seq<ChainEvent>)
    ensures decoded == before + KeptAll(page, name, cursor)
  {
    decoded := before;
    for i := 0 to |page|
      invariant decoded == before + KeptAll(page[..i], name, cursor)
    {
      assert page[..i + 1][..i] == page[..i];
      var event := DecodeRpcEvent(page[i], name);
      if event.Some? && event.value.Position().IsAfter(cursor) {
        decoded := decoded + [event.value];
      }
    }
    assert page[..|page|] == page;
  }

  lemma NextPage(server: seq<RpcEvent>, first: nat, from: nat, to: nat, name: string, cursor: Cursor)
    requires first <= from <= to <= |server|
    ensures
      KeptAll(server[first..to], name, cursor) ==
        KeptAll(server[first..from], name, cursor) + KeptAll(server[from..to], name, cursor)
  {
    assert server[first..to] == server[first..from] + server[from..to];
    GatherSplit(server[first..from], server[from..to], Keeper(name, cursor));
  }

  /** Of what lies before `stop`, the part from the start ledger on holds everything after the cursor. */
  lemma FromStart(server: seq<RpcEvent>, name: string, cursor: Cursor, stop: nat)
    requires ValidServer(server) && FirstAt(server, StartLedger(cursor)) <= stop <= |server|
    ensures
      KeptAll(server[FirstAt(server, StartLedger(cursor))..stop], name, cursor) ==
        After(DecodedChain(server[..stop], name), cursor)
  {
    var first := FirstAt(server, StartLedger(cursor));
    StartOmitsNothing(server, name, cursor);
    KeptIsAfter(server[..first], name, cursor);
    NextPage(server, 0, first, stop, name, cursor);
    assert server[0..stop] == server[..stop] && server[0..first] == server[..first];
    KeptIsAfter(server[..stop], name, cursor);
  }

  ghost predicate NothingKept(server: seq<RpcEvent>, name: string, cursor: Cursor) {
    forall ev :: ev in server ==> Kept(ev, name, cursor) == []
  }

  lemma {:induction false} NothingIsEmpty(server: seq<RpcEvent>, name: string, cursor: Cursor)
    ensures KeptAll(server, name, cursor) == [] <==> NothingKept(server, name, cursor)
  {
    if server != [] {
      var n := |server| - 1;
      NothingIsEmpty(server[..n], name, cursor);
      assert forall ev :: ev in server <==> ev in server[..n] || ev == server[n];
    }
  }

  lemma NothingAdded<T>(x: seq<T>, y: seq<T>)
    ensures x + y == x <==> y == []
  {
    assert |x + y| == |x| + |y|;
  }

  /** Stopping early loses exactly what is after the cursor and past the stop. */
  lemma StopsShort(server: seq<RpcEvent>, name: string, cursor: Cursor, stop: nat)
    requires stop <= |server|
    ensures
      KeptAll(server[..stop], name, cursor) == KeptAll(server, name, cursor) <==>
        NothingKept(server[stop..], name, cursor)
  {
    var read, rest := server[..stop], server[stop..];
    assert read + rest == server;
    GatherSplit(read, rest, Keeper(name, cursor));
    NothingAdded(KeptAll(read, name, cursor), KeptAll(rest, name, cursor));
    NothingIsEmpty(rest, name, cursor);
  }

  /**
   The decodable events strictly after the cursor up to `stop`, which are all there are exactly when
   none lies beyond it.
   */
  ghost predicate Fetched(decoded: seq<ChainEvent>, server: seq<RpcEvent>, name: string, cursor: Cursor, stop: nat)
    requires stop <= |server|
  {
    && decoded == After(DecodedChain(server[..stop], name), cursor)
    && (decoded == After(DecodedChain(server, name), cursor) <==> NothingKept(server[stop..], name, cursor))
  }

  lemma FetchedUpTo(server: seq<RpcEvent>, name: string, cursor: Cursor, stop: nat)
    requires ValidServer(server) && FirstAt(server, StartLedger(cursor)) <= stop <= |server|
    ensures
      Fetched(KeptAll(server[FirstAt(server, StartLedger(cursor))..stop], name, cursor), server, name, cursor, stop)
  {
    FromStart(server, name, cursor, stop);
    StopsShort(server, name, cursor, stop);
    KeptIsAfter(server[..stop], name, cursor);
    KeptIsAfter(server, name, cursor);
  }

  /** What the server events from `lo` up to `hi` add to the result. */
  function KeptRange(server: seq<RpcEvent>, lo: nat, hi: nat, name: string, cursor: Cursor): seq<ChainEvent>
    requires hi <= |server|
  {
    GatherRange(server, lo, hi, Keeper(name, cursor))
  }

  /** One page on. */
  lemma PageRead(server: seq<RpcEvent>, first: nat, next: nat, token: nat, name: string, cursor: Cursor)
    requires first <= next <= token <= |server|
    ensures
      KeptRange(server, first, token, name, cursor) ==
        KeptRange(server, first, next, name, cursor) + KeptAll(server[next..token], name, cursor)
  {
    RangeIsSlice(server, first, token, Keeper(name, cursor));
    RangeIsSlice(server, first, next, Keeper(name, cursor));
    NextPage(server, first, next, token, name, cursor);
  }

  /** One turn of the page loop: the page is decoded, and a short one is the last. */
  method ReadPage(server: seq<RpcEvent>, start: EventStart, name: string, cursor: Cursor, limit: nat,
                  pages: nat -> nat, before: seq<ChainEvent>, ghost first: nat, ghost next: nat)
    returns (decoded: seq<ChainEvent>, token: nat, short: bool)
    requires limit > 0 && first <= next <= |server| && PageStart(server, start) == next
    requires before == KeptRange(server, first, next, name, cursor)
    ensures next <= token <= |server| && (!short ==> next < token)
    ensures decoded == KeptRange(server, first, token, name, cursor)
    ensures FirstShort(server, next, limit, pages) == if short then token else FirstShort(server, token, limit, pages)
  {
    var (page, after) := GetEvents(server, start, limit, pages);
    NextShort(server, next, limit, pages);
    PageRead(server, first, next, after, name, cursor);
    decoded := TakePage(page, name, cursor, before);
    token, short := after, |page| < limit;
  }

  /** The page loop reads from its first page up to the end of the first short one. */
  method ReadPages(server: seq<RpcEvent>, begin: EventStart, name: string, cursor: Cursor, limit: nat,
                   pages: nat -> nat, ghost first: nat)
    returns (decoded: seq<ChainEvent>)
    requires limit > 0 && first <= |server| && PageStart(server, begin) == first
    ensures decoded == KeptRange(server, first, FirstShort(server, first, limit, pages), name, cursor)
  {
    decoded := [];
    var start, more := begin, true;
    ghost var next, stop := first, FirstShort(server, first, limit, pages);
    while more
      invariant first <= next <= |server|
      invariant if more then PageStart(server, start) == next && FirstShort(server, next, limit, pages) == stop
                else next == stop
      invariant decoded == KeptRange(server, first, next, name, cursor)
      decreases |server| - next, more
    {
      var token, short;
      decoded, token, short := ReadPage(server, start, name, cursor, limit, pages, decoded, first, next);
      next := token;
      if short {
        more := false;
      } else {
        start := FromCursor(token);
      }
    }
  }

  /** The fetch ends, whatever page lengths the server chooses, at the first short page. */
  method EventsAfter(server: seq<RpcEvent>, name: string, cursor: Cursor, limit: nat, pages: nat -> nat)
    returns (decoded: seq<ChainEvent>)
    requires ValidServer(server) && limit > 0
    ensures
      Fetched(decoded, server, name, cursor, FirstShort(server, FirstAt(server, StartLedger(cursor)), limit, pages))
  {
    ghost var first := FirstAt(server, StartLedger(cursor));
    ghost var stop := FirstShort(server, first, limit, pages);
    decoded := ReadPages(server, FromLedger(StartLedger(cursor)), name, cursor, limit, pages, first);
    RangeIsSlice(server, first, stop, Keeper(name, cursor));
    FetchedUpTo(server, name, cursor, stop);
  }

  ghost predicate Earlier(server: seq<RpcEvent>, i: int, j: int)
    requires 0 <= i < |server| && 0 <= j < |server|
  {
    server[i].id.Some? && server[j].id.Some? ==>
      var a, b := server[i].id.value, server[j].id.value;
      a.0 < b.0 || (a.0 == b.0 && a.1 < b.1)
  }

  ghost predicate SoundIds(server: seq<RpcEvent>) {
    forall ev :: ev in server && ev.id.Some? ==> FitsU64(ev.id.value.0) && LowWord(ev.id.value.0) < TWO31
  }

  ghost predicate IdsAscend(server: seq<RpcEvent>) {
    forall i, j :: 0 <= i < j < |server| ==> Earlier(server, i, j)
  }

  lemma AscendPrefix(server: seq<RpcEvent>, n: nat)
    requires IdsAscend(server) && n <= |server|
    ensures IdsAscend(server[..n])
  {
    forall i, j | 0 <= i < j < n ensures Earlier(server[..n], i, j) {
      assert Earlier(server, i, j);
    }
  }

  ghost predicate DecodedFrom(server: seq<RpcEvent>, name: string, e: ChainEvent) {
    exists i :: 0 <= i < |server| && DecodeRpcEvent(server[i], name) == Some(e)
  }

  lemma {:induction false} DecodedMembers(server: seq<RpcEvent>, name: string, e: ChainEvent)
    requires e in DecodedChain(server, name)
    ensures DecodedFrom(server, name, e)
  {
    if server != [] {
      var n := |server| - 1;
      if e in DecodedChain(server[..n], name) {
        DecodedMembers(server[..n], name, e);
        var i :| 0 <= i < n && DecodeRpcEvent(server[..n][i], name) == Some(e);
        assert DecodeRpcEvent(server[i], name) == Some(e);
      } else {
        assert DecodeRpcEvent(server[n], name) == Some(e);
      }
    }
  }

  /** Two events the server emitted in this order are decoded to positions in this order. */
  lemma DecodedLater(server: seq<RpcEvent>, name: string, i: nat, j: nat)
    requires i < j < |server| && SoundIds(server) && Earlier(server, i, j)
    requires DecodeRpcEvent(server[i], name).Some? && DecodeRpcEvent(server[j], name).Some?
    ensures DecodeRpcEvent(server[j], name).value.Position().IsAfter(DecodeRpcEvent(server[i], name).value.Position())
  {
    var a, b := server[i].id.value, server[j].id.value;
    assert server[i] in server && server[j] in server;
    PositionOrder(b.0, b.1, a.0, a.1);
  }

  lemma OrderedSnoc(chain: seq<ChainEvent>, e: ChainEvent)
    requires Ordered(chain)
    requires forall o :: o in chain ==> e.Position().IsAfter(o.Position())
    ensures Ordered(chain + [e])
  {
    forall i, j | 0 <= i < j < |chain| + 1 ensures Precedes(chain + [e], i, j) {
      if j < |chain| {
        assert Precedes(chain, i, j);
      } else {
        assert chain[i] in chain;
      }
    }
  }

  /** If the server emits ids in order and their low words are sound, the decoded chain is in chain order. */
  lemma {:induction false} DecodedChainOrdered(server: seq<RpcEvent>, name: string)
    requires SoundIds(server) && IdsAscend(server)
    ensures Ordered(DecodedChain(server, name))
  {
    if server != [] {
      var n := |server| - 1;
      assert forall o :: o in server[..n] ==> o in server;
      AscendPrefix(server, n);
      DecodedChainOrdered(server[..n], name);
      var chain := DecodedChain(server[..n], name);
      match DecodeRpcEvent(server[n], name)
      case None => assert chain + [] == chain;
      case Some(e) =>
        forall o | o in chain ensures e.Position().IsAfter(o.Position()) {
          DecodedMembers(server[..n], name, o);
          var i :| 0 <= i < n && DecodeRpcEvent(server[..n][i], name) == Some(o);
          assert Earlier(server, i, n);
          DecodedLater(server, name, i, n);
        }
        OrderedSnoc(chain, e);
    }
  }

  predicate FullPage(server: seq<RpcEvent>, at: nat, limit: nat, pages: nat -> nat) {
    at + limit <= |server| && pages(at) >= limit
  }

  /** Where the pages of a fetch begin: each but the last holds a full page, the last a short one. */
  ghost predicate Pages(server: seq<RpcEvent>, marks: seq<nat>, limit: nat, pages: nat -> nat) {
    && marks != [] && marks[|marks| - 1] <= |server|
    && !FullPage(server, marks[|marks| - 1], limit, pages)
    && forall i :: 0 <= i < |marks| - 1 ==> NextFull(server, marks, i, limit, pages)
  }

  ghost predicate NextFull(server: seq<RpcEvent>, marks: seq<nat>, i: nat, limit: nat, pages: nat -> nat)
    requires i + 1 < |marks|
  {
    FullPage(server, marks[i], limit, pages) && marks[i + 1] == marks[i] + limit
  }

  lemma PageBefore(server: seq<RpcEvent>, at: nat, rest: seq<nat>, limit: nat, pages: nat -> nat)
    requires FullPage(server, at, limit, pages) && Pages(server, rest, limit, pages) && rest[0] == at + limit
    ensures Pages(server, [at] + rest, limit, pages)
  {
    var marks := [at] + rest;
    forall i | 0 <= i < |marks| - 1 ensures NextFull(server, marks, i, limit, pages) {
      assert i > 0 ==> NextFull(server, rest, i - 1, limit, pages);
    }
  }

  /** The fetch stops at the end of the first page that is shorter than the limit. */
  lemma {:induction false} StopsAtShortPage(server: seq<RpcEvent>, at: nat, limit: nat, pages: nat -> nat)
    returns (marks: seq<nat>)
    requires at <= |server| && limit > 0
    ensures Pages(server, marks, limit, pages) && marks[0] == at
    ensures
      var last := marks[|marks| - 1];
      FirstShort(server, at, limit, pages) == if pages(last) < |server| - last then last + pages(last) else |server|
    decreases |server| - at
  {
    if FullPage(server, at, limit, pages) {
      var rest := StopsAtShortPage(server, at + limit, limit, pages);
      PageBefore(server, at, rest, limit, pages);
      marks := [at] + rest;
    } else {
      marks := [at];
    }
  }

  /** The ledger asked for is the cursor's own, or the first that exists. */
  lemma StartsAtCursor(cursor: Cursor)
    requires cursor.ledger < 0x1_0000_0000
    ensures StartLedger(cursor) == if cursor.ledger < 1 then 1 else cursor.ledger
  {
  }
}
