/**
 Passes on top of passes. The indexer never rebuilds a projection: each pass replays the
 finalized events over what earlier passes, finished or not, left in the tables.
 */
module Replays {
  import opened Wrappers
  import opened Keyed
  import opened Model
  import opened Projections
  import V = Verifications
  import E = Escrows
  import F = Financings
  import I = Identities

  /** The projection table a contract name writes to. */
  ghost predicate SameTable(name: string, t: Tables, u: Tables) {
    && (name == VERIFICATION ==> t.verifications == u.verifications)
    && (name == ESCROW ==> t.escrows == u.escrows)
    && (name == FINANCING ==> t.financings == u.financings)
    && (name == IDENTITY ==> t.farmers == u.farmers)
  }

  ghost predicate Named(q: seq<ChainEvent>, name: string) {
    forall e :: e in q ==> e.contractName == name
  }

  /** For each id of the contract's projection, the first event is its Created or Registered. */
  ghost predicate BeginsWithCreation(name: string, q: seq<ChainEvent>) {
    && (name == VERIFICATION ==> CreatedFirst(V.RULES, VOps(q)))
    && (name == ESCROW ==> CreatedFirst(E.RULES, EOps(q)))
    && (name == FINANCING ==> CreatedFirst(F.RULES, FOps(q)))
    && (name == IDENTITY ==> CreatedFirst(I.RULES, IOps(q)))
  }

  function ReplayAll(passes: seq<seq<ChainEvent>>): Tables {
    if passes == [] then EMPTY
    else Pass(passes[|passes| - 1], ReplayAll(passes[..|passes| - 1])).tables
  }

  /** Each recorded pass holds exactly the events it got through. */
  predicate Executed(passes: seq<seq<ChainEvent>>) {
    passes == [] ||
    var before, p := passes[..|passes| - 1], passes[|passes| - 1];
    Executed(before) && Pass(p, ReplayAll(before)).ok
  }

  lemma BeginsPrefix(name: string, p: seq<ChainEvent>, q: seq<ChainEvent>)
    requires p <= q && BeginsWithCreation(name, q)
    ensures BeginsWithCreation(name, p)
  {
    SelectPrefix(p, q, TO_VERIFICATIONS);
    SelectPrefix(p, q, TO_ESCROWS);
    SelectPrefix(p, q, TO_FINANCINGS);
    SelectPrefix(p, q, TO_FARMERS);
    if name == VERIFICATION { CreatedFirstPrefix(V.RULES, VOps(p), VOps(q)); }
    if name == ESCROW { CreatedFirstPrefix(E.RULES, EOps(p), EOps(q)); }
    if name == FINANCING { CreatedFirstPrefix(F.RULES, FOps(p), FOps(q)); }
    if name == IDENTITY { CreatedFirstPrefix(I.RULES, IOps(p), IOps(q)); }
  }

  lemma DecodeTable(e: ChainEvent)
    ensures Decode(e).OnVerification? ==> e.contractName == VERIFICATION && (Decode(e).v.Create? ==>
              !Decode(e).v.made.revoked && Decode(e).v.made.revokedLedger == None)
    ensures Decode(e).OnEscrow? ==> e.contractName == ESCROW && (Decode(e).x.Create? ==>
              Decode(e).x.made.releasedAmount == 0 && Decode(e).x.made.status == E.Open)
    ensures Decode(e).OnFinancing? ==> e.contractName == FINANCING
    ensures Decode(e).OnIdentity? ==> e.contractName == IDENTITY
  {
  }

  lemma {:induction false} NamedOps(q: seq<ChainEvent>, name: string)
    requires Named(q, name)
    ensures name != VERIFICATION ==> VOps(q) == []
    ensures name != ESCROW ==> EOps(q) == []
    ensures name != FINANCING ==> FOps(q) == []
    ensures name != IDENTITY ==> IOps(q) == []
  {
    if q != [] {
      assert q[|q| - 1] in q;
      DecodeTable(q[|q| - 1]);
      NamedOps(q[..|q| - 1], name);
    }
  }

  lemma {:induction false} DecodedRowsFresh(q: seq<ChainEvent>)
    ensures V.FreshRows(VOps(q)) && E.FreshRows(EOps(q))
  {
    if q != [] {
      DecodeTable(q[|q| - 1]);
      DecodedRowsFresh(q[..|q| - 1]);
    }
  }

  lemma ApplyLocal(e: ChainEvent, t: Tables, u: Tables)
    requires SameTable(e.contractName, t, u)
    ensures
      var a, b := ApplyEvent(e, t), ApplyEvent(e, u);
      && a.Ok? == b.Ok?
      && (a.Ok? ==> SameTable(e.contractName, a.value.0, b.value.0) && a.value.1 == b.value.1)
      && (a.Ok? ==> forall other: string :: other != e.contractName ==> SameTable(other, a.value.0, t))
  {
    DecodeTable(e);
  }

  /** A pass over one contract's events reads and writes that contract's table only. */
  lemma {:induction false} PassLocal(q: seq<ChainEvent>, name: string, t: Tables, u: Tables)
    requires Named(q, name) && SameTable(name, t, u)
    ensures
      var a, b := Pass(q, t), Pass(q, u);
      && a.ok == b.ok && a.done == b.done && a.applied == b.applied
      && SameTable(name, a.tables, b.tables)
      && forall other: string :: other != name ==> SameTable(other, a.tables, t)
  {
    if q != [] {
      var front, e := q[..|q| - 1], q[|q| - 1];
      assert e in q && forall o :: o in front ==> o in q;
      PassLocal(front, name, t, u);
      if Pass(front, t).ok {
        ApplyLocal(e, Pass(front, t).tables, Pass(front, u).tables);
      }
      forall other: string | other != name ensures SameTable(other, Pass(q, t).tables, t) {
        assert SameTable(other, Pass(front, t).tables, t);
        assert ApplyEvent(e, Pass(front, t).tables).Ok? && Pass(front, t).ok ==>
            SameTable(other, Pass(q, t).tables, Pass(front, t).tables);
      }
    }
  }

  /** Outside escrow, where a pass stops does not depend on what the tables held before. */
  lemma {:induction false} DoneAnywhere(q: seq<ChainEvent>, name: string, t: Tables)
    requires Named(q, name) && name != ESCROW
    requires name == FINANCING ==> BeginsWithCreation(name, q)
    ensures Pass(q, t).done == Pass(q, EMPTY).done && Pass(q, t).ok == Pass(q, EMPTY).ok
  {
    if q != [] {
      var front := q[..|q| - 1];
      if name == FINANCING {
        BeginsPrefix(name, front, q);
      }
      DoneAnywhere(front, name, t);
      NamedOps(q, name);
      PassFolds(q, t);
      PassFolds(q, EMPTY);
      if name == FINANCING {
        F.SoundAnywhere(FOps(q), t.financings);
      }
    }
  }

  /** The statements each pass sends to one table. */
  function OpPasses<Op>(passes: seq<seq<ChainEvent>>, pick: Decoded -> seq<Op>): (r: seq<seq<Op>>)
    ensures |r| == |passes|
    ensures forall i :: 0 <= i < |r| ==> r[i] == Select(passes[i], pick)
  {
    if passes == [] then []
    else OpPasses(passes[..|passes| - 1], pick) + [Select(passes[|passes| - 1], pick)]
  }

  lemma {:induction false} ReplayFolds(passes: seq<seq<ChainEvent>>)
    requires Executed(passes)
    ensures ReplayAll(passes).verifications == Replay(V.RULES, OpPasses(passes, TO_VERIFICATIONS), map[])
    ensures ReplayAll(passes).escrows == Replay(E.RULES, OpPasses(passes, TO_ESCROWS), map[])
    ensures ReplayAll(passes).financings == Replay(F.RULES, OpPasses(passes, TO_FINANCINGS), map[])
    ensures ReplayAll(passes).farmers == Replay(I.RULES, OpPasses(passes, TO_FARMERS), map[])
    ensures ReplaySound(E.RULES, OpPasses(passes, TO_ESCROWS))
  {
    if passes != [] {
      var before, p := passes[..|passes| - 1], passes[|passes| - 1];
      ReplayFolds(before);
      PassFolds(p, ReplayAll(before));
      ReplaySnoc(V.RULES, OpPasses(before, TO_VERIFICATIONS), VOps(p), map[]);
      ReplaySnoc(E.RULES, OpPasses(before, TO_ESCROWS), EOps(p), map[]);
      ReplaySnoc(F.RULES, OpPasses(before, TO_FINANCINGS), FOps(p), map[]);
      ReplaySnoc(I.RULES, OpPasses(before, TO_FARMERS), IOps(p), map[]);
    }
  }

  lemma PrefixOps<Op>(passes: seq<seq<ChainEvent>>, q: seq<ChainEvent>, pick: Decoded -> seq<Op>)
    requires Prefixes(passes, q)
    ensures Prefixes(OpPasses(passes, pick), Select(q, pick))
  {
    forall i | 0 <= i < |passes| ensures OpPasses(passes, pick)[i] <= Select(q, pick) {
      SelectPrefix(passes[i], q, pick);
    }
  }

  /**
   What replaying needs of a pass's events: created first, per id; for verification exactly that an id
   revoked too early is revoked again, among the events a pass gets through.
   */
  ghost predicate Replayable(name: string, q: seq<ChainEvent>) {
    if name == VERIFICATION then V.RevokedAgain(VOps(q[..Pass(q, EMPTY).done]))
    else BeginsWithCreation(name, q)
  }

  /** Created first on the whole chain is enough, for every prefix. */
  lemma BeginsIsReplayable(name: string, q: seq<ChainEvent>, chain: seq<ChainEvent>)
    requires q <= chain && BeginsWithCreation(name, chain)
    ensures Replayable(name, q)
  {
    BeginsPrefix(name, q, chain);
    if name == VERIFICATION {
      var good := q[..Pass(q, EMPTY).done];
      BeginsPrefix(name, good, chain);
      V.CreatedFirstIsEnough(VOps(good));
    }
  }

  /** An executed pass over a prefix stays within what one pass from empty gets through. */
  lemma {:induction false} ExecutedWithin(passes: seq<seq<ChainEvent>>, q: seq<ChainEvent>, name: string)
    requires Named(q, name) && name != ESCROW
    requires name == FINANCING ==> BeginsWithCreation(name, q)
    requires Executed(passes) && Prefixes(passes, q)
    ensures Prefixes(passes, q[..Pass(q, EMPTY).done])
  {
    if passes != [] {
      var before, p := passes[..|passes| - 1], passes[|passes| - 1];
      ExecutedWithin(before, q, name);
      if name == FINANCING {
        BeginsPrefix(name, p, q);
      }
      DoneAnywhere(p, name, ReplayAll(before));
      PassExtends(p, q, EMPTY);
    }
  }

  /** Over events that a pass gets through whole, whatever tables it starts from. */
  ghost predicate Passable(q: seq<ChainEvent>, passes: seq<seq<ChainEvent>>) {
    Executed(passes) && Prefixes(passes, q) && Pass(q, EMPTY).ok && Pass(q, ReplayAll(passes)).ok
  }

  lemma VerificationsConverge(passes: seq<seq<ChainEvent>>, q: seq<ChainEvent>)
    requires Passable(q, passes) && V.RevokedAgain(VOps(q))
    ensures Pass(q, ReplayAll(passes)).tables.verifications == Pass(q, EMPTY).tables.verifications
  {
    PassFolds(q, EMPTY);
    PassFolds(q, ReplayAll(passes));
    ReplayFolds(passes);
    DecodedRowsFresh(q);
    PrefixOps(passes, q, TO_VERIFICATIONS);
    V.ReplayConverges(OpPasses(passes, TO_VERIFICATIONS), VOps(q));
  }

  lemma FinancingsConverge(passes: seq<seq<ChainEvent>>, q: seq<ChainEvent>)
    requires Passable(q, passes) && CreatedFirst(F.RULES, FOps(q))
    ensures Pass(q, ReplayAll(passes)).tables.financings == Pass(q, EMPTY).tables.financings
  {
    PassFolds(q, EMPTY);
    PassFolds(q, ReplayAll(passes));
    ReplayFolds(passes);
    PrefixOps(passes, q, TO_FINANCINGS);
    F.ReplayConverges(OpPasses(passes, TO_FINANCINGS), FOps(q));
  }

  lemma FarmersConverge(passes: seq<seq<ChainEvent>>, q: seq<ChainEvent>)
    requires Passable(q, passes) && CreatedFirst(I.RULES, IOps(q))
    ensures Pass(q, ReplayAll(passes)).tables.farmers == Pass(q, EMPTY).tables.farmers
  {
    PassFolds(q, EMPTY);
    PassFolds(q, ReplayAll(passes));
    ReplayFolds(passes);
    PrefixOps(passes, q, TO_FARMERS);
    I.ReplayConverges(OpPasses(passes, TO_FARMERS), IOps(q));
  }

  lemma TablesConverge(passes: seq<seq<ChainEvent>>, q: seq<ChainEvent>, name: string)
    requires Passable(q, passes) && name != ESCROW
    requires if name == VERIFICATION then V.RevokedAgain(VOps(q)) else BeginsWithCreation(name, q)
    ensures SameTable(name, Pass(q, ReplayAll(passes)).tables, Pass(q, EMPTY).tables)
  {
    if name == VERIFICATION {
      VerificationsConverge(passes, q);
    } else if name == FINANCING {
      FinancingsConverge(passes, q);
    } else if name == IDENTITY {
      FarmersConverge(passes, q);
    }
  }

  /**
   Replay convergence: after any passes over prefixes of `q`, each stopped anywhere, a pass
   over `q` ends like one pass from empty, and stops at the same event.
   */
  lemma Converges(passes: seq<seq<ChainEvent>>, q: seq<ChainEvent>, name: string)
    requires Named(q, name) && name != ESCROW && Replayable(name, q)
    requires Executed(passes) && Prefixes(passes, q)
    ensures
      var replayed, single := Pass(q, ReplayAll(passes)), Pass(q, EMPTY);
      && SameTable(name, replayed.tables, single.tables)
      && replayed.done == single.done && replayed.ok == single.ok
  {
    var t, good := ReplayAll(passes), q[..Pass(q, EMPTY).done];
    DoneAnywhere(q, name, t);
    ExecutedWithin(passes, q, name);
    PassCut(q, EMPTY);
    PassCut(q, t);
    if name != VERIFICATION {
      BeginsPrefix(name, good, q);
    }
    TablesConverge(passes, good, name);
  }

  /** What has been written to the `farmers` table: identity passes, and rows the API wrote. */
  datatype Entry = Ran(events: seq<ChainEvent>) | Wrote(address: string, row: I.Row)

  function ApplyEntry(entry: Entry, t: map<string, I.Row>): map<string, I.Row> {
    match entry
    case Ran(p) => Fold(I.RULES, IOps(p), t)
    case Wrote(address, row) => t[address := row]
  }

  function ReplayLog(log: seq<Entry>): map<string, I.Row> {
    if log == [] then map[] else ApplyEntry(log[|log| - 1], ReplayLog(log[..|log| - 1]))
  }

  function RanOf(log: seq<Entry>): seq<seq<ChainEvent>> {
    if log == [] then []
    else RanOf(log[..|log| - 1]) + if log[|log| - 1].Ran? then [log[|log| - 1].events] else []
  }

  predicate RanOnly(log: seq<Entry>) {
    forall entry :: entry in log ==> entry.Ran?
  }

  /** Where the API has written nothing, the log is the passes alone. */
  lemma {:induction false} RanOnlyReplays(log: seq<Entry>)
    requires RanOnly(log) && Executed(RanOf(log))
    ensures ReplayLog(log) == ReplayAll(RanOf(log)).farmers
  {
    if log != [] {
      var front, p := log[..|log| - 1], log[|log| - 1].events;
      assert log[|log| - 1] in log;
      assert RanOf(log) == RanOf(front) + [p];
      assert RanOf(log)[..|RanOf(log)| - 1] == RanOf(front);
      RanOnlyReplays(front);
      PassFolds(p, ReplayAll(RanOf(front)));
    }
  }

  lemma LogNext(log: seq<Entry>, entry: Entry)
    ensures RanOf(log + [entry]) == RanOf(log) + if entry.Ran? then [entry.events] else []
    ensures ReplayLog(log + [entry]) == ApplyEntry(entry, ReplayLog(log))
  {
    assert (log + [entry])[..|log|] == log;
  }

  /** An identity pass stops at the same event and sends the same statements whatever the table holds. */
  lemma IdentityPass(q: seq<ChainEvent>, t: Tables)
    requires Named(q, IDENTITY)
    ensures
      var p := q[..Pass(q, t).done];
      && Pass(q, t).done == Pass(q, EMPTY).done && Pass(q, t).ok == Pass(q, EMPTY).ok
      && Pass(q, t).tables.farmers == Fold(I.RULES, IOps(p), t.farmers)
  {
    DoneAnywhere(q, IDENTITY, t);
    PassCut(q, t);
    PassFolds(q[..Pass(q, t).done], t);
  }

  /**
   What an identity pass leaves over any table: per farmer, the single-fold row over the row that
   was there, which keeps its id, its profile and the ledgers the events do not give.
   */
  lemma IdentityMerges(q: seq<ChainEvent>, t: Tables, id: string)
    requires Named(q, IDENTITY) && BeginsWithCreation(IDENTITY, q)
    ensures
      Get(Pass(q, t).tables.farmers, id) ==
        I.Merged(Get(t.farmers, id), Get(Pass(q, EMPTY).tables.farmers, id))
  {
    IdentityPass(q, t);
    IdentityPass(q, EMPTY);
    var p := q[..Pass(q, t).done];
    BeginsPrefix(IDENTITY, p, q);
    I.Merges(IOps(p), t.farmers, id);
  }

  /** A recorded identity pass extends the log of its table. */
  lemma IdentityRecorded(t: Tables, log: seq<Entry>, q: seq<ChainEvent>)
    requires Named(q, IDENTITY) && t.farmers == ReplayLog(log) && Executed(RanOf(log))
    ensures
      var p := q[..Pass(q, t).done];
      && Pass(q, t).tables.farmers == ReplayLog(log + [Ran(p)])
      && RanOf(log + [Ran(p)]) == RanOf(log) + [p]
      && Executed(RanOf(log) + [p])
  {
    var p, before := q[..Pass(q, t).done], ReplayAll(RanOf(log));
    IdentityPass(q, t);
    LogNext(log, Ran(p));
    PassCut(q, t);
    assert Named(p, IDENTITY);
    DoneAnywhere(p, IDENTITY, t);
    DoneAnywhere(p, IDENTITY, before);
    assert (RanOf(log) + [p])[..|RanOf(log)|] == RanOf(log);
  }
}
