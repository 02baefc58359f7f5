# Indexer, sign-in and farmer registry, verified

This project models the parts of the backend that keep state across crashes, restarts and chain
re-organisations, and proves what that state means.

**The event indexer** pulls contract events after a persisted cursor, appends them to a keyed raw
store, moves the cursor, and then applies every stored event at or below `head - 10` to the projection
tables. It never rebuilds a projection: each pass replays the finalized events over the rows that
earlier passes left, and any pass may stop half way. `Keyed` gives the four tables one shape (each
statement reads and writes one row); `Verifications`, `Escrows`, `Financings` and `Identities` are
the four sets of SQL statements; `Projections` decodes events and folds them; `Payloads` names the
payload fields; `Store` and `Model` are the raw store and chain order; `Ingestion` is one ingest as a
list of statements that can be cut after any of them; `Feeds` is what holds between one contract's
chain, rows and cursor, while a fork stands as well; `Runs` is the transition system (events are
published, the head moves, ingests run or are cut, chains fork, operators rewind, the API writes
farmers' rows); `Guarantees` holds the results over runs; `Schedules` and `Ticks` are about several contracts;
`IndexerService` and `Sources` are the imperative code, proved to do exactly those steps.

**The RPC source** (`Rpc`, `ScVals`) turns a paged feed into chain events; `Arrivals` follows an event
from the server to its statement, and `Fetches` ingests from it. **Counter ids** (`Ids`, `Decimal`) are printed by the writers and parsed by the lookup routes. **Sign-in** (`Auth`) is the
challenge and session state machine with its signed message. **Farmers** (`Farmers`) is registration
as a protocol over two stores, with identity events projected onto the same table.

The results over runs take for granted that no two contracts share a name (the configuration could give
two the same one, and they would then write one table), that each event of a chain has its own
position after the start, and that the head does not move back; the convergence results also that
for each id the first event is its creation, which for verification is weakened to what is exactly
needed (`Verifications.ReplayExact`, `Replays.Replayable`). Each is a hypothesis of the lemma
concerned.

Database statements are atomic updates of maps. Randomness, clocks, signatures, hashes and address
syntax are parameters; of addresses the lookups take for granted only that none begins with the
presentation prefix. `dafny verify dfyconfig.toml` checks everything.

## Notes on the code

- The comments "idempotent for replays" (src/indexer/projections.rs:243-244,
  src/indexer/service.rs:35-37, 77-78) hold for verification, financing and identity. They do not
  hold for escrow, whose upsert leaves `released_amount` and `status` alone: a second identical pass
  counts every release again. `Escrows.SecondPassOverstates` is an input, `Escrows.PassConverges`
  the exact condition, `Escrows.ReleasedLaw` and `Guarantees.EscrowReleased` what the column does hold.
- "Applied once they cross the floor on a later ingest" (src/indexer/service.rs:39-42) needs that
  ingest to pull at least one new event: with nothing new it returns before the pass
  (`Guarantees.AppliedOnceFinal`).
- The runbook in migrations/0005_indexer.sql:89-91 deletes rows above the divergent ledger and resets
  the cursor to it; `rewind` deletes rows from that ledger on and removes the cursor. The model
  follows `rewind`.
- The comment of `parse_counter_id` (src/ids.rs:12-13) says that a bare counter is accepted; the code
  requires the prefix. The lookup routes accept a bare counter themselves.
- The lookup routes pass a prefixed id through once its tail parses, so `va:escrow:11` is accepted but
  is not the key of counter 11 (`Ids.UnpaddedMisses`; exact condition on the spelling in
  `Ids.NormalizeExact`).
- The source stops paging at any short page (src/indexer/rpc.rs:94-96), so a server that returns one
  before the end of its events hides the rest from that fetch (`Rpc.EventsAfter`).
- The projection comment speaks of the on-chain fields of the existing farmers table
  (src/indexer/projections.rs:585-588): a replay therefore never equals a fold from empty once the
  API has written a profile (`Guarantees.RunMergesProfiles` is what it does equal).

## Model

| member | source | states |
|---|---|---|
| Guarantees.RunConverges | src/indexer/service.rs:77-90 | in any run of publishing, head moves, cut ingests, forks and rewinds in which forks stay above the floors used and passes below a standing fork, a completed non-empty ingest with no fork standing leaves the contract's table equal to one fold from empty of its finalized events: verification (as long as early revocations are repeated) and financing, and identity while the API has not written the farmers table |
| Guarantees.RunMergesProfiles | src/indexer/projections.rs:585-677 | in any run, API writes to the farmers table included, a completed ingest leaves for every farmer the single-fold row over the row that was there, which keeps its id, profile, hash and the ledgers the events do not give; nothing else of the past shows, and the pass ends as from empty |
| Guarantees.IngestConverges | src/indexer/service.rs:59-90 | the same from any state that satisfies the run invariant, and the pass stops at the same event with the same success as the single fold |
| Guarantees.PassForgetsPast | src/indexer/service.rs:77-90 | a pass over a table left by any recorded passes ends like one from empty tables; for identity, as long as the log of the farmers table holds passes only |
| Guarantees.NoEventLost | src/indexer/service.rs:59-75 | in every state of every run, with the contract's forks rewound, each source event at or before the persisted cursor is in the raw store, and every raw row of the contract is an event of its chain |
| Guarantees.NothingForeignBelowFork | src/indexer/store.rs:8-31 | while a fork stands, the raw rows below it are events of the new chain, whatever ingests ran since |
| Guarantees.ReachableStore | src/indexer/store.rs:8-31 | every step of every run, however ingests are cut, keeps each contract's raw rows a prefix of its chain and its cursor on that prefix; while a fork stands, the rows below it are such a prefix and the cursor is past the fork or on the prefix |
| Guarantees.ReachableTables | src/indexer/service.rs:43-100 | in every run whose passes stay below standing forks and whose forks stay above the floors used, each table is the replay of the recorded passes, each over a prefix of the finalized chain, with the API's writes between them for the farmers table |
| Guarantees.CatchesUp | src/indexer/service.rs:48-75 | with no fork standing, an ingest that gets past its appends stores the whole chain and strictly advances the cursor to its last event |
| Guarantees.CompletedPass | src/indexer/service.rs:77-90 | a completed pass runs over exactly the chain's events at or below the floor, those pulled earlier included |
| Guarantees.AppliedOnceFinal | src/indexer/service.rs:52-90 | an ingest that pulls nothing changes nothing; the first completed one that pulls something applies every event the floor has reached |
| Guarantees.FinalitySafety | src/indexer/service.rs:13-90 | in every state of a run of shallow forks the table is a replay of recorded passes, and every event they saw is on the chain and at or below the highest floor used, itself at most ten ledgers behind the head |
| Fetches.IngestIsFinal | src/indexer/service.rs:54-90 | an uncut ingest that pulls something runs its pass over exactly the events of the chain whose ledger is at most head - 10, in chain order, and succeeds if and only if that pass does |
| Fetches.QuietIngest | src/indexer/service.rs:48-55 | an uncut ingest with nothing new after its cursor changes nothing, whatever the head |
| Guarantees.NothingPastBadEvent | src/indexer/service.rs:83-90 | in a run of shallow forks no recorded pass got to the first event that fails to decode, or past it |
| Guarantees.StopsAtBadEvent | src/indexer/service.rs:66-90 | in any run, a completed ingest whose floor has reached a bad event applies exactly the events before it and fails, while store and cursor still run to the end of the chain |
| Guarantees.ReorgRestores | src/indexer/store.rs:85-108 | after a fork, any number of ingests cut anywhere, and a rewind that reaches the fork, one ingest makes the raw rows exactly the new chain and puts the cursor at its last event |
| Guarantees.ReorgConverges | src/indexer/store.rs:85-108 | if every floor used before the rewind is below the fork, that ingest leaves the table equal to the fold of the new chain's finalized events |
| Guarantees.EscrowHistory | src/indexer/projections.rs:378-475 | the escrow table of a run of shallow forks is its recorded passes replayed, none of whose statements was refused |
| Guarantees.EscrowReleased | src/indexer/projections.rs:438-456 | in every state of a run of shallow forks, while no refund of the id was applied, released_amount is the sum over all passes, finished or cut, of the releases each got through |
| Guarantees.EscrowAfterIngest | src/indexer/projections.rs:378-475 | in any run, after a completed ingest amount is the created amount plus each deposit once over the events its pass got through, and a row with a refund among them equals the single fold of those events, whether or not the pass stopped at an event |
| Guarantees.PulledOnceInOrder | src/indexer/service.rs:48-75 | in any run without rewinds or forks of the contract whose ingests get at least to their cursor write, the batches laid end to end are the chain up to the cursor, each event once and in order, and the raw rows are exactly those |
| Runs.StepKeepsStore | src/indexer/store.rs:8-108 | every step keeps every contract's store in step with its chain, or below its standing fork |
| Runs.StepKeepsTables | src/indexer/service.rs:43-100 | every shallow step keeps every table a replay of passes over finalized prefixes, between API writes for identity |
| Feeds.IngestStore | src/indexer/service.rs:59-75 | what a cut after k statements leaves in the store and in the cursor, for every k |
| Feeds.ReplaysFinalized | src/indexer/store.rs:112-144 | the list read for the pass is the finalized prefix of the whole chain, not of the last batch |
| Feeds.Rewinds | src/indexer/store.rs:85-108 | a rewind to the fork or below leaves the store in step with the new chain, whatever mixed above it; a shorter one leaves the fork standing |
| Feeds.Forks | src/indexer/store.rs:85-108 | when a chain is replaced from a ledger on, the rows below it still match, and the cursor is past it or on them |
| Feeds.BehindIngests | src/indexer/service.rs:48-75 | an ingest cut anywhere keeps the rows below a standing fork a prefix of the new chain |
| Feeds.ReplaysBelowFork | src/indexer/store.rs:112-144 | under a standing fork a floor below it reads finalized events of the new chain only |
| Replays.Converges | src/indexer/service.rs:77-90 | fold(Q) after any passes over prefixes of Q, each stopped anywhere, is fold(Q) from empty, for the three convergent tables, failing payloads included; for verification under the exact condition on the events a pass gets through |
| Replays.BeginsIsReplayable | src/indexer/projections.rs:328-376 | a chain whose ids begin with their creation meets that condition at every finalized prefix |
| Replays.ReplayFolds | src/indexer/projections.rs:245-326 | event passes on top of each other are statement folds on top of each other, table by table |
| Replays.PassLocal | src/indexer/projections.rs:245-326 | a pass over one contract name reads and writes that name's table only |
| Replays.DoneAnywhere | src/indexer/projections.rs:245-326 | outside escrow, where a pass stops, and whether it succeeds, does not depend on what the tables held before |
| Replays.IdentityMerges | src/indexer/projections.rs:602-677 | an identity pass, stopped or not, over any table leaves the single-fold row over each farmer's row |
| Schedules.ScheduleIndependence | src/indexer/service.rs:21-32 | any interleaving that keeps each contract's calls in order, cut calls included, reaches the same store, cursors and four tables |
| Schedules.OwnCallsDecide | src/indexer/service.rs:21-32 | a contract's rows, cursor and table are fixed by its own calls alone |
| Ingestion.IngestFrame | src/indexer/service.rs:43-100 | an ingest, finished or cut, changes nothing another contract's ingest looks at |
| Ingestion.IngestCongruent | src/indexer/service.rs:43-100 | an ingest is a function of its own contract's rows, cursor and table |
| Ticks.TickOrderIrrelevant | src/indexer/service.rs:21-32 | two ticks over the same contracts in different orders end in the same database |
| Ticks.TickIsSchedule | src/indexer/service.rs:21-32 | a tick is the schedule of one uncut ingest per contract |
| IndexerService.Indexer.Ingest | src/indexer/service.rs:43-100 | the procedure is exactly an uncut ingest step of a run; it succeeds if and only if nothing was pulled or the pass succeeds, and returns the number pulled |
| IndexerService.Indexer.Absorb | src/indexer/service.rs:59-100 | appends, then cursor, then pass: the new store, cursor and tables, and the outcome when the pass stops |
| IndexerService.Indexer.ReplayFinalized | src/indexer/service.rs:83-90 | the loop over finalized events leaves the tables of the recursive pass, counts the consumed events and returns at the first error |
| IndexerService.Indexer.ApplyEvent | src/indexer/projections.rs:245-326 | each event runs its one statement or none; a bad payload or a sum out of range is an error and changes nothing |
| IndexerService.Indexer.AppendEvents | src/indexer/store.rs:8-31 | every stored row stays as it was, a new key holds the first event of the batch at it, and no other key appears |
| IndexerService.Indexer.GetCursor | src/indexer/store.rs:34-54 | the stored cursor, or START |
| IndexerService.Indexer.SetCursor | src/indexer/store.rs:57-81 | one contract's cursor is replaced, no other |
| IndexerService.Indexer.Rewind | src/indexer/store.rs:85-108 | drops the contract's rows from the ledger on and its cursor; no projection changes |
| IndexerService.Indexer.UpsertVerification | src/indexer/projections.rs:328-360 | on conflict every column but revoked and revoked_ledger is rewritten |
| IndexerService.Indexer.RevokeVerification | src/indexer/projections.rs:362-376 | sets the mark and its ledger on an existing row, and nothing on a missing one |
| IndexerService.Indexer.UpsertEscrow | src/indexer/projections.rs:378-419 | on conflict every column but released_amount and status is rewritten |
| IndexerService.Indexer.AddEscrowDeposit | src/indexer/projections.rs:421-436 | adds to amount, refused when the sum leaves BIGINT |
| IndexerService.Indexer.ReleaseEscrow | src/indexer/projections.rs:438-456 | adds to released_amount and derives status from the old amount, refused when the sum leaves BIGINT |
| IndexerService.Indexer.RefundEscrow | src/indexer/projections.rs:458-475 | sets status Refunded and released_amount to amount |
| IndexerService.Indexer.UpsertFinancing | src/indexer/projections.rs:477-523 | on conflict every column but status is rewritten |
| IndexerService.Indexer.AddFinancingDeposit | src/indexer/projections.rs:525-540 | adds to drawn_amount, refused when the sum leaves BIGINT |
| IndexerService.Indexer.ReleaseFinancing | src/indexer/projections.rs:542-558 | adds to drawn_amount and records the ledger, refused when the sum leaves BIGINT |
| IndexerService.Indexer.RefundFinancing | src/indexer/projections.rs:560-583 | takes from drawn_amount, clamped at zero, with the default mark and the first non-null default ledger |
| IndexerService.Indexer.UpsertIdentityFarmer | src/indexer/projections.rs:602-635 | inserts the untouched row, or updates only the on-chain columns of an existing one |
| IndexerService.Indexer.UpdateIdentityMetadata | src/indexer/projections.rs:637-656 | moves updated_ledger of an existing row when the payload has one |
| IndexerService.Indexer.AppendIdentityMarker | src/indexer/projections.rs:658-677 | joins one marker to the stored list |
| IndexerService.Indexer.Tick | src/indexer/service.rs:21-32 | every configured contract is ingested, whatever the others return |
| Store.FinalizedIsUpTo | src/indexer/store.rs:112-144 | the sorted query over rows that hold a prefix of the chain is that prefix cut at the floor |
| Store.AppendKeepsPrefix | src/indexer/store.rs:8-31 | re-appending from any earlier point leaves the rows a prefix, as conflicting inserts keep the first row |
| Store.AppendKeepsFirst | src/indexer/store.rs:8-31 | appending keeps each stored row as it was; the new keys are the batch's, each with the first event of the batch at it |
| Store.AppendSplit | src/indexer/store.rs:8-31 | appending two batches is appending their concatenation |
| Model.AfterMark | src/indexer/model.rs:34-40 | on an ordered chain the events after a cursor on it are the rest of the chain |
| Model.UpToExact | src/indexer/store.rs:112-144 | the finalized prefix is exactly the events at or below the floor |
| Model.UpToGrows | src/indexer/service.rs:77-82 | the finalized list of a pass is a prefix of the next one's |
| Model.StartBeforeAll | src/indexer/model.rs:28-40 | the cursor of a contract never ingested is before every position with non-negative parts |
| Projections.PassFolds | src/indexer/projections.rs:245-326 | a pass is one statement fold per table, and succeeds if and only if no payload is bad and no sum overflows |
| Projections.PassCut | src/indexer/service.rs:83-90 | a stopped pass equals the pass over the events it got through |
| Projections.PassStopsAt | src/indexer/service.rs:83-90 | a pass that meets a bad event has applied exactly the events before it |
| Projections.SkipsUnknown | src/indexer/projections.rs:245-326 | an event of an unknown name changes no table, no success and no count of any pass it stands in |
| Projections.FailsExactly | src/indexer/projections.rs:243-326 | applying an event fails if and only if its payload is bad or its sum is refused; it is reported as consumed if and only if its name is known |
| Projections.IgnoredExactly | src/indexer/projections.rs:245-326 | an event is ignored if and only if its name is none of the thirteen known ones |
| Projections.AppliedCounts | src/indexer/projections.rs:245-326 | a pass that succeeds has counted exactly the events of known names |
| Payloads.DecodesPublished | src/indexer/projections.rs:133-241 | each positional payload becomes the statement with its fields in place, is rejected if and only if a required number is out of range, and stores an optional one out of range as null |
| Payloads.RejectedExactly | src/indexer/projections.rs:133-241 | a positional event is rejected if and only if a required place of its payload is missing or holds something of another kind or range |
| Payloads.DecodesIdentity | src/indexer/projections.rs:589-677 | each identity event becomes the statement with its fields in place: absent and out-of-range ledgers as null, an absent marker list as the empty one |
| Payloads.IdentityRejected | src/indexer/projections.rs:589-600 | an identity event is rejected if and only if its first topic is not a string |
| Verifications.PassConverges | src/indexer/projections.rs:328-376 | a pass equals the single fold if and only if every row met is created by it, and revoked by it after that or neither revoked before nor early in the pass |
| Verifications.ReplayConverges | src/indexer/projections.rs:328-376 | replaying prefixes and then the whole equals the whole once, when early revocations are repeated |
| Verifications.ReplayExact | src/indexer/projections.rs:328-376 | every replay of prefixes converges if and only if each created id revoked before its first creation is revoked again after it |
| Verifications.ProjectionMeaning | src/indexer/projections.rs:328-376 | a row exists for each created id, with the last creation's fields and the last revocation's ledger |
| Verifications.RevokedBeforeCreatedDiverges | src/indexer/projections.rs:362-376 | without Created first the convergence fails: a witness |
| Financings.PassConverges | src/indexer/projections.rs:477-583 | a pass equals the single fold if and only if every row met is created by it and has its status set by a refund or by its first insert |
| Financings.ProjectionMeaning | src/indexer/projections.rs:477-583 | a row exists for each created id: plain columns of the last creation, status and ledgers each by the last statement that sets it |
| Financings.Refusals | src/indexer/projections.rs:525-583 | a statement is refused if and only if it adds to an existing row and the sum leaves 64 bits |
| Financings.ReplayConverges | src/indexer/projections.rs:477-583 | replaying prefixes and then the whole equals the whole once |
| Financings.CutPassMatchesNoPrefix | src/indexer/service.rs:83-90 | a repeated pass that is cut can leave a table no prefix of the events leads to: a witness |
| Financings.DrawnClosedForm | src/indexer/projections.rs:525-583 | after a pass drawn_amount is the maximum of d0 + S(n) and of S(n) - S(k) over the refunds k |
| Financings.DrawnConserved | src/indexer/projections.rs:560-583 | drawn_amount is the signed sum if and only if no refund goes below the running total |
| Financings.DrawnNeverNegative | src/indexer/projections.rs:525-583 | drawn_amount stays non-negative when the start and the increments are |
| Identities.PassConverges | src/indexer/projections.rs:602-677 | a pass equals the single fold if and only if every row met is registered by it, has no API profile and no ledger the pass does not set |
| Identities.ProjectionMeaning | src/indexer/projections.rs:602-677 | a row exists for each registered address, registered, under its presentation id, with the last created and updated ledgers given |
| Identities.ReplayConverges | src/indexer/projections.rs:602-677 | replaying prefixes and then the whole equals the whole once |
| Identities.Simulates | src/indexer/projections.rs:602-677 | over an existing row a pass keeps exactly the API columns and the ledgers it does not set |
| Identities.Merges | src/indexer/projections.rs:602-677 | the same for every id of any table, as one law |
| Identities.MarkerList | src/indexer/projections.rs:658-677 | after a pass the marker list is the registered list plus each later marker once, in order |
| Json.ConcatMeans | src/indexer/projections.rs:658-677 | what joining two stored JSON values gives: arrays end to end, a single value as an item, objects merged with the right one's fields |
| Escrows.PassConverges | src/indexer/projections.rs:391-402 | a pass equals the single fold if and only if every row met is created by it and is refunded by it, or has nothing released and an open or re-derived status |
| Escrows.ProjectionMeaning | src/indexer/projections.rs:378-475 | a row exists for each created id: a last refund leaves Refunded with what the escrow stood at, a last release leaves Released if and only if the releases reached the amount at that point, with the plain columns of the last creation |
| Escrows.AmountOfIs | src/indexer/projections.rs:421-436 | what an escrow stands at is its last created amount plus the deposits since |
| Escrows.ReleasedSince | src/indexer/projections.rs:458-475 | after its last refund an escrow has released what it stood at then plus the releases since |
| Escrows.ReleasedInAll | src/indexer/projections.rs:438-456 | without a refund an escrow has released the sum of its releases |
| Escrows.Refusals | src/indexer/projections.rs:421-456 | a statement is refused if and only if it adds to an existing row and the sum leaves 64 bits |
| Escrows.ReplayExact | src/indexer/projections.rs:391-475 | every accepted replay of prefixes converges if each created id is refunded or releases nothing, and only if, as long as BIGINT has room for a second pass |
| Escrows.RefusedRepeatHides | src/indexer/projections.rs:438-456 | the room is needed: a release of the largest amount is refused when repeated, so no accepted replay shows it |
| Escrows.ReleasedLaw | src/indexer/projections.rs:438-456 | released_amount is the sum over all passes of the releases in each |
| Escrows.AmountLaw | src/indexer/projections.rs:421-436 | amount is the created amount plus the last pass's deposits |
| Escrows.RefundForgetsPast | src/indexer/projections.rs:458-475 | with a refund in the pass the row equals the single fold, whatever earlier passes left |
| Escrows.SecondPassOverstates | src/indexer/projections.rs:391-402 | an escrow of 10 with 6 released reads 12 and Released after a second identical pass |
| Sources.StubEventSource.EventsAfter | src/indexer/chain.rs:67-88 | exactly the contract's events strictly after the cursor, in chain order |
| Sources.StubEventSource.Push | src/indexer/chain.rs:51-59 | stores the event under its position, replacing what was there |
| Sources.StubEventSource.SetHead | src/indexer/chain.rs:61-63 | moves the head and no event |
| Sources.ChainOfIsOrdered | src/indexer/chain.rs:67-88 | the filtered map is in chain order and holds exactly the contract's events |
| Rpc.EventsAfter | src/indexer/rpc.rs:47-101 | the page loop ends for every page limit and every page length the server chooses, with exactly the decodable events strictly after the cursor up to the first short page; it has them all if and only if none lies beyond |
| Rpc.FullPages | src/indexer/rpc.rs:94-97 | a server that fills every page but the last is read to its end |
| Rpc.StopsAtShortPage | src/indexer/rpc.rs:94-97 | every page read before the last one is full and the last is shorter than the limit; the fetch ends where that page ends |
| Rpc.StartsAtCursor | src/indexer/rpc.rs:58-59 | the ledger asked for is the cursor's own, or 1 |
| Arrivals.DecodedExactly | src/indexer/rpc.rs:115-138 | a server event decodes to exactly the chain event whose name, place, topics and data say what its parts say, and to none when a part cannot be read |
| Arrivals.PublishedArrives | src/indexer/rpc.rs:115-210 | a published event encoded as contract values arrives as the chain event that carries it and becomes the statement its fields ask for |
| Fetches.IngestFromRpc | src/indexer/service.rs:43-100 | an ingest from the RPC source is an uncut ingest over the chain it has read: the whole feed when pages are full, the feed up to the first short page otherwise |
| Fetches.FeedIsChain | src/indexer/rpc.rs:47-138 | a feed of the contract's events with sound ascending ids decodes to a chain that a run can publish |
| Fetches.ReadIsPrefix | src/indexer/rpc.rs:94-97 | what a fetch that stops early has read is a prefix of the decoded chain |
| Fetches.UncutIsStep | src/indexer/service.rs:43-100 | an uncut ingest is the ingest step of a run, and completes when it pulled something |
| Rpc.StartOmitsNothing | src/indexer/rpc.rs:58-59 | starting at ledger max(1, cursor ledger) skips no event after the cursor, the u32 cast included |
| Rpc.KeptIsAfter | src/indexer/rpc.rs:80-92 | decoding and filtering event by event is filtering the decoded chain |
| Rpc.PositionInjective | src/indexer/rpc.rs:119-135 | the operation id split loses nothing |
| Rpc.PositionOrder | src/indexer/rpc.rs:119-135 | with low words below 2^31, position order is the order of (operation id, event index) |
| Rpc.OrderBoundary | src/indexer/rpc.rs:132-132 | 2^31 is the exact boundary: an id keeps its place among sound ids if and only if its low word is below it |
| ScVals.DenotesExact | src/indexer/rpc.rs:148-199 | every contract value is stored as exactly the JSON it denotes: numbers by value, texts by content, vectors item by item, maps by the last entry of each key |
| ScVals.ReadableExact | src/indexer/rpc.rs:176-194 | a value is readable if and only if no map inside it has a key other than a symbol or a string |
| Rpc.DecodedChainOrdered | src/indexer/rpc.rs:115-138 | a server that emits sound ids in order yields a chain in chain order |
| ScVals.AmountExact | src/indexer/rpc.rs:159-166 | the JSON of an amount denotes hi * 2^64 + lo, as a number or a decimal string |
| ScVals.AmountInjective | src/indexer/rpc.rs:204-210 | different halves give different JSON |
| ScVals.PositionalAmount | src/indexer/projections.rs:114-116 | a positional read gives that same value when it fits i64 and nothing otherwise |
| ScVals.AmountEndToEnd | src/indexer/projections.rs:169-241 | from contract value to table statement every amount, those of creations included, is the same number or the payload is rejected |
| Decimal.PrintParse | src/indexer/rpc.rs:204-210 | parsing inverts decimal printing, negative numbers included |
| Ids.ParseAfterPrint | src/ids.rs:8-17 | every u64 counter survives printing and parsing, also above twelve digits |
| Ids.CounterIdInjective | src/ids.rs:8-10 | two counters of a kind never share a row id |
| Ids.KnownIds | src/ids.rs:8-10 | the printed form, kind prefix and twelve digits, on concrete counters |
| Ids.NormalizeIdempotent | src/routes/projections.rs:80-96 | normalising again changes nothing and keeps the counter denoted |
| Ids.NormalizeReachesKey | src/routes/projections.rs:271-282 | the bare, padded and printed forms all reach the key the writers use |
| Ids.NormalizeExact | src/routes/projections.rs:462-477 | for every spelling of a 64-bit counter, the result is the written key if and only if it is bare, or unsigned with twelve digits, or with more and no leading zero |
| Ids.NormalizeAccepts | src/routes/projections.rs:80-96 | accepted are exactly the decimals of 64-bit counters, prefixed or bare, behind any zeros and an optional plus |
| Decimal.Spelled | src/ids.rs:12-17 | every digit string is a printed number behind some zeros |
| Ids.UnpaddedMisses | src/routes/projections.rs:271-282 | a prefixed, unpadded id is accepted and is not the written key |
| Auth.RunSound | src/auth/service.rs:49-115 | over any run each session was made by one grant, each grant spent its own nonce, and each rests on an unexpired challenge for its address and on a signature over its message |
| Auth.SignedInTime | src/auth/service.rs:22-24 | every session rests on a signature given less than five minutes after its challenge was issued |
| Auth.UsedIffAccepted | src/auth/service.rs:57-92 | a challenge is marked used if and only if some call had it accepted |
| Auth.AcceptedOnce | src/auth/service.rs:70-92 | a nonce is accepted at most once in a run, even when no session follows |
| Auth.MessageBuysOneSession | src/auth/service.rs:79-115 | no signed message buys two sessions |
| Auth.LookupMeaning | src/auth/service.rs:118-133 | a token opens exactly the granted, unexpired sessions, each as the address that signed in |
| Auth.FoundExactly | src/auth/service.rs:93-133 | a lookup succeeds if and only if some sign-in call of the run was accepted with that token and the lookup comes before that call's later clock reading plus the session lifetime |
| Auth.FoundIs | src/auth/service.rs:93-133 | the session found is that call's: its address, the one role farmer, and an expiry of that reading plus the lifetime |
| Auth.SessionsFromCalls | src/auth/service.rs:93-106 | after any run a token hash has a session if and only if some accepted sign-in call brought that token, and the row is what its arguments say |
| Auth.RefusalExactly | src/auth/service.rs:57-83 | when a sign-in passes all its checks, in terms of the stored challenge, the clock and the signature, and which refusal each failure gives |
| Auth.VerifyExactly | src/auth/service.rs:51-115 | a refused sign-in changes nothing; an accepted one spends its challenge even when the lifetime or the session row fails after it, and otherwise stores and answers one session |
| Auth.ChallengeIsStored | src/auth/service.rs:24-47 | the challenge answered is the one stored, unused, for five minutes |
| Auth.HonestSignIn | src/auth/service.rs:17-115 | signing the answered challenge's message with the address's key before it expires is accepted |
| Auth.MessageText | src/auth/service.rs:154-159 | the signed text, line by line |
| Auth.MessageInjective | src/auth/service.rs:154-159 | one message names one domain, address, nonce and timestamp when the first three have no newline |
| Auth.NewlineCollides | src/auth/service.rs:154-159 | with a newline in the nonce two requests can share a message: a witness |
| Auth.AuthService.IssueChallenge | src/auth/service.rs:17-46 | the challenge row made, or the refusal with no change |
| Auth.AuthService.VerifyChallenge | src/auth/service.rs:49-115 | the order of the checks, the spent mark before the session row, and the error left by each later failure |
| Auth.AuthService.FindSession | src/auth/service.rs:118-133 | the row of an unexpired token hash, or unauthorized |
| Farmers.TableMirrorsChain | src/farmers/service.rs:18-78 | over API-only runs whose writes succeed, table and chain have the same addresses and ledgers and every hash matches its metadata |
| Farmers.CallMirrors | src/farmers/service.rs:128-170 | the two stores part if and only if the database write fails on the registration of an address new to the chain, or on an update of one whose ledger there is another than the next |
| Farmers.CallWrites | src/farmers/service.rs:50-67 | an API call leaves the table alone, or inserts one row, or rewrites the profile and updated ledger of one: the write the indexer's runs allow for |
| Farmers.StrandedForever | src/farmers/service.rs:45-71 | an address on the chain without a row never gets a row through the API again |
| Farmers.LedgersConsecutive | src/farmers/chain.rs:62-92 | in every run the created ledgers are exactly 100000 .. 100000 + n - 1, one farmer each |
| Farmers.RowsStayHonest | src/farmers/service.rs:128-170 | with API calls, failed writes and identity events in any order, every row has the hash of its metadata or is the indexer's untouched row |
| Farmers.EventKeepsProfiles | src/indexer/projections.rs:602-677 | no identity event changes a stored profile or its hash |
| Farmers.RegisterThenGet | src/farmers/service.rs:80-119 | a lookup by address or by presentation id finds what the registration returned |
| Farmers.UpdateThenGet | src/farmers/service.rs:128-170 | an update returns the new profile with id and created ledger unchanged, and a lookup finds it |
| Farmers.RegisterExactly | src/farmers/service.rs:18-78 | a registration succeeds if and only if the caller speaks for itself with a name and, if any, the right hash, is new to chain and table, and the write goes through; when each refusal is given, every column written and returned, and what a failure leaves |
| Farmers.UpdateExactly | src/farmers/service.rs:128-170 | the same for an update: when each answer is given, the columns it changes and the ones it keeps |
| Farmers.LookupExactly | src/farmers/service.rs:80-119 | a lookup gives exactly the farmer its row describes; bad request if and only if no address is named, not found if and only if the one named has no row |
| Farmers.MetadataExact | src/farmers/model.rs:8-24 | a stored profile is read if and only if each field stands under its own name, or at its own place in an array |
| Farmers.SpacesAre | src/farmers/service.rs:28-32 | a name is blank when it has nothing but the 25 White_Space code points |
| Farmers.StoredKeys | src/farmers/model.rs:8-24 | a profile is stored under its field names, absent fields left out |
| Farmers.MarkersExact | src/farmers/service.rs:121-126 | stored markers are read if and only if each has kind, issuer and a 64-bit ledger, and then all in order |
| Farmers.MetadataRoundTrip | src/farmers/model.rs:8-24 | reading the stored object gives back the profile, absent fields included |
| Farmers.StubChain.Register | src/farmers/chain.rs:62-80 | refuses a known address, else records the next ledger |
| Farmers.StubChain.UpdateMetadata | src/farmers/chain.rs:82-92 | refuses an unknown address, else moves only its updated ledger |
| Farmers.FarmerService.RegisterFarmer | src/farmers/service.rs:18-78 | both stores after a registration, for every refusal and for a chain write without a row |
| Farmers.FarmerService.UpdateMetadata | src/farmers/service.rs:128-170 | both stores after an update, for every refusal and for a chain write without a row change |
| Farmers.FarmerService.GetFarmer | src/farmers/service.rs:80-119 | the decoded row, not found, or an error for a row that does not decode |

## Left out

- IndexerService.Indexer.Rewind: its two deletes are one completed step, so a crash between them is not modelled.
- Guarantees.RunConverges: says nothing of an ingest while a fork stands un-rewound, when old and new rows may mix from the fork on.
- Rpc.EventsAfter: the server's feed is one finite sequence during the loop, its cursor the position just past the page; server errors end the call without effect and are left out.
- Auth.AuthService.VerifyChallenge: its statements run without another call in between; the date overflow of a very large session lifetime is not modelled.
- Farmers.FarmerService.RegisterFarmer: ledgers are unbounded integers, since a stub chain of 2^63 farmers cannot exist.
- Two contracts of one name, which would share a projection table.
- A database error inside an ingest is modelled as the ingest being cut before that statement.
- Several processes ingesting one contract at the same time.
- Rendering of batch and booking references as UUIDs: a row keeps the kind and hex it is rendered from.
- Wall-clock columns, the poll interval, and the SQL schema's indexes.
- Timestamps as text: instants are integers, and the client's timestamp in a verify request is any string.
- XDR decoding, strkey, ed25519, SHA-256, base64 and JSON escaping: abstract functions or already decoded values.
- Farmer search, page slicing and the documents table: library queries and easy arithmetic.
- HTTP handlers, OpenAPI, configuration, tracing and start-up.
