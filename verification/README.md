# The scoped transactional ledger and the GRDI shadow-governance protocol

A Dafny 4.11 model of PhiGraph's scoped ledger and of the governance protocol that runs on it, with proofs
of the properties its documentation promises. `dafny verify dfyconfig.toml` checks everything.

## What is modelled

**The ledger** keeps rows per tenant, project, collection and canonical key. Nine collections are
chain-linked: each scope has an append-only hash chain per collection with a stored head. Six are mutable:
their rows are replaced by compare-and-set. `ScopedStore` is the ledger as a value (`Store`) with the effect
of each session operation; `ScopedEngine.JsonEngine` and `SqliteEngine.SqliteEngine` are the two engines as
classes that update dictionaries and tables in place and are proved against those effects. `ChainVerifier`
is the verifier that re-derives every chain.

**Transactions** are programs over a session (`Sessions.Prog`): a call, then a continuation that looks at
its result. A transaction declares lock references, takes them in one global order, runs its body and
commits whole or not at all. `Concurrency` interleaves any number of them call by call under any schedule,
with kills at any point. `MutableRace` says exactly when writes to mutable collections are serial too, and
`ConcurrentRuns` that every concurrent execution of service calls is a run of the protocol.

**The protocol** (`ProtocolSteps`) registers envelopes, authorises them, plans, simulates, records outcomes,
replays and compares. Each call first reads some earlier committed state and then runs one transaction.
`ProtocolAnswers` and `ReplayAnswers` say of each call when it commits and what it then returns and stores,
from its arguments and the stored records alone; `StoreAnswers` does so for the operations of the ledger and
`MigrationAnswers` for migration and backfill.
`ProtocolRecords.Governed` is its invariant: every stored record agrees with the records it rests on.

**Replay, comparison, migration, backfill and cutover** are modelled with their loops (`Replay`,
`SourceDrift`, `Comparison`, `LegacyMigration`, `Backfill`, `Cutover`), as are the legacy whole-ledger chain (`LegacyLedger`) and the
sliding-window limiter (`RateLimiter`).

## Modelling choices

- SHA-256 over canonical JSON is a constructor applied to the hashed value, so equal digests come from equal
  values. An HMAC is a constructor applied to the key and the body. Both are what the ledger relies on.
- A stored payload is the record with its scope; `_chain` is kept apart because every hash leaves it out.
- Canonical keys and scoped keys are tuples; the NUL-joined strings of the source are assumed to have
  NUL-free parts, and distinct lock references to have distinct advisory keys.
- A body makes at most `bound` calls, because Dafny needs a measure for recursion through continuations.
  The general theorems hold for every bound; `ProtocolLocks.NoUndeclaredLocks` shows that no protocol step is
  cut off by its bound.
- Identifiers and times are inputs of a call. Only the receipt identifier must be unused in its scope
  (`ProtocolRuns.Fresh`), for which it is enough that simulations draw different ones
  (`ProtocolRuns.DistinctDrawsAreFresh`); every other clash ends in a rollback that the proofs cover.
- The theorems on concurrency hold for every strict total order on lock references; `LockOrder` is the one
  of the source, on the texts of identifiers and keys, with any injective text for digests.
- The reads that a service call makes before its transaction see one earlier state. Reads of several states
  would find nothing that the last of them does not, since rows are never removed.
- A program's verification call reads the committed state with the program's own writes on top; the engines
  read the committed state alone (`ScopedEngine.RunOnFile`). `ScopedEngine.LockedVerifiesEarly` shows that
  every protocol step verifies before it writes, where the two are the same.

## Where the code promises less than it seems

- The JSON verifier checks nothing about a mutable row flagged `chain_linked`; SQLite decides by collection
  (`VerifierGap`).
- PostgreSQL numbers mutable rows under a lock on the row's own key only, so two transactions or writes that
  share no lock and insert new rows into one mutable collection of one scope can both take the same number.
  A mix of transactions with enough locks, standalone appends and compare-and-sets is serial under every
  schedule exactly if no two of them do that (`MutableRace.SerialUnlessContended`).
- Record ids that are used twice in a group split the engines: JSON stores the second row, SQLite refuses it
  (`EngineRuns.SharedIdSplitsEngines`); they agree on a run of operations exactly if that never happens.
- A DIFFERENT comparison lists nothing when only the protocol versions differ (`Comparison.SilentExactly`).
- A plan may rest on an authority decision about another envelope: the gateway then blocks it, and its replay
  reports INVALID rather than INCOMPLETE (`ReplayAnswers.EarlyReportExactly`).
- Migrating twice fails when a legacy row's scope entry is not exactly tenant and project
  (`LegacyMigration.SecondMigrationExactly`, `LegacyMigration.InexactRowMigratesOnce`).
- After a cutover the projections that readers see also differ from the legacy flags for flagged plans past
  the first 1000 listed and for plans whose event is past the first 1000 of its scope
  (`Cutover.CutoverAgreesExactly`).
- The limiter rounds the advertised wait down, so with fractional times it need not suffice
  (`RateLimiter.WaitingSufficesExactly`).

## Model

| member | source | states |
|---|---|---|
| `ScopedInvariant.EffectKeepsValid` | src/phigraph/core_v3/scoped_ledger.py:571-675 | no session operation, successful or failing, breaks a chain, a head or a standalone row |
| `ScopedInvariant.AppendKeepsValid` | src/phigraph/core_v3/scoped_ledger.py:611-675 | an append of any record, found, refused or inserted, keeps every group valid |
| `ScopedInvariant.EmptyHeadKeepsValid` | src/phigraph/core_v3/scoped_ledger.py:635-647 | the empty head that a failing append leaves inside a transaction is harmless |
| `ScopedInvariant.CasKeepsValid` | src/phigraph/core_v3/scoped_ledger.py:1043-1086 | compare-and-set keeps sequence numbers and leaves a self-consistent row |
| `ScopedInvariant.ValidIsIntact` | src/phigraph/core_v3/scoped_ledger.py:1248-1356 | verification of any selection accepts every store that the operations can reach |
| `ScopedInvariant.Order` | src/phigraph/core_v3/scoped_ledger.py:854-877 | in a valid group, sorting by sequence number lists the rows 1..n and the next number is n+1 |
| `TamperEvidence.SamePrefix` | src/phigraph/core_v3/transactions.py:155-168 | equal chain hashes mean equal collections, lengths and records all the way back |
| `TamperEvidence.SameHeadSameRecords` | src/phigraph/core_v3/scoped_ledger.py:163-210 | two groups that verify with the same head hash hold the same sequence of records: no edit, reorder, insertion or truncation keeps the head |
| `ChainVerifier.SortFindsListing` | src/phigraph/core_v3/scoped_ledger.py:177-188 | sorting finds the 1..n listing whenever there is one |
| `ChainVerifier.CheckMetadata` | src/phigraph/core_v3/scoped_ledger.py:133-152 | the metadata loop accepts exactly the lists whose rows all agree with their `_chain` entry and payload hash |
| `ChainVerifier.CheckSequences` | src/phigraph/core_v3/scoped_ledger.py:181-188 | the gap loop accepts exactly the sequences 1, 2, ... |
| `ChainVerifier.CheckLinks` | src/phigraph/core_v3/scoped_ledger.py:190-201 | the link loop accepts exactly the lists in which each row extends the chain before it |
| `ChainVerifier.ValidateLinkedChainGroup` | src/phigraph/core_v3/scoped_ledger.py:163-210 | a group is accepted if and only if it is empty or a complete chain that ends in the stored head |
| `ChainVerifier.CheckOrphanHeads` | src/phigraph/core_v3/scoped_ledger.py:1306-1328 | accepts exactly when every selected head without rows is empty |
| `ChainVerifier.CheckStandaloneRows` | src/phigraph/core_v3/scoped_ledger.py:1330-1355 | accepts exactly when every selected unlinked row is self-consistent |
| `ChainVerifier.VerifyState` | src/phigraph/core_v3/scoped_ledger.py:1248-1356 | the whole verifier accepts if and only if every selected chain, head and standalone row is intact, and reports the head of each chain with rows |
| `ChainVerifier.IntactExactly` | src/phigraph/core_v3/scoped_ledger.py:133-210 | what verification accepts, written out: every selected chain is numbered 1, 2, ... with each row linked to the hash before it, hashing its own payload, agreeing with its `_chain` entry and payload hash, and the head naming the last row; every selected standalone row agrees with its own hashes |
| `VerifierGap.VerifiersAgreeExactly` | src/phigraph/core_v3/scoped_ledger.py:1448-1481 | what JSON accepts SQLite accepts too exactly if the mutable rows flagged linked are consistent |
| `VerifierGap.ValidStoresAgree` | src/phigraph/core_v3/scoped_ledger.py:1448-1481 | on every store that the operations build both verifiers see the same rows and accept them |
| `VerifierGap.JsonAcceptsTamperedRow` | src/phigraph/core_v3/scoped_ledger.py:1331-1342 | a tampered mutable row that JSON accepts and SQLite rejects |
| `StoreLaws.PagesConcatenate` | src/phigraph/core_v3/scoped_ledger.py:854-877 | pages of any size concatenate to the listing, each row once |
| `StoreLaws.AppendIsListedLast` | src/phigraph/core_v3/scoped_ledger.py:872-877 | listing is insertion order: a created record comes last, and no other group changes |
| `StoreLaws.AtMostOneWins` | src/phigraph/core_v3/scoped_ledger.py:1060-1082 | in any mix of operations at most one compare-and-set per row and expected version wins |
| `StoreAnswers.SwapsExactly` | src/phigraph/core_v3/scoped_ledger.py:1043-1086 | a compare-and-set swaps if and only if the collection is mutable, something is expected, the locks allow it and the row is there with every expected version and payload hash true of it; otherwise it changes nothing and gives the error of the first check that fails |
| `StoreAnswers.SwapStores` | src/phigraph/core_v3/scoped_ledger.py:1066-1086 | a swap replaces that one row: the new record and its hashes, the next version, the same number and record id, no link |
| `StoreAnswers.GuardedSwap` | src/phigraph/core_v3/scoped_ledger.py:1060-1082 | a swap under the hash or version just read succeeds and is read back; whoever still expects the earlier version, or the earlier hash of a changed record, gets VersionConflict |
| `StoreAnswers.AppendsExactly` | src/phigraph/core_v3/scoped_ledger.py:611-675 | an append inserts, finds the same record, or is refused for its locks, a duplicate or a missing record id, each exactly when |
| `StoreAnswers.CreatedRow` | src/phigraph/core_v3/scoped_ledger.py:635-675 | a created row has version 1, the next number, the link to the last row of its chain and its record's id; the head moves to it, nothing else changes, and it is what is read under its key |
| `StoreAnswers.OwnRecordIds` | src/phigraph/core_v3/transactions.py:252-263 | the identifier under which each protocol record is stored |
| `StoreAnswers.GetsExactly` | src/phigraph/core_v3/scoped_ledger.py:808-824 | a read finds the row under its key or nothing and writes nothing |
| `StoreAnswers.ListsExactly` | src/phigraph/core_v3/scoped_ledger.py:854-877 | bounds outside 1 to 1000 are refused; otherwise the rows numbered offset + 1 on, as many as there are up to the limit |
| `StoreAnswers.WritesNeedLocks` | src/phigraph/core_v3/transactions.py:203-232 | inside a transaction an append is refused for its locks if and only if its CANONICAL lock or, for a chain, its CHAIN lock was not declared |
| `StoreAnswers.ForeignLocksRefused` | src/phigraph/core_v3/transactions.py:186-194 | a transaction that declares a lock of another scope is refused before its body runs |
| `ScopedEngine.StoreState.NextMutableSequence` | src/phigraph/core_v3/scoped_ledger.py:556-569 | the loop finds the largest sequence number of the group, plus one |
| `ScopedEngine.StoreState.Append` | src/phigraph/core_v3/scoped_ledger.py:611-675 | the in-place append of a loaded state has exactly the append effect, empty head included |
| `ScopedEngine.JsonEngine.Append` | src/phigraph/core_v3/scoped_ledger.py:571-675 | checks locks, appends to the active state; a failing standalone append leaves the file alone |
| `ScopedEngine.JsonEngine.CompareAndSet` | src/phigraph/core_v3/scoped_ledger.py:996-1086 | field-by-field update equals the compare-and-set effect, which `StoreAnswers.SwapsExactly` and `StoreAnswers.SwapStores` state in full |
| `ScopedEngine.JsonEngine.Get` | src/phigraph/core_v3/scoped_ledger.py:808-824 | reads the active state inside a transaction and the file outside |
| `ScopedEngine.JsonEngine.List` | src/phigraph/core_v3/scoped_ledger.py:854-877 | bad bounds are refused; on any state the page is cut from all rows of the group in ascending sequence, each once; on a valid state it is the page of the insertion order |
| `ScopedEngine.JsonEngine.Verify` | src/phigraph/core_v3/scoped_ledger.py:1227-1236 | verification of the file, also inside a transaction |
| `ScopedEngine.JsonEngine.RunScopedTransaction` | src/phigraph/core_v3/scoped_ledger.py:1166-1194 | on a valid file, for every body: what the body leaves on a copy of the file, where verification reads the file itself, replaces the file if the body returned, else the file stays; nested calls are refused; the transaction state is always dropped |
| `ScopedEngine.EarlyIsTransaction` | src/phigraph/core_v3/scoped_ledger.py:1166-1194 | for a body that verifies only where the file and its own view agree, the engine's transaction is the abstract one |
| `ScopedEngine.LockedVerifiesEarly` | src/phigraph/core_v3/scoped_ledger.py:1234-1236 | a body with enough locks verifies only where the file and its own view agree |
| `SqliteEngine.SqliteEngine.InsertRow` | src/phigraph/core_v3/scoped_ledger.py:764-787 | an insert is refused exactly when it would violate a unique index |
| `SqliteEngine.SqliteEngine.AppendStatements` | src/phigraph/core_v3/scoped_ledger.py:688-799 | the statements have exactly the append effect unless the insert clashes |
| `SqliteEngine.SqliteEngine.Append` | src/phigraph/core_v3/scoped_ledger.py:677-806 | same answers as the JSON engine unless record ids clash, and then nothing is stored; an own connection rolls back on every error |
| `SqliteEngine.SqliteEngine.CompareAndSet` | src/phigraph/core_v3/scoped_ledger.py:1088-1164 | same answers and rows as the JSON engine, except that a mutable row whose `_chain` entry claims to be linked is refused |
| `SqliteEngine.ValidNeverClaimsLinked` | src/phigraph/core_v3/scoped_ledger.py:1112-1113 | no row of a valid mutable group claims to be linked, so that refusal never happens there |
| `SqliteEngine.SqliteEngine.Get` | src/phigraph/core_v3/scoped_ledger.py:825-844 | same answers as the JSON engine |
| `SqliteEngine.SqliteEngine.List` | src/phigraph/core_v3/scoped_ledger.py:878-897 | same bounds and, on a valid store, the same page as the JSON engine |
| `SqliteEngine.SqliteEngine.Verify` | src/phigraph/core_v3/scoped_ledger.py:1358-1481 | verification of the committed tables, also inside a transaction |
| `SqliteEngine.SqliteEngine.RunScopedTransaction` | src/phigraph/core_v3/scoped_ledger.py:1195-1215 | on valid tables, for every body: what the body leaves is committed if it returned, else the tables stay; a clashing insert fails inside the body and changes nothing |
| `SqliteEngine.SmoothIsTransaction` | src/phigraph/core_v3/scoped_ledger.py:1166-1215 | a transaction whose calls do not clash has the same outcome and leaves the same store on both engines |
| `SqliteEngine.OnlyRecordIdsClash` | src/phigraph/core_v3/scoped_ledger.py:44-59 | on a valid store the sequence index never fires: only a record id in use can clash |
| `EngineRuns.AnswersDifferExactly` | src/phigraph/core_v3/scoped_ledger.py:44-59 | on a valid store the engines answer an operation differently if and only if it appends a new key whose record id is in use in its group |
| `EngineRuns.RunsAgreeExactly` | src/phigraph/core_v3/scoped_ledger.py:571-806 | over a whole run of operations and transactions: without a clash all replies and the stores are the same; for operations alone the replies are the same if and only if no request clashes when its turn comes |
| `EngineRuns.DistinctIdsNeverClash` | src/phigraph/core_v3/scoped_ledger.py:44-59 | if different keys of a group have different record ids, no request of the run ever clashes, whatever its transactions do |
| `EngineRuns.RunBoth` | src/phigraph/core_v3/scoped_ledger.py:571-1164 | both engine classes, given any requests: JSON follows the abstract store; with different record ids SQLite gives the same replies and ends with the same rows and heads |
| `EngineRuns.SharedIdSplitsEngines` | src/phigraph/core_v3/scoped_ledger.py:764-787 | two claims with one record id: JSON stores both, SQLite refuses the second |
| `Locks.TupleOrderIsTotal` | src/phigraph/core_v3/transactions.py:171-183 | comparing field by field, with CHAIN before CANONICAL, is a strict total order if the orders on ids and keys are |
| `LockOrder.StringOrderIsTotal` | src/phigraph/core_v3/transactions.py:171-183 | comparing strings character by character is a strict total order |
| `LockOrder.EventTextIsUnique` | src/phigraph/core_v3/transactions.py:78-81 | the text of an event key determines plan and event type |
| `LockOrder.RankIsByName` | src/phigraph/core_v3/transactions.py:171-183 | the order of collections is that of their names, character by character |
| `LockOrder.GlobalOrderIsTotal` | src/phigraph/core_v3/transactions.py:171-183 | the order in which locks are acquired, on the texts of ids and keys, is a strict total order |
| `Locks.NormalizeSorts` | src/phigraph/core_v3/transactions.py:171-183 | normalising keeps exactly the declared references, each once, in the global order |
| `Locks.NormalizeIsCanonical` | src/phigraph/core_v3/transactions.py:171-183 | the acquisition order depends on the set of references only |
| `Sessions.TransactionIsAtomicAndFramed` | src/phigraph/core_v3/transactions.py:186-232 | a failed transaction changes nothing; a committed one changes only rows whose CANONICAL (and CHAIN) lock and heads whose CHAIN lock it declared, in its own scope |
| `Concurrency.StepsStable` | src/phigraph/core_v3/postgres_scoped.py:595-626 | a run under locks makes the same calls with the same results on any store that agrees on the locked part |
| `Concurrency.StepsInsertOnly` | src/phigraph/core_v3/postgres_scoped.py:223-369 | a disciplined run inserts no row into a mutable collection beyond those it may |
| `Concurrency.NextNumber` | src/phigraph/core_v3/postgres_scoped.py:277-285 | the next number of a mutable group depends on its keys and numbers only, so swaps by others do not disturb an append |
| `Serializability.CommitIsInvisible` | src/phigraph/core_v3/postgres_scoped.py:151-178 | a commit leaves alone everything that another running thread's locks protect, and the numbering of every mutable group in which it may still insert |
| `Serializability.Serializable` | src/phigraph/core_v3/postgres_scoped.py:595-626 | for transactions on chain-linked and mutable collections of which no two that share no lock insert different new rows into one mutable group: under every schedule the committed store is the serial result of the committed transactions in commit order, each returned what it returns there, and the store is valid |
| `DeadlockFreedom.FindMover` | src/phigraph/core_v3/postgres_advisory.py:46-50 | following owners of wanted locks climbs the order and ends at a thread that can move |
| `DeadlockFreedom.DeadlockFree` | src/phigraph/core_v3/postgres_advisory.py:46-50 | in every reachable unfinished state some thread's move makes progress |
| `DeadlockFreedom.EveryRunCanFinish` | src/phigraph/core_v3/postgres_advisory.py:46-50 | from every reachable state at most Measure further moves finish all threads |
| `DeadlockFreedom.NoMoveRaisesMeasure` | src/phigraph/core_v3/postgres_scoped.py:595-626 | every move changes nothing or lowers the measure |
| `MutableRace.LockedStepDeclares` | src/phigraph/core_v3/transactions.py:218-232 | a transaction with enough locks that inserts nothing into mutable collections declares no rows |
| `MutableRace.UncontendedIsSerial` | src/phigraph/core_v3/postgres_scoped.py:180-221 | transactions, standalone appends and compare-and-sets of which no two race are serial under every schedule |
| `MutableRace.RaceHappens` | src/phigraph/core_v3/postgres_scoped.py:277-285 | whenever two transactions share no lock, and each alone commits and inserts a new row into the same mutable group, some schedule leaves a store that is not valid and that no serial order produces, on any valid store and whatever else runs |
| `MutableRace.SerialUnlessContended` | src/phigraph/core_v3/postgres_scoped.py:223-285 | for transactions that declare the rows they insert into mutable collections, appends and compare-and-sets: every schedule is serial, and every schedule keeps the store valid, if and only if no two of them share no lock and insert new rows into one mutable group |
| `MutableRace.WritesRaceExactly` | src/phigraph/core_v3/postgres_advisory.py:53-68 | two standalone appends race if and only if they bring different new keys with record ids to one mutable collection of one scope |
| `MutableRace.ClaimsCanRace` | src/phigraph/core_v3/postgres_scoped.py:277-285 | the failure is real: two claims written at the same time to an empty ledger |
| `SerialSchedules.EverySerialOrderHappens` | src/phigraph/core_v3/postgres_scoped.py:595-626 | every serial order of any of the transactions is the effect of some schedule: each of them ends as it does in that order, committed or not, the committed store is the serial one, and every lock is free again |
| `ProtocolLocks.RegisterLocked` | src/phigraph/grdi/ledger_ops.py:33-42 | envelope locks cover the registration's calls |
| `ProtocolLocks.AuthorizeLocked` | src/phigraph/grdi/ledger_ops.py:45-61 | authority locks cover the authorisation's calls |
| `ProtocolLocks.PlanLocked` | src/phigraph/grdi/ledger_ops.py:64-91 | plan locks cover all three appends |
| `ProtocolLocks.SimulateLocked` | src/phigraph/grdi/ledger_ops.py:94-125 | simulation locks cover both paths; the unlocked envelope read gives up when it finds nothing |
| `ProtocolLocks.OutcomeLocked` | src/phigraph/grdi/ledger_ops.py:128-151 | outcome locks cover lookup and append |
| `ProtocolLocks.SnapshotLocked` | src/phigraph/grdi/ledger_ops.py:186-197 | snapshot locks cover every read of a replay |
| `ProtocolLocks.ReplayLocked` | src/phigraph/grdi/ledger_ops.py:207-212 | with the manifest's lock they also cover storing the report |
| `ProtocolLocks.CompareLocked` | src/phigraph/grdi/ledger_ops.py:200-243 | the key under which a comparison is stored is the one its locks name |
| `ProtocolLocks.LoadPairLocked` | src/phigraph/grdi/ledger_ops.py:200-204 | the snapshot locks of a comparison cover loading both reports |
| `ProtocolLocks.NoUndeclaredLocks` | src/phigraph/core_v3/transactions.py:218-232 | no service call, nor the transaction that prepares a replay or a comparison, can meet an undeclared lock or be cut off, on any store |
| `ProtocolLocks.StandaloneWriteLocked` | src/phigraph/core_v3/postgres_advisory.py:53-68 | the implicit locks of a write outside a transaction are enough for it |
| `ProtocolLocks.LockedStepsAreSerializable` | src/phigraph/core_v3/postgres_scoped.py:151-178 | any mix of covered steps and standalone writes to chains is serializable |
| `ProtocolLocks.ProtocolIsSerializable` | src/phigraph/grdi/service.py:55-585 | service calls running concurrently, each prepared on any store, are serializable with their serial outcomes |
| `Authority.DecisionIsFailClosed` | src/phigraph/grdi/authority.py:20-78 | AUTHORIZED if and only if the receipt passes and this authority may authorise; REQUIRES_APPROVAL exactly when a review or an approval is missing; no reasons exactly when authorised; never executable |
| `Authority.ReasonsExactly` | src/phigraph/grdi/authority.py:29-78 | each reason is given exactly when its check fails and no check before it stopped the evaluation |
| `Authority.Evaluate` | src/phigraph/grdi/authority.py:20-78 | the branching engine computes that decision |
| `Gateway.EligibleExactly` | src/phigraph/grdi/execution_gateway.py:29-86 | eligible if and only if every link, state and action agrees |
| `Gateway.ReasonsExactly` | src/phigraph/grdi/execution_gateway.py:39-72 | each reason is given exactly when its check fails |
| `Gateway.Evaluate` | src/phigraph/grdi/execution_gateway.py:29-86 | the growing reasons list computes that judgement |
| `Gateway.SimulatedReceiptValidates` | src/phigraph/grdi/execution_gateway.py:88-124 | simulation succeeds exactly for an eligible plan with a signer, its receipt passes validation, and no other plan's request accepts it |
| `Gateway.ValidReceiptExactly` | src/phigraph/grdi/service.py:903-935 | a receipt is valid for a request if and only if it is the signer's receipt over exactly the plan asked for, with nothing executed |
| `Outcomes.ValidateAssessments` | src/phigraph/grdi/outcome_ledger.py:8-18 | accepts exactly assessments with text and distinct stripped effects |
| `Outcomes.StripsBlanksOnly` | src/phigraph/grdi/outcome_ledger.py:11-15 | stripping takes blanks off both ends and nothing else |
| `Outcomes.ConsistentExactly` | src/phigraph/grdi/outcome_ledger.py:21-45 | CONSISTENT if and only if something was expected, each expected effect was assessed once and matched, and nothing else was assessed |
| `Outcomes.DeviatedExactly` | src/phigraph/grdi/outcome_ledger.py:21-45 | DEVIATED if and only if something was expected, each expected effect was assessed once as matched or deviated, nothing else was assessed, and some assessment deviated |
| `Outcomes.NotEvaluatedExactly` | src/phigraph/grdi/outcome_ledger.py:21-45 | NOT_EVALUATED if and only if nothing was expected, some expected effect was not assessed exactly once, something else was assessed, or some assessment is not evaluated |
| `Outcomes.ValidatedOutcomeIsSigned` | src/phigraph/grdi/service.py:733-827 | a validated outcome is exactly a signed copy of its own fields |
| `Outcomes.ValidOutcomeExactly` | src/phigraph/grdi/service.py:733-827 | an outcome is valid for a request and a receipt if and only if it is the signer's copy of a body that names them, with nothing executed and the state its assessments aggregate to |
| `ProtocolInvariant.RegisterKeeps` | src/phigraph/grdi/service.py:55-75 | registration keeps the protocol invariant and every earlier record |
| `ProtocolInvariant.AuthorizeKeeps` | src/phigraph/grdi/service.py:87-120 | an authorisation, whatever earlier state it read, keeps the protocol invariant and every earlier record |
| `ProtocolInvariant.PlanKeeps` | src/phigraph/grdi/service.py:138-216 | a new plan, whatever earlier state its reads saw, keeps the protocol invariant and every earlier record |
| `ProtocolInvariant.SimulateKeeps` | src/phigraph/grdi/service.py:241-319 | receipt and SIMULATION_RECORDED event are stored together, for an eligible plan only |
| `ProtocolInvariant.RecordKeeps` | src/phigraph/grdi/service.py:321-428 | an outcome is stored under its plan's receipt, signed and aggregated |
| `ProtocolAnswers.RegisterAnswers` | src/phigraph/grdi/service.py:55-75 | a registration stores and returns the envelope as given under its own id and scope; the same envelope again changes nothing, another under that id is refused |
| `ProtocolAnswers.AuthorizeAnswers` | src/phigraph/grdi/service.py:87-120 | a call for a stored envelope commits when its id is free, and the decision returned and stored has the subject, role and approvals of the call; it is AUTHORIZED if and only if the envelope carries the signer's PASS for its own scope, the subject is not the proposer and has the required or admin role, every approval is positive and none is the proposer's, and a high risk has one; an id in use takes the same decision only |
| `ProtocolAnswers.PlanAnswers` | src/phigraph/grdi/service.py:138-216 | a call for a stored envelope and authority commits when its plan id is free; it stores exactly the request asked for, the gateway's decision and the CREATED event, and returns the decision, eligible if and only if the authority is AUTHORIZED and VERIFIED for that envelope and the action is the proposed one; an id in use takes the same plan only |
| `ProtocolAnswers.SimulateAnswers` | src/phigraph/grdi/service.py:241-319 | a simulation commits if and only if a signer is configured and the plan was stored as eligible; the first one stores, under the id and time it drew, the signed plan of the stored request with nothing executed, and its event; a later one returns the stored receipt |
| `ProtocolAnswers.OutcomeAnswers` | src/phigraph/grdi/service.py:321-428 | a recording needs a plan announced as simulated; it returns the stored outcome, or stores a new one exactly if the assessments have text and name different effects: with the call's assessments, metrics and limitations, signed, and CONSISTENT or DEVIATED exactly when these say so |
| `ProtocolAnswers.AnnouncedExactly` | src/phigraph/grdi/service.py:335-339 | only plans with a receipt are announced as simulated, and among at most 1000 events of the scope all of them |
| `ProtocolAnswers.AlteredReceiptRefused` | src/phigraph/grdi/service.py:256-270 | on any ledger a stored receipt that is not valid for its plan's request makes the simulation fail and changes nothing |
| `ProtocolAnswers.AlteredReceiptNotRecorded` | src/phigraph/grdi/service.py:341 | nor is an outcome recorded on it |
| `ProtocolAnswers.AlteredOutcomeRefused` | src/phigraph/grdi/service.py:350-356 | a stored outcome that is not valid for its plan and receipt is not returned |
| `ReplayInvariant.ReplayCommitKeeps` | src/phigraph/grdi/service.py:444-501 | a stored report is signed and its manifest is that of a stage of its plan |
| `ReplayInvariant.CompareKeeps` | src/phigraph/grdi/service.py:524-585 | a stored comparison is the exact delta of two stored reports |
| `ProtocolRuns.StepKeepsGoverned` | src/phigraph/grdi/service.py:55-585 | every call, whatever earlier state it read, keeps the invariant |
| `ProtocolRuns.EveryStateIsGoverned` | src/phigraph/grdi/service.py:55-585 | every state of every run from an empty ledger is governed and keeps all records of the states before it |
| `ProtocolRuns.DistinctDrawsAreFresh` | src/phigraph/grdi/service.py:280-311 | if no two simulations of a scope draw the same receipt id, each draws one that is not in use |
| `ConcurrentRuns.SeenIsSerial` | src/phigraph/grdi/service.py:241-260 | what a committed call had read is a serial state no later than the one it ran on |
| `ConcurrentRuns.ConcurrentIsRun` | src/phigraph/grdi/service.py:55-585 | under every schedule the committed stores are the states of a run that performs the committed calls one after another, and each returned what it returns in that run |
| `ConcurrentRuns.ConcurrentReceiptsAreJustified` | src/phigraph/grdi/service.py:241-319 | at any moment of any concurrent execution the committed store is governed and each receipt traces to an authorised, verified and approved decision |
| `ProtocolEngine.RunStep` | src/phigraph/core_v3/scoped_ledger.py:1166-1194 | the JSON engine running a prepared step answers and leaves what the protocol says, and keeps the file governed |
| `ProtocolSafety.EveryReceiptIsJustified` | src/phigraph/grdi/service.py:241-319 | in every run each receipt traces, in its own scope, to an AUTHORIZED and VERIFIED decision by someone other than the proposer in the required or admin role, with approvals for high risk and none by the proposer, on a validly signed PASS receipt whose proposed action is the requested one |
| `ProtocolSafety.RecordsComeTogether` | src/phigraph/grdi/service.py:191-216 | request, gateway decision and CREATED event exist together; receipt and SIMULATION event exist together, with matching ids |
| `ProtocolSafety.OneOutcomePerPlan` | src/phigraph/grdi/service.py:349-428 | at most one outcome per plan, in the state its assessments aggregate to |
| `ProtocolSafety.EligibilityIsPermanent` | src/phigraph/grdi/service.py:280-288 | the gateway, evaluated again in any later state, gives the stored eligibility and reasons |
| `ProtocolSafety.BlockedPlansHaveNoReceipt` | src/phigraph/grdi/service.py:287-288 | only plans stored as eligible have receipts |
| `ProtocolSafety.RepeatedSimulation` | src/phigraph/grdi/service.py:256-270 | simulating again returns the stored receipt and changes nothing |
| `ProtocolSafety.SimulationSucceedsExactly` | src/phigraph/grdi/service.py:250-311 | a plan can be simulated, at any time, if and only if it was stored as eligible and a signer is configured |
| `ProtocolSafety.RepeatedOutcome` | src/phigraph/grdi/service.py:349-358 | recording again returns the first outcome unchanged and changes nothing |
| `Replay.DetermineReplayState` | src/phigraph/grdi/replay.py:651-706 | INVALID and INCOMPLETE exactly by the checks; DRIFTED if and only if the checks pass, no valid earlier report has the hash, there is a valid one, and some earlier report is invalid or some entry differs from the last valid one; the drift names exactly these |
| `Replay.SplitPrior` | src/phigraph/grdi/replay.py:708-730 | valid reports are kept and invalid ones named, in order |
| `Replay.CollectDrift` | src/phigraph/grdi/replay.py:680-702 | an entry is named if and only if the manifest has it and the reference lacks it or has it differently; nothing is named exactly when nothing differs |
| `Replay.StateExactly` | src/phigraph/grdi/replay.py:668-706 | the state over any list of earlier reports: DRIFTED exactly under that condition, else REPRODUCED |
| `ReplayInvariant.LoadAfter` | src/phigraph/grdi/replay.py:384-472 | loading finds exactly the stored rows of the plan, and no outcome without its receipt |
| `ReplayInvariant.ObservedIsSound` | src/phigraph/grdi/replay.py:516-584 | with all six rows stored nothing is missing and every check passes |
| `ReplayInvariant.StateByStage` | src/phigraph/grdi/replay.py:118-148 | a report is INVALID or INCOMPLETE exactly when the receipt or the outcome is missing |
| `ReplayAnswers.ChecksExactly` | src/phigraph/grdi/replay.py:516-584 | each check is reported as invalid exactly when it fails; an absent row fails none |
| `ReplayAnswers.GovernedChecks` | src/phigraph/grdi/replay.py:516-584 | on a governed ledger a replay can report only the labels of the absent rows, an unsigned HAV receipt and an authority decision on another envelope |
| `ReplayAnswers.EarlyReportExactly` | src/phigraph/grdi/replay.py:651-666 | without the outcome the report is INCOMPLETE if and only if the envelope's HAV receipt verifies and the authority decided about the plan's envelope, else INVALID; with a receipt always INCOMPLETE; it names exactly the absent rows |
| `ReplayAnswers.EarlyReplayReturns` | src/phigraph/grdi/service.py:444-501 | a replay of such a plan commits with such a report, whether it is new or was stored before |
| `ReplayAnswers.ReportFields` | src/phigraph/grdi/replay.py:586-649 | plan, caller, time, ids, versions, identity and outcome of a report and its manifest are those of the call and of the stored rows |
| `ReplayAnswers.ReportRowHashes` | src/phigraph/grdi/replay.py:599-603 | the record hashes are those of the rows stored, one for each row that is there |
| `ReplayAnswers.ReportHeads` | src/phigraph/grdi/replay.py:618-622 | the source chain heads are those of the six source chains of the scope |
| `ReplayAnswers.SameManifestExactly` | src/phigraph/grdi/replay.py:59-71 | two manifests, chain heads aside, are equal if and only if the rows they were built from are |
| `ReplayAnswers.ReplayAnswers` | src/phigraph/grdi/service.py:444-501 | a replay commits if and only if a signer is configured and no row of the plan was stored between its two transactions; it returns the report stored under the hash of the rows, or stores the one it built |
| `ReplayAnswers.BrokenChainIsReported` | src/phigraph/grdi/replay.py:112-128 | when the chains do not verify the report is built all the same: INVALID, with the failed chain named and no chain head |
| `ReplayAnswers.ValidExactly` | src/phigraph/grdi/replay.py:241-271 | a report or comparison is valid if and only if it is the signer's copy of its own fields, with nothing executed and the hash of its manifest, or of its two replay ids |
| `ReplayAnswers.AlteredReportRefused` | src/phigraph/grdi/service.py:484-492 | a stored report that is not valid is not returned |
| `ReplayStability.AtMostThreeReports` | src/phigraph/grdi/service.py:474-499 | the stored reports of a plan are those of its first four, five and six rows |
| `ReplayStability.NeverMoreThanThreeReports` | src/phigraph/grdi/service.py:444-501 | at no time in any run has a plan more than three reports |
| `ReplayStability.ReplayReturnsTheFinalReport` | src/phigraph/grdi/service.py:444-501 | with six rows every replay commits and returns the final report, storing it once |
| `ReplayStability.ReplaysAgree` | src/phigraph/grdi/service.py:482-491 | any two replays of such a plan return the same report |
| `ReplayStability.FinalReportIsForever` | src/phigraph/grdi/service.py:482-491 | in every run each later replay returns the stored final report and changes nothing |
| `ReplayStability.FinalStateExactly` | src/phigraph/grdi/replay.py:668-706 | among at most 1000 reports the final one is DRIFTED exactly when an earlier report of the plan is stored, and else REPRODUCED |
| `ReplayHistory.ReportIsBuilt` | src/phigraph/grdi/service.py:444-501 | a step after which a report is newly stored is a replay of its scope, and the report is the one it built on the state before |
| `ReplayHistory.FinalReportsTellHistory` | src/phigraph/grdi/replay.py:668-706 | in every run the stored final report of a plan was built by a replay of that plan and, among at most 1000 reports, is DRIFTED if and only if an earlier report of the plan was stored at that moment, else REPRODUCED |
| `SourceDrift.ValidateAgainstSources` | src/phigraph/grdi/replay.py:190-239 | the drift list, check by check |
| `SourceDrift.DriftsExactly` | src/phigraph/grdi/replay.py:190-239 | each drift is named exactly when it is there |
| `SourceDrift.HeadsTellRows` | src/phigraph/grdi/replay.py:220-225 | on append-only chains head hashes are equal if and only if the rows are |
| `SourceDrift.DriftExactly` | src/phigraph/grdi/replay.py:190-239 | no drift if and only if no row was appended to any of the six source collections of the scope since the report was built |
| `Comparison.ComparePair` | src/phigraph/grdi/replay.py:751-833 | the loops compute the delta |
| `Comparison.ComparisonIsSymmetric` | src/phigraph/grdi/replay.py:751-833 | swapping the reports swaps baseline and candidate in every entry |
| `Comparison.DeltaIsExact` | src/phigraph/grdi/replay.py:787-833 | the listed differences turn the baseline's hashes and policies into the candidate's and name every changed id, outcome and state |
| `Comparison.EquivalentExactly` | src/phigraph/grdi/replay.py:784-785 | EQUIVALENT if and only if the manifests agree apart from the chain heads, for comparable reports of one scope |
| `Comparison.SilentExactly` | src/phigraph/grdi/replay.py:806-833 | DIFFERENT lists nothing if and only if the reports differ only in what is not listed |
| `Comparison.DifferentShowsWhy` | src/phigraph/grdi/replay.py:806-833 | with equal protocol versions DIFFERENT always lists a difference |
| `Comparison.ProtocolChangeIsSilent` | src/phigraph/grdi/replay.py:784-833 | two reports that differ in protocol version only: DIFFERENT with nothing listed |
| `Comparison.StatesExactly` | src/phigraph/grdi/replay.py:758-785 | COMPARISON_INVALID if and only if a report is INVALID or INCOMPLETE or the scopes differ; of the others NOT_COMPARABLE if and only if subject, domain or decision type differ; then EQUIVALENT or DIFFERENT by the manifest hash; only DIFFERENT lists anything |
| `Comparison.EntriesExactly` | src/phigraph/grdi/replay.py:787-805 | DIFFERENT lists a record hash or a policy version if and only if it differs, with both values |
| `Comparison.FoundFirst` | src/phigraph/grdi/service.py:680-692 | the report found for an id is the first one listed with it |
| `ReplayAnswers.CompareAnswers` | src/phigraph/grdi/service.py:524-585 | a comparison commits if and only if both ids are among the first 1000 reports of the scope; it returns what is stored for the pair, or stores the comparison asked for with the delta of the reports found |
| `ReplayAnswers.AlteredReportsNotCompared` | src/phigraph/grdi/service.py:554-567 | on any ledger a report that is not valid, or whose hash changed since it was loaded, makes the comparison fail and changes nothing |
| `LegacyMigration.MigrateRow` | src/phigraph/core_v3/scoped_ledger.py:1624-1672 | one row is passed over, inserted with its link, or refused |
| `LegacyMigration.MigrateLegacyJson` | src/phigraph/core_v3/scoped_ledger.py:1610-1675 | all-or-nothing: the file is written once, or stays on any error |
| `LegacyMigration.MoveRowsExactly` | src/phigraph/core_v3/scoped_ledger.py:1620-1673 | a collection gains exactly the first occurrences of its new keys, in legacy order per scope, and counts every row |
| `LegacyMigration.MigrationExactly` | src/phigraph/core_v3/scoped_ledger.py:1610-1675 | inserted + skipped is the number of rows read, old rows stay, every group gains its new first occurrences in order, and the store is valid |
| `LegacyMigration.SecondMigrationExactly` | src/phigraph/core_v3/scoped_ledger.py:1641-1647 | a second migration succeeds if and only if every first row of a key has an exact scope entry; then it inserts nothing and skips every row |
| `LegacyMigration.BookMigratesExactly` | src/phigraph/core_v3/scoped_ledger.py:1610-1675 | both statements for the eight migrated collections and any book |
| `LegacyMigration.MigratedKeys` | src/phigraph/core_v3/scoped_ledger.py:1624-1633 | every migrated row is stored under its record's own canonical key |
| `MigrationAnswers.MigrationSucceedsExactly` | src/phigraph/core_v3/scoped_ledger.py:1620-1673 | a migration succeeds if and only if every row has a key, equals the earlier rows of its key, and the first of a key is stored already with an exact scope entry or has a record id; it reports as inserted exactly the rows gained |
| `MigrationAnswers.LiveKeysMigrate` | src/phigraph/core_v3/scoped_ledger.py:1624-1628 | a record of the live ledger has the same canonical key when it is migrated |
| `LegacyMigration.InexactRowMigratesOnce` | src/phigraph/core_v3/scoped_ledger.py:1624-1647 | an envelope migrates to the scope of its entry, with "default" for what is missing; if the entry is not exactly tenant and project, it is refused as a duplicate the second time |
| `Backfill.BackfillPlanEvents` | src/phigraph/grdi/migration.py:54-137 | a plan's events are stored all or not at all, with the counts reported |
| `Backfill.BackfillGatewayEvents` | src/phigraph/grdi/migration.py:140-175 | plan after plan; an error keeps exactly the plans before it |
| `Backfill.LiveLedgerNeedsNoBackfill` | src/phigraph/grdi/migration.py:140-175 | on a ledger built by live steps the backfill creates nothing and changes nothing |
| `Backfill.BackfillIsIdempotent` | src/phigraph/grdi/migration.py:140-175 | backfilling again creates nothing and changes nothing |
| `Backfill.DisagreementsAreReported` | src/phigraph/grdi/migration.py:89-108 | of the plans given, those whose stored events disagree with the legacy flag are exactly as many as `simulation_not_evaluated` |
| `MigrationAnswers.BackfillSucceedsExactly` | src/phigraph/grdi/migration.py:54-175 | a backfill of distinct plans succeeds if and only if no other event is stored under a key of theirs; it reports as created exactly the rows gained, and created and skipped are the events the plans need |
| `Cutover.AdminList` | src/phigraph/core_v3/scoped_ledger.py:908-955 | all selected gateway rows, each once, by tenant, project and sequence |
| `Cutover.BackfillListed` | src/phigraph/grdi/migration.py:140-175 | the first 1000 listed plans are backfilled and the chains verified; an error of a row's conversion, its transaction or the verification leaves exactly the plans before it filled |
| `Cutover.RunCutover` | src/phigraph/grdi/migration.py:178-182 | migration, then backfill of everything listed; a refused migration leaves the file as it was, a failed backfill the migrated rows with exactly the plans before the error filled |
| `Cutover.BackfillAccountsForAll` | src/phigraph/grdi/migration.py:89-133 | on rows without events, listed or not: the disagreements that readers see are those reported, the flagged plans not listed and the hidden events |
| `Cutover.CutoverAgreesExactly` | src/phigraph/grdi/migration.py:178-182 | the same after migrating any book into a ledger without gateway rows, where every listed row is a plan; with at most 1000 plans and 1000 events in each scope exactly `simulation_not_evaluated` |
| `LegacyLedger.RechainedBookIsOk` | src/phigraph/core_v3/ledger.py:99-123 | rechaining keeps every record and its order, is idempotent, and always verifies |
| `LegacyLedger.OkExactlyFixedPoints` | src/phigraph/core_v3/ledger.py:145-164 | verify_chain accepts exactly the lists that rechaining leaves alone, up to `alg` |
| `LegacyLedger.ChainOkExactly` | src/phigraph/core_v3/ledger.py:145-164 | a list is accepted if and only if every row links to the hash in the row before it and hashes its own content over that |
| `LegacyLedger.AppendKeepsChain` | src/phigraph/core_v3/ledger.py:132-143 | linking to the last row extends a good chain |
| `LegacyLedger.EvidenceLedger.RechainPayload` | src/phigraph/core_v3/ledger.py:99-123 | the nested loops rebuild every collection |
| `LegacyLedger.EvidenceLedger.RepairChain` | src/phigraph/core_v3/ledger.py:125-130 | repair keeps contents and order and always ends valid |
| `LegacyLedger.EvidenceLedger.VerifyChain` | src/phigraph/core_v3/ledger.py:145-164 | accepts if and only if every collection is a good chain |
| `LegacyLedger.EvidenceLedger.Append` | src/phigraph/core_v3/ledger.py:132-143 | refuses a duplicate id, else adds one linked row; a valid ledger stays valid |
| `LegacyLedger.EvidenceLedger.RecordVerification` | src/phigraph/core_v3/ledger.py:195-212 | each refusal exactly; otherwise the verification is added and its claim takes the result and evidence; a valid ledger stays valid |
| `LegacyLedger.VerificationRecorded` | src/phigraph/core_v3/ledger.py:208-211 | the verification comes last, its claim takes its result and its evidence besides the old, and every other content stays |
| `LegacyLedger.EvidenceLedger.UpdateScopedRecord` | src/phigraph/core_v3/ledger.py:297-331 | replaces the first row with the id if its scope matches, else changes nothing |
| `RateLimiter.SlidingWindowRateLimiter.Pop` | src/phigraph/core_v3/rate_limit.py:21-22 | the loop drops exactly the entries no later than the cutoff |
| `RateLimiter.SlidingWindowRateLimiter.Check` | src/phigraph/core_v3/rate_limit.py:16-27 | fails exactly for a limit of zero or less; otherwise accepted if and only if fewer than `limit` requests of the full log were accepted in the window ending now; other keys are untouched |
| `RateLimiter.WindowsAreBounded` | src/phigraph/core_v3/rate_limit.py:16-27 | no window of that length ever holds more than `limit` accepted requests |
| `RateLimiter.SlidingWindowRateLimiter.LogIsBounded` | src/phigraph/core_v3/rate_limit.py:16-27 | at every moment, no window of a key's log holds more than `limit` accepted requests |
| `RateLimiter.WaitingSufficesExactly` | src/phigraph/core_v3/rate_limit.py:23-25 | the advertised wait suffices if and only if the time left is at most a second or a whole number of seconds |
| `RateLimiter.WholeSecondsSuffice` | src/phigraph/core_v3/rate_limit.py:23-25 | with times in whole seconds it always suffices |
| `RateLimiter.FractionsMayNotSuffice` | src/phigraph/core_v3/rate_limit.py:23-25 | a request at half a second for which it does not |

## Left out

- ScopedEngine.JsonEngine.RunScopedTransaction: on a file that is not valid only atomicity is stated, because listings there are not determined.
- ScopedEngine.JsonEngine.List: on a state that is not valid the order among rows with equal sequence numbers (by record id) is not stated; the same for SqliteEngine.SqliteEngine.List.
- SqliteEngine.SqliteEngine.RunScopedTransaction: on tables that are not valid only atomicity is stated, as for JSON.
- Serializability.Serializable: bodies that list a mutable collection are outside it, because no lock of the source protects such a listing; other list and not-found reads must be under a declared lock.
- MutableRace.SerialUnlessContended: record ids that clash on PostgreSQL's unique index are not modelled, as for every PostgreSQL statement here; a transaction that inserts into a mutable collection declares the rows, and inserts the new ones among them when it runs alone on the first store.
- DeadlockFreedom.DeadlockFree: excludes the PostgreSQL migration, which locks row by row, and assumes that distinct references have distinct advisory keys.
- ReplayStability.FinalStateExactly: needs at most 1000 reports in the scope, because longer lists are cut.
- RateLimiter.SlidingWindowRateLimiter.Check: times are multiples of a tick and do not go back.
- The texts of errors, which of several failing checks is reported first, the `checked` and per-collection counts, and stored timestamps.
- Unknown collection names, a refused multiprocess JSON mode, and an explicit record id argument.
- Field presence checks of `DecisionEnvelope` and `ExecutionRequest`, policy and record version strings that never change, and `to_dict`/`from_dict` conversions, which the datatypes make identities.
- `strip` removes ASCII blanks only; other Unicode blanks are not modelled.
- The five execution flags of a replay report are one flag; gateway decisions made to simulate are never stored, so their identifier is empty.
- The SQLite and PostgreSQL migrations: same rows and counts as the JSON migration, with SQL around them.
- `register_scoped_record_once`, evidence registration and signatures, queries and snapshots of the legacy ledger.
- PostgreSQL savepoints, row locks and unique-index waits: the advisory locks of the model cover them apart from record-id clashes.
- `get_execution_plan`, the listing endpoints and other reads that write nothing.
- HTTP routers, authentication, command line, consensus, kernels, benchmarks and numeric agents.
- Real SQL, schema migrations, files and fsync, process crashes, and aliasing of dictionaries that a caller keeps.
