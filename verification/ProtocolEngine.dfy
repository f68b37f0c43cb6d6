/** Protocol steps run by the JSON engine. */
module ProtocolEngine {
  import opened Signing
  import opened ScopedStore
  import opened Sessions
  import opened SessionRules
  import opened ScopedEngine
  import opened ProtocolSteps
  import opened ProtocolLocks
  import opened ProtocolRecords
  import opened ProtocolInvariant
  import opened ReplayInvariant
  import opened ProtocolRuns

  lemma StepVerifiesEarly(t: Txn, s: Store)
    requires StepLocked(t)
    ensures VerifiesEarly(t.body, SessionOf(t), s, s, t.bound)
  {
    hide WellLocked, VerifiesEarly;
    LockedVerifiesEarly(false, t.body, SessionOf(t), s, s, t.bound);
  }

  /** A step that the service prepared on an earlier state of the file, run by the engine: it answers and
    * leaves what the protocol says, and keeps the file governed. */
  method RunStep(engine: JsonEngine, ghost signer: Option<Signer>, ghost call: Call, ghost seen: Store, t: Txn) returns (out: Outcome)
    requires engine.Consistent() && engine.active == null
    requires Governed(signer, seen) && Extends(seen, engine.file) && Governed(signer, engine.file) && ReceiptsDistinct(engine.file)
    requires Prepare(signer, call, seen) == Ready(t)
    modifies engine
    ensures engine.Consistent() && engine.active == null
    ensures (out, engine.file) == Perform(signer, call, seen, old(engine.file))
    ensures Governed(signer, engine.file) && Extends(old(engine.file), engine.file)
    ensures out != Aborted(UndeclaredLockRef) && out != Aborted(StepLimit)
  {
    hide Governed, ReceiptsDistinct, Extends, Prepare, StepLocked, VerifiesEarly, RunTransaction;
    EveryStepLocked(signer, call, seen);
    StepVerifiesEarly(t, engine.file);
    GovernedIsValid(signer, engine.file);
    StepKeepsGoverned(signer, call, seen, engine.file);
    NoUndeclaredLocks(signer, call, seen, engine.file);
    out := engine.RunScopedTransaction(t);
  }
}
