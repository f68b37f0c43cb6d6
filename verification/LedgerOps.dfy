/** The lock set of each protocol step (grdi/ledger_ops.py). */
module LedgerOps {
  import opened Signing
  import opened Models
  import opened Locks

  function ChainLock(scope: Scope, c: Collection): LockRef {
    LockRef(scope, c, None)
  }

  function CanonicalLock(scope: Scope, c: Collection, key: CKey): LockRef {
    LockRef(scope, c, Some(key))
  }

  function EnvelopeLocks(scope: Scope, envelopeId: Id): seq<LockRef> {
    [ChainLock(scope, DecisionEnvelopes), CanonicalLock(scope, DecisionEnvelopes, Name(envelopeId))]
  }

  function AuthorityLocks(scope: Scope, envelopeId: Id, authorityId: Id): seq<LockRef> {
    EnvelopeLocks(scope, envelopeId) +
    [ChainLock(scope, AuthorityDecisions), CanonicalLock(scope, AuthorityDecisions, Name(authorityId))]
  }

  function PlanLocks(scope: Scope, envelopeId: Id, authorityId: Id, planId: Id): seq<LockRef> {
    AuthorityLocks(scope, envelopeId, authorityId) +
    [ChainLock(scope, ExecutionRequests), CanonicalLock(scope, ExecutionRequests, Name(planId)),
     ChainLock(scope, GatewayDecisions), CanonicalLock(scope, GatewayDecisions, Name(planId)),
     ChainLock(scope, GatewayDecisionEvents),
     CanonicalLock(scope, GatewayDecisionEvents, EventKey(planId, GatewayDecisionCreated))]
  }

  function SimulationLocks(scope: Scope, planId: Id, authorityId: Id): seq<LockRef> {
    [CanonicalLock(scope, ExecutionRequests, Name(planId)),
     CanonicalLock(scope, GatewayDecisions, Name(planId)),
     CanonicalLock(scope, AuthorityDecisions, Name(authorityId)),
     ChainLock(scope, ShadowExecutionReceipts), CanonicalLock(scope, ShadowExecutionReceipts, Name(planId)),
     ChainLock(scope, GatewayDecisionEvents),
     CanonicalLock(scope, GatewayDecisionEvents, EventKey(planId, SimulationRecorded))]
  }

  function OutcomeLocks(scope: Scope, planId: Id, receiptId: Id): seq<LockRef> {
    [CanonicalLock(scope, ExecutionRequests, Name(planId)),
     CanonicalLock(scope, GatewayDecisions, Name(planId)),
     CanonicalLock(scope, ShadowExecutionReceipts, Name(planId)),
     ChainLock(scope, ShadowOutcomes), CanonicalLock(scope, ShadowOutcomes, Name(receiptId))]
  }

  function BackfillLocks(scope: Scope, planId: Id): seq<LockRef> {
    [CanonicalLock(scope, GatewayDecisions, Name(planId)),
     CanonicalLock(scope, ShadowExecutionReceipts, Name(planId)),
     ChainLock(scope, GatewayDecisionEvents),
     CanonicalLock(scope, GatewayDecisionEvents, EventKey(planId, GatewayDecisionCreated)),
     CanonicalLock(scope, GatewayDecisionEvents, EventKey(planId, SimulationRecorded))]
  }

  function ReplaySnapshotLocks(scope: Scope, planId: Id): seq<LockRef> {
    [ChainLock(scope, DecisionEnvelopes), ChainLock(scope, AuthorityDecisions), ChainLock(scope, ExecutionRequests),
     ChainLock(scope, GatewayDecisions), ChainLock(scope, GatewayDecisionEvents),
     ChainLock(scope, ShadowExecutionReceipts), ChainLock(scope, ShadowOutcomes), ChainLock(scope, ReplayReports),
     CanonicalLock(scope, ExecutionRequests, Name(planId))]
  }

  function ReplayLocks(scope: Scope, planId: Id, manifest: ManifestHash): seq<LockRef> {
    ReplaySnapshotLocks(scope, planId) +
    [CanonicalLock(scope, ExecutionRequests, Name(planId)), ChainLock(scope, ReplayReports),
     CanonicalLock(scope, ReplayReports, ManifestKey(manifest))]
  }

  function ComparisonSnapshotLocks(scope: Scope): seq<LockRef> {
    [ChainLock(scope, ReplayReports), ChainLock(scope, HistoricalComparisons)]
  }

  function ComparisonLocks(scope: Scope, baseline: ManifestHash, candidate: ManifestHash, pair: ComparisonHash): seq<LockRef> {
    ComparisonSnapshotLocks(scope) +
    [CanonicalLock(scope, ReplayReports, ManifestKey(baseline)), CanonicalLock(scope, ReplayReports, ManifestKey(candidate)),
     ChainLock(scope, HistoricalComparisons), CanonicalLock(scope, HistoricalComparisons, PairKey(pair))]
  }
}
