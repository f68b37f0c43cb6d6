/** Shadow outcomes (grdi/outcome_ledger.py and the outcome validator of grdi/service.py). */
module Outcomes {
  import opened Signing
  import opened Models

  // ---------------------------------------------------------------- assessments

  predicate Blank(c: char) {
    c == ' ' || '\t' <= c <= '\r' || '\U{1C}' <= c <= '\U{1F}'
  }

  /** str.strip() on the ASCII blanks. */
  function Strip(s: string): string {
    StripEnd(StripStart(s))
  }

  function StripStart(s: string): (r: string)
    ensures |r| <= |s|
  {
    if s != "" && Blank(s[0]) then StripStart(s[1..]) else s
  }

  function StripEnd(s: string): string {
    if s != "" && Blank(s[|s| - 1]) then StripEnd(s[..|s| - 1]) else s
  }

  lemma {:induction false} StartStripped(s: string) returns (i: nat)
    ensures i <= |s| && StripStart(s) == s[i..] && (forall k :: 0 <= k < i ==> Blank(s[k]))
    ensures StripStart(s) != "" ==> !Blank(StripStart(s)[0])
  {
    i := 0;
    if s != "" && Blank(s[0]) {
      var j := StartStripped(s[1..]);
      i := j + 1;
      assert s[1..][j..] == s[i..];
      assert forall k :: 1 <= k < i ==> s[k] == s[1..][k - 1];
    }
  }

  lemma {:induction false} EndStripped(s: string) returns (n: nat)
    ensures n <= |s| && StripEnd(s) == s[..n] && (forall k :: n <= k < |s| ==> Blank(s[k]))
    ensures StripEnd(s) != "" ==> !Blank(StripEnd(s)[|StripEnd(s)| - 1])
    decreases |s|
  {
    n := |s|;
    if s != "" && Blank(s[|s| - 1]) {
      n := EndStripped(s[..|s| - 1]);
      assert s[..|s| - 1][..n] == s[..n];
      assert forall k :: n <= k < |s| - 1 ==> s[k] == s[..|s| - 1][k];
    }
  }

  /** Stripping takes blanks off both ends and nothing else: what is left neither starts nor ends with one. */
  lemma StripsBlanksOnly(s: string) returns (before: string, after: string)
    ensures s == before + Strip(s) + after
    ensures (forall k :: 0 <= k < |before| ==> Blank(before[k])) && forall k :: 0 <= k < |after| ==> Blank(after[k])
    ensures Strip(s) != "" ==> !Blank(Strip(s)[0]) && !Blank(Strip(s)[|Strip(s)| - 1])
  {
    var i := StartStripped(s);
    var n := EndStripped(StripStart(s));
    before, after := s[..i], StripStart(s)[n..];
    assert StripStart(s) == StripStart(s)[..n] + StripStart(s)[n..];
    if Strip(s) != "" { assert Strip(s)[0] == StripStart(s)[0]; }
  }

  /** Every effect and observation has text, and no two assessments name the same stripped effect. */
  predicate AssessmentsOk(assessments: seq<EffectAssessment>) {
    && (forall i :: 0 <= i < |assessments| ==>
          Strip(assessments[i].expectedEffect) != "" && Strip(assessments[i].simulatedObservation) != "")
    && (forall i, j :: 0 <= i < j < |assessments| ==>
          Strip(assessments[i].expectedEffect) != Strip(assessments[j].expectedEffect))
  }

  /** validate_effect_assessments: the loop with its growing set of seen effects. */
  method ValidateAssessments(assessments: seq<EffectAssessment>) returns (ok: bool)
    ensures ok <==> AssessmentsOk(assessments)
  {
    var seen: set<string> := {};
    for i := 0 to |assessments|
      invariant AssessmentsOk(assessments[..i])
      invariant forall x :: x in seen <==> exists j :: 0 <= j < i && x == Strip(assessments[j].expectedEffect)
    {
      hide Strip;
      var effect := Strip(assessments[i].expectedEffect);
      if effect == "" { return false; }
      if Strip(assessments[i].simulatedObservation) == "" { return false; }
      if effect in seen {
        var j :| 0 <= j < i && effect == Strip(assessments[j].expectedEffect);
        return false;
      }
      seen := seen + {effect};
      assert assessments[..i + 1] == assessments[..i] + [assessments[i]];
    }
    assert assessments[..|assessments|] == assessments;
    ok := true;
  }

  // ---------------------------------------------------------------- aggregation

  function Effects(assessments: seq<EffectAssessment>): set<string> {
    set a | a in assessments :: a.expectedEffect
  }

  predicate NamesRepeat(assessments: seq<EffectAssessment>) {
    exists i, j :: 0 <= i < j < |assessments| && assessments[i].expectedEffect == assessments[j].expectedEffect
  }

  /** Each expected effect has exactly one assessment, nothing else is assessed, and something is expected. */
  predicate Complete(expected: seq<string>, assessments: seq<EffectAssessment>) {
    && expected != []
    && !NamesRepeat(assessments)
    && Effects(assessments) == set x | x in expected
  }

  predicate Any(assessments: seq<EffectAssessment>, state: AssessmentState) {
    exists a :: a in assessments && a.state == state
  }

  /** aggregate_outcome_state. */
  function Aggregate(expected: seq<string>, assessments: seq<EffectAssessment>): OutcomeState {
    if !Complete(expected, assessments) then NOT_EVALUATED
    else if Any(assessments, ASSESSED_NOT_EVALUATED) then NOT_EVALUATED
    else if Any(assessments, ASSESSED_DEVIATED) then DEVIATED
    else CONSISTENT
  }

  predicate AssessedOnce(assessments: seq<EffectAssessment>, effect: string, state: AssessmentState) {
    exists i ::
      && 0 <= i < |assessments| && assessments[i].expectedEffect == effect && assessments[i].state == state
      && forall j :: 0 <= j < |assessments| && j != i ==> assessments[j].expectedEffect != effect
  }

  /** The effect has exactly one assessment. */
  predicate Once(assessments: seq<EffectAssessment>, effect: string) {
    exists i ::
      && 0 <= i < |assessments| && assessments[i].expectedEffect == effect
      && forall j :: 0 <= j < |assessments| && j != i ==> assessments[j].expectedEffect != effect
  }

  lemma CompleteExactly(expected: seq<string>, assessments: seq<EffectAssessment>)
    ensures Complete(expected, assessments) <==>
      && expected != []
      && (forall x :: x in expected ==> Once(assessments, x))
      && (forall a :: a in assessments ==> a.expectedEffect in expected)
  {
    var expectedSet := set x | x in expected;
    if Complete(expected, assessments) {
      forall x | x in expected ensures Once(assessments, x) {
        assert x in expectedSet && x in Effects(assessments);
        var a :| a in assessments && a.expectedEffect == x;
        var i :| 0 <= i < |assessments| && assessments[i] == a;
        assert !NamesRepeat(assessments);
      }
      forall a | a in assessments ensures a.expectedEffect in expected {
        assert a.expectedEffect in Effects(assessments);
      }
    } else if expected != [] && (forall x :: x in expected ==> Once(assessments, x))
      && (forall a :: a in assessments ==> a.expectedEffect in expected)
    {
      forall i, j | 0 <= i < j < |assessments| ensures assessments[i].expectedEffect != assessments[j].expectedEffect {
        assert assessments[i] in assessments && Once(assessments, assessments[i].expectedEffect);
      }
      forall x ensures x in Effects(assessments) <==> x in expectedSet {
        if x in expectedSet { assert Once(assessments, x); }
      }
    }
  }

  /** An effect that is assessed once has one state, that of every assessment of it. */
  lemma OnceHasState(assessments: seq<EffectAssessment>, a: EffectAssessment, state: AssessmentState)
    requires a in assessments && Once(assessments, a.expectedEffect)
    ensures AssessedOnce(assessments, a.expectedEffect, state) <==> a.state == state
  {
    var i :| 0 <= i < |assessments| && assessments[i] == a;
  }

  lemma OnceIsAssessed(assessments: seq<EffectAssessment>, x: string)
    ensures Once(assessments, x) <==> exists state :: AssessedOnce(assessments, x, state)
    ensures Once(assessments, x) ==> exists a :: a in assessments && a.expectedEffect == x
  {
    if Once(assessments, x) {
      var i :| 0 <= i < |assessments| && assessments[i].expectedEffect == x
        && forall j :: 0 <= j < |assessments| && j != i ==> assessments[j].expectedEffect != x;
      assert AssessedOnce(assessments, x, assessments[i].state);
      assert assessments[i] in assessments;
    }
  }

  /** An outcome is CONSISTENT exactly when something was expected, every expected effect has one
    * assessment and it matched, and nothing unexpected was assessed. */
  lemma ConsistentExactly(expected: seq<string>, assessments: seq<EffectAssessment>)
    ensures Aggregate(expected, assessments).CONSISTENT? <==>
      && expected != []
      && (forall x :: x in expected ==> AssessedOnce(assessments, x, MATCHED))
      && (forall a :: a in assessments ==> a.expectedEffect in expected)
  {
    hide Complete, Once, AssessedOnce;
    CompleteExactly(expected, assessments);
    forall x: string ensures AssessedOnce(assessments, x, MATCHED) ==> Once(assessments, x) { OnceIsAssessed(assessments, x); }
    if Complete(expected, assessments) {
      forall a, state | a in assessments ensures AssessedOnce(assessments, a.expectedEffect, state) <==> a.state == state {
        OnceHasState(assessments, a, state);
      }
      forall x | x in expected ensures exists a :: a in assessments && a.expectedEffect == x { OnceIsAssessed(assessments, x); }
    }
  }

  /** An outcome is DEVIATED exactly when something was expected, every expected effect has one assessment, which
    * matched or deviated, nothing unexpected was assessed, and some assessment deviated. */
  lemma DeviatedExactly(expected: seq<string>, assessments: seq<EffectAssessment>)
    ensures Aggregate(expected, assessments).DEVIATED? <==>
      && expected != []
      && (forall x :: x in expected ==> AssessedOnce(assessments, x, MATCHED) || AssessedOnce(assessments, x, ASSESSED_DEVIATED))
      && (forall a :: a in assessments ==> a.expectedEffect in expected)
      && (exists a :: a in assessments && a.state.ASSESSED_DEVIATED?)
  {
    hide Complete, Once, AssessedOnce;
    CompleteExactly(expected, assessments);
    forall x: string, state ensures AssessedOnce(assessments, x, state) ==> Once(assessments, x) { OnceIsAssessed(assessments, x); }
    if Complete(expected, assessments) {
      forall a, state | a in assessments ensures AssessedOnce(assessments, a.expectedEffect, state) <==> a.state == state {
        OnceHasState(assessments, a, state);
      }
      forall x | x in expected ensures exists a :: a in assessments && a.expectedEffect == x { OnceIsAssessed(assessments, x); }
      assert forall a :: a in assessments ==> a.state.MATCHED? || a.state.ASSESSED_DEVIATED? || a.state.ASSESSED_NOT_EVALUATED?;
    }
  }

  /** An outcome is NOT_EVALUATED exactly when nothing was expected, some expected effect is not assessed exactly
    * once, something unexpected was assessed, or some assessment is not evaluated. */
  lemma NotEvaluatedExactly(expected: seq<string>, assessments: seq<EffectAssessment>)
    ensures Aggregate(expected, assessments).NOT_EVALUATED? <==>
      || expected == []
      || (exists x :: x in expected && forall state :: !AssessedOnce(assessments, x, state))
      || (exists a :: a in assessments && a.expectedEffect !in expected)
      || (exists a :: a in assessments && a.state.ASSESSED_NOT_EVALUATED?)
  {
    hide Complete, Once, AssessedOnce;
    CompleteExactly(expected, assessments);
    forall x: string ensures Once(assessments, x) <==> exists state :: AssessedOnce(assessments, x, state) { OnceIsAssessed(assessments, x); }
  }

  // ---------------------------------------------------------------- signed outcomes

  function OutcomeBodyOf(q: ExecutionRequest, r: ShadowReceipt, scope: Scope, recordedBy: Id,
                         assessments: seq<EffectAssessment>, metrics: Json, limitations: seq<string>,
                         id: Id, now: string): OutcomeBody
  {
    OutcomeBody(id, q.planId, r.receiptId, q.envelopeId, q.authorityDecisionId, scope.tenant, scope.project,
                recordedBy, assessments, Aggregate(q.expectedEffects, assessments), metrics, limitations, true, false,
                false, false, NOT_EXECUTED, ReceiptHash(r), now)
  }

  function SignedOutcome(signer: Signer, body: OutcomeBody): ShadowOutcome {
    ShadowOutcome(body, body, Sign(signer, body))
  }

  /** The checks that _validate_shadow_outcome makes on the record and again on its signed body. */
  predicate BodyOk(b: OutcomeBody, q: ExecutionRequest, r: ShadowReceipt) {
    && b.sourceReceiptHash == ReceiptHash(r)
    && b.planId == q.planId
    && b.shadowReceiptId == r.receiptId
    && b.envelopeId == q.envelopeId
    && b.authorityDecisionId == q.authorityDecisionId
    && b.tenant == q.tenant
    && b.project == q.project
    && b.outcomeState == Aggregate(q.expectedEffects, b.assessments)
    && b.shadowOrigin && !b.executed && !b.externalSideEffects && !b.connectorInvoked && b.execution.NOT_EXECUTED?
  }

  predicate RepeatsSigned(o: ShadowOutcome) {
    && o.fields.outcomeId == o.signed.outcomeId
    && o.fields.recordedBy == o.signed.recordedBy
    && o.fields.metrics == o.signed.metrics
    && o.fields.limitations == o.signed.limitations
    && o.fields.recordedAt == o.signed.recordedAt
    && o.fields.assessments == o.signed.assessments
  }

  /** GRDIService._validate_shadow_outcome. */
  predicate OutcomeOk(signer: Option<Signer>, o: ShadowOutcome, q: ExecutionRequest, r: ShadowReceipt) {
    && signer.Some?
    && VerifySignature(signer.value, o.signed, o.signature)
    && RepeatsSigned(o)
    && BodyOk(o.fields, q, r)
    && BodyOk(o.signed, q, r)
  }

  /** A validated outcome is exactly a signed copy of its own fields: no unsigned field can differ. */
  lemma ValidatedOutcomeIsSigned(signer: Signer, o: ShadowOutcome, q: ExecutionRequest, r: ShadowReceipt)
    requires OutcomeOk(Some(signer), o, q, r)
    ensures o == SignedOutcome(signer, o.fields)
  {
  }

  /** An outcome is valid for a request and a receipt exactly when it is the signer's copy of a body that names
    * them, says nothing was executed, and has the state its assessments aggregate to. */
  lemma ValidOutcomeExactly(signer: Option<Signer>, o: ShadowOutcome, q: ExecutionRequest, r: ShadowReceipt)
    ensures OutcomeOk(signer, o, q, r) <==>
      && signer.Some? && o.signed == o.fields && o.signature == Sign(signer.value, o.fields)
      && o.fields == OutcomeBody(o.fields.outcomeId, q.planId, r.receiptId, q.envelopeId, q.authorityDecisionId, q.tenant, q.project,
                                 o.fields.recordedBy, o.fields.assessments, Aggregate(q.expectedEffects, o.fields.assessments),
                                 o.fields.metrics, o.fields.limitations, true, false, false, false, NOT_EXECUTED, ReceiptHash(r),
                                 o.fields.recordedAt)
  {
    hide Aggregate;
  }
}
