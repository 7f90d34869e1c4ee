/** The decision stage: a confidence score from the extraction confidence,
    the number of rules that fired and the vendor's high-confidence correction
    memories, and the auto-approve threshold.  Confidences are hundredths. */
module Decision {
  import opened Wrappers
  import opened Arith
  import opened Seqs
  import opened Model

  /** A correction memory at or above this confidence gives a boost. */
  const HighConfidence: int := 70
  /** At or above this score no human review is needed. */
  const AutoApprove: int := 90
  const RuleBoost: nat := 5
  const MemoryBoost: nat := 3
  const MaxConfidence: int := 100

  function AtLeast(threshold: int): CorrectionMemory -> bool {
    (m: CorrectionMemory) => m.confidence >= threshold
  }

  /** The number of recalled correction memories at or above 0.7. */
  function HighConfidenceCount(cms: seq<CorrectionMemory>): (n: nat)
    ensures n <= |cms|
  {
    |Select(cms, AtLeast(HighConfidence))|
  }

  /** The boosted confidence, capped at 1 (there is no lower clamp). */
  function Score(base: int, appliedCount: nat, highCount: nat): (r: int)
    ensures r <= MaxConfidence
    ensures r < MaxConfidence ==> r == base + RuleBoost * appliedCount + MemoryBoost * highCount
    ensures r == MaxConfidence ==> MaxConfidence <= base + RuleBoost * appliedCount + MemoryBoost * highCount
  {
    Min(MaxConfidence, base + RuleBoost * appliedCount + MemoryBoost * highCount)
  }

  datatype DecideResult = DecideResult(
    requiresHumanReview: bool,
    confidenceScore: int,
    reasoning: Reasoning,
    audit: seq<AuditEntry>)

  /** `decide`: the score, the review flag, the reasoning and one `decide` entry. */
  function Decide(inv: Invoice, ctx: MemoryContext, applied: seq<AppliedMemory>, now: string): (r: DecideResult)
    ensures r.confidenceScore <= MaxConfidence
    ensures r.confidenceScore < MaxConfidence ==>
            r.confidenceScore == inv.confidence + RuleBoost * |applied| + MemoryBoost * HighConfidenceCount(ctx.correctionMemories)
    ensures r.confidenceScore == MaxConfidence ==>
            MaxConfidence <= inv.confidence + RuleBoost * |applied| + MemoryBoost * HighConfidenceCount(ctx.correctionMemories)
    ensures inv.confidence <= MaxConfidence ==> inv.confidence <= r.confidenceScore
    ensures r.requiresHumanReview <==> r.confidenceScore < AutoApprove
    ensures r.reasoning.appliedCount.Some? <==> |applied| > 0
    ensures r.reasoning.appliedCount.Some? ==> r.reasoning.appliedCount.value == |applied|
    ensures r.reasoning.baseConfidence == inv.confidence && r.reasoning.finalConfidence == r.confidenceScore
    ensures |r.audit| == 1 && AllAt(r.audit, AuditStep.Decide)
    ensures r.audit[0].details == Decided(r.requiresHumanReview, r.confidenceScore)
  {
    var score := Score(inv.confidence, |applied|, HighConfidenceCount(ctx.correctionMemories));
    var review := score < AutoApprove;
    var reasoning := Reasoning(if |applied| > 0 then Some(|applied|) else None, inv.confidence, score);
    DecideResult(review, score, reasoning, [AuditEntry(AuditStep.Decide, now, Decided(review, score))])
  }

  /** The score never exceeds 1 and, for a base of at most 1, is at least the base. */
  lemma ScoreBounds(base: int, a: nat, h: nat)
    ensures Score(base, a, h) <= MaxConfidence
    ensures base <= MaxConfidence ==> base <= Score(base, a, h)
  {
  }

  /** More fired rules or more high-confidence memories never lower the score. */
  lemma ScoreMonotone(base: int, a1: nat, a2: nat, h1: nat, h2: nat)
    requires a1 <= a2 && h1 <= h2
    ensures Score(base, a1, h1) <= Score(base, a2, h2)
  {
  }

  /** Consequently a decision that auto-approves keeps auto-approving with more evidence. */
  lemma ApprovalStable(inv: Invoice, ctx: MemoryContext, applied: seq<AppliedMemory>, more: seq<AppliedMemory>, now: string)
    requires |applied| <= |more|
    requires !Decide(inv, ctx, applied, now).requiresHumanReview
    ensures !Decide(inv, ctx, more, now).requiresHumanReview
  {
    ScoreMonotone(inv.confidence, |applied|, |more|,
      HighConfidenceCount(ctx.correctionMemories), HighConfidenceCount(ctx.correctionMemories));
  }

  /** Adding a row to the recalled memories raises the count by one exactly when the row is high-confidence. */
  lemma {:induction false} HighConfidenceCountAppend(cms: seq<CorrectionMemory>, m: CorrectionMemory)
    ensures HighConfidenceCount(cms + [m]) ==
      HighConfidenceCount(cms) + (if m.confidence >= HighConfidence then 1 else 0)
  {
    SelectAppend(cms, [m], AtLeast(HighConfidence));
  }

  /** Worked example: base 0.85 and one fired rule reach 0.90, which auto-approves. */
  lemma DecisionThresholdExamples(inv: Invoice, ctx: MemoryContext, applied: seq<AppliedMemory>, now: string)
    requires inv.confidence == 85 && |applied| == 1
    ensures Decide(inv, ctx, applied, now).confidenceScore >= 90
    ensures !Decide(inv, ctx, applied, now).requiresHumanReview
  {
  }
}
