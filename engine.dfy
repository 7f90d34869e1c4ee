/** The pipeline over an in-memory store that stands in for the database:
    recall, rule application, decision and learning for one invoice, and the
    persisted audit trail. */
module Engine {
  import opened Wrappers
  import opened Seqs
  import opened Model
  import opened Rules
  import opened Decision
  import opened Learning

  function VendorMemoryOf(vendor: string): VendorMemory -> bool {
    (m: VendorMemory) => m.vendor == vendor
  }

  function CorrectionMemoryOf(vendor: string): CorrectionMemory -> bool {
    (m: CorrectionMemory) => m.vendor == vendor
  }

  /** The memory context recalled for a vendor: both tables filtered by vendor. */
  function RecallContext(vms: seq<VendorMemory>, cms: seq<CorrectionMemory>, vendor: string): (ctx: MemoryContext)
    ensures forall m :: m in ctx.vendorMemories <==> m in vms && m.vendor == vendor
    ensures forall m :: m in ctx.correctionMemories <==> m in cms && m.vendor == vendor
    ensures |ctx.vendorMemories| <= |vms| && |ctx.correctionMemories| <= |cms|
  {
    MemoryContext(Select(vms, VendorMemoryOf(vendor)), Select(cms, CorrectionMemoryOf(vendor)))
  }

  /** What one run produces: the engine output and the correction-memory table after learning. */
  datatype RunResult = RunResult(output: EngineOutput, rows: seq<CorrectionMemory>, nextId: nat)

  /** The four stages for one fetched invoice, against the store's tables. */
  function Run(inv: Invoice, invoices: seq<Invoice>, orders: seq<PurchaseOrder>, hcs: seq<HumanCorrection>,
               vms: seq<VendorMemory>, cms: seq<CorrectionMemory>, nextId: nat, now: string): RunResult
  {
    var ctx := RecallContext(vms, cms, inv.vendor);
    var recall := [AuditEntry(Recall, now, Recalled(|ctx.vendorMemories|, |ctx.correctionMemories|, inv.vendor))];
    var applied := ApplyRules(inv, orders, invoices, now);
    var decided := Decision.Decide(inv, ctx, applied.appliedMemories, now);
    var hc := FindHumanCorrection(hcs, inv.invoiceId);
    var learned := LearnStage(cms, nextId, hc, inv, now);
    RunResult(
      EngineOutput(applied.normalized, applied.proposedCorrections, decided.requiresHumanReview, decided.reasoning,
                   decided.confidenceScore, learned.state.updates, recall + applied.audit + decided.audit + learned.audit),
      learned.state.rows, learned.state.nextId)
  }

  /** What one run promises: the trail has one entry per stage in pipeline
      order and one per proposed correction; review is required exactly below
      the auto-approve threshold; the score is the capped boosted confidence;
      learning happens only for an invoice with a human correction, one update
      per field correction, and keeps the table well formed. */
  lemma RunSpec(inv: Invoice, invoices: seq<Invoice>, orders: seq<PurchaseOrder>, hcs: seq<HumanCorrection>,
                vms: seq<VendorMemory>, cms: seq<CorrectionMemory>, nextId: nat, now: string)
    ensures var r := Run(inv, invoices, orders, hcs, vms, cms, nextId, now);
      && StagesInOrder(r.output.auditTrail)
      && |r.output.auditTrail| == |r.output.proposedCorrections| + 4
      && r.output.auditTrail[0].step == Recall && r.output.auditTrail[|r.output.auditTrail| - 1].step == AuditStep.Learn
      && (r.output.requiresHumanReview <==> r.output.confidenceScore < AutoApprove)
      && r.output.confidenceScore <= MaxConfidence
      && (var boosted := inv.confidence + RuleBoost * |r.output.proposedCorrections|
                         + MemoryBoost * HighConfidenceCount(RecallContext(vms, cms, inv.vendor).correctionMemories);
          if r.output.confidenceScore < MaxConfidence then r.output.confidenceScore == boosted else MaxConfidence <= boosted)
      && (FindHumanCorrection(hcs, inv.invoiceId).None? ==>
            r.rows == cms && r.nextId == nextId && r.output.memoryUpdates == [])
      && (FindHumanCorrection(hcs, inv.invoiceId).Some? ==>
            |r.output.memoryUpdates| == |FindHumanCorrection(hcs, inv.invoiceId).value.corrections|)
      && (TableValid(cms, nextId) ==> TableValid(r.rows, r.nextId))
  {
    var ctx := RecallContext(vms, cms, inv.vendor);
    var recall := [AuditEntry(Recall, now, Recalled(|ctx.vendorMemories|, |ctx.correctionMemories|, inv.vendor))];
    var applied := ApplyRules(inv, orders, invoices, now);
    var decided := Decision.Decide(inv, ctx, applied.appliedMemories, now);
    var hc := FindHumanCorrection(hcs, inv.invoiceId);
    var learned := LearnStage(cms, nextId, hc, inv, now);
    StageConcatOrdered(recall, applied.audit, decided.audit, learned.audit);
    LearnStageFacts(cms, nextId, hc, inv, now);
  }

  /** The learning stage's effect on the table and on the messages. */
  lemma LearnStageFacts(cms: seq<CorrectionMemory>, nextId: nat, hc: Option<HumanCorrection>, inv: Invoice, now: string)
    ensures hc.Some? ==> |LearnStage(cms, nextId, hc, inv, now).state.updates| == |hc.value.corrections|
    ensures TableValid(cms, nextId) ==>
      TableValid(LearnStage(cms, nextId, hc, inv, now).state.rows, LearnStage(cms, nextId, hc, inv, now).state.nextId)
  {
    if hc.Some? {
      var st := LearnState(cms, nextId, []);
      var approved := IsApproved(hc.value.finalDecision);
      LearnAllUpdates(st, inv.vendor, approved, hc.value.corrections);
      if TableValid(cms, nextId) {
        LearnAllValid(st, inv.vendor, approved, hc.value.corrections);
      }
    }
  }

  /** The recalled vendor memories are carried data only: the decision reads
      nothing of the context but its correction memories. */
  lemma VendorMemoriesCarriedOnly(inv: Invoice, ctx1: MemoryContext, ctx2: MemoryContext, applied: seq<AppliedMemory>, now: string)
    requires ctx1.correctionMemories == ctx2.correctionMemories
    ensures Decision.Decide(inv, ctx1, applied, now) == Decision.Decide(inv, ctx2, applied, now)
  {
  }

  /** The database: the seeded tables, the correction-memory table with its
      serial id counter, and the audit table. */
  class Store {
    var invoices: seq<Invoice>
    var purchaseOrders: seq<PurchaseOrder>
    var humanCorrections: seq<HumanCorrection>
    var vendorMemories: seq<VendorMemory>
    var correctionMemories: seq<CorrectionMemory>
    var nextId: nat
    var auditLog: seq<AuditRow>

    ghost predicate Valid()
      reads this
    {
      TableValid(correctionMemories, nextId)
    }

    /** A store seeded with invoices, orders, human corrections and vendor
        memories; nothing learned or audited yet. */
    constructor (invoices: seq<Invoice>, purchaseOrders: seq<PurchaseOrder>,
                 humanCorrections: seq<HumanCorrection>, vendorMemories: seq<VendorMemory>)
      ensures Valid()
      ensures this.invoices == invoices && this.purchaseOrders == purchaseOrders
      ensures this.humanCorrections == humanCorrections && this.vendorMemories == vendorMemories
      ensures correctionMemories == [] && nextId == 1 && auditLog == []
    {
      this.invoices := invoices;
      this.purchaseOrders := purchaseOrders;
      this.humanCorrections := humanCorrections;
      this.vendorMemories := vendorMemories;
      correctionMemories := [];
      nextId := 1;
      auditLog := [];
    }

    /** `fetchInvoice`. */
    method FetchInvoice(invoiceId: string) returns (r: Option<Invoice>)
      ensures r.Some? ==> r.value in invoices && r.value.invoiceId == invoiceId
      ensures r.None? <==> forall inv :: inv in invoices ==> inv.invoiceId != invoiceId
      ensures r == FindInvoice(invoices, invoiceId)
    {
      r := FindInvoice(invoices, invoiceId);
    }

    /** `recallMemory`: the vendor's rows of both memory tables and one `recall` entry with their counts. */
    method RecallMemory(invoice: Invoice, now: string) returns (context: MemoryContext, audit: seq<AuditEntry>)
      ensures forall m :: m in context.vendorMemories <==> m in vendorMemories && m.vendor == invoice.vendor
      ensures forall m :: m in context.correctionMemories <==> m in correctionMemories && m.vendor == invoice.vendor
      ensures context == RecallContext(vendorMemories, correctionMemories, invoice.vendor)
      ensures audit == [AuditEntry(Recall, now, Recalled(|context.vendorMemories|, |context.correctionMemories|, invoice.vendor))]
    {
      var vendorRows := Select(vendorMemories, VendorMemoryOf(invoice.vendor));
      var correctionRows := Select(correctionMemories, CorrectionMemoryOf(invoice.vendor));
      context := MemoryContext(vendorRows, correctionRows);
      audit := [AuditEntry(Recall, now, Recalled(|vendorRows|, |correctionRows|, invoice.vendor))];
    }

    /** `applyMemory`: the rules in order on a copy of the fields, then the
        summary entry.  A fired rule's pushes onto the three lists are the value
        update `Rules.Record`; the invoice itself is a value and is not changed. */
    method ApplyMemory(invoice: Invoice, context: MemoryContext, now: string) returns (r: ApplyResult)
      ensures r == ApplyRules(invoice, purchaseOrders, invoices, now)
      ensures |r.proposedCorrections| == |r.appliedMemories| && |r.audit| == |r.appliedMemories| + 1
      ensures AllAt(r.audit, Apply)
    {
      var acc := ApplyResult(invoice.fields, [], [], []);
      acc := Record(acc, ServiceDateRule(invoice, acc.normalized), now);
      acc := Record(acc, PoRule(invoice, acc.normalized, purchaseOrders), now);
      acc := Record(acc, VatRule(invoice, acc.normalized), now);
      acc := Record(acc, CurrencyRule(invoice, acc.normalized), now);
      acc := Record(acc, SkontoRule(invoice, acc.normalized), now);
      acc := Record(acc, FreightSkuRule(invoice, acc.normalized), now);
      acc := Record(acc, DuplicateRule(invoice, acc.normalized, invoices), now);
      assert acc == AfterDuplicate(invoice, purchaseOrders, invoices, now);
      r := acc.(audit := acc.audit + [AuditEntry(Apply, now, RulesApplied(|acc.appliedMemories|, invoice.invoiceId))]);
    }

    /** `learn`: look up the invoice's human-correction record; without one, no
        change and a single entry; otherwise, for each correction in order, look
        up the (vendor, field) row and insert it or update its confidence. */
    method Learn(invoice: Invoice, now: string) returns (memoryUpdates: seq<MemoryUpdate>, audit: seq<AuditEntry>)
      modifies this`correctionMemories, this`nextId
      ensures var out := LearnStage(old(correctionMemories), old(nextId),
                                   FindHumanCorrection(humanCorrections, invoice.invoiceId), invoice, now);
        correctionMemories == out.state.rows && nextId == out.state.nextId &&
        memoryUpdates == out.state.updates && audit == out.audit
      ensures old(Valid()) ==> Valid()
    {
      var record := FindHumanCorrection(humanCorrections, invoice.invoiceId);
      if record.None? {
        memoryUpdates := [];
        audit := [AuditEntry(AuditStep.Learn, now, NoHumanCorrections(invoice.invoiceId))];
        return;
      }
      var corrections := record.value.corrections;
      var approved := IsApproved(record.value.finalDecision);
      ghost var start := LearnState(correctionMemories, nextId, []);
      memoryUpdates := LearnCorrections(invoice.vendor, approved, corrections);
      assert LearnStage(start.rows, start.nextId, record, invoice, now).state == LearnAll(start, invoice.vendor, approved, corrections);
      audit := [AuditEntry(AuditStep.Learn, now, CorrectionsProcessed(|corrections|, invoice.invoiceId))];
      if TableValid(start.rows, start.nextId) {
        LearnAllValid(start, invoice.vendor, approved, corrections);
      }
    }

    /** The loop of `learn`: every correction learned in order under one vendor. */
    method LearnCorrections(vendor: string, approved: bool, corrections: seq<FieldCorrection>)
      returns (memoryUpdates: seq<MemoryUpdate>)
      modifies this`correctionMemories, this`nextId
      ensures LearnState(correctionMemories, nextId, memoryUpdates) ==
              LearnAll(LearnState(old(correctionMemories), old(nextId), []), vendor, approved, corrections)
    {
      ghost var start := LearnState(correctionMemories, nextId, []);
      memoryUpdates := [];
      var i := 0;
      while i < |corrections|
        invariant 0 <= i <= |corrections|
        invariant LearnState(correctionMemories, nextId, memoryUpdates) == LearnAll(start, vendor, approved, corrections[..i])
      {
        memoryUpdates := LearnCorrection(vendor, approved, corrections[i], memoryUpdates);
        assert corrections[..i + 1][..i] == corrections[..i];
        assert LearnAll(start, vendor, approved, corrections[..i + 1]) ==
               LearnOne(LearnAll(start, vendor, approved, corrections[..i]), vendor, approved, corrections[i]);
        i := i + 1;
      }
      assert corrections[..i] == corrections;
    }

    /** One iteration of the loop of `learn`: read the (vendor, field) row, then
        insert it or update its confidence, and append the message. */
    method LearnCorrection(vendor: string, approved: bool, corr: FieldCorrection, updates: seq<MemoryUpdate>)
      returns (updates': seq<MemoryUpdate>)
      modifies this`correctionMemories, this`nextId
      ensures LearnState(correctionMemories, nextId, updates') ==
              LearnOne(LearnState(old(correctionMemories), old(nextId), updates), vendor, approved, corr)
    {
      var existing := FindRow(correctionMemories, vendor, corr.field);
      if existing.None? {
        var confidence := if approved then CreatedApproved else CreatedRejected;
        correctionMemories := correctionMemories + [CorrectionMemory(nextId, vendor, corr.field, corr.reason, corr.to, confidence)];
        nextId := nextId + 1;
        updates' := updates + [Created(vendor, corr.field, confidence)];
      } else {
        var k := existing.value;
        var row := correctionMemories[k];
        var newConf := if approved then Reinforce(row.confidence) else Decay(row.confidence);
        correctionMemories := correctionMemories[k := row.(confidence := newConf)];
        updates' := updates + [Updated(row.id, vendor, corr.field, newConf)];
      }
    }

    /** The closing loop of `processInvoice`: one audit row per trail entry, in trail order. */
    method AppendAuditEntries(invoiceId: string, trail: seq<AuditEntry>)
      modifies this`auditLog
      ensures auditLog == old(auditLog) + AuditRows(invoiceId, trail)
    {
      var k := 0;
      while k < |trail|
        invariant 0 <= k <= |trail|
        invariant auditLog == old(auditLog) + AuditRows(invoiceId, trail[..k])
      {
        assert trail[..k + 1][..k] == trail[..k];
        auditLog := auditLog + [AuditRow(invoiceId, trail[k].step, trail[k].details)];
        k := k + 1;
      }
      assert trail[..k] == trail;
    }

    /** `processInvoice`: an unknown id gives nothing and changes nothing;
        otherwise the four stages run on the fetched invoice. */
    method ProcessInvoice(invoiceId: string, now: string) returns (out: Option<EngineOutput>)
      modifies this`correctionMemories, this`nextId, this`auditLog
      ensures FindInvoice(invoices, invoiceId).None? ==>
        out.None? && correctionMemories == old(correctionMemories) && nextId == old(nextId) && auditLog == old(auditLog)
      ensures FindInvoice(invoices, invoiceId).Some? ==>
        var inv := FindInvoice(invoices, invoiceId).value;
        var run := Run(inv, invoices, purchaseOrders, humanCorrections, vendorMemories, old(correctionMemories), old(nextId), now);
        && out == Some(run.output)
        && correctionMemories == run.rows && nextId == run.nextId
        && auditLog == old(auditLog) + AuditRows(inv.invoiceId, run.output.auditTrail)
      ensures out.Some? ==> StagesInOrder(out.value.auditTrail)
      ensures old(Valid()) ==> Valid()
    {
      var found := FetchInvoice(invoiceId);
      if found.None? {
        return None;
      }
      var output := RunStages(found.value, now);
      RunSpec(found.value, invoices, purchaseOrders, humanCorrections, vendorMemories, old(correctionMemories), old(nextId), now);
      out := Some(output);
    }

    /** The four stages on one invoice, then each entry of their trail
        appended, in order, to the audit table. */
    method RunStages(invoice: Invoice, now: string) returns (out: EngineOutput)
      modifies this`correctionMemories, this`nextId, this`auditLog
      ensures var run := Run(invoice, invoices, purchaseOrders, humanCorrections, vendorMemories,
                             old(correctionMemories), old(nextId), now);
        && out == run.output
        && correctionMemories == run.rows && nextId == run.nextId
        && auditLog == old(auditLog) + AuditRows(invoice.invoiceId, run.output.auditTrail)
    {
      out := Stages(invoice, now);
      AppendAuditEntries(invoice.invoiceId, out.auditTrail);
    }

    /** Recall, apply, decide and learn on one invoice; their entries are
        concatenated into the trail. */
    method Stages(invoice: Invoice, now: string) returns (out: EngineOutput)
      modifies this`correctionMemories, this`nextId
      ensures var run := Run(invoice, invoices, purchaseOrders, humanCorrections, vendorMemories,
                             old(correctionMemories), old(nextId), now);
        out == run.output && correctionMemories == run.rows && nextId == run.nextId
    {
      ghost var run := Run(invoice, invoices, purchaseOrders, humanCorrections, vendorMemories, correctionMemories, nextId, now);

      var context, recallAudit := RecallMemory(invoice, now);
      var applied := ApplyMemory(invoice, context, now);
      var decided := Decision.Decide(invoice, context, applied.appliedMemories, now);
      var memoryUpdates, learnAudit := Learn(invoice, now);
      out := EngineOutput(applied.normalized, applied.proposedCorrections, decided.requiresHumanReview,
                          decided.reasoning, decided.confidenceScore, memoryUpdates,
                          recallAudit + applied.audit + decided.audit + learnAudit);
    }
  }
}
