/** The data contracts of the pipeline: the extracted invoice and the human
    review record, and the engine's audit entries, context and output.
    Money is in integer cents, the tax rate in basis points (0.19 is 1900),
    confidences in integer hundredths (0.7 is 70). */
module Model {
  import opened Wrappers

  datatype LineItem = LineItem(
    sku: Option<string>,
    description: Option<string>,
    qty: int,
    unitPrice: int)

  /** The extracted field set.  `discountTerms` and `duplicate` are the two
      annotations the rules add to the normalized copy; an extracted invoice
      normally has `None` and `false` there. */
  datatype InvoiceFields = InvoiceFields(
    invoiceNumber: string,
    invoiceDate: string,
    serviceDate: Option<string>,
    currency: Option<string>,
    poNumber: Option<string>,
    netTotal: int,
    taxRate: Option<int>,
    taxTotal: int,
    grossTotal: Option<int>,
    lineItems: seq<LineItem>,
    discountTerms: Option<string>,
    duplicate: bool)

  datatype Invoice = Invoice(
    invoiceId: string,
    vendor: string,
    fields: InvoiceFields,
    confidence: int,
    rawText: string)

  datatype FieldCorrection = FieldCorrection(field: string, from: string, to: string, reason: string)

  /** `finalDecision` is kept as the stored text: learning compares it with
      "approved" and treats every other value as a rejection. */
  datatype HumanCorrection = HumanCorrection(
    invoiceId: string,
    vendor: string,
    corrections: seq<FieldCorrection>,
    finalDecision: string)

  datatype PurchaseOrder = PurchaseOrder(poNumber: string, vendor: string, date: string, lineItems: seq<LineItem>)

  datatype VendorMemory = VendorMemory(vendor: string, key: string, value: string)

  /** One row of the correction-memory table; `pattern` holds the human's
      reason and `suggestedValue` the corrected value. */
  datatype CorrectionMemory = CorrectionMemory(
    id: nat,
    vendor: string,
    field: string,
    pattern: string,
    suggestedValue: string,
    confidence: int)

  datatype MemoryContext = MemoryContext(
    vendorMemories: seq<VendorMemory>,
    correctionMemories: seq<CorrectionMemory>)

  /** The record a fired rule leaves for the decision stage. */
  datatype AppliedMemory =
    | VendorLevel(key: string, vendor: string)
    | CorrectionLevel(field: string, vendor: string)

  /** The proposed-correction messages, one variant per rule, carrying the
      values the message reports. */
  datatype Correction =
    | ServiceDateSet(isoDate: string)
    | PoSuggested(poNumber: string)
    | VatRecomputed
    | CurrencyRecovered(currency: string)
    | SkontoRecorded
    | FreightSkuMapped(description: Option<string>)
    | DuplicateFlagged

  datatype MemoryUpdate =
    | Created(vendor: string, field: string, confidence: int)
    | Updated(id: nat, vendor: string, field: string, confidence: int)

  datatype AuditStep = Recall | Apply | Decide | Learn

  /** The audit detail messages, one variant per message kind. */
  datatype Detail =
    | Recalled(vendorMemoryCount: nat, correctionMemoryCount: nat, vendor: string)
    | RuleFired(correction: Correction)
    | RulesApplied(count: nat, invoiceId: string)
    | Decided(requiresHumanReview: bool, confidenceScore: int)
    | NoHumanCorrections(invoiceId: string)
    | CorrectionsProcessed(count: nat, invoiceId: string)

  datatype AuditEntry = AuditEntry(step: AuditStep, timestamp: string, details: Detail)

  /** A row of the persisted audit table: the timestamp is not stored. */
  datatype AuditRow = AuditRow(invoiceId: string, step: AuditStep, details: Detail)

  /** The decision's explanation: the rule count appears only when some rule fired. */
  datatype Reasoning = Reasoning(appliedCount: Option<nat>, baseConfidence: int, finalConfidence: int)

  datatype EngineOutput = EngineOutput(
    normalizedInvoice: InvoiceFields,
    proposedCorrections: seq<Correction>,
    requiresHumanReview: bool,
    reasoning: Reasoning,
    confidenceScore: int,
    memoryUpdates: seq<MemoryUpdate>,
    auditTrail: seq<AuditEntry>)

  /** The position of a stage in the pipeline. */
  function StageRank(s: AuditStep): nat {
    match s
    case Recall => 0
    case Apply => 1
    case Decide => 2
    case Learn => 3
  }

  /** A trail whose entries never go back to an earlier stage. */
  predicate StagesInOrder(trail: seq<AuditEntry>) {
    forall i, j :: 0 <= i < j < |trail| ==> StageRank(trail[i].step) <= StageRank(trail[j].step)
  }

  predicate AllAt(trail: seq<AuditEntry>, s: AuditStep) {
    forall i :: 0 <= i < |trail| ==> trail[i].step == s
  }

  /** The four stages' entries, concatenated in stage order, form an ordered trail. */
  lemma StageConcatOrdered(r: seq<AuditEntry>, a: seq<AuditEntry>, d: seq<AuditEntry>, l: seq<AuditEntry>)
    requires AllAt(r, Recall) && AllAt(a, Apply) && AllAt(d, Decide) && AllAt(l, Learn)
    ensures StagesInOrder(r + a + d + l)
  {
    var t := r + a + d + l;
    forall i, j | 0 <= i < j < |t| ensures StageRank(t[i].step) <= StageRank(t[j].step) {
      assert StageRank(t[i].step) == if i < |r| then 0 else if i < |r| + |a| then 1 else if i < |r| + |a| + |d| then 2 else 3;
      assert StageRank(t[j].step) == if j < |r| then 0 else if j < |r| + |a| then 1 else if j < |r| + |a| + |d| then 2 else 3;
    }
  }

  /** The rows `appendAuditEntries` writes for one trail, in trail order. */
  function AuditRows(invoiceId: string, trail: seq<AuditEntry>): (rows: seq<AuditRow>)
    ensures |rows| == |trail|
    ensures forall i :: 0 <= i < |trail| ==>
      rows[i] == AuditRow(invoiceId, trail[i].step, trail[i].details)
  {
    if trail == [] then []
    else
      var last := trail[|trail| - 1];
      AuditRows(invoiceId, trail[..|trail| - 1]) + [AuditRow(invoiceId, last.step, last.details)]
  }

  /** The lookup of a stored invoice by id: the first one with that id. */
  function FindInvoice(invoices: seq<Invoice>, invoiceId: string): (r: Option<Invoice>)
    ensures r.Some? ==> r.value in invoices && r.value.invoiceId == invoiceId
    ensures r.None? ==> forall inv :: inv in invoices ==> inv.invoiceId != invoiceId
  {
    if invoices == [] then None
    else if invoices[0].invoiceId == invoiceId then Some(invoices[0])
    else FindInvoice(invoices[1..], invoiceId)
  }
}
