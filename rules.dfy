/** The rule catalogue of `applyMemory`: six vendor-gated rules and the
    duplicate check, each a function from the current normalized field set
    to the rule's firing (or `None`), and the whole stage as the chain of
    the seven in the source's order. */
module Rules {
  import opened Wrappers
  import opened Arith
  import opened Seqs
  import opened Text
  import opened Dates
  import opened Model

  const SupplierGmbh: string := "Supplier GmbH"
  const PartsAg: string := "Parts AG"
  const FreightCo: string := "Freight & Co"

  /** Inclusive windows, in days, of the purchase-order and duplicate checks. */
  const PoWindowDays: nat := 30
  const DuplicateWindowDays: nat := 2

  const FreightSku: string := "FREIGHT"
  const SkontoTerms: string := "2% Skonto within 10 days"

  /** One whole unit of the tax rate (100 %) in basis points. */
  const BasisPoints: int := 10000

  /** JavaScript falsiness of a nullable string: `null`, `undefined` and "". */
  predicate Blank(o: Option<string>) { o.None? || o.value == [] }

  /** What a fired rule contributes: the new field set, the proposed
      correction (also the detail of its audit entry) and the applied-memory
      record. */
  datatype Fired = Fired(fields: InvoiceFields, correction: Correction, memory: AppliedMemory)

  // ---------------------------------------------------------------- rule 1

  /** The capture of `/Leistungsdatum:\s*([0-9.]+)/` in the raw text. */
  function LeistungsdatumToken(raw: string): Option<string> {
    FirstMatch(raw, "Leistungsdatum:", DateDigits, 0)
  }

  function ServiceDateRule(inv: Invoice, f: InvoiceFields): Option<Fired> {
    if inv.vendor == SupplierGmbh && Blank(f.serviceDate) then
      match LeistungsdatumToken(inv.rawText)
      case None => None
      case Some(rawDate) =>
        // The capture is never empty, so the source's `if (rawDate)` always holds.
        var iso := ReorderToYmd(rawDate, '.');
        Some(Fired(f.(serviceDate := Some(iso)), ServiceDateSet(iso),
                   VendorLevel("serviceDateFromLeistungsdatum", inv.vendor)))
    else
      None
  }

  /** Rule 1 fires exactly for Supplier GmbH with no service date and a
      `Leistungsdatum:` token, and then sets only the service date, to the
      token reordered into `y-m-d`. */
  lemma ServiceDateRuleSpec(inv: Invoice, f: InvoiceFields)
    ensures var r := ServiceDateRule(inv, f);
      r.Some? <==> inv.vendor == SupplierGmbh && Blank(f.serviceDate) && LeistungsdatumToken(inv.rawText).Some?
    ensures var r := ServiceDateRule(inv, f);
      r.Some? ==>
        var iso := ReorderToYmd(LeistungsdatumToken(inv.rawText).value, '.');
        r.value.fields == f.(serviceDate := Some(iso)) && r.value.correction == ServiceDateSet(iso)
  {
  }

  // ---------------------------------------------------------------- rule 2

  function OfVendor(vendor: string): PurchaseOrder -> bool {
    (po: PurchaseOrder) => po.vendor == vendor
  }

  /** The vendor's purchase orders, in stored order. */
  function VendorOrders(orders: seq<PurchaseOrder>, vendor: string): seq<PurchaseOrder> {
    Select(orders, OfVendor(vendor))
  }

  /** Some invoice line has a non-empty SKU that also appears on the order. */
  predicate SharesSku(items: seq<LineItem>, poItems: seq<LineItem>) {
    exists i, j :: 0 <= i < |items| && 0 <= j < |poItems| && !Blank(items[i].sku) && poItems[j].sku == items[i].sku
  }

  /** The invoice date as rule 2 reads it: always split on '.'. */
  function PoRuleInvoiceDay(f: InvoiceFields): Option<int> {
    ParseDateText(ReorderToYmd(f.invoiceDate, '.'))
  }

  /** The filter of rule 2, given the invoice's day and line items. */
  function MatchesInvoice(invoiceDay: Option<int>, items: seq<LineItem>): PurchaseOrder -> bool {
    (po: PurchaseOrder) => WithinDays(invoiceDay, ParseDateText(po.date), PoWindowDays) && SharesSku(items, po.lineItems)
  }

  /** The filtered candidate orders of rule 2. */
  function PoCandidates(orders: seq<PurchaseOrder>, f: InvoiceFields): seq<PurchaseOrder> {
    Select(orders, MatchesInvoice(PoRuleInvoiceDay(f), f.lineItems))
  }

  /** `orders` is the whole purchase-order table; the rule queries the vendor's rows. */
  function PoRule(inv: Invoice, f: InvoiceFields, orders: seq<PurchaseOrder>): Option<Fired> {
    if inv.vendor == SupplierGmbh && Blank(f.poNumber) then
      var candidates := PoCandidates(VendorOrders(orders, inv.vendor), f);
      if |candidates| == 1 then
        var po := candidates[0].poNumber;
        Some(Fired(f.(poNumber := Some(po)), PoSuggested(po), CorrectionLevel("poNumber", inv.vendor)))
      else
        None
    else
      None
  }

  /** Rule 2 fires exactly for Supplier GmbH with no PO number and exactly
      one candidate order, and then sets only the PO number, to that of a
      stored order of the vendor that matches the invoice. */
  lemma PoRuleSpec(inv: Invoice, f: InvoiceFields, orders: seq<PurchaseOrder>)
    ensures var r := PoRule(inv, f, orders);
      r.Some? <==> inv.vendor == SupplierGmbh && Blank(f.poNumber) && |PoCandidates(VendorOrders(orders, inv.vendor), f)| == 1
    ensures var r := PoRule(inv, f, orders);
      r.Some? ==> r.value.fields.(poNumber := f.poNumber) == f && r.value.fields.poNumber.Some?
    ensures var r := PoRule(inv, f, orders);
      r.Some? ==>
        exists po :: po in orders && po.vendor == inv.vendor
                     && MatchesInvoice(PoRuleInvoiceDay(f), f.lineItems)(po) && r.value.fields.poNumber == Some(po.poNumber)
  {
    if PoRule(inv, f, orders).Some? {
      var candidates := PoCandidates(VendorOrders(orders, inv.vendor), f);
      assert candidates[0] in candidates;
    }
  }

  // ---------------------------------------------------------------- rule 3

  predicate VatIncluded(raw: string) {
    var text := ToLower(raw);
    Contains(text, "prices incl. vat") || Contains(text, "mwst. inkl") || Contains(text, "vat already included")
  }

  /** `round2(gross / (1 + rate))` in cents and basis points. */
  function RecomputedNet(gross: int, rate: int): int
    requires BasisPoints + rate != 0
  {
    RoundHalfAway(gross * BasisPoints, BasisPoints + rate)
  }

  function VatRule(inv: Invoice, f: InvoiceFields): Option<Fired> {
    if inv.vendor == PartsAg && VatIncluded(inv.rawText)
       && f.grossTotal.Some? && f.taxRate.Some? && BasisPoints + f.taxRate.value != 0 then
      var gross := f.grossTotal.value;
      var net := RecomputedNet(gross, f.taxRate.value);
      var tax := gross - net;
      if net != f.netTotal || tax != f.taxTotal then
        Some(Fired(f.(netTotal := net, taxTotal := tax), VatRecomputed,
                   CorrectionLevel("vat_included_recompute", inv.vendor)))
      else
        None
    else
      None
  }

  /** When rule 3 fires it replaces only net and tax, and they add up to the
      gross total; `RuleLemmas.VatRuleGate` states when it fires. */
  lemma VatRuleSpec(inv: Invoice, f: InvoiceFields)
    ensures var r := VatRule(inv, f);
      r.Some? ==>
        && r.value.fields == f.(netTotal := r.value.fields.netTotal, taxTotal := r.value.fields.taxTotal)
        && f.grossTotal.Some? && r.value.fields.netTotal + r.value.fields.taxTotal == f.grossTotal.value
  {
  }

  // ---------------------------------------------------------------- rule 4

  /** The capture of `/Currency:\s*([A-Z]{3})/` in the raw text. */
  function CurrencyToken(raw: string): Option<string> {
    FirstMatch(raw, "Currency:", CurrencyCode, 0)
  }

  function CurrencyRule(inv: Invoice, f: InvoiceFields): Option<Fired> {
    if inv.vendor == PartsAg && Blank(f.currency) then
      match CurrencyToken(inv.rawText)
      case None => None
      case Some(code) =>
        Some(Fired(f.(currency := Some(code)), CurrencyRecovered(code), CorrectionLevel("currency", inv.vendor)))
    else
      None
  }

  /** Rule 4 fires exactly for Parts AG with no currency and a `Currency:`
      code, and then sets only the currency, to that code. */
  lemma CurrencyRuleSpec(inv: Invoice, f: InvoiceFields)
    ensures var r := CurrencyRule(inv, f);
      r.Some? <==> inv.vendor == PartsAg && Blank(f.currency) && CurrencyToken(inv.rawText).Some?
    ensures var r := CurrencyRule(inv, f);
      r.Some? ==> r.value.fields == f.(currency := CurrencyToken(inv.rawText))
  {
  }

  // ---------------------------------------------------------------- rule 5

  /** No guard on an existing `discountTerms`: the rule fires on every Skonto text. */
  function SkontoRule(inv: Invoice, f: InvoiceFields): Option<Fired> {
    if inv.vendor == FreightCo && Contains(ToLower(inv.rawText), "skonto") then
      Some(Fired(f.(discountTerms := Some(SkontoTerms)), SkontoRecorded, VendorLevel("skonto_terms", inv.vendor)))
    else
      None
  }

  /** Rule 5 fires exactly on a Freight & Co text mentioning Skonto, whatever
      terms are present, and sets only the terms. */
  lemma SkontoRuleSpec(inv: Invoice, f: InvoiceFields)
    ensures var r := SkontoRule(inv, f);
      r.Some? <==> inv.vendor == FreightCo && Contains(ToLower(inv.rawText), "skonto")
    ensures var r := SkontoRule(inv, f);
      r.Some? ==> r.value.fields == f.(discountTerms := Some(SkontoTerms))
  {
  }

  // ---------------------------------------------------------------- rule 6

  /** The description (absent reads as empty), lowercased, mentions `seefracht` or `shipping`. */
  predicate IsShippingDescription(description: Option<string>) {
    var text := ToLower(if description.Some? then description.value else "");
    Contains(text, "seefracht") || Contains(text, "shipping")
  }

  function FreightSkuRule(inv: Invoice, f: InvoiceFields): Option<Fired> {
    if inv.vendor == FreightCo && |f.lineItems| > 0 && Blank(f.lineItems[0].sku)
       && IsShippingDescription(f.lineItems[0].description) then
      var line := f.lineItems[0];
      Some(Fired(f.(lineItems := f.lineItems[0 := line.(sku := Some(FreightSku))]),
                 FreightSkuMapped(line.description), CorrectionLevel("lineItems[0].sku", inv.vendor)))
    else
      None
  }

  /** Rule 6 fires exactly for Freight & Co when the first line has no SKU
      and a shipping description, and then sets only that line's SKU. */
  lemma FreightSkuRuleSpec(inv: Invoice, f: InvoiceFields)
    ensures var r := FreightSkuRule(inv, f);
      r.Some? <==> inv.vendor == FreightCo && |f.lineItems| > 0 && Blank(f.lineItems[0].sku)
                   && IsShippingDescription(f.lineItems[0].description)
    ensures var r := FreightSkuRule(inv, f);
      r.Some? ==>
        var items := r.value.fields.lineItems;
        && r.value.fields.(lineItems := f.lineItems) == f
        && |items| == |f.lineItems| && items[0] == f.lineItems[0].(sku := Some(FreightSku))
        && items[1..] == f.lineItems[1..]
  {
  }

  // ------------------------------------------------------ duplicate detection

  function HasVendorAndNumber(vendor: string, number: string): Invoice -> bool {
    (other: Invoice) => other.vendor == vendor && other.fields.invoiceNumber == number
  }

  /** The stored invoices of the same vendor with the same invoice number. */
  function SameNumber(invoices: seq<Invoice>, vendor: string, number: string): seq<Invoice> {
    Select(invoices, HasVendorAndNumber(vendor, number))
  }

  /** `other` is a different invoice whose date lies within the duplicate window. */
  predicate IsDuplicateOf(inv: Invoice, f: InvoiceFields, other: Invoice) {
    other.invoiceId != inv.invoiceId
    && WithinDays(ParseInvoiceDate(f.invoiceDate), ParseInvoiceDate(other.fields.invoiceDate), DuplicateWindowDays)
  }

  predicate HasDuplicate(inv: Invoice, f: InvoiceFields, candidates: seq<Invoice>) {
    exists other :: other in candidates && IsDuplicateOf(inv, f, other)
  }

  /** `invoices` is the whole invoice table. */
  function DuplicateRule(inv: Invoice, f: InvoiceFields, invoices: seq<Invoice>): Option<Fired> {
    if HasDuplicate(inv, f, SameNumber(invoices, inv.vendor, f.invoiceNumber)) then
      Some(Fired(f.(duplicate := true), DuplicateFlagged, VendorLevel("duplicate_detection", inv.vendor)))
    else
      None
  }

  /** Duplicate detection fires exactly when a stored invoice of the same
      vendor and number is a duplicate, and then sets only the flag. */
  lemma DuplicateRuleSpec(inv: Invoice, f: InvoiceFields, invoices: seq<Invoice>)
    ensures var r := DuplicateRule(inv, f, invoices);
      r.Some? <==> exists other :: other in invoices && other.vendor == inv.vendor
                                   && other.fields.invoiceNumber == f.invoiceNumber && IsDuplicateOf(inv, f, other)
    ensures var r := DuplicateRule(inv, f, invoices);
      r.Some? ==> r.value.fields == f.(duplicate := true)
  {
  }

  // ------------------------------------------------------------ the chain

  datatype ApplyResult = ApplyResult(
    normalized: InvoiceFields,
    proposedCorrections: seq<Correction>,
    appliedMemories: seq<AppliedMemory>,
    audit: seq<AuditEntry>)

  /** The pushes of a fired rule onto the three lists. */
  function Record(acc: ApplyResult, fired: Option<Fired>, now: string): ApplyResult {
    match fired
    case None => acc
    case Some(x) =>
      ApplyResult(x.fields, acc.proposedCorrections + [x.correction], acc.appliedMemories + [x.memory],
                  acc.audit + [AuditEntry(Apply, now, RuleFired(x.correction))])
  }

  /** Each fired rule has one correction, one applied memory and one `apply`
      entry, whose detail is that correction. */
  predicate Booked(acc: ApplyResult, now: string) {
    |acc.proposedCorrections| == |acc.appliedMemories| == |acc.audit|
    && forall i :: 0 <= i < |acc.audit| ==> acc.audit[i] == AuditEntry(Apply, now, RuleFired(acc.proposedCorrections[i]))
  }

  lemma RecordBooked(acc: ApplyResult, fired: Option<Fired>, now: string)
    requires Booked(acc, now)
    ensures Booked(Record(acc, fired, now), now)
    ensures |Record(acc, fired, now).appliedMemories| == |acc.appliedMemories| + (if fired.Some? then 1 else 0)
  {
  }

  // The intermediate results after each rule, in the source's order.

  function Initial(inv: Invoice): ApplyResult {
    ApplyResult(inv.fields, [], [], [])
  }

  function AfterServiceDate(inv: Invoice, now: string): ApplyResult {
    var s := Initial(inv);
    Record(s, ServiceDateRule(inv, s.normalized), now)
  }

  function AfterPo(inv: Invoice, orders: seq<PurchaseOrder>, now: string): ApplyResult {
    var s := AfterServiceDate(inv, now);
    Record(s, PoRule(inv, s.normalized, orders), now)
  }

  function AfterVat(inv: Invoice, orders: seq<PurchaseOrder>, now: string): ApplyResult {
    var s := AfterPo(inv, orders, now);
    Record(s, VatRule(inv, s.normalized), now)
  }

  function AfterCurrency(inv: Invoice, orders: seq<PurchaseOrder>, now: string): ApplyResult {
    var s := AfterVat(inv, orders, now);
    Record(s, CurrencyRule(inv, s.normalized), now)
  }

  function AfterSkonto(inv: Invoice, orders: seq<PurchaseOrder>, now: string): ApplyResult {
    var s := AfterCurrency(inv, orders, now);
    Record(s, SkontoRule(inv, s.normalized), now)
  }

  function AfterFreightSku(inv: Invoice, orders: seq<PurchaseOrder>, now: string): ApplyResult {
    var s := AfterSkonto(inv, orders, now);
    Record(s, FreightSkuRule(inv, s.normalized), now)
  }

  function AfterDuplicate(inv: Invoice, orders: seq<PurchaseOrder>, invoices: seq<Invoice>, now: string): ApplyResult {
    var s := AfterFreightSku(inv, orders, now);
    Record(s, DuplicateRule(inv, s.normalized, invoices), now)
  }

  /** The whole stage: the seven rules on a copy of the invoice's fields, then
      the summary entry. */
  function ApplyRules(inv: Invoice, orders: seq<PurchaseOrder>, invoices: seq<Invoice>, now: string): (r: ApplyResult)
    ensures |r.proposedCorrections| == |r.appliedMemories| <= 7
    ensures |r.audit| == |r.appliedMemories| + 1
    ensures AllAt(r.audit, Apply)
    ensures forall i :: 0 <= i < |r.appliedMemories| ==> r.audit[i].details == RuleFired(r.proposedCorrections[i])
    ensures r.audit[|r.appliedMemories|].details == RulesApplied(|r.appliedMemories|, inv.invoiceId)
  {
    var last := AfterDuplicate(inv, orders, invoices, now);
    BookedStages(inv, orders, invoices, now);
    last.(audit := last.audit + [AuditEntry(Apply, now, RulesApplied(|last.appliedMemories|, inv.invoiceId))])
  }

  lemma BookedStages(inv: Invoice, orders: seq<PurchaseOrder>, invoices: seq<Invoice>, now: string)
    ensures Booked(AfterDuplicate(inv, orders, invoices, now), now)
    ensures |AfterDuplicate(inv, orders, invoices, now).appliedMemories| <= 7
  {
    var s0 := Initial(inv);
    var s1 := AfterServiceDate(inv, now);
    var s2 := AfterPo(inv, orders, now);
    var s3 := AfterVat(inv, orders, now);
    var s4 := AfterCurrency(inv, orders, now);
    var s5 := AfterSkonto(inv, orders, now);
    var s6 := AfterFreightSku(inv, orders, now);
    RecordBooked(s0, ServiceDateRule(inv, s0.normalized), now);
    RecordBooked(s1, PoRule(inv, s1.normalized, orders), now);
    RecordBooked(s2, VatRule(inv, s2.normalized), now);
    RecordBooked(s3, CurrencyRule(inv, s3.normalized), now);
    RecordBooked(s4, SkontoRule(inv, s4.normalized), now);
    RecordBooked(s5, FreightSkuRule(inv, s5.normalized), now);
    RecordBooked(s6, DuplicateRule(inv, s6.normalized, invoices), now);
  }
}
