/** What the rule stage promises, stated about `ApplyRules`. */
module RuleLemmas {
  import opened Wrappers
  import opened Arith
  import opened Seqs
  import opened Text
  import opened Dates
  import opened Model
  import opened Rules

  /** Rule 1 only fills an absent service date, only for Supplier GmbH, and
      only from a `Leistungsdatum:` token, reordered from d.m.y to y-m-d. */
  lemma ServiceDateOutcome(inv: Invoice, orders: seq<PurchaseOrder>, invoices: seq<Invoice>, now: string)
    ensures ApplyRules(inv, orders, invoices, now).normalized.serviceDate ==
      if inv.vendor == SupplierGmbh && Blank(inv.fields.serviceDate) && LeistungsdatumToken(inv.rawText).Some?
      then Some(ReorderToYmd(LeistungsdatumToken(inv.rawText).value, '.'))
      else inv.fields.serviceDate
  {
  }

  /** Rule 2 only fills an absent order number, only for Supplier GmbH, and
      only when exactly one order of the vendor matches; with none or with
      several the number stays as it was. */
  lemma PoNumberOutcome(inv: Invoice, orders: seq<PurchaseOrder>, invoices: seq<Invoice>, now: string)
    ensures var candidates := PoCandidates(VendorOrders(orders, inv.vendor), inv.fields);
      ApplyRules(inv, orders, invoices, now).normalized.poNumber ==
      if inv.vendor == SupplierGmbh && Blank(inv.fields.poNumber) && |candidates| == 1
      then Some(candidates[0].poNumber)
      else inv.fields.poNumber
  {
    PoStage(inv, orders, now);
    PoKeptAfterPo(inv, orders, invoices, now);
  }

  lemma PoStage(inv: Invoice, orders: seq<PurchaseOrder>, now: string)
    ensures var candidates := PoCandidates(VendorOrders(orders, inv.vendor), inv.fields);
      AfterPo(inv, orders, now).normalized.poNumber ==
      if inv.vendor == SupplierGmbh && Blank(inv.fields.poNumber) && |candidates| == 1
      then Some(candidates[0].poNumber)
      else inv.fields.poNumber
  {
    var f := inv.fields;
    var s1 := AfterServiceDate(inv, now);
    assert s1.normalized.poNumber == f.poNumber && s1.normalized.lineItems == f.lineItems
        && s1.normalized.invoiceDate == f.invoiceDate;
    assert PoRuleInvoiceDay(s1.normalized) == PoRuleInvoiceDay(f);
  }

  lemma PoKeptAfterPo(inv: Invoice, orders: seq<PurchaseOrder>, invoices: seq<Invoice>, now: string)
    ensures AfterDuplicate(inv, orders, invoices, now).normalized.poNumber == AfterPo(inv, orders, now).normalized.poNumber
  {
    var s2 := AfterPo(inv, orders, now);
    var s3 := AfterVat(inv, orders, now);
    var s4 := AfterCurrency(inv, orders, now);
    var s5 := AfterSkonto(inv, orders, now);
    var s6 := AfterFreightSku(inv, orders, now);
    assert s3.normalized.poNumber == s2.normalized.poNumber;
    assert s4.normalized.poNumber == s3.normalized.poNumber;
    assert s5.normalized.poNumber == s4.normalized.poNumber;
    assert s6.normalized.poNumber == s5.normalized.poNumber;
  }

  /** The candidates are exactly the vendor's orders dated within 30 days of
      the invoice date that share a non-empty SKU with the invoice lines. */
  lemma PoCandidatesExactly(orders: seq<PurchaseOrder>, vendor: string, f: InvoiceFields)
    ensures forall po :: po in PoCandidates(VendorOrders(orders, vendor), f) <==>
      po in orders && po.vendor == vendor
      && WithinDays(PoRuleInvoiceDay(f), ParseDateText(po.date), PoWindowDays)
      && SharesSku(f.lineItems, po.lineItems)
  {
  }

  /** Rule 4 only fills an absent currency, only for Parts AG, and only from
      a three-letter upper-case code after `Currency:`. */
  lemma CurrencyOutcome(inv: Invoice, orders: seq<PurchaseOrder>, invoices: seq<Invoice>, now: string)
    ensures ApplyRules(inv, orders, invoices, now).normalized.currency ==
      if inv.vendor == PartsAg && Blank(inv.fields.currency) && CurrencyToken(inv.rawText).Some?
      then CurrencyToken(inv.rawText)
      else inv.fields.currency
    ensures var c := ApplyRules(inv, orders, invoices, now).normalized.currency;
      c != inv.fields.currency ==> |c.value| == 3 && forall t :: 0 <= t < 3 ==> IsUpper(c.value[t])
  {
  }

  /** Rule 6 only fills an absent SKU of the first line, only for Freight & Co,
      and only when that line's description mentions shipping; no other line
      is touched by any rule. */
  lemma FirstLineSkuOutcome(inv: Invoice, orders: seq<PurchaseOrder>, invoices: seq<Invoice>, now: string)
    ensures var items := inv.fields.lineItems;
      ApplyRules(inv, orders, invoices, now).normalized.lineItems ==
      if inv.vendor == FreightCo && |items| > 0 && Blank(items[0].sku) && IsShippingDescription(items[0].description)
      then items[0 := items[0].(sku := Some(FreightSku))]
      else items
  {
  }

  /** Rule 5 has no guard on existing terms: Skonto text always sets them. */
  lemma DiscountTermsOutcome(inv: Invoice, orders: seq<PurchaseOrder>, invoices: seq<Invoice>, now: string)
    ensures ApplyRules(inv, orders, invoices, now).normalized.discountTerms ==
      if inv.vendor == FreightCo && Contains(ToLower(inv.rawText), "skonto")
      then Some(SkontoTerms)
      else inv.fields.discountTerms
  {
  }

  /** Rule 3 replaces net and tax exactly when it fires, and then they add up
      to the gross total and the net is the gross divided by (1 + rate),
      rounded to the nearest cent. */
  lemma VatOutcome(inv: Invoice, orders: seq<PurchaseOrder>, invoices: seq<Invoice>, now: string)
    ensures var out := ApplyRules(inv, orders, invoices, now).normalized;
      var f := inv.fields;
      if VatRule(inv, f).Some? then
        var rate := f.taxRate.value;
        && out.netTotal == RecomputedNet(f.grossTotal.value, rate)
        && out.netTotal + out.taxTotal == f.grossTotal.value
        && 2 * Abs(f.grossTotal.value * BasisPoints - out.netTotal * (BasisPoints + rate)) <= Abs(BasisPoints + rate)
        && (out.netTotal != f.netTotal || out.taxTotal != f.taxTotal)
      else
        out.netTotal == f.netTotal && out.taxTotal == f.taxTotal
  {
  }

  /** The recomputation is idempotent: on its own output it finds nothing to change. */
  lemma VatIdempotent(inv: Invoice, f: InvoiceFields)
    requires VatRule(inv, f).Some?
    ensures VatRule(inv, VatRule(inv, f).value.fields).None?
  {
  }

  /** Rule 3 fires exactly for Parts AG, on one of the three VAT phrasings,
      with both gross and rate present, and when the recomputed net or tax
      differs from the present one. */
  lemma VatRuleGate(inv: Invoice, f: InvoiceFields)
    ensures VatRule(inv, f).Some? <==>
      && inv.vendor == PartsAg && VatIncluded(inv.rawText) && f.grossTotal.Some? && f.taxRate.Some?
      && BasisPoints + f.taxRate.value != 0
      && var net := RecomputedNet(f.grossTotal.value, f.taxRate.value);
         net != f.netTotal || f.grossTotal.value - net != f.taxTotal
  {
  }

  /** The invoice is flagged exactly when some stored invoice of the same
      vendor and number, with another id, is dated within two days. */
  lemma DuplicateOutcome(inv: Invoice, orders: seq<PurchaseOrder>, invoices: seq<Invoice>, now: string)
    ensures ApplyRules(inv, orders, invoices, now).normalized.duplicate ==
      (inv.fields.duplicate ||
       exists other :: other in invoices && other.vendor == inv.vendor
                       && other.fields.invoiceNumber == inv.fields.invoiceNumber
                       && other.invoiceId != inv.invoiceId
                       && WithinDays(ParseInvoiceDate(inv.fields.invoiceDate), ParseInvoiceDate(other.fields.invoiceDate), DuplicateWindowDays))
  {
    IdentityFieldsKept(inv, orders, invoices, now);
    var s6 := AfterFreightSku(inv, orders, now);
    IdentityKeptBeforeDuplicate(inv, orders, now);
  }

  /** The invoice alone never makes itself a duplicate. */
  lemma NotOwnDuplicate(inv: Invoice, orders: seq<PurchaseOrder>, now: string)
    requires !inv.fields.duplicate
    ensures !ApplyRules(inv, orders, [inv], now).normalized.duplicate
  {
    DuplicateOutcome(inv, orders, [inv], now);
  }

  /** Duplicates are mutual: two stored invoices of one vendor and number,
      dated within two days, flag each other. */
  lemma DuplicateSymmetric(a: Invoice, b: Invoice, orders: seq<PurchaseOrder>, invoices: seq<Invoice>, now: string)
    requires a in invoices && b in invoices
    requires a.vendor == b.vendor && a.fields.invoiceNumber == b.fields.invoiceNumber && a.invoiceId != b.invoiceId
    requires WithinDays(ParseInvoiceDate(a.fields.invoiceDate), ParseInvoiceDate(b.fields.invoiceDate), DuplicateWindowDays)
    ensures ApplyRules(a, orders, invoices, now).normalized.duplicate
    ensures ApplyRules(b, orders, invoices, now).normalized.duplicate
  {
    DuplicateOutcome(a, orders, invoices, now);
    DuplicateOutcome(b, orders, invoices, now);
    WithinDaysSymmetric(ParseInvoiceDate(a.fields.invoiceDate), ParseInvoiceDate(b.fields.invoiceDate), DuplicateWindowDays);
  }

  /** No rule changes the number, the dates it reads or the amounts it reads. */
  lemma IdentityFieldsKept(inv: Invoice, orders: seq<PurchaseOrder>, invoices: seq<Invoice>, now: string)
    ensures var out := ApplyRules(inv, orders, invoices, now).normalized;
      out.invoiceNumber == inv.fields.invoiceNumber && out.invoiceDate == inv.fields.invoiceDate
      && out.grossTotal == inv.fields.grossTotal && out.taxRate == inv.fields.taxRate
  {
    var s1 := AfterServiceDate(inv, now);
    var s2 := AfterPo(inv, orders, now);
    var s3 := AfterVat(inv, orders, now);
    var s4 := AfterCurrency(inv, orders, now);
    var s5 := AfterSkonto(inv, orders, now);
    var s6 := AfterFreightSku(inv, orders, now);
    assert SameIdentity(s1.normalized, inv.fields);
    assert SameIdentity(s2.normalized, s1.normalized);
    assert SameIdentity(s3.normalized, s2.normalized);
    assert SameIdentity(s4.normalized, s3.normalized);
    assert SameIdentity(s5.normalized, s4.normalized);
    assert SameIdentity(s6.normalized, s5.normalized);
    assert SameIdentity(AfterDuplicate(inv, orders, invoices, now).normalized, s6.normalized);
  }

  predicate SameIdentity(f: InvoiceFields, g: InvoiceFields) {
    f.invoiceNumber == g.invoiceNumber && f.invoiceDate == g.invoiceDate
    && f.grossTotal == g.grossTotal && f.taxRate == g.taxRate
  }

  lemma IdentityKeptBeforeDuplicate(inv: Invoice, orders: seq<PurchaseOrder>, now: string)
    ensures SameIdentity(AfterFreightSku(inv, orders, now).normalized, inv.fields)
  {
    var s1 := AfterServiceDate(inv, now);
    var s2 := AfterPo(inv, orders, now);
    var s3 := AfterVat(inv, orders, now);
    var s4 := AfterCurrency(inv, orders, now);
    var s5 := AfterSkonto(inv, orders, now);
    assert SameIdentity(s1.normalized, inv.fields);
    assert SameIdentity(s2.normalized, s1.normalized);
    assert SameIdentity(s3.normalized, s2.normalized);
    assert SameIdentity(s4.normalized, s3.normalized);
    assert SameIdentity(s5.normalized, s4.normalized);
    assert SameIdentity(AfterFreightSku(inv, orders, now).normalized, s5.normalized);
  }

  /** Corrections other than rule 1's never report a service date, so the
      one `Leistungsdatum` correction, when there is one, comes first. */
  lemma ServiceDateCorrectionFirst(inv: Invoice, orders: seq<PurchaseOrder>, invoices: seq<Invoice>, now: string)
    ensures var r := ApplyRules(inv, orders, invoices, now);
      && (forall i :: 0 < i < |r.proposedCorrections| ==> !r.proposedCorrections[i].ServiceDateSet?)
      && ((|r.proposedCorrections| > 0 && r.proposedCorrections[0].ServiceDateSet?)
          <==> ServiceDateRule(inv, inv.fields).Some?)
  {
    var s1 := AfterServiceDate(inv, now);
    var k := |s1.proposedCorrections|;
    assert k == 0 || (k == 1 && ServiceDateRule(inv, inv.fields).Some?);
    assert NoServiceDateFrom(s1, k);
    assert s1.proposedCorrections[..k] == s1.proposedCorrections;
    var s2 := AfterPo(inv, orders, now);
    assert NoServiceDateFrom(s2, k) && k <= |s2.proposedCorrections| && s2.proposedCorrections[..k] == s1.proposedCorrections[..k] by {
      KeepNoServiceDate(s1, PoRule(inv, s1.normalized, orders), now, k);
    }
    var s3 := AfterVat(inv, orders, now);
    assert NoServiceDateFrom(s3, k) && k <= |s3.proposedCorrections| && s3.proposedCorrections[..k] == s1.proposedCorrections[..k] by {
      KeepNoServiceDate(s2, VatRule(inv, s2.normalized), now, k);
    }
    var s4 := AfterCurrency(inv, orders, now);
    assert NoServiceDateFrom(s4, k) && k <= |s4.proposedCorrections| && s4.proposedCorrections[..k] == s1.proposedCorrections[..k] by {
      KeepNoServiceDate(s3, CurrencyRule(inv, s3.normalized), now, k);
    }
    var s5 := AfterSkonto(inv, orders, now);
    assert NoServiceDateFrom(s5, k) && k <= |s5.proposedCorrections| && s5.proposedCorrections[..k] == s1.proposedCorrections[..k] by {
      KeepNoServiceDate(s4, SkontoRule(inv, s4.normalized), now, k);
    }
    var s6 := AfterFreightSku(inv, orders, now);
    assert NoServiceDateFrom(s6, k) && k <= |s6.proposedCorrections| && s6.proposedCorrections[..k] == s1.proposedCorrections[..k] by {
      KeepNoServiceDate(s5, FreightSkuRule(inv, s5.normalized), now, k);
    }
    var s7 := AfterDuplicate(inv, orders, invoices, now);
    assert NoServiceDateFrom(s7, k) && k <= |s7.proposedCorrections| && s7.proposedCorrections[..k] == s1.proposedCorrections[..k] by {
      KeepNoServiceDate(s6, DuplicateRule(inv, s6.normalized, invoices), now, k);
    }
    assert s7.proposedCorrections == ApplyRules(inv, orders, invoices, now).proposedCorrections;
  }

  lemma KeepNoServiceDate(acc: ApplyResult, fired: Option<Fired>, now: string, k: nat)
    requires k <= |acc.proposedCorrections| && NoServiceDateFrom(acc, k)
    requires fired.Some? ==> !fired.value.correction.ServiceDateSet?
    ensures var r := Record(acc, fired, now);
      NoServiceDateFrom(r, k) && k <= |r.proposedCorrections|
      && r.proposedCorrections[..k] == acc.proposedCorrections[..k]
  {
  }

  predicate NoServiceDateFrom(acc: ApplyResult, k: nat) {
    forall i :: k <= i < |acc.proposedCorrections| ==> !acc.proposedCorrections[i].ServiceDateSet?
  }

  /** For any other vendor only the duplicate check can act. */
  lemma OtherVendorOnlyDuplicate(inv: Invoice, orders: seq<PurchaseOrder>, invoices: seq<Invoice>, now: string)
    requires inv.vendor != SupplierGmbh && inv.vendor != PartsAg && inv.vendor != FreightCo
    ensures var r := ApplyRules(inv, orders, invoices, now);
      r.normalized == inv.fields.(duplicate := r.normalized.duplicate)
      && |r.appliedMemories| <= 1
  {
  }
}

/** Worked examples of the rule stage on concrete invoices.  Each example
    fixes the invoice through its requires clause; the facts about the
    literal texts are proved one by one in small lemmas. */
module RuleScenarios {
  import opened Wrappers
  import opened Arith
  import opened Text
  import opened Dates
  import opened Model
  import opened Rules
  import opened RuleLemmas

  lemma LeistungsdatumToken0503()
    ensures LeistungsdatumToken("Leistungsdatum: 05.03.2024") == Some("05.03.2024")
  {
    var raw := "Leistungsdatum: 05.03.2024";
    assert OccursAt(raw, "Leistungsdatum:", 0);
    assert SkipSpaces(raw, 15) == 16;
    assert DateRunEnd(raw, 16) == 26;
    assert raw[16..26] == "05.03.2024";
  }

  lemma Dotted0503()
    ensures "05.03.2024" == "05" + ['.'] + "03" + ['.'] + "2024"
  {
  }

  lemma Ymd0503()
    ensures "2024" + "-" + "03" + "-" + "05" == "2024-03-05"
  {
  }

  lemma Reorder0503()
    ensures ReorderToYmd("05" + ['.'] + "03" + ['.'] + "2024", '.') == "2024" + "-" + "03" + "-" + "05"
  {
    ReorderDigitGroups("05", "03", "2024", '.');
  }

  /** `Leistungsdatum: 05.03.2024` gives the service date `2024-03-05`: day,
      month and year reordered. */
  lemma LeistungsdatumScenario(inv: Invoice, orders: seq<PurchaseOrder>, invoices: seq<Invoice>, now: string)
    requires inv.vendor == SupplierGmbh && inv.fields.serviceDate == None
    requires inv.rawText == "Leistungsdatum: 05.03.2024"
    ensures var r := ApplyRules(inv, orders, invoices, now);
      r.normalized.serviceDate == Some("2024-03-05")
      && |r.proposedCorrections| > 0 && r.proposedCorrections[0] == ServiceDateSet("2024-03-05")
  {
    LeistungsdatumToken0503();
    Dotted0503();
    Reorder0503();
    Ymd0503();
    ServiceDateOutcome(inv, orders, invoices, now);
    ServiceDateCorrectionFirst(inv, orders, invoices, now);
  }

  lemma VatPhrase()
    ensures VatIncluded("MwSt. inkl.")
  {
    var low := ToLower("MwSt. inkl.");
    assert low == "mwst. inkl." by {
      assert forall i :: 0 <= i < |low| ==> low[i] == "mwst. inkl."[i];
    }
    assert OccursAt(low, "mwst. inkl", 0);
    assert Contains(low, "mwst. inkl");
  }

  lemma Net119()
    ensures RecomputedNet(11900, 1900) == 10000
  {
  }

  /** Gross 119.00 at 19 % with "MwSt. inkl." in the text: a wrong net is
      corrected to 100.00 and the tax to 19.00. */
  lemma VatScenario(inv: Invoice, orders: seq<PurchaseOrder>, invoices: seq<Invoice>, now: string)
    requires inv.vendor == PartsAg && inv.rawText == "MwSt. inkl."
    requires inv.fields.grossTotal == Some(11900) && inv.fields.taxRate == Some(1900)
    requires inv.fields.netTotal != 10000
    ensures var out := ApplyRules(inv, orders, invoices, now).normalized;
      out.netTotal == 10000 && out.taxTotal == 1900
  {
    VatPhrase();
    Net119();
    assert VatRule(inv, inv.fields).Some?;
    VatOutcome(inv, orders, invoices, now);
    assert ApplyRules(inv, orders, invoices, now).normalized.netTotal == 10000;
  }

  lemma Year2024()
    ensures DigitsValue("2024") == 2024
  {
    assert "2024"[..3] == "202" && "202"[..2] == "20" && "20"[..1] == "2";
  }

  lemma DayInMarch2024(dd: string, d: nat)
    requires dd == "01" || dd == "03" || dd == "04"
    requires d == DigitsValue(dd)
    ensures 1 <= d <= 4
    ensures ParseInvoiceDate(dd + "." + "03" + "." + "2024") == Some(DayNumber(2024, 3, d))
  {
    Year2024();
    assert DigitsValue("03") == 3;
    DottedDateDay(dd, "03", "2024");
  }

  lemma March2024(date: string, d: nat)
    requires (date == "01.03.2024" && d == 1) || (date == "03.03.2024" && d == 3) || (date == "04.03.2024" && d == 4)
    ensures ParseInvoiceDate(date) == Some(DayNumber(2024, 3, d))
  {
    if d == 1 {
      assert date == "01" + "." + "03" + "." + "2024";
      DayInMarch2024("01", 1);
    } else if d == 3 {
      assert date == "03" + "." + "03" + "." + "2024";
      DayInMarch2024("03", 3);
    } else {
      assert date == "04" + "." + "03" + "." + "2024";
      DayInMarch2024("04", 4);
    }
  }

  /** Same vendor and number two days apart: each flags the other. */
  lemma DuplicateTwoDaysScenario(a: Invoice, b: Invoice, orders: seq<PurchaseOrder>, now: string)
    requires a.vendor == b.vendor && a.fields.invoiceNumber == b.fields.invoiceNumber && a.invoiceId != b.invoiceId
    requires a.fields.invoiceDate == "01.03.2024" && b.fields.invoiceDate == "03.03.2024"
    ensures ApplyRules(a, orders, [a, b], now).normalized.duplicate
    ensures ApplyRules(b, orders, [a, b], now).normalized.duplicate
  {
    March2024(a.fields.invoiceDate, 1);
    March2024(b.fields.invoiceDate, 3);
    SameMonthDistance(2024, 3, 1, 3);
    DuplicateSymmetric(a, b, orders, [a, b], now);
  }

  /** With only `x` and `y` stored, `x` is flagged only if `y` is dated
      within the window. */
  lemma PairNotFlagged(x: Invoice, y: Invoice, orders: seq<PurchaseOrder>, invoices: seq<Invoice>, now: string)
    requires forall other :: other in invoices ==> other == x || other == y
    requires x.invoiceId != y.invoiceId && !x.fields.duplicate
    requires !WithinDays(ParseInvoiceDate(x.fields.invoiceDate), ParseInvoiceDate(y.fields.invoiceDate), DuplicateWindowDays)
    ensures !ApplyRules(x, orders, invoices, now).normalized.duplicate
  {
    DuplicateOutcome(x, orders, invoices, now);
  }

  /** Three days apart: neither is flagged. */
  lemma DuplicateThreeDaysScenario(a: Invoice, c: Invoice, orders: seq<PurchaseOrder>, now: string)
    requires a.vendor == c.vendor && a.fields.invoiceNumber == c.fields.invoiceNumber && a.invoiceId != c.invoiceId
    requires a.fields.invoiceDate == "01.03.2024" && c.fields.invoiceDate == "04.03.2024"
    requires !a.fields.duplicate && !c.fields.duplicate
    ensures !ApplyRules(a, orders, [a, c], now).normalized.duplicate
    ensures !ApplyRules(c, orders, [a, c], now).normalized.duplicate
  {
    var da, dc := ParseInvoiceDate(a.fields.invoiceDate), ParseInvoiceDate(c.fields.invoiceDate);
    assert !WithinDays(da, dc, DuplicateWindowDays) by {
      March2024(a.fields.invoiceDate, 1);
      March2024(c.fields.invoiceDate, 4);
      SameMonthDistance(2024, 3, 1, 4);
    }
    WithinDaysSymmetric(da, dc, DuplicateWindowDays);
    forall other | other in [a, c] ensures other == a || other == c {}
    PairNotFlagged(a, c, orders, [a, c], now);
    PairNotFlagged(c, a, orders, [a, c], now);
  }
}
