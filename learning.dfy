/** The learning stage over the correction-memory table: each human
    correction either creates the vendor's (vendor, field) row or moves the
    existing row's confidence one step towards 1 (approved) or 0 (anything
    else).  Confidences are hundredths. */
module Learning {
  import opened Wrappers
  import opened Arith
  import opened Model

  const Approved: string := "approved"
  /** The confidence of a row created by an approved or a rejected invoice. */
  const CreatedApproved: int := 70
  const CreatedRejected: int := 30
  /** One learning step moves a confidence by 0.1. */
  const LearnStep: int := 10
  const Floor: int := 0
  const Ceiling: int := 100

  /** Only the exact text "approved" is an approval. */
  predicate IsApproved(decision: string) { decision == Approved }

  predicate HasKey(m: CorrectionMemory, vendor: string, field: string) {
    m.vendor == vendor && m.field == field
  }

  /** The lookup of the (vendor, field) row: the position of the first row with that key. */
  function FindRow(rows: seq<CorrectionMemory>, vendor: string, field: string): (r: Option<nat>)
    ensures r.Some? ==> r.value < |rows| && HasKey(rows[r.value], vendor, field)
    ensures r.Some? ==> forall i :: 0 <= i < r.value ==> !HasKey(rows[i], vendor, field)
    ensures r.None? <==> forall i :: 0 <= i < |rows| ==> !HasKey(rows[i], vendor, field)
  {
    if rows == [] then None
    else if HasKey(rows[0], vendor, field) then Some(0)
    else match FindRow(rows[1..], vendor, field)
      case None => None
      case Some(k) => Some(k + 1)
  }

  /** The lookup of an invoice's human-correction record: the first one stored for that id. */
  function FindHumanCorrection(hcs: seq<HumanCorrection>, invoiceId: string): (r: Option<HumanCorrection>)
    ensures r.Some? ==> r.value in hcs && r.value.invoiceId == invoiceId
    ensures r.None? ==> forall h :: h in hcs ==> h.invoiceId != invoiceId
  {
    if hcs == [] then None
    else if hcs[0].invoiceId == invoiceId then Some(hcs[0])
    else FindHumanCorrection(hcs[1..], invoiceId)
  }

  /** An approval: one step up, capped at 1. */
  function Reinforce(c: int): int { Min(Ceiling, c + LearnStep) }

  /** A rejection: one step down, floored at 0. */
  function Decay(c: int): int { Max(Floor, c - LearnStep) }

  function Adjust(c: int, approved: bool): int { if approved then Reinforce(c) else Decay(c) }

  function InitialConfidence(approved: bool): int { if approved then CreatedApproved else CreatedRejected }

  /** The table as learning leaves it: the rows, the next serial id and the
      update messages produced so far. */
  datatype LearnState = LearnState(rows: seq<CorrectionMemory>, nextId: nat, updates: seq<MemoryUpdate>)

  /** The table invariant the learning loop keeps: one row per (vendor, field),
      every confidence in [0,1], ids ascending in insertion order and below the next serial id. */
  predicate TableValid(rows: seq<CorrectionMemory>, nextId: nat) {
    (forall i, j :: 0 <= i < j < |rows| ==> !HasKey(rows[j], rows[i].vendor, rows[i].field)) &&
    (forall i :: 0 <= i < |rows| ==> Floor <= rows[i].confidence <= Ceiling) &&
    (forall i, j :: 0 <= i < j < |rows| ==> rows[i].id < rows[j].id) &&
    (forall i :: 0 <= i < |rows| ==> rows[i].id < nextId)
  }

  /** One iteration of the loop of `learn`: insert the missing row or update the existing one. */
  function LearnOne(st: LearnState, vendor: string, approved: bool, corr: FieldCorrection): (r: LearnState)
    ensures |st.rows| <= |r.rows| <= |st.rows| + 1 && |r.updates| == |st.updates| + 1
    ensures |r.rows| == |st.rows| + 1 <==> FindRow(st.rows, vendor, corr.field).None?
  {
    match FindRow(st.rows, vendor, corr.field)
    case None =>
      var conf := InitialConfidence(approved);
      LearnState(st.rows + [CorrectionMemory(st.nextId, vendor, corr.field, corr.reason, corr.to, conf)],
                 st.nextId + 1,
                 st.updates + [Created(vendor, corr.field, conf)])
    case Some(i) =>
      var conf := Adjust(st.rows[i].confidence, approved);
      LearnState(st.rows[i := st.rows[i].(confidence := conf)],
                 st.nextId,
                 st.updates + [Updated(st.rows[i].id, vendor, corr.field, conf)])
  }

  /** The whole loop: the corrections processed in order (folded from the last one, as the loop's invariant reads). */
  function LearnAll(st: LearnState, vendor: string, approved: bool, cs: seq<FieldCorrection>): (r: LearnState)
    ensures |st.rows| <= |r.rows| <= |st.rows| + |cs| && |r.updates| == |st.updates| + |cs|
  {
    if cs == [] then st
    else LearnOne(LearnAll(st, vendor, approved, cs[..|cs| - 1]), vendor, approved, cs[|cs| - 1])
  }

  /** What `learn` returns: the new table and the messages, and its one `learn` entry. */
  datatype LearnOutcome = LearnOutcome(state: LearnState, audit: seq<AuditEntry>)

  /** `learn` for one invoice: without a human-correction record nothing changes;
      otherwise every correction is learned under the invoice's vendor. */
  function LearnStage(rows: seq<CorrectionMemory>, nextId: nat, hc: Option<HumanCorrection>, inv: Invoice, now: string): (r: LearnOutcome)
    ensures |r.audit| == 1 && AllAt(r.audit, Learn)
    ensures hc.None? ==> r.state == LearnState(rows, nextId, [])
    ensures hc.None? ==> r.audit[0].details == NoHumanCorrections(inv.invoiceId)
    ensures hc.Some? ==> r.audit[0].details == CorrectionsProcessed(|hc.value.corrections|, inv.invoiceId)
  {
    match hc
    case None =>
      LearnOutcome(LearnState(rows, nextId, []), [AuditEntry(Learn, now, NoHumanCorrections(inv.invoiceId))])
    case Some(h) =>
      LearnOutcome(LearnAll(LearnState(rows, nextId, []), inv.vendor, IsApproved(h.finalDecision), h.corrections),
                   [AuditEntry(Learn, now, CorrectionsProcessed(|h.corrections|, inv.invoiceId))])
  }

  // ---------------------------------------------------------------------
  // One step

  /** A step changes exactly the confidence of the row for its key, or appends that row. */
  lemma LearnOneEffect(st: LearnState, vendor: string, approved: bool, corr: FieldCorrection)
    ensures var st' := LearnOne(st, vendor, approved, corr);
      match FindRow(st.rows, vendor, corr.field)
      case None =>
        && st'.rows == st.rows + [CorrectionMemory(st.nextId, vendor, corr.field, corr.reason, corr.to, InitialConfidence(approved))]
        && st'.nextId == st.nextId + 1
        && st'.updates == st.updates + [Created(vendor, corr.field, InitialConfidence(approved))]
      case Some(i) =>
        && |st'.rows| == |st.rows| && st'.nextId == st.nextId
        && st'.rows[i] == st.rows[i].(confidence := Adjust(st.rows[i].confidence, approved))
        && (forall j :: 0 <= j < |st.rows| && j != i ==> st'.rows[j] == st.rows[j])
        && st'.updates == st.updates + [Updated(st.rows[i].id, vendor, corr.field, st'.rows[i].confidence)]
  {
  }

  /** The message a step appends names the step's vendor and field. */
  lemma LearnOneMessage(st: LearnState, vendor: string, approved: bool, corr: FieldCorrection)
    ensures var st' := LearnOne(st, vendor, approved, corr);
      && st'.updates[..|st.updates|] == st.updates
      && |st'.updates| == |st.updates| + 1
      && st'.updates[|st.updates|].vendor == vendor && st'.updates[|st.updates|].field == corr.field
  {
  }

  /** A step keeps every existing row's key and id and never removes a row. */
  lemma LearnOneKeepsKeys(st: LearnState, vendor: string, approved: bool, corr: FieldCorrection)
    ensures var st' := LearnOne(st, vendor, approved, corr);
      && |st.rows| <= |st'.rows| <= |st.rows| + 1
      && (forall j :: 0 <= j < |st.rows| ==>
            st'.rows[j].vendor == st.rows[j].vendor && st'.rows[j].field == st.rows[j].field && st'.rows[j].id == st.rows[j].id)
      && FindRow(st'.rows, vendor, corr.field).Some?
      && |st'.updates| == |st.updates| + 1
  {
    var st' := LearnOne(st, vendor, approved, corr);
    if FindRow(st.rows, vendor, corr.field).None? {
      assert HasKey(st'.rows[|st.rows|], vendor, corr.field);
    } else {
      var i := FindRow(st.rows, vendor, corr.field).value;
      assert HasKey(st'.rows[i], vendor, corr.field);
    }
  }

  /** A step keeps the table invariant: in particular it never creates a second row for a key. */
  lemma LearnOneValid(st: LearnState, vendor: string, approved: bool, corr: FieldCorrection)
    requires TableValid(st.rows, st.nextId)
    ensures TableValid(LearnOne(st, vendor, approved, corr).rows, LearnOne(st, vendor, approved, corr).nextId)
  {
    var st' := LearnOne(st, vendor, approved, corr);
    match FindRow(st.rows, vendor, corr.field)
    case None =>
      var n := |st.rows|;
      assert st'.rows == st.rows + [st'.rows[n]];
      forall i, j | 0 <= i < j < |st'.rows|
        ensures !HasKey(st'.rows[j], st'.rows[i].vendor, st'.rows[i].field)
      {
        if j == n {
          assert st'.rows[i] == st.rows[i];
        }
      }
    case Some(i) =>
      assert forall j :: 0 <= j < |st.rows| ==> st'.rows[j].vendor == st.rows[j].vendor && st'.rows[j].field == st.rows[j].field && st'.rows[j].id == st.rows[j].id;
  }

  // ---------------------------------------------------------------------
  // The whole loop

  /** Learning a list keeps the table invariant. */
  lemma {:induction false} LearnAllValid(st: LearnState, vendor: string, approved: bool, cs: seq<FieldCorrection>)
    requires TableValid(st.rows, st.nextId)
    ensures TableValid(LearnAll(st, vendor, approved, cs).rows, LearnAll(st, vendor, approved, cs).nextId)
  {
    if cs != [] {
      LearnAllValid(st, vendor, approved, cs[..|cs| - 1]);
      LearnOneValid(LearnAll(st, vendor, approved, cs[..|cs| - 1]), vendor, approved, cs[|cs| - 1]);
    }
  }

  /** Learning a list emits exactly one update message per correction, for that
      correction's field under the invoice's vendor, and keeps the messages before it. */
  lemma {:induction false} LearnAllUpdates(st: LearnState, vendor: string, approved: bool, cs: seq<FieldCorrection>)
    ensures var st' := LearnAll(st, vendor, approved, cs);
      && |st'.updates| == |st.updates| + |cs|
      && st'.updates[..|st.updates|] == st.updates
      && (forall j :: |st.updates| <= j < |st'.updates| ==>
            st'.updates[j].vendor == vendor && st'.updates[j].field == cs[j - |st.updates|].field)
  {
    if cs != [] {
      var prefix := cs[..|cs| - 1];
      var mid := LearnAll(st, vendor, approved, prefix);
      LearnAllUpdates(st, vendor, approved, prefix);
      LearnOneMessage(mid, vendor, approved, cs[|cs| - 1]);
      var st' := LearnAll(st, vendor, approved, cs);
      forall j | |st.updates| <= j < |st'.updates|
        ensures st'.updates[j].vendor == vendor && st'.updates[j].field == cs[j - |st.updates|].field
      {
        if j < |mid.updates| {
          assert st'.updates[j] == st'.updates[..|mid.updates|][j];
          assert cs[j - |st.updates|] == prefix[j - |st.updates|];
        }
      }
      assert st'.updates[..|st.updates|] == st'.updates[..|mid.updates|][..|st.updates|];
    }
  }

  /** Learning a list keeps every earlier row with its key and id, and adds at most one row per correction. */
  lemma {:induction false} LearnAllKeepsKeys(st: LearnState, vendor: string, approved: bool, cs: seq<FieldCorrection>)
    ensures var st' := LearnAll(st, vendor, approved, cs);
      && |st.rows| <= |st'.rows| <= |st.rows| + |cs|
      && (forall j :: 0 <= j < |st.rows| ==>
            st'.rows[j].vendor == st.rows[j].vendor && st'.rows[j].field == st.rows[j].field && st'.rows[j].id == st.rows[j].id)
  {
    if cs != [] {
      var mid := LearnAll(st, vendor, approved, cs[..|cs| - 1]);
      LearnAllKeepsKeys(st, vendor, approved, cs[..|cs| - 1]);
      LearnOneKeepsKeys(mid, vendor, approved, cs[|cs| - 1]);
    }
  }

  /** After learning a list, every corrected field of the vendor has a row. */
  lemma {:induction false} LearnAllCovers(st: LearnState, vendor: string, approved: bool, cs: seq<FieldCorrection>)
    ensures forall k :: 0 <= k < |cs| ==> FindRow(LearnAll(st, vendor, approved, cs).rows, vendor, cs[k].field).Some?
  {
    if cs != [] {
      var prefix := cs[..|cs| - 1];
      var mid := LearnAll(st, vendor, approved, prefix);
      var st' := LearnAll(st, vendor, approved, cs);
      LearnAllCovers(st, vendor, approved, prefix);
      LearnOneKeepsKeys(mid, vendor, approved, cs[|cs| - 1]);
      forall k | 0 <= k < |prefix| ensures FindRow(st'.rows, vendor, cs[k].field).Some? {
        assert cs[k] == prefix[k];
        var i := FindRow(mid.rows, vendor, prefix[k].field).value;
        assert HasKey(st'.rows[i], vendor, cs[k].field);
      }
    }
  }

  /** Learning rows of one vendor never touches another vendor's rows. */
  lemma {:induction false} LearnAllOtherVendors(st: LearnState, vendor: string, approved: bool, cs: seq<FieldCorrection>, j: nat)
    requires j < |st.rows| && st.rows[j].vendor != vendor
    ensures j < |LearnAll(st, vendor, approved, cs).rows| && LearnAll(st, vendor, approved, cs).rows[j] == st.rows[j]
  {
    if cs != [] {
      var mid := LearnAll(st, vendor, approved, cs[..|cs| - 1]);
      LearnAllOtherVendors(st, vendor, approved, cs[..|cs| - 1], j);
      LearnOneEffect(mid, vendor, approved, cs[|cs| - 1]);
    }
  }

  // ---------------------------------------------------------------------
  // Confidence dynamics

  /** A confidence in [0,1] stays in [0,1]; an approval raises it strictly
      unless it is already 1, a rejection lowers it strictly unless it is already 0. */
  lemma AdjustBounds(c: int, approved: bool)
    requires Floor <= c <= Ceiling
    ensures Floor <= Adjust(c, approved) <= Ceiling
    ensures approved && c < Ceiling ==> c < Adjust(c, approved)
    ensures !approved && Floor < c ==> Adjust(c, approved) < c
    ensures approved ==> c <= Adjust(c, approved)
    ensures !approved ==> Adjust(c, approved) <= c
  {
  }

  /** `n` learning steps in the same direction. */
  function Repeat(c: int, approved: bool, n: nat): int {
    if n == 0 then c else Adjust(Repeat(c, approved, n - 1), approved)
  }

  /** `n` approvals give min(1, c + 0.1n); `n` rejections give max(0, c - 0.1n). */
  lemma {:induction false} RepeatClosedForm(c: int, approved: bool, n: nat)
    requires Floor <= c <= Ceiling
    ensures approved ==> Repeat(c, approved, n) == Min(Ceiling, c + LearnStep * n)
    ensures !approved ==> Repeat(c, approved, n) == Max(Floor, c - LearnStep * n)
  {
    if n > 0 {
      RepeatClosedForm(c, approved, n - 1);
    }
  }

  /** Learning a list of corrections that all name the same field, for a key that
      already has a row, moves that row's confidence |cs| steps and keeps its position. */
  lemma {:induction false} LearnAllSameField(st: LearnState, vendor: string, approved: bool, cs: seq<FieldCorrection>, field: string, i: nat)
    requires FindRow(st.rows, vendor, field) == Some(i)
    requires forall k :: 0 <= k < |cs| ==> cs[k].field == field
    ensures FindRow(LearnAll(st, vendor, approved, cs).rows, vendor, field) == Some(i)
    ensures LearnAll(st, vendor, approved, cs).rows[i].confidence == Repeat(st.rows[i].confidence, approved, |cs|)
  {
    if cs != [] {
      var prefix := cs[..|cs| - 1];
      assert forall k :: 0 <= k < |prefix| ==> prefix[k] == cs[k];
      LearnAllSameField(st, vendor, approved, prefix, field, i);
      var mid := LearnAll(st, vendor, approved, prefix);
      SameFieldStep(mid, vendor, approved, cs[|cs| - 1], field, i);
      assert LearnAll(st, vendor, approved, cs) == LearnOne(mid, vendor, approved, cs[|cs| - 1]);
      assert Repeat(st.rows[i].confidence, approved, |cs|) == Adjust(Repeat(st.rows[i].confidence, approved, |prefix|), approved);
    }
  }

  /** One step on a key that already has a row adjusts that row in place and keeps it first for the key. */
  lemma SameFieldStep(st: LearnState, vendor: string, approved: bool, corr: FieldCorrection, field: string, i: nat)
    requires FindRow(st.rows, vendor, field) == Some(i)
    requires corr.field == field
    ensures FindRow(LearnOne(st, vendor, approved, corr).rows, vendor, field) == Some(i)
    ensures LearnOne(st, vendor, approved, corr).rows[i].confidence == Adjust(st.rows[i].confidence, approved)
  {
    LearnOneEffect(st, vendor, approved, corr);
    FindRowPointwise(st.rows, LearnOne(st, vendor, approved, corr).rows, vendor, field, i);
  }

  /** Changing only confidences keeps the first row of every key where it was. */
  lemma FindRowPointwise(rows: seq<CorrectionMemory>, rows': seq<CorrectionMemory>, vendor: string, field: string, i: nat)
    requires FindRow(rows, vendor, field) == Some(i)
    requires |rows'| == |rows|
    requires forall j :: 0 <= j < |rows| ==> rows'[j].vendor == rows[j].vendor && rows'[j].field == rows[j].field
    ensures FindRow(rows', vendor, field) == Some(i)
  {
    assert HasKey(rows'[i], vendor, field);
    var r := FindRow(rows', vendor, field);
    assert HasKey(rows[r.value], vendor, field);
    assert !(r.value < i);
    assert !(i < r.value);
  }

  // ---------------------------------------------------------------------
  // Worked examples

  /** A first approved correction creates its row at 0.70 with the reason as pattern and `to` as suggestion. */
  lemma CreateExample(rows: seq<CorrectionMemory>, nextId: nat, vendor: string, corr: FieldCorrection)
    requires forall j :: 0 <= j < |rows| ==> !HasKey(rows[j], vendor, corr.field)
    ensures LearnOne(LearnState(rows, nextId, []), vendor, true, corr) ==
      LearnState(rows + [CorrectionMemory(nextId, vendor, corr.field, corr.reason, corr.to, 70)], nextId + 1, [Created(vendor, corr.field, 70)])
    ensures LearnOne(LearnState(rows, nextId, []), vendor, false, corr).rows[|rows|].confidence == 30
  {
  }

  /** An approval moves 0.70 to 0.80 and 0.95 to 1.00; a rejection moves 0.05 to 0.00. */
  lemma AdjustExamples()
    ensures Adjust(70, true) == 80 && Adjust(95, true) == 100 && Adjust(5, false) == 0 && Adjust(70, false) == 60
  {
  }
}
