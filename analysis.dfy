/** Analysis handlers: the simulated risk analysis of a scan, listing by
    patient, get, and status review. The random draw of analysis.ts
    (`Math.random`) is the parameter `pick`, an index into the fixed
    outcome table. */
module Analyses {
  import opened Schema
  import opened Database
  import opened Scans
  import opened Internal

  /** One canned result of the simulated analysis. */
  datatype Outcome = Outcome(riskLevel: RiskLevel, confidence: nat, findings: string, recommendations: string)

  /** The fixed outcome table `mockAnalysisResults`, in analysis.ts's order. */
  const MockResults: seq<Outcome> := [
    Outcome(Low, 85,
      "No significant abnormalities detected. Normal breast tissue architecture observed. No masses, calcifications, or architectural distortions identified.",
      "Continue routine screening as per guidelines. Next mammogram in 12 months."),
    Outcome(Moderate, 72,
      "Scattered fibroglandular densities noted. Some areas of increased density that may warrant closer monitoring. No definitive masses identified.",
      "Follow-up imaging in 6 months recommended. Consider additional views or ultrasound if symptoms develop."),
    Outcome(High, 91,
      "Irregular mass detected in upper outer quadrant. Suspicious microcalcifications present. Architectural distortion noted in surrounding tissue.",
      "Immediate biopsy recommended. Urgent referral to breast specialist. Additional imaging studies may be required.")
  ]

  /** The table holds exactly one entry per risk level; this is its index. */
  function OutcomeIndex(l: RiskLevel): (i: nat)
    ensures i < |MockResults| && MockResults[i].riskLevel == l
  {
    match l
    case Low => 0
    case Moderate => 1
    case High => 2
  }

  /** No risk level occurs twice: OutcomeIndex inverts the table's risk column. */
  lemma OutcomeIndexInverts(i: nat)
    requires i < |MockResults|
    ensures OutcomeIndex(MockResults[i].riskLevel) == i
  {
  }

  /** The confidence the table pairs with each risk level. */
  function TableConfidence(l: RiskLevel): nat {
    match l
    case Low => 85
    case Moderate => 72
    case High => 91
  }

  lemma MockResultsConfidences(i: nat)
    requires i < |MockResults|
    ensures MockResults[i].confidence == TableConfidence(MockResults[i].riskLevel)
  {
  }

  /** The decimal spelling JavaScript gives a non-negative integer below
      10^21 in a template literal (from 10^21 on it switches to exponent
      form): at least one digit, no leading zero. */
  function DecimalString(n: nat): (s: string)
    ensures |s| >= 1
    ensures forall i :: 0 <= i < |s| ==> '0' <= s[i] <= '9'
    ensures s[0] == '0' ==> n == 0
  {
    if n < 10 then [('0' as int + n) as char]
    else DecimalString(n / 10) + [('0' as int + n % 10) as char]
  }

  /** The number a string of decimal digits denotes. */
  function DecimalValue(s: string): nat
    requires forall i :: 0 <= i < |s| ==> '0' <= s[i] <= '9'
  {
    if s == [] then 0
    else DecimalValue(s[..|s| - 1]) * 10 + (s[|s| - 1] as int - '0' as int)
  }

  lemma {:induction false} DecimalRoundTrip(n: nat)
    ensures DecimalValue(DecimalString(n)) == n
  {
    if n >= 10 {
      var s := DecimalString(n);
      assert s[..|s| - 1] == DecimalString(n / 10);
      DecimalRoundTrip(n / 10);
    }
  }

  const SummaryPrefix: string := "AI Analysis Complete - Risk Level: "
  const ConfidenceLabel: string := ", Confidence: "

  /** `AI Analysis Complete - Risk Level: ${riskLevel}, Confidence: ${confidence}%`. */
  function Summary(o: Outcome): (s: string)
    ensures |s| > |SummaryPrefix| && s[..|SummaryPrefix|] == SummaryPrefix && s[|s| - 1] == '%'
  {
    SummaryPrefix + RiskLevelName(o.riskLevel) + ConfidenceLabel + DecimalString(o.confidence) + "%"
  }

  /** The summary text records its outcome's risk level and confidence
      unambiguously: equal summaries come from equal level and confidence. */
  lemma {:induction false} SummaryDetermines(o1: Outcome, o2: Outcome)
    requires Summary(o1) == Summary(o2)
    ensures o1.riskLevel == o2.riskLevel && o1.confidence == o2.confidence
  {
    var s := Summary(o1);
    var n1, n2 := RiskLevelName(o1.riskLevel), RiskLevelName(o2.riskLevel);
    var p := |SummaryPrefix|;
    assert s[p] == n1[0];
    assert Summary(o2)[p] == n2[0];
    assert o1.riskLevel == o2.riskLevel;
    var d1, d2 := DecimalString(o1.confidence), DecimalString(o2.confidence);
    var k := p + |n1| + |ConfidenceLabel|;
    assert s[k..|s| - 1] == d1;
    assert Summary(o2)[k..|s| - 1] == d2;
    DecimalRoundTrip(o1.confidence);
    DecimalRoundTrip(o2.confidence);
  }

  /** The decimal spellings of the table's three confidences. */
  lemma TableConfidenceTexts()
    ensures DecimalString(85) == "85" && DecimalString(72) == "72" && DecimalString(91) == "91"
  {
    assert DecimalString(8) == "8" && DecimalString(7) == "7" && DecimalString(9) == "9";
  }

  /** The summary text of a low-risk outcome at its table confidence. */
  lemma SummaryTextLow(o: Outcome)
    requires o.riskLevel == Low && o.confidence == 85
    ensures Summary(o) == "AI Analysis Complete - Risk Level: low, Confidence: 85%"
  {
    TableConfidenceTexts();
  }

  /** The summary text of a moderate-risk outcome at its table confidence. */
  lemma SummaryTextModerate(o: Outcome)
    requires o.riskLevel == Moderate && o.confidence == 72
    ensures Summary(o) == "AI Analysis Complete - Risk Level: moderate, Confidence: 72%"
  {
    TableConfidenceTexts();
  }

  /** The summary text of a high-risk outcome at its table confidence. */
  lemma SummaryTextHigh(o: Outcome)
    requires o.riskLevel == High && o.confidence == 91
    ensures Summary(o) == "AI Analysis Complete - Risk Level: high, Confidence: 91%"
  {
    TableConfidenceTexts();
  }

  /** The createAnalysis arguments analyzeImage passes for a drawn outcome. */
  function Verdict(scanId: Id, patientId: Id, o: Outcome, owner: UserId): (f: AnalysisFields)
    ensures f.scanId == scanId && f.patientId == patientId && f.createdBy == owner
    ensures f.riskLevel == o.riskLevel && f.confidence == o.confidence
    ensures f.findings == o.findings && f.recommendations == o.recommendations
    ensures f.aiAnalysis == Summary(o)
  {
    AnalysisFields(scanId, patientId, o.riskLevel, o.confidence, o.findings, o.recommendations,
                   Summary(o), owner)
  }

  /** An analysis whose verdict columns are one entry of the table. */
  ghost predicate IsCannedVerdict(a: Analysis) {
    exists i :: 0 <= i < |MockResults| &&
      var o := MockResults[i];
      && a.riskLevel == o.riskLevel && a.confidence == o.confidence
      && a.findings == o.findings && a.recommendations == o.recommendations
      && a.aiAnalysis == Summary(o)
  }

  /** A canned verdict's confidence and summary follow from its risk level:
      low gives 85, moderate 72, high 91, with the matching summary text. */
  lemma CannedVerdictByRisk(a: Analysis)
    requires IsCannedVerdict(a)
    ensures a.confidence == TableConfidence(a.riskLevel)
    ensures a.aiAnalysis == Summary(MockResults[OutcomeIndex(a.riskLevel)])
    ensures MockResults[OutcomeIndex(a.riskLevel)].findings == a.findings
    ensures MockResults[OutcomeIndex(a.riskLevel)].recommendations == a.recommendations
  {
    var i :| 0 <= i < |MockResults| && a.riskLevel == MockResults[i].riskLevel
      && a.confidence == MockResults[i].confidence && a.findings == MockResults[i].findings
      && a.recommendations == MockResults[i].recommendations && a.aiAnalysis == Summary(MockResults[i]);
    OutcomeIndexInverts(i);
    MockResultsConfidences(i);
  }

  /** analyzeImage: authenticate, fetch the scan through getScan (which
      checks ownership), draw entry `pick` of the table and insert one new
      pending analysis through createAnalysis. Repeated calls insert
      repeated records; nothing is deduplicated per scan. */
  method AnalyzeImage(db: Store, caller: Option<UserId>, scanId: Id, pick: nat,
                      getUrl: StorageId -> Option<Url>) returns (r: Result<Id>)
    requires db.Valid()
    requires pick < |MockResults|
    modifies db
    ensures db.Valid()
    ensures old(db.Linked()) ==> db.Linked()
    ensures r != Err(ScanNotFound)
    ensures caller.None? ==> r == Err(Unauthenticated)
    ensures caller.Some? ==>
      (r.Ok? <==> scanId in old(db.scans) && old(db.scans)[scanId].createdBy == caller.value)
    ensures caller.Some? && r.Err? ==> r.error == NotFoundOrDenied
    ensures r.Err? ==> unchanged(db)
    ensures r.Ok? ==>
      && r.value == old(db.clock)
      && r.value !in old(db.analyses)
      && db.analyses.Keys == old(db.analyses).Keys + {r.value}
      && db.analyses == old(db.analyses)[r.value := db.analyses[r.value]]
      && |db.analyses| == |old(db.analyses)| + 1
      && db.patients == old(db.patients) && db.scans == old(db.scans) && db.reports == old(db.reports)
      && db.clock == old(db.clock) + 1
    ensures r.Ok? ==>
      var a := db.analyses[r.value];
      && a.scanId == scanId
      && a.patientId == old(db.scans)[scanId].patientId
      && a.createdBy == caller.value
      && a.status == Pending && a.reviewedBy.None? && a.reviewDate.None?
      && a.riskLevel == MockResults[pick].riskLevel
      && a.confidence == MockResults[pick].confidence
      && a.findings == MockResults[pick].findings
      && a.recommendations == MockResults[pick].recommendations
      && a.aiAnalysis == Summary(MockResults[pick])
      && IsCannedVerdict(a)
  {
    if caller.None? {
      return Err(Unauthenticated);
    }
    var scan := GetScan(db, caller, scanId, getUrl);
    if scan.Err? {
      return Err(scan.error);
    }
    // analysis.ts's `if (!scan)` re-check throws ScanNotFound; a successful
    // getScan always carries a scan, so that branch has no counterpart here.
    var o := MockResults[pick];
    var id := CreateAnalysis(db, Verdict(scanId, scan.value.scan.patientId, o, caller.value));
    r := Ok(id);
  }

  /** The `by_patient` index key. */
  function AnalysisPatient(a: Analysis): Id {
    a.patientId
  }

  /** Every analysis recorded for the patient, newest first. Neither the
      analyses' owner nor the patient's owner is checked. */
  function ListAnalyses(db: Store, caller: Option<UserId>, patientId: Id): (r: Result<seq<Doc<Analysis>>>)
    reads db
    requires db.Valid()
    ensures caller.None? <==> r == Err(Unauthenticated)
    ensures r.Ok? ==> forall i :: 0 <= i < |r.value| ==>
      && r.value[i].id in db.analyses
      && db.analyses[r.value[i].id] == r.value[i].value
      && r.value[i].value.patientId == patientId
    ensures r.Ok? ==> forall id :: id in db.analyses && db.analyses[id].patientId == patientId ==>
      id in IdsOf(r.value)
    ensures r.Ok? ==> NewestFirst(r.value)
  {
    if caller.None? then Err(Unauthenticated)
    else
      IndexScanCovers(db.analyses, AnalysisPatient, patientId, db.clock);
      Ok(IndexScan(db.analyses, AnalysisPatient, patientId, db.clock))
  }

  /** Who the authenticated caller is does not affect the listing. */
  lemma ListAnalysesIgnoresCaller(db: Store, u: UserId, v: UserId, patientId: Id)
    requires db.Valid()
    ensures ListAnalyses(db, Some(u), patientId) == ListAnalyses(db, Some(v), patientId)
  {
  }

  /** In a linked store every listed analysis belongs to the patient's
      owner, whoever the caller is: a caller who does not own the patient
      sees another user's records. */
  lemma ListedAnalysesBelongToPatientOwner(db: Store, caller: Option<UserId>, patientId: Id)
    requires db.Valid() && db.Linked()
    requires caller.Some?
    ensures forall d :: d in ListAnalyses(db, caller, patientId).value ==>
      patientId in db.patients && d.value.createdBy == db.patients[patientId].createdBy
  {
    var s := ListAnalyses(db, caller, patientId).value;
    forall d | d in s
      ensures patientId in db.patients && d.value.createdBy == db.patients[patientId].createdBy
    {
      var i :| 0 <= i < |s| && s[i] == d;
      var scanId := db.analyses[d.id].scanId;
      assert scanId in db.scans && db.scans[scanId].patientId == patientId;
    }
  }

  /** One analysis, if it exists and the caller created it. */
  function GetAnalysis(db: Store, caller: Option<UserId>, id: Id): (r: Result<Analysis>)
    reads db
    ensures caller.None? ==> r == Err(Unauthenticated)
    ensures caller.Some? ==> (r.Ok? <==> id in db.analyses && db.analyses[id].createdBy == caller.value)
    ensures caller.Some? && r.Err? ==> r.error == NotFoundOrDenied
    ensures r.Ok? ==> id in db.analyses && r.value == db.analyses[id]
  {
    if caller.None? then Err(Unauthenticated)
    else if id in db.analyses && db.analyses[id].createdBy == caller.value then Ok(db.analyses[id])
    else Err(NotFoundOrDenied)
  }

  /** The patch of updateAnalysisStatus: any status, from any status; the
      reviewer and the review date are set; every other field is kept. */
  function Reviewed(a: Analysis, status: Status, reviewer: UserId, now: string): (b: Analysis)
    ensures b.status == status && b.reviewedBy == Some(reviewer) && b.reviewDate == Some(now)
    ensures AnalysisFieldsOf(b) == AnalysisFieldsOf(a)
  {
    a.(status := status, reviewedBy := Some(reviewer), reviewDate := Some(now))
  }

  /** No transition is ruled out and nothing accumulates: a second review,
      even one that re-opens an approved analysis, replaces the first. */
  lemma ReviewedLastWins(a: Analysis, s1: Status, u1: UserId, t1: string, s2: Status, u2: UserId, t2: string)
    ensures Reviewed(Reviewed(a, s1, u1, t1), s2, u2, t2) == Reviewed(a, s2, u2, t2)
  {
  }

  /** updateAnalysisStatus; `now` is the ISO-8601 text of the current time. */
  method UpdateAnalysisStatus(db: Store, caller: Option<UserId>, id: Id, status: Status, now: string)
    returns (r: Result<()>)
    requires db.Valid()
    modifies db
    ensures db.Valid()
    ensures old(db.Linked()) ==> db.Linked()
    ensures caller.None? ==> r == Err(Unauthenticated)
    ensures caller.Some? ==>
      (r.Ok? <==> id in old(db.analyses) && old(db.analyses)[id].createdBy == caller.value)
    ensures caller.Some? && r.Err? ==> r.error == NotFoundOrDenied
    ensures r.Err? ==> unchanged(db)
    ensures r.Ok? ==>
      && db.analyses == old(db.analyses)[id := Reviewed(old(db.analyses)[id], status, caller.value, now)]
      && db.analyses.Keys == old(db.analyses).Keys
      && db.patients == old(db.patients) && db.scans == old(db.scans) && db.reports == old(db.reports)
      && db.clock == old(db.clock)
  {
    if caller.None? {
      return Err(Unauthenticated);
    }
    if !(id in db.analyses && db.analyses[id].createdBy == caller.value) {
      return Err(NotFoundOrDenied);
    }
    db.analyses := db.analyses[id := Reviewed(db.analyses[id], status, caller.value, now)];
    r := Ok(());
  }
}
