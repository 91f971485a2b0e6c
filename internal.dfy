/** The internal insert of an analysis record. It is reachable only from
    other server functions and performs no authentication of its own. */
module Internal {
  import opened Schema
  import opened Database

  /** The createAnalysis arguments, stored verbatim. */
  datatype AnalysisFields = AnalysisFields(
    scanId: Id,
    patientId: Id,
    riskLevel: RiskLevel,
    confidence: int,
    findings: string,
    recommendations: string,
    aiAnalysis: string,
    createdBy: UserId)

  /** The fields of a stored analysis that createAnalysis sets from its arguments. */
  function AnalysisFieldsOf(a: Analysis): AnalysisFields {
    AnalysisFields(a.scanId, a.patientId, a.riskLevel, a.confidence, a.findings,
                   a.recommendations, a.aiAnalysis, a.createdBy)
  }

  /** The inserted document: the arguments, status pending, not yet reviewed. */
  function NewAnalysis(f: AnalysisFields): (a: Analysis)
    ensures AnalysisFieldsOf(a) == f
    ensures a.status == Pending && a.reviewedBy.None? && a.reviewDate.None?
  {
    Analysis(f.scanId, f.patientId, f.riskLevel, f.confidence, f.findings, f.recommendations,
             f.aiAnalysis, None, None, Pending, f.createdBy)
  }

  /** A pending, unreviewed analysis is determined by its argument fields. */
  lemma NewAnalysisUnique(a: Analysis)
    requires a.status == Pending && a.reviewedBy.None? && a.reviewDate.None?
    ensures NewAnalysis(AnalysisFieldsOf(a)) == a
  {
  }

  /** Inserts one analysis under a fresh id. The store stays linked when the
      arguments name an existing scan, repeat its patient and its owner. */
  method CreateAnalysis(db: Store, f: AnalysisFields) returns (id: Id)
    requires db.Valid()
    modifies db
    ensures db.Valid()
    ensures id == old(db.clock) && id !in old(db.analyses)
    ensures db.analyses == old(db.analyses)[id := NewAnalysis(f)]
    ensures |db.analyses| == |old(db.analyses)| + 1
    ensures db.patients == old(db.patients) && db.scans == old(db.scans) && db.reports == old(db.reports)
    ensures db.clock == old(db.clock) + 1
    ensures (old(db.Linked()) && f.scanId in db.scans && db.scans[f.scanId].patientId == f.patientId
             && db.scans[f.scanId].createdBy == f.createdBy) ==> db.Linked()
  {
    id := db.NextId();
    FreshInsertSize(db.analyses, id, NewAnalysis(f));
    db.analyses := db.analyses[id := NewAnalysis(f)];
  }
}
