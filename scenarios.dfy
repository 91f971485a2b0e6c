/** Call sequences through the handlers, on a fresh store, with what each
    one guarantees proved from the handlers' contracts alone. */
module Scenarios {
  import opened Schema
  import opened Database
  import opened Patients
  import opened Scans
  import opened Analyses

  /** On a fresh store, `owner` registers a patient, uploads a mammography
      scan of them and analyses it with draw `pick`. */
  method Setup(owner: UserId, image: StorageId, pick: nat, getUrl: StorageId -> Option<Url>)
    returns (db: Store, p: Id, s: Id, a: Id)
    requires pick < |MockResults|
    ensures fresh(db) && db.Valid() && db.Linked()
    ensures db.patients.Keys == {p} && db.patients[p].createdBy == owner
    ensures db.scans.Keys == {s} && db.scans[s].createdBy == owner && db.scans[s].patientId == p
    ensures db.analyses.Keys == {a} && db.analyses[a].patientId == p && db.analyses[a].scanId == s
    ensures var x := db.analyses[a];
      && x.createdBy == owner && x.status == Pending && x.reviewedBy.None? && x.reviewDate.None?
      && x.riskLevel == MockResults[pick].riskLevel && x.confidence == MockResults[pick].confidence
      && x.findings == MockResults[pick].findings && x.recommendations == MockResults[pick].recommendations
      && x.aiAnalysis == Summary(MockResults[pick])
  {
    db := new Store();
    var jane := PatientFields("Jane", "Doe", "jane.doe@example.com", "555-0100", "1980-04-12", None);
    var rp := CreatePatient(db, Some(owner), jane);
    p := rp.value;
    var rs := CreateScan(db, Some(owner), ScanFields(p, image, Mammography, "2024-01-15", None));
    s := rs.value;
    var ra := AnalyzeImage(db, Some(owner), s, pick, getUrl);
    a := ra.value;
  }

  /** Register a patient, upload a mammography scan, analyse it and fetch
      the analysis as the same user: the result is pending, belongs to the
      user, refers to the scan and patient just created, and carries the
      drawn table entry and its summary verbatim. */
  method EndToEnd(u: UserId, image: StorageId, pick: nat, getUrl: StorageId -> Option<Url>)
    returns (p: Id, s: Id, fetched: Result<Analysis>)
    requires pick < |MockResults|
    ensures fetched.Ok?
    ensures fetched.value.scanId == s && fetched.value.patientId == p
    ensures fetched.value.aiAnalysis == Summary(MockResults[pick])
    ensures fetched.value.status == Pending && fetched.value.createdBy == u
    ensures fetched.value.riskLevel == MockResults[pick].riskLevel
    ensures fetched.value.confidence == MockResults[pick].confidence
    ensures fetched.value.findings == MockResults[pick].findings
    ensures fetched.value.recommendations == MockResults[pick].recommendations
    ensures fetched.value.reviewedBy.None? && fetched.value.reviewDate.None?
  {
    var db, a;
    db, p, s, a := Setup(u, image, pick, getUrl);
    fetched := GetAnalysis(db, Some(u), a);
  }

  /** A second user cannot fetch the owner's patient, scan or analysis by
      id, yet listing the analyses of the owner's patient shows them the
      owner's record. */
  method CrossUserListing(owner: UserId, other: UserId, image: StorageId, pick: nat,
                          getUrl: StorageId -> Option<Url>)
    returns (patient: Result<Patient>, scan: Result<ScanView>, analysis: Result<Analysis>,
             listed: Result<seq<Doc<Analysis>>>)
    requires owner != other
    requires pick < |MockResults|
    ensures patient == Err(NotFoundOrDenied)
    ensures scan == Err(NotFoundOrDenied)
    ensures analysis == Err(NotFoundOrDenied)
    ensures listed.Ok? && |listed.value| == 1 && listed.value[0].value.createdBy == owner
  {
    var db, p, s, a := Setup(owner, image, pick, getUrl);
    patient := GetPatient(db, Some(other), p);
    scan := GetScan(db, Some(other), s, getUrl);
    analysis := GetAnalysis(db, Some(other), a);
    listed := ListAnalyses(db, Some(other), p);
    ghost var ids := IdsOf(listed.value);
    assert ids == {a};
    NewestFirstIdsDistinct(listed.value);
  }
}
