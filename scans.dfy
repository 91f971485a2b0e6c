/** Scan handlers: the upload-URL gate, create, list by patient and get.
    The blob store is a parameter: `getUrl` resolves a stored object to a
    display URL (or none), `issued` is the upload URL it hands out. */
module Scans {
  import opened Schema
  import opened Database
  import opened Patients

  /** The createScan arguments. */
  datatype ScanFields = ScanFields(
    patientId: Id,
    imageId: StorageId,
    scanType: ScanType,
    scanDate: string,
    notes: Option<string>)

  /** A scan as the queries return it: the stored document plus its image URL. */
  datatype ScanView = ScanView(scan: Scan, imageUrl: Option<Url>)

  function ScanFieldsOf(s: Scan): ScanFields {
    ScanFields(s.patientId, s.imageId, s.scanType, s.scanDate, s.notes)
  }

  /** The document createScan inserts: the arguments spread, stamped with the owner. */
  function NewScan(f: ScanFields, owner: UserId): (s: Scan)
    ensures ScanFieldsOf(s) == f && s.createdBy == owner
  {
    Scan(f.patientId, f.imageId, f.scanType, f.scanDate, f.notes, owner)
  }

  /** The `by_patient` index key. */
  function ScanPatient(s: Scan): Id {
    s.patientId
  }

  /** Authenticated callers get the blob store's upload URL; nothing else happens. */
  function GenerateUploadUrl(caller: Option<UserId>, issued: Url): (r: Result<Url>)
    ensures caller.None? <==> r == Err(Unauthenticated)
    ensures r.Ok? ==> r.value == issued
  {
    if caller.None? then Err(Unauthenticated) else Ok(issued)
  }

  /** The patient check shared by createScan and listScans: it passes
      exactly when getPatient, asked by the same caller, succeeds. */
  predicate OwnsPatient(db: Store, u: UserId, patientId: Id): (b: bool)
    reads db
    ensures b <==> GetPatient(db, Some(u), patientId).Ok?
  {
    patientId in db.patients && db.patients[patientId].createdBy == u
  }

  method CreateScan(db: Store, caller: Option<UserId>, f: ScanFields) returns (r: Result<Id>)
    requires db.Valid()
    modifies db
    ensures db.Valid()
    ensures old(db.Linked()) ==> db.Linked()
    ensures caller.None? ==> r == Err(Unauthenticated)
    ensures caller.Some? ==> (r.Ok? <==> old(OwnsPatient(db, caller.value, f.patientId)))
    ensures caller.Some? && r.Err? ==> r.error == NotFoundOrDenied
    ensures r.Err? ==> unchanged(db)
    ensures r.Ok? ==>
      && r.value == old(db.clock)
      && r.value !in old(db.scans)
      && db.scans == old(db.scans)[r.value := NewScan(f, caller.value)]
      && |db.scans| == |old(db.scans)| + 1
      && db.patients == old(db.patients) && db.analyses == old(db.analyses) && db.reports == old(db.reports)
      && db.clock == old(db.clock) + 1
    ensures r.Ok? ==> db.patients[f.patientId].createdBy == db.scans[r.value].createdBy
  {
    if caller.None? {
      return Err(Unauthenticated);
    }
    if !OwnsPatient(db, caller.value, f.patientId) {
      return Err(NotFoundOrDenied);
    }
    var id := db.NextId();
    FreshInsertSize(db.scans, id, NewScan(f, caller.value));
    db.scans := db.scans[id := NewScan(f, caller.value)];
    r := Ok(id);
  }

  /** Adds the resolved image URL to each document of a query result. */
  function WithUrls(docs: seq<Doc<Scan>>, getUrl: StorageId -> Option<Url>): (r: seq<Doc<ScanView>>)
    ensures |r| == |docs|
    ensures forall i :: 0 <= i < |r| ==>
      r[i] == Doc(docs[i].id, ScanView(docs[i].value, getUrl(docs[i].value.imageId)))
  {
    seq(|docs|, i requires 0 <= i < |docs| =>
      Doc(docs[i].id, ScanView(docs[i].value, getUrl(docs[i].value.imageId))))
  }

  /** The scans of one of the caller's patients, newest first, each with its
      image URL. The patient check comes before any scan is read. */
  function ListScans(db: Store, caller: Option<UserId>, patientId: Id, getUrl: StorageId -> Option<Url>)
    : (r: Result<seq<Doc<ScanView>>>)
    reads db
    requires db.Valid()
    ensures caller.None? ==> r == Err(Unauthenticated)
    ensures caller.Some? ==> (r.Ok? <==> OwnsPatient(db, caller.value, patientId))
    ensures caller.Some? && r.Err? ==> r.error == NotFoundOrDenied
    ensures r.Ok? ==> forall i :: 0 <= i < |r.value| ==>
      && r.value[i].id in db.scans
      && r.value[i].value.scan == db.scans[r.value[i].id]
      && r.value[i].value.scan.patientId == patientId
      && r.value[i].value.imageUrl == getUrl(r.value[i].value.scan.imageId)
    ensures r.Ok? ==> forall id :: id in db.scans && db.scans[id].patientId == patientId ==>
      id in IdsOf(r.value)
    ensures r.Ok? ==> NewestFirst(r.value)
  {
    if caller.None? then Err(Unauthenticated)
    else if !OwnsPatient(db, caller.value, patientId) then Err(NotFoundOrDenied)
    else
      var docs := IndexScan(db.scans, ScanPatient, patientId, db.clock);
      IndexScanCovers(db.scans, ScanPatient, patientId, db.clock);
      var r := WithUrls(docs, getUrl);
      assert forall i :: 0 <= i < |r| ==> r[i].id == docs[i].id;
      assert IdsOf(r) == IdsOf(docs);
      Ok(r)
  }

  /** One scan with its image URL, if it exists and the caller owns it. */
  function GetScan(db: Store, caller: Option<UserId>, id: Id, getUrl: StorageId -> Option<Url>)
    : (r: Result<ScanView>)
    reads db
    ensures caller.None? ==> r == Err(Unauthenticated)
    ensures caller.Some? ==> (r.Ok? <==> id in db.scans && db.scans[id].createdBy == caller.value)
    ensures caller.Some? && r.Err? ==> r.error == NotFoundOrDenied
    ensures r.Ok? ==> id in db.scans && r.value == ScanView(db.scans[id], getUrl(db.scans[id].imageId))
  {
    if caller.None? then Err(Unauthenticated)
    else if id in db.scans && db.scans[id].createdBy == caller.value then
      Ok(ScanView(db.scans[id], getUrl(db.scans[id].imageId)))
    else Err(NotFoundOrDenied)
  }

  /** In a linked store, a caller who can list a patient's scans is the
      owner of every scan listed, so listing never shows another user's scan. */
  lemma ListedScansAreCallers(db: Store, u: UserId, patientId: Id, getUrl: StorageId -> Option<Url>)
    requires db.Valid() && db.Linked()
    requires ListScans(db, Some(u), patientId, getUrl).Ok?
    ensures forall d :: d in ListScans(db, Some(u), patientId, getUrl).value ==>
      d.value.scan.createdBy == u && GetScan(db, Some(u), d.id, getUrl) == Ok(d.value)
  {
    var s := ListScans(db, Some(u), patientId, getUrl).value;
    forall d | d in s
      ensures d.value.scan.createdBy == u && GetScan(db, Some(u), d.id, getUrl) == Ok(d.value)
    {
      var i :| 0 <= i < |s| && s[i] == d;
      assert db.scans[d.id].patientId == patientId;
    }
  }
}
