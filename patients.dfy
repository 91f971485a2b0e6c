/** Patient handlers: create, list, get and update, each behind the
    authentication gate and scoped to the caller as owner. */
module Patients {
  import opened Schema
  import opened Database

  /** The handler arguments: every demographic field of a patient. */
  datatype PatientFields = PatientFields(
    firstName: string,
    lastName: string,
    email: string,
    phone: string,
    dateOfBirth: string,
    medicalHistory: Option<string>)

  /** The demographic fields of a stored patient. */
  function Demographics(p: Patient): PatientFields {
    PatientFields(p.firstName, p.lastName, p.email, p.phone, p.dateOfBirth, p.medicalHistory)
  }

  /** The document createPatient inserts: the arguments spread, stamped with the owner. */
  function NewPatient(f: PatientFields, owner: UserId): (p: Patient)
    ensures Demographics(p) == f && p.createdBy == owner
  {
    Patient(f.firstName, f.lastName, f.email, f.phone, f.dateOfBirth, f.medicalHistory, owner)
  }

  /** `ctx.db.patch(id, updates)`: the five required fields are overwritten;
      an omitted medicalHistory is not part of the patch and keeps its value;
      createdBy is not among the updates. */
  function Patched(p: Patient, u: PatientFields): (q: Patient)
    ensures q.createdBy == p.createdBy
    ensures u.medicalHistory.Some? ==> Demographics(q) == u
    ensures u.medicalHistory.None? ==> Demographics(q) == u.(medicalHistory := p.medicalHistory)
  {
    var history := if u.medicalHistory.Some? then u.medicalHistory else p.medicalHistory;
    Patient(u.firstName, u.lastName, u.email, u.phone, u.dateOfBirth, history, p.createdBy)
  }

  /** Patching twice with the same updates is patching once. */
  lemma PatchedIdempotent(p: Patient, u: PatientFields)
    ensures Patched(Patched(p, u), u) == Patched(p, u)
  {
  }

  /** Patching a patient with its own fields changes nothing. */
  lemma PatchedWithOwnFields(p: Patient)
    ensures Patched(p, Demographics(p)) == p
  {
  }

  /** A later patch that names every field wins over an earlier one. */
  lemma PatchedLastWins(p: Patient, u: PatientFields, v: PatientFields)
    requires v.medicalHistory.Some?
    ensures Patched(Patched(p, u), v) == Patched(p, v)
  {
  }

  /** The `by_created_by` index key. */
  function PatientOwner(p: Patient): UserId {
    p.createdBy
  }

  method CreatePatient(db: Store, caller: Option<UserId>, f: PatientFields) returns (r: Result<Id>)
    requires db.Valid()
    modifies db
    ensures db.Valid()
    ensures old(db.Linked()) ==> db.Linked()
    ensures caller.None? ==> r == Err(Unauthenticated) && unchanged(db)
    ensures caller.Some? ==>
      && r == Ok(old(db.clock))
      && r.value !in old(db.patients)
      && db.patients == old(db.patients)[r.value := NewPatient(f, caller.value)]
      && |db.patients| == |old(db.patients)| + 1
      && db.scans == old(db.scans) && db.analyses == old(db.analyses) && db.reports == old(db.reports)
      && db.clock == old(db.clock) + 1
    ensures r.Ok? ==> GetPatient(db, caller, r.value) == Ok(NewPatient(f, caller.value))
  {
    if caller.None? {
      return Err(Unauthenticated);
    }
    var id := db.NextId();
    FreshInsertSize(db.patients, id, NewPatient(f, caller.value));
    db.patients := db.patients[id := NewPatient(f, caller.value)];
    r := Ok(id);
  }

  /** All of the caller's patients, newest first. */
  function ListPatients(db: Store, caller: Option<UserId>): (r: Result<seq<Doc<Patient>>>)
    reads db
    requires db.Valid()
    ensures caller.None? <==> r == Err(Unauthenticated)
    ensures r.Ok? ==> forall i :: 0 <= i < |r.value| ==>
      && r.value[i].id in db.patients
      && db.patients[r.value[i].id] == r.value[i].value
      && r.value[i].value.createdBy == caller.value
    ensures r.Ok? ==> forall id :: id in db.patients && db.patients[id].createdBy == caller.value ==>
      id in IdsOf(r.value)
    ensures r.Ok? ==> NewestFirst(r.value)
  {
    if caller.None? then Err(Unauthenticated)
    else
      IndexScanCovers(db.patients, PatientOwner, caller.value, db.clock);
      Ok(IndexScan(db.patients, PatientOwner, caller.value, db.clock))
  }

  /** One patient, if it exists and the caller owns it; absence and foreign
      ownership give the same error. */
  function GetPatient(db: Store, caller: Option<UserId>, id: Id): (r: Result<Patient>)
    reads db
    ensures caller.None? ==> r == Err(Unauthenticated)
    ensures caller.Some? ==>
      (r.Ok? <==> id in db.patients && db.patients[id].createdBy == caller.value)
    ensures caller.Some? && r.Err? ==> r.error == NotFoundOrDenied
    ensures r.Ok? ==> id in db.patients && r.value == db.patients[id]
  {
    if caller.None? then Err(Unauthenticated)
    else if id in db.patients && db.patients[id].createdBy == caller.value then Ok(db.patients[id])
    else Err(NotFoundOrDenied)
  }

  /** Listing and getting agree: a patient is listed for a caller exactly
      when that caller can get it, and the listed document is what get returns. */
  lemma ListAgreesWithGet(db: Store, u: UserId, id: Id)
    requires db.Valid()
    ensures ListPatients(db, Some(u)).Ok?
    ensures id in IdsOf(ListPatients(db, Some(u)).value) <==> GetPatient(db, Some(u), id).Ok?
    ensures forall d :: d in ListPatients(db, Some(u)).value && d.id == id ==>
      GetPatient(db, Some(u), id) == Ok(d.value)
  {
    var s := ListPatients(db, Some(u)).value;
    if id in IdsOf(s) {
      var i :| 0 <= i < |s| && s[i].id == id;
      assert s[i].value.createdBy == u;
    }
    forall d | d in s && d.id == id
      ensures GetPatient(db, Some(u), id) == Ok(d.value)
    {
      var i :| 0 <= i < |s| && s[i] == d;
    }
  }

  method UpdatePatient(db: Store, caller: Option<UserId>, id: Id, u: PatientFields) returns (r: Result<()>)
    requires db.Valid()
    modifies db
    ensures db.Valid()
    ensures old(db.Linked()) ==> db.Linked()
    ensures caller.None? ==> r == Err(Unauthenticated)
    ensures caller.Some? ==>
      (r.Ok? <==> id in old(db.patients) && old(db.patients)[id].createdBy == caller.value)
    ensures caller.Some? && r.Err? ==> r.error == NotFoundOrDenied
    ensures r.Err? ==> unchanged(db)
    ensures r.Ok? ==>
      && db.patients == old(db.patients)[id := Patched(old(db.patients)[id], u)]
      && db.patients.Keys == old(db.patients).Keys
      && db.scans == old(db.scans) && db.analyses == old(db.analyses) && db.reports == old(db.reports)
      && db.clock == old(db.clock)
  {
    if caller.None? {
      return Err(Unauthenticated);
    }
    if !(id in db.patients && db.patients[id].createdBy == caller.value) {
      return Err(NotFoundOrDenied);
    }
    db.patients := db.patients[id := Patched(db.patients[id], u)];
    r := Ok(());
  }
}
