/** The persisted schema: the four application tables and their enumerations.
    Every enumeration the schema declares as a union of string literals is a
    datatype here, so "always one of" holds by construction; the literal
    spelling of each member and the validator that accepts exactly those
    literals are given as a Name/Parse pair with a round-trip lemma. */
module Schema {

  datatype Option<+T> = None | Some(value: T)

  /** Document ids. All four tables draw their ids from one store-wide
      creation counter (see module Database), so an id also orders documents
      by creation time. */
  type Id = nat
  /** Identity of an authenticated user, as the auth provider hands it out. */
  type UserId = nat
  /** Reference to a stored binary object in the blob store. */
  type StorageId = nat
  type Url = string

  datatype ScanType = Mammography | Ultrasound | Mri
  datatype RiskLevel = Low | Moderate | High
  datatype Status = Pending | Reviewed | Approved
  datatype ReportType = Preliminary | Final

  function ScanTypeName(t: ScanType): string {
    match t
    case Mammography => "mammography"
    case Ultrasound => "ultrasound"
    case Mri => "mri"
  }

  /** The scanType validator: accepts exactly the three literals. */
  function ParseScanType(s: string): (r: Option<ScanType>)
    ensures r.Some? ==> ScanTypeName(r.value) == s
    ensures r.None? ==> forall t :: ScanTypeName(t) != s
  {
    if s == "mammography" then Some(Mammography)
    else if s == "ultrasound" then Some(Ultrasound)
    else if s == "mri" then Some(Mri)
    else None
  }

  lemma ScanTypeRoundTrip(t: ScanType)
    ensures ParseScanType(ScanTypeName(t)) == Some(t)
  {
  }

  function RiskLevelName(l: RiskLevel): string {
    match l
    case Low => "low"
    case Moderate => "moderate"
    case High => "high"
  }

  /** The riskLevel validator: accepts exactly the three literals. */
  function ParseRiskLevel(s: string): (r: Option<RiskLevel>)
    ensures r.Some? ==> RiskLevelName(r.value) == s
    ensures r.None? ==> forall l :: RiskLevelName(l) != s
  {
    if s == "low" then Some(Low)
    else if s == "moderate" then Some(Moderate)
    else if s == "high" then Some(High)
    else None
  }

  lemma RiskLevelRoundTrip(l: RiskLevel)
    ensures ParseRiskLevel(RiskLevelName(l)) == Some(l)
  {
  }

  function StatusName(s: Status): string {
    match s
    case Pending => "pending"
    case Reviewed => "reviewed"
    case Approved => "approved"
  }

  /** The status validator: accepts exactly the three literals. */
  function ParseStatus(s: string): (r: Option<Status>)
    ensures r.Some? ==> StatusName(r.value) == s
    ensures r.None? ==> forall st :: StatusName(st) != s
  {
    if s == "pending" then Some(Pending)
    else if s == "reviewed" then Some(Reviewed)
    else if s == "approved" then Some(Approved)
    else None
  }

  lemma StatusRoundTrip(s: Status)
    ensures ParseStatus(StatusName(s)) == Some(s)
  {
  }

  function ReportTypeName(t: ReportType): string {
    match t
    case Preliminary => "preliminary"
    case Final => "final"
  }

  /** The reportType validator: accepts exactly the two literals. */
  function ParseReportType(s: string): (r: Option<ReportType>)
    ensures r.Some? ==> ReportTypeName(r.value) == s
    ensures r.None? ==> forall t :: ReportTypeName(t) != s
  {
    if s == "preliminary" then Some(Preliminary)
    else if s == "final" then Some(Final)
    else None
  }

  lemma ReportTypeRoundTrip(t: ReportType)
    ensures ParseReportType(ReportTypeName(t)) == Some(t)
  {
  }

  /** A patient's demographic record; medicalHistory is optional. */
  datatype Patient = Patient(
    firstName: string,
    lastName: string,
    email: string,
    phone: string,
    dateOfBirth: string,
    medicalHistory: Option<string>,
    createdBy: UserId)

  /** Metadata of one uploaded image, bound to a patient; notes are optional. */
  datatype Scan = Scan(
    patientId: Id,
    imageId: StorageId,
    scanType: ScanType,
    scanDate: string,
    notes: Option<string>,
    createdBy: UserId)

  /** A risk verdict for a scan; the reviewer and review date are optional
      and absent until someone reviews it. */
  datatype Analysis = Analysis(
    scanId: Id,
    patientId: Id,
    riskLevel: RiskLevel,
    confidence: int,
    findings: string,
    recommendations: string,
    aiAnalysis: string,
    reviewedBy: Option<UserId>,
    reviewDate: Option<string>,
    status: Status,
    createdBy: UserId)

  /** Declared by the schema; no operation reads or writes it. */
  datatype Report = Report(
    analysisId: Id,
    patientId: Id,
    reportType: ReportType,
    content: string,
    generatedDate: string,
    createdBy: UserId)
}
