/** The domain shapes of `types.ts`: the two enums, the string-literal unions and the
    records the core reads and writes. Every string-literal union becomes a datatype
    with the literal it is stored as (`...Code`) and the parse of a stored literal
    (`Parse...`); the records keep their fields, optional ones as `Option`. */
module Types {
  import opened Options

  // ---------------------------------------------------------------------------
  // Enums

  datatype Role = ComfortAsbl | Dps | ZoneDeSante | AireDeSante | Communaute

  datatype JobRole = Admin | Medecin | Infirmier | SageFemme

  function RoleCode(r: Role): string {
    match r
    case ComfortAsbl => "COMFORT_ASBL"
    case Dps => "DPS"
    case ZoneDeSante => "ZONE_DE_SANTE"
    case AireDeSante => "AIRE_DE_SANTE"
    case Communaute => "COMMUNAUTE"
  }

  /** The five roles, in declaration order: every role occurs exactly once. */
  function AllRoles(): (rs: seq<Role>)
    ensures |rs| == 5
    ensures forall r: Role :: r in rs
    ensures forall i, j :: 0 <= i < j < |rs| ==> rs[i] != rs[j]
    ensures forall i, j :: 0 <= i < j < |rs| ==> RoleCode(rs[i]) != RoleCode(rs[j])
  {
    var rs := [ComfortAsbl, Dps, ZoneDeSante, AireDeSante, Communaute];
    assert forall r: Role :: r in rs by {
      forall r: Role ensures r in rs {
        if r.ComfortAsbl? { assert rs[0] == r; }
        else if r.Dps? { assert rs[1] == r; }
        else if r.ZoneDeSante? { assert rs[2] == r; }
        else if r.AireDeSante? { assert rs[3] == r; }
        else { assert rs[4] == r; }
      }
    }
    rs
  }

  function JobRoleCode(j: JobRole): string {
    match j
    case Admin => "ADMIN"
    case Medecin => "MEDECIN"
    case Infirmier => "INFIRMIER"
    case SageFemme => "SAGE_FEMME"
  }

  /** The four job roles, in declaration order: every job role occurs exactly once. */
  function AllJobRoles(): (js: seq<JobRole>)
    ensures |js| == 4
    ensures forall j: JobRole :: j in js
    ensures forall a, b :: 0 <= a < b < |js| ==> js[a] != js[b]
    ensures forall a, b :: 0 <= a < b < |js| ==> JobRoleCode(js[a]) != JobRoleCode(js[b])
  {
    var js := [Admin, Medecin, Infirmier, SageFemme];
    assert forall j: JobRole :: j in js by {
      forall j: JobRole ensures j in js {
        if j.Admin? { assert js[0] == j; }
        else if j.Medecin? { assert js[1] == j; }
        else if j.Infirmier? { assert js[2] == j; }
        else { assert js[3] == j; }
      }
    }
    js
  }

  // ---------------------------------------------------------------------------
  // String-literal unions

  datatype RiskLevel = Low | Medium | High

  function RiskLevelCode(r: RiskLevel): string {
    match r
    case Low => "LOW"
    case Medium => "MEDIUM"
    case High => "HIGH"
  }

  /** A stored risk level is one of exactly three literals. */
  function ParseRiskLevel(s: string): (r: Option<RiskLevel>)
    ensures r.Some? <==> s == "LOW" || s == "MEDIUM" || s == "HIGH"
    ensures r.Some? ==> RiskLevelCode(r.value) == s
  {
    if s == "LOW" then Some(Low)
    else if s == "MEDIUM" then Some(Medium)
    else if s == "HIGH" then Some(High)
    else None
  }

  datatype PartographStatus = Active | Closed | Referred

  function PartographStatusCode(st: PartographStatus): string {
    match st
    case Active => "ACTIVE"
    case Closed => "CLOSED"
    case Referred => "REFERRED"
  }

  /** A stored partograph status is one of exactly three literals. */
  function ParsePartographStatus(s: string): (r: Option<PartographStatus>)
    ensures r.Some? <==> s == "ACTIVE" || s == "CLOSED" || s == "REFERRED"
    ensures r.Some? ==> PartographStatusCode(r.value) == s
  {
    if s == "ACTIVE" then Some(Active)
    else if s == "CLOSED" then Some(Closed)
    else if s == "REFERRED" then Some(Referred)
    else None
  }

  datatype Priority = Routine | Emergency | Vital

  function PriorityCode(p: Priority): string {
    match p
    case Routine => "ROUTINE"
    case Emergency => "EMERGENCY"
    case Vital => "VITAL"
  }

  /** A stored referral priority is one of exactly three literals. */
  function ParsePriority(s: string): (r: Option<Priority>)
    ensures r.Some? <==> s == "ROUTINE" || s == "EMERGENCY" || s == "VITAL"
    ensures r.Some? ==> PriorityCode(r.value) == s
  {
    if s == "ROUTINE" then Some(Routine)
    else if s == "EMERGENCY" then Some(Emergency)
    else if s == "VITAL" then Some(Vital)
    else None
  }

  datatype ReferralStatus = Pending | InTransit | Received | Completed

  function ReferralStatusCode(st: ReferralStatus): string {
    match st
    case Pending => "PENDING"
    case InTransit => "IN_TRANSIT"
    case Received => "RECEIVED"
    case Completed => "COMPLETED"
  }

  /** A stored referral status is one of exactly four literals. */
  function ParseReferralStatus(s: string): (r: Option<ReferralStatus>)
    ensures r.Some? <==> s == "PENDING" || s == "IN_TRANSIT" || s == "RECEIVED" || s == "COMPLETED"
    ensures r.Some? ==> ReferralStatusCode(r.value) == s
  {
    if s == "PENDING" then Some(Pending)
    else if s == "IN_TRANSIT" then Some(InTransit)
    else if s == "RECEIVED" then Some(Received)
    else if s == "COMPLETED" then Some(Completed)
    else None
  }

  /** Amniotic fluid: clear, meconium-stained, bloody, intact membranes. */
  datatype Liquor = C | M | B | I

  function LiquorCode(l: Liquor): string {
    match l
    case C => "C"
    case M => "M"
    case B => "B"
    case I => "I"
  }

  /** A stored liquor code is one of exactly four one-letter literals. */
  function ParseLiquor(s: string): (r: Option<Liquor>)
    ensures r.Some? <==> s == "C" || s == "M" || s == "B" || s == "I"
    ensures r.Some? ==> LiquorCode(r.value) == s && |s| == 1
  {
    if s == "C" then Some(C)
    else if s == "M" then Some(M)
    else if s == "B" then Some(B)
    else if s == "I" then Some(I)
    else None
  }

  /** A general referral hospital or a health centre. */
  datatype StructureType = Hgr | Cs

  function StructureTypeCode(t: StructureType): string {
    match t
    case Hgr => "HGR"
    case Cs => "CS"
  }

  /** A stored structure type is one of exactly two literals. */
  function ParseStructureType(s: string): (r: Option<StructureType>)
    ensures r.Some? <==> s == "HGR" || s == "CS"
    ensures r.Some? ==> StructureTypeCode(r.value) == s
  {
    if s == "HGR" then Some(Hgr)
    else if s == "CS" then Some(Cs)
    else None
  }

  /** Each value is stored as a literal that reads back as that value. */
  lemma CodesRoundTrip(r: RiskLevel, st: PartographStatus, p: Priority, rs: ReferralStatus,
                       l: Liquor, t: StructureType)
    ensures ParseRiskLevel(RiskLevelCode(r)) == Some(r)
    ensures ParsePartographStatus(PartographStatusCode(st)) == Some(st)
    ensures ParsePriority(PriorityCode(p)) == Some(p)
    ensures ParseReferralStatus(ReferralStatusCode(rs)) == Some(rs)
    ensures ParseLiquor(LiquorCode(l)) == Some(l)
    ensures ParseStructureType(StructureTypeCode(t)) == Some(t)
  {
  }

  datatype DeliveryMode = Eutocic | CSection | Instrumental

  datatype Gender = Male | Female

  // ---------------------------------------------------------------------------
  // Records

  /** `DbMetadata`, which every stored record extends. */
  datatype Metadata = Metadata(
    createdAt: Option<string>,
    updatedAt: Option<string>,
    syncedAt: Option<string>,
    dhis2Uid: Option<string>)

  datatype HealthStructure = HealthStructure(
    id: string,
    name: string,
    structureType: StructureType,
    zoneId: string,
    provinceId: string)

  datatype ZoneDeSante = Zone(
    id: string,
    name: string,
    provinceId: string,
    hgrId: string,
    hgrName: Option<string>)

  datatype Province = Province(id: string, name: string)

  datatype EvolutionRecord = EvolutionRecord(
    date: string,
    monthsWeeks: string,
    weight: real,
    bp: string,
    fetalMovements: bool,
    fetalHeartRate: int,
    presentation: string,
    edema: bool,
    albuminuria: string,
    glucosuria: string)

  datatype PreventiveMeasures = PreventiveMeasures(
    vatDates: seq<string>,
    spDates: seq<string>,
    ironFolic: bool,
    mebendazole: bool,
    itn: bool)

  datatype ObstetricalHistory = ObstetricalHistory(
    parity: int,
    gravidity: int,
    livingChildren: int,
    abortions: int,
    cSection: bool,
    dystocia: bool,
    cerclage: Option<bool>,
    vacuum: Option<bool>,
    fracturedPelvis: Option<bool>,
    eutocia: Option<bool>)

  datatype Antecedents = Antecedents(
    patientId: string,
    medical: seq<string>,
    surgical: string,
    obstetrical: ObstetricalHistory,
    meta: Metadata)

  datatype PartographObservation = PartographObservation(
    id: string,
    partographId: string,
    time: string,
    cervicalDilatation: real,
    fetalHeartRate: int,
    contractions: int,
    bloodPressure: string,
    maternalPulse: int,
    temperature: real,
    liquor: Liquor,
    moulding: int,
    meta: Metadata)

  /** The documented range of cervical dilatation, in centimetres. Nothing in the
      source checks it. */
  predicate DilatationInDocumentedRange(o: PartographObservation) {
    0.0 <= o.cervicalDilatation <= 10.0
  }

  datatype InitialExam = InitialExam(presentation: string, position: string, station: int)

  datatype Outcome = Outcome(
    deliveryTime: string,
    mode: DeliveryMode,
    apgar1: int,
    apgar5: int,
    babyWeight: real,
    gender: Gender)

  datatype Partograph = Partograph(
    id: string,
    patientId: string,
    userId: string,
    startTime: string,
    status: PartographStatus,
    initialExam: InitialExam,
    observations: seq<PartographObservation>,
    outcome: Option<Outcome>,
    meta: Metadata)

  datatype Referral = Referral(
    id: string,
    patientId: string,
    fromStructureId: string,
    toStructureId: string,
    priority: Priority,
    reason: string,
    status: ReferralStatus,
    meta: Metadata)

  /** What `referrals.create` receives: a referral without `id`, `createdAt` and
      `updatedAt`. */
  datatype ReferralDraft = ReferralDraft(
    patientId: string,
    fromStructureId: string,
    toStructureId: string,
    priority: Priority,
    reason: string,
    status: ReferralStatus,
    syncedAt: Option<string>,
    dhis2Uid: Option<string>)

  datatype Patient = Patient(
    id: string,
    nationalId: Option<string>,
    name: string,
    postname: Option<string>,
    age: int,
    phone: string,
    riskLevel: RiskLevel,
    structureId: Option<string>,
    dob: Option<string>,
    address: Option<string>,
    civilStatus: Option<string>,
    gestationalAge: Option<int>,
    lastVisit: Option<string>,
    evolution: Option<seq<EvolutionRecord>>,
    preventiveMeasures: Option<PreventiveMeasures>,
    antecedents: Option<Antecedents>,
    meta: Metadata)
}
