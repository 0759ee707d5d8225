/**
 * The data model of the Ontario immigration points engine: the eight
 * nomination streams, the self-reported applicant profile, the score result,
 * and the JavaScript truthiness rules the scoring code relies on.
 */
module Types {

  /** An optional profile field: `None` is a field the applicant has not filled in. */
  datatype Option<+T> = None | Some(value: T)

  /** The eight nomination streams. */
  datatype Stream =
    | ForeignWorker
    | IntlStudent
    | InDemand
    | Masters
    | PhD
    | HumanCapitalPriorities
    | SkilledTrades
    | FrenchWorker
  {
    /** Masters Graduate and PhD Graduate. */
    predicate IsGraduate() {
      this == Masters || this == PhD
    }

    /** The three employer job-offer streams. */
    predicate IsJobOffer() {
      this == ForeignWorker || this == IntlStudent || this == InDemand
    }

    /** The three streams drawn from the federal Express Entry pool. */
    predicate IsExpressEntry() {
      this == HumanCapitalPriorities || this == SkilledTrades || this == FrenchWorker
    }

    /** The Expression-of-Interest streams, scored by the provincial grid. */
    predicate IsEoi() {
      IsGraduate() || IsJobOffer()
    }
  }

  datatype MaritalStatus = Single | Married

  /**
   * The applicant profile. Every field but `stream` is optional. Numbers are
   * the integers the input form produces.
   */
  datatype Profile = Profile(
    stream: Stream,
    // job offer
    nocTeer: Option<string>,
    nocBroadCategory: Option<string>,
    wageAmount: Option<int>,
    currentlyWorkingWithEmployer: Option<bool>,
    // education
    educationLevel: Option<string>,
    fieldOfStudy: Option<string>,
    canadianCredentialCount: Option<string>,
    hasValidPermit: Option<bool>,
    earningsHistory: Option<bool>,
    // language
    clbLevel: Option<int>,
    bilingual: Option<bool>,
    // regionalization
    workLocation: Option<string>,
    studyLocation: Option<string>,
    // Express Entry
    crsScore: Option<int>,
    hasTradeExperience: Option<bool>,
    isFrenchSpeaker: Option<bool>,
    isTechOccupation: Option<bool>,
    // federal ranking estimator
    age: Option<int>,
    maritalStatus: Option<MaritalStatus>,
    spouseIsCanadian: Option<bool>,
    spouseEducationLevel: Option<string>,
    spouseClbLevel: Option<int>,
    spouseCanadianWorkExperienceYears: Option<int>,
    canadianWorkExperienceYears: Option<int>,
    foreignWorkExperienceYears: Option<int>,
    certificateOfQualification: Option<bool>,
    siblingInCanada: Option<bool>
  )

  /** A profile in which only the stream has been chosen. */
  function EmptyProfile(stream: Stream): (p: Profile)
    ensures p.stream == stream
    ensures p.nocTeer == None && p.nocBroadCategory == None && p.wageAmount == None
    ensures p.currentlyWorkingWithEmployer == None && p.educationLevel == None && p.fieldOfStudy == None
    ensures p.canadianCredentialCount == None && p.hasValidPermit == None && p.earningsHistory == None
    ensures p.clbLevel == None && p.bilingual == None && p.workLocation == None && p.studyLocation == None
    ensures p.crsScore == None && p.hasTradeExperience == None && p.isFrenchSpeaker == None
    ensures p.isTechOccupation == None && p.age == None && p.maritalStatus == None && p.spouseIsCanadian == None
    ensures p.spouseEducationLevel == None && p.spouseClbLevel == None
    ensures p.spouseCanadianWorkExperienceYears == None && p.canadianWorkExperienceYears == None
    ensures p.foreignWorkExperienceYears == None && p.certificateOfQualification == None && p.siblingInCanada == None
  {
    Profile(stream, None, None, None, None, None, None, None, None, None, None, None,
            None, None, None, None, None, None, None, None, None, None, None, None,
            None, None, None, None)
  }

  /**
   * The calculator's result. `breakdown` is the record of awarded points in
   * insertion order; its keys are distinct.
   */
  datatype ScoreResult = ScoreResult(
    total: int,
    breakdown: seq<(string, int)>,
    eligible: bool,
    maxPossible: int
  )

  // JavaScript truthiness of optional fields.

  /** `!!b`: only an explicit `true` counts. */
  predicate Flag(b: Option<bool>) {
    b == Some(true)
  }

  /** A number is truthy when present and non-zero. */
  predicate TruthyNum(n: Option<int>) {
    n.Some? && n.value != 0
  }

  /** `n || d` for a number. */
  function NumOr(n: Option<int>, d: int): int {
    if TruthyNum(n) then n.value else d
  }

  /** A string is truthy when present and non-empty. */
  predicate TruthyStr(s: Option<string>) {
    s.Some? && s.value != ""
  }

  /** `s || d` for a string. */
  function StrOr(s: Option<string>, d: string): string {
    if TruthyStr(s) then s.value else d
  }

  function Min(a: int, b: int): int {
    if a <= b then a else b
  }

  function Max(a: int, b: int): int {
    if a >= b then a else b
  }
}
