/**
 * The simplified federal Comprehensive Ranking System estimate: core human
 * capital (age, education, first language, Canadian work experience), the
 * spouse factors, capped skill transferability and the additional points.
 */
module CrsScoring {
  import opened Types

  // ---------------------------------------------------------------------------
  // Inputs and their defaults
  // ---------------------------------------------------------------------------

  /**
   * Anyone not married, and anyone married to a Canadian citizen or permanent
   * resident, is scored on the single tables.
   */
  predicate IsSingle(p: Profile) {
    p.maritalStatus != Some(Married) || Flag(p.spouseIsCanadian)
  }

  /** Age; absent or 0 reads as 25. */
  function AgeOf(p: Profile): int {
    NumOr(p.age, 25)
  }

  /** Highest education; absent or empty reads as "none". */
  function EducationOf(p: Profile): string {
    StrOr(p.educationLevel, "none")
  }

  /** First-language band; absent reads as 0. */
  function ClbOf(p: Profile): int {
    NumOr(p.clbLevel, 0)
  }

  function CanadianYearsOf(p: Profile): int {
    NumOr(p.canadianWorkExperienceYears, 0)
  }

  function ForeignYearsOf(p: Profile): int {
    NumOr(p.foreignWorkExperienceYears, 0)
  }

  // ---------------------------------------------------------------------------
  // A. Core human capital
  // ---------------------------------------------------------------------------

  /**
   * Age points. Outside the fixed ages the points fall by 5.5 a year from 110
   * (by 5 from 100 when married) counted from 29, cut at 0 and rounded down;
   * the single decay is computed in half points, 220 - 11 per year, and halved.
   * Ages below 18 (below 20 when married) fall into the same formula with a
   * negative number of years and so score above the peak.
   */
  function AgePoints(age: int, single: bool): (r: int)
    ensures r >= 0
  {
    if single then
      if 20 <= age <= 29 then 110
      else if age == 18 then 99
      else if age == 19 then 105
      else if age >= 45 then 0
      else Max(0, 220 - 11 * (age - 29)) / 2
    else
      if 20 <= age <= 29 then 100
      else if age >= 45 then 0
      else Max(0, 100 - 5 * (age - 29))
  }

  /**
   * Between 30 and 44 the single points are 110 - 5.5 per year past 29,
   * rounded down, and the married points 100 - 5 per year past 29.
   */
  lemma AgeDecay(age: int)
    requires 30 <= age <= 44
    ensures 2 * AgePoints(age, true) <= 220 - 11 * (age - 29) < 2 * AgePoints(age, true) + 2
    ensures AgePoints(age, false) == 100 - 5 * (age - 29)
  {
  }

  /** From 29 on, age points stay at or below the peak (110 single, 100 married) and never rise with age. */
  lemma AgePointsPeak(age: int, older: int)
    requires 29 <= age <= older
    ensures AgePoints(older, true) <= AgePoints(age, true) <= 110
    ensures AgePoints(older, false) <= AgePoints(age, false) <= 100
  {
  }

  /**
   * From 18 to 29 single points are at most 110: 99 at 18, 105 at 19 and the
   * peak 110 from 20. Married points are the peak 100 from 20; at 18 and 19
   * the married decay runs with negative years and gives 100 + 5 per year below 29.
   */
  lemma AgePointsBelowPeakAge(age: int)
    requires 18 <= age <= 29
    ensures AgePoints(age, true) <= 110 && (age >= 20 ==> AgePoints(age, false) == 100)
    ensures AgePoints(age, true) == (if age == 18 then 99 else if age == 19 then 105 else 110)
    ensures age < 20 ==> AgePoints(age, false) == 100 + 5 * (29 - age)
  {
  }

  /** From 45 on, neither a single nor a married applicant gets any age points. */
  lemma AgePointsFromFortyFive(age: int)
    requires age >= 45
    ensures AgePoints(age, true) == 0 && AgePoints(age, false) == 0
  {
  }

  /** A 17-year-old single applicant gets 176 points: the formula runs with 12 negative years. */
  lemma UnderageAgePoints()
    ensures AgePoints(17, true) == 176
  {
  }

  const EducationPointsSingle: map<string, int> := map[
    "phd" := 150, "masters" := 135, "degree" := 120, "diploma2" := 98,
    "postgrad" := 90, "diploma1" := 90, "cert" := 85, "none" := 0
  ]

  const EducationPointsMarried: map<string, int> := map[
    "phd" := 140, "masters" := 126, "degree" := 112, "diploma2" := 91,
    "postgrad" := 84, "diploma1" := 84, "cert" := 80, "none" := 0
  ]

  /** `m[k] || 0`: the mapped points, or 0 for a key the map does not have. */
  function Lookup(m: map<string, int>, k: string): int {
    if k in m then m[k] else 0
  }

  /** Education points, with the two-year diploma written out before the map lookup. */
  function EducationPoints(edu: string, single: bool): (r: int)
    ensures 0 <= r <= (if single then 150 else 140)
  {
    if edu == "diploma2" then (if single then 98 else 91)
    else if single then Lookup(EducationPointsSingle, edu)
    else Lookup(EducationPointsMarried, edu)
  }

  /** The two-year diploma special case awards exactly what the maps hold for it. */
  lemma EducationPointsAreMapLookup(edu: string, single: bool)
    ensures EducationPoints(edu, single) == Lookup(if single then EducationPointsSingle else EducationPointsMarried, edu)
  {
  }

  /** A married applicant never scores more for education than a single one. */
  lemma EducationMarriedNeverHigher(edu: string)
    ensures EducationPoints(edu, false) <= EducationPoints(edu, true)
  {
  }

  /** Points per first-language band. */
  function BandScore(clb: int, single: bool): (r: int)
    ensures 0 <= r <= (if single then 34 else 32)
  {
    if single then
      if clb >= 10 then 34
      else if clb == 9 then 31
      else if clb == 8 then 23
      else if clb == 7 then 17
      else if clb == 6 then 9
      else 0
    else
      if clb >= 10 then 32
      else if clb == 9 then 29
      else if clb == 8 then 22
      else if clb == 7 then 16
      else if clb == 6 then 8
      else 0
  }

  /** First-language points: four abilities at the band's score. */
  function LanguagePoints(clb: int, single: bool): (r: int)
    ensures 0 <= r <= (if single then 136 else 128)
  {
    BandScore(clb, single) * 4
  }

  /** A higher band never scores less, and married never scores more than single. */
  lemma BandScoreMonotone(a: int, b: int, single: bool)
    requires a <= b
    ensures BandScore(a, single) <= BandScore(b, single)
    ensures BandScore(a, false) <= BandScore(a, true)
  {
  }

  function CanadianExperiencePoints(years: int, single: bool): (r: int)
    ensures 0 <= r <= (if single then 80 else 70)
  {
    if single then
      if years >= 5 then 80
      else if years == 4 then 72
      else if years == 3 then 64
      else if years == 2 then 53
      else if years == 1 then 40
      else 0
    else
      if years >= 5 then 70
      else if years == 4 then 63
      else if years == 3 then 56
      else if years == 2 then 46
      else if years == 1 then 35
      else 0
  }

  /** More Canadian experience never scores less, and married never scores more than single. */
  lemma CanadianExperienceMonotone(a: int, b: int, single: bool)
    requires a <= b
    ensures CanadianExperiencePoints(a, single) <= CanadianExperiencePoints(b, single)
    ensures CanadianExperiencePoints(a, false) <= CanadianExperiencePoints(a, true)
  {
  }

  // ---------------------------------------------------------------------------
  // B. Spouse factors
  // ---------------------------------------------------------------------------

  const SpouseEducationPoints: map<string, int> := map[
    "phd" := 10, "masters" := 10, "degree" := 8, "diploma2" := 7,
    "postgrad" := 6, "diploma1" := 6, "cert" := 2, "none" := 0
  ]

  /** Spouse language: per band 5 at 9 and up, 3 at 7 or 8, 1 at 5 or 6, for four abilities. */
  function SpouseLanguagePoints(clb: int): (r: int)
    ensures 0 <= r <= 20
  {
    4 * (if clb >= 9 then 5 else if clb >= 7 then 3 else if clb >= 5 then 1 else 0)
  }

  function SpouseExperiencePoints(years: int): (r: int)
    ensures 0 <= r <= 10
  {
    if years >= 5 then 10
    else if years == 4 then 9
    else if years == 3 then 8
    else if years == 2 then 7
    else if years == 1 then 5
    else 0
  }

  /** The spouse factors, counted only for an applicant not scored as single. */
  function SpousePoints(p: Profile): int {
    if IsSingle(p) then 0
    else
      Lookup(SpouseEducationPoints, StrOr(p.spouseEducationLevel, "none"))
      + SpouseLanguagePoints(NumOr(p.spouseClbLevel, 0))
      + SpouseExperiencePoints(NumOr(p.spouseCanadianWorkExperienceYears, 0))
  }

  /** The spouse factors add between 0 and 40 points, and nothing for a single applicant. */
  lemma SpousePointsBounded(p: Profile)
    ensures 0 <= SpousePoints(p) <= 40
    ensures IsSingle(p) ==> SpousePoints(p) == 0
  {
    var e := StrOr(p.spouseEducationLevel, "none");
    assert 0 <= Lookup(SpouseEducationPoints, e) <= 10;
  }

  // ---------------------------------------------------------------------------
  // C. Skill transferability
  // ---------------------------------------------------------------------------

  /** A degree, a masters, a PhD or a two-year diploma. */
  predicate HighEducation(edu: string) {
    edu == "phd" || edu == "masters" || edu == "degree" || edu == "diploma2"
  }

  /** A one-year diploma or a post-graduate certificate. */
  predicate MediumEducation(edu: string) {
    edu == "diploma1" || edu == "postgrad"
  }

  /** Education combined with a first-language band of 9 (or 7). */
  function EducationLanguagePoints(clb: int, edu: string): (r: int)
    ensures 0 <= r <= 50
    ensures r > 0 <==> clb >= 7 && (HighEducation(edu) || MediumEducation(edu))
  {
    if clb >= 9 then (if HighEducation(edu) then 50 else if MediumEducation(edu) then 25 else 0)
    else if clb >= 7 then (if HighEducation(edu) then 25 else if MediumEducation(edu) then 13 else 0)
    else 0
  }

  /** Education combined with two (or one) years of Canadian experience. */
  function EducationExperiencePoints(cdn: int, edu: string): (r: int)
    ensures 0 <= r <= 50
    ensures r > 0 <==> cdn >= 1 && (HighEducation(edu) || MediumEducation(edu))
  {
    if cdn >= 2 then (if HighEducation(edu) then 50 else if MediumEducation(edu) then 25 else 0)
    else if cdn == 1 then (if HighEducation(edu) then 25 else if MediumEducation(edu) then 13 else 0)
    else 0
  }

  /** Three (or one) years of foreign experience combined with the first-language band. */
  function ForeignLanguagePoints(foreign: int, clb: int): (r: int)
    ensures 0 <= r <= 50
    ensures r > 0 <==> foreign >= 1 && clb >= 7
  {
    if foreign >= 3 then (if clb >= 9 then 50 else if clb >= 7 then 25 else 0)
    else if foreign >= 1 then (if clb >= 9 then 25 else if clb >= 7 then 13 else 0)
    else 0
  }

  /** Three (or one) years of foreign experience combined with Canadian experience. */
  function ForeignExperiencePoints(foreign: int, cdn: int): (r: int)
    ensures 0 <= r <= 50
    ensures r > 0 <==> foreign >= 1 && cdn >= 1
  {
    if foreign >= 3 then (if cdn >= 2 then 50 else if cdn == 1 then 25 else 0)
    else if foreign >= 1 then (if cdn >= 2 then 25 else if cdn == 1 then 13 else 0)
    else 0
  }

  /** A certificate of qualification in a trade combined with the first-language band. */
  function TradePoints(certificate: bool, clb: int): (r: int)
    ensures 0 <= r <= 50
    ensures r > 0 <==> certificate && clb >= 5
  {
    if certificate then (if clb >= 7 then 50 else if clb >= 5 then 25 else 0) else 0
  }

  /**
   * Skill transferability: the education pair capped at 50, the foreign
   * experience pair capped at 50, plus the trade bonus, all capped at 100.
   */
  function TransferabilityPoints(p: Profile): (r: int)
    ensures 0 <= r <= 100
  {
    var edu := EducationOf(p);
    var clb := ClbOf(p);
    var cdn := CanadianYearsOf(p);
    var foreign := ForeignYearsOf(p);
    var education := Min(50, EducationLanguagePoints(clb, edu) + EducationExperiencePoints(cdn, edu));
    var experience := Min(50, ForeignLanguagePoints(foreign, clb) + ForeignExperiencePoints(foreign, cdn));
    Min(100, education + experience + TradePoints(Flag(p.certificateOfQualification), clb))
  }

  /** Every transferability pair is monotone in the band and in Canadian experience. */
  lemma TransferabilityPairsMonotone(clb: int, clb': int, cdn: int, cdn': int, foreign: int, edu: string, cert: bool)
    requires clb <= clb' && cdn <= cdn'
    ensures EducationLanguagePoints(clb, edu) <= EducationLanguagePoints(clb', edu)
    ensures EducationExperiencePoints(cdn, edu) <= EducationExperiencePoints(cdn', edu)
    ensures ForeignLanguagePoints(foreign, clb) <= ForeignLanguagePoints(foreign, clb')
    ensures ForeignExperiencePoints(foreign, cdn) <= ForeignExperiencePoints(foreign, cdn')
    ensures TradePoints(cert, clb) <= TradePoints(cert, clb')
  {
  }

  // ---------------------------------------------------------------------------
  // D. Additional points
  // ---------------------------------------------------------------------------

  /** An education that counts as a full Canadian degree for the credential bonus. */
  predicate DegreeEducation(edu: string) {
    edu == "degree" || edu == "masters" || edu == "phd"
  }

  /**
   * A sibling in Canada (15), both official languages (30) and a Canadian
   * credential (30 with a degree, 15 otherwise).
   */
  function AdditionalPoints(p: Profile): (r: int)
    ensures 0 <= r <= 75
  {
    var credential := TruthyStr(p.canadianCredentialCount) && p.canadianCredentialCount.value != "0";
    (if Flag(p.siblingInCanada) then 15 else 0)
    + (if Flag(p.bilingual) then 30 else 0)
    + (if credential then (if DegreeEducation(EducationOf(p)) then 30 else 15) else 0)
  }

  // ---------------------------------------------------------------------------
  // The estimate
  // ---------------------------------------------------------------------------

  /** The ranking score: the sum of the four sections. */
  function Crs(p: Profile): int {
    var single := IsSingle(p);
    AgePoints(AgeOf(p), single) + EducationPoints(EducationOf(p), single)
    + LanguagePoints(ClbOf(p), single) + CanadianExperiencePoints(CanadianYearsOf(p), single)
    + SpousePoints(p) + TransferabilityPoints(p) + AdditionalPoints(p)
  }

  /** The estimator, step by step as the program computes it. */
  method CalculateCRS(p: Profile) returns (score: int)
    ensures score == Crs(p)
  {
    score := 0;
    var isSingle := p.maritalStatus != Some(Married) || Flag(p.spouseIsCanadian);
    var age := NumOr(p.age, 25);
    var edu := StrOr(p.educationLevel, "none");
    var clb := NumOr(p.clbLevel, 0);
    var cdnExp := NumOr(p.canadianWorkExperienceYears, 0);
    var foreignExp := NumOr(p.foreignWorkExperienceYears, 0);

    var agePoints := AgeSection(age, isSingle);
    score := score + agePoints;

    var eduPoints := 0;
    if edu == "diploma2" {
      eduPoints := if isSingle then 98 else 91;
    } else {
      eduPoints := if isSingle then Lookup(EducationPointsSingle, edu) else Lookup(EducationPointsMarried, edu);
    }
    score := score + eduPoints;

    var langPoints := BandScore(clb, isSingle) * 4;
    score := score + langPoints;

    var cdnExpPoints := CanadianExperienceSection(cdnExp, isSingle);
    score := score + cdnExpPoints;

    var spouse := SpouseSection(p, isSingle);
    score := score + spouse;

    var transfer := TransferabilitySection(p, edu, clb, cdnExp, foreignExp);
    score := score + transfer;

    var additional := AdditionalSection(p, edu);
    score := score + additional;
  }

  /** The age step, kept in half points so that the 5.5-point decay stays exact, then rounded down. */
  method AgeSection(age: int, isSingle: bool) returns (points: int)
    ensures points == AgePoints(age, isSingle)
  {
    var ageHalfPoints := 0;
    if isSingle {
      if age >= 20 && age <= 29 {
        ageHalfPoints := 220;
      } else if age == 18 {
        ageHalfPoints := 198;
      } else if age == 19 {
        ageHalfPoints := 210;
      } else if age >= 45 {
        ageHalfPoints := 0;
      } else {
        var drop := age - 29;
        ageHalfPoints := Max(0, 220 - drop * 11);
      }
    } else {
      if age >= 20 && age <= 29 {
        ageHalfPoints := 200;
      } else if age >= 45 {
        ageHalfPoints := 0;
      } else {
        var drop := age - 29;
        ageHalfPoints := 2 * Max(0, 100 - drop * 5);
      }
    }
    points := ageHalfPoints / 2;
  }

  /** The Canadian work experience step. */
  method CanadianExperienceSection(cdnExp: int, isSingle: bool) returns (points: int)
    ensures points == CanadianExperiencePoints(cdnExp, isSingle)
  {
    points := 0;
    if isSingle {
      if cdnExp >= 5 {
        points := 80;
      } else if cdnExp == 4 {
        points := 72;
      } else if cdnExp == 3 {
        points := 64;
      } else if cdnExp == 2 {
        points := 53;
      } else if cdnExp == 1 {
        points := 40;
      }
    } else {
      if cdnExp >= 5 {
        points := 70;
      } else if cdnExp == 4 {
        points := 63;
      } else if cdnExp == 3 {
        points := 56;
      } else if cdnExp == 2 {
        points := 46;
      } else if cdnExp == 1 {
        points := 35;
      }
    }
  }

  /** The additional points step. */
  method AdditionalSection(p: Profile, edu: string) returns (points: int)
    requires edu == EducationOf(p)
    ensures points == AdditionalPoints(p)
  {
    points := 0;
    if Flag(p.siblingInCanada) {
      points := points + 15;
    }
    if Flag(p.bilingual) {
      points := points + 30;
    }
    if TruthyStr(p.canadianCredentialCount) && p.canadianCredentialCount.value != "0" {
      if edu in ["degree", "masters", "phd"] {
        points := points + 30;
      } else {
        points := points + 15;
      }
    }
  }

  /** The spouse step: nothing for an applicant scored as single. */
  method SpouseSection(p: Profile, isSingle: bool) returns (points: int)
    requires isSingle == IsSingle(p)
    ensures points == SpousePoints(p)
  {
    points := 0;
    if !isSingle {
      var sEdu := StrOr(p.spouseEducationLevel, "none");
      points := points + Lookup(SpouseEducationPoints, sEdu);

      var sClb := NumOr(p.spouseClbLevel, 0);
      var sLangPerBand := 0;
      if sClb >= 9 {
        sLangPerBand := 5;
      } else if sClb >= 7 {
        sLangPerBand := 3;
      } else if sClb >= 5 {
        sLangPerBand := 1;
      }
      points := points + sLangPerBand * 4;

      var sExp := NumOr(p.spouseCanadianWorkExperienceYears, 0);
      var sExpPoints := 0;
      if sExp >= 5 {
        sExpPoints := 10;
      } else if sExp == 4 {
        sExpPoints := 9;
      } else if sExp == 3 {
        sExpPoints := 8;
      } else if sExp == 2 {
        sExpPoints := 7;
      } else if sExp == 1 {
        sExpPoints := 5;
      }
      points := points + sExpPoints;
    }
  }

  /** The skill transferability step, with its two caps of 50 and its cap of 100. */
  method TransferabilitySection(p: Profile, edu: string, clb: int, cdnExp: int, foreignExp: int) returns (points: int)
    requires edu == EducationOf(p) && clb == ClbOf(p)
    requires cdnExp == CanadianYearsOf(p) && foreignExp == ForeignYearsOf(p)
    ensures points == TransferabilityPoints(p)
  {
    var isHighEdu := edu in ["phd", "masters", "degree", "diploma2"];
    var isMediumEdu := edu in ["diploma1", "postgrad"];

    var eduLangPoints := 0;
    if clb >= 9 {
      if isHighEdu {
        eduLangPoints := 50;
      } else if isMediumEdu {
        eduLangPoints := 25;
      }
    } else if clb >= 7 {
      if isHighEdu {
        eduLangPoints := 25;
      } else if isMediumEdu {
        eduLangPoints := 13;
      }
    }

    var eduCdnPoints := 0;
    if cdnExp >= 2 {
      if isHighEdu {
        eduCdnPoints := 50;
      } else if isMediumEdu {
        eduCdnPoints := 25;
      }
    } else if cdnExp == 1 {
      if isHighEdu {
        eduCdnPoints := 25;
      } else if isMediumEdu {
        eduCdnPoints := 13;
      }
    }
    assert eduLangPoints == EducationLanguagePoints(clb, edu);
    assert eduCdnPoints == EducationExperiencePoints(cdnExp, edu);

    var forLangPoints := 0;
    if foreignExp >= 3 {
      if clb >= 9 {
        forLangPoints := 50;
      } else if clb >= 7 {
        forLangPoints := 25;
      }
    } else if foreignExp >= 1 {
      if clb >= 9 {
        forLangPoints := 25;
      } else if clb >= 7 {
        forLangPoints := 13;
      }
    }

    var eduTransferFinal := Min(50, eduLangPoints + eduCdnPoints);

    var forCdnPoints := 0;
    if foreignExp >= 3 {
      if cdnExp >= 2 {
        forCdnPoints := 50;
      } else if cdnExp == 1 {
        forCdnPoints := 25;
      }
    } else if foreignExp >= 1 {
      if cdnExp >= 2 {
        forCdnPoints := 25;
      } else if cdnExp == 1 {
        forCdnPoints := 13;
      }
    }
    assert forLangPoints == ForeignLanguagePoints(foreignExp, clb);
    assert forCdnPoints == ForeignExperiencePoints(foreignExp, cdnExp);

    var expTransferFinal := Min(50, forLangPoints + forCdnPoints);

    var tradePoints := 0;
    if Flag(p.certificateOfQualification) {
      if clb >= 7 {
        tradePoints := 50;
      } else if clb >= 5 {
        tradePoints := 25;
      }
    }

    points := Min(100, eduTransferFinal + expTransferFinal + tradePoints);
  }

  // ---------------------------------------------------------------------------
  // Properties of the estimate
  // ---------------------------------------------------------------------------

  /** Every section contributes a non-negative amount, so the estimate is never negative. */
  lemma CrsNonNegative(p: Profile)
    ensures Crs(p) >= 0
  {
    SpousePointsBounded(p);
  }

  /** For applicants aged at least 18 (20 when married) the estimate is at most 653. */
  lemma CrsAtMost(p: Profile)
    requires AgeOf(p) >= (if IsSingle(p) then 18 else 20)
    ensures Crs(p) <= 653
  {
    SpousePointsBounded(p);
    var age := AgeOf(p);
    if age >= 29 {
      AgePointsPeak(29, age);
    } else {
      AgePointsBelowPeakAge(age);
    }
  }

  /** The profile without any spouse data and marked single. */
  function WithoutSpouse(p: Profile): (q: Profile)
    ensures IsSingle(q) && SpousePoints(q) == 0
  {
    p.(maritalStatus := Some(Single), spouseIsCanadian := None, spouseEducationLevel := None,
       spouseClbLevel := None, spouseCanadianWorkExperienceYears := None)
  }

  /**
   * An applicant scored as single, in particular one married to a Canadian,
   * gets exactly the score of the same profile with no spouse at all.
   */
  lemma SingleIgnoresSpouse(p: Profile)
    requires IsSingle(p)
    ensures Crs(p) == Crs(WithoutSpouse(p))
  {
    var q := WithoutSpouse(p);
    assert IsSingle(q);
    assert SpousePoints(p) == 0 == SpousePoints(q);
    assert TransferabilityPoints(q) == TransferabilityPoints(p);
    assert AdditionalPoints(q) == AdditionalPoints(p);
  }

  /** A married applicant whose spouse is Canadian is scored as if single. */
  lemma CanadianSpouseScoredAsSingle(p: Profile)
    requires p.maritalStatus == Some(Married) && Flag(p.spouseIsCanadian)
    ensures Crs(p) == Crs(WithoutSpouse(p))
  {
    SingleIgnoresSpouse(p);
  }

  /** Transferability never falls when the band or the Canadian experience rises. */
  lemma TransferabilityMonotone(p: Profile, q: Profile)
    requires EducationOf(q) == EducationOf(p) && ForeignYearsOf(q) == ForeignYearsOf(p)
    requires q.certificateOfQualification == p.certificateOfQualification
    requires ClbOf(p) <= ClbOf(q) && CanadianYearsOf(p) <= CanadianYearsOf(q)
    ensures TransferabilityPoints(p) <= TransferabilityPoints(q)
  {
    TransferabilityPairsMonotone(ClbOf(p), ClbOf(q), CanadianYearsOf(p), CanadianYearsOf(q),
                                 ForeignYearsOf(p), EducationOf(p), Flag(p.certificateOfQualification));
  }

  /** A higher first-language band never lowers the estimate. */
  lemma CrsMonotoneInLanguage(p: Profile, clb: int)
    requires ClbOf(p) <= clb
    ensures Crs(p) <= Crs(p.(clbLevel := Some(clb)))
  {
    var q := p.(clbLevel := Some(clb));
    assert ClbOf(q) == (if clb == 0 then 0 else clb);
    var single := IsSingle(p);
    BandScoreMonotone(ClbOf(p), ClbOf(q), single);
    assert LanguagePoints(ClbOf(p), single) <= LanguagePoints(ClbOf(q), single);
    TransferabilityMonotone(p, q);
    assert SpousePoints(q) == SpousePoints(p);
    assert AdditionalPoints(q) == AdditionalPoints(p);
  }

  /** More Canadian work experience never lowers the estimate. */
  lemma CrsMonotoneInCanadianExperience(p: Profile, years: int)
    requires CanadianYearsOf(p) <= years
    ensures Crs(p) <= Crs(p.(canadianWorkExperienceYears := Some(years)))
  {
    var q := p.(canadianWorkExperienceYears := Some(years));
    assert CanadianYearsOf(q) == (if years == 0 then 0 else years);
    var single := IsSingle(p);
    CanadianExperienceMonotone(CanadianYearsOf(p), CanadianYearsOf(q), single);
    TransferabilityMonotone(p, q);
    assert SpousePoints(q) == SpousePoints(p);
    assert AdditionalPoints(q) == AdditionalPoints(p);
  }

  /**
   * A single 27-year-old with a PhD, band 9, three years of Canadian
   * experience and one Canadian credential scores 528.
   */
  lemma SingleScenario(p: Profile)
    requires p.maritalStatus == Some(Single) && p.age == Some(27) && p.educationLevel == Some("phd")
    requires p.clbLevel == Some(9) && p.canadianWorkExperienceYears == Some(3)
    requires p.canadianCredentialCount == Some("1")
    requires p.foreignWorkExperienceYears == None && p.certificateOfQualification == None
    requires p.siblingInCanada == None && p.bilingual == None
    ensures Crs(p) == 528
  {
  }

  /** The same applicant married to a Canadian also scores 528. */
  lemma MarriedToCanadianScenario(p: Profile)
    requires p.maritalStatus == Some(Married) && p.spouseIsCanadian == Some(true)
    requires p.age == Some(27) && p.educationLevel == Some("phd")
    requires p.clbLevel == Some(9) && p.canadianWorkExperienceYears == Some(3)
    requires p.canadianCredentialCount == Some("1")
    requires p.foreignWorkExperienceYears == None && p.certificateOfQualification == None
    requires p.siblingInCanada == None && p.bilingual == None
    ensures Crs(p) == 528
  {
    CanadianSpouseScoredAsSingle(p);
    SingleScenario(WithoutSpouse(p));
  }
}
