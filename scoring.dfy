/**
 * The stream score calculator of the provincial points grid and the
 * Express Entry likelihood label.
 */
module Scoring {
  import opened Types
  import opened Constants

  // ---------------------------------------------------------------------------
  // Table lookups
  // ---------------------------------------------------------------------------

  /** The score of the first row whose key is `v`, or 0 when no row has that key. */
  function LookupScore<V(==)>(t: seq<RuleEntry<V>>, v: V): int {
    if t == [] then 0
    else if t[0].value == v then t[0].score
    else LookupScore(t[1..], v)
  }

  /**
   * Find-first lookup of a selected option in a rule table; an absent
   * selection or a key the table does not list scores 0.
   */
  function GetOptionScore(options: seq<RuleEntry<string>>, value: Option<string>): (r: int)
    ensures value.None? ==> r == 0
  {
    match value
    case None => 0
    case Some(v) => LookupScore(options, v)
  }

  /** A key the table does not list scores 0. */
  lemma {:induction false} OptionScoreOfUnlistedValue(t: seq<RuleEntry<string>>, v: string)
    requires forall i :: 0 <= i < |t| ==> t[i].value != v
    ensures GetOptionScore(t, Some(v)) == 0
  {
    if t != [] {
      assert t[0].value != v;
      assert forall i :: 0 <= i < |t[1..]| ==> t[1..][i] == t[i + 1];
      OptionScoreOfUnlistedValue(t[1..], v);
    }
  }

  /** With distinct keys, selecting a listed option yields exactly that row's score. */
  lemma {:induction false} OptionScoreOfListedValue(t: seq<RuleEntry<string>>, i: nat)
    requires DistinctValues(t) && i < |t|
    ensures GetOptionScore(t, Some(t[i].value)) == t[i].score
  {
    if i > 0 {
      assert t[0].value != t[i].value;
      var tail := t[1..];
      assert forall a, b :: 0 <= a < b < |tail| ==> tail[a] == t[a + 1] && tail[b] == t[b + 1];
      assert tail[i - 1] == t[i];
      OptionScoreOfListedValue(tail, i - 1);
    }
  }

  /** A lookup in a table whose scores lie in [0, hi] lies in [0, hi]. */
  lemma {:induction false} OptionScoreWithin(t: seq<RuleEntry<string>>, value: Option<string>, hi: int)
    requires forall i :: 0 <= i < |t| ==> 0 <= t[i].score <= hi
    ensures 0 <= GetOptionScore(t, value) <= Max(hi, 0)
  {
    if value.Some? && t != [] && t[0].value != value.value {
      assert forall i :: 0 <= i < |t[1..]| ==> t[1..][i] == t[i + 1];
      OptionScoreWithin(t[1..], value, hi);
    }
  }

  /**
   * The score of the first row whose lowest band `x` reaches, or 0 when `x`
   * is below every row: a lookup in a table of thresholds.
   */
  function ThresholdScore(t: seq<RuleEntry<int>>, x: int): int {
    if t == [] then 0
    else if x >= t[0].value then t[0].score
    else ThresholdScore(t[1..], x)
  }

  // ---------------------------------------------------------------------------
  // Factor scores
  // ---------------------------------------------------------------------------

  /** The four-tier region score shared by the work and study location factors. */
  function GetRegionScore(region: Option<string>): (r: int)
    ensures 0 <= r <= 10
  {
    if !TruthyStr(region) then 0
    else if region.value == "northern" then 10
    else if region.value == "outside_gta" then 8
    else if region.value == "gta" then 3
    else if region.value == "toronto" then 0
    else 0
  }

  /**
   * The field-of-study score. It agrees with the FieldsOfStudy table, except
   * for the legacy key "business", which the table no longer lists.
   */
  function GetFieldOfStudyScore(field: Option<string>): (r: int)
    ensures 0 <= r <= 12
  {
    if !TruthyStr(field) then 0
    else if field.value == "stem_health" || field.value == "trades" then 12
    else if field.value == "business_social" then 6
    else if field.value == "arts_humanities" then 0
    else if field.value == "business" then 6
    else 0
  }

  /** The hand-written region tiers are exactly a lookup in the Regions table, for every input. */
  lemma RegionScoreIsTableLookup(region: Option<string>)
    ensures GetRegionScore(region) == GetOptionScore(Regions, region)
  {
  }

  /**
   * The field-of-study score is a lookup in the FieldsOfStudy table, except for
   * the legacy key "business", which the table no longer lists and which scores 6.
   */
  lemma FieldOfStudyScoreIsTableLookup(field: Option<string>)
    ensures field != Some("business") ==> GetFieldOfStudyScore(field) == GetOptionScore(FieldsOfStudy, field)
    ensures field == Some("business") ==> GetFieldOfStudyScore(field) == 6
  {
  }

  /** The graduate streams' first-language score: the ClbLevels threshold table. */
  function GraduateLanguageScore(clb: Option<int>): (r: int)
    ensures NumOr(clb, 0) >= 9 ==> r == 10
    ensures NumOr(clb, 0) == 8 ==> r == 6
    ensures NumOr(clb, 0) == 7 ==> r == 4
    ensures NumOr(clb, 0) < 7 ==> r == 0
  {
    var x := NumOr(clb, 0);
    var t := ClbLevels;
    assert ThresholdScore(t, x) == if x >= 9 then 10 else ThresholdScore(t[1..], x);
    assert ThresholdScore(t[1..], x) == if x >= 8 then 6 else ThresholdScore(t[2..], x);
    assert ThresholdScore(t[2..], x) == if x >= 7 then 4 else ThresholdScore(t[3..], x);
    assert ThresholdScore(t[3..], x) == if x >= 6 then 0 else ThresholdScore(t[4..], x);
    assert ThresholdScore(t[4..], x) == if x >= 0 then 0 else ThresholdScore(t[5..], x);
    assert t[5..] == [];
    ThresholdScore(t, x)
  }

  /** The wage bands, keyed by their lowest hourly wage and captioned by their WageTiers key. */
  const WageBands: seq<RuleEntry<int>> := [
    RuleEntry(40, "40k+", 10),
    RuleEntry(35, "35-39", 8),
    RuleEntry(30, "30-34", 7),
    RuleEntry(25, "25-29", 6),
    RuleEntry(20, "20-24", 5)
  ]

  /** The wage bands carry the scores of the first five WageTiers rows, in the same order. */
  lemma WageBandsMatchWageTiers()
    ensures |WageBands| + 1 == |WageTiers|
    ensures forall i :: 0 <= i < |WageBands| ==>
              WageBands[i].caption == WageTiers[i].value && WageBands[i].score == WageTiers[i].score
    ensures WageTiers[|WageBands|].score == 0
  {
  }

  /** The job-offer wage score; an absent or zero wage scores nothing. */
  function WageScore(wage: Option<int>): (r: int)
    ensures NumOr(wage, 0) >= 40 ==> r == 10
    ensures 35 <= NumOr(wage, 0) < 40 ==> r == 8
    ensures 30 <= NumOr(wage, 0) < 35 ==> r == 7
    ensures 25 <= NumOr(wage, 0) < 30 ==> r == 6
    ensures 20 <= NumOr(wage, 0) < 25 ==> r == 5
    ensures NumOr(wage, 0) < 20 ==> r == 0
  {
    var x := NumOr(wage, 0);
    var t := WageBands;
    assert ThresholdScore(t, x) == if x >= 40 then 10 else ThresholdScore(t[1..], x);
    assert ThresholdScore(t[1..], x) == if x >= 35 then 8 else ThresholdScore(t[2..], x);
    assert ThresholdScore(t[2..], x) == if x >= 30 then 7 else ThresholdScore(t[3..], x);
    assert ThresholdScore(t[3..], x) == if x >= 25 then 6 else ThresholdScore(t[4..], x);
    assert ThresholdScore(t[4..], x) == if x >= 20 then 5 else ThresholdScore(t[5..], x);
    assert t[5..] == [];
    ThresholdScore(t, x)
  }

  /** A higher wage never scores less. */
  lemma WageScoreMonotone(a: int, b: int)
    requires a <= b
    ensures WageScore(Some(a)) <= WageScore(Some(b))
  {
  }

  /** Every FieldsOfStudy row scores what the field-of-study function awards. */
  lemma FieldsOfStudyAgree()
    ensures forall i :: 0 <= i < |FieldsOfStudy| ==>
              GetFieldOfStudyScore(Some(FieldsOfStudy[i].value)) == FieldsOfStudy[i].score
  {
    TablesHaveDistinctValues();
    forall i | 0 <= i < |FieldsOfStudy|
      ensures GetFieldOfStudyScore(Some(FieldsOfStudy[i].value)) == FieldsOfStudy[i].score
    {
      OptionScoreOfListedValue(FieldsOfStudy, i);
      FieldOfStudyScoreIsTableLookup(Some(FieldsOfStudy[i].value));
    }
  }

  /** Every Regions row scores what the region function awards. */
  lemma RegionsAgree()
    ensures forall i :: 0 <= i < |Regions| ==> GetRegionScore(Some(Regions[i].value)) == Regions[i].score
  {
    TablesHaveDistinctValues();
    forall i | 0 <= i < |Regions| ensures GetRegionScore(Some(Regions[i].value)) == Regions[i].score {
      OptionScoreOfListedValue(Regions, i);
      RegionScoreIsTableLookup(Some(Regions[i].value));
    }
  }

  /**
   * Every ClbLevels row scores what the graduate language factor awards for its band.
   * The factor is itself written as a threshold lookup in this table, so the
   * content of this lemma is the literal rows it pins: bands 9, 8, 7, 6 and 5
   * score 10, 6, 4, 0 and 0.
   */
  lemma ClbLevelsAgree()
    ensures forall i :: 0 <= i < |ClbLevels| ==> GraduateLanguageScore(Some(ClbLevels[i].value)) == ClbLevels[i].score
  {
  }

  // ---------------------------------------------------------------------------
  // The stream score calculator
  // ---------------------------------------------------------------------------

  const PermitLabelGraduate := "Valid Work/Study Permit"
  const EarningsLabel := "Earnings History ($40k+)"
  const EducationLabel := "Highest Level of Education"
  const FieldLabel := "Field of Study"
  const CredentialLabel := "Canadian Education Experience"
  const LanguageLabel := "Official Language Ability"
  const BilingualLabel := "Knowledge of Official Languages"
  const StudyLocationLabel := "Location of Study"
  const TeerLabel := "Job Level (TEER)"
  const TeerExcludedLabel := "Job Level (TEER) (Excluded for Students)"
  const CategoryLabel := "Occupational Category"
  const WageLabel := "Wage Level"
  const PermitLabelJob := "Valid Work Permit"
  const TenureLabel := "6 Months Tenure"
  const WorkLocationLabel := "Regional Location"

  /**
   * One factor of a stream's grid: the points awarded, the most it can award
   * (its share of maxPossible), and whether it is entered in the breakdown.
   */
  datatype Factor = Factor(key: string, points: int, max: int, listed: bool)

  /** Awards lie within the factor's range, and an unlisted factor awards nothing. */
  predicate WellFormed(f: Factor) {
    0 <= f.points <= f.max && (!f.listed ==> f.points == 0)
  }

  /** A factor that is awarded a fixed bonus, and entered only, when its flag is set. */
  function Bonus(key: string, flag: Option<bool>, points: int): Factor {
    Factor(key, if Flag(flag) then points else 0, points, Flag(flag))
  }

  /** The Masters and PhD grid, in evaluation order. */
  function GraduateFactors(p: Profile): seq<Factor> {
    [ Bonus(PermitLabelGraduate, p.hasValidPermit, 10),
      Bonus(EarningsLabel, p.earningsHistory, 3),
      Factor(EducationLabel, GetOptionScore(EducationLevels, p.educationLevel), 10, true),
      Factor(FieldLabel, GetFieldOfStudyScore(p.fieldOfStudy), 12, true),
      Factor(CredentialLabel, GetOptionScore(CanadianCredentialOptions, p.canadianCredentialCount), 10, true),
      Factor(LanguageLabel, GraduateLanguageScore(p.clbLevel), 10, true),
      Factor(BilingualLabel, if Flag(p.bilingual) then 10 else 0, 10, true),
      Factor(StudyLocationLabel, GetRegionScore(p.studyLocation), 10, true) ]
  }

  /**
   * The job-level factor. International students are not scored on job level:
   * the factor is shown as an excluded zero and adds nothing to the denominator.
   */
  function TeerFactor(p: Profile): Factor {
    if p.stream == IntlStudent then Factor(TeerExcludedLabel, 0, 0, true)
    else Factor(TeerLabel, GetOptionScore(TeerLevels, p.nocTeer), 10, true)
  }

  /**
   * The job-offer grid, in evaluation order. International students are not
   * scored on job level: the factor is shown as an excluded zero and adds
   * nothing to the denominator.
   */
  function JobOfferFactors(p: Profile): seq<Factor> {
    [ TeerFactor(p),
      Factor(CategoryLabel, GetOptionScore(NocBroadCategories, p.nocBroadCategory), 10, true),
      Factor(WageLabel, WageScore(p.wageAmount), 10, true),
      Bonus(PermitLabelJob, p.hasValidPermit, 10),
      Bonus(TenureLabel, p.currentlyWorkingWithEmployer, 3),
      Bonus(EarningsLabel, p.earningsHistory, 3),
      Factor(WorkLocationLabel, GetRegionScore(p.workLocation), 10, true) ]
  }

  /** The grid of a stream; Express Entry streams are not scored by this calculator. */
  function Factors(p: Profile): seq<Factor> {
    if p.stream.IsGraduate() then GraduateFactors(p)
    else if p.stream.IsJobOffer() then JobOfferFactors(p)
    else []
  }

  function SumPoints(fs: seq<Factor>): int {
    if fs == [] then 0 else fs[0].points + SumPoints(fs[1..])
  }

  function SumMax(fs: seq<Factor>): int {
    if fs == [] then 0 else fs[0].max + SumMax(fs[1..])
  }

  function Entry(f: Factor): seq<(string, int)> {
    if f.listed then [(f.key, f.points)] else []
  }

  /** The breakdown record: the listed factors, in order. */
  function Listed(fs: seq<Factor>): seq<(string, int)> {
    if fs == [] then [] else Entry(fs[0]) + Listed(fs[1..])
  }

  /** The sum of a breakdown's values. */
  function BreakdownTotal(b: seq<(string, int)>): int {
    if b == [] then 0 else b[0].1 + BreakdownTotal(b[1..])
  }

  /** The keys of a breakdown, in insertion order. */
  function Labels(b: seq<(string, int)>): seq<string> {
    if b == [] then [] else [b[0].0] + Labels(b[1..])
  }

  /** The hard rules: a failed rule clears `eligible` but does not change the score. */
  predicate Eligible(p: Profile) {
    match p.stream
    case Masters => p.educationLevel == Some("masters") && NumOr(p.clbLevel, 0) >= 7
    case PhD => p.educationLevel == Some("phd")
    case ForeignWorker => TruthyStr(p.nocTeer)
    case _ => true
  }

  /** The result of scoring the grid `fs` for `p`. */
  function Grade(p: Profile, fs: seq<Factor>): ScoreResult {
    ScoreResult(SumPoints(fs), Listed(fs), Eligible(p), SumMax(fs))
  }

  /** The calculator's result, defined from the stream's grid. */
  function ScoreOf(p: Profile): ScoreResult {
    Grade(p, Factors(p))
  }

  /** The fixed denominators of the streams. */
  function MaxPossibleFor(s: Stream): int {
    match s
    case Masters | PhD => 75
    case ForeignWorker | InDemand => 56
    case IntlStudent => 46
    case HumanCapitalPriorities | SkilledTrades | FrenchWorker => 0
  }

  /** Putting a factor in front adds its points, its maximum and its entry. */
  lemma ConsFactor(f: Factor, fs: seq<Factor>)
    ensures SumPoints([f] + fs) == f.points + SumPoints(fs)
    ensures SumMax([f] + fs) == f.max + SumMax(fs)
    ensures Listed([f] + fs) == Entry(f) + Listed(fs)
  {
    assert ([f] + fs)[1..] == fs;
  }

  lemma AppendSeven<T>(s0: seq<T>, s1: seq<T>, s2: seq<T>, s3: seq<T>, s4: seq<T>, s5: seq<T>, s6: seq<T>)
    ensures s0 + (s1 + (s2 + (s3 + (s4 + (s5 + s6))))) == [] + s0 + s1 + s2 + s3 + s4 + s5 + s6
  {
  }

  lemma AppendEight<T>(s0: seq<T>, s1: seq<T>, s2: seq<T>, s3: seq<T>, s4: seq<T>, s5: seq<T>, s6: seq<T>, s7: seq<T>)
    ensures s0 + (s1 + (s2 + (s3 + (s4 + (s5 + (s6 + s7)))))) == [] + s0 + s1 + s2 + s3 + s4 + s5 + s6 + s7
  {
  }

  /** The sums of a seven-factor grid, factor by factor. */
  lemma SevenSums(a: Factor, b: Factor, c: Factor, d: Factor, e: Factor, f: Factor, g: Factor)
    ensures SumPoints([a, b, c, d, e, f, g]) == a.points + b.points + c.points + d.points + e.points + f.points + g.points
    ensures SumMax([a, b, c, d, e, f, g]) == a.max + b.max + c.max + d.max + e.max + f.max + g.max
  {
    var t6 := [g];
    var t5 := [f] + t6;
    var t4 := [e] + t5;
    var t3 := [d] + t4;
    var t2 := [c] + t3;
    var t1 := [b] + t2;
    assert [a, b, c, d, e, f, g] == [a] + t1;
    ConsFactor(f, t6);
    ConsFactor(e, t5);
    ConsFactor(d, t4);
    ConsFactor(c, t3);
    ConsFactor(b, t2);
    ConsFactor(a, t1);
  }

  /** The record of a seven-factor grid, entry by entry in order. */
  lemma SevenListed(a: Factor, b: Factor, c: Factor, d: Factor, e: Factor, f: Factor, g: Factor)
    ensures Listed([a, b, c, d, e, f, g]) == [] + Entry(a) + Entry(b) + Entry(c) + Entry(d) + Entry(e) + Entry(f) + Entry(g)
  {
    var t6 := [g];
    var t5 := [f] + t6;
    var t4 := [e] + t5;
    var t3 := [d] + t4;
    var t2 := [c] + t3;
    var t1 := [b] + t2;
    assert [a, b, c, d, e, f, g] == [a] + t1;
    ConsFactor(f, t6);
    ConsFactor(e, t5);
    ConsFactor(d, t4);
    ConsFactor(c, t3);
    ConsFactor(b, t2);
    ConsFactor(a, t1);
    assert Listed(t6) == Entry(g);
    AppendSeven(Entry(a), Entry(b), Entry(c), Entry(d), Entry(e), Entry(f), Entry(g));
  }

  /** The sums of an eight-factor grid, factor by factor. */
  lemma EightSums(a: Factor, b: Factor, c: Factor, d: Factor, e: Factor, f: Factor, g: Factor, h: Factor)
    ensures SumPoints([a, b, c, d, e, f, g, h]) == a.points + b.points + c.points + d.points + e.points + f.points + g.points + h.points
    ensures SumMax([a, b, c, d, e, f, g, h]) == a.max + b.max + c.max + d.max + e.max + f.max + g.max + h.max
  {
    var t7 := [h];
    var t6 := [g] + t7;
    var t5 := [f] + t6;
    var t4 := [e] + t5;
    var t3 := [d] + t4;
    var t2 := [c] + t3;
    var t1 := [b] + t2;
    assert [a, b, c, d, e, f, g, h] == [a] + t1;
    ConsFactor(g, t7);
    ConsFactor(f, t6);
    ConsFactor(e, t5);
    ConsFactor(d, t4);
    ConsFactor(c, t3);
    ConsFactor(b, t2);
    ConsFactor(a, t1);
  }

  /** The record of an eight-factor grid, entry by entry in order. */
  lemma EightListed(a: Factor, b: Factor, c: Factor, d: Factor, e: Factor, f: Factor, g: Factor, h: Factor)
    ensures Listed([a, b, c, d, e, f, g, h]) == [] + Entry(a) + Entry(b) + Entry(c) + Entry(d) + Entry(e) + Entry(f) + Entry(g) + Entry(h)
  {
    var t7 := [h];
    var t6 := [g] + t7;
    var t5 := [f] + t6;
    var t4 := [e] + t5;
    var t3 := [d] + t4;
    var t2 := [c] + t3;
    var t1 := [b] + t2;
    assert [a, b, c, d, e, f, g, h] == [a] + t1;
    ConsFactor(g, t7);
    ConsFactor(f, t6);
    ConsFactor(e, t5);
    ConsFactor(d, t4);
    ConsFactor(c, t3);
    ConsFactor(b, t2);
    ConsFactor(a, t1);
    assert Listed(t7) == Entry(h);
    AppendEight(Entry(a), Entry(b), Entry(c), Entry(d), Entry(e), Entry(f), Entry(g), Entry(h));
  }

  /**
   * For well-formed factors the breakdown sums to the total, and the total
   * lies between 0 and the sum of the maxima.
   */
  lemma {:induction false} ListedTotal(fs: seq<Factor>)
    requires forall i :: 0 <= i < |fs| ==> WellFormed(fs[i])
    ensures BreakdownTotal(Listed(fs)) == SumPoints(fs)
    ensures 0 <= SumPoints(fs) <= SumMax(fs)
  {
    if fs != [] {
      ListedTotal(fs[1..]);
      var e := Entry(fs[0]);
      BreakdownTotalAppend(e, Listed(fs[1..]));
    }
  }

  lemma {:induction false} BreakdownTotalAppend(a: seq<(string, int)>, b: seq<(string, int)>)
    ensures BreakdownTotal(a + b) == BreakdownTotal(a) + BreakdownTotal(b)
  {
    if a == [] {
      assert a + b == b;
    } else {
      assert (a + b)[1..] == a[1..] + b;
      BreakdownTotalAppend(a[1..], b);
    }
  }

  lemma SevenWellFormed(a: Factor, b: Factor, c: Factor, d: Factor, e: Factor, f: Factor, g: Factor)
    requires WellFormed(a) && WellFormed(b) && WellFormed(c) && WellFormed(d)
    requires WellFormed(e) && WellFormed(f) && WellFormed(g)
    ensures forall i :: 0 <= i < 7 ==> WellFormed([a, b, c, d, e, f, g][i])
  {
  }

  lemma EightWellFormed(a: Factor, b: Factor, c: Factor, d: Factor, e: Factor, f: Factor, g: Factor, h: Factor)
    requires WellFormed(a) && WellFormed(b) && WellFormed(c) && WellFormed(d)
    requires WellFormed(e) && WellFormed(f) && WellFormed(g) && WellFormed(h)
    ensures forall i :: 0 <= i < 8 ==> WellFormed([a, b, c, d, e, f, g, h][i])
  {
  }

  /** Every graduate factor awards between 0 and its maximum. */
  lemma GraduateFactorsWellFormed(p: Profile)
    ensures forall i :: 0 <= i < |GraduateFactors(p)| ==> WellFormed(GraduateFactors(p)[i])
  {
    OptionScoreWithin(EducationLevels, p.educationLevel, 10);
    OptionScoreWithin(CanadianCredentialOptions, p.canadianCredentialCount, 10);
    var fs := GraduateFactors(p);
    assert WellFormed(fs[0]) && WellFormed(fs[1]);
    assert WellFormed(fs[2]) && WellFormed(fs[3]) && WellFormed(fs[4]);
    assert WellFormed(fs[5]) && WellFormed(fs[6]) && WellFormed(fs[7]);
    EightWellFormed(fs[0], fs[1], fs[2], fs[3], fs[4], fs[5], fs[6], fs[7]);
    assert [fs[0], fs[1], fs[2], fs[3], fs[4], fs[5], fs[6], fs[7]] == fs;
  }

  /** Every job-offer factor awards between 0 and its maximum. */
  lemma JobOfferFactorsWellFormed(p: Profile)
    ensures forall i :: 0 <= i < |JobOfferFactors(p)| ==> WellFormed(JobOfferFactors(p)[i])
  {
    OptionScoreWithin(TeerLevels, p.nocTeer, 10);
    OptionScoreWithin(NocBroadCategories, p.nocBroadCategory, 10);
    var fs := JobOfferFactors(p);
    assert WellFormed(fs[0]) && WellFormed(fs[1]) && WellFormed(fs[2]);
    assert WellFormed(fs[3]) && WellFormed(fs[4]) && WellFormed(fs[5]) && WellFormed(fs[6]);
    SevenWellFormed(fs[0], fs[1], fs[2], fs[3], fs[4], fs[5], fs[6]);
    assert [fs[0], fs[1], fs[2], fs[3], fs[4], fs[5], fs[6]] == fs;
  }

  lemma FactorsWellFormed(p: Profile)
    ensures forall i :: 0 <= i < |Factors(p)| ==> WellFormed(Factors(p)[i])
  {
    if p.stream.IsGraduate() {
      GraduateFactorsWellFormed(p);
    } else if p.stream.IsJobOffer() {
      JobOfferFactorsWellFormed(p);
    }
  }

  /**
   * The calculator's invariants: the total is the sum of the breakdown values,
   * it lies between 0 and maxPossible, and maxPossible is the stream's fixed
   * denominator.
   */
  lemma ScoreInvariants(p: Profile)
    ensures ScoreOf(p).total == BreakdownTotal(ScoreOf(p).breakdown)
    ensures 0 <= ScoreOf(p).total <= ScoreOf(p).maxPossible
    ensures ScoreOf(p).maxPossible == MaxPossibleFor(p.stream)
  {
    FactorsWellFormed(p);
    ListedTotal(Factors(p));
    if p.stream.IsGraduate() {
      GraduateTotals(p);
    } else if p.stream.IsJobOffer() {
      JobOfferTotals(p);
    }
  }

  /**
   * The stream score calculator. Masters and PhD Graduate profiles are scored
   * on the graduate grid, the three job-offer streams on the job-offer grid;
   * Express Entry streams are not scored and come back as an empty, eligible
   * result with no denominator.
   */
  method CalculateOINPScore(p: Profile) returns (r: ScoreResult)
    ensures r == ScoreOf(p)
    ensures r.total == BreakdownTotal(r.breakdown)
    ensures 0 <= r.total <= r.maxPossible == MaxPossibleFor(p.stream)
  {
    var stream := p.stream;
    ScoreInvariants(p);
    if stream == Masters || stream == PhD {
      r := ScoreGraduate(p);
      return;
    }
    if stream in {ForeignWorker, IntlStudent, InDemand} {
      r := ScoreJobOffer(p);
      return;
    }
    return ScoreResult(0, [], true, 0);
  }

  /** The graduate score as the plain sum of its factor scores. */
  function GraduateTotal(p: Profile): int {
    Bonus(PermitLabelGraduate, p.hasValidPermit, 10).points + Bonus(EarningsLabel, p.earningsHistory, 3).points
    + GetOptionScore(EducationLevels, p.educationLevel) + GetFieldOfStudyScore(p.fieldOfStudy)
    + GetOptionScore(CanadianCredentialOptions, p.canadianCredentialCount) + GraduateLanguageScore(p.clbLevel)
    + (if Flag(p.bilingual) then 10 else 0) + GetRegionScore(p.studyLocation)
  }

  /** The graduate grid's total is the sum of its factor scores, and its denominator is 75. */
  lemma GraduateTotals(p: Profile)
    ensures SumPoints(GraduateFactors(p)) == GraduateTotal(p)
    ensures SumMax(GraduateFactors(p)) == 75
  {
    var fs := GraduateFactors(p);
    EightSums(fs[0], fs[1], fs[2], fs[3], fs[4], fs[5], fs[6], fs[7]);
    assert [fs[0], fs[1], fs[2], fs[3], fs[4], fs[5], fs[6], fs[7]] == fs;
  }

  /** The graduate breakdown, entry by entry in evaluation order. */
  lemma GraduateListed(p: Profile)
    ensures Listed(GraduateFactors(p)) ==
              [] + Entry(Bonus(PermitLabelGraduate, p.hasValidPermit, 10)) + Entry(Bonus(EarningsLabel, p.earningsHistory, 3))
              + [(EducationLabel, GetOptionScore(EducationLevels, p.educationLevel))] + [(FieldLabel, GetFieldOfStudyScore(p.fieldOfStudy))]
              + [(CredentialLabel, GetOptionScore(CanadianCredentialOptions, p.canadianCredentialCount))]
              + [(LanguageLabel, GraduateLanguageScore(p.clbLevel))] + [(BilingualLabel, if Flag(p.bilingual) then 10 else 0)]
              + [(StudyLocationLabel, GetRegionScore(p.studyLocation))]
  {
    var fs := GraduateFactors(p);
    EightListed(fs[0], fs[1], fs[2], fs[3], fs[4], fs[5], fs[6], fs[7]);
    assert [fs[0], fs[1], fs[2], fs[3], fs[4], fs[5], fs[6], fs[7]] == fs;
  }

  /** The job-offer score as the plain sum of its factor scores; students score nothing for job level. */
  function JobOfferTotal(p: Profile): int {
    (if p.stream == IntlStudent then 0 else GetOptionScore(TeerLevels, p.nocTeer))
    + GetOptionScore(NocBroadCategories, p.nocBroadCategory) + WageScore(p.wageAmount)
    + Bonus(PermitLabelJob, p.hasValidPermit, 10).points + Bonus(TenureLabel, p.currentlyWorkingWithEmployer, 3).points
    + Bonus(EarningsLabel, p.earningsHistory, 3).points + GetRegionScore(p.workLocation)
  }

  /** The job-offer grid's total is the sum of its factor scores; its denominator is 56, or 46 for students. */
  lemma JobOfferTotals(p: Profile)
    ensures SumPoints(JobOfferFactors(p)) == JobOfferTotal(p)
    ensures SumMax(JobOfferFactors(p)) == if p.stream == IntlStudent then 46 else 56
  {
    var fs := JobOfferFactors(p);
    SevenSums(fs[0], fs[1], fs[2], fs[3], fs[4], fs[5], fs[6]);
    assert [fs[0], fs[1], fs[2], fs[3], fs[4], fs[5], fs[6]] == fs;
  }

  /** A stream's score is the plain sum of its grid's factor scores; Express Entry streams score 0. */
  lemma ScoreIsFactorSum(p: Profile)
    ensures ScoreOf(p).total ==
              if p.stream.IsGraduate() then GraduateTotal(p)
              else if p.stream.IsJobOffer() then JobOfferTotal(p)
              else 0
  {
    if p.stream.IsGraduate() {
      GraduateTotals(p);
    } else if p.stream.IsJobOffer() {
      JobOfferTotals(p);
    }
  }

  // ---------------------------------------------------------------------------
  // A better answer to one factor never lowers the score
  // ---------------------------------------------------------------------------

  /** A higher-scoring education level never lowers a graduate score. */
  lemma GraduateMonotoneInEducation(p: Profile, e: Option<string>)
    requires p.stream.IsGraduate()
    requires GetOptionScore(EducationLevels, p.educationLevel) <= GetOptionScore(EducationLevels, e)
    ensures ScoreOf(p).total <= ScoreOf(p.(educationLevel := e)).total
  {
    ScoreIsFactorSum(p);
    ScoreIsFactorSum(p.(educationLevel := e));
  }

  /** A higher-scoring field of study never lowers a graduate score. */
  lemma GraduateMonotoneInFieldOfStudy(p: Profile, f: Option<string>)
    requires p.stream.IsGraduate()
    requires GetFieldOfStudyScore(p.fieldOfStudy) <= GetFieldOfStudyScore(f)
    ensures ScoreOf(p).total <= ScoreOf(p.(fieldOfStudy := f)).total
  {
    ScoreIsFactorSum(p);
    ScoreIsFactorSum(p.(fieldOfStudy := f));
  }

  /** A higher-scoring Canadian credential count never lowers a graduate score. */
  lemma GraduateMonotoneInCredentials(p: Profile, c: Option<string>)
    requires p.stream.IsGraduate()
    requires GetOptionScore(CanadianCredentialOptions, p.canadianCredentialCount) <= GetOptionScore(CanadianCredentialOptions, c)
    ensures ScoreOf(p).total <= ScoreOf(p.(canadianCredentialCount := c)).total
  {
    ScoreIsFactorSum(p);
    ScoreIsFactorSum(p.(canadianCredentialCount := c));
  }

  /** A higher language band never lowers a graduate score. */
  lemma GraduateMonotoneInLanguage(p: Profile, clb: int)
    requires p.stream.IsGraduate() && NumOr(p.clbLevel, 0) <= clb
    ensures ScoreOf(p).total <= ScoreOf(p.(clbLevel := Some(clb))).total
  {
    ScoreIsFactorSum(p);
    ScoreIsFactorSum(p.(clbLevel := Some(clb)));
  }

  /** A higher-scoring study location never lowers a graduate score. */
  lemma GraduateMonotoneInStudyLocation(p: Profile, r: Option<string>)
    requires p.stream.IsGraduate() && GetRegionScore(p.studyLocation) <= GetRegionScore(r)
    ensures ScoreOf(p).total <= ScoreOf(p.(studyLocation := r)).total
  {
    ScoreIsFactorSum(p);
    ScoreIsFactorSum(p.(studyLocation := r));
  }

  /** A higher-scoring job level never lowers a job-offer score. */
  lemma JobOfferMonotoneInTeer(p: Profile, teer: Option<string>)
    requires p.stream.IsJobOffer()
    requires GetOptionScore(TeerLevels, p.nocTeer) <= GetOptionScore(TeerLevels, teer)
    ensures ScoreOf(p).total <= ScoreOf(p.(nocTeer := teer)).total
  {
    ScoreIsFactorSum(p);
    ScoreIsFactorSum(p.(nocTeer := teer));
  }

  /** A higher-scoring occupation category never lowers a job-offer score. */
  lemma JobOfferMonotoneInCategory(p: Profile, c: Option<string>)
    requires p.stream.IsJobOffer()
    requires GetOptionScore(NocBroadCategories, p.nocBroadCategory) <= GetOptionScore(NocBroadCategories, c)
    ensures ScoreOf(p).total <= ScoreOf(p.(nocBroadCategory := c)).total
  {
    ScoreIsFactorSum(p);
    ScoreIsFactorSum(p.(nocBroadCategory := c));
  }

  /** A higher wage never lowers a job-offer score. */
  lemma JobOfferMonotoneInWage(p: Profile, wage: int)
    requires p.stream.IsJobOffer() && NumOr(p.wageAmount, 0) <= wage
    ensures ScoreOf(p).total <= ScoreOf(p.(wageAmount := Some(wage))).total
  {
    WageScoreMonotone(NumOr(p.wageAmount, 0), wage);
    ScoreIsFactorSum(p);
    ScoreIsFactorSum(p.(wageAmount := Some(wage)));
  }

  /** A higher-scoring work location never lowers a job-offer score. */
  lemma JobOfferMonotoneInWorkLocation(p: Profile, r: Option<string>)
    requires p.stream.IsJobOffer() && GetRegionScore(p.workLocation) <= GetRegionScore(r)
    ensures ScoreOf(p).total <= ScoreOf(p.(workLocation := r)).total
  {
    ScoreIsFactorSum(p);
    ScoreIsFactorSum(p.(workLocation := r));
  }

  /** The job-offer breakdown, entry by entry in evaluation order. */
  lemma JobOfferListed(p: Profile)
    ensures Listed(JobOfferFactors(p)) ==
              [] + Entry(TeerFactor(p)) + [(CategoryLabel, GetOptionScore(NocBroadCategories, p.nocBroadCategory))]
              + [(WageLabel, WageScore(p.wageAmount))]
              + Entry(Bonus(PermitLabelJob, p.hasValidPermit, 10)) + Entry(Bonus(TenureLabel, p.currentlyWorkingWithEmployer, 3))
              + Entry(Bonus(EarningsLabel, p.earningsHistory, 3)) + [(WorkLocationLabel, GetRegionScore(p.workLocation))]
  {
    var fs := JobOfferFactors(p);
    SevenListed(fs[0], fs[1], fs[2], fs[3], fs[4], fs[5], fs[6]);
    assert [fs[0], fs[1], fs[2], fs[3], fs[4], fs[5], fs[6]] == fs;
  }

  /** A flag-gated bonus: when the flag is set, the key is entered with the points and they are added. */
  method AwardBonus(breakdown: seq<(string, int)>, total: int, key: string, flag: Option<bool>, points: int)
    returns (breakdown': seq<(string, int)>, total': int)
    ensures breakdown' == breakdown + Entry(Bonus(key, flag, points))
    ensures total' == total + Bonus(key, flag, points).points
  {
    breakdown', total' := breakdown, total;
    if Flag(flag) {
      breakdown' := breakdown + [(key, points)];
      total' := total + points;
    }
  }

  /** The graduate streams' hard rules, applied to `eligible` in the program's order. */
  method GraduateHardRules(p: Profile, eligible: bool) returns (eligible': bool)
    requires p.stream.IsGraduate()
    ensures eligible' == (eligible && Eligible(p))
  {
    var stream := p.stream;
    var clb := NumOr(p.clbLevel, 0);
    eligible' := eligible;
    if stream == Masters && p.educationLevel != Some("masters") {
      eligible' := false;
    }
    if stream == PhD && p.educationLevel != Some("phd") {
      eligible' := false;
    }
    if stream == Masters && (!TruthyNum(p.clbLevel) || clb < 7) {
      eligible' := false;
    }
  }

  /** The Masters and PhD branch of the calculator, step by step as the program computes it. */
  method ScoreGraduate(p: Profile) returns (r: ScoreResult)
    requires p.stream.IsGraduate()
    ensures r == Grade(p, GraduateFactors(p))
  {
    var stream := p.stream;
    var breakdown: seq<(string, int)> := [];
    var total := 0;
    var maxPossible := 0;
    var eligible := true;

    breakdown, total := AwardBonus(breakdown, total, PermitLabelGraduate, p.hasValidPermit, 10);
    maxPossible := maxPossible + 10;

    breakdown, total := AwardBonus(breakdown, total, EarningsLabel, p.earningsHistory, 3);
    maxPossible := maxPossible + 3;

    var eduScore := GetOptionScore(EducationLevels, p.educationLevel);
    breakdown := breakdown + [(EducationLabel, eduScore)];
    total := total + eduScore;
    maxPossible := maxPossible + 10;

    var fieldScore := GetFieldOfStudyScore(p.fieldOfStudy);
    breakdown := breakdown + [(FieldLabel, fieldScore)];
    total := total + fieldScore;
    maxPossible := maxPossible + 12;

    var cadScore := GetOptionScore(CanadianCredentialOptions, p.canadianCredentialCount);
    breakdown := breakdown + [(CredentialLabel, cadScore)];
    total := total + cadScore;
    maxPossible := maxPossible + 10;

    var clb := NumOr(p.clbLevel, 0);
    var langScore := 0;
    if TruthyNum(p.clbLevel) {
      if clb >= 9 {
        langScore := 10;
      } else if clb == 8 {
        langScore := 6;
      } else if clb == 7 {
        langScore := 4;
      }
    }
    assert langScore == GraduateLanguageScore(p.clbLevel);
    breakdown := breakdown + [(LanguageLabel, langScore)];
    total := total + langScore;
    maxPossible := maxPossible + 10;

    var knowScore := 0;
    if Flag(p.bilingual) {
      knowScore := 10;
    }
    assert knowScore == if Flag(p.bilingual) then 10 else 0;
    breakdown := breakdown + [(BilingualLabel, knowScore)];
    total := total + knowScore;
    maxPossible := maxPossible + 10;

    var regScore := GetRegionScore(p.studyLocation);
    breakdown := breakdown + [(StudyLocationLabel, regScore)];
    total := total + regScore;
    maxPossible := maxPossible + 10;

    eligible := GraduateHardRules(p, eligible);
    GraduateTotals(p);
    GraduateListed(p);
    r := ScoreResult(total, breakdown, eligible, maxPossible);
  }

  /** The job-offer streams' hard rule, applied to `eligible`. */
  method JobOfferHardRules(p: Profile, eligible: bool) returns (eligible': bool)
    requires p.stream.IsJobOffer()
    ensures eligible' == (eligible && Eligible(p))
  {
    eligible' := eligible;
    if p.stream == ForeignWorker && !TruthyStr(p.nocTeer) {
      eligible' := false;
    }
  }

  /** The job-level step: scored for every job-offer stream but international students. */
  method AwardJobLevel(p: Profile, breakdown: seq<(string, int)>, total: int, maxPossible: int)
    returns (breakdown': seq<(string, int)>, total': int, maxPossible': int)
    ensures breakdown' == breakdown + Entry(TeerFactor(p))
    ensures total' == total + TeerFactor(p).points
    ensures maxPossible' == maxPossible + TeerFactor(p).max
  {
    if p.stream != IntlStudent {
      var teerScore := GetOptionScore(TeerLevels, p.nocTeer);
      breakdown' := breakdown + [(TeerLabel, teerScore)];
      total' := total + teerScore;
      maxPossible' := maxPossible + 10;
    } else {
      breakdown' := breakdown + [(TeerExcludedLabel, 0)];
      total', maxPossible' := total, maxPossible;
    }
  }

  /** The job-offer branch of the calculator, step by step as the program computes it. */
  method ScoreJobOffer(p: Profile) returns (r: ScoreResult)
    requires p.stream.IsJobOffer()
    ensures r == Grade(p, JobOfferFactors(p))
  {
    var stream := p.stream;
    var breakdown: seq<(string, int)> := [];
    var total := 0;
    var maxPossible := 0;
    var eligible := true;

    breakdown, total, maxPossible := AwardJobLevel(p, breakdown, total, maxPossible);

    var categoryScore := GetOptionScore(NocBroadCategories, p.nocBroadCategory);
    breakdown := breakdown + [(CategoryLabel, categoryScore)];
    total := total + categoryScore;
    maxPossible := maxPossible + 10;

    var wage := NumOr(p.wageAmount, 0);
    var wageScore := 0;
    if TruthyNum(p.wageAmount) && wage >= 40 {
      wageScore := 10;
    } else if TruthyNum(p.wageAmount) && wage >= 35 {
      wageScore := 8;
    } else if TruthyNum(p.wageAmount) && wage >= 30 {
      wageScore := 7;
    } else if TruthyNum(p.wageAmount) && wage >= 25 {
      wageScore := 6;
    } else if TruthyNum(p.wageAmount) && wage >= 20 {
      wageScore := 5;
    }
    assert wageScore == WageScore(p.wageAmount);
    breakdown := breakdown + [(WageLabel, wageScore)];
    total := total + wageScore;
    maxPossible := maxPossible + 10;

    breakdown, total := AwardBonus(breakdown, total, PermitLabelJob, p.hasValidPermit, 10);
    maxPossible := maxPossible + 10;

    breakdown, total := AwardBonus(breakdown, total, TenureLabel, p.currentlyWorkingWithEmployer, 3);
    maxPossible := maxPossible + 3;

    breakdown, total := AwardBonus(breakdown, total, EarningsLabel, p.earningsHistory, 3);
    maxPossible := maxPossible + 3;

    var regionScore := GetRegionScore(p.workLocation);
    breakdown := breakdown + [(WorkLocationLabel, regionScore)];
    total := total + regionScore;
    maxPossible := maxPossible + 10;

    eligible := JobOfferHardRules(p, eligible);
    JobOfferTotals(p);
    JobOfferListed(p);
    r := ScoreResult(total, breakdown, eligible, maxPossible);
  }

  // ---------------------------------------------------------------------------
  // Properties of the calculator
  // ---------------------------------------------------------------------------

  lemma {:induction false} LabelsAppend(a: seq<(string, int)>, b: seq<(string, int)>)
    ensures Labels(a + b) == Labels(a) + Labels(b)
  {
    if a == [] {
      assert a + b == b;
    } else {
      assert (a + b)[1..] == a[1..] + b;
      LabelsAppend(a[1..], b);
    }
  }

  lemma LabelsOfEntry(f: Factor)
    ensures Labels(Entry(f)) == if f.listed then [f.key] else []
  {
    assert [(f.key, f.points)][1..] == [];
  }

  lemma LabelsOfPair(k: string, v: int)
    ensures Labels([(k, v)]) == [k]
  {
    assert [(k, v)][1..] == [];
  }

  /** The keys of a breakdown built from two variable entries and six fixed ones. */
  lemma ChainLabels(e0: seq<(string, int)>, e1: seq<(string, int)>,
                    k2: string, v2: int, k3: string, v3: int, k4: string, v4: int,
                    k5: string, v5: int, k6: string, v6: int, k7: string, v7: int)
    ensures Labels([] + e0 + e1 + [(k2, v2)] + [(k3, v3)] + [(k4, v4)] + [(k5, v5)] + [(k6, v6)] + [(k7, v7)])
            == Labels(e0) + Labels(e1) + [k2] + [k3] + [k4] + [k5] + [k6] + [k7]
  {
    var c1 := [] + e0 + e1;
    var l1 := Labels(e0) + Labels(e1);
    assert [] + e0 == e0;
    LabelsAppend(e0, e1);
    var c2 := c1 + [(k2, v2)];
    LabelsAppend(c1, [(k2, v2)]);
    LabelsOfPair(k2, v2);
    var c3 := c2 + [(k3, v3)];
    LabelsAppend(c2, [(k3, v3)]);
    LabelsOfPair(k3, v3);
    var c4 := c3 + [(k4, v4)];
    LabelsAppend(c3, [(k4, v4)]);
    LabelsOfPair(k4, v4);
    var c5 := c4 + [(k5, v5)];
    LabelsAppend(c4, [(k5, v5)]);
    LabelsOfPair(k5, v5);
    var c6 := c5 + [(k6, v6)];
    LabelsAppend(c5, [(k6, v6)]);
    LabelsOfPair(k6, v6);
    LabelsAppend(c6, [(k7, v7)]);
    LabelsOfPair(k7, v7);
  }

  /** No key occurs twice. */
  predicate KeysDistinct(ks: seq<string>) {
    forall i, j :: 0 <= i < j < |ks| ==> ks[i] != ks[j]
  }

  /** Keys with pairwise different first characters are pairwise different. */
  lemma DistinctInitials(ks: seq<string>)
    requires forall i :: 0 <= i < |ks| ==> |ks[i]| > 0
    requires forall i, j :: 0 <= i < j < |ks| ==> ks[i][0] != ks[j][0]
    ensures KeysDistinct(ks)
  {
  }

  /** Leaving out an optional key keeps the remaining keys distinct. */
  lemma DropOptional(before: seq<string>, keep: bool, x: string, after: seq<string>)
    requires KeysDistinct(before + [x] + after)
    ensures KeysDistinct(before + (if keep then [x] else []) + after)
  {
    if !keep {
      var s := before + [x] + after;
      var t := before + [] + after;
      forall i, j | 0 <= i < j < |t| ensures t[i] != t[j] {
        var i' := if i < |before| then i else i + 1;
        var j' := if j < |before| then j else j + 1;
        assert t[i] == s[i'] && t[j] == s[j'];
      }
    }
  }

  /** The graduate keys are distinct, whichever of the two optional entries are present. */
  lemma GraduateKeysDistinct(permit: bool, earnings: bool)
    ensures KeysDistinct((if permit then [PermitLabelGraduate] else []) + (if earnings then [EarningsLabel] else [])
              + [EducationLabel] + [FieldLabel] + [CredentialLabel] + [LanguageLabel] + [BilingualLabel] + [StudyLocationLabel])
  {
    var rest := [EducationLabel, FieldLabel, CredentialLabel, LanguageLabel, BilingualLabel, StudyLocationLabel];
    var full := [PermitLabelGraduate] + [EarningsLabel] + rest;
    assert full[0][0] == 'V' && full[1][0] == 'E' && full[2][0] == 'H' && full[3][0] == 'F';
    assert full[4][0] == 'C' && full[5][0] == 'O' && full[6][0] == 'K' && full[7][0] == 'L';
    DistinctInitials(full);
    DropOptional([PermitLabelGraduate], earnings, EarningsLabel, rest);
    var e := if earnings then [EarningsLabel] else [];
    assert [PermitLabelGraduate] + e + rest == [] + [PermitLabelGraduate] + (e + rest);
    DropOptional([], permit, PermitLabelGraduate, e + rest);
    var pe := if permit then [PermitLabelGraduate] else [];
    assert [] + pe + (e + rest) == pe + e + [EducationLabel] + [FieldLabel] + [CredentialLabel]
                                     + [LanguageLabel] + [BilingualLabel] + [StudyLocationLabel];
  }

  /** The job-offer keys are distinct, whichever job-level key and optional entries are present. */
  lemma JobOfferKeysDistinct(student: bool, permit: bool, tenure: bool, earnings: bool)
    ensures KeysDistinct((if student then [TeerExcludedLabel] else [TeerLabel]) + [CategoryLabel] + [WageLabel]
              + (if permit then [PermitLabelJob] else []) + (if tenure then [TenureLabel] else [])
              + (if earnings then [EarningsLabel] else []) + [WorkLocationLabel])
  {
    var head := (if student then [TeerExcludedLabel] else [TeerLabel]) + [CategoryLabel] + [WageLabel];
    var full := head + [PermitLabelJob] + [TenureLabel] + [EarningsLabel] + [WorkLocationLabel];
    assert full[0][0] == 'J' && full[1][0] == 'O' && full[2][0] == 'W' && full[3][0] == 'V';
    assert full[4][0] == '6' && full[5][0] == 'E' && full[6][0] == 'R';
    DistinctInitials(full);
    DropOptional(head + [PermitLabelJob] + [TenureLabel], earnings, EarningsLabel, [WorkLocationLabel]);
    var e := if earnings then [EarningsLabel] else [];
    assert head + [PermitLabelJob] + [TenureLabel] + e + [WorkLocationLabel]
        == head + [PermitLabelJob] + [TenureLabel] + (e + [WorkLocationLabel]);
    DropOptional(head + [PermitLabelJob], tenure, TenureLabel, e + [WorkLocationLabel]);
    var te := if tenure then [TenureLabel] else [];
    assert head + [PermitLabelJob] + te + (e + [WorkLocationLabel])
        == head + [PermitLabelJob] + (te + e + [WorkLocationLabel]);
    DropOptional(head, permit, PermitLabelJob, te + e + [WorkLocationLabel]);
    var pe := if permit then [PermitLabelJob] else [];
    assert head + pe + (te + e + [WorkLocationLabel]) == head + pe + te + e + [WorkLocationLabel];
  }

  /**
   * The graduate breakdown's keys, in insertion order: the permit and earnings
   * entries only when their flag is set, every other factor always, even at 0.
   */
  lemma GraduateBreakdownKeys(p: Profile)
    requires p.stream.IsGraduate()
    ensures Labels(ScoreOf(p).breakdown) ==
              (if Flag(p.hasValidPermit) then [PermitLabelGraduate] else [])
              + (if Flag(p.earningsHistory) then [EarningsLabel] else [])
              + [EducationLabel] + [FieldLabel] + [CredentialLabel] + [LanguageLabel] + [BilingualLabel] + [StudyLocationLabel]
    ensures forall i, j :: 0 <= i < j < |Labels(ScoreOf(p).breakdown)| ==>
              Labels(ScoreOf(p).breakdown)[i] != Labels(ScoreOf(p).breakdown)[j]
  {
    GraduateKeysDistinct(Flag(p.hasValidPermit), Flag(p.earningsHistory));
    GraduateListed(p);
    ChainLabels(Entry(Bonus(PermitLabelGraduate, p.hasValidPermit, 10)), Entry(Bonus(EarningsLabel, p.earningsHistory, 3)),
                EducationLabel, GetOptionScore(EducationLevels, p.educationLevel),
                FieldLabel, GetFieldOfStudyScore(p.fieldOfStudy),
                CredentialLabel, GetOptionScore(CanadianCredentialOptions, p.canadianCredentialCount),
                LanguageLabel, GraduateLanguageScore(p.clbLevel),
                BilingualLabel, if Flag(p.bilingual) then 10 else 0,
                StudyLocationLabel, GetRegionScore(p.studyLocation));
    LabelsOfEntry(Bonus(PermitLabelGraduate, p.hasValidPermit, 10));
    LabelsOfEntry(Bonus(EarningsLabel, p.earningsHistory, 3));
  }

  /** The keys of a breakdown built as the job-offer grid builds it. */
  lemma JobChainLabels(e0: seq<(string, int)>, k1: string, v1: int, k2: string, v2: int,
                       e3: seq<(string, int)>, e4: seq<(string, int)>, e5: seq<(string, int)>, k6: string, v6: int)
    ensures Labels([] + e0 + [(k1, v1)] + [(k2, v2)] + e3 + e4 + e5 + [(k6, v6)])
            == Labels(e0) + [k1] + [k2] + Labels(e3) + Labels(e4) + Labels(e5) + [k6]
  {
    var c0 := [] + e0;
    assert c0 == e0;
    var c1 := c0 + [(k1, v1)];
    LabelsAppend(c0, [(k1, v1)]);
    LabelsOfPair(k1, v1);
    var c2 := c1 + [(k2, v2)];
    LabelsAppend(c1, [(k2, v2)]);
    LabelsOfPair(k2, v2);
    var c3 := c2 + e3;
    LabelsAppend(c2, e3);
    var c4 := c3 + e4;
    LabelsAppend(c3, e4);
    var c5 := c4 + e5;
    LabelsAppend(c4, e5);
    LabelsAppend(c5, [(k6, v6)]);
    LabelsOfPair(k6, v6);
  }

  /**
   * The job-offer breakdown's keys, in insertion order: the job level (shown as
   * excluded for international students), category and wage always, the permit,
   * tenure and earnings entries only when their flag is set, the region always.
   */
  lemma JobOfferBreakdownKeys(p: Profile)
    requires p.stream.IsJobOffer()
    ensures Labels(ScoreOf(p).breakdown) ==
              (if p.stream == IntlStudent then [TeerExcludedLabel] else [TeerLabel])
              + [CategoryLabel] + [WageLabel]
              + (if Flag(p.hasValidPermit) then [PermitLabelJob] else [])
              + (if Flag(p.currentlyWorkingWithEmployer) then [TenureLabel] else [])
              + (if Flag(p.earningsHistory) then [EarningsLabel] else [])
              + [WorkLocationLabel]
    ensures forall i, j :: 0 <= i < j < |Labels(ScoreOf(p).breakdown)| ==>
              Labels(ScoreOf(p).breakdown)[i] != Labels(ScoreOf(p).breakdown)[j]
  {
    JobOfferKeysDistinct(p.stream == IntlStudent, Flag(p.hasValidPermit), Flag(p.currentlyWorkingWithEmployer), Flag(p.earningsHistory));
    JobOfferListed(p);
    JobChainLabels(Entry(TeerFactor(p)),
                   CategoryLabel, GetOptionScore(NocBroadCategories, p.nocBroadCategory),
                   WageLabel, WageScore(p.wageAmount),
                   Entry(Bonus(PermitLabelJob, p.hasValidPermit, 10)),
                   Entry(Bonus(TenureLabel, p.currentlyWorkingWithEmployer, 3)),
                   Entry(Bonus(EarningsLabel, p.earningsHistory, 3)),
                   WorkLocationLabel, GetRegionScore(p.workLocation));
    LabelsOfEntry(TeerFactor(p));
    LabelsOfEntry(Bonus(PermitLabelJob, p.hasValidPermit, 10));
    LabelsOfEntry(Bonus(TenureLabel, p.currentlyWorkingWithEmployer, 3));
    LabelsOfEntry(Bonus(EarningsLabel, p.earningsHistory, 3));
  }

  /**
   * International students are not scored on job level: the breakdown opens
   * with the excluded entry at 0 and has no ordinary job-level key.
   */
  lemma StudentJobLevelExcluded(p: Profile)
    requires p.stream == IntlStudent
    ensures |ScoreOf(p).breakdown| > 0 && ScoreOf(p).breakdown[0] == (TeerExcludedLabel, 0)
    ensures TeerLabel !in Labels(ScoreOf(p).breakdown)
  {
    var fs := JobOfferFactors(p);
    assert Listed(fs) == Entry(fs[0]) + Listed(fs[1..]);
    JobOfferBreakdownKeys(p);
  }

  /** For international students the job level chosen changes nothing in the result. */
  lemma StudentJobLevelIgnored(p: Profile, teer: Option<string>)
    requires p.stream == IntlStudent
    ensures ScoreOf(p.(nocTeer := teer)) == ScoreOf(p)
  {
    assert JobOfferFactors(p.(nocTeer := teer)) == JobOfferFactors(p);
  }

  /**
   * The hard rules: a profile is marked ineligible exactly when a Masters
   * applicant does not hold a masters degree or lacks language band 7, a PhD
   * applicant does not hold a PhD, or a Foreign Worker has no job level.
   */
  lemma EligibilityRules(p: Profile)
    ensures !ScoreOf(p).eligible <==>
              (p.stream == Masters && p.educationLevel != Some("masters"))
              || (p.stream == Masters && (!TruthyNum(p.clbLevel) || p.clbLevel.value < 7))
              || (p.stream == PhD && p.educationLevel != Some("phd"))
              || (p.stream == ForeignWorker && !TruthyStr(p.nocTeer))
  {
  }

  /** Express Entry streams are not scored: empty breakdown, zero total and denominator, eligible. */
  lemma ExpressEntryNotScored(p: Profile)
    requires p.stream.IsExpressEntry()
    ensures ScoreOf(p) == ScoreResult(0, [], true, 0)
  {
  }

  /**
   * A profile with only its stream chosen scores 0 out of the stream's
   * denominator, and is ineligible exactly for the streams whose hard rules
   * need a field.
   */
  lemma EmptyProfileScore(s: Stream)
    ensures ScoreOf(EmptyProfile(s)).total == 0
    ensures ScoreOf(EmptyProfile(s)).maxPossible == MaxPossibleFor(s)
    ensures ScoreOf(EmptyProfile(s)).eligible <==> !(s == Masters || s == PhD || s == ForeignWorker)
  {
    var p := EmptyProfile(s);
    ScoreInvariants(p);
    if s.IsGraduate() {
      EmptyGraduateProfile(p);
    } else if s.IsJobOffer() {
      EmptyJobOfferProfile(p);
    }
  }

  lemma EmptyGraduateProfile(p: Profile)
    requires p.stream.IsGraduate() && p == EmptyProfile(p.stream)
    ensures SumPoints(GraduateFactors(p)) == 0
  {
    GraduateTotals(p);
  }

  lemma EmptyJobOfferProfile(p: Profile)
    requires p.stream.IsJobOffer() && p == EmptyProfile(p.stream)
    ensures SumPoints(JobOfferFactors(p)) == 0
  {
    JobOfferTotals(p);
  }

  /**
   * A PhD Graduate with a PhD in a STEM field, one Canadian credential,
   * language band 9, both official languages, a northern campus and neither
   * permit nor earnings history scores 57 of 75 and is eligible.
   */
  lemma PhdScenario(p: Profile)
    requires p.stream == PhD && p.hasValidPermit == None && p.earningsHistory == None
    requires p.educationLevel == Some("phd") && p.fieldOfStudy == Some("stem_health")
    requires p.canadianCredentialCount == Some("1") && p.clbLevel == Some(9)
    requires p.bilingual == Some(true) && p.studyLocation == Some("northern")
    ensures ScoreOf(p).total == 57 && ScoreOf(p).maxPossible == 75 && ScoreOf(p).eligible
  {
    assert GetOptionScore(EducationLevels, p.educationLevel) == 10;
    assert GetOptionScore(CanadianCredentialOptions, p.canadianCredentialCount) == 5;
    GraduateTotals(p);
  }

  /**
   * An international student earning $25/hr in a sales occupation in Toronto,
   * with none of the bonus flags set, scores 6 of 46: only the wage counts.
   */
  lemma StudentScenario(p: Profile)
    requires p.stream == IntlStudent && p.wageAmount == Some(25)
    requires p.nocBroadCategory == Some("sales_service_arts") && p.workLocation == Some("toronto")
    requires p.hasValidPermit == None && p.currentlyWorkingWithEmployer == None && p.earningsHistory == None
    ensures ScoreOf(p).total == 6 && ScoreOf(p).maxPossible == 46 && ScoreOf(p).eligible
  {
    assert GetOptionScore(NocBroadCategories, p.nocBroadCategory) == 0;
    JobOfferTotals(p);
  }

  // ---------------------------------------------------------------------------
  // The Express Entry likelihood label
  // ---------------------------------------------------------------------------

  /** The fixed set of labels the Express Entry likelihood estimate can show. */
  datatype EEStatus =
    | NeedsScore
    | TechHigh | TechModerate | TechLow
    | GeneralHigh | GeneralModerate | GeneralLow
    | FrenchHigh | FrenchLow
    | TradesHigh | TradesCheck
    | ProgramGuides
  {
    /** The text shown to the applicant. */
    function Message(): string {
      match this
      case NeedsScore => "Calculate CRS Score first"
      case TechHigh => "High Probability (Tech Draws typically > 460)"
      case TechModerate => "Moderate Probability (Tech Draws fluctuate)"
      case TechLow => "Low Probability for Tech (Try improving to 460+)"
      case GeneralHigh => "High Probability (Recent General Draws > 470)"
      case GeneralModerate => "Moderate Probability"
      case GeneralLow => "Low Probability (General draws are competitive)"
      case FrenchHigh => "High Probability (French draws typical > 300-350)"
      case FrenchLow => "Low Probability (Requires French CLB 7+)"
      case TradesHigh => "High Probability"
      case TradesCheck => "Check Trade Requirements"
      case ProgramGuides => "Check specific program guides"
    }

    /** 2 for a high, 1 for a moderate and 0 for any other estimate. */
    function Likelihood(): int {
      match this
      case TechHigh | GeneralHigh | FrenchHigh | TradesHigh => 2
      case TechModerate | GeneralModerate => 1
      case _ => 0
    }
  }

  /**
   * The likelihood label for a ranking score already entered in the profile.
   * An absent or zero score asks for the score first.
   */
  function GetEEStatus(p: Profile): (s: EEStatus)
    ensures s == NeedsScore <==> !TruthyNum(p.crsScore)
    ensures s == ProgramGuides <==> TruthyNum(p.crsScore) && !p.stream.IsExpressEntry()
  {
    if !TruthyNum(p.crsScore) then NeedsScore
    else
      var score := p.crsScore.value;
      if p.stream == HumanCapitalPriorities then
        if Flag(p.isTechOccupation) then
          if score > 465 then TechHigh
          else if score > 450 then TechModerate
          else TechLow
        else if score > 470 then GeneralHigh
        else if score > 460 then GeneralModerate
        else GeneralLow
      else if p.stream == FrenchWorker then
        if Flag(p.isFrenchSpeaker) && score > 350 then FrenchHigh else FrenchLow
      else if p.stream == SkilledTrades then
        if Flag(p.hasTradeExperience) && score > 350 then TradesHigh else TradesCheck
      else ProgramGuides
  }

  /**
   * The thresholds of the three Express Entry estimates: tech occupations
   * are rated high above 465 and moderate above 450, other occupations high
   * above 470 and moderate above 460; French and trades profiles are rated high
   * only above 350 and with the French or trade flag set.
   */
  lemma EEStatusThresholds(p: Profile)
    requires TruthyNum(p.crsScore)
    ensures p.stream == HumanCapitalPriorities && Flag(p.isTechOccupation) ==>
              GetEEStatus(p).Likelihood() == (if p.crsScore.value > 465 then 2 else if p.crsScore.value > 450 then 1 else 0)
    ensures p.stream == HumanCapitalPriorities && !Flag(p.isTechOccupation) ==>
              GetEEStatus(p).Likelihood() == (if p.crsScore.value > 470 then 2 else if p.crsScore.value > 460 then 1 else 0)
    ensures p.stream == FrenchWorker ==>
              (GetEEStatus(p).Likelihood() == 2 <==> Flag(p.isFrenchSpeaker) && p.crsScore.value > 350)
    ensures p.stream == SkilledTrades ==>
              (GetEEStatus(p).Likelihood() == 2 <==> Flag(p.hasTradeExperience) && p.crsScore.value > 350)
    ensures p.stream == HumanCapitalPriorities && Flag(p.isTechOccupation) ==>
              GetEEStatus(p) in {TechHigh, TechModerate, TechLow}
    ensures p.stream == HumanCapitalPriorities && !Flag(p.isTechOccupation) ==>
              GetEEStatus(p) in {GeneralHigh, GeneralModerate, GeneralLow}
    ensures p.stream == FrenchWorker ==> GetEEStatus(p) in {FrenchHigh, FrenchLow}
    ensures p.stream == SkilledTrades ==> GetEEStatus(p) in {TradesHigh, TradesCheck}
  {
  }

  /** A higher ranking score never gives a lower estimate. */
  lemma EEStatusMonotone(p: Profile, score: int)
    requires TruthyNum(p.crsScore) && score != 0 && p.crsScore.value <= score
    ensures GetEEStatus(p).Likelihood() <= GetEEStatus(p.(crsScore := Some(score))).Likelihood()
  {
  }

  /** For the same score, a tech occupation is never rated below a general one. */
  lemma TechNeverWorse(p: Profile)
    requires p.stream == HumanCapitalPriorities && TruthyNum(p.crsScore)
    ensures GetEEStatus(p.(isTechOccupation := Some(false))).Likelihood()
            <= GetEEStatus(p.(isTechOccupation := Some(true))).Likelihood()
  {
  }
}
