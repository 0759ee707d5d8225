/**
 * The improvement suggestions: an ordered list of concrete steps, each with
 * its impact tier and the points it would gain on the stream's grid.
 */
module Suggestions {
  import opened Types
  import opened Constants
  import opened Scoring

  datatype Impact = High | Medium | Low

  /** The eleven suggestions, in the order the generator considers them. */
  datatype SuggestionId =
    | Region | RegionNorth | Wage | Language | Bilingual
    | Tenure | Permit | Earnings | Category | CategoryShift | Credential
  {
    /** The suggestion's identifier as the application shows it. */
    function Key(): string {
      match this
      case Region => "region"
      case RegionNorth => "region-north"
      case Wage => "wage"
      case Language => "language"
      case Bilingual => "bilingual"
      case Tenure => "tenure"
      case Permit => "permit"
      case Earnings => "earnings"
      case Category => "category"
      case CategoryShift => "category-shift"
      case Credential => "credential"
    }

    /** The position of the suggestion's rule in the generator. */
    function Rank(): nat {
      match this
      case Region => 0
      case RegionNorth => 1
      case Wage => 2
      case Language => 3
      case Bilingual => 4
      case Tenure => 5
      case Permit => 6
      case Earnings => 7
      case Category => 8
      case CategoryShift => 9
      case Credential => 10
    }
  }

  /** A suggestion: its identifier, its impact tier and the points it would gain. */
  datatype Suggestion = Suggestion(id: SuggestionId, impact: Impact, points: int)

  const RuleOrder: seq<SuggestionId> :=
    [Region, RegionNorth, Wage, Language, Bilingual, Tenure, Permit, Earnings, Category, CategoryShift, Credential]

  /** Each rule sits at its rank, so the rules are listed in strictly increasing rank. */
  lemma RuleOrderRanks()
    ensures forall i :: 0 <= i < |RuleOrder| ==> RuleOrder[i].Rank() == i
  {
  }

  /** The location the region rules look at: the campus for graduates, the job otherwise. */
  function CurrentLocation(p: Profile): Option<string> {
    if p.stream.IsGraduate() then p.studyLocation else p.workLocation
  }

  /** When a rule fires for a profile. */
  predicate Applies(p: Profile, id: SuggestionId) {
    var job := p.stream.IsJobOffer();
    var languageStreams := p.stream.IsGraduate() || p.stream.IsExpressEntry();
    match id
    case Region => p.stream.IsEoi() && (CurrentLocation(p) == Some("toronto") || CurrentLocation(p) == Some("gta"))
    case RegionNorth => job && CurrentLocation(p) == Some("outside_gta")
    case Wage => job && NumOr(p.wageAmount, 0) < 40
    case Language => languageStreams && NumOr(p.clbLevel, 0) < 9
    case Bilingual => languageStreams && !Flag(p.bilingual)
    case Tenure => job && !Flag(p.currentlyWorkingWithEmployer)
    case Permit => job && !Flag(p.hasValidPermit)
    case Earnings => job && !Flag(p.earningsHistory)
    case Category => job && (p.nocBroadCategory == Some("sales_service_arts") || !TruthyStr(p.nocBroadCategory))
    case CategoryShift => job && p.nocBroadCategory == Some("business_admin")
    case Credential => p.stream.IsGraduate() && p.canadianCredentialCount != Some("2+")
  }

  /** The next credential count: one more Canadian credential than now. */
  function NextCredential(c: Option<string>): string {
    if c == Some("1") then "2+" else "1"
  }

  /**
   * The points a suggestion would gain on the stream's grid: the top score
   * of its factor less the current one, measured with the calculator's own
   * factor scores.
   */
  function GainOf(p: Profile, id: SuggestionId): int {
    match id
    case Region => 10 - GetRegionScore(CurrentLocation(p))
    case RegionNorth => 10 - GetRegionScore(CurrentLocation(p))
    case Wage => 10 - WageScore(p.wageAmount)
    case Language => 10 - GraduateLanguageScore(p.clbLevel)
    case Bilingual => 10
    case Tenure => 3
    case Permit => 10
    case Earnings => 3
    case Category => 10 - GetOptionScore(NocBroadCategories, p.nocBroadCategory)
    case CategoryShift => 10 - GetOptionScore(NocBroadCategories, p.nocBroadCategory)
    case Credential =>
      GetOptionScore(CanadianCredentialOptions, Some(NextCredential(p.canadianCredentialCount)))
      - GetOptionScore(CanadianCredentialOptions, p.canadianCredentialCount)
  }

  function ImpactOf(p: Profile, id: SuggestionId): Impact {
    match id
    case RegionNorth => Low
    case Wage => if NumOr(p.wageAmount, 0) < 20 then High else Medium
    case Tenure | Earnings | CategoryShift | Credential => Medium
    case _ => High
  }

  function Make(p: Profile, id: SuggestionId): Suggestion {
    Suggestion(id, ImpactOf(p, id), GainOf(p, id))
  }

  /** The suggestion a rule contributes: one when it fires, none otherwise. */
  function Pick(p: Profile, id: SuggestionId): seq<Suggestion> {
    if Applies(p, id) then [Make(p, id)] else []
  }

  /** The suggestions the rules `ids` contribute, in their order. */
  function Emit(p: Profile, ids: seq<SuggestionId>): seq<Suggestion> {
    if ids == [] then [] else Emit(p, ids[..|ids| - 1]) + Pick(p, ids[|ids| - 1])
  }

  /** The suggestions for a profile: every rule that fires, in rule order. */
  function SuggestionsOf(p: Profile): seq<Suggestion> {
    Emit(p, RuleOrder)
  }

  // ---------------------------------------------------------------------------
  // The generator
  // ---------------------------------------------------------------------------

  /** The suggestion generator, group by group as the program pushes them. */
  method GenerateSuggestions(p: Profile) returns (suggestions: seq<Suggestion>)
    ensures suggestions == SuggestionsOf(p)
  {
    suggestions := [];
    assert suggestions == Emit(p, RuleOrder[..0]);
    suggestions := RegionGroup(p, suggestions);
    EmitPrefix(p, 1);
    EmitPrefix(p, 2);
    suggestions := WageGroup(p, suggestions);
    EmitPrefix(p, 3);
    suggestions := LanguageGroup(p, suggestions);
    EmitPrefix(p, 4);
    EmitPrefix(p, 5);
    suggestions := StatusGroup(p, suggestions);
    EmitPrefix(p, 6);
    EmitPrefix(p, 7);
    EmitPrefix(p, 8);
    suggestions := CategoryGroup(p, suggestions);
    EmitPrefix(p, 9);
    EmitPrefix(p, 10);
    suggestions := CredentialGroup(p, suggestions);
    EmitPrefix(p, 11);
    assert RuleOrder[..11] == RuleOrder;
  }

  /** Regionalization, for the graduate and job-offer streams. */
  method RegionGroup(p: Profile, suggestions: seq<Suggestion>) returns (added: seq<Suggestion>)
    ensures added == suggestions + Pick(p, Region) + Pick(p, RegionNorth)
  {
    added := suggestions;
    var stream := p.stream;
    if stream in {ForeignWorker, IntlStudent, InDemand, Masters, PhD} {
      var isGrad := stream in {Masters, PhD};
      var currentLocation := if isGrad then p.studyLocation else p.workLocation;
      if currentLocation == Some("toronto") || currentLocation == Some("gta") {
        added := added + [Suggestion(Region, High, if currentLocation == Some("toronto") then 10 else 7)];
      } else if currentLocation == Some("outside_gta") && stream != Masters && stream != PhD {
        added := added + [Suggestion(RegionNorth, Low, 2)];
      }
    }
  }

  /** The wage, for the job-offer streams. */
  method WageGroup(p: Profile, suggestions: seq<Suggestion>) returns (added: seq<Suggestion>)
    ensures added == suggestions + Pick(p, Wage)
  {
    added := suggestions;
    if p.stream in {ForeignWorker, IntlStudent, InDemand} {
      var wage := NumOr(p.wageAmount, 0);
      if wage < 40 {
        var current := if wage >= 35 then 8 else if wage >= 30 then 7 else if wage >= 25 then 6 else if wage >= 20 then 5 else 0;
        added := added + [Suggestion(Wage, if wage < 20 then High else Medium, 10 - current)];
      }
    }
  }

  /** Language, for the graduate and Express Entry streams. */
  method LanguageGroup(p: Profile, suggestions: seq<Suggestion>) returns (added: seq<Suggestion>)
    ensures added == suggestions + Pick(p, Language) + Pick(p, Bilingual)
  {
    added := suggestions;
    if p.stream in {Masters, PhD, HumanCapitalPriorities, FrenchWorker, SkilledTrades} {
      var clb := NumOr(p.clbLevel, 0);
      if clb < 9 {
        added := added + [Suggestion(Language, High, 10 - (if clb >= 8 then 6 else if clb >= 7 then 4 else 0))];
      }
      if !Flag(p.bilingual) {
        added := added + [Suggestion(Bilingual, High, 10)];
      }
    }
  }

  /** Tenure, permit and earnings, for the job-offer streams. */
  method StatusGroup(p: Profile, suggestions: seq<Suggestion>) returns (added: seq<Suggestion>)
    ensures added == suggestions + Pick(p, Tenure) + Pick(p, Permit) + Pick(p, Earnings)
  {
    added := suggestions;
    if p.stream in {ForeignWorker, IntlStudent, InDemand} {
      if !Flag(p.currentlyWorkingWithEmployer) {
        added := added + [Suggestion(Tenure, Medium, 3)];
      }
      if !Flag(p.hasValidPermit) {
        added := added + [Suggestion(Permit, High, 10)];
      }
      if !Flag(p.earningsHistory) {
        added := added + [Suggestion(Earnings, Medium, 3)];
      }
    }
  }

  /** The occupation category, for the job-offer streams. */
  method CategoryGroup(p: Profile, suggestions: seq<Suggestion>) returns (added: seq<Suggestion>)
    ensures added == suggestions + Pick(p, Category) + Pick(p, CategoryShift)
  {
    added := suggestions;
    if p.stream in {ForeignWorker, IntlStudent, InDemand} {
      if p.nocBroadCategory == Some("sales_service_arts") || !TruthyStr(p.nocBroadCategory) {
        assert GetOptionScore(NocBroadCategories, p.nocBroadCategory) == 0;
        added := added + [Suggestion(Category, High, 10)];
      } else if p.nocBroadCategory == Some("business_admin") {
        added := added + [Suggestion(CategoryShift, Medium, 5)];
      }
    }
  }

  /** A further Canadian credential, for the graduate streams. */
  method CredentialGroup(p: Profile, suggestions: seq<Suggestion>) returns (added: seq<Suggestion>)
    ensures added == suggestions + Pick(p, Credential)
  {
    added := suggestions;
    if p.stream in {Masters, PhD} {
      if p.canadianCredentialCount != Some("2+") {
        added := added + [Suggestion(Credential, Medium, 5)];
      }
    }
  }

  // ---------------------------------------------------------------------------
  // Properties of the suggestions
  // ---------------------------------------------------------------------------

  /** The first `k` rules contribute what the first `k - 1` do, then the `k`-th rule's suggestion. */
  lemma EmitPrefix(p: Profile, k: nat)
    requires 0 < k <= |RuleOrder|
    ensures Emit(p, RuleOrder[..k]) == Emit(p, RuleOrder[..k - 1]) + Pick(p, RuleOrder[k - 1])
  {
    assert RuleOrder[..k][..k - 1] == RuleOrder[..k - 1];
  }

  /** A suggestion comes out of the rules `ids` exactly when one of them fires and produces it. */
  lemma {:induction false} EmitMembers(p: Profile, ids: seq<SuggestionId>, s: Suggestion)
    ensures s in Emit(p, ids) <==> s.id in ids && Applies(p, s.id) && s == Make(p, s.id)
  {
    if ids != [] {
      var init := ids[..|ids| - 1];
      EmitMembers(p, init, s);
      assert ids == init + [ids[|ids| - 1]];
      assert s.id in ids <==> s.id in init || s.id == ids[|ids| - 1];
    }
  }

  /** For rules listed in strictly increasing rank, the suggestions come out in strictly increasing rank. */
  lemma {:induction false} EmitOrdered(p: Profile, ids: seq<SuggestionId>)
    requires forall i, j :: 0 <= i < j < |ids| ==> ids[i].Rank() < ids[j].Rank()
    ensures forall i, j :: 0 <= i < j < |Emit(p, ids)| ==> Emit(p, ids)[i].id.Rank() < Emit(p, ids)[j].id.Rank()
  {
    if ids != [] {
      var n := |ids| - 1;
      var init := ids[..n];
      EmitOrdered(p, init);
      var front := Emit(p, init);
      forall k | 0 <= k < |front| ensures front[k].id.Rank() < ids[n].Rank() {
        EmitMembers(p, init, front[k]);
        var m :| 0 <= m < |init| && init[m] == front[k].id;
        assert init[m] == ids[m];
      }
    }
  }

  /**
   * The suggestions follow the rule order (region, wage, language, bilingual,
   * tenure, permit, earnings, category, credential), so no identifier occurs twice.
   */
  lemma SuggestionsOrdered(p: Profile)
    ensures forall i, j :: 0 <= i < j < |SuggestionsOf(p)| ==>
              SuggestionsOf(p)[i].id.Rank() < SuggestionsOf(p)[j].id.Rank()
    ensures forall i, j :: 0 <= i < j < |SuggestionsOf(p)| ==> SuggestionsOf(p)[i].id != SuggestionsOf(p)[j].id
  {
    RuleOrderRanks();
    EmitOrdered(p, RuleOrder);
  }

  /** Every suggestion has a rule in the generator. */
  lemma RuleListed(id: SuggestionId)
    ensures id in RuleOrder
  {
    RuleOrderRanks();
    match id
    case Region => assert RuleOrder[0] == id;
    case RegionNorth => assert RuleOrder[1] == id;
    case Wage => assert RuleOrder[2] == id;
    case Language => assert RuleOrder[3] == id;
    case Bilingual => assert RuleOrder[4] == id;
    case Tenure => assert RuleOrder[5] == id;
    case Permit => assert RuleOrder[6] == id;
    case Earnings => assert RuleOrder[7] == id;
    case Category => assert RuleOrder[8] == id;
    case CategoryShift => assert RuleOrder[9] == id;
    case Credential => assert RuleOrder[10] == id;
  }

  /** A suggestion is made exactly when its rule fires, and it then carries the rule's impact and gain. */
  lemma SuggestionMembership(p: Profile, s: Suggestion)
    ensures s in SuggestionsOf(p) <==> Applies(p, s.id) && s == Make(p, s.id)
  {
    EmitMembers(p, RuleOrder, s);
    RuleListed(s.id);
  }

  /**
   * Stream gating: Express Entry streams are only told about language, the
   * job-offer streams never about language or credentials, the graduate
   * streams never about wage, status, category or the northern move.
   */
  lemma StreamGating(p: Profile, s: Suggestion)
    requires s in SuggestionsOf(p)
    ensures p.stream.IsExpressEntry() ==> s.id == Language || s.id == Bilingual
    ensures p.stream.IsJobOffer() ==> s.id != Language && s.id != Bilingual && s.id != Credential
    ensures p.stream.IsGraduate() ==>
              s.id in {Region, Language, Bilingual, Credential}
  {
    SuggestionMembership(p, s);
  }

  /** Every suggestion gains something. */
  lemma SuggestionsGainPoints(p: Profile, s: Suggestion)
    requires s in SuggestionsOf(p)
    ensures s.points > 0
  {
    SuggestionMembership(p, s);
    if s.id == Category {
      assert GetOptionScore(NocBroadCategories, p.nocBroadCategory) == 0;
    } else if s.id == CategoryShift {
      assert GetOptionScore(NocBroadCategories, p.nocBroadCategory) == 5;
    }
  }

  /**
   * The region suggestion gains 10 from Toronto and 7 from the rest of the
   * GTA; the northern move from outside the GTA gains 2.
   */
  lemma RegionGains(p: Profile)
    ensures Applies(p, Region) ==> GainOf(p, Region) == (if CurrentLocation(p) == Some("toronto") then 10 else 7)
    ensures Applies(p, RegionNorth) ==> GainOf(p, RegionNorth) == 2
  {
  }

  /** A credential count other than "2+" gains 5 with one more credential. */
  lemma CredentialGain(p: Profile)
    requires Applies(p, Credential)
    ensures GainOf(p, Credential) == 5
  {
    var c := p.canadianCredentialCount;
    if c == Some("1") {
      assert GetOptionScore(CanadianCredentialOptions, c) == 5;
    } else {
      assert GetOptionScore(CanadianCredentialOptions, c) == 0;
    }
  }

  // ---------------------------------------------------------------------------
  // Acting on a suggestion
  // ---------------------------------------------------------------------------

  /** The profile after following a suggestion. */
  function ActOn(p: Profile, id: SuggestionId): (q: Profile)
    ensures q.stream == p.stream
  {
    match id
    case Region | RegionNorth =>
      if p.stream.IsGraduate() then p.(studyLocation := Some("northern")) else p.(workLocation := Some("northern"))
    case Wage => p.(wageAmount := Some(40))
    case Language => p.(clbLevel := Some(9))
    case Bilingual => p.(bilingual := Some(true))
    case Tenure => p.(currentlyWorkingWithEmployer := Some(true))
    case Permit => p.(hasValidPermit := Some(true))
    case Earnings => p.(earningsHistory := Some(true))
    case Category | CategoryShift => p.(nocBroadCategory := Some("health_trades_stem"))
    case Credential => p.(canadianCredentialCount := Some(NextCredential(p.canadianCredentialCount)))
  }

  /** The strategic occupation group scores the top 10 points. */
  lemma TopCategoryScore()
    ensures GetOptionScore(NocBroadCategories, Some("health_trades_stem")) == 10
  {
  }

  /** Moving the campus north raises a graduate score by 10 less the current region score. */
  lemma GraduateRegionGain(p: Profile)
    ensures GraduateTotal(p.(studyLocation := Some("northern")))
         == GraduateTotal(p) + 10 - GetRegionScore(p.studyLocation)
  {
  }

  /** Reaching band 9 raises a graduate score by 10 less the current language score. */
  lemma GraduateLanguageGain(p: Profile)
    ensures GraduateTotal(p.(clbLevel := Some(9))) == GraduateTotal(p) + 10 - GraduateLanguageScore(p.clbLevel)
  {
  }

  /** Adding the second official language raises a graduate score by 10. */
  lemma GraduateBilingualGain(p: Profile)
    requires !Flag(p.bilingual)
    ensures GraduateTotal(p.(bilingual := Some(true))) == GraduateTotal(p) + 10
  {
  }

  /** A credential count of `next` instead of the current one changes a graduate score by the difference of their scores. */
  lemma GraduateCredentialGain(p: Profile, next: string)
    ensures GraduateTotal(p.(canadianCredentialCount := Some(next)))
         == GraduateTotal(p) + GetOptionScore(CanadianCredentialOptions, Some(next))
            - GetOptionScore(CanadianCredentialOptions, p.canadianCredentialCount)
  {
  }

  /** Moving the job north raises a job-offer score by 10 less the current region score. */
  lemma JobOfferRegionGain(p: Profile)
    ensures JobOfferTotal(p.(workLocation := Some("northern")))
         == JobOfferTotal(p) + 10 - GetRegionScore(p.workLocation)
  {
  }

  /** Reaching $40/hr raises a job-offer score by 10 less the current wage score. */
  lemma JobOfferWageGain(p: Profile)
    ensures JobOfferTotal(p.(wageAmount := Some(40))) == JobOfferTotal(p) + 10 - WageScore(p.wageAmount)
  {
  }

  /** Completing the tenure raises a job-offer score by 3. */
  lemma JobOfferTenureGain(p: Profile)
    requires !Flag(p.currentlyWorkingWithEmployer)
    ensures JobOfferTotal(p.(currentlyWorkingWithEmployer := Some(true))) == JobOfferTotal(p) + 3
  {
  }

  /** Securing a valid permit raises a job-offer score by 10. */
  lemma JobOfferPermitGain(p: Profile)
    requires !Flag(p.hasValidPermit)
    ensures JobOfferTotal(p.(hasValidPermit := Some(true))) == JobOfferTotal(p) + 10
  {
  }

  /** Building the earnings history raises a job-offer score by 3. */
  lemma JobOfferEarningsGain(p: Profile)
    requires !Flag(p.earningsHistory)
    ensures JobOfferTotal(p.(earningsHistory := Some(true))) == JobOfferTotal(p) + 3
  {
  }

  /** Moving to a strategic occupation raises a job-offer score by 10 less the current category score. */
  lemma JobOfferCategoryGain(p: Profile)
    ensures JobOfferTotal(p.(nocBroadCategory := Some("health_trades_stem")))
         == JobOfferTotal(p) + 10 - GetOptionScore(NocBroadCategories, p.nocBroadCategory)
  {
    TopCategoryScore();
  }

  /** On a graduate stream, following a suggestion whose rule fires raises the grid total by its gain. */
  lemma GraduateGain(p: Profile, id: SuggestionId)
    requires p.stream.IsGraduate() && Applies(p, id)
    ensures GraduateTotal(ActOn(p, id)) == GraduateTotal(p) + GainOf(p, id)
  {
    match id
    case Region => GraduateRegionGain(p);
    case Language => GraduateLanguageGain(p);
    case Bilingual => GraduateBilingualGain(p);
    case Credential => GraduateCredentialGain(p, NextCredential(p.canadianCredentialCount));
  }

  /** On a job-offer stream, following a suggestion whose rule fires raises the grid total by its gain. */
  lemma JobOfferGain(p: Profile, id: SuggestionId)
    requires p.stream.IsJobOffer() && Applies(p, id)
    ensures JobOfferTotal(ActOn(p, id)) == JobOfferTotal(p) + GainOf(p, id)
  {
    match id
    case Region | RegionNorth => JobOfferRegionGain(p);
    case Wage => JobOfferWageGain(p);
    case Tenure => JobOfferTenureGain(p);
    case Permit => JobOfferPermitGain(p);
    case Earnings => JobOfferEarningsGain(p);
    case Category | CategoryShift => JobOfferCategoryGain(p);
  }

  /** Following a suggestion whose rule fires raises the stream score by exactly its gain. */
  lemma ActingOnRule(p: Profile, id: SuggestionId)
    requires p.stream.IsEoi() && Applies(p, id)
    ensures ScoreOf(ActOn(p, id)).total == ScoreOf(p).total + GainOf(p, id)
  {
    var q := ActOn(p, id);
    assert q.stream == p.stream;
    ScoreIsFactorSum(p);
    ScoreIsFactorSum(q);
    if p.stream.IsGraduate() {
      GraduateGain(p, id);
    } else {
      JobOfferGain(p, id);
    }
  }

  /**
   * On the graduate and job-offer streams, following any suggestion made
   * raises the stream score by exactly the suggestion's points.
   */
  lemma ActingGains(p: Profile, s: Suggestion)
    requires p.stream.IsEoi() && s in SuggestionsOf(p)
    ensures ScoreOf(ActOn(p, s.id)).total == ScoreOf(p).total + s.points
  {
    SuggestionMembership(p, s);
    ActingOnRule(p, s.id);
  }
}
