/**
 * The immutable rule tables of the points grid and the partition of the
 * streams into Expression-of-Interest and Express Entry streams.
 */
module Constants {
  import opened Types

  /** One row of a rule table: the option's key, its display caption and its points. */
  datatype RuleEntry<V> = RuleEntry(value: V, caption: string, score: int)

  const TeerLevels: seq<RuleEntry<string>> := [
    RuleEntry("0", "TEER 0 (Management)", 10),
    RuleEntry("1", "TEER 1 (Professional)", 10),
    RuleEntry("2", "TEER 2 (Technical)", 8),
    RuleEntry("3", "TEER 3 (Skilled Trades)", 8),
    RuleEntry("4", "TEER 4 (Intermediate)", 0),
    RuleEntry("5", "TEER 5 (Labour)", 0)
  ]

  const NocBroadCategories: seq<RuleEntry<string>> := [
    RuleEntry("health_trades_stem", "Health, Trades, STEM, Transport, Manufacturing (NOC 0, 2, 3, 7, 8, 9)", 10),
    RuleEntry("business_admin", "Business, Finance, Administration (NOC 1, 4)", 5),
    RuleEntry("sales_service_arts", "Sales, Service, Arts, Culture (NOC 5, 6)", 0)
  ]

  const WageTiers: seq<RuleEntry<string>> := [
    RuleEntry("40k+", "$40.00/hr or more (approx $80k/yr)", 10),
    RuleEntry("35-39", "$35.00 to $39.99/hr", 8),
    RuleEntry("30-34", "$30.00 to $34.99/hr", 7),
    RuleEntry("25-29", "$25.00 to $29.99/hr", 6),
    RuleEntry("20-24", "$20.00 to $24.99/hr", 5),
    RuleEntry("less20", "Less than $20.00/hr", 0)
  ]

  const EducationLevels: seq<RuleEntry<string>> := [
    RuleEntry("phd", "PhD", 10),
    RuleEntry("masters", "Masters", 8),
    RuleEntry("degree", "Bachelors Degree (3+ years)", 6),
    RuleEntry("diploma2", "Diploma (2+ years)", 5),
    RuleEntry("postgrad", "Post-graduate Certificate (1+ year)", 5),
    RuleEntry("diploma1", "Diploma (1 year)", 3),
    RuleEntry("cert", "Certificate (Apprenticeship)", 3),
    RuleEntry("none", "Secondary / None", 0)
  ]

  const FieldsOfStudy: seq<RuleEntry<string>> := [
    RuleEntry("stem_health", "STEM / Health (Engineering, Health, Math, CS)", 12),
    RuleEntry("trades", "Trades (Agriculture, Mechanics, Construction)", 12),
    RuleEntry("business_social", "Business, Social Science, Education, Law", 6),
    RuleEntry("arts_humanities", "Arts, Humanities", 0),
    RuleEntry("other", "Other", 0)
  ]

  const Regions: seq<RuleEntry<string>> := [
    RuleEntry("northern", "Northern Ontario (e.g., Sudbury, Thunder Bay)", 10),
    RuleEntry("outside_gta", "Outside GTA (e.g., Hamilton, Waterloo, Ottawa)", 8),
    RuleEntry("gta", "Inside GTA (Durham, Halton, Peel, York)", 3),
    RuleEntry("toronto", "City of Toronto", 0)
  ]

  const CanadianCredentialOptions: seq<RuleEntry<string>> := [
    RuleEntry("2+", "More than one Canadian credential", 10),
    RuleEntry("1", "One Canadian credential", 5),
    RuleEntry("0", "None", 0)
  ]

  /** Language bands; a row's value is the lowest band it stands for. */
  const ClbLevels: seq<RuleEntry<int>> := [
    RuleEntry(9, "CLB 9 or higher", 10),
    RuleEntry(8, "CLB 8", 6),
    RuleEntry(7, "CLB 7", 4),
    RuleEntry(6, "CLB 6", 0),
    RuleEntry(0, "CLB 5 or lower", 0)
  ]

  const EoiStreams: seq<Stream> := [ForeignWorker, IntlStudent, InDemand, Masters, PhD]

  const EeStreams: seq<Stream> := [HumanCapitalPriorities, SkilledTrades, FrenchWorker]

  /** No two rows of a table share a key, so a find-first lookup is a function of the key. */
  predicate DistinctValues<V(==)>(t: seq<RuleEntry<V>>) {
    forall i, j :: 0 <= i < j < |t| ==> t[i].value != t[j].value
  }

  /** Each row scores at most as much as the row before it. */
  predicate NonIncreasing<V>(t: seq<RuleEntry<V>>) {
    forall i :: 0 < i < |t| ==> t[i - 1].score >= t[i].score
  }

  /** The largest score of a non-empty table. */
  function MaxScore<V>(t: seq<RuleEntry<V>>): (m: int)
    requires |t| > 0
    ensures forall i :: 0 <= i < |t| ==> t[i].score <= m
    ensures exists i :: 0 <= i < |t| && t[i].score == m
  {
    if |t| == 1 then t[0].score
    else
      var rest := MaxScore(t[1..]);
      assert forall i :: 1 <= i < |t| ==> t[i] == t[1..][i - 1];
      if t[0].score >= rest then t[0].score else rest
  }

  /** In a table listed in non-increasing score order, the first row is the maximum. */
  lemma {:induction false} FirstIsMaximum<V>(t: seq<RuleEntry<V>>)
    requires |t| > 0 && NonIncreasing(t)
    ensures MaxScore(t) == t[0].score
    ensures forall i :: 0 <= i < |t| ==> t[i].score <= t[0].score
  {
    if |t| > 1 {
      var tail := t[1..];
      assert NonIncreasing(tail) by {
        forall i | 0 < i < |tail| ensures tail[i - 1].score >= tail[i].score {
          assert tail[i - 1] == t[i] && tail[i] == t[i + 1];
        }
      }
      FirstIsMaximum(tail);
      forall i | 1 <= i < |t| ensures t[i].score <= t[0].score {
        assert t[i] == tail[i - 1];
      }
    }
  }

  lemma TeerLevelsDistinct()
    ensures DistinctValues(TeerLevels)
  {
  }

  lemma NocBroadCategoriesDistinct()
    ensures DistinctValues(NocBroadCategories)
  {
  }

  lemma WageTiersDistinct()
    ensures DistinctValues(WageTiers)
  {
  }

  lemma EducationLevelsDistinct()
    ensures DistinctValues(EducationLevels)
  {
  }

  lemma FieldsOfStudyDistinct()
    ensures DistinctValues(FieldsOfStudy)
  {
  }

  lemma RegionsDistinct()
    ensures DistinctValues(Regions)
  {
  }

  lemma CanadianCredentialOptionsDistinct()
    ensures DistinctValues(CanadianCredentialOptions)
  {
  }

  lemma ClbLevelsDistinct()
    ensures DistinctValues(ClbLevels)
  {
  }

  /** Every rule table has distinct keys. */
  lemma TablesHaveDistinctValues()
    ensures DistinctValues(TeerLevels) && DistinctValues(NocBroadCategories)
    ensures DistinctValues(WageTiers) && DistinctValues(EducationLevels)
    ensures DistinctValues(FieldsOfStudy) && DistinctValues(Regions)
    ensures DistinctValues(CanadianCredentialOptions) && DistinctValues(ClbLevels)
  {
    TeerLevelsDistinct();
    NocBroadCategoriesDistinct();
    WageTiersDistinct();
    EducationLevelsDistinct();
    FieldsOfStudyDistinct();
    RegionsDistinct();
    CanadianCredentialOptionsDistinct();
    ClbLevelsDistinct();
  }

  lemma TeerLevelsNonIncreasing()
    ensures NonIncreasing(TeerLevels)
  {
  }

  lemma NocBroadCategoriesNonIncreasing()
    ensures NonIncreasing(NocBroadCategories)
  {
  }

  lemma WageTiersNonIncreasing()
    ensures NonIncreasing(WageTiers)
  {
  }

  lemma EducationLevelsNonIncreasing()
    ensures NonIncreasing(EducationLevels)
  {
  }

  lemma FieldsOfStudyNonIncreasing()
    ensures NonIncreasing(FieldsOfStudy)
  {
  }

  lemma RegionsNonIncreasing()
    ensures NonIncreasing(Regions)
  {
  }

  lemma CanadianCredentialOptionsNonIncreasing()
    ensures NonIncreasing(CanadianCredentialOptions)
  {
  }

  lemma ClbLevelsNonIncreasing()
    ensures NonIncreasing(ClbLevels)
  {
  }

  /** Every rule table is listed best option first. */
  lemma TablesAreNonIncreasing()
    ensures NonIncreasing(TeerLevels) && NonIncreasing(NocBroadCategories)
    ensures NonIncreasing(WageTiers) && NonIncreasing(EducationLevels)
    ensures NonIncreasing(FieldsOfStudy) && NonIncreasing(Regions)
    ensures NonIncreasing(CanadianCredentialOptions) && NonIncreasing(ClbLevels)
  {
    TeerLevelsNonIncreasing();
    NocBroadCategoriesNonIncreasing();
    WageTiersNonIncreasing();
    EducationLevelsNonIncreasing();
    FieldsOfStudyNonIncreasing();
    RegionsNonIncreasing();
    CanadianCredentialOptionsNonIncreasing();
    ClbLevelsNonIncreasing();
  }

  /**
   * The job level, occupation category, education and credential tables top
   * out at 10 points, the amount the calculator adds to its denominator for each.
   */
  lemma TableMaximaAreTen()
    ensures MaxScore(TeerLevels) == 10 && MaxScore(NocBroadCategories) == 10
    ensures MaxScore(EducationLevels) == 10 && MaxScore(CanadianCredentialOptions) == 10
    ensures MaxScore(Regions) == 10 && MaxScore(WageTiers) == 10
    ensures MaxScore(FieldsOfStudy) == 12 && MaxScore(ClbLevels) == 10
  {
    TablesAreNonIncreasing();
    FirstIsMaximum(TeerLevels);
    FirstIsMaximum(NocBroadCategories);
    FirstIsMaximum(EducationLevels);
    FirstIsMaximum(CanadianCredentialOptions);
    FirstIsMaximum(Regions);
    FirstIsMaximum(WageTiers);
    FirstIsMaximum(FieldsOfStudy);
    FirstIsMaximum(ClbLevels);
  }

  /** Every score in every table is non-negative. */
  lemma TableScoresNonNegative()
    ensures forall i :: 0 <= i < |TeerLevels| ==> TeerLevels[i].score >= 0
    ensures forall i :: 0 <= i < |NocBroadCategories| ==> NocBroadCategories[i].score >= 0
    ensures forall i :: 0 <= i < |EducationLevels| ==> EducationLevels[i].score >= 0
    ensures forall i :: 0 <= i < |CanadianCredentialOptions| ==> CanadianCredentialOptions[i].score >= 0
    ensures forall i :: 0 <= i < |Regions| ==> Regions[i].score >= 0
    ensures forall i :: 0 <= i < |FieldsOfStudy| ==> FieldsOfStudy[i].score >= 0
    ensures forall i :: 0 <= i < |WageTiers| ==> WageTiers[i].score >= 0
    ensures forall i :: 0 <= i < |ClbLevels| ==> ClbLevels[i].score >= 0
  {
  }

  /**
   * The two stream lists split the eight streams: each stream is in exactly
   * one list, the first holds the graduate and job-offer streams, the second
   * the Express Entry streams.
   */
  lemma StreamListsPartition()
    ensures forall s: Stream :: s in EoiStreams <==> s !in EeStreams
    ensures forall s: Stream :: s in EoiStreams <==> s.IsEoi()
    ensures forall s: Stream :: s in EeStreams <==> s.IsExpressEntry()
    ensures |EoiStreams| + |EeStreams| == 8
  {
    forall s: Stream ensures (s in EoiStreams <==> s.IsEoi()) && (s in EeStreams <==> s.IsExpressEntry()) {
      match s
      case ForeignWorker => assert EoiStreams[0] == s;
      case IntlStudent => assert EoiStreams[1] == s;
      case InDemand => assert EoiStreams[2] == s;
      case Masters => assert EoiStreams[3] == s;
      case PhD => assert EoiStreams[4] == s;
      case HumanCapitalPriorities => assert EeStreams[0] == s;
      case SkilledTrades => assert EeStreams[1] == s;
      case FrenchWorker => assert EeStreams[2] == s;
    }
  }
}
