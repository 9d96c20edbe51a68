/**
 The `input_data` dictionary (app.py:69-91): the nine answers of the form,
 plus the derived engagement level, expanded into one row of named columns,
 four numeric pass-through columns followed by seventeen boolean indicators.

 Each indicator is a string comparison between a widget's answer and a
 literal. Three of those literals are not options of their widget, so the
 indicators built from them can never be set; `WrittenLiterals` keeps the
 strings the program compares against and `IntendedLiterals` the option
 strings they evidently stand for.
 */
module Encoding {
  import opened Results
  import opened Domains
  import opened Engagement
  import opened Frames

  /** The keys of the dictionary. */
  datatype Feature =
    | ImdBand | NumOfPrevAttempts | StudiedCredits | SumClick
    | GenderM | DisabilityY
    | EngagementModerate | EngagementHigh | EngagementVeryHigh
    | RegionEastMidlands | RegionIreland | RegionLondon | RegionNorth | RegionScotland | RegionSouthEast
    | EducationNoFormal | EducationLowerThanALevel | EducationHigherEducation | EducationPostGraduate
    | Age35To55 | AgeOver55

  /** The keys in the dictionary's insertion order, which becomes the row's column order. */
  const Features: seq<Feature> := [
    ImdBand, NumOfPrevAttempts, StudiedCredits, SumClick,
    GenderM, DisabilityY,
    EngagementModerate, EngagementHigh, EngagementVeryHigh,
    RegionEastMidlands, RegionIreland, RegionLondon, RegionNorth, RegionScotland, RegionSouthEast,
    EducationNoFormal, EducationLowerThanALevel, EducationHigherEducation, EducationPostGraduate,
    Age35To55, AgeOver55]

  /** The column label of each key. */
  function ColumnName(f: Feature): string {
    match f
    case ImdBand => "imd_band"
    case NumOfPrevAttempts => "num_of_prev_attempts"
    case StudiedCredits => "studied_credits"
    case SumClick => "sum_click"
    case GenderM => "gender_M"
    case DisabilityY => "disability_Y"
    case EngagementModerate => "engagement_level_Moderate"
    case EngagementHigh => "engagement_level_High"
    case EngagementVeryHigh => "engagement_level_Very High"
    case RegionEastMidlands => "region_East Midlands Region"
    case RegionIreland => "region_Ireland"
    case RegionLondon => "region_London Region"
    case RegionNorth => "region_North Region"
    case RegionScotland => "region_Scotland"
    case RegionSouthEast => "region_South East Region"
    case EducationNoFormal => "highest_education_No Formal Qualifications"
    case EducationLowerThanALevel => "highest_education_Lower Than A Level"
    case EducationHigherEducation => "highest_education_Higher Education Qualification"
    case EducationPostGraduate => "highest_education_Post Graduate Qualification"
    case Age35To55 => "age_band_35-55"
    case AgeOver55 => "age_band_>55"
  }

  /** The column labels of the keys `fs`, in order. */
  function ColumnNames(fs: seq<Feature>): (names: seq<string>)
    ensures |names| == |fs|
    ensures forall i :: 0 <= i < |fs| ==> names[i] == ColumnName(fs[i])
  {
    if fs == [] then [] else ColumnNames(fs[..|fs| - 1]) + [ColumnName(fs[|fs| - 1])]
  }

  /** The column labels of the dictionary, in order. */
  const EncodedColumns: seq<string> := ColumnNames(Features)

  /** Where a key sits in `Features`. */
  function Position(f: Feature): (k: nat)
    ensures k < |Features| && Features[k] == f
  {
    match f
    case ImdBand => 0
    case NumOfPrevAttempts => 1
    case StudiedCredits => 2
    case SumClick => 3
    case GenderM => 4
    case DisabilityY => 5
    case EngagementModerate => 6
    case EngagementHigh => 7
    case EngagementVeryHigh => 8
    case RegionEastMidlands => 9
    case RegionIreland => 10
    case RegionLondon => 11
    case RegionNorth => 12
    case RegionScotland => 13
    case RegionSouthEast => 14
    case EducationNoFormal => 15
    case EducationLowerThanALevel => 16
    case EducationHigherEducation => 17
    case EducationPostGraduate => 18
    case Age35To55 => 19
    case AgeOver55 => 20
  }

  /** The length and the last character of each column label. */
  function Fingerprint(f: Feature): (int, char) {
    match f
    case ImdBand => (8, 'd')
    case NumOfPrevAttempts => (20, 's')
    case StudiedCredits => (15, 's')
    case SumClick => (9, 'k')
    case GenderM => (8, 'M')
    case DisabilityY => (12, 'Y')
    case EngagementModerate => (25, 'e')
    case EngagementHigh => (21, 'h')
    case EngagementVeryHigh => (26, 'h')
    case RegionEastMidlands => (27, 'n')
    case RegionIreland => (14, 'd')
    case RegionLondon => (20, 'n')
    case RegionNorth => (19, 'n')
    case RegionScotland => (15, 'd')
    case RegionSouthEast => (24, 'n')
    case EducationNoFormal => (42, 's')
    case EducationLowerThanALevel => (36, 'l')
    case EducationHigherEducation => (48, 'n')
    case EducationPostGraduate => (45, 'n')
    case Age35To55 => (14, '5')
    case AgeOver55 => (12, '5')
  }

  /** `Fingerprint` is what its name says: the length and last character of the label. */
  lemma FingerprintOfName(f: Feature)
    ensures (|ColumnName(f)|, ColumnName(f)[|ColumnName(f)| - 1]) == Fingerprint(f)
  {
  }

  /** No two keys share a fingerprint. */
  lemma FingerprintInjective()
    ensures forall f, g :: Fingerprint(f) == Fingerprint(g) ==> f == g
  {
  }

  /** Distinct keys have distinct column labels. */
  lemma ColumnNameInjective(f: Feature, g: Feature)
    requires ColumnName(f) == ColumnName(g)
    ensures f == g
  {
    FingerprintOfName(f);
    FingerprintOfName(g);
    FingerprintInjective();
  }

  /** No key occurs twice in the dictionary. */
  lemma FeaturesDistinct()
    ensures Distinct(Features)
  {
    forall i, j | 0 <= i < j < |Features|
      ensures Features[i] != Features[j]
    {
      assert Position(Features[i]) == i;
      assert Position(Features[j]) == j;
    }
  }

  /** Distinct keys give distinct column labels. */
  lemma ColumnNamesDistinct(fs: seq<Feature>)
    requires Distinct(fs)
    ensures Distinct(ColumnNames(fs))
  {
    forall i, j | 0 <= i < j < |fs|
      ensures ColumnNames(fs)[i] != ColumnNames(fs)[j]
    {
      if ColumnName(fs[i]) == ColumnName(fs[j]) {
        ColumnNameInjective(fs[i], fs[j]);
      }
    }
  }

  /** The dictionary never has two columns with one label. */
  lemma EncodedColumnsDistinct()
    ensures Distinct(EncodedColumns)
  {
    FeaturesDistinct();
    ColumnNamesDistinct(Features);
  }

  /** The literals three indicators compare against (education twice, age band once). */
  datatype Literals = Literals(noFormal: string, higherEducation: string, over55: string)

  /** The strings the program compares against, none of which its widgets offer. */
  const WrittenLiterals: Literals := Literals("No Formal quals", "HE Qualification", "55<=")

  /** The option strings of the widgets those three comparisons are meant to recognise. */
  const IntendedLiterals: Literals :=
    Literals("No Formal qualifications", "Higher Education Qualification", ">55")

  /** The keys holding booleans; the other four hold the numeric answers. */
  predicate IsIndicator(f: Feature) {
    !(f.ImdBand? || f.NumOfPrevAttempts? || f.StudiedCredits? || f.SumClick?)
  }

  /** The value the dictionary stores under a key, built with the given comparison literals. */
  function FeatureValue(p: Profile, lits: Literals, f: Feature): (v: Value)
    ensures v.Flag? <==> IsIndicator(f)
  {
    match f
    case ImdBand => Num(p.imdBand)
    case NumOfPrevAttempts => Num(p.prevAttempts)
    case StudiedCredits => Num(p.studiedCredits)
    case SumClick => Num(p.sumClick)
    case GenderM => Flag(GenderLabel(p.gender) == "Male")
    case DisabilityY => Flag(DisabilityLabel(p.disability) == "Yes")
    case EngagementModerate => Flag(LevelName(CalculateEngagement(p.sumClick)) == "Moderate")
    case EngagementHigh => Flag(LevelName(CalculateEngagement(p.sumClick)) == "High")
    case EngagementVeryHigh => Flag(LevelName(CalculateEngagement(p.sumClick)) == "Very High")
    case RegionEastMidlands => Flag(RegionLabel(p.region) == "East Midlands")
    case RegionIreland => Flag(RegionLabel(p.region) == "Ireland")
    case RegionLondon => Flag(RegionLabel(p.region) == "London")
    case RegionNorth => Flag(RegionLabel(p.region) == "North")
    case RegionScotland => Flag(RegionLabel(p.region) == "Scotland")
    case RegionSouthEast => Flag(RegionLabel(p.region) == "South East")
    case EducationNoFormal => Flag(EducationLabel(p.education) == lits.noFormal)
    case EducationLowerThanALevel => Flag(EducationLabel(p.education) == "Lower Than A Level")
    case EducationHigherEducation => Flag(EducationLabel(p.education) == lits.higherEducation)
    case EducationPostGraduate => Flag(EducationLabel(p.education) == "Post Graduate Qualification")
    case Age35To55 => Flag(AgeBandLabel(p.ageBand) == "35-55")
    case AgeOver55 => Flag(AgeBandLabel(p.ageBand) == lits.over55)
  }

  /** The dictionary as a one-row frame, built with the given comparison literals. */
  function EncodeWith(p: Profile, lits: Literals): (row: Row)
    ensures Columns(row) == EncodedColumns
  {
    seq(|Features|, i requires 0 <= i < |Features| => Cell(ColumnName(Features[i]), FeatureValue(p, lits, Features[i])))
  }

  /** `input_data` exactly as the program builds it. */
  function Encode(p: Profile): (row: Row)
    ensures Columns(row) == EncodedColumns
  {
    EncodeWith(p, WrittenLiterals)
  }

  /** `input_data` with the three comparisons corrected to the widgets' own option strings. */
  function EncodeIntended(p: Profile): (row: Row)
    ensures Columns(row) == EncodedColumns
  {
    EncodeWith(p, IntendedLiterals)
  }

  /** The program's comparisons against the engagement level name. */
  lemma LevelComparisons(l: Level)
    ensures (LevelName(l) == "Moderate") == (l == Moderate)
    ensures (LevelName(l) == "High") == (l == High)
    ensures (LevelName(l) == "Very High") == (l == VeryHigh)
  {
  }

  /** The program's comparisons against the region answer. */
  lemma RegionComparisons(r: Region)
    ensures (RegionLabel(r) == "East Midlands") == (r == EastMidlands)
    ensures (RegionLabel(r) == "Ireland") == (r == Ireland)
    ensures (RegionLabel(r) == "London") == (r == London)
    ensures (RegionLabel(r) == "North") == (r == North)
    ensures (RegionLabel(r) == "Scotland") == (r == Scotland)
    ensures (RegionLabel(r) == "South East") == (r == SouthEast)
  {
  }

  /**
   The program's comparisons against the education answer: two literals match
   their level, the other two written literals match no option at all.
   */
  lemma EducationComparisons(e: Education)
    ensures (EducationLabel(e) == "Lower Than A Level") == (e == LowerThanALevel)
    ensures (EducationLabel(e) == "Post Graduate Qualification") == (e == PostGraduate)
    ensures EducationLabel(e) != WrittenLiterals.noFormal
    ensures EducationLabel(e) != WrittenLiterals.higherEducation
    ensures (EducationLabel(e) == IntendedLiterals.noFormal) == (e == NoFormal)
    ensures (EducationLabel(e) == IntendedLiterals.higherEducation) == (e == HigherEducation)
  {
  }

  /** The program's comparisons against the age band answer; the written `55<=` matches no option. */
  lemma AgeComparisons(a: AgeBand)
    ensures (AgeBandLabel(a) == "35-55") == (a == From35To55)
    ensures AgeBandLabel(a) != WrittenLiterals.over55
    ensures (AgeBandLabel(a) == IntendedLiterals.over55) == (a == Over55)
  {
  }

  /** The value stored under an engagement key, whatever the literals. */
  lemma EngagementValue(p: Profile, lits: Literals, l: Level)
    requires l != Low
    ensures FeatureValue(p, lits, LevelFeature(l)) == Flag(CalculateEngagement(p.sumClick) == l)
  {
    LevelComparisons(CalculateEngagement(p.sumClick));
  }

  /** The value stored under a region key, whatever the literals. */
  lemma RegionValue(p: Profile, lits: Literals, r: Region)
    ensures FeatureValue(p, lits, RegionFeature(r)) == Flag(p.region == r)
  {
    RegionComparisons(p.region);
  }

  /** The value the program stores under an education key. */
  lemma EducationValue(p: Profile, e: Education)
    ensures FeatureValue(p, WrittenLiterals, EducationFeature(e)) == Flag(p.education == e && EducationRecognised(e))
  {
    var x := EducationLabel(p.education);
    match e
    case NoFormal =>
      assert FeatureValue(p, WrittenLiterals, EducationNoFormal) == Flag(x == WrittenLiterals.noFormal);
      assert x != WrittenLiterals.noFormal by { EducationComparisons(p.education); }
    case LowerThanALevel =>
      assert FeatureValue(p, WrittenLiterals, EducationLowerThanALevel) == Flag(x == "Lower Than A Level");
      assert (x == "Lower Than A Level") == (p.education == LowerThanALevel) by { EducationComparisons(p.education); }
    case HigherEducation =>
      assert FeatureValue(p, WrittenLiterals, EducationHigherEducation) == Flag(x == WrittenLiterals.higherEducation);
      assert x != WrittenLiterals.higherEducation by { EducationComparisons(p.education); }
    case PostGraduate =>
      assert FeatureValue(p, WrittenLiterals, EducationPostGraduate) == Flag(x == "Post Graduate Qualification");
      assert (x == "Post Graduate Qualification") == (p.education == PostGraduate) by { EducationComparisons(p.education); }
  }

  /** The value the program stores under the two age keys. */
  lemma AgeValues(p: Profile)
    ensures FeatureValue(p, WrittenLiterals, Age35To55) == Flag(p.ageBand == From35To55)
    ensures FeatureValue(p, WrittenLiterals, AgeOver55) == Flag(false)
  {
    AgeComparisons(p.ageBand);
  }

  /** The value stored under an education key with the corrected literals. */
  lemma IntendedEducationValue(p: Profile, e: Education)
    ensures FeatureValue(p, IntendedLiterals, EducationFeature(e)) == Flag(p.education == e)
  {
    var x := EducationLabel(p.education);
    match e
    case NoFormal =>
      assert FeatureValue(p, IntendedLiterals, EducationNoFormal) == Flag(x == IntendedLiterals.noFormal);
      assert (x == IntendedLiterals.noFormal) == (p.education == NoFormal) by { EducationComparisons(p.education); }
    case LowerThanALevel =>
      assert FeatureValue(p, IntendedLiterals, EducationLowerThanALevel) == Flag(x == "Lower Than A Level");
      assert (x == "Lower Than A Level") == (p.education == LowerThanALevel) by { EducationComparisons(p.education); }
    case HigherEducation =>
      assert FeatureValue(p, IntendedLiterals, EducationHigherEducation) == Flag(x == IntendedLiterals.higherEducation);
      assert (x == IntendedLiterals.higherEducation) == (p.education == HigherEducation) by { EducationComparisons(p.education); }
    case PostGraduate =>
      assert FeatureValue(p, IntendedLiterals, EducationPostGraduate) == Flag(x == "Post Graduate Qualification");
      assert (x == "Post Graduate Qualification") == (p.education == PostGraduate) by { EducationComparisons(p.education); }
  }

  /** The value stored under an age key with the corrected literals. */
  lemma IntendedAgeValue(p: Profile, a: AgeBand)
    requires a != Under35
    ensures FeatureValue(p, IntendedLiterals, AgeFeature(a)) == Flag(p.ageBand == a)
  {
    AgeComparisons(p.ageBand);
  }

  /** Looking up a key's label in the dictionary finds the value stored under that key. */
  lemma EncodedLookup(p: Profile, lits: Literals, f: Feature)
    ensures Lookup(EncodeWith(p, lits), ColumnName(f)) == Some(FeatureValue(p, lits, f))
  {
    EncodedColumnsDistinct();
    LookupAt(EncodeWith(p, lits), Position(f));
  }

  /** The indicator `col` of `row` holds the boolean `b`. */
  predicate IndicatorIs(row: Row, col: string, b: bool) {
    Lookup(row, col) == Some(Flag(b))
  }

  /** Among the indicators `fs`, the one for `chosen` is set and every other is clear. */
  predicate OnlySet(row: Row, fs: seq<Feature>, chosen: Feature) {
    forall i :: 0 <= i < |fs| ==> IndicatorIs(row, ColumnName(fs[i]), fs[i] == chosen)
  }

  /** None of the indicators `fs` is set. */
  predicate AllClear(row: Row, fs: seq<Feature>) {
    forall i :: 0 <= i < |fs| ==> IndicatorIs(row, ColumnName(fs[i]), false)
  }

  /** The indicator groups. */
  const EngagementFeatures: seq<Feature> := [EngagementModerate, EngagementHigh, EngagementVeryHigh]
  const RegionFeatures: seq<Feature> :=
    [RegionEastMidlands, RegionIreland, RegionLondon, RegionNorth, RegionScotland, RegionSouthEast]
  const EducationFeatures: seq<Feature> :=
    [EducationNoFormal, EducationLowerThanALevel, EducationHigherEducation, EducationPostGraduate]
  const AgeFeatures: seq<Feature> := [Age35To55, AgeOver55]

  /** The indicator named after a level; Low is the baseline and has none. */
  function LevelFeature(l: Level): (f: Feature)
    requires l != Low
    ensures f in EngagementFeatures
  {
    match l
    case Moderate => EngagementModerate
    case High => EngagementHigh
    case VeryHigh => EngagementVeryHigh
  }

  /** The indicator named after a region. */
  function RegionFeature(r: Region): (f: Feature)
    ensures f in RegionFeatures
  {
    match r
    case EastMidlands => RegionEastMidlands
    case Ireland => RegionIreland
    case London => RegionLondon
    case North => RegionNorth
    case SouthEast => RegionSouthEast
    case Scotland => RegionScotland
  }

  /** The indicator named after an education level. */
  function EducationFeature(e: Education): (f: Feature)
    ensures f in EducationFeatures
  {
    match e
    case NoFormal => EducationNoFormal
    case LowerThanALevel => EducationLowerThanALevel
    case HigherEducation => EducationHigherEducation
    case PostGraduate => EducationPostGraduate
  }

  /** The indicator named after an age band; 0-35 is the baseline and has none. */
  function AgeFeature(a: AgeBand): (f: Feature)
    requires a != Under35
    ensures f in AgeFeatures
  {
    match a
    case From35To55 => Age35To55
    case Over55 => AgeOver55
  }

  /** When `OnlySet` holds of distinct keys, no two of their indicators are set. */
  lemma OnlySetAtMostOne(row: Row, fs: seq<Feature>, chosen: Feature)
    requires Distinct(fs)
    requires OnlySet(row, fs, chosen)
    ensures forall i, j ::
              0 <= i < |fs| && 0 <= j < |fs| && IndicatorIs(row, ColumnName(fs[i]), true) && IndicatorIs(row, ColumnName(fs[j]), true)
              ==> i == j
  {
  }

  /** The four numeric answers pass through unchanged. */
  lemma NumericPassthrough(p: Profile)
    ensures Lookup(Encode(p), "imd_band") == Some(Num(p.imdBand))
    ensures Lookup(Encode(p), "num_of_prev_attempts") == Some(Num(p.prevAttempts))
    ensures Lookup(Encode(p), "studied_credits") == Some(Num(p.studiedCredits))
    ensures Lookup(Encode(p), "sum_click") == Some(Num(p.sumClick))
  {
    EncodedLookup(p, WrittenLiterals, ImdBand);
    EncodedLookup(p, WrittenLiterals, NumOfPrevAttempts);
    EncodedLookup(p, WrittenLiterals, StudiedCredits);
    EncodedLookup(p, WrittenLiterals, SumClick);
  }

  /** `gender_M` is set exactly for Male, `disability_Y` exactly for Yes. */
  lemma BinaryIndicators(p: Profile)
    ensures IndicatorIs(Encode(p), "gender_M", p.gender == Male)
    ensures IndicatorIs(Encode(p), "disability_Y", p.disability == Disabled)
  {
    EncodedLookup(p, WrittenLiterals, GenderM);
    EncodedLookup(p, WrittenLiterals, DisabilityY);
  }

  /** An engagement indicator is set exactly when the clicks fall in the level it is named after. */
  lemma EngagementIndicator(p: Profile, l: Level)
    requires l != Low
    ensures IndicatorIs(Encode(p), ColumnName(LevelFeature(l)), CalculateEngagement(p.sumClick) == l)
  {
    EncodedLookup(p, WrittenLiterals, LevelFeature(l));
    EngagementValue(p, WrittenLiterals, l);
  }

  /**
   Of the three engagement indicators at most one is set: none when the level
   is Low, the baseline, and otherwise only the one named after the level.
   */
  lemma EngagementIndicators(p: Profile)
    ensures CalculateEngagement(p.sumClick) == Low ==> AllClear(Encode(p), EngagementFeatures)
    ensures CalculateEngagement(p.sumClick) != Low ==>
      OnlySet(Encode(p), EngagementFeatures, LevelFeature(CalculateEngagement(p.sumClick)))
  {
    var level := CalculateEngagement(p.sumClick);
    var levels := [Moderate, High, VeryHigh];
    forall i | 0 <= i < |EngagementFeatures|
      ensures IndicatorIs(Encode(p), ColumnName(EngagementFeatures[i]), level == levels[i])
    {
      assert EngagementFeatures[i] == LevelFeature(levels[i]);
      EngagementIndicator(p, levels[i]);
    }
  }

  /** A region indicator is set exactly when the answer is the region it is named after. */
  lemma RegionIndicator(p: Profile, r: Region)
    ensures IndicatorIs(Encode(p), ColumnName(RegionFeature(r)), p.region == r)
  {
    EncodedLookup(p, WrittenLiterals, RegionFeature(r));
    RegionValue(p, WrittenLiterals, r);
  }

  /** Every region of the domain sets exactly one region indicator, the one named after it. */
  lemma RegionOneHot(p: Profile)
    ensures OnlySet(Encode(p), RegionFeatures, RegionFeature(p.region))
  {
    var regions := [EastMidlands, Ireland, London, North, Scotland, SouthEast];
    forall i | 0 <= i < |RegionFeatures|
      ensures IndicatorIs(Encode(p), ColumnName(RegionFeatures[i]), RegionFeatures[i] == RegionFeature(p.region))
    {
      assert RegionFeatures[i] == RegionFeature(regions[i]);
      RegionIndicator(p, regions[i]);
    }
  }

  /** The education levels whose indicator the program can ever set. */
  predicate EducationRecognised(e: Education) {
    e == LowerThanALevel || e == PostGraduate
  }

  /**
   An education indicator is set exactly when the answer is the level it is
   named after and the program's literal for it is an option of the widget,
   so the indicators for "No Formal Qualifications" and "Higher Education
   Qualification" are never set.
   */
  lemma EducationIndicator(p: Profile, e: Education)
    ensures IndicatorIs(Encode(p), ColumnName(EducationFeature(e)), p.education == e && EducationRecognised(e))
  {
    EncodedLookup(p, WrittenLiterals, EducationFeature(e));
    EducationValue(p, e);
  }

  /**
   At most one education indicator is set: the answer's own one when the
   program recognises it, and none for the other two levels.
   */
  lemma EducationIndicators(p: Profile)
    ensures EducationRecognised(p.education) ==>
      OnlySet(Encode(p), EducationFeatures, EducationFeature(p.education))
    ensures !EducationRecognised(p.education) ==> AllClear(Encode(p), EducationFeatures)
  {
    var levels := [NoFormal, LowerThanALevel, HigherEducation, PostGraduate];
    forall i | 0 <= i < |EducationFeatures|
      ensures IndicatorIs(Encode(p), ColumnName(EducationFeatures[i]),
                          EducationFeatures[i] == EducationFeature(p.education) && EducationRecognised(p.education))
    {
      assert EducationFeatures[i] == EducationFeature(levels[i]);
      EducationIndicator(p, levels[i]);
    }
  }

  /** `age_band_>55` is never set; `age_band_35-55` is set exactly for 35-55. */
  lemma AgeIndicators(p: Profile)
    ensures IndicatorIs(Encode(p), ColumnName(AgeOver55), false)
    ensures IndicatorIs(Encode(p), ColumnName(Age35To55), p.ageBand == From35To55)
  {
    EncodedLookup(p, WrittenLiterals, AgeOver55);
    EncodedLookup(p, WrittenLiterals, Age35To55);
    AgeValues(p);
  }

  /** With the widgets' own option strings, each education level sets its own indicator. */
  lemma IntendedEducationIndicator(p: Profile, e: Education)
    ensures IndicatorIs(EncodeIntended(p), ColumnName(EducationFeature(e)), p.education == e)
  {
    EncodedLookup(p, IntendedLiterals, EducationFeature(e));
    IntendedEducationValue(p, e);
  }

  /** With the widgets' own option strings, each age band but 0-35 sets its own indicator. */
  lemma IntendedAgeIndicator(p: Profile, a: AgeBand)
    requires a != Under35
    ensures IndicatorIs(EncodeIntended(p), ColumnName(AgeFeature(a)), p.ageBand == a)
  {
    EncodedLookup(p, IntendedLiterals, AgeFeature(a));
    IntendedAgeValue(p, a);
  }

  /** With the corrected literals every education level sets exactly its own indicator. */
  lemma IntendedEducationOneHot(p: Profile)
    ensures OnlySet(EncodeIntended(p), EducationFeatures, EducationFeature(p.education))
  {
    var levels := [NoFormal, LowerThanALevel, HigherEducation, PostGraduate];
    forall i | 0 <= i < |EducationFeatures|
      ensures IndicatorIs(EncodeIntended(p), ColumnName(EducationFeatures[i]),
                          EducationFeatures[i] == EducationFeature(p.education))
    {
      assert EducationFeatures[i] == EducationFeature(levels[i]);
      IntendedEducationIndicator(p, levels[i]);
    }
  }

  /** With the corrected literals each age band sets its own indicator, none for the 0-35 baseline. */
  lemma IntendedAgeOneHot(p: Profile)
    ensures p.ageBand == Under35 ==> AllClear(EncodeIntended(p), AgeFeatures)
    ensures p.ageBand != Under35 ==> OnlySet(EncodeIntended(p), AgeFeatures, AgeFeature(p.ageBand))
  {
    var bands := [From35To55, Over55];
    forall i | 0 <= i < |AgeFeatures|
      ensures IndicatorIs(EncodeIntended(p), ColumnName(AgeFeatures[i]), p.ageBand == bands[i])
    {
      assert AgeFeatures[i] == AgeFeature(bands[i]);
      IntendedAgeIndicator(p, bands[i]);
    }
  }

  /**
   A worked example: a male student aged 0-35, not disabled, from London,
   holding a Higher Education Qualification, studying 60 credits at the first
   attempt, with 500 clicks and IMD band 5.
   */
  function ExampleProfile(): (p: Profile)
    ensures ValidProfile(p)
  {
    Profile(Male, Under35, NotDisabled, London, HigherEducation, 60, 0, 500, 5)
  }

  /**
   For the example the program stores 5, 0, 60 and 500 in the numeric columns
   and sets exactly three indicators, `gender_M`, `engagement_level_Moderate`
   and `region_London Region`: the Higher Education indicator stays clear
   although that is the answer given, while the corrected literals set it.
   */
  lemma ExampleEncoding()
    ensures Lookup(Encode(ExampleProfile()), "imd_band") == Some(Num(5))
    ensures Lookup(Encode(ExampleProfile()), "num_of_prev_attempts") == Some(Num(0))
    ensures Lookup(Encode(ExampleProfile()), "studied_credits") == Some(Num(60))
    ensures Lookup(Encode(ExampleProfile()), "sum_click") == Some(Num(500))
    ensures IndicatorIs(Encode(ExampleProfile()), "gender_M", true)
    ensures IndicatorIs(Encode(ExampleProfile()), "disability_Y", false)
    ensures OnlySet(Encode(ExampleProfile()), EngagementFeatures, EngagementModerate)
    ensures OnlySet(Encode(ExampleProfile()), RegionFeatures, RegionLondon)
    ensures AllClear(Encode(ExampleProfile()), EducationFeatures)
    ensures AllClear(Encode(ExampleProfile()), AgeFeatures)
    ensures IndicatorIs(EncodeIntended(ExampleProfile()), ColumnName(EducationHigherEducation), true)
  {
    var p := ExampleProfile();
    assert CalculateEngagement(p.sumClick) == Moderate by {
      EngagementBrackets(500);
    }
    NumericPassthrough(p);
    BinaryIndicators(p);
    EngagementIndicators(p);
    RegionOneHot(p);
    EducationIndicators(p);
    IntendedEducationIndicator(p, HigherEducation);
    assert AllClear(Encode(p), AgeFeatures) by {
      AgeIndicators(p);
    }
  }
}
