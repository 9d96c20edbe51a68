/**
 The closed input domains of the sidebar form (app.py:19-34). Each categorical
 widget offers a fixed list of display strings; the model gives each list an
 enumeration and a `...Label` function back to the exact string the widget
 returns, so that the encoder can compare strings just as the program does.
 */
module Domains {

  datatype Gender = Male | Female
  datatype AgeBand = Under35 | From35To55 | Over55
  datatype Disability = NotDisabled | Disabled
  datatype Region = EastMidlands | Ireland | London | North | SouthEast | Scotland
  datatype Education = NoFormal | LowerThanALevel | HigherEducation | PostGraduate

  /** The option lists, in the order the widgets show them. */
  const GenderOptions: seq<string> := ["Male", "Female"]
  const AgeBands: seq<string> := ["0-35", "35-55", ">55"]
  const DisabilityOptions: seq<string> := ["No", "Yes"]
  const Regions: seq<string> :=
    ["East Midlands", "Ireland", "London", "North", "South East", "Scotland"]
  const EducationLevels: seq<string> :=
    ["No Formal qualifications", "Lower Than A Level", "Higher Education Qualification", "Post Graduate Qualification"]
  const CreditOptions: seq<int> := [30, 60, 120, 240]

  /** Every value of each enumeration, in the order of its option list. */
  const AllAgeBands: seq<AgeBand> := [Under35, From35To55, Over55]
  const AllRegions: seq<Region> := [EastMidlands, Ireland, London, North, SouthEast, Scotland]
  const AllEducations: seq<Education> := [NoFormal, LowerThanALevel, HigherEducation, PostGraduate]

  function GenderLabel(g: Gender): string {
    match g
    case Male => "Male"
    case Female => "Female"
  }

  function AgeBandLabel(a: AgeBand): string {
    match a
    case Under35 => "0-35"
    case From35To55 => "35-55"
    case Over55 => ">55"
  }

  function DisabilityLabel(d: Disability): string {
    match d
    case NotDisabled => "No"
    case Disabled => "Yes"
  }

  function RegionLabel(r: Region): string {
    match r
    case EastMidlands => "East Midlands"
    case Ireland => "Ireland"
    case London => "London"
    case North => "North"
    case SouthEast => "South East"
    case Scotland => "Scotland"
  }

  function EducationLabel(e: Education): string {
    match e
    case NoFormal => "No Formal qualifications"
    case LowerThanALevel => "Lower Than A Level"
    case HigherEducation => "Higher Education Qualification"
    case PostGraduate => "Post Graduate Qualification"
  }

  /** The labels of an enumeration are exactly its option list, one label per value. */
  lemma GenderDomain()
    ensures forall g :: GenderLabel(g) in GenderOptions
    ensures forall s :: s in GenderOptions ==> exists g :: GenderLabel(g) == s
    ensures forall g, h :: GenderLabel(g) == GenderLabel(h) ==> g == h
  {
    assert GenderLabel(Male) == GenderOptions[0];
    assert GenderLabel(Female) == GenderOptions[1];
  }

  lemma AgeBandDomain()
    ensures forall a :: AgeBandLabel(a) in AgeBands
    ensures forall s :: s in AgeBands ==> exists a :: AgeBandLabel(a) == s
    ensures forall a, b :: AgeBandLabel(a) == AgeBandLabel(b) ==> a == b
    ensures forall a :: a in AllAgeBands
    ensures forall i :: 0 <= i < |AllAgeBands| ==> AgeBandLabel(AllAgeBands[i]) == AgeBands[i]
  {
    assert AgeBandLabel(Under35) == AgeBands[0];
    assert AgeBandLabel(From35To55) == AgeBands[1];
    assert AgeBandLabel(Over55) == AgeBands[2];
    forall a
      ensures a in AllAgeBands
    {
      match a
      case Under35 => assert AllAgeBands[0] == a;
      case From35To55 => assert AllAgeBands[1] == a;
      case Over55 => assert AllAgeBands[2] == a;
    }
  }

  lemma DisabilityDomain()
    ensures forall d :: DisabilityLabel(d) in DisabilityOptions
    ensures forall s :: s in DisabilityOptions ==> exists d :: DisabilityLabel(d) == s
    ensures forall d, e :: DisabilityLabel(d) == DisabilityLabel(e) ==> d == e
  {
    assert DisabilityLabel(NotDisabled) == DisabilityOptions[0];
    assert DisabilityLabel(Disabled) == DisabilityOptions[1];
  }

  lemma RegionDomain()
    ensures forall r :: RegionLabel(r) in Regions
    ensures forall s :: s in Regions ==> exists r :: RegionLabel(r) == s
    ensures forall r, q :: RegionLabel(r) == RegionLabel(q) ==> r == q
    ensures forall r :: r in AllRegions
    ensures forall i :: 0 <= i < |AllRegions| ==> RegionLabel(AllRegions[i]) == Regions[i]
  {
    assert RegionLabel(EastMidlands) == Regions[0];
    assert RegionLabel(Ireland) == Regions[1];
    assert RegionLabel(London) == Regions[2];
    assert RegionLabel(North) == Regions[3];
    assert RegionLabel(SouthEast) == Regions[4];
    assert RegionLabel(Scotland) == Regions[5];
    forall r
      ensures r in AllRegions
    {
      match r
      case EastMidlands => assert AllRegions[0] == r;
      case Ireland => assert AllRegions[1] == r;
      case London => assert AllRegions[2] == r;
      case North => assert AllRegions[3] == r;
      case SouthEast => assert AllRegions[4] == r;
      case Scotland => assert AllRegions[5] == r;
    }
  }

  lemma EducationDomain()
    ensures forall e :: EducationLabel(e) in EducationLevels
    ensures forall s :: s in EducationLevels ==> exists e :: EducationLabel(e) == s
    ensures forall e, f :: EducationLabel(e) == EducationLabel(f) ==> e == f
    ensures forall e :: e in AllEducations
    ensures forall i :: 0 <= i < |AllEducations| ==> EducationLabel(AllEducations[i]) == EducationLevels[i]
  {
    assert EducationLabel(NoFormal) == EducationLevels[0];
    assert EducationLabel(LowerThanALevel) == EducationLevels[1];
    assert EducationLabel(HigherEducation) == EducationLevels[2];
    assert EducationLabel(PostGraduate) == EducationLevels[3];
    forall e
      ensures e in AllEducations
    {
      match e
      case NoFormal => assert AllEducations[0] == e;
      case LowerThanALevel => assert AllEducations[1] == e;
      case HigherEducation => assert AllEducations[2] == e;
      case PostGraduate => assert AllEducations[3] == e;
    }
  }

  /** The nine answers of the form: five categorical selections and four numbers. */
  datatype Profile = Profile(
    gender: Gender,
    ageBand: AgeBand,
    disability: Disability,
    region: Region,
    education: Education,
    studiedCredits: int,
    prevAttempts: int,
    sumClick: int,
    imdBand: int)

  /**
   The numeric answers lie in the ranges their widgets allow: credits from the
   select box, previous attempts 0..10, clicks 0..20000, IMD band 1..10.
   */
  predicate ValidProfile(p: Profile) {
    && p.studiedCredits in CreditOptions
    && 0 <= p.prevAttempts <= 10
    && 0 <= p.sumClick <= 20000
    && 1 <= p.imdBand <= 10
  }

  /** The form's default answers (the first option of every widget, 0 attempts, 1000 clicks). */
  function DefaultProfile(): (p: Profile)
    ensures ValidProfile(p)
    ensures GenderLabel(p.gender) == GenderOptions[0] && AgeBandLabel(p.ageBand) == AgeBands[0]
    ensures DisabilityLabel(p.disability) == DisabilityOptions[0] && RegionLabel(p.region) == Regions[0]
    ensures EducationLabel(p.education) == EducationLevels[0] && p.studiedCredits == CreditOptions[0]
    ensures p.prevAttempts == 0 && p.sumClick == 1000 && p.imdBand == 1
  {
    Profile(Male, Under35, NotDisabled, EastMidlands, NoFormal, 30, 0, 1000, 1)
  }
}
