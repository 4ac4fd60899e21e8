/** The HSC subject groups: for each category its compulsory and elective subjects, and the
    three lookups by category. */
module SubjectGroups {
  import opened Wrappers
  import opened Domain
  import opened Seqs

  datatype SubjectGroup = SubjectGroup(
    category: HscCategory,
    compulsorySubjects: seq<Subject>,
    electiveSubjects: seq<Subject>)

  /** `subjectGroups.find(g => g.category === category)`. */
  function FindGroup(groups: seq<SubjectGroup>, category: HscCategory): (r: Option<SubjectGroup>)
    ensures r.None? <==> forall k :: 0 <= k < |groups| ==> groups[k].category != category
    ensures r.Some? ==> r.value.category == category
    ensures r.Some? ==> exists i :: (0 <= i < |groups| && groups[i] == r.value
      && forall k :: 0 <= k < i ==> groups[k].category != category)
    decreases |groups|
  {
    if groups == [] then None
    else if groups[0].category == category then Some(groups[0])
    else
      var r := FindGroup(groups[1..], category);
      assert r.Some? ==> exists i :: (1 <= i < |groups| && groups[i] == r.value
        && forall k :: 0 <= k < i ==> groups[k].category != category);
      r
  }

  /** `getSubjectsByCategory`: the group's compulsory then elective subjects, or [] when
      the category has no group. */
  function SubjectsByCategory(groups: seq<SubjectGroup>, category: HscCategory): (r: seq<Subject>)
    ensures FindGroup(groups, category).None? ==> r == []
    ensures FindGroup(groups, category).Some? ==>
      r == FindGroup(groups, category).value.compulsorySubjects + FindGroup(groups, category).value.electiveSubjects
  {
    match FindGroup(groups, category)
    case None => []
    case Some(group) => group.compulsorySubjects + group.electiveSubjects
  }

  /** `getCompulsorySubjects`: `group?.compulsorySubjects || []` (an array is always truthy). */
  function CompulsorySubjects(groups: seq<SubjectGroup>, category: HscCategory): (r: seq<Subject>)
    ensures FindGroup(groups, category).None? ==> r == []
    ensures FindGroup(groups, category).Some? ==> r == FindGroup(groups, category).value.compulsorySubjects
  {
    match FindGroup(groups, category)
    case None => []
    case Some(group) => group.compulsorySubjects
  }

  /** `getElectiveSubjects`: `group?.electiveSubjects || []`. */
  function ElectiveSubjects(groups: seq<SubjectGroup>, category: HscCategory): (r: seq<Subject>)
    ensures FindGroup(groups, category).None? ==> r == []
    ensures FindGroup(groups, category).Some? ==> r == FindGroup(groups, category).value.electiveSubjects
  {
    match FindGroup(groups, category)
    case None => []
    case Some(group) => group.electiveSubjects
  }

  /** All subjects of a category are its compulsory subjects followed by its electives. */
  lemma SubjectsAreCompulsoryThenElective(groups: seq<SubjectGroup>, category: HscCategory)
    ensures SubjectsByCategory(groups, category)
      == CompulsorySubjects(groups, category) + ElectiveSubjects(groups, category)
  {
  }

  /** A category without a group yields no subjects from any of the three lookups. */
  lemma MissingCategoryIsEmpty(groups: seq<SubjectGroup>, category: HscCategory)
    requires forall k :: 0 <= k < |groups| ==> groups[k].category != category
    ensures SubjectsByCategory(groups, category) == []
    ensures CompulsorySubjects(groups, category) == []
    ensures ElectiveSubjects(groups, category) == []
  {
  }

  ghost predicate DistinctCategories(groups: seq<SubjectGroup>) {
    forall i, j :: 0 <= i < j < |groups| ==> groups[i].category != groups[j].category
  }

  /** With distinct categories the lookup finds the one group of the category, wherever
      it sits in the list. */
  lemma UniqueGroupFound(groups: seq<SubjectGroup>, i: int)
    requires DistinctCategories(groups)
    requires 0 <= i < |groups|
    ensures FindGroup(groups, groups[i].category) == Some(groups[i])
  {
    var r := FindGroup(groups, groups[i].category);
    var j :| 0 <= j < |groups| && groups[j] == r.value
      && forall k :: 0 <= k < j ==> groups[k].category != groups[i].category;
    assert !(i < j);
  }

  const CoreSubjects: seq<Subject> := [Subject.English, Subject.Urdu, Islamiat, PakistanStudies]

  const PreEngineeringGroup: SubjectGroup :=
    SubjectGroup(PreEngineering,
      [Mathematics, Physics, Chemistry, Subject.English, Subject.Urdu, Islamiat, PakistanStudies],
      [Subject.ComputerScience, Statistics])

  const PreMedicalGroup: SubjectGroup :=
    SubjectGroup(PreMedical,
      [Biology, Physics, Chemistry, Subject.English, Subject.Urdu, Islamiat, PakistanStudies],
      [Mathematics, Psychology])

  const ComputerScienceGroup: SubjectGroup :=
    SubjectGroup(HscCategory.ComputerScience,
      [Subject.ComputerScience, Mathematics, Physics, Subject.English, Subject.Urdu, Islamiat, PakistanStudies],
      [Chemistry, Statistics, Economics])

  const CommerceGroup: SubjectGroup :=
    SubjectGroup(Commerce,
      [Economics, Mathematics, Statistics, Subject.English, Subject.Urdu, Islamiat, PakistanStudies],
      [Subject.ComputerScience, Geography, Psychology])

  const ArtsGroup: SubjectGroup :=
    SubjectGroup(Arts,
      [Subject.English, Subject.Urdu, Islamiat, PakistanStudies],
      [Psychology, Sociology, Philosophy, FineArts, Geography, History, Economics, Arabic, Persian,
        French, German])

  const GeneralScienceGroup: SubjectGroup :=
    SubjectGroup(GeneralScience,
      [Physics, Chemistry, Mathematics, Subject.English, Subject.Urdu, Islamiat, PakistanStudies],
      [Biology, Subject.ComputerScience, Statistics, Geography])

  const HomeEconomicsGroup: SubjectGroup :=
    SubjectGroup(HscCategory.HomeEconomics,
      [Subject.HomeEconomics, Subject.English, Subject.Urdu, Islamiat, PakistanStudies],
      [Biology, Chemistry, Psychology, Sociology, FineArts, Economics])

  const ShippedGroups: seq<SubjectGroup> := [
    PreEngineeringGroup,
    PreMedicalGroup,
    ComputerScienceGroup,
    CommerceGroup,
    ArtsGroup, GeneralScienceGroup, HomeEconomicsGroup
  ]

  ghost predicate HasGroup(groups: seq<SubjectGroup>, category: HscCategory) {
    exists i :: 0 <= i < |groups| && groups[i].category == category
  }

  /** Each of the seven categories has exactly one shipped group, so the lookup is
      deterministic. */
  lemma ShippedCategoriesUnique()
    ensures DistinctCategories(ShippedGroups)
    ensures forall c: HscCategory :: HasGroup(ShippedGroups, c)
  {
    forall c: HscCategory
      ensures HasGroup(ShippedGroups, c)
    {
      var i := match c
        case PreEngineering => 0
        case PreMedical => 1
        case ComputerScience => 2
        case Commerce => 3
        case Arts => 4
        case GeneralScience => 5
        case HomeEconomics => 6;
      assert ShippedGroups[i].category == c;
    }
  }

  /** A group's full subject list, compulsory then elective, repeats no subject: so
      neither part repeats one and no subject is both compulsory and elective. */
  ghost predicate WellFormedGroup(g: SubjectGroup) {
    NoDuplicates(g.compulsorySubjects + g.electiveSubjects)
  }

  predicate HasCoreSubjects(g: SubjectGroup) {
    forall s :: s in CoreSubjects ==> s in g.compulsorySubjects
  }

  /** Every shipped group is well formed and has the four core subjects among its
      compulsory ones. */
  lemma ShippedGroupsWellFormed()
    ensures forall k :: 0 <= k < |ShippedGroups| ==> WellFormedGroup(ShippedGroups[k])
    ensures forall k :: 0 <= k < |ShippedGroups| ==> HasCoreSubjects(ShippedGroups[k])
  {
    PreEngineeringGroupWellFormed();
    PreMedicalGroupWellFormed();
    ComputerScienceGroupWellFormed();
    CommerceGroupWellFormed();
    ArtsGroupWellFormed();
    GeneralScienceGroupWellFormed();
    HomeEconomicsGroupWellFormed();
    ShippedGroupsHaveCoreSubjects();
  }

  lemma ShippedGroupsHaveCoreSubjects()
    ensures forall k :: 0 <= k < |ShippedGroups| ==> HasCoreSubjects(ShippedGroups[k])
  {
  }

  lemma PreEngineeringGroupWellFormed()
    ensures WellFormedGroup(PreEngineeringGroup)
  {
  }

  lemma PreMedicalGroupWellFormed()
    ensures WellFormedGroup(PreMedicalGroup)
  {
  }

  lemma ComputerScienceGroupWellFormed()
    ensures WellFormedGroup(ComputerScienceGroup)
  {
  }

  lemma CommerceGroupWellFormed()
    ensures WellFormedGroup(CommerceGroup)
  {
  }

  lemma ArtsGroupWellFormed()
    ensures WellFormedGroup(ArtsGroup)
  {
  }

  lemma GeneralScienceGroupWellFormed()
    ensures WellFormedGroup(GeneralScienceGroup)
  {
  }

  lemma HomeEconomicsGroupWellFormed()
    ensures WellFormedGroup(HomeEconomicsGroup)
  {
  }

  /** With the shipped groups, every category's compulsory subjects include English, Urdu,
      Islamiat and Pakistan Studies, and its full subject list has no duplicates. */
  lemma ShippedSubjectsByCategory(category: HscCategory)
    ensures forall s :: s in CoreSubjects ==> s in CompulsorySubjects(ShippedGroups, category)
    ensures NoDuplicates(SubjectsByCategory(ShippedGroups, category))
  {
    ShippedCategoriesUnique();
    ShippedGroupsWellFormed();
    assert HasGroup(ShippedGroups, category);
    var i :| 0 <= i < |ShippedGroups| && ShippedGroups[i].category == category;
    UniqueGroupFound(ShippedGroups, i);
  }
}
