/** The curriculum store: chapter metadata and exam patterns keyed by (subject, board,
    grade), the shipped 9th-grade Punjab Physics curriculum, and the two lookups. */
module Curriculum {
  import opened Wrappers
  import opened Domain

  datatype ChapterInfo = ChapterInfo(
    id: string,
    number: int,
    title: string,
    titleUrdu: Option<string>,
    topics: seq<string>,
    topicsUrdu: Option<seq<string>>,
    learningObjectives: seq<string>,
    keyFormulas: Option<seq<string>>,
    importantConcepts: seq<string>,
    difficulty: Difficulty,
    estimatedStudyHours: int)

  datatype ExamSection = ExamSection(name: string, marks: int, questionTypes: seq<string>)

  datatype ExamPattern = ExamPattern(totalMarks: int, timeLimit: int, sections: seq<ExamSection>)

  datatype SubjectCurriculum = SubjectCurriculum(
    subject: Subject,
    board: Board,
    grade: Grade,
    chapters: seq<ChapterInfo>,
    examPattern: ExamPattern)

  predicate IsFor(c: SubjectCurriculum, subject: Subject, board: Board, grade: Grade) {
    c.subject == subject && c.board == board && c.grade == grade
  }

  /** `getCurriculum`: the first curriculum of the database for (subject, board, grade),
      or None (the source's `null`) when there is none. */
  function GetCurriculum(db: seq<SubjectCurriculum>, subject: Subject, board: Board, grade: Grade)
    : (r: Option<SubjectCurriculum>)
    ensures r.None? <==> forall k :: 0 <= k < |db| ==> !IsFor(db[k], subject, board, grade)
    ensures r.Some? ==> IsFor(r.value, subject, board, grade)
    ensures r.Some? ==> exists i :: (0 <= i < |db| && db[i] == r.value
      && forall k :: 0 <= k < i ==> !IsFor(db[k], subject, board, grade))
    decreases |db|
  {
    if db == [] then None
    else if IsFor(db[0], subject, board, grade) then Some(db[0])
    else
      var r := GetCurriculum(db[1..], subject, board, grade);
      assert r.Some? ==> exists i :: (1 <= i < |db| && db[i] == r.value
        && forall k :: 0 <= k < i ==> !IsFor(db[k], subject, board, grade));
      r
  }

  /** `chapters.find(ch => ch.id === chapterId)`. */
  function FindChapter(chapters: seq<ChapterInfo>, chapterId: string): (r: Option<ChapterInfo>)
    ensures r.None? <==> forall k :: 0 <= k < |chapters| ==> chapters[k].id != chapterId
    ensures r.Some? ==> r.value.id == chapterId
    ensures r.Some? ==> exists i :: (0 <= i < |chapters| && chapters[i] == r.value
      && forall k :: 0 <= k < i ==> chapters[k].id != chapterId)
    decreases |chapters|
  {
    if chapters == [] then None
    else if chapters[0].id == chapterId then Some(chapters[0])
    else
      var r := FindChapter(chapters[1..], chapterId);
      assert r.Some? ==> exists i :: (1 <= i < |chapters| && chapters[i] == r.value
        && forall k :: 0 <= k < i ==> chapters[k].id != chapterId);
      r
  }

  ghost predicate HasChapter(c: SubjectCurriculum, chapterId: string) {
    exists k :: 0 <= k < |c.chapters| && c.chapters[k].id == chapterId
  }

  /** What `getChapterById` returns: curricula are searched in order, and within each
      curriculum its chapters in order; the first chapter with the id wins. */
  function ChapterLookup(db: seq<SubjectCurriculum>, chapterId: string): (r: Option<ChapterInfo>)
    ensures r.None? <==> forall k :: 0 <= k < |db| ==> !HasChapter(db[k], chapterId)
    ensures r.Some? ==> r.value.id == chapterId
    ensures r.Some? ==> exists i :: (0 <= i < |db| && r == FindChapter(db[i].chapters, chapterId)
      && forall k :: 0 <= k < i ==> !HasChapter(db[k], chapterId))
    decreases |db|
  {
    if db == [] then None
    else
      match FindChapter(db[0].chapters, chapterId)
      case Some(ch) => Some(ch)
      case None =>
        var r := ChapterLookup(db[1..], chapterId);
        assert r.Some? ==> exists i :: (1 <= i < |db| && r == FindChapter(db[i].chapters, chapterId)
          && forall k :: 0 <= k < i ==> !HasChapter(db[k], chapterId));
        r
  }

  /** `getChapterById`: the `for…of` loop over the curricula with an early return. */
  method GetChapterById(db: seq<SubjectCurriculum>, chapterId: string) returns (r: Option<ChapterInfo>)
    ensures r == ChapterLookup(db, chapterId)
  {
    var i := 0;
    while i < |db|
      invariant 0 <= i <= |db|
      invariant ChapterLookup(db[i..], chapterId) == ChapterLookup(db, chapterId)
    {
      assert db[i..][1..] == db[i + 1..];
      var chapter := FindChapter(db[i].chapters, chapterId);
      if chapter.Some? {
        return chapter;
      }
      i := i + 1;
    }
    return None;
  }

  function SectionMarks(sections: seq<ExamSection>): int
    decreases |sections|
  {
    if sections == [] then 0 else sections[0].marks + SectionMarks(sections[1..])
  }

  const Chapter1: ChapterInfo := ChapterInfo(
    "phy9-ch1", 1, "Physical Quantities and Measurement", Some("طبیعی مقادیر اور پیمائش"),
    ["Introduction to Physics", "Physical Quantities", "International System of Units",
     "Prefixes", "Scientific Notation", "Measuring Instruments", "Significant Figures"],
    Some(["فزکس کا تعارف", "طبیعی مقادیر", "بین الاقوامی نظام اکائیاں", "سابقے",
          "سائنسی اعداد", "پیمائشی آلات", "اہم ہندسے"]),
    ["Define physics and its scope", "Distinguish between base and derived quantities",
     "Use SI units correctly", "Apply scientific notation", "Calculate using significant figures"],
    None,
    ["Base quantities: Length, Mass, Time, Electric Current, Temperature, Amount of substance, Luminous intensity",
     "Derived quantities: Area, Volume, Density, Speed, Acceleration",
     "Prefixes: kilo, centi, milli, micro, nano",
     "Significant figures rules"],
    Easy, 8)

  const Chapter2: ChapterInfo := ChapterInfo(
    "phy9-ch2", 2, "Kinematics", Some("حرکیات"),
    ["Rest and Motion", "Types of Motion", "Distance and Displacement", "Speed and Velocity",
     "Acceleration", "Equations of Motion", "Graphical Analysis"],
    Some(["سکون اور حرکت", "حرکت کی اقسام", "فاصلہ اور نقل مکانی", "رفتار اور سرعت",
          "سرعت میں اضافہ", "حرکت کی مساوات", "گرافی تجزیہ"]),
    ["Differentiate between distance and displacement", "Calculate speed, velocity and acceleration",
     "Apply equations of motion", "Interpret motion graphs"],
    Some(["v = u + at", "s = ut + ½at²", "v² = u² + 2as",
          "Average velocity = Total displacement / Total time"]),
    ["Scalar vs Vector quantities", "Uniform and non-uniform motion",
     "Acceleration due to gravity = 9.8 m/s²", "Slope of distance-time graph gives speed",
     "Slope of velocity-time graph gives acceleration"],
    Medium, 12)

  const Chapter3: ChapterInfo := ChapterInfo(
    "phy9-ch3", 3, "Dynamics", Some("حرکیات"),
    ["Force", "Types of Forces", "Newton's Laws of Motion", "Momentum",
     "Conservation of Momentum", "Friction", "Circular Motion"],
    Some(["قوت", "قوت کی اقسام", "نیوٹن کے قوانین حرکت", "رفتار", "رفتار کا تحفظ", "رگڑ",
          "دائروی حرکت"]),
    ["State and apply Newton's laws of motion", "Calculate momentum and impulse",
     "Solve problems on friction", "Understand circular motion concepts"],
    Some(["F = ma", "p = mv", "Impulse = FΔt = Δp", "f = μN", "Fc = mv²/r"]),
    ["Inertia and its types", "Action-reaction pairs", "Conservation of momentum",
     "Static and kinetic friction", "Centripetal force"],
    Hard, 15)

  const Physics9thPunjab: SubjectCurriculum := SubjectCurriculum(
    Physics, Punjab, Ninth, [Chapter1, Chapter2, Chapter3],
    ExamPattern(85, 180, [
      ExamSection("Multiple Choice Questions", 17, ["MCQ"]),
      ExamSection("Short Questions", 32, ["Short Answer"]),
      ExamSection("Long Questions", 36, ["Long Answer", "Numerical Problems"])]))

  const CurriculumDatabase: seq<SubjectCurriculum> := [Physics9thPunjab]

  lemma SingleCurriculum(c: SubjectCurriculum, subject: Subject, board: Board, grade: Grade)
    ensures GetCurriculum([c], subject, board, grade)
      == if IsFor(c, subject, board, grade) then Some(c) else None
  {
    assert [c][1..] == [];
  }

  /** Only (Physics, Punjab, 9th) has a curriculum in the shipped database. */
  lemma ShippedCurriculumCoverage(subject: Subject, board: Board, grade: Grade)
    ensures GetCurriculum(CurriculumDatabase, subject, board, grade)
      == if subject == Physics && board == Punjab && grade == Ninth then Some(Physics9thPunjab) else None
  {
    SingleCurriculum(Physics9thPunjab, subject, board, grade);
  }

  /** The shipped exam sections add up to the shipped total of 85 marks. */
  lemma ShippedExamMarksAddUp()
    ensures SectionMarks(Physics9thPunjab.examPattern.sections) == Physics9thPunjab.examPattern.totalMarks == 85
  {
    var ss := Physics9thPunjab.examPattern.sections;
    assert SectionMarks(ss[2..]) == 36;
    assert SectionMarks(ss[1..]) == 32 + 36;
  }

  /** The shipped chapters are numbered 1, 2, 3 in order and have distinct ids. */
  lemma ShippedChapterIds()
    ensures |Physics9thPunjab.chapters| == 3
    ensures forall k :: 0 <= k < 3 ==> Physics9thPunjab.chapters[k].number == k + 1
    ensures Physics9thPunjab.chapters[0].id == "phy9-ch1"
      && Physics9thPunjab.chapters[1].id == "phy9-ch2"
      && Physics9thPunjab.chapters[2].id == "phy9-ch3"
    ensures forall i, j :: 0 <= i < j < 3 ==> Physics9thPunjab.chapters[i].id != Physics9thPunjab.chapters[j].id
  {
    var ids := ["phy9-ch1", "phy9-ch2", "phy9-ch3"];
    assert ids[0][7] == '1' && ids[1][7] == '2' && ids[2][7] == '3';
  }

  /** Every shipped chapter id resolves to its own chapter. */
  lemma ShippedChapterLookup()
    ensures ChapterLookup(CurriculumDatabase, "phy9-ch1") == Some(Chapter1)
    ensures ChapterLookup(CurriculumDatabase, "phy9-ch2") == Some(Chapter2)
    ensures ChapterLookup(CurriculumDatabase, "phy9-ch3") == Some(Chapter3)
  {
    ShippedChapterIds();
    var chs := Physics9thPunjab.chapters;
    assert chs[1..][1..] == [Chapter3];
    assert FindChapter(chs, "phy9-ch1") == Some(Chapter1);
    assert FindChapter(chs[1..], "phy9-ch2") == Some(Chapter2);
    assert FindChapter(chs, "phy9-ch2") == Some(Chapter2);
    assert FindChapter(chs[1..][1..], "phy9-ch3") == Some(Chapter3);
    assert FindChapter(chs[1..], "phy9-ch3") == Some(Chapter3);
    assert FindChapter(chs, "phy9-ch3") == Some(Chapter3);
  }
}
