/** The historical question store: past board-exam questions, the shipped Physics 9th
    Punjab sample, and the two filters over it. */
module PastPapers {
  import opened Wrappers
  import opened Domain
  import opened Seqs

  datatype McqOptions = McqOptions(a: string, b: string, c: string, d: string)

  datatype PastPaperQuestion = PastPaperQuestion(
    id: string,
    year: int,
    board: Board,
    subject: Subject,
    grade: Grade,
    section: string,
    questionNumber: int,
    questionText: string,
    questionTextUrdu: Option<string>,
    questionType: QuestionType,
    marks: int,
    chapterIds: seq<string>,
    options: Option<McqOptions>,
    correctAnswer: Option<string>,
    solution: Option<string>,
    solutionUrdu: Option<string>,
    difficulty: Difficulty,
    frequency: int)

  predicate IsFor(q: PastPaperQuestion, subject: Subject, board: Board, grade: Grade) {
    q.subject == subject && q.board == board && q.grade == grade
  }

  /** `paper.chapterIds.some(id => chapterIds.includes(id))`. */
  predicate SharesChapter(q: PastPaperQuestion, chapterIds: seq<string>) {
    exists k :: 0 <= k < |q.chapterIds| && q.chapterIds[k] in chapterIds
  }

  /** The chapter filter applies only to a present, non-empty list of chapter ids. */
  predicate FiltersChapters(chapterIds: Option<seq<string>>) {
    chapterIds.Some? && |chapterIds.value| > 0
  }

  /** What `getPastPapers` keeps: the question is for (subject, board, grade) and, when
      the chapter filter applies, it shares a chapter with the requested ids. */
  predicate Selected(q: PastPaperQuestion, subject: Subject, board: Board, grade: Grade,
                     chapterIds: Option<seq<string>>)
  {
    IsFor(q, subject, board, grade) && (FiltersChapters(chapterIds) ==> SharesChapter(q, chapterIds.value))
  }

  /** `getPastPapers`: sound and complete for `Selected`. */
  function GetPastPapers(db: seq<PastPaperQuestion>, subject: Subject, board: Board, grade: Grade,
                         chapterIds: Option<seq<string>>): (r: seq<PastPaperQuestion>)
    ensures forall k :: 0 <= k < |r| ==> r[k] in db && Selected(r[k], subject, board, grade, chapterIds)
    ensures forall k :: 0 <= k < |db| && Selected(db[k], subject, board, grade, chapterIds) ==> db[k] in r
    ensures forall q ::
              multiset(r)[q] == if Selected(q, subject, board, grade, chapterIds) then multiset(db)[q] else 0
  {
    var papers := Filter(db, q => IsFor(q, subject, board, grade));
    FilterCount(db, q => IsFor(q, subject, board, grade));
    if FiltersChapters(chapterIds) then
      var ids := chapterIds.value;
      FilterCount(papers, q => SharesChapter(q, ids));
      Filter(papers, q => SharesChapter(q, ids))
    else papers
  }

  /** The result keeps database order and adds nothing. */
  lemma PastPapersSubsequence(db: seq<PastPaperQuestion>, subject: Subject, board: Board, grade: Grade,
                              chapterIds: Option<seq<string>>)
    ensures IsSubseq(GetPastPapers(db, subject, board, grade, chapterIds), db)
  {
    var papers := Filter(db, q => IsFor(q, subject, board, grade));
    FilterIsSubseq(db, q => IsFor(q, subject, board, grade));
    if FiltersChapters(chapterIds) {
      var ids := chapterIds.value;
      FilterIsSubseq(papers, q => SharesChapter(q, ids));
      SubseqTransitive(GetPastPapers(db, subject, board, grade, chapterIds), papers, db);
    }
  }

  /** Filtering by chapters only narrows the unfiltered result, keeping its order; an
      empty list of chapter ids filters nothing. */
  lemma ChapterFilterNarrows(db: seq<PastPaperQuestion>, subject: Subject, board: Board, grade: Grade,
                             chapterIds: seq<string>)
    ensures IsSubseq(GetPastPapers(db, subject, board, grade, Some(chapterIds)),
                     GetPastPapers(db, subject, board, grade, None))
    ensures chapterIds == [] ==>
      GetPastPapers(db, subject, board, grade, Some(chapterIds)) == GetPastPapers(db, subject, board, grade, None)
  {
    var papers := Filter(db, q => IsFor(q, subject, board, grade));
    assert GetPastPapers(db, subject, board, grade, None) == papers;
    if chapterIds != [] {
      FilterIsSubseq(papers, q => SharesChapter(q, chapterIds));
    } else {
      FilterIsSubseq(papers, q => true);
      SubseqReflexive(papers);
    }
  }

  lemma {:induction false} SubseqReflexive<T>(s: seq<T>)
    ensures IsSubseq(s, s)
    decreases |s|
  {
    if s != [] {
      SubseqReflexive(s[1..]);
    }
  }

  /** `getQuestionsByType`: the entries of the store for the subject, board and grade whose
      type name is the given string, in store order and with their multiplicity. */
  function GetQuestionsByType(db: seq<PastPaperQuestion>, subject: Subject, board: Board, grade: Grade,
                              typeName: string): (r: seq<PastPaperQuestion>)
    ensures forall k :: 0 <= k < |r| ==>
      r[k] in db && IsFor(r[k], subject, board, grade) && r[k].questionType.Name() == typeName
    ensures forall k ::
      (0 <= k < |db| && IsFor(db[k], subject, board, grade) && db[k].questionType.Name() == typeName)
      ==> db[k] in r
    ensures IsSubseq(r, db)
    ensures forall q ::
              multiset(r)[q] == if IsFor(q, subject, board, grade) && q.questionType.Name() == typeName
                                then multiset(db)[q] else 0
  {
    var matches := q => IsFor(q, subject, board, grade) && q.questionType.Name() == typeName;
    FilterIsSubseq(db, matches);
    FilterCount(db, matches);
    Filter(db, matches)
  }

  /** For a type's own name, `getQuestionsByType` selects exactly the questions of the
      unfiltered `getPastPapers` result that have that type. */
  lemma QuestionsByTypeAgree(db: seq<PastPaperQuestion>, subject: Subject, board: Board, grade: Grade,
                             t: QuestionType, q: PastPaperQuestion)
    ensures q in GetQuestionsByType(db, subject, board, grade, t.Name())
      <==> q in GetPastPapers(db, subject, board, grade, None) && q.questionType == t
  {
    NameInjective(q.questionType, t);
    var byType := GetQuestionsByType(db, subject, board, grade, t.Name());
    var all := GetPastPapers(db, subject, board, grade, None);
    if q in byType {
      var k :| 0 <= k < |byType| && byType[k] == q;
    }
    if q in all && q.questionType == t {
      var k :| 0 <= k < |all| && all[k] == q;
      var j :| 0 <= j < |db| && db[j] == q;
    }
  }

  lemma NameInjective(t: QuestionType, u: QuestionType)
    ensures t.Name() == u.Name() <==> t == u
  {
  }

  /** A string that names no question type selects nothing. */
  lemma QuestionsByUnknownType(db: seq<PastPaperQuestion>, subject: Subject, board: Board, grade: Grade,
                               typeName: string)
    requires forall t: QuestionType :: t.Name() != typeName
    ensures GetQuestionsByType(db, subject, board, grade, typeName) == []
  {
    var r := GetQuestionsByType(db, subject, board, grade, typeName);
    assert |r| > 0 ==> r[0].questionType.Name() == typeName;
  }

  const PhysicsNinthPunjabPastPapers: seq<PastPaperQuestion> := [
    PastPaperQuestion(
      "phy9-2023-mcq-1", 2023, Punjab, Physics, Ninth, "MCQ", 1,
      "The SI unit of length is:", Some("لمبائی کی ایس آئی اکائی ہے:"),
      MCQ, 1, ["phy9-ch1"],
      Some(McqOptions("meter", "centimeter", "kilometer", "millimeter")), Some("a"),
      Some("The SI unit of length is meter (m). It is one of the seven base units in the International System of Units."),
      None, Easy, 5),
    PastPaperQuestion(
      "phy9-2023-mcq-2", 2023, Punjab, Physics, Ninth, "MCQ", 2,
      "Which of the following is a vector quantity?", Some("مندرجہ ذیل میں سے کون سی ویکٹر مقدار ہے؟"),
      MCQ, 1, ["phy9-ch2"],
      Some(McqOptions("Speed", "Distance", "Displacement", "Time")), Some("c"),
      Some("Displacement is a vector quantity because it has both magnitude and direction. Speed, distance, and time are scalar quantities."),
      None, Medium, 4),
    PastPaperQuestion(
      "phy9-2023-short-1", 2023, Punjab, Physics, Ninth, "Short Questions", 1,
      "Define acceleration. Write its SI unit.", Some("سرعت میں اضافے کی تعریف کریں۔ اس کی ایس آئی اکائی لکھیں۔"),
      ShortAnswer, 2, ["phy9-ch2"], None, None,
      Some("Acceleration is the rate of change of velocity with respect to time. SI unit: m/s² (meter per second squared)"),
      None, Easy, 5),
    PastPaperQuestion(
      "phy9-2023-numerical-1", 2023, Punjab, Physics, Ninth, "Long Questions", 1,
      "A car starts from rest and accelerates uniformly at 2 m/s² for 10 seconds. Calculate: (a) Final velocity (b) Distance covered",
      Some("ایک کار سکون سے شروع ہو کر 10 سیکنڈ تک 2 m/s² کی یکساں سرعت سے تیز ہوتی ہے۔ حساب لگائیں: (a) حتمی رفتار (b) طے شدہ فاصلہ"),
      Numerical, 5, ["phy9-ch2"], None, None,
      Some("Given: u = 0, a = 2 m/s², t = 10 s\n(a) v = u + at = 0 + 2×10 = 20 m/s\n(b) s = ut + ½at² = 0×10 + ½×2×10² = 100 m"),
      None, Medium, 4)
  ]

  const PastPapersDatabase: seq<PastPaperQuestion> := PhysicsNinthPunjabPastPapers

  /** An MCQ's answer key names one of its four options. */
  predicate AnswerKeyValid(q: PastPaperQuestion) {
    q.questionType == MCQ ==>
      q.options.Some? && q.correctAnswer.Some? && q.correctAnswer.value in ["a", "b", "c", "d"]
  }

  /** In the shipped data every MCQ's answer is one of its option keys, and every
      frequency lies in the documented range 1 to 5. */
  lemma ShippedPastPapersWellFormed()
    ensures forall k :: 0 <= k < |PastPapersDatabase| ==> AnswerKeyValid(PastPapersDatabase[k])
    ensures forall k :: 0 <= k < |PastPapersDatabase| ==> 1 <= PastPapersDatabase[k].frequency <= 5
  {
    var db := PastPapersDatabase;
    assert |db| == 4;
    assert db[0].correctAnswer == Some("a") && db[1].correctAnswer == Some("c");
    assert db[2].questionType == ShortAnswer && db[3].questionType == Numerical;
  }
}
