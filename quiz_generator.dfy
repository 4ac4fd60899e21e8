/** The quiz-generator form: its partial request, the chapter and question-type toggles,
    the focus-area field, the Generate button's guard and the request it builds. */
module QuizGenerator {
  import opened Wrappers
  import opened Domain
  import opened Text
  import opened Seqs
  import AiAgents

  /** `Partial<QuizGenerationRequest>` as far as the form fills it: every field may be
      missing. */
  datatype QuizForm = QuizForm(
    chapterIds: Option<seq<string>>,
    questionCount: Option<int>,
    questionTypes: Option<seq<QuestionType>>,
    difficulty: Option<Difficulty>,
    language: Option<Language>,
    includeFormulas: Option<bool>,
    focusAreas: Option<seq<string>>)

  /** The form's starting state, in the interface language. */
  function InitialForm(language: Language): QuizForm {
    QuizForm(None, Some(10), Some([MCQ]), Some(Medium), Some(language), Some(true), Some([]))
  }

  predicate HasChapters(form: QuizForm) {
    form.chapterIds.Some? && |form.chapterIds.value| > 0
  }

  /** `disabled={loading || !formData.chapterIds?.length || !formData.questionTypes?.length}`. */
  function GenerateDisabled(loading: bool, form: QuizForm): (r: bool)
    ensures r <==> (loading || form.chapterIds.None? || form.chapterIds.value == []
      || form.questionTypes.None? || form.questionTypes.value == [])
  {
    loading || !HasChapters(form) || !(form.questionTypes.Some? && |form.questionTypes.value| > 0)
  }

  /** `questionCount || 10`. */
  function CountOrDefault(count: Option<int>): int {
    if count.Some? && count.value != 0 then count.value else 10
  }

  /** `handleGenerate`'s request, or None when it returns early for want of chapters. The
      subject is the user's first subject; the defaults apply only to missing (or, for the
      count, zero) fields, so an empty list of question types is kept. */
  function BuildRequest(form: QuizForm, subject: Subject, board: Board, grade: Grade)
    : (r: Option<AiAgents.QuizRequest>)
    ensures r.None? <==> form.chapterIds.None? || form.chapterIds.value == []
    ensures r.Some? ==>
      r.value.subject == subject && r.value.board == board && r.value.grade == grade
      && r.value.chapterIds == form.chapterIds.value
      && r.value.includeFormulas == form.includeFormulas && r.value.focusAreas == form.focusAreas
    ensures r.Some? ==> r.value.questionCount == (if form.questionCount in {None, Some(0)} then 10 else form.questionCount.value)
    ensures r.Some? ==> r.value.questionTypes == (if form.questionTypes.None? then [MCQ] else form.questionTypes.value)
    ensures r.Some? ==> r.value.difficulty == (if form.difficulty.None? then Medium else form.difficulty.value)
    ensures r.Some? ==> r.value.language == (if form.language.None? then Language.English else form.language.value)
  {
    if !HasChapters(form) then None
    else
      Some(AiAgents.QuizRequest(
        subject, board, grade, form.chapterIds.value,
        CountOrDefault(form.questionCount),
        form.questionTypes.GetOr([MCQ]),
        form.difficulty.GetOr(Medium),
        form.language.GetOr(Language.English),
        form.includeFormulas,
        form.focusAreas))
  }

  /** An enabled Generate button always builds a request, and that request names at least
      one chapter and at least one question type. */
  lemma EnabledButtonBuildsRequest(loading: bool, form: QuizForm, subject: Subject, board: Board, grade: Grade)
    requires !GenerateDisabled(loading, form)
    ensures BuildRequest(form, subject, board, grade).Some?
    ensures |BuildRequest(form, subject, board, grade).value.chapterIds| > 0
    ensures |BuildRequest(form, subject, board, grade).value.questionTypes| > 0
  {
  }

  /** The initial form cannot generate; once a chapter is chosen it asks for ten MCQs of
      medium difficulty in the interface language, with formulas and no focus areas. */
  lemma InitialFormRequest(language: Language, chapterId: string, subject: Subject, board: Board, grade: Grade)
    ensures GenerateDisabled(false, InitialForm(language))
    ensures BuildRequest(InitialForm(language), subject, board, grade).None?
    ensures var form := InitialForm(language).(chapterIds := Some([chapterId]));
      !GenerateDisabled(false, form)
      && BuildRequest(form, subject, board, grade)
         == Some(AiAgents.QuizRequest(subject, board, grade, [chapterId], 10, [MCQ], Medium, language,
                                      Some(true), Some([])))
  {
    var form := InitialForm(language).(chapterIds := Some([chapterId]));
    assert form == QuizForm(Some([chapterId]), Some(10), Some([MCQ]), Some(Medium), Some(language), Some(true), Some([]));
    assert HasChapters(form);
    var r := BuildRequest(form, subject, board, grade);
    assert r.Some?;
    assert r.value.questionCount == 10;
    assert r.value.chapterIds == [chapterId];
    assert r.value.questionTypes == [MCQ];
  }

  /** Trimming a piece keeps it free of a character it lacked. */
  lemma TrimKeepsAbsent(piece: string, c: char)
    requires c !in piece
    ensures c !in Trim(piece)
  {
    var i, j :| 0 <= i <= j <= |piece| && Trim(piece) == piece[i..j];
    assert forall x :: x in piece[i..j] ==> x in piece;
  }

  /** Every piece trimmed, in order. */
  function TrimAll(pieces: seq<string>): (r: seq<string>)
    ensures |r| == |pieces|
    ensures forall k :: 0 <= k < |r| ==> r[k] == Trim(pieces[k])
  {
    seq(|pieces|, k requires 0 <= k < |pieces| => Trim(pieces[k]))
  }

  predicate Trimmed(s: string) {
    s == [] || (!IsSpace(s[0]) && !IsSpace(s[|s| - 1]))
  }

  predicate NonEmpty(s: string) {
    s != ""
  }

  /** `value.split(',').map(s => s.trim()).filter(Boolean)`: non-empty, trimmed,
      comma-free pieces; exactly the trimmed pieces that are not empty, in order and as
      often as they occur. */
  function FocusAreas(text: string): (r: seq<string>)
    ensures forall k :: 0 <= k < |r| ==> r[k] != "" && ',' !in r[k] && Trimmed(r[k])
    ensures forall k :: 0 <= k < |Split(text, ',')| && Trim(Split(text, ',')[k]) != "" ==>
      Trim(Split(text, ',')[k]) in r
    ensures IsSubseq(r, TrimAll(Split(text, ',')))
    ensures forall area :: multiset(r)[area] == if area != "" then multiset(TrimAll(Split(text, ',')))[area] else 0
  {
    FocusAreaShape(TrimAll(Split(text, ',')), Split(text, ','), text);
    FocusAreaKept(TrimAll(Split(text, ',')), Split(text, ','));
    FilterIsSubseq(TrimAll(Split(text, ',')), NonEmpty);
    FilterCount(TrimAll(Split(text, ',')), NonEmpty);
    Filter(TrimAll(Split(text, ',')), NonEmpty)
  }

  /** Every kept piece is non-empty, comma-free and trimmed. */
  lemma FocusAreaShape(trimmed: seq<string>, pieces: seq<string>, text: string)
    requires pieces == Split(text, ',') && trimmed == TrimAll(pieces)
    ensures forall k :: 0 <= k < |Filter(trimmed, NonEmpty)| ==>
      Filter(trimmed, NonEmpty)[k] != "" && ',' !in Filter(trimmed, NonEmpty)[k]
      && Trimmed(Filter(trimmed, NonEmpty)[k])
  {
    SplitPiecesLackSeparator(text, ',');
    forall k | 0 <= k < |trimmed|
      ensures ',' !in trimmed[k] && Trimmed(trimmed[k])
    {
      TrimKeepsAbsent(pieces[k], ',');
    }
  }

  /** Every piece that does not trim to "" is kept, trimmed. */
  lemma FocusAreaKept(trimmed: seq<string>, pieces: seq<string>)
    requires trimmed == TrimAll(pieces)
    ensures forall k :: 0 <= k < |pieces| && Trim(pieces[k]) != "" ==> Trim(pieces[k]) in Filter(trimmed, NonEmpty)
  {
    forall k | 0 <= k < |pieces| && Trim(pieces[k]) != ""
      ensures Trim(pieces[k]) in Filter(trimmed, NonEmpty)
    {
      assert trimmed[k] == Trim(pieces[k]) && NonEmpty(trimmed[k]);
    }
  }

  lemma {:induction false} SplitWithoutSeparator(s: string, sep: char)
    requires sep !in s
    ensures Split(s, sep) == [s]
    decreases |s|
  {
    if s != [] {
      assert sep !in s[1..];
      SplitWithoutSeparator(s[1..], sep);
      assert [s[0]] + s[1..] == s;
    }
  }

  /** A field without commas gives one focus area, its trimmed text, or none when it is
      blank. */
  lemma SingleFocusArea(text: string)
    requires ',' !in text
    ensures Trim(text) != "" ==> FocusAreas(text) == [Trim(text)]
    ensures Trim(text) == "" ==> FocusAreas(text) == []
  {
    SplitWithoutSeparator(text, ',');
    var trimmed := TrimAll(Split(text, ','));
    assert trimmed == [Trim(text)];
    assert trimmed[1..] == [];
  }

  /** The form's state and its handlers. */
  class QuizGeneratorForm {
    var form: QuizForm

    constructor(language: Language)
      ensures form == InitialForm(language)
    {
      form := InitialForm(language);
    }

    /** `handleChapterToggle`. */
    method ToggleChapter(chapterId: string)
      modifies this
      ensures form == old(form).(chapterIds := Some(Toggle(old(form).chapterIds.GetOr([]), chapterId)))
    {
      var current := form.chapterIds.GetOr([]);
      var updated := Toggle(current, chapterId);
      form := form.(chapterIds := Some(updated));
    }

    /** `handleQuestionTypeToggle`. */
    method ToggleQuestionType(questionType: QuestionType)
      modifies this
      ensures form == old(form).(questionTypes := Some(Toggle(old(form).questionTypes.GetOr([]), questionType)))
    {
      var current := form.questionTypes.GetOr([]);
      var updated := Toggle(current, questionType);
      form := form.(questionTypes := Some(updated));
    }

    /** The focus-area field's `onChange`. */
    method SetFocusAreas(text: string)
      modifies this
      ensures form == old(form).(focusAreas := Some(FocusAreas(text)))
    {
      form := form.(focusAreas := Some(FocusAreas(text)));
    }
  }

  /** Toggling a chapter off and on again, or on and off again, leaves the other chosen
      chapters as they were and in order. */
  lemma ChapterToggleKeepsOthers(form: QuizForm, chapterId: string)
    ensures Without(Toggle(form.chapterIds.GetOr([]), chapterId), chapterId) == Without(form.chapterIds.GetOr([]), chapterId)
    ensures chapterId !in form.chapterIds.GetOr([]) ==>
      Toggle(Toggle(form.chapterIds.GetOr([]), chapterId), chapterId) == form.chapterIds.GetOr([])
  {
    ToggleKeepsOthers(form.chapterIds.GetOr([]), chapterId);
    if chapterId !in form.chapterIds.GetOr([]) {
      ToggleTwice(form.chapterIds.GetOr([]), chapterId);
    }
  }
}
