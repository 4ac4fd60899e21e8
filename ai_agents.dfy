/** The quiz agent: building the context prompt from the curriculum and past-paper
    stores, the quiz prompt with its per-type distribution, the post-processing of the
    model's reply (JSON span, totals, error wrapping), and the study-plan arithmetic.
    The completion call and `JSON.parse` are parameters of the model. */
module AiAgents {
  import opened Wrappers
  import opened Domain
  import opened Text
  import opened Seqs
  import opened JsMath
  import opened Curriculum
  import opened PastPapers

  datatype QuizRequest = QuizRequest(
    subject: Subject,
    board: Board,
    grade: Grade,
    chapterIds: seq<string>,
    questionCount: int,
    questionTypes: seq<QuestionType>,
    difficulty: Difficulty,
    language: Language,
    includeFormulas: Option<bool>,
    focusAreas: Option<seq<string>>)

  datatype GeneratedQuestion = GeneratedQuestion(
    id: string,
    questionType: QuestionType,
    questionText: string,
    questionTextUrdu: Option<string>,
    options: Option<McqOptions>,
    correctAnswer: Option<string>,
    solution: string,
    solutionUrdu: Option<string>,
    marks: real,
    difficulty: Difficulty,
    chapterId: string,
    topic: string,
    learningObjective: string)

  datatype QuizMetadata = QuizMetadata(
    subject: Subject, board: Board, grade: Grade, chapters: seq<string>, generatedAt: int)

  datatype QuizResponse = QuizResponse(
    questions: seq<GeneratedQuestion>, totalMarks: real, estimatedTime: int, metadata: QuizMetadata)

  /** What the completion call gives back: it throws (with an `Error` message, or a
      non-`Error` value when None), or it returns the first choice's content, possibly null. */
  datatype ModelReply = Threw(message: Option<string>) | Replied(content: Option<string>)

  /** What `JSON.parse` of the span followed by reading its `questions` array gives: the
      question records, or the message of the exception thrown on the way. */
  datatype ParseOutcome = Parsed(questions: seq<GeneratedQuestion>) | ParseError(message: string)

  // ---------------------------------------------------------------------------------
  // Pieces of text

  /** Concatenation of text chunks, the last chunk appended last. */
  function Concat(xs: seq<string>): string
    decreases |xs|
  {
    if xs == [] then "" else Concat(xs[..|xs| - 1]) + xs[|xs| - 1]
  }

  /** A JavaScript string is truthy when it is present and not empty. */
  predicate Truthy(s: Option<string>) {
    s.Some? && s.value != ""
  }

  function CurriculumNotFound(subject: Subject, grade: Grade, board: Board): string {
    "Curriculum not found for " + subject.Name() + " " + grade.Name() + " " + board.Name()
  }

  function Preamble(req: QuizRequest): string {
    "You are an expert " + req.subject.Name() + " teacher for " + req.grade.Name() + " grade "
      + req.board.Name() + " Board in Pakistan.\n\n"
      + "CURRICULUM CONTEXT:\n"
      + "Subject: " + req.subject.Name() + "\n"
      + "Board: " + req.board.Name() + "\n"
      + "Grade: " + req.grade.Name() + "\n\n"
  }

  function ExamPatternHeader(p: ExamPattern): string {
    "EXAM PATTERN:\n"
      + "Total Marks: " + IntToString(p.totalMarks) + "\n"
      + "Time Limit: " + IntToString(p.timeLimit) + " minutes\n"
      + "Sections:\n"
  }

  function SectionLine(s: ExamSection): string {
    "- " + s.name + ": " + IntToString(s.marks) + " marks (" + Join(s.questionTypes, ", ") + ")\n"
  }

  function SectionsText(sections: seq<ExamSection>): string
    decreases |sections|
  {
    if sections == [] then ""
    else SectionsText(sections[..|sections| - 1]) + SectionLine(sections[|sections| - 1])
  }

  const ChaptersHeader: string := "\nCHAPTERS TO FOCUS ON:\n"

  const UrduLabel: string := "اردو: "

  function HeadingLine(ch: ChapterInfo): string {
    "Chapter " + IntToString(ch.number) + ": " + ch.title + "\n"
  }

  function UrduTitleLine(title: string): string {
    UrduLabel + title + "\n"
  }

  function TopicsLine(ch: ChapterInfo): string {
    "Topics: " + Join(ch.topics, ", ") + "\n"
  }

  function FormulasLine(formulas: seq<string>): string {
    "Key Formulas: " + Join(formulas, ", ") + "\n"
  }

  function ConceptsLine(ch: ChapterInfo): string {
    "Important Concepts: " + Join(ch.importantConcepts, ", ") + "\n"
  }

  function ObjectivesLine(ch: ChapterInfo): string {
    "Learning Objectives: " + Join(ch.learningObjectives, ", ") + "\n\n"
  }

  predicate ShowsUrduTitle(lang: Language, ch: ChapterInfo) {
    lang == Language.Urdu && Truthy(ch.titleUrdu)
  }

  predicate HasFormulas(ch: ChapterInfo) {
    ch.keyFormulas.Some? && |ch.keyFormulas.value| > 0
  }

  /** The chunks one chapter contributes to the prompt, in order. */
  function ChapterLines(lang: Language, ch: ChapterInfo): seq<string> {
    [HeadingLine(ch)]
      + (if ShowsUrduTitle(lang, ch) then [UrduTitleLine(ch.titleUrdu.value)] else [])
      + [TopicsLine(ch)]
      + (if HasFormulas(ch) then [FormulasLine(ch.keyFormulas.value)] else [])
      + [ConceptsLine(ch)]
      + [ObjectivesLine(ch)]
  }

  function ChaptersText(lang: Language, chapters: seq<ChapterInfo>): string
    decreases |chapters|
  {
    if chapters == [] then ""
    else ChaptersText(lang, chapters[..|chapters| - 1]) + Concat(ChapterLines(lang, chapters[|chapters| - 1]))
  }

  /** `pastPapers.filter(q => q.type === t).length`. */
  function CountType(papers: seq<PastPaperQuestion>, t: QuestionType): nat {
    |Filter(papers, (q: PastPaperQuestion) => q.questionType == t)|
  }

  function AnalysisText(papers: seq<PastPaperQuestion>): string {
    "PAST PAPER ANALYSIS:\n"
      + "Based on " + NatToString(|papers|) + " past paper questions from recent years:\n"
      + "- MCQ Questions: " + NatToString(CountType(papers, MCQ)) + "\n"
      + "- Short Answer Questions: " + NatToString(CountType(papers, ShortAnswer)) + "\n"
      + "- Long Answer Questions: " + NatToString(CountType(papers, LongAnswer)) + "\n"
      + "- Numerical Problems: " + NatToString(CountType(papers, Numerical)) + "\n\n"
  }

  const SamplesHeader: string := "SAMPLE PAST PAPER QUESTIONS (for style reference):\n"

  function SampleHeading(index: nat, q: PastPaperQuestion): string {
    NatToString(index + 1) + ". [" + IntToString(q.year) + " - " + q.questionType.Name() + "] "
      + q.questionText + "\n"
  }

  function OptionsLine(o: McqOptions): string {
    "   a) " + o.a + " b) " + o.b + " c) " + o.c + " d) " + o.d + "\n"
  }

  function SolutionLine(solution: string): string {
    "   Solution: " + solution + "\n"
  }

  /** The chunks the sample at position `index` contributes, in order. */
  function SampleLines(index: nat, q: PastPaperQuestion): seq<string> {
    [SampleHeading(index, q)]
      + (if q.options.Some? then [OptionsLine(q.options.value)] else [])
      + (if Truthy(q.solution) then [SolutionLine(q.solution.value)] else [])
      + ["\n"]
  }

  function SamplesText(samples: seq<PastPaperQuestion>): string
    decreases |samples|
  {
    if samples == [] then ""
    else SamplesText(samples[..|samples| - 1]) + Concat(SampleLines(|samples| - 1, samples[|samples| - 1]))
  }

  /** `pastPapers.slice(0, 3)`: the first three questions, or all of them when fewer. */
  function Samples(papers: seq<PastPaperQuestion>): (r: seq<PastPaperQuestion>)
    ensures |r| == if |papers| < 3 then |papers| else 3
    ensures r == papers[..|r|]
  {
    if |papers| < 3 then papers else papers[..3]
  }

  lemma ConcatSnoc(xs: seq<string>, x: string)
    ensures Concat(xs + [x]) == Concat(xs) + x
  {
    assert (xs + [x])[..|xs|] == xs;
  }

  /** One more chunk after `context + Concat(emitted)`. */
  lemma AppendChunk(context: string, emitted: seq<string>, x: string)
    ensures context + Concat(emitted) + x == context + Concat(emitted + [x])
  {
    ConcatSnoc(emitted, x);
    AppendAssoc(context, Concat(emitted), x);
  }

  lemma SectionsTextSnoc(s: seq<ExamSection>, j: nat)
    requires j < |s|
    ensures SectionsText(s[..j + 1]) == SectionsText(s[..j]) + SectionLine(s[j])
  {
    assert s[..j + 1][..j] == s[..j];
  }

  lemma ChaptersTextSnoc(lang: Language, s: seq<ChapterInfo>, j: nat)
    requires j < |s|
    ensures ChaptersText(lang, s[..j + 1]) == ChaptersText(lang, s[..j]) + Concat(ChapterLines(lang, s[j]))
  {
    assert s[..j + 1][..j] == s[..j];
  }

  lemma SamplesTextSnoc(s: seq<PastPaperQuestion>, j: nat)
    requires j < |s|
    ensures SamplesText(s[..j + 1]) == SamplesText(s[..j]) + Concat(SampleLines(j, s[j]))
  {
    assert s[..j + 1][..j] == s[..j];
  }

  function SamplesSection(papers: seq<PastPaperQuestion>): string {
    if |papers| > 0 then SamplesHeader + SamplesText(Samples(papers)) else ""
  }

  // ---------------------------------------------------------------------------------
  // The context prompt

  /** What one requested id contributes: its chapter when it resolves, nothing otherwise. */
  function Resolved(db: seq<SubjectCurriculum>, id: string): seq<ChapterInfo> {
    match ChapterLookup(db, id)
    case Some(ch) => [ch]
    case None => []
  }

  /** `request.chapterIds.map(id => getChapterById(id)).filter(Boolean)`. */
  function ResolvedChapters(db: seq<SubjectCurriculum>, ids: seq<string>): (r: seq<ChapterInfo>)
    ensures |r| <= |ids|
    decreases |ids|
  {
    if ids == [] then [] else ResolvedChapters(db, ids[..|ids| - 1]) + Resolved(db, ids[|ids| - 1])
  }

  /** `ch` is what looking up one of `ids` finds. */
  ghost predicate LookedUp(db: seq<SubjectCurriculum>, ids: seq<string>, ch: ChapterInfo) {
    exists j :: 0 <= j < |ids| && ChapterLookup(db, ids[j]) == Some(ch)
  }

  /** Every prompt chapter is the lookup result of one of the requested ids, and so has
      one of the requested ids. */
  lemma ResolvedChaptersSound(db: seq<SubjectCurriculum>, ids: seq<string>)
    ensures forall k :: 0 <= k < |ResolvedChapters(db, ids)| ==> LookedUp(db, ids, ResolvedChapters(db, ids)[k])
    ensures forall k :: 0 <= k < |ResolvedChapters(db, ids)| ==> ResolvedChapters(db, ids)[k].id in ids
  {
    ResolvedChaptersLookedUp(db, ids);
    var r := ResolvedChapters(db, ids);
    forall k | 0 <= k < |r| ensures r[k].id in ids {
      var j :| 0 <= j < |ids| && ChapterLookup(db, ids[j]) == Some(r[k]);
    }
  }

  lemma {:induction false} ResolvedChaptersLookedUp(db: seq<SubjectCurriculum>, ids: seq<string>)
    ensures forall k :: 0 <= k < |ResolvedChapters(db, ids)| ==> LookedUp(db, ids, ResolvedChapters(db, ids)[k])
    decreases |ids|
  {
    if ids != [] {
      var init := ids[..|ids| - 1];
      var last := ids[|ids| - 1];
      ResolvedChaptersLookedUp(db, init);
      var rest := ResolvedChapters(db, init);
      var r := ResolvedChapters(db, ids);
      assert r == rest + Resolved(db, last);
      forall k | 0 <= k < |r| ensures LookedUp(db, ids, r[k]) {
        if k < |rest| {
          assert r[k] == rest[k];
          var j :| 0 <= j < |init| && ChapterLookup(db, init[j]) == Some(rest[k]);
          assert ids[j] == init[j];
        } else {
          assert Resolved(db, last) == [r[k]];
          assert ChapterLookup(db, ids[|ids| - 1]) == Some(r[k]);
        }
      }
    }
  }

  /** Every requested id that resolves contributes its chapter. */
  lemma {:induction false} ResolvedChaptersComplete(db: seq<SubjectCurriculum>, ids: seq<string>)
    ensures forall j :: 0 <= j < |ids| && ChapterLookup(db, ids[j]).Some? ==>
      ChapterLookup(db, ids[j]).value in ResolvedChapters(db, ids)
    decreases |ids|
  {
    if ids != [] {
      var init := ids[..|ids| - 1];
      var last := ids[|ids| - 1];
      ResolvedChaptersComplete(db, init);
      var rest := ResolvedChapters(db, init);
      var r := ResolvedChapters(db, ids);
      assert r == rest + Resolved(db, last);
      forall j | 0 <= j < |ids| && ChapterLookup(db, ids[j]).Some?
        ensures ChapterLookup(db, ids[j]).value in r
      {
        if j < |ids| - 1 {
          assert ids[j] == init[j];
        } else {
          assert r[|r| - 1] == ChapterLookup(db, last).value;
        }
      }
    }
  }

  /** The context prompt `buildContextPrompt` produces, or its "not found" error. */
  function ContextPrompt(curricula: seq<SubjectCurriculum>, papersDb: seq<PastPaperQuestion>,
                         req: QuizRequest): (r: Result<string>)
    ensures r.Failure? <==> GetCurriculum(curricula, req.subject, req.board, req.grade).None?
    ensures r.Failure? ==> r.error == CurriculumNotFound(req.subject, req.grade, req.board)
  {
    match GetCurriculum(curricula, req.subject, req.board, req.grade)
    case None => Failure(CurriculumNotFound(req.subject, req.grade, req.board))
    case Some(cur) =>
      var papers := GetPastPapers(papersDb, req.subject, req.board, req.grade, Some(req.chapterIds));
      Success(Preamble(req)
        + ExamPatternHeader(cur.examPattern) + SectionsText(cur.examPattern.sections)
        + ChaptersHeader + ChaptersText(req.language, ResolvedChapters(curricula, req.chapterIds))
        + AnalysisText(papers)
        + SamplesSection(papers))
  }

  /** The chapter-resolving `map` and `filter`, as a loop over the requested ids. */
  method ResolveChapters(curricula: seq<SubjectCurriculum>, ids: seq<string>) returns (chapters: seq<ChapterInfo>)
    ensures chapters == ResolvedChapters(curricula, ids)
  {
    chapters := [];
    var i := 0;
    while i < |ids|
      invariant 0 <= i <= |ids|
      invariant chapters == ResolvedChapters(curricula, ids[..i])
    {
      assert ids[..i + 1][..i] == ids[..i];
      assert ResolvedChapters(curricula, ids[..i + 1])
        == ResolvedChapters(curricula, ids[..i]) + Resolved(curricula, ids[i]);
      var chapter := GetChapterById(curricula, ids[i]);
      if chapter.Some? {
        chapters := chapters + [chapter.value];
      }
      assert chapters == ResolvedChapters(curricula, ids[..i]) + Resolved(curricula, ids[i]);
      i := i + 1;
    }
    assert ids[..|ids|] == ids;
  }

  /** The `forEach` over the exam sections. */
  method AppendSections(context: string, sections: seq<ExamSection>) returns (r: string)
    ensures r == context + SectionsText(sections)
  {
    r := context;
    var j := 0;
    while j < |sections|
      invariant 0 <= j <= |sections|
      invariant r == context + SectionsText(sections[..j])
    {
      SectionsTextSnoc(sections, j);
      var line := SectionLine(sections[j]);
      AppendAssoc(context, SectionsText(sections[..j]), line);
      r := r + line;
      j := j + 1;
    }
    assert sections[..|sections|] == sections;
  }

  /** The body of the `forEach` over the chapters. */
  method AppendChapter(context: string, lang: Language, ch: ChapterInfo) returns (r: string)
    ensures r == context + Concat(ChapterLines(lang, ch))
  {
    var line := HeadingLine(ch);
    ConcatSnoc([], line);
    r := context + line;
    ghost var emitted: seq<string> := [line];
    assert r == context + Concat(emitted);
    if lang == Language.Urdu && ch.titleUrdu.Some? && ch.titleUrdu.value != "" {
      line := UrduTitleLine(ch.titleUrdu.value);
      AppendChunk(context, emitted, line);
      r, emitted := r + line, emitted + [line];
      assert r == context + Concat(emitted);
    }
    assert emitted == [HeadingLine(ch)]
      + (if ShowsUrduTitle(lang, ch) then [UrduTitleLine(ch.titleUrdu.value)] else []);
    line := TopicsLine(ch);
    AppendChunk(context, emitted, line);
    r, emitted := r + line, emitted + [line];
    assert r == context + Concat(emitted);
    ghost var beforeFormulas := emitted;
    if ch.keyFormulas.Some? && |ch.keyFormulas.value| > 0 {
      line := FormulasLine(ch.keyFormulas.value);
      AppendChunk(context, emitted, line);
      r, emitted := r + line, emitted + [line];
      assert r == context + Concat(emitted);
    }
    assert emitted == beforeFormulas + (if HasFormulas(ch) then [FormulasLine(ch.keyFormulas.value)] else []);
    line := ConceptsLine(ch);
    AppendChunk(context, emitted, line);
    r, emitted := r + line, emitted + [line];
    assert r == context + Concat(emitted);
    line := ObjectivesLine(ch);
    AppendChunk(context, emitted, line);
    r, emitted := r + line, emitted + [line];
    assert r == context + Concat(emitted);
  }

  /** The `forEach` over the resolved chapters. */
  method AppendChapters(context: string, lang: Language, chapters: seq<ChapterInfo>) returns (r: string)
    ensures r == context + ChaptersText(lang, chapters)
  {
    r := context;
    var k := 0;
    while k < |chapters|
      invariant 0 <= k <= |chapters|
      invariant r == context + ChaptersText(lang, chapters[..k])
    {
      ghost var done := ChaptersText(lang, chapters[..k]);
      ghost var piece := Concat(ChapterLines(lang, chapters[k]));
      ChaptersTextSnoc(lang, chapters, k);
      AppendAssoc(context, done, piece);
      r := AppendChapter(r, lang, chapters[k]);
      assert r == context + (done + piece);
      k := k + 1;
    }
    assert chapters[..|chapters|] == chapters;
  }

  /** The body of the `forEach` over the samples. */
  method AppendSample(context: string, index: nat, paper: PastPaperQuestion) returns (r: string)
    ensures r == context + Concat(SampleLines(index, paper))
  {
    ghost var emitted: seq<string> := [];
    r := context;
    assert r == context + Concat(emitted);
    var line := SampleHeading(index, paper);
    AppendChunk(context, emitted, line);
    r, emitted := r + line, emitted + [line];
    assert r == context + Concat(emitted);
    if paper.options.Some? {
      line := OptionsLine(paper.options.value);
      AppendChunk(context, emitted, line);
      r, emitted := r + line, emitted + [line];
    assert r == context + Concat(emitted);
    }
    if paper.solution.Some? && paper.solution.value != "" {
      line := SolutionLine(paper.solution.value);
      AppendChunk(context, emitted, line);
      r, emitted := r + line, emitted + [line];
    assert r == context + Concat(emitted);
    }
    line := "\n";
    AppendChunk(context, emitted, line);
    r, emitted := r + line, emitted + [line];
    assert r == context + Concat(emitted);
    assert emitted == SampleLines(index, paper);
  }

  /** The sample section: nothing without past papers, otherwise the header and the
      `forEach` over the first three. */
  method AppendSamples(context: string, papers: seq<PastPaperQuestion>) returns (r: string)
    ensures r == context + SamplesSection(papers)
  {
    r := context;
    if |papers| > 0 {
      r := r + SamplesHeader;
      var head := r;
      var samples := Samples(papers);
      var n := 0;
      while n < |samples|
        invariant 0 <= n <= |samples|
        invariant r == head + SamplesText(samples[..n])
      {
        SamplesTextSnoc(samples, n);
        AppendAssoc(head, SamplesText(samples[..n]), Concat(SampleLines(n, samples[n])));
        r := AppendSample(r, n, samples[n]);
        n := n + 1;
      }
      assert samples[..|samples|] == samples;
      AppendAssoc(context, SamplesHeader, SamplesText(samples));
    }
  }

  /** `buildContextPrompt`: the prompt is accumulated with `+=` over the exam sections,
      the resolved chapters and the sample questions. */
  method BuildContextPrompt(curricula: seq<SubjectCurriculum>, papersDb: seq<PastPaperQuestion>,
                            req: QuizRequest) returns (r: Result<string>)
    ensures r == ContextPrompt(curricula, papersDb, req)
  {
    var curriculum := GetCurriculum(curricula, req.subject, req.board, req.grade);
    if curriculum.None? {
      return Failure(CurriculumNotFound(req.subject, req.grade, req.board));
    }
    var cur := curriculum.value;
    var chapters := ResolveChapters(curricula, req.chapterIds);
    var papers := GetPastPapers(papersDb, req.subject, req.board, req.grade, Some(req.chapterIds));
    var context := Preamble(req);
    context := context + ExamPatternHeader(cur.examPattern);
    context := AppendSections(context, cur.examPattern.sections);
    context := context + ChaptersHeader;
    context := AppendChapters(context, req.language, chapters);
    context := context + AnalysisText(papers);
    context := AppendSamples(context, papers);
    return Success(context);
  }

  // ---------------------------------------------------------------------------------
  // Properties of the context prompt

  lemma StartsWithHead(s: string, p: string)
    requires StartsWith(s, p) && |p| > 0
    ensures s[0] == p[0]
  {
    assert s[0] == s[..|p|][0];
  }

  /** A chapter contributes an Urdu title chunk exactly when the language is Urdu and the
      chapter has a non-empty Urdu title. */
  lemma UrduTitleShownIff(lang: Language, ch: ChapterInfo)
    ensures (exists k :: 0 <= k < |ChapterLines(lang, ch)| && StartsWith(ChapterLines(lang, ch)[k], UrduLabel))
      <==> ShowsUrduTitle(lang, ch)
  {
    var lines := ChapterLines(lang, ch);
    if ShowsUrduTitle(lang, ch) {
      assert lines[1] == UrduTitleLine(ch.titleUrdu.value);
      assert StartsWith(lines[1], UrduLabel);
    } else {
      NoUrduTitleChunk(lang, ch);
    }
  }

  /** Without an Urdu title, every chunk starts with a Latin capital, so none starts with
      the Urdu label. */
  lemma NoUrduTitleChunk(lang: Language, ch: ChapterInfo)
    requires !ShowsUrduTitle(lang, ch)
    ensures forall k :: 0 <= k < |ChapterLines(lang, ch)| ==> !StartsWith(ChapterLines(lang, ch)[k], UrduLabel)
  {
    var lines := ChapterLines(lang, ch);
    LineHeads(ch);
    var formulas := if HasFormulas(ch) then [FormulasLine(ch.keyFormulas.value)] else [];
    var first := [HeadingLine(ch), TopicsLine(ch)];
    var last := [ConceptsLine(ch), ObjectivesLine(ch)];
    assert lines == first + formulas + last;
    forall k | 0 <= k < |lines| ensures !StartsWith(lines[k], UrduLabel) {
      if k < 2 {
        assert lines[k] == first[k];
      } else if k < 2 + |formulas| {
        assert lines[k] == formulas[k - 2];
      } else {
        assert lines[k] == last[k - 2 - |formulas|];
      }
      if StartsWith(lines[k], UrduLabel) {
        StartsWithHead(lines[k], UrduLabel);
      }
    }
  }

  /** The first character of each chunk a chapter contributes, other than its Urdu title. */
  lemma LineHeads(ch: ChapterInfo)
    ensures HeadingLine(ch)[0] == 'C' && TopicsLine(ch)[0] == 'T' && ConceptsLine(ch)[0] == 'I'
      && ObjectivesLine(ch)[0] == 'L'
    ensures HasFormulas(ch) ==> FormulasLine(ch.keyFormulas.value)[0] == 'K'
  {
  }

  /** A chapter contributes a "Key Formulas" chunk exactly when it has a non-empty list
      of key formulas; the request's `includeFormulas` plays no part. */
  lemma FormulasShownIff(lang: Language, ch: ChapterInfo)
    ensures (exists k :: 0 <= k < |ChapterLines(lang, ch)| && StartsWith(ChapterLines(lang, ch)[k], "Key Formulas: "))
      <==> HasFormulas(ch)
  {
    var lines := ChapterLines(lang, ch);
    var formulasLabel := "Key Formulas: ";
    if HasFormulas(ch) {
      var k := if ShowsUrduTitle(lang, ch) then 3 else 2;
      assert lines[k] == FormulasLine(ch.keyFormulas.value);
      assert StartsWith(lines[k], formulasLabel);
    } else {
      forall k | 0 <= k < |lines| ensures !StartsWith(lines[k], formulasLabel) {
        assert lines[k][0] in "CاTIL";
        if StartsWith(lines[k], formulasLabel) {
          StartsWithHead(lines[k], formulasLabel);
        }
      }
    }
  }

  /** A sample contributes an options chunk exactly when the question has options, and a
      solution chunk exactly when it has a non-empty solution. */
  lemma SampleChunksIff(index: nat, q: PastPaperQuestion)
    ensures (exists k :: 0 <= k < |SampleLines(index, q)| && StartsWith(SampleLines(index, q)[k], "   a) "))
      <==> q.options.Some?
    ensures (exists k :: 0 <= k < |SampleLines(index, q)| && StartsWith(SampleLines(index, q)[k], "   Solution: "))
      <==> Truthy(q.solution)
  {
    var lines := SampleLines(index, q);
    var optionsLabel := "   a) ";
    var solutionLabel := "   Solution: ";
    var heading := SampleHeading(index, q);
    assert '0' <= heading[0] <= '9';
    DiffersAt(heading, optionsLabel, 0);
    DiffersAt(heading, solutionLabel, 0);
    DiffersAt("\n", optionsLabel, 0);
    DiffersAt("\n", solutionLabel, 0);
    if q.options.Some? {
      var o := OptionsLine(q.options.value);
      assert o[3] == 'a';
      DiffersAt(o, solutionLabel, 3);
      assert StartsWith(o, optionsLabel);
    }
    if Truthy(q.solution) {
      var sl := SolutionLine(q.solution.value);
      assert sl[3] == 'S';
      DiffersAt(sl, optionsLabel, 3);
      assert StartsWith(sl, solutionLabel);
    }
    match (q.options, Truthy(q.solution))
    case (Some(o), true) =>
      assert lines == [heading, OptionsLine(o), SolutionLine(q.solution.value), "\n"];
      assert StartsWith(lines[1], optionsLabel) && StartsWith(lines[2], solutionLabel);
    case (Some(o), false) =>
      assert lines == [heading, OptionsLine(o), "\n"];
      assert StartsWith(lines[1], optionsLabel);
    case (None, true) =>
      assert lines == [heading, SolutionLine(q.solution.value), "\n"];
      assert StartsWith(lines[1], solutionLabel);
    case (None, false) =>
      assert lines == [heading, "\n"];
  }

  /** A string that differs from `p` at a position of `p` does not start with `p`. */
  lemma DiffersAt(s: string, p: string, i: nat)
    requires i < |p| && (i >= |s| || s[i] != p[i])
    ensures !StartsWith(s, p)
  {
    if |p| <= |s| {
      assert s[..|p|][i] == s[i];
    }
  }

  lemma {:induction false} ResolvedChaptersGather(db: seq<SubjectCurriculum>, ids: seq<string>,
                                                   f: string -> seq<ChapterInfo>)
    requires forall id :: f(id) == Resolved(db, id)
    ensures ResolvedChapters(db, ids) == Gather(ids, f)
    decreases |ids|
  {
    if ids != [] {
      ResolvedChaptersGather(db, ids[..|ids| - 1], f);
    }
  }

  lemma ResolvedChaptersConcat(db: seq<SubjectCurriculum>, a: seq<string>, b: seq<string>)
    ensures ResolvedChapters(db, a + b) == ResolvedChapters(db, a) + ResolvedChapters(db, b)
  {
    var f := (id: string) => Resolved(db, id);
    ResolvedChaptersGather(db, a + b, f);
    ResolvedChaptersGather(db, a, f);
    ResolvedChaptersGather(db, b, f);
    GatherConcat(a, b, f);
  }

  /** The prompt's chapters follow the request's ids in order: each id that resolves
      contributes its chapter, and an id that does not is dropped. */
  lemma ResolvedChaptersInRequestOrder(db: seq<SubjectCurriculum>, ids: seq<string>, id: string)
    ensures ResolvedChapters(db, ids + [id]) == ResolvedChapters(db, ids) + Resolved(db, id)
    ensures ResolvedChapters(db, [id] + ids) == Resolved(db, id) + ResolvedChapters(db, ids)
  {
    ResolvedSingle(db, id);
    ResolvedChaptersConcat(db, ids, [id]);
    ResolvedChaptersConcat(db, [id], ids);
  }

  lemma ResolvedSingle(db: seq<SubjectCurriculum>, id: string)
    ensures ResolvedChapters(db, [id]) == Resolved(db, id)
  {
    var one := [id];
    assert one[..0] == [];
    assert ResolvedChapters(db, one) == ResolvedChapters(db, []) + Resolved(db, id);
  }

  lemma CountTypeCons(papers: seq<PastPaperQuestion>, t: QuestionType)
    requires papers != []
    ensures CountType(papers, t) == (if papers[0].questionType == t then 1 else 0) + CountType(papers[1..], t)
  {
    var f := (q: PastPaperQuestion) => q.questionType == t;
    assert Filter(papers, f) == (if f(papers[0]) then [papers[0]] else []) + Filter(papers[1..], f);
  }

  /** The four type counts of the analysis add up to the number of past papers found,
      because a question has exactly one of the four types. */
  lemma {:induction false} TypeCountsSum(papers: seq<PastPaperQuestion>)
    ensures CountType(papers, MCQ) + CountType(papers, ShortAnswer)
      + CountType(papers, LongAnswer) + CountType(papers, Numerical) == |papers|
    decreases |papers|
  {
    if papers != [] {
      TypeCountsSum(papers[1..]);
      CountTypeCons(papers, MCQ);
      CountTypeCons(papers, ShortAnswer);
      CountTypeCons(papers, LongAnswer);
      CountTypeCons(papers, Numerical);
    }
  }

  /** The context prompt does not read `includeFormulas` or `focusAreas`. */
  lemma ContextIgnoresFormulaFlag(curricula: seq<SubjectCurriculum>, papersDb: seq<PastPaperQuestion>,
                                  req: QuizRequest, flag: Option<bool>, areas: Option<seq<string>>)
    ensures ContextPrompt(curricula, papersDb, req.(includeFormulas := flag, focusAreas := areas))
      == ContextPrompt(curricula, papersDb, req)
    ensures QuizPrompt("", req.(includeFormulas := flag, focusAreas := areas)) == QuizPrompt("", req)
  {
  }

  // ---------------------------------------------------------------------------------
  // The quiz prompt

  /** `Math.ceil(questionCount / questionTypes.length)`: the least count per type that
      covers the requested number of questions. */
  function PerTypeCount(questionCount: int, types: nat): (c: int)
    requires types > 0
    ensures c * types >= questionCount
    ensures (c - 1) * types < questionCount
  {
    CeilOfQuotient(questionCount, types);
    Ceil(questionCount as real / types as real)
  }

  function DistributionLine(t: QuestionType, c: int): string {
    "- " + t.Name() + ": " + IntToString(c) + " questions"
  }

  /** One distribution line per requested type, in the requested order, each with the
      same per-type count. */
  function DistributionLines(questionCount: int, types: seq<QuestionType>): (r: seq<string>)
    ensures |r| == |types|
    ensures forall k :: 0 <= k < |r| ==> r[k] == DistributionLine(types[k], PerTypeCount(questionCount, |types|))
  {
    seq(|types|, k requires 0 <= k < |types| => DistributionLine(types[k], PerTypeCount(questionCount, |types|)))
  }

  function TypeNames(types: seq<QuestionType>): (r: seq<string>)
    ensures |r| == |types| && forall k :: 0 <= k < |r| ==> r[k] == types[k].Name()
  {
    seq(|types|, k requires 0 <= k < |types| => types[k].Name())
  }

  const OutputFormat: string :=
    "OUTPUT FORMAT (JSON):\n"
    + "{\n"
    + "  \"questions\": [\n"
    + "    {\n"
    + "      \"id\": \"unique_id\",\n"
    + "      \"type\": \"MCQ|Short Answer|Long Answer|Numerical\",\n"
    + "      \"questionText\": \"Question in English\",\n"
    + "      \"questionTextUrdu\": \"Question in Urdu (if language is urdu)\",\n"
    + "      \"options\": {\"a\": \"option1\", \"b\": \"option2\", \"c\": \"option3\", \"d\": \"option4\"} // only for MCQ,\n"
    + "      \"correctAnswer\": \"a|b|c|d\", // only for MCQ\n"
    + "      \"solution\": \"Detailed solution in English\",\n"
    + "      \"solutionUrdu\": \"Detailed solution in Urdu (if language is urdu)\",\n"
    + "      \"marks\": number,\n"
    + "      \"difficulty\": \"easy|medium|hard\",\n"
    + "      \"chapterId\": \"chapter_id\",\n"
    + "      \"topic\": \"specific topic\",\n"
    + "      \"learningObjective\": \"what this question tests\"\n"
    + "    }\n"
    + "  ]\n"
    + "}\n"

  const Closing: string :=
    "Generate questions that are:\n"
    + "1. Aligned with the official curriculum\n"
    + "2. Similar in style to past papers\n"
    + "3. Appropriate for the difficulty level\n"
    + "4. Educationally valuable\n"
    + "5. Clear and unambiguous\n"
    + "\n"
    + "Start generating now:"

  /** The prompt `generateQuiz` sends: the context, the requirements, the distribution,
      the output format and the closing instructions. */
  function QuizPrompt(context: string, req: QuizRequest): string {
    context + QuizTaskOpening + IntToString(req.questionCount) + QuizTaskClosing
      + Join(TypeNames(req.questionTypes), ", ") + "\n"
      + "- Difficulty Level: " + req.difficulty.Name() + "\n"
      + "- Language: " + req.language.Name() + "\n"
      + "- Must align with " + req.board.Name() + QuizGuidance
      + Join(DistributionLines(req.questionCount, req.questionTypes), "\n") + "\n"
      + "\n"
      + OutputFormat
      + "\n"
      + Closing
  }

  const QuizTaskOpening: string := "\n\nTASK: Generate "

  const QuizTaskClosing: string :=
    " high-quality exam questions based on the above curriculum and past paper patterns.\n"
    + "\n"
    + "REQUIREMENTS:\n"
    + "- Question Types: "

  const QuizGuidance: string :=
    " Board exam patterns\n"
    + "- Include proper solutions and explanations\n"
    + "- For MCQs, provide 4 options with one correct answer\n"
    + "- For numerical problems, include step-by-step solutions\n"
    + "- Questions should test understanding, not just memorization\n"
    + "\n"
    + "DISTRIBUTION:\n"

  // ---------------------------------------------------------------------------------
  // Post-processing of the reply

  /** The first position of `c` in `s`. */
  function IndexOf(s: string, c: char): (r: Option<nat>)
    ensures r.None? <==> c !in s
    ensures r.Some? ==> r.value < |s| && s[r.value] == c && c !in s[..r.value]
    decreases |s|
  {
    if s == [] then None
    else if s[0] == c then Some(0)
    else
      match IndexOf(s[1..], c)
      case None => None
      case Some(i) =>
        assert s[..i + 1] == [s[0]] + s[1..][..i];
        Some(i + 1)
  }

  /** The last position of `c` in `s`. */
  function LastIndexOf(s: string, c: char): (r: Option<nat>)
    ensures r.None? <==> c !in s
    ensures r.Some? ==> r.value < |s| && s[r.value] == c && c !in s[r.value + 1..]
    decreases |s|
  {
    if s == [] then None
    else if s[|s| - 1] == c then Some(|s| - 1)
    else
      var r := LastIndexOf(s[..|s| - 1], c);
      if r.Some? then
        assert s[r.value + 1..] == s[..|s| - 1][r.value + 1..] + [s[|s| - 1]];
        r
      else r
  }

  /** Some opening brace comes before some closing brace. */
  predicate BracesInOrder(s: string) {
    exists i, j :: 0 <= i < j < |s| && s[i] == '{' && s[j] == '}'
  }

  /** `s.match(/\{[\s\S]*\}/)`: the greedy match runs from the first `{` to the last `}`;
      there is no match unless some `{` comes before some `}`. Braces are not balanced. */
  function JsonSpan(s: string): (r: Option<string>)
    ensures r.Some? <==> BracesInOrder(s)
    ensures r.Some? ==> |r.value| >= 2 && r.value[0] == '{' && r.value[|r.value| - 1] == '}'
    ensures r.Some? ==> exists i :: (0 <= i && i + |r.value| <= |s| && r.value == s[i..i + |r.value|]
      && '{' !in s[..i] && '}' !in s[i + |r.value|..])
  {
    match (IndexOf(s, '{'), LastIndexOf(s, '}'))
    case (Some(i), Some(j)) =>
      if i < j then
        assert s[i..j + 1][j - i] == s[j];
        assert s[i..i + |s[i..j + 1]|] == s[i..j + 1];
        Some(s[i..j + 1])
      else
        assert forall a :: 0 <= a < i ==> s[a] != '{' by {
          forall a | 0 <= a < i ensures s[a] != '{' {
            assert s[..i][a] == s[a];
          }
        }
        assert forall b :: j < b < |s| ==> s[b] != '}' by {
          forall b | j < b < |s| ensures s[b] != '}' {
            assert s[j + 1..][b - j - 1] == s[b];
          }
        }
        None
    case (None, _) =>
      None
    case (_, None) =>
      None
  }

  function SumMarks(qs: seq<GeneratedQuestion>): real
    decreases |qs|
  {
    if qs == [] then 0.0 else SumMarks(qs[..|qs| - 1]) + qs[|qs| - 1].marks
  }

  const FailurePrefix: string := "Failed to generate quiz: "

  /** What `generateQuiz` makes of the completion reply: the result record, or the
      error rethrown with the "Failed to generate quiz: " prefix. */
  function QuizOutcome(reply: ModelReply, parse: string -> ParseOutcome, req: QuizRequest, now: int)
    : (r: Result<QuizResponse>)
    ensures r.Failure? ==> StartsWith(r.error, FailurePrefix)
    ensures reply.Threw? ==> r == Failure(FailurePrefix + reply.message.GetOr("Unknown error"))
    ensures reply.Replied? && !Truthy(reply.content) ==> r == Failure(FailurePrefix + "No response from OpenAI")
    ensures reply.Replied? && Truthy(reply.content) && !BracesInOrder(reply.content.value)
      ==> r == Failure(FailurePrefix + "Invalid JSON response from AI")
    ensures reply.Replied? && Truthy(reply.content) && BracesInOrder(reply.content.value) ==>
      match parse(JsonSpan(reply.content.value).value)
      case Parsed(questions) => r.Success? && r.value.questions == questions
      case ParseError(message) => r == Failure(FailurePrefix + message)
    ensures r.Success? ==> (reply.Replied? && Truthy(reply.content)
      && JsonSpan(reply.content.value).Some?
      && parse(JsonSpan(reply.content.value).value) == Parsed(r.value.questions))
    ensures r.Success? ==> (r.value.totalMarks == SumMarks(r.value.questions)
      && 2.0 * r.value.totalMarks <= r.value.estimatedTime as real < 2.0 * r.value.totalMarks + 1.0)
    ensures r.Success? ==>
      r.value.metadata == QuizMetadata(req.subject, req.board, req.grade, req.chapterIds, now)
  {
    match reply
    case Threw(message) =>
      Failure(FailurePrefix + (if message.Some? then message.value else "Unknown error"))
    case Replied(content) =>
      if !Truthy(content) then Failure(FailurePrefix + "No response from OpenAI")
      else
        match JsonSpan(content.value)
        case None => Failure(FailurePrefix + "Invalid JSON response from AI")
        case Some(span) =>
          match parse(span)
          case ParseError(message) => Failure(FailurePrefix + message)
          case Parsed(questions) =>
            var total := SumMarks(questions);
            Success(QuizResponse(questions, total, Ceil(total * 2.0),
              QuizMetadata(req.subject, req.board, req.grade, req.chapterIds, now)))
  }

  /** `generateQuiz`. The completion call and the JSON parser are parameters; `sent` is
      the prompt handed to the completion call, None when no call is made. */
  method GenerateQuiz(curricula: seq<SubjectCurriculum>, papersDb: seq<PastPaperQuestion>, req: QuizRequest,
                      complete: string -> ModelReply, parse: string -> ParseOutcome, now: int)
    returns (r: Result<QuizResponse>, sent: Option<string>)
    ensures GetCurriculum(curricula, req.subject, req.board, req.grade).None? ==>
      sent == None && r == Failure(FailurePrefix + CurriculumNotFound(req.subject, req.grade, req.board))
    ensures GetCurriculum(curricula, req.subject, req.board, req.grade).Some? ==>
      sent == Some(QuizPrompt(ContextPrompt(curricula, papersDb, req).value, req))
      && r == QuizOutcome(complete(sent.value), parse, req, now)
    ensures r.Failure? ==> StartsWith(r.error, FailurePrefix)
  {
    var context := BuildContextPrompt(curricula, papersDb, req);
    if context.Failure? {
      assert StartsWith(FailurePrefix + context.error, FailurePrefix);
      return Failure(FailurePrefix + context.error), None;
    }
    var prompt := QuizPrompt(context.value, req);
    var reply := complete(prompt);
    r := QuizOutcome(reply, parse, req, now);
    sent := Some(prompt);
  }

  /** Questions worth one mark each add up to one mark per question. */
  lemma {:induction false} SumMarksOfOnes(qs: seq<GeneratedQuestion>)
    requires forall k :: 0 <= k < |qs| ==> qs[k].marks == 1.0
    ensures SumMarks(qs) == |qs| as real
    decreases |qs|
  {
    if qs != [] {
      SumMarksOfOnes(qs[..|qs| - 1]);
    }
  }

  /** A reply whose JSON span parses to n one-mark questions gives a quiz of n marks and
      an estimated 2n minutes. */
  lemma OneMarkQuestions(content: string, qs: seq<GeneratedQuestion>, parse: string -> ParseOutcome,
                         req: QuizRequest, now: int)
    requires content != "" && BracesInOrder(content)
    requires parse(JsonSpan(content).value) == Parsed(qs)
    requires forall k :: 0 <= k < |qs| ==> qs[k].marks == 1.0
    ensures QuizOutcome(Replied(Some(content)), parse, req, now).Success?
    ensures QuizOutcome(Replied(Some(content)), parse, req, now).value.questions == qs
    ensures QuizOutcome(Replied(Some(content)), parse, req, now).value.totalMarks == |qs| as real
    ensures QuizOutcome(Replied(Some(content)), parse, req, now).value.estimatedTime == 2 * |qs|
  {
    SumMarksOfOnes(qs);
  }

  /** With whole-number marks the estimate is exactly two minutes per mark. */
  lemma WholeMarksTime(reply: ModelReply, parse: string -> ParseOutcome, req: QuizRequest, now: int, n: int)
    requires QuizOutcome(reply, parse, req, now).Success?
    requires QuizOutcome(reply, parse, req, now).value.totalMarks == n as real
    ensures QuizOutcome(reply, parse, req, now).value.estimatedTime == 2 * n
  {
  }

  // ---------------------------------------------------------------------------------
  // Study plan

  const MsPerWeek: int := 1000 * 60 * 60 * 24 * 7

  datatype StudyFigures = StudyFigures(weeksUntilExam: int, totalAvailableHours: int)

  /** The figures `generateStudyPlan` puts in its prompt: whole weeks until the exam,
      rounded up, and the hours they give at the weekly rate. */
  function StudyPlanFigures(curricula: seq<SubjectCurriculum>, subject: Subject, board: Board, grade: Grade,
                            examDate: int, now: int, weeklyHours: int): (r: Result<StudyFigures>)
    ensures r.Failure? <==> GetCurriculum(curricula, subject, board, grade).None?
    ensures r.Failure? ==> r.error == CurriculumNotFound(subject, grade, board)
    ensures r.Success? ==>
      (r.value.weeksUntilExam - 1) * MsPerWeek < examDate - now <= r.value.weeksUntilExam * MsPerWeek
    ensures r.Success? ==> r.value.totalAvailableHours == r.value.weeksUntilExam * weeklyHours
  {
    if GetCurriculum(curricula, subject, board, grade).None? then
      Failure(CurriculumNotFound(subject, grade, board))
    else
      var weeks := Ceil((examDate - now) as real / MsPerWeek as real);
      CeilOfQuotient(examDate - now, MsPerWeek);
      Success(StudyFigures(weeks, weeks * weeklyHours))
  }
}
