# Exam-preparation coach: a verified model of its core logic

The application is a study coach for Pakistani board exams. It is a set of React pages
over a hosted backend and an AI completion service. This project models in Dafny the
parts of it that hold logic of their own:

- **The quiz agent** (`src/services/aiAgents.ts`).
  - The context prompt, built from the curriculum store and the past-paper store: exam
    pattern, resolved chapters, past-paper type counts and at most three samples.
  - The quiz prompt, with one line per requested question type giving
    `ceil(count / types)`.
  - The post-processing of the model's reply: the greedy `{`…`}` span, the recomputed
    total marks and estimated time, and the "Failed to generate quiz: " error prefix.
  - The weeks and hours figures of the study plan.
- **The reference stores**: the curriculum store, the past-paper store and the HSC
  subject groups. Each has its lookups and its shipped data, with lemmas about that data.
- **Entitlements and pricing**: the feature and quota tables, the campaign discount and
  the active-campaign choice, and the pricing card's display rules.
- **The payment webhook**: a subscriptions table kept as a class over a map of rows,
  updated event by event.
- **Five UI state machines**, each a class whose methods are the page's handlers:
  - the onboarding wizard;
  - the quiz-generator form;
  - the flashcard deck;
  - the sign-in / sign-up page;
  - the mock tutor chat.

Side effects are parameters:
- the completion call is a function `string -> ModelReply`;
- `JSON.parse` of the span is a function `string -> ParseOutcome`;
- the current time is an integer of milliseconds;
- the authentication and profile services are their outcomes (`CallOutcome`, `saveOk`);
- the webhook's signature check is a `Result`, and a database write's success is a boolean.

Three points of the code that the model keeps as written:
- The JSON span is the greedy match of `/\{[\s\S]*\}/`. It runs from the first `{` to
  the last `}` of the reply, whatever lies between (`src/services/aiAgents.ts:207`).
  `AiAgents.JsonSpan` models that match.
- The parsed questions are not validated. There is no check of the required fields of a
  question or of an MCQ's answer key (`src/services/aiAgents.ts:212-229`). The questions
  pass through unchanged, and the only errors are the ones the code throws.
- `estimatedTime` is `Math.ceil(totalMarks * 2)`. `AiAgents.WholeMarksTime` shows that
  this is `2 * totalMarks` for a whole-number total.

Files: `wrappers.dfy` (Option, Result), `domain.dfy` (the string-union types of
`src/types`), `text.dfy`, `seqs.dfy` and `jsmath.dfy` (the JavaScript string, array and
`Math.ceil` built-ins used), then one file per source file.

## Model

| member | source | states |
|---|---|---|
| AiAgents.ContextPrompt | src/services/aiAgents.ts:54-129 | fails exactly when no curriculum matches (subject, board, grade), with the "Curriculum not found for …" message; otherwise the prompt is the preamble, exam pattern, chapters, analysis and samples |
| AiAgents.BuildContextPrompt | src/services/aiAgents.ts:54-129 | the string accumulated step by step through the section, chapter and sample loops equals `ContextPrompt` |
| AiAgents.ResolveChapters | src/services/aiAgents.ts:61 | the loop over the requested ids collects exactly `ResolvedChapters` |
| AiAgents.ResolvedChapters | src/services/aiAgents.ts:61 | at most one chapter per requested id |
| AiAgents.ResolvedChaptersSound | src/services/aiAgents.ts:61 | every resolved chapter is the lookup result of some requested id |
| AiAgents.ResolvedChaptersComplete | src/services/aiAgents.ts:61 | every requested id that resolves contributes its chapter |
| AiAgents.ResolvedChaptersConcat | src/services/aiAgents.ts:61 | resolving a concatenation of id lists concatenates the results |
| AiAgents.ResolvedChaptersInRequestOrder | src/services/aiAgents.ts:61 | chapters appear in request order, and an unknown id is dropped without a trace |
| AiAgents.AppendSections | src/services/aiAgents.ts:78-80 | the section loop appends exactly the section lines, in order |
| AiAgents.AppendChapter | src/services/aiAgents.ts:85-95 | appends exactly the chapter's lines |
| AiAgents.AppendChapters | src/services/aiAgents.ts:84-97 | the chapter loop appends the chapters' text in order |
| AiAgents.AppendSample | src/services/aiAgents.ts:117-124 | appends exactly one sample's lines |
| AiAgents.AppendSamples | src/services/aiAgents.ts:114-126 | appends the samples section: nothing without past papers, else the header and the first three samples |
| AiAgents.Samples | src/services/aiAgents.ts:116 | the samples are the first min(n, 3) past papers, in order |
| AiAgents.UrduTitleShownIff | src/services/aiAgents.ts:87-89 | the Urdu title line is present iff the language is Urdu and the chapter has a non-empty Urdu title |
| AiAgents.FormulasShownIff | src/services/aiAgents.ts:91-93 | the key-formulas line is present iff the chapter has a non-empty formula list; `includeFormulas` plays no part |
| AiAgents.SampleChunksIff | src/services/aiAgents.ts:118-123 | a sample has an options line iff it has options, and a solution line iff its solution is non-empty |
| AiAgents.TypeCountsSum | src/services/aiAgents.ts:100-111 | the four per-type counts add up to the number of past papers found |
| AiAgents.ContextIgnoresFormulaFlag | src/services/aiAgents.ts:54-183 | neither the context nor the quiz prompt depends on `includeFormulas` or `focusAreas` |
| AiAgents.PerTypeCount | src/services/aiAgents.ts:151 | c = ceil(count / types), so c·types ≥ count > (c−1)·types |
| AiAgents.DistributionLines | src/services/aiAgents.ts:150-153 | one distribution line per requested type, in order, each naming the type and the per-type count |
| AiAgents.TypeNames | src/services/aiAgents.ts:140 | the requested types' names, one per type, in order |
| AiAgents.IndexOf | src/services/aiAgents.ts:207 | the first position of a character, None iff it is absent |
| AiAgents.LastIndexOf | src/services/aiAgents.ts:207 | the last position of a character, None iff it is absent |
| AiAgents.JsonSpan | src/services/aiAgents.ts:207-210 | a span exists iff some `{` precedes some `}`; it is a slice of the reply that starts with `{` and ends with `}`, with no `{` before it and no `}` after it |
| AiAgents.QuizOutcome | src/services/aiAgents.ts:201-234 | every failure carries the prefix; a thrown error gives its message, or "Unknown error" without one; empty content gives "No response from OpenAI"; no span gives "Invalid JSON response from AI"; with a span, a parse error gives its message and parsed questions give a success holding those questions unchanged; a success has total marks equal to their sum, an estimated time in [2t, 2t+1), and the request's subject, board, grade and chapter ids |
| AiAgents.GenerateQuiz | src/services/aiAgents.ts:131-234 | without a curriculum no completion call is made and the prefixed "Curriculum not found" error is returned; otherwise exactly the quiz prompt is sent and the result is `QuizOutcome` of the reply |
| AiAgents.SumMarksOfOnes | src/services/aiAgents.ts:214 | questions worth one mark each total one mark per question |
| AiAgents.OneMarkQuestions | src/services/aiAgents.ts:200-216 | a reply whose JSON span parses to n one-mark questions succeeds with those questions, n marks and 2n minutes |
| AiAgents.WholeMarksTime | src/services/aiAgents.ts:216 | a whole-number total of n marks gives exactly 2n minutes |
| AiAgents.StudyPlanFigures | src/services/aiAgents.ts:245-251 | fails iff no curriculum matches; the weeks are the least whole number covering the time to the exam; the hours are weeks × weekly hours |
| Curriculum.GetCurriculum | src/data/curriculum/index.ts:199-203 | the result is for the requested (subject, board, grade), it is the first match in store order, and it is None iff nothing matches |
| Curriculum.FindChapter | src/data/curriculum/index.ts:207 | the first chapter of one curriculum with the id, None iff there is none |
| Curriculum.ChapterLookup | src/data/curriculum/index.ts:205-211 | a chapter with the requested id, the first one by curriculum and then chapter order, None iff no curriculum has it |
| Curriculum.GetChapterById | src/data/curriculum/index.ts:205-211 | the loop with its early return gives `ChapterLookup` |
| Curriculum.SingleCurriculum | src/data/curriculum/index.ts:199-203 | a one-entry store finds its entry exactly when it matches |
| Curriculum.ShippedCurriculumCoverage | src/data/curriculum/index.ts:194-203 | with the shipped store only (Physics, Punjab, 9th) resolves |
| Curriculum.ShippedExamMarksAddUp | src/data/curriculum/index.ts:170-189 | the shipped sections' marks 17 + 32 + 36 add up to the total of 85 |
| Curriculum.ShippedChapterIds | src/data/curriculum/index.ts:38-168 | three chapters numbered 1, 2, 3 in order, with the distinct ids phy9-ch1 to phy9-ch3 |
| Curriculum.ShippedChapterLookup | src/data/curriculum/index.ts:205-211 | each shipped chapter id resolves to its own chapter |
| PastPapers.GetPastPapers | src/data/pastPapers/index.ts:120-137 | a question is in the result iff it is in the store, is for the subject, board and grade, and, when a non-empty chapter list is given, shares a chapter with it; each selected question occurs as often as in the store |
| PastPapers.PastPapersSubsequence | src/data/pastPapers/index.ts:126-136 | the result is a subsequence of the store: order kept, nothing added |
| PastPapers.ChapterFilterNarrows | src/data/pastPapers/index.ts:130-134 | the chapter-filtered result is a subsequence of the unfiltered one, and an absent or empty chapter list filters nothing |
| PastPapers.GetQuestionsByType | src/data/pastPapers/index.ts:139-151 | exactly the store's questions for the subject, board, grade and type name, in store order and with their multiplicity |
| PastPapers.QuestionsByTypeAgree | src/data/pastPapers/index.ts:120-151 | for a type's own name, the by-type result holds exactly the unfiltered past papers of that type |
| PastPapers.QuestionsByUnknownType | src/data/pastPapers/index.ts:145-150 | a name that is no question type selects nothing |
| PastPapers.ShippedPastPapersWellFormed | src/data/pastPapers/index.ts:26-113 | every shipped MCQ's answer key is one of its option keys, and every frequency is within 1 to 5 |
| Subscription.CheckFeatureAccess | src/contexts/SubscriptionContext.tsx:145-156 | true iff the feature is listed for the current plan |
| Subscription.FreePlanFeatures | src/contexts/SubscriptionContext.tsx:147 | the free plan grants exactly basic_quizzes, limited_subjects and community_support |
| Subscription.PlanFeatureInclusions | src/contexts/SubscriptionContext.tsx:148-152 | premium yearly includes premium monthly, and enterprise includes institutional premium |
| Subscription.GetRemainingQuota | src/contexts/SubscriptionContext.tsx:158-169 | the table's value for a feature listed in the current plan's table, 0 for any other |
| Subscription.QuotaRange | src/contexts/SubscriptionContext.tsx:160-165 | every quota is -1 (unlimited) or non-negative, and the paid plans have unlimited subjects, quizzes and AI queries |
| Subscription.FreePlanQuotas | src/contexts/SubscriptionContext.tsx:160 | the free plan allows 2 subjects, 5 quizzes and 10 AI queries, and 0 of anything else |
| Subscription.FirstActive | src/contexts/SubscriptionContext.tsx:108 | the first active campaign in load order, None iff none is active |
| Subscription.GetDiscountedPrice | src/contexts/SubscriptionContext.tsx:171-178 | the original price unless a campaign applies to the plan, else p − p·pct/100 |
| Subscription.DiscountedPriceBounds | src/contexts/SubscriptionContext.tsx:176-177 | for p ≥ 0 and 0 ≤ pct ≤ 100 the price lies in [0, p]; 0 % gives p and 100 % gives 0 |
| PricingCard.HasDiscount | src/components/payment/PricingCard.tsx:22 | a discount shows iff the discounted price is present, non-zero and below the price |
| PricingCard.DisplayPrice | src/components/payment/PricingCard.tsx:23 | the discounted price unless it is absent or zero, else the plan price |
| PricingCard.DiscountShownIsDisplayed | src/components/payment/PricingCard.tsx:22-23 | a shown discount is the displayed price, and a displayed price below the list price means a discount shows |
| PricingCard.ButtonLabelFor | src/components/payment/PricingCard.tsx:25-36 | Current Plan for free, then Contact Sales for enterprise, then Processing while loading, else Get Started |
| PricingCard.ButtonText | src/components/payment/PricingCard.tsx:25-36 | "Current Plan" for the free plan, else "Contact Sales" for enterprise, else "Processing..." while loading, else "Get Started", each in English or its Urdu text |
| PricingCard.ButtonTextsDistinct | src/components/payment/PricingCard.tsx:27-35 | in each language the four labels have four different texts |
| PricingCard.ButtonStyle | src/components/payment/PricingCard.tsx:38-46 | grey for free, gradient for a popular plan, dark otherwise |
| PricingCard.ButtonDisabled | src/components/payment/PricingCard.tsx:125 | disabled iff loading or the plan is free |
| PricingCard.DisabledButtonLabels | src/components/payment/PricingCard.tsx:125 | a Processing or Current Plan button is disabled; a Get Started button is enabled |
| PricingCard.DiscountBadge | src/components/payment/PricingCard.tsx:63-69 | a discounted price of 0 renders a stray "0"; otherwise the badge shows iff a discount shows and a campaign exists, with the campaign's percentage |
| PricingCard.Strikethrough | src/components/payment/PricingCard.tsx:81-85 | a discounted price of 0 renders a stray "0"; otherwise the struck-through list price shows iff a discount shows |
| PricingCard.PriceText | src/components/payment/PricingCard.tsx:86-91 | enterprise shows "Custom" (or its Urdu text); any other plan shows the currency symbol and the displayed price |
| PricingCard.IntervalSuffix | src/components/payment/PricingCard.tsx:92-96 | no suffix for enterprise, else "/" and the interval in the card's language |
| PricingCard.EnterpriseCard | src/components/payment/PricingCard.tsx:87-96 | an enterprise card shows Custom, no interval and Contact Sales, and is disabled only while loading |
| SubjectGroups.FindGroup | src/utils/subjectGroups.ts:70 | the first group of the category, None iff there is none |
| SubjectGroups.SubjectsByCategory | src/utils/subjectGroups.ts:69-74 | the group's compulsory then elective subjects, [] for an unknown category |
| SubjectGroups.CompulsorySubjects | src/utils/subjectGroups.ts:76-79 | the group's compulsory subjects, [] for an unknown category |
| SubjectGroups.ElectiveSubjects | src/utils/subjectGroups.ts:81-84 | the group's elective subjects, [] for an unknown category |
| SubjectGroups.SubjectsAreCompulsoryThenElective | src/utils/subjectGroups.ts:69-84 | all subjects of a category are its compulsory subjects followed by its electives |
| SubjectGroups.MissingCategoryIsEmpty | src/utils/subjectGroups.ts:69-84 | a category without a group gives [] from all three lookups |
| SubjectGroups.UniqueGroupFound | src/utils/subjectGroups.ts:70 | with distinct categories the lookup finds the category's one group, wherever it sits |
| SubjectGroups.ShippedCategoriesUnique | src/utils/subjectGroups.ts:3-67 | the shipped groups have distinct categories, and each of the seven categories has a group |
| SubjectGroups.ShippedGroupsWellFormed | src/utils/subjectGroups.ts:5-63 | in every shipped group the compulsory and elective subjects together have no duplicates, and the compulsory list has the four core subjects |
| SubjectGroups.ShippedGroupsHaveCoreSubjects | src/utils/subjectGroups.ts:5-63 | every shipped group's compulsory list holds English, Urdu, Islamiat and Pakistan Studies |
| SubjectGroups.ShippedSubjectsByCategory | src/utils/subjectGroups.ts:69-79 | with the shipped groups every category's compulsory subjects include the four core subjects, and its full subject list has no duplicates |
| StripeWebhook.MapStatus | supabase/functions/stripe-webhook/index.ts:62-64 | canceled maps to cancelled, past_due to expired, anything else to active; never trial |
| StripeWebhook.PlannedWrite | supabase/functions/stripe-webhook/index.ts:35-120 | checkout, and only checkout, inserts; a paid invoice with a subscription but no line items throws; an unhandled event or an invoice without a subscription writes nothing; every update is stamped with now |
| StripeWebhook.UpdateWhere | supabase/functions/stripe-webhook/index.ts:66-73 | the same row keys; rows with the subscription id get the new status, end date (kept when none is given) and timestamp, and keep their user, plan, subscription id, customer id and start date; the other rows are unchanged |
| StripeWebhook.ResponseFor | supabase/functions/stripe-webhook/index.ts:10-126 | 400 with the error for a failed verification, 500 when the handler throws, else 200 `{received: true}` |
| StripeWebhook.SubscriptionsTable.constructor | supabase/functions/stripe-webhook/index.ts:42-51 | an empty table |
| StripeWebhook.SubscriptionsTable.Insert | supabase/functions/stripe-webhook/index.ts:42-51 | a successful insert adds one new row under a fresh key; a failed one changes nothing |
| StripeWebhook.SubscriptionsTable.UpdateMatching | supabase/functions/stripe-webhook/index.ts:66-73 | a successful update applies `UpdateWhere`; a failed one changes nothing |
| StripeWebhook.SubscriptionsTable.HandleWebhook | supabase/functions/stripe-webhook/index.ts:10-126 | the response is `ResponseFor`; a failed verification leaves the table unchanged; otherwise the table is `AfterWrite` of the planned write |
| StripeWebhook.NoWriteLeavesTable | supabase/functions/stripe-webhook/index.ts:118-125 | an unhandled event, an invoice without a subscription or a failed write leaves the table as it was; the response is 200, except 500 for a paid invoice of a subscription whose payload has no lines |
| StripeWebhook.CheckoutAddsActiveRow | supabase/functions/stripe-webhook/index.ts:36-56 | checkout adds one active row under a fresh key with the session's user, plan and subscription id and an end date 30 days after its start, keeping every old row |
| StripeWebhook.SubscriptionChangeUpdatesMatching | supabase/functions/stripe-webhook/index.ts:58-78 | a subscription update or deletion gives matching rows the mapped status and the period end in ms, and leaves other rows alone |
| StripeWebhook.InvoiceUpdatesMatching | supabase/functions/stripe-webhook/index.ts:80-116 | a paid invoice makes matching rows active with the first line's period end; a failed one makes them expired and keeps their end date |
| StripeWebhook.WrittenStatusesInRange | supabase/functions/stripe-webhook/index.ts:35-116 | the webhook never writes the trial status |
| QuizGenerator.GenerateDisabled | src/components/quiz/AIQuizGenerator.tsx:241 | disabled iff loading, or no chapter is chosen, or no question type is chosen |
| QuizGenerator.BuildRequest | src/components/quiz/AIQuizGenerator.tsx:32-48 | None iff no chapter is chosen; otherwise the form's values, with 10 for a missing or zero count, [MCQ] only for missing types, medium and English for missing fields |
| QuizGenerator.EnabledButtonBuildsRequest | src/components/quiz/AIQuizGenerator.tsx:241 | an enabled button always builds a request with at least one chapter and one type |
| QuizGenerator.InitialFormRequest | src/components/quiz/AIQuizGenerator.tsx:18-48 | the initial form cannot generate; with one chapter it asks for ten medium MCQs in the interface language, with formulas and no focus areas |
| QuizGenerator.TrimAll | src/components/quiz/AIQuizGenerator.tsx:230 | each piece trimmed, in order |
| QuizGenerator.FocusAreas | src/components/quiz/AIQuizGenerator.tsx:228-231 | exactly the non-empty trimmed comma-separated pieces, in order and each as often as it occurs; each is trimmed and comma-free |
| QuizGenerator.SingleFocusArea | src/components/quiz/AIQuizGenerator.tsx:230 | text without commas gives its trimmed text as the one area, or none when blank |
| QuizGenerator.QuizGeneratorForm.constructor | src/components/quiz/AIQuizGenerator.tsx:18-25 | the initial form |
| QuizGenerator.QuizGeneratorForm.ToggleChapter | src/components/quiz/AIQuizGenerator.tsx:56-63 | the chapter list becomes its toggle by the id; nothing else changes |
| QuizGenerator.QuizGeneratorForm.ToggleQuestionType | src/components/quiz/AIQuizGenerator.tsx:65-72 | the type list becomes its toggle by the type; nothing else changes |
| QuizGenerator.QuizGeneratorForm.SetFocusAreas | src/components/quiz/AIQuizGenerator.tsx:228-231 | the focus areas become those parsed from the text; nothing else changes |
| QuizGenerator.ChapterToggleKeepsOthers | src/components/quiz/AIQuizGenerator.tsx:56-63 | toggling keeps the other chapters in order, and toggling a new chapter twice restores the list |
| Onboarding.CanContinue | src/pages/OnboardingPage.tsx:102-110 | step 0 needs grade and board, step 1 a subject, step 2 an exam date; step 3 always; any other step never |
| Onboarding.ProfileOf | src/pages/OnboardingPage.tsx:49-56 | the saved profile carries the form's grade, board, subjects, language, exam date and weekly hours |
| Onboarding.StepAfterContinue | src/pages/OnboardingPage.tsx:44-47 | the next step before the last, else the same step, always within the four steps |
| Onboarding.StepAfterBack | src/pages/OnboardingPage.tsx:67-71 | the previous step after the first, else the same step, always within the four steps |
| Onboarding.StepsStayInRange | src/pages/OnboardingPage.tsx:31-71 | any run of Continue and Back presses from a valid step stays within steps 0 to 3 |
| Onboarding.ContinueReachesLastStep | src/pages/OnboardingPage.tsx:44-47 | three Continues reach the last step and a fourth stays there |
| Onboarding.OnboardingWizard.constructor | src/pages/OnboardingPage.tsx:31-40 | step 0, the initial form in the interface language, nothing submitted |
| Onboarding.OnboardingWizard.Continue | src/pages/OnboardingPage.tsx:44-65 | pressed only while `CanContinue` enables the button (line 509); before the last step it only advances; at the last step it submits the profile once, and navigates home only if the save succeeded |
| Onboarding.OnboardingWizard.Back | src/pages/OnboardingPage.tsx:67-71 | the step moves back after the first step; nothing else changes |
| Onboarding.OnboardingWizard.Change | src/pages/OnboardingPage.tsx:73-76 | the named field takes the value; nothing else changes |
| Onboarding.OnboardingWizard.ToggleSubject | src/pages/OnboardingPage.tsx:78-85 | the subjects become their toggle by the subject; nothing else changes |
| Onboarding.OnboardingWizard.ToggleGoal | src/pages/OnboardingPage.tsx:87-94 | the goals become their toggle by the goal; nothing else changes |
| Onboarding.OnboardingWizard.ChangeLanguage | src/pages/OnboardingPage.tsx:96-99 | the interface language and the form's language become the same value |
| Onboarding.GoalsNotSubmitted | src/pages/OnboardingPage.tsx:49-56 | the study goals never reach the saved profile |
| Onboarding.FreshWizardBlocked | src/pages/OnboardingPage.tsx:104 | a fresh wizard cannot continue until grade and board are chosen |
| Flashcards.UserCards | src/pages/FlashcardsPage.tsx:73 | exactly the cards whose subject is among the user's subjects, in deck order and with their multiplicity |
| Flashcards.FilteredCards | src/pages/FlashcardsPage.tsx:75-77 | exactly the cards of the selected subject, or all cards when none is selected |
| Flashcards.FilteredCardsOrderAndCount | src/pages/FlashcardsPage.tsx:75-77 | the filtered deck keeps the deck's order and each shown card's multiplicity |
| Flashcards.AllSubjectsShowsAll | src/pages/FlashcardsPage.tsx:75-77 | "All Subjects" shows the whole deck |
| Flashcards.FaceText | src/pages/FlashcardsPage.tsx:217-220 | the English text, or in Urdu the Urdu text unless it is missing or empty |
| Flashcards.NextIndex | src/pages/FlashcardsPage.tsx:81-89 | advances only before the last card, and stays on the deck |
| Flashcards.PrevIndex | src/pages/FlashcardsPage.tsx:91-99 | goes back only after the first card, and never below 0 |
| Flashcards.IndexStaysOnDeck | src/pages/FlashcardsPage.tsx:81-99 | from a valid index any run of next, previous and restart keeps the index on a non-empty deck, and at 0 on an empty one |
| Flashcards.ClassifySwipe | src/pages/FlashcardsPage.tsx:118-130 | a swipe acts iff it is more horizontal than vertical and longer than 50; rightwards goes back, leftwards forward |
| Flashcards.CurrentCard | src/pages/FlashcardsPage.tsx:79 | a card exists iff the index is within the filtered deck |
| Flashcards.SelectSubjectAsWritten | src/pages/FlashcardsPage.tsx:158-171 | selecting a subject changes only the selection |
| Flashcards.SelectSubjectAsWrittenLosesCard | src/pages/FlashcardsPage.tsx:158-171 | with the index on the third card, choosing a subject that has one card shows a non-empty deck with no current card |
| Flashcards.ShippedDeckLosesCard | src/pages/FlashcardsPage.tsx:33-73 | the same happens with the shipped mock cards |
| Flashcards.SelectSubject | src/pages/FlashcardsPage.tsx:158-171 | the corrected selection resets the index and the flip, so a card is shown whenever the deck is non-empty |
| Flashcards.FlashcardDeck.constructor | src/pages/FlashcardsPage.tsx:24-27 | the user's cards, the first subject selected, index 0, unflipped |
| Flashcards.FlashcardDeck.NextCard | src/pages/FlashcardsPage.tsx:81-89 | the index becomes `NextIndex`; a move sets the direction forward and unflips, no move changes nothing |
| Flashcards.FlashcardDeck.PrevCard | src/pages/FlashcardsPage.tsx:91-99 | the index becomes `PrevIndex`; a move sets the direction back and unflips, no move changes nothing |
| Flashcards.FlashcardDeck.ToggleFlip | src/pages/FlashcardsPage.tsx:101-103 | negates the flip state only |
| Flashcards.FlashcardDeck.Restart | src/pages/FlashcardsPage.tsx:300-304 | index 0 and unflipped |
| Flashcards.FlashcardDeck.SelectSubject | src/pages/FlashcardsPage.tsx:158-171 | the corrected selection: the subject, index 0, unflipped |
| Flashcards.FlashcardDeck.Swipe | src/pages/FlashcardsPage.tsx:118-130 | no action, `PrevCard` or `NextCard` as `ClassifySwipe` says: the index, the flip and the direction of each case |
| AuthPage.MessageOr | src/pages/AuthPage.tsx:52-75 | the message unless it is missing or empty, else the fallback |
| AuthPage.FromPath | src/pages/AuthPage.tsx:25 | the saved path when it is present and non-empty; "/" in every other case |
| AuthPage.SubmitResult | src/pages/AuthPage.tsx:33-76 | in sign-up mode a mismatch fails first and a short password second, neither calling the service; otherwise exactly one call, and the outcome decides the error or the navigation |
| AuthPage.SubmitOutcomes | src/pages/AuthPage.tsx:39-75 | a sign-up that reaches the service has a confirmed password of at least six characters; a submit that does not navigate leaves a non-empty error |
| AuthPage.SignInHasNoLocalChecks | src/pages/AuthPage.tsx:62-69 | for any sign-in form with the required fields filled, however short or mismatched its passwords, the service is called with the email and password as typed, and the error does not depend on the confirmation field |
| AuthPage.AuthPageState.constructor | src/pages/AuthPage.tsx:13-23 | sign-in mode, empty form, no error |
| AuthPage.AuthPageState.Change | src/pages/AuthPage.tsx:27-31 | the named field takes the value and the error is cleared |
| AuthPage.AuthPageState.Submit | src/pages/AuthPage.tsx:33-76 | for a form that passes the browser's `required` checks, the error, the calls made and the navigation follow `SubmitResult`, and loading ends false |
| AuthPage.AuthPageState.ToggleMode | src/pages/AuthPage.tsx:218-222 | flips the mode, clears the error and empties all four fields |
| Chatbot.OrElse | src/pages/ChatbotPage.tsx:22-23 | the value unless it is missing or empty, else the fallback |
| Chatbot.Route | src/pages/ChatbotPage.tsx:32-65 | cell division first, then Newton, then problems, else the general reply, matched against the lower-cased input in English and the input as typed in Urdu |
| Chatbot.EnglishRoutingIgnoresCase | src/pages/ChatbotPage.tsx:35-43 | English routing gives the same reply for an input and its lower-cased form |
| Chatbot.EnglishCellDivisionAnyCase | src/pages/ChatbotPage.tsx:35 | any casing of mitosis or meiosis in the input routes to cell division |
| Chatbot.CapitalisedMitosisInEnglish | src/pages/ChatbotPage.tsx:35 | "Mitosis" routes to cell division in English |
| Chatbot.UrduRoutingIgnoresAsciiInput | src/pages/ChatbotPage.tsx:50-63 | in Urdu an all-ASCII input always gets the general reply |
| Chatbot.SuggestedTopics | src/pages/ChatbotPage.tsx:95-101 | four non-blank topics in each language |
| Chatbot.SendDisabled | src/pages/ChatbotPage.tsx:247 | the send button is disabled iff the input is blank |
| Chatbot.SendStep | src/pages/ChatbotPage.tsx:67-93 | blank input changes nothing; otherwise one user message with the trimmed text is appended, the input is cleared, typing starts and the reply to the untrimmed text is queued |
| Chatbot.DeliverStep | src/pages/ChatbotPage.tsx:82-92 | with a queued reply, one assistant message is appended and typing ends; otherwise nothing changes |
| Chatbot.StepAppendsAtMostOne | src/pages/ChatbotPage.tsx:67-92 | every event appends at most one message and keeps the earlier ones |
| Chatbot.MessagesOnlyGrow | src/pages/ChatbotPage.tsx:67-92 | over any run of events the message list only grows, at its end |
| Chatbot.SendThenReply | src/pages/ChatbotPage.tsx:67-92 | a send followed by the timer adds the user's trimmed message and then the reply routed from the untrimmed input |
| Chatbot.ReplyKeepsSendLanguage | src/pages/ChatbotPage.tsx:81-86 | switching the language while a reply is pending changes the page's language but the reply answers in the language of the send |
| Chatbot.EnterSends | src/pages/ChatbotPage.tsx:108-113 | Enter without Shift sends; Shift+Enter does nothing |
| Chatbot.ChatPage.constructor | src/pages/ChatbotPage.tsx:17-26 | one assistant welcome message, empty input, not typing |
| Chatbot.ChatPage.SetLanguage | src/components/common/LanguageToggle.tsx:9-19 | only the language changes |
| Chatbot.ChatPage.SetInput | src/pages/ChatbotPage.tsx:239 | the input takes the typed text |
| Chatbot.ChatPage.Send | src/pages/ChatbotPage.tsx:67-93 | the new state is `SendStep` of the old |
| Chatbot.ChatPage.DeliverReply | src/pages/ChatbotPage.tsx:82-92 | the new state is `DeliverStep` of the old |
| Chatbot.ChatPage.ClickTopic | src/pages/ChatbotPage.tsx:103-106 | the topic becomes the input and the active topic |
| Chatbot.ChatPage.KeyDown | src/pages/ChatbotPage.tsx:108-113 | Enter without Shift sends; any other key changes nothing |
| Text.NatToString | src/services/aiAgents.ts:100 | a non-empty string of decimal digits that denotes the number, with no leading zero except for 0 itself |
| Text.IntToString | src/services/aiAgents.ts:75 | a non-empty rendering that starts with "-" exactly for a negative integer |
| Text.IntToStringDenotes | src/services/aiAgents.ts:75 | after the sign the rendering is all digits, and they denote the integer's absolute value |
| Text.ToLower | src/pages/ChatbotPage.tsx:35 | the same length, each character lower-cased |
| Text.ContainsToLower | src/pages/ChatbotPage.tsx:35 | lower-casing keeps a substring a substring |
| Text.Trim | src/components/quiz/AIQuizGenerator.tsx:230 | a slice of the text with no white space at either end, where everything cut off before and after the slice is white space |
| Text.TrimEmpty | src/pages/ChatbotPage.tsx:68 | trimming gives "" iff the text is blank |
| Text.SplitPiecesLackSeparator | src/components/quiz/AIQuizGenerator.tsx:230 | no piece of a split contains the separator |
| Text.JoinSplit | src/components/quiz/AIQuizGenerator.tsx:230 | joining the pieces with the separator gives back the text |
| Seqs.Filter | src/data/pastPapers/index.ts:126 | the elements satisfying the predicate, no others, none lost |
| Seqs.FilterCount | src/data/pastPapers/index.ts:126 | each element satisfying the predicate occurs as often as in the input; no other occurs |
| Seqs.FilterIsSubseq | src/data/pastPapers/index.ts:126-134 | a filter's result is a subsequence of its input |
| Seqs.Without | src/components/quiz/AIQuizGenerator.tsx:59 | every occurrence of the item removed, every other element kept |
| Seqs.WithoutOrderAndCount | src/components/quiz/AIQuizGenerator.tsx:59 | the result is a subsequence of the list, and every other element occurs as often as before |
| Seqs.Toggle | src/components/quiz/AIQuizGenerator.tsx:56-63 | an absent item is appended at the end (`[...xs, x]`); a present one is removed as `Without` removes it; so the item is present afterwards iff it was absent before |
| Seqs.ToggleKeepsOthers | src/pages/OnboardingPage.tsx:78-94 | toggling leaves the other elements and their order as they were |
| Seqs.ToggleTwice | src/pages/OnboardingPage.tsx:78-94 | toggling a new item on and off restores the list |
| Seqs.ToggleNoDuplicates | src/pages/OnboardingPage.tsx:78-94 | toggling keeps a duplicate-free list duplicate-free |
| JsMath.Ceil | src/services/aiAgents.ts:216 | the least integer not below the number |
| JsMath.CeilOfQuotient | src/services/aiAgents.ts:151 | ceil(a / b)·b ≥ a > (ceil(a / b) − 1)·b |

## Left out

- The completion calls to the AI service are not modelled. They are network calls with non-deterministic output, so `GenerateQuiz` takes the reply as a parameter.
- `JSON.parse` is not modelled. It is a library call, so the parse of the span is a parameter.
- The text of the study-plan prompt and the concept-explanation agent are not modelled: they are prompt strings for a completion call whose reply is returned unread. `AiAgents.StudyPlanFigures` models only the weeks and hours figures.
- AiAgents.StudyPlanFigures: JavaScript `Date` values are not modelled; the exam date and the current time are integers of milliseconds.
- AiAgents.GenerateQuiz: `generatedAt` is the `now` parameter, not a fresh `Date`.
- AiAgents.QuizOutcome: marks are exact reals, so floating-point rounding of the sum is not modelled.
- A missing `questions` array in the parsed JSON, or a throw while reading it, is modelled as a `ParseError` outcome of the parse parameter.
- The Supabase and Stripe client libraries, the loaders of the subscription context and the webhook's signature cryptography are not modelled. They are foreign calls, so verification is a `Result` parameter of `HandleWebhook`.
- StripeWebhook.SubscriptionsTable.Insert: the checkout upsert names no primary key, so it is modelled as an insert.
- StripeWebhook.ResponseFor: the body of the 500 response is not modelled; only its status is.
- StripeWebhook.PlannedWrite: missing session metadata is not modelled (the user and plan are taken as given).
- StripeWebhook.SubscriptionsTable.HandleWebhook: a failed write is only logged by the source, so it is the `writeOk` parameter and leaves the table unchanged.
- Text.ToLower: lower-casing is ASCII-only; JavaScript's Unicode case mapping is not modelled.
- AuthPage.SubmitResult: the password length counts characters, not UTF-16 code units.
- Subscription.GetDiscountedPrice: prices are exact reals, so JavaScript floating-point rounding is not modelled.
- PricingCard.PriceText: the displayed price is the number itself, not JavaScript's number-to-string rendering.
- PricingCard.HasDiscount: a NaN discounted price is not modelled.
- Subscription.GetRemainingQuota: a feature name that every JavaScript object inherits (such as `constructor`) reads a truthy prototype property in the source (`src/contexts/SubscriptionContext.tsx:169`), so that call returns a function; the model's table is a plain map, returns 0 for such names, and does not capture this.
- SubjectGroups: the groups' descriptions are not modelled, since nothing reads them.
- QuizGenerator.BuildRequest: the user's first subject, board and grade are parameters. The user context is not modelled.
- Flashcards.FlashcardDeck.NextCard: the 300 ms `setTimeout` is modelled as its eventual effect, so the stale index its closure captures is not modelled.
- Flashcards.FlashcardDeck.PrevCard: the same holds for its 300 ms `setTimeout` (`src/pages/FlashcardsPage.tsx:91-99`); the stale index its closure captures is not modelled.
- AuthPage.AuthPageState.Submit: the browser's `type="email"` syntax check (`src/pages/AuthPage.tsx:143`) is not modelled; the model requires only that the `required` fields are non-empty, so it also covers a non-empty malformed address that the browser would refuse to send.
- AuthPage.SignInHasNoLocalChecks: the same holds for the email syntax check; the lemma's email is any non-empty string.
- Chatbot.ChatPage.DeliverReply: the typing delay is modelled as a queue of pending replies delivered in order; message ids and timestamps are not modelled.
- Chatbot.ReplyText: the reply texts are rendered from a `Content` value rather than held as literal markdown.
- Routing, authentication-callback, dashboard, study-plan, quiz, settings and static pricing pages are not modelled: they are rendering over mock data with no logic of their own.

## Findings

| source | as written | input that shows it | evidently intended | confidence | as-written member | corrected member |
|---|---|---|---|---|---|---|
| src/pages/FlashcardsPage.tsx:158-171 | choosing a subject changes only `selectedSubject`; `currentCardIndex` keeps its value | three cards (Physics, Biology, Chemistry) with "All Subjects" shown and the index on the third card; then choosing Physics gives a one-card deck, so `filteredCards[2]` is undefined and line 215 reads `.subject` of undefined | choosing a subject resets the index to 0 and unflips the card | not executed | Flashcards.SelectSubjectAsWrittenLosesCard | Flashcards.SelectSubject |
