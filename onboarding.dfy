/** The four-step onboarding wizard: the step counter, the per-step guard, the form fields
    and their toggles, and the profile saved at the last step. */
module Onboarding {
  import opened Wrappers
  import opened Domain
  import opened Seqs

  const TotalSteps: int := 4

  /** `weeklyHours`: the number 10 at first, the input's text after an edit. */
  datatype WeeklyHours = Hours(hours: int) | HoursText(text: string)

  /** The form state. Grade, board and exam date are the select and input values, "" when
      nothing is chosen. */
  datatype OnboardingForm = OnboardingForm(
    grade: string,
    board: string,
    subjects: seq<Subject>,
    examDate: string,
    weeklyHours: WeeklyHours,
    languagePreference: Language,
    studyGoals: seq<string>)

  /** What `updateProfile` receives: the study goals are not part of it. */
  datatype ProfileUpdate = ProfileUpdate(
    grade: string,
    board: string,
    subjects: seq<Subject>,
    languagePreference: Language,
    examDate: string,
    weeklyAvailableHours: WeeklyHours)

  /** The fields `handleChange` writes by input name. */
  datatype FormField = GradeField | BoardField | ExamDateField | WeeklyHoursField

  function InitialForm(language: Language): OnboardingForm {
    OnboardingForm("", "", [], "", Hours(10), language, [])
  }

  /** `canContinue`. */
  function CanContinue(step: int, form: OnboardingForm): (r: bool)
    ensures step == 0 ==> (r <==> form.grade != "" && form.board != "")
    ensures step == 1 ==> (r <==> |form.subjects| > 0)
    ensures step == 2 ==> (r <==> form.examDate != "")
    ensures step == 3 ==> r
    ensures !(0 <= step <= 3) ==> !r
  {
    if step == 0 then form.grade != "" && form.board != ""
    else if step == 1 then |form.subjects| > 0
    else if step == 2 then form.examDate != ""
    else step == 3
  }

  /** The profile the last step submits. */
  function ProfileOf(form: OnboardingForm): (p: ProfileUpdate)
    ensures p.grade == form.grade && p.board == form.board && p.subjects == form.subjects
    ensures p.languagePreference == form.languagePreference && p.examDate == form.examDate
    ensures p.weeklyAvailableHours == form.weeklyHours
  {
    ProfileUpdate(form.grade, form.board, form.subjects, form.languagePreference, form.examDate, form.weeklyHours)
  }

  /** The step after Continue: the next one before the last step, else unchanged. */
  function StepAfterContinue(step: int): (r: int)
    ensures 0 <= step <= TotalSteps - 1 ==> 0 <= r <= TotalSteps - 1
    ensures step < TotalSteps - 1 ==> r == step + 1
    ensures step >= TotalSteps - 1 ==> r == step
  {
    if step < TotalSteps - 1 then step + 1 else step
  }

  /** The step after Back: the previous one after the first step, else unchanged. */
  function StepAfterBack(step: int): (r: int)
    ensures 0 <= step <= TotalSteps - 1 ==> 0 <= r <= TotalSteps - 1
    ensures step > 0 ==> r == step - 1
    ensures step <= 0 ==> r == step
  {
    if step > 0 then step - 1 else step
  }

  /** A run of button presses: true for Continue, false for Back. */
  function StepAfter(step: int, presses: seq<bool>): int
    decreases |presses|
  {
    if presses == [] then step
    else StepAfter(if presses[0] then StepAfterContinue(step) else StepAfterBack(step), presses[1..])
  }

  /** From the first step, any run of Continue and Back presses stays within the four
      steps; it reaches the last step after enough Continues and never passes it. */
  lemma {:induction false} StepsStayInRange(step: int, presses: seq<bool>)
    requires 0 <= step <= TotalSteps - 1
    ensures 0 <= StepAfter(step, presses) <= TotalSteps - 1
    decreases |presses|
  {
    if presses != [] {
      var next := if presses[0] then StepAfterContinue(step) else StepAfterBack(step);
      StepsStayInRange(next, presses[1..]);
    }
  }

  /** Three Continues lead from the first step to the last, and a fourth stays there. */
  lemma ContinueReachesLastStep()
    ensures StepAfter(0, [true, true, true]) == TotalSteps - 1
    ensures StepAfter(0, [true, true, true, true]) == TotalSteps - 1
  {
    assert [true, true, true][1..] == [true, true];
    assert [true, true][1..] == [true];
    assert [true, true, true, true][1..] == [true, true, true];
    assert [true][1..] == [];
  }

  class OnboardingWizard {
    var step: int
    var form: OnboardingForm
    /** The application-wide interface language. */
    var language: Language
    /** Every profile passed to `updateProfile`, in order. */
    var submitted: seq<ProfileUpdate>
    var navigatedTo: Option<string>

    ghost predicate Valid()
      reads this
    {
      0 <= step <= TotalSteps - 1
    }

    constructor(language: Language)
      ensures Valid()
      ensures step == 0 && form == InitialForm(language) && this.language == language
      ensures submitted == [] && navigatedTo == None
    {
      step := 0;
      form := InitialForm(language);
      this.language := language;
      submitted := [];
      navigatedTo := None;
    }

    /** `handleContinue`, pressed only while `CanContinue` enables the button; `saveOk` is
        whether `updateProfile` reports success. Before the last step it only advances; at
        the last step it submits the profile once and navigates home unless the save
        failed. */
    method Continue(saveOk: bool)
      requires Valid()
      requires CanContinue(step, form)
      modifies this
      ensures Valid()
      ensures step == StepAfterContinue(old(step))
      ensures form == old(form) && language == old(language)
      ensures old(step) < TotalSteps - 1 ==> submitted == old(submitted) && navigatedTo == old(navigatedTo)
      ensures old(step) == TotalSteps - 1 ==> submitted == old(submitted) + [ProfileOf(form)]
      ensures old(step) == TotalSteps - 1 ==> navigatedTo == (if saveOk then Some("/") else old(navigatedTo))
    {
      if step < TotalSteps - 1 {
        step := step + 1;
      } else {
        submitted := submitted + [ProfileOf(form)];
        if !saveOk {
          return;
        }
        navigatedTo := Some("/");
      }
    }

    /** `handleBack`. */
    method Back()
      requires Valid()
      modifies this
      ensures Valid()
      ensures step == StepAfterBack(old(step))
      ensures form == old(form) && language == old(language)
      ensures submitted == old(submitted) && navigatedTo == old(navigatedTo)
    {
      if step > 0 {
        step := step - 1;
      }
    }

    /** `handleChange`: the named field takes the input's value. */
    method Change(field: FormField, value: string)
      modifies this
      ensures step == old(step) && language == old(language)
      ensures submitted == old(submitted) && navigatedTo == old(navigatedTo)
      ensures form == match field
        case GradeField => old(form).(grade := value)
        case BoardField => old(form).(board := value)
        case ExamDateField => old(form).(examDate := value)
        case WeeklyHoursField => old(form).(weeklyHours := HoursText(value))
    {
      match field
      case GradeField => form := form.(grade := value);
      case BoardField => form := form.(board := value);
      case ExamDateField => form := form.(examDate := value);
      case WeeklyHoursField => form := form.(weeklyHours := HoursText(value));
    }

    /** `handleSubjectToggle`. */
    method ToggleSubject(subject: Subject)
      modifies this
      ensures step == old(step) && language == old(language)
      ensures submitted == old(submitted) && navigatedTo == old(navigatedTo)
      ensures form == old(form).(subjects := Toggle(old(form).subjects, subject))
    {
      form := form.(subjects := Toggle(form.subjects, subject));
    }

    /** `handleGoalToggle`. */
    method ToggleGoal(goal: string)
      modifies this
      ensures step == old(step) && language == old(language)
      ensures submitted == old(submitted) && navigatedTo == old(navigatedTo)
      ensures form == old(form).(studyGoals := Toggle(old(form).studyGoals, goal))
    {
      form := form.(studyGoals := Toggle(form.studyGoals, goal));
    }

    /** `handleLanguageChange`: the interface language and the form's preference become the
        same value. */
    method ChangeLanguage(lang: Language)
      modifies this
      ensures language == lang && form == old(form).(languagePreference := lang)
      ensures step == old(step) && submitted == old(submitted) && navigatedTo == old(navigatedTo)
    {
      language := lang;
      form := form.(languagePreference := lang);
    }
  }

  /** The study goals never reach the saved profile: two forms that differ only in their
      goals submit the same profile. */
  lemma GoalsNotSubmitted(form: OnboardingForm, goals: seq<string>)
    ensures ProfileOf(form.(studyGoals := goals)) == ProfileOf(form)
  {
  }

  /** A fresh wizard cannot continue until grade and board are chosen. */
  lemma FreshWizardBlocked(language: Language)
    ensures !CanContinue(0, InitialForm(language))
    ensures CanContinue(0, InitialForm(language).(grade := "9th", board := "Punjab"))
  {
  }
}
