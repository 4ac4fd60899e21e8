/** The tutor chat page: the welcome message, the keyword routing of the canned replies,
    and the send / reply cycle over an append-only message list. */
module Chatbot {
  import opened Wrappers
  import opened Domain
  import opened Text

  datatype Role = User | Assistant

  /** What a message says: text the user typed, the welcome, or one of the canned
      replies in a language. `ContentText` gives the words shown. */
  datatype Content =
    | Typed(text: string)
    | Greeting(language: Language, userName: Option<string>, grade: Option<string>)
    | Canned(reply: Reply, replyLanguage: Language)

  /** A chat message; its id and timestamp come from the clock and are not modelled. */
  datatype Message = Message(role: Role, content: Content)

  /** `value || fallback` for an optional profile field. */
  function OrElse(value: Option<string>, fallback: string): (r: string)
    ensures value.Some? && value.value != "" ==> r == value.value
    ensures !(value.Some? && value.value != "") ==> r == fallback
  {
    if value.Some? && value.value != "" then value.value else fallback
  }

  /** The greeting the conversation starts with, addressing the user by name (or a
      generic word) and naming their grade (or nothing). */
  function WelcomeText(language: Language, userName: Option<string>, grade: Option<string>): string {
    match language
    case English =>
      "Hello " + OrElse(userName, "there") + "! I'm your AI study tutor. How can I help you with your "
      + OrElse(grade, "") + " studies today?"
    case Urdu =>
      "ہیلو " + OrElse(userName, "وہاں") + "! میں آپ کا اے آئی سٹڈی ٹیوٹر ہوں۔ آج میں آپ کی "
      + OrElse(grade, "") + " کی تعلیم میں کیسے مدد کر سکتا ہوں؟"
  }

  /** The four canned replies. */
  datatype Reply = CellDivision | NewtonsLaws | ProblemHelp | GeneralHelp

  /** The canned reply texts, word for word. */
  const CellDivisionEnglish: string := "Mitosis and meiosis are both types of cell division, but they serve different purposes. Mitosis occurs in somatic cells and results in 2 identical daughter cells with the same number of chromosomes as the parent cell. It's used for growth and repair. Meiosis, on the other hand, occurs in germ cells and creates 4 unique gametes with half the number of chromosomes. This is essential for sexual reproduction and genetic diversity. Would you like me to explain any specific aspect of these processes in more detail?"
  const NewtonsLawsEnglish: string := "Newton's Laws of Motion are three fundamental principles that describe the relationship between a body and the forces acting upon it. The First Law (Law of Inertia) states that an object will remain at rest or in uniform motion unless acted upon by an external force. The Second Law defines that force equals mass times acceleration (F=ma). The Third Law states that for every action, there is an equal and opposite reaction. These laws form the foundation of classical mechanics. Would you like me to explain any of these laws with examples from your textbook?"
  const ProblemHelpEnglish: string := "I'd be happy to help you solve this problem! Could you please share the complete question or problem statement? For mathematical problems, try to be as specific as possible with the equations or scenario. For conceptual questions, let me know which chapter or topic this relates to so I can provide the most accurate answer according to your board's syllabus."
  const GeneralHelpEnglish: string := "That's a great question about your studies! To give you the most helpful answer according to your board's curriculum, could you tell me a bit more about what specific concept you're trying to understand? I'm here to help with explanations, worked examples, or even practice questions on this topic."
  const CellDivisionUrdu: string := "مائٹوسس اور میوسس دونوں ہی خلیے کی تقسیم کی اقسام ہیں، لیکن ان کے مقاصد مختلف ہیں۔ مائٹوسس جسمانی خلیوں میں ہوتا ہے اور اس کے نتیجے میں 2 بالکل ایک جیسے خلیے پیدا ہوتے ہیں جن میں والدین کے خلیے کے برابر کروموسومز ہوتے ہیں۔ یہ نشوونما اور مرمت کے لیے استعمال ہوتا ہے۔ دوسری طرف، میوسس جرم خلیوں میں ہوتا ہے اور 4 منفرد گیمیٹس پیدا کرتا ہے جن میں آدھے کروموسومز ہوتے ہیں۔ یہ جنسی تولید اور جینیاتی تنوع کے لیے ضروری ہے۔ کیا آپ چاہتے ہیں کہ میں ان عملوں کے کسی خاص پہلو کو مزید تفصیل سے سمجھاؤں؟"
  const NewtonsLawsUrdu: string := "نیوٹن کے قوانین حرکت تین بنیادی اصول ہیں جو ایک جسم اور اس پر عمل کرنے والے قوتوں کے درمیان تعلق کو بیان کرتے ہیں۔ پہلا قانون (قانون جمود) بتاتا ہے کہ کوئی جسم سکون یا یکساں حرکت میں رہے گا جب تک کہ اس پر کوئی خارجی قوت عمل نہ کرے۔ دوسرا قانون بیان کرتا ہے کہ قوت کثافت ضرب تیزی کے برابر ہوتی ہے (F=ma)۔ تیسرا قانون بتاتا ہے کہ ہر عمل کے لیے ایک مساوی اور متضاد رد عمل ہوتا ہے۔ یہ قوانین کلاسیکی میکانکس کی بنیاد ہیں۔ کیا آپ چاہتے ہیں کہ میں آپ کی درسی کتاب سے مثالوں کے ساتھ ان قوانین میں سے کسی کی وضاحت کروں؟"
  const ProblemHelpUrdu: string := "میں آپ کے اس مسئلے کو حل کرنے میں آپ کی مدد کروں گا! براہ کرم مکمل سوال یا مسئلہ شیئر کریں۔ ریاضی کے مسائل کے لیے، مساوات یا صورتحال کے ساتھ جتنا ممکن ہو سکے اتنا مخصوص ہونے کی کوشش کریں۔ تصوراتی سوالات کے لیے، مجھے بتائیں کہ یہ کس باب یا موضوع سے متعلق ہے تاکہ میں آپ کے بورڈ کے نصاب کے مطابق سب سے زیادہ درست جواب فراہم کر سکوں۔"
  const GeneralHelpUrdu: string := "آپ کے تعلیمی سوال کے لیے شکریہ! آپ کے بورڈ کے نصاب کے مطابق آپ کو سب سے زیادہ مددگار جواب دینے کے لیے، کیا آپ مجھے بتا سکتے ہیں کہ آپ کس مخصوص تصور کو سمجھنے کی کوشش کر رہے ہیں؟ میں وضاحت، حل شدہ مثالوں، یا اس موضوع پر عملی سوالات کے ساتھ مدد کرنے کے لیے موجود ہوں۔"

  function ReplyText(reply: Reply, language: Language): string {
    match (reply, language)
    case (CellDivision, English) => CellDivisionEnglish
    case (NewtonsLaws, English) => NewtonsLawsEnglish
    case (ProblemHelp, English) => ProblemHelpEnglish
    case (GeneralHelp, English) => GeneralHelpEnglish
    case (CellDivision, Urdu) => CellDivisionUrdu
    case (NewtonsLaws, Urdu) => NewtonsLawsUrdu
    case (ProblemHelp, Urdu) => ProblemHelpUrdu
    case (GeneralHelp, Urdu) => GeneralHelpUrdu
  }

  /** The words a message shows. */
  function ContentText(c: Content): string {
    match c
    case Typed(text) => text
    case Greeting(language, userName, grade) => WelcomeText(language, userName, grade)
    case Canned(reply, language) => ReplyText(reply, language)
  }

  predicate MentionsCellDivision(s: string, language: Language) {
    match language
    case English => Contains(s, "meiosis") || Contains(s, "mitosis")
    case Urdu => Contains(s, "میوسس") || Contains(s, "مائٹوسس")
  }

  predicate MentionsNewton(s: string, language: Language) {
    match language
    case English => Contains(s, "newton") || Contains(s, "law of motion")
    case Urdu => Contains(s, "نیوٹن") || Contains(s, "قانون حرکت")
  }

  predicate MentionsProblem(s: string, language: Language) {
    match language
    case English => Contains(s, "solve") || Contains(s, "problem") || Contains(s, "question")
    case Urdu => Contains(s, "حل") || Contains(s, "مسئلہ") || Contains(s, "سوال")
  }

  /** The text the keywords are looked for in: lower-cased in English, as typed in Urdu. */
  function Haystack(input: string, language: Language): string {
    if language == Language.English then ToLower(input) else input
  }

  /** `getMockResponse`: the first keyword group, in priority order, that the input
      mentions picks the reply. */
  function Route(input: string, language: Language): (r: Reply)
    ensures var h := Haystack(input, language);
      (r == CellDivision <==> MentionsCellDivision(h, language))
      && (r == NewtonsLaws <==> !MentionsCellDivision(h, language) && MentionsNewton(h, language))
      && (r == ProblemHelp <==>
            !MentionsCellDivision(h, language) && !MentionsNewton(h, language) && MentionsProblem(h, language))
      && (r == GeneralHelp <==>
            !MentionsCellDivision(h, language) && !MentionsNewton(h, language) && !MentionsProblem(h, language))
  {
    var h := Haystack(input, language);
    if MentionsCellDivision(h, language) then CellDivision
    else if MentionsNewton(h, language) then NewtonsLaws
    else if MentionsProblem(h, language) then ProblemHelp
    else GeneralHelp
  }

  /** English routing ignores case: an input and its lower-cased form get the same reply. */
  lemma EnglishRoutingIgnoresCase(input: string)
    ensures Route(ToLower(input), Language.English) == Route(input, Language.English)
  {
    ToLowerIdempotent(input);
  }

  /** An English input mentioning a cell-division keyword in any letter case (say
      "Mitosis") gets the cell-division reply, whatever else it mentions. */
  lemma EnglishCellDivisionAnyCase(input: string, word: string)
    requires Contains(input, word)
    requires ToLower(word) == "mitosis" || ToLower(word) == "meiosis"
    ensures Route(input, Language.English) == CellDivision
  {
    ContainsToLower(input, word);
  }

  /** A string does not contain a word whose first character it lacks. */
  lemma {:induction false} MissingFirstChar(s: string, t: string)
    requires t != [] && t[0] !in s
    ensures !Contains(s, t)
    decreases |s|
  {
    if s != [] {
      assert s[0] != t[0];
      assert t[0] !in s[1..] by {
        assert forall x :: x in s[1..] ==> x in s;
      }
      MissingFirstChar(s[1..], t);
    }
  }

  /** Urdu routing does not look for the English keywords: an input written in ASCII
      alone, such as "Mitosis", always gets the general reply in Urdu. */
  lemma UrduRoutingIgnoresAsciiInput(input: string)
    requires forall k :: 0 <= k < |input| ==> input[k] < '\U{80}'
    ensures Route(input, Language.Urdu) == GeneralHelp
  {
    MissingFirstChar(input, "میوسس");
    MissingFirstChar(input, "مائٹوسس");
    MissingFirstChar(input, "نیوٹن");
    MissingFirstChar(input, "قانون حرکت");
    MissingFirstChar(input, "حل");
    MissingFirstChar(input, "مسئلہ");
    MissingFirstChar(input, "سوال");
  }

  /** The same word routes differently by language: "Mitosis" gets the cell-division
      reply in English. */
  lemma CapitalisedMitosisInEnglish()
    ensures Route("Mitosis", Language.English) == CellDivision
  {
    var w := "Mitosis";
    assert StartsWith(w, w);
    assert ToLower(w) == "mitosis" by {
      assert forall k :: 0 <= k < |w| ==> ToLower(w)[k] == "mitosis"[k];
    }
    EnglishCellDivisionAnyCase(w, w);
  }

  /** The quick-access topics offered in the sidebar. */
  function SuggestedTopics(language: Language): (r: seq<string>)
    ensures |r| == 4
    ensures forall k :: 0 <= k < |r| ==> !Blank(r[k])
  {
    var r := match language
      case English => ["Newton's Laws of Motion", "Cell Division", "Chemical Bonding", "Integration"]
      case Urdu => ["نیوٹن کے قوانین حرکت", "خلیہ کی تقسیم", "کیمیائی بانڈنگ", "انٹیگریشن"];
    assert forall k :: 0 <= k < |r| ==> !IsSpace(r[k][0]);
    r
  }

  /** A reply the page has scheduled but not yet delivered: the input and the language
      captured when Send was pressed. */
  datatype PendingReply = PendingReply(input: string, language: Language)

  /** The page's state: the interface language, the message list, the input box, the
      typing indicator, the highlighted topic and the scheduled replies in order. */
  datatype ChatState = ChatState(
    language: Language,
    messages: seq<Message>,
    input: string,
    isTyping: bool,
    activeTopic: string,
    pending: seq<PendingReply>)

  /** The Send button's `disabled={!input.trim()}`. */
  function SendDisabled(input: string): (r: bool)
    ensures r <==> Blank(input)
  {
    TrimEmpty(input);
    Trim(input) == []
  }

  /** `handleSend`: a blank input does nothing; otherwise the trimmed text is appended as a
      user message, the box is cleared, the indicator is set, and a reply to the text as
      typed (untrimmed) is scheduled. */
  function SendStep(s: ChatState): (r: ChatState)
    ensures Blank(s.input) ==> r == s
    ensures !Blank(s.input) ==>
      r == s.(messages := s.messages + [Message(User, Typed(Trim(s.input)))], input := "", isTyping := true,
              pending := s.pending + [PendingReply(s.input, s.language)])
  {
    TrimEmpty(s.input);
    if Trim(s.input) == [] then s
    else
      s.(messages := s.messages + [Message(User, Typed(Trim(s.input)))], input := "", isTyping := true,
         pending := s.pending + [PendingReply(s.input, s.language)])
  }

  /** The timeout firing: the oldest scheduled reply is appended as one assistant message
      and the indicator is cleared. With nothing scheduled nothing happens. */
  function DeliverStep(s: ChatState): (r: ChatState)
    ensures s.pending == [] ==> r == s
    ensures s.pending != [] ==>
      r.messages == s.messages + [Message(Assistant, Canned(Route(s.pending[0].input, s.pending[0].language),
                                                             s.pending[0].language))]
      && r.pending == s.pending[1..] && !r.isTyping
      && r.language == s.language && r.input == s.input && r.activeTopic == s.activeTopic
  {
    if s.pending == [] then s
    else
      var p := s.pending[0];
      s.(messages := s.messages + [Message(Assistant, Canned(Route(p.input, p.language), p.language))],
         isTyping := false, pending := s.pending[1..])
  }

  /** What can happen on the page. */
  datatype Event =
    | TypeText(text: string)
    | PressSend
    | KeyDown(key: string, shiftKey: bool)
    | ClickTopic(topic: string)
    | TimerFires
    | SwitchLanguage(language: Language)

  /** `handleKeyDown`: Enter without Shift sends. */
  predicate SendsOnKey(key: string, shiftKey: bool) {
    key == "Enter" && !shiftKey
  }

  function Step(s: ChatState, e: Event): ChatState {
    match e
    case TypeText(text) => s.(input := text)
    case PressSend => SendStep(s)
    case KeyDown(key, shiftKey) => if SendsOnKey(key, shiftKey) then SendStep(s) else s
    case ClickTopic(topic) => s.(activeTopic := topic, input := topic)
    case TimerFires => DeliverStep(s)
    case SwitchLanguage(language) => s.(language := language)
  }

  function Run(s: ChatState, events: seq<Event>): ChatState
    decreases |events|
  {
    if events == [] then s else Run(Step(s, events[0]), events[1..])
  }

  /** Every step at most appends one message and never changes the earlier ones. */
  lemma StepAppendsAtMostOne(s: ChatState, e: Event)
    ensures var r := Step(s, e);
      (r.messages == s.messages || (|r.messages| == |s.messages| + 1 && r.messages[..|s.messages|] == s.messages))
  {
    var r := Step(s, e);
    if r.messages != s.messages {
      assert r.messages[..|s.messages|] == s.messages;
    }
  }

  /** The message list only grows, at the end: whatever happens, the earlier
      conversation is a prefix of the later one. */
  lemma {:induction false} MessagesOnlyGrow(s: ChatState, events: seq<Event>)
    ensures |s.messages| <= |Run(s, events).messages|
    ensures Run(s, events).messages[..|s.messages|] == s.messages
    decreases |events|
  {
    if events != [] {
      var next := Step(s, events[0]);
      StepAppendsAtMostOne(s, events[0]);
      MessagesOnlyGrow(next, events[1..]);
      assert Run(s, events) == Run(next, events[1..]);
      var final := Run(s, events).messages;
      assert final[..|next.messages|] == next.messages;
      assert final[..|s.messages|] == final[..|next.messages|][..|s.messages|];
    }
  }

  lemma RunTwo(s: ChatState, e1: Event, e2: Event)
    ensures Run(s, [e1, e2]) == Step(Step(s, e1), e2)
  {
    var s1 := Step(s, e1);
    assert [e1, e2][1..] == [e2];
    assert [e2][1..] == [];
    assert Run(s, [e1, e2]) == Run(s1, [e2]);
    assert Run(s1, [e2]) == Run(Step(s1, e2), []);
  }

  /** A send followed by its timeout leaves the user message and then the reply, both in
      order, and clears the indicator again. */
  lemma SendThenReply(s: ChatState)
    requires s.pending == [] && !Blank(s.input)
    ensures var r := Run(s, [PressSend, TimerFires]);
      r.messages == s.messages + [Message(User, Typed(Trim(s.input))),
                                  Message(Assistant, Canned(Route(s.input, s.language), s.language))]
      && !r.isTyping && r.input == "" && r.pending == []
  {
    RunTwo(s, PressSend, TimerFires);
    var a := SendStep(s);
    assert Step(s, PressSend) == a;
    var p := PendingReply(s.input, s.language);
    assert a.pending == [p];
    var b := DeliverStep(a);
    assert Step(a, TimerFires) == b;
    var reply := Canned(Route(p.input, p.language), p.language);
    assert b.messages == a.messages + [Message(Assistant, reply)];
    AppendTwo(s.messages, Message(User, Typed(Trim(s.input))), Message(Assistant, reply));
  }

  lemma AppendTwo<T>(xs: seq<T>, x: T, y: T)
    ensures xs + [x] + [y] == xs + [x, y]
  {
  }

  /** The timeout answers in the language of the render that scheduled it: switching the
      language while the reply is pending changes the page's language but not the reply. */
  lemma ReplyKeepsSendLanguage(s: ChatState, language: Language)
    requires s.pending == [] && !Blank(s.input)
    ensures var r := Step(Step(SendStep(s), SwitchLanguage(language)), TimerFires);
      r.messages == s.messages + [Message(User, Typed(Trim(s.input))),
                                  Message(Assistant, Canned(Route(s.input, s.language), s.language))]
      && r.language == language && r.pending == []
  {
    var a := Step(SendStep(s), SwitchLanguage(language));
    assert a.pending == [PendingReply(s.input, s.language)];
    AppendTwo(s.messages, Message(User, Typed(Trim(s.input))),
              Message(Assistant, Canned(Route(s.input, s.language), s.language)));
  }

  /** Shift+Enter does not send; Enter alone does the same as the button. */
  lemma EnterSends(s: ChatState)
    ensures Step(s, KeyDown("Enter", true)) == s
    ensures Step(s, KeyDown("Enter", false)) == Step(s, PressSend)
  {
  }

  /** The page object: the fields its handlers update. */
  class ChatPage {
    var language: Language
    var messages: seq<Message>
    var input: string
    var isTyping: bool
    var activeTopic: string
    var pending: seq<PendingReply>

    function State(): ChatState
      reads this
    {
      ChatState(language, messages, input, isTyping, activeTopic, pending)
    }

    /** The page opens with exactly one assistant message, the welcome. */
    constructor(language: Language, userName: Option<string>, grade: Option<string>)
      ensures State() == ChatState(language, [Message(Assistant, Greeting(language, userName, grade))], "", false, "", [])
    {
      this.language := language;
      messages := [Message(Assistant, Greeting(language, userName, grade))];
      input := "";
      isTyping := false;
      activeTopic := "";
      pending := [];
    }

    /** The input box's `onChange`. */
    method SetInput(text: string)
      modifies this
      ensures State() == Step(old(State()), TypeText(text))
    {
      input := text;
    }

    /** The user context's language changes (a `LanguageToggle` button). */
    method SetLanguage(language: Language)
      modifies this
      ensures State() == Step(old(State()), SwitchLanguage(language))
    {
      this.language := language;
    }

    /** `handleSend`. */
    method Send()
      modifies this
      ensures State() == SendStep(old(State()))
    {
      ghost var before := State();
      TrimEmpty(input);
      var trimmed := Trim(input);
      if trimmed == [] {
        assert SendStep(before) == before;
        return;
      }
      messages := messages + [Message(User, Typed(trimmed))];
      pending := pending + [PendingReply(input, language)];
      input := "";
      isTyping := true;
      assert State() == before.(messages := before.messages + [Message(User, Typed(trimmed))], input := "",
        isTyping := true, pending := before.pending + [PendingReply(before.input, before.language)]);
    }

    /** The scheduled timeout of the oldest pending send. */
    method DeliverReply()
      requires pending != []
      modifies this
      ensures State() == DeliverStep(old(State()))
    {
      var p := pending[0];
      messages := messages + [Message(Assistant, Canned(Route(p.input, p.language), p.language))];
      isTyping := false;
      pending := pending[1..];
    }

    /** `handleTopicClick`: the topic is highlighted and copied into the input box. */
    method ClickTopic(topic: string)
      modifies this
      ensures State() == Step(old(State()), Event.ClickTopic(topic))
    {
      activeTopic := topic;
      input := topic;
    }

    /** `handleKeyDown`. */
    method KeyDown(key: string, shiftKey: bool)
      modifies this
      ensures State() == Step(old(State()), Event.KeyDown(key, shiftKey))
    {
      if key == "Enter" && !shiftKey {
        Send();
      }
    }
  }
}
