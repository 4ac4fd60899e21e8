/** The flashcard deck: the cards of the user's subjects, narrowed by the subject filter,
    and the navigation state (current index, flipped or not, slide direction). */
module Flashcards {
  import opened Wrappers
  import opened Domain
  import opened Seqs

  datatype Flashcard = Flashcard(
    id: string,
    frontEnglish: string,
    frontUrdu: Option<string>,
    backEnglish: string,
    backUrdu: Option<string>,
    subject: Subject,
    chapter: string)

  const MockFlashcards: seq<Flashcard> := [
    Flashcard("1", "Define Newton's First Law of Motion", Some("نیوٹن کا پہلا قانون حرکت کی تعریف کریں"),
      "An object at rest stays at rest and an object in motion stays in motion with the same speed and in the same direction unless acted upon by an unbalanced force.",
      Some("کوئی جسم جو سکون میں ہے وہ سکون میں رہتا ہے اور کوئی جسم جو حرکت میں ہے وہ اسی رفتار اور اسی سمت میں حرکت میں رہتا ہے جب تک کہ اس پر کوئی غیر متوازن قوت عمل نہ کرے۔"),
      Physics, "Laws of Motion"),
    Flashcard("2", "What is the difference between Mitosis and Meiosis?", Some("مائٹوسس اور میوسس میں کیا فرق ہے؟"),
      "Mitosis results in 2 identical daughter cells with the same number of chromosomes as the parent cell. Meiosis results in 4 genetically diverse haploid cells with half the number of chromosomes.",
      Some("مائٹوسس کے نتیجے میں 2 بالکل ایک جیسے خلیے پیدا ہوتے ہیں جن میں والدین کے خلیے کے برابر کروموسومز ہوتے ہیں۔ میوسس کے نتیجے میں 4 جینیاتی طور پر متنوع ہیپلوئڈ خلیے پیدا ہوتے ہیں جن میں آدھے کروموسومز ہوتے ہیں۔"),
      Biology, "Cell Division"),
    Flashcard("3", "What is a covalent bond?", Some("کوویلینٹ بانڈ کیا ہے؟"),
      "A covalent bond is a chemical bond formed by the sharing of electron pairs between atoms.",
      Some("کوویلینٹ بانڈ ایک کیمیائی بانڈ ہے جو ایٹموں کے درمیان الیکٹران جوڑوں کے اشتراک سے بنتا ہے۔"),
      Chemistry, "Chemical Bonding")
  ]

  /** The cards of the signed-in user's subjects; no user means no cards. */
  function UserCards(cards: seq<Flashcard>, userSubjects: Option<seq<Subject>>): (r: seq<Flashcard>)
    ensures forall k :: 0 <= k < |r| ==> r[k] in cards && userSubjects.Some? && r[k].subject in userSubjects.value
    ensures forall k :: 0 <= k < |cards| && userSubjects.Some? && cards[k].subject in userSubjects.value ==>
      cards[k] in r
    ensures IsSubseq(r, cards)
    ensures forall c ::
              multiset(r)[c] == if userSubjects.Some? && c.subject in userSubjects.value then multiset(cards)[c] else 0
  {
    var mine := (c: Flashcard) => userSubjects.Some? && c.subject in userSubjects.value;
    FilterIsSubseq(cards, mine);
    FilterCount(cards, mine);
    Filter(cards, mine)
  }

  /** `filteredCards`: every card when the filter is '' (None), else the cards of the
      selected subject. */
  function FilteredCards(cards: seq<Flashcard>, selected: Option<Subject>): (r: seq<Flashcard>)
    ensures forall k :: 0 <= k < |r| ==> r[k] in cards && (selected.None? || r[k].subject == selected.value)
    ensures forall k :: 0 <= k < |cards| && (selected.None? || cards[k].subject == selected.value) ==>
      cards[k] in r
  {
    Filter(cards, ShownBy(selected))
  }

  /** The filtered deck keeps the order of the cards, and each card of the selected subject
      as often as it occurs. */
  lemma FilteredCardsOrderAndCount(cards: seq<Flashcard>, selected: Option<Subject>)
    ensures IsSubseq(FilteredCards(cards, selected), cards)
    ensures forall c ::
              multiset(FilteredCards(cards, selected))[c]
              == if selected.None? || c.subject == selected.value then multiset(cards)[c] else 0
  {
    FilterIsSubseq(cards, ShownBy(selected));
    FilterCount(cards, ShownBy(selected));
  }

  /** The subject filter's test on one card. */
  function ShownBy(selected: Option<Subject>): Flashcard -> bool {
    (c: Flashcard) => selected.None? || Some(c.subject) == selected
  }

  /** The language's side of a card face: Urdu falls back to English when the card has no
      Urdu text. */
  function FaceText(english: string, urdu: Option<string>, language: Language): (r: string)
    ensures language == Language.English ==> r == english
    ensures language == Language.Urdu ==> r == (if urdu.Some? && urdu.value != "" then urdu.value else english)
  {
    if language == Language.English then english
    else if urdu.Some? && urdu.value != "" then urdu.value else english
  }

  /** The index after `nextCard`: one further unless already at the last card. */
  function NextIndex(index: int, deckSize: int): (r: int)
    ensures index < deckSize - 1 ==> r == index + 1
    ensures index >= deckSize - 1 ==> r == index
    ensures 0 <= index && (index == 0 || index < deckSize) ==> 0 <= r && (r == 0 || r < deckSize)
  {
    if index < deckSize - 1 then index + 1 else index
  }

  /** The index after `prevCard`: one back unless already at the first card. */
  function PrevIndex(index: int): (r: int)
    ensures index > 0 ==> r == index - 1
    ensures index <= 0 ==> r == index
    ensures 0 <= index ==> 0 <= r <= index
  {
    if index > 0 then index - 1 else index
  }

  datatype Navigation = Next | Prev | Restart

  function IndexAfter(index: int, deckSize: int, moves: seq<Navigation>): int
    decreases |moves|
  {
    if moves == [] then index
    else
      var i := match moves[0]
        case Next => NextIndex(index, deckSize)
        case Prev => PrevIndex(index)
        case Restart => 0;
      IndexAfter(i, deckSize, moves[1..])
  }

  /** Starting from the first card, any run of next, previous and restart keeps the index
      on a card of a non-empty deck (and at 0 on an empty one). */
  lemma {:induction false} IndexStaysOnDeck(index: int, deckSize: int, moves: seq<Navigation>)
    requires 0 <= index && (index == 0 || index < deckSize)
    ensures 0 <= IndexAfter(index, deckSize, moves)
    ensures deckSize > 0 ==> IndexAfter(index, deckSize, moves) < deckSize
    ensures deckSize <= 0 ==> IndexAfter(index, deckSize, moves) == 0
    decreases |moves|
  {
    if moves != [] {
      var i := match moves[0]
        case Next => NextIndex(index, deckSize)
        case Prev => PrevIndex(index)
        case Restart => 0;
      IndexStaysOnDeck(i, deckSize, moves[1..]);
    }
  }

  datatype SwipeAction = NoSwipe | SwipePrev | SwipeNext

  function Abs(x: real): real {
    if x < 0.0 then -x else x
  }

  /** A touch counts as a swipe only when it is mostly horizontal and longer than 50
      pixels; a swipe to the right goes back, one to the left goes forward. */
  function ClassifySwipe(deltaX: real, deltaY: real): (r: SwipeAction)
    ensures r != NoSwipe <==> Abs(deltaX) > Abs(deltaY) && Abs(deltaX) > 50.0
    ensures r == SwipePrev ==> deltaX > 50.0
    ensures r == SwipeNext ==> deltaX < -50.0
  {
    if Abs(deltaX) > Abs(deltaY) && Abs(deltaX) > 50.0 then
      if deltaX > 0.0 then SwipePrev else SwipeNext
    else NoSwipe
  }

  /** The page's state as values: the user's cards, the subject filter, the index and the
      flip. */
  datatype DeckState = DeckState(cards: seq<Flashcard>, selected: Option<Subject>, index: int, flipped: bool)

  /** The card on screen, if the index names one (`filteredCards[currentCardIndex]`). */
  function CurrentCard(s: DeckState): (r: Option<Flashcard>)
    ensures r.Some? <==> 0 <= s.index < |FilteredCards(s.cards, s.selected)|
  {
    var deck := FilteredCards(s.cards, s.selected);
    if 0 <= s.index < |deck| then Some(deck[s.index]) else None
  }

  /** The page renders a card whenever the deck is non-empty, so it needs a card there. */
  predicate Renderable(s: DeckState) {
    |FilteredCards(s.cards, s.selected)| > 0 ==> CurrentCard(s).Some?
  }

  /** The subject buttons as written: only the filter changes. */
  function SelectSubjectAsWritten(s: DeckState, subject: Option<Subject>): (r: DeckState)
    ensures r.selected == subject && r.cards == s.cards && r.index == s.index && r.flipped == s.flipped
  {
    s.(selected := subject)
  }

  /** As written, narrowing the filter while on a later card leaves the index past the
      end of the smaller deck: with three cards of which only the first is a Physics card,
      all shown and the third one on screen, choosing Physics leaves a one-card deck and
      no current card to render. */
  lemma SelectSubjectAsWrittenLosesCard(a: Flashcard, b: Flashcard, c: Flashcard)
    requires a.subject == Physics && b.subject != Physics && c.subject != Physics
    ensures var s := DeckState([a, b, c], None, 2, false);
      Renderable(s) && !Renderable(SelectSubjectAsWritten(s, Some(Physics)))
  {
    var cards := [a, b, c];
    AllSubjectsShowsAll(cards);
    var sel := Some(Physics);
    var p := ShownBy(sel);
    assert cards[1..] == [b, c] && [b, c][1..] == [c] && [c][1..] == [];
    assert Filter([c], p) == [] + Filter([], p);
    assert Filter([b, c], p) == [] + Filter([c], p);
    assert Filter(cards, p) == [a] + Filter([b, c], p);
    assert FilteredCards(cards, sel) == [a];
  }

  /** The shipped deck is such a deck: a Physics card, then Biology, then Chemistry. */
  lemma ShippedDeckLosesCard()
    ensures |MockFlashcards| == 3
    ensures var s := DeckState(MockFlashcards, None, 2, false);
      Renderable(s) && !Renderable(SelectSubjectAsWritten(s, Some(Physics)))
  {
    var m := MockFlashcards;
    assert m == [m[0], m[1], m[2]];
    SelectSubjectAsWrittenLosesCard(m[0], m[1], m[2]);
  }

  /** The All Subjects filter shows the user's whole deck, in order. */
  lemma AllSubjectsShowsAll(cards: seq<Flashcard>)
    ensures FilteredCards(cards, None) == cards
  {
    var none: Option<Subject> := None;
    FilterAll(cards, ShownBy(none));
  }

  lemma {:induction false} FilterAll<T>(s: seq<T>, p: T -> bool)
    requires forall k :: 0 <= k < |s| ==> p(s[k])
    ensures Filter(s, p) == s
    decreases |s|
  {
    if s != [] {
      FilterAll(s[1..], p);
    }
  }

  /** The evidently intended subject buttons: the filter changes and the deck starts
      again from its first card, face up. */
  function SelectSubject(s: DeckState, subject: Option<Subject>): (r: DeckState)
    ensures r.selected == subject && r.cards == s.cards && r.index == 0 && !r.flipped
    ensures Renderable(r)
  {
    s.(selected := subject, index := 0, flipped := false)
  }

  /** The page state and its handlers; `Valid` keeps the index on a card. */
  class FlashcardDeck {
    var cards: seq<Flashcard>
    var selected: Option<Subject>
    var index: int
    var flipped: bool
    /** The slide direction of the card animation: 1 forward, -1 back. */
    var direction: int

    function Deck(): seq<Flashcard>
      reads this
    {
      FilteredCards(cards, selected)
    }

    ghost predicate Valid()
      reads this
    {
      0 <= index && (index == 0 || index < |Deck()|)
    }

    /** The initial state: the user's cards, filtered to the user's first subject (or to
        nothing when the user has none), on the first card. */
    constructor(allCards: seq<Flashcard>, userSubjects: Option<seq<Subject>>)
      ensures Valid()
      ensures cards == UserCards(allCards, userSubjects)
      ensures selected == (if userSubjects.Some? && |userSubjects.value| > 0 then Some(userSubjects.value[0]) else None)
      ensures index == 0 && !flipped && direction == 0
    {
      cards := UserCards(allCards, userSubjects);
      selected := if userSubjects.Some? && |userSubjects.value| > 0 then Some(userSubjects.value[0]) else None;
      index := 0;
      flipped := false;
      direction := 0;
    }

    /** `nextCard`, taken at its eventual effect. */
    method NextCard()
      requires Valid()
      modifies this
      ensures Valid()
      ensures cards == old(cards) && selected == old(selected)
      ensures index == NextIndex(old(index), |Deck()|)
      ensures old(index) < |Deck()| - 1 ==> !flipped && direction == 1
      ensures old(index) >= |Deck()| - 1 ==> flipped == old(flipped) && direction == old(direction)
    {
      if index < |Deck()| - 1 {
        direction := 1;
        index := index + 1;
        flipped := false;
      }
    }

    /** `prevCard`, taken at its eventual effect. */
    method PrevCard()
      requires Valid()
      modifies this
      ensures Valid()
      ensures cards == old(cards) && selected == old(selected)
      ensures index == PrevIndex(old(index))
      ensures old(index) > 0 ==> !flipped && direction == -1
      ensures old(index) <= 0 ==> flipped == old(flipped) && direction == old(direction)
    {
      if index > 0 {
        direction := -1;
        index := index - 1;
        flipped := false;
      }
    }

    method ToggleFlip()
      modifies this
      ensures flipped == !old(flipped)
      ensures cards == old(cards) && selected == old(selected) && index == old(index) && direction == old(direction)
    {
      flipped := !flipped;
    }

    /** The Restart Deck button. */
    method Restart()
      modifies this
      ensures Valid()
      ensures index == 0 && !flipped
      ensures cards == old(cards) && selected == old(selected) && direction == old(direction)
    {
      index := 0;
      flipped := false;
    }

    /** A subject button (None is All Subjects), with the index reset so that the card on
        screen stays within the narrowed deck. */
    method SelectSubject(subject: Option<Subject>)
      modifies this
      ensures Valid()
      ensures selected == subject && index == 0 && !flipped
      ensures cards == old(cards) && direction == old(direction)
    {
      selected := subject;
      index := 0;
      flipped := false;
    }

    /** The touch-end handler. */
    method Swipe(deltaX: real, deltaY: real)
      requires Valid()
      modifies this
      ensures Valid()
      ensures cards == old(cards) && selected == old(selected)
      ensures ClassifySwipe(deltaX, deltaY) == NoSwipe ==>
        index == old(index) && flipped == old(flipped) && direction == old(direction)
      ensures ClassifySwipe(deltaX, deltaY) == SwipePrev ==> index == PrevIndex(old(index))
      ensures ClassifySwipe(deltaX, deltaY) == SwipePrev && old(index) > 0 ==> !flipped && direction == -1
      ensures ClassifySwipe(deltaX, deltaY) == SwipePrev && old(index) <= 0 ==>
        flipped == old(flipped) && direction == old(direction)
      ensures ClassifySwipe(deltaX, deltaY) == SwipeNext ==> index == NextIndex(old(index), |Deck()|)
      ensures ClassifySwipe(deltaX, deltaY) == SwipeNext && old(index) < |Deck()| - 1 ==> !flipped && direction == 1
      ensures ClassifySwipe(deltaX, deltaY) == SwipeNext && old(index) >= |Deck()| - 1 ==>
        flipped == old(flipped) && direction == old(direction)
    {
      var action := ClassifySwipe(deltaX, deltaY);
      if action == SwipePrev {
        PrevCard();
      } else if action == SwipeNext {
        NextCard();
      }
    }
  }
}
