/** The study page: a run through a list of flashcards or quiz questions. Six pieces of state
    (the current index, whether the card is flipped, the typed answer, the chosen option,
    whether the result is shown, and the score) change on navigation, on flipping, on choosing
    an option, on typing and on checking an answer. The transitions are given first as pure
    functions on a `Session` value, then as the methods of the `Page` class that update its
    fields in place. */
module StudySession {
  import opened Wrappers
  import opened Text

  // ---------------------------------------------------------------------------------------
  // Items and the navigation state the page is opened with

  /** One study item. Items arrive as untyped JSON, so a question may lack its options or its
      correct answer. */
  datatype Item =
    | Flashcard(front: string, back: string)
    | Question(question: string, options: Option<seq<string>>, correctAnswer: Option<string>)

  /** What the create page hands over: `studyData.items`, `title` and `type`, each possibly
      absent. */
  datatype NavState = NavState(items: Option<seq<Item>>, title: Option<string>, kind: Option<string>)

  /** The demo flashcards shown when no items were handed over and the type is `flashcards`. */
  const DemoFlashcards: seq<Item> := [
    Flashcard("Cos'è la mitosi?", "La divisione cellulare che produce due cellule figlie identiche alla cellula madre."),
    Flashcard("Cos'è il DNA?", "L'acido desossiribonucleico, molecola che contiene le informazioni genetiche."),
    Flashcard("Cos'è un ribosoma?", "Organello cellulare responsabile della sintesi proteica.")
  ]

  /** The demo quiz shown when no items were handed over otherwise. */
  const DemoQuiz: seq<Item> := [
    Question("Quale organello produce energia nella cellula?",
             Some(["Ribosoma", "Mitocondrio", "Nucleo", "Lisosoma"]), Some("Mitocondrio")),
    Question("Qual è la funzione del DNA?",
             Some(["Produrre energia", "Trasportare ossigeno", "Contenere informazioni genetiche", "Digerire nutrienti"]),
             Some("Contenere informazioni genetiche"))
  ]

  const DemoTitle := "Sessione Demo"

  /** `state?.studyData?.items || (state?.type === "flashcards" ? demoFlashcards : demoQuiz)`.
      An empty array is truthy, so only absent items fall back to a demo list. */
  function SessionItems(state: Option<NavState>): (r: seq<Item>)
    ensures r == [] ==> state.Some? && state.value.items == Some([])
  {
    if state.Some? && state.value.items.Some? then state.value.items.value
    else if state.Some? && state.value.kind == Some("flashcards") then DemoFlashcards
    else DemoQuiz
  }

  /** `state?.type || "flashcards"`: an absent or empty type becomes `flashcards`. */
  function SessionKind(state: Option<NavState>): (r: string)
    ensures r != ""
    ensures state.Some? && state.value.kind.Some? && state.value.kind.value != "" ==>
      r == state.value.kind.value
  {
    if state.Some? && state.value.kind.Some? && state.value.kind.value != "" then state.value.kind.value
    else "flashcards"
  }

  /** `state?.title || "Sessione Demo"`. */
  function SessionTitle(state: Option<NavState>): (r: string)
    ensures r != ""
    ensures state.Some? && state.value.title.Some? && state.value.title.value != "" ==>
      r == state.value.title.value
  {
    if state.Some? && state.value.title.Some? && state.value.title.value != "" then state.value.title.value
    else DemoTitle
  }

  /** The badge under the title: `Flashcard`, `Quiz Multiplo`, or `Quiz Aperto` for any other
      type. */
  function KindBadge(kind: string): (b: string)
    ensures kind == "flashcards" <==> b == "Flashcard"
    ensures kind == "quiz_multiple" <==> b == "Quiz Multiplo"
    ensures kind != "flashcards" && kind != "quiz_multiple" <==> b == "Quiz Aperto"
  {
    if kind == "flashcards" then "Flashcard"
    else if kind == "quiz_multiple" then "Quiz Multiplo"
    else "Quiz Aperto"
  }

  /** Handed-over items are used as they are, even an empty list. */
  lemma HandedOverItemsKept(state: NavState)
    requires state.items.Some?
    ensures SessionItems(Some(state)) == state.items.value
  {
  }

  /** Opened without navigation state, the page is in flashcard mode but shows the demo quiz,
      whose items are all questions: the two fallbacks disagree. */
  lemma DefaultsDisagree()
    ensures SessionKind(None) == "flashcards"
    ensures SessionItems(None) == DemoQuiz
    ensures forall k :: 0 <= k < |SessionItems(None)| ==> SessionItems(None)[k].Question?
  {
  }

  /** Without handed-over items the demo list matches the type only when the type is given as
      `flashcards`. */
  lemma DemoMatchesGivenKind(state: NavState)
    requires state.items.None?
    ensures state.kind == Some("flashcards") ==>
      forall k :: 0 <= k < |SessionItems(Some(state))| ==> SessionItems(Some(state))[k].Flashcard?
    ensures state.kind != Some("flashcards") ==> SessionItems(Some(state)) == DemoQuiz
  {
  }

  // ---------------------------------------------------------------------------------------
  // Grading

  /** `currentItem.options?.[k]`: absent when the item has no options or `k` is out of range. */
  function OptionAt(item: Item, k: int): (r: Option<string>)
    ensures r.Some? <==> item.Question? && item.options.Some? && 0 <= k < |item.options.value|
    ensures r.Some? ==> r.value == item.options.value[k]
  {
    if item.Question? && item.options.Some? && 0 <= k < |item.options.value| then
      Some(item.options.value[k])
    else None
  }

  /** `currentItem.correct_answer`, absent for a flashcard or a question without one. */
  function CorrectAnswerOf(item: Item): Option<string> {
    if item.Question? then item.correctAnswer else None
  }

  /** `currentItem.options?.[k] === currentItem.correct_answer`; two absent values are equal. */
  predicate MultipleChoiceCorrect(item: Item, k: int) {
    OptionAt(item, k) == CorrectAnswerOf(item)
  }

  /** How a multiple-choice answer is graded: the chosen option must be the correct answer;
      an absent option is correct only when the correct answer is absent too. */
  lemma MultipleChoiceGrading(item: Item, k: int)
    ensures item.Question? && item.options.Some? && 0 <= k < |item.options.value| && item.correctAnswer.Some? ==>
      (MultipleChoiceCorrect(item, k) <==> item.options.value[k] == item.correctAnswer.value)
    ensures OptionAt(item, k).None? ==> (MultipleChoiceCorrect(item, k) <==> CorrectAnswerOf(item).None?)
    ensures OptionAt(item, k).Some? && CorrectAnswerOf(item).None? ==> !MultipleChoiceCorrect(item, k)
  {
  }

  function Min(a: int, b: int): int {
    if a <= b then a else b
  }

  /** `currentItem.correct_answer?.toLowerCase().slice(0, 10)`, as `includes` sees it: the
      first ten characters of the lowered answer, or the text `undefined` when there is no
      answer (the optional chain yields `undefined`, which `includes` turns into a string). */
  function Needle(item: Item): (r: string)
    ensures CorrectAnswerOf(item).None? ==> r == "undefined"
    ensures CorrectAnswerOf(item).Some? ==>
      |r| == Min(10, |CorrectAnswerOf(item).value|) && r <= Lower(CorrectAnswerOf(item).value)
  {
    match CorrectAnswerOf(item)
    case None => "undefined"
    case Some(c) =>
      var l := Lower(c);
      l[..Min(10, |l|)]
  }

  /** `userAnswer.toLowerCase().includes(needle)`. */
  predicate OpenAnswerCorrect(answer: string, item: Item) {
    Includes(Lower(answer), Needle(item))
  }

  /** An empty correct answer accepts every answer. */
  lemma EmptyExpectedAlwaysCorrect(answer: string, item: Item)
    requires CorrectAnswerOf(item) == Some("")
    ensures OpenAnswerCorrect(answer, item)
  {
    IncludesEmpty(Lower(answer));
  }

  /** An answer that contains the whole correct answer, ignoring case, is accepted. */
  lemma ContainingExpectedIsCorrect(answer: string, item: Item)
    requires CorrectAnswerOf(item).Some?
    requires Includes(answer, CorrectAnswerOf(item).value)
    ensures OpenAnswerCorrect(answer, item)
  {
    IncludesLower(answer, CorrectAnswerOf(item).value);
    IncludesPrefix(Lower(answer), Lower(CorrectAnswerOf(item).value), Needle(item));
  }

  /** Only the first ten characters of the correct answer matter: two correct answers that
      agree on them grade every answer alike. */
  lemma OnlyFirstTenCount(answer: string, c1: string, c2: string, q: string, o: Option<seq<string>>)
    requires |c1| >= 10 && |c2| >= 10 && c1[..10] == c2[..10]
    ensures OpenAnswerCorrect(answer, Question(q, o, Some(c1))) == OpenAnswerCorrect(answer, Question(q, o, Some(c2)))
  {
    LowerSlice(c1, 0, 10);
    LowerSlice(c2, 0, 10);
  }

  /** Grading ignores the case of the typed answer. */
  lemma OpenGradingIgnoresCase(answer: string, item: Item)
    ensures OpenAnswerCorrect(Lower(answer), item) == OpenAnswerCorrect(answer, item)
  {
    LowerIdempotent(answer);
  }

  // ---------------------------------------------------------------------------------------
  // The session state and its transitions

  /** The six state variables of the page. */
  datatype Session = Session(currentIndex: int, flipped: bool, userAnswer: string,
                             selectedOption: Option<int>, showResult: bool, score: int)

  /** The state the page starts in. */
  const Initial := Session(0, false, "", None, false, 0)

  /** The current index points at an item. */
  predicate InBounds(items: seq<Item>, s: Session) {
    0 <= s.currentIndex < |items|
  }

  /** `items[currentIndex]`, absent (JavaScript's `undefined`) out of range. */
  function ItemAt(items: seq<Item>, i: int): (r: Option<Item>)
    ensures r.Some? <==> 0 <= i < |items|
    ensures r.Some? ==> r.value == items[i]
  {
    if 0 <= i < |items| then Some(items[i]) else None
  }

  /** Moving to item `j` clears everything about the previous item except the score. */
  function MoveTo(s: Session, j: int): Session {
    Session(j, false, "", None, false, s.score)
  }

  /** `handleNext`: on the last item nothing changes; otherwise the index goes up by one and
      the per-item state is cleared, the score kept. */
  function Next(items: seq<Item>, s: Session): (r: Session)
    ensures s.currentIndex == |items| - 1 ==> r == s
    ensures s.currentIndex != |items| - 1 ==>
      r.currentIndex == s.currentIndex + 1 && !r.flipped && r.userAnswer == ""
      && r.selectedOption.None? && !r.showResult
    ensures r.score == s.score
  {
    var isLast := s.currentIndex == |items| - 1;
    if !isLast then MoveTo(s, s.currentIndex + 1) else s
  }

  /** `handlePrev`: at the first item nothing changes; otherwise the index goes down by one
      and the per-item state is cleared, the score kept. */
  function Prev(s: Session): (r: Session)
    ensures s.currentIndex <= 0 ==> r == s
    ensures s.currentIndex > 0 ==>
      r.currentIndex == s.currentIndex - 1 && !r.flipped && r.userAnswer == ""
      && r.selectedOption.None? && !r.showResult
    ensures r.score == s.score
  {
    if s.currentIndex > 0 then MoveTo(s, s.currentIndex - 1) else s
  }

  /** The result of grading: one more point for a correct answer, and the result shown. */
  function Graded(s: Session, isCorrect: bool): Session {
    s.(score := if isCorrect then s.score + 1 else s.score, showResult := true)
  }

  /** `handleCheckAnswer`. In a multiple-choice quiz with an option chosen, and in an open quiz
      with a non-blank answer, the current item is graded and the result is shown; the score
      goes up by one for a correct answer. Anything else changes nothing. (Out of range the
      item is `undefined` and reading from it throws before any state is set.) */
  function Check(items: seq<Item>, kind: string, s: Session): Session
  {
    var current := ItemAt(items, s.currentIndex);
    if kind == "quiz_multiple" && s.selectedOption.Some? then
      if current.None? then s
      else
        Graded(s, MultipleChoiceCorrect(current.value, s.selectedOption.value))
    else if kind == "quiz_open" && Trim(s.userAnswer) != [] then
      if current.None? then s
      else
        Graded(s, OpenAnswerCorrect(s.userAnswer, current.value))
    else s
  }

  /** What a check does: flashcard sessions, a missing choice and a blank answer change
      nothing; otherwise only the score and the result change, the score goes up by one
      exactly when the answer is correct, and the result is shown. */
  lemma CheckGrades(items: seq<Item>, kind: string, s: Session)
    ensures kind != "quiz_multiple" && kind != "quiz_open" ==> Check(items, kind, s) == s
    ensures kind == "quiz_multiple" && s.selectedOption.None? ==> Check(items, kind, s) == s
    ensures kind == "quiz_open" && Trim(s.userAnswer) == [] ==> Check(items, kind, s) == s
    ensures !InBounds(items, s) ==> Check(items, kind, s) == s
    ensures s.score <= Check(items, kind, s).score <= s.score + 1
    ensures Check(items, kind, s) == s.(score := Check(items, kind, s).score, showResult := Check(items, kind, s).showResult)
    ensures kind == "quiz_multiple" && s.selectedOption.Some? && InBounds(items, s) ==>
      Check(items, kind, s).showResult
      && (Check(items, kind, s).score == s.score + 1 <==> MultipleChoiceCorrect(items[s.currentIndex], s.selectedOption.value))
    ensures kind == "quiz_open" && Trim(s.userAnswer) != [] && InBounds(items, s) ==>
      Check(items, kind, s).showResult
      && (Check(items, kind, s).score == s.score + 1 <==> OpenAnswerCorrect(s.userAnswer, items[s.currentIndex]))
  {
  }

  /** A check never moves the index, raises the score by at most one, and does nothing in
      flashcard mode. */
  lemma CheckIndexAndScore(items: seq<Item>, kind: string, s: Session)
    ensures Check(items, kind, s).currentIndex == s.currentIndex
    ensures s.score <= Check(items, kind, s).score <= s.score + 1
    ensures kind == "flashcards" ==> Check(items, kind, s) == s
  {
  }

  /** Clicking the card: `setFlipped(!flipped)`. */
  function Flip(s: Session): (r: Session)
    ensures r.flipped == !s.flipped
    ensures r.(flipped := s.flipped) == s
  {
    s.(flipped := !s.flipped)
  }

  /** Clicking option `k`: `!showResult && setSelectedOption(k)`. */
  function Select(s: Session, k: int): (r: Session)
    ensures s.showResult ==> r == s
    ensures !s.showResult ==> r.selectedOption == Some(k) && r.(selectedOption := s.selectedOption) == s
  {
    if !s.showResult then s.(selectedOption := Some(k)) else s
  }

  /** Typing in the answer box: `setUserAnswer(value)`. */
  function TypeAnswer(s: Session, a: string): (r: Session)
    ensures r.userAnswer == a && r.(userAnswer := s.userAnswer) == s
  {
    s.(userAnswer := a)
  }

  /** Flipping twice restores the state. */
  lemma FlipTwice(s: Session)
    ensures Flip(Flip(s)) == s
  {
  }

  /** What the page shows as the number of graded items: `currentIndex + (showResult ? 1 : 0)`. */
  function ShownTotal(s: Session): (n: int)
    ensures n == s.currentIndex || n == s.currentIndex + 1
    ensures n == s.currentIndex + 1 <==> s.showResult
  {
    s.currentIndex + (if s.showResult then 1 else 0)
  }

  // ---------------------------------------------------------------------------------------
  // Runs of events

  /** The user's actions on the page. */
  datatype Event = NextEvent | PrevEvent | CheckEvent | FlipEvent | SelectEvent(k: int) | TypeEvent(a: string)

  function Step(items: seq<Item>, kind: string, s: Session, e: Event): Session {
    match e
    case NextEvent => Next(items, s)
    case PrevEvent => Prev(s)
    case CheckEvent => Check(items, kind, s)
    case FlipEvent => Flip(s)
    case SelectEvent(k) => Select(s, k)
    case TypeEvent(a) => TypeAnswer(s, a)
  }

  /** The state after a sequence of events, applied left to right. */
  function Run(items: seq<Item>, kind: string, s: Session, es: seq<Event>): Session
    decreases |es|
  {
    if es == [] then s else Run(items, kind, Step(items, kind, s, es[0]), es[1..])
  }

  /** The number of answer checks in a sequence of events. */
  function Checks(es: seq<Event>): (n: nat)
    ensures n <= |es|
  {
    if es == [] then 0 else (if es[0].CheckEvent? then 1 else 0) + Checks(es[1..])
  }

  /** Every event keeps the index on an item. */
  lemma StepInBounds(items: seq<Item>, kind: string, s: Session, e: Event)
    requires InBounds(items, s)
    ensures InBounds(items, Step(items, kind, s, e))
  {
    match e
    case NextEvent =>
    case PrevEvent =>
    case CheckEvent => CheckIndexAndScore(items, kind, s);
    case FlipEvent =>
    case SelectEvent(k) =>
    case TypeEvent(a) =>
  }

  /** With at least one item, any run of events, navigation included, keeps the index between
      0 and the last item. */
  lemma {:induction false} RunInBounds(items: seq<Item>, kind: string, s: Session, es: seq<Event>)
    requires InBounds(items, s)
    ensures InBounds(items, Run(items, kind, s, es))
    decreases |es|
  {
    if es != [] {
      StepInBounds(items, kind, s, es[0]);
      RunInBounds(items, kind, Step(items, kind, s, es[0]), es[1..]);
    }
  }

  /** From the initial state, a non-empty item list keeps the index in range forever. */
  lemma SessionStaysInBounds(items: seq<Item>, kind: string, es: seq<Event>)
    requires items != []
    ensures 0 <= Run(items, kind, Initial, es).currentIndex < |items|
  {
    RunInBounds(items, kind, Initial, es);
  }

  /** One event raises the score by at most one, and only a check in a quiz raises it. */
  lemma StepScore(items: seq<Item>, kind: string, s: Session, e: Event)
    ensures s.score <= Step(items, kind, s, e).score <= s.score + (if e.CheckEvent? then 1 else 0)
    ensures kind == "flashcards" ==> Step(items, kind, s, e).score == s.score
  {
    match e
    case NextEvent =>
    case PrevEvent =>
    case CheckEvent => CheckIndexAndScore(items, kind, s);
    case FlipEvent =>
    case SelectEvent(k) =>
    case TypeEvent(a) =>
  }

  /** The score never goes down, and each check raises it by at most one. */
  lemma {:induction false} RunScore(items: seq<Item>, kind: string, s: Session, es: seq<Event>)
    ensures s.score <= Run(items, kind, s, es).score <= s.score + Checks(es)
    decreases |es|
  {
    if es != [] {
      StepScore(items, kind, s, es[0]);
      RunScore(items, kind, Step(items, kind, s, es[0]), es[1..]);
    }
  }

  /** In a flashcard session the score stays zero whatever the user does. */
  lemma {:induction false} FlashcardsNeverScore(items: seq<Item>, s: Session, es: seq<Event>)
    ensures Run(items, "flashcards", s, es).score == s.score
    decreases |es|
  {
    if es != [] {
      StepScore(items, "flashcards", s, es[0]);
      FlashcardsNeverScore(items, Step(items, "flashcards", s, es[0]), es[1..]);
    }
  }

  /** Running two sequences one after the other is running their concatenation. */
  lemma {:induction false} RunAppend(items: seq<Item>, kind: string, s: Session, a: seq<Event>, b: seq<Event>)
    ensures Run(items, kind, s, a + b) == Run(items, kind, Run(items, kind, s, a), b)
    decreases |a|
  {
    if a != [] {
      assert (a + b)[0] == a[0] && (a + b)[1..] == a[1..] + b;
      RunAppend(items, kind, Step(items, kind, s, a[0]), a[1..], b);
    } else {
      assert a + b == b;
    }
  }

  /** Choosing an option, checking it, moving on and coming back. */
  function Revisit(k: int): seq<Event> {
    [SelectEvent(k), CheckEvent, NextEvent, PrevEvent]
  }

  /** Coming back to an answered question clears its result, so it can be answered and scored
      again: each such round on a correctly answered first question adds one to the score and
      ends where it started. */
  lemma RevisitScoresAgain(items: seq<Item>, s: Session, k: int)
    requires |items| >= 2 && s.currentIndex == 0 && !s.showResult
    requires MultipleChoiceCorrect(items[0], k)
    ensures Run(items, "quiz_multiple", s, Revisit(k)) == MoveTo(s, 0).(score := s.score + 1)
  {
    var s1 := Select(s, k);
    var s2 := Check(items, "quiz_multiple", s1);
    CheckGrades(items, "quiz_multiple", s1);
    var s3 := Next(items, s2);
    var q := "quiz_multiple";
    assert Revisit(k)[1..] == [CheckEvent, NextEvent, PrevEvent];
    assert Run(items, q, s, Revisit(k)) == Run(items, q, s1, [CheckEvent, NextEvent, PrevEvent]);
    assert [CheckEvent, NextEvent, PrevEvent][1..] == [NextEvent, PrevEvent];
    assert Run(items, q, s1, [CheckEvent, NextEvent, PrevEvent]) == Run(items, q, s2, [NextEvent, PrevEvent]);
    assert [NextEvent, PrevEvent][1..] == [PrevEvent];
    assert Run(items, q, s2, [NextEvent, PrevEvent]) == Run(items, q, s3, [PrevEvent]);
    assert Run(items, q, s3, [PrevEvent]) == Prev(s3);
  }

  /** `n` rounds of [`Revisit`]. */
  function Rounds(k: int, n: nat): (es: seq<Event>)
    ensures |es| == 4 * n
  {
    if n == 0 then [] else Revisit(k) + Rounds(k, n - 1)
  }

  /** The score is therefore not bounded by the number of items: after `n` rounds on the demo
      quiz's first question it is `n`, while the page shows `0` graded items. */
  lemma {:induction false} ScoreExceedsItems(items: seq<Item>, k: int, n: nat)
    requires |items| >= 2 && MultipleChoiceCorrect(items[0], k)
    ensures Run(items, "quiz_multiple", Initial, Rounds(k, n)) == Initial.(score := n)
    ensures ShownTotal(Run(items, "quiz_multiple", Initial, Rounds(k, n))) == 0
  {
    if n > 0 {
      ScoreExceedsItems(items, k, n - 1);
      var t := Run(items, "quiz_multiple", Initial, Rounds(k, n - 1));
      RunAppend(items, "quiz_multiple", Initial, Rounds(k, n - 1), Revisit(k));
      RevisitScoresAgain(items, t, k);
      RoundsSwap(k, n - 1);
    }
  }

  /** One more round can be put at either end. */
  lemma {:induction false} RoundsSwap(k: int, n: nat)
    ensures Rounds(k, n + 1) == Rounds(k, n) + Revisit(k)
  {
    if n > 0 {
      RoundsSwap(k, n - 1);
      assert Rounds(k, n + 1) == Revisit(k) + (Rounds(k, n - 1) + Revisit(k));
    }
  }

  /** The demo quiz's second option is the correct answer to its first question. */
  lemma DemoFirstAnswer()
    ensures |DemoQuiz| == 2 && MultipleChoiceCorrect(DemoQuiz[0], 1)
  {
  }

  // ---------------------------------------------------------------------------------------
  // The page

  /** The mounted page: the resolved items, type and title are fixed, the six state variables
      are updated by the handlers. */
  class Page {
    const items: seq<Item>
    const kind: string
    const title: string
    var currentIndex: int
    var flipped: bool
    var userAnswer: string
    var selectedOption: Option<int>
    var showResult: bool
    var score: int

    /** The state variables as a value. */
    function State(): Session
      reads this
    {
      Session(currentIndex, flipped, userAnswer, selectedOption, showResult, score)
    }

    /** The index is on an item (when there is one) and the score is not negative. */
    predicate Valid()
      reads this
    {
      0 <= currentIndex && (items != [] ==> currentIndex < |items|) && 0 <= score
    }

    /** Opening the page with the navigation state `state`. */
    constructor (state: Option<NavState>)
      ensures items == SessionItems(state) && kind == SessionKind(state) && title == SessionTitle(state)
      ensures State() == Initial
      ensures Valid()
    {
      items := SessionItems(state);
      kind := SessionKind(state);
      title := SessionTitle(state);
      currentIndex := 0;
      flipped := false;
      userAnswer := "";
      selectedOption := None;
      showResult := false;
      score := 0;
    }

    /** Clears the per-item state after a move. */
    method ResetItem()
      modifies this
      ensures State() == old(State()).(flipped := false, userAnswer := "", selectedOption := None, showResult := false)
    {
      flipped := false;
      userAnswer := "";
      selectedOption := None;
      showResult := false;
    }

    method HandleNext()
      requires Valid()
      modifies this
      ensures State() == Next(items, old(State()))
      ensures Valid()
    {
      var isLast := currentIndex == |items| - 1;
      if !isLast {
        currentIndex := currentIndex + 1;
        ResetItem();
      }
    }

    method HandlePrev()
      requires Valid()
      modifies this
      ensures State() == Prev(old(State()))
      ensures Valid()
    {
      if currentIndex > 0 {
        currentIndex := currentIndex - 1;
        ResetItem();
      }
    }

    /** `if (isCorrect) setScore((s) => s + 1); setShowResult(true);` */
    method RecordResult(isCorrect: bool)
      modifies this
      ensures State() == Graded(old(State()), isCorrect)
    {
      if isCorrect {
        score := score + 1;
      }
      showResult := true;
    }

    method HandleCheckAnswer()
      requires Valid()
      modifies this
      ensures State() == Check(items, kind, old(State()))
      ensures Valid()
    {
      CheckGrades(items, kind, State());
      CheckIndexAndScore(items, kind, State());
      var current := ItemAt(items, currentIndex);
      if kind == "quiz_multiple" && selectedOption.Some? {
        if current.Some? {
          var isCorrect := MultipleChoiceCorrect(current.value, selectedOption.value);
          RecordResult(isCorrect);
        }
      } else if kind == "quiz_open" && Trim(userAnswer) != [] {
        if current.Some? {
          var isCorrect := OpenAnswerCorrect(userAnswer, current.value);
          RecordResult(isCorrect);
        }
      }
    }

    method HandleFlip()
      requires Valid()
      modifies this
      ensures State() == Flip(old(State()))
      ensures Valid()
    {
      flipped := !flipped;
    }

    method HandleSelect(k: int)
      requires Valid()
      modifies this
      ensures State() == Select(old(State()), k)
      ensures Valid()
    {
      if !showResult {
        selectedOption := Some(k);
      }
    }

    method HandleTyping(a: string)
      requires Valid()
      modifies this
      ensures State() == TypeAnswer(old(State()), a)
      ensures Valid()
    {
      userAnswer := a;
    }
  }
}
