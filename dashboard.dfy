/** The dashboard: the three-step wizard (indicators and panels), the difficulty cards and
    the older difficulty buttons, and the ways a game is started — from the wizard, from a
    fixed verse, or from a random popular verse. The page elements the module toggles are
    fields: the `data-step` of each indicator and panel (`None` where `parseInt` gives NaN),
    the `data-difficulty` of each card, the text of each difficulty button. */
module Dashboard {

  import opened Wrappers
  import opened JsString
  import opened Game

  // ---------------------------------------------------------------------------------
  // The step wizard

  datatype IndicatorState = Plain | Active | Completed

  /** The class an indicator carries after `goToStep(step)`. A NaN step compares false
      both ways. */
  function IndicatorFor(indicatorStep: Option<int>, step: int): (r: IndicatorState)
    ensures r == Completed <==> indicatorStep.Some? && indicatorStep.value < step
    ensures r == Active <==> indicatorStep == Some(step)
  {
    if indicatorStep.Some? && indicatorStep.value < step then Completed
    else if indicatorStep == Some(step) then Active
    else Plain
  }

  /** With indicators numbered 1..n in order, step s (1 <= s <= n) shows the s-1 indicators
      before it completed, its own active and the rest plain. */
  lemma WizardIndicators(steps: seq<Option<int>>, step: int, i: int)
    requires forall j :: 0 <= j < |steps| ==> steps[j] == Some(j + 1)
    requires 1 <= step <= |steps| && 0 <= i < |steps|
    ensures IndicatorFor(steps[i], step) == Completed <==> i < step - 1
    ensures IndicatorFor(steps[i], step) == Active <==> i == step - 1
    ensures IndicatorFor(steps[i], step) == Plain <==> i > step - 1
  {
  }

  /** The classes of all indicators after `goToStep(step)`, in page order. */
  function IndicatorStates(indicatorSteps: seq<Option<int>>, step: int): (r: seq<IndicatorState>)
    ensures |r| == |indicatorSteps|
    ensures forall i :: 0 <= i < |r| ==> r[i] == IndicatorFor(indicatorSteps[i], step)
  {
    seq(|indicatorSteps|, i requires 0 <= i < |indicatorSteps| => IndicatorFor(indicatorSteps[i], step))
  }

  /** Which panels carry the `active` class after `goToStep(step)`, in page order. */
  function PanelStates(panelSteps: seq<Option<int>>, step: int): (r: seq<bool>)
    ensures |r| == |panelSteps|
    ensures forall i :: 0 <= i < |r| ==> (r[i] <==> panelSteps[i] == Some(step))
  {
    seq(|panelSteps|, i requires 0 <= i < |panelSteps| => panelSteps[i] == Some(step))
  }

  /** When panels carry distinct steps, `goToStep(step)` leaves at most one panel active;
      it is the one carrying that step, and there is one exactly when some panel carries
      it. */
  lemma OnePanelActive(panelSteps: seq<Option<int>>, step: int)
    requires forall i, j :: 0 <= i < j < |panelSteps| ==> panelSteps[i] != panelSteps[j]
    ensures var active := PanelStates(panelSteps, step);
      && (forall i, j :: 0 <= i < |active| && 0 <= j < |active| && active[i] && active[j] ==> i == j)
      && (true in active <==> Some(step) in panelSteps)
  {
    var active := PanelStates(panelSteps, step);
    if Some(step) in panelSteps {
      var k :| 0 <= k < |panelSteps| && panelSteps[k] == Some(step);
      assert active[k];
    }
  }

  // ---------------------------------------------------------------------------------
  // Difficulty buttons and cards

  /** `{ easy: 0, medium: 1, hard: 2 }[difficulty]`. */
  function DifficultyIndex(difficulty: Option<string>): (r: Option<nat>)
    ensures r.Some? ==> r.value <= 2
  {
    if difficulty == Some("easy") then Some(0)
    else if difficulty == Some("medium") then Some(1)
    else if difficulty == Some("hard") then Some(2)
    else None
  }

  /** The three difficulties have distinct button positions; anything else has none. */
  lemma DifficultyIndexInjective(a: Option<string>, b: Option<string>)
    requires DifficultyIndex(a).Some? && DifficultyIndex(a) == DifficultyIndex(b)
    ensures a == b
    ensures a == Some("easy") || a == Some("medium") || a == Some("hard")
  {
  }

  /** The text of the first active button, as `querySelector('… button.active')` finds it. */
  function FirstActiveText(texts: seq<string>, active: seq<bool>): (r: Option<string>)
    requires |texts| == |active|
    ensures r.Some? <==> true in active
    ensures r.Some? ==> exists i :: 0 <= i < |active| && active[i] && texts[i] == r.value
                                     && forall j :: 0 <= j < i ==> !active[j]
  {
    if active == [] then None
    else if active[0] then Some(texts[0])
    else
      var r := FirstActiveText(texts[1..], active[1..]);
      assert active == [active[0]] + active[1..];
      if r.Some? then
        ghost var i :| 0 <= i < |active[1..]| && active[1..][i] && texts[1..][i] == r.value
                       && forall j :: 0 <= j < i ==> !active[1..][j];
        assert active[i + 1] && texts[i + 1] == r.value;
        assert forall j :: 0 <= j < i + 1 ==> !active[j] by {
          forall j | 0 <= j < i + 1 ensures !active[j] {
            if j > 0 {
              assert active[j] == active[1..][j - 1];
            }
          }
        }
        r
      else r
  }

  /** What the game reads from the active card: its `data-difficulty` when a card is
      active. */
  function CardInfo(cards: seq<Option<string>>, activeCard: Option<nat>): Option<Option<string>> {
    if activeCard.Some? && activeCard.value < |cards| then Some(cards[activeCard.value]) else None
  }

  /** A popular verse of the random quick action. */
  datatype VerseRef = VerseRef(book: string, chapter: string, verse: string)

  const PopularVerses: seq<VerseRef> := [
    VerseRef("John", "3", "16"),
    VerseRef("Philippians", "4", "13"),
    VerseRef("Jeremiah", "29", "11"),
    VerseRef("Proverbs", "3", "5"),
    VerseRef("Romans", "8", "28"),
    VerseRef("Psalm", "23", "1"),
    VerseRef("Isaiah", "40", "31"),
    VerseRef("Matthew", "11", "28"),
    VerseRef("Joshua", "1", "9"),
    VerseRef("Psalm", "46", "1")
  ]

  /** The daily verse is Jeremiah 29:11. */
  const DailyVerse: VerseRef := VerseRef("Jeremiah", "29", "11")

  /** The random quick action draws from ten verses, the daily verse among them. */
  lemma PopularVersesFacts()
    ensures |PopularVerses| == 10
    ensures DailyVerse in PopularVerses
    ensures PopularVerses[0] == VerseRef("John", "3", "16")
  {
    assert PopularVerses[2] == DailyVerse;
  }

  /** Which of `n` difficulty buttons are active after `setSelectedDifficulty(difficulty)`:
      the one at the difficulty's index, and none for any other value. */
  function ButtonStates(n: nat, difficulty: Option<string>): (r: seq<bool>)
    ensures |r| == n
    ensures forall i :: 0 <= i < n ==> (r[i] <==> DifficultyIndex(difficulty) == Some(i))
  {
    seq(n, i requires 0 <= i < n => DifficultyIndex(difficulty) == Some(i))
  }

  /** The difficulty the game ends up with when `startGameWithVerse` runs as written: the
      buttons are set for easy, but an active card is read first. */
  function VerseStartDifficulty(current: string, cards: seq<Option<string>>, activeCard: Option<nat>,
                                buttonTexts: seq<string>): string {
    DetectedDifficulty(current, CardInfo(cards, activeCard), FirstActiveText(buttonTexts, ButtonStates(|buttonTexts|, Some("easy"))))
  }

  /** The forced easy difficulty is lost whenever a card other than an easy one is active:
      after the player picked the hard card in the wizard, the random verse and the daily
      verse are played on hard. */
  lemma ForcedEasyOverridden(current: string, buttonTexts: seq<string>)
    ensures VerseStartDifficulty(current, [Some("easy"), Some("medium"), Some("hard")], Some(2), buttonTexts) == "hard"
    ensures VerseStartDifficulty(current, [Some("easy"), Some("medium"), Some("hard")], Some(1), buttonTexts) == "medium"
  {
  }

  /** With no card on the page and a first button that reads as easy, the as-written
      start does give easy; with no card and no button it keeps the last game's level. */
  lemma ForcedEasyWithoutCards(current: string, buttonTexts: seq<string>)
    ensures buttonTexts != [] && !Includes(ToLower(buttonTexts[0]), "hard") && !Includes(ToLower(buttonTexts[0]), "medium") ==>
      VerseStartDifficulty(current, [], None, buttonTexts) == "easy"
    ensures VerseStartDifficulty(current, [], None, []) == current
  {
    var buttons := ButtonStates(|buttonTexts|, Some("easy"));
    if buttonTexts != [] {
      assert DifficultyIndex(Some("easy")) == Some(0);
      assert buttons[0];
      assert FirstActiveText(buttonTexts, buttons) == Some(buttonTexts[0]);
    }
  }

  // ---------------------------------------------------------------------------------
  // The dashboard

  class Dashboard {
    var currentStep: int
    var selectedDifficulty: Option<string>
    const indicatorSteps: seq<Option<int>>
    var indicatorStates: seq<IndicatorState>
    const panelSteps: seq<Option<int>>
    var panelActive: seq<bool>
    const cardDifficulties: seq<Option<string>>
    var activeCard: Option<nat>
    const buttonTexts: seq<string>
    var buttonActive: seq<bool>
    var dashboardHidden: bool
    var gameHidden: bool
    var chromeHidden: bool
    const game: ScriptureGame

    /** Every element has its state and the active card exists. */
    predicate Valid()
      reads this
    {
      && |indicatorStates| == |indicatorSteps|
      && |panelActive| == |panelSteps|
      && |buttonActive| == |buttonTexts|
      && (activeCard.Some? ==> activeCard.value < |cardDifficulties|)
    }

    /** Module load: step 1, easy, and a new game. The page's initial `active` classes are
        taken as none, except for the card given. */
    constructor(indicatorSteps0: seq<Option<int>>, panelSteps0: seq<Option<int>>,
                cardDifficulties0: seq<Option<string>>, activeCard0: Option<nat>, buttonTexts0: seq<string>)
      requires activeCard0.Some? ==> activeCard0.value < |cardDifficulties0|
      ensures Valid() && fresh(game)
      ensures currentStep == 1 && selectedDifficulty == Some("easy")
      ensures indicatorSteps == indicatorSteps0 && panelSteps == panelSteps0
      ensures cardDifficulties == cardDifficulties0 && activeCard == activeCard0 && buttonTexts == buttonTexts0
      ensures game.currentDifficulty == "easy"
    {
      currentStep := 1;
      selectedDifficulty := Some("easy");
      indicatorSteps := indicatorSteps0;
      indicatorStates := seq(|indicatorSteps0|, _ => Plain);
      panelSteps := panelSteps0;
      panelActive := seq(|panelSteps0|, _ => false);
      cardDifficulties := cardDifficulties0;
      activeCard := activeCard0;
      buttonTexts := buttonTexts0;
      buttonActive := seq(|buttonTexts0|, _ => false);
      dashboardHidden := false;
      gameHidden := true;
      chromeHidden := false;
      game := new ScriptureGame();
    }

    /** `goToStep`: every indicator and every panel is reset and marked for `step`. */
    method GoToStep(step: int)
      requires Valid()
      modifies this
      ensures Valid() && currentStep == step
      ensures indicatorStates == IndicatorStates(indicatorSteps, step)
      ensures panelActive == PanelStates(panelSteps, step)
      ensures selectedDifficulty == old(selectedDifficulty) && activeCard == old(activeCard)
      ensures buttonActive == old(buttonActive)
      ensures dashboardHidden == old(dashboardHidden) && gameHidden == old(gameHidden) && chromeHidden == old(chromeHidden)
    {
      currentStep := step;
      var states := [];
      var i := 0;
      while i < |indicatorSteps|
        invariant 0 <= i <= |indicatorSteps| && |states| == i
        invariant forall j :: 0 <= j < i ==> states[j] == IndicatorFor(indicatorSteps[j], step)
      {
        states := states + [IndicatorFor(indicatorSteps[i], step)];
        i := i + 1;
      }
      indicatorStates := states;
      var active := [];
      i := 0;
      while i < |panelSteps|
        invariant 0 <= i <= |panelSteps| && |active| == i
        invariant forall j :: 0 <= j < i ==> (active[j] <==> panelSteps[j] == Some(step))
      {
        active := active + [panelSteps[i] == Some(step)];
        i := i + 1;
      }
      panelActive := active;
    }

    /** The step-1 Next button: without a book or a chapter a toast is shown and nothing
        changes; otherwise the wizard goes to step 2, marking step 1 completed. `None`
        stands for a missing element. */
    method Step1Next(book: Option<string>, chapter: Option<string>) returns (toast: bool)
      requires Valid()
      modifies this
      ensures Valid()
      ensures toast <==> book.None? || book.value == "" || chapter.None? || chapter.value == ""
      ensures toast ==> currentStep == old(currentStep) && indicatorStates == old(indicatorStates)
                        && panelActive == old(panelActive)
      ensures !toast ==> currentStep == 2 && indicatorStates == IndicatorStates(indicatorSteps, 2)
                         && panelActive == PanelStates(panelSteps, 2)
      ensures selectedDifficulty == old(selectedDifficulty) && activeCard == old(activeCard)
      ensures buttonActive == old(buttonActive)
      ensures dashboardHidden == old(dashboardHidden) && gameHidden == old(gameHidden) && chromeHidden == old(chromeHidden)
    {
      toast := book.None? || book.value == "" || chapter.None? || chapter.value == "";
      if toast {
        return;
      }
      GoToStep(2);
    }

    /** `setSelectedDifficulty`: exactly the button at the difficulty's index is active. */
    method SetSelectedDifficulty(difficulty: Option<string>)
      requires Valid()
      modifies this
      ensures Valid()
      ensures buttonActive == ButtonStates(|buttonTexts|, difficulty)
      ensures currentStep == old(currentStep) && selectedDifficulty == old(selectedDifficulty)
      ensures activeCard == old(activeCard) && indicatorStates == old(indicatorStates) && panelActive == old(panelActive)
      ensures dashboardHidden == old(dashboardHidden) && gameHidden == old(gameHidden) && chromeHidden == old(chromeHidden)
    {
      var index := DifficultyIndex(difficulty);
      var active := [];
      var i := 0;
      while i < |buttonTexts|
        invariant 0 <= i <= |buttonTexts| && |active| == i
        invariant forall j :: 0 <= j < i ==> (active[j] <==> index == Some(j))
      {
        active := active + [index == Some(i)];
        i := i + 1;
      }
      buttonActive := active;
    }

    /** A click on difficulty card `k`: it becomes the only active card and its
        `data-difficulty` the selected difficulty. */
    method CardClick(k: nat)
      requires Valid() && k < |cardDifficulties|
      modifies this
      ensures Valid()
      ensures activeCard == Some(k) && selectedDifficulty == cardDifficulties[k]
      ensures currentStep == old(currentStep) && buttonActive == old(buttonActive)
      ensures indicatorStates == old(indicatorStates) && panelActive == old(panelActive)
      ensures dashboardHidden == old(dashboardHidden) && gameHidden == old(gameHidden) && chromeHidden == old(chromeHidden)
    {
      activeCard := Some(k);
      selectedDifficulty := cardDifficulties[k];
    }

    /** Hides the dashboard and shows the game, then starts it on the fetched verse; the
        game's start hides the header and footer. */
    method Launch(verseText: Option<string>)
      requires Valid()
      modifies this, game
      ensures Valid()
      ensures dashboardHidden && !gameHidden && chromeHidden
      ensures game.currentDifficulty == DetectedDifficulty(old(game.currentDifficulty),
                CardInfo(cardDifficulties, activeCard), FirstActiveText(buttonTexts, buttonActive))
      ensures !game.isGameComplete && game.hintsRemaining == MaxHints
      ensures currentStep == old(currentStep) && selectedDifficulty == old(selectedDifficulty)
      ensures activeCard == old(activeCard) && buttonActive == old(buttonActive)
      ensures indicatorStates == old(indicatorStates) && panelActive == old(panelActive)
    {
      dashboardHidden := true;
      gameHidden := false;
      chromeHidden := true;
      game.Start(CardInfo(cardDifficulties, activeCard), FirstActiveText(buttonTexts, buttonActive), verseText);
    }

    /** `startGame` (the step-2 Start button): the buttons follow the selected difficulty
        and the game starts, reading the active card first. */
    method StartGame(verseText: Option<string>)
      requires Valid()
      modifies this, game
      ensures Valid()
      ensures dashboardHidden && !gameHidden && chromeHidden
      ensures buttonActive == ButtonStates(|buttonTexts|, old(selectedDifficulty))
      ensures game.currentDifficulty == DetectedDifficulty(old(game.currentDifficulty),
                CardInfo(cardDifficulties, old(activeCard)),
                FirstActiveText(buttonTexts, ButtonStates(|buttonTexts|, old(selectedDifficulty))))
      ensures !game.isGameComplete && game.hintsRemaining == MaxHints
      ensures selectedDifficulty == old(selectedDifficulty) && activeCard == old(activeCard)
      ensures currentStep == old(currentStep)
      ensures indicatorStates == old(indicatorStates) && panelActive == old(panelActive)
    {
      SetSelectedDifficulty(selectedDifficulty);
      Launch(verseText);
    }

    /** `startGameWithVerse` as written: easy is selected and the buttons set for it, but
        the game reads the card active before the call first (see `ForcedEasyOverridden`). */
    method StartGameWithVerse(verseText: Option<string>)
      requires Valid()
      modifies this, game
      ensures Valid()
      ensures selectedDifficulty == Some("easy") && dashboardHidden && !gameHidden && chromeHidden
      ensures buttonActive == ButtonStates(|buttonTexts|, Some("easy"))
      ensures game.currentDifficulty
              == VerseStartDifficulty(old(game.currentDifficulty), cardDifficulties, old(activeCard), buttonTexts)
      ensures !game.isGameComplete && game.hintsRemaining == MaxHints
      ensures activeCard == old(activeCard) && currentStep == old(currentStep)
      ensures indicatorStates == old(indicatorStates) && panelActive == old(panelActive)
    {
      selectedDifficulty := Some("easy");
      SetSelectedDifficulty(selectedDifficulty);
      Launch(verseText);
    }

    /** `startGameWithVerse` as intended: the forced easy difficulty is handed to the game
        directly, so the game always plays the verse on easy. */
    method StartGameWithVerseEasy(verseText: Option<string>)
      requires Valid()
      modifies this, game
      ensures Valid()
      ensures selectedDifficulty == Some("easy") && dashboardHidden && !gameHidden && chromeHidden
      ensures buttonActive == ButtonStates(|buttonTexts|, Some("easy"))
      ensures game.currentDifficulty == "easy"
      ensures !game.isGameComplete && game.hintsRemaining == MaxHints
      ensures activeCard == old(activeCard) && currentStep == old(currentStep)
      ensures indicatorStates == old(indicatorStates) && panelActive == old(panelActive)
    {
      selectedDifficulty := Some("easy");
      SetSelectedDifficulty(selectedDifficulty);
      dashboardHidden := true;
      gameHidden := false;
      chromeHidden := true;
      game.Start(Some(Some("easy")), None, verseText);
    }

    /** `startRandomVerse` as written: one of the popular verses is started through
        `startGameWithVerse`, so an active card still decides the difficulty. `fetch`
        stands for the verse text the game fetches for a reference. */
    method StartRandomVerse(fetch: VerseRef -> Option<string>) returns (chosen: VerseRef)
      requires Valid()
      modifies this, game
      ensures Valid()
      ensures chosen in PopularVerses
      ensures selectedDifficulty == Some("easy") && dashboardHidden && !gameHidden && chromeHidden
      ensures game.currentDifficulty
              == VerseStartDifficulty(old(game.currentDifficulty), cardDifficulties, old(activeCard), buttonTexts)
      ensures buttonActive == ButtonStates(|buttonTexts|, Some("easy"))
      ensures activeCard == old(activeCard) && currentStep == old(currentStep)
      ensures indicatorStates == old(indicatorStates) && panelActive == old(panelActive)
    {
      var k :| 0 <= k < |PopularVerses|;
      chosen := PopularVerses[k];
      StartGameWithVerse(fetch(chosen));
    }

    /** `startRandomVerse` as intended: the popular verse is always played on easy. */
    method StartRandomVerseEasy(fetch: VerseRef -> Option<string>) returns (chosen: VerseRef)
      requires Valid()
      modifies this, game
      ensures Valid()
      ensures chosen in PopularVerses
      ensures selectedDifficulty == Some("easy") && dashboardHidden && !gameHidden && chromeHidden
      ensures game.currentDifficulty == "easy"
      ensures buttonActive == ButtonStates(|buttonTexts|, Some("easy"))
      ensures activeCard == old(activeCard) && currentStep == old(currentStep)
      ensures indicatorStates == old(indicatorStates) && panelActive == old(panelActive)
    {
      var k :| 0 <= k < |PopularVerses|;
      chosen := PopularVerses[k];
      StartGameWithVerseEasy(fetch(chosen));
    }

    /** `showDashboard`: header, footer and dashboard shown, the game hidden, and the
        wizard back at step 1. */
    method ShowDashboard()
      requires Valid()
      modifies this
      ensures Valid()
      ensures !chromeHidden && !dashboardHidden && gameHidden && currentStep == 1
      ensures indicatorStates == IndicatorStates(indicatorSteps, 1)
      ensures panelActive == PanelStates(panelSteps, 1)
      ensures selectedDifficulty == old(selectedDifficulty) && activeCard == old(activeCard)
      ensures buttonActive == old(buttonActive)
    {
      chromeHidden := false;
      dashboardHidden := false;
      gameHidden := true;
      GoToStep(1);
    }
  }

  /** After the player clicks a card with a difficulty, the wizard's Start plays that
      difficulty, whatever the buttons say. */
  lemma CardDecidesWizardStart(current: string, cards: seq<Option<string>>, k: nat, buttonText: Option<string>)
    requires k < |cards| && cards[k].Some? && cards[k].value != ""
    ensures DetectedDifficulty(current, CardInfo(cards, Some(k)), buttonText) == cards[k].value
  {
  }
}
