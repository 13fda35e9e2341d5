/** The fill-in-the-blanks game: a verse is split into words, some of them are blanked
    out according to the difficulty, and the player fills the blanks in order from a
    shuffled bank of chips, with three hints per game. */
module Game {

  import opened Wrappers
  import opened JsString
  import opened Json
  import Subscription

  const Placeholder: string := "_____"
  const MaxHints: int := 3

  // ---------------------------------------------------------------------------------
  // Words, answers and how many words are hidden

  /** Index of the first space in `s`, if any. */
  function SpaceIndex(s: string): (r: Option<nat>)
    ensures r.Some? ==> r.value < |s| && s[r.value] == ' ' && ' ' !in s[..r.value]
    ensures r.None? ==> ' ' !in s
  {
    if s == [] then None
    else if s[0] == ' ' then Some(0)
    else match SpaceIndex(s[1..])
      case None => None
      case Some(i) => assert s[..i + 1] == [s[0]] + s[1..][..i]; Some(i + 1)
  }

  /** `s.split(" ")`: the pieces between single spaces, at least one. */
  function Split(s: string): (r: seq<string>)
    ensures |r| >= 1
    ensures forall i :: 0 <= i < |r| ==> ' ' !in r[i]
    decreases |s|
  {
    match SpaceIndex(s)
    case None => [s]
    case Some(i) => [s[..i]] + Split(s[i + 1..])
  }

  /** `words.join(" ")`. */
  function Join(words: seq<string>): string
    requires |words| >= 1
  {
    if |words| == 1 then words[0] else words[0] + " " + Join(words[1..])
  }

  /** Splitting loses nothing: joining the words with single spaces gives the text back. */
  lemma {:induction false} JoinSplit(s: string)
    ensures Join(Split(s)) == s
    decreases |s|
  {
    match SpaceIndex(s)
    case None =>
    case Some(i) =>
      JoinSplit(s[i + 1..]);
      assert Split(s) == [s[..i]] + Split(s[i + 1..]);
      assert s == s[..i] + " " + s[i + 1..];
  }

  /** The characters the answer regex removes. */
  predicate IsPunctuation(c: char) {
    c == '.' || c == ',' || c == ';' || c == '!' || c == '?' || c == '"'
  }

  /** `word.replace(/[.,;!?"]/g, "")`. */
  function Clean(word: string): (r: string)
    ensures |r| <= |word|
    ensures forall i :: 0 <= i < |r| ==> !IsPunctuation(r[i])
    ensures forall i :: 0 <= i < |r| ==> r[i] in word
    ensures |word| == 1 ==> r == if IsPunctuation(word[0]) then [] else word
  {
    if word == [] then []
    else if IsPunctuation(word[0]) then Clean(word[1..])
    else [word[0]] + Clean(word[1..])
  }

  /** A word without punctuation is its own answer, so cleaning twice is cleaning once. */
  lemma {:induction false} CleanKeepsPlainWords(word: string)
    requires forall i :: 0 <= i < |word| ==> !IsPunctuation(word[i])
    ensures Clean(word) == word
    decreases |word|
  {
    if word != [] {
      CleanKeepsPlainWords(word[1..]);
    }
  }

  /** Cleaning works character by character: the answer of a concatenation is the
      concatenation of the answers, so with the one-character case above the answer is
      the word's non-punctuation characters, in order. */
  lemma {:induction false} CleanConcat(a: string, b: string)
    ensures Clean(a + b) == Clean(a) + Clean(b)
    decreases |a|
  {
    if a == [] {
      assert a + b == b;
    } else {
      assert a + b == [a[0]] + (a[1..] + b);
      assert a == [a[0]] + a[1..];
      var h, x, y := Clean([a[0]]), Clean(a[1..]), Clean(b);
      CleanCons(a[0], a[1..] + b);
      CleanCons(a[0], a[1..]);
      CleanConcat(a[1..], b);
      assert Clean(a + b) == h + (x + y);
      assert Clean(a) == h + x;
      assert h + (x + y) == (h + x) + y;
    }
  }

  lemma CleanCons(c: char, t: string)
    ensures Clean([c] + t) == Clean([c]) + Clean(t)
  {
    assert ([c] + t)[0] == c;
    assert ([c] + t)[1..] == t;
  }

  lemma CleanIdempotent(word: string)
    ensures Clean(Clean(word)) == Clean(word)
  {
    CleanKeepsPlainWords(Clean(word));
  }

  /** The share of words hidden, as a fraction: medium 1/2, hard all, anything else 1/5. */
  function HideCount(n: nat, difficulty: string): (r: nat)
    ensures difficulty == "hard" ==> r == n
    ensures n >= 1 ==> 1 <= r <= n
    ensures difficulty == "medium" ==> r == if n == 0 then 0 else if n / 2 >= 1 then n / 2 else 1
    ensures difficulty != "medium" && difficulty != "hard" ==> r == if n == 0 then 0 else if n / 5 >= 1 then n / 5 else 1
  {
    if difficulty == "hard" then n
    else
      var floor := if difficulty == "medium" then n / 2 else n / 5;
      var target := if floor >= 1 then floor else 1;
      if target <= n then target else n
  }

  /** The indices 0 .. n-1. */
  function Range(n: nat): (r: set<nat>)
    ensures forall i: nat :: i in r <==> i < n
  {
    if n == 0 then {} else Range(n - 1) + {n - 1}
  }

  lemma {:induction false} RangeSize(n: nat)
    ensures |Range(n)| == n
  {
    if n > 0 {
      RangeSize(n - 1);
      assert n - 1 !in Range(n - 1);
    }
  }

  lemma {:induction false} SubsetSize(a: set<nat>, b: set<nat>)
    requires a <= b
    ensures |a| <= |b|
    decreases |a|
  {
    if a != {} {
      var x :| x in a;
      SubsetSize(a - {x}, b - {x});
    }
  }

  /** Hard mode: every index is hidden. */
  method HideAll(n: nat) returns (hidden: set<nat>)
    ensures hidden == Range(n)
  {
    hidden := {};
    for i := 0 to n
      invariant hidden == Range(i)
    {
      hidden := hidden + {i};
    }
  }

  /** Easy and medium: distinct random indices are drawn until `target` are hidden or every
      word is. A draw of an index already hidden changes nothing and is not modelled. */
  method HideSome(n: nat, target: nat) returns (hidden: set<nat>)
    ensures hidden <= Range(n)
    ensures |hidden| == if target <= n then target else n
  {
    hidden := {};
    while |hidden| < target && |hidden| < n
      invariant hidden <= Range(n)
      invariant |hidden| <= target || target <= n ==> |hidden| <= target
      invariant |hidden| <= n
      decreases n - |hidden|
    {
      if Range(n) <= hidden {
        RangeSize(n);
        SubsetSize(Range(n), hidden);
      }
      var i :| i in Range(n) && i !in hidden;
      hidden := hidden + {i};
    }
  }

  /** The indices `setupGamePlay` hides: all of them on hard, otherwise the number
      `HideCount` gives. */
  method ChooseHidden(n: nat, difficulty: string) returns (hidden: set<nat>)
    ensures hidden <= Range(n)
    ensures |hidden| == HideCount(n, difficulty)
    ensures difficulty == "hard" ==> hidden == Range(n)
  {
    if difficulty == "hard" {
      hidden := HideAll(n);
      RangeSize(n);
    } else {
      var floor := if difficulty == "medium" then n / 2 else n / 5;
      hidden := HideSome(n, if floor >= 1 then floor else 1);
    }
  }

  /** The answers of the hidden words among the first `k`, in verse order. */
  function Answers(words: seq<string>, hidden: set<nat>, k: nat): seq<string>
    requires k <= |words|
  {
    if k == 0 then []
    else Answers(words, hidden, k - 1) + (if k - 1 in hidden then [Clean(words[k - 1])] else [])
  }

  /** There is one answer per hidden index. */
  lemma {:induction false} AnswersCount(words: seq<string>, hidden: set<nat>, k: nat)
    requires k <= |words|
    ensures |Answers(words, hidden, k)| == |hidden * Range(k)|
  {
    if k > 0 {
      AnswersCount(words, hidden, k - 1);
      AnswersStep(words, hidden, k);
      HiddenPrefixStep(hidden, k);
    }
  }

  /** One more word adds one answer exactly when it is hidden. */
  lemma AnswersStep(words: seq<string>, hidden: set<nat>, k: nat)
    requires 0 < k <= |words|
    ensures |Answers(words, hidden, k)| == |Answers(words, hidden, k - 1)| + (if k - 1 in hidden then 1 else 0)
  {
  }

  /** Extending the prefix by one index adds that index to the hidden ones it holds
      exactly when it is hidden. */
  lemma HiddenPrefixStep(hidden: set<nat>, k: nat)
    requires k > 0
    ensures |hidden * Range(k)| == |hidden * Range(k - 1)| + (if k - 1 in hidden then 1 else 0)
  {
    var before := hidden * Range(k - 1);
    assert k - 1 !in before;
    if k - 1 in hidden {
      assert hidden * Range(k) == before + {k - 1};
    } else {
      assert hidden * Range(k) == before;
    }
  }

  /** The blanks rendered for a verse: one answer per hidden word, in verse order. */
  method RenderBlanks(words: seq<string>, hidden: set<nat>) returns (answers: seq<string>)
    requires hidden <= Range(|words|)
    ensures answers == Answers(words, hidden, |words|)
    ensures |answers| == |hidden|
  {
    answers := [];
    var i := 0;
    while i < |words|
      invariant 0 <= i <= |words|
      invariant answers == Answers(words, hidden, i)
    {
      if i in hidden {
        answers := answers + [Clean(words[i])];
      }
      i := i + 1;
    }
    assert hidden * Range(|words|) == hidden;
    AnswersCount(words, hidden, |words|);
  }

  /** A fresh board for a verse text: the hidden indices, the empty slots for their
      answers in verse order, and the word bank, a shuffle of those answers. */
  method NewBoard(text: string, difficulty: string) returns (hidden: set<nat>, board: seq<Slot>, bank: seq<string>)
    ensures hidden <= Range(|Split(text)|)
    ensures |hidden| == HideCount(|Split(text)|, difficulty) >= 1
    ensures board == EmptySlots(Answers(Split(text), hidden, |Split(text)|))
    ensures difficulty == "hard" ==> hidden == Range(|Split(text)|)
    ensures |board| == |hidden| == |bank|
    ensures multiset(bank) == multiset(AnswersOf(board))
  {
    var words := Split(text);
    hidden := ChooseHidden(|words|, difficulty);
    var answers := RenderBlanks(words, hidden);
    board := EmptySlots(answers);
    assert AnswersOf(board) == answers;
    bank :| multiset(bank) == multiset(answers);
    assert |bank| == |multiset(bank)| == |answers|;
  }

  // ---------------------------------------------------------------------------------
  // Difficulty

  /** `detectDifficulty`: an active difficulty card decides (its `data-difficulty`, or easy);
      failing that the active button's lower-cased text, `hard` checked before `medium`;
      with neither element the difficulty stays as it was. `card` is the active card's
      attribute when the card exists. */
  function DetectedDifficulty(current: string, card: Option<Option<string>>, buttonText: Option<string>): string {
    if card.Some? then
      (if card.value.Some? && card.value.value != "" then card.value.value else "easy")
    else if buttonText.Some? then
      var level := ToLower(buttonText.value);
      if Includes(level, "hard") then "hard"
      else if Includes(level, "medium") then "medium"
      else "easy"
    else current
  }

  /** A card always wins over the buttons; a button reading both `hard` and `medium` gives
      hard; a button with neither word gives easy. */
  lemma DifficultyRules(current: string, card: Option<Option<string>>, buttonText: Option<string>)
    ensures card.Some? && card.value.Some? && card.value.value != "" ==>
      DetectedDifficulty(current, card, buttonText) == card.value.value
    ensures card.Some? && (card.value.None? || card.value.value == "") ==>
      DetectedDifficulty(current, card, buttonText) == "easy"
    ensures card.None? && buttonText.Some? && Includes(ToLower(buttonText.value), "hard") ==>
      DetectedDifficulty(current, card, buttonText) == "hard"
    ensures (card.None? && buttonText.Some? && !Includes(ToLower(buttonText.value), "hard") &&
             Includes(ToLower(buttonText.value), "medium")) ==>
      DetectedDifficulty(current, card, buttonText) == "medium"
    ensures card.None? && buttonText.None? ==> DetectedDifficulty(current, card, buttonText) == current
  {
  }

  // ---------------------------------------------------------------------------------
  // The board

  /** A blank: its answer and what it shows (the placeholder while empty). */
  datatype Slot = Slot(answer: string, text: string)

  predicate IsEmpty(s: Slot) {
    s.text == Placeholder
  }

  /** A row of empty slots for the given answers. */
  function EmptySlots(answers: seq<string>): (r: seq<Slot>)
    ensures |r| == |answers|
    ensures forall i :: 0 <= i < |r| ==> r[i] == Slot(answers[i], Placeholder) && IsEmpty(r[i])
  {
    seq(|answers|, i requires 0 <= i < |answers| => Slot(answers[i], Placeholder))
  }

  /** The answers of the slots, in order. */
  function AnswersOf(slots: seq<Slot>): (r: seq<string>)
    ensures |r| == |slots| && forall i :: 0 <= i < |slots| ==> r[i] == slots[i].answer
  {
    seq(|slots|, i requires 0 <= i < |slots| => slots[i].answer)
  }

  /** The first slot still showing the placeholder. */
  function FirstEmpty(slots: seq<Slot>): (r: Option<nat>)
    ensures r.Some? ==> r.value < |slots| && IsEmpty(slots[r.value])
    ensures r.Some? ==> forall t :: 0 <= t < r.value ==> !IsEmpty(slots[t])
    ensures r.None? ==> forall t :: 0 <= t < |slots| ==> !IsEmpty(slots[t])
  {
    if slots == [] then None
    else if IsEmpty(slots[0]) then Some(0)
    else match FirstEmpty(slots[1..])
      case None => None
      case Some(t) => Some(t + 1)
  }

  /** A chip's word fits an answer when the two agree after trimming. */
  predicate Fits(word: string, answer: string) {
    Trim(word) == Trim(answer)
  }

  /** The first chip whose word fits the answer (`Array.find`). */
  function MatchingChip(chips: seq<string>, answer: string): (r: Option<nat>)
    ensures r.Some? ==> r.value < |chips| && Fits(chips[r.value], answer)
    ensures r.Some? ==> forall k :: 0 <= k < r.value ==> !Fits(chips[k], answer)
    ensures r.None? ==> forall k :: 0 <= k < |chips| ==> !Fits(chips[k], answer)
  {
    if chips == [] then None
    else if Fits(chips[0], answer) then Some(0)
    else match MatchingChip(chips[1..], answer)
      case None => None
      case Some(k) => Some(k + 1)
  }

  function RemoveAt(chips: seq<string>, k: nat): (r: seq<string>)
    requires k < |chips|
    ensures |r| == |chips| - 1
    ensures multiset(r) == multiset(chips) - multiset{chips[k]}
  {
    assert chips == chips[..k] + [chips[k]] + chips[k + 1..];
    chips[..k] + chips[k + 1..]
  }

  /** `ScriptureGame` together with the board its last setup rendered: the blank slots in
      verse order, the chips left in the word bank in display order, and the counters the
      chip handlers share. `wrongCount` counts wrong placements, which the code does not
      keep but which explains where the missing correct answers went. */
  class ScriptureGame {
    var isGameComplete: bool
    var hintsRemaining: int
    var currentDifficulty: string
    var slots: seq<Slot>
    var chips: seq<string>
    var correctCount: nat
    var totalBlanks: nat
    ghost var wrongCount: nat

    /** Every blank is answered correctly, answered wrongly, or still has its chip in the
        bank; hints stay within 0..3. */
    ghost predicate Valid()
      reads this
    {
      && correctCount + wrongCount + |chips| == totalBlanks
      && 0 <= hintsRemaining <= MaxHints
    }

    constructor()
      ensures Valid()
      ensures !isGameComplete && hintsRemaining == MaxHints && currentDifficulty == "easy"
      ensures slots == [] && chips == [] && correctCount == 0 && totalBlanks == 0
    {
      isGameComplete := false;
      hintsRemaining := MaxHints;
      currentDifficulty := "easy";
      slots := [];
      chips := [];
      correctCount := 0;
      totalBlanks := 0;
      wrongCount := 0;
    }

    method DetectDifficulty(card: Option<Option<string>>, buttonText: Option<string>)
      modifies this
      ensures currentDifficulty == DetectedDifficulty(old(currentDifficulty), card, buttonText)
      ensures isGameComplete == old(isGameComplete) && hintsRemaining == old(hintsRemaining)
      ensures slots == old(slots) && chips == old(chips)
      ensures correctCount == old(correctCount) && totalBlanks == old(totalBlanks) && wrongCount == old(wrongCount)
    {
      currentDifficulty := DetectedDifficulty(currentDifficulty, card, buttonText);
    }

    /** `setupGamePlay` and `renderWordChips`: a fresh board for the verse text. */
    method SetupGamePlay(text: string) returns (hidden: set<nat>)
      modifies this
      ensures hidden <= Range(|Split(text)|)
      ensures |hidden| == totalBlanks == HideCount(|Split(text)|, currentDifficulty) >= 1
      ensures slots == EmptySlots(Answers(Split(text), hidden, |Split(text)|))
      ensures currentDifficulty == "hard" ==> hidden == Range(|Split(text)|)
      ensures |slots| == totalBlanks
      ensures multiset(chips) == multiset(AnswersOf(slots))
      ensures correctCount == 0 && wrongCount == 0
      ensures isGameComplete == old(isGameComplete) && hintsRemaining == old(hintsRemaining)
      ensures currentDifficulty == old(currentDifficulty)
      ensures 0 <= hintsRemaining <= MaxHints ==> Valid()
    {
      var board, bank;
      hidden, board, bank := NewBoard(text, currentDifficulty);
      assert |bank| == |board|;
      slots := board;
      chips := bank;
      correctCount := 0;
      totalBlanks := |board|;
      wrongCount := 0;
    }

    /** `start`: the flags are reset, the difficulty detected, and the board set up from
        the fetched verse; when the fetch fails the text area shows an error and no slot. */
    method Start(card: Option<Option<string>>, buttonText: Option<string>, verseText: Option<string>)
      modifies this
      ensures !isGameComplete && hintsRemaining == MaxHints
      ensures currentDifficulty == DetectedDifficulty(old(currentDifficulty), card, buttonText)
      ensures verseText.None? ==> slots == [] && chips == old(chips) && correctCount == old(correctCount)
                                  && totalBlanks == old(totalBlanks) && wrongCount == old(wrongCount)
      ensures verseText.Some? ==> |slots| == totalBlanks == HideCount(|Split(verseText.value)|, currentDifficulty)
                                  && correctCount == 0 && |chips| == totalBlanks
                                  && forall i :: 0 <= i < |slots| ==> IsEmpty(slots[i])
      ensures old(Valid()) || verseText.Some? ==> Valid()
    {
      isGameComplete := false;
      hintsRemaining := MaxHints;
      DetectDifficulty(card, buttonText);
      if verseText.None? {
        slots := [];
        return;
      }
      var _ := SetupGamePlay(verseText.value);
    }

    /** `handleWin`: the game is complete; the verse counts as mastered only on hard. */
    method HandleWin() returns (mastered: bool)
      modifies this
      ensures isGameComplete
      ensures mastered <==> currentDifficulty == "hard"
      ensures hintsRemaining == old(hintsRemaining) && currentDifficulty == old(currentDifficulty)
      ensures slots == old(slots) && chips == old(chips)
      ensures correctCount == old(correctCount) && totalBlanks == old(totalBlanks) && wrongCount == old(wrongCount)
    {
      isGameComplete := true;
      mastered := currentDifficulty == "hard";
    }

    /** A click on chip `k`: the chip's word goes into the first empty slot and the chip
        leaves the bank; a word equal to the answer after trimming counts as correct, and
        the count reaching the number of blanks wins. With no empty slot nothing changes. */
    method ClickChip(k: nat)
      requires k < |chips|
      modifies this
      ensures FirstEmpty(old(slots)).None? ==>
        slots == old(slots) && chips == old(chips) && correctCount == old(correctCount)
        && wrongCount == old(wrongCount) && isGameComplete == old(isGameComplete)
      ensures FirstEmpty(old(slots)).Some? ==>
        var j := FirstEmpty(old(slots)).value;
        var right := Fits(old(chips)[k], old(slots)[j].answer);
        && slots == old(slots)[j := Slot(old(slots)[j].answer, old(chips)[k])]
        && chips == RemoveAt(old(chips), k)
        && correctCount == (if right then old(correctCount) + 1 else old(correctCount))
        && wrongCount == (if right then old(wrongCount) else old(wrongCount) + 1)
        && isGameComplete == (old(isGameComplete) || (right && correctCount == totalBlanks))
      ensures hintsRemaining == old(hintsRemaining) && currentDifficulty == old(currentDifficulty)
      ensures totalBlanks == old(totalBlanks)
      ensures old(Valid()) ==> Valid()
    {
      var word := chips[k];
      var j := 0;
      while j < |slots| && !IsEmpty(slots[j])
        invariant 0 <= j <= |slots|
        invariant forall t :: 0 <= t < j ==> !IsEmpty(slots[t])
      {
        j := j + 1;
      }
      if j == |slots| {
        return;
      }
      assert FirstEmpty(slots) == Some(j);
      var answer := slots[j].answer;
      slots := slots[j := Slot(answer, word)];
      if Fits(word, answer) {
        correctCount := correctCount + 1;
        if correctCount == totalBlanks {
          var _ := HandleWin();
        }
      } else {
        wrongCount := wrongCount + 1;
      }
      chips := RemoveAt(chips, k);
    }

    /** The hint button: unless the game is complete or no hint is left, the first chip
        matching the first empty slot's answer is spent on that slot, which is then filled
        correctly; without a matching chip nothing changes. */
    method Hint()
      modifies this
      ensures old(isGameComplete) || old(hintsRemaining) <= 0 || FirstEmpty(old(slots)).None?
              || MatchingChip(old(chips), old(slots)[FirstEmpty(old(slots)).value].answer).None? ==>
        slots == old(slots) && chips == old(chips) && correctCount == old(correctCount)
        && hintsRemaining == old(hintsRemaining) && isGameComplete == old(isGameComplete)
        && wrongCount == old(wrongCount)
      ensures !old(isGameComplete) && old(hintsRemaining) > 0 && FirstEmpty(old(slots)).Some?
              && MatchingChip(old(chips), old(slots)[FirstEmpty(old(slots)).value].answer).Some? ==>
        var j := FirstEmpty(old(slots)).value;
        var k := MatchingChip(old(chips), old(slots)[j].answer).value;
        && hintsRemaining == old(hintsRemaining) - 1
        && slots == old(slots)[j := Slot(old(slots)[j].answer, old(chips)[k])]
        && chips == RemoveAt(old(chips), k)
        && correctCount == old(correctCount) + 1
        && wrongCount == old(wrongCount)
        && isGameComplete == (correctCount == totalBlanks)
      ensures hintsRemaining >= 0 || hintsRemaining == old(hintsRemaining)
      ensures currentDifficulty == old(currentDifficulty) && totalBlanks == old(totalBlanks)
      ensures old(Valid()) ==> Valid()
    {
      if isGameComplete || hintsRemaining <= 0 {
        return;
      }
      var j := FirstEmpty(slots);
      if j.None? {
        return;
      }
      var k := MatchingChip(chips, slots[j.value].answer);
      if k.None? {
        return;
      }
      hintsRemaining := hintsRemaining - 1;
      ClickChip(k.value);
    }
  }

  /** In hard mode the answers are the cleaned words themselves, in order. */
  lemma AllHiddenAnswers(words: seq<string>, n: nat)
    requires n == |words|
    ensures |Answers(words, Range(n), n)| == n
    ensures forall i :: 0 <= i < n ==> Answers(words, Range(n), n)[i] == Clean(words[i])
  {
    AllHiddenPrefix(words, n);
  }

  lemma {:induction false} AllHiddenPrefix(words: seq<string>, k: nat)
    requires k <= |words|
    ensures Answers(words, Range(|words|), k) == seq(k, i requires 0 <= i < k => Clean(words[i]))
  {
    if k > 0 {
      AllHiddenPrefix(words, k - 1);
      assert k - 1 in Range(|words|);
    }
  }

  /** Correct answers never exceed the blanks, and once a placement has been wrong the
      count can no longer reach the number of blanks: that board cannot be won. */
  lemma WrongPlacementBlocksWin(g: ScriptureGame)
    requires g.Valid()
    ensures g.correctCount <= g.totalBlanks
    ensures g.wrongCount > 0 ==> g.correctCount < g.totalBlanks
  {
  }

  // ---------------------------------------------------------------------------------
  // The AI buttons: verse insight during play, prayer after a win

  /** What the proxy call inside `getGeminiContent` comes back with: `CallFailed` when the
      ID token, the fetch or the reading of the reply body throws; otherwise the reply's
      status and its body's `content` field. */
  datatype ProxyAnswer = CallFailed | ProxyReply(status: int, content: Option<Value>)

  const OfflineAIText: string := "You're offline. AI features require an internet connection."
  const SignInAIText: string := "Sign in to unlock AI-powered insights and prayers for each verse you study."
  const InsightLimitText: string := "You've reached the insight limit. Take a moment to reflect, then try again."
  const UnexpectedAIText: string := "Sorry, the AI returned an unexpected response."
  const UnavailableAIText: string := "AI is temporarily unavailable. The game continues in Standard mode!"

  /** The provider's own text came back: online, signed in, a 2xx reply and a truthy
      `content`. */
  predicate ProviderAnswered(online: bool, signedIn: bool, answer: ProxyAnswer) {
    online && signedIn && answer.ProxyReply? && 200 <= answer.status < 300 && Present(answer.content)
  }

  /** `getGeminiContent` (shared by `getVerseInsight` and `getVersePrayer`): it never fails.
      It resolves with the provider's text when there is one and with one of five fixed
      texts otherwise; a failed call and a non-2xx reply other than 429 are caught inside
      it and become the "temporarily unavailable" text. */
  function GeminiContent(online: bool, signedIn: bool, answer: ProxyAnswer): (r: Value)
    ensures Truthy(r)
    ensures ProviderAnswered(online, signedIn, answer) ==> r == answer.content.value
    ensures !ProviderAnswered(online, signedIn, answer) ==>
      r in {Text(OfflineAIText), Text(SignInAIText), Text(InsightLimitText), Text(UnexpectedAIText), Text(UnavailableAIText)}
    ensures !online ==> r == Text(OfflineAIText)
    ensures online && !signedIn ==> r == Text(SignInAIText)
  {
    if !online then Text(OfflineAIText)
    else if !signedIn then Text(SignInAIText)
    else match answer
      case CallFailed => Text(UnavailableAIText)
      case ProxyReply(status, content) =>
        if !(200 <= status < 300) then
          if status == 429 then Text(InsightLimitText) else Text(UnavailableAIText)
        else if Present(content) then content.value
        else Text(UnexpectedAIText)
  }

  /** What a click on an AI button ends in. `text` is what `getGeminiContent` resolved
      with; `remaining` is what the quota check reports after the request was counted
      (the insight shows it, the prayer does not). `Unavailable` is the handler's `catch`,
      which only a failed `import()` of the subscription module can still reach. */
  datatype AIOutcome =
    | CompleteNotice
    | OfflineNotice
    | SignInNotice
    | UpgradePrompt
    | Delivered(text: Value, remaining: Subscription.Limit)
    | Unavailable

  /** The request both AI buttons make once shown, as written: the subscription module is
      imported (`importFails` when that throws), the quota checked, the provider asked, and
      the request counted whatever text came back, with the remaining count read again
      afterwards. `incrementFails` is a counter write that fails, which `incrementAIUsage`
      swallows. */
  function AIRequest(users: map<string, Doc>, user: Option<string>, readFails: bool, now: int, today: string,
                     importFails: bool, online: bool, answer: ProxyAnswer, incrementFails: bool)
    : (AIOutcome, map<string, Doc>)
  {
    if importFails then (Unavailable, users)
    else if !Subscription.CheckAIUsage(users, user, readFails, now, today).allowed then (UpgradePrompt, users)
    else
      var after := Subscription.IncrementSpec(users, user, today, incrementFails);
      (Delivered(GeminiContent(online, user.Some?, answer), Subscription.CheckAIUsage(after, user, readFails, now, today).remaining), after)
  }

  /** The prayer button's request (and the insight's, past its own checks): a text is
      delivered exactly when the module loads and the quota allows, and then the day's
      count is raised by one, whatever the provider answered. Otherwise nothing is
      written. */
  lemma AIRequestRules(users: map<string, Doc>, user: Option<string>, readFails: bool, now: int, today: string,
                       importFails: bool, online: bool, answer: ProxyAnswer, incrementFails: bool)
    ensures var (outcome, after) := AIRequest(users, user, readFails, now, today, importFails, online, answer, incrementFails);
      && (importFails ==> outcome == Unavailable)
      && (!importFails && !Subscription.CheckAIUsage(users, user, readFails, now, today).allowed ==> outcome == UpgradePrompt)
      && (outcome.Delivered? <==> !importFails && Subscription.CheckAIUsage(users, user, readFails, now, today).allowed)
      && (outcome.Delivered? ==>
            outcome.text == GeminiContent(online, user.Some?, answer)
            && after == Subscription.IncrementSpec(users, user, today, incrementFails))
      && (!outcome.Delivered? ==> after == users)
      && (outcome.Delivered? && user.Some? && !incrementFails && user.value in users ==>
            user.value in after
            && Subscription.TodayCount(after[user.value], today) == Subscription.TodayCount(users[user.value], today) + 1.0)
  {
    if user.Some? && !incrementFails && user.value in users {
      Subscription.IncrementCounts(users, user.value, today);
    }
  }

  /** As written, a provider that fails is still counted: a signed-in user with no request
      today whose proxy answers 500 is shown the "temporarily unavailable" text and has one
      request fewer left. */
  lemma FailedProviderCounted(users: map<string, Doc>, uid: string, now: int, today: string)
    requires uid in users && Subscription.TodayCount(users[uid], today) == 0.0
    ensures !ProviderAnswered(true, true, ProxyReply(500, None))
    ensures var (outcome, after) := InsightClick(false, true, users, Some(uid), false, now, today, false, ProxyReply(500, None), false);
      && outcome.Delivered? && outcome.text == Text(UnavailableAIText)
      && uid in after && Subscription.TodayCount(after[uid], today) == 1.0
  {
    Subscription.QuotaRules(users, Some(uid), false, now, today);
    Subscription.IncrementCounts(users, uid, today);
  }

  /** The request as the comment "Increment usage after successful request" means it: the
      same outcome, but the day's count is raised only when the provider's own text came
      back; a fallback text is shown without being counted. */
  function AIRequestCountingAnswers(users: map<string, Doc>, user: Option<string>, readFails: bool, now: int, today: string,
                                    importFails: bool, online: bool, answer: ProxyAnswer, incrementFails: bool)
    : (r: (AIOutcome, map<string, Doc>))
    ensures r.1 != users ==> ProviderAnswered(online, user.Some?, answer)
  {
    if importFails then (Unavailable, users)
    else if !Subscription.CheckAIUsage(users, user, readFails, now, today).allowed then (UpgradePrompt, users)
    else
      var after := if ProviderAnswered(online, user.Some?, answer) then Subscription.IncrementSpec(users, user, today, incrementFails) else users;
      (Delivered(GeminiContent(online, user.Some?, answer), Subscription.CheckAIUsage(after, user, readFails, now, today).remaining), after)
  }

  /** The corrected request shows what the as-written one shows, and counts a request
      exactly when the as-written one does and the provider answered: a fallback text
      leaves the store as it was. */
  lemma CountingAnswersRules(users: map<string, Doc>, user: Option<string>, readFails: bool, now: int, today: string,
                             importFails: bool, online: bool, answer: ProxyAnswer, incrementFails: bool)
    ensures var (outcome, after) := AIRequestCountingAnswers(users, user, readFails, now, today, importFails, online, answer, incrementFails);
      var (written, writtenAfter) := AIRequest(users, user, readFails, now, today, importFails, online, answer, incrementFails);
      && outcome.Delivered? == written.Delivered?
      && (!outcome.Delivered? ==> outcome == written && after == users)
      && (outcome.Delivered? ==> outcome.text == written.text)
      && (ProviderAnswered(online, user.Some?, answer) ==> after == writtenAfter)
      && (!ProviderAnswered(online, user.Some?, answer) ==> after == users)
  {
  }

  /** The insight button: refused after a win, offline and when signed out, before the
      quota is looked at. */
  function InsightClick(isGameComplete: bool, online: bool, users: map<string, Doc>, user: Option<string>,
                        readFails: bool, now: int, today: string, importFails: bool, answer: ProxyAnswer,
                        incrementFails: bool)
    : (AIOutcome, map<string, Doc>)
  {
    if isGameComplete then (CompleteNotice, users)
    else if !online then (OfflineNotice, users)
    else if user.None? then (SignInNotice, users)
    else AIRequest(users, user, readFails, now, today, importFails, online, answer, incrementFails)
  }

  /** The notices, the upgrade prompt and a failed module load write nothing. Every
      insight that gets past them is counted by the day's increment, whatever the provider
      answered, and shows what `getGeminiContent` resolved with. A free account that is
      out of requests is always sent to the upgrade prompt. */
  lemma InsightClickRules(isGameComplete: bool, online: bool, users: map<string, Doc>, user: Option<string>,
                          readFails: bool, now: int, today: string, importFails: bool, answer: ProxyAnswer,
                          incrementFails: bool)
    ensures var (outcome, after) := InsightClick(isGameComplete, online, users, user, readFails, now, today, importFails, answer, incrementFails);
      && (isGameComplete ==> outcome == CompleteNotice)
      && (!isGameComplete && !online ==> outcome == OfflineNotice)
      && (!isGameComplete && online && user.None? ==> outcome == SignInNotice)
      && (!outcome.Delivered? ==> after == users)
      && (outcome.Delivered? ==>
            after == Subscription.IncrementSpec(users, user, today, incrementFails)
            && outcome.text == GeminiContent(true, true, answer))
      && (outcome.Delivered? <==>
            (!isGameComplete && online && user.Some? && !importFails
             && Subscription.CheckAIUsage(users, user, readFails, now, today).allowed))
      && ((!isGameComplete && online && user.Some? && !importFails
           && !Subscription.GetSubscriptionStatus(users, user, readFails, now, today).isActive
           && Subscription.GetSubscriptionStatus(users, user, readFails, now, today).aiRequestsToday >= 3.0)
          ==> outcome == UpgradePrompt)
  {
    Subscription.QuotaRules(users, user, readFails, now, today);
  }

  /** On a free account that has made no request today, three insights use up the day
      whatever the provider answers: the third reports none remaining and the fourth click
      is sent to the upgrade prompt without reaching the provider or the counter. */
  lemma FourthInsightNeedsUpgrade(users: map<string, Doc>, uid: string, now: int, today: string,
                                  a1: ProxyAnswer, a2: ProxyAnswer, a3: ProxyAnswer, a4: ProxyAnswer)
    requires uid in users && Subscription.TodayCount(users[uid], today) == 0.0
    requires !Subscription.GetSubscriptionStatus(users, Some(uid), false, now, today).isActive
    ensures var (o1, u1) := InsightClick(false, true, users, Some(uid), false, now, today, false, a1, false);
      var (o2, u2) := InsightClick(false, true, u1, Some(uid), false, now, today, false, a2, false);
      var (o3, u3) := InsightClick(false, true, u2, Some(uid), false, now, today, false, a3, false);
      var (o4, u4) := InsightClick(false, true, u3, Some(uid), false, now, today, false, a4, false);
      && o1 == Delivered(GeminiContent(true, true, a1), Subscription.Finite(2.0))
      && o3 == Delivered(GeminiContent(true, true, a3), Subscription.Finite(0.0))
      && o4 == UpgradePrompt && u4 == u3
  {
    var u1 := Subscription.IncrementSpec(users, Some(uid), today, false);
    var u2 := Subscription.IncrementSpec(u1, Some(uid), today, false);
    var u3 := Subscription.IncrementSpec(u2, Some(uid), today, false);
    Subscription.IncrementCounts(users, uid, today);
    Subscription.IncrementCounts(u1, uid, today);
    Subscription.IncrementCounts(u2, uid, today);
    Subscription.ThreeRequestsExhaustFreeQuota(users, uid, now, today);
    assert Subscription.ExpiresAt(u1[uid]) == Subscription.ExpiresAt(users[uid]);
    assert Subscription.ExpiresAt(u3[uid]) == Subscription.ExpiresAt(u2[uid]) == Subscription.ExpiresAt(u1[uid]);
  }
}
