/** The profile page: the split of practiced verses into mastered and in-progress, the
    level, the next difficulty offered for a verse, the practice link parsed from a verse
    reference, and saving the display name. */
module Profile {

  import opened Wrappers
  import opened Json
  import opened JsString
  import opened Firestore
  import opened Auth

  // ---------------------------------------------------------------------------------
  // Mastered and in-progress verses

  /** An entry of `mastered_verses` counts as mastered when its status says so or it was
      played on hard. */
  predicate IsMastered(entry: Doc) {
    Field(entry, "status") == Some(Text("mastered")) || Field(entry, "difficulty") == Some(Text("hard"))
  }

  /** The mastered entries, in snapshot order. */
  function MasteredOf(entries: seq<Doc>): seq<Doc> {
    if entries == [] then []
    else
      var last := entries[|entries| - 1];
      MasteredOf(entries[..|entries| - 1]) + (if IsMastered(last) then [last] else [])
  }

  /** The in-progress entries, in snapshot order. */
  function InProgressOf(entries: seq<Doc>): seq<Doc> {
    if entries == [] then []
    else
      var last := entries[|entries| - 1];
      InProgressOf(entries[..|entries| - 1]) + (if IsMastered(last) then [] else [last])
  }

  /** The `forEach` over the snapshot that pushes each entry onto one of two lists. */
  method Partition(entries: seq<Doc>) returns (mastered: seq<Doc>, inProgress: seq<Doc>)
    ensures mastered == MasteredOf(entries)
    ensures inProgress == InProgressOf(entries)
  {
    mastered, inProgress := [], [];
    var i := 0;
    while i < |entries|
      invariant 0 <= i <= |entries|
      invariant mastered == MasteredOf(entries[..i])
      invariant inProgress == InProgressOf(entries[..i])
    {
      assert entries[..i + 1][..i] == entries[..i];
      if IsMastered(entries[i]) {
        mastered := mastered + [entries[i]];
      } else {
        inProgress := inProgress + [entries[i]];
      }
      i := i + 1;
    }
    assert entries[..|entries|] == entries;
  }

  /** The two lists partition the snapshot: together they hold every entry exactly once,
      the first only mastered entries and the second only the others. */
  lemma {:induction false} PartitionSplits(entries: seq<Doc>)
    ensures multiset(MasteredOf(entries)) + multiset(InProgressOf(entries)) == multiset(entries)
    ensures forall e :: e in MasteredOf(entries) ==> IsMastered(e)
    ensures forall e :: e in InProgressOf(entries) ==> !IsMastered(e)
    ensures |MasteredOf(entries)| + |InProgressOf(entries)| == |entries|
    decreases |entries|
  {
    if entries != [] {
      var init := entries[..|entries| - 1];
      PartitionSplits(init);
      assert entries == init + [entries[|entries| - 1]];
    }
  }

  /** `Math.floor(masteredCount / 10) + 1`: level n covers the counts from 10(n-1) to
      10n - 1. */
  function Level(masteredCount: nat): (r: nat)
    ensures r >= 1
    ensures 10 * (r - 1) <= masteredCount < 10 * r
  {
    masteredCount / 10 + 1
  }

  /** The level is computed from the size of the whole `mastered_verses` collection, so
      in-progress verses raise it too: it is never below the level of the mastered ones. */
  lemma LevelCountsEveryPracticedVerse(entries: seq<Doc>)
    ensures Level(|MasteredOf(entries)|) <= Level(|entries|)
  {
    PartitionSplits(entries);
  }

  // ---------------------------------------------------------------------------------
  // The difficulty a practice button offers

  /** `data.difficulty === 'medium' ? 'hard' : 'medium'`. */
  function NextTarget(difficulty: Option<Value>): string {
    if difficulty == Some(Text("medium")) then "hard" else "medium"
  }

  /** The `data-diff` of an entry's button: hard for a mastered entry, the next level
      for one in progress. */
  function PracticeTarget(entry: Doc): string {
    if IsMastered(entry) then "hard" else NextTarget(Field(entry, "difficulty"))
  }

  /** Position of a difficulty in easy < medium < hard. */
  function Rank(difficulty: string): int {
    if difficulty == "easy" then 0
    else if difficulty == "medium" then 1
    else if difficulty == "hard" then 2
    else -1
  }

  /** A practice button never offers easy: mastered verses are practised on hard, and an
      in-progress verse is offered the level just above the one it was played on (medium
      when it has no recorded difficulty). */
  lemma PracticeTargetRules(entry: Doc)
    ensures IsMastered(entry) ==> PracticeTarget(entry) == "hard"
    ensures !IsMastered(entry) ==> Field(entry, "difficulty") != Some(Text("hard"))
    ensures !IsMastered(entry) && Field(entry, "difficulty") == Some(Text("medium")) ==> PracticeTarget(entry) == "hard"
    ensures !IsMastered(entry) && Field(entry, "difficulty") != Some(Text("medium")) ==> PracticeTarget(entry) == "medium"
    ensures !IsMastered(entry) && Field(entry, "difficulty").Some? && Field(entry, "difficulty").value.Text?
              && Rank(Field(entry, "difficulty").value.s) >= 0 ==>
            Rank(PracticeTarget(entry)) == Rank(Field(entry, "difficulty").value.s) + 1
    ensures Rank(PracticeTarget(entry)) >= 1
  {
  }

  // ---------------------------------------------------------------------------------
  // The practice link: `ref.match(/^(.+)\s+(\d+):(.+)$/)`

  predicate NoLineTerminator(s: string) {
    forall i :: 0 <= i < |s| ==> !IsLineTerminator(s[i])
  }

  /** End of the run of `\s` characters starting at `i`. */
  function SpaceEnd(s: string, i: nat): (r: nat)
    requires i <= |s|
    ensures i <= r <= |s|
    ensures forall j :: i <= j < r ==> IsSpace(s[j])
    ensures r < |s| ==> !IsSpace(s[r])
    decreases |s| - i
  {
    if i < |s| && IsSpace(s[i]) then SpaceEnd(s, i + 1) else i
  }

  /** End of the run of `\d` characters starting at `i`. */
  function DigitEnd(s: string, i: nat): (r: nat)
    requires i <= |s|
    ensures i <= r <= |s|
    ensures forall j :: i <= j < r ==> IsDigit(s[j])
    ensures r < |s| ==> !IsDigit(s[r])
    decreases |s| - i
  {
    if i < |s| && IsDigit(s[i]) then DigitEnd(s, i + 1) else i
  }

  /** The pattern matches `s` with the book group `(.+)` ending at `e`. `\s+` and `\d+`
      cannot give back characters usefully (a shorter `\s+` leaves a space where a digit
      is needed, a shorter `\d+` a digit where `:` is needed), so each takes its whole
      run; `.` excludes line terminators and the final `(.+)` runs to the end. */
  predicate MatchesAt(s: string, e: nat) {
    && 0 < e < |s|
    && NoLineTerminator(s[..e])
    && IsSpace(s[e])
    && var w := SpaceEnd(s, e);
       var d := DigitEnd(s, w);
       && w < d < |s| - 1
       && s[d] == ':'
       && NoLineTerminator(s[d + 1..])
  }

  /** The greedy book group: the last end position at or below `e` where the pattern
      matches. */
  function LastMatch(s: string, e: nat): (r: Option<nat>)
    ensures r.Some? ==> r.value <= e && MatchesAt(s, r.value)
    ensures r.Some? ==> forall j: nat :: r.value < j <= e ==> !MatchesAt(s, j)
    ensures r.None? ==> forall j: nat :: j <= e ==> !MatchesAt(s, j)
  {
    if MatchesAt(s, e) then Some(e)
    else if e == 0 then None
    else LastMatch(s, e - 1)
  }

  /** `replace(/\s+/g, '')`. */
  function RemoveSpaces(s: string): (r: string)
    ensures |r| <= |s|
    ensures forall i :: 0 <= i < |r| ==> !IsSpace(r[i])
    ensures |s| == 1 ==> r == if IsSpace(s[0]) then [] else s
  {
    if s == [] then []
    else (if IsSpace(s[0]) then [] else [s[0]]) + RemoveSpaces(s[1..])
  }

  /** Removing white space works character by character: with the one-character case
      above, the result is the text's other characters, in order. */
  lemma {:induction false} RemoveSpacesConcat(a: string, b: string)
    ensures RemoveSpaces(a + b) == RemoveSpaces(a) + RemoveSpaces(b)
    decreases |a|
  {
    if a == [] {
      assert a + b == b;
    } else {
      assert a + b == [a[0]] + (a[1..] + b);
      assert a == [a[0]] + a[1..];
      var h, x, y := RemoveSpaces([a[0]]), RemoveSpaces(a[1..]), RemoveSpaces(b);
      RemoveSpacesCons(a[0], a[1..] + b);
      RemoveSpacesCons(a[0], a[1..]);
      RemoveSpacesConcat(a[1..], b);
      assert RemoveSpaces(a + b) == h + (x + y);
      assert RemoveSpaces(a) == h + x;
      assert h + (x + y) == (h + x) + y;
    }
  }

  lemma RemoveSpacesCons(c: char, t: string)
    ensures RemoveSpaces([c] + t) == RemoveSpaces([c]) + RemoveSpaces(t)
  {
    assert ([c] + t)[0] == c;
    assert ([c] + t)[1..] == t;
  }

  /** `split('-')[0]`: the text before the first `-`, or all of it. */
  function BeforeDash(s: string): (r: string)
    ensures |r| <= |s| && r == s[..|r|]
    ensures '-' !in r
    ensures |r| < |s| ==> s[|r|] == '-'
  {
    if s == [] || s[0] == '-' then []
    else [s[0]] + BeforeDash(s[1..])
  }

  /** The query parameters the practice button writes before moving to `#/app`. */
  datatype PracticeLink = PracticeLink(book: string, chapter: string, verse: string)

  /** The groups of the match whose book group ends at `e`, as the link uses them. */
  function LinkAt(s: string, e: nat): PracticeLink
    requires MatchesAt(s, e)
  {
    var w := SpaceEnd(s, e);
    var d := DigitEnd(s, w);
    PracticeLink(RemoveSpaces(ToLower(s[..e])), s[w..d], BeforeDash(s[d + 1..]))
  }

  /** The link a practice button follows, or `None` when the reference does not match
      (the click then does nothing). */
  function ParseReference(reference: string): Option<PracticeLink> {
    match LastMatch(reference, |reference|)
    case None => None
    case Some(e) => Some(LinkAt(reference, e))
  }

  /** A reference gives a link exactly when the pattern matches it; the link is read from
      the match with the longest book group; the book then has no white space, the chapter
      is a non-empty run of digits and the verse holds no `-`. */
  lemma ParseReferenceSpec(reference: string)
    ensures ParseReference(reference).None? <==> forall e: nat :: !MatchesAt(reference, e)
    ensures ParseReference(reference).Some? ==>
      exists e: nat :: && MatchesAt(reference, e)
                       && (forall j: nat :: e < j ==> !MatchesAt(reference, j))
                       && ParseReference(reference) == Some(LinkAt(reference, e))
    ensures ParseReference(reference).Some? ==>
      var link := ParseReference(reference).value;
      && (forall i :: 0 <= i < |link.book| ==> !IsSpace(link.book[i]))
      && link.chapter != []
      && (forall i :: 0 <= i < |link.chapter| ==> IsDigit(link.chapter[i]))
      && '-' !in link.verse
  {
    var r := LastMatch(reference, |reference|);
    if r.None? {
      forall e: nat ensures !MatchesAt(reference, e) {
        if e > |reference| {
          assert !MatchesAt(reference, e);
        }
      }
    } else {
      var e := r.value;
      forall j: nat | e < j ensures !MatchesAt(reference, j) {
        if j > |reference| {
          assert !MatchesAt(reference, j);
        }
      }
    }
  }

  /** A reference written as book, space, chapter digits, `:` and a verse without white
      space parses back to the book in lower case without white space, that chapter, and
      the verse up to its first `-`. */
  lemma FormatThenParse(book: string, chapter: string, verse: string)
    requires book != [] && NoLineTerminator(book)
    requires chapter != [] && forall i :: 0 <= i < |chapter| ==> IsDigit(chapter[i])
    requires verse != [] && forall i :: 0 <= i < |verse| ==> !IsSpace(verse[i])
    ensures ParseReference(book + " " + chapter + ":" + verse)
            == Some(PracticeLink(RemoveSpaces(ToLower(book)), chapter, BeforeDash(verse)))
  {
    var s := book + " " + chapter + ":" + verse;
    var e := |book|;
    var w := e + 1;
    var d := w + |chapter|;
    assert s[..e] == book;
    assert s[e] == ' ';
    assert forall k :: 0 <= k < |chapter| ==> s[w + k] == chapter[k];
    assert s[d] == ':';
    assert s[d + 1..] == verse;
    assert SpaceEnd(s, e) == w by {
      assert !IsSpace(s[w]);
    }
    assert DigitEnd(s, w) == d;
    assert s[w..d] == chapter;
    assert MatchesAt(s, e);
    forall j: nat | e < j <= |s| ensures !MatchesAt(s, j) {
      if j < |s| {
        if j <= d {
          assert !IsSpace(s[j]);
        } else {
          assert s[j] == verse[j - d - 1];
        }
      }
    }
    var r := LastMatch(s, |s|);
    assert r == Some(e);
  }

  /** The button of a `John 3:16-18` entry leads to book `john`, chapter 3, verse 16. */
  lemma PracticeLinkExample()
    ensures ParseReference("John 3:16-18") == Some(PracticeLink("john", "3", "16"))
  {
    JohnParts();
    assert "John" + " " + "3" + ":" + "16-18" == "John 3:16-18";
    FormatThenParse("John", "3", "16-18");
  }

  /** The pieces of the example reference meet `FormatThenParse`'s conditions. */
  lemma JohnParts()
    ensures NoLineTerminator("John")
    ensures forall i :: 0 <= i < |"3"| ==> IsDigit("3"[i])
    ensures forall i :: 0 <= i < |"16-18"| ==> !IsSpace("16-18"[i])
    ensures RemoveSpaces(ToLower("John")) == "john"
    ensures BeforeDash("16-18") == "16"
  {
    assert "John" == ['J', 'o', 'h', 'n'];
    assert "16-18" == ['1', '6', '-', '1', '8'];
    assert ToLower("John") == "john";
    assert RemoveSpaces("john") == "john";
    assert BeforeDash("-18") == [];
  }

  // ---------------------------------------------------------------------------------
  // Saving the display name

  datatype SaveOutcome = NotSignedIn | NameRequired | Saved(name: string) | SaveFailed

  /** `handleSaveProfile` with the signed-in account, the input's value (`None` when the
      field is missing), and whether the auth profile update or the document update
      throws. The document update also throws when the user document does not exist.
      Returns the outcome, the account after the call and the user collection. */
  function SaveProfile(users: map<string, Doc>, account: Option<User>, input: Option<string>,
                       profileFails: bool, storeFails: bool): (SaveOutcome, Option<User>, map<string, Doc>) {
    if account.None? then (NotSignedIn, account, users)
    else
      var name := if input.Some? then Trim(input.value) else "";
      var uid := account.value.uid;
      if name == [] then (NameRequired, account, users)
      else if profileFails then (SaveFailed, account, users)
      else
        var renamed := Some(account.value.(displayName := Some(name)));
        if storeFails || uid !in users then (SaveFailed, renamed, users)
        else (Saved(name), renamed, users[uid := users[uid]["displayName" := Text(name)]])
  }

  /** `handleSaveProfile` on the store. */
  method HandleSaveProfile(store: Store, account: Option<User>, input: Option<string>,
                           profileFails: bool, storeFails: bool)
    returns (outcome: SaveOutcome, accountAfter: Option<User>)
    modifies store
    ensures (outcome, accountAfter, store.users)
            == SaveProfile(old(store.users), account, input, profileFails, storeFails)
    ensures store.payments == old(store.payments)
  {
    if account.None? {
      return NotSignedIn, account;
    }
    var name := if input.Some? then Trim(input.value) else "";
    if name == [] {
      return NameRequired, account;
    }
    if profileFails {
      return SaveFailed, account;
    }
    accountAfter := Some(account.value.(displayName := Some(name)));
    var uid := account.value.uid;
    if storeFails || uid !in store.users {
      return SaveFailed, accountAfter;
    }
    store.users := store.users[uid := store.users[uid]["displayName" := Text(name)]];
    outcome := Saved(name);
  }

  /** A blank name changes nothing; a saved name is the trimmed input, is not blank, has
      no white space at either end, and is written to both the account and the user
      document, whose other fields and the other users stay as they were; a missing user
      document leaves the account renamed but the store untouched. */
  lemma SaveProfileRules(users: map<string, Doc>, account: Option<User>, input: Option<string>,
                         profileFails: bool, storeFails: bool)
    ensures var (outcome, after, users') := SaveProfile(users, account, input, profileFails, storeFails);
      && (outcome == NameRequired <==>
            account.Some? && (input.None? || forall i :: 0 <= i < |input.value| ==> IsSpace(input.value[i])))
      && (outcome == NameRequired ==> after == account && users' == users)
      && (outcome.Saved? ==>
            && input.Some? && outcome.name == Trim(input.value) && outcome.name != []
            && !IsSpace(outcome.name[0]) && !IsSpace(outcome.name[|outcome.name| - 1])
            && after == Some(account.value.(displayName := Some(outcome.name)))
            && account.value.uid in users'
            && users'[account.value.uid] == users[account.value.uid]["displayName" := Text(outcome.name)]
            && (forall u :: u in users && u != account.value.uid ==> u in users' && users'[u] == users[u]))
      && (outcome.Saved? <==> account.Some? && !profileFails && !storeFails && account.value.uid in users
                              && outcome != NameRequired)
      && (!outcome.Saved? ==> users' == users)
  {
    if account.Some? && input.Some? {
      var t := TrimStart(input.value);
      TrimEmpty(input.value);
      TrimStartShape(input.value);
      TrimEndShape(t);
      var r := TrimEnd(t);
      if r != [] {
        assert r[0] == t[0];
      }
    }
  }

  /** A user whose document was never created can rename the account but is told the save
      failed, and the store keeps no name. */
  lemma MissingDocumentRenamesOnlyAccount(users: map<string, Doc>, account: User, name: string)
    requires account.uid !in users
    requires Trim(name) != []
    ensures SaveProfile(users, Some(account), Some(name), false, false)
            == (SaveFailed, Some(account.(displayName := Some(Trim(name)))), users)
  {
  }
}
