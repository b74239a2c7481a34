/** The password-protected diary of src/tasks/41374/1b.jsx: the login check, adding and
  * deleting entries, the search filter, the mood tally, the tag field and the daily
  * prompt. Storage, the clock and alerts are parameters or left out. */
module DiaryB {
  import opened Wrappers
  import opened Seqs
  import opened Text
  import opened Calendar

  const Moods: seq<string> := ["Happy", "Sad", "Angry", "Excited", "Neutral"]

  const DefaultPassword := "password123"

  /** A saved entry; `date` is the moment it was saved. */
  datatype Entry = Entry(content: string, tags: seq<string>, mood: string, date: int)

  /** `currentEntry`, the form being filled in. */
  datatype Draft = Draft(content: string, tags: seq<string>, mood: string)

  const BlankDraft := Draft("", [], "")

  /** The password stored at start-up: the saved one, or the default when nothing (or
    * an empty string) was saved. */
  function StoredPassword(saved: Option<string>): (p: string)
    ensures p != ""
    ensures saved.Some? && saved.value != "" ==> p == saved.value
  {
    if saved.None? || saved.value == "" then DefaultPassword else saved.value
  }

  // ---------------------------------------------------------------- entries

  /** `addEntry`: an entry only when content and mood are filled in. */
  function Save(d: Draft, now: int): (r: Option<Entry>)
    ensures r.Some? <==> d.content != "" && d.mood != ""
    ensures r.Some? ==> r.value == Entry(d.content, d.tags, d.mood, now)
  {
    if d.content != "" && d.mood != "" then Some(Entry(d.content, d.tags, d.mood, now)) else None
  }

  /** The tag field: split on commas, every piece trimmed. */
  function TagsOf(text: string): (tags: seq<string>)
    ensures |tags| == |Split(text, ',')|
    ensures forall k :: 0 <= k < |tags| ==> tags[k] == Trim(Split(text, ',')[k])
  {
    var parts := Split(text, ',');
    seq(|parts|, k requires 0 <= k < |parts| => Trim(parts[k]))
  }

  /** Every tag is a comma-free piece of the field with no space at either end. */
  lemma TagsAreTrimmedPieces(text: string, k: int)
    requires 0 <= k < |TagsOf(text)|
    ensures ',' !in TagsOf(text)[k]
    ensures TagsOf(text)[k] == [] || (!IsSpace(TagsOf(text)[k][0]) && !IsSpace(TagsOf(text)[k][|TagsOf(text)[k]| - 1]))
  {
    var part := Split(text, ',')[k];
    var j :| OccursAt(TagsOf(text)[k], part, j);
    PieceKeepsOut(',', part, TagsOf(text)[k], j);
  }

  lemma PieceKeepsOut(c: char, s: string, t: string, j: int)
    requires OccursAt(t, s, j) && c !in s
    ensures c !in t
  {
    forall i | 0 <= i < |t| ensures t[i] != c {
      assert t[i] == s[j + i];
    }
  }

  // ---------------------------------------------------------------- search

  /** `filteredEntries`' test: the content contains the term as typed, or some tag
    * contains it ignoring case. */
  predicate Matches(e: Entry, term: string): (b: bool)
    ensures term == "" ==> b
  {
    ContainsEmpty(e.content);
    Contains(e.content, term) || exists k :: 0 <= k < |e.tags| && Contains(Lower(e.tags[k]), Lower(term))
  }

  function Filtered(es: seq<Entry>, term: string): (r: seq<Entry>)
    ensures forall k :: 0 <= k < |r| ==> r[k] in es && Matches(r[k], term)
    ensures forall k :: 0 <= k < |es| && Matches(es[k], term) ==> es[k] in r
  {
    Filter(es, e => Matches(e, term))
  }

  /** An empty search shows every entry. */
  lemma EmptySearchShowsAll(es: seq<Entry>)
    ensures Filtered(es, "") == es
  {
    FilterKeepsAll(es, e => Matches(e, ""));
  }

  /** Case matters in the content but not in the tags: "walk" finds a tag "Walk" but
    * not a content "Walk". */
  lemma CaseOnlyMattersInContent(now: int)
    ensures !Matches(Entry("Walk", [], "Happy", now), "walk")
    ensures Matches(Entry("", ["Walk"], "Happy", now), "walk")
  {
    WalkIsNotInWalk();
    WalkTagMatches(Entry("", ["Walk"], "Happy", now));
  }

  lemma WalkIsNotInWalk()
    ensures !Contains("Walk", "walk")
  {
    assert !OccursAt("walk", "Walk", 0) by { assert "Walk"[0] != "walk"[0]; }
  }

  lemma WalkTagMatches(e: Entry)
    requires e.tags == ["Walk"]
    ensures Matches(e, "walk")
  {
    var w: string := "walk";
    assert Lower("Walk") == w by {
      assert LowerChar('W') == 'w';
      forall i | 1 <= i < 4 ensures Lower("Walk")[i] == w[i] { }
    }
    assert Lower(w) == w by {
      forall i | 0 <= i < 4 ensures Lower(w)[i] == w[i] { }
    }
    assert Contains(w, w) by { assert OccursAt(w, w, 0); }
    assert Contains(Lower(e.tags[0]), Lower(w));
  }

  // ---------------------------------------------------------------- deletion

  /** `deleteEntry(index)` as written removes `RemoveAt(entries, index)`: the index is
    * taken in the full list, although the button that passes it is numbered in the
    * filtered one. With a search active the wrong entry goes: searching "gym" shows only
    * the second entry as card 0, and deleting card 0 removes the first entry while the
    * card stays. */
  lemma DeleteAsWrittenMissesTheCard(now: int)
    ensures var es := [Entry("rest day", [], "Sad", now), Entry("gym", [], "Happy", now)];
            Filtered(es, "gym") == [es[1]]
            && RemoveAt(es, 0) == [es[1]]
            && Filtered(RemoveAt(es, 0), "gym") == Filtered(es, "gym")
  {
    var es := [Entry("rest day", [], "Sad", now), Entry("gym", [], "Happy", now)];
    assert !Matches(es[0], "gym") by {
      forall k | 0 <= k <= |"rest day"| - |"gym"| ensures !OccursAt("gym", "rest day", k) {
        assert "rest day"[k] != 'g';
      }
    }
    assert Matches(es[1], "gym") by {
      ContainsIn("gym", "", "");
      assert "" + "gym" + "" == "gym";
    }
    assert es[1..] == [es[1]] && [es[1]][1..] == [];
  }

  /** The entry shown as card `n` of the filtered list (cards are numbered among the
    * entries that pass `p`) removed from the full list. */
  function DeleteNthMatch(es: seq<Entry>, p: Entry -> bool, n: int): (r: seq<Entry>)
    ensures |r| <= |es|
    ensures 0 <= n < |Filter(es, p)| ==> |r| == |es| - 1
    ensures !(0 <= n < |Filter(es, p)|) ==> r == es
  {
    if es == [] then []
    else if p(es[0]) then (if n == 0 then es[1..] else [es[0]] + DeleteNthMatch(es[1..], p, n - 1))
    else [es[0]] + DeleteNthMatch(es[1..], p, n)
  }

  /** `deleteEntry` as intended: the clicked card's entry goes. */
  function DeleteShown(es: seq<Entry>, term: string, card: int): (r: seq<Entry>)
    ensures 0 <= card < |Filtered(es, term)| ==> |r| == |es| - 1
    ensures !(0 <= card < |Filtered(es, term)|) ==> r == es
  {
    DeleteNthMatch(es, e => Matches(e, term), card)
  }

  /** The shown list loses exactly the clicked card. */
  lemma {:induction false} DeleteNthMatchShown(es: seq<Entry>, p: Entry -> bool, n: int)
    ensures Filter(DeleteNthMatch(es, p, n), p) == RemoveAt(Filter(es, p), n)
    decreases |es|, 1
  {
    if es != [] && p(es[0]) && n == 0 {
      ShownStepFirst(es, p);
    } else if es != [] && p(es[0]) {
      ShownStepKept(es, p, n);
    } else if es != [] {
      ShownStepHidden(es, p, n);
    }
  }

  lemma ShownStepFirst(es: seq<Entry>, p: Entry -> bool)
    requires es != [] && p(es[0])
    ensures Filter(DeleteNthMatch(es, p, 0), p) == RemoveAt(Filter(es, p), 0)
  {
    RemoveAtCons(es[0], Filter(es[1..], p), 0);
  }

  /** The first entry is shown but not clicked: it stays, and the click moves one card on. */
  lemma {:induction false} ShownStepKept(es: seq<Entry>, p: Entry -> bool, n: int)
    requires es != [] && p(es[0]) && n != 0
    ensures Filter(DeleteNthMatch(es, p, n), p) == RemoveAt(Filter(es, p), n)
    decreases |es|, 0
  {
    var d := DeleteNthMatch(es[1..], p, n - 1);
    DeleteNthMatchShown(es[1..], p, n - 1);
    assert DeleteNthMatch(es, p, n) == [es[0]] + d;
    FilterCons(es[0], d, p);
    RemoveAtCons(es[0], Filter(es[1..], p), n);
  }

  /** The first entry is hidden: it stays, and the click lands in the rest. */
  lemma {:induction false} ShownStepHidden(es: seq<Entry>, p: Entry -> bool, n: int)
    requires es != [] && !p(es[0])
    ensures Filter(DeleteNthMatch(es, p, n), p) == RemoveAt(Filter(es, p), n)
    decreases |es|, 0
  {
    var d := DeleteNthMatch(es[1..], p, n);
    DeleteNthMatchShown(es[1..], p, n);
    assert DeleteNthMatch(es, p, n) == [es[0]] + d;
    FilterSkips(es[0], d, p);
    assert Filter(es, p) == [] + Filter(es[1..], p);
  }

  lemma FilterSkips(x: Entry, rest: seq<Entry>, p: Entry -> bool)
    requires !p(x)
    ensures Filter([x] + rest, p) == Filter(rest, p)
  {
    FilterCons(x, rest, p);
    assert [] + Filter(rest, p) == Filter(rest, p);
  }

  lemma FilterCons(x: Entry, rest: seq<Entry>, p: Entry -> bool)
    ensures Filter([x] + rest, p) == (if p(x) then [x] else []) + Filter(rest, p)
  {
    assert ([x] + rest)[1..] == rest;
  }

  lemma RemoveAtCons(x: Entry, f: seq<Entry>, n: int)
    ensures RemoveAt([x] + f, n) == if n == 0 then f else [x] + RemoveAt(f, n - 1)
  {
    if 0 < n <= |f| {
      RemoveAtConsInside(x, f, n);
    } else if n == 0 {
      assert RemoveAt([x] + f, n) == ([x] + f)[1..];
    }
  }

  lemma RemoveAtConsInside(x: Entry, f: seq<Entry>, n: int)
    requires 0 < n <= |f|
    ensures RemoveAt([x] + f, n) == [x] + RemoveAt(f, n - 1)
  {
    var s := [x] + f;
    var l, r := RemoveAt(s, n), [x] + RemoveAt(f, n - 1);
    assert |l| == |r|;
    forall k | 0 <= k < |l| ensures l[k] == r[k] {
      if k == 0 {
        assert l[..n][0] == s[..n][0];
      } else if k < n {
        assert l[..n][k] == s[..n][k];
        assert RemoveAt(f, n - 1)[..n - 1][k - 1] == f[..n - 1][k - 1];
      } else {
        assert l[n..][k - n] == s[n + 1..][k - n];
        assert RemoveAt(f, n - 1)[n - 1..][k - n] == f[n..][k - n];
      }
    }
  }

  /** Entries hidden by the search are never touched. */
  lemma {:induction false} DeleteNthMatchKeepsHidden(es: seq<Entry>, p: Entry -> bool, q: Entry -> bool, n: int)
    requires forall e :: q(e) == !p(e)
    ensures Filter(DeleteNthMatch(es, p, n), q) == Filter(es, q)
  {
    if es != [] {
      var x, rest := es[0], es[1..];
      assert es == [x] + rest;
      FilterCons(x, rest, q);
      if !(p(x) && n == 0) {
        var m := n - (if p(x) then 1 else 0);
        DeleteNthMatchKeepsHidden(rest, p, q, m);
        FilterCons(x, DeleteNthMatch(rest, p, m), q);
      }
    }
  }

  /** When every entry is shown, the two readings of the index agree. */
  lemma {:induction false} DeleteNthMatchAllShown(es: seq<Entry>, p: Entry -> bool, n: int)
    requires forall k :: 0 <= k < |es| ==> p(es[k])
    ensures DeleteNthMatch(es, p, n) == RemoveAt(es, n)
  {
    if es != [] {
      assert es == [es[0]] + es[1..];
      DeleteNthMatchAllShown(es[1..], p, n - 1);
      RemoveAtCons(es[0], es[1..], n);
    }
  }

  /** The search term's clicked card is removed and nothing else changes; without a
    * search this is the index in the full list. */
  lemma DeleteShownLaws(es: seq<Entry>, term: string, card: int)
    ensures Filtered(DeleteShown(es, term, card), term) == RemoveAt(Filtered(es, term), card)
    ensures Filter(DeleteShown(es, term, card), e => !Matches(e, term)) == Filter(es, e => !Matches(e, term))
    ensures term == "" ==> DeleteShown(es, term, card) == RemoveAt(es, card)
  {
    DeleteNthMatchShown(es, e => Matches(e, term), card);
    DeleteNthMatchKeepsHidden(es, e => Matches(e, term), e => !Matches(e, term), card);
    if term == "" {
      EmptySearchShowsAll(es);
      forall k | 0 <= k < |es| ensures Matches(es[k], term) {
        assert es[k] in es;
      }
      DeleteNthMatchAllShown(es, e => Matches(e, term), card);
    }
  }

  // ---------------------------------------------------------------- mood statistics

  /** How many entries carry mood `m`. */
  predicate HasMood(e: Entry, m: string) {
    e.mood == m
  }

  function CountMood(es: seq<Entry>, m: string): nat {
    |Filter(es, e => HasMood(e, m))|
  }

  /** One `stats[mood] += 1`: a key that was never set holds undefined, which turns
    * into NaN (`None`) and stays so. */
  function Bump(stats: map<string, Option<int>>, m: string): map<string, Option<int>> {
    if m in stats && stats[m].Some? then stats[m := Some(stats[m].value + 1)] else stats[m := None]
  }

  /** Every listed mood at 0. */
  function Zeroes(): (stats: map<string, Option<int>>)
    ensures forall m :: m in Moods <==> m in stats
    ensures forall m :: m in stats ==> stats[m] == Some(0)
  {
    map m | m in Moods :: Some(0)
  }

  /** The tally after the entries in order. */
  function Tally(es: seq<Entry>): map<string, Option<int>> {
    if es == [] then Zeroes() else Bump(Tally(es[..|es| - 1]), es[|es| - 1].mood)
  }

  /** `moodStats`: the loop of `forEach` increments. */
  method MoodStats(es: seq<Entry>) returns (stats: map<string, Option<int>>)
    ensures stats == Tally(es)
  {
    stats := map m | m in Moods :: Some(0);
    assert stats == Zeroes();
    var i := 0;
    while i < |es|
      invariant 0 <= i <= |es|
      invariant stats == Tally(es[..i])
    {
      assert es[..i + 1][..i] == es[..i];
      stats := Bump(stats, es[i].mood);
      i := i + 1;
    }
    assert es[..|es|] == es;
  }

  /** Every listed mood shows its number of entries. */
  lemma {:induction false} TallyCounts(es: seq<Entry>, m: string)
    requires m in Moods
    ensures m in Tally(es) && Tally(es)[m] == Some(CountMood(es, m))
  {
    if es == [] {
      assert CountMood(es, m) == 0;
    } else {
      TallyCounts(es[..|es| - 1], m);
      TallyStep(es, m, CountMood(es[..|es| - 1], m));
      CountMoodLast(es, m);
    }
  }

  /** The last entry adds one to its own mood's count and leaves the others alone. */
  lemma TallyStep(es: seq<Entry>, m: string, c: int)
    requires es != []
    requires m in Tally(es[..|es| - 1]) && Tally(es[..|es| - 1])[m] == Some(c)
    ensures m in Tally(es) && Tally(es)[m] == Some(c + if es[|es| - 1].mood == m then 1 else 0)
  {
    BumpAt(Tally(es[..|es| - 1]), es[|es| - 1].mood, m, c);
  }

  lemma BumpAt(stats: map<string, Option<int>>, mood: string, m: string, c: int)
    requires m in stats && stats[m] == Some(c)
    ensures m in Bump(stats, mood)
    ensures Bump(stats, mood)[m] == Some(c + (if mood == m then 1 else 0))
  {
  }

  lemma CountMoodLast(es: seq<Entry>, m: string)
    requires es != []
    ensures CountMood(es, m) == CountMood(es[..|es| - 1], m) + (if es[|es| - 1].mood == m then 1 else 0)
  {
    assert es[..|es| - 1] + [es[|es| - 1]] == es;
    CountMoodSnoc(es[..|es| - 1], es[|es| - 1], m);
  }

  lemma CountMoodSnoc(init: seq<Entry>, last: Entry, m: string)
    ensures CountMood(init + [last], m) == CountMood(init, m) + (if last.mood == m then 1 else 0)
  {
    FilterConcat(init, [last], e => HasMood(e, m));
    assert Filter([last], e => HasMood(e, m)) == if last.mood == m then [last] else [];
  }

  lemma CountMoodCons(first: Entry, rest: seq<Entry>, m: string)
    ensures CountMood([first] + rest, m) == CountMood(rest, m) + (if first.mood == m then 1 else 0)
  {
    assert ([first] + rest)[1..] == rest;
  }

  /** With only listed moods, the five counts add up to the number of entries. */
  lemma {:induction false} MoodCountsAddUp(es: seq<Entry>)
    requires forall k :: 0 <= k < |es| ==> es[k].mood in Moods
    ensures CountMood(es, "Happy") + CountMood(es, "Sad") + CountMood(es, "Angry")
          + CountMood(es, "Excited") + CountMood(es, "Neutral") == |es|
  {
    if es != [] {
      var first, rest := es[0], es[1..];
      assert es == [first] + rest;
      MoodCountsAddUp(rest);
      CountMoodCons(first, rest, "Happy");
      CountMoodCons(first, rest, "Sad");
      CountMoodCons(first, rest, "Angry");
      CountMoodCons(first, rest, "Excited");
      CountMoodCons(first, rest, "Neutral");
    }
  }

  // ---------------------------------------------------------------- daily prompt

  const Prompts: seq<string> := [
    "What made you smile today?",
    "Describe a challenge you overcame recently.",
    "What are you grateful for right now?",
    "How did you feel at the start of your day?",
    "What's something new you learned today?"]

  /** JavaScript's `%`, which truncates towards zero. */
  function JsRemainder(a: int, b: int): (r: int)
    requires b > 0
    ensures -b < r < b
    ensures a >= 0 ==> r == a % b
  {
    if a >= 0 then a % b else -((-a) % b)
  }

  /** `generateDailyPrompt` as written: the prompt at `today % 5`, where `today` is the
    * timestamp of this morning's midnight (a negative index reads undefined). */
  function PromptAsWritten(midnight: int): (r: Option<string>)
    ensures midnight >= 0 ==> r.Some? && r.value in Prompts
  {
    var i := JsRemainder(midnight, |Prompts|);
    if 0 <= i then Some(Prompts[i]) else None
  }

  /** A midnight is a whole number of days away from the epoch, shifted by a time zone
    * offset of whole minutes; every such timestamp is a multiple of 5, so the "daily"
    * prompt is the first one every day. */
  lemma PromptNeverChanges(day: int, offsetMinutes: int)
    ensures PromptAsWritten(day * MsPerDay + offsetMinutes * 60000) == Some(Prompts[0])
  {
    var q := day * 17280000 + offsetMinutes * 12000;
    assert day * MsPerDay + offsetMinutes * 60000 == 5 * q;
    MultipleOfFive(q);
  }

  lemma MultipleOfFive(q: int)
    ensures JsRemainder(5 * q, 5) == 0
  {
    var n: nat := if q < 0 then -q else q;
    assert (5 * n) % 5 == 0;
    if q < 0 {
      assert -(5 * q) == 5 * n;
      assert JsRemainder(5 * q, 5) == -((5 * n) % 5);
    }
  }

  lemma DayOfMidnight(day: int)
    ensures DayOf(day * MsPerDay) == day
  {
  }

  /** The intended prompt: one per day, cycling through the list by day number. */
  function DailyPrompt(midnight: int): (r: string)
    ensures r in Prompts
  {
    Prompts[DayOf(midnight) % |Prompts|]
  }

  /** The prompts are pairwise different. */
  lemma PromptsDistinct()
    ensures NoDup(Prompts)
  {
    assert Prompts[0][5] != Prompts[2][5] && Prompts[0][4] != Prompts[4][4] && Prompts[2][4] != Prompts[4][4];
    assert Prompts[0][0] != Prompts[1][0] && Prompts[0][0] != Prompts[3][0] && Prompts[1][0] != Prompts[3][0];
  }

  /** Two consecutive days never show the same prompt, and the list comes round again
    * after five days. */
  lemma DailyPromptCycles(day: int)
    ensures DailyPrompt((day + 1) * MsPerDay) != DailyPrompt(day * MsPerDay)
    ensures DailyPrompt((day + 5) * MsPerDay) == DailyPrompt(day * MsPerDay)
  {
    DayOfMidnight(day);
    DayOfMidnight(day + 1);
    DayOfMidnight(day + 5);
    PromptsDistinct();
    assert (day + 1) % 5 != day % 5;
  }

  // ---------------------------------------------------------------- the app

  class Diary {
    /** The password in storage. */
    var stored: string
    /** The login field. */
    var password: string
    var isAuthenticated: bool
    var entries: seq<Entry>
    var currentEntry: Draft
    /** The text in the tag field, which the form reads from but never writes back. */
    var tagField: string
    var searchTerm: string

    /** Start-up: the stored password is set up and copied into the login field. */
    constructor(saved: Option<string>)
      ensures stored == StoredPassword(saved) && password == stored
      ensures !isAuthenticated && entries == [] && currentEntry == BlankDraft && searchTerm == ""
      ensures tagField == ""
    {
      stored := StoredPassword(saved);
      password := stored;
      isAuthenticated := false;
      entries, currentEntry, tagField, searchTerm := [], BlankDraft, "", "";
    }

    method TypePassword(p: string)
      modifies this`password
      ensures password == p
    {
      password := p;
    }

    /** `authenticate`: in exactly when the field holds the stored password (otherwise an
      * alert, and nothing changes). */
    method Authenticate()
      modifies this`isAuthenticated
      ensures isAuthenticated <==> old(isAuthenticated) || password == stored
    {
      if password == stored {
        isAuthenticated := true;
      }
    }

    /** The content box: only the draft's content changes. */
    method EditContent(content: string)
      modifies this`currentEntry
      ensures currentEntry.content == content
      ensures currentEntry.tags == old(currentEntry.tags) && currentEntry.mood == old(currentEntry.mood)
    {
      currentEntry := currentEntry.(content := content);
    }

    /** The tag field: it shows what was typed, and the draft's tags become the
      * comma-separated pieces of that text, trimmed; content and mood stay. */
    method EditTags(text: string)
      modifies this`currentEntry, this`tagField
      ensures tagField == text
      ensures currentEntry.tags == TagsOf(text)
      ensures currentEntry.content == old(currentEntry.content) && currentEntry.mood == old(currentEntry.mood)
    {
      tagField := text;
      currentEntry := currentEntry.(tags := TagsOf(text));
    }

    /** The mood menu: only the draft's mood changes. */
    method EditMood(mood: string)
      modifies this`currentEntry
      ensures currentEntry.mood == mood
      ensures currentEntry.content == old(currentEntry.content) && currentEntry.tags == old(currentEntry.tags)
    {
      currentEntry := currentEntry.(mood := mood);
    }

    /** `addEntry`: the entry goes last and the draft is cleared; an incomplete draft
      * changes nothing. The tag field is not cleared with the draft, so after a save it
      * still shows the old tags while the draft has none. */
    method AddEntry(now: int)
      modifies this`entries, this`currentEntry
      ensures Save(old(currentEntry), now).Some? ==>
        entries == old(entries) + [Save(old(currentEntry), now).value] && currentEntry == BlankDraft
      ensures Save(old(currentEntry), now).None? ==> entries == old(entries) && currentEntry == old(currentEntry)
      ensures tagField == old(tagField)
    {
      var r := Save(currentEntry, now);
      if r.Some? {
        entries := entries + [r.value];
        currentEntry := BlankDraft;
      }
    }

    method Search(term: string)
      modifies this`searchTerm
      ensures searchTerm == term
    {
      searchTerm := term;
    }

    /** A card's delete button: the entry on that card goes. */
    method DeleteEntry(card: int)
      modifies this`entries
      ensures entries == DeleteShown(old(entries), searchTerm, card)
      ensures Filtered(entries, searchTerm) == RemoveAt(Filtered(old(entries), searchTerm), card)
    {
      DeleteShownLaws(entries, searchTerm, card);
      entries := DeleteShown(entries, searchTerm, card);
    }
  }
}
