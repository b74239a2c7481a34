/** The diary of src/tasks/41374/1a.jsx: a fixed password, entries appended from the
  * form with comma-split tags, deletion by id, and a randomly chosen prompt (the random
  * number is a parameter; the daily timer only draws a new one). */
module DiaryA {
  import opened Seqs
  import opened Text

  const Moods: seq<string> := ["Happy", "Sad", "Angry", "Excited", "Neutral"]

  const Prompts: seq<string> := ["What was the highlight of your day?", "Describe a challenge you faced today."]

  const InitialPassword := "password123"

  /** An entry: the clock at saving is its id. */
  datatype Entry = Entry(id: int, content: string, tags: seq<string>, mood: string)

  /** `getRandomPrompt`: the prompt at `floor(r * length)` for `Math.random()`'s `r`. */
  function RandomPrompt(r: real): (p: string)
    requires 0.0 <= r < 1.0
    ensures p in Prompts
  {
    var i := (r * |Prompts| as real).Floor;
    assert 0.0 <= r * 2.0 < 2.0;
    Prompts[i]
  }

  /** The entry `onSubmitEntry` builds: the tag text split on commas, untrimmed. */
  function NewEntry(content: string, tagText: string, mood: string, now: int): (e: Entry)
    ensures e.id == now && e.content == content && e.mood == mood
    ensures Join(e.tags, ',') == tagText
    ensures |e.tags| >= 1 && forall k :: 0 <= k < |e.tags| ==> ',' !in e.tags[k]
  {
    Entry(now, content, Split(tagText, ','), mood)
  }

  /** Spaces after the commas stay in the tags: "work, gym" gives "work" and " gym". */
  lemma TagsKeepSpaces(now: int)
    ensures NewEntry("", "work, gym", "Happy", now).tags == ["work", " gym"]
  {
    SplitJoin(["work", " gym"], ',');
    assert Join(["work", " gym"], ',') == "work, gym";
  }

  /** `deleteEntry(id)`: every entry with that id goes, the others stay in order. */
  function DeleteId(es: seq<Entry>, id: int): (r: seq<Entry>)
    ensures forall k :: 0 <= k < |r| ==> r[k].id != id && r[k] in es
    ensures forall k :: 0 <= k < |es| && es[k].id != id ==> es[k] in r
  {
    Filter(es, e => KeptBy(e, id))
  }

  predicate KeptBy(e: Entry, id: int) {
    e.id != id
  }

  /** Deleting an id no entry has changes nothing; deleting twice is deleting once. */
  lemma DeleteIdLaws(es: seq<Entry>, id: int)
    ensures (forall k :: 0 <= k < |es| ==> es[k].id != id) ==> DeleteId(es, id) == es
    ensures DeleteId(DeleteId(es, id), id) == DeleteId(es, id)
  {
    if forall k :: 0 <= k < |es| ==> es[k].id != id {
      FilterKeepsAll(es, e => KeptBy(e, id));
    }
    var r := DeleteId(es, id);
    forall e | e in r ensures KeptBy(e, id) {
    }
    FilterKeepsAll(r, e => KeptBy(e, id));
  }

  /** Deleting one entry's id after appending it gives back the list, when the id was new. */
  lemma DeleteUndoesAdd(es: seq<Entry>, e: Entry)
    requires forall k :: 0 <= k < |es| ==> es[k].id != e.id
    ensures DeleteId(es + [e], e.id) == es
  {
    FilterConcat(es, [e], x => KeptBy(x, e.id));
    DeleteIdLaws(es, e.id);
    assert Filter([e], x => KeptBy(x, e.id)) == [];
  }

  class Diary {
    var loggedIn: bool
    const password: string
    var entries: seq<Entry>
    var currentPrompt: string

    /** Start-up, with the first random draw. */
    constructor(r: real)
      requires 0.0 <= r < 1.0
      ensures !loggedIn && password == InitialPassword && entries == []
      ensures currentPrompt == RandomPrompt(r) && currentPrompt in Prompts
    {
      loggedIn := false;
      password := InitialPassword;
      entries := [];
      currentPrompt := RandomPrompt(r);
    }

    /** `onSubmitLogin`: logs in exactly when the typed password is the password. */
    method SubmitLogin(typed: string)
      modifies this`loggedIn
      ensures loggedIn <==> old(loggedIn) || typed == password
    {
      if typed == password {
        loggedIn := true;
      }
    }

    /** `onSubmitEntry`: no check at all; the entry goes last. */
    method SubmitEntry(content: string, tagText: string, mood: string, now: int)
      modifies this`entries
      ensures entries == old(entries) + [NewEntry(content, tagText, mood, now)]
    {
      entries := entries + [NewEntry(content, tagText, mood, now)];
    }

    method DeleteEntry(id: int)
      modifies this`entries
      ensures entries == DeleteId(old(entries), id)
    {
      entries := DeleteId(entries, id);
    }

    /** The daily timer: a new random prompt. */
    method NewPrompt(r: real)
      requires 0.0 <= r < 1.0
      modifies this`currentPrompt
      ensures currentPrompt == RandomPrompt(r) && currentPrompt in Prompts
    {
      currentPrompt := RandomPrompt(r);
    }
  }
}
