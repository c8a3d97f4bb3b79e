/** The in-memory note store: a newest-first sequence of notes and one
    settings record. Each action computes its new value with a pure function
    below, and the `NoteStore` class assigns that value to its field. */
module Store {
  import opened NoteTypes

  /** Settings of a store that has never been written: five minutes, light theme. */
  const DefaultSettings: Settings := Settings(300, Light)

  /** The note an update produces: new content, and the new title when one is given. */
  function Patched(n: Note, content: string, title: Option<string>): Note
  {
    n.(content := content, title := if title.Some? then title.value else n.title)
  }

  /** `addNote`: the new note goes in front; the old notes follow in order. */
  function WithNoteAdded(notes: seq<Note>, note: Note): (r: seq<Note>)
    ensures |r| == |notes| + 1
    ensures r[0] == note
    ensures forall i :: 0 <= i < |notes| ==> r[i + 1] == notes[i]
  {
    [note] + notes
  }

  /** `updateNote`, mapped over the notes front to back; `UpdateFrame`
      states what it changes and what it keeps. */
  function WithNoteUpdated(notes: seq<Note>, id: string, content: string, title: Option<string>): (r: seq<Note>)
    ensures |r| == |notes|
  {
    if notes == [] then []
    else
      var head := if notes[0].id == id then Patched(notes[0], content, title) else notes[0];
      [head] + WithNoteUpdated(notes[1..], id, content, title)
  }

  /** `deleteNote`: no note with the id is left; `DeleteCounts` states that
      every other note keeps all its occurrences. */
  function WithoutNote(notes: seq<Note>, id: string): (r: seq<Note>)
    ensures |r| <= |notes|
    ensures forall i :: 0 <= i < |r| ==> r[i].id != id
  {
    if notes == [] then []
    else
      var rest := WithoutNote(notes[1..], id);
      if notes[0].id == id then rest else [notes[0]] + rest
  }

  /** A delete removes every occurrence of each note with the id and keeps
      every occurrence of every other note. */
  lemma {:induction false} DeleteCounts(notes: seq<Note>, id: string)
    ensures forall n :: multiset(WithoutNote(notes, id))[n] == if n.id == id then 0 else multiset(notes)[n]
  {
    if notes != [] {
      DeleteCounts(notes[1..], id);
      assert notes == [notes[0]] + notes[1..];
    }
  }

  /** `updateSettings`: exactly the fields present in the patch are overwritten. */
  function WithSettingsMerged(s: Settings, patch: SettingsPatch): (r: Settings)
    ensures patch.timerDuration.Some? ==> r.timerDuration == patch.timerDuration.value
    ensures patch.timerDuration.None? ==> r.timerDuration == s.timerDuration
    ensures patch.theme.Some? ==> r.theme == patch.theme.value
    ensures patch.theme.None? ==> r.theme == s.theme
  {
    Settings(
      if patch.timerDuration.Some? then patch.timerDuration.value else s.timerDuration,
      if patch.theme.Some? then patch.theme.value else s.theme)
  }

  /** `getNote`: the first note with the id, or `None`; `FindNoteFirst`
      states that it is the first one and that `None` means absent. */
  function FindNote(notes: seq<Note>, id: string): (r: Option<Note>)
    ensures r.Some? ==> r.value.id == id
  {
    if notes == [] then None
    else if notes[0].id == id then Some(notes[0])
    else
      FindNote(notes[1..], id)
  }

  /** An update gives every note with the id the content and, when given,
      the title; it keeps the length, the order, every other note, and the
      id, creation time, duration and lock flag of every note. */
  lemma {:induction false} UpdateFrame(notes: seq<Note>, id: string, content: string, title: Option<string>)
    ensures var r := WithNoteUpdated(notes, id, content, title);
      |r| == |notes| &&
      (forall i :: 0 <= i < |notes| ==>
        r[i].id == notes[i].id && r[i].createdAt == notes[i].createdAt &&
        r[i].durationSeconds == notes[i].durationSeconds && r[i].isLocked == notes[i].isLocked) &&
      (forall i :: 0 <= i < |notes| && notes[i].id != id ==> r[i] == notes[i]) &&
      (forall i :: 0 <= i < |notes| && notes[i].id == id ==>
        r[i].content == content && r[i].title == (if title.Some? then title.value else notes[i].title))
  {
    if notes != [] {
      UpdateFrame(notes[1..], id, content, title);
      var r := WithNoteUpdated(notes, id, content, title);
      assert r[1..] == WithNoteUpdated(notes[1..], id, content, title);
      forall i | 1 <= i < |notes| ensures r[i] == WithNoteUpdated(notes[1..], id, content, title)[i - 1] {
      }
    }
  }

  /** The lookup finds nothing exactly when no note has the id, and otherwise
      finds the note at the first position holding the id. */
  lemma {:induction false} FindNoteFirst(notes: seq<Note>, id: string)
    ensures FindNote(notes, id).None? <==> forall i :: 0 <= i < |notes| ==> notes[i].id != id
    ensures FindNote(notes, id).Some? ==>
      exists i :: 0 <= i < |notes| && notes[i] == FindNote(notes, id).value &&
        (forall j :: 0 <= j < i ==> notes[j].id != id)
  {
    if notes != [] && notes[0].id != id {
      FindNoteFirst(notes[1..], id);
      var r := FindNote(notes, id);
      if r.Some? {
        var k :| 0 <= k < |notes[1..]| && notes[1..][k] == r.value &&
          (forall j :: 0 <= j < k ==> notes[1..][j].id != id);
        assert notes[k + 1] == r.value;
        assert forall j :: 1 <= j < k + 1 ==> notes[j] == notes[1..][j - 1];
      }
      assert forall i :: 1 <= i < |notes| ==> notes[i] == notes[1..][i - 1];
    }
  }

  /** Adding a note and then looking its id up yields that very note. */
  lemma AddThenFind(notes: seq<Note>, note: Note)
    ensures FindNote(WithNoteAdded(notes, note), note.id) == Some(note)
  {
  }

  /** Deleting the id of a note just added, when no other note had that id,
      gives back the notes as they were before the add. */
  lemma AddThenDelete(notes: seq<Note>, note: Note)
    requires forall i :: 0 <= i < |notes| ==> notes[i].id != note.id
    ensures WithoutNote(WithNoteAdded(notes, note), note.id) == notes
  {
    DeleteMissing(notes, note.id);
    assert WithNoteAdded(notes, note)[1..] == notes;
  }

  /** An update of an id that no note has changes nothing and adds nothing. */
  lemma UpdateMissing(notes: seq<Note>, id: string, content: string, title: Option<string>)
    requires forall i :: 0 <= i < |notes| ==> notes[i].id != id
    ensures WithNoteUpdated(notes, id, content, title) == notes
  {
    UpdateFrame(notes, id, content, title);
    var r := WithNoteUpdated(notes, id, content, title);
    assert forall i :: 0 <= i < |notes| ==> r[i] == notes[i];
  }

  /** Applying the same update twice gives what applying it once gives. */
  lemma UpdateIdempotent(notes: seq<Note>, id: string, content: string, title: Option<string>)
    ensures WithNoteUpdated(WithNoteUpdated(notes, id, content, title), id, content, title)
         == WithNoteUpdated(notes, id, content, title)
  {
    var once := WithNoteUpdated(notes, id, content, title);
    var twice := WithNoteUpdated(once, id, content, title);
    UpdateFrame(notes, id, content, title);
    UpdateFrame(once, id, content, title);
    forall i | 0 <= i < |notes| ensures twice[i] == once[i] {
      if notes[i].id == id {
        assert once[i] == Patched(notes[i], content, title);
      }
    }
  }

  /** After an update, looking the id up finds the found note, patched. */
  lemma {:induction false} UpdateThenFind(notes: seq<Note>, id: string, content: string, title: Option<string>)
    ensures FindNote(WithNoteUpdated(notes, id, content, title), id) ==
      match FindNote(notes, id)
      case None => None
      case Some(n) => Some(Patched(n, content, title))
  {
    if notes != [] && notes[0].id != id {
      UpdateThenFind(notes[1..], id, content, title);
      assert WithNoteUpdated(notes, id, content, title)[1..] == WithNoteUpdated(notes[1..], id, content, title);
    }
  }

  /** An update of one id leaves the lookup of every other id as it was. */
  lemma {:induction false} UpdateKeepsOthers(notes: seq<Note>, id: string, content: string, title: Option<string>, other: string)
    requires other != id
    ensures FindNote(WithNoteUpdated(notes, id, content, title), other) == FindNote(notes, other)
  {
    if notes != [] && notes[0].id != other {
      UpdateKeepsOthers(notes[1..], id, content, title, other);
      assert WithNoteUpdated(notes, id, content, title)[1..] == WithNoteUpdated(notes[1..], id, content, title);
    }
  }

  /** After a delete the id is not found. */
  lemma DeleteThenFind(notes: seq<Note>, id: string)
    ensures FindNote(WithoutNote(notes, id), id) == None
  {
    FindNoteFirst(WithoutNote(notes, id), id);
  }

  /** A delete of an id that no note has returns the notes unchanged. */
  lemma {:induction false} DeleteMissing(notes: seq<Note>, id: string)
    requires forall i :: 0 <= i < |notes| ==> notes[i].id != id
    ensures WithoutNote(notes, id) == notes
  {
    if notes != [] {
      DeleteMissing(notes[1..], id);
      assert notes == [notes[0]] + notes[1..];
    }
  }

  /** Deleting twice is deleting once. */
  lemma DeleteIdempotent(notes: seq<Note>, id: string)
    ensures WithoutNote(WithoutNote(notes, id), id) == WithoutNote(notes, id)
  {
    DeleteMissing(WithoutNote(notes, id), id);
  }

  /** Deleting keeps the order: deleting from a concatenation deletes from each part. */
  lemma {:induction false} DeleteKeepsOrder(front: seq<Note>, back: seq<Note>, id: string)
    ensures WithoutNote(front + back, id) == WithoutNote(front, id) + WithoutNote(back, id)
  {
    if front == [] {
      assert front + back == back;
    } else {
      var whole := front + back;
      assert whole[0] == front[0] && whole[1..] == front[1..] + back;
      DeleteKeepsOrder(front[1..], back, id);
      if front[0].id != id {
        assert WithoutNote(whole, id) == [front[0]] + WithoutNote(whole[1..], id);
        assert WithoutNote(front, id) == [front[0]] + WithoutNote(front[1..], id);
      }
    }
  }

  /** A delete of one id leaves the lookup of every other id as it was. */
  lemma {:induction false} DeleteKeepsOthers(notes: seq<Note>, id: string, other: string)
    requires other != id
    ensures FindNote(WithoutNote(notes, id), other) == FindNote(notes, other)
  {
    if notes != [] {
      var rest := WithoutNote(notes[1..], id);
      DeleteKeepsOthers(notes[1..], id, other);
      if notes[0].id != id {
        assert WithoutNote(notes, id) == [notes[0]] + rest;
        assert ([notes[0]] + rest)[1..] == rest;
      }
    }
  }

  /** A patch naming only the theme keeps the duration, and the reverse. */
  lemma MergeTouchesOnlyGivenFields(s: Settings, theme: Theme, seconds: int)
    ensures WithSettingsMerged(s, SettingsPatch(None, Some(theme))) == s.(theme := theme)
    ensures WithSettingsMerged(s, SettingsPatch(Some(seconds), None)) == s.(timerDuration := seconds)
    ensures WithSettingsMerged(s, SettingsPatch(None, None)) == s
  {
  }

  /** Merging the same patch a second time changes nothing more. */
  lemma MergeIdempotent(s: Settings, patch: SettingsPatch)
    ensures WithSettingsMerged(WithSettingsMerged(s, patch), patch) == WithSettingsMerged(s, patch)
  {
  }

  /** The global store. Every mutating action replaces one field with the
      value its pure function computes and leaves the other field alone. */
  class NoteStore {
    var notes: seq<Note>
    var settings: Settings

    /** A store with nothing persisted: no notes and the default settings. */
    constructor ()
      ensures notes == [] && settings == DefaultSettings
    {
      notes := [];
      settings := DefaultSettings;
    }

    method AddNote(note: Note)
      modifies this`notes
      ensures notes == WithNoteAdded(old(notes), note)
    {
      notes := [note] + notes;
    }

    method UpdateNote(id: string, content: string, title: Option<string>)
      modifies this`notes
      ensures notes == WithNoteUpdated(old(notes), id, content, title)
    {
      notes := WithNoteUpdated(notes, id, content, title);
    }

    method DeleteNote(id: string)
      modifies this`notes
      ensures notes == WithoutNote(old(notes), id)
    {
      notes := WithoutNote(notes, id);
    }

    method UpdateSettings(patch: SettingsPatch)
      modifies this`settings
      ensures settings == WithSettingsMerged(old(settings), patch)
    {
      settings := WithSettingsMerged(settings, patch);
    }

    function GetNote(id: string): (r: Option<Note>)
      reads this
      ensures r.None? <==> forall i :: 0 <= i < |notes| ==> notes[i].id != id
      ensures r.Some? ==> r.value.id == id && r.value in notes
    {
      FindNoteFirst(notes, id);
      FindNote(notes, id)
    }
  }
}
