/** The in-place editor of one note: the note's text with an Edit button,
    or, while editing, an input with Save and Cancel. Saving PUTs the new
    content to the note, then sends the page a task carrying that one note
    and no `completed` field. */
module NoteEditor {
  import opened Wrappers
  import opened Text
  import opened Tree
  import opened Batch
  import opened Http
  import opened HomePage

  /** The task object handed to `updateRoadmap` after an edit: the task id,
      no `completed` field, all four note keys, and in the edited category
      the single note with its id and the new content. */
  function EditPayload(taskId: int, c: Category, noteId: Option<int>, content: string): Payload
  {
    Payload(taskId, Undefined, EmptyNotes.With(c, [NoteItem(noteId, content)]))
  }

  /** The payload's only note is the edited one, under its category. */
  lemma EditPayloadSpec(taskId: int, c: Category, noteId: Option<int>, content: string, d: Category)
    ensures EditPayload(taskId, c, noteId, content).id == taskId
    ensures EditPayload(taskId, c, noteId, content).completed == Undefined
    ensures EditPayload(taskId, c, noteId, content).notes.Get(d)
         == if d == c then [NoteItem(noteId, content)] else []
  {
  }

  /** An edit of a note that has an id posts nothing, whatever the lookup
      of the stored notes yields: the page sends the completion PUT, with
      `completed` missing, and, when the lookup succeeds, the refetch. */
  lemma EditSendsNoPost(found: Option<Notes>, taskId: int, c: Category, noteId: int, content: string)
    requires noteId != 0
    ensures Requests(found, EditPayload(taskId, c, Some(noteId), content))
         == [PutTask(taskId, Undefined)] + (if found.Some? then [GetRoadmap] else [])
  {
    var p := EditPayload(taskId, c, Some(noteId), content);
    forall d, n | n in p.notes.Get(d)
      ensures HasId(n)
    {
      EditPayloadSpec(taskId, c, Some(noteId), content, d);
    }
    if found.Some? {
      NotePostsNone(found.value, p, |Categories|);
    }
  }

  /** The edit form is on screen. */
  predicate ShowsForm(editing: bool, disabled: bool)
  {
    editing && !disabled
  }

  /** The Edit button is on screen. */
  predicate ShowsEditButton(editing: bool, disabled: bool)
  {
    !ShowsForm(editing, disabled) && !disabled
  }

  /** A disabled editor offers neither; an enabled one exactly one of them. */
  lemma EditControls(editing: bool, disabled: bool)
    ensures disabled ==> !ShowsForm(editing, disabled) && !ShowsEditButton(editing, disabled)
    ensures !disabled ==> ShowsForm(editing, disabled) != ShowsEditButton(editing, disabled)
    ensures ShowsForm(editing, disabled) <==> editing && !disabled
  {
  }

  class Editor {
    const note: NoteItem
    const taskId: int
    const category: Category
    const disabled: bool
    /** The note's task's positions in the view on display. */
    const phaseIndex: int
    const weekIndex: int
    const dayIndex: int
    const taskIndex: int
    /** `isEditing`, `editedContent` and `error`. */
    var editing: bool
    var content: string
    var error: Option<string>

    constructor(note: NoteItem, taskId: int, category: Category,
                phaseIndex: int, weekIndex: int, dayIndex: int, taskIndex: int, disabled: bool)
      ensures this.note == note && this.taskId == taskId && this.category == category && this.disabled == disabled
      ensures this.phaseIndex == phaseIndex && this.weekIndex == weekIndex
      ensures this.dayIndex == dayIndex && this.taskIndex == taskIndex
      ensures !editing && content == note.content && error == None
    {
      this.phaseIndex := phaseIndex;
      this.weekIndex := weekIndex;
      this.dayIndex := dayIndex;
      this.taskIndex := taskIndex;
      this.note := note;
      this.taskId := taskId;
      this.category := category;
      this.disabled := disabled;
      editing := false;
      content := note.content;
      error := None;
    }

    /** The Edit button. */
    method StartEditing()
      modifies this
      ensures editing && content == old(content) && error == old(error)
    {
      editing := true;
    }

    /** The Cancel button: the typed content and the error stay. */
    method CancelEditing()
      modifies this
      ensures !editing && content == old(content) && error == old(error)
    {
      editing := false;
    }

    /** Typing into the input. */
    method Type(s: string)
      modifies this
      ensures content == s && editing == old(editing) && error == old(error)
    {
      content := s;
    }

    /** `handleEdit`: nothing when disabled; a blank content sets the error
      and sends nothing; otherwise the untrimmed content is PUT to the note,
      and if that got through the page is handed the edit payload and
      editing ends. A failed PUT sets the error and editing goes on. */
    method HandleEdit(home: Home, net: Network, fetched: Option<Roadmap>)
      modifies this, home, net
      ensures content == old(content)
      ensures disabled || IsBlank(content) || !Fits(old(net.okLeft), 1) ==>
        editing == old(editing) && net.sent == old(net.sent) && net.okLeft == old(net.okLeft)
        && home.roadmap == old(home.roadmap) && home.filtered == old(home.filtered)
      ensures disabled ==> error == old(error)
      ensures !disabled && IsBlank(content) ==> error == Some("Content cannot be empty")
      ensures !disabled && !IsBlank(content) && !Fits(old(net.okLeft), 1) ==> error == Some("Failed to update note")
      ensures !disabled && !IsBlank(content) && Fits(old(net.okLeft), 1) ==>
        !editing && error == None &&
        UpdatedFrom(StoredNotesAt(old(home.roadmap), phaseIndex, weekIndex, dayIndex, taskIndex),
                    old(home.roadmap), old(home.filtered), old(net.sent) + [PutNote(note.id, content)], Spend(old(net.okLeft), 1),
                    home, net, EditPayload(taskId, category, note.id, content), fetched)
    {
      if disabled {
        return;
      }
      TrimEmptyIffBlank(content);
      if Trim(content) == "" {
        error := Some("Content cannot be empty");
        return;
      }
      error := None;
      var ok := net.Fetch(PutNote(note.id, content));
      if !ok {
        error := Some("Failed to update note");
        return;
      }
      home.UpdateRoadmap(net, phaseIndex, weekIndex, dayIndex, taskIndex, EditPayload(taskId, category, note.id, content), fetched);
      editing := false;
    }
  }
}
