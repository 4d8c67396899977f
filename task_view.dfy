/** One task's controls: the completion checkbox, the note lists with their
    delete buttons, and one add-note draft per category. Every write goes
    through the page's `updateRoadmap`, which never throws, so the error
    line is set only when the card's own DELETE fails. The controls are
    gated on the `access` string; `None` stands for `undefined`, which is
    what the current pages pass (the page renders its phases without one,
    and the day list drops it before the task). */
module TaskView {
  import opened Wrappers
  import opened Seqs
  import opened Text
  import opened Tree
  import opened Batch
  import opened Http
  import opened HomePage
  import TaskFilter

  predicate IsViewer(access: Option<string>)
  {
    access == Some("viewer")
  }

  predicate IsCommenter(access: Option<string>)
  {
    access == Some("commenter")
  }

  /** The checkbox is disabled, and completion changes are ignored. */
  predicate CompletionLocked(access: Option<string>)
  {
    IsViewer(access) || IsCommenter(access)
  }

  /** A note's delete button is rendered: the note's id is truthy and the
      user is not a viewer. */
  predicate ShowsDelete(access: Option<string>, n: NoteItem)
  {
    HasId(n) && !IsViewer(access)
  }

  /** Viewers can neither complete, add nor delete; commenters can add and
      delete but not complete; with no access string nothing is locked. */
  lemma AccessGates(access: Option<string>, n: NoteItem)
    ensures IsViewer(access) ==> CompletionLocked(access) && !ShowsDelete(access, n)
    ensures IsCommenter(access) ==> CompletionLocked(access) && (ShowsDelete(access, n) <==> HasId(n))
    ensures access.None? ==> !CompletionLocked(access) && (ShowsDelete(access, n) <==> HasId(n))
    ensures !HasId(n) ==> !ShowsDelete(access, n)
  {
  }

  /** The draft of a category can be submitted: it is set, and not blank
      once trimmed. */
  predicate Submittable(drafts: map<Category, string>, c: Category)
  {
    c in drafts && Trim(drafts[c]) != ""
  }

  /** The notes record sent when adding: a note with a null id and the
      draft as content appended to that category. */
  function AppendNote(notes: Notes, c: Category, draft: string): Notes
  {
    notes.With(c, notes.Get(c) + [NoteItem(None, draft)])
  }

  /** Appending changes exactly one category, by one note at its end. */
  lemma AppendNoteSpec(notes: Notes, c: Category, draft: string)
    ensures AppendNote(notes, c, draft).Get(c) == notes.Get(c) + [NoteItem(None, draft)]
    ensures forall d :: d != c ==> AppendNote(notes, c, draft).Get(d) == notes.Get(d)
    ensures |AppendNote(notes, c, draft).Get(c)| == |notes.Get(c)| + 1
  {
  }

  /** Every stored note carries an id, as every note the server sends does. */
  predicate Saved(notes: Notes)
  {
    forall d, n :: n in notes.Get(d) ==> n.id.Some?
  }

  /** Adding to a task whose own stored notes the lookup yields sends the
      completion PUT, exactly one POST carrying the draft, and the refetch. */
  lemma AddSendsOnePost(t: Task, c: Category, draft: string)
    requires Saved(t.notes)
    ensures Requests(Some(t.notes), Payload(t.id, t.completed, AppendNote(t.notes, c, draft)))
         == [PutTask(t.id, t.completed), PostNote(t.id, c, draft), GetRoadmap]
  {
    hide Requests, NotePosts, NewNotes, AppendNote;
    var p := Payload(t.id, t.completed, AppendNote(t.notes, c, draft));
    var n := NoteItem(None, draft);
    var stored := t.notes.Get(c);
    assert forall m :: m in stored ==> m.id.Some?;
    var post := [PostNote(t.id, c, draft)];
    assert CategoryPosts(t.id, c, [n]) == post by {
      assert [n][..0] == [];
    }
    hide CategoryPosts, Saved;
    AppendNoteSpec(t.notes, c, draft);
    RequestsShape(Some(t.notes), p);
    NotePostsOnlyIn(t.notes, p, c, |Categories|);
    NewNotesAppended(stored, n);
  }

  /** Resending a task with the very notes the lookup yields (a completion
      change, or the write-back after a delete) sends no POST. */
  lemma ResendSendsNoPost(t: Task, completed: Flag)
    ensures Requests(Some(t.notes), Payload(t.id, completed, t.notes)) == [PutTask(t.id, completed), GetRoadmap]
  {
    var p := Payload(t.id, completed, t.notes);
    NotePostsOnlyIn(t.notes, p, ToBeDone, |Categories|);
    NewNotesSelf(t.notes.Get(ToBeDone));
    assert CategoryPosts(t.id, ToBeDone, []) == [];
  }

  /** As written, on a page showing the whole roadmap: the view positions
      find the card's own task, so adding sends the PUT, the one POST and
      the refetch. */
  lemma AddInRoadmapSendsOnePost(r: Roadmap, pi: int, wi: int, di: int, ti: int, c: Category, draft: string)
    requires TaskAt(r, pi, wi, di, ti).Some? && Saved(TaskAt(r, pi, wi, di, ti).value.notes)
    ensures var t := TaskAt(r, pi, wi, di, ti).value;
            Requests(StoredNotesAt(r, pi, wi, di, ti), Payload(t.id, t.completed, AppendNote(t.notes, c, draft)))
            == [PutTask(t.id, t.completed), PostNote(t.id, c, draft), GetRoadmap]
  {
    AddSendsOnePost(TaskAt(r, pi, wi, di, ti).value, c, draft);
  }

  /** As written, under the "completed" filter of `ShiftedRoadmap`: the card
      at view positions (0, 0, 0, 1) shows task 3, the lookup at those
      positions in the roadmap fails, and adding a note sends only the
      completion PUT; the note is lost. The corrected lookup by id sends the
      POST. */
  lemma ShiftedAddSendsNoPost(c: Category, draft: string)
    ensures var r := ShiftedRoadmap();
            var t := Task(3, 2, "test", Bool(true), EmptyNotes);
            var p := Payload(t.id, t.completed, AppendNote(t.notes, c, draft));
            TaskAt(TaskFilter.HandleFilterChange(r, "completed"), 0, 0, 0, 1) == Some(t)
            && Requests(StoredNotesAt(r, 0, 0, 0, 1), p) == [PutTask(3, Bool(true))]
            && Requests(StoredNotes(r, 3), p) == [PutTask(3, Bool(true)), PostNote(3, c, draft), GetRoadmap]
  {
    var t := Task(3, 2, "test", Bool(true), EmptyNotes);
    assert Saved(EmptyNotes);
    hide *;
    StoredNotesAtMisses();
    var p := Payload(t.id, t.completed, AppendNote(t.notes, c, draft));
    RequestsShape(None, p);
    AddSendsOnePost(t, c, draft);
  }

  /** Corrected: looked up by id, adding to any task shown in a view that
      lies within the roadmap sends the PUT, the one POST and the refetch,
      whatever filter or search made the view. */
  lemma ShownAddSendsOnePost(r: Roadmap, view: Roadmap, pi: int, wi: int, di: int, ti: int, c: Category, draft: string)
    requires Within(view, r) && UniqueIds(AllTasks(r))
    requires TaskAt(view, pi, wi, di, ti).Some? && Saved(TaskAt(view, pi, wi, di, ti).value.notes)
    ensures var t := TaskAt(view, pi, wi, di, ti).value;
            Requests(StoredNotes(r, t.id), Payload(t.id, t.completed, AppendNote(t.notes, c, draft)))
            == [PutTask(t.id, t.completed), PostNote(t.id, c, draft), GetRoadmap]
  {
    ShownTaskFound(r, view, pi, wi, di, ti);
    AddSendsOnePost(TaskAt(view, pi, wi, di, ti).value, c, draft);
  }

  class TaskCard {
    const task: Task
    /** The card's positions in the view on display. */
    const phaseIndex: int
    const weekIndex: int
    const dayIndex: int
    const taskIndex: int
    const access: Option<string>
    /** `newNote`: the add-note drafts by category. */
    var drafts: map<Category, string>
    var error: Option<string>

    constructor(task: Task, phaseIndex: int, weekIndex: int, dayIndex: int, taskIndex: int, access: Option<string>)
      ensures this.task == task && this.access == access
      ensures this.phaseIndex == phaseIndex && this.weekIndex == weekIndex
      ensures this.dayIndex == dayIndex && this.taskIndex == taskIndex
      ensures drafts == map[] && error == None
    {
      this.task := task;
      this.phaseIndex := phaseIndex;
      this.weekIndex := weekIndex;
      this.dayIndex := dayIndex;
      this.taskIndex := taskIndex;
      this.access := access;
      drafts := map[];
      error := None;
    }

    /** What `updateRoadmap` reads as this card's stored notes. */
    function Found(r: Roadmap): Option<Notes>
    {
      StoredNotesAt(r, phaseIndex, weekIndex, dayIndex, taskIndex)
    }

    /** Typing into a category's add-note input. */
    method TypeDraft(c: Category, s: string)
      modifies this
      ensures drafts == old(drafts)[c := s] && error == old(error)
    {
      drafts := drafts[c := s];
    }

    /** `handleComplete`: ignored when locked; otherwise the task goes back
      with `completed` set to the checkbox state and nothing else changed. */
    method HandleComplete(home: Home, net: Network, checked: bool, fetched: Option<Roadmap>)
      modifies this, home, net
      ensures drafts == old(drafts)
      ensures CompletionLocked(access) ==>
        error == old(error) && net.sent == old(net.sent) && net.okLeft == old(net.okLeft)
        && home.roadmap == old(home.roadmap) && home.filtered == old(home.filtered)
      ensures !CompletionLocked(access) ==>
        error == None &&
        UpdatedFrom(Found(old(home.roadmap)), old(home.roadmap), old(home.filtered), old(net.sent), old(net.okLeft),
                    home, net, Payload(task.id, Bool(checked), task.notes), fetched)
    {
      if CompletionLocked(access) {
        return;
      }
      error := None;
      home.UpdateRoadmap(net, phaseIndex, weekIndex, dayIndex, taskIndex, Payload(task.id, Bool(checked), task.notes), fetched);
    }

    /** `addNote`: ignored for viewers and for a draft that is unset or
      blank; otherwise the task goes back with the draft appended, and that
      category's draft is cleared whatever became of the write. */
    method AddNote(home: Home, net: Network, c: Category, fetched: Option<Roadmap>)
      modifies this, home, net
      ensures IsViewer(access) || !Submittable(old(drafts), c) ==>
        drafts == old(drafts) && error == old(error)
        && net.sent == old(net.sent) && net.okLeft == old(net.okLeft)
        && home.roadmap == old(home.roadmap) && home.filtered == old(home.filtered)
      ensures !IsViewer(access) && Submittable(old(drafts), c) ==>
        drafts == old(drafts)[c := ""] && error == None &&
        UpdatedFrom(Found(old(home.roadmap)), old(home.roadmap), old(home.filtered), old(net.sent), old(net.okLeft),
                    home, net, Payload(task.id, task.completed, AppendNote(task.notes, c, old(drafts)[c])), fetched)
    {
      if IsViewer(access) {
        return;
      }
      if c in drafts && Trim(drafts[c]) != "" {
        error := None;
        var notes := AppendNote(task.notes, c, drafts[c]);
        home.UpdateRoadmap(net, phaseIndex, weekIndex, dayIndex, taskIndex, Payload(task.id, task.completed, notes), fetched);
        drafts := drafts[c := ""];
      }
    }

    /** `deleteNote`: ignored for viewers; otherwise the DELETE, then, if it
      got through, the task as rendered goes back. A failed DELETE sets the
      error line. */
    method DeleteNote(home: Home, net: Network, noteId: Option<int>, fetched: Option<Roadmap>)
      modifies this, home, net
      ensures drafts == old(drafts)
      ensures IsViewer(access) || !Fits(old(net.okLeft), 1) ==>
        net.sent == old(net.sent) && net.okLeft == old(net.okLeft)
        && home.roadmap == old(home.roadmap) && home.filtered == old(home.filtered)
      ensures IsViewer(access) ==> error == old(error)
      ensures !IsViewer(access) && !Fits(old(net.okLeft), 1) ==> error == Some("Failed to delete note")
      ensures !IsViewer(access) && Fits(old(net.okLeft), 1) ==>
        error == None &&
        UpdatedFrom(Found(old(home.roadmap)), old(home.roadmap), old(home.filtered), old(net.sent) + [Http.DeleteNote(noteId)], Spend(old(net.okLeft), 1),
                    home, net, Payload(task.id, task.completed, task.notes), fetched)
    {
      if IsViewer(access) {
        return;
      }
      error := None;
      var ok := net.Fetch(Http.DeleteNote(noteId));
      if !ok {
        error := Some("Failed to delete note");
        return;
      }
      home.UpdateRoadmap(net, phaseIndex, weekIndex, dayIndex, taskIndex, Payload(task.id, task.completed, task.notes), fetched);
    }
  }
}
