/** The Express backend's Postgres tables (`phases`, `weeks`, `days`,
    `tasks`, `notes`), their row updates and the request-body validators.
    A table is the sequence of its rows in insertion order; the model takes
    every unordered `SELECT` to return them in that order, and an `UPDATE`
    to change a row where it stands. */
module ServerTables {
  import opened Wrappers
  import opened Text
  import opened Tree
  import opened Seqs

  datatype PhaseRow = PhaseRow(id: int, title: string)
  datatype WeekRow = WeekRow(id: int, phaseId: int, title: string)
  datatype DayRow = DayRow(id: int, weekId: int, title: string)
  /** `completed` is `NULL` (`None`) for a row seeded without a boolean. */
  datatype TaskRow = TaskRow(id: int, dayId: int, description: string, completed: Option<bool>)
  datatype NoteRow = NoteRow(id: int, taskId: int, category: string, content: string)

  datatype Tables = Tables(phases: seq<PhaseRow>, weeks: seq<WeekRow>, days: seq<DayRow>,
                           tasks: seq<TaskRow>, notes: seq<NoteRow>)

  const NoTables: Tables := Tables([], [], [], [], [])

  /** One `INSERT` statement; the database supplies the id. */
  datatype Insert =
    | PhaseInsert(title: string)
    | WeekInsert(phaseId: int, title: string)
    | DayInsert(weekId: int, title: string)
    | TaskInsert(dayId: int, description: string, completed: Option<bool>)
    | NoteInsert(taskId: int, category: string, content: string)

  /** The tables after one insert that received id `id`. */
  function Apply(t: Tables, ins: Insert, id: int): (r: Tables)
  {
    match ins
    case PhaseInsert(title) => t.(phases := t.phases + [PhaseRow(id, title)])
    case WeekInsert(phaseId, title) => t.(weeks := t.weeks + [WeekRow(id, phaseId, title)])
    case DayInsert(weekId, title) => t.(days := t.days + [DayRow(id, weekId, title)])
    case TaskInsert(dayId, description, completed) =>
      t.(tasks := t.tasks + [TaskRow(id, dayId, description, completed)])
    case NoteInsert(taskId, category, content) =>
      t.(notes := t.notes + [NoteRow(id, taskId, category, content)])
  }

  function PhaseIds(t: Tables): set<int> { set r | r in t.phases :: r.id }
  function WeekIds(t: Tables): set<int> { set r | r in t.weeks :: r.id }
  function DayIds(t: Tables): set<int> { set r | r in t.days :: r.id }
  function TaskIds(t: Tables): set<int> { set r | r in t.tasks :: r.id }
  function NoteIds(t: Tables): set<int> { set r | r in t.notes :: r.id }

  /** Every foreign key names an existing row. */
  predicate Linked(t: Tables)
  {
    && (forall w :: w in t.weeks ==> w.phaseId in PhaseIds(t))
    && (forall d :: d in t.days ==> d.weekId in WeekIds(t))
    && (forall k :: k in t.tasks ==> k.dayId in DayIds(t))
    && (forall n :: n in t.notes ==> n.taskId in TaskIds(t))
  }

  /** Every id was handed out before `nextId`; ids are positive (serial
      columns start at 1). */
  predicate IdsBelow(t: Tables, nextId: int)
  {
    && (forall r :: r in t.phases ==> 0 < r.id < nextId)
    && (forall r :: r in t.weeks ==> 0 < r.id < nextId)
    && (forall r :: r in t.days ==> 0 < r.id < nextId)
    && (forall r :: r in t.tasks ==> 0 < r.id < nextId)
    && (forall r :: r in t.notes ==> 0 < r.id < nextId)
  }

  predicate Valid(t: Tables, nextId: int)
  {
    Linked(t) && IdsBelow(t, nextId)
  }

  /** The row an insert points to exists. */
  predicate ParentExists(t: Tables, ins: Insert)
  {
    match ins
    case PhaseInsert(_) => true
    case WeekInsert(phaseId, _) => phaseId in PhaseIds(t)
    case DayInsert(weekId, _) => weekId in WeekIds(t)
    case TaskInsert(dayId, _, _) => dayId in DayIds(t)
    case NoteInsert(taskId, _, _) => taskId in TaskIds(t)
  }

  /** No existing row disappears. */
  predicate Grows(t: Tables, u: Tables)
  {
    PhaseIds(t) <= PhaseIds(u) && WeekIds(t) <= WeekIds(u) && DayIds(t) <= DayIds(u)
    && TaskIds(t) <= TaskIds(u) && NoteIds(t) <= NoteIds(u)
  }

  /** An insert only adds a row. */
  lemma ApplyGrows(t: Tables, ins: Insert, id: int)
    ensures Grows(t, Apply(t, ins, id))
  {
    var u := Apply(t, ins, id);
    match ins
    case PhaseInsert(_) => assert PhaseIds(u) == PhaseIds(t) + {id};
    case WeekInsert(_, _) => assert WeekIds(u) == WeekIds(t) + {id};
    case DayInsert(_, _) => assert DayIds(u) == DayIds(t) + {id};
    case TaskInsert(_, _, _) => assert TaskIds(u) == TaskIds(t) + {id};
    case NoteInsert(_, _, _) => assert NoteIds(u) == NoteIds(t) + {id};
  }

  /** An insert whose parent exists, with the next id, keeps the tables valid
      and only adds. */
  lemma ApplyValid(t: Tables, ins: Insert, nextId: int)
    requires Valid(t, nextId) && ParentExists(t, ins) && 0 < nextId
    ensures Valid(Apply(t, ins, nextId), nextId + 1)
    ensures Grows(t, Apply(t, ins, nextId))
  {
    ApplyGrows(t, ins, nextId);
  }

  /** Setting the completion flag of the task rows with that id. */
  function SetCompleted(ts: seq<TaskRow>, id: int, b: bool): (r: seq<TaskRow>)
    ensures |r| == |ts|
    ensures forall i :: 0 <= i < |ts| ==>
              r[i] == if ts[i].id == id then ts[i].(completed := Some(b)) else ts[i]
  {
    if ts == [] then []
    else [if ts[0].id == id then ts[0].(completed := Some(b)) else ts[0]] + SetCompleted(ts[1..], id, b)
  }

  /** Setting the content of the note rows with that id. */
  function SetContent(ns: seq<NoteRow>, id: int, c: string): (r: seq<NoteRow>)
    ensures |r| == |ns|
    ensures forall i :: 0 <= i < |ns| ==>
              r[i] == if ns[i].id == id then ns[i].(content := c) else ns[i]
  {
    if ns == [] then []
    else [if ns[0].id == id then ns[0].(content := c) else ns[0]] + SetContent(ns[1..], id, c)
  }

  /** The rows a delete by id keeps. */
  function KeepsNote(id: int): NoteRow -> bool
  {
    (n: NoteRow) => n.id != id
  }

  /** Deleting the note rows with that id. */
  function DeleteNote(ns: seq<NoteRow>, id: int): seq<NoteRow>
  {
    Filter(ns, KeepsNote(id))
  }

  /** Deleting removes exactly the rows with that id, keeps the others in
      order, and shrinks the table iff such a row existed. */
  lemma DeleteNoteSpec(ns: seq<NoteRow>, id: int)
    ensures forall n :: n in DeleteNote(ns, id) <==> n in ns && n.id != id
    ensures IsSubsequence(DeleteNote(ns, id), ns)
    ensures |DeleteNote(ns, id)| < |ns| <==> exists n :: n in ns && n.id == id
  {
    forall n
      ensures n in DeleteNote(ns, id) <==> n in ns && n.id != id
    {
      FilterMember(ns, KeepsNote(id), n);
    }
    FilterIsSubsequence(ns, KeepsNote(id));
    if exists n :: n in ns && n.id == id {
      var n :| n in ns && n.id == id;
      FilterMember(ns, KeepsNote(id), n);
      FilterShorter(ns, KeepsNote(id), n);
    } else {
      FilterAll(ns, KeepsNote(id));
    }
  }

  /** Filtering out an element that is present shortens the sequence. */
  lemma {:induction false} FilterShorter<T>(s: seq<T>, p: T -> bool, x: T)
    requires x in s && !p(x)
    ensures |Filter(s, p)| < |s|
  {
    if s[0] != x {
      FilterShorter(s[1..], p, x);
    }
  }

  /** A request-body value: a string, or some other JSON value of which only
      its truthiness matters. */
  datatype Value = Str(s: string) | Other(truthy: bool)

  /** The category check of the note creation handler: one of the four names. */
  predicate ValidCategory(category: Value)
  {
    category.Str? && category.s in [Name(ToBeDone), Name(ToBePracticed), Name(ToBeSearched), Name(ToBeUsedAsReference)]
  }

  /** The content check shared by note creation and note editing: truthy, a
      string, and not empty after trimming. */
  predicate ValidContent(content: Value)
  {
    match content
    case Other(_) => false
    case Str(s) => s != "" && Trim(s) != ""
  }

  /** A category passes the check iff it names one of the four categories. */
  lemma ValidCategoryIff(category: Value)
    ensures ValidCategory(category) <==> category.Str? && ParseCategory(category.s).Some?
  {
  }

  /** Content passes the check iff it is a string with a non-space character. */
  lemma ValidContentIff(content: Value)
    ensures ValidContent(content) <==> content.Str? && !IsBlank(content.s)
  {
    if content.Str? {
      TrimEmptyIffBlank(content.s);
    }
  }

  /** Every stored note names one of the four categories. */
  predicate CategoriesValid(t: Tables)
  {
    forall n :: n in t.notes ==> ParseCategory(n.category).Some?
  }

  /** Setting a flag keeps every id and key, so the tables stay valid. */
  lemma SetCompletedValid(t: Tables, id: int, b: bool, nextId: int)
    requires Valid(t, nextId)
    ensures Valid(t.(tasks := SetCompleted(t.tasks, id, b)), nextId)
  {
    var u := t.(tasks := SetCompleted(t.tasks, id, b));
    SetCompletedIds(t, id, b);
    assert TaskIds(u) == TaskIds(t);
    forall k | k in u.tasks
      ensures k.dayId in DayIds(u) && 0 < k.id < nextId
    {
      var i :| 0 <= i < |u.tasks| && u.tasks[i] == k;
      assert t.tasks[i] in t.tasks;
    }
  }

  lemma SetCompletedIds(t: Tables, id: int, b: bool)
    ensures TaskIds(t.(tasks := SetCompleted(t.tasks, id, b))) == TaskIds(t)
  {
    var u := t.(tasks := SetCompleted(t.tasks, id, b));
    forall x
      ensures x in TaskIds(u) <==> x in TaskIds(t)
    {
      if x in TaskIds(t) {
        var r :| r in t.tasks && r.id == x;
        var i :| 0 <= i < |t.tasks| && t.tasks[i] == r;
        assert u.tasks[i].id == x;
      }
      if x in TaskIds(u) {
        var r :| r in u.tasks && r.id == x;
        var i :| 0 <= i < |u.tasks| && u.tasks[i] == r;
        assert t.tasks[i].id == x;
      }
    }
  }

  /** No row has the id: the update changes nothing. */
  lemma {:induction false} SetCompletedAbsent(ts: seq<TaskRow>, id: int, b: bool)
    requires forall r :: r in ts ==> r.id != id
    ensures SetCompleted(ts, id, b) == ts
  {
    if ts != [] {
      SetCompletedAbsent(ts[1..], id, b);
    }
  }

  lemma SetContentValid(t: Tables, id: int, c: string, nextId: int)
    requires Valid(t, nextId)
    ensures Valid(t.(notes := SetContent(t.notes, id, c)), nextId)
  {
    var u := t.(notes := SetContent(t.notes, id, c));
    forall n | n in u.notes
      ensures n.taskId in TaskIds(u) && 0 < n.id < nextId
    {
      var i :| 0 <= i < |u.notes| && u.notes[i] == n;
      assert t.notes[i] in t.notes;
    }
    forall x | x in NoteIds(u)
      ensures 0 < x < nextId
    {
      var r :| r in u.notes && r.id == x;
    }
  }

  lemma {:induction false} SetContentAbsent(ns: seq<NoteRow>, id: int, c: string)
    requires forall r :: r in ns ==> r.id != id
    ensures SetContent(ns, id, c) == ns
  {
    if ns != [] {
      SetContentAbsent(ns[1..], id, c);
    }
  }

  lemma DeleteNoteValid(t: Tables, id: int, nextId: int)
    requires Valid(t, nextId)
    ensures Valid(t.(notes := DeleteNote(t.notes, id)), nextId)
  {
    DeleteNoteSpec(t.notes, id);
  }

  lemma DeleteNoteAbsent(ns: seq<NoteRow>, id: int)
    requires forall r :: r in ns ==> r.id != id
    ensures DeleteNote(ns, id) == ns
  {
    FilterAll(ns, KeepsNote(id));
  }
}
