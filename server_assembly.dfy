/** The tree the backend's `GET /api/roadmap` sends: every phase row, with
    its weeks, their days, their tasks, and each task's notes bucketed into
    the four categories. A note row whose category is not one of the four
    makes the bucketing throw, so the whole request fails. */
module ServerAssembly {
  import opened Wrappers
  import opened Seqs
  import opened Tree
  import opened ServerTables

  function InPhase(phaseId: int): WeekRow -> bool { (w: WeekRow) => w.phaseId == phaseId }
  function InWeek(weekId: int): DayRow -> bool { (d: DayRow) => d.weekId == weekId }
  function OnDay(dayId: int): TaskRow -> bool { (k: TaskRow) => k.dayId == dayId }
  function OfTask(taskId: int): NoteRow -> bool { (n: NoteRow) => n.taskId == taskId }

  /** The child-row tests: a week of a phase, and likewise below. */
  function WeeksOf(t: Tables, phaseId: int): seq<WeekRow> { Filter(t.weeks, InPhase(phaseId)) }
  function DaysOf(t: Tables, weekId: int): seq<DayRow> { Filter(t.days, InWeek(weekId)) }
  function TasksOf(t: Tables, dayId: int): seq<TaskRow> { Filter(t.tasks, OnDay(dayId)) }
  function NotesOf(t: Tables, taskId: int): seq<NoteRow> { Filter(t.notes, OfTask(taskId)) }

  /** A note row as the tree carries it: `{id, content}`. */
  function Item(n: NoteRow): NoteItem { NoteItem(Some(n.id), n.content) }

  function Items(ns: seq<NoteRow>): seq<NoteItem>
  {
    seq(|ns|, i requires 0 <= i < |ns| => Item(ns[i]))
  }

  function InCategory(c: Category): NoteRow -> bool { (n: NoteRow) => n.category == Name(c) }

  /** Start from the four empty lists and push each row, in order, onto the
      list its category names; fail on a row naming none of them. */
  function Bucket(rows: seq<NoteRow>): Option<Notes>
  {
    if rows == [] then Some(EmptyNotes)
    else
      match Bucket(rows[..|rows| - 1])
      case None => None
      case Some(notes) =>
        var n := rows[|rows| - 1];
        match ParseCategory(n.category)
        case None => None
        case Some(c) => Some(notes.With(c, notes.Get(c) + [Item(n)]))
  }

  /** Bucketing succeeds iff every row names a category. */
  lemma {:induction false} BucketSucceeds(rows: seq<NoteRow>)
    ensures Bucket(rows).Some? <==> forall n :: n in rows ==> ParseCategory(n.category).Some?
  {
    if rows != [] {
      var init := rows[..|rows| - 1];
      assert rows == init + [rows[|rows| - 1]];
      BucketSucceeds(init);
    }
  }

  /** When bucketing succeeds, each category's list holds exactly that
      category's rows as `{id, content}`, in row order. */
  lemma {:induction false} BucketContents(rows: seq<NoteRow>, c: Category)
    requires Bucket(rows).Some?
    ensures Bucket(rows).value.Get(c) == Items(Filter(rows, InCategory(c)))
  {
    hide *;
    if rows == [] {
      BucketEmpty(c);
    } else {
      var init := rows[..|rows| - 1];
      var n := rows[|rows| - 1];
      assert rows == init + [n];
      BucketLast(init, n, c);
      BucketContents(init, c);
      FilterAppend(init, [n], InCategory(c));
      ItemsAppend(Filter(init, InCategory(c)), Filter([n], InCategory(c)));
    }
  }

  lemma BucketEmpty(c: Category)
    ensures Bucket([]) == Some(EmptyNotes)
    ensures Bucket([]).value.Get(c) == Items(Filter([], InCategory(c)))
  {
  }

  lemma ItemsAppend(a: seq<NoteRow>, b: seq<NoteRow>)
    ensures Items(a + b) == Items(a) + Items(b)
  {
  }

  /** The step of `BucketContents`: the last row lands on its own category. */
  lemma BucketLast(init: seq<NoteRow>, n: NoteRow, c: Category)
    requires Bucket(init + [n]).Some?
    ensures Bucket(init).Some?
    ensures Bucket(init + [n]).value.Get(c)
         == Bucket(init).value.Get(c) + Items(Filter([n], InCategory(c)))
  {
    var rows := init + [n];
    assert rows[..|rows| - 1] == init;
    var cn := ParseCategory(n.category).value;
    var prev := Bucket(init).value.Get(c);
    if c == cn {
      assert Filter([n], InCategory(c)) == [n];
      assert Items([n]) == [Item(n)];
    } else {
      assert Filter([n], InCategory(c)) == [];
      assert prev + Items([]) == prev;
    }
  }

  lemma BucketPrefixFails(rows: seq<NoteRow>, i: nat)
    requires i <= |rows| && Bucket(rows[..i]).None?
    ensures Bucket(rows).None?
  {
    BucketSucceeds(rows[..i]);
    BucketSucceeds(rows);
  }

  /** The `completed` column as JSON: the boolean, or `null`, which is falsy
      and not a boolean. */
  function ColumnFlag(c: Option<bool>): (f: Flag)
    ensures f.Bool? <==> c.Some?
    ensures c.Some? ==> f == Bool(c.value)
    ensures !Truthy(f) <==> c != Some(true)
  {
    match c
    case Some(b) => Bool(b)
    case None => NonBool(false)
  }

  /** One task row with its notes bucketed. */
  function TaskOf(t: Tables, r: TaskRow): Option<Task>
  {
    match Bucket(NotesOf(t, r.id))
    case None => None
    case Some(notes) => Some(Task(r.id, r.dayId, r.description, ColumnFlag(r.completed), notes))
  }

  function TaskOfIn(t: Tables): TaskRow -> Option<Task> { (r: TaskRow) => TaskOf(t, r) }

  function DayOf(t: Tables, r: DayRow): Option<Day>
  {
    match Collect(TasksOf(t, r.id), TaskOfIn(t))
    case None => None
    case Some(tasks) => Some(Day(r.id, r.weekId, r.title, tasks))
  }

  function DayOfIn(t: Tables): DayRow -> Option<Day> { (r: DayRow) => DayOf(t, r) }

  function WeekOf(t: Tables, r: WeekRow): Option<Week>
  {
    match Collect(DaysOf(t, r.id), DayOfIn(t))
    case None => None
    case Some(days) => Some(Week(r.id, r.phaseId, r.title, days))
  }

  function WeekOfIn(t: Tables): WeekRow -> Option<Week> { (r: WeekRow) => WeekOf(t, r) }

  function PhaseOf(t: Tables, r: PhaseRow): Option<Phase>
  {
    match Collect(WeeksOf(t, r.id), WeekOfIn(t))
    case None => None
    case Some(weeks) => Some(Phase(r.id, r.title, weeks))
  }

  function PhaseOfIn(t: Tables): PhaseRow -> Option<Phase> { (r: PhaseRow) => PhaseOf(t, r) }

  /** The response body `{phases}`, or None when the handler throws. */
  function Assemble(t: Tables): Option<Roadmap>
  {
    match Collect(t.phases, PhaseOfIn(t))
    case None => None
    case Some(phases) => Some(Roadmap(phases, map[]))
  }

  /** The `forEach` that pushes a task's note rows into its notes record. */
  method BucketNotes(rows: seq<NoteRow>) returns (r: Option<Notes>)
    ensures r == Bucket(rows)
  {
    var notes := EmptyNotes;
    for i := 0 to |rows|
      invariant Bucket(rows[..i]) == Some(notes)
    {
      assert rows[..i + 1][..i] == rows[..i];
      var c := ParseCategory(rows[i].category);
      if c.None? {
        BucketPrefixFails(rows, i + 1);
        return None;
      }
      notes := notes.With(c.value, notes.Get(c.value) + [Item(rows[i])]);
    }
    assert rows[..|rows|] == rows;
    return Some(notes);
  }

  /** The innermost loop: each task of a day gets its notes. */
  method FillTasks(t: Tables, rows: seq<TaskRow>) returns (r: Option<seq<Task>>)
    ensures r == Collect(rows, TaskOfIn(t))
  {
    var tasks := [];
    for i := 0 to |rows|
      invariant Collect(rows[..i], TaskOfIn(t)) == Some(tasks)
    {
      CollectStep(rows, TaskOfIn(t), i, tasks);
      var notes := BucketNotes(NotesOf(t, rows[i].id));
      if notes.None? {
        CollectPrefixFails(rows, TaskOfIn(t), i + 1);
        return None;
      }
      tasks := tasks + [Task(rows[i].id, rows[i].dayId, rows[i].description, ColumnFlag(rows[i].completed), notes.value)];
    }
    assert rows[..|rows|] == rows;
    return Some(tasks);
  }

  method FillDays(t: Tables, rows: seq<DayRow>) returns (r: Option<seq<Day>>)
    ensures r == Collect(rows, DayOfIn(t))
  {
    var days := [];
    for i := 0 to |rows|
      invariant Collect(rows[..i], DayOfIn(t)) == Some(days)
    {
      CollectStep(rows, DayOfIn(t), i, days);
      var tasks := FillTasks(t, TasksOf(t, rows[i].id));
      if tasks.None? {
        CollectPrefixFails(rows, DayOfIn(t), i + 1);
        return None;
      }
      days := days + [Day(rows[i].id, rows[i].weekId, rows[i].title, tasks.value)];
    }
    assert rows[..|rows|] == rows;
    return Some(days);
  }

  method FillWeeks(t: Tables, rows: seq<WeekRow>) returns (r: Option<seq<Week>>)
    ensures r == Collect(rows, WeekOfIn(t))
  {
    var weeks := [];
    for i := 0 to |rows|
      invariant Collect(rows[..i], WeekOfIn(t)) == Some(weeks)
    {
      CollectStep(rows, WeekOfIn(t), i, weeks);
      var days := FillDays(t, DaysOf(t, rows[i].id));
      if days.None? {
        CollectPrefixFails(rows, WeekOfIn(t), i + 1);
        return None;
      }
      weeks := weeks + [Week(rows[i].id, rows[i].phaseId, rows[i].title, days.value)];
    }
    assert rows[..|rows|] == rows;
    return Some(weeks);
  }

  /** The outer loop of the handler: every phase row gets its weeks. */
  method FillPhases(t: Tables) returns (r: Option<Roadmap>)
    ensures r == Assemble(t)
  {
    var rows := t.phases;
    var phases := [];
    for i := 0 to |rows|
      invariant Collect(rows[..i], PhaseOfIn(t)) == Some(phases)
    {
      CollectStep(rows, PhaseOfIn(t), i, phases);
      var weeks := FillWeeks(t, WeeksOf(t, rows[i].id));
      if weeks.None? {
        CollectPrefixFails(rows, PhaseOfIn(t), i + 1);
        return None;
      }
      phases := phases + [Phase(rows[i].id, rows[i].title, weeks.value)];
    }
    assert rows[..|rows|] == rows;
    return Some(Roadmap(phases, map[]));
  }

  /** A task row assembles iff all its note rows name a category; the task
      then copies the row's fields, carries the `completed` column as JSON,
      and lists under each category exactly that category's note rows of the
      task, in row order. */
  lemma TaskOfSpec(t: Tables, r: TaskRow)
    ensures TaskOf(t, r).Some? <==>
              forall n :: n in t.notes && n.taskId == r.id ==> ParseCategory(n.category).Some?
    ensures TaskOf(t, r).Some? ==>
              var k := TaskOf(t, r).value;
              && k.id == r.id && k.dayId == r.dayId && k.description == r.description
              && k.completed == ColumnFlag(r.completed)
              && forall c :: k.notes.Get(c) == Items(Filter(NotesOf(t, r.id), InCategory(c)))
  {
    BucketSucceeds(NotesOf(t, r.id));
    forall n
      ensures n in NotesOf(t, r.id) <==> n in t.notes && n.taskId == r.id
    {
      FilterMember(t.notes, OfTask(r.id), n);
    }
    if TaskOf(t, r).Some? {
      forall c
        ensures TaskOf(t, r).value.notes.Get(c) == Items(Filter(NotesOf(t, r.id), InCategory(c)))
      {
        BucketContents(NotesOf(t, r.id), c);
      }
    }
  }

  /** Each level assembles once everything below it does. */
  lemma DaySucceeds(t: Tables, r: DayRow)
    requires forall k: TaskRow :: TaskOf(t, k).Some?
    ensures DayOf(t, r).Some?
  {
    CollectSpec(TasksOf(t, r.id), TaskOfIn(t));
  }

  lemma WeekSucceeds(t: Tables, r: WeekRow)
    requires forall k: TaskRow :: TaskOf(t, k).Some?
    ensures WeekOf(t, r).Some?
  {
    forall d: DayRow
      ensures DayOf(t, d).Some?
    {
      DaySucceeds(t, d);
    }
    CollectSpec(DaysOf(t, r.id), DayOfIn(t));
  }

  lemma PhaseSucceeds(t: Tables, r: PhaseRow)
    requires forall k: TaskRow :: TaskOf(t, k).Some?
    ensures PhaseOf(t, r).Some?
  {
    forall w: WeekRow
      ensures WeekOf(t, w).Some?
    {
      WeekSucceeds(t, w);
    }
    CollectSpec(WeeksOf(t, r.id), WeekOfIn(t));
  }

  /** When every note row names one of the four categories (as every note
      the API creates does), the handler answers with a tree. */
  lemma AssembleSucceeds(t: Tables)
    requires CategoriesValid(t)
    ensures Assemble(t).Some?
  {
    forall k: TaskRow
      ensures TaskOf(t, k).Some?
    {
      TaskOfSpec(t, k);
    }
    forall p: PhaseRow
      ensures PhaseOf(t, p).Some?
    {
      PhaseSucceeds(t, p);
    }
    CollectSpec(t.phases, PhaseOfIn(t));
  }

  /** `Collect` fails when one element of the input fails. */
  lemma CollectMemberFails<T, U>(xs: seq<T>, f: T -> Option<U>, x: T)
    requires x in xs && f(x).None?
    ensures Collect(xs, f).None?
  {
    CollectSpec(xs, f);
    var i :| 0 <= i < |xs| && xs[i] == x;
  }

  /** A note row with any other category under a task that the walk reaches
      (its day in a week of a phase) makes the whole request fail. */
  lemma AssembleFails(t: Tables, p: PhaseRow, w: WeekRow, d: DayRow, k: TaskRow, n: NoteRow)
    requires p in t.phases && w in WeeksOf(t, p.id) && d in DaysOf(t, w.id)
    requires k in TasksOf(t, d.id) && n in NotesOf(t, k.id)
    requires ParseCategory(n.category).None?
    ensures Assemble(t).None?
  {
    BucketSucceeds(NotesOf(t, k.id));
    CollectMemberFails(TasksOf(t, d.id), TaskOfIn(t), k);
    CollectMemberFails(DaysOf(t, w.id), DayOfIn(t), d);
    CollectMemberFails(WeeksOf(t, p.id), WeekOfIn(t), w);
    CollectMemberFails(t.phases, PhaseOfIn(t), p);
  }

  /** The phases come in row order, one per phase row, with its id and title,
      and each carries the weeks whose `phase_id` is its id, in row order. */
  lemma AssemblePhases(t: Tables)
    requires Assemble(t).Some?
    ensures var ps := Assemble(t).value.phases;
            && |ps| == |t.phases|
            && forall i :: 0 <= i < |ps| ==>
                 && ps[i].id == t.phases[i].id && ps[i].title == t.phases[i].title
                 && Collect(WeeksOf(t, t.phases[i].id), WeekOfIn(t)) == Some(ps[i].weeks)
  {
    CollectSpec(t.phases, PhaseOfIn(t));
  }

  /** The task carries, as JSON, the `completed` column of a task row with
      its id. */
  predicate FlagFromRow(t: Tables, x: Task)
  {
    exists k :: k in t.tasks && k.id == x.id && x.completed == ColumnFlag(k.completed)
  }

  /** Every task the server sends carries the `completed` column of its
      row: a real boolean, or `null` where the row holds `NULL`; so when no
      task row holds `NULL`, every flag sent is a boolean. */
  lemma AssembleFlags(t: Tables)
    requires Assemble(t).Some?
    ensures forall x :: x in AllTasks(Assemble(t).value) ==> FlagFromRow(t, x)
    ensures (forall k :: k in t.tasks ==> k.completed.Some?) ==> BooleanFlags(Assemble(t).value)
  {
    var r := Assemble(t).value;
    CollectSpec(t.phases, PhaseOfIn(t));
    forall x | x in AllTasks(r)
      ensures FlagFromRow(t, x)
    {
      PhaseTasksMember(r.phases, x);
      var p :| p in r.phases && x in WeekTasks(p.weeks);
      var i :| 0 <= i < |r.phases| && r.phases[i] == p;
      PhaseFlags(t, t.phases[i], x);
    }
  }

  lemma PhaseFlags(t: Tables, r: PhaseRow, x: Task)
    requires PhaseOf(t, r).Some? && x in WeekTasks(PhaseOf(t, r).value.weeks)
    ensures FlagFromRow(t, x)
  {
    var ws := PhaseOf(t, r).value.weeks;
    CollectSpec(WeeksOf(t, r.id), WeekOfIn(t));
    WeekTasksMember(ws, x);
    var w :| w in ws && x in DayTasks(w.days);
    var i :| 0 <= i < |ws| && ws[i] == w;
    WeekFlags(t, WeeksOf(t, r.id)[i], x);
  }

  lemma WeekFlags(t: Tables, r: WeekRow, x: Task)
    requires WeekOf(t, r).Some? && x in DayTasks(WeekOf(t, r).value.days)
    ensures FlagFromRow(t, x)
  {
    var ds := WeekOf(t, r).value.days;
    CollectSpec(DaysOf(t, r.id), DayOfIn(t));
    DayTasksMember(ds, x);
    var d :| d in ds && x in d.tasks;
    var i :| 0 <= i < |ds| && ds[i] == d;
    DayFlags(t, DaysOf(t, r.id)[i], x);
  }

  lemma DayFlags(t: Tables, r: DayRow, x: Task)
    requires DayOf(t, r).Some? && x in DayOf(t, r).value.tasks
    ensures FlagFromRow(t, x)
  {
    var ks := DayOf(t, r).value.tasks;
    CollectSpec(TasksOf(t, r.id), TaskOfIn(t));
    var i :| 0 <= i < |ks| && ks[i] == x;
    var k := TasksOf(t, r.id)[i];
    assert k in TasksOf(t, r.id);
    TaskOfSpec(t, k);
  }
}
