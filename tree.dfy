/** The nested roadmap shape shared by server and client:
    roadmap -> phases -> weeks -> days -> tasks, where every task carries a
    `completed` flag and a notes record with four fixed categories. */
module Tree {
  import opened Wrappers

  /** The four note categories, in the key order of every notes record the
      program builds. */
  datatype Category = ToBeDone | ToBePracticed | ToBeSearched | ToBeUsedAsReference

  const Categories: seq<Category> := [ToBeDone, ToBePracticed, ToBeSearched, ToBeUsedAsReference]

  /** The category's key as it appears in JSON and in the `category` column. */
  function Name(c: Category): string
  {
    match c
    case ToBeDone => "to_be_done"
    case ToBePracticed => "to_be_practiced"
    case ToBeSearched => "to_be_searched"
    case ToBeUsedAsReference => "to_be_used_as_reference"
  }

  /** The category a key names, if it names one of the four. */
  function ParseCategory(s: string): (r: Option<Category>)
    ensures forall c :: r == Some(c) <==> Name(c) == s
  {
    if s == "to_be_done" then Some(ToBeDone)
    else if s == "to_be_practiced" then Some(ToBePracticed)
    else if s == "to_be_searched" then Some(ToBeSearched)
    else if s == "to_be_used_as_reference" then Some(ToBeUsedAsReference)
    else None
  }

  /** A JavaScript value standing where a boolean is expected: a real boolean,
      or some other value of which only its truthiness matters. */
  datatype Flag = Bool(b: bool) | NonBool(truthy: bool)

  /** The value of a field that is not there. */
  const Undefined: Flag := NonBool(false)

  predicate Truthy(f: Flag)
  {
    match f
    case Bool(b) => b
    case NonBool(t) => t
  }

  /** A note as the tree carries it: `{id, content}`; `id` is `null` (None)
      for a note the client has not yet saved. */
  datatype NoteItem = NoteItem(id: Option<int>, content: string)

  /** Whether a note id is truthy in JavaScript (`null` and `0` are not). */
  predicate HasId(n: NoteItem)
  {
    n.id.Some? && n.id.value != 0
  }

  /** The notes record: one list per category, always all four keys. */
  datatype Notes = Notes(toBeDone: seq<NoteItem>, toBePracticed: seq<NoteItem>,
                         toBeSearched: seq<NoteItem>, toBeUsedAsReference: seq<NoteItem>)
  {
    /** `notes[category]`. */
    function Get(c: Category): seq<NoteItem>
    {
      match c
      case ToBeDone => toBeDone
      case ToBePracticed => toBePracticed
      case ToBeSearched => toBeSearched
      case ToBeUsedAsReference => toBeUsedAsReference
    }

    /** The record with one category replaced. */
    function With(c: Category, items: seq<NoteItem>): (r: Notes)
      ensures r.Get(c) == items
      ensures forall d :: d != c ==> r.Get(d) == Get(d)
    {
      match c
      case ToBeDone => this.(toBeDone := items)
      case ToBePracticed => this.(toBePracticed := items)
      case ToBeSearched => this.(toBeSearched := items)
      case ToBeUsedAsReference => this.(toBeUsedAsReference := items)
    }
  }

  /** `{to_be_done: [], to_be_practiced: [], to_be_searched: [], to_be_used_as_reference: []}`. */
  const EmptyNotes: Notes := Notes([], [], [], [])

  datatype Task = Task(id: int, dayId: int, description: string, completed: Flag, notes: Notes)
  datatype Day = Day(id: int, weekId: int, title: string, tasks: seq<Task>)
  datatype Week = Week(id: int, phaseId: int, title: string, days: seq<Day>)
  datatype Phase = Phase(id: int, title: string, weeks: seq<Week>)

  /** A roadmap object: its `phases`, and any other top-level fields by name. */
  datatype Roadmap = Roadmap(phases: seq<Phase>, extra: map<string, string>)

  /** Every task of a list of days, day by day, in order. */
  function DayTasks(ds: seq<Day>): seq<Task>
  {
    if ds == [] then [] else ds[0].tasks + DayTasks(ds[1..])
  }

  function WeekTasks(ws: seq<Week>): seq<Task>
  {
    if ws == [] then [] else DayTasks(ws[0].days) + WeekTasks(ws[1..])
  }

  function PhaseTasks(ps: seq<Phase>): seq<Task>
  {
    if ps == [] then [] else WeekTasks(ps[0].weeks) + PhaseTasks(ps[1..])
  }

  /** Every task of the roadmap, in display order. */
  function AllTasks(r: Roadmap): seq<Task>
  {
    PhaseTasks(r.phases)
  }

  /** A task is shown completed when its flag is truthy. */
  predicate IsDone(t: Task)
  {
    Truthy(t.completed)
  }

  /** Every task's flag is a real boolean (true of every tree the server sends). */
  predicate BooleanFlags(r: Roadmap)
  {
    forall t :: t in AllTasks(r) ==> t.completed.Bool?
  }

  /** A task of a list of days belongs to one of those days. */
  lemma {:induction false} DayTasksMember(ds: seq<Day>, t: Task)
    ensures t in DayTasks(ds) <==> exists d :: d in ds && t in d.tasks
  {
    if ds != [] {
      DayTasksMember(ds[1..], t);
      assert forall d :: d in ds <==> d == ds[0] || d in ds[1..];
    }
  }

  lemma {:induction false} WeekTasksMember(ws: seq<Week>, t: Task)
    ensures t in WeekTasks(ws) <==> exists w :: w in ws && t in DayTasks(w.days)
  {
    if ws != [] {
      WeekTasksMember(ws[1..], t);
      assert forall w :: w in ws <==> w == ws[0] || w in ws[1..];
    }
  }

  lemma {:induction false} PhaseTasksMember(ps: seq<Phase>, t: Task)
    ensures t in PhaseTasks(ps) <==> exists p :: p in ps && t in WeekTasks(p.weeks)
  {
    if ps != [] {
      PhaseTasksMember(ps[1..], t);
      assert forall p :: p in ps <==> p == ps[0] || p in ps[1..];
    }
  }
}
