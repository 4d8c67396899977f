/** The tables the Next.js roadmap API writes (`roadmaps`, `phases`,
    `weeks`, `days`, `tasks`), the roadmap a client sends, and the inserts
    the creation walk issues for it: the roadmap row first, then phase by
    phase each row followed by the rows of its children, every child
    pointing to the id its parent's insert returned. The k-th insert of a
    plan that starts at id `n` receives id `n + k`. */
module RoadmapsPlan {
  import opened Wrappers
  import opened Seqs
  import opened Tree

  /** A task's `notes` field as sent: missing, or a JSON value with its
      truthiness and the text `JSON.stringify` makes of it. */
  datatype NotesField = Missing | Json(truthy: bool, text: string)

  /** The roadmap a client sends. A title is `None` where the field is
      missing or `null`. */
  datatype InTask = InTask(description: Option<string>, completed: Flag, notes: NotesField)
  datatype InDay = InDay(title: Option<string>, tasks: seq<InTask>)
  datatype InWeek = InWeek(title: Option<string>, days: seq<InDay>)
  datatype InPhase = InPhase(title: Option<string>, weeks: seq<InWeek>)

  datatype RoadmapRow = RoadmapRow(id: int, title: string, creatorId: int)
  datatype PhaseRow = PhaseRow(id: int, roadmapId: int, title: Option<string>)
  datatype WeekRow = WeekRow(id: int, phaseId: int, title: Option<string>)
  datatype DayRow = DayRow(id: int, weekId: int, title: Option<string>)
  datatype TaskRow = TaskRow(id: int, dayId: int, description: Option<string>, completed: Flag, notes: Option<string>)

  /** Each table is the sequence of its rows in storage order. */
  datatype Tables = Tables(roadmaps: seq<RoadmapRow>, phases: seq<PhaseRow>, weeks: seq<WeekRow>,
                           days: seq<DayRow>, tasks: seq<TaskRow>)

  const NoTables: Tables := Tables([], [], [], [], [])

  /** One `INSERT`; the database supplies the id. */
  datatype Insert =
    | RoadmapInsert(roadmapTitle: string, creatorId: int)
    | PhaseInsert(roadmapId: int, title: Option<string>)
    | WeekInsert(phaseId: int, title: Option<string>)
    | DayInsert(weekId: int, title: Option<string>)
    | TaskInsert(dayId: int, description: Option<string>, completed: Flag, notes: Option<string>)

  /** The tables after one insert that received id `id`. */
  function Apply(t: Tables, ins: Insert, id: int): Tables
  {
    match ins
    case RoadmapInsert(title, creatorId) => t.(roadmaps := t.roadmaps + [RoadmapRow(id, title, creatorId)])
    case PhaseInsert(roadmapId, title) => t.(phases := t.phases + [PhaseRow(id, roadmapId, title)])
    case WeekInsert(phaseId, title) => t.(weeks := t.weeks + [WeekRow(id, phaseId, title)])
    case DayInsert(weekId, title) => t.(days := t.days + [DayRow(id, weekId, title)])
    case TaskInsert(dayId, description, completed, notes) =>
      t.(tasks := t.tasks + [TaskRow(id, dayId, description, completed, notes)])
  }

  /** The `notes` column of a task row: the JSON text of a truthy `notes`
      value, `NULL` otherwise. */
  function NotesColumn(f: NotesField): (r: Option<string>)
    ensures r.Some? <==> f.Json? && f.truthy
    ensures r.Some? ==> r.value == f.text
  {
    if f.Json? && f.truthy then Some(f.text) else None
  }

  /** The row a task of the sent roadmap becomes under day `dayId`. */
  function TaskRowInsert(dayId: int, k: InTask): Insert
  {
    TaskInsert(dayId, k.description, k.completed, NotesColumn(k.notes))
  }

  /** A list of siblings of one level, with the id of their parent row. */
  datatype Level =
    | Phases(ps: seq<InPhase>, roadmapId: int)
    | Weeks(ws: seq<InWeek>, phaseId: int)
    | Days(ds: seq<InDay>, weekId: int)
    | Tasks(ks: seq<InTask>, dayId: int)

  function Depth(l: Level): nat
  {
    match l
    case Phases(_, _) => 3
    case Weeks(_, _) => 2
    case Days(_, _) => 1
    case Tasks(_, _) => 0
  }

  function Length(l: Level): nat
  {
    match l
    case Phases(ps, _) => |ps|
    case Weeks(ws, _) => |ws|
    case Days(ds, _) => |ds|
    case Tasks(ks, _) => |ks|
  }

  /** The id of the row the level's rows point to. */
  function ParentOf(l: Level): int
  {
    match l
    case Phases(_, roadmapId) => roadmapId
    case Weeks(_, phaseId) => phaseId
    case Days(_, weekId) => weekId
    case Tasks(_, dayId) => dayId
  }

  /** The inserts the walk issues for a list of siblings, the first
      receiving id `n`: for each sibling in order, its own row, then its
      children's inserts under the id that row received. */
  function Plan(l: Level, n: int): seq<Insert>
    decreases Depth(l), Length(l)
  {
    match l
    case Phases(ps, roadmapId) =>
      if ps == [] then []
      else
        var prev := Plan(Phases(ps[..|ps| - 1], roadmapId), n);
        var id := n + |prev|;
        prev + [PhaseInsert(roadmapId, ps[|ps| - 1].title)] + Plan(Weeks(ps[|ps| - 1].weeks, id), id + 1)
    case Weeks(ws, phaseId) =>
      if ws == [] then []
      else
        var prev := Plan(Weeks(ws[..|ws| - 1], phaseId), n);
        var id := n + |prev|;
        prev + [WeekInsert(phaseId, ws[|ws| - 1].title)] + Plan(Days(ws[|ws| - 1].days, id), id + 1)
    case Days(ds, weekId) =>
      if ds == [] then []
      else
        var prev := Plan(Days(ds[..|ds| - 1], weekId), n);
        var id := n + |prev|;
        prev + [DayInsert(weekId, ds[|ds| - 1].title)] + Plan(Tasks(ds[|ds| - 1].tasks, id), id + 1)
    case Tasks(ks, dayId) =>
      if ks == [] then []
      else Plan(Tasks(ks[..|ks| - 1], dayId), n) + [TaskRowInsert(dayId, ks[|ks| - 1])]
  }

  function PlanPhases(ps: seq<InPhase>, roadmapId: int, n: int): seq<Insert> { Plan(Phases(ps, roadmapId), n) }
  function PlanWeeks(ws: seq<InWeek>, phaseId: int, n: int): seq<Insert> { Plan(Weeks(ws, phaseId), n) }
  function PlanDays(ds: seq<InDay>, weekId: int, n: int): seq<Insert> { Plan(Days(ds, weekId), n) }
  function PlanTasks(ks: seq<InTask>, dayId: int, n: int): seq<Insert> { Plan(Tasks(ks, dayId), n) }

  /** Everything one creation request inserts when the roadmap row gets id `n`. */
  function CreatePlan(title: string, creatorId: int, ps: seq<InPhase>, n: int): seq<Insert>
  {
    [RoadmapInsert(title, creatorId)] + PlanPhases(ps, n, n + 1)
  }

  /** No siblings, no inserts. */
  lemma PlanNil(l: Level, n: int)
    requires Length(l) == 0
    ensures Plan(l, n) == []
  {
  }

  /** The first `i` siblings. */
  function Take(l: Level, i: nat): (r: Level)
    requires i <= Length(l)
    ensures Depth(r) == Depth(l) && Length(r) == i && ParentOf(r) == ParentOf(l)
  {
    match l
    case Phases(ps, roadmapId) => Phases(ps[..i], roadmapId)
    case Weeks(ws, phaseId) => Weeks(ws[..i], phaseId)
    case Days(ds, weekId) => Days(ds[..i], weekId)
    case Tasks(ks, dayId) => Tasks(ks[..i], dayId)
  }

  /** Dropping the last sibling drops inserts from the end of the plan only. */
  lemma PlanInit(l: Level, n: int)
    requires 0 < Length(l)
    ensures Plan(Take(l, Length(l) - 1), n) <= Plan(l, n)
  {
  }

  /** The plan of the first siblings is a prefix of the plan of all of them. */
  lemma {:induction false} PlanPrefix(l: Level, n: int, i: nat)
    requires i <= Length(l)
    ensures Plan(Take(l, i), n) <= Plan(l, n)
    decreases Length(l)
  {
    hide Plan;
    if i < Length(l) {
      var init := Take(l, Length(l) - 1);
      assert Take(init, i) == Take(l, i);
      PlanPrefix(init, n, i);
      PlanInit(l, n);
    } else {
      assert Take(l, i) == l;
    }
  }

  /** One more phase extends the plan by its row and its weeks' inserts, and
      the longer plan is still a prefix of the whole. */
  lemma PhasesStep(ps: seq<InPhase>, roadmapId: int, n: int, i: nat, id: int)
    requires i < |ps| && id == n + |PlanPhases(ps[..i], roadmapId, n)|
    ensures PlanPhases(ps[..i + 1], roadmapId, n)
         == PlanPhases(ps[..i], roadmapId, n) + ([PhaseInsert(roadmapId, ps[i].title)] + PlanWeeks(ps[i].weeks, id, id + 1))
    ensures PlanPhases(ps[..i + 1], roadmapId, n) <= PlanPhases(ps, roadmapId, n)
  {
    assert ps[..i + 1][..i] == ps[..i];
    PlanPrefix(Phases(ps, roadmapId), n, i + 1);
  }

  lemma WeeksStep(ws: seq<InWeek>, phaseId: int, n: int, i: nat, id: int)
    requires i < |ws| && id == n + |PlanWeeks(ws[..i], phaseId, n)|
    ensures PlanWeeks(ws[..i + 1], phaseId, n)
         == PlanWeeks(ws[..i], phaseId, n) + ([WeekInsert(phaseId, ws[i].title)] + PlanDays(ws[i].days, id, id + 1))
    ensures PlanWeeks(ws[..i + 1], phaseId, n) <= PlanWeeks(ws, phaseId, n)
  {
    assert ws[..i + 1][..i] == ws[..i];
    PlanPrefix(Weeks(ws, phaseId), n, i + 1);
  }

  lemma DaysStep(ds: seq<InDay>, weekId: int, n: int, i: nat, id: int)
    requires i < |ds| && id == n + |PlanDays(ds[..i], weekId, n)|
    ensures PlanDays(ds[..i + 1], weekId, n)
         == PlanDays(ds[..i], weekId, n) + ([DayInsert(weekId, ds[i].title)] + PlanTasks(ds[i].tasks, id, id + 1))
    ensures PlanDays(ds[..i + 1], weekId, n) <= PlanDays(ds, weekId, n)
  {
    assert ds[..i + 1][..i] == ds[..i];
    PlanPrefix(Days(ds, weekId), n, i + 1);
  }

  lemma TasksStep(ks: seq<InTask>, dayId: int, n: int, i: nat)
    requires i < |ks|
    ensures PlanTasks(ks[..i + 1], dayId, n) == PlanTasks(ks[..i], dayId, n) + [TaskRowInsert(dayId, ks[i])]
    ensures PlanTasks(ks[..i + 1], dayId, n) <= PlanTasks(ks, dayId, n)
  {
    assert ks[..i + 1][..i] == ks[..i];
    PlanPrefix(Tasks(ks, dayId), n, i + 1);
  }

  /** How far above the tasks an insert's row sits. */
  function Rank(x: Insert): nat
  {
    match x
    case RoadmapInsert(_, _) => 4
    case PhaseInsert(_, _) => 3
    case WeekInsert(_, _) => 2
    case DayInsert(_, _) => 1
    case TaskInsert(_, _, _, _) => 0
  }

  /** The id a row's foreign key holds. */
  function ParentId(x: Insert): int
    requires !x.RoadmapInsert?
  {
    match x
    case PhaseInsert(roadmapId, _) => roadmapId
    case WeekInsert(phaseId, _) => phaseId
    case DayInsert(weekId, _) => weekId
    case TaskInsert(dayId, _, _, _) => dayId
  }

  /** Insert `k` is the one whose row insert `j` belongs under: it sits at
      the rank just above `j`'s, every insert between them sits at `j`'s
      rank or below (so `k` is the nearest earlier insert of that rank, the
      row whose children are being walked), and `j` points to the id `k`
      received in a plan starting at id `n`. */
  predicate ParentAt(plan: seq<Insert>, n: int, k: int, j: int)
    requires 0 <= k < j < |plan| && !plan[j].RoadmapInsert?
  {
    && Rank(plan[k]) == Rank(plan[j]) + 1
    && (forall m :: k < m < j ==> Rank(plan[m]) <= Rank(plan[j]))
    && ParentId(plan[j]) == n + k
  }

  /** The `j`-th insert of a plan starting at id `n`, whose top rows sit at
      rank `top` under row `parent`: a top row points to `parent`, a deeper
      row to the nearest earlier insert of the rank just above its own. */
  predicate LinkedAt(plan: seq<Insert>, n: int, top: int, parent: int, j: int)
    requires 0 <= j < |plan|
  {
    && !plan[j].RoadmapInsert?
    && Rank(plan[j]) <= top
    && (Rank(plan[j]) == top ==> ParentId(plan[j]) == parent)
    && (Rank(plan[j]) < top ==> exists k :: 0 <= k < j && ParentAt(plan, n, k, j))
  }

  predicate Linked(plan: seq<Insert>, n: int, top: int, parent: int)
  {
    forall j :: 0 <= j < |plan| ==> LinkedAt(plan, n, top, parent, j)
  }

  /** A sibling's row followed by its children's inserts, appended to the
      inserts of the siblings before it, keeps every pointer right: the
      children point to the id the row receives. */
  lemma LinkedSplice(prev: seq<Insert>, row: Insert, child: seq<Insert>, n: int, top: int, parent: int)
    requires Linked(prev, n, top, parent)
    requires !row.RoadmapInsert? && Rank(row) == top && ParentId(row) == parent
    requires Linked(child, n + |prev| + 1, top - 1, n + |prev|)
    ensures Linked(prev + ([row] + child), n, top, parent)
  {
    var plan := prev + ([row] + child);
    forall j | 0 <= j < |plan|
      ensures LinkedAt(plan, n, top, parent, j)
    {
      if j < |prev| {
        SplicePrevAt(prev, [row] + child, n, top, parent, j);
      } else if j == |prev| {
        assert plan[j] == row;
      } else {
        SpliceChildAt(prev, row, child, n, top, parent, j);
      }
    }
  }

  /** An insert of the earlier siblings keeps its link whatever follows. */
  lemma SplicePrevAt(prev: seq<Insert>, rest: seq<Insert>, n: int, top: int, parent: int, j: int)
    requires Linked(prev, n, top, parent) && 0 <= j < |prev|
    ensures LinkedAt(prev + rest, n, top, parent, j)
  {
    var plan := prev + rest;
    assert plan[j] == prev[j];
    assert LinkedAt(prev, n, top, parent, j);
    if Rank(plan[j]) < top {
      var k :| 0 <= k < j && ParentAt(prev, n, k, j);
      assert prev == plan[..|prev|];
      assert ParentAt(plan, n, k, j);
    }
  }

  /** An insert of the last sibling's children, placed after that sibling's
      row: a top child points to the row, a deeper one keeps its link. */
  lemma SpliceChildAt(prev: seq<Insert>, row: Insert, child: seq<Insert>, n: int, top: int, parent: int, j: int)
    requires !row.RoadmapInsert? && Rank(row) == top
    requires Linked(child, n + |prev| + 1, top - 1, n + |prev|)
    requires |prev| < j < |prev| + 1 + |child|
    ensures LinkedAt(prev + ([row] + child), n, top, parent, j)
  {
    var plan := prev + ([row] + child);
    var m := |prev| + 1;
    assert plan[j] == child[j - m];
    assert LinkedAt(child, n + m, top - 1, n + |prev|, j - m);
    if Rank(plan[j]) == top - 1 {
      assert plan[|prev|] == row;
      forall i | |prev| < i < j
        ensures Rank(plan[i]) <= Rank(plan[j])
      {
        assert plan[i] == child[i - m];
        assert LinkedAt(child, n + m, top - 1, n + |prev|, i - m);
      }
      assert ParentAt(plan, n, |prev|, j);
    } else {
      var k :| 0 <= k < j - m && ParentAt(child, n + m, k, j - m);
      assert child == plan[m..];
      assert ParentAt(plan, n, k + m, j);
    }
  }

  /** The walk over a list of siblings links every row it inserts: the
      siblings' rows to their parent, each deeper row to the row its parent's
      insert created earlier in the same walk. */
  lemma {:induction false} PlanLinked(l: Level, n: int)
    ensures Linked(Plan(l, n), n, Depth(l), ParentOf(l))
    decreases Depth(l), Length(l)
  {
    hide Plan;
    if Length(l) > 0 {
      var init := Take(l, Length(l) - 1);
      PlanLinked(init, n);
      var prev := Plan(init, n);
      var id := n + |prev|;
      match l
      case Phases(ps, roadmapId) =>
        var p := ps[|ps| - 1];
        PhasesStep(ps, roadmapId, n, |ps| - 1, id);
        assert ps[..|ps|] == ps;
        PlanLinked(Weeks(p.weeks, id), id + 1);
        LinkedSplice(prev, PhaseInsert(roadmapId, p.title), PlanWeeks(p.weeks, id, id + 1), n, 3, roadmapId);
      case Weeks(ws, phaseId) =>
        var w := ws[|ws| - 1];
        WeeksStep(ws, phaseId, n, |ws| - 1, id);
        assert ws[..|ws|] == ws;
        PlanLinked(Days(w.days, id), id + 1);
        LinkedSplice(prev, WeekInsert(phaseId, w.title), PlanDays(w.days, id, id + 1), n, 2, phaseId);
      case Days(ds, weekId) =>
        var d := ds[|ds| - 1];
        DaysStep(ds, weekId, n, |ds| - 1, id);
        assert ds[..|ds|] == ds;
        PlanLinked(Tasks(d.tasks, id), id + 1);
        LinkedSplice(prev, DayInsert(weekId, d.title), PlanTasks(d.tasks, id, id + 1), n, 1, weekId);
      case Tasks(ks, dayId) =>
        TasksStep(ks, dayId, n, |ks| - 1);
        assert ks[..|ks|] == ks;
        assert Plan(l, n) == prev + ([TaskRowInsert(dayId, ks[|ks| - 1])] + []);
        LinkedSplice(prev, TaskRowInsert(dayId, ks[|ks| - 1]), [], n, 0, dayId);
    } else {
      PlanNil(l, n);
    }
  }

  /** Every row a creation request inserts, other than the roadmap row at its
      head, points to the id the nearest earlier insert of the level just
      above received: phases to the roadmap, weeks to the phase walked last,
      days to the week walked last, tasks to the day walked last. */
  predicate PointsBack(plan: seq<Insert>, n: int)
  {
    forall j :: 0 < j < |plan| ==>
      && !plan[j].RoadmapInsert?
      && exists k :: 0 <= k < j && ParentAt(plan, n, k, j)
  }

  lemma CreateLinked(title: string, creatorId: int, ps: seq<InPhase>, n: int)
    ensures var plan := CreatePlan(title, creatorId, ps, n);
            plan[0] == RoadmapInsert(title, creatorId) && PointsBack(plan, n)
  {
    var plan := CreatePlan(title, creatorId, ps, n);
    var rest := PlanPhases(ps, n, n + 1);
    PlanLinked(Phases(ps, n), n + 1);
    forall j | 0 < j < |plan|
      ensures !plan[j].RoadmapInsert?
      ensures exists k :: 0 <= k < j && ParentAt(plan, n, k, j)
    {
      assert plan[j] == rest[j - 1];
      assert LinkedAt(rest, n + 1, 3, n, j - 1);
      if Rank(plan[j]) == 3 {
        forall i | 0 < i < j
          ensures Rank(plan[i]) <= Rank(plan[j])
        {
          assert plan[i] == rest[i - 1];
          assert LinkedAt(rest, n + 1, 3, n, i - 1);
        }
        assert ParentAt(plan, n, 0, j);
      } else {
        var k :| 0 <= k < j - 1 && ParentAt(rest, n + 1, k, j - 1);
        assert rest == plan[1..];
        assert ParentAt(plan, n, k + 1, j);
      }
    }
  }

  function IsPhaseInsert(): Insert -> bool { (x: Insert) => x.PhaseInsert? }

  /** One phase row per phase sent, in order, each pointing to the roadmap. */
  lemma {:induction false} PlanPhaseRows(ps: seq<InPhase>, roadmapId: int, n: int)
    ensures var f := Filter(PlanPhases(ps, roadmapId, n), IsPhaseInsert());
            |f| == |ps| && forall i :: 0 <= i < |ps| ==> f[i] == PhaseInsert(roadmapId, ps[i].title)
  {
    if ps != [] {
      PlanPhaseRows(ps[..|ps| - 1], roadmapId, n);
      PlanPhaseRowsStep(ps, roadmapId, n);
    }
  }

  lemma PlanPhaseRowsStep(ps: seq<InPhase>, roadmapId: int, n: int)
    requires ps != []
    ensures Filter(PlanPhases(ps, roadmapId, n), IsPhaseInsert())
         == Filter(PlanPhases(ps[..|ps| - 1], roadmapId, n), IsPhaseInsert()) + [PhaseInsert(roadmapId, ps[|ps| - 1].title)]
  {
    hide Plan;
    var p := ps[|ps| - 1];
    var prev := PlanPhases(ps[..|ps| - 1], roadmapId, n);
    var id := n + |prev|;
    var below := PlanWeeks(p.weeks, id, id + 1);
    PhasesStep(ps, roadmapId, n, |ps| - 1, id);
    assert ps[..|ps|] == ps;
    FilterAppend(prev, [PhaseInsert(roadmapId, p.title)] + below, IsPhaseInsert());
    FilterAppend([PhaseInsert(roadmapId, p.title)], below, IsPhaseInsert());
    PlanLinked(Weeks(p.weeks, id), id + 1);
    forall x | x in below
      ensures !IsPhaseInsert()(x)
    {
      var j :| 0 <= j < |below| && below[j] == x;
      assert LinkedAt(below, id + 1, 2, id, j);
    }
    FilterNone(below, IsPhaseInsert());
  }

  /*** How many rows of each level a creation inserts ***/

  /** The children of the `i`-th sibling as a level of their own (tasks
      have none); the parent id does not matter for counting. */
  function Children(l: Level, i: nat): (c: Level)
    requires i < Length(l)
    ensures Depth(l) > 0 ==> Depth(c) == Depth(l) - 1
  {
    match l
    case Phases(ps, _) => Weeks(ps[i].weeks, 0)
    case Weeks(ws, _) => Days(ws[i].days, 0)
    case Days(ds, _) => Tasks(ds[i].tasks, 0)
    case Tasks(_, _) => Tasks([], 0)
  }

  /** How many objects of rank `r` the sent siblings of `l` hold: the
      siblings themselves at their own rank, none above it, and below it
      the sum of what each sibling's children hold. */
  function Count(l: Level, r: nat): nat
    decreases Depth(l), 1
  {
    if r == Depth(l) then Length(l)
    else if r > Depth(l) then 0
    else CountBelow(l, Length(l), r)
  }

  /** The objects of rank `r` under the first `i` siblings. */
  function CountBelow(l: Level, i: nat, r: nat): nat
    requires i <= Length(l) && r < Depth(l)
    decreases Depth(l), 0, i
  {
    if i == 0 then 0 else CountBelow(l, i - 1, r) + Count(Children(l, i - 1), r)
  }

  /** Counting does not look at the parent id, nor at the siblings after
      the first `i`. */
  lemma {:induction false} CountBelowSame(l: Level, l': Level, i: nat, r: nat)
    requires Depth(l) == Depth(l') && i <= Length(l) && i <= Length(l') && r < Depth(l)
    requires forall j :: 0 <= j < i ==> Children(l, j) == Children(l', j)
    ensures CountBelow(l, i, r) == CountBelow(l', i, r)
  {
    if i > 0 {
      CountBelowSame(l, l', i - 1, r);
    }
  }

  function RankIs(r: nat): Insert -> bool { (x: Insert) => Rank(x) == r }

  /** Two levels with the same depth and the same children hold the same
      counts, whatever their parent ids. */
  lemma CountSameChildren(a: Level, b: Level)
    requires Depth(a) == Depth(b) && Length(a) == Length(b)
    requires forall j :: 0 <= j < Length(a) ==> Children(a, j) == Children(b, j)
    ensures forall r: nat :: Count(a, r) == Count(b, r)
  {
    forall r: nat
      ensures Count(a, r) == Count(b, r)
    {
      if r < Depth(a) {
        CountBelowSame(a, b, Length(a), r);
      }
    }
  }

  /** One more sibling adds one to the count at the level's own rank and,
      below it, what that sibling's children hold. */
  lemma CountStep(l: Level, r: nat)
    requires 0 < Length(l)
    ensures Count(l, r) == Count(Take(l, Length(l) - 1), r) + (if r == Depth(l) then 1 else 0)
                           + Count(Children(l, Length(l) - 1), r)
  {
    var last := Length(l) - 1;
    if r < Depth(l) {
      CountBelowSame(l, Take(l, last), last, r);
    }
  }

  /** The children of the last sibling, as the walk visits them: under the
      id `id` the last sibling's row received. */
  function LastChildren(l: Level, id: int): (c: Level)
    requires 0 < Length(l)
    ensures Depth(c) < Depth(l) || (Depth(c) == Depth(l) && Length(c) == 0)
  {
    match l
    case Phases(ps, _) => Weeks(ps[|ps| - 1].weeks, id)
    case Weeks(ws, _) => Days(ws[|ws| - 1].days, id)
    case Days(ds, _) => Tasks(ds[|ds| - 1].tasks, id)
    case Tasks(_, _) => Tasks([], id)
  }

  /** The last sibling's row. */
  function LastRow(l: Level): (x: Insert)
    requires 0 < Length(l)
    ensures Rank(x) == Depth(l)
  {
    match l
    case Phases(ps, roadmapId) => PhaseInsert(roadmapId, ps[|ps| - 1].title)
    case Weeks(ws, phaseId) => WeekInsert(phaseId, ws[|ws| - 1].title)
    case Days(ds, weekId) => DayInsert(weekId, ds[|ds| - 1].title)
    case Tasks(ks, dayId) => TaskRowInsert(dayId, ks[|ks| - 1])
  }

  /** The walk's last children hold what `Children` counts. */
  lemma LastChildrenCount(l: Level, id: int)
    requires 0 < Length(l)
    ensures forall r: nat :: Count(LastChildren(l, id), r) == Count(Children(l, Length(l) - 1), r)
  {
    CountSameChildren(LastChildren(l, id), Children(l, Length(l) - 1));
  }

  /** The plan of a non-empty list of siblings: the plan of all but the
      last, then the last one's row, then the plan of its children under
      the id that row received. */
  lemma PlanSplit(l: Level, n: int)
    requires 0 < Length(l)
    ensures var prev := Plan(Take(l, Length(l) - 1), n);
            Plan(l, n) == prev + ([LastRow(l)] + Plan(LastChildren(l, n + |prev|), n + |prev| + 1))
  {
    hide Plan;
    var last := Length(l) - 1;
    var id := n + |Plan(Take(l, last), n)|;
    match l {
      case Phases(ps, roadmapId) =>
        PhasesStep(ps, roadmapId, n, last, id);
        assert ps[..|ps|] == ps;
      case Weeks(ws, phaseId) =>
        WeeksStep(ws, phaseId, n, last, id);
        assert ws[..|ws|] == ws;
      case Days(ds, weekId) =>
        DaysStep(ds, weekId, n, last, id);
        assert ds[..|ds|] == ds;
      case Tasks(ks, dayId) =>
        TasksStep(ks, dayId, n, last);
        assert ks[..|ks|] == ks;
        PlanNil(Tasks([], id), id + 1);
    }
  }

  /** The rows of rank `r` of a non-empty walk: those of the earlier
      siblings' inserts, the last sibling's row if it has that rank, and
      those of its children's inserts. */
  lemma PlanRankSplit(l: Level, n: int, r: nat, prev: seq<Insert>, rest: seq<Insert>)
    requires 0 < Length(l)
    requires prev == Plan(Take(l, Length(l) - 1), n)
    requires rest == Plan(LastChildren(l, n + |prev|), n + |prev| + 1)
    ensures |Filter(Plan(l, n), RankIs(r))|
            == |Filter(prev, RankIs(r))| + (if r == Depth(l) then 1 else 0) + |Filter(rest, RankIs(r))|
  {
    hide Plan, Filter;
    var row := LastRow(l);
    FilterOne(row, RankIs(r));
    PlanSplit(l, n);
    FilterAppend(prev, [row] + rest, RankIs(r));
    FilterAppend([row], rest, RankIs(r));
  }

  lemma FilterOne<T>(x: T, p: T -> bool)
    ensures Filter([x], p) == if p(x) then [x] else []
  {
    assert [x][1..] == [];
  }

  lemma PlanCountNil(l: Level, n: int, r: nat)
    requires Length(l) == 0
    ensures |Filter(Plan(l, n), RankIs(r))| == Count(l, r)
  {
    PlanNil(l, n);
    if r < Depth(l) {
      assert CountBelow(l, 0, r) == 0;
    }
  }

  /** The walk over `l` inserts exactly `Count(l, r)` rows of each rank `r`. */
  lemma {:induction false} PlanCount(l: Level, n: int, r: nat)
    ensures |Filter(Plan(l, n), RankIs(r))| == Count(l, r)
    decreases Depth(l), Length(l)
  {
    hide *;
    if Length(l) == 0 {
      PlanCountNil(l, n, r);
    } else {
      var init := Take(l, Length(l) - 1);
      var prev := Plan(init, n);
      var below := LastChildren(l, n + |prev|);
      PlanRankSplit(l, n, r, prev, Plan(below, n + |prev| + 1));
      LastChildrenCount(l, n + |prev|);
      PlanCount(init, n, r);
      PlanCount(below, n + |prev| + 1, r);
      CountStep(l, r);
    }
  }

  /** A creation inserts one roadmap row, and of each other level exactly
      as many rows as the sent roadmap holds objects of that level: one per
      phase, one per week of every phase, one per day of every week, one
      per task of every day. */
  lemma CreateCounts(title: string, creatorId: int, ps: seq<InPhase>, n: int, r: nat)
    ensures |Filter(CreatePlan(title, creatorId, ps, n), RankIs(4))| == 1
    ensures r < 4 ==> |Filter(CreatePlan(title, creatorId, ps, n), RankIs(r))| == Count(Phases(ps, n), r)
  {
    FilterAppend([RoadmapInsert(title, creatorId)], PlanPhases(ps, n, n + 1), RankIs(4));
    PlanCount(Phases(ps, n), n + 1, 4);
    FilterAppend([RoadmapInsert(title, creatorId)], PlanPhases(ps, n, n + 1), RankIs(r));
    PlanCount(Phases(ps, n), n + 1, r);
  }
}
