/** The inserts `POST /api/populate` issues for the bundled roadmap file:
    phase by phase, each row followed by the rows of its children, every
    child pointing to the id its parent's insert returned. A plan lists the
    inserts in the order they are issued; the k-th insert of a plan that
    starts at id `n` receives id `n + k`. */
module ServerPopulate {
  import opened Wrappers
  import opened Seqs
  import opened ServerTables

  /** The bundled roadmap file. A task's `completed` is `None` where the
      field is missing or `null`, which stores `NULL`. A task's `notes`
      object is the list of its entries (key, items) in key order; a key
      need not be a category. */
  datatype SeedTask = SeedTask(description: string, completed: Option<bool>, notes: seq<(string, seq<string>)>)
  datatype SeedDay = SeedDay(title: string, tasks: seq<SeedTask>)
  datatype SeedWeek = SeedWeek(title: string, days: seq<SeedDay>)
  datatype SeedPhase = SeedPhase(title: string, weeks: seq<SeedWeek>)

  /** A list of siblings of one level of the file, with what the walk needs
      to know about their parent. */
  datatype Level =
    | Phases(ps: seq<SeedPhase>)
    | Weeks(ws: seq<SeedWeek>, phaseId: int)
    | Days(ds: seq<SeedDay>, weekId: int)
    | Tasks(ks: seq<SeedTask>, dayId: int)
    | Entries(es: seq<(string, seq<string>)>, taskId: int)
    | Items(items: seq<string>, taskId: int, category: string)

  function Depth(l: Level): nat
  {
    match l
    case Phases(_) => 5
    case Weeks(_, _) => 4
    case Days(_, _) => 3
    case Tasks(_, _) => 2
    case Entries(_, _) => 1
    case Items(_, _, _) => 0
  }

  function Length(l: Level): nat
  {
    match l
    case Phases(ps) => |ps|
    case Weeks(ws, _) => |ws|
    case Days(ds, _) => |ds|
    case Tasks(ks, _) => |ks|
    case Entries(es, _) => |es|
    case Items(items, _, _) => |items|
  }

  /** The inserts the walk issues for a list of siblings, the first receiving
      id `n`: for each sibling in order, its own row (the row's id is the
      parent id of its children), then its children's inserts. */
  function Plan(l: Level, n: int): seq<Insert>
    decreases Depth(l), Length(l)
  {
    match l
    case Phases(ps) =>
      if ps == [] then []
      else
        var prev := Plan(Phases(ps[..|ps| - 1]), n);
        var id := n + |prev|;
        prev + [PhaseInsert(ps[|ps| - 1].title)] + Plan(Weeks(ps[|ps| - 1].weeks, id), id + 1)
    case Weeks(ws, phaseId) =>
      if ws == [] then []
      else
        var prev := Plan(Weeks(ws[..|ws| - 1], phaseId), n);
        var id := n + |prev|;
        prev + [WeekInsert(phaseId, ws[|ws| - 1].title)] + Plan(Days(ws[|ws| - 1].days, id), id + 1)
    case Days(ds, weekId) =>
      if ds == [] then []
      else
        var prev := Plan(Days(ds[..|ds| - 1], weekId), n);
        var id := n + |prev|;
        prev + [DayInsert(weekId, ds[|ds| - 1].title)] + Plan(Tasks(ds[|ds| - 1].tasks, id), id + 1)
    case Tasks(ks, dayId) =>
      if ks == [] then []
      else
        var prev := Plan(Tasks(ks[..|ks| - 1], dayId), n);
        var id := n + |prev|;
        var k := ks[|ks| - 1];
        prev + [TaskInsert(dayId, k.description, k.completed)] + Plan(Entries(k.notes, id), id + 1)
    case Entries(es, taskId) =>
      if es == [] then []
      else
        var prev := Plan(Entries(es[..|es| - 1], taskId), n);
        prev + Plan(Items(es[|es| - 1].1, taskId, es[|es| - 1].0), n + |prev|)
    case Items(items, taskId, category) =>
      if items == [] then []
      else Plan(Items(items[..|items| - 1], taskId, category), n) + [NoteInsert(taskId, category, items[|items| - 1])]
  }

  /** No siblings, no inserts. */
  lemma PlanNil(l: Level, n: int)
    requires Length(l) == 0
    ensures Plan(l, n) == []
  {
  }

  function PlanPhases(ps: seq<SeedPhase>, n: int): seq<Insert> { Plan(Phases(ps), n) }
  function PlanWeeks(ws: seq<SeedWeek>, phaseId: int, n: int): seq<Insert> { Plan(Weeks(ws, phaseId), n) }
  function PlanDays(ds: seq<SeedDay>, weekId: int, n: int): seq<Insert> { Plan(Days(ds, weekId), n) }
  function PlanTasks(ks: seq<SeedTask>, dayId: int, n: int): seq<Insert> { Plan(Tasks(ks, dayId), n) }
  function PlanEntries(es: seq<(string, seq<string>)>, taskId: int, n: int): seq<Insert> { Plan(Entries(es, taskId), n) }
  function PlanItems(items: seq<string>, taskId: int, category: string, n: int): seq<Insert>
  {
    Plan(Items(items, taskId, category), n)
  }

  /** The first `i` siblings. */
  function Take(l: Level, i: nat): (r: Level)
    requires i <= Length(l)
    ensures Depth(r) == Depth(l) && Length(r) == i
  {
    match l
    case Phases(ps) => Phases(ps[..i])
    case Weeks(ws, phaseId) => Weeks(ws[..i], phaseId)
    case Days(ds, weekId) => Days(ds[..i], weekId)
    case Tasks(ks, dayId) => Tasks(ks[..i], dayId)
    case Entries(es, taskId) => Entries(es[..i], taskId)
    case Items(items, taskId, category) => Items(items[..i], taskId, category)
  }

  /** Dropping the last sibling drops inserts from the end of the plan only. */
  lemma PlanInit(l: Level, n: int)
    requires 0 < Length(l)
    ensures Plan(Take(l, Length(l) - 1), n) <= Plan(l, n)
  {
  }

  /** The plan of the first siblings is a prefix of the plan of all of them:
      once a write throws, the inserts after it are the rest of the plan. */
  lemma {:induction false} PlanPrefix(l: Level, n: int, i: nat)
    requires i <= Length(l)
    ensures Plan(Take(l, i), n) <= Plan(l, n)
    decreases Length(l)
  {
    hide Plan;
    if i < Length(l) {
      var init := Take(l, Length(l) - 1);
      assert Take(init, i) == Take(l, i);
      PlanPrefix(init, n, i);
      PlanInit(l, n);
    } else {
      assert Take(l, i) == l;
    }
  }

  /** One more phase extends the plan by its row and its weeks' inserts, and
      the longer plan is still a prefix of the whole. */
  lemma PhasesStep(ps: seq<SeedPhase>, n: int, i: nat, id: int)
    requires i < |ps| && id == n + |PlanPhases(ps[..i], n)|
    ensures PlanPhases(ps[..i + 1], n) == PlanPhases(ps[..i], n) + ([PhaseInsert(ps[i].title)] + PlanWeeks(ps[i].weeks, id, id + 1))
    ensures PlanPhases(ps[..i + 1], n) <= PlanPhases(ps, n)
  {
    assert ps[..i + 1][..i] == ps[..i];
    PlanPrefix(Phases(ps), n, i + 1);
  }

  lemma WeeksStep(ws: seq<SeedWeek>, phaseId: int, n: int, i: nat, id: int)
    requires i < |ws| && id == n + |PlanWeeks(ws[..i], phaseId, n)|
    ensures PlanWeeks(ws[..i + 1], phaseId, n) == PlanWeeks(ws[..i], phaseId, n) + ([WeekInsert(phaseId, ws[i].title)] + PlanDays(ws[i].days, id, id + 1))
    ensures PlanWeeks(ws[..i + 1], phaseId, n) <= PlanWeeks(ws, phaseId, n)
  {
    assert ws[..i + 1][..i] == ws[..i];
    PlanPrefix(Weeks(ws, phaseId), n, i + 1);
  }

  lemma DaysStep(ds: seq<SeedDay>, weekId: int, n: int, i: nat, id: int)
    requires i < |ds| && id == n + |PlanDays(ds[..i], weekId, n)|
    ensures PlanDays(ds[..i + 1], weekId, n) == PlanDays(ds[..i], weekId, n) + ([DayInsert(weekId, ds[i].title)] + PlanTasks(ds[i].tasks, id, id + 1))
    ensures PlanDays(ds[..i + 1], weekId, n) <= PlanDays(ds, weekId, n)
  {
    assert ds[..i + 1][..i] == ds[..i];
    PlanPrefix(Days(ds, weekId), n, i + 1);
  }

  lemma TasksStep(ks: seq<SeedTask>, dayId: int, n: int, i: nat, id: int)
    requires i < |ks| && id == n + |PlanTasks(ks[..i], dayId, n)|
    ensures PlanTasks(ks[..i + 1], dayId, n) == PlanTasks(ks[..i], dayId, n) + ([TaskInsert(dayId, ks[i].description, ks[i].completed)] + PlanEntries(ks[i].notes, id, id + 1))
    ensures PlanTasks(ks[..i + 1], dayId, n) <= PlanTasks(ks, dayId, n)
  {
    var pre := ks[..i + 1];
    assert pre[..i] == ks[..i] && pre[i] == ks[i];
    assert PlanTasks(pre, dayId, n)
        == PlanTasks(ks[..i], dayId, n) + [TaskInsert(dayId, ks[i].description, ks[i].completed)] + PlanEntries(ks[i].notes, id, id + 1);
    hide Plan;
    PlanPrefix(Tasks(ks, dayId), n, i + 1);
  }

  lemma EntriesStep(es: seq<(string, seq<string>)>, taskId: int, n: int, i: nat)
    requires i < |es|
    ensures var prev := PlanEntries(es[..i], taskId, n);
      PlanEntries(es[..i + 1], taskId, n) == prev + PlanItems(es[i].1, taskId, es[i].0, n + |prev|)
    ensures PlanEntries(es[..i + 1], taskId, n) <= PlanEntries(es, taskId, n)
  {
    assert es[..i + 1][..i] == es[..i];
    PlanPrefix(Entries(es, taskId), n, i + 1);
  }

  lemma ItemsStep(items: seq<string>, taskId: int, category: string, n: int, i: nat)
    requires i < |items|
    ensures PlanItems(items[..i + 1], taskId, category, n) ==
      PlanItems(items[..i], taskId, category, n) + [NoteInsert(taskId, category, items[i])]
    ensures PlanItems(items[..i + 1], taskId, category, n) <= PlanItems(items, taskId, category, n)
  {
    assert items[..i + 1][..i] == items[..i];
    PlanPrefix(Items(items, taskId, category), n, i + 1);
  }

  /** How deep in the file an insert's row sits; notes sit below tasks. */
  function RowDepth(x: Insert): nat
  {
    match x
    case PhaseInsert(_) => 5
    case WeekInsert(_, _) => 4
    case DayInsert(_, _) => 3
    case TaskInsert(_, _, _) => 2
    case NoteInsert(_, _, _) => 0
  }

  // A list of siblings inserts only rows of its own level and below.

  lemma {:induction false} ItemsDepth(items: seq<string>, taskId: int, category: string, n: int, x: Insert)
    requires x in PlanItems(items, taskId, category, n)
    ensures x.NoteInsert?
  {
    var init := items[..|items| - 1];
    if x in PlanItems(init, taskId, category, n) {
      ItemsDepth(init, taskId, category, n, x);
    }
  }

  lemma {:induction false} EntriesDepth(es: seq<(string, seq<string>)>, taskId: int, n: int, x: Insert)
    requires x in PlanEntries(es, taskId, n)
    ensures x.NoteInsert?
  {
    var init := es[..|es| - 1];
    var prev := PlanEntries(init, taskId, n);
    var e := es[|es| - 1];
    if x in prev {
      EntriesDepth(init, taskId, n, x);
    } else {
      ItemsDepth(e.1, taskId, e.0, n + |prev|, x);
    }
  }

  lemma {:induction false} TasksDepth(ks: seq<SeedTask>, dayId: int, n: int, x: Insert)
    requires x in PlanTasks(ks, dayId, n)
    ensures RowDepth(x) <= 2
  {
    var init := ks[..|ks| - 1];
    var prev := PlanTasks(init, dayId, n);
    var id := n + |prev|;
    if x in prev {
      TasksDepth(init, dayId, n, x);
    } else if x in PlanEntries(ks[|ks| - 1].notes, id, id + 1) {
      EntriesDepth(ks[|ks| - 1].notes, id, id + 1, x);
    }
  }

  lemma {:induction false} DaysDepth(ds: seq<SeedDay>, weekId: int, n: int, x: Insert)
    requires x in PlanDays(ds, weekId, n)
    ensures RowDepth(x) <= 3
  {
    var init := ds[..|ds| - 1];
    var prev := PlanDays(init, weekId, n);
    var id := n + |prev|;
    if x in prev {
      DaysDepth(init, weekId, n, x);
    } else if x in PlanTasks(ds[|ds| - 1].tasks, id, id + 1) {
      TasksDepth(ds[|ds| - 1].tasks, id, id + 1, x);
    }
  }

  lemma {:induction false} WeeksDepth(ws: seq<SeedWeek>, phaseId: int, n: int, x: Insert)
    requires x in PlanWeeks(ws, phaseId, n)
    ensures RowDepth(x) <= 4
  {
    var init := ws[..|ws| - 1];
    var prev := PlanWeeks(init, phaseId, n);
    var id := n + |prev|;
    if x in prev {
      WeeksDepth(init, phaseId, n, x);
    } else if x in PlanDays(ws[|ws| - 1].days, id, id + 1) {
      DaysDepth(ws[|ws| - 1].days, id, id + 1, x);
    }
  }

  function IsPhaseInsert(): Insert -> bool { (i: Insert) => i.PhaseInsert? }

  /** The walk inserts exactly one phase row per phase of the file, with its
      title, in file order. */
  lemma {:induction false} PlanPhaseTitles(ps: seq<SeedPhase>, n: int)
    ensures var f := Filter(PlanPhases(ps, n), IsPhaseInsert());
            |f| == |ps| && forall i :: 0 <= i < |ps| ==> f[i] == PhaseInsert(ps[i].title)
  {
    if ps != [] {
      var init := ps[..|ps| - 1];
      PlanPhaseTitles(init, n);
      PlanPhaseTitlesStep(ps, n);
    }
  }

  lemma PlanPhaseTitlesStep(ps: seq<SeedPhase>, n: int)
    requires ps != []
    ensures Filter(PlanPhases(ps, n), IsPhaseInsert())
         == Filter(PlanPhases(ps[..|ps| - 1], n), IsPhaseInsert()) + [PhaseInsert(ps[|ps| - 1].title)]
  {
    hide Plan;
    var p := ps[|ps| - 1];
    var prev := PlanPhases(ps[..|ps| - 1], n);
    var id := n + |prev|;
    var below := PlanWeeks(p.weeks, id, id + 1);
    PhasesStep(ps, n, |ps| - 1, id);
    assert ps[..|ps|] == ps;
    assert Filter([PhaseInsert(p.title)], IsPhaseInsert()) == [PhaseInsert(p.title)];
    hide Filter;
    FilterAppend(prev, [PhaseInsert(p.title)] + below, IsPhaseInsert());
    FilterAppend([PhaseInsert(p.title)], below, IsPhaseInsert());
    forall x | x in below
      ensures !IsPhaseInsert()(x)
    {
      WeeksDepth(p.weeks, id, id + 1, x);
    }
    FilterNone(below, IsPhaseInsert());
  }
}
