/** The Express backend's handlers over its tables. The database is an
    object whose one field is the store: the tables, the next id the serial
    sequences hand out, and the fault oracle that decides which write throws.
    Reads never fail; a write that throws sends the handler to its `catch`,
    which answers 500. */
module Server {
  import opened Wrappers
  import opened Tree
  import opened Batch
  import opened ServerTables
  import opened ServerAssembly
  import opened ServerPopulate

  /** Inserts only add rows: every id present before a run is present after it. */
  lemma {:induction false} ApplyAllGrows(t: Tables, cmds: seq<Insert>, n: int)
    ensures Grows(t, ApplyAll(Apply, t, cmds, n))
  {
    if cmds != [] {
      var init := cmds[..|cmds| - 1];
      ApplyAllGrows(t, init, n);
      ApplyGrows(ApplyAll(Apply, t, init, n), cmds[|cmds| - 1], n + |cmds| - 1);
    }
  }

  lemma RunGrows(st: Store<Tables>, cmds: seq<Insert>)
    ensures Grows(st.rows, Run(Apply, st, cmds).rows)
  {
    ApplyAllGrows(st.rows, Written(st.writesLeft, cmds), st.nextId);
  }

  class Database {
    var store: Store<Tables>

    ghost predicate Valid()
      reads this
    {
      ServerTables.Valid(store.rows, store.nextId) && 0 < store.nextId
    }

    constructor (writesLeft: Option<nat>)
      ensures store == Store(NoTables, 1, writesLeft) && Valid()
    {
      store := Store(NoTables, 1, writesLeft);
    }

    /** One `INSERT ... RETURNING id`. */
    method Execute(ins: Insert) returns (ok: bool, id: int)
      requires Valid() && ParentExists(store.rows, ins)
      modifies this
      ensures Valid() && Grows(old(store.rows), store.rows)
      ensures store == Run(Apply, old(store), [ins])
      ensures ok == Fits(old(store.writesLeft), 1) && id == old(store.nextId)
      ensures ok ==> store.rows == Apply(old(store.rows), ins, id) && store.nextId == id + 1
      ensures !ok ==> store == old(store)
    {
      id := store.nextId;
      ok := Fits(store.writesLeft, 1);
      var t := store.rows;
      if ok {
        ApplyValid(t, ins, id);
        assert Written(store.writesLeft, [ins]) == [ins];
        assert [ins][..0] == [];
        assert ApplyAll(Apply, t, [ins], id) == Apply(t, ins, id);
        store := Store(Apply(t, ins, id), id + 1, Spend(store.writesLeft, 1));
      } else {
        assert Written(store.writesLeft, [ins]) == [];
      }
    }

    /** `PUT /api/tasks/:id`: a non-boolean `completed` is refused before
        any query; otherwise every row with that id gets the flag, and no
        such row means 404. */
    method PutTask(id: int, completed: Flag) returns (status: int)
      requires Valid()
      modifies this
      ensures Valid()
      ensures !completed.Bool? ==> status == 400 && store == old(store)
      ensures completed.Bool? && !Fits(old(store.writesLeft), 1) ==> status == 500 && store == old(store)
      ensures completed.Bool? && Fits(old(store.writesLeft), 1) ==>
                && store == Store(old(store.rows).(tasks := SetCompleted(old(store.rows.tasks), id, completed.b)),
                                  old(store.nextId), Spend(old(store.writesLeft), 1))
                && status == (if id in TaskIds(old(store.rows)) then 200 else 404)
      ensures status == 404 ==> store.rows == old(store.rows)
      ensures CategoriesValid(old(store.rows)) ==> CategoriesValid(store.rows)
    {
      if !completed.Bool? {
        return 400;
      }
      if !Fits(store.writesLeft, 1) {
        return 500;
      }
      var t := store.rows;
      var u := t.(tasks := SetCompleted(t.tasks, id, completed.b));
      SetCompletedValid(t, id, completed.b, store.nextId);
      store := Store(u, store.nextId, Spend(store.writesLeft, 1));
      if id in TaskIds(t) {
        status := 200;
      } else {
        SetCompletedAbsent(t.tasks, id, completed.b);
        status := 404;
      }
    }

    /** `POST /api/tasks/:id/notes`: the category check, then the content
        check, then the task must exist; then one note row holding the
        content as sent. */
    method PostNote(taskId: int, category: Value, content: Value) returns (status: int)
      requires Valid()
      modifies this
      ensures Valid()
      ensures !ValidCategory(category) ==> status == 400 && store == old(store)
      ensures ValidCategory(category) && !ValidContent(content) ==> status == 400 && store == old(store)
      ensures ValidCategory(category) && ValidContent(content) && taskId !in TaskIds(old(store.rows)) ==>
                status == 404 && store == old(store)
      ensures ValidCategory(category) && ValidContent(content) && taskId in TaskIds(old(store.rows)) ==>
                && store == Run(Apply, old(store), [NoteInsert(taskId, category.s, content.s)])
                && status == (if Fits(old(store.writesLeft), 1) then 200 else 500)
      ensures CategoriesValid(old(store.rows)) ==> CategoriesValid(store.rows)
    {
      if !ValidCategory(category) {
        return 400;
      }
      if !ValidContent(content) {
        return 400;
      }
      if taskId !in TaskIds(store.rows) {
        return 404;
      }
      ValidCategoryIff(category);
      var ok, _ := Execute(NoteInsert(taskId, category.s, content.s));
      status := if ok then 200 else 500;
    }

    /** `PUT /api/notes/:id`: the content check, then every row with that id
        gets the new content; no such row means 404. */
    method PutNote(id: int, content: Value) returns (status: int)
      requires Valid()
      modifies this
      ensures Valid()
      ensures !ValidContent(content) ==> status == 400 && store == old(store)
      ensures ValidContent(content) && !Fits(old(store.writesLeft), 1) ==> status == 500 && store == old(store)
      ensures ValidContent(content) && Fits(old(store.writesLeft), 1) ==>
                && store == Store(old(store.rows).(notes := SetContent(old(store.rows.notes), id, content.s)),
                                  old(store.nextId), Spend(old(store.writesLeft), 1))
                && status == (if id in NoteIds(old(store.rows)) then 200 else 404)
      ensures status == 404 ==> store.rows == old(store.rows)
      ensures CategoriesValid(old(store.rows)) ==> CategoriesValid(store.rows)
    {
      if !ValidContent(content) {
        return 400;
      }
      if !Fits(store.writesLeft, 1) {
        return 500;
      }
      var t := store.rows;
      SetContentValid(t, id, content.s, store.nextId);
      store := Store(t.(notes := SetContent(t.notes, id, content.s)), store.nextId, Spend(store.writesLeft, 1));
      if id in NoteIds(t) {
        status := 200;
      } else {
        SetContentAbsent(t.notes, id, content.s);
        status := 404;
      }
    }

    /** `DELETE /api/notes/:id`: every row with that id goes; no such row
        means 404. */
    method DeleteNote(id: int) returns (status: int)
      requires Valid()
      modifies this
      ensures Valid()
      ensures !Fits(old(store.writesLeft), 1) ==> status == 500 && store == old(store)
      ensures Fits(old(store.writesLeft), 1) ==>
                && store == Store(old(store.rows).(notes := ServerTables.DeleteNote(old(store.rows.notes), id)),
                                  old(store.nextId), Spend(old(store.writesLeft), 1))
                && status == (if id in NoteIds(old(store.rows)) then 200 else 404)
      ensures status == 404 ==> store.rows == old(store.rows)
      ensures CategoriesValid(old(store.rows)) ==> CategoriesValid(store.rows)
    {
      if !Fits(store.writesLeft, 1) {
        return 500;
      }
      var t := store.rows;
      DeleteNoteValid(t, id, store.nextId);
      store := Store(t.(notes := ServerTables.DeleteNote(t.notes, id)), store.nextId, Spend(store.writesLeft, 1));
      if id in NoteIds(t) {
        status := 200;
      } else {
        DeleteNoteAbsent(t.notes, id);
        status := 404;
      }
    }

    /** `GET /api/roadmap`: 200 with the assembled tree, or 500 when the
        bucketing throws. */
    method GetRoadmap() returns (status: int, body: Option<Roadmap>)
      ensures body == Assemble(store.rows)
      ensures status == (if body.Some? then 200 else 500)
    {
      body := FillPhases(store.rows);
      status := if body.Some? then 200 else 500;
    }

    /** `POST /api/populate`: refused with 400 once any phase row exists;
        otherwise the nested walk over the bundled file, without a
        transaction, so a write that throws leaves every row written before
        it and answers 500. */
    method Populate(seed: seq<SeedPhase>) returns (status: int)
      requires Valid()
      modifies this
      ensures Valid()
      ensures |old(store.rows.phases)| > 0 ==> status == 400 && store == old(store)
      ensures |old(store.rows.phases)| == 0 ==>
                && store == Run(Apply, old(store), PlanPhases(seed, old(store.nextId)))
                && status == (if Fits(old(store.writesLeft), |PlanPhases(seed, old(store.nextId))|) then 200 else 500)
    {
      if |store.rows.phases| > 0 {
        return 400;
      }
      var ok := InsertPhases(seed);
      status := if ok then 200 else 500;
    }

    /** The outer loop of the walk, over the phases of the file. */
    method InsertPhases(ps: seq<SeedPhase>) returns (ok: bool)
      requires Valid()
      modifies this
      ensures Valid()
      ensures store == Run(Apply, old(store), PlanPhases(ps, old(store.nextId)))
      ensures ok == Fits(old(store.writesLeft), |PlanPhases(ps, old(store.nextId))|)
    {
      hide ServerTables.Valid, ServerTables.Apply, Plan, Run, ApplyAll, Written, Spend;
      ghost var s0 := store;
      ghost var n0 := store.nextId;
      ghost var full := PlanPhases(ps, n0);
      PlanNil(Phases(ps[..0]), n0);
      RunNil(Apply, s0);
      for i := 0 to |ps|
        invariant Valid()
        invariant store == Run(Apply, s0, PlanPhases(ps[..i], n0))
        invariant Fits(s0.writesLeft, |PlanPhases(ps[..i], n0)|)
      {
        ghost var prev := PlanPhases(ps[..i], n0);
        ghost var mid := store;
        RunNextId(Apply, s0, prev);
        PhasesStep(ps, n0, i, mid.nextId);
        ghost var one := [PhaseInsert(ps[i].title)] + PlanWeeks(ps[i].weeks, mid.nextId, mid.nextId + 1);
        ok := InsertPhase(ps[i]);
        assert ok == Fits(mid.writesLeft, |one|);
        assert store == Run(Apply, mid, one);
        RunStep(Apply, s0, prev, one, full, mid, store);
        if !ok {
          return false;
        }
      }
      assert ps[..|ps|] == ps;
      ok := true;
    }

    /** A phase row, then its weeks under the id the insert returned. */
    method InsertPhase(p: SeedPhase) returns (ok: bool)
      requires Valid()
      modifies this
      ensures Valid()
      ensures store == Run(Apply, old(store), [PhaseInsert(p.title)] + PlanWeeks(p.weeks, old(store.nextId), old(store.nextId) + 1))
      ensures ok == Fits(old(store.writesLeft), |[PhaseInsert(p.title)] + PlanWeeks(p.weeks, old(store.nextId), old(store.nextId) + 1)|)
    {
      hide ServerTables.Valid;
      ghost var s0 := store;
      ghost var below := PlanWeeks(p.weeks, store.nextId, store.nextId + 1);
      var ins := PhaseInsert(p.title);
      var rowOk, id := Execute(ins);
      if !rowOk {
        RunStops(Apply, s0, [ins], [ins] + below);
        return false;
      }
      RunAppend(Apply, s0, [ins], below);
      ok := InsertWeeks(id, p.weeks);
      RunGrows(s0, [ins] + below);
    }

    /** The weeks of one phase. */
    method InsertWeeks(phaseId: int, ws: seq<SeedWeek>) returns (ok: bool)
      requires Valid() && phaseId in PhaseIds(store.rows)
      modifies this
      ensures Valid() && phaseId in PhaseIds(store.rows)
      ensures store == Run(Apply, old(store), PlanWeeks(ws, phaseId, old(store.nextId)))
      ensures ok == Fits(old(store.writesLeft), |PlanWeeks(ws, phaseId, old(store.nextId))|)
    {
      hide ServerTables.Valid, ServerTables.Apply, Plan, Run, ApplyAll, Written, Spend;
      ghost var s0 := store;
      ghost var n0 := store.nextId;
      ghost var full := PlanWeeks(ws, phaseId, n0);
      PlanNil(Weeks(ws[..0], phaseId), n0);
      RunNil(Apply, s0);
      for i := 0 to |ws|
        invariant Valid() && phaseId in PhaseIds(store.rows)
        invariant store == Run(Apply, s0, PlanWeeks(ws[..i], phaseId, n0))
        invariant Fits(s0.writesLeft, |PlanWeeks(ws[..i], phaseId, n0)|)
      {
        ghost var prev := PlanWeeks(ws[..i], phaseId, n0);
        ghost var mid := store;
        RunNextId(Apply, s0, prev);
        WeeksStep(ws, phaseId, n0, i, mid.nextId);
        ghost var one := [WeekInsert(phaseId, ws[i].title)] + PlanDays(ws[i].days, mid.nextId, mid.nextId + 1);
        ok := InsertWeek(phaseId, ws[i]);
        assert ok == Fits(mid.writesLeft, |one|);
        assert store == Run(Apply, mid, one);
        RunStep(Apply, s0, prev, one, full, mid, store);
        if !ok {
          return false;
        }
      }
      assert ws[..|ws|] == ws;
      ok := true;
    }

    /** A week row, then its days. */
    method InsertWeek(phaseId: int, w: SeedWeek) returns (ok: bool)
      requires Valid() && phaseId in PhaseIds(store.rows)
      modifies this
      ensures Valid() && phaseId in PhaseIds(store.rows)
      ensures store == Run(Apply, old(store), [WeekInsert(phaseId, w.title)] + PlanDays(w.days, old(store.nextId), old(store.nextId) + 1))
      ensures ok == Fits(old(store.writesLeft), |[WeekInsert(phaseId, w.title)] + PlanDays(w.days, old(store.nextId), old(store.nextId) + 1)|)
    {
      hide ServerTables.Valid;
      ghost var s0 := store;
      ghost var below := PlanDays(w.days, store.nextId, store.nextId + 1);
      var ins := WeekInsert(phaseId, w.title);
      var rowOk, id := Execute(ins);
      if !rowOk {
        RunStops(Apply, s0, [ins], [ins] + below);
        return false;
      }
      RunAppend(Apply, s0, [ins], below);
      ok := InsertDays(id, w.days);
      RunGrows(s0, [ins] + below);
    }

    /** The days of one week. */
    method InsertDays(weekId: int, ds: seq<SeedDay>) returns (ok: bool)
      requires Valid() && weekId in WeekIds(store.rows)
      modifies this
      ensures Valid() && weekId in WeekIds(store.rows)
      ensures store == Run(Apply, old(store), PlanDays(ds, weekId, old(store.nextId)))
      ensures ok == Fits(old(store.writesLeft), |PlanDays(ds, weekId, old(store.nextId))|)
    {
      hide ServerTables.Valid, ServerTables.Apply, Plan, Run, ApplyAll, Written, Spend;
      ghost var s0 := store;
      ghost var n0 := store.nextId;
      ghost var full := PlanDays(ds, weekId, n0);
      PlanNil(Days(ds[..0], weekId), n0);
      RunNil(Apply, s0);
      for i := 0 to |ds|
        invariant Valid() && weekId in WeekIds(store.rows)
        invariant store == Run(Apply, s0, PlanDays(ds[..i], weekId, n0))
        invariant Fits(s0.writesLeft, |PlanDays(ds[..i], weekId, n0)|)
      {
        ghost var prev := PlanDays(ds[..i], weekId, n0);
        ghost var mid := store;
        RunNextId(Apply, s0, prev);
        DaysStep(ds, weekId, n0, i, mid.nextId);
        ghost var one := [DayInsert(weekId, ds[i].title)] + PlanTasks(ds[i].tasks, mid.nextId, mid.nextId + 1);
        ok := InsertDay(weekId, ds[i]);
        assert ok == Fits(mid.writesLeft, |one|);
        assert store == Run(Apply, mid, one);
        RunStep(Apply, s0, prev, one, full, mid, store);
        if !ok {
          return false;
        }
      }
      assert ds[..|ds|] == ds;
      ok := true;
    }

    /** A day row, then its tasks. */
    method InsertDay(weekId: int, d: SeedDay) returns (ok: bool)
      requires Valid() && weekId in WeekIds(store.rows)
      modifies this
      ensures Valid() && weekId in WeekIds(store.rows)
      ensures store == Run(Apply, old(store), [DayInsert(weekId, d.title)] + PlanTasks(d.tasks, old(store.nextId), old(store.nextId) + 1))
      ensures ok == Fits(old(store.writesLeft), |[DayInsert(weekId, d.title)] + PlanTasks(d.tasks, old(store.nextId), old(store.nextId) + 1)|)
    {
      hide ServerTables.Valid;
      ghost var s0 := store;
      ghost var below := PlanTasks(d.tasks, store.nextId, store.nextId + 1);
      var ins := DayInsert(weekId, d.title);
      var rowOk, id := Execute(ins);
      if !rowOk {
        RunStops(Apply, s0, [ins], [ins] + below);
        return false;
      }
      RunAppend(Apply, s0, [ins], below);
      ok := InsertTasks(id, d.tasks);
      RunGrows(s0, [ins] + below);
    }

    /** The tasks of one day. */
    method InsertTasks(dayId: int, ks: seq<SeedTask>) returns (ok: bool)
      requires Valid() && dayId in DayIds(store.rows)
      modifies this
      ensures Valid() && dayId in DayIds(store.rows)
      ensures store == Run(Apply, old(store), PlanTasks(ks, dayId, old(store.nextId)))
      ensures ok == Fits(old(store.writesLeft), |PlanTasks(ks, dayId, old(store.nextId))|)
    {
      hide ServerTables.Valid, ServerTables.Apply, Plan, Run, ApplyAll, Written, Spend;
      ghost var s0 := store;
      ghost var n0 := store.nextId;
      ghost var full := PlanTasks(ks, dayId, n0);
      PlanNil(Tasks(ks[..0], dayId), n0);
      RunNil(Apply, s0);
      for i := 0 to |ks|
        invariant Valid() && dayId in DayIds(store.rows)
        invariant store == Run(Apply, s0, PlanTasks(ks[..i], dayId, n0))
        invariant Fits(s0.writesLeft, |PlanTasks(ks[..i], dayId, n0)|)
      {
        ghost var prev := PlanTasks(ks[..i], dayId, n0);
        ghost var mid := store;
        RunNextId(Apply, s0, prev);
        TasksStep(ks, dayId, n0, i, mid.nextId);
        ghost var one := [TaskInsert(dayId, ks[i].description, ks[i].completed)] + PlanEntries(ks[i].notes, mid.nextId, mid.nextId + 1);
        ok := InsertTask(dayId, ks[i]);
        assert ok == Fits(mid.writesLeft, |one|);
        assert store == Run(Apply, mid, one);
        RunStep(Apply, s0, prev, one, full, mid, store);
        if !ok {
          return false;
        }
      }
      assert ks[..|ks|] == ks;
      ok := true;
    }

    /** A task row, then the note rows of its `notes` object. */
    method InsertTask(dayId: int, k: SeedTask) returns (ok: bool)
      requires Valid() && dayId in DayIds(store.rows)
      modifies this
      ensures Valid() && dayId in DayIds(store.rows)
      ensures store == Run(Apply, old(store), [TaskInsert(dayId, k.description, k.completed)] + PlanEntries(k.notes, old(store.nextId), old(store.nextId) + 1))
      ensures ok == Fits(old(store.writesLeft), |[TaskInsert(dayId, k.description, k.completed)] + PlanEntries(k.notes, old(store.nextId), old(store.nextId) + 1)|)
    {
      hide ServerTables.Valid;
      ghost var s0 := store;
      ghost var below := PlanEntries(k.notes, store.nextId, store.nextId + 1);
      var ins := TaskInsert(dayId, k.description, k.completed);
      var rowOk, id := Execute(ins);
      if !rowOk {
        RunStops(Apply, s0, [ins], [ins] + below);
        return false;
      }
      RunAppend(Apply, s0, [ins], below);
      ok := InsertEntries(id, k.notes);
      RunGrows(s0, [ins] + below);
    }

    /** The entries of a task's `notes` object, in key order. */
    method InsertEntries(taskId: int, es: seq<(string, seq<string>)>) returns (ok: bool)
      requires Valid() && taskId in TaskIds(store.rows)
      modifies this
      ensures Valid() && taskId in TaskIds(store.rows)
      ensures store == Run(Apply, old(store), PlanEntries(es, taskId, old(store.nextId)))
      ensures ok == Fits(old(store.writesLeft), |PlanEntries(es, taskId, old(store.nextId))|)
    {
      hide ServerTables.Valid, ServerTables.Apply, Plan, Run, ApplyAll, Written, Spend;
      ghost var s0 := store;
      ghost var n0 := store.nextId;
      ghost var full := PlanEntries(es, taskId, n0);
      PlanNil(Entries(es[..0], taskId), n0);
      RunNil(Apply, s0);
      for i := 0 to |es|
        invariant Valid() && taskId in TaskIds(store.rows)
        invariant store == Run(Apply, s0, PlanEntries(es[..i], taskId, n0))
        invariant Fits(s0.writesLeft, |PlanEntries(es[..i], taskId, n0)|)
      {
        ghost var prev := PlanEntries(es[..i], taskId, n0);
        ghost var mid := store;
        RunNextId(Apply, s0, prev);
        EntriesStep(es, taskId, n0, i);
        ghost var one := PlanItems(es[i].1, taskId, es[i].0, mid.nextId);
        ok := InsertItems(taskId, es[i].0, es[i].1);
        assert ok == Fits(mid.writesLeft, |one|);
        assert store == Run(Apply, mid, one);
        RunStep(Apply, s0, prev, one, full, mid, store);
        if !ok {
          return false;
        }
      }
      assert es[..|es|] == es;
      ok := true;
    }

    /** One note row per item of an entry, the entry's key as category. */
    method InsertItems(taskId: int, category: string, items: seq<string>) returns (ok: bool)
      requires Valid() && taskId in TaskIds(store.rows)
      modifies this
      ensures Valid() && taskId in TaskIds(store.rows)
      ensures store == Run(Apply, old(store), PlanItems(items, taskId, category, old(store.nextId)))
      ensures ok == Fits(old(store.writesLeft), |PlanItems(items, taskId, category, old(store.nextId))|)
    {
      hide ServerTables.Valid, ServerTables.Apply, Plan, Run, ApplyAll, Written, Spend;
      ghost var s0 := store;
      ghost var n0 := store.nextId;
      ghost var full := PlanItems(items, taskId, category, n0);
      PlanNil(Items(items[..0], taskId, category), n0);
      RunNil(Apply, s0);
      for i := 0 to |items|
        invariant Valid() && taskId in TaskIds(store.rows)
        invariant store == Run(Apply, s0, PlanItems(items[..i], taskId, category, n0))
        invariant Fits(s0.writesLeft, |PlanItems(items[..i], taskId, category, n0)|)
      {
        ghost var prev := PlanItems(items[..i], taskId, category, n0);
        ghost var mid := store;
        ItemsStep(items, taskId, category, n0, i);
        var ins := NoteInsert(taskId, category, items[i]);
        var noteOk, _ := Execute(ins);
        RunStep(Apply, s0, prev, [ins], full, mid, store);
        if !noteOk {
          return false;
        }
      }
      assert items[..|items|] == items;
      ok := true;
    }
  }
}
