/** The Next.js roadmap API: `GET` lists the roadmaps, `POST` creates one
    from a JSON body, and the upload variant creates one from a `.json`
    file. Creation takes a client from the pool, opens a transaction, inserts
    the roadmap row and walks the sent tree inserting each child under the id
    its parent's insert returned, then commits; any error rolls the rows
    back, and the client goes back to the pool on every path. */
module RoadmapsApi {
  import opened Wrappers
  import opened Text
  import opened Batch
  import opened RoadmapsPlan

  /** A request body: `phases` is `None` where it is not an array. */
  datatype Body = Body(title: Option<string>, phases: Option<seq<InPhase>>)

  /** The two creation paths check the same two things: a truthy title (a
      missing, `null` or empty title is falsy) and an array of phases. */
  predicate WellFormed(b: Body)
  {
    b.title.Some? && b.title.value != "" && b.phases.Some?
  }

  /** The creator: the requesting user's id when it is truthy, else 1. */
  function CreatorId(user: Option<int>): (r: int)
    ensures user.Some? && user.value != 0 ==> r == user.value
    ensures user.None? || user.value == 0 ==> r == 1
  {
    if user.Some? && user.value != 0 then user.value else 1
  }

  /** An uploaded file: its name and what parsing its text gave; `None`
      where `JSON.parse` throws or the value has no properties to read. */
  datatype Upload = Upload(name: string, parsed: Option<Body>)

  datatype Reply = Rows(rows: seq<RoadmapRow>) | Created(roadmap: RoadmapRow) | Error(message: string)
  datatype Response = Response(status: int, reply: Reply)

  /** The connection pool: how many clients are checked out. */
  class Pool {
    var checkedOut: nat

    constructor ()
      ensures checkedOut == 0
    {
      checkedOut := 0;
    }
  }

  /** The database behind the pool: the tables, the next id the serial
      sequences hand out, and the fault oracle deciding which query throws. */
  class Database {
    var store: Store<Tables>

    constructor (writesLeft: Option<nat>)
      ensures store == Store(NoTables, 1, writesLeft)
    {
      store := Store(NoTables, 1, writesLeft);
    }

    /** `handler`: `GET` lists the roadmap rows; `POST` validates the body
        and creates the roadmap, answering 201 with its row or 400 when the
        transaction fails; any other method gets 405. */
    method Handler(pool: Pool, httpMethod: string, user: Option<int>, body: Body) returns (r: Response)
      modifies this, pool
      ensures pool.checkedOut == old(pool.checkedOut)
      ensures httpMethod == "GET" ==> r == Response(200, Rows(old(store.rows.roadmaps))) && store == old(store)
      ensures httpMethod != "GET" && httpMethod != "POST" ==>
                r == Response(405, Error("Method not allowed")) && store == old(store)
      ensures httpMethod == "POST" && !WellFormed(body) ==>
                r == Response(400, Error("Title and phases are required")) && store == old(store)
      ensures httpMethod == "POST" && WellFormed(body) ==>
                var plan := CreatePlan(body.title.value, CreatorId(user), body.phases.value, old(store.nextId));
                if Fits(old(store.writesLeft), |plan|) then
                  && r == Response(201, Created(RoadmapRow(old(store.nextId), body.title.value, CreatorId(user))))
                  && store == Run(Apply, old(store), plan)
                else
                  && r == Response(400, Error("Failed to create roadmap"))
                  && store == Run(Apply, old(store), plan).(rows := old(store.rows))
    {
      if httpMethod == "GET" {
        return Response(200, Rows(store.rows.roadmaps));
      } else if httpMethod == "POST" {
        if !WellFormed(body) {
          return Response(400, Error("Title and phases are required"));
        }
        var ok, roadmap := Create(pool, body.title.value, CreatorId(user), body.phases.value);
        if ok {
          r := Response(201, Created(roadmap));
        } else {
          r := Response(400, Error("Failed to create roadmap"));
        }
      } else {
        r := Response(405, Error("Method not allowed"));
      }
    }

    /** The upload `POST`: the method, the file and its parsed content are
        checked in turn, then the same creation runs; a failed transaction
        answers 500 here. */
    method UploadPost(pool: Pool, httpMethod: string, user: Option<int>, file: Option<Upload>) returns (r: Response)
      modifies this, pool
      ensures pool.checkedOut == old(pool.checkedOut)
      ensures httpMethod != "POST" ==> r == Response(405, Error("Method not allowed")) && store == old(store)
      ensures httpMethod == "POST" && (file.None? || !EndsWith(file.value.name, ".json")) ==>
                r == Response(400, Error("Please upload a valid JSON file")) && store == old(store)
      ensures httpMethod == "POST" && file.Some? && EndsWith(file.value.name, ".json") && file.value.parsed.None? ==>
                r == Response(400, Error("Invalid JSON format")) && store == old(store)
      ensures httpMethod == "POST" && file.Some? && EndsWith(file.value.name, ".json") && file.value.parsed.Some?
              && !WellFormed(file.value.parsed.value) ==>
                r == Response(400, Error("Invalid JSON format. Requires 'title' and 'phases' array")) && store == old(store)
      ensures httpMethod == "POST" && file.Some? && EndsWith(file.value.name, ".json") && file.value.parsed.Some?
              && WellFormed(file.value.parsed.value) ==>
                var b := file.value.parsed.value;
                var plan := CreatePlan(b.title.value, CreatorId(user), b.phases.value, old(store.nextId));
                if Fits(old(store.writesLeft), |plan|) then
                  && r == Response(201, Created(RoadmapRow(old(store.nextId), b.title.value, CreatorId(user))))
                  && store == Run(Apply, old(store), plan)
                else
                  && r == Response(500, Error("Failed to upload roadmap"))
                  && store == Run(Apply, old(store), plan).(rows := old(store.rows))
    {
      if httpMethod != "POST" {
        return Response(405, Error("Method not allowed"));
      }
      if file.None? || !EndsWith(file.value.name, ".json") {
        return Response(400, Error("Please upload a valid JSON file"));
      }
      if file.value.parsed.None? {
        return Response(400, Error("Invalid JSON format"));
      }
      var b := file.value.parsed.value;
      if !WellFormed(b) {
        return Response(400, Error("Invalid JSON format. Requires 'title' and 'phases' array"));
      }
      var ok, roadmap := Create(pool, b.title.value, CreatorId(user), b.phases.value);
      if ok {
        r := Response(201, Created(roadmap));
      } else {
        r := Response(500, Error("Failed to upload roadmap"));
      }
    }

    /** A client from the pool, `BEGIN`, the roadmap row, the walk, then
        `COMMIT`; on the first query that throws, `ROLLBACK` restores the
        rows as they were at `BEGIN` (the ids already handed out stay used,
        as sequences are not transactional). The client is released on both
        paths. */
    method Create(pool: Pool, title: string, creatorId: int, ps: seq<InPhase>) returns (ok: bool, roadmap: RoadmapRow)
      modifies this, pool
      ensures pool.checkedOut == old(pool.checkedOut)
      ensures ok == Fits(old(store.writesLeft), |CreatePlan(title, creatorId, ps, old(store.nextId))|)
      ensures ok ==> && store == Run(Apply, old(store), CreatePlan(title, creatorId, ps, old(store.nextId)))
                     && roadmap == RoadmapRow(old(store.nextId), title, creatorId)
      ensures !ok ==> store == Run(Apply, old(store), CreatePlan(title, creatorId, ps, old(store.nextId))).(rows := old(store.rows))
    {
      pool.checkedOut := pool.checkedOut + 1;
      ghost var s0 := store;
      ghost var below := PlanPhases(ps, store.nextId, store.nextId + 1);
      var saved := store.rows;
      var ins := RoadmapInsert(title, creatorId);
      var rowOk, id := Execute(ins);
      roadmap := RoadmapRow(id, title, creatorId);
      if !rowOk {
        RunStops(Apply, s0, [ins], [ins] + below);
        ok := false;
      } else {
        RunAppend(Apply, s0, [ins], below);
        ok := InsertPhases(id, ps);
      }
      if !ok {
        store := store.(rows := saved);
      }
      pool.checkedOut := pool.checkedOut - 1;
    }

    /** One `INSERT ... RETURNING` on the transaction's client. */
    method Execute(ins: Insert) returns (ok: bool, id: int)
      modifies this
      ensures store == Run(Apply, old(store), [ins])
      ensures ok == Fits(old(store.writesLeft), 1) && id == old(store.nextId)
    {
      id := store.nextId;
      ok := Fits(store.writesLeft, 1);
      var t := store.rows;
      if ok {
        assert Written(store.writesLeft, [ins]) == [ins];
        assert [ins][..0] == [];
        assert ApplyAll(Apply, t, [ins], id) == Apply(t, ins, id);
        store := Store(Apply(t, ins, id), id + 1, Spend(store.writesLeft, 1));
      } else {
        assert Written(store.writesLeft, [ins]) == [];
      }
    }

    /** The phases of the roadmap, in order. */
    method InsertPhases(roadmapId: int, ps: seq<InPhase>) returns (ok: bool)
      modifies this
      ensures store == Run(Apply, old(store), PlanPhases(ps, roadmapId, old(store.nextId)))
      ensures ok == Fits(old(store.writesLeft), |PlanPhases(ps, roadmapId, old(store.nextId))|)
    {
      hide RoadmapsPlan.Apply, Plan, Run, ApplyAll, Written, Spend;
      ghost var s0 := store;
      ghost var n0 := store.nextId;
      ghost var full := PlanPhases(ps, roadmapId, n0);
      PlanNil(Phases(ps[..0], roadmapId), n0);
      RunNil(Apply, s0);
      for i := 0 to |ps|
        invariant store == Run(Apply, s0, PlanPhases(ps[..i], roadmapId, n0))
        invariant Fits(s0.writesLeft, |PlanPhases(ps[..i], roadmapId, n0)|)
      {
        ghost var prev := PlanPhases(ps[..i], roadmapId, n0);
        ghost var mid := store;
        RunNextId(Apply, s0, prev);
        PhasesStep(ps, roadmapId, n0, i, mid.nextId);
        ghost var one := [PhaseInsert(roadmapId, ps[i].title)] + PlanWeeks(ps[i].weeks, mid.nextId, mid.nextId + 1);
        ok := InsertPhase(roadmapId, ps[i]);
        assert ok == Fits(mid.writesLeft, |one|);
        assert store == Run(Apply, mid, one);
        RunStep(Apply, s0, prev, one, full, mid, store);
        if !ok {
          return false;
        }
      }
      assert ps[..|ps|] == ps;
      ok := true;
    }

    /** A phase row, then its weeks under the id the insert returned. */
    method InsertPhase(roadmapId: int, p: InPhase) returns (ok: bool)
      modifies this
      ensures store == Run(Apply, old(store), [PhaseInsert(roadmapId, p.title)] + PlanWeeks(p.weeks, old(store.nextId), old(store.nextId) + 1))
      ensures ok == Fits(old(store.writesLeft), |[PhaseInsert(roadmapId, p.title)] + PlanWeeks(p.weeks, old(store.nextId), old(store.nextId) + 1)|)
    {
      ghost var s0 := store;
      ghost var below := PlanWeeks(p.weeks, store.nextId, store.nextId + 1);
      var ins := PhaseInsert(roadmapId, p.title);
      var rowOk, id := Execute(ins);
      if !rowOk {
        RunStops(Apply, s0, [ins], [ins] + below);
        return false;
      }
      RunAppend(Apply, s0, [ins], below);
      ok := InsertWeeks(id, p.weeks);
    }

    /** The weeks of one phase. */
    method InsertWeeks(phaseId: int, ws: seq<InWeek>) returns (ok: bool)
      modifies this
      ensures store == Run(Apply, old(store), PlanWeeks(ws, phaseId, old(store.nextId)))
      ensures ok == Fits(old(store.writesLeft), |PlanWeeks(ws, phaseId, old(store.nextId))|)
    {
      hide RoadmapsPlan.Apply, Plan, Run, ApplyAll, Written, Spend;
      ghost var s0 := store;
      ghost var n0 := store.nextId;
      ghost var full := PlanWeeks(ws, phaseId, n0);
      PlanNil(Weeks(ws[..0], phaseId), n0);
      RunNil(Apply, s0);
      for i := 0 to |ws|
        invariant store == Run(Apply, s0, PlanWeeks(ws[..i], phaseId, n0))
        invariant Fits(s0.writesLeft, |PlanWeeks(ws[..i], phaseId, n0)|)
      {
        ghost var prev := PlanWeeks(ws[..i], phaseId, n0);
        ghost var mid := store;
        RunNextId(Apply, s0, prev);
        WeeksStep(ws, phaseId, n0, i, mid.nextId);
        ghost var one := [WeekInsert(phaseId, ws[i].title)] + PlanDays(ws[i].days, mid.nextId, mid.nextId + 1);
        ok := InsertWeek(phaseId, ws[i]);
        assert ok == Fits(mid.writesLeft, |one|);
        assert store == Run(Apply, mid, one);
        RunStep(Apply, s0, prev, one, full, mid, store);
        if !ok {
          return false;
        }
      }
      assert ws[..|ws|] == ws;
      ok := true;
    }

    /** A week row, then its days. */
    method InsertWeek(phaseId: int, w: InWeek) returns (ok: bool)
      modifies this
      ensures store == Run(Apply, old(store), [WeekInsert(phaseId, w.title)] + PlanDays(w.days, old(store.nextId), old(store.nextId) + 1))
      ensures ok == Fits(old(store.writesLeft), |[WeekInsert(phaseId, w.title)] + PlanDays(w.days, old(store.nextId), old(store.nextId) + 1)|)
    {
      ghost var s0 := store;
      ghost var below := PlanDays(w.days, store.nextId, store.nextId + 1);
      var ins := WeekInsert(phaseId, w.title);
      var rowOk, id := Execute(ins);
      if !rowOk {
        RunStops(Apply, s0, [ins], [ins] + below);
        return false;
      }
      RunAppend(Apply, s0, [ins], below);
      ok := InsertDays(id, w.days);
    }

    /** The days of one week. */
    method InsertDays(weekId: int, ds: seq<InDay>) returns (ok: bool)
      modifies this
      ensures store == Run(Apply, old(store), PlanDays(ds, weekId, old(store.nextId)))
      ensures ok == Fits(old(store.writesLeft), |PlanDays(ds, weekId, old(store.nextId))|)
    {
      hide RoadmapsPlan.Apply, Plan, Run, ApplyAll, Written, Spend;
      ghost var s0 := store;
      ghost var n0 := store.nextId;
      ghost var full := PlanDays(ds, weekId, n0);
      PlanNil(Days(ds[..0], weekId), n0);
      RunNil(Apply, s0);
      for i := 0 to |ds|
        invariant store == Run(Apply, s0, PlanDays(ds[..i], weekId, n0))
        invariant Fits(s0.writesLeft, |PlanDays(ds[..i], weekId, n0)|)
      {
        ghost var prev := PlanDays(ds[..i], weekId, n0);
        ghost var mid := store;
        RunNextId(Apply, s0, prev);
        DaysStep(ds, weekId, n0, i, mid.nextId);
        ghost var one := [DayInsert(weekId, ds[i].title)] + PlanTasks(ds[i].tasks, mid.nextId, mid.nextId + 1);
        ok := InsertDay(weekId, ds[i]);
        assert ok == Fits(mid.writesLeft, |one|);
        assert store == Run(Apply, mid, one);
        RunStep(Apply, s0, prev, one, full, mid, store);
        if !ok {
          return false;
        }
      }
      assert ds[..|ds|] == ds;
      ok := true;
    }

    /** A day row, then its tasks. */
    method InsertDay(weekId: int, d: InDay) returns (ok: bool)
      modifies this
      ensures store == Run(Apply, old(store), [DayInsert(weekId, d.title)] + PlanTasks(d.tasks, old(store.nextId), old(store.nextId) + 1))
      ensures ok == Fits(old(store.writesLeft), |[DayInsert(weekId, d.title)] + PlanTasks(d.tasks, old(store.nextId), old(store.nextId) + 1)|)
    {
      ghost var s0 := store;
      ghost var below := PlanTasks(d.tasks, store.nextId, store.nextId + 1);
      var ins := DayInsert(weekId, d.title);
      var rowOk, id := Execute(ins);
      if !rowOk {
        RunStops(Apply, s0, [ins], [ins] + below);
        return false;
      }
      RunAppend(Apply, s0, [ins], below);
      ok := InsertTasks(id, d.tasks);
    }

    /** The tasks of one day; a task's `notes` go into the row as JSON text. */
    method InsertTasks(dayId: int, ks: seq<InTask>) returns (ok: bool)
      modifies this
      ensures store == Run(Apply, old(store), PlanTasks(ks, dayId, old(store.nextId)))
      ensures ok == Fits(old(store.writesLeft), |PlanTasks(ks, dayId, old(store.nextId))|)
    {
      hide RoadmapsPlan.Apply, Plan, Run, ApplyAll, Written, Spend;
      ghost var s0 := store;
      ghost var n0 := store.nextId;
      ghost var full := PlanTasks(ks, dayId, n0);
      PlanNil(Tasks(ks[..0], dayId), n0);
      RunNil(Apply, s0);
      for i := 0 to |ks|
        invariant store == Run(Apply, s0, PlanTasks(ks[..i], dayId, n0))
        invariant Fits(s0.writesLeft, |PlanTasks(ks[..i], dayId, n0)|)
      {
        ghost var prev := PlanTasks(ks[..i], dayId, n0);
        ghost var mid := store;
        TasksStep(ks, dayId, n0, i);
        var ins := TaskRowInsert(dayId, ks[i]);
        var taskOk, _ := Execute(ins);
        RunStep(Apply, s0, prev, [ins], full, mid, store);
        if !taskOk {
          return false;
        }
      }
      assert ks[..|ks|] == ks;
      ok := true;
    }
  }
}
