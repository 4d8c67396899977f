/** The tree transform shared by the completion filter and the search bar:
    keep the tasks that pass a test, then drop the days, weeks and phases
    left with no children, bottom-up; every other field is copied. */
module Prune {
  import opened Tree
  import opened Seqs

  /** A day that survives pruning: non-empty, and all its tasks pass. */
  predicate DayPruned(d: Day, keep: Task -> bool)
  {
    d.tasks != [] && forall t :: t in d.tasks ==> keep(t)
  }

  predicate WeekPruned(w: Week, keep: Task -> bool)
  {
    w.days != [] && forall d :: d in w.days ==> DayPruned(d, keep)
  }

  predicate PhasePruned(p: Phase, keep: Task -> bool)
  {
    p.weeks != [] && forall w :: w in p.weeks ==> WeekPruned(w, keep)
  }

  /** Each day with its tasks narrowed to those passing `keep`; days left
      empty are dropped, the others keep all their other fields. */
  function PruneDays(ds: seq<Day>, keep: Task -> bool): (r: seq<Day>)
    ensures |r| <= |ds|
    ensures forall d :: d in r ==> DayPruned(d, keep)
  {
    if ds == [] then []
    else
      var d := ds[0].(tasks := Filter(ds[0].tasks, keep));
      (if d.tasks != [] then [d] else []) + PruneDays(ds[1..], keep)
  }

  function PruneWeeks(ws: seq<Week>, keep: Task -> bool): (r: seq<Week>)
    ensures |r| <= |ws|
    ensures forall w :: w in r ==> WeekPruned(w, keep)
  {
    if ws == [] then []
    else
      var w := ws[0].(days := PruneDays(ws[0].days, keep));
      (if w.days != [] then [w] else []) + PruneWeeks(ws[1..], keep)
  }

  function PrunePhases(ps: seq<Phase>, keep: Task -> bool): (r: seq<Phase>)
    ensures |r| <= |ps|
    ensures forall p :: p in r ==> PhasePruned(p, keep)
  {
    if ps == [] then []
    else
      var p := ps[0].(weeks := PruneWeeks(ps[0].weeks, keep));
      (if p.weeks != [] then [p] else []) + PrunePhases(ps[1..], keep)
  }

  /** `{phases: ...}`: a fresh object holding only the pruned phases. */
  function PruneRoadmap(r: Roadmap, keep: Task -> bool): Roadmap
  {
    Roadmap(PrunePhases(r.phases, keep), map[])
  }

  // ---- the tasks of the result are exactly the passing tasks, in order ----

  lemma {:induction false} PruneDaysTasks(ds: seq<Day>, keep: Task -> bool)
    ensures DayTasks(PruneDays(ds, keep)) == Filter(DayTasks(ds), keep)
  {
    if ds != [] {
      PruneDaysTasks(ds[1..], keep);
      FilterAppend(ds[0].tasks, DayTasks(ds[1..]), keep);
      var d := ds[0].(tasks := Filter(ds[0].tasks, keep));
      if d.tasks != [] {
        assert PruneDays(ds, keep) == [d] + PruneDays(ds[1..], keep);
        assert ([d] + PruneDays(ds[1..], keep))[1..] == PruneDays(ds[1..], keep);
      } else {
        assert PruneDays(ds, keep) == PruneDays(ds[1..], keep);
      }
    }
  }

  /** Pruned days are empty exactly when no task of the input passes. */
  lemma PruneDaysEmpty(ds: seq<Day>, keep: Task -> bool)
    ensures PruneDays(ds, keep) == [] <==> Filter(DayTasks(ds), keep) == []
  {
    PruneDaysTasks(ds, keep);
    var r := PruneDays(ds, keep);
    if r != [] {
      assert DayPruned(r[0], keep);
      assert DayTasks(r) == r[0].tasks + DayTasks(r[1..]);
    }
  }

  lemma {:induction false} PruneWeeksTasks(ws: seq<Week>, keep: Task -> bool)
    ensures WeekTasks(PruneWeeks(ws, keep)) == Filter(WeekTasks(ws), keep)
  {
    if ws != [] {
      PruneWeeksTasks(ws[1..], keep);
      PruneDaysTasks(ws[0].days, keep);
      PruneDaysEmpty(ws[0].days, keep);
      FilterAppend(DayTasks(ws[0].days), WeekTasks(ws[1..]), keep);
      var w := ws[0].(days := PruneDays(ws[0].days, keep));
      if w.days != [] {
        assert PruneWeeks(ws, keep) == [w] + PruneWeeks(ws[1..], keep);
        assert ([w] + PruneWeeks(ws[1..], keep))[1..] == PruneWeeks(ws[1..], keep);
      } else {
        assert PruneWeeks(ws, keep) == PruneWeeks(ws[1..], keep);
      }
    }
  }

  lemma PruneWeeksEmpty(ws: seq<Week>, keep: Task -> bool)
    ensures PruneWeeks(ws, keep) == [] <==> Filter(WeekTasks(ws), keep) == []
  {
    PruneWeeksTasks(ws, keep);
    var r := PruneWeeks(ws, keep);
    if r != [] {
      assert WeekPruned(r[0], keep);
      PruneDaysEmptyOfPruned(r[0].days, keep);
      assert WeekTasks(r) == DayTasks(r[0].days) + WeekTasks(r[1..]);
    }
  }

  /** A non-empty list of pruned days has a task. */
  lemma PruneDaysEmptyOfPruned(ds: seq<Day>, keep: Task -> bool)
    requires ds != [] && forall d :: d in ds ==> DayPruned(d, keep)
    ensures DayTasks(ds) != []
  {
    assert DayPruned(ds[0], keep);
    assert DayTasks(ds) == ds[0].tasks + DayTasks(ds[1..]);
  }

  lemma {:induction false} PrunePhasesTasks(ps: seq<Phase>, keep: Task -> bool)
    ensures PhaseTasks(PrunePhases(ps, keep)) == Filter(PhaseTasks(ps), keep)
  {
    if ps != [] {
      PrunePhasesTasks(ps[1..], keep);
      PruneWeeksTasks(ps[0].weeks, keep);
      PruneWeeksEmpty(ps[0].weeks, keep);
      FilterAppend(WeekTasks(ps[0].weeks), PhaseTasks(ps[1..]), keep);
      var p := ps[0].(weeks := PruneWeeks(ps[0].weeks, keep));
      if p.weeks != [] {
        assert PrunePhases(ps, keep) == [p] + PrunePhases(ps[1..], keep);
        assert ([p] + PrunePhases(ps[1..], keep))[1..] == PrunePhases(ps[1..], keep);
      } else {
        assert PrunePhases(ps, keep) == PrunePhases(ps[1..], keep);
      }
    }
  }

  /** The pruned roadmap's tasks are exactly the input's passing tasks, in
      their original order. */
  lemma PruneRoadmapTasks(r: Roadmap, keep: Task -> bool)
    ensures AllTasks(PruneRoadmap(r, keep)) == Filter(AllTasks(r), keep)
    ensures IsSubsequence(AllTasks(PruneRoadmap(r, keep)), AllTasks(r))
  {
    PrunePhasesTasks(r.phases, keep);
    FilterIsSubsequence(AllTasks(r), keep);
  }

  // ---- which containers survive, and with which fields ----

  /** A day with its task list emptied: every field but the children. */
  function DayHeads(ds: seq<Day>): seq<Day>
  {
    if ds == [] then [] else [ds[0].(tasks := [])] + DayHeads(ds[1..])
  }

  function WeekHeads(ws: seq<Week>): seq<Week>
  {
    if ws == [] then [] else [ws[0].(days := [])] + WeekHeads(ws[1..])
  }

  function PhaseHeads(ps: seq<Phase>): seq<Phase>
  {
    if ps == [] then [] else [ps[0].(weeks := [])] + PhaseHeads(ps[1..])
  }

  /** The input days that hold at least one passing task, in order. */
  function DaysWithKept(ds: seq<Day>, keep: Task -> bool): seq<Day>
  {
    if ds == [] then []
    else (if Filter(ds[0].tasks, keep) != [] then [ds[0]] else []) + DaysWithKept(ds[1..], keep)
  }

  function WeeksWithKept(ws: seq<Week>, keep: Task -> bool): seq<Week>
  {
    if ws == [] then []
    else (if Filter(DayTasks(ws[0].days), keep) != [] then [ws[0]] else []) + WeeksWithKept(ws[1..], keep)
  }

  function PhasesWithKept(ps: seq<Phase>, keep: Task -> bool): seq<Phase>
  {
    if ps == [] then []
    else (if Filter(WeekTasks(ps[0].weeks), keep) != [] then [ps[0]] else []) + PhasesWithKept(ps[1..], keep)
  }

  /** The surviving days are the input days holding a passing task, in
      order, with every non-child field unchanged. */
  lemma {:induction false} PruneDaysHeads(ds: seq<Day>, keep: Task -> bool)
    ensures DayHeads(PruneDays(ds, keep)) == DayHeads(DaysWithKept(ds, keep))
  {
    if ds != [] {
      PruneDaysHeads(ds[1..], keep);
      var d := ds[0].(tasks := Filter(ds[0].tasks, keep));
      if d.tasks != [] {
        assert PruneDays(ds, keep) == [d] + PruneDays(ds[1..], keep);
        assert DaysWithKept(ds, keep) == [ds[0]] + DaysWithKept(ds[1..], keep);
        assert ([d] + PruneDays(ds[1..], keep))[1..] == PruneDays(ds[1..], keep);
        assert ([ds[0]] + DaysWithKept(ds[1..], keep))[1..] == DaysWithKept(ds[1..], keep);
        assert d.(tasks := []) == ds[0].(tasks := []);
        assert DayHeads(PruneDays(ds, keep)) == [d.(tasks := [])] + DayHeads(PruneDays(ds[1..], keep));
        assert DayHeads(DaysWithKept(ds, keep)) == [ds[0].(tasks := [])] + DayHeads(DaysWithKept(ds[1..], keep));
      } else {
        assert PruneDays(ds, keep) == PruneDays(ds[1..], keep);
        assert DaysWithKept(ds, keep) == DaysWithKept(ds[1..], keep);
      }
    }
  }

  lemma {:induction false} PruneWeeksHeads(ws: seq<Week>, keep: Task -> bool)
    ensures WeekHeads(PruneWeeks(ws, keep)) == WeekHeads(WeeksWithKept(ws, keep))
  {
    if ws != [] {
      PruneWeeksHeads(ws[1..], keep);
      PruneDaysEmpty(ws[0].days, keep);
      var w := ws[0].(days := PruneDays(ws[0].days, keep));
      if w.days != [] {
        assert PruneWeeks(ws, keep) == [w] + PruneWeeks(ws[1..], keep);
        assert WeeksWithKept(ws, keep) == [ws[0]] + WeeksWithKept(ws[1..], keep);
        assert ([w] + PruneWeeks(ws[1..], keep))[1..] == PruneWeeks(ws[1..], keep);
        assert ([ws[0]] + WeeksWithKept(ws[1..], keep))[1..] == WeeksWithKept(ws[1..], keep);
        assert w.(days := []) == ws[0].(days := []);
        assert WeekHeads(PruneWeeks(ws, keep)) == [w.(days := [])] + WeekHeads(PruneWeeks(ws[1..], keep));
        assert WeekHeads(WeeksWithKept(ws, keep)) == [ws[0].(days := [])] + WeekHeads(WeeksWithKept(ws[1..], keep));
      } else {
        assert PruneWeeks(ws, keep) == PruneWeeks(ws[1..], keep);
        assert WeeksWithKept(ws, keep) == WeeksWithKept(ws[1..], keep);
      }
    }
  }

  lemma {:induction false} PrunePhasesHeads(ps: seq<Phase>, keep: Task -> bool)
    ensures PhaseHeads(PrunePhases(ps, keep)) == PhaseHeads(PhasesWithKept(ps, keep))
  {
    if ps != [] {
      PrunePhasesHeads(ps[1..], keep);
      PruneWeeksEmpty(ps[0].weeks, keep);
      var p := ps[0].(weeks := PruneWeeks(ps[0].weeks, keep));
      if p.weeks != [] {
        assert PrunePhases(ps, keep) == [p] + PrunePhases(ps[1..], keep);
        assert PhasesWithKept(ps, keep) == [ps[0]] + PhasesWithKept(ps[1..], keep);
        assert ([p] + PrunePhases(ps[1..], keep))[1..] == PrunePhases(ps[1..], keep);
        assert ([ps[0]] + PhasesWithKept(ps[1..], keep))[1..] == PhasesWithKept(ps[1..], keep);
        assert p.(weeks := []) == ps[0].(weeks := []);
        assert PhaseHeads(PrunePhases(ps, keep)) == [p.(weeks := [])] + PhaseHeads(PrunePhases(ps[1..], keep));
        assert PhaseHeads(PhasesWithKept(ps, keep)) == [ps[0].(weeks := [])] + PhaseHeads(PhasesWithKept(ps[1..], keep));
      } else {
        assert PrunePhases(ps, keep) == PrunePhases(ps[1..], keep);
        assert PhasesWithKept(ps, keep) == PhasesWithKept(ps[1..], keep);
      }
    }
  }

  // ---- each survivor is its input container with its children pruned ----

  /** The i-th surviving day is the i-th input day holding a passing task,
      with its tasks narrowed to the passing ones. */
  lemma {:induction false} PruneDaysAt(ds: seq<Day>, keep: Task -> bool)
    ensures |PruneDays(ds, keep)| == |DaysWithKept(ds, keep)|
    ensures forall i :: 0 <= i < |PruneDays(ds, keep)| ==>
      PruneDays(ds, keep)[i] == DaysWithKept(ds, keep)[i].(tasks := Filter(DaysWithKept(ds, keep)[i].tasks, keep))
  {
    if ds != [] {
      PruneDaysAt(ds[1..], keep);
      var d := ds[0].(tasks := Filter(ds[0].tasks, keep));
      var r, k := PruneDays(ds[1..], keep), DaysWithKept(ds[1..], keep);
      if d.tasks != [] {
        assert PruneDays(ds, keep) == [d] + r;
        assert DaysWithKept(ds, keep) == [ds[0]] + k;
        forall i | 0 < i < |PruneDays(ds, keep)|
          ensures PruneDays(ds, keep)[i] == DaysWithKept(ds, keep)[i].(tasks := Filter(DaysWithKept(ds, keep)[i].tasks, keep))
        {
          assert PruneDays(ds, keep)[i] == r[i - 1];
          assert DaysWithKept(ds, keep)[i] == k[i - 1];
        }
      } else {
        assert PruneDays(ds, keep) == r;
        assert DaysWithKept(ds, keep) == k;
      }
    }
  }

  /** One step of `PruneWeeks` and of `WeeksWithKept`. */
  lemma WeeksUnfold(ws: seq<Week>, keep: Task -> bool)
    ensures ws == [] ==> PruneWeeks(ws, keep) == [] && WeeksWithKept(ws, keep) == []
    ensures ws != [] ==>
      && PruneWeeks(ws, keep)
         == (if PruneDays(ws[0].days, keep) != [] then [ws[0].(days := PruneDays(ws[0].days, keep))] else [])
            + PruneWeeks(ws[1..], keep)
      && WeeksWithKept(ws, keep)
         == (if Filter(DayTasks(ws[0].days), keep) != [] then [ws[0]] else []) + WeeksWithKept(ws[1..], keep)
  {
  }

  /** The i-th surviving week is the i-th input week holding a passing task,
      with its days pruned. */
  lemma {:induction false} PruneWeeksAt(ws: seq<Week>, keep: Task -> bool)
    ensures |PruneWeeks(ws, keep)| == |WeeksWithKept(ws, keep)|
    ensures forall i :: 0 <= i < |PruneWeeks(ws, keep)| ==>
      PruneWeeks(ws, keep)[i] == WeeksWithKept(ws, keep)[i].(days := PruneDays(WeeksWithKept(ws, keep)[i].days, keep))
  {
    hide *;
    WeeksUnfold(ws, keep);
    if ws != [] {
      PruneWeeksAt(ws[1..], keep);
      PruneDaysEmpty(ws[0].days, keep);
      var r, k := PruneWeeks(ws[1..], keep), WeeksWithKept(ws[1..], keep);
      if PruneDays(ws[0].days, keep) != [] {
        forall i | 0 < i < |PruneWeeks(ws, keep)|
          ensures PruneWeeks(ws, keep)[i] == WeeksWithKept(ws, keep)[i].(days := PruneDays(WeeksWithKept(ws, keep)[i].days, keep))
        {
          assert PruneWeeks(ws, keep)[i] == r[i - 1];
          assert WeeksWithKept(ws, keep)[i] == k[i - 1];
        }
      }
    }
  }

  /** One step of `PrunePhases` and of `PhasesWithKept`. */
  lemma PhasesUnfold(ps: seq<Phase>, keep: Task -> bool)
    ensures ps == [] ==> PrunePhases(ps, keep) == [] && PhasesWithKept(ps, keep) == []
    ensures ps != [] ==>
      && PrunePhases(ps, keep)
         == (if PruneWeeks(ps[0].weeks, keep) != [] then [ps[0].(weeks := PruneWeeks(ps[0].weeks, keep))] else [])
            + PrunePhases(ps[1..], keep)
      && PhasesWithKept(ps, keep)
         == (if Filter(WeekTasks(ps[0].weeks), keep) != [] then [ps[0]] else []) + PhasesWithKept(ps[1..], keep)
  {
  }

  /** The i-th surviving phase is the i-th input phase holding a passing
      task, with its weeks pruned. */
  lemma {:induction false} PrunePhasesAt(ps: seq<Phase>, keep: Task -> bool)
    ensures |PrunePhases(ps, keep)| == |PhasesWithKept(ps, keep)|
    ensures forall i :: 0 <= i < |PrunePhases(ps, keep)| ==>
      PrunePhases(ps, keep)[i] == PhasesWithKept(ps, keep)[i].(weeks := PruneWeeks(PhasesWithKept(ps, keep)[i].weeks, keep))
  {
    hide *;
    PhasesUnfold(ps, keep);
    if ps != [] {
      PrunePhasesAt(ps[1..], keep);
      PruneWeeksEmpty(ps[0].weeks, keep);
      var r, k := PrunePhases(ps[1..], keep), PhasesWithKept(ps[1..], keep);
      if PruneWeeks(ps[0].weeks, keep) != [] {
        forall i | 0 < i < |PrunePhases(ps, keep)|
          ensures PrunePhases(ps, keep)[i] == PhasesWithKept(ps, keep)[i].(weeks := PruneWeeks(PhasesWithKept(ps, keep)[i].weeks, keep))
        {
          assert PrunePhases(ps, keep)[i] == r[i - 1];
          assert PhasesWithKept(ps, keep)[i] == k[i - 1];
        }
      }
    }
  }

  /** The survivors of one level: the input days holding a passing task,
      in order, with every non-child field copied and their tasks narrowed
      to the passing ones. */
  predicate DaysFrom(out: seq<Day>, ds: seq<Day>, keep: Task -> bool)
  {
    var kd := DaysWithKept(ds, keep);
    && DayHeads(out) == DayHeads(kd)
    && |out| == |kd|
    && forall m :: 0 <= m < |out| ==> out[m].tasks == Filter(kd[m].tasks, keep)
  }

  /** The input weeks holding a passing task, in order, with every non-child
      field copied and their days as `DaysFrom` describes. */
  predicate WeeksFrom(out: seq<Week>, ws: seq<Week>, keep: Task -> bool)
  {
    var kw := WeeksWithKept(ws, keep);
    && WeekHeads(out) == WeekHeads(kw)
    && |out| == |kw|
    && forall j :: 0 <= j < |out| ==> DaysFrom(out[j].days, kw[j].days, keep)
  }

  /** The input phases holding a passing task, in order, with every
      non-child field copied and their weeks as `WeeksFrom` describes. */
  predicate PhasesFrom(out: seq<Phase>, ps: seq<Phase>, keep: Task -> bool)
  {
    var kp := PhasesWithKept(ps, keep);
    && PhaseHeads(out) == PhaseHeads(kp)
    && |out| == |kp|
    && forall i :: 0 <= i < |out| ==> WeeksFrom(out[i].weeks, kp[i].weeks, keep)
  }

  lemma PruneDaysFrom(ds: seq<Day>, keep: Task -> bool)
    ensures DaysFrom(PruneDays(ds, keep), ds, keep)
  {
    PruneDaysHeads(ds, keep);
    PruneDaysAt(ds, keep);
  }

  lemma PruneWeeksFrom(ws: seq<Week>, keep: Task -> bool)
    ensures WeeksFrom(PruneWeeks(ws, keep), ws, keep)
  {
    var out, kw := PruneWeeks(ws, keep), WeeksWithKept(ws, keep);
    PruneWeeksHeads(ws, keep);
    PruneWeeksAt(ws, keep);
    forall j | 0 <= j < |out|
      ensures DaysFrom(out[j].days, kw[j].days, keep)
    {
      PruneDaysFrom(kw[j].days, keep);
    }
  }

  /** Pruning keeps, at every level, exactly the containers holding a
      passing task, in order, with their other fields copied. */
  lemma PrunePhasesFrom(ps: seq<Phase>, keep: Task -> bool)
    ensures PhasesFrom(PrunePhases(ps, keep), ps, keep)
  {
    var out, kp := PrunePhases(ps, keep), PhasesWithKept(ps, keep);
    PrunePhasesHeads(ps, keep);
    PrunePhasesAt(ps, keep);
    forall i | 0 <= i < |out|
      ensures WeeksFrom(out[i].weeks, kp[i].weeks, keep)
    {
      PruneWeeksFrom(kp[i].weeks, keep);
    }
  }
}
