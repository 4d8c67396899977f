/** The progress summary: the nested `reduce` counts of all and of
    completed tasks, and the zero-total branch of the percentage. */
module ProgressBar {
  import opened Tree
  import opened Seqs
  import Prune

  /** The number of tasks over a list of days. */
  function DaysTotal(ds: seq<Day>): nat
  {
    if ds == [] then 0 else |ds[0].tasks| + DaysTotal(ds[1..])
  }

  function WeeksTotal(ws: seq<Week>): nat
  {
    if ws == [] then 0 else DaysTotal(ws[0].days) + WeeksTotal(ws[1..])
  }

  /** `totalTasks` */
  function TotalTasks(r: Roadmap): nat
  {
    PhasesTotal(r.phases)
  }

  function PhasesTotal(ps: seq<Phase>): nat
  {
    if ps == [] then 0 else WeeksTotal(ps[0].weeks) + PhasesTotal(ps[1..])
  }

  /** The number of tasks shown completed (truthy flag) over a list of days. */
  function DaysCompleted(ds: seq<Day>): nat
  {
    if ds == [] then 0 else |Filter(ds[0].tasks, IsDone)| + DaysCompleted(ds[1..])
  }

  function WeeksCompleted(ws: seq<Week>): nat
  {
    if ws == [] then 0 else DaysCompleted(ws[0].days) + WeeksCompleted(ws[1..])
  }

  function PhasesCompleted(ps: seq<Phase>): nat
  {
    if ps == [] then 0 else WeeksCompleted(ps[0].weeks) + PhasesCompleted(ps[1..])
  }

  /** `completedTasks` */
  function CompletedTasks(r: Roadmap): nat
  {
    PhasesCompleted(r.phases)
  }

  /** The percentage before `toFixed(2)`; 0 when there are no tasks. */
  function Percentage(r: Roadmap): real
  {
    if TotalTasks(r) > 0 then (CompletedTasks(r) as real) * 100.0 / (TotalTasks(r) as real) else 0.0
  }

  lemma {:induction false} DaysCounts(ds: seq<Day>)
    ensures DaysTotal(ds) == |DayTasks(ds)|
    ensures DaysCompleted(ds) == |Filter(DayTasks(ds), IsDone)|
  {
    if ds != [] {
      DaysCounts(ds[1..]);
      FilterAppend(ds[0].tasks, DayTasks(ds[1..]), IsDone);
    }
  }

  lemma {:induction false} WeeksCounts(ws: seq<Week>)
    ensures WeeksTotal(ws) == |WeekTasks(ws)|
    ensures WeeksCompleted(ws) == |Filter(WeekTasks(ws), IsDone)|
  {
    if ws != [] {
      WeeksCounts(ws[1..]);
      DaysCounts(ws[0].days);
      FilterAppend(DayTasks(ws[0].days), WeekTasks(ws[1..]), IsDone);
    }
  }

  lemma {:induction false} PhasesCounts(ps: seq<Phase>)
    ensures PhasesTotal(ps) == |PhaseTasks(ps)|
    ensures PhasesCompleted(ps) == |Filter(PhaseTasks(ps), IsDone)|
  {
    if ps != [] {
      PhasesCounts(ps[1..]);
      WeeksCounts(ps[0].weeks);
      FilterAppend(WeekTasks(ps[0].weeks), PhaseTasks(ps[1..]), IsDone);
    }
  }

  /** The nested reductions count the flattened task list: all of it, and
      its truthy-`completed` part; so completed never exceeds total. */
  lemma Counts(r: Roadmap)
    ensures TotalTasks(r) == |AllTasks(r)|
    ensures CompletedTasks(r) == |Filter(AllTasks(r), IsDone)|
    ensures CompletedTasks(r) <= TotalTasks(r)
  {
    PhasesCounts(r.phases);
  }

  /** The percentage lies between 0 and 100, is 0 with no tasks, and is 100
      exactly when every one of a non-empty set of tasks is done. */
  lemma PercentageBounds(r: Roadmap)
    ensures 0.0 <= Percentage(r) <= 100.0
    ensures TotalTasks(r) == 0 ==> Percentage(r) == 0.0
    ensures Percentage(r) == 100.0 <==> TotalTasks(r) > 0 && CompletedTasks(r) == TotalTasks(r)
  {
    Counts(r);
    if TotalTasks(r) > 0 {
      var c, t := CompletedTasks(r) as real, TotalTasks(r) as real;
      assert c * 100.0 <= 100.0 * t;
      Percent(c * 100.0, t);
      assert c * 100.0 == 100.0 * t <==> c == t;
    }
  }

  /** `x / t` for `0 <= x <= 100 * t` lies in [0, 100] and is 100 only at the top. */
  lemma Percent(x: real, t: real)
    requires t > 0.0 && 0.0 <= x <= 100.0 * t
    ensures 0.0 <= x / t <= 100.0
    ensures x / t == 100.0 <==> x == 100.0 * t
  {
    assert (x / t) * t == x;
  }

  /** Days without tasks add nothing: dropping them (pruning with a test that
      keeps every task) leaves both counts unchanged. */
  lemma EmptyDaysCountNothing(r: Roadmap, keepAll: Task -> bool)
    requires forall t :: keepAll(t)
    ensures TotalTasks(Prune.PruneRoadmap(r, keepAll)) == TotalTasks(r)
    ensures CompletedTasks(Prune.PruneRoadmap(r, keepAll)) == CompletedTasks(r)
  {
    Prune.PruneRoadmapTasks(r, keepAll);
    FilterAll(AllTasks(r), keepAll);
    Counts(r);
    Counts(Prune.PruneRoadmap(r, keepAll));
  }
}
