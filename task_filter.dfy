/** The completion filter behind the "Filter Tasks" select. */
module TaskFilter {
  import opened Tree
  import opened Seqs
  import opened Prune
  import ProgressBar

  /** The filter test: the task's flag is strictly equal to the boolean
      "the selected value is completed". */
  function KeepFor(value: string): Task -> bool
  {
    (t: Task) => t.completed == Bool(value == "completed")
  }

  /** `handleFilterChange`: the roadmap itself for "all", otherwise a new
      object holding only the pruned phases. Any value other than "all" and
      "completed" selects the incomplete tasks. */
  function HandleFilterChange(r: Roadmap, value: string): (out: Roadmap)
    ensures value == "all" ==> out == r
    ensures value != "all" ==> out.extra == map[]
    ensures value != "all" ==> forall p :: p in out.phases ==> PhasePruned(p, KeepFor(value))
  {
    if value == "all" then r else PruneRoadmap(r, KeepFor(value))
  }

  /** The "completed" filter keeps exactly the tasks whose flag is `true`,
      the "incomplete" one exactly those whose flag is `false`, in order. */
  lemma FilterSelects(r: Roadmap, t: Task)
    ensures t in AllTasks(HandleFilterChange(r, "completed")) <==> t in AllTasks(r) && t.completed == Bool(true)
    ensures t in AllTasks(HandleFilterChange(r, "incomplete")) <==> t in AllTasks(r) && t.completed == Bool(false)
    ensures IsSubsequence(AllTasks(HandleFilterChange(r, "completed")), AllTasks(r))
    ensures IsSubsequence(AllTasks(HandleFilterChange(r, "incomplete")), AllTasks(r))
  {
    PruneRoadmapTasks(r, KeepFor("completed"));
    PruneRoadmapTasks(r, KeepFor("incomplete"));
    FilterMember(AllTasks(r), KeepFor("completed"), t);
    FilterMember(AllTasks(r), KeepFor("incomplete"), t);
  }

  /** A task whose flag is not a boolean survives neither filter. */
  lemma NonBooleanDropped(r: Roadmap, t: Task, value: string)
    requires !t.completed.Bool? && value != "all"
    ensures t !in AllTasks(HandleFilterChange(r, value))
  {
    PruneRoadmapTasks(r, KeepFor(value));
    FilterMember(AllTasks(r), KeepFor(value), t);
  }

  /** With boolean flags only, the two filters split the tasks between them. */
  lemma FiltersPartition(r: Roadmap)
    requires BooleanFlags(r)
    ensures ProgressBar.TotalTasks(HandleFilterChange(r, "completed"))
          + ProgressBar.TotalTasks(HandleFilterChange(r, "incomplete"))
         == ProgressBar.TotalTasks(r)
  {
    var done, open := HandleFilterChange(r, "completed"), HandleFilterChange(r, "incomplete");
    PruneRoadmapTasks(r, KeepFor("completed"));
    PruneRoadmapTasks(r, KeepFor("incomplete"));
    ProgressBar.Counts(r);
    ProgressBar.Counts(done);
    ProgressBar.Counts(open);
    FilterPartition(AllTasks(r), KeepFor("completed"), KeepFor("incomplete"));
  }

  /** The filtered view's progress bar reads 100% under "completed" and
      counts no completed task under "incomplete". */
  lemma FilteredProgress(r: Roadmap)
    ensures var done := HandleFilterChange(r, "completed");
            ProgressBar.CompletedTasks(done) == ProgressBar.TotalTasks(done)
    ensures ProgressBar.CompletedTasks(HandleFilterChange(r, "incomplete")) == 0
  {
    var done, open := HandleFilterChange(r, "completed"), HandleFilterChange(r, "incomplete");
    PruneRoadmapTasks(r, KeepFor("completed"));
    PruneRoadmapTasks(r, KeepFor("incomplete"));
    ProgressBar.Counts(done);
    ProgressBar.Counts(open);
    FilterAll(AllTasks(done), IsDone);
    FilterNone(AllTasks(open), IsDone);
  }

  /** Phases, weeks and days survive exactly when they hold a selected task;
      survivors keep their order and every field but their children, and
      each surviving day holds its selected tasks. */
  lemma FilterKeepsContainers(r: Roadmap, value: string)
    requires value != "all"
    ensures PhasesFrom(HandleFilterChange(r, value).phases, r.phases, KeepFor(value))
  {
    PrunePhasesFrom(r.phases, KeepFor(value));
  }
}
