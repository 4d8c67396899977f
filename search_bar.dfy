/** The case-insensitive task search behind the search box. */
module SearchBar {
  import opened Tree
  import opened Seqs
  import opened Text
  import opened Prune
  import ProgressBar

  /** The search test: the lower-cased description contains the term. */
  function Matches(term: string): Task -> bool
  {
    (t: Task) => Contains(Lower(t.description), term)
  }

  /** `handleSearch`: the term is lower-cased first; an empty term restores
      the roadmap itself, any other term prunes it to the matching tasks. */
  function HandleSearch(r: Roadmap, input: string): (out: Roadmap)
    ensures input == "" ==> out == r
    ensures input != "" ==> out.extra == map[]
    ensures input != "" ==> forall p :: p in out.phases ==> PhasePruned(p, Matches(Lower(input)))
  {
    var term := Lower(input);
    if term == "" then r else PruneRoadmap(r, Matches(term))
  }

  /** A task survives a non-empty search exactly when its lower-cased
      description contains the lower-cased term (`Text.ContainsAt` ties
      `Contains` to an occurrence at some position); so neither the term's
      case nor the description's case matters. */
  lemma SearchSelects(r: Roadmap, input: string, t: Task)
    requires input != ""
    ensures t in AllTasks(HandleSearch(r, input))
        <==> t in AllTasks(r) && Contains(Lower(t.description), Lower(input))
  {
    var term := Lower(input);
    var keep := Matches(term);
    assert HandleSearch(r, input) == PruneRoadmap(r, keep);
    PruneRoadmapTasks(r, keep);
    FilterMember(AllTasks(r), keep, t);
    assert t in AllTasks(HandleSearch(r, input)) <==> t in AllTasks(r) && keep(t);
    assert keep(t) == Contains(Lower(t.description), term);
  }

  /** Two terms equal up to case give the same result. */
  lemma SearchIgnoresTermCase(r: Roadmap, a: string, b: string)
    requires Lower(a) == Lower(b)
    ensures HandleSearch(r, a) == HandleSearch(r, b)
  {
    if a == "" || b == "" {
      assert |a| == |b|;
    }
  }

  /** Re-typing a lower-cased term changes nothing: the search is a function
      of the lower-cased term only. */
  lemma SearchLowerTerm(r: Roadmap, input: string)
    ensures HandleSearch(r, Lower(input)) == HandleSearch(r, input)
  {
    LowerIdempotent(input);
    SearchIgnoresTermCase(r, Lower(input), input);
  }

  /** The result's tasks are a subsequence of the input's: order is kept and
      the task count never grows. */
  lemma SearchNarrows(r: Roadmap, input: string)
    ensures IsSubsequence(AllTasks(HandleSearch(r, input)), AllTasks(r))
    ensures ProgressBar.TotalTasks(HandleSearch(r, input)) <= ProgressBar.TotalTasks(r)
  {
    ProgressBar.Counts(r);
    ProgressBar.Counts(HandleSearch(r, input));
    if input == "" {
      SubsequenceReflexive(AllTasks(r));
    } else {
      PruneRoadmapTasks(r, Matches(Lower(input)));
    }
  }

  /** Phases, weeks and days survive exactly when they hold a matching task,
      in order, with every field but their children copied, and each
      surviving day holds its matching tasks. */
  lemma SearchKeepsContainers(r: Roadmap, input: string)
    requires input != ""
    ensures PhasesFrom(HandleSearch(r, input).phases, r.phases, Matches(Lower(input)))
  {
    PrunePhasesFrom(r.phases, Matches(Lower(input)));
  }
}
