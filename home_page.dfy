/** The tracker's home page: the roadmap as last fetched, the view on display
    (the roadmap itself, or what the search bar or the completion filter made
    of it), and `updateRoadmap`, which every task control calls to write a
    task back: one completion PUT, one POST per id-less note that the
    roadmap does not already hold, then a refetch that replaces both the
    roadmap and the view. Any throw is caught inside `updateRoadmap`, which
    leaves both state variables as they were. */
module HomePage {
  import opened Wrappers
  import opened Seqs
  import opened Tree
  import opened Batch
  import opened Http
  import TaskFilter
  import SearchBar
  import Prune

  /** The `updatedTask` argument, as far as `updateRoadmap` reads it. A
      payload with no `completed` field carries `Undefined`. */
  datatype Payload = Payload(id: int, completed: Flag, notes: Notes)

  /*** Finding the task whose notes are already stored ***/

  /** Indexing the tree at phase, week, day and task positions; a position
      out of range yields `undefined`, and reading a field of that throws. */
  function TaskAt(r: Roadmap, pi: int, wi: int, di: int, ti: int): Option<Task>
  {
    if !(0 <= pi < |r.phases|) then None
    else
      var ws := r.phases[pi].weeks;
      if !(0 <= wi < |ws|) then None
      else
        var ds := ws[wi].days;
        if !(0 <= di < |ds|) then None
        else
          var ts := ds[di].tasks;
          if !(0 <= ti < |ts|) then None else Some(ts[ti])
  }

  /** A task found by position is a task of that tree. */
  lemma TaskAtIsTask(r: Roadmap, pi: int, wi: int, di: int, ti: int)
    requires TaskAt(r, pi, wi, di, ti).Some?
    ensures TaskAt(r, pi, wi, di, ti).value in AllTasks(r)
  {
    var p := r.phases[pi];
    var w := p.weeks[wi];
    var d := w.days[di];
    var t := d.tasks[ti];
    DayTasksMember(w.days, t);
    WeekTasksMember(p.weeks, t);
    PhaseTasksMember(r.phases, t);
  }

  /** As written: the stored notes of the task the control belongs to, read
      from the whole roadmap at the positions the task has in the VIEW. */
  function StoredNotesAt(r: Roadmap, pi: int, wi: int, di: int, ti: int): (n: Option<Notes>)
    ensures n.Some? <==> TaskAt(r, pi, wi, di, ti).Some?
    ensures n.Some? ==> exists t :: t in AllTasks(r) && t.notes == n.value
  {
    match TaskAt(r, pi, wi, di, ti)
    case None => None
    case Some(t) => TaskAtIsTask(r, pi, wi, di, ti); Some(t.notes)
  }

  /** The first task of `ts` with the given id. */
  function FindIn(ts: seq<Task>, id: int): (r: Option<Task>)
    ensures r.Some? ==> r.value in ts && r.value.id == id
    ensures r.None? <==> forall t :: t in ts ==> t.id != id
  {
    if ts == [] then None
    else if ts[0].id == id then Some(ts[0])
    else FindIn(ts[1..], id)
  }

  /** No two tasks of the tree share an id (true of every tree the server
      assembles, whose ids come from one sequence). */
  predicate UniqueIds(ts: seq<Task>)
  {
    forall i, j :: 0 <= i < |ts| && 0 <= j < |ts| && ts[i].id == ts[j].id ==> i == j
  }

  /** With unique ids, a task is found by its own id. */
  lemma {:induction false} FindInFinds(ts: seq<Task>, t: Task)
    requires UniqueIds(ts) && t in ts
    ensures FindIn(ts, t.id) == Some(t)
  {
    if ts[0] != t {
      var j :| 0 <= j < |ts| && ts[j] == t;
      assert j != 0;
      assert ts[0].id != t.id;
      assert t in ts[1..] by { assert ts[1..][j - 1] == t; }
      assert UniqueIds(ts[1..]) by {
        forall i, k | 0 <= i < |ts[1..]| && 0 <= k < |ts[1..]| && ts[1..][i].id == ts[1..][k].id
          ensures i == k
        {
          assert ts[i + 1].id == ts[k + 1].id;
        }
      }
      FindInFinds(ts[1..], t);
    }
  }

  /** Corrected: the stored notes of the task with the payload's id. */
  function StoredNotes(r: Roadmap, id: int): (n: Option<Notes>)
    ensures n.Some? <==> exists t :: t in AllTasks(r) && t.id == id
    ensures n.Some? ==> exists t :: t in AllTasks(r) && t.id == id && t.notes == n.value
  {
    match FindIn(AllTasks(r), id)
    case None => None
    case Some(t) => Some(t.notes)
  }

  /** The corrected lookup finds the very task a control shows, whatever
      view it is shown in, as long as the view's tasks come from the
      roadmap and ids are unique. */
  lemma ShownTaskFound(r: Roadmap, view: Roadmap, pi: int, wi: int, di: int, ti: int)
    requires forall t :: t in AllTasks(view) ==> t in AllTasks(r)
    requires UniqueIds(AllTasks(r))
    requires TaskAt(view, pi, wi, di, ti).Some?
    ensures StoredNotes(r, TaskAt(view, pi, wi, di, ti).value.id) == Some(TaskAt(view, pi, wi, di, ti).value.notes)
  {
    var t := TaskAt(view, pi, wi, di, ti).value;
    TaskAtIsTask(view, pi, wi, di, ti);
    FindInFinds(AllTasks(r), t);
  }

  /** A roadmap where the completion filter moves a task to other positions:
      phase 0 holds one open task, phase 1 two completed ones. */
  function ShiftedRoadmap(): Roadmap
  {
    var open := Task(1, 1, "read", Bool(false), EmptyNotes);
    var done1 := Task(2, 2, "write", Bool(true), EmptyNotes);
    var done2 := Task(3, 2, "test", Bool(true), EmptyNotes);
    Roadmap([Phase(1, "one", [Week(1, 1, "w1", [Day(1, 1, "d1", [open])])]),
             Phase(2, "two", [Week(2, 2, "w2", [Day(2, 2, "d2", [done1, done2])])])],
            map[])
  }

  /** Under the "completed" filter the second completed task is shown at
      positions (0, 0, 0, 1); the roadmap has no task there, so the
      as-written lookup throws and the notes of that task are never sent,
      while the corrected lookup finds the task. */
  lemma StoredNotesAtMisses()
    ensures var r := ShiftedRoadmap();
            var view := TaskFilter.HandleFilterChange(r, "completed");
            TaskAt(view, 0, 0, 0, 1) == Some(Task(3, 2, "test", Bool(true), EmptyNotes))
            && StoredNotesAt(r, 0, 0, 0, 1) == None
            && StoredNotes(r, 3) == Some(EmptyNotes)
  {
    ShiftedView();
    ShiftedTasks();
  }

  /** The "completed" view of `ShiftedRoadmap` keeps only its second phase. */
  lemma ShiftedView()
    ensures var r := ShiftedRoadmap();
            TaskFilter.HandleFilterChange(r, "completed").phases == [r.phases[1]]
  {
    var r := ShiftedRoadmap();
    var keep := TaskFilter.KeepFor("completed");
    var w2 := r.phases[1].weeks;
    assert Prune.PruneDays(r.phases[0].weeks[0].days, keep) == [];
    assert Prune.PruneWeeks(r.phases[0].weeks, keep) == [];
    assert Filter(w2[0].days[0].tasks, keep) == w2[0].days[0].tasks;
    assert Prune.PruneDays(w2[0].days, keep) == w2[0].days;
    assert Prune.PruneWeeks(w2, keep) == w2;
    assert Prune.PrunePhases(r.phases, keep) == [r.phases[1]];
  }

  /** The tasks of `ShiftedRoadmap` in document order. */
  lemma ShiftedTasks()
    ensures var r := ShiftedRoadmap();
            AllTasks(r) == r.phases[0].weeks[0].days[0].tasks + r.phases[1].weeks[0].days[0].tasks
  {
    var r := ShiftedRoadmap();
    var w1 := r.phases[0].weeks;
    var w2 := r.phases[1].weeks;
    assert DayTasks(w1[0].days) == w1[0].days[0].tasks;
    assert WeekTasks(w1) == w1[0].days[0].tasks;
    assert DayTasks(w2[0].days) == w2[0].days[0].tasks;
    assert WeekTasks(w2) == w2[0].days[0].tasks;
    assert PhaseTasks(r.phases[1..]) == w2[0].days[0].tasks;
    assert AllTasks(r) == w1[0].days[0].tasks + w2[0].days[0].tasks;
  }

  /*** The new-note diff ***/

  /** The stored list holds a note with the same content and the same id. */
  predicate Known(stored: seq<NoteItem>, item: NoteItem)
  {
    exists i :: 0 <= i < |stored| && stored[i].content == item.content && stored[i].id == item.id
  }

  /** The submitted notes of one category that the stored list lacks, in
      submission order. */
  function NewNotes(stored: seq<NoteItem>, items: seq<NoteItem>): seq<NoteItem>
  {
    Filter(items, (item: NoteItem) => !Known(stored, item))
  }

  /** A note is new exactly when it is submitted and no stored note of that
      category has both its content and its id; as notes carry nothing else,
      that is: the note is not stored. New notes keep their order. */
  lemma NewNotesSpec(stored: seq<NoteItem>, items: seq<NoteItem>, n: NoteItem)
    ensures n in NewNotes(stored, items) <==> n in items && !Known(stored, n)
    ensures Known(stored, n) <==> n in stored
    ensures IsSubsequence(NewNotes(stored, items), items)
  {
    FilterMember(items, (item: NoteItem) => !Known(stored, item), n);
    FilterIsSubsequence(items, (item: NoteItem) => !Known(stored, item));
    if n in stored {
      var i :| 0 <= i < |stored| && stored[i] == n;
      assert stored[i].content == n.content && stored[i].id == n.id;
    }
  }

  /** The POSTs for one category's new notes: one per note without an id, in
      order, carrying the note's content. */
  function CategoryPosts(taskId: int, c: Category, ns: seq<NoteItem>): seq<Request>
  {
    if ns == [] then []
    else
      var n := ns[|ns| - 1];
      CategoryPosts(taskId, c, ns[..|ns| - 1]) + (if HasId(n) then [] else [PostNote(taskId, c, n.content)])
  }

  /** Every POST of a category is for that task and category, and a content
      is posted exactly when some note without an id carries it. */
  lemma {:induction false} CategoryPostsSpec(taskId: int, c: Category, ns: seq<NoteItem>, q: Request, content: string)
    ensures q in CategoryPosts(taskId, c, ns) ==> q.PostNote? && q.taskId == taskId && q.category == c
    ensures PostNote(taskId, c, content) in CategoryPosts(taskId, c, ns)
        <==> exists n :: n in ns && !HasId(n) && n.content == content
    ensures |CategoryPosts(taskId, c, ns)| <= |ns|
  {
    if ns != [] {
      var init := ns[..|ns| - 1];
      CategoryPostsSpec(taskId, c, init, q, content);
      assert forall n :: n in ns <==> n in init || n == ns[|ns| - 1];
    }
  }

  /** One more note's POST, if it has no id. */
  lemma CategoryPostsStep(taskId: int, c: Category, ns: seq<NoteItem>, j: nat)
    requires j < |ns|
    ensures CategoryPosts(taskId, c, ns[..j + 1])
         == CategoryPosts(taskId, c, ns[..j]) + (if HasId(ns[j]) then [] else [PostNote(taskId, c, ns[j].content)])
  {
    assert ns[..j + 1][..j] == ns[..j];
  }

  lemma {:induction false} CategoryPostsPrefix(taskId: int, c: Category, ns: seq<NoteItem>, j: nat)
    requires j <= |ns|
    ensures CategoryPosts(taskId, c, ns[..j]) <= CategoryPosts(taskId, c, ns)
    decreases |ns| - j
  {
    if j < |ns| {
      CategoryPostsPrefix(taskId, c, ns, j + 1);
      assert ns[..j + 1][..j] == ns[..j];
    } else {
      assert ns[..j] == ns;
    }
  }

  /** The POSTs of the first `k` categories, in the order of the notes
      record's keys. */
  function NotePosts(stored: Notes, p: Payload, k: nat): seq<Request>
    requires k <= |Categories|
  {
    if k == 0 then []
    else
      var c := Categories[k - 1];
      NotePosts(stored, p, k - 1) + CategoryPosts(p.id, c, NewNotes(stored.Get(c), p.notes.Get(c)))
  }

  lemma {:induction false} NotePostsPrefix(stored: Notes, p: Payload, k: nat)
    requires k <= |Categories|
    ensures NotePosts(stored, p, k) <= NotePosts(stored, p, |Categories|)
    decreases |Categories| - k
  {
    if k < |Categories| {
      NotePostsPrefix(stored, p, k + 1);
    }
  }

  /** Every request `updateRoadmap` issues when nothing fails, given what the
      lookup of the stored notes yields: the completion PUT; when the lookup
      succeeds, the note POSTs and the refetch. */
  function Requests(found: Option<Notes>, p: Payload): seq<Request>
  {
    [PutTask(p.id, p.completed)]
    + match found
      case None => []
      case Some(stored) => NotePosts(stored, p, |Categories|) + [GetRoadmap]
  }

  /** The refetch arrives and parses: every request got through, the lookup
      succeeded and the response body is a roadmap. */
  predicate Synced(found: Option<Notes>, p: Payload, okLeft: Option<nat>, fetched: Option<Roadmap>)
  {
    found.Some? && Fits(okLeft, |Requests(found, p)|) && fetched.Some?
  }

  /** The completion PUT comes first and only once, every POST comes before
      the refetch, and the refetch is last. */
  lemma {:induction false} PutFirst(found: Option<Notes>, p: Payload)
    ensures Requests(found, p)[0] == PutTask(p.id, p.completed)
    ensures forall i :: 0 < i < |Requests(found, p)| ==> !Requests(found, p)[i].PutTask?
    ensures forall i :: 0 <= i < |Requests(found, p)| - 1 ==> !Requests(found, p)[i].GetRoadmap?
  {
    var q := Requests(found, p);
    match found
    case None =>
    case Some(stored) =>
      var posts := NotePosts(stored, p, |Categories|);
      forall i | 0 <= i < |posts|
        ensures posts[i].PostNote?
      {
        NotePostsOnly(stored, p, |Categories|, posts[i]);
      }
      assert q == [PutTask(p.id, p.completed)] + posts + [GetRoadmap];
  }

  lemma {:induction false} NotePostsOnly(stored: Notes, p: Payload, k: nat, q: Request)
    requires k <= |Categories|
    ensures q in NotePosts(stored, p, k) ==> q.PostNote? && q.taskId == p.id
  {
    if k > 0 {
      var c := Categories[k - 1];
      NotePostsOnly(stored, p, k - 1, q);
      CategoryPostsSpec(p.id, c, NewNotes(stored.Get(c), p.notes.Get(c)), q, "");
    }
  }

  /** The notes of a category that the diff posts: new, without an id. */
  predicate Posted(stored: Notes, p: Payload, c: Category, content: string)
  {
    exists n :: n in p.notes.Get(c) && !Known(stored.Get(c), n) && !HasId(n) && n.content == content
  }

  /** The position of a category among the notes record's keys. */
  function Position(c: Category): (i: nat)
    ensures i < |Categories| && Categories[i] == c
  {
    match c
    case ToBeDone => 0
    case ToBePracticed => 1
    case ToBeSearched => 2
    case ToBeUsedAsReference => 3
  }

  /** The POSTs of category `d` hold a given content for category `c`
      exactly when `c` is `d` and that content is posted for it. */
  lemma CategoryPostsIn(stored: Notes, p: Payload, d: Category, c: Category, content: string)
    ensures PostNote(p.id, c, content) in CategoryPosts(p.id, d, NewNotes(stored.Get(d), p.notes.Get(d)))
        <==> c == d && Posted(stored, p, c, content)
  {
    var unseen := NewNotes(stored.Get(d), p.notes.Get(d));
    CategoryPostsSpec(p.id, d, unseen, PostNote(p.id, c, content), content);
    forall n ensures n in unseen <==> n in p.notes.Get(d) && !Known(stored.Get(d), n) {
      NewNotesSpec(stored.Get(d), p.notes.Get(d), n);
    }
  }

  lemma {:induction false} NotePostsSpec(stored: Notes, p: Payload, k: nat, c: Category, content: string)
    requires k <= |Categories|
    ensures PostNote(p.id, c, content) in NotePosts(stored, p, k)
        <==> Position(c) < k && Posted(stored, p, c, content)
  {
    if k > 0 {
      NotePostsSpec(stored, p, k - 1, c, content);
      CategoryPostsIn(stored, p, Categories[k - 1], c, content);
    }
  }

  /** A note is POSTed exactly when the lookup succeeds, and the note is
      submitted without an id under some category whose list the lookup
      yielded lacks it; every POST is for the payload's task. */
  lemma PostsExactly(found: Option<Notes>, p: Payload, c: Category, content: string)
    ensures PostNote(p.id, c, content) in Requests(found, p)
        <==> found.Some? && Posted(found.value, p, c, content)
    ensures forall q :: q in Requests(found, p) && q.PostNote? ==> q.taskId == p.id
  {
    match found
    case None =>
    case Some(stored) =>
      NotePostsSpec(stored, p, |Categories|, c, content);
      forall q | q in Requests(found, p) && q.PostNote?
        ensures q.taskId == p.id
      {
        NotePostsOnly(stored, p, |Categories|, q);
      }
  }

  /** The request list with the lookup's outcome spelled out. */
  lemma RequestsShape(found: Option<Notes>, p: Payload)
    ensures found.None? ==> Requests(found, p) == [PutTask(p.id, p.completed)]
    ensures found.Some? ==>
      Requests(found, p) == [PutTask(p.id, p.completed)] + NotePosts(found.value, p, |Categories|) + [GetRoadmap]
  {
  }

  /** A tree lies within itself; stated apart for `UpdateRoadmap`, which
      hides the body of `Within`. */
  lemma WithinItself(r: Roadmap)
    ensures Within(r, r)
  {
  }

  /** One more category's POSTs. */
  lemma NotePostsStep(stored: Notes, p: Payload, k: nat)
    requires k < |Categories|
    ensures NotePosts(stored, p, 0) == []
    ensures NotePosts(stored, p, k + 1)
         == NotePosts(stored, p, k) + CategoryPosts(p.id, Categories[k], NewNotes(stored.Get(Categories[k]), p.notes.Get(Categories[k])))
  {
  }

  /*** What the task controls submit ***/

  /** Resubmitting the stored list finds nothing new. */
  lemma NewNotesSelf(stored: seq<NoteItem>)
    ensures NewNotes(stored, stored) == []
  {
    forall n | n in stored
      ensures !(n !in stored)
    {
    }
    forall n | n in stored
      ensures !(!Known(stored, n))
    {
      NewNotesSpec(stored, stored, n);
    }
    FilterNone(stored, (item: NoteItem) => !Known(stored, item));
  }

  /** Resubmitting the stored list with one unstored note appended finds
      exactly that note new. */
  lemma NewNotesAppended(stored: seq<NoteItem>, n: NoteItem)
    requires n !in stored
    ensures NewNotes(stored, stored + [n]) == [n]
  {
    FilterAppend(stored, [n], (item: NoteItem) => !Known(stored, item));
    NewNotesSelf(stored);
    NewNotesSpec(stored, [n], n);
    assert NewNotes(stored, [n]) == [n];
  }

  /** Notes that all carry an id are never posted. */
  lemma {:induction false} CategoryPostsNone(taskId: int, c: Category, ns: seq<NoteItem>)
    requires forall n :: n in ns ==> HasId(n)
    ensures CategoryPosts(taskId, c, ns) == []
  {
    if ns != [] {
      CategoryPostsNone(taskId, c, ns[..|ns| - 1]);
    }
  }

  /** When only category `c` differs from what is stored, only `c` can
      yield POSTs. */
  lemma {:induction false} NotePostsOnlyIn(stored: Notes, p: Payload, c: Category, k: nat)
    requires k <= |Categories|
    requires forall d :: d != c ==> p.notes.Get(d) == stored.Get(d)
    ensures NotePosts(stored, p, k)
         == if Position(c) < k then CategoryPosts(p.id, c, NewNotes(stored.Get(c), p.notes.Get(c))) else []
  {
    hide NotePosts, CategoryPosts, NewNotes;
    if k == 0 {
      NotePostsStep(stored, p, 0);
    } else {
      var d := Categories[k - 1];
      CategoryPostsNone(p.id, d, []);
      NotePostsStep(stored, p, k - 1);
      NotePostsOnlyIn(stored, p, c, k - 1);
      if d != c {
        assert Position(c) != k - 1;
        NewNotesSelf(stored.Get(d));
      } else {
        assert Position(c) == k - 1;
      }
    }
  }

  /** A payload whose notes all carry ids yields no POST. */
  lemma {:induction false} NotePostsNone(stored: Notes, p: Payload, k: nat)
    requires k <= |Categories|
    requires forall d, n :: n in p.notes.Get(d) ==> HasId(n)
    ensures NotePosts(stored, p, k) == []
  {
    if k > 0 {
      var d := Categories[k - 1];
      NotePostsNone(stored, p, k - 1);
      var unseen := NewNotes(stored.Get(d), p.notes.Get(d));
      forall n | n in unseen
        ensures HasId(n)
      {
        NewNotesSpec(stored.Get(d), p.notes.Get(d), n);
      }
      CategoryPostsNone(p.id, d, unseen);
    }
  }

  /*** The page ***/

  /** Every task of `view` is a task of `r`. */
  predicate Within(view: Roadmap, r: Roadmap)
  {
    forall t :: t in AllTasks(view) ==> t in AllTasks(r)
  }

  /** The outcome of `updateRoadmap` called with `p` when the page held
      `r0` and `f0`, the lookup of the stored notes yielded `found`, and the
      network had delivered `s0` with `k0` requests left: the requests of
      `Requests(found, p)` delivered in order up to the first failure, and
      both state variables replaced by the refetched tree when everything
      succeeded, unchanged otherwise. */
  predicate UpdatedFrom(found: Option<Notes>, r0: Roadmap, f0: Roadmap, s0: seq<Request>, k0: Option<nat>,
                        h: Home, net: Network, p: Payload, fetched: Option<Roadmap>)
    reads h, net
  {
    && net.sent == s0 + Written(k0, Requests(found, p))
    && net.okLeft == Spend(k0, |Written(k0, Requests(found, p))|)
    && (Synced(found, p, k0, fetched) ==> h.roadmap == fetched.value && h.filtered == fetched.value)
    && (!Synced(found, p, k0, fetched) ==> h.roadmap == r0 && h.filtered == f0)
  }

  class Home {
    /** `roadmap`: the tree as last fetched. */
    var roadmap: Roadmap
    /** `filteredRoadmap`: the tree on display. */
    var filtered: Roadmap

    /** Every task on display is a task of the roadmap. */
    predicate Valid()
      reads this
    {
      Within(filtered, roadmap)
    }

    /** The first load: both state variables hold the fetched tree. */
    constructor(loaded: Roadmap)
      ensures roadmap == loaded && filtered == loaded && Valid()
    {
      roadmap := loaded;
      filtered := loaded;
    }

    /** The search bar's change handler replaces the view by the search
      result over the roadmap. */
    method Search(input: string)
      modifies this
      ensures roadmap == old(roadmap) && filtered == SearchBar.HandleSearch(roadmap, input)
      ensures Valid()
    {
      filtered := SearchBar.HandleSearch(roadmap, input);
      forall t | t in AllTasks(filtered)
        ensures t in AllTasks(roadmap)
      {
        if input != "" {
          SearchBar.SearchSelects(roadmap, input, t);
        }
      }
    }

    /** The completion filter's change handler replaces the view by the
      filtered roadmap. */
    method FilterBy(value: string)
      modifies this
      ensures roadmap == old(roadmap) && filtered == TaskFilter.HandleFilterChange(roadmap, value)
      ensures Valid()
    {
      filtered := TaskFilter.HandleFilterChange(roadmap, value);
      forall t | t in AllTasks(filtered)
        ensures t in AllTasks(roadmap)
      {
        if value != "all" {
          Prune.PruneRoadmapTasks(roadmap, TaskFilter.KeepFor(value));
          FilterMember(AllTasks(roadmap), TaskFilter.KeepFor(value), t);
        }
      }
    }

    /** `updateRoadmap`, as `UpdatedFrom` states it; it never throws. The
      stored notes are looked up, as written, in the roadmap at the
      positions `pi`, `wi`, `di`, `ti` the task has in the view on display.
      `fetched` is the body the refetch parses to, `None` when it is not
      JSON. */
    method UpdateRoadmap(net: Network, pi: int, wi: int, di: int, ti: int, p: Payload, fetched: Option<Roadmap>)
      modifies this, net
      ensures UpdatedFrom(StoredNotesAt(old(roadmap), pi, wi, di, ti), old(roadmap), old(filtered),
                          old(net.sent), old(net.okLeft), this, net, p, fetched)
      ensures old(Valid()) ==> Valid()
    {
      ghost var stored := StoredNotesAt(roadmap, pi, wi, di, ti);
      hide Requests, NotePosts, StoredNotesAt, Within, Written, Spend;
      ghost var k0, s0 := net.okLeft, net.sent;
      ghost var full := Requests(stored, p);
      RequestsShape(stored, p);
      var put := PutTask(p.id, p.completed);
      var ok := net.Fetch(put);
      if !ok {
        SendStops(k0, [], full);
        return;
      }
      SendOne(k0, [], put);
      ok := PostNotes(net, roadmap, pi, wi, di, ti, p);
      if !ok {
        if stored.Some? {
          SendStep(k0, [put], NotePosts(stored.value, p, |Categories|), full);
        }
        return;
      }
      ghost var posts := NotePosts(stored.value, p, |Categories|);
      SendStep(k0, [put], posts, full);
      ghost var done := [put] + posts;
      ok := net.Fetch(GetRoadmap);
      if !ok {
        SendStops(k0, done, full);
        return;
      }
      SendOne(k0, done, GetRoadmap);
      if fetched.None? {
        return;
      }
      roadmap := fetched.value;
      filtered := fetched.value;
      WithinItself(fetched.value);
    }
  }

  /** The outer loop of `updateRoadmap`: per category, read the stored
      notes at the view positions, then post the new notes; positions the
      roadmap lacks throw at the first category, before any POST. */
  method PostNotes(net: Network, r: Roadmap, pi: int, wi: int, di: int, ti: int, p: Payload) returns (ok: bool)
    modifies net
    ensures StoredNotesAt(r, pi, wi, di, ti).None? ==> !ok && net.sent == old(net.sent) && net.okLeft == old(net.okLeft)
    ensures StoredNotesAt(r, pi, wi, di, ti).Some? ==>
      var posts := NotePosts(StoredNotesAt(r, pi, wi, di, ti).value, p, |Categories|);
      ok == Fits(old(net.okLeft), |posts|) &&
      net.sent == old(net.sent) + Written(old(net.okLeft), posts) &&
      net.okLeft == Spend(old(net.okLeft), |Written(old(net.okLeft), posts)|)
  {
    hide NotePosts, CategoryPosts, NewNotes, StoredNotesAt, Written, Spend;
    ghost var k0, s0 := net.okLeft, net.sent;
    ghost var stored := StoredNotesAt(r, pi, wi, di, ti);
    ghost var done: seq<Request> := [];
    if stored.Some? {
      NotePostsStep(stored.value, p, 0);
    }
    var k := 0;
    while k < |Categories|
      invariant 0 <= k <= |Categories|
      invariant stored.Some? ==> done == NotePosts(stored.value, p, k)
      invariant stored.None? ==> k == 0 && done == []
      invariant Fits(k0, |done|) && net.sent == s0 + done && net.okLeft == Spend(k0, |done|)
    {
      var c := Categories[k];
      var found := StoredNotesAt(r, pi, wi, di, ti);
      if found.None? {
        // reading `notes` of a missing task throws
        return false;
      }
      var unseen := NewNotes(found.value.Get(c), p.notes.Get(c));
      ghost var one := CategoryPosts(p.id, c, unseen);
      NotePostsStep(found.value, p, k);
      NotePostsPrefix(found.value, p, k + 1);
      SendStep(k0, done, one, NotePosts(stored.value, p, |Categories|));
      ok := PostCategory(net, p.id, c, unseen);
      if !ok {
        return;
      }
      done := done + one;
      k := k + 1;
    }
    ok := true;
  }

  /** The inner loop of `updateRoadmap`: one POST per new note without an
      id, stopping at the first that fails. */
  method PostCategory(net: Network, taskId: int, c: Category, ns: seq<NoteItem>) returns (ok: bool)
    modifies net
    ensures ok == Fits(old(net.okLeft), |CategoryPosts(taskId, c, ns)|)
    ensures net.sent == old(net.sent) + Written(old(net.okLeft), CategoryPosts(taskId, c, ns))
    ensures net.okLeft == Spend(old(net.okLeft), |Written(old(net.okLeft), CategoryPosts(taskId, c, ns))|)
  {
    assert CategoryPosts(taskId, c, ns[..0]) == [] by {
      assert ns[..0] == [];
    }
    hide CategoryPosts;
    ghost var k0, s0 := net.okLeft, net.sent;
    ghost var full := CategoryPosts(taskId, c, ns);
    ghost var done: seq<Request> := [];
    var j := 0;
    while j < |ns|
      invariant 0 <= j <= |ns|
      invariant done == CategoryPosts(taskId, c, ns[..j])
      invariant Fits(k0, |done|) && net.sent == s0 + done && net.okLeft == Spend(k0, |done|)
    {
      CategoryPostsStep(taskId, c, ns, j);
      if !HasId(ns[j]) {
        var post := PostNote(taskId, c, ns[j].content);
        CategoryPostsPrefix(taskId, c, ns, j + 1);
        ok := net.Fetch(post);
        if !ok {
          SendStops(k0, done, full);
          return;
        }
        SendOne(k0, done, post);
        done := done + [post];
      }
      j := j + 1;
    }
    assert ns[..|ns|] == ns;
    ok := true;
  }
}
