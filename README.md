# LetsLearn roadmap tracker — a Dafny model

LetsLearn tracks progress through a learning roadmap. The roadmap is nested:
phases hold weeks, weeks hold days, days hold tasks. Every task carries a
`completed` flag and a notes record with four fixed categories:
`to_be_done`, `to_be_practiced`, `to_be_searched` and
`to_be_used_as_reference`.

This project models four parts of the program.

- **The Express backend** (`backend/server.js`). Its Postgres tables are
  modelled as sequences of rows in insertion order, and every unordered
  `SELECT` is taken to return them in that order, which becomes the order
  of the tree the backend sends. A task's `completed` column may be `NULL`,
  which the backend sends as `null`.
  - The write handlers are methods on a `Database` object. They cover
    completion updates and note creation, editing and deletion, each with
    its 400/404/500 outcomes.
  - `GET /api/roadmap` is modelled by the loops that assemble the tree and
    bucket the note rows. They are proved against a specification function,
    `Assemble`.
  - `POST /api/populate` walks the bundled roadmap. It runs without a
    transaction, so a write that throws leaves every earlier row in place.
- **The Next.js roadmap API** (`src/pages/api/roadmaps.js`). It covers
  `handler` and the upload `POST`. Both validate the body and then run a
  nested insert inside `BEGIN`/`COMMIT`.
  - Each child row points to the id its parent's insert returned.
  - Any throw triggers `ROLLBACK`, which restores the rows but not the ids
    already handed out.
  - The pooled client is released on every path.
- **The pure client transforms.** These are the completion filter, the
  case-insensitive search and the progress counts. All three are functions
  on the tree, with lemmas about pruning, order, selection and counting.
- **The client write path.**
  - The home page (`src/pages/index.js`) is a class holding `roadmap` and
    `filteredRoadmap`. Its `updateRoadmap` sends a completion PUT, then one
    POST per new note without an id, then a refetch that replaces both state
    variables. The stored notes it compares against are read, as written,
    from `roadmap` at the positions the task has in the view on display.
  - The task card (`Task.js`) is a class with access gates, an add-note
    draft per category and delete handling.
  - The note editor (`NoteEditor.js`) is a class with edit mode, content and
    an error line.

Faults are modelled by one oracle, `Option<nat>`, shared by the database and
the browser's network. `Some(k)` means `k` more writes or requests succeed
and the next one throws. `None` means nothing fails.

Two modelling choices apply throughout.

- **Ids.** Postgres gives every table its own serial sequence. The model
  uses one counter shared by all tables. Only freshness and order matter to
  the properties proved, and one counter preserves both.
- **Access.** The `access` string is modelled as `Option<string>`, where
  `None` stands for `undefined`. The home page renders its phases without an
  `access` value (`src/pages/index.js:72`). The day list also drops it before
  the task card (`src/components/Day.js:17`). So the gates exist but are
  never triggered in the current wiring.

Where the specification and the code disagree, the model follows the code.
The disagreements are:

- Roadmap creation checks only a truthy `title` and an array `phases`. It
  does not validate the tree recursively.
- A failed transaction answers 400 in `handler` and 500 in the upload path.
- Completion is one shared `completed` column. It is not a per-user upsert.
- No handler in these files checks ownership or access before a write.

The code also behaves in ways that are easy to miss.

- `updateRoadmap` catches every error. As a result:
  - The `catch` branches of `handleComplete` and `addNote` can never run.
  - `addNote` clears the draft whether or not the note reached the server.
- The note editor sends its payload without a `completed` field. The
  completion PUT therefore carries `{}`, and the server refuses it with 400.
  The refetch follows when the lookup of the stored notes at the editor's
  view positions succeeds; when it fails, nothing is sent after the PUT.
- The editor computes an `updatedNotes` value and never uses it.
- The editor and the delete button call `/api/notes/:id` with a relative
  URL. That path is served by the Next.js application, not by the Express
  backend. The browser-side model only records the request it sends.

## Model

| member | source | states |
|---|---|---|
| Tree.ParseCategory | backend/server.js:88 | a key names a category exactly when it is one of the four category names |
| Text.TrimEmptyIffBlank | backend/server.js:91 | `trim()` yields the empty string exactly for strings made of whitespace only |
| Text.LowerIdempotent | src/components/SearchBar.js:7 | lower-casing a lower-cased term changes nothing |
| Text.ContainsAt | src/components/SearchBar.js:22 | `includes` holds exactly when the term occurs at some position of the description |
| Batch.Written | backend/server.js:151-180 | the written part of a command list is a prefix of it; the whole list is written exactly when the oracle allows it; otherwise exactly as many commands are written as the oracle allows |
| Batch.RunStops | backend/server.js:151-180 | once a prefix of a walk overruns the oracle, nothing after it is attempted and the whole walk reports failure |
| Batch.RunStep | backend/server.js:151-175 | one more step of a nested walk either is written whole, extending the store, or ends the walk with the store of the whole plan |
| Batch.RunAppend | backend/server.js:151-175 | running a fully written prefix and then the rest is the same as running both together |
| ServerTables.ApplyValid | backend/server.js:152-169 | an insert whose parent row exists, given the next fresh id, keeps every foreign key resolving and every id below the counter, and removes no row |
| ServerTables.SetCompleted | backend/server.js:73 | the update changes the `completed` flag of exactly the rows with that id; all other rows and the row order stay the same |
| ServerTables.SetCompletedAbsent | backend/server.js:73-76 | when no task row has the id, the completion update changes nothing |
| ServerTables.SetCompletedValid | backend/server.js:73 | a completion update keeps the tables consistent |
| ServerTables.SetCompletedIds | backend/server.js:73 | a completion update keeps the set of task ids |
| ServerTables.SetContent | backend/server.js:115 | the update changes the content of exactly the note rows with that id; all other rows and the row order stay the same |
| ServerTables.SetContentAbsent | backend/server.js:115-118 | when no note row has the id, the content update changes nothing |
| ServerTables.SetContentValid | backend/server.js:115 | a content update keeps the tables consistent |
| ServerTables.DeleteNoteSpec | backend/server.js:130 | deleting keeps exactly the rows with another id, in their order, and shrinks the table exactly when a row had that id |
| ServerTables.DeleteNoteAbsent | backend/server.js:130-133 | when no note row has the id, the delete changes nothing |
| ServerTables.DeleteNoteValid | backend/server.js:130 | deleting note rows keeps the tables consistent |
| ServerTables.ValidCategoryIff | backend/server.js:88-90 | the category check passes exactly for a string naming one of the four categories |
| ServerTables.ValidContentIff | backend/server.js:91-93 | the content check passes exactly for a string with at least one non-whitespace character |
| Server.RunGrows | backend/server.js:151-175 | a run of inserts never removes a row that existed before it |
| Server.Database.Execute | backend/server.js:152-153 | one insert either succeeds, receiving the next id and adding its row, or throws and leaves the store as it was |
| Server.Database.PutTask | backend/server.js:66-82 | a non-boolean flag gives 400 and no change; a failed write gives 500 and no change; otherwise every row with the id gets the flag, and the answer is 200 if such a row existed and 404 (with no row changed) if not |
| Server.Database.PostNote | backend/server.js:85-105 | a bad category gives 400 and then a bad content gives 400, both before any query; a missing task gives 404 with nothing written; otherwise exactly one note row is inserted with the content as sent, 200, or 500 when the write fails |
| Server.Database.PutNote | backend/server.js:108-124 | blank or non-string content gives 400 and no change; otherwise only the rows with that id get the new content, 404 (nothing changed) when there is none, 500 on a failed write |
| Server.Database.DeleteNote | backend/server.js:127-139 | exactly the note rows with that id are removed; 404 with nothing removed when there is none; 500 and no change on a failed write |
| Server.Database.GetRoadmap | backend/server.js:26-63 | the answer is 200 with the assembled tree, or 500 exactly when the bucketing throws |
| Server.Database.Populate | backend/server.js:142-181 | with any phase row present the answer is 400 and nothing is written; otherwise the walk's inserts are written in order until the first throw, which leaves the earlier rows and answers 500 |
| Server.Database.InsertPhases | backend/server.js:151-175 | the loop over phases writes the prefix of the phase plan that the oracle allows, and succeeds exactly when the whole plan fits |
| Server.Database.InsertPhase | backend/server.js:152-154 | a phase row, then the plan of its weeks under the id that row received |
| Server.Database.InsertWeeks | backend/server.js:155-174 | the loop over a phase's weeks writes the allowed prefix of their plan, and the phase keeps existing |
| Server.Database.InsertWeek | backend/server.js:156-158 | a week row under its phase, then the plan of its days under the new id |
| Server.Database.InsertDays | backend/server.js:159-173 | the loop over a week's days writes the allowed prefix of their plan |
| Server.Database.InsertDay | backend/server.js:160-162 | a day row under its week, then the plan of its tasks under the new id |
| Server.Database.InsertTasks | backend/server.js:163-172 | the loop over a day's tasks writes the allowed prefix of their plan |
| Server.Database.InsertTask | backend/server.js:164-166 | a task row under its day, then the plan of its note entries under the new id |
| Server.Database.InsertEntries | backend/server.js:167-171 | the loop over the entries of a task's notes object writes the allowed prefix of their note rows |
| Server.Database.InsertItems | backend/server.js:168-170 | one note row per item, with the entry's key as category, in order |
| ServerAssembly.BucketSucceeds | backend/server.js:51-53 | bucketing succeeds exactly when every note row names one of the four categories |
| ServerAssembly.BucketContents | backend/server.js:45-53 | after bucketing, each category lists exactly that category's rows as `{id, content}`, in row order; a category with no rows is an empty list |
| ServerAssembly.BucketNotes | backend/server.js:45-53 | the `forEach` loop computes the bucketing, failing on the first unknown category |
| ServerAssembly.FillTasks | backend/server.js:43-54 | the loop over a day's task rows computes each task with its bucketed notes, or fails when any does |
| ServerAssembly.FillDays | backend/server.js:39-55 | the loop over a week's day rows computes each day with its tasks, or fails |
| ServerAssembly.FillWeeks | backend/server.js:35-56 | the loop over a phase's week rows computes each week with its days, or fails |
| ServerAssembly.FillPhases | backend/server.js:28-58 | the outer loop computes the whole response tree, or fails |
| ServerAssembly.TaskOfSpec | backend/server.js:40-53 | a task assembles exactly when all its note rows name a category; it then copies the row, carries the `completed` column as JSON, and lists under each category exactly that task's rows of that category, in order |
| ServerAssembly.AssembleSucceeds | backend/server.js:52 | when every note row names one of the four categories, the GET answers with a tree |
| ServerAssembly.AssembleFails | backend/server.js:59-61 | one note row with another category under a task the walk reaches makes the whole GET fail |
| ServerAssembly.AssemblePhases | backend/server.js:28-33 | one phase per phase row, in row order, with its id and title, each holding exactly the week rows with its id |
| ServerAssembly.ColumnFlag | backend/server.js:40-41 | a `completed` column becomes a boolean exactly when it is not `NULL`, that boolean when it is one, and `null`, which is falsy, otherwise |
| ServerAssembly.AssembleFlags | backend/server.js:40-41 | every task the backend sends carries the `completed` column of a task row with its id, so the flags are all booleans exactly as far as no row holds `NULL` |
| ServerPopulate.PlanPrefix | backend/server.js:151-175 | the inserts for the first siblings are a prefix of the inserts for all of them, so a throw cuts the plan at one point |
| ServerPopulate.PlanPhaseTitles | backend/server.js:151-153 | the walk inserts exactly one phase row per phase of the file, with its title, in file order |
| ServerPopulate.EntriesDepth | backend/server.js:167-171 | a task's notes object yields note rows only |
| ServerPopulate.WeeksDepth | backend/server.js:155-174 | a phase's weeks yield only week, day, task and note rows |
| RoadmapsPlan.NotesColumn | src/pages/api/roadmaps.js:56 | the `notes` column holds the JSON text exactly when the task's `notes` is truthy, and NULL otherwise |
| RoadmapsPlan.PlanLinked | src/pages/api/roadmaps.js:32-61 | every row the walk inserts points to its own parent: top rows to the given parent, each deeper row to the id of the nearest earlier insert one level up, with only rows of its own level or below in between |
| RoadmapsPlan.CreateLinked | src/pages/api/roadmaps.js:26-61 | a creation inserts the roadmap row first; every later row points to the nearest earlier insert one level up: phases to the roadmap, each week to the phase walked last, each day to the week walked last, each task to the day walked last |
| RoadmapsPlan.PlanCount | src/pages/api/roadmaps.js:32-61 | the walk over a list of siblings inserts, at each level, exactly as many rows as the sent siblings hold objects of that level |
| RoadmapsPlan.CreateCounts | src/pages/api/roadmaps.js:26-61 | a creation inserts one roadmap row, one phase row per phase, one week row per week of every phase, one day row per day of every week and one task row per task of every day |
| RoadmapsPlan.CountStep | src/pages/api/roadmaps.js:32-61 | one more sibling adds one row at its own level and, below it, what its children hold |
| RoadmapsPlan.PlanSplit | src/pages/api/roadmaps.js:32-61 | the walk's inserts are those of all siblings but the last, then the last one's row at the level's own rank, then the inserts of its children |
| RoadmapsPlan.PlanRankSplit | src/pages/api/roadmaps.js:32-61 | the rows of one level in a non-empty walk are those of the earlier siblings' inserts, the last sibling's own row when it is of that level, and those of its children's inserts |
| RoadmapsPlan.PlanPhaseRows | src/pages/api/roadmaps.js:32-37 | exactly one phase row per phase sent, in order, each pointing to the roadmap |
| RoadmapsPlan.PlanPrefix | src/pages/api/roadmaps.js:32-61 | the inserts for the first siblings are a prefix of the walk's inserts |
| RoadmapsApi.CreatorId | src/pages/api/roadmaps.js:28 | the creator is the user's id when it is truthy, and 1 otherwise |
| RoadmapsApi.Database.Handler | src/pages/api/roadmaps.js:7-75 | GET lists the roadmap rows; other methods than GET and POST get 405; a POST without a truthy title or an array of phases gets 400 before any connection; otherwise 201 with the new roadmap row and every insert written, or 400 with the rows rolled back; the pool gets its client back on every path |
| RoadmapsApi.Database.UploadPost | src/pages/api/roadmaps.js:84-155 | non-POST gets 405; a missing or non-`.json` file, unparsable JSON and a body without title or phases array each get their own 400 with nothing written; otherwise 201 as in `handler`, or 500 with the rows rolled back; the client is always released |
| RoadmapsApi.Database.Create | src/pages/api/roadmaps.js:23-71 | a transaction that commits the whole creation plan exactly when the oracle allows it, and otherwise restores the rows as they were at `BEGIN`; the client is released on both paths |
| RoadmapsApi.Database.Execute | src/pages/api/roadmaps.js:33-37 | one `INSERT … RETURNING` on the transaction's client either succeeds, receiving the next id and adding its row, or throws and leaves the store as it was |
| RoadmapsApi.Database.InsertPhases | src/pages/api/roadmaps.js:32-61 | the loop over phases writes the allowed prefix of their plan and succeeds exactly when it fits |
| RoadmapsApi.Database.InsertPhase | src/pages/api/roadmaps.js:33-60 | a phase row under the roadmap, then the plan of its weeks under the id that row received; it succeeds exactly when all of it fits |
| RoadmapsApi.Database.InsertWeeks | src/pages/api/roadmaps.js:39-60 | the loop over a phase's weeks writes the allowed prefix of their plan |
| RoadmapsApi.Database.InsertWeek | src/pages/api/roadmaps.js:40-59 | a week row under its phase, then the plan of its days under the new id; it succeeds exactly when all of it fits |
| RoadmapsApi.Database.InsertDays | src/pages/api/roadmaps.js:46-59 | the loop over a week's days writes the allowed prefix of their plan |
| RoadmapsApi.Database.InsertDay | src/pages/api/roadmaps.js:47-58 | a day row under its week, then one task row per task under the new id; it succeeds exactly when all of it fits |
| RoadmapsApi.Database.InsertTasks | src/pages/api/roadmaps.js:53-58 | the loop over a day's tasks writes one task row per task, in order, up to the first throw |
| Prune.PruneRoadmapTasks | src/components/TaskFilter.js:16-27 | the pruned tree's tasks are exactly the input's passing tasks, in their original order |
| Prune.PrunePhases | src/components/TaskFilter.js:24-26 | no surviving phase, week or day is empty, and every surviving task passes the test |
| Prune.PruneDaysHeads | src/components/TaskFilter.js:21-24 | the surviving days are the input days holding a passing task, in order, with every other field copied |
| Prune.PrunePhasesHeads | src/components/TaskFilter.js:17-26 | the surviving phases are the input phases holding a passing task, in order, with every other field copied |
| Prune.PruneDaysAt | src/components/TaskFilter.js:21-24 | the i-th surviving day is the i-th input day holding a passing task, with its tasks narrowed to the passing ones |
| Prune.PruneWeeksAt | src/components/TaskFilter.js:19-25 | the i-th surviving week is the i-th input week holding a passing task, with its days pruned |
| Prune.PrunePhasesAt | src/components/TaskFilter.js:17-26 | the i-th surviving phase is the i-th input phase holding a passing task, with its weeks pruned |
| Prune.PruneDaysFrom | src/components/TaskFilter.js:21-24 | the surviving days are the input days holding a passing task, in order, with their other fields copied and their passing tasks only |
| Prune.PruneWeeksFrom | src/components/TaskFilter.js:19-25 | the surviving weeks are the input weeks holding a passing task, in order, with their other fields copied, and their days survive as the day level says |
| Prune.PrunePhasesFrom | src/components/TaskFilter.js:17-26 | at every level (phases, the weeks of each surviving phase, the days of each surviving week) the survivors are the input containers holding a passing task, in order, with every other field copied, and each surviving day holds exactly its passing tasks |
| TaskFilter.HandleFilterChange | src/components/TaskFilter.js:6-30 | "all" returns the roadmap itself; any other value returns an object with only `phases`, none of them empty |
| TaskFilter.FilterSelects | src/components/TaskFilter.js:15-23 | "completed" keeps exactly the tasks whose flag is `true`, "incomplete" exactly those whose flag is `false`, both in order |
| TaskFilter.NonBooleanDropped | src/components/TaskFilter.js:23 | a task whose flag is not a boolean survives neither filter |
| TaskFilter.FiltersPartition | src/components/TaskFilter.js:15-26 | with boolean flags only, the task counts of the two filters add up to the total |
| TaskFilter.FilteredProgress | src/components/TaskFilter.js:15-26 | the completed view counts every task as done; the incomplete view counts none |
| TaskFilter.FilterKeepsContainers | src/components/TaskFilter.js:17-26 | at every level the phases, the weeks of each surviving phase and the days of each surviving week survive exactly when they hold a selected task, in order, with their other fields copied; each surviving day holds exactly its selected tasks |
| SearchBar.HandleSearch | src/components/SearchBar.js:6-29 | an empty term returns the roadmap itself; any other term returns an object with only `phases`, none of them empty |
| SearchBar.SearchSelects | src/components/SearchBar.js:22 | a task survives exactly when it is in the input and its lower-cased description contains the lower-cased term |
| SearchBar.SearchIgnoresTermCase | src/components/SearchBar.js:7 | two terms that differ only in case give the same result |
| SearchBar.SearchLowerTerm | src/components/SearchBar.js:7 | typing the term in lower case gives the same result |
| SearchBar.SearchNarrows | src/components/SearchBar.js:16-25 | the result's tasks are a subsequence of the input's, so its task count never grows |
| SearchBar.SearchKeepsContainers | src/components/SearchBar.js:16-25 | at every level the phases, the weeks of each surviving phase and the days of each surviving week survive exactly when they hold a matching task, in order, with their other fields copied; each surviving day holds exactly its matching tasks |
| ProgressBar.Counts | src/components/ProgressBar.js:4-18 | the nested reductions count all tasks and the truthy-flag tasks of the flattened list, so completed never exceeds total |
| ProgressBar.PhasesCounts | src/components/ProgressBar.js:4-18 | over any list of phases, the reductions equal the task count and the done-task count |
| ProgressBar.PercentageBounds | src/components/ProgressBar.js:20 | the percentage is 0 with no tasks, lies between 0 and 100, and is 100 exactly when all of at least one task are done |
| ProgressBar.EmptyDaysCountNothing | src/components/ProgressBar.js:7 | dropping the days without tasks changes neither count |
| Http.Network.Fetch | src/pages/index.js:27-31 | a request is either delivered, appended to what was sent, or rejected with nothing sent |
| HomePage.TaskAtIsTask | src/pages/index.js:35 | a task found by position is a task of that tree |
| HomePage.StoredNotesAt | src/pages/index.js:35 | as written: the lookup by the view's positions in the whole roadmap succeeds exactly when those positions exist there, and yields the notes of some task of the roadmap |
| HomePage.StoredNotesAtMisses | src/pages/index.js:35 | under the "completed" filter a shown task sits at positions the roadmap does not have: the as-written lookup fails, the corrected one finds the task |
| HomePage.FindIn | src/pages/index.js:35 | the search yields a task with that id from the list, and fails exactly when no task has the id |
| HomePage.FindInFinds | src/pages/index.js:35 | with unique ids, every task is found by its own id |
| HomePage.StoredNotes | src/pages/index.js:35 | corrected: the lookup succeeds exactly when the roadmap holds a task with the payload's id, and yields that task's notes |
| HomePage.ShownTaskFound | src/pages/index.js:35 | whatever view shows a task, the corrected lookup finds that task's own notes |
| HomePage.NewNotesSpec | src/pages/index.js:36 | a submitted note is new exactly when no stored note has both its content and its id, that is when it is not stored; new notes keep their order |
| HomePage.CategoryPostsSpec | src/pages/index.js:37-44 | a category's POSTs are all for the task and category, and a content is posted exactly when a new note without a truthy id carries it |
| HomePage.NotePostsSpec | src/pages/index.js:34-46 | across the categories, a content is posted for a category exactly when the diff of that category posts it |
| HomePage.PutFirst | src/pages/index.js:27-52 | whatever the lookup yields, the completion PUT comes first and only once, and the refetch comes after every POST |
| HomePage.PostsExactly | src/pages/index.js:34-46 | a note is posted exactly when the lookup of the stored notes succeeds and the note is new, against the notes it yielded, under its category and without an id; every POST is for the payload's task |
| HomePage.RequestsShape | src/pages/index.js:24-56 | a failed lookup stops after the PUT; otherwise the PUT, the POSTs of all categories in key order against the notes the lookup yielded, and the refetch |
| HomePage.NewNotesSelf | src/pages/index.js:36 | resubmitting the stored list finds nothing new |
| HomePage.NewNotesAppended | src/pages/index.js:36 | the stored list plus one unstored note finds exactly that note new |
| HomePage.CategoryPostsNone | src/pages/index.js:38 | notes that all carry an id produce no POST |
| HomePage.NotePostsNone | src/pages/index.js:37-44 | a payload whose notes all carry ids produces no POST |
| HomePage.NotePostsOnlyIn | src/pages/index.js:34-46 | when only one category differs from the stored notes, only that category can produce POSTs |
| HomePage.Home.constructor | src/pages/index.js:14-22 | the first load puts the fetched tree in both state variables |
| HomePage.Home.Search | src/pages/index.js:65 | the search bar replaces the view by the search over the roadmap and keeps the roadmap; the view stays within the roadmap |
| HomePage.Home.FilterBy | src/pages/index.js:66 | the filter replaces the view by the filtered roadmap and keeps the roadmap; the view stays within the roadmap |
| HomePage.Home.UpdateRoadmap | src/pages/index.js:24-56 | the stored notes are read from the roadmap at the task's view positions, as written; the requests go out in order up to the first failure; both state variables become the refetched tree exactly when everything succeeded, and stay as they were otherwise; the view stays within the roadmap |
| HomePage.PostNotes | src/pages/index.js:34-46 | the category loop: view positions the roadmap lacks throw before any POST; otherwise the POSTs of all categories, against the notes read at those positions, go out in order up to the first failure |
| HomePage.PostCategory | src/pages/index.js:37-45 | the note loop: one POST per note without an id, in order, stopping at the first that fails |
| TaskView.AccessGates | src/components/Task.js:12-16 | viewers can neither complete nor delete; commenters cannot complete but see delete on every note with an id; without an access string nothing is locked |
| TaskView.AppendNoteSpec | src/components/Task.js:31-34 | adding puts `{id: null, content: draft}` at the end of that category, and every other category is unchanged |
| TaskView.AddSendsOnePost | src/components/Task.js:26-36 | when the lookup yields the task's own saved notes, adding sends the completion PUT, exactly one POST carrying the draft, and the refetch |
| TaskView.ResendSendsNoPost | src/components/Task.js:52 | resending a task with the very notes the lookup yields, as completion and delete do, sends no POST |
| TaskView.AddInRoadmapSendsOnePost | src/components/Task.js:35 | as written, on a page showing the whole roadmap the view positions find the card's own task, so adding sends the PUT, one POST and the refetch |
| TaskView.ShiftedAddSendsNoPost | src/components/Task.js:35 | as written, under the "completed" filter a card whose positions the roadmap lacks sends only the PUT when adding, so the note is lost; the lookup by id sends the POST |
| TaskView.ShownAddSendsOnePost | src/components/Task.js:35 | corrected: looked up by id, adding to any task shown in a view within the roadmap sends the PUT, one POST and the refetch |
| TaskView.TaskCard.constructor | src/components/Task.js:8-10 | a new card keeps its task, view positions and access, and has no drafts and no error |
| TaskView.TaskCard.TypeDraft | src/components/Task.js:114 | typing sets only that category's draft |
| TaskView.TaskCard.HandleComplete | src/components/Task.js:15-24 | a locked card changes nothing; otherwise the error is cleared and the task is written back with `completed` set to the checkbox state and nothing else changed |
| TaskView.TaskCard.AddNote | src/components/Task.js:26-42 | viewers and unset or blank drafts change nothing; otherwise the task is written back with the draft appended, and only that category's draft is cleared, whatever the write's outcome |
| TaskView.TaskCard.DeleteNote | src/components/Task.js:44-57 | viewers change nothing; a DELETE that is not delivered sets "Failed to delete note"; otherwise the task as shown is written back after the DELETE |
| NoteEditor.EditPayloadSpec | src/components/NoteEditor.js:22-31 | the payload has the task's id, no `completed` field, and all four categories empty except the edited one, which holds exactly the edited note |
| NoteEditor.EditSendsNoPost | src/components/NoteEditor.js:22-32 | whatever the lookup yields, an edit of a note with an id sends the completion PUT without a flag, the refetch when the lookup succeeds, and no POST |
| NoteEditor.EditControls | src/components/NoteEditor.js:42-74 | a disabled editor shows neither the form nor the Edit button; an enabled one shows exactly one of them |
| NoteEditor.Editor.constructor | src/components/NoteEditor.js:3-6 | a new editor keeps its note, task, category, view positions and `disabled`; it is not editing, shows the note's content, and has no error |
| NoteEditor.Editor.StartEditing | src/components/NoteEditor.js:69 | the Edit button enters editing and keeps the content |
| NoteEditor.Editor.CancelEditing | src/components/NoteEditor.js:57 | Cancel leaves editing and keeps the typed content and the error |
| NoteEditor.Editor.Type | src/components/NoteEditor.js:47 | typing sets the content only |
| NoteEditor.Editor.HandleEdit | src/components/NoteEditor.js:8-38 | disabled does nothing; blank content sets "Content cannot be empty" and sends nothing; an undelivered PUT sets "Failed to update note" and editing goes on; otherwise the untrimmed content is PUT, the page gets the single-note payload and editing ends |

## Left out

- The Postgres pool, SSL, Express and Next.js routing, CORS, dotenv and `app.listen` are not modelled. The tables are in-memory sequences of rows.
- Whether `BEGIN`, `COMMIT` and `ROLLBACK` themselves succeed is not modelled. Only the all-or-nothing outcome of the rollback is.
- Postgres gives every table its own serial sequence; the model uses one shared id counter, which keeps ids fresh and increasing.
- Server.Database.GetRoadmap: a `SELECT` is assumed never to throw, so only the bucketing failure leads to 500.
- RoadmapsApi.Database.Handler: the 500 branch of the GET is left out, because reads never fail in the model.
- Server.Database.Populate: the bundled file is a parameter, with every nested list present. A `weeks`, `days`, `tasks` or `notes` field that is missing or not iterable throws only after its parent's row was inserted; that row and all earlier ones stay and the answer is 500. The model does not cover that path.
- Server.Database.PutTask, Server.Database.PostNote, Server.Database.PutNote, Server.Database.DeleteNote: the `:id` route parameter is an integer. A non-numeric id makes Postgres throw, which answers 500 with nothing changed; that path is not modelled.
- RoadmapsApi.Database.Handler, RoadmapsApi.Database.UploadPost: every phase, week and day of the sent roadmap carries its nested list. A missing `weeks`, `days` or `tasks` throws in the middle of the walk; the transaction then rolls back and the answer is 400 in `handler` and 500 in the upload path. The model does not cover that path.
- ServerTables.SetCompleted, ServerTables.SetContent: an `UPDATE` is modelled as changing the row where it stands. Postgres writes a new row version, and a later `SELECT` without `ORDER BY` may return the updated row in another place; the model takes every unordered `SELECT` to return rows in insertion order.
- A seed task's `completed` field that is missing or `null` is stored as `NULL`. Other JSON values, which Postgres would coerce or refuse, are not modelled.
- The Express tables and the Next.js API's tables are modelled as two separate stores. A row the Next.js API writes, including a `completed` flag that is not a boolean, is never read by the Express model.
- RoadmapsPlan.NotesColumn: the JSON text of a task's `notes` is a given string; `JSON.stringify` is not modelled.
- RoadmapsApi.Database.UploadPost: `formData`, `file.text()` and `JSON.parse` are modelled by their outcome, an optional parsed body.
- ProgressBar.PercentageBounds: the percentage is an exact `real`; the floating-point division and `toFixed(2)` are left out.
- `trim` and `toLowerCase` work on ASCII only; Unicode whitespace and case mapping are not modelled.
- Http.Network.Fetch: a delivered request is assumed to resolve. Response statuses are not examined, which matches the page, since it never reads them.
- HomePage.Home.UpdateRoadmap: the refetched body is either a roadmap or not JSON. A JSON error object (the 500 answer), which the page would store as its roadmap, is not modelled.
- React rendering, JSX and the disclosure widgets are not modelled. `Phase.js`, `Week.js` and `Day.js` are not modelled beyond what they hand down: each card and editor receives the phase, week, day and task indices of the view on display, which the model takes as the positions the task controls are built with. `Day.js` also drops `access` before the task card.
- A handler that reads a stale draft map after an `await` is not modelled. The model runs each handler to completion before the next starts.
- The `updatedNotes` value computed in the note editor and never used is not modelled.
- Per-roadmap access resolution, assignments and per-user progress are not modelled. No handler in these files implements them.
- `ExportButton.js`, the sign-in and registration pages, and the `register`, `user-roles`, `users` and `auth/role` API routes are not part of this model. They consist of I/O, a foreign hashing call, or one-line role checks.

## Findings

| source | as written | input that shows it | evidently intended | confidence | as-written member | corrected member |
|---|---|---|---|---|---|---|
| src/pages/index.js:35 | the stored notes are read from the whole `roadmap` at the task's positions in the filtered or searched view | phase 0 holding one open task and phase 1 two completed ones, under the "completed" filter: the second completed task is shown at (0, 0, 0, 1), where the roadmap has no task, so the read throws, the error is swallowed, the new note is never posted, and `addNote` still clears the draft | look the task up by its id in `roadmap` | not executed | HomePage.StoredNotesAt, HomePage.StoredNotesAtMisses, TaskView.ShiftedAddSendsNoPost | HomePage.StoredNotes, HomePage.ShownTaskFound, TaskView.ShownAddSendsOnePost |
