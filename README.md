# Mock-paper generation: endpoint, store and page

This project models the part of the RRB JE mock-exam application that produces
a question paper, and it proves properties of that model.

- **The endpoint** is `POST /api/generate` (`route.dfy`, module `GenerateRoute`). For every requested
  subject it streams a progress event, then collects that subject's questions from the static question
  bank, using placeholders when the bank has nothing for the subject. It then shuffles all the
  questions, streams a `saving` event, stores the paper, and ends with a `complete` event or an
  `error` event.
- **The persistence layer** is six of the seven calls of `src/lib/supabase.ts` that touch papers,
  questions and exam sessions (all but `getQuestionPapers`) (`store.dfy`, module `Supabase`). The `Store` class holds the three tables as
  sequences plus an id counter. Every database call is an input `Outcome` that says whether it
  succeeded, so both the success path and every error path are modelled. The pure function
  `SaveEffect` specifies the save, and the lemmas about it state what a save leaves behind.
- **The generation page** (`page.dfy`, module `GenerateClient`) has the two fixed subject tables it
  posts and its five pieces of state (`GeneratePage`). Its reader loop splits each chunk into lines,
  drops blank lines, parses each line and applies it. `GenerateQuestionPaper` is proved against the
  fold `Generate`. The lemmas connect the page to the endpoint: the page is fed the endpoint's own
  event stream, with `RunEvents` producing the events and `Wire` putting them on the wire, one line
  per event.
- **Shared wrappers** are in `outcomes.dfy` (`Option`, `Outcome`).

Two behaviours one would expect of this system are not what the code does, and the model follows
the code:

- One would expect a paper to be stored with all its questions or not at all. The code inserts the
  paper row, then inserts the question rows, and has no rollback. `SaveLeavesOrphanPaper` proves
  that a failed question insert leaves a paper with no questions.
- One would expect the page to end with either a usable paper or an error message. When the
  endpoint reports an error, the page throws it inside the same per-line `try` whose `catch` ignores
  parse errors, so the error is lost. `PageFollowsRun` proves that after a failed save the page
  stays at `saving` with progress 95 and shows no error.

Ids are natural numbers handed out by the store's counter. They stand in for the database's uuids,
which are always truthy.

## Model

| member | source | states |
|---|---|---|
| GenerateRoute.BatchSize | src/app/api/generate/route.ts:26 | Definition: the number of times `i < subject.marks` holds for `i = 0, 1, ...`, which is the ceiling of a positive `marks` and 0 otherwise. |
| GenerateRoute.BatchSizeGuard | src/app/api/generate/route.ts:26 | The loop guard holds for a counter value if and only if that value is below `BatchSize`. |
| GenerateRoute.SubjectEntries | src/app/api/generate/route.ts:24 | Definition: `bank[subject.name] \|\| []`, the subject's entries, or none when the bank has no key for it. |
| GenerateRoute.TopicAt | src/app/api/generate/route.ts:28 | Definition: topic `i % topics.length`, or `undefined` when there are no topics. |
| GenerateRoute.PlaceholderText | src/app/api/generate/route.ts:28 | Definition: the text `Question about <topic> in <subject>?`. |
| GenerateRoute.DifficultyAt | src/app/api/generate/route.ts:38 | Definition: easy, medium, hard by `i % 3`. |
| GenerateRoute.Stamp | src/app/api/generate/route.ts:34-40 | Definition: the spread entry with its category, subject, difficulty and marks overwritten by the loop's category, the subject's name, `DifficultyAt(i)` and 1. |
| GenerateRoute.Placeholder | src/app/api/generate/route.ts:27-32 | Definition: the placeholder question about topic `i % topics.length` of the subject, with options A-D, answer `a` and the fixed explanation. With no topics the topic reads `undefined`, as `topics[NaN]` does in a template string. |
| GenerateRoute.PlaceholderOptions | src/app/api/generate/route.ts:29 | Definition: the literal options `Option A` to `Option D` of the placeholder. |
| GenerateRoute.PlaceholderExplanation | src/app/api/generate/route.ts:31 | Definition: the literal explanation `This is an auto-generated question.`. |
| GenerateRoute.QuestionAt | src/app/api/generate/route.ts:27-40 | Definition: record `i` of a batch is bank entry `i % n`, or the placeholder when there are no entries, stamped with the category, the subject, the difficulty `i % 3` and marks 1. |
| GenerateRoute.SubjectBatch | src/app/api/generate/route.ts:22-43 | Definition: the batch is `QuestionAt` for every `i` below `BatchSize`. |
| GenerateRoute.Collect | src/app/api/generate/route.ts:68-87 | Definition: one loop's `allQuestions`, the subjects' batches concatenated in input order. |
| GenerateRoute.AllQuestions | src/app/api/generate/route.ts:53-87 | Definition: the technical batches followed by the non-technical ones. |
| GenerateRoute.Shuffle | src/app/api/generate/route.ts:90 | Definition: picks the next element by the next pick (index 0 when the pick is out of range) until none are left. The length is kept. |
| GenerateRoute.Terminal | src/app/api/generate/route.ts:98-108 | Definition: the `error` event of the first failed insert, or `complete` with the new id. |
| GenerateRoute.ProgressAt | src/app/api/generate/route.ts:70 | Definition: `(done / total) * 90` in exact arithmetic. |
| GenerateRoute.GeneratingEvent | src/app/api/generate/route.ts:69-72 | Definition: `{ progress: done / total * 90, subject: 'Generating <name>...' }`. |
| GenerateRoute.GeneratingEvents | src/app/api/generate/route.ts:68-87 | Definition: one loop's progress events, where the `i`-th subject's event has `done` equal to offset + `i`. |
| GenerateRoute.SavingEvent | src/app/api/generate/route.ts:93-95 | Definition: `{ progress: 95, subject: 'Saving...', status: 'saving' }`. |
| GenerateRoute.CompleteEvent | src/app/api/generate/route.ts:102-104 | Definition: `{ progress: 100, status: 'complete', paperId }`. |
| GenerateRoute.ErrorEvent | src/app/api/generate/route.ts:106-108 | Definition: `{ error: message }`. |
| GenerateRoute.PaperTitle | src/app/api/generate/route.ts:97 | Definition: `RRB JE Mock - <date>`. |
| GenerateRoute.RunEvents | src/app/api/generate/route.ts:64-108 | Definition: the whole stream: the error alone for an unreadable body, otherwise the progress events of both loops, `saving` and the terminal event. |
| GenerateRoute.RunEventsParsed | src/app/api/generate/route.ts:67-104 | Proof helper for `GenerateAndSave`: it regroups `RunEvents` of a readable body into the progress events of the two loops, the saving event and the reply event, in the order the endpoint writes them. It states no property of its own. |
| GenerateRoute.ReplyEvent | src/app/api/generate/route.ts:98-108 | Definition: the error of the save's reply as an `error` event, or `complete` with the reply's paper id. |
| GenerateRoute.ReplyEventIsTerminal | src/app/api/generate/route.ts:98-108 | The event that reports a save is the terminal event determined by the two insert outcomes and the new id. |
| GenerateRoute.GenerateAndSave | src/app/api/generate/route.ts:53-104 | The body of the `try` after the request is read. The events are `RunEvents` of the readable body, and the store is `SaveEffect` of the shuffled questions with the title and 100/90. |
| GenerateRoute.GenerateQuestionsForSubject | src/app/api/generate/route.ts:18-44 | `BatchSize` records: the marks rounded up, none for non-positive marks. Each record has the loop's category, the subject's name, marks 1 and difficulty easy/medium/hard by `i % 3`. Records come cyclically from the subject's bank entries, or are the topic placeholder when the subject has no entries. |
| GenerateRoute.BankEntriesCycle | src/app/api/generate/route.ts:27 | Two positions with the same remainder modulo the bank's size get the same bank entry. |
| GenerateRoute.CollectSize | src/app/api/generate/route.ts:68-87 | The collected list has `TotalQuestions` questions: the sum of the subjects' `BatchSize` (marks rounded up, none for non-positive marks). Every question has the loop's category. |
| GenerateRoute.CollectLayout | src/app/api/generate/route.ts:68-87 | Question `i` of subject `k`'s batch sits after the batches of the earlier subjects. |
| GenerateRoute.TotalQuestionsPrefix | src/app/api/generate/route.ts:68-87 | The question count of a prefix of the subjects never exceeds the count of the whole list. |
| GenerateRoute.CountUniform | src/app/api/generate/route.ts:68-87 | In a list whose questions all have one category, that category's count equals the list's length. |
| GenerateRoute.GenerateCategory | src/app/api/generate/route.ts:68-87 | One of the two loops: its questions are the subjects' batches in order, and its events are one `Generating <name>...` event per subject, at progress `done / total * 90`. |
| GenerateRoute.Post | src/app/api/generate/route.ts:46-118 | The stream is exactly `RunEvents`. An unreadable body leaves the store unchanged. A readable body stores the shuffled questions under the title `RRB JE Mock - <date>`, with 100 marks and 90 minutes, exactly as `SaveEffect` describes. The store invariant is kept. |
| GenerateRoute.ShuffleIsPermutation | src/app/api/generate/route.ts:90 | The shuffled list holds the same questions as many times each, for every choice of picks. |
| GenerateRoute.PicksFor | src/app/api/generate/route.ts:90 | Every permutation of the list is the outcome of some choice of picks, so the model rules out no order the random comparator can yield. |
| GenerateRoute.FirstPick | src/app/api/generate/route.ts:90 | For a permutation, gives the index of its first element, and the rest of the permutation is a permutation of what remains. |
| GenerateRoute.ShuffleFirstPick | src/app/api/generate/route.ts:90 | A first pick within range puts that element first. |
| GenerateRoute.GeneratingEventsSnoc | src/app/api/generate/route.ts:68-87 | One more loop iteration appends exactly one progress event for the next subject. |
| GenerateRoute.RunEventsShape | src/app/api/generate/route.ts:64-108 | For a readable body: one progress event per subject in visiting order, then `saving` at progress 95, then one terminal event. For an unreadable body: only the error. |
| GenerateRoute.ExactlyOneTerminalEvent | src/app/api/generate/route.ts:98-108 | Exactly one terminal event, and it is the last. It is `complete` with progress 100 and the new paper's id if and only if the body was readable and both inserts succeeded. Otherwise it carries the message of the error from the body, the paper insert or the question insert. |
| GenerateRoute.ProgressAtBounds | src/app/api/generate/route.ts:70 | Loop progress lies in [0, 90), and is 0 exactly for the first subject. |
| GenerateRoute.ProgressAtIncreasing | src/app/api/generate/route.ts:70 | Loop progress strictly grows with the number of subjects done. |
| GenerateRoute.ProgressIncreases | src/app/api/generate/route.ts:64-104 | The progress values of the stream strictly increase from event to event. |
| GenerateRoute.SavedListContents | src/app/api/generate/route.ts:88-98 | The saved list is a permutation of all the batches. Its length is the sum of the subjects' `BatchSize` (marks rounded up, none for non-positive marks). Its metadata counts this sum for the technical subjects and for the non-technical subjects separately. |
| Supabase.CountCategory | src/lib/supabase.ts:62-63 | The category count is at most the length, and is zero exactly when no question has that category. |
| Supabase.CountAppend | src/lib/supabase.ts:62-63 | Counting a concatenation gives the sum of the counts of its two parts. |
| Supabase.CountsPartition | src/lib/supabase.ts:61-64 | The technical and non-technical counts add up to the number of questions. |
| Supabase.CountPermutation | src/lib/supabase.ts:61-64 | Reordering the questions does not change their counts. |
| Supabase.RemoveAt | src/app/api/generate/route.ts:90 | Taking out the picked element shortens the list by one and removes exactly that element from its multiset. The same fact gives the metadata counts of supabase.ts lines 61-64 their independence from order. |
| Supabase.CountRemoveAt | src/lib/supabase.ts:61-64 | Removing one question lowers its category's count by one and leaves the other count unchanged. |
| Supabase.PaperMetadata | src/lib/supabase.ts:61-64 | The two metadata counts add up to the number of questions. |
| Supabase.NumberQuestions | src/lib/supabase.ts:73-77 | Definition: each question stamped with the paper id and `question_number` equal to index + 1. |
| Supabase.NewPaper | src/lib/supabase.ts:57-66 | Definition: the paper row inserted, with the next id, the title, the timestamp, marks, duration and the counted metadata. |
| Supabase.SaveEffect | src/lib/supabase.ts:55-88 | Definition: a failed paper insert changes nothing. Otherwise the paper row is appended and the id counter advances, and the numbered question rows are appended only when their insert succeeds. |
| Supabase.SaveReply | src/lib/supabase.ts:55-88 | Definition: `{ paper: null, error }` with the first failed insert's error, otherwise `{ paper, error: null }` with the new row. |
| Supabase.BuildPatch | src/lib/supabase.ts:174-180 | Definition: `updateData`, which always has the responses, plus status, `completed_at` and (when given) the score for a completed exam. |
| Supabase.ApplyPatch | src/lib/supabase.ts:182-185 | Definition: the fields the patch carries replace those of the row, and the others stay. |
| Supabase.UpdateSessions | src/lib/supabase.ts:182-185 | Definition: `.update(patch).eq('id', sessionId)`, which patches the rows with that id and keeps the others. |
| Supabase.NumberingKeepsDrafts | src/lib/supabase.ts:72-76 | Numbering keeps every question as given, in order, under the new paper's id, with `question_number` equal to position + 1. |
| Supabase.QuestionsOf | src/lib/supabase.ts:120-123 | The selected rows are never more than the table holds. |
| Supabase.QuestionsOfSelects | src/lib/supabase.ts:120-123 | A row is selected if and only if it is in the table and belongs to the paper. |
| Supabase.QuestionsOfAbsent | src/lib/supabase.ts:120-123 | A paper with no rows in the table selects nothing. |
| Supabase.QuestionsOfAppend | src/lib/supabase.ts:120-123 | The selection distributes over appending rows to the table. |
| Supabase.QuestionsOfAll | src/lib/supabase.ts:120-123 | Rows that all belong to the paper are all selected. |
| Supabase.QuestionsOfAscending | src/lib/supabase.ts:120-124 | When each paper's rows were inserted in numbering order, the selection is in ascending `question_number` (the `.order` of the query). |
| Supabase.AscendingNumbers | src/lib/supabase.ts:124 | Definition: rows strictly ascending by `question_number`, the order `.order('question_number', { ascending: true })` promises. |
| Supabase.ReadBackFreshPaper | src/lib/supabase.ts:72-81 | Reading back a freshly numbered paper gives exactly its numbered rows. |
| Supabase.FindPaper | src/lib/supabase.ts:109-113 | The result is a row with the requested id. `None` is returned exactly when no row has that id. |
| Supabase.FindSession | src/lib/supabase.ts:199-203 | The result is a session with the requested id. `None` is returned exactly when no session has that id. |
| Supabase.RemovePaper | src/lib/supabase.ts:134-146 | Keeps exactly the rows with other ids, and keeps the ids increasing. |
| Supabase.SessionUpdateEffect | src/lib/supabase.ts:168-193 | The update always replaces the responses. Only a completing update sets the status to `completed` and sets `completed_at`. Only a completing update that carries a score sets the score. The row's id, paper and start time never change. |
| Supabase.SaveKeepsValid | src/lib/supabase.ts:48-89 | Every save keeps the store invariant: ids below the counter, increasing, numbering in order. |
| Supabase.SaveThenReadBack | src/lib/supabase.ts:48-89 | Round trip for a save whose two inserts succeed. The reply carries the new row with the counted metadata. Looking up the reply's paper finds that row, and its questions are exactly the given ones, numbered 1.. in order. |
| Supabase.SaveLeavesOrphanPaper | src/lib/supabase.ts:55-81 | No rollback: when the question insert fails after the paper insert succeeded, the paper row stays with no questions, and the reply is `{ paper: null, error }`. |
| Supabase.SavePaperInsertFails | src/lib/supabase.ts:55-70 | A failed paper insert changes nothing, and the reply carries its error. |
| Supabase.SaveKeepsOtherPapers | src/lib/supabase.ts:48-89 | A save leaves the sessions and every earlier paper with its questions as they were. |
| Supabase.FindAppendOther | src/lib/supabase.ts:109-113 | Appending a row with another id does not change a lookup. |
| Supabase.FindAppendFresh | src/lib/supabase.ts:109-113 | A row appended with an id above all others is found by its id. |
| Supabase.Store.constructor | src/lib/supabase.ts:1-6 | A new store has empty tables and is valid. |
| Supabase.Store.SaveQuestionPaper | src/lib/supabase.ts:48-89 | The new tables are `SaveEffect`, the reply is `SaveReply`, and the invariant is kept. |
| Supabase.Store.GetQuestionPaperById | src/lib/supabase.ts:105-132 | Returns the paper and its questions in ascending number. If the paper is missing or its fetch fails, returns null and no questions. If only the question fetch fails, returns the paper with no questions. Changes nothing. |
| Supabase.Store.DeleteQuestionPaper | src/lib/supabase.ts:134-146 | Returns true exactly when the delete succeeds, and then only that paper's row is gone. Nothing else changes. |
| Supabase.Store.CreateExamSession | src/lib/supabase.ts:149-166 | On success, adds one new in-progress session with no responses and a fresh id, and returns it. On failure, returns null and changes nothing. |
| Supabase.Store.UpdateExamSession | src/lib/supabase.ts:168-193 | Returns true exactly when the update succeeds, and then only the target session is patched. Nothing else changes. |
| Supabase.Store.GetExamSessionById | src/lib/supabase.ts:195-222 | Returns the session and its paper as the two lookups find them, with nulls on failed or missing fetches. Changes nothing. |
| GenerateClient.ConfiguredTotals | src/app/generate/page.tsx:8-23 | The tables ask for 60 technical and 40 non-technical questions. The saved paper has 100 questions with metadata 60/40, whatever the bank and the shuffle. |
| GenerateClient.Split | src/app/generate/page.tsx:65 | `split('\n')` gives at least one piece, and no piece contains a line feed. |
| GenerateClient.JoinSplit | src/app/generate/page.tsx:65 | Joining the pieces with line feeds gives the chunk back. |
| GenerateClient.SplitJoin | src/app/generate/page.tsx:65 | Splitting joined pieces that contain no line feed gives the pieces back. |
| GenerateClient.SplitPlain | src/app/generate/page.tsx:65 | A chunk without a line feed is one piece. |
| GenerateClient.SplitBefore | src/app/generate/page.tsx:65 | A line feed after a line-feed-free prefix splits off exactly that prefix. |
| GenerateClient.NonBlankKeeps | src/app/generate/page.tsx:65 | Every kept line is non-blank, a line is kept if and only if it occurs and is not blank, and no lines are added. |
| GenerateClient.NonBlankAppend | src/app/generate/page.tsx:65 | The filter distributes over concatenation and keeps a single line exactly when it is not blank, so it keeps the non-blank lines in order and with their multiplicity. |
| GenerateClient.NonBlank | src/app/generate/page.tsx:65 | Definition of `.filter(line => line.trim())`: drops blank lines and keeps the rest in order. |
| GenerateClient.IsWhitespace | src/app/generate/page.tsx:65 | Definition: the characters `trim()` removes, which are the ECMAScript white space and line terminators. |
| GenerateClient.Blank | src/app/generate/page.tsx:65 | Definition: a line made only of those characters, whose `trim()` is empty and so falsy. |
| GenerateClient.LinesOf | src/app/generate/page.tsx:65 | Definition: `chunk.split('\n').filter(line => line.trim())`. |
| GenerateClient.LinesOfEventLine | src/app/generate/page.tsx:65 | A written event line `JSON.stringify(data) + '\n'` reads as exactly one line. |
| GenerateClient.Wire | src/app/api/generate/route.ts:69-107 | One chunk per written event. |
| GenerateClient.ApplyEvent | src/app/generate/page.tsx:69-79 | Definition: a truthy progress and a non-empty subject are copied, `saving` sets the status, and `complete` with an id sets the id and the status. An `error` changes nothing. |
| GenerateClient.ApplyLine | src/app/generate/page.tsx:68-82 | Definition: a line that does not parse changes nothing, and one that parses applies its event. |
| GenerateClient.Started | src/app/generate/page.tsx:36-38 | Definition: status `generating`, progress 0, no error. The subject and the paper id are kept. |
| GenerateClient.Generate | src/app/generate/page.tsx:35-90 | Definition: the whole run. A rejected fetch or a non-ok response ends in `error`. A missing body stays at the start state. Otherwise every chunk's lines are applied, and a failed read then ends in `error`. |
| GenerateClient.ApplyLines | src/app/generate/page.tsx:67-83 | Definition: the `for` loop over one chunk's lines, applying each line in turn. |
| GenerateClient.ApplyChunks | src/app/generate/page.tsx:60-84 | Definition: the `while` loop over the chunks, applying each chunk's lines in turn. |
| GenerateClient.CaughtMessage | src/app/generate/page.tsx:87 | Definition: `err instanceof Error ? err.message : 'An error occurred'`. |
| GenerateClient.Failed | src/app/generate/page.tsx:86-89 | Definition: the outer `catch`, which sets the error message and the `error` status. |
| GenerateClient.TechnicalSubjects | src/app/generate/page.tsx:8-16 | Definition: the seven technical subjects with their marks (10, 8, 10, 8, 8, 8, 8) and topics. |
| GenerateClient.NonTechnicalSubjects | src/app/generate/page.tsx:18-23 | Definition: the four non-technical subjects, 10 marks each, with their topics. |
| GenerateClient.ConfiguredRequest | src/app/generate/page.tsx:45-48 | Definition: the body the page posts, `{ technicalSubjects: TECHNICAL_SUBJECTS, nonTechnicalSubjects: NON_TECHNICAL_SUBJECTS }`. |
| GenerateClient.InitialState | src/app/generate/page.tsx:29-33 | Definition: the `useState` defaults: status `idle`, progress 0, an empty subject, no error and no paper id. |
| GenerateClient.RoundTripsOn | src/app/api/generate/route.ts:69-107 | Definition: each written event's text is one non-blank line without a line feed that parses back to that event. |
| GenerateClient.RoundTripsOnMeetable | src/app/api/generate/route.ts:69-107 | For every list of events, some pair of functions satisfies `RoundTripsOn`, so the lemmas that assume it are not vacuous. |
| GenerateClient.GeneratePage.constructor | src/app/generate/page.tsx:29-33 | A fresh page is idle with progress 0, no subject, no error and no paper id. |
| GenerateClient.GeneratePage.HandleLine | src/app/generate/page.tsx:67-83 | The new state is `ApplyLine` of the old one. |
| GenerateClient.GeneratePage.GenerateQuestionPaper | src/app/generate/page.tsx:35-90 | The new state is `Generate` of the old state, the response and the parser. |
| GenerateClient.GeneratePage.StartExam | src/app/generate/page.tsx:92-96 | Navigates if and only if the page holds a paper id, and then to that id. |
| GenerateClient.ApplyEventsAppend | src/app/generate/page.tsx:60-84 | Applying two event lists in a row is the same as applying their concatenation. |
| GenerateClient.LinesNeverFail | src/app/generate/page.tsx:60-84 | No line, including an `error` event, changes the error or sets the `error` status. |
| GenerateClient.LinesKeepError | src/app/generate/page.tsx:67-83 | The same, for the lines of one chunk. |
| GenerateClient.ErrorOnlyFromTransport | src/app/generate/page.tsx:35-90 | The page ends in `error` if and only if fetch rejected, the response was not ok, or a read failed. Otherwise no error message is shown. |
| GenerateClient.NeverIdleAfterRun | src/app/generate/page.tsx:35-90 | After a run the page is never back at `idle`. |
| GenerateClient.ChunksNeverIdle | src/app/generate/page.tsx:60-84 | Chunks never bring a non-idle page back to `idle`. |
| GenerateClient.LinesNeverIdle | src/app/generate/page.tsx:67-83 | Lines never bring a non-idle page back to `idle`. |
| GenerateClient.ApplyEventStatus | src/app/generate/page.tsx:70-76 | `complete` is reached if and only if the event says `complete` and carries an id, and then the page holds that id. `saving` is reached if and only if the event says `saving`, or the page was saving and the event does not complete. A progress of 0 is ignored. |
| GenerateClient.IgnoredLines | src/app/generate/page.tsx:68-82 | A line that does not parse, and an `error` event, leave the state unchanged. |
| GenerateClient.ReadWire | src/app/generate/page.tsx:60-84 | Reading the endpoint's lines applies every event, in order. |
| GenerateClient.ProgressEventsKeepStatus | src/app/generate/page.tsx:70-76 | Events without a status keep the status, the error and the id. |
| GenerateClient.PageFollowsRun | src/app/generate/page.tsx:35-90 | Fed the endpoint's own stream: a successful run ends `complete` at progress 100 with the saved paper's id. A failed save stops at `saving` with progress 95. An unreadable body stays at `generating` with progress 0. The page never shows an error. |

## Left out

- The Supabase client, the network and the database schema are not modelled. Every call's success or failure is an input `Outcome`, and the tables are sequences in memory.
- `deleteQuestionPaper` removes only the paper row. Whether questions and sessions cascade depends on a schema that is not part of this model.
- `getQuestionPapers` and the other pages of the application (exam, result, history, analysis, preview) are not part of this model.
- The code of the endpoint has no AI provider clients, content extraction or normalization. The endpoint reads only the static question bank, and the bank's contents are an input (`Bank`).
- `Math.random` is not modelled. The shuffle is driven by a list of picks, and `PicksFor` shows that every permutation is reachable. The distribution of orders is not modelled.
- Timestamps (`new Date()`, `toISOString`, `toLocaleDateString('en-IN')`) are inputs.
- Uuids are replaced by a counter. This is sound only because nothing in the core compares ids other than for equality.
- The `setTimeout` pauses, the `TextEncoder`/`TextDecoder` byte conversion, `JSON.stringify` and `JSON.parse` are not modelled as code. The two JSON functions are the parameters `serialize` and `parse`. `RoundTripsOn` states what they promise each other for the events actually written, and `RoundTripsOnMeetable` shows that this can always be met.
- A line split across two chunks is parsed as two separate pieces, which are usually malformed. The model keeps this per-chunk splitting, but `PageFollowsRun` only considers one chunk per written line.
- React rendering, the router and the page's markup are not modelled. `StartExam` returns the id it would navigate to.
- Progress uses exact rationals instead of IEEE doubles.
- `Question.id`, the database row id of a question, is omitted because nothing in the core reads it.
- Store errors are taken to be `Error` instances carrying their message, so the endpoint's fallback message `'Failed'` for other thrown values is not modelled.
- The `console.error` logging of the store's failure paths (`src/lib/supabase.ts` lines 98, 116, 127, 141, 161, 188, 206 and 217) is output only, and is not modelled.
- The default arguments `totalMarks = 100` and `durationMinutes = 90` of `saveQuestionPaper`, and `completed = false` of `updateExamSession`, are required parameters in the model. The endpoint passes 100 and 90 explicitly.
- `Subject.marks` is an exact real, so `NaN` and the infinities are not modelled, and neither are rounding effects of doubles on the loop bound.
- A body whose JSON does not have the request's shape is not modelled in the middle of the loops. Every subject is taken to match the `Subject` interface: a string name, a numeric `marks` and a topics list. If it does not, the source throws during generation, for example at `subject.topics.length` when `topics` is missing and there are no bank entries (src/app/api/generate/route.ts:28), or at `s.name` for a `null` subject (route.ts:71). It then writes the progress events sent so far followed by `{ error }`, with no `saving` event. `RequestBody.Unreadable` covers only a body that fails before the first progress event, so the model cannot produce that mixed stream.
