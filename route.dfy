/** The paper-generation endpoint (src/app/api/generate/route.ts).

    `GenerateQuestionsForSubject` builds one subject's batch from the static
    question bank (a map input here), and `Post` is the run that the endpoint's
    stream performs: one progress event per subject while the batches are
    collected, a shuffle, a `saving` event, the save, and one terminal event.
    The event list is what the stream carries, one JSON object per line; the
    end of the list is the stream being closed. */
module GenerateRoute {
  import opened Outcomes
  import opened Supabase

  /** A subject of the request body: `marks` is the number of questions asked
      for, a JavaScript number (any finite value, fractional or negative). */
  datatype Subject = Subject(name: string, marks: real, topics: seq<string>)

  datatype GenerateRequest = GenerateRequest(technicalSubjects: seq<Subject>, nonTechnicalSubjects: seq<Subject>)

  /** The result of `await request.json()` and the destructuring that follows:
      either the two subject lists, or the message of the exception raised while
      reading them. */
  datatype RequestBody = Parsed(request: GenerateRequest) | Unreadable(message: string)

  /** An entry of the question bank. The entry is spread into the record that is
      pushed, so any `category`, `subject`, `difficulty` or `marks` it carries is
      spread too, and then overwritten. */
  datatype BankEntry = BankEntry(
    questionText: string,
    options: Options,
    correctAnswer: Letter,
    explanation: Option<string>,
    category: Option<Category>,
    subject: Option<string>,
    difficulty: Option<Difficulty>,
    marks: Option<int>)

  /** The value `getQuestionBank()` returns: subject name to entries. */
  type Bank = map<string, seq<BankEntry>>

  // ---------------------------------------------------------------------------
  // One subject's batch
  // ---------------------------------------------------------------------------

  /** `bank[subject.name] || []` */
  function SubjectEntries(bank: Bank, name: string): seq<BankEntry>
  {
    if name in bank then bank[name] else []
  }

  /** How many times the loop `for (let i = 0; i < subject.marks; i++)` runs:
      the least whole number not below `marks`, and none for `marks <= 0`. */
  function BatchSize(s: Subject): nat
  {
    if s.marks <= 0.0 then 0
    else if s.marks.Floor as real == s.marks then s.marks.Floor
    else s.marks.Floor + 1
  }

  /** The loop's guard holds exactly for the first `BatchSize` counter values. */
  lemma BatchSizeGuard(s: Subject, i: nat)
    ensures (i as real) < s.marks <==> i < BatchSize(s)
  {
  }

  /** `subject.topics[i % subject.topics.length]` as it appears in a template
      string: with no topics the index is `NaN` and the text is "undefined". */
  function TopicAt(topics: seq<string>, i: nat): string
  {
    if |topics| == 0 then "undefined" else topics[i % |topics|]
  }

  function PlaceholderText(s: Subject, i: nat): string
  {
    "Question about " + TopicAt(s.topics, i) + " in " + s.name + "?"
  }

  const PlaceholderOptions: Options := Options("Option A", "Option B", "Option C", "Option D")

  const PlaceholderExplanation: string := "This is an auto-generated question."

  /** The object literal used when the subject has no bank entries. */
  function Placeholder(s: Subject, i: nat): BankEntry
  {
    BankEntry(PlaceholderText(s, i), PlaceholderOptions, A, Some(PlaceholderExplanation), None, None, None, None)
  }

  /** `['easy', 'medium', 'hard'][i % 3]` */
  function DifficultyAt(i: nat): Difficulty
  {
    [Easy, Medium, Hard][i % 3]
  }

  /** `{ ...q, category, subject: subject.name, difficulty, marks: 1 }` */
  function Stamp(q: BankEntry, c: Category, s: Subject, i: nat): QuestionDraft
  {
    QuestionDraft(q.questionText, q.options, q.correctAnswer, c, s.name, DifficultyAt(i), 1, q.explanation)
  }

  /** The record pushed at iteration `i`: `subjectBank[i % subjectBank.length]`
      when the subject has bank entries, the placeholder otherwise. */
  function QuestionAt(s: Subject, c: Category, bank: Bank, i: nat): QuestionDraft
  {
    var entries := SubjectEntries(bank, s.name);
    Stamp(if |entries| > 0 then entries[i % |entries|] else Placeholder(s, i), c, s, i)
  }

  /** One subject's batch, as the loop builds it. */
  function SubjectBatch(s: Subject, c: Category, bank: Bank): seq<QuestionDraft>
  {
    seq(BatchSize(s), i requires 0 <= i < BatchSize(s) => QuestionAt(s, c, bank, i))
  }

  /** The question fields a record takes over from a bank entry. */
  predicate SameQuestion(q: QuestionDraft, e: BankEntry)
  {
    q.questionText == e.questionText && q.options == e.options &&
    q.correctAnswer == e.correctAnswer && q.explanation == e.explanation
  }

  /** `generateQuestionsForSubject(subject, category)` */
  method GenerateQuestionsForSubject(s: Subject, c: Category, bank: Bank) returns (qs: seq<QuestionDraft>)
    ensures |qs| == BatchSize(s)
    ensures forall i :: 0 <= i < |qs| ==>
      qs[i].category == c && qs[i].subject == s.name && qs[i].marks == 1 && qs[i].difficulty == DifficultyAt(i)
    ensures var entries := SubjectEntries(bank, s.name);
      |entries| > 0 ==> forall i :: 0 <= i < |qs| ==> SameQuestion(qs[i], entries[i % |entries|])
    ensures SubjectEntries(bank, s.name) == [] ==> forall i :: 0 <= i < |qs| ==>
      && qs[i].questionText == "Question about " + TopicAt(s.topics, i) + " in " + s.name + "?"
      && qs[i].options == Options("Option A", "Option B", "Option C", "Option D")
      && qs[i].correctAnswer == A
      && qs[i].explanation == Some("This is an auto-generated question.")
    ensures qs == SubjectBatch(s, c, bank)
  {
    qs := [];
    var subjectBank := SubjectEntries(bank, s.name);
    var i := 0;
    while (i as real) < s.marks
      invariant 0 <= i <= BatchSize(s)
      invariant |qs| == i
      invariant forall k :: 0 <= k < i ==> qs[k] == QuestionAt(s, c, bank, k)
    {
      var q := if |subjectBank| > 0 then subjectBank[i % |subjectBank|] else Placeholder(s, i);
      qs := qs + [Stamp(q, c, s, i)];
      BatchSizeGuard(s, i);
      i := i + 1;
    }
    BatchSizeGuard(s, i);
  }

  /** With a bank of `n` entries for the subject, records whose indices agree
      modulo `n` carry the same question: entries are reused cyclically once the
      subject asks for more questions than the bank holds. */
  lemma BankEntriesCycle(s: Subject, c: Category, bank: Bank, i: nat, j: nat)
    requires |SubjectEntries(bank, s.name)| > 0
    requires i < BatchSize(s) && j < BatchSize(s)
    requires i % |SubjectEntries(bank, s.name)| == j % |SubjectEntries(bank, s.name)|
    ensures var b := SubjectBatch(s, c, bank);
      SameQuestion(b[j], SubjectEntries(bank, s.name)[i % |SubjectEntries(bank, s.name)|]) &&
      b[i].questionText == b[j].questionText && b[i].options == b[j].options &&
      b[i].correctAnswer == b[j].correctAnswer && b[i].explanation == b[j].explanation
  {
  }

  // ---------------------------------------------------------------------------
  // The collected list
  // ---------------------------------------------------------------------------

  /** The batches of `subjects`, in input order (the `allQuestions.push(...)` of one loop). */
  function Collect(subjects: seq<Subject>, c: Category, bank: Bank): seq<QuestionDraft>
  {
    if |subjects| == 0 then []
    else Collect(subjects[..|subjects| - 1], c, bank) + SubjectBatch(subjects[|subjects| - 1], c, bank)
  }

  /** The number of questions the subjects ask for. */
  function TotalQuestions(subjects: seq<Subject>): nat
  {
    if |subjects| == 0 then 0
    else TotalQuestions(subjects[..|subjects| - 1]) + BatchSize(subjects[|subjects| - 1])
  }

  /** `allQuestions` after both loops: the technical batches, then the
      non-technical ones. */
  function AllQuestions(req: GenerateRequest, bank: Bank): seq<QuestionDraft>
  {
    Collect(req.technicalSubjects, Technical, bank) + Collect(req.nonTechnicalSubjects, NonTechnical, bank)
  }

  /** A collected list has one question per mark asked for, all in the loop's category. */
  lemma {:induction false} CollectSize(subjects: seq<Subject>, c: Category, bank: Bank)
    ensures |Collect(subjects, c, bank)| == TotalQuestions(subjects)
    ensures forall i :: 0 <= i < |Collect(subjects, c, bank)| ==> Collect(subjects, c, bank)[i].category == c
  {
    if |subjects| > 0 {
      CollectSize(subjects[..|subjects| - 1], c, bank);
    }
  }

  /** Order: subject `k`'s batch sits in the collected list right after the
      batches of the subjects before it, record for record. */
  lemma {:induction false} CollectLayout(subjects: seq<Subject>, c: Category, bank: Bank, k: nat, i: nat)
    requires k < |subjects|
    requires i < BatchSize(subjects[k])
    ensures TotalQuestions(subjects[..k]) + i < |Collect(subjects, c, bank)|
    ensures Collect(subjects, c, bank)[TotalQuestions(subjects[..k]) + i] == QuestionAt(subjects[k], c, bank, i)
  {
    var n := |subjects|;
    var init := subjects[..n - 1];
    CollectSize(subjects, c, bank);
    CollectSize(init, c, bank);
    if k == n - 1 {
      assert subjects[..k] == init;
    } else {
      assert init[..k] == subjects[..k] && init[k] == subjects[k];
      CollectLayout(init, c, bank, k, i);
      TotalQuestionsPrefix(subjects, k);
    }
  }

  lemma {:induction false} TotalQuestionsPrefix(subjects: seq<Subject>, k: nat)
    requires k <= |subjects|
    ensures TotalQuestions(subjects[..k]) <= TotalQuestions(subjects)
    decreases |subjects|
  {
    if k < |subjects| {
      assert subjects[..|subjects| - 1][..k] == subjects[..k];
      TotalQuestionsPrefix(subjects[..|subjects| - 1], k);
    } else {
      assert subjects[..k] == subjects;
    }
  }

  lemma {:induction false} CountUniform(qs: seq<QuestionDraft>, c: Category)
    requires forall i :: 0 <= i < |qs| ==> qs[i].category == c
    ensures CountCategory(qs, c) == |qs|
  {
    if |qs| > 0 {
      CountUniform(qs[..|qs| - 1], c);
    }
  }

  // ---------------------------------------------------------------------------
  // The shuffle
  // ---------------------------------------------------------------------------

  /** `[...allQuestions].sort(() => Math.random() - 0.5)` yields some permutation
      of the list; which one is fixed by `picks`: each pick chooses, among the
      elements left, the one that comes next (a missing or out-of-range pick takes
      the first). Randomness is not modelled. */
  function Shuffle<T>(s: seq<T>, picks: seq<nat>): (r: seq<T>)
    ensures |r| == |s|
    decreases |s|
  {
    if |s| == 0 then []
    else
      var j := if |picks| == 0 || picks[0] >= |s| then 0 else picks[0];
      [s[j]] + Shuffle(RemoveAt(s, j), if |picks| == 0 then [] else picks[1..])
  }

  /** Whatever the picks, the shuffled list holds the same questions as many
      times each. */
  lemma {:induction false} ShuffleIsPermutation<T>(s: seq<T>, picks: seq<nat>)
    ensures multiset(Shuffle(s, picks)) == multiset(s)
    decreases |s|
  {
    if |s| > 0 {
      var j := if |picks| == 0 || picks[0] >= |s| then 0 else picks[0];
      var more := if |picks| == 0 then [] else picks[1..];
      ShuffleIsPermutation(RemoveAt(s, j), more);
      assert multiset(s) == multiset(RemoveAt(s, j)) + multiset{s[j]};
    }
  }

  /** Every permutation of the list is the outcome of some choice of picks, so
      `Shuffle` covers exactly the orders `sort` with a random comparator may give. */
  lemma {:induction false} PicksFor<T>(s: seq<T>, t: seq<T>) returns (picks: seq<nat>)
    requires multiset(t) == multiset(s)
    ensures Shuffle(s, picks) == t
    decreases |s|
  {
    if |s| == 0 {
      assert |t| == |multiset(t)| == 0;
      picks := [];
    } else {
      var j := FirstPick(s, t);
      var more := PicksFor(RemoveAt(s, j), t[1..]);
      picks := [j] + more;
      ShuffleFirstPick(s, j, more);
      assert t == [t[0]] + t[1..];
    }
  }

  /** The index in `s` of the element a permutation `t` puts first, and the
      rest of `t` is a permutation of what is left of `s`. */
  lemma FirstPick<T>(s: seq<T>, t: seq<T>) returns (j: nat)
    requires multiset(t) == multiset(s)
    requires |s| > 0
    ensures |t| == |s| && j < |s| && s[j] == t[0]
    ensures multiset(t[1..]) == multiset(RemoveAt(s, j))
  {
    assert |t| == |multiset(t)| == |s|;
    assert t[0] in multiset(s);
    j :| 0 <= j < |s| && s[j] == t[0];
    assert t == [t[0]] + t[1..];
  }

  /** A first pick below the length takes that element first. */
  lemma ShuffleFirstPick<T>(s: seq<T>, j: nat, more: seq<nat>)
    requires j < |s|
    ensures Shuffle(s, [j] + more) == [s[j]] + Shuffle(RemoveAt(s, j), more)
  {
    assert ([j] + more)[0] == j;
    assert ([j] + more)[1..] == more;
  }

  // ---------------------------------------------------------------------------
  // Progress events
  // ---------------------------------------------------------------------------

  /** One line of the stream: the JSON object `JSON.stringify` writes, one
      optional field per key that may appear. */
  datatype Event = Event(
    progress: Option<real>,
    subject: Option<string>,
    status: Option<string>,
    error: Option<string>,
    paperId: Option<Id>)

  /** `(done / total) * 90`, with exact arithmetic. */
  function ProgressAt(done: nat, total: nat): real
    requires done < total
  {
    (done as real) / (total as real) * 90.0
  }

  function GeneratingEvent(done: nat, total: nat, name: string): Event
    requires done < total
  {
    Event(Some(ProgressAt(done, total)), Some("Generating " + name + "..."), None, None, None)
  }

  const SavingEvent: Event := Event(Some(95.0), Some("Saving..."), Some("saving"), None, None)

  /** `{ progress: 100, status: 'complete', paperId: paper?.id }` */
  function CompleteEvent(paperId: Option<Id>): Event
  {
    Event(Some(100.0), None, Some("complete"), None, paperId)
  }

  /** `{ error: message }` */
  function ErrorEvent(message: string): Event
  {
    Event(None, None, None, Some(message), None)
  }

  /** An event after which the endpoint writes nothing more. */
  predicate IsTerminal(e: Event)
  {
    e.status == Some("complete") || e.error.Some?
  }

  /** The progress events of one loop; `offset` subjects were done before it. */
  function GeneratingEvents(subjects: seq<Subject>, offset: nat, total: nat): seq<Event>
    requires offset + |subjects| <= total
  {
    seq(|subjects|, i requires 0 <= i < |subjects| => GeneratingEvent(offset + i, total, subjects[i].name))
  }

  /** The title `saveQuestionPaper` receives; `date` is `new Date().toLocaleDateString('en-IN')`. */
  function PaperTitle(date: string): string
  {
    "RRB JE Mock - " + date
  }

  /** The last event, once the save has reported. */
  function Terminal(paperInsert: Outcome, questionsInsert: Outcome, newId: Id): Event
  {
    if paperInsert.Fail? then ErrorEvent(paperInsert.message)
    else if questionsInsert.Fail? then ErrorEvent(questionsInsert.message)
    else CompleteEvent(Some(newId))
  }

  /** The whole stream of one run. `newId` is the id the store gives the paper. */
  function RunEvents(body: RequestBody, paperInsert: Outcome, questionsInsert: Outcome, newId: Id): seq<Event>
  {
    match body
    case Unreadable(message) => [ErrorEvent(message)]
    case Parsed(req) =>
      var t, n := req.technicalSubjects, req.nonTechnicalSubjects;
      GeneratingEvents(t, 0, |t| + |n|) + GeneratingEvents(n, |t|, |t| + |n|)
        + [SavingEvent, Terminal(paperInsert, questionsInsert, newId)]
  }

  /** `POST`: the run the endpoint's stream performs. The store's answer to the
      two inserts, the shuffle's picks and the two timestamps are inputs. */
  method Post(store: Store, body: RequestBody, bank: Bank, picks: seq<nat>, date: string, createdAt: string,
              paperInsert: Outcome, questionsInsert: Outcome)
    returns (events: seq<Event>)
    requires store.Valid()
    modifies store
    ensures store.Valid()
    ensures events == RunEvents(body, paperInsert, questionsInsert, old(store.nextId))
    ensures body.Unreadable? ==> store.Snapshot() == old(store.Snapshot())
    ensures body.Parsed? ==>
      store.Snapshot() == SaveEffect(old(store.Snapshot()), PaperTitle(date),
                                     Shuffle(AllQuestions(body.request, bank), picks), 100, 90,
                                     createdAt, paperInsert, questionsInsert)
  {
    match body
    case Unreadable(message) =>
      events := [ErrorEvent(message)];
    case Parsed(request) =>
      events := GenerateAndSave(store, request, bank, picks, date, createdAt, paperInsert, questionsInsert);
  }

  /** The `try` block of `POST` once the body is read: both loops, the shuffle,
      the `saving` event, the save and the event that reports it. */
  method GenerateAndSave(store: Store, request: GenerateRequest, bank: Bank, picks: seq<nat>, date: string,
                         createdAt: string, paperInsert: Outcome, questionsInsert: Outcome)
    returns (events: seq<Event>)
    requires store.Valid()
    modifies store
    ensures store.Valid()
    ensures events == RunEvents(Parsed(request), paperInsert, questionsInsert, old(store.nextId))
    ensures store.Snapshot() == SaveEffect(old(store.Snapshot()), PaperTitle(date),
                                           Shuffle(AllQuestions(request, bank), picks), 100, 90,
                                           createdAt, paperInsert, questionsInsert)
  {
    var technical, nonTechnical := request.technicalSubjects, request.nonTechnicalSubjects;
    var total := |technical| + |nonTechnical|;
    var technicalQuestions, technicalEvents := GenerateCategory(technical, Technical, bank, 0, total);
    var nonTechnicalQuestions, nonTechnicalEvents := GenerateCategory(nonTechnical, NonTechnical, bank, |technical|, total);
    var allQuestions := technicalQuestions + nonTechnicalQuestions;
    assert allQuestions == AllQuestions(request, bank);
    var shuffled := Shuffle(allQuestions, picks);
    events := technicalEvents + nonTechnicalEvents + [SavingEvent];

    ghost var before := store.Snapshot();
    var saved := store.SaveQuestionPaper(PaperTitle(date), shuffled, 100, 90, createdAt, paperInsert, questionsInsert);
    ReplyEventIsTerminal(before, PaperTitle(date), shuffled, 100, 90, createdAt, paperInsert, questionsInsert);
    RunEventsParsed(request, paperInsert, questionsInsert, before.nextId);
    events := events + [ReplyEvent(saved)];
  }

  /** `if (error) throw error;` and the `complete` event that follows, or the
      `error` event the `catch` writes. */
  function ReplyEvent(saved: SaveResult): Event
  {
    if saved.error.Some? then ErrorEvent(saved.error.value)
    else CompleteEvent(if saved.paper.Some? then Some(saved.paper.value.id) else None)
  }

  /** The event reporting a save is the terminal event its two inserts decide. */
  lemma ReplyEventIsTerminal(t: Tables, title: string, qs: seq<QuestionDraft>, totalMarks: int, durationMinutes: int,
                             createdAt: string, paperInsert: Outcome, questionsInsert: Outcome)
    ensures ReplyEvent(SaveReply(t, title, qs, totalMarks, durationMinutes, createdAt, paperInsert, questionsInsert))
         == Terminal(paperInsert, questionsInsert, t.nextId)
  {
  }

  /** The stream of a readable body, in the order `Post` writes it. */
  lemma RunEventsParsed(req: GenerateRequest, paperInsert: Outcome, questionsInsert: Outcome, newId: Id)
    ensures var t, n := req.technicalSubjects, req.nonTechnicalSubjects;
      RunEvents(Parsed(req), paperInsert, questionsInsert, newId)
        == GeneratingEvents(t, 0, |t| + |n|) + GeneratingEvents(n, |t|, |t| + |n|) + [SavingEvent]
           + [Terminal(paperInsert, questionsInsert, newId)]
  {
    var t, n := req.technicalSubjects, req.nonTechnicalSubjects;
    var g := GeneratingEvents(t, 0, |t| + |n|) + GeneratingEvents(n, |t|, |t| + |n|);
    assert g + [SavingEvent, Terminal(paperInsert, questionsInsert, newId)]
        == g + [SavingEvent] + [Terminal(paperInsert, questionsInsert, newId)];
  }

  /** One of the two loops of `POST`: for each subject, in order, the progress
      event (`offset` subjects were done before the loop) and the subject's batch. */
  method GenerateCategory(subjects: seq<Subject>, c: Category, bank: Bank, offset: nat, total: nat)
    returns (qs: seq<QuestionDraft>, events: seq<Event>)
    requires offset + |subjects| <= total
    ensures qs == Collect(subjects, c, bank)
    ensures events == GeneratingEvents(subjects, offset, total)
  {
    qs, events := [], [];
    var done := offset;
    for k := 0 to |subjects|
      invariant done == offset + k
      invariant qs == Collect(subjects[..k], c, bank)
      invariant events == GeneratingEvents(subjects[..k], offset, total)
    {
      events := events + [GeneratingEvent(done, total, subjects[k].name)];
      GeneratingEventsSnoc(subjects, k, offset, total);
      var batch := GenerateQuestionsForSubject(subjects[k], c, bank);
      assert subjects[..k + 1][..k] == subjects[..k];
      qs := qs + batch;
      done := done + 1;
    }
    assert subjects[..|subjects|] == subjects;
  }

  lemma GeneratingEventsSnoc(subjects: seq<Subject>, k: nat, offset: nat, total: nat)
    requires k < |subjects| && offset + |subjects| <= total
    ensures GeneratingEvents(subjects[..k + 1], offset, total)
         == GeneratingEvents(subjects[..k], offset, total) + [GeneratingEvent(offset + k, total, subjects[k].name)]
  {
  }

  // ---------------------------------------------------------------------------
  // Properties of the stream and of the saved paper
  // ---------------------------------------------------------------------------

  /** The subjects in the order the two loops visit them. */
  function Visited(req: GenerateRequest): seq<Subject>
  {
    req.technicalSubjects + req.nonTechnicalSubjects
  }

  /** Shape of the stream: for a readable body, one `Generating <name>...` event per
      subject in visiting order at progress `done / total * 90`, then the
      `saving` event at 95, then the terminal event; for an unreadable body,
      only the error. */
  lemma RunEventsShape(body: RequestBody, paperInsert: Outcome, questionsInsert: Outcome, newId: Id)
    ensures var ev := RunEvents(body, paperInsert, questionsInsert, newId);
      body.Unreadable? ==> ev == [ErrorEvent(body.message)]
    ensures var ev := RunEvents(body, paperInsert, questionsInsert, newId);
      body.Parsed? ==>
        var subjects := Visited(body.request);
        && |ev| == |subjects| + 2
        && (forall i :: 0 <= i < |subjects| ==>
              ev[i] == GeneratingEvent(i, |subjects|, subjects[i].name))
        && ev[|subjects|] == SavingEvent
        && ev[|subjects|].progress == Some(95.0) && ev[|subjects|].status == Some("saving")
  {
  }

  /** Exactly one terminal event, and it is the last one: `complete` with
      progress 100 and the new paper's id when both inserts succeed, otherwise
      the error the body or the save reported. */
  lemma {:induction false} ExactlyOneTerminalEvent(body: RequestBody, paperInsert: Outcome, questionsInsert: Outcome, newId: Id)
    ensures var ev := RunEvents(body, paperInsert, questionsInsert, newId);
      && |ev| > 0
      && IsTerminal(ev[|ev| - 1])
      && (forall i :: 0 <= i < |ev| - 1 ==> !IsTerminal(ev[i]))
    ensures var ev := RunEvents(body, paperInsert, questionsInsert, newId);
      (ev[|ev| - 1] == CompleteEvent(Some(newId)) <==> body.Parsed? && paperInsert.Ok? && questionsInsert.Ok?)
    ensures var ev := RunEvents(body, paperInsert, questionsInsert, newId);
      && (body.Unreadable? ==> ev[|ev| - 1] == ErrorEvent(body.message))
      && (body.Parsed? && paperInsert.Fail? ==> ev[|ev| - 1] == ErrorEvent(paperInsert.message))
      && (body.Parsed? && paperInsert.Ok? && questionsInsert.Fail? ==> ev[|ev| - 1] == ErrorEvent(questionsInsert.message))
  {
    RunEventsShape(body, paperInsert, questionsInsert, newId);
  }

  lemma ProgressAtBounds(done: nat, total: nat)
    requires done < total
    ensures 0.0 <= ProgressAt(done, total) < 90.0
    ensures ProgressAt(done, total) == 0.0 <==> done == 0
  {
    var q := (done as real) / (total as real);
    assert q * (total as real) == done as real;
    assert q < 1.0;
  }

  lemma ProgressAtIncreasing(d1: nat, d2: nat, total: nat)
    requires d1 < d2 < total
    ensures ProgressAt(d1, total) < ProgressAt(d2, total)
  {
    var q1 := (d1 as real) / (total as real);
    var q2 := (d2 as real) / (total as real);
    assert q1 * (total as real) == d1 as real;
    assert q2 * (total as real) == d2 as real;
    assert q1 < q2;
  }

  /** The progress values in the stream strictly increase, those of the subject
      events stay below 90, and the first subject event reports 0. */
  lemma ProgressIncreases(body: RequestBody, paperInsert: Outcome, questionsInsert: Outcome, newId: Id)
    ensures var ev := RunEvents(body, paperInsert, questionsInsert, newId);
      forall i, j :: 0 <= i < j < |ev| && ev[i].progress.Some? && ev[j].progress.Some? ==>
        ev[i].progress.value < ev[j].progress.value
    ensures var ev := RunEvents(body, paperInsert, questionsInsert, newId);
      body.Parsed? ==> forall i :: 0 <= i < |Visited(body.request)| ==>
        ev[i].progress.Some? && 0.0 <= ev[i].progress.value < 90.0 &&
        (ev[i].progress.value == 0.0 <==> i == 0)
  {
    var ev := RunEvents(body, paperInsert, questionsInsert, newId);
    RunEventsShape(body, paperInsert, questionsInsert, newId);
    if body.Parsed? {
      var n := |Visited(body.request)|;
      forall i | 0 <= i < n
        ensures ev[i].progress.Some? && 0.0 <= ev[i].progress.value < 90.0 &&
                (ev[i].progress.value == 0.0 <==> i == 0)
      {
        ProgressAtBounds(i, n);
      }
      forall i, j | 0 <= i < j < |ev| && ev[i].progress.Some? && ev[j].progress.Some?
        ensures ev[i].progress.value < ev[j].progress.value
      {
        if j < n {
          ProgressAtIncreasing(i, j, n);
        } else if i < n {
          ProgressAtBounds(i, n);
        }
      }
    }
  }

  /** The list handed to the save: a permutation of the technical batches followed
      by the non-technical ones, so it holds one question per mark asked for and
      its metadata counts are the technical and non-technical totals. */
  lemma SavedListContents(req: GenerateRequest, bank: Bank, picks: seq<nat>)
    ensures var saved := Shuffle(AllQuestions(req, bank), picks);
      && multiset(saved) == multiset(AllQuestions(req, bank))
      && |saved| == TotalQuestions(req.technicalSubjects) + TotalQuestions(req.nonTechnicalSubjects)
      && PaperMetadata(saved) == Metadata(TotalQuestions(req.technicalSubjects), TotalQuestions(req.nonTechnicalSubjects))
  {
    var t := Collect(req.technicalSubjects, Technical, bank);
    var n := Collect(req.nonTechnicalSubjects, NonTechnical, bank);
    var saved := Shuffle(t + n, picks);
    ShuffleIsPermutation(t + n, picks);
    CollectSize(req.technicalSubjects, Technical, bank);
    CollectSize(req.nonTechnicalSubjects, NonTechnical, bank);
    CountUniform(t, Technical);
    CountUniform(n, NonTechnical);
    CountsPartition(t);
    CountsPartition(n);
    CountAppend(t, n, Technical);
    CountAppend(t, n, NonTechnical);
    CountPermutation(saved, t + n, Technical);
    CountPermutation(saved, t + n, NonTechnical);
  }
}
