/** The persistence layer (src/lib/supabase.ts) over an in-memory store.

    The hosted database is replaced by a `Store` object holding one sequence per
    table (`question_papers`, `questions`, `exam_sessions`) and the supply of fresh
    row ids. Every remote call reports an `Outcome`, which is an input here, so each
    operation's error path is modelled explicitly.

    The record building that the operations do before touching the tables (the
    metadata counts, the 1..N numbering, the conditional session patch) is pure and
    given as functions; the effect of `saveQuestionPaper` on the tables is the
    function `SaveEffect`, against which the method is proved. */
module Supabase {
  import opened Outcomes

  /** Row ids. The database hands out uuids; here they are naturals drawn from a
      counter. A uuid is never the empty string, so a present id is always truthy. */
  type Id = nat

  datatype Letter = A | B | C | D

  datatype Options = Options(a: string, b: string, c: string, d: string)

  datatype Category = Technical | NonTechnical

  datatype Difficulty = Easy | Medium | Hard

  /** A question as handed to `saveQuestionPaper`: a `Question` without the
      `id`, `paper_id` and `question_number` that the store adds. */
  datatype QuestionDraft = QuestionDraft(
    questionText: string,
    options: Options,
    correctAnswer: Letter,
    category: Category,
    subject: string,
    difficulty: Difficulty,
    marks: int,
    explanation: Option<string>)

  /** The `metadata` object of a paper row. */
  datatype Metadata = Metadata(technicalCount: nat, nonTechnicalCount: nat)

  /** A row of `question_papers`. */
  datatype QuestionPaper = QuestionPaper(
    id: Id,
    title: string,
    createdAt: string,
    totalMarks: int,
    durationMinutes: int,
    metadata: Metadata)

  /** A row of `questions`: the draft with the paper it belongs to and its number. */
  datatype Question = Question(paperId: Id, questionNumber: int, draft: QuestionDraft)

  datatype SessionStatus = InProgress | Completed | Abandoned

  /** A row of `exam_sessions`. */
  datatype ExamSession = ExamSession(
    id: Id,
    paperId: Id,
    startedAt: string,
    completedAt: Option<string>,
    responses: map<string, string>,
    score: Option<real>,
    status: SessionStatus)

  /** The `{ paper, error }` pair that `saveQuestionPaper` returns. */
  datatype SaveResult = SaveResult(paper: Option<QuestionPaper>, error: Option<string>)

  /** The partial `ExamSession` that `updateExamSession` sends: only the fields
      that are `Some` are written. */
  datatype SessionPatch = SessionPatch(
    responses: map<string, string>,
    status: Option<SessionStatus>,
    completedAt: Option<string>,
    score: Option<real>)

  /** The contents of the three tables and the next fresh id. */
  datatype Tables = Tables(
    papers: seq<QuestionPaper>,
    questions: seq<Question>,
    sessions: seq<ExamSession>,
    nextId: Id)

  // ---------------------------------------------------------------------------
  // Metadata: the category counts
  // ---------------------------------------------------------------------------

  /** `questions.filter(q => q.category === c).length` */
  function CountCategory(qs: seq<QuestionDraft>, c: Category): (n: nat)
    ensures n <= |qs|
    ensures n == 0 <==> forall i :: 0 <= i < |qs| ==> qs[i].category != c
  {
    if |qs| == 0 then 0
    else CountCategory(qs[..|qs| - 1], c) + (if qs[|qs| - 1].category == c then 1 else 0)
  }

  lemma {:induction false} CountAppend(a: seq<QuestionDraft>, b: seq<QuestionDraft>, c: Category)
    ensures CountCategory(a + b, c) == CountCategory(a, c) + CountCategory(b, c)
    decreases |b|
  {
    if |b| == 0 {
      assert a + b == a;
    } else {
      assert (a + b)[..|a + b| - 1] == a + b[..|b| - 1];
      CountAppend(a, b[..|b| - 1], c);
    }
  }

  /** Every question is either technical or non-technical, so the two counts of
      the metadata add up to the number of questions. */
  lemma {:induction false} CountsPartition(qs: seq<QuestionDraft>)
    ensures CountCategory(qs, Technical) + CountCategory(qs, NonTechnical) == |qs|
  {
    if |qs| > 0 {
      CountsPartition(qs[..|qs| - 1]);
    }
  }

  /** The counts depend only on which questions there are, not on their order:
      shuffling a list does not change its metadata. */
  lemma {:induction false} CountPermutation(a: seq<QuestionDraft>, b: seq<QuestionDraft>, c: Category)
    requires multiset(a) == multiset(b)
    ensures CountCategory(a, c) == CountCategory(b, c)
    decreases |a|
  {
    if |a| == 0 {
      assert |b| == |multiset(b)| == 0;
    } else {
      var j := LastIn(a, b);
      CountRemoveAt(b, j, c);
      CountPermutation(a[..|a| - 1], RemoveAt(b, j), c);
      assert a == a[..|a| - 1] + [a[|a| - 1]];
      CountAppend(a[..|a| - 1], [a[|a| - 1]], c);
      assert [a[|a| - 1]][..0] == [];
    }
  }

  /** Where the last element of `a` sits in a permutation `b` of it, and what
      is left of `b` once it is taken out is a permutation of the rest of `a`. */
  lemma LastIn(a: seq<QuestionDraft>, b: seq<QuestionDraft>) returns (j: nat)
    requires multiset(a) == multiset(b)
    requires |a| > 0
    ensures j < |b| && b[j] == a[|a| - 1]
    ensures multiset(a[..|a| - 1]) == multiset(RemoveAt(b, j))
  {
    var x := a[|a| - 1];
    assert a == a[..|a| - 1] + [x];
    assert x in multiset(b);
    j :| 0 <= j < |b| && b[j] == x;
  }

  /** `s` without its element at index `j`. */
  function RemoveAt<T>(s: seq<T>, j: nat): (r: seq<T>)
    requires j < |s|
    ensures |r| == |s| - 1
    ensures multiset(r) == multiset(s) - multiset{s[j]}
  {
    assert s == s[..j] + [s[j]] + s[j + 1..];
    s[..j] + s[j + 1..]
  }

  lemma CountRemoveAt(s: seq<QuestionDraft>, j: nat, c: Category)
    requires j < |s|
    ensures CountCategory(s, c) == CountCategory(RemoveAt(s, j), c) + (if s[j].category == c then 1 else 0)
  {
    assert s == (s[..j] + [s[j]]) + s[j + 1..];
    CountAppend(s[..j] + [s[j]], s[j + 1..], c);
    CountAppend(s[..j], [s[j]], c);
    CountAppend(s[..j], s[j + 1..], c);
    assert [s[j]][..0] == [];
  }

  /** The `metadata` object that `saveQuestionPaper` stores with a paper. */
  function PaperMetadata(qs: seq<QuestionDraft>): (m: Metadata)
    ensures m.technicalCount + m.nonTechnicalCount == |qs|
  {
    CountsPartition(qs);
    Metadata(CountCategory(qs, Technical), CountCategory(qs, NonTechnical))
  }

  // ---------------------------------------------------------------------------
  // Question rows: numbering and read-back
  // ---------------------------------------------------------------------------

  /** `questions.map((q, index) => ({ ...q, paper_id, question_number: index + 1 }))` */
  function NumberQuestions(qs: seq<QuestionDraft>, paperId: Id): seq<Question>
  {
    seq(|qs|, i requires 0 <= i < |qs| => Question(paperId, i + 1, qs[i]))
  }

  /** The question fields of rows, without `paper_id` and `question_number`. */
  function Drafts(rows: seq<Question>): seq<QuestionDraft>
  {
    seq(|rows|, i requires 0 <= i < |rows| => rows[i].draft)
  }

  /** Numbering keeps every field of every question and only adds the paper id
      and the numbers 1..N in list order. */
  lemma NumberingKeepsDrafts(qs: seq<QuestionDraft>, paperId: Id)
    ensures Drafts(NumberQuestions(qs, paperId)) == qs
    ensures |NumberQuestions(qs, paperId)| == |qs|
    ensures forall i :: 0 <= i < |qs| ==>
      NumberQuestions(qs, paperId)[i].paperId == paperId &&
      NumberQuestions(qs, paperId)[i].questionNumber == i + 1
  {
  }

  /** The rows of `questions` whose `paper_id` is `paperId`, in table order
      (`.eq('paper_id', paperId)`). */
  function QuestionsOf(rows: seq<Question>, paperId: Id): (r: seq<Question>)
    ensures |r| <= |rows|
  {
    if |rows| == 0 then []
    else
      var last := rows[|rows| - 1];
      QuestionsOf(rows[..|rows| - 1], paperId) + (if last.paperId == paperId then [last] else [])
  }

  /** The selection holds exactly the rows of that paper. */
  lemma {:induction false} QuestionsOfSelects(rows: seq<Question>, paperId: Id)
    ensures forall q :: q in QuestionsOf(rows, paperId) <==> q in rows && q.paperId == paperId
  {
    if |rows| > 0 {
      QuestionsOfSelects(rows[..|rows| - 1], paperId);
      assert rows == rows[..|rows| - 1] + [rows[|rows| - 1]];
    }
  }

  /** A paper none of whose rows are in the table selects nothing. */
  lemma {:induction false} QuestionsOfAbsent(rows: seq<Question>, paperId: Id)
    requires forall i :: 0 <= i < |rows| ==> rows[i].paperId != paperId
    ensures QuestionsOf(rows, paperId) == []
  {
    if |rows| > 0 {
      QuestionsOfAbsent(rows[..|rows| - 1], paperId);
    }
  }

  lemma {:induction false} QuestionsOfAppend(a: seq<Question>, b: seq<Question>, paperId: Id)
    ensures QuestionsOf(a + b, paperId) == QuestionsOf(a, paperId) + QuestionsOf(b, paperId)
    decreases |b|
  {
    if |b| == 0 {
      assert a + b == a;
    } else {
      assert (a + b)[..|a + b| - 1] == a + b[..|b| - 1];
      QuestionsOfAppend(a, b[..|b| - 1], paperId);
    }
  }

  lemma {:induction false} QuestionsOfAll(rows: seq<Question>, paperId: Id)
    requires forall i :: 0 <= i < |rows| ==> rows[i].paperId == paperId
    ensures QuestionsOf(rows, paperId) == rows
  {
    if |rows| > 0 {
      QuestionsOfAll(rows[..|rows| - 1], paperId);
      assert rows == rows[..|rows| - 1] + [rows[|rows| - 1]];
    }
  }

  /** Within one paper, rows appear in the table in increasing question-number order. */
  ghost predicate NumberedInOrder(rows: seq<Question>)
  {
    forall i, j :: 0 <= i < j < |rows| && rows[i].paperId == rows[j].paperId ==>
      rows[i].questionNumber < rows[j].questionNumber
  }

  /** The rows come out ordered by ascending `question_number`
      (`.order('question_number', { ascending: true })`). */
  ghost predicate AscendingNumbers(rows: seq<Question>)
  {
    forall i, j :: 0 <= i < j < |rows| ==> rows[i].questionNumber < rows[j].questionNumber
  }

  /** On a table whose rows are numbered in order per paper, selecting one paper's
      rows in table order already gives them by ascending number. */
  lemma {:induction false} QuestionsOfAscending(rows: seq<Question>, paperId: Id)
    requires NumberedInOrder(rows)
    ensures AscendingNumbers(QuestionsOf(rows, paperId))
  {
    if |rows| > 0 {
      var n := |rows|;
      var init := rows[..n - 1];
      var last := rows[n - 1];
      assert NumberedInOrder(init) by {
        forall i, j | 0 <= i < j < |init| && init[i].paperId == init[j].paperId
          ensures init[i].questionNumber < init[j].questionNumber
        {
          assert init[i] == rows[i] && init[j] == rows[j];
        }
      }
      QuestionsOfAscending(init, paperId);
      QuestionsOfSelects(init, paperId);
      var r' := QuestionsOf(init, paperId);
      if last.paperId == paperId {
        var r := r' + [last];
        forall i, j | 0 <= i < j < |r|
          ensures r[i].questionNumber < r[j].questionNumber
        {
          if j < |r'| {
            assert r[i] == r'[i] && r[j] == r'[j];
          } else {
            assert r[i] == r'[i] && r'[i] in r';
            var k :| 0 <= k < |init| && init[k] == r'[i];
            assert rows[k] == r'[i] && rows[n - 1] == r[j];
          }
        }
      }
    }
  }

  /** Questions saved under a fresh paper id are read back as exactly the
      numbered rows that were inserted. */
  lemma ReadBackFreshPaper(rows: seq<Question>, qs: seq<QuestionDraft>, paperId: Id)
    requires forall i :: 0 <= i < |rows| ==> rows[i].paperId < paperId
    ensures QuestionsOf(rows + NumberQuestions(qs, paperId), paperId) == NumberQuestions(qs, paperId)
  {
    QuestionsOfAppend(rows, NumberQuestions(qs, paperId), paperId);
    QuestionsOfAll(NumberQuestions(qs, paperId), paperId);
    QuestionsOfAbsent(rows, paperId);
  }

  // ---------------------------------------------------------------------------
  // Row lookup (`.eq('id', ...).single()`)
  // ---------------------------------------------------------------------------

  ghost predicate IncreasingPaperIds(papers: seq<QuestionPaper>)
  {
    forall i, j :: 0 <= i < j < |papers| ==> papers[i].id < papers[j].id
  }

  ghost predicate IncreasingSessionIds(sessions: seq<ExamSession>)
  {
    forall i, j :: 0 <= i < j < |sessions| ==> sessions[i].id < sessions[j].id
  }

  /** The paper row with the given id, `None` when there is none. */
  function FindPaper(papers: seq<QuestionPaper>, id: Id): (r: Option<QuestionPaper>)
    ensures r.Some? ==> r.value in papers && r.value.id == id
    ensures r.None? <==> forall p :: p in papers ==> p.id != id
  {
    if |papers| == 0 then None
    else if papers[0].id == id then Some(papers[0])
    else
      assert papers == [papers[0]] + papers[1..];
      FindPaper(papers[1..], id)
  }

  /** The session row with the given id, `None` when there is none. */
  function FindSession(sessions: seq<ExamSession>, id: Id): (r: Option<ExamSession>)
    ensures r.Some? ==> r.value in sessions && r.value.id == id
    ensures r.None? <==> forall s :: s in sessions ==> s.id != id
  {
    if |sessions| == 0 then None
    else if sessions[0].id == id then Some(sessions[0])
    else
      assert sessions == [sessions[0]] + sessions[1..];
      FindSession(sessions[1..], id)
  }

  /** `.delete().eq('id', paperId)` on `question_papers`: every other row is kept,
      in order. */
  function RemovePaper(papers: seq<QuestionPaper>, id: Id): (r: seq<QuestionPaper>)
    ensures forall p :: p in r <==> p in papers && p.id != id
    ensures IncreasingPaperIds(papers) ==> IncreasingPaperIds(r)
  {
    if |papers| == 0 then []
    else
      var rest := RemovePaper(papers[1..], id);
      assert papers == [papers[0]] + papers[1..];
      TailIncreasing(papers);
      if papers[0].id == id then rest
      else
        ConsIncreasing(papers[0], rest);
        [papers[0]] + rest
  }

  /** Below the first row of a table with increasing ids, the ids still increase
      and all exceed the first. */
  lemma TailIncreasing(papers: seq<QuestionPaper>)
    requires |papers| > 0
    ensures IncreasingPaperIds(papers) ==> IncreasingPaperIds(papers[1..])
    ensures IncreasingPaperIds(papers) ==> forall q :: q in papers[1..] ==> papers[0].id < q.id
  {
    if IncreasingPaperIds(papers) {
      forall i, j | 0 <= i < j < |papers[1..]| ensures papers[1..][i].id < papers[1..][j].id {
        assert papers[1..][i] == papers[i + 1] && papers[1..][j] == papers[j + 1];
      }
      forall q | q in papers[1..] ensures papers[0].id < q.id {
        var k :| 0 <= k < |papers[1..]| && papers[1..][k] == q;
        assert papers[k + 1] == q;
      }
    }
  }

  /** A row put in front of rows with increasing, larger ids keeps them increasing. */
  lemma ConsIncreasing(p: QuestionPaper, rest: seq<QuestionPaper>)
    ensures IncreasingPaperIds(rest) && (forall q :: q in rest ==> p.id < q.id) ==> IncreasingPaperIds([p] + rest)
  {
    if IncreasingPaperIds(rest) && (forall q :: q in rest ==> p.id < q.id) {
      forall i, j | 0 <= i < j < |[p] + rest| ensures ([p] + rest)[i].id < ([p] + rest)[j].id {
        assert ([p] + rest)[j] == rest[j - 1];
        if i == 0 {
          assert rest[j - 1] in rest;
        } else {
          assert ([p] + rest)[i] == rest[i - 1];
        }
      }
    }
  }

  // ---------------------------------------------------------------------------
  // Exam-session patch
  // ---------------------------------------------------------------------------

  /** The `updateData` object of `updateExamSession`. */
  function BuildPatch(responses: map<string, string>, completed: bool, score: Option<real>, now: string): SessionPatch
  {
    if completed then SessionPatch(responses, Some(Completed), Some(now), score)
    else SessionPatch(responses, None, None, None)
  }

  /** Writing a patch into a row: the fields the patch carries win, the rest stay. */
  function ApplyPatch(s: ExamSession, p: SessionPatch): ExamSession
  {
    s.(responses := p.responses,
       status := if p.status.Some? then p.status.value else s.status,
       completedAt := if p.completedAt.Some? then p.completedAt else s.completedAt,
       score := if p.score.Some? then p.score else s.score)
  }

  /** `.update(patch).eq('id', sessionId)` on `exam_sessions`. */
  function UpdateSessions(sessions: seq<ExamSession>, id: Id, p: SessionPatch): seq<ExamSession>
  {
    seq(|sessions|, i requires 0 <= i < |sessions| =>
      if sessions[i].id == id then ApplyPatch(sessions[i], p) else sessions[i])
  }

  /** What `updateExamSession` does to the session row it targets: `responses`
      is always replaced; `status` and `completed_at` change only for a completed
      exam; `score` changes only for a completed exam that has a score; the
      identity, paper and start time of the row never change. */
  lemma SessionUpdateEffect(s: ExamSession, responses: map<string, string>, completed: bool, score: Option<real>, now: string)
    ensures var r := ApplyPatch(s, BuildPatch(responses, completed, score, now));
      && r.responses == responses
      && r.status == (if completed then Completed else s.status)
      && r.completedAt == (if completed then Some(now) else s.completedAt)
      && r.score == (if completed && score.Some? then score else s.score)
      && r.id == s.id && r.paperId == s.paperId && r.startedAt == s.startedAt
  {
  }

  // ---------------------------------------------------------------------------
  // The store invariant and the effect of saving a paper
  // ---------------------------------------------------------------------------

  /** Every row id in use is below the next fresh id; paper and session ids grow
      along their tables; every question row references an id already handed out
      and question rows are in number order within each paper. */
  ghost predicate ValidTables(t: Tables)
  {
    && (forall i :: 0 <= i < |t.papers| ==> t.papers[i].id < t.nextId)
    && IncreasingPaperIds(t.papers)
    && (forall i :: 0 <= i < |t.questions| ==> t.questions[i].paperId < t.nextId)
    && NumberedInOrder(t.questions)
    && (forall i :: 0 <= i < |t.sessions| ==> t.sessions[i].id < t.nextId)
    && IncreasingSessionIds(t.sessions)
  }

  /** The row `saveQuestionPaper` inserts into `question_papers`. */
  function NewPaper(t: Tables, title: string, qs: seq<QuestionDraft>, totalMarks: int, durationMinutes: int, createdAt: string): QuestionPaper
  {
    QuestionPaper(t.nextId, title, createdAt, totalMarks, durationMinutes, PaperMetadata(qs))
  }

  /** The tables after `saveQuestionPaper`: the paper row is inserted first; the
      question rows follow only when that succeeded and are inserted together or
      not at all. A paper row that was inserted stays when the question insert
      fails: nothing rolls it back. */
  function SaveEffect(t: Tables, title: string, qs: seq<QuestionDraft>, totalMarks: int, durationMinutes: int,
                      createdAt: string, paperInsert: Outcome, questionsInsert: Outcome): Tables
  {
    if paperInsert.Fail? then t
    else
      var paper := NewPaper(t, title, qs, totalMarks, durationMinutes, createdAt);
      Tables(t.papers + [paper],
             if questionsInsert.Ok? then t.questions + NumberQuestions(qs, paper.id) else t.questions,
             t.sessions,
             t.nextId + 1)
  }

  /** The `{ paper, error }` that `saveQuestionPaper` returns. */
  function SaveReply(t: Tables, title: string, qs: seq<QuestionDraft>, totalMarks: int, durationMinutes: int,
                     createdAt: string, paperInsert: Outcome, questionsInsert: Outcome): SaveResult
  {
    if paperInsert.Fail? then SaveResult(None, Some(paperInsert.message))
    else if questionsInsert.Fail? then SaveResult(None, Some(questionsInsert.message))
    else SaveResult(Some(NewPaper(t, title, qs, totalMarks, durationMinutes, createdAt)), None)
  }

  /** Saving keeps the store invariant, whatever the two inserts report. */
  lemma SaveKeepsValid(t: Tables, title: string, qs: seq<QuestionDraft>, totalMarks: int, durationMinutes: int,
                       createdAt: string, paperInsert: Outcome, questionsInsert: Outcome)
    requires ValidTables(t)
    ensures ValidTables(SaveEffect(t, title, qs, totalMarks, durationMinutes, createdAt, paperInsert, questionsInsert))
  {
    if paperInsert.Ok? && questionsInsert.Ok? {
      var rows := NumberQuestions(qs, t.nextId);
      var all := t.questions + rows;
      forall i, j | 0 <= i < j < |all|
        ensures all[i].paperId == all[j].paperId ==> all[i].questionNumber < all[j].questionNumber
      {
        if j < |t.questions| {
          assert all[i] == t.questions[i] && all[j] == t.questions[j];
        } else if i >= |t.questions| {
          assert all[i] == rows[i - |t.questions|] && all[j] == rows[j - |t.questions|];
        } else {
          assert all[i] == t.questions[i] && all[j] == rows[j - |t.questions|];
          assert all[i].paperId < t.nextId == all[j].paperId;
        }
      }
    }
  }

  /** Round trip: after a save whose two inserts succeed, the reply carries the
      new paper; looking that paper up finds it with the metadata counts of the
      list, and its questions are the saved list, field for field, numbered
      1..N in list order. */
  lemma SaveThenReadBack(t: Tables, title: string, qs: seq<QuestionDraft>, totalMarks: int, durationMinutes: int, createdAt: string)
    requires ValidTables(t)
    ensures var t' := SaveEffect(t, title, qs, totalMarks, durationMinutes, createdAt, Ok, Ok);
            var paper := NewPaper(t, title, qs, totalMarks, durationMinutes, createdAt);
            var rows := QuestionsOf(t'.questions, paper.id);
      && SaveReply(t, title, qs, totalMarks, durationMinutes, createdAt, Ok, Ok) == SaveResult(Some(paper), None)
      && FindPaper(t'.papers, paper.id) == Some(paper)
      && paper.metadata.technicalCount == CountCategory(qs, Technical)
      && paper.metadata.nonTechnicalCount == CountCategory(qs, NonTechnical)
      && Drafts(rows) == qs
      && (forall i :: 0 <= i < |rows| ==> rows[i].questionNumber == i + 1)
  {
    var paper := NewPaper(t, title, qs, totalMarks, durationMinutes, createdAt);
    ReadBackFreshPaper(t.questions, qs, paper.id);
    NumberingKeepsDrafts(qs, paper.id);
    FindAppendFresh(t.papers, paper);
  }

  /** No rollback: when the paper insert succeeds and the question insert fails,
      the caller is told there is no paper, yet the new paper row is in the table
      and reads back with no questions. */
  lemma SaveLeavesOrphanPaper(t: Tables, title: string, qs: seq<QuestionDraft>, totalMarks: int, durationMinutes: int,
                              createdAt: string, failure: string)
    requires ValidTables(t)
    ensures var t' := SaveEffect(t, title, qs, totalMarks, durationMinutes, createdAt, Ok, Fail(failure));
            var paper := NewPaper(t, title, qs, totalMarks, durationMinutes, createdAt);
      && SaveReply(t, title, qs, totalMarks, durationMinutes, createdAt, Ok, Fail(failure)) == SaveResult(None, Some(failure))
      && FindPaper(t'.papers, paper.id) == Some(paper)
      && QuestionsOf(t'.questions, paper.id) == []
  {
    var paper := NewPaper(t, title, qs, totalMarks, durationMinutes, createdAt);
    FindAppendFresh(t.papers, paper);
    QuestionsOfAbsent(t.questions, paper.id);
  }

  /** A failed paper insert changes nothing and inserts no question rows. */
  lemma SavePaperInsertFails(t: Tables, title: string, qs: seq<QuestionDraft>, totalMarks: int, durationMinutes: int,
                             createdAt: string, failure: string, questionsInsert: Outcome)
    ensures SaveEffect(t, title, qs, totalMarks, durationMinutes, createdAt, Fail(failure), questionsInsert) == t
    ensures SaveReply(t, title, qs, totalMarks, durationMinutes, createdAt, Fail(failure), questionsInsert) == SaveResult(None, Some(failure))
  {
  }

  /** Nothing else changes: saving leaves the sessions, every paper that was
      already there, and the questions of every paper that was already there as
      they were. */
  lemma SaveKeepsOtherPapers(t: Tables, title: string, qs: seq<QuestionDraft>, totalMarks: int, durationMinutes: int,
                             createdAt: string, paperInsert: Outcome, questionsInsert: Outcome, id: Id)
    requires ValidTables(t)
    requires id < t.nextId
    ensures var t' := SaveEffect(t, title, qs, totalMarks, durationMinutes, createdAt, paperInsert, questionsInsert);
      && t'.sessions == t.sessions
      && FindPaper(t'.papers, id) == FindPaper(t.papers, id)
      && QuestionsOf(t'.questions, id) == QuestionsOf(t.questions, id)
  {
    if paperInsert.Ok? {
      var paper := NewPaper(t, title, qs, totalMarks, durationMinutes, createdAt);
      FindAppendOther(t.papers, paper, id);
      if questionsInsert.Ok? {
        var rows := NumberQuestions(qs, paper.id);
        QuestionsOfAppend(t.questions, rows, id);
        QuestionsOfAbsent(rows, id);
      }
    }
  }

  lemma {:induction false} FindAppendOther(papers: seq<QuestionPaper>, p: QuestionPaper, id: Id)
    requires p.id != id
    ensures FindPaper(papers + [p], id) == FindPaper(papers, id)
  {
    if |papers| > 0 {
      assert (papers + [p])[1..] == papers[1..] + [p];
      FindAppendOther(papers[1..], p, id);
    }
  }

  lemma {:induction false} FindAppendFresh(papers: seq<QuestionPaper>, p: QuestionPaper)
    requires forall i :: 0 <= i < |papers| ==> papers[i].id < p.id
    ensures FindPaper(papers + [p], p.id) == Some(p)
  {
    if |papers| > 0 {
      assert (papers + [p])[1..] == papers[1..] + [p];
      FindAppendFresh(papers[1..], p);
    }
  }

  // ---------------------------------------------------------------------------
  // The store
  // ---------------------------------------------------------------------------

  /** The three tables of the database, held in memory. */
  class Store {
    var papers: seq<QuestionPaper>
    var questions: seq<Question>
    var sessions: seq<ExamSession>
    var nextId: Id

    ghost function Snapshot(): Tables
      reads this
    {
      Tables(papers, questions, sessions, nextId)
    }

    ghost predicate Valid()
      reads this
    {
      ValidTables(Snapshot())
    }

    constructor ()
      ensures Valid()
      ensures Snapshot() == Tables([], [], [], 0)
    {
      papers, questions, sessions, nextId := [], [], [], 0;
    }

    /** `saveQuestionPaper(title, questions, totalMarks, durationMinutes)`; the
        database's `created_at` default is the `createdAt` input. */
    method SaveQuestionPaper(title: string, qs: seq<QuestionDraft>, totalMarks: int, durationMinutes: int,
                             createdAt: string, paperInsert: Outcome, questionsInsert: Outcome)
      returns (result: SaveResult)
      requires Valid()
      modifies this
      ensures Valid()
      ensures Snapshot() == SaveEffect(old(Snapshot()), title, qs, totalMarks, durationMinutes, createdAt, paperInsert, questionsInsert)
      ensures result == SaveReply(old(Snapshot()), title, qs, totalMarks, durationMinutes, createdAt, paperInsert, questionsInsert)
    {
      SaveKeepsValid(Snapshot(), title, qs, totalMarks, durationMinutes, createdAt, paperInsert, questionsInsert);
      if paperInsert.Fail? {
        return SaveResult(None, Some(paperInsert.message));
      }
      var paper := QuestionPaper(nextId, title, createdAt, totalMarks, durationMinutes, PaperMetadata(qs));
      papers := papers + [paper];
      nextId := nextId + 1;
      var rows := NumberQuestions(qs, paper.id);
      if questionsInsert.Fail? {
        return SaveResult(None, Some(questionsInsert.message));
      }
      questions := questions + rows;
      result := SaveResult(Some(paper), None);
    }

    /** `getQuestionPaperById(paperId)`: a missing paper or a failed paper fetch
        gives no paper and no questions; a failed question fetch gives the paper
        and no questions; otherwise the paper's questions, by ascending number. */
    method GetQuestionPaperById(paperId: Id, paperFetch: Outcome, questionsFetch: Outcome)
      returns (paper: Option<QuestionPaper>, qs: seq<Question>)
      requires Valid()
      ensures paperFetch.Fail? || FindPaper(papers, paperId).None? ==> paper.None? && qs == []
      ensures paperFetch.Ok? && FindPaper(papers, paperId).Some? ==>
        paper == FindPaper(papers, paperId) &&
        qs == (if questionsFetch.Ok? then QuestionsOf(questions, paperId) else [])
      ensures paper.Some? ==> paper.value in papers && paper.value.id == paperId
      ensures forall q :: q in qs ==> q in questions && q.paperId == paperId
      ensures AscendingNumbers(qs)
    {
      var found := FindPaper(papers, paperId);
      if paperFetch.Fail? || found.None? {
        return None, [];
      }
      paper := found;
      if questionsFetch.Fail? {
        return paper, [];
      }
      qs := QuestionsOf(questions, paperId);
      QuestionsOfAscending(questions, paperId);
      QuestionsOfSelects(questions, paperId);
    }

    /** `deleteQuestionPaper(paperId)`: true exactly when the delete reported no
        error, including when no row had that id. */
    method DeleteQuestionPaper(paperId: Id, delete: Outcome) returns (deleted: bool)
      requires Valid()
      modifies this
      ensures Valid()
      ensures deleted <==> delete.Ok?
      ensures papers == if deleted then RemovePaper(old(papers), paperId) else old(papers)
      ensures questions == old(questions) && sessions == old(sessions) && nextId == old(nextId)
    {
      if delete.Fail? {
        return false;
      }
      papers := RemovePaper(papers, paperId);
      forall i | 0 <= i < |papers| ensures papers[i].id < nextId {
        assert papers[i] in papers;
        var k :| 0 <= k < |old(papers)| && old(papers)[k] == papers[i];
      }
      deleted := true;
    }

    /** `createExamSession(paperId)`: a new row for the paper, with no responses,
        in progress; `startedAt` is the database's default timestamp. */
    method CreateExamSession(paperId: Id, startedAt: string, insert: Outcome) returns (session: Option<ExamSession>)
      requires Valid()
      modifies this
      ensures Valid()
      ensures insert.Fail? ==> session.None? && Snapshot() == old(Snapshot())
      ensures insert.Ok? ==>
        session == Some(ExamSession(old(nextId), paperId, startedAt, None, map[], None, InProgress)) &&
        sessions == old(sessions) + [session.value] &&
        nextId == old(nextId) + 1
      ensures papers == old(papers) && questions == old(questions)
    {
      if insert.Fail? {
        return None;
      }
      var s := ExamSession(nextId, paperId, startedAt, None, map[], None, InProgress);
      sessions := sessions + [s];
      nextId := nextId + 1;
      session := Some(s);
    }

    /** `updateExamSession(sessionId, responses, completed, score)`; `now` is the
        `new Date().toISOString()` timestamp. */
    method UpdateExamSession(sessionId: Id, responses: map<string, string>, completed: bool, score: Option<real>,
                             now: string, update: Outcome) returns (updated: bool)
      requires Valid()
      modifies this
      ensures Valid()
      ensures updated <==> update.Ok?
      ensures sessions == if updated then UpdateSessions(old(sessions), sessionId, BuildPatch(responses, completed, score, now))
                          else old(sessions)
      ensures papers == old(papers) && questions == old(questions) && nextId == old(nextId)
    {
      var patch := BuildPatch(responses, completed, score, now);
      if update.Fail? {
        return false;
      }
      sessions := UpdateSessions(sessions, sessionId, patch);
      updated := true;
    }

    /** `getExamSessionById(sessionId)`: the session and the paper it belongs to;
        each lookup that fails or finds no row gives `None` at that point. */
    method GetExamSessionById(sessionId: Id, sessionFetch: Outcome, paperFetch: Outcome)
      returns (session: Option<ExamSession>, paper: Option<QuestionPaper>)
      requires Valid()
      ensures sessionFetch.Fail? ==> session.None? && paper.None?
      ensures sessionFetch.Ok? ==> session == FindSession(sessions, sessionId)
      ensures session.None? ==> paper.None?
      ensures session.Some? ==>
        paper == (if paperFetch.Ok? then FindPaper(papers, session.value.paperId) else None)
    {
      session := FindSession(sessions, sessionId);
      if sessionFetch.Fail? || session.None? {
        return None, None;
      }
      if paperFetch.Fail? {
        return session, None;
      }
      paper := FindPaper(papers, session.value.paperId);
    }
  }
}
