/** The paper-generation page (src/app/generate/page.tsx).

    The page posts the two fixed subject tables to the endpoint and follows its
    stream: every chunk the reader delivers is split into lines, blank lines are
    dropped, and each remaining line is parsed and applied to the page's state.
    `GeneratePage` is that state, and `GenerateQuestionPaper` the reader loop,
    proved against the pure fold `Generate`. */
module GenerateClient {
  import opened Outcomes
  import opened Supabase
  import opened GenerateRoute

  // ---------------------------------------------------------------------------
  // The subject tables sent to the endpoint
  // ---------------------------------------------------------------------------

  const TechnicalSubjects: seq<Subject> := [
    Subject("C/C++ Programming", 10.0, ["pointers", "arrays", "functions", "structures", "file handling", "OOP concepts"]),
    Subject("Data Structures", 8.0, ["arrays", "linked lists", "stacks", "queues", "trees", "sorting algorithms"]),
    Subject("DBMS & SQL", 10.0, ["normalization", "SQL queries", "joins", "transactions", "ACID properties", "ER diagrams"]),
    Subject("Operating Systems", 8.0, ["process management", "memory management", "file systems", "scheduling", "deadlocks"]),
    Subject("Computer Networks", 8.0, ["OSI model", "TCP/IP", "protocols", "IP addressing", "routing", "network security"]),
    Subject("Web Technologies", 8.0, ["HTML", "CSS", "JavaScript", "HTTP", "web servers", "security"]),
    Subject("Software Engineering", 8.0, ["SDLC", "testing", "agile", "design patterns", "UML diagrams"])
  ]

  const NonTechnicalSubjects: seq<Subject> := [
    Subject("Reasoning", 10.0, ["analogies", "coding-decoding", "series", "syllogism", "blood relations", "directions"]),
    Subject("Mathematics", 10.0, ["percentages", "profit-loss", "time-work", "algebra", "geometry", "number system"]),
    Subject("English Language", 10.0, ["grammar", "vocabulary", "comprehension", "error spotting", "sentence correction"]),
    Subject("General Studies/GK", 10.0, ["current affairs", "Indian history", "geography", "polity", "science facts"])
  ]

  /** The body `generateQuestionPaper` posts. */
  const ConfiguredRequest: GenerateRequest := GenerateRequest(TechnicalSubjects, NonTechnicalSubjects)

  /** The tables ask for 60 technical and 40 non-technical questions, so a paper
      generated from them has the 100 questions the page advertises, split 60/40
      in its metadata, whatever the bank and the shuffle. */
  lemma ConfiguredTotals(bank: Bank, picks: seq<nat>)
    ensures TotalQuestions(TechnicalSubjects) == 60
    ensures TotalQuestions(NonTechnicalSubjects) == 40
    ensures var saved := Shuffle(AllQuestions(ConfiguredRequest, bank), picks);
      |saved| == 100 && PaperMetadata(saved) == Metadata(60, 40)
  {
    var t, n := TechnicalSubjects, NonTechnicalSubjects;
    assert TotalQuestions(t[..1]) == 10 by { assert t[..1][..0] == []; }
    assert TotalQuestions(t[..2]) == 18 by { assert t[..2][..1] == t[..1]; }
    assert TotalQuestions(t[..3]) == 28 by { assert t[..3][..2] == t[..2]; }
    assert TotalQuestions(t[..4]) == 36 by { assert t[..4][..3] == t[..3]; }
    assert TotalQuestions(t[..5]) == 44 by { assert t[..5][..4] == t[..4]; }
    assert TotalQuestions(t[..6]) == 52 by { assert t[..6][..5] == t[..5]; }
    assert TotalQuestions(t) == 60 by { assert t[..6] == t[..|t| - 1]; }
    assert TotalQuestions(n[..1]) == 10 by { assert n[..1][..0] == []; }
    assert TotalQuestions(n[..2]) == 20 by { assert n[..2][..1] == n[..1]; }
    assert TotalQuestions(n[..3]) == 30 by { assert n[..3][..2] == n[..2]; }
    assert TotalQuestions(n) == 40 by { assert n[..3] == n[..|n| - 1]; }
    SavedListContents(ConfiguredRequest, bank, picks);
  }

  // ---------------------------------------------------------------------------
  // Page state
  // ---------------------------------------------------------------------------

  datatype GenerationStatus = Idle | Generating | Saving | Complete | Error

  /** The five `useState` values of the page. */
  datatype PageState = PageState(
    status: GenerationStatus,
    progress: real,
    currentSubject: string,
    error: Option<string>,
    generatedPaperId: Option<Id>)

  /** The state of a freshly mounted page. */
  const InitialState: PageState := PageState(Idle, 0.0, "", None, None)

  /** The result of `JSON.parse(line)` followed by the field reads: an event, or
      an exception (a line that is not JSON, or not an object). */
  datatype Parsed = Malformed | Json(event: Event)

  /** A value thrown inside the outer `try`: an `Error` with its message, or
      anything else. */
  datatype Failure = ErrorObject(message: string) | OtherValue

  /** What the reader yields: the decoded chunks in order, and then either the
      end of the stream or a rejected `read()`. */
  datatype Stream = Stream(chunks: seq<string>, failure: Option<Failure>)

  /** The outcome of `fetch`: a rejection, or a response with its `ok` flag and
      its body (absent when `response.body` is null). */
  datatype Response = FetchRejected(failure: Failure) | Response(ok: bool, body: Option<Stream>)

  /** `err instanceof Error ? err.message : 'An error occurred'` */
  function CaughtMessage(f: Failure): string
  {
    match f
    case ErrorObject(message) => message
    case OtherValue => "An error occurred"
  }

  // ---------------------------------------------------------------------------
  // Lines of a chunk
  // ---------------------------------------------------------------------------

  /** `s.split('\n')`: the pieces between line feeds, an empty piece before a
      leading and after a trailing line feed, and `[""]` for the empty string. */
  function Split(s: string): (r: seq<string>)
    ensures |r| >= 1
    ensures forall i :: 0 <= i < |r| ==> '\n' !in r[i]
  {
    if |s| == 0 then [""]
    else
      var rest := Split(s[1..]);
      if s[0] == '\n' then [""] + rest
      else [[s[0]] + rest[0]] + rest[1..]
  }

  /** `pieces.join('\n')` */
  function Join(pieces: seq<string>): string
    requires |pieces| >= 1
  {
    if |pieces| == 1 then pieces[0] else pieces[0] + "\n" + Join(pieces[1..])
  }

  /** Splitting loses nothing: joining the pieces gives the chunk back. */
  lemma {:induction false} JoinSplit(s: string)
    ensures Join(Split(s)) == s
  {
    if |s| > 0 {
      var rest := Split(s[1..]);
      JoinSplit(s[1..]);
      if s[0] == '\n' {
        assert ([""] + rest)[1..] == rest;
        assert s == [s[0]] + s[1..];
      } else {
        var r := [[s[0]] + rest[0]] + rest[1..];
        if |rest| == 1 {
          assert s == [s[0]] + s[1..];
        } else {
          assert r[1..] == rest[1..];
          assert Join(rest) == rest[0] + "\n" + Join(rest[1..]);
          assert s == [s[0]] + s[1..];
        }
      }
    }
  }

  /** And the other way round: splitting joined pieces without line feeds gives
      the pieces back. */
  lemma {:induction false} SplitJoin(pieces: seq<string>)
    requires |pieces| >= 1
    requires forall i :: 0 <= i < |pieces| ==> '\n' !in pieces[i]
    ensures Split(Join(pieces)) == pieces
  {
    if |pieces| == 1 {
      SplitPlain(pieces[0]);
    } else {
      SplitJoin(pieces[1..]);
      SplitBefore(pieces[0], Join(pieces[1..]));
      assert pieces == [pieces[0]] + pieces[1..];
    }
  }

  /** A piece without line feeds splits into itself. */
  lemma {:induction false} SplitPlain(x: string)
    requires '\n' !in x
    ensures Split(x) == [x]
  {
    if |x| > 0 {
      SplitPlain(x[1..]);
      assert x == [x[0]] + x[1..];
    }
  }

  /** Splitting `x + "\n" + y`, for `x` without line feeds. */
  lemma {:induction false} SplitBefore(x: string, y: string)
    requires '\n' !in x
    ensures Split(x + "\n" + y) == [x] + Split(y)
    decreases |x|
  {
    if |x| == 0 {
      assert x + "\n" + y == "\n" + y;
      assert ("\n" + y)[1..] == y;
    } else {
      var s := x + "\n" + y;
      assert s[0] == x[0];
      assert s[1..] == x[1..] + "\n" + y;
      SplitBefore(x[1..], y);
      assert x == [x[0]] + x[1..];
    }
  }

  /** The white space `String.prototype.trim` removes: white space and line
      terminators as ECMAScript defines them (section 12.2 and 12.3 of
      ECMA-262). */
  predicate IsWhitespace(c: char)
  {
    || c == '\t' || c == '\U{000B}' || c == '\U{000C}' || c == ' ' || c == '\U{00A0}' || c == '\U{FEFF}'
    || c == '\n' || c == '\r' || c == '\U{2028}' || c == '\U{2029}'
    || c == '\U{1680}' || ('\U{2000}' <= c <= '\U{200A}') || c == '\U{202F}' || c == '\U{205F}' || c == '\U{3000}'
  }

  /** A line whose `trim()` is the empty string, so the filter drops it. */
  predicate Blank(line: string)
  {
    forall i :: 0 <= i < |line| ==> IsWhitespace(line[i])
  }

  /** `.filter(line => line.trim())` */
  function NonBlank(lines: seq<string>): (r: seq<string>)
  {
    if |lines| == 0 then []
    else if Blank(lines[0]) then NonBlank(lines[1..])
    else [lines[0]] + NonBlank(lines[1..])
  }

  /** The filter keeps exactly the lines that are not blank, in their order. */
  lemma {:induction false} NonBlankKeeps(lines: seq<string>)
    ensures forall i :: 0 <= i < |NonBlank(lines)| ==> !Blank(NonBlank(lines)[i])
    ensures forall line :: line in lines && !Blank(line) <==> line in NonBlank(lines)
    ensures |NonBlank(lines)| <= |lines|
  {
    if |lines| > 0 {
      NonBlankKeeps(lines[1..]);
      assert lines == [lines[0]] + lines[1..];
    }
  }

  /** The filter works line by line: a single line is kept exactly when it is
      not blank, and filtering two runs of lines one after the other gives the
      kept lines of the first followed by those of the second. Together these fix
      the order and the multiplicity of what is kept. */
  lemma {:induction false} NonBlankAppend(a: seq<string>, b: seq<string>)
    ensures NonBlank(a + b) == NonBlank(a) + NonBlank(b)
    ensures |a| == 1 ==> NonBlank(a) == if Blank(a[0]) then [] else [a[0]]
  {
    if |a| == 0 {
      assert a + b == b;
    } else {
      assert (a + b)[0] == a[0];
      assert (a + b)[1..] == a[1..] + b;
      NonBlankAppend(a[1..], b);
      if |a| == 1 {
        assert a[1..] == [];
      }
    }
  }

  /** The lines of one chunk that the reader loop parses. */
  function LinesOf(chunk: string): seq<string>
  {
    NonBlank(Split(chunk))
  }

  /** One written event line, `JSON.stringify(data) + '\n'`, arrives as the
      single line `JSON.stringify(data)`. */
  lemma LinesOfEventLine(x: string)
    requires '\n' !in x && !Blank(x)
    ensures LinesOf(x + "\n") == [x]
  {
    SplitBefore(x, "");
    assert x + "\n" == x + "\n" + "";
    assert Blank("");
    assert NonBlank([x, ""]) == [x] + NonBlank([""]);
    assert [x] + Split("") == [x, ""];
  }

  // ---------------------------------------------------------------------------
  // Applying events
  // ---------------------------------------------------------------------------

  /** The body of the inner `try` for one parsed line. Falsy values are skipped:
      a progress of 0 and an empty subject change nothing. An event carrying an
      `error` raises inside that same `try` and is swallowed by its `catch`, so
      it changes nothing either. */
  function ApplyEvent(v: PageState, e: Event): PageState
  {
    var v1 := if e.progress.Some? && e.progress.value != 0.0 then v.(progress := e.progress.value) else v;
    var v2 := if e.subject.Some? && e.subject.value != "" then v1.(currentSubject := e.subject.value) else v1;
    var v3 := if e.status == Some("saving") then v2.(status := Saving) else v2;
    if e.status == Some("complete") && e.paperId.Some? then v3.(generatedPaperId := e.paperId, status := Complete)
    else v3
  }

  function ApplyLine(v: PageState, line: string, parse: string -> Parsed): PageState
  {
    match parse(line)
    case Malformed => v
    case Json(e) => ApplyEvent(v, e)
  }

  function ApplyLines(v: PageState, lines: seq<string>, parse: string -> Parsed): PageState
  {
    if |lines| == 0 then v
    else ApplyLine(ApplyLines(v, lines[..|lines| - 1], parse), lines[|lines| - 1], parse)
  }

  function ApplyChunks(v: PageState, chunks: seq<string>, parse: string -> Parsed): PageState
  {
    if |chunks| == 0 then v
    else ApplyLines(ApplyChunks(v, chunks[..|chunks| - 1], parse), LinesOf(chunks[|chunks| - 1]), parse)
  }

  /** The state when `fetch` is called: status `generating`, progress 0, no
      error. The subject and the id of an earlier run are kept. */
  function Started(v: PageState): PageState
  {
    v.(status := Generating, progress := 0.0, error := None)
  }

  /** `setError(message); setStatus('error')` */
  function Failed(v: PageState, message: string): PageState
  {
    v.(error := Some(message), status := Error)
  }

  /** The state after one run of `generateQuestionPaper`. */
  function Generate(v: PageState, response: Response, parse: string -> Parsed): PageState
  {
    var start := Started(v);
    match response
    case FetchRejected(f) => Failed(start, CaughtMessage(f))
    case Response(ok, body) =>
      if !ok then Failed(start, "Failed to generate question paper")
      else if body.None? then start
      else
        var after := ApplyChunks(start, body.value.chunks, parse);
        if body.value.failure.Some? then Failed(after, CaughtMessage(body.value.failure.value)) else after
  }

  // ---------------------------------------------------------------------------
  // The page
  // ---------------------------------------------------------------------------

  class GeneratePage {
    var status: GenerationStatus
    var progress: real
    var currentSubject: string
    var error: Option<string>
    var generatedPaperId: Option<Id>

    function State(): PageState
      reads this
    {
      PageState(status, progress, currentSubject, error, generatedPaperId)
    }

    constructor()
      ensures State() == InitialState
    {
      status, progress, currentSubject, error, generatedPaperId := Idle, 0.0, "", None, None;
    }

    /** The inner `try` for one line. */
    method HandleLine(line: string, parse: string -> Parsed)
      modifies this
      ensures State() == ApplyLine(old(State()), line, parse)
    {
      match parse(line)
      case Malformed =>
      case Json(data) =>
        if data.progress.Some? && data.progress.value != 0.0 {
          progress := data.progress.value;
        }
        if data.subject.Some? && data.subject.value != "" {
          currentSubject := data.subject.value;
        }
        if data.status == Some("saving") {
          status := Saving;
        }
        if data.status == Some("complete") && data.paperId.Some? {
          generatedPaperId := data.paperId;
          status := Complete;
        }
        // `data.error` throws into the `catch` right around this block, which
        // ignores it.
    }

    /** `generateQuestionPaper`: the request, then the reader loop. */
    method GenerateQuestionPaper(response: Response, parse: string -> Parsed)
      modifies this
      ensures State() == Generate(old(State()), response, parse)
    {
      status := Generating;
      progress := 0.0;
      error := None;
      match response
      case FetchRejected(f) =>
        error := Some(CaughtMessage(f));
        status := Error;
      case Response(ok, body) =>
        if !ok {
          error := Some("Failed to generate question paper");
          status := Error;
          return;
        }
        if body.Some? {
          var chunks := body.value.chunks;
          ghost var start := State();
          var k := 0;
          while k < |chunks|
            invariant 0 <= k <= |chunks|
            invariant State() == ApplyChunks(start, chunks[..k], parse)
          {
            var lines := LinesOf(chunks[k]);
            ghost var before := State();
            for m := 0 to |lines|
              invariant State() == ApplyLines(before, lines[..m], parse)
            {
              HandleLine(lines[m], parse);
              assert lines[..m + 1][..m] == lines[..m];
            }
            assert lines[..|lines|] == lines;
            assert chunks[..k + 1][..k] == chunks[..k];
            k := k + 1;
          }
          assert chunks[..|chunks|] == chunks;
          if body.value.failure.Some? {
            error := Some(CaughtMessage(body.value.failure.value));
            status := Error;
          }
        }
    }

    /** `startExam`: the paper the page navigates to, if it has one. */
    method StartExam() returns (target: Option<Id>)
      ensures target.Some? <==> generatedPaperId.Some?
      ensures target.Some? ==> target.value == generatedPaperId.value
    {
      if generatedPaperId.Some? {
        target := Some(generatedPaperId.value);
      } else {
        target := None;
      }
    }
  }

  // ---------------------------------------------------------------------------
  // Properties of the reader loop
  // ---------------------------------------------------------------------------

  /** The events a list of serialized events carries, with no line lost. */
  function ApplyEvents(v: PageState, events: seq<Event>): PageState
  {
    if |events| == 0 then v else ApplyEvent(ApplyEvents(v, events[..|events| - 1]), events[|events| - 1])
  }

  lemma {:induction false} ApplyEventsAppend(v: PageState, a: seq<Event>, b: seq<Event>)
    ensures ApplyEvents(v, a + b) == ApplyEvents(ApplyEvents(v, a), b)
    decreases |b|
  {
    if |b| == 0 {
      assert a + b == a;
    } else {
      assert (a + b)[..|a + b| - 1] == a + b[..|b| - 1];
      assert (a + b)[|a + b| - 1] == b[|b| - 1];
      ApplyEventsAppend(v, a, b[..|b| - 1]);
    }
  }

  /** No line changes the error, and no line sets the `error` status: an
      `error` event from the endpoint is swallowed by the per-line `catch`. */
  lemma {:induction false} LinesNeverFail(v: PageState, chunks: seq<string>, parse: string -> Parsed)
    ensures ApplyChunks(v, chunks, parse).error == v.error
    ensures v.status != Error ==> ApplyChunks(v, chunks, parse).status != Error
  {
    if |chunks| > 0 {
      LinesNeverFail(v, chunks[..|chunks| - 1], parse);
      LinesKeepError(ApplyChunks(v, chunks[..|chunks| - 1], parse), LinesOf(chunks[|chunks| - 1]), parse);
    }
  }

  lemma {:induction false} LinesKeepError(v: PageState, lines: seq<string>, parse: string -> Parsed)
    ensures ApplyLines(v, lines, parse).error == v.error
    ensures v.status != Error ==> ApplyLines(v, lines, parse).status != Error
  {
    if |lines| > 0 {
      LinesKeepError(v, lines[..|lines| - 1], parse);
    }
  }

  /** The page shows the `error` status exactly when the request or the stream
      failed, and then with the message that failure carried. */
  lemma ErrorOnlyFromTransport(v: PageState, response: Response, parse: string -> Parsed)
    ensures var after := Generate(v, response, parse);
      after.status == Error <==>
        || response.FetchRejected?
        || !response.ok
        || (response.body.Some? && response.body.value.failure.Some?)
    ensures var after := Generate(v, response, parse);
      after.status != Error ==> after.error == None
  {
    if response.Response? && response.ok && response.body.Some? {
      LinesNeverFail(Started(v), response.body.value.chunks, parse);
    }
  }

  /** After a run the page is never back at `idle`. */
  lemma NeverIdleAfterRun(v: PageState, response: Response, parse: string -> Parsed)
    ensures Generate(v, response, parse).status != Idle
  {
    if response.Response? && response.ok && response.body.Some? {
      ChunksNeverIdle(Started(v), response.body.value.chunks, parse);
    }
  }

  lemma {:induction false} ChunksNeverIdle(v: PageState, chunks: seq<string>, parse: string -> Parsed)
    requires v.status != Idle
    ensures ApplyChunks(v, chunks, parse).status != Idle
  {
    if |chunks| > 0 {
      ChunksNeverIdle(v, chunks[..|chunks| - 1], parse);
      LinesNeverIdle(ApplyChunks(v, chunks[..|chunks| - 1], parse), LinesOf(chunks[|chunks| - 1]), parse);
    }
  }

  lemma {:induction false} LinesNeverIdle(v: PageState, lines: seq<string>, parse: string -> Parsed)
    requires v.status != Idle
    ensures ApplyLines(v, lines, parse).status != Idle
  {
    if |lines| > 0 {
      LinesNeverIdle(v, lines[..|lines| - 1], parse);
    }
  }

  /** An event reaches `complete` exactly when it says `complete` and carries
      an id, and then the page holds that id; `saving` is entered only by the
      `saving` event. */
  lemma ApplyEventStatus(v: PageState, e: Event)
    ensures ApplyEvent(v, e).status == Complete <==>
      (e.status == Some("complete") && e.paperId.Some?) || (v.status == Complete && e.status != Some("saving"))
    ensures e.status == Some("complete") && e.paperId.Some? ==> ApplyEvent(v, e).generatedPaperId == e.paperId
    ensures ApplyEvent(v, e).status == Saving <==> 
      e.status == Some("saving") || (v.status == Saving && !(e.status == Some("complete") && e.paperId.Some?))
    ensures ApplyEvent(v, e).progress == (if e.progress.Some? && e.progress.value != 0.0 then e.progress.value else v.progress)
  {
  }

  /** A line that does not parse, and an `error` event, leave the page as it was. */
  lemma IgnoredLines(v: PageState, line: string, parse: string -> Parsed, message: string)
    ensures parse(line) == Malformed ==> ApplyLine(v, line, parse) == v
    ensures ApplyEvent(v, ErrorEvent(message)) == v
  {
  }

  // ---------------------------------------------------------------------------
  // The page following the endpoint
  // ---------------------------------------------------------------------------

  /** The chunks the page reads when every written line is delivered as one
      chunk: `JSON.stringify(data) + '\n'`, with `serialize` for `JSON.stringify`. */
  function Wire(events: seq<Event>, serialize: Event -> string): (chunks: seq<string>)
    ensures |chunks| == |events|
  {
    seq(|events|, i requires 0 <= i < |events| => serialize(events[i]) + "\n")
  }

  /** What `JSON.stringify` and `JSON.parse` promise each other for the events
      the endpoint writes: each one's text is one non-blank line that parses
      back to that event. */
  predicate RoundTripsOn(events: seq<Event>, serialize: Event -> string, parse: string -> Parsed)
  {
    forall i :: 0 <= i < |events| ==>
      parse(serialize(events[i])) == Json(events[i]) && '\n' !in serialize(events[i]) && !Blank(serialize(events[i]))
  }

  /** The index of the first occurrence of `e` in `events`. */
  function FirstIndex(events: seq<Event>, e: Event): (k: nat)
    requires e in events
    ensures k < |events| && events[k] == e
  {
    if events[0] == e then 0 else 1 + FirstIndex(events[1..], e)
  }

  /** The round trip asks nothing impossible: for every list of events there is
      a pair of functions that meets it (here, the text of an event is as many
      `x` as one more than the index of its first occurrence). */
  lemma RoundTripsOnMeetable(events: seq<Event>) returns (serialize: Event -> string, parse: string -> Parsed)
    ensures RoundTripsOn(events, serialize, parse)
  {
    serialize := (e: Event) => seq(if e in events then 1 + FirstIndex(events, e) else 1, _ => 'x');
    parse := (line: string) =>
      if 0 < |line| <= |events| && forall k :: 0 <= k < |line| ==> line[k] == 'x' then Json(events[|line| - 1])
      else Malformed;
    forall i | 0 <= i < |events|
      ensures parse(serialize(events[i])) == Json(events[i]) && '\n' !in serialize(events[i]) && !Blank(serialize(events[i]))
    {
      var line := serialize(events[i]);
      assert |line| == 1 + FirstIndex(events, events[i]);
      assert line[0] == 'x' && !IsWhitespace(line[0]);
    }
  }

  /** Reading the wire applies every event, in order. */
  lemma {:induction false} ReadWire(v: PageState, events: seq<Event>, serialize: Event -> string, parse: string -> Parsed)
    requires RoundTripsOn(events, serialize, parse)
    ensures ApplyChunks(v, Wire(events, serialize), parse) == ApplyEvents(v, events)
  {
    if |events| > 0 {
      var w := Wire(events, serialize);
      var e := events[|events| - 1];
      assert w[..|w| - 1] == Wire(events[..|events| - 1], serialize);
      assert RoundTripsOn(events[..|events| - 1], serialize, parse) by {
        forall i | 0 <= i < |events| - 1 ensures events[..|events| - 1][i] == events[i] { }
      }
      ReadWire(v, events[..|events| - 1], serialize, parse);
      assert parse(serialize(events[|events| - 1])) == Json(e);
      LinesOfEventLine(serialize(e));
      assert w[|w| - 1] == serialize(e) + "\n";
      var before := ApplyChunks(v, w[..|w| - 1], parse);
      assert [serialize(e)][..0] == [];
      assert ApplyLines(before, [serialize(e)], parse) == ApplyLine(before, serialize(e), parse);
      assert parse(serialize(e)) == Json(e);
    }
  }

  /** Progress events keep the status, the error and the id. */
  lemma {:induction false} ProgressEventsKeepStatus(v: PageState, events: seq<Event>)
    requires forall i :: 0 <= i < |events| ==> events[i].status.None?
    ensures var after := ApplyEvents(v, events);
      after.status == v.status && after.error == v.error && after.generatedPaperId == v.generatedPaperId
  {
    if |events| > 0 {
      ProgressEventsKeepStatus(v, events[..|events| - 1]);
    }
  }

  /** The page driven by the endpoint's own stream, delivered line by line: a
      successful run ends `complete` at progress 100 holding the new paper's id,
      so `startExam` opens the paper the store has just saved; a failed save
      stops the page at `saving` with progress 95, and an unreadable request
      body leaves it at `generating` with progress 0. In no case does the page
      show the `error` status or an error message. */
  lemma PageFollowsRun(v: PageState, body: RequestBody, paperInsert: Outcome, questionsInsert: Outcome, newId: Id,
                       serialize: Event -> string, parse: string -> Parsed)
    requires RoundTripsOn(RunEvents(body, paperInsert, questionsInsert, newId), serialize, parse)
    ensures var after := Generate(v, Response(true, Some(Stream(Wire(RunEvents(body, paperInsert, questionsInsert, newId), serialize), None))), parse);
      && after.status != Error && after.error == None
      && (body.Parsed? && paperInsert.Ok? && questionsInsert.Ok? ==>
            after.status == Complete && after.progress == 100.0 && after.generatedPaperId == Some(newId))
      && (body.Parsed? && (paperInsert.Fail? || questionsInsert.Fail?) ==>
            after.status == Saving && after.progress == 95.0 && after.currentSubject == "Saving..."
            && after.generatedPaperId == v.generatedPaperId)
      && (body.Unreadable? ==> after == Started(v))
  {
    var events := RunEvents(body, paperInsert, questionsInsert, newId);
    var start := Started(v);
    ReadWire(start, events, serialize, parse);
    match body
    case Unreadable(message) =>
      assert events == [ErrorEvent(message)];
      assert events[..0] == [];
    case Parsed(req) =>
      var t, n := req.technicalSubjects, req.nonTechnicalSubjects;
      var progressEvents := GeneratingEvents(t, 0, |t| + |n|) + GeneratingEvents(n, |t|, |t| + |n|);
      var last := Terminal(paperInsert, questionsInsert, newId);
      assert events == progressEvents + [SavingEvent] + [last];
      ProgressEventsKeepStatus(start, progressEvents);
      ApplyEventsAppend(start, progressEvents + [SavingEvent], [last]);
      ApplyEventsAppend(start, progressEvents, [SavingEvent]);
      assert [SavingEvent][..0] == [] && [last][..0] == [];
  }
}
