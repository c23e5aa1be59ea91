/** The response shaping of the Classroom connector: courses, courseworks and
    submissions mapped one-to-one into rows, the last turn-in time of a
    submission, and the roster loop that follows `nextPageToken` from page to
    page. API responses are values given to the functions; the network calls
    that produce them are not modelled. */
module Classroom {
  import opened Wrappers

  type Id = string
  type PageToken = string

  /** An RFC 3339 `stateTimestamp`, already converted to a comparable number */
  type Timestamp = int

  /** The submission state that marks a turn-in */
  const TurnedIn: string := "TURNED_IN"

  // ---------------------------------------------------------------------
  // API records

  datatype Course = Course(id: Id, name: string, section: Option<string>, courseState: string)
  datatype CoursesResponse = CoursesResponse(courses: Option<seq<Course>>)

  datatype CourseWork = CourseWork(id: Id, courseId: Id, title: string, workType: string)
  datatype CourseWorkResponse = CourseWorkResponse(courseWork: Option<seq<CourseWork>>)

  datatype StateHistory = StateHistory(state: string, stateTimestamp: Timestamp)
  /** An entry of `submissionHistory`; an entry that records a grade change
      carries no `stateHistory` */
  datatype HistoryItem = HistoryItem(stateHistory: Option<StateHistory>)

  datatype Attachment =
    | DriveFile(fileId: Id)
    | Link(url: string)
    | YouTubeVideo(videoId: Id)
    | Form(formUrl: string)

  datatype AssignmentSubmission = AssignmentSubmission(attachments: Option<seq<Attachment>>)

  /** `assignmentSubmission` is present only for coursework of type ASSIGNMENT */
  datatype StudentSubmission = StudentSubmission(
    id: Id,
    userId: Id,
    state: string,
    assignmentSubmission: Option<AssignmentSubmission>,
    submissionHistory: Option<seq<HistoryItem>>)

  datatype SubmissionsResponse = SubmissionsResponse(studentSubmissions: Option<seq<StudentSubmission>>)

  datatype Name = Name(givenName: string, familyName: string, fullName: string)
  datatype UserProfile = UserProfile(id: Id, name: Name, emailAddress: string)
  datatype Student = Student(courseId: Id, userId: Id, profile: UserProfile)

  datatype StudentsPage = StudentsPage(students: Option<seq<Student>>, nextPageToken: Option<PageToken>)

  /** The arguments of one `students().list(...)` call; `pageToken` is the
      optional keyword argument carried in the `token` dictionary */
  datatype StudentsRequest = StudentsRequest(courseId: Id, pageSize: int, pageToken: Option<PageToken>)

  // ---------------------------------------------------------------------
  // Rows

  datatype CourseRow = CourseRow(courseId: Id, courseName: string)
  datatype CourseWorkRow = CourseWorkRow(courseWorkId: Id, courseWorkName: string)
  datatype SubmissionRow = SubmissionRow(
    submissionId: Id,
    userId: Id,
    turnInTime: Option<Timestamp>,
    state: string,
    numAttachments: nat)

  // ---------------------------------------------------------------------
  // Courses and courseworks

  function CourseRowOf(c: Course): CourseRow {
    CourseRow(c.id, c.name)
  }

  /** The course table: empty when the response has no `courses` key,
      otherwise one row per course, in order, keyed by its id */
  function GetCourses(response: CoursesResponse): (rows: seq<CourseRow>)
    ensures response.courses.None? ==> rows == []
    ensures response.courses.Some? ==>
      var cs := response.courses.value;
      |rows| == |cs| &&
      forall i :: 0 <= i < |cs| ==> rows[i].courseId == cs[i].id && rows[i].courseName == cs[i].name
  {
    MapSeq(CourseRowOf, response.courses.GetOr([]))
  }

  function CourseWorkRowOf(w: CourseWork): CourseWorkRow {
    CourseWorkRow(w.id, w.title)
  }

  /** The coursework table: empty when the response has no `courseWork` key,
      otherwise one row per item, in order, holding its title */
  function GetCourseWorks(response: CourseWorkResponse): (rows: seq<CourseWorkRow>)
    ensures response.courseWork.None? ==> rows == []
    ensures response.courseWork.Some? ==>
      var ws := response.courseWork.value;
      |rows| == |ws| &&
      forall i :: 0 <= i < |ws| ==> rows[i].courseWorkId == ws[i].id && rows[i].courseWorkName == ws[i].title
  {
    MapSeq(CourseWorkRowOf, response.courseWork.GetOr([]))
  }

  // ---------------------------------------------------------------------
  // Turn-in time

  /** The state of a history entry; an entry without `stateHistory` counts
      as state None */
  function EntryState(item: HistoryItem): Option<string> {
    match item.stateHistory
    case Some(h) => Some(h.state)
    case None => None
  }

  predicate IsTurnIn(item: HistoryItem) {
    EntryState(item) == Some(TurnedIn)
  }

  /** The history of a submission, empty when the key is missing */
  function History(sub: StudentSubmission): seq<HistoryItem> {
    sub.submissionHistory.GetOr([])
  }

  /** Some entry of `history` turned the submission in at time `t` */
  ghost predicate TurnedInAt(history: seq<HistoryItem>, t: Timestamp) {
    exists i :: 0 <= i < |history| && IsTurnIn(history[i]) && history[i].stateHistory.value.stateTimestamp == t
  }

  /** The timestamps of the TURNED_IN entries, in history order */
  function TurnInTimes(history: seq<HistoryItem>): (times: seq<Timestamp>)
    ensures |times| <= |history|
    ensures forall t :: t in times <==> TurnedInAt(history, t)
  {
    if history == [] then []
    else
      var rest := TurnInTimes(history[1..]);
      assert forall t :: TurnedInAt(history[1..], t) ==> TurnedInAt(history, t) by {
        forall t | TurnedInAt(history[1..], t) ensures TurnedInAt(history, t) {
          var i :| 0 <= i < |history[1..]| && IsTurnIn(history[1..][i]) && history[1..][i].stateHistory.value.stateTimestamp == t;
          assert history[i + 1] == history[1..][i];
        }
      }
      assert forall t :: TurnedInAt(history, t) ==> (IsTurnIn(history[0]) && history[0].stateHistory.value.stateTimestamp == t) || TurnedInAt(history[1..], t) by {
        forall t | TurnedInAt(history, t)
          ensures (IsTurnIn(history[0]) && history[0].stateHistory.value.stateTimestamp == t) || TurnedInAt(history[1..], t)
        {
          var i :| 0 <= i < |history| && IsTurnIn(history[i]) && history[i].stateHistory.value.stateTimestamp == t;
          if i > 0 {
            assert history[1..][i - 1] == history[i];
          }
        }
      }
      if IsTurnIn(history[0]) then [history[0].stateHistory.value.stateTimestamp] + rest else rest
  }

  /** `max(times)` */
  function Max(times: seq<Timestamp>): (m: Timestamp)
    requires |times| > 0
    ensures m in times
    ensures forall t :: t in times ==> t <= m
  {
    if |times| == 1 then times[0]
    else
      var rest := Max(times[1..]);
      assert forall t :: t in times ==> t == times[0] || t in times[1..];
      if times[0] < rest then rest else times[0]
  }

  /** `_parse_turn_in`: the latest TURNED_IN timestamp of the submission's
      history, or None (NaT) when no entry turned it in. */
  function ParseTurnIn(sub: StudentSubmission): (r: Option<Timestamp>)
    ensures r.None? <==> forall i :: 0 <= i < |History(sub)| ==> !IsTurnIn(History(sub)[i])
    ensures r.Some? ==> TurnedInAt(History(sub), r.value)
    ensures r.Some? ==> forall i :: 0 <= i < |History(sub)| && IsTurnIn(History(sub)[i]) ==>
      History(sub)[i].stateHistory.value.stateTimestamp <= r.value
    ensures sub.submissionHistory.None? ==> r.None?
  {
    var times := TurnInTimes(History(sub));
    if |times| > 0 then
      assert forall i :: 0 <= i < |History(sub)| && IsTurnIn(History(sub)[i]) ==>
        History(sub)[i].stateHistory.value.stateTimestamp in times by {
        forall i | 0 <= i < |History(sub)| && IsTurnIn(History(sub)[i])
          ensures History(sub)[i].stateHistory.value.stateTimestamp in times
        {
          assert TurnedInAt(History(sub), History(sub)[i].stateHistory.value.stateTimestamp);
        }
      }
      Some(Max(times))
    else
      assert forall i :: 0 <= i < |History(sub)| ==> !IsTurnIn(History(sub)[i]) by {
        forall i | 0 <= i < |History(sub)| ensures !IsTurnIn(History(sub)[i]) {
          if IsTurnIn(History(sub)[i]) {
            assert TurnedInAt(History(sub), History(sub)[i].stateHistory.value.stateTimestamp);
          }
        }
      }
      None
  }

  lemma {:induction false} TurnInTimesAppend(h1: seq<HistoryItem>, h2: seq<HistoryItem>)
    ensures TurnInTimes(h1 + h2) == TurnInTimes(h1) + TurnInTimes(h2)
  {
    if h1 == [] {
      assert h1 + h2 == h2;
    } else {
      assert (h1 + h2)[1..] == h1[1..] + h2;
      assert (h1 + h2)[0] == h1[0];
      TurnInTimesAppend(h1[1..], h2);
    }
  }

  /** An entry that is not a turn-in (another state, or no `stateHistory`
      at all) can be inserted anywhere in the history without changing the
      turn-in time. */
  lemma NonTurnInEntryIrrelevant(sub: StudentSubmission, before: seq<HistoryItem>, x: HistoryItem, after: seq<HistoryItem>)
    requires sub.submissionHistory == Some(before + after)
    requires !IsTurnIn(x)
    ensures ParseTurnIn(sub.(submissionHistory := Some(before + [x] + after))) == ParseTurnIn(sub)
  {
    TurnInTimesAppend(before, [x]);
    TurnInTimesAppend(before + [x], after);
    TurnInTimesAppend(before, after);
    assert TurnInTimes([x]) == [] by {
      assert [x][1..] == [];
    }
    assert TurnInTimes(before + [x] + after) == TurnInTimes(before + after);
  }

  /** An entry without `stateHistory` never changes the turn-in time */
  lemma EntryWithoutStateHistoryIrrelevant(sub: StudentSubmission, before: seq<HistoryItem>, after: seq<HistoryItem>)
    requires sub.submissionHistory == Some(before + after)
    ensures ParseTurnIn(sub.(submissionHistory := Some(before + [HistoryItem(None)] + after))) == ParseTurnIn(sub)
  {
    NonTurnInEntryIrrelevant(sub, before, HistoryItem(None), after);
  }

  // ---------------------------------------------------------------------
  // Submissions

  function NumAttachments(a: AssignmentSubmission): nat {
    |a.attachments.GetOr([])|
  }

  /** The rows of `get_submissions`; `sub['assignmentSubmission']` raises
      KeyError on the first submission that lacks it */
  function SubmissionRows(subs: seq<StudentSubmission>): (r: Result<seq<SubmissionRow>>)
    ensures r.Success? <==> forall i :: 0 <= i < |subs| ==> subs[i].assignmentSubmission.Some?
    ensures r.Failure? ==> r.error == KeyError("assignmentSubmission")
    ensures r.Success? ==>
      |r.value| == |subs| &&
      forall i :: 0 <= i < |subs| ==>
        && r.value[i].submissionId == subs[i].id
        && r.value[i].userId == subs[i].userId
        && r.value[i].turnInTime == ParseTurnIn(subs[i])
        && r.value[i].state == subs[i].state
        && r.value[i].numAttachments == |subs[i].assignmentSubmission.value.attachments.GetOr([])|
  {
    if subs == [] then Success([])
    else
      var sub := subs[0];
      match sub.assignmentSubmission
      case None => Failure(KeyError("assignmentSubmission"))
      case Some(a) =>
        var row := SubmissionRow(sub.id, sub.userId, ParseTurnIn(sub), sub.state, NumAttachments(a));
        match SubmissionRows(subs[1..])
        case Failure(e) => Failure(e)
        case Success(rest) => Success([row] + rest)
  }

  /** `get_submissions`: no `studentSubmissions` key gives an empty table */
  function GetSubmissions(response: SubmissionsResponse): (r: Result<seq<SubmissionRow>>)
    ensures response.studentSubmissions.None? ==> r == Success([])
    ensures response.studentSubmissions.Some? ==> r == SubmissionRows(response.studentSubmissions.value)
  {
    SubmissionRows(response.studentSubmissions.GetOr([]))
  }

  // ---------------------------------------------------------------------
  // Student roster

  /** The students of a page, empty when the key is missing */
  function PageStudents(page: StudentsPage): seq<Student> {
    page.students.GetOr([])
  }

  /** Every page's students, concatenated in page order */
  function Roster(pages: seq<StudentsPage>): seq<Student> {
    if pages == [] then [] else PageStudents(pages[0]) + Roster(pages[1..])
  }

  predicate HasFinalPage(pages: seq<StudentsPage>) {
    exists k :: 0 <= k < |pages| && pages[k].nextPageToken.None?
  }

  /** The index of the first page without `nextPageToken` */
  function FinalPage(pages: seq<StudentsPage>): (k: nat)
    requires HasFinalPage(pages)
    ensures k < |pages| && pages[k].nextPageToken.None?
    ensures forall j :: 0 <= j < k ==> pages[j].nextPageToken.Some?
  {
    if pages[0].nextPageToken.None? then 0
    else
      var k :| 0 <= k < |pages| && pages[k].nextPageToken.None?;
      assert pages[1..][k - 1] == pages[k];
      1 + FinalPage(pages[1..])
  }

  /** `get_students`: request a page, append its students, forward its
      `nextPageToken`, and stop at the first page that has none. `pages[k]`
      is the answer to the k-th request; `requests` lists the calls made. */
  method GetStudents(courseId: Id, pages: seq<StudentsPage>) returns (students: seq<Student>, requests: seq<StudentsRequest>)
    requires HasFinalPage(pages)
    ensures |requests| == FinalPage(pages) + 1
    ensures requests[0] == StudentsRequest(courseId, 0, None)
    ensures forall k :: 0 <= k < |requests| - 1 ==>
      requests[k + 1] == StudentsRequest(courseId, 0, pages[k].nextPageToken) && pages[k].nextPageToken.Some?
    ensures students == Roster(pages[..|requests|])
  {
    students := [];
    requests := [];
    var token: Option<PageToken> := None;
    var k := 0;
    ghost var last := FinalPage(pages);
    while true
      invariant 0 <= k <= last
      invariant |requests| == k
      invariant token == if k == 0 then None else pages[k - 1].nextPageToken
      invariant forall j :: 0 <= j < k ==> requests[j] == StudentsRequest(courseId, 0, if j == 0 then None else pages[j - 1].nextPageToken)
      invariant students == Roster(pages[..k])
      decreases last - k
    {
      requests := requests + [StudentsRequest(courseId, 0, token)];
      var page := pages[k];
      RosterAppend(pages[..k], [page]);
      assert pages[..k + 1] == pages[..k] + [page];
      students := students + PageStudents(page);
      if page.nextPageToken.Some? {
        token := page.nextPageToken;
        k := k + 1;
      } else {
        assert k == last;
        return;
      }
    }
  }

  lemma {:induction false} RosterAppend(p: seq<StudentsPage>, q: seq<StudentsPage>)
    ensures Roster(p + q) == Roster(p) + Roster(q)
  {
    if p == [] {
      assert p + q == q;
    } else {
      assert (p + q)[1..] == p[1..] + q;
      assert (p + q)[0] == p[0];
      RosterAppend(p[1..], q);
      assert Roster(p + q) == PageStudents(p[0]) + Roster(p[1..] + q);
    }
  }

  /** Pages that cut `chunks` apart: every page but the last carries a
      token, the last has none */
  function Paginate(chunks: seq<seq<Student>>, tokens: seq<PageToken>): (pages: seq<StudentsPage>)
    requires |tokens| + 1 == |chunks|
    ensures |pages| == |chunks|
  {
    if |chunks| == 1 then [StudentsPage(Some(chunks[0]), None)]
    else [StudentsPage(Some(chunks[0]), Some(tokens[0]))] + Paginate(chunks[1..], tokens[1..])
  }

  function Concat(chunks: seq<seq<Student>>): seq<Student> {
    if chunks == [] then [] else chunks[0] + Concat(chunks[1..])
  }

  /** A roster split across pages is collected whole: the loop reads every
      page, exactly as many requests as pages, and returns the same students
      as a single unpaginated response holding all of them. */
  lemma {:induction false} PaginatedRosterIsWhole(chunks: seq<seq<Student>>, tokens: seq<PageToken>)
    requires |tokens| + 1 == |chunks|
    ensures HasFinalPage(Paginate(chunks, tokens))
    ensures FinalPage(Paginate(chunks, tokens)) == |chunks| - 1
    ensures Roster(Paginate(chunks, tokens)) == Concat(chunks)
    ensures Roster([StudentsPage(Some(Concat(chunks)), None)]) == Roster(Paginate(chunks, tokens))
  {
    var pages := Paginate(chunks, tokens);
    if |chunks| == 1 {
      assert pages[0].nextPageToken.None?;
      assert Concat(chunks) == chunks[0] + Concat([]) by { assert chunks[1..] == []; }
      assert Roster(pages) == chunks[0] + Roster([]) by { assert pages[1..] == []; }
    } else {
      PaginatedRosterIsWhole(chunks[1..], tokens[1..]);
      assert pages[1..] == Paginate(chunks[1..], tokens[1..]);
      var k := |chunks| - 2;
      assert pages[1..][k].nextPageToken.None?;
      assert pages[k + 1] == pages[1..][k];
    }
    assert Roster([StudentsPage(Some(Concat(chunks)), None)]) == Concat(chunks) + Roster([]) by {
      assert [StudentsPage(Some(Concat(chunks)), None)][1..] == [];
    }
  }

  /** Pages after the first page without a token are never requested, so
      they do not affect the roster. */
  lemma TrailingPagesIgnored(pages: seq<StudentsPage>, extra: seq<StudentsPage>)
    requires HasFinalPage(pages)
    ensures HasFinalPage(pages + extra)
    ensures FinalPage(pages + extra) == FinalPage(pages)
    ensures Roster((pages + extra)[..FinalPage(pages + extra) + 1]) == Roster(pages[..FinalPage(pages) + 1])
  {
    var k := FinalPage(pages);
    assert (pages + extra)[k] == pages[k];
    assert forall j :: 0 <= j < k ==> (pages + extra)[j] == pages[j];
    assert (pages + extra)[..k + 1] == pages[..k + 1];
  }
}
