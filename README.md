# classroom-tracker: a Dafny model of the Classroom response shaping and the user store

classroom-tracker copies student submission data from Google Classroom into a
Google spreadsheet and puts each student into a group from a hand-made name
mapping. This project models the two parts of it that have logic of their own:

- **Classroom response shaping** (`classroom_tracker/google_api/classroom.py`,
  module `Classroom` in `classroom.dfy`):
  - the last turn-in time of a submission (`_parse_turn_in`);
  - the one-to-one, in-order mapping of API records into course, coursework
    and submission rows (`get_courses`, `get_courseworks`, `get_submissions`);
  - the roster loop of `get_students`, which requests a page, appends its
    students, and forwards its `nextPageToken` until a page has none.
- **User store** (`classroom_tracker/user_store.py`, module `Users` in
  `user_store.dfy`):
  - the read-through user cache of `get_user`, which appends a fetched row on
    a miss and writes the whole cache back to the sheet once;
  - the name key (lower case, commas removed);
  - the fuzzy-match fallback of `get_names`;
  - the group lookup of `get_groups`, with its `'???'` default.

API responses are Dafny datatypes. A key that may be missing is an `Option`,
and a required key whose absence raises `KeyError` gives a `Result`. Timestamps
are integers, and an absent turn-in time (pandas `NaT`) is `None`.
`get_students` is a `while` loop over a sequence of pages given in advance:
page k is the answer to request k. The user store is a class. Its cache is a
sequence of rows in DataFrame order, and ghost logs record every remote lookup
and every table written by `save`. The remote user lookup and
`difflib.get_close_matches` are function parameters. `wrappers.dfy` holds the
shared `Option`, `Result`, `KeyError` and the order-preserving map `MapSeq`
(a Python list comprehension).

## The name matcher

`get_close_name` passes the query key as its own candidate pool
(`classroom_tracker/user_store.py:50`). Python iterates a string as its
characters, so the candidates are the key's single characters. The lookup
table of line 46 is built from a Series, which pandas aligns to the new
labels: its labels are the mapping names' keys and every value is NaN. A
lookup therefore gives NaN when the candidate is some mapping name's key and
raises KeyError when it is not. The model keeps both facts. Resolved names
are `Option<string>`, with `None` for NaN.

`Users.ResolvedIsFallbackNaNOrKeyError` proves the consequence for any
matcher: a name comes back as its own fallback `name (???)`, as NaN, or as
KeyError. The lookup never returns a mapping name. A result equals a mapping
entry's name only when the table lists the fallback label `name (???)` word
for word. `Users.OnlySingleCharacterKeysMatch` adds
that, for a matcher that answers only from its pool as `get_close_matches`
does, NaN needs a mapping name whose key is one character.
`Users.KnownGroupNeedsMarkedEntry` shows what `get_groups` makes of this. A
student gets a group other than "???" only when the mapping table lists their
name followed by " (???)" word for word. Two concrete cases use
`Users.ExactMatcher`, a matcher that answers only an exact member of the
pool. In `Users.ExactNameFallsBack`, "Doe, Jane" against the mapping entry
"Doe, Jane" gives "Doe, Jane (???)" in group "???". In
`Users.SingleLetterMatchIsNaN`, "A" against the entry "A" in group "G" gives
NaN in group "???". The evidently intended answers are groups "Alpha" and
"G". The model follows the code, which does not give them.

## The user cache

`Users.LookUpStep` is one `get_user` call on the store's state (`Users.Trace`:
the cache, the ids fetched and the tables saved). A hit leaves the state
unchanged. A miss fetches the id, appends its row and records one save of the
grown cache. `Users.Replay` runs one step per id, in order, as the `apply`
of line 55 does. `UserStore.GetUser` and the three methods built on it state
their new state as one step, or a replay, from the old one. The lemmas beside
them state what a replay does.

## Model

| member | source | states |
|---|---|---|
| `Classroom.GetCourses` | classroom_tracker/google_api/classroom.py:28-43 | no `courses` key gives an empty table; otherwise one row per course, in order, holding its id and name |
| `Classroom.GetCourseWorks` | classroom_tracker/google_api/classroom.py:59-75 | no `courseWork` key gives an empty table; otherwise one row per item, in order, holding its id and title |
| `Classroom.TurnInTimes` | classroom_tracker/google_api/classroom.py:92-98 | a timestamp is listed iff some history entry with state TURNED_IN carries it |
| `Classroom.Max` | classroom_tracker/google_api/classroom.py:100-101 | `max` of a non-empty list is one of its elements and no element exceeds it |
| `Classroom.ParseTurnIn` | classroom_tracker/google_api/classroom.py:92-103 | None (NaT) iff no entry is TURNED_IN, including a missing or empty history; otherwise a TURNED_IN entry's timestamp that is at least every TURNED_IN timestamp |
| `Classroom.TurnInTimesAppend` | classroom_tracker/google_api/classroom.py:93-98 | filtering the history distributes over concatenation of histories |
| `Classroom.NonTurnInEntryIrrelevant` | classroom_tracker/google_api/classroom.py:95 | inserting an entry that is not TURNED_IN anywhere in the history leaves the turn-in time unchanged |
| `Classroom.EntryWithoutStateHistoryIrrelevant` | classroom_tracker/google_api/classroom.py:93-94 | an entry without `stateHistory` counts as state None and never changes the turn-in time |
| `Classroom.SubmissionRows` | classroom_tracker/google_api/classroom.py:131-145 | succeeds iff every submission has `assignmentSubmission`, else KeyError on that key; on success one row per submission, in order, with its id, user id, turn-in time, state and attachment count (0 when `attachments` is absent) |
| `Classroom.GetSubmissions` | classroom_tracker/google_api/classroom.py:121-129 | no `studentSubmissions` key gives an empty table; otherwise the rows of the listed submissions |
| `Classroom.FinalPage` | classroom_tracker/google_api/classroom.py:173-176 | the index of the first page without `nextPageToken`: every earlier page has one |
| `Classroom.GetStudents` | classroom_tracker/google_api/classroom.py:161-176 | requests exactly up to the first page without a token; the first request has no page token and request k+1 carries page k's token; the students are every read page's `students`, concatenated in page order, a page without the key contributing nothing |
| `Classroom.RosterAppend` | classroom_tracker/google_api/classroom.py:171 | the collected roster of concatenated page runs is the concatenation of their rosters |
| `Classroom.PaginatedRosterIsWhole` | classroom_tracker/google_api/classroom.py:161-176 | a roster cut into pages with tokens is read with one request per page and comes back whole, equal to a single unpaginated response |
| `Classroom.TrailingPagesIgnored` | classroom_tracker/google_api/classroom.py:173-176 | pages after the first page without a token are never read and do not affect the roster |
| `Users.NewRecord` | classroom_tracker/user_store.py:91-94 | the row appended on a miss: the fetched first, last and full names, indexed by the id, with formatted name "last, first" |
| `Users.Find` | classroom_tracker/user_store.py:89 | None iff no cached row has the id; otherwise a cached row with that id |
| `Users.FindIsFirst` | classroom_tracker/user_store.py:98 | the row found is the first cached row with the id |
| `Users.FindStableUnderAppend` | classroom_tracker/user_store.py:89-95 | appending rows never changes the row found for an id that was already cached |
| `Users.FindAppendedRow` | classroom_tracker/user_store.py:89-98 | after appending the row of an uncached id, that row is the one found |
| `Users.SaveTable` | classroom_tracker/user_store.py:100-105 | one written row per cached user, in cache order, with five cells, the user id first and the formatted name last |
| `Users.SaveTableRoundTrip` | classroom_tracker/user_store.py:100-105 | reading the written rows back gives the cache unchanged |
| `Users.Lower` | classroom_tracker/user_store.py:45 | same length, each character lowered, no upper-case letter left |
| `Users.RemoveCommas` | classroom_tracker/user_store.py:45 | no comma left; a character survives iff it was there and is not a comma |
| `Users.MatchKey` | classroom_tracker/user_store.py:49 | a match key has no comma and no upper-case letter and is no longer than the name |
| `Users.MatchKeyIdempotent` | classroom_tracker/user_store.py:45-49 | normalising a key again gives the same key |
| `Users.MatchKeyIgnoresComma` | classroom_tracker/user_store.py:49 | a comma anywhere in a name does not change its key |
| `Users.MatchKeyIgnoresCase` | classroom_tracker/user_store.py:49 | a name and its lower-case form have the same key |
| `Users.Candidates` | classroom_tracker/user_store.py:50 | the candidate pool is the key's characters, one single-character string each |
| `Users.Lookup` | classroom_tracker/user_store.py:44-46 | NaN iff some mapping name has the key; otherwise KeyError naming the key; never a mapping name |
| `Users.GetCloseName` | classroom_tracker/user_store.py:48-51 | no candidate gives the original, un-normalised name followed by " (???)"; a candidate gives NaN iff some mapping name has it as its key, and otherwise KeyError naming the candidate |
| `Users.ResolvedIsFallbackNaNOrKeyError` | classroom_tracker/user_store.py:46-51 | whatever the matcher answers, the result is the name's fallback label, NaN or KeyError; the lookup never returns a mapping name |
| `Users.OnlySingleCharacterKeysMatch` | classroom_tracker/user_store.py:50-51 | with a matcher that answers from its pool, NaN means some mapping name's key is one character of the name's key |
| `Users.LongMappingKeysNeverResolve` | classroom_tracker/user_store.py:50-51 | when no mapping key is one character long, the result is the fallback label or KeyError |
| `Users.TwoLettersNotACandidate` | classroom_tracker/user_store.py:50 | a key holding two different letters is not among its own candidates |
| `Users.ExactNameFallsBack` | classroom_tracker/user_store.py:48-73 | with the exact matcher, "Doe, Jane" against the mapping entry "Doe, Jane" resolves to "Doe, Jane (???)" in group "???" |
| `Users.SingleLetterMatchIsNaN` | classroom_tracker/user_store.py:44-73 | with the exact matcher, "A" against the mapping entry "A" in group "G" resolves to NaN in group "???" |
| `Users.Collect` | classroom_tracker/user_store.py:53-56 | succeeds iff every result succeeds, giving their values in order; otherwise fails with the error of the first failure, every earlier result succeeding |
| `Users.ResolveNames` | classroom_tracker/user_store.py:53-57 | succeeds iff every name resolves, giving one resolved value per name in order; otherwise fails with the KeyError of the first name that fails |
| `Users.GroupOf` | classroom_tracker/user_store.py:72-73 | NaN and a name absent from the mapping's `formatted_name` column get "???"; a present name gets the group of its first entry, "???" if that cell is empty |
| `Users.Groups` | classroom_tracker/user_store.py:73 | one group per resolved value, in order |
| `Users.KnownGroupNeedsMarkedEntry` | classroom_tracker/user_store.py:48-73 | a student whose group is not "???" has a mapping entry named exactly their name followed by " (???)" |
| `Users.FormattedNames` | classroom_tracker/user_store.py:55 | one formatted name per id, in order, read from the id's cached row |
| `Users.LookUpStep` | classroom_tracker/user_store.py:89-98 | one `get_user` call on the state: a hit leaves cache and logs unchanged; a miss appends the id's new row, logs one fetch of the id and one save of the grown cache |
| `Users.Replay` | classroom_tracker/user_store.py:55 | one `get_user` step per id, in order, each on the state the previous step left |
| `Users.ReplaySnoc` | classroom_tracker/user_store.py:55 | looking up one more id is one more step from the state the earlier ids left |
| `Users.LookUpNext` | classroom_tracker/user_store.py:55 | after one more step the next id is cached and its formatted name follows the names read so far |
| `Users.ReplayExtendsLogs` | classroom_tracker/user_store.py:89-96 | a run appends to the fetch and save logs, whatever they held before |
| `Users.ReplayOfCachedIds` | classroom_tracker/user_store.py:89-98 | when every id is already cached, a run fetches nothing, saves nothing and keeps the cache |
| `Users.ReplayAppendsFetchedRows` | classroom_tracker/user_store.py:89-105 | the cache grows by one fetched row per fetched id, in fetch order, with one save per fetch, the k-th save writing the cache after the k-th fetch |
| `Users.ReplayFetchesMissesOnce` | classroom_tracker/user_store.py:89-96 | only ids asked for and missing from the starting cache are fetched, each of them once |
| `Users.UserStore.constructor` | classroom_tracker/user_store.py:20-27 | the store starts from the two sheets' rows, with nothing fetched or saved |
| `Users.UserStore.Save` | classroom_tracker/user_store.py:100-105 | one more table is written: the whole cache |
| `Users.UserStore.GetUser` | classroom_tracker/user_store.py:89-98 | the new state is one step from the old; afterwards the id is cached and the result is its cached row; on a hit nothing changes, nothing is fetched and nothing is saved; on a miss exactly one row is appended with formatted name "last, first", the earlier rows are unchanged, the id is fetched once and the cache is saved once |
| `Users.UserStore.LookUpNames` | classroom_tracker/user_store.py:54-55 | the new state is the replay of the ids from the old state; every id ends up cached and the names are their formatted names in order |
| `Users.UserStore.GetNames` | classroom_tracker/user_store.py:53-57 | the new state is the replay of the ids; the result is the resolution of their formatted names, in order |
| `Users.UserStore.GetGroups` | classroom_tracker/user_store.py:72-73 | the new state is the replay of the ids; the result is the groups of the resolved values, or the KeyError of name resolution |

## Left out

- `classroom_tracker/api.py` is not part of this model: OAuth token caching, refresh and the interactive flow are I/O and foreign libraries.
- `classroom_tracker/sheets.py`, `classroom_tracker/tracker.py` and `setup.py` are not part of this model. They are a one-call Sheets wrapper, orchestration over network calls with DataFrame reshaping, and packaging.
- The `service...execute()` calls: each response is an input value. The roster's pages are a sequence given in advance.
- Classroom.GetStudents: requires that some page has no `nextPageToken`. Against a server that always sends a token, the source never stops.
- The DataFrame built at the end of `get_students` (classroom_tracker/google_api/classroom.py:178-190): column extraction, dropping and renaming are pandas glue. The model returns the collected student records.
- `get_courses`, `get_courseworks` and `get_submissions` read only the first page of their responses, as the source does. Any further pages are not requested.
- `pandas.Timestamp` parsing of RFC 3339 strings: timestamps are integers.
- KeyErrors for keys the Classroom API always sends (`id`, `userId`, `state`, `name`, `title`, `stateTimestamp` of a turn-in): these fields are always present in the model. Only `assignmentSubmission` is optional, because it is absent for coursework that is not an assignment.
- `difflib.get_close_matches` (similarity ratio, cutoff, ordering) is a function parameter. `PicksFromPool` states the one property used: it answers only from its pool.
- The remote `classrooms.get_user` is not defined in the source shown. It is a function parameter returning first, last and full name, and its result is taken to be indexed by the requested id.
- Users.Lower: lowers ASCII letters only, where Python's `str.lower` covers all of Unicode.
- Users.UserStore.GetUser: returns the first cached row for the id. When the sheet already holds duplicate ids, pandas `loc` returns all of them as a frame instead.
- Users.Lookup: assumes the mapping table keeps pandas' default integer row labels, so no match key is a row label and every lookup value is NaN. With duplicate keys, pandas returns a Series of NaN values where the model returns one NaN.
- Users.GroupOf: takes the first mapping entry with the name. With duplicate names, pandas `Series.map` raises instead.
- The constructor takes the rows of the `user_ids` and `user_mappings` sheets as already-parsed records, with a fixed five-column cache layout. The source reads them through `get_data`, which returns plain lists.
- The unused `target` parameter of `get_groups` is dropped.
- Exceptions raised by the network or the spreadsheet write are not modelled.
