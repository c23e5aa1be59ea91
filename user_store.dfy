/** The user store: a read-through cache of user records that is written back
    to the `user_ids` sheet after every miss, and the resolution of a user's
    formatted name against the hand-maintained `user_mappings` table. The
    remote user lookup and the fuzzy string matcher are function parameters. */
module Users {
  import opened Wrappers

  type UserId = string

  /** The columns the remote user lookup returns for one user */
  datatype Profile = Profile(firstName: string, lastName: string, fullName: string)

  /** One row of the cache, indexed by `userId` */
  datatype UserRecord = UserRecord(
    userId: UserId,
    firstName: string,
    lastName: string,
    fullName: string,
    formattedName: string)

  /** One row of `user_mappings`; a missing `group` cell reads as None (NaN) */
  datatype NameMapping = NameMapping(formattedName: string, group: Option<string>)

  /** `difflib.get_close_matches(word, possibilities, n=1)`: at most one
      candidate taken from `possibilities` */
  type Matcher = (string, seq<string>) -> Option<string>

  /** Appended to a name that matched no mapping entry */
  const UnresolvedSuffix: string := " (???)"

  /** The group of a name that is not in the mapping table */
  const UnknownGroup: string := "???"

  // ---------------------------------------------------------------------
  // The cache as a table

  /** The row appended on a cache miss: the fetched columns plus
      `formatted_name = last_name + ', ' + first_name` */
  function NewRecord(id: UserId, p: Profile): UserRecord {
    UserRecord(id, p.firstName, p.lastName, p.fullName, p.lastName + ", " + p.firstName)
  }

  /** `cached_users.loc[user_id]`: the first row indexed by `id`, if any */
  function Find(rows: seq<UserRecord>, id: UserId): (r: Option<UserRecord>)
    ensures r.None? <==> forall i :: 0 <= i < |rows| ==> rows[i].userId != id
    ensures r.Some? ==> r.value.userId == id && r.value in rows
  {
    if rows == [] then None
    else if rows[0].userId == id then Some(rows[0])
    else
      var r := Find(rows[1..], id);
      assert forall i :: 0 < i < |rows| ==> rows[i] == rows[1..][i - 1];
      r
  }

  /** The row found is the first one indexed by `id` */
  lemma {:induction false} FindIsFirst(rows: seq<UserRecord>, id: UserId)
    requires Find(rows, id).Some?
    ensures exists i :: 0 <= i < |rows| && rows[i] == Find(rows, id).value && forall j :: 0 <= j < i ==> rows[j].userId != id
  {
    if rows[0].userId != id {
      FindIsFirst(rows[1..], id);
      var i :| 0 <= i < |rows[1..]| && rows[1..][i] == Find(rows, id).value && forall j :: 0 <= j < i ==> rows[1..][j].userId != id;
      assert rows[i + 1] == rows[1..][i];
      assert forall j :: 1 <= j < i + 1 ==> rows[j] == rows[1..][j - 1];
    }
  }

  /** Appending rows never changes what an already cached id finds */
  lemma {:induction false} FindStableUnderAppend(rows: seq<UserRecord>, more: seq<UserRecord>, id: UserId)
    requires Find(rows, id).Some?
    ensures Find(rows + more, id) == Find(rows, id)
  {
    assert (rows + more)[0] == rows[0];
    if rows[0].userId != id {
      assert (rows + more)[1..] == rows[1..] + more;
      FindStableUnderAppend(rows[1..], more, id);
    }
  }

  /** Growing the cache keeps every row already found for `ids` */
  lemma FindStableUnderGrowth(before: seq<UserRecord>, after: seq<UserRecord>, ids: seq<UserId>)
    requires before <= after
    requires forall j :: 0 <= j < |ids| ==> Find(before, ids[j]).Some?
    ensures forall j :: 0 <= j < |ids| ==> Find(after, ids[j]) == Find(before, ids[j])
  {
    assert before + after[|before|..] == after;
    forall j | 0 <= j < |ids| ensures Find(after, ids[j]) == Find(before, ids[j]) {
      FindStableUnderAppend(before, after[|before|..], ids[j]);
    }
  }

  /** Appending the row for an id that was not cached makes it the row found */
  lemma {:induction false} FindAppendedRow(rows: seq<UserRecord>, rec: UserRecord)
    requires Find(rows, rec.userId).None?
    ensures Find(rows + [rec], rec.userId) == Some(rec)
  {
    if rows == [] {
      assert rows + [rec] == [rec];
    } else {
      assert (rows + [rec])[0] == rows[0];
      assert (rows + [rec])[1..] == rows[1..] + [rec];
      FindAppendedRow(rows[1..], rec);
    }
  }

  /** One cell per column, `user_id` first, as `reset_index().values.tolist()`
      lays a row out */
  function Cells(rec: UserRecord): seq<string> {
    [rec.userId, rec.firstName, rec.lastName, rec.fullName, rec.formattedName]
  }

  /** The table `save` writes to `user_ids!A2`: one row per cached user, in
      cache order, its first cell the user id */
  function SaveTable(rows: seq<UserRecord>): (table: seq<seq<string>>)
    ensures |table| == |rows|
    ensures forall i :: 0 <= i < |rows| ==>
      |table[i]| == 5 && table[i][0] == rows[i].userId && table[i][4] == rows[i].formattedName
  {
    MapSeq(Cells, rows)
  }

  /** A written row of five cells read back as a record, used to state that
      `save` loses nothing; a row without five cells reads as blanks */
  function ReadRecord(cells: seq<string>): UserRecord {
    if |cells| == 5 then UserRecord(cells[0], cells[1], cells[2], cells[3], cells[4])
    else UserRecord("", "", "", "", "")
  }

  /** Saving and loading the cache again gives back every row, in order */
  lemma SaveTableRoundTrip(rows: seq<UserRecord>)
    ensures MapSeq(ReadRecord, SaveTable(rows)) == rows
  {
  }

  // ---------------------------------------------------------------------
  // Match keys

  predicate IsUpper(c: char) {
    'A' <= c <= 'Z'
  }

  function LowerChar(c: char): char {
    if IsUpper(c) then (c - 'A' + 'a') as char else c
  }

  /** `str.lower()` on ASCII letters */
  function Lower(s: string): (t: string)
    ensures |t| == |s|
    ensures forall i :: 0 <= i < |s| ==> t[i] == LowerChar(s[i]) && !IsUpper(t[i])
  {
    MapSeq(LowerChar, s)
  }

  /** `s.replace(',', '')` */
  function RemoveCommas(s: string): (t: string)
    ensures ',' !in t
    ensures |t| <= |s|
    ensures forall c :: c in t <==> c in s && c != ','
  {
    if s == [] then []
    else
      var rest := RemoveCommas(s[1..]);
      assert forall c :: c in s <==> c == s[0] || c in s[1..];
      if s[0] == ',' then rest else [s[0]] + rest
  }

  /** The key a name is matched by: lower case, every comma removed */
  function MatchKey(name: string): (key: string)
    ensures ',' !in key
    ensures forall i :: 0 <= i < |key| ==> !IsUpper(key[i])
    ensures |key| <= |name|
  {
    var lower := Lower(name);
    assert forall c :: c in lower ==> !IsUpper(c);
    RemoveCommas(lower)
  }

  lemma {:induction false} RemoveCommasOfCommaFree(s: string)
    requires ',' !in s
    ensures RemoveCommas(s) == s
  {
    if s != [] {
      assert s[0] in s;
      assert forall c :: c in s[1..] ==> c in s;
      RemoveCommasOfCommaFree(s[1..]);
    }
  }

  lemma {:induction false} RemoveCommasAppend(a: string, b: string)
    ensures RemoveCommas(a + b) == RemoveCommas(a) + RemoveCommas(b)
  {
    if a == [] {
      assert a + b == b;
    } else {
      assert (a + b)[0] == a[0];
      assert (a + b)[1..] == a[1..] + b;
      RemoveCommasAppend(a[1..], b);
    }
  }

  lemma LowerOfLower(s: string)
    requires forall i :: 0 <= i < |s| ==> !IsUpper(s[i])
    ensures Lower(s) == s
  {
  }

  /** Normalising twice gives the same key as normalising once */
  lemma MatchKeyIdempotent(name: string)
    ensures MatchKey(MatchKey(name)) == MatchKey(name)
  {
    var key := MatchKey(name);
    LowerOfLower(key);
    RemoveCommasOfCommaFree(key);
  }

  /** Matching ignores commas: a comma anywhere in a name does not change
      its key */
  lemma MatchKeyIgnoresComma(a: string, b: string)
    ensures MatchKey(a + "," + b) == MatchKey(a + b)
  {
    MapSeqAppend(LowerChar, a + ",", b);
    MapSeqAppend(LowerChar, a, ",");
    MapSeqAppend(LowerChar, a, b);
    assert Lower(",") == ",";
    RemoveCommasAppend(Lower(a) + ",", Lower(b));
    RemoveCommasAppend(Lower(a), ",");
    RemoveCommasAppend(Lower(a), Lower(b));
    assert RemoveCommas(",") == [] by {
      assert ","[1..] == [];
    }
  }

  /** Matching ignores case: a name and its lower-case form have one key */
  lemma MatchKeyIgnoresCase(name: string)
    ensures MatchKey(Lower(name)) == MatchKey(name)
  {
    LowerOfLower(Lower(name));
  }

  // ---------------------------------------------------------------------
  // Name resolution

  /** A value of the resolved-names Series: a string, or None for NaN */
  type Resolved = Option<string>

  /** The candidate pool at the matcher's call site: the key itself, which
      Python iterates as its single characters */
  function Candidates(key: string): (pool: seq<string>)
    ensures |pool| == |key|
    ensures forall i :: 0 <= i < |key| ==> pool[i] == [key[i]]
  {
    MapSeq((c: char) => [c], key)
  }

  /** `lookup[key]`, where `lookup = pandas.Series(names, index=match_names)`.
      `names` is itself a Series indexed by the mapping table's row numbers,
      so pandas aligns it to the new labels: the labels are the mapping names'
      keys and every value is NaN, as no key is a row number. A key with a
      label gives NaN; any other key raises KeyError. */
  function Lookup(mappings: seq<NameMapping>, key: string): (r: Result<Resolved>)
    ensures r.Success? <==> exists i :: 0 <= i < |mappings| && MatchKey(mappings[i].formattedName) == key
    ensures r.Success? ==> r.value == None
    ensures r.Failure? ==> r.error == KeyError(key)
  {
    if mappings == [] then Failure(KeyError(key))
    else if MatchKey(mappings[0].formattedName) == key then Success(None)
    else
      var r := Lookup(mappings[1..], key);
      assert forall i :: 0 < i < |mappings| ==> mappings[i] == mappings[1..][i - 1];
      r
  }

  /** `get_close_name`: the key of `name` is matched against the characters of
      that same key; no candidate gives `name (???)`, a candidate that is some
      mapping name's key gives NaN, and any other candidate raises KeyError. */
  function GetCloseName(name: string, mappings: seq<NameMapping>, matcher: Matcher): (r: Result<Resolved>)
    ensures var m := matcher(MatchKey(name), Candidates(MatchKey(name)));
      && (m.None? ==> r == Success(Some(name + UnresolvedSuffix)))
      && (m.Some? ==>
            && (r == Success(None) <==> exists i :: 0 <= i < |mappings| && MatchKey(mappings[i].formattedName) == m.value)
            && (r == Failure(KeyError(m.value)) <==> forall i :: 0 <= i < |mappings| ==> MatchKey(mappings[i].formattedName) != m.value))
  {
    var key := MatchKey(name);
    match matcher(key, Candidates(key))
    case None => Success(Some(name + UnresolvedSuffix))
    case Some(candidate) => Lookup(mappings, candidate)
  }

  /** Whatever the matcher answers, the lookup never returns a mapping name:
      the result is the name's own fallback label, NaN, or KeyError. It equals
      a mapping entry's name only when the table lists that fallback label
      `name (???)` word for word. */
  lemma ResolvedIsFallbackNaNOrKeyError(name: string, mappings: seq<NameMapping>, matcher: Matcher)
    ensures var r := GetCloseName(name, mappings, matcher);
      r == Success(Some(name + UnresolvedSuffix)) || r == Success(None) || r.Failure?
  {
  }

  /** The matcher returns only members of the pool it is given, as
      `get_close_matches` does */
  ghost predicate PicksFromPool(matcher: Matcher) {
    forall word, pool :: matcher(word, pool).Some? ==> matcher(word, pool).value in pool
  }

  /** Because the pool is the query's own characters, a lookup finds a label
      (and gives NaN) only when some mapping name's key is a single character
      of the query's key. */
  lemma OnlySingleCharacterKeysMatch(name: string, mappings: seq<NameMapping>, matcher: Matcher)
    requires PicksFromPool(matcher)
    requires GetCloseName(name, mappings, matcher) == Success(None)
    ensures exists i :: 0 <= i < |mappings| && |MatchKey(mappings[i].formattedName)| == 1
                        && MatchKey(mappings[i].formattedName)[0] in MatchKey(name)
  {
  }

  /** With no mapping key of exactly one character, `get_close_name` never
      finds a label: the name falls back to `name (???)` or the lookup
      raises KeyError. */
  lemma LongMappingKeysNeverResolve(name: string, mappings: seq<NameMapping>, matcher: Matcher)
    requires PicksFromPool(matcher)
    requires forall i :: 0 <= i < |mappings| ==> |MatchKey(mappings[i].formattedName)| != 1
    ensures GetCloseName(name, mappings, matcher) == Success(Some(name + UnresolvedSuffix)) || GetCloseName(name, mappings, matcher).Failure?
  {
  }

  /** A matcher that answers only an exact match from the pool */
  function ExactMatcher(word: string, pool: seq<string>): Option<string> {
    if word in pool then Some(word) else None
  }

  /** A key holding two different letters is none of its own one-character
      candidates */
  lemma TwoLettersNotACandidate(key: string, a: char, b: char)
    requires a != b && a in key && b in key
    ensures key !in Candidates(key)
  {
  }

  /** Even an exact name does not resolve: "Doe, Jane" against the mapping
      entry "Doe, Jane" comes back as "Doe, Jane (???)" in group "???". */
  lemma ExactNameFallsBack(name: string, mappings: seq<NameMapping>)
    requires name == "Doe, Jane"
    requires mappings == [NameMapping(name, Some("Alpha"))]
    ensures GetCloseName(name, mappings, ExactMatcher) == Success(Some(name + UnresolvedSuffix))
    ensures GroupOf(Some(name + UnresolvedSuffix), mappings) == UnknownGroup
  {
    var key := MatchKey(name);
    DoeJaneKeyHasTwoLetters(name);
    TwoLettersNotACandidate(key, 'd', 'j');
    assert ExactMatcher(key, Candidates(key)) == None;
    FallbackLabelIsNotTheName(name, mappings);
  }

  /** The fallback label of a name is never that name itself */
  lemma FallbackLabelIsNotTheName(name: string, mappings: seq<NameMapping>)
    requires mappings == [NameMapping(name, Some("Alpha"))]
    ensures GroupOf(Some(name + UnresolvedSuffix), mappings) == UnknownGroup
  {
  }

  lemma DoeJaneKeyHasTwoLetters(name: string)
    requires name == "Doe, Jane"
    ensures 'd' in MatchKey(name) && 'j' in MatchKey(name)
  {
    var lower := Lower(name);
    assert lower[0] == LowerChar('D') == 'd';
    assert lower[5] == LowerChar('J') == 'j';
  }

  /** A one-letter name that does match its mapping entry gets NaN, not the
      entry's name: "A" against the entry "A" in group "G" resolves to NaN,
      which is in group "???". */
  lemma SingleLetterMatchIsNaN(name: string, mappings: seq<NameMapping>)
    requires name == "A"
    requires mappings == [NameMapping(name, Some("G"))]
    ensures GetCloseName(name, mappings, ExactMatcher) == Success(None)
    ensures GroupOf(GetCloseName(name, mappings, ExactMatcher).value, mappings) == UnknownGroup
  {
    var key := MatchKey(name);
    assert Lower(name) == "a" by {
      assert Lower(name)[0] == LowerChar('A') == 'a';
    }
    assert key == "a" by {
      assert "a"[1..] == [];
    }
    assert Candidates(key)[0] == key;
    assert ExactMatcher(key, Candidates(key)) == Some(key);
    assert MatchKey(mappings[0].formattedName) == key;
  }

  /** The values of a run of results, or the first failure among them: a
      Series `apply` stops at the first exception */
  function Collect<T>(results: seq<Result<T>>): (r: Result<seq<T>>)
    ensures r.Success? <==> forall i :: 0 <= i < |results| ==> results[i].Success?
    ensures r.Success? ==> |r.value| == |results| && forall i :: 0 <= i < |results| ==> r.value[i] == results[i].value
    ensures r.Failure? ==> exists i :: (0 <= i < |results| && results[i] == Failure(r.error)
      && forall j :: 0 <= j < i ==> results[j].Success?)
  {
    if results == [] then Success([])
    else
      match results[0]
      case Failure(e) => Failure(e)
      case Success(v) =>
        var rest := Collect(results[1..]);
        assert forall i :: 0 < i < |results| ==> results[i] == results[1..][i - 1];
        match rest
        case Failure(e) =>
          var k :| 0 <= k < |results[1..]| && results[1..][k] == Failure(e)
            && forall j :: 0 <= j < k ==> results[1..][j].Success?;
          assert results[k + 1] == Failure(e);
          Failure(e)
        case Success(vs) => Success([v] + vs)
  }

  /** `get_close_name` applied to every name; the KeyError of the first name
      that fails propagates */
  function ResolveNames(names: seq<string>, mappings: seq<NameMapping>, matcher: Matcher): (r: Result<seq<Resolved>>)
    ensures r.Success? <==> forall i :: 0 <= i < |names| ==> GetCloseName(names[i], mappings, matcher).Success?
    ensures r.Success? ==> (|r.value| == |names| &&
      forall i :: 0 <= i < |names| ==> r.value[i] == GetCloseName(names[i], mappings, matcher).value)
    ensures r.Failure? ==> exists i :: (0 <= i < |names| && GetCloseName(names[i], mappings, matcher) == Failure(r.error)
      && forall j :: 0 <= j < i ==> GetCloseName(names[j], mappings, matcher).Success?)
  {
    Collect(MapSeq((n: string) => GetCloseName(n, mappings, matcher), names))
  }

  /** `get_names(...).map(mappings).fillna('???')` for one value, where
      `mappings` is the `group` column indexed by `formatted_name`: NaN and a
      name absent from that column get "???", a present name the group of its
      first entry, "???" if that cell is empty */
  function GroupOf(name: Resolved, mappings: seq<NameMapping>): (g: string)
    ensures name.None? ==> g == UnknownGroup
    ensures name.Some? && (forall i :: 0 <= i < |mappings| ==> mappings[i].formattedName != name.value) ==> g == UnknownGroup
    ensures name.Some? && (exists i :: 0 <= i < |mappings| && mappings[i].formattedName == name.value) ==>
      exists i :: 0 <= i < |mappings| && mappings[i].formattedName == name.value && g == mappings[i].group.GetOr(UnknownGroup)
        && forall j :: 0 <= j < i ==> mappings[j].formattedName != name.value
  {
    match name
    case None => UnknownGroup
    case Some(n) =>
      if mappings == [] then UnknownGroup
      else if mappings[0].formattedName == n then mappings[0].group.GetOr(UnknownGroup)
      else
        var g := GroupOf(name, mappings[1..]);
        assert forall i :: 0 < i < |mappings| ==> mappings[i] == mappings[1..][i - 1];
        g
  }

  /** The groups of resolved names, one per name */
  function Groups(names: seq<Resolved>, mappings: seq<NameMapping>): (groups: seq<string>)
    ensures |groups| == |names|
    ensures forall i :: 0 <= i < |names| ==> groups[i] == GroupOf(names[i], mappings)
  {
    MapSeq((n: Resolved) => GroupOf(n, mappings), names)
  }

  /** A student gets a group other than "???" only when the mapping table
      lists their name followed by " (???)" verbatim: no entry under the
      plain name is ever reached. */
  lemma KnownGroupNeedsMarkedEntry(names: seq<string>, mappings: seq<NameMapping>, matcher: Matcher)
    requires ResolveNames(names, mappings, matcher).Success?
    ensures var groups := Groups(ResolveNames(names, mappings, matcher).value, mappings);
      forall i :: 0 <= i < |names| && groups[i] != UnknownGroup ==>
        exists j :: 0 <= j < |mappings| && mappings[j].formattedName == names[i] + UnresolvedSuffix
  {
  }

  // ---------------------------------------------------------------------
  // Filling the cache

  /** Every id of `ids` has a row in the cache */
  ghost predicate AllCached(rows: seq<UserRecord>, ids: seq<UserId>) {
    forall i :: 0 <= i < |ids| ==> Find(rows, ids[i]).Some?
  }

  /** The formatted names of `ids`, read from the cache */
  function FormattedNames(rows: seq<UserRecord>, ids: seq<UserId>): (names: seq<string>)
    requires AllCached(rows, ids)
    ensures |names| == |ids|
    ensures forall i :: 0 <= i < |ids| ==> names[i] == Find(rows, ids[i]).value.formattedName
  {
    if ids == [] then []
    else
      assert forall i :: 0 < i < |ids| ==> ids[i] == ids[1..][i - 1];
      [Find(rows, ids[0]).value.formattedName] + FormattedNames(rows, ids[1..])
  }

  /** Growing the cache keeps the formatted names of ids already cached */
  lemma FormattedNamesStable(before: seq<UserRecord>, after: seq<UserRecord>, ids: seq<UserId>)
    requires before <= after && AllCached(before, ids)
    ensures AllCached(after, ids)
    ensures FormattedNames(after, ids) == FormattedNames(before, ids)
  {
    FindStableUnderGrowth(before, after, ids);
  }

  lemma FormattedNamesSnoc(rows: seq<UserRecord>, ids: seq<UserId>, id: UserId)
    requires AllCached(rows, ids) && Find(rows, id).Some?
    ensures AllCached(rows, ids + [id])
    ensures FormattedNames(rows, ids + [id]) == FormattedNames(rows, ids) + [Find(rows, id).value.formattedName]
  {
  }

  /** The state of the store: the cache, the ids fetched so far and the
      tables saved so far */
  datatype Trace = Trace(cache: seq<UserRecord>, fetched: seq<UserId>, saves: seq<seq<seq<string>>>)

  /** The rows appended for `ids`, in order */
  function NewRecords(ids: seq<UserId>, fetch: UserId -> Profile): seq<UserRecord> {
    MapSeq((id: UserId) => NewRecord(id, fetch(id)), ids)
  }

  /** One `get_user(id)` call: a hit changes nothing; a miss fetches `id`,
      appends its row and saves the grown cache */
  function LookUpStep(t: Trace, id: UserId, fetch: UserId -> Profile): Trace {
    if Find(t.cache, id).Some? then t
    else
      var cache := t.cache + [NewRecord(id, fetch(id))];
      Trace(cache, t.fetched + [id], t.saves + [SaveTable(cache)])
  }

  /** `user_ids.apply(lambda i: self.get_user(i)...)`: one `get_user` call per
      id, in order, each on the state the previous one left */
  function Replay(t: Trace, ids: seq<UserId>, fetch: UserId -> Profile): Trace
    decreases |ids|
  {
    if ids == [] then t
    else LookUpStep(Replay(t, ids[..|ids| - 1], fetch), ids[|ids| - 1], fetch)
  }

  /** The rows fetched and the tables saved by a run do not depend on what
      was fetched and saved before it: the run appends to both logs */
  lemma {:induction false} ReplayExtendsLogs(rows: seq<UserRecord>, fetched: seq<UserId>, saves: seq<seq<seq<string>>>,
                                             ids: seq<UserId>, fetch: UserId -> Profile)
    ensures var run := Replay(Trace(rows, [], []), ids, fetch);
      Replay(Trace(rows, fetched, saves), ids, fetch) == Trace(run.cache, fetched + run.fetched, saves + run.saves)
  {
    if ids != [] {
      ReplayExtendsLogs(rows, fetched, saves, ids[..|ids| - 1], fetch);
      var run := Replay(Trace(rows, [], []), ids[..|ids| - 1], fetch);
      assert fetched + (run.fetched + [ids[|ids| - 1]]) == (fetched + run.fetched) + [ids[|ids| - 1]];
      assert forall x: seq<seq<string>> :: saves + (run.saves + [x]) == (saves + run.saves) + [x];
    }
  }

  /** Looking up one more id continues the run from the state it left */
  lemma ReplaySnoc(t: Trace, ids: seq<UserId>, id: UserId, fetch: UserId -> Profile)
    ensures Replay(t, ids + [id], fetch) == LookUpStep(Replay(t, ids, fetch), id, fetch)
  {
  }

  /** One more `get_user` call in the run of `get_names`: the run reaches
      the next id and that id's formatted name joins the names read so far */
  lemma LookUpNext(start: Trace, ids: seq<UserId>, i: nat, fetch: UserId -> Profile)
    requires i < |ids|
    requires AllCached(Replay(start, ids[..i], fetch).cache, ids[..i])
    ensures var prev := Replay(start, ids[..i], fetch);
      var next := LookUpStep(prev, ids[i], fetch);
      && Replay(start, ids[..i + 1], fetch) == next
      && AllCached(next.cache, ids[..i + 1])
      && FormattedNames(next.cache, ids[..i + 1]) == FormattedNames(prev.cache, ids[..i]) + [Find(next.cache, ids[i]).value.formattedName]
  {
    var prev := Replay(start, ids[..i], fetch);
    var next := LookUpStep(prev, ids[i], fetch);
    assert ids[..i + 1] == ids[..i] + [ids[i]];
    ReplaySnoc(start, ids[..i], ids[i], fetch);
    if Find(prev.cache, ids[i]).None? {
      FindAppendedRow(prev.cache, NewRecord(ids[i], fetch(ids[i])));
    }
    FormattedNamesStable(prev.cache, next.cache, ids[..i]);
    FormattedNamesSnoc(next.cache, ids[..i], ids[i]);
  }

  /** When every id is already cached, looking them all up fetches nothing,
      saves nothing and leaves the cache as it was */
  lemma {:induction false} ReplayOfCachedIds(t: Trace, ids: seq<UserId>, fetch: UserId -> Profile)
    requires AllCached(t.cache, ids)
    ensures Replay(t, ids, fetch) == t
  {
    if ids != [] {
      ReplayOfCachedIds(t, ids[..|ids| - 1], fetch);
    }
  }

  /** Starting from a cache, the cache grows by exactly one fetched row per
      fetched id, in fetch order, and the k-th save writes the cache as it
      stood after the k-th fetch, so the last save holds the final cache. */
  lemma {:induction false} ReplayAppendsFetchedRows(rows: seq<UserRecord>, ids: seq<UserId>, fetch: UserId -> Profile)
    ensures var t := Replay(Trace(rows, [], []), ids, fetch);
      && t.cache == rows + NewRecords(t.fetched, fetch)
      && |t.saves| == |t.fetched|
      && forall k :: 0 <= k < |t.saves| ==> t.saves[k] == SaveTable(rows + NewRecords(t.fetched[..k + 1], fetch))
  {
    if ids != [] {
      var prev := Replay(Trace(rows, [], []), ids[..|ids| - 1], fetch);
      var id := ids[|ids| - 1];
      ReplayAppendsFetchedRows(rows, ids[..|ids| - 1], fetch);
      if Find(prev.cache, id).None? {
        var t := Replay(Trace(rows, [], []), ids, fetch);
        assert t.fetched == prev.fetched + [id];
        MapSeqAppend((i: UserId) => NewRecord(i, fetch(i)), prev.fetched, [id]);
        assert t.cache == rows + NewRecords(t.fetched, fetch);
        forall k | 0 <= k < |t.saves|
          ensures t.saves[k] == SaveTable(rows + NewRecords(t.fetched[..k + 1], fetch))
        {
          if k < |prev.saves| {
            assert t.fetched[..k + 1] == prev.fetched[..k + 1];
          } else {
            assert t.fetched[..k + 1] == t.fetched;
          }
        }
      }
    }
  }

  /** Starting from a cache, only ids asked for and missing from it are
      fetched, and each of them once, however often it is asked for. */
  lemma {:induction false} ReplayFetchesMissesOnce(rows: seq<UserRecord>, ids: seq<UserId>, fetch: UserId -> Profile)
    ensures var t := Replay(Trace(rows, [], []), ids, fetch);
      && (forall k :: 0 <= k < |t.fetched| ==> t.fetched[k] in ids && Find(rows, t.fetched[k]).None?)
      && (forall a, b :: 0 <= a < b < |t.fetched| ==> t.fetched[a] != t.fetched[b])
  {
    if ids != [] {
      var init := ids[..|ids| - 1];
      var prev := Replay(Trace(rows, [], []), init, fetch);
      var id := ids[|ids| - 1];
      ReplayFetchesMissesOnce(rows, init, fetch);
      ReplayAppendsFetchedRows(rows, init, fetch);
      assert forall x :: x in init ==> x in ids;
      if Find(prev.cache, id).None? {
        var t := Replay(Trace(rows, [], []), ids, fetch);
        assert t.fetched == prev.fetched + [id];
        forall a | 0 <= a < |prev.fetched| ensures prev.fetched[a] != id {
          assert prev.cache[|rows| + a].userId == prev.fetched[a];
        }
        forall i | 0 <= i < |rows| ensures rows[i].userId != id {
          assert prev.cache[i] == rows[i];
        }
      }
    }
  }

  // ---------------------------------------------------------------------
  // The store

  class UserStore {
    /** `cached_users`, in row order */
    var cachedUsers: seq<UserRecord>
    /** `mappings`, loaded once */
    const mappings: seq<NameMapping>
    /** The ids passed to the remote lookup, in call order */
    ghost var fetched: seq<UserId>
    /** The tables written by `save`, in call order */
    ghost var saves: seq<seq<seq<string>>>

    /** The cache and the two logs together */
    ghost function State(): Trace
      reads this
    {
      Trace(cachedUsers, fetched, saves)
    }

    /** The two sheets read by `__init__`, given as their rows */
    constructor (cachedUsers: seq<UserRecord>, mappings: seq<NameMapping>)
      ensures this.cachedUsers == cachedUsers && this.mappings == mappings
      ensures fetched == [] && saves == []
    {
      this.cachedUsers := cachedUsers;
      this.mappings := mappings;
      fetched := [];
      saves := [];
    }

    /** `save`: write the whole cache to the `user_ids` sheet */
    method Save()
      modifies this`saves
      ensures saves == old(saves) + [SaveTable(cachedUsers)]
    {
      saves := saves + [SaveTable(cachedUsers)];
    }

    /** `get_user`: on a miss, fetch the user, append one row and save the
        cache once; on a hit, change nothing. Either way the result is the
        cached row for `id`. */
    method GetUser(id: UserId, fetch: UserId -> Profile) returns (r: UserRecord)
      modifies this
      ensures State() == LookUpStep(old(State()), id, fetch)
      ensures Find(cachedUsers, id) == Some(r)
      ensures Find(old(cachedUsers), id).Some? ==>
        && r == Find(old(cachedUsers), id).value
        && cachedUsers == old(cachedUsers)
        && fetched == old(fetched)
        && saves == old(saves)
      ensures Find(old(cachedUsers), id).None? ==>
        && r == NewRecord(id, fetch(id))
        && r.formattedName == r.lastName + ", " + r.firstName
        && cachedUsers == old(cachedUsers) + [r]
        && fetched == old(fetched) + [id]
        && saves == old(saves) + [SaveTable(cachedUsers)]
    {
      if Find(cachedUsers, id).None? {
        var rec := NewRecord(id, fetch(id));
        fetched := fetched + [id];
        FindAppendedRow(cachedUsers, rec);
        cachedUsers := cachedUsers + [rec];
        Save();
      }
      r := Find(cachedUsers, id).value;
    }

    /** The first step of `get_names`: `get_user(i)['formatted_name']` for
        every id, in order, filling the cache as it goes */
    method LookUpNames(userIds: seq<UserId>, fetch: UserId -> Profile) returns (names: seq<string>)
      modifies this
      ensures State() == Replay(old(State()), userIds, fetch)
      ensures AllCached(cachedUsers, userIds)
      ensures names == FormattedNames(cachedUsers, userIds)
    {
      names := [];
      for i := 0 to |userIds|
        invariant State() == Replay(old(State()), userIds[..i], fetch)
        invariant AllCached(cachedUsers, userIds[..i])
        invariant names == FormattedNames(cachedUsers, userIds[..i])
      {
        LookUpNext(old(State()), userIds, i, fetch);
        var rec := GetUser(userIds[i], fetch);
        names := names + [rec.formattedName];
      }
      assert userIds[..|userIds|] == userIds;
    }

    /** `get_names`: look every id up through the cache, then resolve each
        formatted name against the mapping table */
    method GetNames(userIds: seq<UserId>, fetch: UserId -> Profile, matcher: Matcher) returns (r: Result<seq<Resolved>>)
      modifies this
      ensures State() == Replay(old(State()), userIds, fetch)
      ensures AllCached(cachedUsers, userIds)
      ensures r == ResolveNames(FormattedNames(cachedUsers, userIds), mappings, matcher)
    {
      var names := LookUpNames(userIds, fetch);
      r := ResolveNames(names, mappings, matcher);
    }

    /** `get_groups`: the group of every resolved name, `'???'` for NaN and
        for a name that is not in the mapping table */
    method GetGroups(userIds: seq<UserId>, fetch: UserId -> Profile, matcher: Matcher) returns (r: Result<seq<string>>)
      modifies this
      ensures State() == Replay(old(State()), userIds, fetch)
      ensures AllCached(cachedUsers, userIds)
      ensures var names := ResolveNames(FormattedNames(cachedUsers, userIds), mappings, matcher);
        && (names.Failure? ==> r == Failure(names.error))
        && (names.Success? ==> r == Success(Groups(names.value, mappings)))
    {
      var names := GetNames(userIds, fetch, matcher);
      match names
      case Failure(e) => r := Failure(e);
      case Success(ns) => r := Success(Groups(ns, mappings));
    }
  }
}
