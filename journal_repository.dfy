/** Persistence of journal sessions (src/data/journalRepository.ts). The backend
    is a `RowStore`: three tables, a log of the requests made to it, and a fixed
    set of requests that fail (fault injection). The identifier the backend
    gives a new session row, the clock reading and the JSON codec are inputs. */
module JournalRepository {
  import opened Wrappers
  import opened Domain
  import opened Sequences

  datatype Table = Sessions | Entries | Summaries

  datatype Request = Insert(table: Table) | Select(table: Table)

  datatype Source = User | Ai

  /** A row of `journal_sessions`. */
  datatype SessionRow = SessionRow(
    id: string,
    userId: string,
    startedAt: string,
    endedAt: Option<string>,
    status: Status,
    mode: Mode,
    title: Option<string>)

  /** A row of `journal_entries` (its own identifier is not used and not kept). */
  datatype EntryRow = EntryRow(sessionId: string, createdAt: string, text: string, source: Source)

  /** A row of `daily_summaries`. */
  datatype SummaryRow = SummaryRow(sessionId: string, createdAt: string, summaryJson: string)

  /** `JSON.stringify` on summaries. */
  type Stringify = DailySummary -> string

  /** `JSON.parse` on summaries: `None` where it throws. */
  type Parse = string -> Option<DailySummary>

  /** The placeholder for a summary that does not parse. */
  const Unavailable := DailySummary("Summary unavailable", [], None)

  // ---------------------------------------------------------------- queries

  /** The rows owned by `userId`, in table order. */
  function OwnedBy(rows: seq<SessionRow>, userId: string): (r: seq<SessionRow>)
    ensures |r| <= |rows|
    ensures forall x :: x in r <==> x in rows && x.userId == userId
    decreases |rows|
  {
    if rows == [] then []
    else (if rows[0].userId == userId then [rows[0]] else []) + OwnedBy(rows[1..], userId)
  }

  /** `.eq("user_id", userId).limit(limit)`: the first `limit` rows of the user. */
  function UserSessions(rows: seq<SessionRow>, userId: string, limit: nat): (r: seq<SessionRow>)
    ensures |r| <= limit
    ensures |r| <= |OwnedBy(rows, userId)| && r == OwnedBy(rows, userId)[..|r|]
    ensures |r| == limit || r == OwnedBy(rows, userId)
  {
    var owned := OwnedBy(rows, userId);
    if |owned| <= limit then owned else owned[..limit]
  }

  /** `sessions.map((session) => session.id)`. */
  function RowIds(rows: seq<SessionRow>): (ids: seq<string>)
    ensures |ids| == |rows| && forall i :: 0 <= i < |rows| ==> ids[i] == rows[i].id
  {
    seq(|rows|, i requires 0 <= i < |rows| => rows[i].id)
  }

  /** The session identifier of each summary row, in order. */
  function SummaryKeys(rows: seq<SummaryRow>): (keys: seq<string>)
    ensures |keys| == |rows| && forall i :: 0 <= i < |rows| ==> keys[i] == rows[i].sessionId
  {
    seq(|rows|, i requires 0 <= i < |rows| => rows[i].sessionId)
  }

  /** `.in("session_id", ids)`: the summary rows of those sessions, in table order. */
  function SummaryRowsFor(rows: seq<SummaryRow>, ids: seq<string>): (r: seq<SummaryRow>)
    ensures forall x :: x in r <==> x in rows && x.sessionId in ids
    decreases |rows|
  {
    if rows == [] then []
    else
      var n := |rows| - 1;
      assert rows == rows[..n] + [rows[n]];
      SummaryRowsFor(rows[..n], ids) + (if rows[n].sessionId in ids then [rows[n]] else [])
  }

  /** The last row for session `id`, if it has any. */
  function LastRowFor(rows: seq<SummaryRow>, id: string): (r: Option<SummaryRow>)
    ensures r == None <==> id !in SummaryKeys(rows)
    ensures r != None ==> r.value in rows && r.value.sessionId == id
    ensures r != None ==>
      exists p :: 0 <= p < |rows| && rows[p] == r.value && forall k :: p < k < |rows| ==> rows[k].sessionId != id
  {
    var keys := SummaryKeys(rows);
    if id in keys then
      var p := LastIndex(keys, id);
      assert forall k :: p < k < |rows| ==> rows[k].sessionId == keys[k] != id;
      Some(rows[p])
    else None
  }

  /** What one summary row contributes: its parsed summary, or the placeholder. */
  function Decode(json: string, parse: Parse): (s: DailySummary)
    ensures parse(json) == None ==> s == Unavailable
    ensures parse(json) != None ==> s == parse(json).value
  {
    match parse(json)
    case Some(summary) => summary
    case None => Unavailable
  }

  /** The `summaryMap`: each session with a summary row, mapped to the decoded
      content of its last row. */
  function SummaryIndex(rows: seq<SummaryRow>, parse: Parse): map<string, DailySummary>
  {
    var keys := SummaryKeys(rows);
    map id | id in keys :: Decode(rows[LastIndex(keys, id)].summaryJson, parse)
  }

  function ToSession(row: SessionRow, summary: Option<DailySummary>): JournalSession
  {
    JournalSession(row.id, row.userId, row.startedAt, row.endedAt, row.status, row.mode, row.title, summary)
  }

  /** The final `sessions.map`: one session per row, in order, with the row's
      fields and the summary found for it, or none. */
  function ToSessions(rows: seq<SessionRow>, summaryMap: map<string, DailySummary>): (r: seq<JournalSession>)
    ensures |r| == |rows|
    ensures forall i :: 0 <= i < |rows| ==>
      && r[i].id == rows[i].id && r[i].userId == rows[i].userId
      && r[i].startedAt == rows[i].startedAt && r[i].endedAt == rows[i].endedAt
      && r[i].status == rows[i].status && r[i].mode == rows[i].mode && r[i].title == rows[i].title
      && (r[i].summary == None <==> rows[i].id !in summaryMap)
      && (rows[i].id in summaryMap ==> r[i].summary == Some(summaryMap[rows[i].id]))
  {
    seq(|rows|, i requires 0 <= i < |rows| =>
      ToSession(rows[i], if rows[i].id in summaryMap then Some(summaryMap[rows[i].id]) else None))
  }

  // ---------------------------------------------------------------- the backend

  /** The contents of the three tables. */
  datatype Tables = Tables(sessions: seq<SessionRow>, entries: seq<EntryRow>, summaries: seq<SummaryRow>)

  class RowStore {
    var sessions: seq<SessionRow>
    var entries: seq<EntryRow>
    var summaries: seq<SummaryRow>
    /** Every request made, in order, whether it failed or not. */
    var log: seq<Request>
    /** The requests that fail. */
    const faults: set<Request>

    function Contents(): Tables
      reads this
    {
      Tables(sessions, entries, summaries)
    }

    constructor (faults: set<Request>)
      ensures sessions == [] && entries == [] && summaries == [] && log == []
      ensures this.faults == faults
    {
      sessions, entries, summaries, log := [], [], [], [];
      this.faults := faults;
    }

    method InsertSession(row: SessionRow) returns (ok: bool)
      modifies this`sessions, this`log
      ensures ok <==> Insert(Sessions) !in faults
      ensures log == old(log) + [Insert(Sessions)]
      ensures sessions == if ok then old(sessions) + [row] else old(sessions)
    {
      log := log + [Insert(Sessions)];
      ok := Insert(Sessions) !in faults;
      if ok {
        sessions := sessions + [row];
      }
    }

    method InsertEntry(row: EntryRow) returns (ok: bool)
      modifies this`entries, this`log
      ensures ok <==> Insert(Entries) !in faults
      ensures log == old(log) + [Insert(Entries)]
      ensures entries == if ok then old(entries) + [row] else old(entries)
    {
      log := log + [Insert(Entries)];
      ok := Insert(Entries) !in faults;
      if ok {
        entries := entries + [row];
      }
    }

    method InsertSummary(row: SummaryRow) returns (ok: bool)
      modifies this`summaries, this`log
      ensures ok <==> Insert(Summaries) !in faults
      ensures log == old(log) + [Insert(Summaries)]
      ensures summaries == if ok then old(summaries) + [row] else old(summaries)
    {
      log := log + [Insert(Summaries)];
      ok := Insert(Summaries) !in faults;
      if ok {
        summaries := summaries + [row];
      }
    }

    method SelectSessions(userId: string, limit: nat) returns (r: Result<seq<SessionRow>, Request>)
      modifies this`log
      ensures log == old(log) + [Select(Sessions)]
      ensures r == if Select(Sessions) in faults then Failure(Select(Sessions))
                   else Success(UserSessions(sessions, userId, limit))
    {
      log := log + [Select(Sessions)];
      if Select(Sessions) in faults {
        r := Failure(Select(Sessions));
      } else {
        r := Success(UserSessions(sessions, userId, limit));
      }
    }

    method SelectSummaries(ids: seq<string>) returns (r: Result<seq<SummaryRow>, Request>)
      modifies this`log
      ensures log == old(log) + [Select(Summaries)]
      ensures r == if Select(Summaries) in faults then Failure(Select(Summaries))
                   else Success(SummaryRowsFor(summaries, ids))
    {
      log := log + [Select(Summaries)];
      if Select(Summaries) in faults {
        r := Failure(Select(Summaries));
      } else {
        r := Success(SummaryRowsFor(summaries, ids));
      }
    }
  }

  // ---------------------------------------------------------------- saving

  /** The session row of a completed session: started and ended at one instant. */
  function NewSessionRow(id: string, userId: string, timestamp: string, summary: DailySummary): SessionRow
  {
    SessionRow(id, userId, timestamp, Some(timestamp), Completed, Text, Some(summary.headline))
  }

  /** The session `saveCompletedSession` returns: the inserted row with the summary. */
  function SavedSession(id: string, userId: string, timestamp: string, summary: DailySummary): (s: JournalSession)
    ensures s.id == id && s.userId == userId
    ensures s.startedAt == timestamp && s.endedAt == Some(timestamp)
    ensures s.status == Completed && s.mode == Text
    ensures s.title == Some(summary.headline) && s.summary == Some(summary)
  {
    ToSession(NewSessionRow(id, userId, timestamp, summary), Some(summary))
  }

  /** The tables after `saveCompletedSession`: the session row, its entry and its
      summary row, under the new id and one timestamp, each appended when its
      insert was attempted and did not fail. */
  function AfterSave(t: Tables, faults: set<Request>, userId: string, draftText: string, summary: DailySummary,
                     timestamp: string, newId: string, stringify: Stringify): Tables
  {
    Tables(
      t.sessions + (if Insert(Sessions) !in faults then [NewSessionRow(newId, userId, timestamp, summary)] else []),
      t.entries + (if Insert(Sessions) !in faults && Insert(Entries) !in faults
                   then [EntryRow(newId, timestamp, draftText, User)] else []),
      t.summaries + (if SaveSucceeds(faults) then [SummaryRow(newId, timestamp, stringify(summary))] else []))
  }

  /** Every insert succeeds. */
  predicate SaveSucceeds(faults: set<Request>) {
    Insert(Sessions) !in faults && Insert(Entries) !in faults && Insert(Summaries) !in faults
  }

  /** The inserts `saveCompletedSession` makes: sessions, entries, summaries, stopping
      after the first that fails. */
  function InsertAttempts(faults: set<Request>): (attempts: seq<Request>)
  {
    if Insert(Sessions) in faults then [Insert(Sessions)]
    else if Insert(Entries) in faults then [Insert(Sessions), Insert(Entries)]
    else [Insert(Sessions), Insert(Entries), Insert(Summaries)]
  }

  /** The inserts run in the order sessions, entries, summaries; all but the last
      attempted succeeded, and the last failed exactly when the save fails. */
  lemma InsertOrder(faults: set<Request>)
    ensures var attempts := InsertAttempts(faults);
      && 1 <= |attempts| <= 3
      && attempts == [Insert(Sessions), Insert(Entries), Insert(Summaries)][..|attempts|]
      && (forall i :: 0 <= i < |attempts| - 1 ==> attempts[i] !in faults)
      && (attempts[|attempts| - 1] in faults <==> !SaveSucceeds(faults))
  {
  }

  /** `saveCompletedSession`: inserts the session row, its entry and its summary,
      all under the session's new identifier and one timestamp. The first failing
      insert is rethrown; what was inserted before it stays. */
  method SaveCompletedSession(db: RowStore, userId: string, draftText: string, summary: DailySummary,
                              timestamp: string, newId: string, stringify: Stringify)
    returns (r: Result<JournalSession, Request>)
    modifies db
    ensures db.log == old(db.log) + InsertAttempts(db.faults)
    ensures r.Success? <==> SaveSucceeds(db.faults)
    ensures r.Failure? ==> r.error == InsertAttempts(db.faults)[|InsertAttempts(db.faults)| - 1]
    ensures r.Success? ==> r.value == SavedSession(newId, userId, timestamp, summary)
    ensures db.Contents() == AfterSave(old(db.Contents()), db.faults, userId, draftText, summary, timestamp, newId, stringify)
  {
    var row := NewSessionRow(newId, userId, timestamp, summary);
    var ok := db.InsertSession(row);
    if !ok {
      return Failure(Insert(Sessions));
    }
    ok := db.InsertEntry(EntryRow(row.id, timestamp, draftText, User));
    if !ok {
      return Failure(Insert(Entries));
    }
    ok := db.InsertSummary(SummaryRow(row.id, timestamp, stringify(summary)));
    if !ok {
      return Failure(Insert(Summaries));
    }
    r := Success(ToSession(row, Some(summary)));
  }

  // ---------------------------------------------------------------- fetching

  /** The `summaryMap` loop: later rows for a session overwrite earlier ones, and a
      row that does not parse stores the placeholder. */
  method BuildSummaryMap(rows: seq<SummaryRow>, parse: Parse) returns (summaryMap: map<string, DailySummary>)
    ensures summaryMap == SummaryIndex(rows, parse)
  {
    summaryMap := map[];
    var keys := SummaryKeys(rows);
    for i := 0 to |rows|
      invariant forall id :: id in summaryMap <==> id in keys[..i]
      invariant forall id :: id in summaryMap ==>
        summaryMap[id] == Decode(rows[LastIndex(keys[..i], id)].summaryJson, parse)
    {
      assert keys[..i + 1] == keys[..i] + [rows[i].sessionId];
      forall id | id in keys[..i + 1] ensures LastIndex(keys[..i + 1], id) ==
        if id == rows[i].sessionId then i else LastIndex(keys[..i], id)
      {
        LastIndexSnoc(keys[..i], rows[i].sessionId, id);
      }
      match parse(rows[i].summaryJson) {
        case Some(s) => summaryMap := summaryMap[rows[i].sessionId := s];
        case None => summaryMap := summaryMap[rows[i].sessionId := Unavailable];
      }
    }
    assert keys[..|rows|] == keys;
  }

  /** What `fetchRecentSessions` returns for a backend in this state. */
  function FetchOutcome(sessions: seq<SessionRow>, summaries: seq<SummaryRow>, faults: set<Request>,
                        userId: string, limit: nat, parse: Parse): Result<seq<JournalSession>, Request>
  {
    if Select(Sessions) in faults then Failure(Select(Sessions))
    else
      var rows := UserSessions(sessions, userId, limit);
      if rows == [] then Success([])
      else if Select(Summaries) in faults then Failure(Select(Summaries))
      else Success(ToSessions(rows, SummaryIndex(SummaryRowsFor(summaries, RowIds(rows)), parse)))
  }

  /** The queries `fetchRecentSessions` makes: summaries only when sessions were found. */
  function FetchRequests(sessions: seq<SessionRow>, faults: set<Request>, userId: string, limit: nat): seq<Request>
  {
    if Select(Sessions) !in faults && UserSessions(sessions, userId, limit) != []
    then [Select(Sessions), Select(Summaries)]
    else [Select(Sessions)]
  }

  /** `fetchRecentSessions`. Either query's error is rethrown. */
  method FetchRecentSessions(db: RowStore, userId: string, limit: nat, parse: Parse)
    returns (r: Result<seq<JournalSession>, Request>)
    modifies db`log
    ensures r == FetchOutcome(db.sessions, db.summaries, db.faults, userId, limit, parse)
    ensures db.log == old(db.log) + FetchRequests(db.sessions, db.faults, userId, limit)
  {
    var sessions := db.SelectSessions(userId, limit);
    if sessions.Failure? {
      return Failure(sessions.error);
    }
    var rows := sessions.value;
    if |rows| == 0 {
      return Success([]);
    }
    var summaries := db.SelectSummaries(RowIds(rows));
    if summaries.Failure? {
      return Failure(summaries.error);
    }
    var summaryMap := BuildSummaryMap(summaries.value, parse);
    r := Success(ToSessions(rows, summaryMap));
  }

  // ---------------------------------------------------------------- properties

  /** Selecting the summary rows of some sessions keeps, for each of them, the
      last row the table holds. */
  lemma {:induction false} FilterKeepsLastRow(rows: seq<SummaryRow>, ids: seq<string>, id: string)
    requires id in ids
    ensures LastRowFor(SummaryRowsFor(rows, ids), id) == LastRowFor(rows, id)
    decreases |rows|
  {
    if rows != [] {
      var n := |rows| - 1;
      var front := rows[..n];
      assert rows == front + [rows[n]];
      var sel := SummaryRowsFor(front, ids);
      assert SummaryRowsFor(rows, ids) == sel + if rows[n].sessionId in ids then [rows[n]] else [];
      FilterKeepsLastRow(front, ids, id);
      LastRowForSnoc(front, rows[n], id);
      if rows[n].sessionId in ids {
        LastRowForSnoc(sel, rows[n], id);
      } else {
        assert SummaryRowsFor(rows, ids) == sel;
      }
    }
  }

  /** The last row for a session after appending one row. */
  lemma LastRowForSnoc(rows: seq<SummaryRow>, row: SummaryRow, id: string)
    ensures LastRowFor(rows + [row], id) == if row.sessionId == id then Some(row) else LastRowFor(rows, id)
  {
    SummaryKeysSnoc(rows, row);
    if id in SummaryKeys(rows + [row]) {
      LastIndexSnoc(SummaryKeys(rows), row.sessionId, id);
    }
  }

  lemma SummaryKeysSnoc(rows: seq<SummaryRow>, row: SummaryRow)
    ensures SummaryKeys(rows + [row]) == SummaryKeys(rows) + [row.sessionId]
  {
  }

  /** When neither query fails, the fetch succeeds with one session per fetched row, in the same order and
      with the row's fields. Its summary is absent when the table holds no summary
      row for it; otherwise it is the decoded content of the last such row, and the
      placeholder exactly where that row does not parse. */
  lemma FetchedSession(sessions: seq<SessionRow>, summaries: seq<SummaryRow>, faults: set<Request>,
                       userId: string, limit: nat, parse: Parse, i: nat)
    requires Select(Sessions) !in faults && Select(Summaries) !in faults
    requires i < |UserSessions(sessions, userId, limit)|
    ensures FetchOutcome(sessions, summaries, faults, userId, limit, parse).Success?
    ensures var rows := UserSessions(sessions, userId, limit);
      var fetched := FetchOutcome(sessions, summaries, faults, userId, limit, parse).value;
      && |fetched| == |rows|
      && fetched[i] == ToSession(rows[i],
           match LastRowFor(summaries, rows[i].id)
           case None => None
           case Some(row) => Some(Decode(row.summaryJson, parse)))
  {
    var rows := UserSessions(sessions, userId, limit);
    var ids := RowIds(rows);
    var sel := SummaryRowsFor(summaries, ids);
    assert rows[i].id == ids[i];
    FilterKeepsLastRow(summaries, ids, rows[i].id);
  }

  /** With no session rows for the user the fetch returns the empty list and does
      not query summaries; a failing query makes the fetch fail with it. */
  lemma FetchErrorsAndEmpty(sessions: seq<SessionRow>, summaries: seq<SummaryRow>, faults: set<Request>,
                            userId: string, limit: nat, parse: Parse)
    ensures Select(Sessions) in faults ==>
      FetchOutcome(sessions, summaries, faults, userId, limit, parse) == Failure(Select(Sessions))
    ensures Select(Sessions) !in faults && OwnedBy(sessions, userId) == [] ==>
      && FetchOutcome(sessions, summaries, faults, userId, limit, parse) == Success([])
      && FetchRequests(sessions, faults, userId, limit) == [Select(Sessions)]
    ensures Select(Sessions) !in faults && UserSessions(sessions, userId, limit) != [] && Select(Summaries) in faults ==>
      FetchOutcome(sessions, summaries, faults, userId, limit, parse) == Failure(Select(Summaries))
  {
  }

  /** A summary saved with a codec that parses back what it writes is read back
      unchanged by the next fetch of its session. */
  lemma SavedSummaryReadBack(summaries: seq<SummaryRow>, id: string, timestamp: string, summary: DailySummary,
                             stringify: Stringify, parse: Parse)
    requires parse(stringify(summary)) == Some(summary)
    ensures var after := summaries + [SummaryRow(id, timestamp, stringify(summary))];
      LastRowFor(after, id) != None && Decode(LastRowFor(after, id).value.summaryJson, parse) == summary
  {
    LastRowForSnoc(summaries, SummaryRow(id, timestamp, stringify(summary)), id);
  }

  /** After a save whose inserts all succeeded, the new session row is among the
      user's rows, and, with a codec that parses back what it writes, the session
      a fetch builds from that row and its last summary row is exactly the session
      the save returned. */
  lemma SavedSessionReadBack(t: Tables, faults: set<Request>, userId: string, draftText: string,
                             summary: DailySummary, timestamp: string, newId: string,
                             stringify: Stringify, parse: Parse)
    requires SaveSucceeds(faults) && parse(stringify(summary)) == Some(summary)
    ensures var after := AfterSave(t, faults, userId, draftText, summary, timestamp, newId, stringify);
      var row := NewSessionRow(newId, userId, timestamp, summary);
      && row in OwnedBy(after.sessions, userId)
      && LastRowFor(after.summaries, newId) != None
      && ToSession(row, Some(Decode(LastRowFor(after.summaries, newId).value.summaryJson, parse)))
         == SavedSession(newId, userId, timestamp, summary)
  {
    SavedSummaryReadBack(t.summaries, newId, timestamp, summary, stringify, parse);
  }
}
