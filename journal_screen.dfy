/** The journal screen (src/features/journal/JournalScreen.tsx): a draft, a
    "next question" action and a "complete session" action that extracts a
    summary, saves it, and falls back to a local-only session on any error. */
module Journal {
  import opened Wrappers
  import opened Domain
  import opened Api
  import opened Strings
  import opened QuestionEngine
  import opened Extractor
  import opened JournalRepository
  import opened JournalStore

  /** Where a signed-out user is sent on completion. */
  const OnboardingRoute := "/onboarding"

  /** The summary a fallback session carries when the screen has shown none yet. */
  const PlaceholderSummary := DailySummary("Session", [], None)

  /** The prefix of every identifier minted for a local-only session. */
  const LocalIdPrefix := "local-"

  /** The local-only session recorded when extraction or saving fails. It carries
      the summary the screen showed when the action started (the newly extracted
      one is not yet visible to the handler), or the placeholder. */
  function FallbackSession(shown: Option<DailySummary>, userId: string, nowMillis: nat,
                           startedAt: string, endedAt: string): (s: JournalSession)
    ensures s.id == LocalIdPrefix + Decimal(nowMillis)
    ensures s.userId == userId && s.startedAt == startedAt && s.endedAt == Some(endedAt)
    ensures s.status == Completed && s.mode == Text
    ensures shown.Some? ==> s.summary == shown && s.title == Some(shown.value.headline)
    ensures shown.None? ==> s.summary == Some(PlaceholderSummary) && s.title == Some("Session")
  {
    var summary := shown.GetOr(PlaceholderSummary);
    JournalSession(LocalIdPrefix + Decimal(nowMillis), userId, startedAt, Some(endedAt),
                   Completed, Text, Some(summary.headline), Some(summary))
  }

  /** Fallback sessions minted at different milliseconds have different ids, and
      none of them collides with an id that does not start with "local-". */
  lemma FallbackIdsDistinct(m1: nat, m2: nat)
    ensures m1 != m2 ==> LocalIdPrefix + Decimal(m1) != LocalIdPrefix + Decimal(m2)
    ensures forall id: string :: |id| < |LocalIdPrefix| || id[..|LocalIdPrefix|] != LocalIdPrefix ==>
      id != LocalIdPrefix + Decimal(m1)
  {
    var a, b := LocalIdPrefix + Decimal(m1), LocalIdPrefix + Decimal(m2);
    assert a[..|LocalIdPrefix|] == LocalIdPrefix;
    if a == b {
      assert a[|LocalIdPrefix|..] == Decimal(m1);
      assert b[|LocalIdPrefix|..] == Decimal(m2);
      DecimalInjective(m1, m2);
    }
  }

  /** The screen's own state, as one value. */
  datatype ScreenState = ScreenState(
    draftText: string,
    question: Option<AIQuestion>,
    askedQuestions: seq<string>,
    summary: Option<DailySummary>,
    loadingQuestion: bool,
    completing: bool,
    /** The last route the screen replaced itself with, if any. */
    route: Option<string>)

  /** What "Next Question" leaves behind. A blank draft changes nothing. Otherwise
      a question the engine returns is shown and its text appended to the asked
      list; an engine error leaves both as they were; the screen ends idle. The
      draft, the summary and the completion flag are never touched. */
  function NextQuestionStep(s: ScreenState, mockMode: bool, gateway: Gateway, pick: nat): (t: ScreenState)
    requires pick < |FallbackQuestions|
    ensures Trim(s.draftText) == [] ==> t == s
    ensures Trim(s.draftText) != [] ==>
      var next := GetNextQuestion(s.draftText, s.askedQuestions, mockMode, gateway, pick);
      && !t.loadingQuestion
      && (next.Success? ==> t.question == Some(next.value) && t.askedQuestions == s.askedQuestions + [next.value.question])
      && (next.Failure? ==> t.question == s.question && t.askedQuestions == s.askedQuestions)
    ensures t.draftText == s.draftText && t.summary == s.summary && t.completing == s.completing && t.route == s.route
  {
    if Trim(s.draftText) == [] then s
    else
      match GetNextQuestion(s.draftText, s.askedQuestions, mockMode, gateway, pick)
      case Success(q) => s.(question := Some(q), askedQuestions := s.askedQuestions + [q.question], loadingQuestion := false)
      case Failure(_) => s.(loadingQuestion := false)
  }

  /** What "Complete Session" does, as a value: the screen afterwards, the session
      it puts at the front of the cache, and the summary it extracted (and so
      tried to save). */
  datatype Completion = Completion(screen: ScreenState, cached: Option<JournalSession>, extracted: Option<DailySummary>)

  /** `handleComplete`. A blank draft changes nothing; a signed-out user is sent to
      onboarding and nothing else changes. Otherwise the draft is summarised and
      saved: on success the saved session is cached and the draft, question and
      asked list are cleared; on any error a local-only session is cached and the
      draft is kept. An extracted summary is shown either way, and the screen ends
      up not completing. `faults` decides which backend writes fail.
      The local-only session carries the summary shown when the action started:
      the handler reads the value it captured when it was created, so a summary
      extracted during the action is not used. */
  function Complete(s: ScreenState, userId: Option<string>, mockMode: bool, gateway: Gateway,
                    faults: set<Request>, timestamp: string, newId: string,
                    nowMillis: nat, startedAt: string, endedAt: string): (c: Completion)
    ensures Trim(s.draftText) == [] ==> c == Completion(s, None, None)
    ensures Trim(s.draftText) != [] && !SignedIn(userId) ==>
      c == Completion(s.(route := Some(OnboardingRoute)), None, None)
    ensures Trim(s.draftText) != [] && SignedIn(userId) ==>
      var e := ExtractSummary(s.draftText, mockMode, gateway);
      var saved := e.Success? && SaveSucceeds(faults);
      && c.extracted == (if e.Success? then Some(e.value) else None)
      && c.cached.Some? && !c.screen.completing
      && c.screen.summary == (if e.Success? then Some(e.value) else s.summary)
      && c.screen.route == s.route && c.screen.loadingQuestion == s.loadingQuestion
      && (saved ==>
            && c.cached.value == SavedSession(newId, userId.value, timestamp, e.value)
            && c.screen.draftText == "" && c.screen.question == None && c.screen.askedQuestions == [])
      && (!saved ==>
            && c.cached.value == FallbackSession(s.summary, userId.value, nowMillis, startedAt, endedAt)
            && c.screen.draftText == s.draftText && c.screen.question == s.question
            && c.screen.askedQuestions == s.askedQuestions)
  {
    if Trim(s.draftText) == [] then Completion(s, None, None)
    else if !SignedIn(userId) then Completion(s.(route := Some(OnboardingRoute)), None, None)
    else
      var uid := userId.value;
      var fallback := FallbackSession(s.summary, uid, nowMillis, startedAt, endedAt);
      match ExtractSummary(s.draftText, mockMode, gateway)
      case Failure(_) => Completion(s.(completing := false), Some(fallback), None)
      case Success(e) =>
        if SaveSucceeds(faults) then
          Completion(s.(draftText := "", question := None, askedQuestions := [], summary := Some(e), completing := false),
                     Some(SavedSession(newId, uid, timestamp, e)), Some(e))
        else
          Completion(s.(summary := Some(e), completing := false), Some(fallback), Some(e))
  }

  /** Completing a non-blank draft while signed in always caches exactly one
      completed text session of that user, titled by the headline of the summary
      it carries. It is the backend's session, under the backend's id, exactly
      when a summary was extracted and every insert succeeded, and only then is
      the draft cleared; otherwise it is a local-only session under a "local-" id. */
  lemma CompletionCachesOneSession(s: ScreenState, userId: Option<string>, mockMode: bool, gateway: Gateway,
                                   faults: set<Request>, timestamp: string, newId: string,
                                   nowMillis: nat, startedAt: string, endedAt: string)
    requires Trim(s.draftText) != [] && SignedIn(userId)
    ensures var c := Complete(s, userId, mockMode, gateway, faults, timestamp, newId, nowMillis, startedAt, endedAt);
      var saved := c.extracted.Some? && SaveSucceeds(faults);
      && c.cached.Some?
      && c.cached.value.userId == userId.value
      && c.cached.value.status == Completed && c.cached.value.mode == Text
      && c.cached.value.summary.Some? && c.cached.value.title == Some(c.cached.value.summary.value.headline)
      && (saved ==> c.cached.value.id == newId)
      && (!saved ==> c.cached.value.id == LocalIdPrefix + Decimal(nowMillis))
      && (c.screen.draftText == "" <==> saved)
  {
    assert Trim("") == [];
  }

  /** The local-only session ignores a summary extracted during the same action:
      on a first completion in mock mode with a failing backend, the screen shows
      the extracted summary while the local-only session gets the placeholder. */
  lemma StaleFallbackSummary(s: ScreenState, userId: Option<string>, gateway: Gateway,
                             faults: set<Request>, timestamp: string, newId: string,
                             nowMillis: nat, startedAt: string, endedAt: string)
    requires Trim(s.draftText) != [] && SignedIn(userId) && !SaveSucceeds(faults) && s.summary == None
    ensures var c := Complete(s, userId, true, gateway, faults, timestamp, newId, nowMillis, startedAt, endedAt);
      && c.cached.value.summary == Some(PlaceholderSummary)
      && c.screen.summary.Some? && c.screen.summary.value.bullets == MockBullets
      && c.cached.value.summary != c.screen.summary
  {
    assert MockBullets != [];
  }

  class JournalScreen {
    var draftText: string
    var question: Option<AIQuestion>
    var askedQuestions: seq<string>
    var summary: Option<DailySummary>
    var loadingQuestion: bool
    var completing: bool
    /** The last route the screen replaced itself with, if any. */
    var route: Option<string>
    /** The session cache shared with the history screen. */
    const cache: JournalProvider
    /** The backend's tables. */
    const db: RowStore

    function State(): ScreenState
      reads this
    {
      ScreenState(draftText, question, askedQuestions, summary, loadingQuestion, completing, route)
    }

    /** A fresh screen: empty draft, no question, nothing asked, no summary, idle. */
    constructor (cache: JournalProvider, db: RowStore)
      ensures this.cache == cache && this.db == db
      ensures State() == ScreenState("", None, [], None, false, false, None)
    {
      this.cache := cache;
      this.db := db;
      draftText := "";
      question := None;
      askedQuestions := [];
      summary := None;
      loadingQuestion := false;
      completing := false;
      route := None;
    }

    /** Typing into the draft field. */
    method SetDraftText(text: string)
      modifies this
      ensures State() == old(State()).(draftText := text)
    {
      draftText := text;
    }

    /** `handleNextQuestion`; `pick` stands for the random fallback choice. */
    method HandleNextQuestion(mockMode: bool, gateway: Gateway, pick: nat)
      requires pick < |FallbackQuestions|
      modifies this
      ensures State() == NextQuestionStep(old(State()), mockMode, gateway, pick)
    {
      if Trim(draftText) == [] {
        return;
      }
      var next := GetNextQuestion(draftText, askedQuestions, mockMode, gateway, pick);
      loadingQuestion := true;
      if next.Success? {
        question := Some(next.value);
        askedQuestions := askedQuestions + [next.value.question];
      }
      loadingQuestion := false;
    }

    /** `handleComplete`: the screen, the cache and the backend log move as
        `Complete` says, and the backend is written only when a summary was
        extracted. The clock readings (`nowMillis`, `startedAt`, `endedAt`,
        `timestamp`) and the backend's new row id are parameters. */
    method HandleComplete(userId: Option<string>, mockMode: bool, gateway: Gateway, stringify: Stringify,
                          timestamp: string, newId: string, nowMillis: nat, startedAt: string, endedAt: string)
      modifies this, cache, db
      ensures
        var c := Complete(old(State()), userId, mockMode, gateway, db.faults, timestamp, newId,
                          nowMillis, startedAt, endedAt);
        && State() == c.screen
        && cache.sessions == (if c.cached.Some? then [c.cached.value] else []) + old(cache.sessions)
        && db.log == old(db.log) + (if c.extracted.Some? then InsertAttempts(db.faults) else [])
        && (c.extracted.None? ==> unchanged(db))
        && (c.extracted.Some? ==>
              db.Contents() == AfterSave(old(db.Contents()), db.faults, userId.value, old(draftText),
                                         c.extracted.value, timestamp, newId, stringify))
    {
      ghost var s := State();
      CompleteCases(s, userId, mockMode, gateway, db.faults, timestamp, newId, nowMillis, startedAt, endedAt);
      if Trim(draftText) == [] {
        return;
      }
      if !SignedIn(userId) {
        route := Some(OnboardingRoute);
        return;
      }
      var fallback := FallbackSession(summary, userId.value, nowMillis, startedAt, endedAt);
      var extracted := ExtractSummary(draftText, mockMode, gateway);
      completing := true;
      Settle(userId.value, extracted, fallback, stringify, timestamp, newId);
    }

    /** The `try`/`catch`/`finally` of `handleComplete` once a summary has been
        asked for: show and save an extracted summary, cache the saved session
        and clear the draft, or cache `fallback` when anything failed; then stop
        completing. */
    method Settle(userId: string, extracted: Result<DailySummary, string>, fallback: JournalSession,
                  stringify: Stringify, timestamp: string, newId: string)
      modifies this, cache, db
      ensures extracted.Failure? ==>
        && State() == old(State()).(completing := false)
        && cache.sessions == [fallback] + old(cache.sessions)
        && unchanged(db)
      ensures extracted.Success? && SaveSucceeds(db.faults) ==>
        && State() == old(State()).(draftText := "", question := None, askedQuestions := [],
                                    summary := Some(extracted.value), completing := false)
        && cache.sessions == [SavedSession(newId, userId, timestamp, extracted.value)] + old(cache.sessions)
      ensures extracted.Success? && !SaveSucceeds(db.faults) ==>
        && State() == old(State()).(summary := Some(extracted.value), completing := false)
        && cache.sessions == [fallback] + old(cache.sessions)
      ensures db.log == old(db.log) + (if extracted.Success? then InsertAttempts(db.faults) else [])
      ensures extracted.Success? ==>
        db.Contents() == AfterSave(old(db.Contents()), db.faults, userId, old(draftText), extracted.value,
                                   timestamp, newId, stringify)
    {
      if extracted.Failure? {
        cache.AddSession(fallback);
        completing := false;
        return;
      }
      summary := Some(extracted.value);
      var result := SaveCompletedSession(db, userId, draftText, extracted.value, timestamp, newId, stringify);
      if result.Success? {
        cache.AddSession(result.value);
        draftText, question, askedQuestions := "", None, [];
      } else {
        cache.AddSession(fallback);
      }
      completing := false;
    }
  }

  /** `Complete` case by case, in closed form. */
  lemma CompleteCases(s: ScreenState, userId: Option<string>, mockMode: bool, gateway: Gateway,
                      faults: set<Request>, timestamp: string, newId: string,
                      nowMillis: nat, startedAt: string, endedAt: string)
    ensures var c := Complete(s, userId, mockMode, gateway, faults, timestamp, newId, nowMillis, startedAt, endedAt);
      && (Trim(s.draftText) == [] ==> c == Completion(s, None, None))
      && (Trim(s.draftText) != [] && !SignedIn(userId) ==> c == Completion(s.(route := Some(OnboardingRoute)), None, None))
      && (Trim(s.draftText) != [] && SignedIn(userId) ==>
            var e := ExtractSummary(s.draftText, mockMode, gateway);
            var fallback := FallbackSession(s.summary, userId.value, nowMillis, startedAt, endedAt);
            && (e.Failure? ==> c == Completion(s.(completing := false), Some(fallback), None))
            && (e.Success? && SaveSucceeds(faults) ==>
                  c == Completion(s.(draftText := "", question := None, askedQuestions := [], summary := Some(e.value), completing := false),
                                  Some(SavedSession(newId, userId.value, timestamp, e.value)), Some(e.value)))
            && (e.Success? && !SaveSucceeds(faults) ==>
                  c == Completion(s.(summary := Some(e.value), completing := false), Some(fallback), Some(e.value))))
  {
  }
}
