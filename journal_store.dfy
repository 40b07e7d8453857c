/** The in-memory session cache of src/state/journal.tsx: the sessions created
    during this run of the app, newest first. */
module JournalStore {
  import opened Domain

  /** How many sessions in `sessions` carry the identifier `id`. */
  function CountWithId(sessions: seq<JournalSession>, id: string): nat
  {
    if sessions == [] then 0
    else (if sessions[0].id == id then 1 else 0) + CountWithId(sessions[1..], id)
  }

  class JournalProvider {
    var sessions: seq<JournalSession>

    /** The cache starts empty. */
    constructor ()
      ensures sessions == []
    {
      sessions := [];
    }

    /** Puts `session` first; the earlier sessions follow in their old order. */
    method AddSession(session: JournalSession)
      modifies this
      ensures sessions == [session] + old(sessions)
    {
      sessions := [session] + sessions;
    }

    /** Forgets every session. */
    method ClearSessions()
      modifies this
      ensures sessions == []
    {
      sessions := [];
    }
  }

  /** Prepending grows the list by one, puts the new session at index 0, keeps the
      rest in order, and adds one more session with that id even when the id is
      already present: the cache does not deduplicate. */
  lemma {:induction false} PrependKeepsDuplicates(session: JournalSession, sessions: seq<JournalSession>)
    ensures |[session] + sessions| == |sessions| + 1
    ensures ([session] + sessions)[0] == session && ([session] + sessions)[1..] == sessions
    ensures CountWithId([session] + sessions, session.id) == CountWithId(sessions, session.id) + 1
  {
    assert ([session] + sessions)[1..] == sessions;
  }
}
