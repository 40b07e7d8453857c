/** The entities of src/types/domain.ts that the session logic works on. */
module Domain {
  import opened Wrappers

  datatype Status = Draft | Completed

  datatype Mode = Text | Voice

  /** A headline and bullet list produced by the extraction step. */
  datatype DailySummary = DailySummary(headline: string, bullets: seq<string>, signals: Option<seq<string>>)

  /** One journaling interaction. Optional/nullable fields are `Option`s. */
  datatype JournalSession = JournalSession(
    id: string,
    userId: string,
    startedAt: string,
    endedAt: Option<string>,
    status: Status,
    mode: Mode,
    title: Option<string>,
    summary: Option<DailySummary>)

  datatype AIQuestion = AIQuestion(question: string, coverageTag: string, whyThisNow: Option<string>)

  /** `session?.user?.id` is truthy: a user is signed in and their id is not the empty string. */
  predicate SignedIn(userId: Option<string>) {
    userId.Some? && userId.value != ""
  }
}
