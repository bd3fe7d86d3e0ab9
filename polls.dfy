/**
  The behaviour of the polls application's records (mysite/polls/models.py).

  A question has a text and a publication instant; a choice belongs to a
  question and has a text and a vote count. Instants are integer microseconds
  on one time line (the stored values carry microsecond resolution), so the
  one-day window is 86 400 000 000 microseconds.
*/
module Polls {

  /** An instant, in microseconds. */
  type Instant = int

  /** The length of `datetime.timedelta(days=1)`: 24 * 60 * 60 seconds of 1 000 000 microseconds. */
  const OneDay: int := 86_400_000_000

  datatype Question = Question(questionText: string, pubDate: Instant)
  {
    /**
      Whether the question was published no earlier than one day before
      `now` (the clock reading is passed in). Stated as elapsed time: at
      most one day has passed between publication and `now`.
    */
    predicate WasPublishedRecently(now: Instant)
      ensures WasPublishedRecently(now) <==> now - pubDate <= OneDay
    {
      pubDate >= now - OneDay
    }

    /** The display form of a question. */
    function Str(): string
    {
      questionText
    }
  }

  datatype Choice = Choice(question: Question, choiceText: string, votes: int)
  {
    /** The display form of a choice. */
    function Str(): string
    {
      choiceText
    }
  }

  /** The bound is inclusive: a question published exactly one day ago is recent. */
  lemma ExactlyOneDayAgoIsRecent(q: Question, now: Instant)
    requires q.pubDate == now - OneDay
    ensures q.WasPublishedRecently(now)
  {
  }

  /** There is no upper bound: a question dated in the future is recent. */
  lemma FutureIsRecent(q: Question, now: Instant)
    requires q.pubDate > now
    ensures q.WasPublishedRecently(now)
  {
  }

  /** A question published more than one day before `now` is not recent. */
  lemma OlderThanOneDayIsNotRecent(q: Question, now: Instant)
    requires q.pubDate < now - OneDay
    ensures !q.WasPublishedRecently(now)
  {
  }

  /** Recency is monotone in the publication instant. */
  lemma RecentIsMonotone(q: Question, later: Question, now: Instant)
    requires q.WasPublishedRecently(now)
    requires later.pubDate >= q.pubDate
    ensures later.WasPublishedRecently(now)
  {
  }

  /**
    Recency only wears off: a question that is not recent at `now` is not
    recent at any later clock reading.
  */
  lemma NotRecentStaysNotRecent(q: Question, now: Instant, later: Instant)
    requires !q.WasPublishedRecently(now)
    requires later >= now
    ensures !q.WasPublishedRecently(later)
  {
  }

  /**
    A question stamped with the clock and read back less than a day later
    (the same interactive session) reports that it was published recently.
  */
  lemma SavedThisSessionIsRecent(text: string, savedAt: Instant, now: Instant)
    requires savedAt <= now < savedAt + OneDay
    ensures Question(text, savedAt).WasPublishedRecently(now)
  {
  }
}
