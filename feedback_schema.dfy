/** The complaint (feedback) schema. Dates are milliseconds since the epoch. */
module FeedbackSchema {

  datatype FeedbackData = FeedbackData(userId: string, supplierId: string, comment: string, feedbackDate: int)

  /** `z.date().min(new Date(0))`: at or after the epoch, with no upper bound. */
  predicate FeedbackValid(d: FeedbackData) {
    |d.userId| >= 1 && |d.supplierId| >= 1 && |d.comment| >= 1 && d.feedbackDate >= 0
  }

  lemma FeedbackValidIff(d: FeedbackData)
    ensures FeedbackValid(d) <==> d.userId != "" && d.supplierId != "" && d.comment != "" && d.feedbackDate >= 0
  {
  }

  /** Any date from the epoch on is accepted, however far after `now`; the
      "only today or past dates" of the form's label is not enforced. */
  lemma FutureDatesAccepted(d: FeedbackData, now: int, later: nat)
    requires FeedbackValid(d) && now >= 0
    ensures FeedbackValid(d.(feedbackDate := now + later))
    ensures !FeedbackValid(d.(feedbackDate := -1))
  {
  }
}
