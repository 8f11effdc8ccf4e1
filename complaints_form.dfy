/** The complaint form: the signed-in user's id, a supplier, a date and a
    message, checked by the feedback schema and sent to the complaint API.
    Dates are milliseconds since the epoch; `now` is the clock's reading. */
module ComplaintsForm {
  import opened Common
  import opened FormErrors
  import opened FeedbackSchema
  import LocalStorage


  const NotAuthenticated: string := "User not authenticated. Please log in again."
  const PleaseLogIn: string := "Please log in to submit a complaint"

  class ComplaintForm {
    var supplierId: string
    var userId: string
    var complaintDate: Option<int>
    var message: string
    var submitted: bool
    var loading: bool
    var errors: map<string, string>
    var toasts: seq<string>
    /** Every complaint sent to the API. */
    var sent: seq<FeedbackData>

    constructor ()
      ensures supplierId == "" && userId == "" && complaintDate.None? && message == ""
      ensures !submitted && !loading && errors == map[] && toasts == [] && sent == []
    {
      supplierId := "";
      userId := "";
      complaintDate := None;
      message := "";
      submitted := false;
      loading := false;
      errors := map[];
      toasts := [];
      sent := [];
    }

    /** The record the schema checks and the API receives: the picked date,
        or `now` when none was picked. */
    function FormData(now: int): (d: FeedbackData)
      reads this
      ensures d.userId == userId && d.supplierId == supplierId && d.comment == message
      ensures complaintDate.Some? ==> d.feedbackDate == complaintDate.value
      ensures complaintDate.None? ==> d.feedbackDate == now
    {
      FeedbackData(userId, supplierId, message, Coalesce(complaintDate, now))
    }

    /** On mount: the stored user's id when it is truthy, otherwise a toast. */
    method Mount(user: LocalStorage.SessionUser)
      modifies this
      ensures user.id != "" ==> userId == user.id && toasts == old(toasts)
      ensures user.id == "" ==> userId == old(userId) && toasts == old(toasts) + [PleaseLogIn]
      ensures supplierId == old(supplierId) && complaintDate == old(complaintDate) && message == old(message)
      ensures errors == old(errors) && sent == old(sent) && submitted == old(submitted) && loading == old(loading)
    {
      if user.id != "" {
        userId := user.id;
      } else {
        toasts := toasts + [PleaseLogIn];
      }
    }

    method SelectSupplier(value: string)
      modifies this
      ensures supplierId == value && errors == ClearError(old(errors), "supplierId")
      ensures userId == old(userId) && complaintDate == old(complaintDate) && message == old(message)
      ensures toasts == old(toasts) && sent == old(sent) && submitted == old(submitted) && loading == old(loading)
    {
      supplierId := value;
      errors := ClearError(errors, "supplierId");
    }

    /** The date picker: an empty date string is ignored; otherwise `parsed`
        (the string read as a date) is taken and the date's error cleared. */
    method ChangeDate(dateString: string, parsed: int)
      modifies this
      ensures dateString == "" ==> complaintDate == old(complaintDate) && errors == old(errors)
      ensures dateString != "" ==> complaintDate == Some(parsed) && errors == ClearError(old(errors), "feedbackDate")
      ensures supplierId == old(supplierId) && userId == old(userId) && message == old(message)
      ensures toasts == old(toasts) && sent == old(sent) && submitted == old(submitted) && loading == old(loading)
    {
      if dateString != "" {
        complaintDate := Some(parsed);
        errors := ClearError(errors, "feedbackDate");
      }
    }

    method ChangeMessage(value: string)
      modifies this
      ensures message == value && errors == ClearError(old(errors), "comment")
      ensures supplierId == old(supplierId) && userId == old(userId) && complaintDate == old(complaintDate)
      ensures toasts == old(toasts) && sent == old(sent) && submitted == old(submitted) && loading == old(loading)
    {
      message := value;
      errors := ClearError(errors, "comment");
    }

    /** Submitting. `issues` is what the schema reports for `FormData(now)`:
        none exactly when the record is valid. The button is disabled while a
        submission is in flight. `created` is whether the create call's answer
        is truthy; its wrapper catches every failure and answers undefined. */
    method Submit(now: int, issues: seq<Issue>, created: bool) returns (request: Option<FeedbackData>)
      requires !loading
      requires userId != "" ==> (issues == [] <==> FeedbackValid(FormData(now)))
      modifies this
      ensures !loading && userId == old(userId)
      ensures old(userId) == "" ==> (request.None? && toasts == old(toasts) + [NotAuthenticated]
        && errors == old(errors) && sent == old(sent) && supplierId == old(supplierId)
        && complaintDate == old(complaintDate) && message == old(message) && submitted == old(submitted))
      ensures old(userId) != "" && issues != [] ==> (request.None? && errors == IssueMap(issues)
        && toasts == old(toasts) + [issues[0].message] && sent == old(sent)
        && supplierId == old(supplierId) && complaintDate == old(complaintDate) && message == old(message)
        && submitted == old(submitted))
      ensures old(userId) != "" && issues == [] ==> (
        request == Some(old(FormData(now))) && sent == old(sent) + [old(FormData(now))]
        && (created ==> (submitted && supplierId == "" && message == ""
              && complaintDate == Some(now) && errors == map[]
              && toasts == old(toasts) + ["Complaint submitted successfully!"]))
        && (!created ==> (supplierId == old(supplierId) && message == old(message)
              && complaintDate == old(complaintDate) && errors == map[] && submitted == old(submitted)
              && toasts == old(toasts))))
    {
      request := None;
      if userId == "" {
        toasts := toasts + [NotAuthenticated];
        return;
      }
      var data := FormData(now);
      if issues != [] {
        errors := CollectErrors(issues);
        toasts := toasts + [issues[0].message];
        return;
      }
      errors := map[];
      loading := true;
      sent := sent + [data];
      request := Some(data);
      if created {
        submitted := true;
        toasts := toasts + ["Complaint submitted successfully!"];
        supplierId := "";
        complaintDate := Some(now);
        message := "";
        errors := map[];
      }
      loading := false;
    }
  }

  /** A submission that reaches the API always carries a valid record: three
      non-empty ids/texts and a date at or after the epoch, with no upper bound. */
  lemma SentRecordIsValid(d: FeedbackData, issues: seq<Issue>)
    requires issues == [] <==> FeedbackValid(d)
    requires issues == []
    ensures d.userId != "" && d.supplierId != "" && d.comment != "" && d.feedbackDate >= 0
  {
  }

  /** The error map after a failed check has an entry for each issue's field
      and keeps the last message given for it; the toast is the first issue's. */
  lemma FailedCheckErrors(issues: seq<Issue>, j: nat)
    requires j < |issues|
    requires forall k :: j < k < |issues| ==> IssueKey(issues[k]) != IssueKey(issues[j])
    ensures IssueMap(issues).Keys == IssueKeys(issues)
    ensures IssueMap(issues)[IssueKey(issues[j])] == issues[j].message
    ensures FirstMessage(issues) == Some(issues[0].message)
  {
    IssueMapKeys(issues);
    LastIssueWins(issues, j);
  }
}
