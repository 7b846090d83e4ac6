/** The feedback list under a content item: who counts as admin, and the admin reply form. */
module FeedbackList {
  import opened Wrappers
  import opened Text
  import opened Schema
  import opened Backend

  const ResponseFailed := "Failed to submit response"

  /** `profile?.user_type === 'admin'`. */
  predicate IsAdmin(profile: Option<Profile>): (ok: bool)
    ensures ok ==> profile.Some? && profile.value.userType !in {Child, Guardian, Teacher}
  {
    profile.Some? && profile.value.userType == Admin
  }

  /** The guard of `handleSubmitResponse`: a non-blank reply, an admin, a profile. */
  predicate MaySubmit(responseText: string, profile: Option<Profile>): (ok: bool)
    ensures ok ==> profile.Some? && profile.value.userType == Admin
  {
    Trim(responseText) != "" && IsAdmin(profile) && profile.Some?
  }

  /** The guard fails exactly for a blank reply or a profile that is absent or not an admin. */
  lemma MaySubmitIff(responseText: string, profile: Option<Profile>)
    ensures MaySubmit(responseText, profile) <==>
      !AllWhitespace(responseText) && profile.Some? && profile.value.userType == Admin
  {
    TrimEmptyIff(responseText);
  }

  /** The row inserted into `feedback_responses`. */
  function ResponseRow(feedbackId: FeedbackId, admin: Profile, responseText: string): (row: FeedbackResponse)
    ensures row.feedbackId == feedbackId && row.adminId == admin.id
    ensures row.response == Trim(responseText)
  {
    FeedbackResponse(feedbackId, admin.id, Trim(responseText))
  }

  class ResponseComposer {
    var responseText: string
    var respondingTo: Option<FeedbackId>
    var submittingResponse: bool
    var error: Option<string>
    /** How many times the list was reloaded after a reply. */
    var reloads: nat

    constructor ()
      ensures responseText == "" && respondingTo == None && !submittingResponse && error == None && reloads == 0
    {
      responseText, respondingTo, submittingResponse, error, reloads := "", None, false, None, 0;
    }

    /** The "Respond to feedback" button. */
    method StartResponding(feedbackId: FeedbackId)
      modifies this`respondingTo
      ensures respondingTo == Some(feedbackId)
    {
      respondingTo := Some(feedbackId);
    }

    /** The Cancel button: closes the form and drops the draft. */
    method Cancel()
      modifies this`respondingTo, this`responseText
      ensures respondingTo == None && responseText == ""
    {
      respondingTo := None;
      responseText := "";
    }

    /** `handleSubmitResponse` up to the insert: returns the row to send, or nothing when the guard fails. */
    method BeginSubmitResponse(feedbackId: FeedbackId, profile: Option<Profile>) returns (row: Option<FeedbackResponse>)
      modifies this`submittingResponse
      ensures !MaySubmit(responseText, profile) ==> row.None? && submittingResponse == old(submittingResponse)
      ensures MaySubmit(responseText, profile) ==>
        row == Some(ResponseRow(feedbackId, profile.value, responseText)) && submittingResponse
    {
      if Trim(responseText) == "" || !IsAdmin(profile) || profile.None? {
        return None;
      }
      submittingResponse := true;
      row := Some(ResponseRow(feedbackId, profile.value, responseText));
    }

    /** The insert and what follows: success clears the draft, closes the form and reloads; failure keeps the draft. */
    method FinishSubmitResponse(db: Database, row: FeedbackResponse, accepted: bool)
      modifies this`responseText, this`respondingTo, this`error, this`reloads, this`submittingResponse, db`responses
      ensures !submittingResponse
      ensures db.responses == if accepted then old(db.responses) + [row] else old(db.responses)
      ensures accepted ==>
        responseText == "" && respondingTo == None && reloads == old(reloads) + 1 && error == old(error)
      ensures !accepted ==>
        error == Some(ResponseFailed) && responseText == old(responseText) && respondingTo == old(respondingTo) && reloads == old(reloads)
    {
      var ok := db.InsertResponse(row, accepted);
      if ok {
        responseText := "";
        respondingTo := None;
        reloads := reloads + 1;
      } else {
        error := Some(ResponseFailed);
      }
      submittingResponse := false;
    }

    /** `handleSubmitResponse` as a whole, with the insert's outcome `accepted`. */
    method HandleSubmitResponse(feedbackId: FeedbackId, profile: Option<Profile>, db: Database, accepted: bool)
      modifies this, db`responses
      ensures !MaySubmit(old(responseText), profile) ==>
        && db.responses == old(db.responses) && responseText == old(responseText) && respondingTo == old(respondingTo)
        && error == old(error) && submittingResponse == old(submittingResponse) && reloads == old(reloads)
      ensures MaySubmit(old(responseText), profile) ==>
        var row := ResponseRow(feedbackId, profile.value, old(responseText));
        && !submittingResponse
        && db.responses == (if accepted then old(db.responses) + [row] else old(db.responses))
        && (accepted ==> responseText == "" && respondingTo == None && reloads == old(reloads) + 1 && error == old(error))
        && (!accepted ==>
          error == Some(ResponseFailed) && responseText == old(responseText) && respondingTo == old(respondingTo) && reloads == old(reloads))
    {
      var row := BeginSubmitResponse(feedbackId, profile);
      if row.Some? {
        FinishSubmitResponse(db, row.value, accepted);
      }
    }
  }
}
