/** The rating-and-comment form under each content item. */
module FeedbackForm {
  import opened Wrappers
  import opened Text
  import opened Schema
  import opened Backend

  const LoginRequired := "You must be logged in to submit feedback"
  const RatingRequired := "Please select a rating"
  const SubmitFailed := "Failed to submit feedback. Please try again."

  /** `comment.trim() || null`: the trimmed comment, or null when nothing but whitespace was typed. */
  function StoredComment(comment: string): (c: Option<string>)
    ensures c.None? <==> AllWhitespace(comment)
    ensures c.Some? ==> c.value == Trim(comment) && c.value != [] && !IsWhitespace(c.value[0]) && !IsWhitespace(c.value[|c.value| - 1])
  {
    TrimEmptyIff(comment);
    var t := Trim(comment);
    if t == "" then None else Some(t)
  }

  /** The upsert the form sends: its conflict key and the columns it writes. */
  datatype FeedbackWrite = FeedbackWrite(key: UserContent, record: FeedbackRecord)

  /** The row is keyed by the user and the item, carries the chosen rating, and stores a blank comment as null. */
  function Payload(user: AuthUser, contentId: ContentId, rating: int, comment: string, now: string): (w: FeedbackWrite)
    ensures w.key.userId == user.id && w.key.contentId == contentId
    ensures w.record.rating == rating && w.record.updatedAt == now
    ensures w.record.comment.None? <==> AllWhitespace(comment)
    ensures w.record.comment.Some? ==> w.record.comment.value == Trim(comment)
  {
    FeedbackWrite(UserContent(user.id, contentId), FeedbackRecord(rating, StoredComment(comment), now))
  }

  /** Upserting the same pair twice leaves the second submission's row, and every other pair as it was. */
  lemma UpsertTwice(table: map<UserContent, FeedbackRecord>, k: UserContent, first: FeedbackRecord, second: FeedbackRecord)
    ensures table[k := first][k := second] == table[k := second]
    ensures forall other :: other != k ==> (other in table[k := second] <==> other in table)
    ensures forall other :: other != k && other in table ==> table[k := second][other] == table[other]
  {
  }

  class FeedbackForm {
    const contentId: ContentId
    var rating: int
    var comment: string
    var loading: bool
    var error: Option<string>
    var success: bool
    /** How many times the optional `onSubmit` callback was invoked. */
    var submitted: nat

    constructor (contentId: ContentId)
      ensures this.contentId == contentId
      ensures rating == 0 && comment == "" && !loading && error == None && !success && submitted == 0
    {
      this.contentId := contentId;
      rating, comment, loading, error, success, submitted := 0, "", false, None, false, 0;
    }

    /** A click on star `value`. */
    method SelectRating(value: int)
      modifies this`rating
      ensures rating == value
    {
      rating := value;
    }

    /**
     * `handleSubmit` up to the upsert: the user check comes first, then the
     * rating check; each early exit only sets its message. Otherwise the
     * error is cleared, `loading` set, and the write to send is returned.
     */
    method BeginSubmit(user: Option<AuthUser>, now: string) returns (w: Option<FeedbackWrite>)
      modifies this`error, this`loading
      ensures user.None? ==> w.None? && error == Some(LoginRequired) && loading == old(loading)
      ensures user.Some? && rating == 0 ==> w.None? && error == Some(RatingRequired) && loading == old(loading)
      ensures user.Some? && rating != 0 ==>
        w == Some(Payload(user.value, contentId, rating, comment, now)) && loading && error.None?
    {
      if user.None? {
        error := Some(LoginRequired);
        return None;
      }
      if rating == 0 {
        error := Some(RatingRequired);
        return None;
      }
      loading := true;
      error := None;
      w := Some(Payload(user.value, contentId, rating, comment, now));
    }

    /**
     * The upsert and what follows it. On success the comment is cleared, the
     * rating kept, `success` set and `onSubmit` called; on failure only the
     * error message is set. `loading` ends false either way.
     */
    method FinishSubmit(db: Database, w: FeedbackWrite, accepted: bool)
      modifies this`success, this`comment, this`submitted, this`error, this`loading, db`feedback
      ensures !loading && rating == old(rating)
      ensures db.feedback == if accepted then old(db.feedback)[w.key := w.record] else old(db.feedback)
      ensures accepted ==> success && comment == "" && submitted == old(submitted) + 1 && error == old(error)
      ensures !accepted ==>
        error == Some(SubmitFailed) && success == old(success) && comment == old(comment) && submitted == old(submitted)
    {
      var ok := db.UpsertFeedback(w.key, w.record, accepted);
      if ok {
        success := true;
        comment := "";
        submitted := submitted + 1;
      } else {
        error := Some(SubmitFailed);
      }
      loading := false;
    }

    /** `handleSubmit` as a whole, with the write's outcome `accepted`. */
    method HandleSubmit(user: Option<AuthUser>, db: Database, now: string, accepted: bool)
      modifies this, db`feedback
      ensures rating == old(rating) && loading == (old(loading) && (user.None? || rating == 0))
      ensures user.None? ==>
        && error == Some(LoginRequired) && db.feedback == old(db.feedback) && comment == old(comment)
        && success == old(success) && submitted == old(submitted)
      ensures user.Some? && rating == 0 ==>
        && error == Some(RatingRequired) && db.feedback == old(db.feedback) && comment == old(comment)
        && success == old(success) && submitted == old(submitted)
      ensures user.Some? && rating != 0 ==>
        var w := Payload(user.value, contentId, rating, old(comment), now);
        && db.feedback == (if accepted then old(db.feedback)[w.key := w.record] else old(db.feedback))
        && (accepted ==> success && comment == "" && error.None? && submitted == old(submitted) + 1)
        && (!accepted ==> error == Some(SubmitFailed) && success == old(success) && comment == old(comment) && submitted == old(submitted))
    {
      var w := BeginSubmit(user, now);
      if w.Some? {
        FinishSubmit(db, w.value, accepted);
      }
    }

    /** The timer that hides the success message three seconds later. */
    method SuccessTimeout()
      modifies this`success
      ensures !success
    {
      success := false;
    }
  }

  /**
   * Two accepted submissions by the same user from the same form: the pair
   * keeps one row, the second one, and no other pair changes.
   */
  method SubmitTwice(form: FeedbackForm, db: Database, user: AuthUser, first: int, second: int, comment1: string, comment2: string, t1: string, t2: string)
    requires first != 0 && second != 0
    modifies form, db`feedback
    ensures db.feedback == old(db.feedback)[UserContent(user.id, form.contentId) := Payload(user, form.contentId, second, comment2, t2).record]
  {
    var w1 := Payload(user, form.contentId, first, comment1, t1);
    var w2 := Payload(user, form.contentId, second, comment2, t2);
    form.SelectRating(first);
    form.comment := comment1;
    form.HandleSubmit(Some(user), db, t1, true);
    assert db.feedback == old(db.feedback)[w1.key := w1.record];
    form.SelectRating(second);
    form.comment := comment2;
    form.HandleSubmit(Some(user), db, t2, true);
    UpsertTwice(old(db.feedback), w1.key, w1.record, w2.record);
  }

  /** A rating of 4 with "Great!" stores the comment as typed. */
  lemma GreatIsStoredAsTyped()
    ensures Payload(AuthUser("u1", "u1@example.org"), "c1", 4, "Great!", "t1")
      == FeedbackWrite(UserContent("u1", "c1"), FeedbackRecord(4, Some("Great!"), "t1"))
  {
    assert LeadingSpace("Great!") == 0;
    assert TrailingSpace("Great!") == 0;
    assert "Great!"[0..6] == "Great!";
  }

  /** A resubmission of 5 with an empty comment stores no comment. */
  lemma EmptyIsStoredAsNull()
    ensures Payload(AuthUser("u1", "u1@example.org"), "c1", 5, "", "t2")
      == FeedbackWrite(UserContent("u1", "c1"), FeedbackRecord(5, None, "t2"))
  {
    assert AllWhitespace("");
  }
}
