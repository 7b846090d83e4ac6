/** The admin moderation table: rating colours and labels, star rows, and the feedback drawer. */
module ContentModeration {
  import opened Wrappers
  import opened Schema
  import opened Palette

  /**
   * `getRatingColor`. The guard `!rating` is true for `null` and for 0;
   * the thresholds are then tried from the top.
   */
  function RatingTone(rating: Option<real>): (t: Tone)
    ensures t == Gray <==> rating.None? || rating.value == 0.0
    ensures t == Green <==> rating.Some? && rating.value >= 4.0
    ensures t == Yellow <==> rating.Some? && 3.0 <= rating.value < 4.0
    ensures t == Red <==> rating.Some? && rating.value != 0.0 && rating.value < 3.0
  {
    if rating.None? || rating.value == 0.0 then Gray
    else if rating.value >= 4.0 then Green
    else if rating.value >= 3.0 then Yellow
    else Red
  }

  /** The text class of the average-rating cell. */
  function RatingColor(rating: Option<real>): (c: string)
    ensures c == "text-gray-400" <==> rating.None? || rating.value == 0.0
    ensures c == "text-green-500" <==> rating.Some? && rating.value >= 4.0
    ensures c == "text-yellow-500" <==> rating.Some? && 3.0 <= rating.value < 4.0
    ensures c == "text-red-500" <==> rating.Some? && rating.value != 0.0 && rating.value < 3.0
  {
    var t := RatingTone(rating);
    "text-" + ToneName(t) + (if t == Gray then "-400" else "-500")
  }

  /** The average-rating cell: the words "No ratings", or the average. */
  datatype RatingCell = NoRatings | Average(value: real)

  function RatingLabel(avg: Option<real>): (c: RatingCell)
    ensures c == NoRatings <==> avg.None? || avg.value == 0.0
    ensures c.Average? ==> avg == Some(c.value)
  {
    if avg.None? || avg.value == 0.0 then NoRatings else Average(avg.value)
  }

  /** The cell is gray exactly when it reads "No ratings". */
  lemma GrayIffNoRatings(avg: Option<real>)
    ensures RatingTone(avg) == Gray <==> RatingLabel(avg) == NoRatings
  {
  }

  /** Stars `0 .. n-1`, star `i` lit when `i < rating`. */
  function StarRow(n: nat, rating: int): (lit: seq<bool>)
    ensures |lit| == n
    ensures forall i :: 0 <= i < n ==> (lit[i] <==> i < rating)
  {
    seq(n, i requires 0 <= i < n => i < rating)
  }

  /** The five stars of a feedback entry. */
  function Stars(rating: int): seq<bool> {
    StarRow(5, rating)
  }

  function CountLit(s: seq<bool>): nat {
    if s == [] then 0 else CountLit(s[..|s| - 1]) + (if s[|s| - 1] then 1 else 0)
  }

  /** A row of `n` stars lights `rating` of them, clamped to `0 .. n`. */
  lemma {:induction false} StarRowCount(n: nat, rating: int)
    ensures CountLit(StarRow(n, rating)) == if rating < 0 then 0 else if rating > n then n else rating
  {
    if n > 0 {
      assert StarRow(n, rating)[..n - 1] == StarRow(n - 1, rating);
      StarRowCount(n - 1, rating);
    }
  }

  /** An integer rating between 0 and 5 lights exactly that many of the five stars. */
  lemma StarsCount(rating: int)
    requires 0 <= rating <= 5
    ensures CountLit(Stars(rating)) == rating
  {
    StarRowCount(5, rating);
  }

  /** One feedback entry of the drawer, as the query returns it. */
  datatype FeedbackEntry = FeedbackEntry(id: FeedbackId, authorName: string, rating: int, comment: Option<string>)

  const LoadFailedMessage := "Failed to load feedback"

  class ModerationPanel {
    var selectedContent: Option<ContentId>
    var feedbackData: seq<FeedbackEntry>
    var loadingFeedback: bool
    var error: Option<string>

    constructor ()
      ensures selectedContent == None && feedbackData == [] && !loadingFeedback && error == None
    {
      selectedContent, feedbackData, loadingFeedback, error := None, [], false, None;
    }

    /**
     * `loadFeedbackForContent` up to the request. Choosing the open item
     * closes it and fetches nothing; any other item becomes the selection,
     * with `loadingFeedback` set, before the request goes out.
     */
    method Choose(contentId: ContentId) returns (fetch: bool)
      modifies this`selectedContent, this`loadingFeedback
      ensures fetch <==> old(selectedContent) != Some(contentId)
      ensures !fetch ==> selectedContent == None && loadingFeedback == old(loadingFeedback)
      ensures fetch ==> selectedContent == Some(contentId) && loadingFeedback
    {
      if selectedContent == Some(contentId) {
        selectedContent := None;
        return false;
      }
      loadingFeedback := true;
      selectedContent := Some(contentId);
      fetch := true;
    }

    /** The rest of `loadFeedbackForContent`, once the request returns (`None` is an error). */
    method Receive(result: Option<seq<FeedbackEntry>>)
      modifies this`feedbackData, this`error, this`loadingFeedback
      ensures !loadingFeedback
      ensures result.Some? ==> feedbackData == result.value && error == old(error)
      ensures result.None? ==> feedbackData == old(feedbackData) && error == Some(LoadFailedMessage)
    {
      if result.Some? {
        feedbackData := result.value;
      } else {
        error := Some(LoadFailedMessage);
      }
      loadingFeedback := false;
    }

    /** `loadFeedbackForContent` with the reply `result` (used only when a request is sent). */
    method LoadFeedbackForContent(contentId: ContentId, result: Option<seq<FeedbackEntry>>)
      modifies this
      ensures old(selectedContent) == Some(contentId) ==>
        selectedContent == None && feedbackData == old(feedbackData) && loadingFeedback == old(loadingFeedback) && error == old(error)
      ensures old(selectedContent) != Some(contentId) ==>
        && selectedContent == Some(contentId) && !loadingFeedback
        && feedbackData == (if result.Some? then result.value else old(feedbackData))
        && error == (if result.Some? then old(error) else Some(LoadFailedMessage))
    {
      var fetch := Choose(contentId);
      if fetch {
        Receive(result);
      }
    }

    /** The close button of the drawer. */
    method Close()
      modifies this`selectedContent
      ensures selectedContent == None
    {
      selectedContent := None;
    }
  }
}
