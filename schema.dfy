/**
 * The rows of the hosted database as the application reads and writes them
 * (the `profiles`, `content`, `favorites`, `feedback`, `feedback_responses`
 * and `notifications` tables). Columns the backend fills in itself
 * (`created_at`, `updated_at` defaults, generated ids) are omitted, except the
 * notification id, which the read-flag updates select on.
 */
module Schema {
  import opened Wrappers

  type UserId = string
  type ContentId = string
  type FeedbackId = string

  /** The `user_type` enumeration. */
  datatype UserType = Child | Guardian | Teacher | Admin

  /** The `content_type` enumeration. */
  datatype ContentType = Story | Quiz | Video

  /** The string the database and the pages use for a content type. */
  function ContentTypeName(t: ContentType): (name: string)
    ensures name in {"story", "quiz", "video"}
  {
    match t
    case Story => "story"
    case Quiz => "quiz"
    case Video => "video"
  }

  lemma ContentTypeNameInjective(s: ContentType, t: ContentType)
    ensures ContentTypeName(s) == ContentTypeName(t) <==> s == t
  {
  }

  /** The `notification_type` enumeration. */
  datatype NotificationType = Info | Success | Warning | Error

  /** The identity record of the authentication service (`session.user`). */
  datatype AuthUser = AuthUser(id: UserId, email: string)

  /** A row of `profiles`. */
  datatype Profile = Profile(
    id: UserId,
    name: string,
    email: string,
    userType: UserType,
    avatarUrl: Option<string>,
    bio: Option<string>)

  /** A row inserted into `content` by the upload page. */
  datatype NewContent = NewContent(title: string, kind: ContentType, url: string)

  /** The composite key `(user_id, content_id)` of `favorites` and of `feedback`. */
  datatype UserContent = UserContent(userId: UserId, contentId: ContentId)

  /** The non-key columns of a `feedback` row. */
  datatype FeedbackRecord = FeedbackRecord(rating: int, comment: Option<string>, updatedAt: string)

  /** A row of `feedback_responses`. */
  datatype FeedbackResponse = FeedbackResponse(feedbackId: FeedbackId, adminId: UserId, response: string)

  /** A `notifications` row as the client builds it for an insert. */
  datatype NotificationDraft = NotificationDraft(userId: UserId, title: string, message: string, kind: NotificationType)

  /** A stored `notifications` row. */
  datatype Notification = Notification(
    id: nat,
    userId: UserId,
    title: string,
    message: string,
    kind: NotificationType,
    read: bool)
}
