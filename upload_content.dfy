/** The teacher/admin page that adds a content item. */
module UploadContent {
  import opened Wrappers
  import opened Text
  import opened Schema
  import opened Backend

  const MissingFields := "Please fill in all required fields"
  const UploadFailed := "Failed to upload content. Please try again."

  /** `['teacher', 'admin'].includes(user_type)`: children and guardians may not upload. */
  predicate MayUpload(t: UserType): (ok: bool)
    ensures !ok <==> t == Child || t == Guardian
  {
    t == Teacher || t == Admin
  }

  /** The effect that sends a loaded profile without the teacher or admin role home. */
  predicate Redirects(profile: Option<Profile>): (r: bool)
    ensures r <==> profile.Some? && profile.value.userType in {Child, Guardian}
  {
    profile.Some? && !MayUpload(profile.value.userType)
  }

  /** The page renders its form: a user is present, and the profile is not yet loaded or may upload. */
  predicate RendersForm(user: Option<AuthUser>, profile: Option<Profile>): (r: bool)
    ensures r ==> user.Some?
    ensures user.Some? && profile.None? ==> r
  {
    !(user.None? || (profile.Some? && !MayUpload(profile.value.userType)))
  }

  /** The form is shown only to a signed-in user, and never to a redirected one. */
  lemma GateConsistent(user: Option<AuthUser>, profile: Option<Profile>)
    ensures RendersForm(user, profile) <==> user.Some? && (profile.None? || profile.value.userType !in {Child, Guardian})
    ensures Redirects(profile) ==> !RendersForm(user, profile)
    ensures RendersForm(user, profile) && profile.Some? ==> profile.value.userType in {Teacher, Admin}
  {
  }

  /** The guard `!title.trim() || !url.trim()` fails: both fields hold more than whitespace. */
  predicate Filled(title: string, url: string): (ok: bool)
    ensures ok ==> title != "" && url != ""
  {
    Trim(title) != "" && Trim(url) != ""
  }

  /** The guard passes exactly when neither field is all whitespace. */
  lemma FilledIff(title: string, url: string)
    ensures Filled(title, url) <==> !AllWhitespace(title) && !AllWhitespace(url)
  {
    TrimEmptyIff(title);
    TrimEmptyIff(url);
  }

  /** The inserted row: the trimmed title and url, and the selected type. */
  function ContentRow(title: string, kind: ContentType, url: string): (row: NewContent)
    ensures row.kind == kind
    ensures row.title == Trim(title) && row.url == Trim(url)
  {
    NewContent(Trim(title), kind, Trim(url))
  }

  class UploadForm {
    var title: string
    var kind: ContentType
    var url: string
    var loading: bool
    var error: Option<string>
    var success: bool

    /** The initial state; the type starts as a story. */
    constructor ()
      ensures title == "" && kind == Story && url == "" && !loading && error == None && !success
    {
      title, kind, url, loading, error, success := "", Story, "", false, None, false;
    }

    /**
     * `handleSubmit` up to the insert: a blank title or url stops with a
     * message; otherwise `loading` is set, the error cleared, and the row to
     * insert returned.
     */
    method BeginSubmit() returns (row: Option<NewContent>)
      modifies this`loading, this`error
      ensures !Filled(title, url) ==> row.None? && error == Some(MissingFields) && loading == old(loading)
      ensures Filled(title, url) ==> row == Some(ContentRow(title, kind, url)) && loading && error.None?
    {
      var t, u := Trim(title), Trim(url);
      if t == "" || u == "" {
        error := Some(MissingFields);
        return None;
      }
      loading := true;
      error := None;
      row := Some(ContentRow(title, kind, url));
    }

    /** The insert and what follows: success clears title and url and keeps the type. */
    method FinishSubmit(db: Database, row: NewContent, accepted: bool)
      modifies this`success, this`title, this`url, this`error, this`loading, db`content
      ensures !loading && kind == old(kind)
      ensures db.content == if accepted then old(db.content) + [row] else old(db.content)
      ensures accepted ==> success && title == "" && url == "" && error == old(error)
      ensures !accepted ==> error == Some(UploadFailed) && success == old(success) && title == old(title) && url == old(url)
    {
      var ok := db.InsertContent(row, accepted);
      if ok {
        success := true;
        title := "";
        url := "";
      } else {
        error := Some(UploadFailed);
      }
      loading := false;
    }

    /** `handleSubmit` as a whole, with the insert's outcome `accepted`. */
    method HandleSubmit(db: Database, accepted: bool)
      modifies this, db`content
      ensures kind == old(kind)
      ensures !Filled(old(title), old(url)) ==>
        && error == Some(MissingFields) && db.content == old(db.content) && title == old(title) && url == old(url)
        && loading == old(loading) && success == old(success)
      ensures Filled(old(title), old(url)) ==>
        && !loading
        && db.content == (if accepted then old(db.content) + [ContentRow(old(title), old(kind), old(url))] else old(db.content))
        && (accepted ==> success && title == "" && url == "" && error.None?)
        && (!accepted ==> error == Some(UploadFailed) && success == old(success) && title == old(title) && url == old(url))
    {
      var row := BeginSubmit();
      if row.Some? {
        FinishSubmit(db, row.value, accepted);
      }
    }

    /** The timer that hides the success message three seconds later. */
    method SuccessTimeout()
      modifies this`success
      ensures !success
    {
      success := false;
    }
  }
}
