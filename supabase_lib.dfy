/** The backend helpers the pages call: sign-up with its default profile, and avatar upload. */
module SupabaseLib {
  import opened Wrappers
  import opened Text
  import opened Schema
  import opened Backend

  const ProfileInsertFailed := "profile insert failed"
  const UploadFailed := "upload failed"
  const AvatarUpdateFailed := "avatar update failed"

  /**
   * The profile `signUp` inserts for a new user: the user's id and address,
   * the text of the typed email before its first `@` as the name, and the
   * child role; avatar and bio start empty.
   */
  function DefaultProfile(user: AuthUser, email: string): (p: Profile)
    ensures p.id == user.id && p.email == user.email && p.userType == Child
    ensures p.avatarUrl.None? && p.bio.None?
    ensures IsPrefix(p.name, email) && '@' !in p.name
    ensures '@' in email ==> |p.name| < |email| && email[|p.name|] == '@'
    ensures '@' !in email ==> p.name == email
  {
    Profile(user.id, BeforeFirst(email, '@'), user.email, Child, None, None)
  }

  /** For an address `local@domain` the default name is the local part. */
  lemma {:induction false} DefaultNameIsLocalPart(user: AuthUser, local: string, domain: string)
    requires '@' !in local
    ensures DefaultProfile(user, local + "@" + domain).name == local
  {
    var email := local + "@" + domain;
    assert email[|local|] == '@';
    var name := DefaultProfile(user, email).name;
    assert name == email[..|local|] == local;
  }

  /** What `supabase.auth.signUp` answers. */
  datatype AuthReply = AuthFailed(message: string) | SignedUp(user: Option<AuthUser>)

  /**
   * `signUp(email, password)`: an auth error is thrown before anything is
   * written; with no user in the reply nothing is inserted; otherwise the
   * default profile is inserted, and a refused insert is thrown.
   */
  method SignUp(db: Database, email: string, reply: AuthReply, accepted: bool) returns (r: Result<Option<AuthUser>>)
    modifies db`profiles
    ensures reply.AuthFailed? ==> r == Err(reply.message) && db.profiles == old(db.profiles)
    ensures reply.SignedUp? && reply.user.None? ==> r == Ok(None) && db.profiles == old(db.profiles)
    ensures reply.SignedUp? && reply.user.Some? ==>
      var p := DefaultProfile(reply.user.value, email);
      && (r.Ok? <==> accepted && p.id !in old(db.profiles))
      && (r.Ok? ==> r.value == reply.user && db.profiles == old(db.profiles)[p.id := p])
      && (r.Err? ==> r.message == ProfileInsertFailed && db.profiles == old(db.profiles))
  {
    match reply
    case AuthFailed(m) =>
      return Err(m);
    case SignedUp(user) =>
      if user.None? {
        return Ok(None);
      }
      var ok := db.InsertProfile(DefaultProfile(user.value, email), accepted);
      if !ok {
        return Err(ProfileInsertFailed);
      }
      return Ok(user);
  }

  /** `file.name.split('.').pop()`: the text after the last dot, or the whole name. */
  function AvatarExtension(fileName: string): (ext: string)
    ensures '.' !in ext
    ensures '.' !in fileName ==> ext == fileName
    ensures |ext| <= |fileName| && fileName[|fileName| - |ext|..] == ext
    ensures |ext| < |fileName| ==> fileName[|fileName| - |ext| - 1..] == "." + ext
  {
    var ext := AfterLast(fileName, '.');
    assert |ext| < |fileName| ==>
      fileName[|fileName| - |ext| - 1..] == [fileName[|fileName| - |ext| - 1]] + fileName[|fileName| - |ext|..];
    ext
  }

  /** `avatars/${userId}-${random}`, the part of the path before the extension; `random` is the text of `Math.random()`. */
  function AvatarStem(userId: UserId, random: string): string {
    "avatars/" + userId + "-" + random
  }

  /** `avatars/${userId}-${random}.${ext}`. */
  function AvatarPath(userId: UserId, random: string, fileName: string): (path: string)
    ensures path == AvatarStem(userId, random) + "." + AvatarExtension(fileName)
    ensures AfterLast(path, '.') == AvatarExtension(fileName)
  {
    var prefix := AvatarStem(userId, random);
    var ext := AvatarExtension(fileName);
    AfterLastOfJoin(prefix, '.', ext);
    assert prefix + "." + ext == prefix + ['.'] + ext;
    prefix + "." + ext
  }

  /** The stored file keeps the uploaded file's extension. */
  lemma AvatarKeepsExtension(userId: UserId, random: string, fileName: string)
    ensures AvatarExtension(AvatarPath(userId, random, fileName)) == AvatarExtension(fileName)
  {
  }

  /**
   * `updateAvatar(userId, file)`: the file is uploaded first; a refused
   * upload throws and the profile is left alone. Then the profile's
   * `avatar_url` is set to the public address of the same path, which is
   * returned; a refused update throws, and the uploaded file stays.
   */
  method UpdateAvatar(db: Database, userId: UserId, fileName: string, random: string, uploadAccepted: bool, updateAccepted: bool) returns (r: Result<string>)
    modifies db`avatars, db`profiles
    ensures var path := AvatarPath(userId, random, fileName);
      && (path in old(db.avatars) || !uploadAccepted ==> r == Err(UploadFailed) && unchanged(db))
      && (path !in old(db.avatars) && uploadAccepted ==>
        && db.avatars == old(db.avatars) + {path}
        && (r.Ok? <==> updateAccepted)
        && (r.Ok? ==> r.value == db.PublicUrl(path))
        && (r.Ok? ==> db.profiles == if userId in old(db.profiles) then old(db.profiles)[userId := old(db.profiles)[userId].(avatarUrl := Some(r.value))] else old(db.profiles))
        && (r.Err? ==> r.message == AvatarUpdateFailed && db.profiles == old(db.profiles)))
  {
    var path := AvatarPath(userId, random, fileName);
    var uploaded := db.Upload(path, uploadAccepted);
    if !uploaded {
      return Err(UploadFailed);
    }
    var url := db.PublicUrl(path);
    var updated := db.UpdateAvatarUrl(userId, url, updateAccepted);
    if !updated {
      return Err(AvatarUpdateFailed);
    }
    return Ok(url);
  }
}
