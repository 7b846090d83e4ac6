/** The admin user table: the local role change after an update, and the role badge. */
module UserTable {
  import opened Wrappers
  import opened Schema
  import opened Palette
  import opened Backend

  const UpdateFailed := "Failed to update user type"

  /** `users.map(user => user.id === id ? { ...user, user_type: t } : user)`. */
  function WithUserType(users: seq<Profile>, id: UserId, t: UserType): (r: seq<Profile>)
    ensures |r| == |users|
    ensures forall i :: 0 <= i < |users| ==> r[i] == users[i].(userType := r[i].userType)
    ensures forall i :: 0 <= i < |users| ==> r[i].userType == if users[i].id == id then t else users[i].userType
  {
    if users == [] then []
    else [if users[0].id == id then users[0].(userType := t) else users[0]] + WithUserType(users[1..], id, t)
  }

  /** An id that is not in the list leaves the list as it was. */
  lemma WithUserTypeAbsent(users: seq<Profile>, id: UserId, t: UserType)
    requires forall i :: 0 <= i < |users| ==> users[i].id != id
    ensures WithUserType(users, id, t) == users
  {
    var r := WithUserType(users, id, t);
    forall i | 0 <= i < |users| ensures r[i] == users[i] {
      assert r[i].userType == users[i].userType;
    }
  }

  /** Entries whose id differs keep every field; the matching entries keep every field but `user_type`. */
  lemma WithUserTypeOnlyTouchesMatch(users: seq<Profile>, id: UserId, t: UserType, i: int)
    requires 0 <= i < |users|
    ensures users[i].id != id ==> WithUserType(users, id, t)[i] == users[i]
    ensures users[i].id == id ==> WithUserType(users, id, t)[i] == users[i].(userType := t)
  {
  }

  /** Re-applying the same change is harmless. */
  lemma WithUserTypeIdempotent(users: seq<Profile>, id: UserId, t: UserType)
    ensures WithUserType(WithUserType(users, id, t), id, t) == WithUserType(users, id, t)
  {
    var once := WithUserType(users, id, t);
    var twice := WithUserType(once, id, t);
    forall i | 0 <= i < |users| ensures twice[i] == once[i] {
      assert once[i].id == users[i].id;
    }
  }

  /** The role badge: admin purple, teacher green, guardian blue, otherwise gray. */
  function RoleTone(t: UserType): (tone: Tone)
    ensures tone == Purple <==> t == Admin
    ensures tone == Green <==> t == Teacher
    ensures tone == Blue <==> t == Guardian
    ensures tone == Gray <==> t == Child
  {
    match t
    case Admin => Purple
    case Teacher => Green
    case Guardian => Blue
    case _ => Gray
  }

  /** The class string of the role badge. */
  function RoleBadgeClasses(t: UserType): (c: string)
    ensures t == Admin ==> c == "bg-purple-100 text-purple-800"
    ensures t == Teacher ==> c == "bg-green-100 text-green-800"
    ensures t == Guardian ==> c == "bg-blue-100 text-blue-800"
    ensures t == Child ==> c == "bg-gray-100 text-gray-800"
  {
    BadgeClasses(RoleTone(t))
  }

  class UserTable {
    var users: seq<Profile>
    var editingUser: Option<UserId>
    var error: Option<string>

    constructor ()
      ensures users == [] && editingUser == None && error == None
    {
      users, editingUser, error := [], None, None;
    }

    /** The Edit button of a row. */
    method StartEditing(id: UserId)
      modifies this`editingUser
      ensures editingUser == Some(id)
    {
      editingUser := Some(id);
    }

    /** The Cancel button of the row being edited. */
    method CancelEditing()
      modifies this`editingUser
      ensures editingUser == None
    {
      editingUser := None;
    }

    /** `updateUserType`, with the update's outcome `accepted`. */
    method UpdateUserType(db: Database, id: UserId, t: UserType, accepted: bool)
      modifies this`users, this`editingUser, this`error, db`profiles
      ensures db.profiles == if accepted && id in old(db.profiles) then old(db.profiles)[id := old(db.profiles)[id].(userType := t)] else old(db.profiles)
      ensures accepted ==> users == WithUserType(old(users), id, t) && editingUser == None && error == old(error)
      ensures !accepted ==> users == old(users) && editingUser == old(editingUser) && error == Some(UpdateFailed)
    {
      var ok := db.UpdateUserType(id, t, accepted);
      if ok {
        users := WithUserType(users, id, t);
        editingUser := None;
      } else {
        error := Some(UpdateFailed);
      }
    }
  }
}
