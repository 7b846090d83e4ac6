/**
 * The hosted backend, reduced to the tables the application touches and the
 * effect of each request it sends. Every request takes `accepted`, the
 * outcome the service and the network decide (a refused policy, a dropped
 * connection); on top of that, an insert whose key is already present is
 * refused, as the unique constraints on `favorites (user_id, content_id)` and
 * on the `profiles` and storage primary keys make it.
 */
module Backend {
  import opened Wrappers
  import opened Schema

  /** The rows an `update ... .eq(...)` on `notifications` selects. */
  datatype RowFilter =
    | WithId(id: nat)                 // .eq('id', id)
    | UnreadOf(userId: UserId)        // .eq('user_id', userId).eq('read', false)

  predicate Selects(f: RowFilter, n: Notification) {
    match f
    case WithId(id) => n.id == id
    case UnreadOf(u) => n.userId == u && !n.read
  }

  /** The table after `update({ read: true })` on the rows `f` selects. */
  function MarkRead(rows: seq<Notification>, f: RowFilter): (r: seq<Notification>)
    ensures |r| == |rows|
    ensures forall i :: 0 <= i < |rows| ==>
      r[i] == if Selects(f, rows[i]) then rows[i].(read := true) else rows[i]
  {
    if rows == [] then []
    else [if Selects(f, rows[0]) then rows[0].(read := true) else rows[0]] + MarkRead(rows[1..], f)
  }

  /** The stored rows for a batch insert: ids `first`, `first + 1`, ..., unread. */
  function Stored(drafts: seq<NotificationDraft>, first: nat): (r: seq<Notification>)
    ensures |r| == |drafts|
    ensures forall i :: 0 <= i < |drafts| ==>
      r[i] == Notification(first + i, drafts[i].userId, drafts[i].title, drafts[i].message, drafts[i].kind, false)
  {
    if drafts == [] then []
    else
      var d := drafts[0];
      [Notification(first, d.userId, d.title, d.message, d.kind, false)] + Stored(drafts[1..], first + 1)
  }

  /** Every id in `rows` is below `next`, and no two rows share an id. */
  predicate IdsBelow(rows: seq<Notification>, next: nat) {
    && (forall i :: 0 <= i < |rows| ==> rows[i].id < next)
    && (forall i, j :: 0 <= i < j < |rows| ==> rows[i].id != rows[j].id)
  }

  /** A batch stored from the counter keeps the ids distinct and below the advanced counter. */
  lemma StoredKeepsIdsBelow(rows: seq<Notification>, next: nat, drafts: seq<NotificationDraft>)
    requires IdsBelow(rows, next)
    ensures IdsBelow(rows + Stored(drafts, next), next + |drafts|)
  {
    var all := rows + Stored(drafts, next);
    forall i | 0 <= i < |all|
      ensures all[i].id < next + |drafts|
      ensures i >= |rows| ==> all[i].id == next + (i - |rows|)
    {
    }
  }

  /** Marking rows read changes no id. */
  lemma MarkReadKeepsIdsBelow(rows: seq<Notification>, next: nat, f: RowFilter)
    requires IdsBelow(rows, next)
    ensures IdsBelow(MarkRead(rows, f), next)
  {
    var r := MarkRead(rows, f);
    assert forall i :: 0 <= i < |r| ==> r[i].id == rows[i].id;
  }

  class Database {
    var profiles: map<UserId, Profile>
    var content: seq<NewContent>
    var favorites: set<UserContent>
    var feedback: map<UserContent, FeedbackRecord>
    var responses: seq<FeedbackResponse>
    var notifications: seq<Notification>
    var nextNotificationId: nat
    var avatars: set<string>
    /** The public address prefix of the `avatars` storage bucket. */
    const publicBase: string

    constructor (publicBase: string)
      ensures this.publicBase == publicBase
      ensures profiles == map[] && content == [] && favorites == {} && feedback == map[]
      ensures responses == [] && notifications == [] && nextNotificationId == 0 && avatars == {}
      ensures IdsFresh()
    {
      this.publicBase := publicBase;
      profiles, content, favorites, feedback := map[], [], {}, map[];
      responses, notifications, nextNotificationId, avatars := [], [], 0, {};
    }

    /** The counter has never been handed out: every stored id is below it, and ids are unique. */
    predicate IdsFresh()
      reads this
    {
      IdsBelow(notifications, nextNotificationId)
    }

    /** Every profile row is stored under its own id, the table's primary key. */
    predicate Keyed()
      reads this
    {
      forall k :: k in profiles ==> profiles[k].id == k
    }

    /** `from('profiles').select('*').eq('id', id).single()`: fails unless exactly one row matches. */
    method FetchProfile(id: UserId, accepted: bool) returns (r: Option<Profile>)
      ensures r == if accepted && id in profiles then Some(profiles[id]) else None
      ensures Keyed() && r.Some? ==> r.value.id == id
    {
      r := if accepted && id in profiles then Some(profiles[id]) else None;
    }

    /** `from('profiles').insert(p)`; the primary key refuses a second row for an id. */
    method InsertProfile(p: Profile, accepted: bool) returns (ok: bool)
      modifies this`profiles
      ensures ok == (accepted && p.id !in old(profiles))
      ensures old(Keyed()) ==> Keyed()
      ensures profiles == if ok then old(profiles)[p.id := p] else old(profiles)
    {
      ok := accepted && p.id !in profiles;
      if ok {
        profiles := profiles[p.id := p];
      }
    }

    /** `from('profiles').update({ user_type: t }).eq('id', id)`; no matching row is not an error. */
    method UpdateUserType(id: UserId, t: UserType, accepted: bool) returns (ok: bool)
      modifies this`profiles
      ensures ok == accepted
      ensures profiles == if ok && id in old(profiles) then old(profiles)[id := old(profiles)[id].(userType := t)] else old(profiles)
      ensures old(Keyed()) ==> Keyed()
    {
      ok := accepted;
      if ok && id in profiles {
        profiles := profiles[id := profiles[id].(userType := t)];
      }
    }

    /** `from('profiles').update({ avatar_url: url }).eq('id', id)`. */
    method UpdateAvatarUrl(id: UserId, url: string, accepted: bool) returns (ok: bool)
      modifies this`profiles
      ensures ok == accepted
      ensures profiles == if ok && id in old(profiles) then old(profiles)[id := old(profiles)[id].(avatarUrl := Some(url))] else old(profiles)
      ensures old(Keyed()) ==> Keyed()
    {
      ok := accepted;
      if ok && id in profiles {
        profiles := profiles[id := profiles[id].(avatarUrl := Some(url))];
      }
    }

    /** `from('content').insert(row)`. */
    method InsertContent(row: NewContent, accepted: bool) returns (ok: bool)
      modifies this`content
      ensures ok == accepted
      ensures content == if ok then old(content) + [row] else old(content)
    {
      ok := accepted;
      if ok {
        content := content + [row];
      }
    }

    /** `from('favorites').insert(...)`; the composite key refuses a duplicate pair. */
    method InsertFavorite(key: UserContent, accepted: bool) returns (ok: bool)
      modifies this`favorites
      ensures ok == (accepted && key !in old(favorites))
      ensures favorites == if ok then old(favorites) + {key} else old(favorites)
    {
      ok := accepted && key !in favorites;
      if ok {
        favorites := favorites + {key};
      }
    }

    /** `from('favorites').delete().eq('user_id', ...).eq('content_id', ...)`; deleting nothing is not an error. */
    method DeleteFavorite(key: UserContent, accepted: bool) returns (ok: bool)
      modifies this`favorites
      ensures ok == accepted
      ensures favorites == if ok then old(favorites) - {key} else old(favorites)
    {
      ok := accepted;
      if ok {
        favorites := favorites - {key};
      }
    }

    /** `from('feedback').upsert(row, { onConflict: 'user_id,content_id' })`. */
    method UpsertFeedback(key: UserContent, rec: FeedbackRecord, accepted: bool) returns (ok: bool)
      modifies this`feedback
      ensures ok == accepted
      ensures feedback == if ok then old(feedback)[key := rec] else old(feedback)
    {
      ok := accepted;
      if ok {
        feedback := feedback[key := rec];
      }
    }

    /** `from('feedback_responses').insert(row)`. */
    method InsertResponse(row: FeedbackResponse, accepted: bool) returns (ok: bool)
      modifies this`responses
      ensures ok == accepted
      ensures responses == if ok then old(responses) + [row] else old(responses)
    {
      ok := accepted;
      if ok {
        responses := responses + [row];
      }
    }

    /** `from('notifications').insert(drafts)`: one request, all rows or none. */
    method InsertNotifications(drafts: seq<NotificationDraft>, accepted: bool) returns (ok: bool)
      modifies this`notifications, this`nextNotificationId
      ensures ok == accepted
      ensures notifications == if ok then old(notifications) + Stored(drafts, old(nextNotificationId)) else old(notifications)
      ensures nextNotificationId == if ok then old(nextNotificationId) + |drafts| else old(nextNotificationId)
      ensures old(IdsFresh()) ==> IdsFresh()
    {
      ok := accepted;
      if ok {
        if IdsFresh() {
          StoredKeepsIdsBelow(notifications, nextNotificationId, drafts);
        }
        notifications := notifications + Stored(drafts, nextNotificationId);
        nextNotificationId := nextNotificationId + |drafts|;
      }
    }

    /** `from('notifications').update({ read: true })` restricted by `f`. */
    method SetRead(f: RowFilter, accepted: bool) returns (ok: bool)
      modifies this`notifications
      ensures ok == accepted
      ensures notifications == if ok then MarkRead(old(notifications), f) else old(notifications)
      ensures old(IdsFresh()) ==> IdsFresh()
    {
      ok := accepted;
      if ok {
        if IdsFresh() {
          MarkReadKeepsIdsBelow(notifications, nextNotificationId, f);
        }
        notifications := MarkRead(notifications, f);
      }
    }

    /** `storage.from('avatars').upload(path, file)`; an existing object is not overwritten. */
    method Upload(path: string, accepted: bool) returns (ok: bool)
      modifies this`avatars
      ensures ok == (accepted && path !in old(avatars))
      ensures avatars == if ok then old(avatars) + {path} else old(avatars)
    {
      ok := accepted && path !in avatars;
      if ok {
        avatars := avatars + {path};
      }
    }

    /** `storage.from('avatars').getPublicUrl(path)`: computed locally, never fails. */
    function PublicUrl(path: string): (url: string)
      ensures |url| == |publicBase| + |path| && url[..|publicBase|] == publicBase && url[|publicBase|..] == path
    {
      publicBase + path
    }
  }
}
