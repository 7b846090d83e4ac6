/** The heart button that adds a content item to, or removes it from, the user's favourites. */
module FavoriteButton {
  import opened Wrappers
  import opened Schema
  import opened Backend

  /** The button's flag and the `favorites` table after one toggle, and whether a write succeeded. */
  datatype Toggle = Toggle(favorited: bool, favorites: set<UserContent>, written: bool)

  /**
   * One `toggleFavorite` for a signed-in user: a delete when the button shows
   * the item as favourited, an insert otherwise; the flag flips only when
   * the write succeeds.
   */
  function Toggled(favorited: bool, favorites: set<UserContent>, key: UserContent, accepted: bool): (t: Toggle)
    ensures !accepted ==> !t.written && t.favorited == favorited && t.favorites == favorites
    ensures t.written ==> t.favorited == !favorited && (key in t.favorites <==> t.favorited)
    ensures t.favorites - {key} == favorites - {key}
  {
    if favorited then
      if accepted then Toggle(false, favorites - {key}, true) else Toggle(true, favorites, false)
    else if accepted && key !in favorites then Toggle(true, favorites + {key}, true)
    else Toggle(false, favorites, false)
  }

  /** The button shows what the table holds for its pair. */
  predicate InSync(favorited: bool, favorites: set<UserContent>, key: UserContent) {
    favorited <==> key in favorites
  }

  /** A toggle that starts in sync ends in sync, whatever the outcome. */
  lemma ToggleKeepsSync(favorited: bool, favorites: set<UserContent>, key: UserContent, accepted: bool)
    requires InSync(favorited, favorites, key)
    ensures var t := Toggled(favorited, favorites, key, accepted); InSync(t.favorited, t.favorites, key)
  {
  }

  /** A toggle writes exactly when the request is accepted and, for an insert, the pair is new; only then does the flag flip. */
  lemma ToggleOutcome(favorited: bool, favorites: set<UserContent>, key: UserContent, accepted: bool)
    ensures var t := Toggled(favorited, favorites, key, accepted);
      && (t.written <==> accepted && (favorited || key !in favorites))
      && (t.favorited == if t.written then !favorited else favorited)
      && (!t.written ==> t.favorites == favorites)
      && (forall other :: other != key ==> (other in t.favorites <==> other in favorites))
  {
  }

  /** From an in-sync start, two successful toggles restore the flag and the table. */
  lemma ToggleTwiceRestores(favorited: bool, favorites: set<UserContent>, key: UserContent)
    requires InSync(favorited, favorites, key)
    ensures var once := Toggled(favorited, favorites, key, true);
      once.written &&
      var twice := Toggled(once.favorited, once.favorites, key, true);
      twice.written && twice.favorited == favorited && twice.favorites == favorites
  {
  }

  /**
   * A button showing "not favourited" for a pair that the table holds can
   * never write: its insert is refused by the pair's unique key, so the flag
   * stays false.
   */
  lemma StaleButtonStuck(favorites: set<UserContent>, key: UserContent, accepted: bool)
    requires key in favorites
    ensures Toggled(false, favorites, key, accepted) == Toggle(false, favorites, false)
  {
  }

  class FavoriteButton {
    const contentId: ContentId
    var isFavorited: bool
    var loading: bool
    /** The values passed to the optional `onToggle` callback, oldest first. */
    var reported: seq<bool>

    constructor (contentId: ContentId, initialIsFavorited: bool := false)
      ensures this.contentId == contentId && isFavorited == initialIsFavorited && !loading && reported == []
    {
      this.contentId := contentId;
      isFavorited, loading, reported := initialIsFavorited, false, [];
    }

    /** `toggleFavorite`, with the write's outcome `accepted`. With no user it does nothing. */
    method ToggleFavorite(user: Option<AuthUser>, db: Database, accepted: bool)
      modifies this`isFavorited, this`loading, this`reported, db`favorites
      ensures user.None? ==>
        isFavorited == old(isFavorited) && loading == old(loading) && reported == old(reported) && db.favorites == old(db.favorites)
      ensures user.Some? ==>
        var t := Toggled(old(isFavorited), old(db.favorites), UserContent(user.value.id, contentId), accepted);
        && isFavorited == t.favorited && db.favorites == t.favorites && !loading
        && reported == old(reported) + (if t.written then [t.favorited] else [])
    {
      if user.None? {
        return;
      }
      var key := UserContent(user.value.id, contentId);
      loading := true;
      var ok;
      if isFavorited {
        ok := db.DeleteFavorite(key, accepted);
      } else {
        ok := db.InsertFavorite(key, accepted);
      }
      if ok {
        isFavorited := !isFavorited;
        reported := reported + [isFavorited];
      }
      loading := false;
    }
  }
}
