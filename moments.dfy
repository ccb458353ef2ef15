/** `MomentsModule`: likes, comments and the deletion of a moment, over the shared store.

    `moments`, `likes` and `comments` are among the cache's placeholder names, so until
    one of them is first `set` in a session `get` answers `null` for it and every
    operation here that reads it throws a `TypeError`. */
module Moments {
  import opened Wrappers
  import opened Strings
  import opened Json
  import opened Lists
  import KV = KeyValueStore

  // ----- `toggleLike(momentId)` -----

  /** `userInfo.userId || 'currentUser'`; `None` when `userInfo` is `null`. */
  function UserIdOf(userInfo: Json): (r: Option<Json>)
    ensures r.None? <==> userInfo.JNull?
    ensures r.Some? ==> Truthy(r.value)
    ensures r.Some? && TruthyOpt(Prop(userInfo, "userId")) ==> r.value == Prop(userInfo, "userId").value
    ensures r.Some? && !TruthyOpt(Prop(userInfo, "userId")) ==> r.value == JString("currentUser")
  {
    if userInfo.JNull? then None
    else Or(Prop(userInfo, "userId"), Some(JString("currentUser")))
  }

  /** The likes object after the toggle: `likes[momentId]` created as `[]` when falsy,
      then `userId` pushed or spliced out; `None` when `likes[momentId]` is not an array
      (`indexOf`, `push` or `splice` is missing and the call throws). */
  function ToggledLikes(likes: Json, momentId: string, userId: Json): Option<Json> {
    var likes1 := EnsureList(likes, momentId);
    match Prop(likes1, momentId)
    case Some(JArray(items, named)) => Some(PutProp(likes1, momentId, JArray(Toggle(items, userId), named)))
    case _ => None
  }

  /** `toggleLike(momentId)`: the creation of the list is made in the cached object
      before the user info is read, so it stays in the cache when that read finds
      `null` and the call throws. */
  function ToggleLikeSpec(env: KV.Session, db: KV.Db, momentId: string): (Outcome, KV.Db) {
    var (likes, db1) := KV.Fetch(env, db, "likes");
    if likes.JNull? then (Threw, db1)
    else
      var db2 := KV.Mutate(db1, "likes", EnsureList(likes, momentId));
      var (u, db3) := KV.Fetch(env, db2, "user_info");
      if u.JNull? then (Threw, db3)
      else match ToggledLikes(likes, momentId, UserIdOf(u).value)
        case Some(likes') => (Completed, KV.Save(env, KV.Mutate(db3, "likes", likes'), "likes", likes').1)
        case None => (Threw, db3)
  }

  /** On a likes object whose entry for the moment is missing, falsy, or an array holding
      the user at most once, a toggle flips whether the user likes the moment, keeps
      the array's named properties, and leaves the other moments' entries as they were. */
  lemma ToggledLikesFlips(likes: Json, momentId: string, userId: Json)
    requires likes.JObject?
    requires !TruthyOpt(Prop(likes, momentId))
          || (Prop(likes, momentId).value.JArray? && AtMostOnce(Prop(likes, momentId).value.items, userId))
    ensures var r := ToggledLikes(likes, momentId, userId);
      && r.Some? && r.value.JObject?
      && r.value.fields.Keys == likes.fields.Keys + {momentId}
      && r.value.fields[momentId].JArray?
      && AtMostOnce(r.value.fields[momentId].items, userId)
      && (userId in r.value.fields[momentId].items <==>
            !(TruthyOpt(Prop(likes, momentId)) && userId in likes.fields[momentId].items))
      && (forall k :: k in likes.fields && k != momentId ==> r.value.fields[k] == likes.fields[k])
  {
    var likes1 := EnsureList(likes, momentId);
    var list := likes1.fields[momentId];
    ToggleFlips(list.items, userId);
  }

  /** On an object whose entry for the moment is an array, the toggle rewrites that
      entry alone. */
  lemma ToggledLikesOnArray(likes: Json, momentId: string, userId: Json)
    requires likes.JObject? && momentId in likes.fields && likes.fields[momentId].JArray?
    ensures var list := likes.fields[momentId];
      ToggledLikes(likes, momentId, userId)
        == Some(JObject(likes.fields[momentId := JArray(Toggle(list.items, userId), list.named)]))
  {
  }

  /** Liking and unliking a moment the user had not liked gives the likes object back. */
  lemma ToggledLikesTwiceRestores(likes: Json, momentId: string, userId: Json)
    requires likes.JObject? && momentId in likes.fields && likes.fields[momentId].JArray?
    requires userId !in likes.fields[momentId].items
    ensures var r := ToggledLikes(likes, momentId, userId);
      r.Some? && ToggledLikes(r.value, momentId, userId) == Some(likes)
  {
    var list := likes.fields[momentId];
    ToggledLikesOnArray(likes, momentId, userId);
    var r := JObject(likes.fields[momentId := JArray(Toggle(list.items, userId), list.named)]);
    ToggledLikesOnArray(r, momentId, userId);
    ToggleTwiceRestores(list.items, userId);
    assert r.fields[momentId := list] == likes.fields;
  }

  /** A toggle completes exactly when the likes value and the user info are not `null`
      and the moment's entry is (or becomes) an array; the cache then holds the toggled
      object, and the user is the one the user info names. */
  lemma ToggleLikeOutcome(env: KV.Session, db: KV.Db, momentId: string)
    ensures var likes := KV.Fetch(env, db, "likes").0;
      var u := KV.Fetch(env, db, "user_info").0;
      var (o, db') := ToggleLikeSpec(env, db, momentId);
      && (o == Completed <==>
            !likes.JNull? && !u.JNull? && ToggledLikes(likes, momentId, UserIdOf(u).value).Some?)
      && (o == Completed ==>
            && "likes" in db'.cache && "user_info" in db'.cache && db'.cache["user_info"] == u
            && db'.cache["likes"] == ToggledLikes(likes, momentId, UserIdOf(u).value).value)
  {
    var (likes, db1) := KV.Fetch(env, db, "likes");
    if !likes.JNull? {
      var db2 := KV.Mutate(db1, "likes", EnsureList(likes, momentId));
      KV.OtherKeysUntouched(env, db, "likes", likes, "user_info");
      var (u, db3) := KV.Fetch(env, db2, "user_info");
      assert u == KV.Fetch(env, db, "user_info").0;
      if !u.JNull? && ToggledLikes(likes, momentId, UserIdOf(u).value).Some? {
        var likes' := ToggledLikes(likes, momentId, UserIdOf(u).value).value;
        assert ToggleLikeSpec(env, db, momentId)
            == (Completed, KV.Save(env, KV.Mutate(db3, "likes", likes'), "likes", likes').1);
      }
    }
  }

  /** Liking and unliking a moment the user had not liked leaves the cached likes as they
      were, whatever the quota decided about the two saves. */
  lemma ToggleLikeTwiceRestores(env: KV.Session, db: KV.Db, momentId: string)
    requires var likes := KV.Fetch(env, db, "likes").0;
      var u := KV.Fetch(env, db, "user_info").0;
      && likes.JObject? && momentId in likes.fields && likes.fields[momentId].JArray?
      && !u.JNull? && UserIdOf(u).value !in likes.fields[momentId].items
    ensures var db' := ToggleLikeSpec(env, ToggleLikeSpec(env, db, momentId).1, momentId).1;
      "likes" in db'.cache && db'.cache["likes"] == KV.Fetch(env, db, "likes").0
  {
    var likes := KV.Fetch(env, db, "likes").0;
    var u := KV.Fetch(env, db, "user_info").0;
    var userId := UserIdOf(u).value;
    ToggledLikesTwiceRestores(likes, momentId, userId);
    ToggleLikeOutcome(env, db, momentId);
    var db2 := ToggleLikeSpec(env, db, momentId).1;
    assert KV.Fetch(env, db2, "likes").0 == ToggledLikes(likes, momentId, userId).value;
    assert KV.Fetch(env, db2, "user_info").0 == u;
    ToggleLikeOutcome(env, db2, momentId);
  }

  /** Right after `clearCache`, before anything has set `likes`, a toggle throws. */
  lemma ToggleLikeThrowsAfterClear(env: KV.Session, db: KV.Db, momentId: string)
    ensures ToggleLikeSpec(env, KV.Reseed(db), momentId).0 == Threw
  {
    assert "likes" in KV.Placeholders;
  }

  // ----- `sendComment()` -----

  /** The comment object: `author` is `userInfo.name || '用户'`. */
  function CommentEntry(commentId: string, userInfo: Json, content: string, timeText: string): Json {
    JObject(map["id" := JString(commentId),
                "author" := Or(Prop(userInfo, "name"), Some(JString("用户"))).value,
                "content" := JString(content),
                "time" := JString(timeText)])
  }

  /** `sendComment()` with the input's text, for the open moment `cur`; the comment's id
      and its time text are parameters. */
  function SendCommentSpec(env: KV.Session, db: KV.Db, cur: Option<string>, input: string,
                           commentId: string, timeText: string): (Outcome, KV.Db) {
    var content := Trim(input);
    if cur.None? || content == "" then (Completed, db)
    else
      var (u, db1) := KV.Fetch(env, db, "user_info");
      var (comments, db2) := KV.Fetch(env, db1, "comments");
      if comments.JNull? then (Threw, db2)
      else if u.JNull? then (Threw, KV.Mutate(db2, "comments", EnsureList(comments, cur.value)))
      else match WithEntry(comments, cur.value, CommentEntry(commentId, u, content, timeText))
        case None => (Threw, db2)
        case Some(c') => (Completed, KV.Save(env, KV.Mutate(db2, "comments", c'), "comments", c').1)
  }

  /** A blank comment, or no open moment, changes nothing. */
  lemma BlankCommentSendsNothing(env: KV.Session, db: KV.Db, cur: Option<string>, input: string,
                                 commentId: string, timeText: string)
    requires cur.None? || forall i :: 0 <= i < |input| ==> IsJsWhitespace(input[i])
    ensures SendCommentSpec(env, db, cur, input, commentId, timeText) == (Completed, db)
  {
    TrimEmptyIffBlank(input);
  }

  /** A comment sent to a moment whose comment list is an array completes, and the
      cache holds the comments object with the new comment pushed onto that list. */
  lemma SendCommentAppends(env: KV.Session, db: KV.Db, cur: string, input: string,
                           commentId: string, timeText: string)
    requires Trim(input) != ""
    requires var comments := KV.Fetch(env, KV.Fetch(env, db, "user_info").1, "comments").0;
      comments.JObject? && cur in comments.fields && comments.fields[cur].JArray?
    requires !KV.Fetch(env, db, "user_info").0.JNull?
    ensures var u := KV.Fetch(env, db, "user_info").0;
      var comments := KV.Fetch(env, KV.Fetch(env, db, "user_info").1, "comments").0;
      var entry := CommentEntry(commentId, u, Trim(input), timeText);
      var (o, db') := SendCommentSpec(env, db, Some(cur), input, commentId, timeText);
      && o == Completed && "comments" in db'.cache
      && WithEntry(comments, cur, entry).Some?
      && db'.cache["comments"] == WithEntry(comments, cur, entry).value
  {
    var (u, db1) := KV.Fetch(env, db, "user_info");
    var (comments, db2) := KV.Fetch(env, db1, "comments");
    var entry := CommentEntry(commentId, u, Trim(input), timeText);
    WithEntryAppends(comments, cur, entry);
    var c' := WithEntry(comments, cur, entry).value;
    var db3 := KV.Mutate(db2, "comments", c');
    assert KV.Save(env, db3, "comments", c').1.cache["comments"] == c';
    assert SendCommentSpec(env, db, Some(cur), input, commentId, timeText)
        == (Completed, KV.Save(env, db3, "comments", c').1);
  }

  // ----- `deleteComment(commentId)` -----

  /** The property `comments[this.currentMomentId]` reads: with no open moment the key
      is the text `null`. */
  function MomentKey(cur: Option<string>): string {
    if cur.Some? then cur.value else "null"
  }

  /** The comments object after `deleteComment`; `None` on a `TypeError`. */
  function CommentsWithout(comments: Json, key: string, commentId: string): (r: Option<Json>)
    ensures comments.JNull? ==> r.None?
  {
    if comments.JNull? then None
    else
      var list := if TruthyOpt(Prop(comments, key)) then Prop(comments, key).value else EmptyArray;
      if !list.JArray? || JNull in list.items then None
      else Some(PutProp(comments, key, Arr(WithoutId(list.items, commentId))))
  }

  /** `deleteComment(commentId)` with the answer of the confirmation dialog. */
  function DeleteCommentSpec(env: KV.Session, db: KV.Db, cur: Option<string>, confirmed: bool,
                             commentId: string): (Outcome, KV.Db) {
    if !confirmed then (Completed, db)
    else
      var (comments, db1) := KV.Fetch(env, db, "comments");
      match CommentsWithout(comments, MomentKey(cur), commentId)
      case None => (Threw, db1)
      case Some(c') => (Completed, KV.Save(env, KV.Mutate(db1, "comments", c'), "comments", c').1)
  }

  /** Deleting a comment leaves the moment's list with exactly the comments of another
      id, in their order, and the other moments' lists as they were; a missing or falsy
      list becomes `[]`. */
  lemma CommentsWithoutRemoves(comments: Json, key: string, commentId: string)
    requires comments.JObject?
    ensures var r := CommentsWithout(comments, key, commentId);
      && (r.None? <==> TruthyOpt(Prop(comments, key))
                       && (!comments.fields[key].JArray? || JNull in comments.fields[key].items))
      && (r.Some? ==>
            && r.value.JObject? && r.value.fields.Keys == comments.fields.Keys + {key}
            && r.value.fields[key]
               == Arr(WithoutId(if TruthyOpt(Prop(comments, key)) then comments.fields[key].items else [], commentId))
            && (forall x :: x in r.value.fields[key].items <==>
                  TruthyOpt(Prop(comments, key)) && x in comments.fields[key].items && !HasId(x, commentId))
            && forall k :: k in comments.fields && k != key ==> r.value.fields[k] == comments.fields[k])
  {
  }

  /** A list without a comment of that id is kept as it is (its named properties aside). */
  lemma DeleteAbsentCommentKeepsList(comments: Json, key: string, commentId: string)
    requires comments.JObject? && key in comments.fields && comments.fields[key].JArray?
    requires JNull !in comments.fields[key].items
    requires forall x :: x in comments.fields[key].items ==> !HasId(x, commentId)
    ensures CommentsWithout(comments, key, commentId).value.fields[key] == Arr(comments.fields[key].items)
  {
    WithoutIdKeepsOthers(comments.fields[key].items, commentId);
  }

  // ----- `deleteMoment(momentId)` -----

  /** `deleteMoment(momentId)` with the answer of the confirmation dialog: the moment
      filtered out and saved, then `delete likes[momentId]` saved, then
      `delete comments[momentId]` saved; a throw leaves the earlier saves in place. */
  function DeleteMomentSpec(env: KV.Session, db: KV.Db, confirmed: bool, momentId: string): (Outcome, KV.Db) {
    if !confirmed then (Completed, db)
    else
      var (o1, db1) := KV.RemoveByIdSpec(env, db, "moments", momentId);
      if o1 == Threw then (Threw, db1)
      else
        var (o2, db2) := KV.DeleteEntrySpec(env, db1, "likes", momentId);
        if o2 == Threw then (Threw, db2)
        else KV.DeleteEntrySpec(env, db2, "comments", momentId)
  }

  /** Deleting a moment touches only `moments`, `likes` and `comments`. */
  lemma DeleteMomentKeepsOtherKeys(env: KV.Session, db: KV.Db, confirmed: bool, momentId: string, k: string)
    requires k != "moments" && k != "likes" && k != "comments"
    ensures KV.SameAt(db, DeleteMomentSpec(env, db, confirmed, momentId).1, k)
  {
    if confirmed {
      var db1 := KV.RemoveByIdSpec(env, db, "moments", momentId).1;
      var db2 := KV.DeleteEntrySpec(env, db1, "likes", momentId).1;
      KV.EntryEditsKeepOtherKeys(env, db, "moments", momentId, k);
      KV.EntryEditsKeepOtherKeys(env, db1, "likes", momentId, k);
      KV.EntryEditsKeepOtherKeys(env, db2, "comments", momentId, k);
    }
  }

  /** With a quota that takes every write, a confirmed delete that completes leaves no
      moment with that id, and likes and comments objects without its entry and with
      every other moment's entry as it was. */
  lemma DeleteMomentCascade(env: KV.Session, db: KV.Db, momentId: string)
    requires KV.Unlimited(env)
    ensures var moments := KV.Fetch(env, db, "moments").0;
      var likes := KV.Fetch(env, db, "likes").0;
      var comments := KV.Fetch(env, db, "comments").0;
      var (o, db') := DeleteMomentSpec(env, db, true, momentId);
      o == Completed ==>
        && "moments" in db'.cache && db'.cache["moments"] == Arr(WithoutId(moments.items, momentId))
        && (forall x :: x in db'.cache["moments"].items <==> x in moments.items && !HasId(x, momentId))
        && "likes" in db'.cache && db'.cache["likes"] == DeleteProp(likes, momentId)
        && "comments" in db'.cache && db'.cache["comments"] == DeleteProp(comments, momentId)
  {
    var (o1, db1) := KV.RemoveByIdSpec(env, db, "moments", momentId);
    var (o2, db2) := KV.DeleteEntrySpec(env, db1, "likes", momentId);
    var (o3, db3) := KV.DeleteEntrySpec(env, db2, "comments", momentId);
    if o1 == Completed && o2 == Completed && o3 == Completed {
      KV.RemoveByIdRemoves(env, db, "moments", momentId);
      KV.EntryEditsKeepOtherKeys(env, db, "moments", momentId, "likes");
      KV.EntryEditsKeepOtherKeys(env, db, "moments", momentId, "comments");
      KV.EntryEditsKeepOtherKeys(env, db1, "likes", momentId, "comments");
      KV.EntryEditsKeepOtherKeys(env, db1, "likes", momentId, "moments");
      KV.EntryEditsKeepOtherKeys(env, db2, "comments", momentId, "moments");
      KV.EntryEditsKeepOtherKeys(env, db2, "comments", momentId, "likes");
      KV.DeleteEntryRemoves(env, db1, "likes", momentId);
      KV.DeleteEntryRemoves(env, db2, "comments", momentId);
      assert DeleteMomentSpec(env, db, true, momentId) == (o3, db3);
    }
  }

  /** Right after `clearCache`, before anything has set `moments`, a confirmed delete
      throws at the filter and writes nothing. */
  lemma DeleteMomentThrowsAfterClear(env: KV.Session, db: KV.Db, momentId: string)
    ensures var db0 := KV.Reseed(db);
      DeleteMomentSpec(env, db0, true, momentId) == (Threw, db0)
  {
    var db0 := KV.Reseed(db);
    assert "moments" in KV.Placeholders;
    assert db0.cache["moments" := JNull] == db0.cache;
  }

  /** The moments module: the shared store and the moment whose comments are open. */
  class MomentsModule {
    const store: KV.Store
    var currentMomentId: Option<string>

    constructor (store: KV.Store)
      ensures this.store == store && currentMomentId.None?
    {
      this.store := store;
      currentMomentId := None;
    }

    /** `toggleLike(momentId)`. */
    method ToggleLike(momentId: string) returns (o: Outcome)
      modifies store, store.local
      ensures (o, store.State()) == ToggleLikeSpec(store.Env(), old(store.State()), momentId)
    {
      var likes := store.Get("likes");
      if likes.JNull? {
        return Threw;
      }
      store.Stage("likes", EnsureList(likes, momentId));
      var u := store.Get("user_info");
      if u.JNull? {
        return Threw;
      }
      var likes' := ToggledLikes(likes, momentId, UserIdOf(u).value);
      if likes'.None? {
        return Threw;
      }
      store.Stage("likes", likes'.value);
      var _ := store.Set("likes", likes'.value);
      o := Completed;
    }

    /** `sendComment()` with the input's text. */
    method SendComment(input: string, commentId: string, timeText: string) returns (o: Outcome)
      modifies store, store.local
      ensures (o, store.State())
           == SendCommentSpec(store.Env(), old(store.State()), currentMomentId, input, commentId, timeText)
    {
      var content := Trim(input);
      if currentMomentId.None? || content == "" {
        return Completed;
      }
      var cur := currentMomentId.value;
      var u := store.Get("user_info");
      var comments := store.Get("comments");
      if comments.JNull? {
        return Threw;
      }
      if u.JNull? {
        store.Stage("comments", EnsureList(comments, cur));
        return Threw;
      }
      var c' := WithEntry(comments, cur, CommentEntry(commentId, u, content, timeText));
      if c'.None? {
        return Threw;
      }
      store.Stage("comments", c'.value);
      var _ := store.Set("comments", c'.value);
      o := Completed;
    }

    /** `deleteComment(commentId)` with the answer of the confirmation dialog. */
    method DeleteComment(confirmed: bool, commentId: string) returns (o: Outcome)
      modifies store, store.local
      ensures (o, store.State())
           == DeleteCommentSpec(store.Env(), old(store.State()), currentMomentId, confirmed, commentId)
    {
      if !confirmed {
        return Completed;
      }
      var comments := store.Get("comments");
      var c' := CommentsWithout(comments, MomentKey(currentMomentId), commentId);
      if c'.None? {
        return Threw;
      }
      store.Stage("comments", c'.value);
      var _ := store.Set("comments", c'.value);
      o := Completed;
    }

    /** `deleteMoment(momentId)` with the answer of the confirmation dialog. */
    method DeleteMoment(confirmed: bool, momentId: string) returns (o: Outcome)
      modifies store, store.local
      ensures (o, store.State()) == DeleteMomentSpec(store.Env(), old(store.State()), confirmed, momentId)
    {
      if !confirmed {
        return Completed;
      }
      o := store.RemoveById("moments", momentId);
      if o == Threw {
        return;
      }
      o := store.DeleteEntry("likes", momentId);
      if o == Threw {
        return;
      }
      o := store.DeleteEntry("comments", momentId);
    }
  }
}
