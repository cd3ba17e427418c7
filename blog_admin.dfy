/**
 * `blog/admin.py` (`PostAdmin`): which posts a writer sees and may touch,
 * which fields are read-only for them, and the author and publication
 * date `save_model` fills in.
 *
 * A writer is a user whose profile has the `writer` level; superusers and
 * other levels are not restricted by these hooks.
 */
module BlogAdmin {
  import opened Wrappers
  import opened Dates
  import opened Auth
  import opened BlogModels

  /** The admin's own read-only fields. */
  const BaseReadonlyFields: seq<string> := ["created_date", "updated_date", "counted_views"]

  /** `get_queryset` on a list of posts: a writer keeps only the posts they wrote. */
  function OwnPosts(posts: seq<Post>, uid: UserId): (own: seq<Post>)
    reads posts
    ensures |own| <= |posts|
    ensures forall k :: 0 <= k < |own| ==> own[k] in posts && own[k].author == Some(uid)
    ensures forall i :: 0 <= i < |posts| ==> (posts[i] in own <==> posts[i].author == Some(uid))
  {
    if posts == [] then []
    else
      var init := posts[..|posts| - 1];
      var rest := OwnPosts(init, uid);
      var last := posts[|posts| - 1];
      assert forall i :: 0 <= i < |init| ==> init[i] == posts[i];
      if last.author == Some(uid) then rest + [last] else rest
  }

  function GetQueryset(posts: seq<Post>, u: User): (visible: seq<Post>)
    reads posts
    ensures IsWriterUser(u) ==> forall k :: 0 <= k < |visible| ==> visible[k] in posts && visible[k].author == Some(u.id)
    ensures IsWriterUser(u) ==> forall i :: 0 <= i < |posts| ==> (posts[i] in visible <==> posts[i].author == Some(u.id))
    ensures !IsWriterUser(u) ==> visible == posts
  {
    if IsWriterUser(u) then OwnPosts(posts, u.id) else posts
  }

  /**
   * `get_readonly_fields`: a writer editing an existing post may not change
   * its author, status or publication date; adding one, only the author is
   * fixed. Everybody else gets the admin's own list.
   */
  method GetReadonlyFields(u: User, obj: Post?) returns (fields: seq<string>)
    ensures |fields| >= 3 && fields[..3] == BaseReadonlyFields
    ensures !IsWriterUser(u) ==> fields == BaseReadonlyFields
    ensures IsWriterUser(u) ==> "author" in fields
    ensures "status" in fields <==> IsWriterUser(u) && obj != null
    ensures "published_date" in fields <==> IsWriterUser(u) && obj != null
    ensures IsWriterUser(u) ==>
      fields == BaseReadonlyFields + ["author"] + (if obj != null then ["status", "published_date"] else [])
  {
    fields := BaseReadonlyFields;
    if IsWriterUser(u) {
      if obj != null {
        fields := fields + ["author", "status", "published_date"];
      } else {
        fields := fields + ["author"];
      }
    }
  }

  /** Python values the status comparison can see: the `BooleanField`'s bool, or a string. */
  datatype PyValue = PyBool(b: bool) | PyStr(s: string)

  /**
   * The publication date after `save_model`, for a status value of any
   * Python type: set to now when the status equals `'published'` and no
   * date was set, kept when it equals `'published'`, cleared otherwise.
   */
  function SavedPublishedDate(status: PyValue, date: Option<Instant>, now: Instant): (saved: Option<Instant>)
    ensures status != PyStr("published") ==> saved.None?
    ensures status == PyStr("published") ==> saved.Some? && (date.Some? ==> saved == date)
    ensures status == PyStr("published") && date.None? ==> saved == Some(now)
  {
    var afterSet := if status == PyStr("published") && date.None? then Some(now) else date;
    if status != PyStr("published") then None else afterSet
  }

  /**
   * The publication date evidently intended for a boolean status: a
   * published post keeps its date or is dated now, an unpublished one has none.
   */
  function IntendedPublishedDate(status: bool, date: Option<Instant>, now: Instant): (saved: Option<Instant>)
    ensures status ==> saved.Some? && (date.Some? ==> saved == date) && (date.None? ==> saved == Some(now))
    ensures !status ==> saved.None?
  {
    if !status then None else if date.None? then Some(now) else date
  }

  /**
   * Because `Post.status` is a bool, it never equals `'published'`: the
   * rule as written clears the date of every post, published or not,
   * where the intended rule keeps a published post's date.
   */
  lemma SaveModelClearsEveryDate(status: bool, date: Option<Instant>, now: Instant)
    ensures SavedPublishedDate(PyBool(status), date, now).None?
    ensures status ==> SavedPublishedDate(PyBool(status), date, now) != IntendedPublishedDate(status, date, now)
    ensures !status ==> SavedPublishedDate(PyBool(status), date, now) == IntendedPublishedDate(status, date, now)
  {
  }

  /** `save_model` as written: a missing author becomes the requesting user; the publication date is always cleared. */
  method SaveModel(u: User, post: Post, now: Instant)
    modifies post`author, post`publishedDate
    ensures post.author == if old(post.author).None? then Some(u.id) else old(post.author)
    ensures post.publishedDate == SavedPublishedDate(PyBool(post.status), old(post.publishedDate), now)
    ensures post.publishedDate.None?
  {
    if post.author.None? {
      post.author := Some(u.id);
    }
    var status, date := PyBool(post.status), post.publishedDate;
    post.publishedDate := if status == PyStr("published") && date.None? then Some(now) else date;
    if status != PyStr("published") {
      post.publishedDate := None;
    }
  }

  /** `save_model` with the evidently intended comparison on the boolean status. */
  method SaveModelIntended(u: User, post: Post, now: Instant)
    modifies post`author, post`publishedDate
    ensures post.author == if old(post.author).None? then Some(u.id) else old(post.author)
    ensures post.publishedDate == IntendedPublishedDate(post.status, old(post.publishedDate), now)
  {
    if post.author.None? {
      post.author := Some(u.id);
    }
    if post.status && post.publishedDate.None? {
      post.publishedDate := Some(now);
    }
    if !post.status {
      post.publishedDate := None;
    }
  }

  /** Anyone who reaches the admin may add posts. */
  function HasAddPermission(u: User): (ok: bool)
    ensures ok
  {
    true
  }

  /** A writer may change only a post they wrote; with no post, or for anyone else, the answer is yes. */
  function HasChangePermission(u: User, obj: Post?): (ok: bool)
    reads obj
    ensures obj != null && IsWriterUser(u) ==> (ok <==> obj.author == Some(u.id))
    ensures obj == null || !IsWriterUser(u) ==> ok
  {
    if obj != null && IsWriterUser(u) then obj.author == Some(u.id) else true
  }

  /** A writer may delete only a post they wrote; with no post, or for anyone else, the answer is yes. */
  function HasDeletePermission(u: User, obj: Post?): (ok: bool)
    reads obj
    ensures obj != null && IsWriterUser(u) ==> (ok <==> obj.author == Some(u.id))
    ensures obj == null || !IsWriterUser(u) ==> ok
  {
    if obj != null && IsWriterUser(u) then obj.author == Some(u.id) else true
  }

  /**
   * The hooks agree: a post may be changed exactly when it may be deleted,
   * and a writer may change exactly the listed posts their list shows.
   */
  lemma WriterPermissionsMatchQueryset(posts: seq<Post>, u: User, p: Post)
    requires p in posts
    ensures HasChangePermission(u, p) == HasDeletePermission(u, p)
    ensures HasChangePermission(u, p) <==> p in GetQueryset(posts, u)
  {
    var i :| 0 <= i < |posts| && posts[i] == p;
  }
}
