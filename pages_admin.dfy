/**
 * `pages/admin.py` (`PageAdmin`): which pages a user sees and may delete,
 * which fields are read-only, and the author `save_model` fills in.
 */
module PagesAdmin {
  import opened Wrappers
  import opened Auth
  import opened Pages

  /** A user owns a page when they are its author or one of its editors. */
  predicate Owns(u: User, p: Page)
    reads p
  {
    p.author == Some(u.id) || u.id in p.editors
  }

  /** The pages the user owns. */
  function OwnedPages(pages: seq<Page>, u: User): (own: seq<Page>)
    reads pages
    ensures |own| <= |pages|
    ensures forall k :: 0 <= k < |own| ==> own[k] in pages && Owns(u, own[k])
    ensures forall i :: 0 <= i < |pages| ==> (pages[i] in own <==> Owns(u, pages[i]))
  {
    if pages == [] then []
    else
      var init := pages[..|pages| - 1];
      var rest := OwnedPages(init, u);
      var last := pages[|pages| - 1];
      assert forall i :: 0 <= i < |init| ==> init[i] == pages[i];
      if Owns(u, last) then rest + [last] else rest
  }

  /** `get_queryset`: a superuser sees every page, anyone else the pages they author or edit. */
  function GetQueryset(pages: seq<Page>, u: User): (visible: seq<Page>)
    reads pages
    ensures u.isSuperuser ==> visible == pages
    ensures !u.isSuperuser ==> forall k :: 0 <= k < |visible| ==> visible[k] in pages && Owns(u, visible[k])
    ensures !u.isSuperuser ==> forall i :: 0 <= i < |pages| ==> (pages[i] in visible <==> Owns(u, pages[i]))
  {
    if u.isSuperuser then pages else OwnedPages(pages, u)
  }

  /**
   * `get_readonly_fields`: the blog post link is never edited by hand
   * (the later class attribute `['blog_post']` is the one in force); a
   * non-superuser may not change the author or the access level either.
   */
  method GetReadonlyFields(u: User) returns (fields: seq<string>)
    ensures |fields| >= 1 && fields[0] == "blog_post"
    ensures u.isSuperuser ==> fields == ["blog_post"]
    ensures !u.isSuperuser ==> fields == ["blog_post", "author", "access_level"]
  {
    fields := ["blog_post"];
    if !u.isSuperuser {
      fields := fields + ["author", "access_level"];
    }
  }

  /** `save_model`: a page without an author gets the requesting user; an existing author is kept. */
  method SaveModel(u: User, page: Page)
    modifies page`author
    ensures page.author == if old(page.author).None? then Some(u.id) else old(page.author)
    ensures page.author.Some?
  {
    if page.author.None? {
      page.author := Some(u.id);
    }
  }

  /** `has_delete_permission`: superusers always; others only for a page they author or edit. */
  function HasDeletePermission(u: User, obj: Page?): (ok: bool)
    reads obj
    ensures u.isSuperuser ==> ok
    ensures !u.isSuperuser ==> (ok <==> obj != null && Owns(u, obj))
  {
    if u.isSuperuser then true
    else if obj != null && (obj.author == Some(u.id) || u.id in obj.editors) then true
    else false
  }

  /** A listed page may be deleted exactly when the user's list shows it. */
  lemma DeleteMatchesQueryset(pages: seq<Page>, u: User, p: Page)
    requires p in pages
    ensures HasDeletePermission(u, p) <==> p in GetQueryset(pages, u)
  {
    var i :| 0 <= i < |pages| && pages[i] == p;
  }

  /** After `save_model` the page has an author, so a non-superuser author may delete it. */
  lemma SavedAuthorMayDelete(u: User, p: Page)
    requires p.author == Some(u.id)
    ensures HasDeletePermission(u, p)
  {
  }
}
