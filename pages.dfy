/**
 * `pages/models.py`: when a page counts as published, who may read it, and
 * the blog post its (second, effective) `save` links to it.
 */
module Pages {
  import opened Wrappers
  import opened Dates
  import opened Auth
  import opened BlogModels

  const Published: string := "published"

  const Public: string := "public"
  const Private: string := "private"
  const Premium: string := "premium"

  /**
   * `is_accessible_by` for a page of the given access level: everyone for
   * a public page, authenticated staff for a private one, authenticated
   * staff or subscribers for a premium one, nobody for any other level.
   */
  function AccessAllowed(accessLevel: string, u: User): (allowed: bool)
    ensures accessLevel == Public ==> allowed
    ensures accessLevel == Private ==> (allowed <==> u.isAuthenticated && u.isStaff)
    ensures accessLevel == Premium ==> (allowed <==> u.isAuthenticated && (u.isStaff || u.hasPremiumSubscription))
    ensures accessLevel != Public && accessLevel != Private && accessLevel != Premium ==> !allowed
  {
    if accessLevel == Public then true
    else if accessLevel == Private then u.isAuthenticated && u.isStaff
    else if accessLevel == Premium then u.isAuthenticated && (u.isStaff || u.hasPremiumSubscription)
    else false
  }

  /** The levels are ordered: whoever may read a private page may read a premium one, and everyone a public one. */
  lemma AccessMonotone(u: User)
    ensures AccessAllowed(Private, u) ==> AccessAllowed(Premium, u)
    ensures AccessAllowed(Premium, u) ==> AccessAllowed(Public, u)
  {
  }

  /** The keyword arguments the effective `save` passes to `Post.objects.create`. */
  const BlogPostKwargs: set<string> := {"title", "content", "excerpt", "author", "status", "published_date"}

  /** `Post` has no `excerpt` field, so the create call raises; without that keyword it would be accepted. */
  lemma BlogPostCreateRejected()
    ensures !CreateAccepts(BlogPostKwargs)
    ensures CreateAccepts(BlogPostKwargs - {"excerpt"})
  {
    assert "excerpt" in BlogPostKwargs && "excerpt" !in PostFieldNames;
  }

  class Page {
    var title: string
    var content: string
    var excerpt: string
    var status: string
    var accessLevel: string
    var publishedDate: Option<Instant>
    var expirationDate: Option<Instant>
    var author: Option<UserId>
    var editors: set<UserId>
    var publishToBlog: bool
    var blogPost: Post?

    /** A new page with the column defaults: a public draft with no dates, no editors and no blog post. */
    constructor (title: string, content: string, author: Option<UserId>)
      ensures this.title == title && this.content == content && this.author == author
      ensures excerpt == "" && status == "draft" && accessLevel == Public
      ensures publishedDate.None? && expirationDate.None? && editors == {}
      ensures !publishToBlog && blogPost == null
    {
      this.title := title;
      this.content := content;
      this.excerpt := "";
      this.status := "draft";
      this.accessLevel := Public;
      this.publishedDate := None;
      this.expirationDate := None;
      this.author := author;
      this.editors := {};
      this.publishToBlog := false;
      this.blogPost := null;
    }

    /**
     * `is_published`: status published, a publication date, and not past
     * its expiration date (if any). From the expiration date on a page is
     * never published.
     */
    function IsPublished(now: Instant): (published: bool)
      reads this
      ensures published ==> status == Published && publishedDate.Some?
      ensures expirationDate.Some? && now >= expirationDate.value ==> !published
      ensures status == Published && publishedDate.Some? && expirationDate.None? ==> published
      ensures status == Published && publishedDate.Some? && expirationDate.Some? && now < expirationDate.value ==> published
    {
      status == Published && publishedDate.Some? && (expirationDate.None? || expirationDate.value > now)
    }

    /**
     * `is_accessible_by`: the rule of the page's access level. A public
     * page is open to everyone, and it is the only kind an anonymous
     * visitor may read.
     */
    function IsAccessibleBy(u: User): (allowed: bool)
      reads this
      ensures accessLevel == Public ==> allowed
      ensures !u.isAuthenticated ==> (allowed <==> accessLevel == Public)
    {
      AccessAllowed(accessLevel, u)
    }

    /** The condition under which `save` tries to create the blog post. */
    predicate WantsBlogPost()
      reads this
    {
      publishToBlog && status == Published && blogPost == null
    }

    /**
     * The effective `save` as written. When the page asks to be mirrored to
     * the blog and has no post yet, `Post.objects.create` is called with an
     * `excerpt` keyword `Post` does not have: it raises (`raised`), after the
     * page itself was stored, and no post is linked. Otherwise nothing of
     * the page changes.
     */
    method Save() returns (raised: bool)
      ensures raised <==> WantsBlogPost()
      ensures raised ==> !CreateAccepts(BlogPostKwargs)
    {
      raised := false;
      if publishToBlog && status == Published && blogPost == null {
        BlogPostCreateRejected();
        raised := true;
      }
    }

    /**
     * The effective `save` as evidently intended: a published page marked
     * for the blog gets a new published post with its title, content and
     * author, dated now; a page that already has a post keeps it, so saving
     * again creates no second post.
     */
    method SaveIntended(now: Instant)
      modifies this`blogPost
      ensures old(WantsBlogPost()) ==>
        && blogPost != null && fresh(blogPost)
        && blogPost.title == title && blogPost.content == content && blogPost.author == author
        && blogPost.status && blogPost.publishedDate == Some(now)
      ensures !old(WantsBlogPost()) ==> blogPost == old(blogPost)
      ensures !WantsBlogPost()
    {
      if publishToBlog && status == Published && blogPost == null {
        var post := new Post(author, title, content, true, Some(now));
        blogPost := post;
      }
    }
  }

  /**
   * A page published at some instant was published at every earlier instant
   * too (the publication date itself is not compared), and is no longer
   * published from its expiration date on.
   */
  lemma PublicationEndsAtExpiry(p: Page, earlier: Instant, now: Instant)
    requires p.IsPublished(now) && earlier <= now
    ensures p.IsPublished(earlier)
    ensures p.expirationDate.Some? ==> now < p.expirationDate.value && !p.IsPublished(p.expirationDate.value)
  {
  }
}
