/**
 * The blog `Post` of `blog/models.py`, as far as the page and admin rules
 * touch it, and the set of its field names, which decides which keyword
 * arguments `Post.objects.create` accepts.
 */
module BlogModels {
  import opened Wrappers
  import opened Dates
  import opened Auth

  /** The names `Post(**kwargs)` accepts: its own fields, plus the primary key. */
  const PostFieldNames: set<string> := {
    "id", "image", "author", "title", "content", "counted_views", "tags",
    "categories", "status", "published_date", "created_date", "updated_date"
  }

  /** `Model(**kwargs)` raises `TypeError` for a keyword that names no field. */
  predicate CreateAccepts(kwargs: set<string>) {
    kwargs <= PostFieldNames
  }

  class Post {
    var author: Option<UserId>
    var title: string
    var content: string
    /** A `BooleanField`: true for a published post. */
    var status: bool
    var publishedDate: Option<Instant>

    constructor (author: Option<UserId>, title: string, content: string, status: bool, publishedDate: Option<Instant>)
      ensures this.author == author && this.title == title && this.content == content
      ensures this.status == status && this.publishedDate == publishedDate
    {
      this.author := author;
      this.title := title;
      this.content := content;
      this.status := status;
      this.publishedDate := publishedDate;
    }
  }
}
