/**
 * The template filters of `pages/templatetags/page_filters.py`: cutting a
 * text down to a length with an ellipsis, and the image URL with a fallback.
 */
module PageFilters {
  import opened Wrappers
  import opened PyText

  /**
   * `truncate_smart`: a text no longer than `arg` is shown as it is; a
   * longer one is cut with Python's `value[:arg]` (which counts from the
   * end for a negative `arg`) and gets "..." appended.
   */
  function TruncateSmart(value: string, arg: int): (shown: string)
    ensures |value| <= arg ==> shown == value
    ensures |value| > arg ==> shown == SlicePrefix(value, arg) + "..."
    ensures |value| > arg && arg >= 0 ==> |shown| == arg + 3
    ensures var head := SlicePrefix(value, arg); |head| <= |shown| && shown[..|head|] == head
  {
    if |value| > arg then SlicePrefix(value, arg) + "..." else value
  }

  /** For a non-negative length, cutting an already cut text changes nothing more. */
  lemma TruncateSmartIdempotent(value: string, arg: int)
    requires arg >= 0
    ensures TruncateSmart(TruncateSmart(value, arg), arg) == TruncateSmart(value, arg)
  {
    var once := TruncateSmart(value, arg);
    if |value| > arg {
      var head := value[..arg];
      assert once == head + "...";
      assert SlicePrefix(once, arg) == head;
    }
  }

  /** A stored image file: its name (empty when unset) and the URL storage gives it. */
  datatype ImageFile = ImageFile(name: string, url: string)

  const DefaultImageUrl: string := "/static/img/default.jpg"

  /** An image field is truthy when a file name is stored. */
  predicate HasImage(image: Option<ImageFile>) {
    image.Some? && image.value.name != ""
  }

  /** `get_image_url`: the featured image's URL, or the default when no image is set. */
  function GetImageUrl(featuredImage: Option<ImageFile>, defaultUrl: string): (url: string)
    ensures HasImage(featuredImage) ==> url == featuredImage.value.url
    ensures !HasImage(featuredImage) ==> url == defaultUrl
  {
    if HasImage(featuredImage) then featuredImage.value.url else defaultUrl
  }

  /** Without an image and without an explicit default the placeholder picture is used. */
  lemma GetImageUrlPlaceholder(featuredImage: Option<ImageFile>)
    requires !HasImage(featuredImage)
    ensures GetImageUrl(featuredImage, DefaultImageUrl) == "/static/img/default.jpg"
  {
  }
}
