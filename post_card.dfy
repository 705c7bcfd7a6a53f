/**
 * What a post card derives from its post: the content preview, the tags it
 * lists with their overflow badge, and the badge over the cover image.
 */
module PostCard {
  import opened Wrappers
  import opened Collections

  /** The preview length used by the card. */
  const DEFAULT_MAX_LENGTH: nat := 150

  /** The most tags a card lists. */
  const MAX_TAGS: nat := 6

  /** `truncateContent`: a long text is cut to `maxLength` characters and marked with `...`. */
  function Truncate(content: string, maxLength: nat): (r: string)
    ensures |content| <= maxLength ==> r == content
    ensures |content| > maxLength ==> |r| == maxLength + 3 && r[..maxLength] == content[..maxLength] && r[maxLength..] == "..."
  {
    if |content| <= maxLength then content else content[..maxLength] + "..."
  }

  /** The card's preview: `truncateContent(post.content)` with the default length. */
  function Preview(content: string): string {
    Truncate(content, DEFAULT_MAX_LENGTH)
  }

  /**
   * A preview never exceeds `maxLength + 3` characters, always begins with the
   * text it was cut from, and cutting it again changes nothing.
   */
  lemma TruncateFacts(content: string, maxLength: nat)
    ensures |Truncate(content, maxLength)| <= maxLength + 3
    ensures var k := if |content| <= maxLength then |content| else maxLength;
            Truncate(content, maxLength)[..k] == content[..k]
    ensures Truncate(Truncate(content, maxLength), maxLength) == Truncate(content, maxLength)
  {
    var r := Truncate(content, maxLength);
    if |content| > maxLength {
      assert r[..maxLength] == content[..maxLength];
      assert |r| > maxLength;
      assert r[..maxLength] + "..." == r;
    }
  }

  /** `post.tags.slice(0, 6)`: the first tags, at most six of them. */
  function ShownTags(tags: seq<string>): (r: seq<string>)
    ensures |r| <= MAX_TAGS
    ensures |r| <= |tags| && r == tags[..|r|]
    ensures |tags| <= MAX_TAGS ==> r == tags
  {
    Take(tags, MAX_TAGS)
  }

  /**
   * The `+n` badge after the listed tags: present exactly when some tags are
   * not listed, and together with the listed ones it accounts for every tag.
   */
  function TagOverflow(tags: seq<string>): (r: Option<nat>)
    ensures r.Some? <==> |tags| > MAX_TAGS
    ensures |ShownTags(tags)| + r.GetOr(0) == |tags|
  {
    if |tags| > MAX_TAGS then Some(|tags| - MAX_TAGS) else None
  }

  /**
   * The `+n` badge on the cover image (`images[0]`): shown only when the post
   * has more than one image, counting the images beyond the cover.
   */
  function ImageOverflow(images: Option<seq<string>>): (r: Option<nat>)
    ensures r.Some? ==> images.Some? && r.value + 1 == |images.value| && r.value > 0
    ensures r.None? ==> images.None? || |images.value| <= 1
  {
    if images.Some? && |images.value| > 1 then Some(|images.value| - 1) else None
  }
}
