/**
 * Posts: the record a post type stores and the payload the plugin builds
 * from a source post before handing it to wp_insert_post.
 */
module Posts {
  import opened Wrappers

  /** Post ids are positive once assigned; 0 is the "no post" id wp_insert_post returns on failure. */
  type PostId = nat

  /** The fields of a post record the duplication touches. */
  datatype Post = Post(
    author: nat,
    content: string,
    title: string,
    excerpt: string,
    status: string,
    postType: string,
    parent: PostId,
    menuOrder: int,
    commentStatus: string,
    pingStatus: string,
    name: string,      // the slug (post_name)
    password: string)  // post_password

  const DraftStatus: string := "draft"

  /** The text appended to the title, the untranslated form of __('(Copy)'). */
  const CopySuffix: string := " (Copy)"

  /**
   * The record created for a duplicate of `p`. The payload literal copies eight
   * fields, suffixes the title and forces the status; the two keys it leaves
   * out take what wp_insert_post gives a new draft: no password and no slug
   * (drafts get a slug only when published).
   */
  function DuplicatePayload(p: Post): (r: Post)
  {
    Post(
      author := p.author,
      content := p.content,
      title := p.title + CopySuffix,
      excerpt := p.excerpt,
      status := DraftStatus,
      postType := p.postType,
      parent := p.parent,
      menuOrder := p.menuOrder,
      commentStatus := p.commentStatus,
      pingStatus := p.pingStatus,
      name := "",
      password := "")
  }

  /** The eight fields the duplicate takes over unchanged from its source. */
  predicate SameCopiedFields(n: Post, p: Post)
  {
    && n.author == p.author
    && n.content == p.content
    && n.excerpt == p.excerpt
    && n.postType == p.postType
    && n.parent == p.parent
    && n.menuOrder == p.menuOrder
    && n.commentStatus == p.commentStatus
    && n.pingStatus == p.pingStatus
  }

  /** Removes a trailing " (Copy)", the inverse of the title rule. */
  function StripCopySuffix(t: string): (r: Option<string>)
    ensures r.Some? <==> |t| >= |CopySuffix| && t[|t| - |CopySuffix|..] == CopySuffix
    ensures r.Some? ==> t == r.value + CopySuffix
  {
    var k := |t| - |CopySuffix|;
    if k >= 0 && t[k..] == CopySuffix then
      assert t == t[..k] + t[k..];
      Some(t[..k])
    else None
  }

  /** Whatever the source's status, the duplicate is a draft. */
  lemma DuplicateIsDraft(p: Post)
    ensures DuplicatePayload(p).status == "draft"
  {
  }

  /** The duplicate's title is the source title, then a space, then "(Copy)"; stripping the suffix gives the source title back. */
  lemma DuplicateTitleRoundTrip(p: Post)
    ensures DuplicatePayload(p).title == p.title + " " + "(Copy)"
    ensures StripCopySuffix(DuplicatePayload(p).title) == Some(p.title)
  {
  }

  /**
   * The payload is determined by the three rules: a record is the duplicate of
   * `p` exactly when it has p's copied fields, the suffixed title, draft status,
   * and neither slug nor password.
   */
  lemma DuplicatePayloadCharacterized(p: Post, n: Post)
    ensures n == DuplicatePayload(p) <==>
      && SameCopiedFields(n, p)
      && n.title == p.title + CopySuffix
      && n.status == DraftStatus
      && n.name == "" && n.password == ""
  {
  }

  /** The fields the payload does not copy: the source's slug and password never reach the duplicate. */
  lemma DuplicateDropsSlugAndPassword(p: Post)
    ensures DuplicatePayload(p).name == "" && DuplicatePayload(p).password == ""
    ensures p.title != DuplicatePayload(p).title
  {
  }
}
