/**
 * Terms: the term lists attached to posts per taxonomy, and the per-taxonomy
 * replace that the plugin performs for a duplicate.
 */
module Terms {
  import opened Posts

  type Taxonomy = string
  type Slug = string

  /** The term slugs attached to each (post, taxonomy); an absent pair has none. */
  type TermMap = map<(PostId, Taxonomy), seq<Slug>>

  /** What wp_get_object_terms(..., 'slugs') returns: a slug list or a WP_Error. */
  datatype TermsLookup = Found(slugs: seq<Slug>) | LookupError

  function Slugs(terms: TermMap, id: PostId, t: Taxonomy): seq<Slug>
  {
    if (id, t) in terms then terms[(id, t)] else []
  }

  /** A lookup fails for a taxonomy that is not registered, and otherwise lists the post's slugs. */
  function LookupTerms(terms: TermMap, registered: set<Taxonomy>, id: PostId, t: Taxonomy): TermsLookup
  {
    if t in registered then Found(Slugs(terms, id, t)) else LookupError
  }

  /**
   * The term lists wp_insert_post gives a new post of some type without
   * being asked: the default category for posts, and the default term of
   * every taxonomy that declares one.
   */
  type DefaultTerms = map<Taxonomy, seq<Slug>>

  function DefaultSlugs(defaults: DefaultTerms, t: Taxonomy): seq<Slug>
  {
    if t in defaults then defaults[t] else []
  }

  /** The term map after a post `id` has been given its default lists. */
  function AttachDefaults(terms: TermMap, id: PostId, defaults: DefaultTerms): TermMap
  {
    map k | k in terms.Keys + (set t | t in defaults :: (id, t)) ::
      if k.0 == id && k.1 in defaults then defaults[k.1] else terms[k]
  }

  /** Attaching defaults sets the lists of post `id` for the taxonomies with a default and touches no other pair. */
  lemma AttachDefaultsSlugs(terms: TermMap, id: PostId, defaults: DefaultTerms, j: PostId, t: Taxonomy)
    ensures Slugs(AttachDefaults(terms, id, defaults), j, t) ==
      if j == id && t in defaults then defaults[t] else Slugs(terms, j, t)
  {
  }

  /** One pass of the taxonomy loop: a non-empty, error-free list of the source replaces the destination's list. */
  function CopyTaxonomy(terms: TermMap, registered: set<Taxonomy>, src: PostId, dst: PostId, t: Taxonomy): TermMap
  {
    var found := LookupTerms(terms, registered, src, t);
    if found.Found? && found.slugs != [] then terms[(dst, t) := found.slugs] else terms
  }

  /** The taxonomy loop over `taxes`, in order, each pass reading the state the previous ones left. */
  function CopyTaxonomies(terms: TermMap, registered: set<Taxonomy>, src: PostId, dst: PostId, taxes: seq<Taxonomy>): TermMap
  {
    if taxes == [] then terms
    else
      var prev := CopyTaxonomies(terms, registered, src, dst, taxes[..|taxes| - 1]);
      CopyTaxonomy(prev, registered, src, dst, taxes[|taxes| - 1])
  }

  /** The condition under which taxonomy `t` of the source reaches the destination. */
  predicate Replaces(terms: TermMap, registered: set<Taxonomy>, src: PostId, taxes: seq<Taxonomy>, t: Taxonomy)
  {
    t in taxes && t in registered && Slugs(terms, src, t) != []
  }

  /**
   * Replace semantics, stated against the state before the loop: the
   * destination's list for a listed, registered taxonomy on which the source
   * has terms becomes exactly the source's list (not a merge); every other
   * (post, taxonomy) pair keeps its list, including the source's own and those
   * of taxonomies with no terms, a lookup error, or not listed for the type.
   */
  lemma {:induction false} CopyTaxonomiesReplaces(
    terms: TermMap, registered: set<Taxonomy>, src: PostId, dst: PostId, taxes: seq<Taxonomy>, id: PostId, t: Taxonomy)
    ensures Slugs(CopyTaxonomies(terms, registered, src, dst, taxes), id, t) ==
      if id == dst && Replaces(terms, registered, src, taxes, t) then Slugs(terms, src, t) else Slugs(terms, id, t)
  {
    if taxes != [] {
      var init, last := taxes[..|taxes| - 1], taxes[|taxes| - 1];
      assert taxes == init + [last];
      var prev := CopyTaxonomies(terms, registered, src, dst, init);
      CopyTaxonomiesReplaces(terms, registered, src, dst, init, id, t);
      CopyTaxonomiesReplaces(terms, registered, src, dst, init, src, last);
    }
  }

  /** The loop only ever writes pairs of the destination post. */
  lemma {:induction false} CopyTaxonomiesWritesOnlyDestination(
    terms: TermMap, registered: set<Taxonomy>, src: PostId, dst: PostId, taxes: seq<Taxonomy>)
    ensures forall key :: key in CopyTaxonomies(terms, registered, src, dst, taxes) ==> key in terms || key.0 == dst
  {
    if taxes != [] {
      CopyTaxonomiesWritesOnlyDestination(terms, registered, src, dst, taxes[..|taxes| - 1]);
    }
  }

  /**
   * For a duplicate inserted with its type's default lists and then given the
   * taxonomy copy: its list for `t` is the source's when the taxonomy is
   * copied (replacing the default) and its default list otherwise; every
   * other post, the source included, keeps its list.
   */
  lemma InsertedDuplicateTerms(
    terms: TermMap, registered: set<Taxonomy>, src: PostId, dst: PostId, defaults: DefaultTerms,
    taxes: seq<Taxonomy>, j: PostId, t: Taxonomy)
    requires src != dst && (dst, t) !in terms
    ensures var after := CopyTaxonomies(AttachDefaults(terms, dst, defaults), registered, src, dst, taxes);
      Slugs(after, j, t) ==
        if j != dst then Slugs(terms, j, t)
        else if Replaces(terms, registered, src, taxes, t) then Slugs(terms, src, t)
        else DefaultSlugs(defaults, t)
  {
    var inserted := AttachDefaults(terms, dst, defaults);
    AttachDefaultsSlugs(terms, dst, defaults, j, t);
    AttachDefaultsSlugs(terms, dst, defaults, src, t);
    CopyTaxonomiesReplaces(inserted, registered, src, dst, taxes, j, t);
  }
}
