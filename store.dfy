/**
 * Store: an in-memory stand-in for the host's content repository. It keeps
 * only the state the duplication reads and writes, and its methods make the
 * observable updates of wp_insert_post, add_post_meta and wp_set_object_terms.
 */
module Store {
  import opened Posts
  import opened PostMeta
  import opened Terms
  import opened Wrappers

  class ContentStore {
    /** The post records by id. */
    var posts: map<PostId, Post>
    /** Each post's meta; every post has an entry, possibly empty. */
    var meta: map<PostId, MetaMap>
    /** The term slugs attached to (post, taxonomy) pairs. */
    var terms: TermMap
    /** The taxonomies registered for each post type, in registration order. */
    var taxonomies: map<string, seq<Taxonomy>>
    /** The taxonomies that exist; a term lookup in any other one is an error. */
    var registered: set<Taxonomy>
    /** The term lists a new post of each type receives on insert. */
    var defaultTerms: map<string, DefaultTerms>
    /** The id the next successful insert assigns. */
    var nextId: PostId

    /** Ids are positive and below the counter; meta and terms belong to posts that exist. */
    ghost predicate Valid()
      reads this
    {
      && nextId > 0
      && (forall id :: id in posts ==> 0 < id < nextId)
      && meta.Keys == posts.Keys
      && (forall key :: key in terms ==> key.0 in posts)
    }

    /** An empty repository. */
    constructor (taxonomies: map<string, seq<Taxonomy>>, registered: set<Taxonomy>, defaultTerms: map<string, DefaultTerms>)
      ensures Valid()
      ensures posts == map[] && meta == map[] && terms == map[] && nextId == 1
      ensures this.taxonomies == taxonomies && this.registered == registered && this.defaultTerms == defaultTerms
    {
      posts, meta, terms := map[], map[], map[];
      this.taxonomies, this.registered, this.defaultTerms := taxonomies, registered, defaultTerms;
      nextId := 1;
    }

    /** get_post: the record, or none for an unknown id (0 included). */
    function GetPost(id: PostId): Option<Post>
      reads this
    {
      if id in posts then Some(posts[id]) else None
    }

    /** get_post_meta($id): all keys and values of the post, empty for an unknown id. */
    function MetaOf(id: PostId): MetaMap
      reads this
    {
      if id in meta then meta[id] else map[]
    }

    /** The default term lists of a post type. */
    function DefaultsFor(postType: string): DefaultTerms
      reads this
    {
      if postType in defaultTerms then defaultTerms[postType] else map[]
    }

    /** get_object_taxonomies($post_type). */
    function TaxonomiesFor(postType: string): seq<Taxonomy>
      reads this
    {
      if postType in taxonomies then taxonomies[postType] else []
    }

    /** wp_get_object_terms($id, $taxonomy, array('fields' => 'slugs')). */
    function TermsOf(id: PostId, t: Taxonomy): TermsLookup
      reads this
    {
      LookupTerms(terms, registered, id, t)
    }

    /**
     * wp_insert_post: on success (`stored`, the database outcome this model does
     * not see) a fresh id is assigned and the record stored with no meta and
     * with its type's default term lists; on failure 0 is returned and nothing
     * changes.
     */
    method InsertPost(p: Post, stored: bool) returns (id: PostId)
      requires Valid()
      modifies this
      ensures Valid()
      ensures id == (if stored then old(nextId) else 0)
      ensures id != 0 ==> id !in old(posts)
      ensures stored ==> posts == old(posts)[id := p] && meta == old(meta)[id := map[]] && nextId == old(nextId) + 1
      ensures stored ==> terms == AttachDefaults(old(terms), id, DefaultsFor(p.postType))
      ensures !stored ==> unchanged(this)
      ensures taxonomies == old(taxonomies) && registered == old(registered) && defaultTerms == old(defaultTerms)
    {
      if stored {
        id := nextId;
        posts := posts[id := p];
        meta := meta[id := map[]];
        terms := AttachDefaults(terms, id, DefaultsFor(p.postType));
        nextId := nextId + 1;
      } else {
        id := 0;
      }
    }

    /** add_post_meta($id, $key, $value): appends one value under the key; a falsy key is refused. */
    method AddPostMeta(id: PostId, k: MetaKey, v: MetaValue) returns (added: bool)
      requires Valid() && id in posts
      modifies this
      ensures Valid()
      ensures added == !FalsyKey(k)
      ensures meta == old(meta)[id := AddMeta(old(meta)[id], k, v)]
      ensures posts == old(posts) && terms == old(terms) && nextId == old(nextId)
      ensures taxonomies == old(taxonomies) && registered == old(registered) && defaultTerms == old(defaultTerms)
    {
      added := !FalsyKey(k);
      meta := meta[id := AddMeta(meta[id], k, v)];
    }

    /** wp_set_object_terms($id, $slugs, $taxonomy) without append: the list replaces the old one. */
    method SetObjectTerms(id: PostId, t: Taxonomy, slugs: seq<Slug>)
      requires Valid() && id in posts
      modifies this
      ensures Valid()
      ensures terms == old(terms)[(id, t) := slugs]
      ensures posts == old(posts) && meta == old(meta) && nextId == old(nextId)
      ensures taxonomies == old(taxonomies) && registered == old(registered) && defaultTerms == old(defaultTerms)
    {
      terms := terms[(id, t) := slugs];
    }
  }
}
