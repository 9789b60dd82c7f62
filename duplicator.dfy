/**
 * Duplicator: the plugin's duplication routine, run against the content store.
 * The capability test and the database outcome of the insert are host
 * decisions this model receives as parameters.
 */
module Duplicator {
  import opened Wrappers
  import opened Posts
  import opened PostMeta
  import opened Terms
  import opened Store

  /** The three ways the action stops (each a wp_die in the plugin). */
  datatype ActionError = PermissionDenied | PostNotFound | DuplicationFailed

  /** Builds the duplicate's payload from `post` and inserts it; returns the new id, 0 when the insert fails. */
  method DuplicatePost(store: ContentStore, post: Post, stored: bool) returns (newId: PostId)
    requires store.Valid()
    modifies store
    ensures store.Valid()
    ensures newId == (if stored then old(store.nextId) else 0)
    ensures newId != 0 ==> newId !in old(store.posts)
    ensures stored ==> (store.posts == old(store.posts)[newId := DuplicatePayload(post)] &&
                        store.meta == old(store.meta)[newId := map[]] && store.nextId == old(store.nextId) + 1)
    ensures stored ==> store.terms == AttachDefaults(old(store.terms), newId, store.DefaultsFor(post.postType))
    ensures !stored ==> unchanged(store)
    ensures store.taxonomies == old(store.taxonomies) && store.registered == old(store.registered) && store.defaultTerms == old(store.defaultTerms)
  {
    var payload := DuplicatePayload(post);
    newId := store.InsertPost(payload, stored);
  }

  /**
   * Copies the meta of `oldId` onto `newId`: for each key of a snapshot taken
   * first, every value is added to the new post unless the key is excluded.
   * Only the new post's meta changes.
   */
  method DuplicatePostMeta(store: ContentStore, oldId: PostId, newId: PostId)
    requires store.Valid() && newId in store.posts
    modifies store
    ensures store.Valid()
    ensures store.meta == old(store.meta)[newId := CopyKeys(old(store.meta)[newId], old(store.MetaOf(oldId)), old(store.MetaOf(oldId)).Keys)]
    ensures store.posts == old(store.posts) && store.terms == old(store.terms) && store.nextId == old(store.nextId)
    ensures store.taxonomies == old(store.taxonomies) && store.registered == old(store.registered) && store.defaultTerms == old(store.defaultTerms)
  {
    var postMeta := store.MetaOf(oldId);
    ghost var before := store.meta[newId];
    CopyKeysNone(before, postMeta);
    if postMeta != map[] {
      var remaining := postMeta.Keys;
      ghost var done: set<MetaKey> := {};
      while remaining != {}
        invariant remaining + done == postMeta.Keys && remaining !! done
        invariant store.Valid()
        invariant store.meta == old(store.meta)[newId := CopyKeys(before, postMeta, done)]
        invariant store.posts == old(store.posts) && store.terms == old(store.terms) && store.nextId == old(store.nextId)
        invariant store.taxonomies == old(store.taxonomies) && store.registered == old(store.registered) && store.defaultTerms == old(store.defaultTerms)
        decreases remaining
      {
        var key :| key in remaining;
        var values := postMeta[key];
        CopyKeyValues(store, newId, key, values);
        CopyKeysStep(before, postMeta, done, key);
        done := done + {key};
        remaining := remaining - {key};
      }
      assert done == postMeta.Keys;
    } else {
      assert postMeta.Keys == {};
    }
  }

  /** The inner loop of the meta copy: the values of one key, each added unless the key is excluded. */
  method CopyKeyValues(store: ContentStore, newId: PostId, key: MetaKey, values: seq<MetaValue>)
    requires store.Valid() && newId in store.posts
    modifies store
    ensures store.Valid()
    ensures store.meta == old(store.meta)[newId := CopyValues(old(store.meta)[newId], key, values)]
    ensures store.posts == old(store.posts) && store.terms == old(store.terms) && store.nextId == old(store.nextId)
    ensures store.taxonomies == old(store.taxonomies) && store.registered == old(store.registered) && store.defaultTerms == old(store.defaultTerms)
  {
    ghost var start := store.meta[newId];
    var j := 0;
    while j < |values|
      invariant 0 <= j <= |values|
      invariant store.Valid()
      invariant store.meta == old(store.meta)[newId := CopyValues(start, key, values[..j])]
      invariant store.posts == old(store.posts) && store.terms == old(store.terms) && store.nextId == old(store.nextId)
      invariant store.taxonomies == old(store.taxonomies) && store.registered == old(store.registered) && store.defaultTerms == old(store.defaultTerms)
    {
      assert values[..j + 1][..j] == values[..j];
      if key !in ExcludedKeys {
        var added := store.AddPostMeta(newId, key, values[j]);
      }
      j := j + 1;
    }
    assert values[..j] == values;
  }

  /**
   * For each taxonomy registered for `postType`, replaces the terms of `newId`
   * with those of `oldId` when the lookup succeeds with a non-empty list.
   */
  method DuplicateTaxonomies(store: ContentStore, oldId: PostId, newId: PostId, postType: string)
    requires store.Valid() && newId in store.posts
    modifies store
    ensures store.Valid()
    ensures store.terms == CopyTaxonomies(old(store.terms), store.registered, oldId, newId, store.TaxonomiesFor(postType))
    ensures store.posts == old(store.posts) && store.meta == old(store.meta) && store.nextId == old(store.nextId)
    ensures store.taxonomies == old(store.taxonomies) && store.registered == old(store.registered) && store.defaultTerms == old(store.defaultTerms)
  {
    var taxes := store.TaxonomiesFor(postType);
    if taxes != [] {
      for i := 0 to |taxes|
        invariant store.Valid()
        invariant store.terms == CopyTaxonomies(old(store.terms), store.registered, oldId, newId, taxes[..i])
        invariant store.posts == old(store.posts) && store.meta == old(store.meta) && store.nextId == old(store.nextId)
        invariant store.taxonomies == old(store.taxonomies) && store.registered == old(store.registered) && store.defaultTerms == old(store.defaultTerms)
      {
        assert taxes[..i + 1][..i] == taxes[..i];
        var found := store.TermsOf(oldId, taxes[i]);
        if found.Found? && found.slugs != [] {
          store.SetObjectTerms(newId, taxes[i], found.slugs);
        }
      }
      assert taxes[..|taxes|] == taxes;
    }
  }

  /**
   * The admin action: capability check, fetch, insert, then meta and taxonomy
   * copy. Each failure stops the action before anything is written; on
   * success the new post is a fresh id whose record, meta and terms are the
   * duplicate of the source's (terms the copy does not replace keep the
   * defaults the insert attached), and no other post changes.
   */
  method DuplicatePostAction(store: ContentStore, postId: PostId, canEdit: bool, stored: bool)
    returns (r: Result<PostId, ActionError>)
    requires store.Valid()
    modifies store
    ensures store.Valid()
    ensures !canEdit ==> r == Failure(PermissionDenied)
    ensures canEdit && postId !in old(store.posts) ==> r == Failure(PostNotFound)
    ensures canEdit && postId in old(store.posts) && !stored ==> r == Failure(DuplicationFailed)
    ensures r.Failure? ==> unchanged(store)
    ensures r.Success? <==> canEdit && postId in old(store.posts) && stored
    ensures r.Success? ==>
      var n, src := r.value, old(store.posts)[postId];
      && n == old(store.nextId) && n != postId && n !in old(store.posts)
      && store.posts == old(store.posts)[n := DuplicatePayload(src)]
      && store.meta == old(store.meta)[n := WithoutExcluded(old(store.meta)[postId])]
      && store.terms == CopyTaxonomies(AttachDefaults(old(store.terms), n, store.DefaultsFor(src.postType)),
                                       store.registered, postId, n, store.TaxonomiesFor(src.postType))
      && (forall t :: Slugs(store.terms, n, t) ==
            if Replaces(old(store.terms), store.registered, postId, store.TaxonomiesFor(src.postType), t)
            then Slugs(old(store.terms), postId, t)
            else DefaultSlugs(store.DefaultsFor(src.postType), t))
      && (forall j, t :: j != n ==> Slugs(store.terms, j, t) == Slugs(old(store.terms), j, t))
      && store.nextId == old(store.nextId) + 1
    ensures store.taxonomies == old(store.taxonomies) && store.registered == old(store.registered) && store.defaultTerms == old(store.defaultTerms)
  {
    if !canEdit {
      return Failure(PermissionDenied);
    }
    var found := store.GetPost(postId);
    if found.None? {
      return Failure(PostNotFound);
    }
    var post := found.value;
    ghost var before := store.terms;
    var newId := DuplicatePost(store, post, stored);
    if newId != 0 {
      ghost var srcMeta := store.meta[postId];
      DuplicatePostMeta(store, postId, newId);
      CopyIntoEmpty(srcMeta);
      DuplicateTaxonomies(store, postId, newId, post.postType);
      forall j, t
        ensures Slugs(store.terms, j, t) ==
          if j != newId then Slugs(before, j, t)
          else if Replaces(before, store.registered, postId, store.TaxonomiesFor(post.postType), t)
          then Slugs(before, postId, t)
          else DefaultSlugs(store.DefaultsFor(post.postType), t)
      {
        assert (newId, t) !in before;
        InsertedDuplicateTerms(before, store.registered, postId, newId, store.DefaultsFor(post.postType),
                               store.TaxonomiesFor(post.postType), j, t);
      }
      r := Success(newId);
    } else {
      r := Failure(DuplicationFailed);
    }
  }

  /**
   * Running the action twice on one source gives two distinct ids, each a
   * full duplicate: the same record, the filtered meta, and the copied or
   * default terms; the source's record, meta and terms are unchanged.
   */
  method DuplicateTwice(store: ContentStore, postId: PostId)
    returns (first: Result<PostId, ActionError>, second: Result<PostId, ActionError>)
    requires store.Valid() && postId in store.posts
    modifies store
    ensures store.Valid()
    ensures first.Success? && second.Success? && first.value != second.value
    ensures first.value != postId && second.value != postId
    ensures postId in store.posts && store.posts[postId] == old(store.posts[postId])
    ensures first.value in store.posts && second.value in store.posts
    ensures store.posts[first.value] == store.posts[second.value] == DuplicatePayload(old(store.posts[postId]))
    ensures postId in store.meta && store.meta[postId] == old(store.meta[postId])
    ensures first.value in store.meta && second.value in store.meta
    ensures store.meta[first.value] == store.meta[second.value] == WithoutExcluded(old(store.meta[postId]))
    ensures forall t :: Slugs(store.terms, postId, t) == Slugs(old(store.terms), postId, t)
    ensures var postType := old(store.posts[postId]).postType;
      var taxes := store.TaxonomiesFor(postType);
      forall t :: Slugs(store.terms, first.value, t) == Slugs(store.terms, second.value, t) ==
        if Replaces(old(store.terms), store.registered, postId, taxes, t) then Slugs(old(store.terms), postId, t)
        else DefaultSlugs(store.DefaultsFor(postType), t)
  {
    first := DuplicatePostAction(store, postId, true, true);
    second := DuplicatePostAction(store, postId, true, true);
  }

  /**
   * The worked example: a published "Hello" article with a colour and an edit
   * lock, filed under "news", becomes a draft "Hello (Copy)" with the colour
   * but no lock, filed under "news" in place of the default category.
   */
  lemma HelloScenario()
    ensures var src := Post(1, "", "Hello", "", "publish", "article", 0, 0, "open", "open", "hello", "");
      var d := DuplicatePayload(src);
      d.title == "Hello (Copy)" && d.status == "draft" && d.postType == "article"
    ensures WithoutExcluded(map["color" := ["red"], "_edit_lock" := ["123"]]) == map["color" := ["red"]]
    ensures var terms: TermMap := map[(5, "category") := ["news"]];
      var inserted := AttachDefaults(terms, 6, map["category" := ["uncategorized"]]);
      Slugs(CopyTaxonomies(inserted, {"category"}, 5, 6, ["category"]), 6, "category") == ["news"]
  {
  }
}
