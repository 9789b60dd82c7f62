# Duplicate Custom Post Types — a Dafny model of the duplication routine

The WordPress plugin "Duplicate Custom Post Types" adds a "Duplicate" row action
to the admin list of posts, pages and custom post types. Triggering it runs one
routine: check that the user may edit posts, fetch the source post, insert a new
post built from it (title suffixed with " (Copy)", status forced to `draft`),
copy the source's post meta onto the new post except three instance-specific
keys, and copy the source's terms for every taxonomy registered for its post
type, replacing whatever the new post had.

This project models that routine and proves what it promises:

- `Posts`: the post record and `DuplicatePayload`, the record created for a duplicate.
- `PostMeta`: multi-valued meta (`key -> seq<value>`), the exclusion set, and the
  copy as a sequence of `add_post_meta` calls (`CopyValues`) and as the state
  after the outer loop has visited a set of keys (`CopyKeys`).
- `Terms`: per-(post, taxonomy) slug lists, the lookup with its error result, and
  the taxonomy loop as a left fold of single-taxonomy replaces (`CopyTaxonomies`).
- `Store`: `ContentStore`, an in-memory stand-in for the WordPress content
  store. It holds the posts by id, each post's meta, the term map
  `(id, taxonomy) -> seq<slug>`, the taxonomies registered per post type, the set
  of existing taxonomies, the default term lists each post type gives a new post,
  and a fresh-id counter; its methods perform the
  observable updates of `wp_insert_post`, `add_post_meta` and `wp_set_object_terms`,
  and its functions answer `get_post`, `get_post_meta`, `get_object_taxonomies`
  and `wp_get_object_terms`.
- `Duplicator`: the plugin's own methods over that store, with the loops of the
  source and their invariants.

Two host decisions the plugin cannot see are parameters: whether the current user
has the `edit_posts` capability (`canEdit`) and whether the database insert
succeeds (`stored`). The three `wp_die` exits are the error results
`PermissionDenied`, `PostNotFound` and `DuplicationFailed`.

## Model

| member | source | states |
|---|---|---|
| Posts.DuplicateIsDraft | duplicate-custom-post-types.php:129 | the duplicate's status is `draft` whatever the source's status |
| Posts.DuplicateTitleRoundTrip | duplicate-custom-post-types.php:127 | the new title is the source title, a space and "(Copy)"; stripping the suffix recovers the source title |
| Posts.StripCopySuffix | duplicate-custom-post-types.php:127 | the inverse of the title rule: succeeds exactly on titles ending in " (Copy)" and returns the title before it |
| Posts.DuplicatePayloadCharacterized | duplicate-custom-post-types.php:124-135 | a record is the duplicate of a source exactly when author, content, excerpt, post type, parent, menu order, comment and ping status equal the source's, the title is suffixed, the status is draft, and slug and password are empty |
| Posts.DuplicateDropsSlugAndPassword | duplicate-custom-post-types.php:124-135 | the slug and password of the source are not carried over, and the duplicate's title always differs from the source's |
| PostMeta.AddMeta | duplicate-custom-post-types.php:159 | one `add_post_meta` appends the value as the last under its key, writes nothing for a falsy key (`""` or `"0"`), and changes no other key |
| PostMeta.CopyValuesAppends | duplicate-custom-post-types.php:152-160 | the inner loop over a key's values appends all of them in source order, or nothing for an excluded or falsy key; no other key changes |
| PostMeta.CopyKeysNone | duplicate-custom-post-types.php:150-151 | before any key is visited the destination meta is unchanged |
| PostMeta.CopyKeysSkip | duplicate-custom-post-types.php:151-156 | visiting an excluded, falsy or empty key leaves the destination meta unchanged |
| PostMeta.CopyKeysAppend | duplicate-custom-post-types.php:151-159 | visiting a copied key appends all its source values after the destination's |
| PostMeta.CopyKeysStep | duplicate-custom-post-types.php:151-160 | visiting one more key of the snapshot is exactly the inner loop over that key's values |
| PostMeta.CopyIntoEmpty | duplicate-custom-post-types.php:148-162 | copying every key into a post with no meta gives the source meta without the excluded and falsy keys, all values kept |
| PostMeta.CopyKeysValues | duplicate-custom-post-types.php:151-159 | after the copy an excluded or falsy key holds only what the destination already had; every other key holds the destination's values followed by all the source's |
| PostMeta.WithoutExcludedDropsInstanceKeys | duplicate-custom-post-types.php:154 | `_wp_old_slug`, `_edit_lock` and `_edit_last` never appear in the copied meta, nor do the falsy keys `""` and `"0"`; every other non-empty key appears with all its values |
| Terms.CopyTaxonomiesReplaces | duplicate-custom-post-types.php:170-181 | after the taxonomy loop the destination's list for a listed, registered taxonomy with non-empty source terms is exactly the source's list; every other pair, the source's included, keeps its list |
| Terms.CopyTaxonomiesWritesOnlyDestination | duplicate-custom-post-types.php:179 | the taxonomy loop adds no pair outside the destination post |
| Terms.AttachDefaultsSlugs | duplicate-custom-post-types.php:138 | inserting a post gives it its type's default list for each taxonomy with a default and touches no other pair |
| Terms.InsertedDuplicateTerms | duplicate-custom-post-types.php:138-181 | a duplicate inserted with its defaults ends with the source's list for each copied taxonomy, replacing the default, and its default list (possibly none) for the others; every other post, the source included, keeps its lists |
| Store.ContentStore.InsertPost | duplicate-custom-post-types.php:138 | a successful insert stores the record under a fresh id with no meta and its type's default term lists; a failed one returns 0 and changes nothing |
| Store.ContentStore.AddPostMeta | duplicate-custom-post-types.php:159 | appends one value to one post's meta, reports a falsy key as refused, and changes nothing else |
| Store.ContentStore.SetObjectTerms | duplicate-custom-post-types.php:179 | replaces one (post, taxonomy) list and changes nothing else |
| Duplicator.DuplicatePost | duplicate-custom-post-types.php:122-141 | inserts `DuplicatePayload` of the source; returns the fresh id, with the defaults of the source's type attached, or 0 with nothing changed |
| Duplicator.CopyKeyValues | duplicate-custom-post-types.php:152-160 | the inner meta loop leaves the new post's meta equal to `CopyValues` of the values and changes no other post |
| Duplicator.DuplicatePostMeta | duplicate-custom-post-types.php:146-163 | only the new post's meta changes, and it becomes `CopyKeys` of its old meta and the source snapshot over all keys |
| Duplicator.DuplicateTaxonomies | duplicate-custom-post-types.php:168-183 | the term map becomes `CopyTaxonomies` over the post type's taxonomies; posts and meta are unchanged |
| Duplicator.DuplicatePostAction | duplicate-custom-post-types.php:88-116 | without the capability, for an unknown id, or when the insert fails, the action fails with nothing changed; otherwise it returns a fresh id different from the source and only the new post's record, meta and terms are written: the duplicate payload, the source meta without excluded and falsy keys, and for each taxonomy the source's list where it is copied and the default list otherwise |
| Duplicator.DuplicateTwice | duplicate-custom-post-types.php:99-106 | two runs on one source give two distinct ids, each with the duplicate record, the filtered source meta and the copied or default terms; the source's record, meta and terms are unchanged |
| Duplicator.HelloScenario | duplicate-custom-post-types.php:124-179 | the worked example: "Hello" (published article, colour and edit lock, category "news") duplicates to a draft "Hello (Copy)" with the colour only and category "news" in place of the default |

## Left out

- Hook and filter registration and the discovery of custom post types (lines 24-37, 42-53): event wiring into the host.
- The row-action link and its HTML, `admin_url`, `esc_url` (lines 58-68): UI string building.
- Reading `$_GET`, `absint`, `sanitize_text_field`, nonce creation and verification (lines 62, 75-85): request plumbing; the post id arrives as an already-parsed natural number.
- `wp_die`, `wp_redirect`/`exit`, the success transient and `admin_notices` (lines 76-115, 188-193): response and side-channel output; aborts are error results.
- `maybe_unserialize` (line 159) and the sanitising and serialising done inside `add_post_meta`: meta values are opaque strings.
- PostMeta.AddMeta: does not model `wp_unslash` of the key and the value inside `add_metadata`, so a key or value holding backslashes is copied unaltered here while WordPress strips them; only the falsy-key refusal is modelled.
- `__()` translation: taken as the identity on "(Copy)".
- The internals of `wp_insert_post` (sanitisation, dates, GUID, slug generation; of its term handling only the default category and default terms are kept, as the store's per-type default lists), of `get_post_meta` and of `wp_get_object_terms`/`wp_set_object_terms` (term lookup or creation by slug, de-duplication): the store keeps slug lists as given.
- Whether the database insert succeeds: a parameter (`stored`), since it depends on the database and not on anything the model holds.
- User roles and capabilities: the `edit_posts` test is the `canEdit` parameter.
- The order of meta rows across different keys: the model keeps each key's values in order but meta as a map, so the interleaving of keys in the database is not captured.
- The exclusion test is string equality. PHP's loose `in_array` differs from it only for a key that PHP holds as the integer 0 (PHP 7 counts it as excluded); that key, `"0"`, is never copied in either case, because `add_metadata` refuses a falsy key.
- Store.ContentStore.AddPostMeta: database errors are not modelled; a write to an existing post with a non-falsy key always succeeds. The plugin ignores the result anyway (line 159) and reports success, so the action's contract states the copy as complete.
- Store.ContentStore.SetObjectTerms: failures of term lookup or creation by slug are not modelled; the write always succeeds. The taxonomy it is called for has just been looked up without error, so the unknown-taxonomy error cannot arise; the plugin ignores the result (line 179).
- `get_post(0)` falling back to the global post: in the admin action there is none, so id 0 is simply not found.
