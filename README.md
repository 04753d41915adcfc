# Yatube posts: a Dafny model of the blog's business rules

Yatube is a small blog. Users write posts, which can be filed under a
topic group and carry an image. Users comment on posts and follow other
authors to get a personal feed. This project models the rules the `posts`
application owns, over an abstract store of users, groups, posts, comments
and follow edges:

- **Follow relation.** `profile_follow` creates the `(user, author)` edge
  only if it is absent and ignores a self-follow. `profile_unfollow`
  deletes the edge and fails when it is missing. The edges are a
  `set<Edge>`, so an edge cannot be stored twice.
- **Listings.** The group page, the profile page and the follow feed
  filter the post table. The profile's `following` flag is edge
  membership, and it is false for an anonymous viewer.
- **Mutations.** Creating a post appends a row authored by the requester.
  An edit by the author overwrites the post's text, group and image in
  place. An edit by anyone else changes nothing. A comment is appended only
  when its text is valid.
- **Index cache.** The first index request stores a snapshot. Later
  requests return that snapshot until the cache is cleared.
- **Form validators.** Post text must contain `'!'`. Comment text must be
  at least `MIN_COMMENT_LEN = 1` long. A post form's only fields are text,
  group and image, so a submission cannot choose the author.

Layout, one module per file:

- `wrappers.dfy` (`Wrappers`) holds `Option` and `Result`.
- `models.dfy` (`Models`) holds the entities as values.
- `forms.dfy` (`Forms`) models `yatube/posts/forms.py`. It is pure.
- `listings.dfy` (`Listings`) models the read-only handlers of
  `yatube/posts/views.py` as functions.
- `follows.dfy` (`Follows`) gives the follow and unfollow transitions on
  the edge set, with lemmas on how they affect the feed.
- `views.dfy` (`Views`) holds the class `Blog`. It is the store, and its
  methods are the handlers that change it, plus the index page cache.
- `scenarios.dfy` (`Scenarios`) walks through the cache and follow
  sequences of `yatube/posts/tests/test_views.py` for any store.

Inputs that come from outside the application are parameters:

- The authenticated user is a `User` value. The authentication subsystem
  supplies it.
- The profile viewer is an `Option<UserId>`. `None` is an anonymous
  viewer, whose id is none.
- A form submission is an `Option`. `None` stands for a GET or an empty
  POST (`request.POST or None`), which gives an unbound form that is never
  valid.
- A `Response` records only which target a handler redirects to, or that
  it renders the form, or that it answers not-found or server error.

## Model

| member | source | states |
|---|---|---|
| `Forms.CleanPostText` | yatube/posts/forms.py:15-21 | post text is accepted iff some position holds `'!'`; accepted text comes back unchanged; a rejection is the missing-exclamation error |
| `Forms.CleanCommentText` | yatube/posts/forms.py:26-39 | comment text is rejected iff it is empty (shorter than `MIN_COMMENT_LEN = 1`); accepted text comes back unchanged |
| `Forms.PostFormValid` | yatube/posts/forms.py:13-21 | a bound post form is valid (the branch taken at views.py lines 42 and 65) iff its text holds an exclamation mark |
| `Forms.CommentFormValid` | yatube/posts/forms.py:30-39 | a bound comment form is valid (the branch taken at views.py line 114) iff its text has at least `MIN_COMMENT_LEN = 1` characters |
| `Forms.SaveInto` | yatube/posts/views.py:60-66 | saving an edit form into a post writes text, group and image (the image only when a new file is uploaded) and keeps the id and the author, so no submission can reassign the author |
| `Forms.NewPost` | yatube/posts/views.py:43-45 | a created row has the form's text, group and image and the requesting user as author |
| `Listings.Filter` | yatube/posts/views.py:126 | a queryset filter keeps exactly the elements that satisfy the condition and never grows the input |
| `Listings.FilterCount` | yatube/posts/views.py:126 | a filtered listing holds each accepted post exactly as often as the table does, and no rejected post |
| `Listings.FilterAppend` | yatube/posts/views.py:126 | filtering a concatenation is the concatenation of the filtered parts, so a listing keeps the post table's order |
| `Listings.AuthorPosts` | yatube/posts/views.py:86 | the author's listing holds a post iff it is in the table and has that author |
| `Listings.GroupFeed` | yatube/posts/views.py:29 | the group's listing holds a post iff it is in the table and filed under that group |
| `Listings.FollowIndex` | yatube/posts/views.py:122-131 | the follow feed holds a post iff it is in the table and the edge `(viewer, post.author)` exists |
| `Listings.IsFollowing` | yatube/posts/views.py:82-85 | the flag is true iff some edge has the viewer as user and the profile's author as author; it is false for an anonymous viewer |
| `Listings.GroupPosts` | yatube/posts/views.py:25-35 | an unknown slug is not found; otherwise the page names the slug's group and lists exactly the posts of that group |
| `Listings.Profile` | yatube/posts/views.py:78-93 | an unknown username is not found; otherwise the page lists exactly the author's posts, and `following` is true iff the viewer is signed in and follows the author |
| `Listings.GroupFeedsDisjoint` | yatube/posts/tests/test_views.py:213-228 | a group's listing holds no post of another group |
| `Follows.Followed` | yatube/posts/views.py:139-140 | after a follow of another user the edge is present; a self-follow leaves the set unchanged; no edge other than `(user, author)` is added or removed; no self-edge appears |
| `Follows.Unfollowed` | yatube/posts/views.py:149 | unfollowing succeeds iff the edge exists, and then removes exactly that edge and keeps all others |
| `Follows.FollowIdempotent` | yatube/posts/tests/test_views.py:279-288 | a second identical follow leaves the edge set as the first left it |
| `Follows.UnfollowUndoesFollow` | yatube/posts/tests/test_views.py:249-264 | unfollowing right after a follow that created the edge restores the original edge set |
| `Follows.UnfollowTwiceFails` | yatube/posts/views.py:149 | once the edge is gone, a second unfollow fails with does-not-exist |
| `Follows.FollowAddsAuthorPosts` | yatube/posts/tests/test_views.py:266-277 | following a new author adds exactly that author's posts to the follower's feed, counted with multiplicity |
| `Follows.UnfollowRemovesAuthorPosts` | yatube/posts/views.py:126 | unfollowing removes exactly that author's posts from the follower's feed, counted with multiplicity |
| `Follows.FollowingFlagTracksEdge` | yatube/posts/views.py:82-85 | after a follow the profile flag is set unless it was a self-follow of an absent edge; after an unfollow it is clear |
| `Views.FindPost` | yatube/posts/views.py:57 | the lookup by id finds the first post with that id, or reports not-found exactly when no post has it |
| `Views.Blog.ProfileFollow` | yatube/posts/views.py:134-141 | an unknown username is not found with no change; otherwise it redirects to the profile and the edge set becomes `Followed` of the old one; the store stays valid |
| `Views.Blog.ProfileUnfollow` | yatube/posts/views.py:144-150 | an unknown username is not found; a missing edge is a server error with no change; otherwise exactly that edge is deleted and it redirects to the profile |
| `Views.Blog.PostCreate` | yatube/posts/views.py:38-51 | a valid submission appends exactly one post whose author is the requester and redirects to the requester's profile; anything else re-renders the form and changes nothing |
| `Views.Blog.PostEdit` | yatube/posts/views.py:54-75 | unknown id is not found; a non-author is redirected to the detail page with no change; the author's valid submission replaces that post in place by `SaveInto` and keeps the count; otherwise the edit form is re-rendered |
| `Views.Blog.AddComment` | yatube/posts/views.py:110-119 | unknown post is not found; otherwise it redirects to the detail page, and a valid text appends exactly one comment with that post and the requester as author while an invalid one adds nothing |
| `Views.Blog.Index` | yatube/posts/views.py:13-22 | with no stored page it returns all posts and stores them; with a stored page it returns the stored page whatever the current posts are |
| `Views.Blog.ClearCache` | yatube/posts/tests/test_views.py:240 | clearing the cache drops the stored index page |
| `Views.Blog.DeletePost` | yatube/posts/tests/test_views.py:235 | the post with that id is removed and no post with that id remains; a missing id changes nothing |
| `Scenarios.CachedIndexScenario` | yatube/posts/tests/test_views.py:230-243 | a new post shows on the first index load, still shows after it is deleted, and is gone once the cache is cleared |
| `Scenarios.FollowScenario` | yatube/posts/tests/test_views.py:249-277 | following twice then unfollowing restores the edge set; the author's posts are in the feed while following and absent afterwards |

## Left out

- Template rendering, URL routing and `redirect`/`reverse`: a response
  records only its target.
- `login_required` redirects to the login page: the viewer is given.
- `post_detail` (`yatube/posts/views.py:96-107`): it renders a post, its
  comments and a comment form it never saves, and changes nothing.
- Pagination (`get_page_obj`): `posts/services.py` is not part of this
  model. Listings are whole sequences.
- Newest-first ordering: `posts/models.py` is not part of this model.
  Listings keep the order of the post table.
- Wall-clock cache expiry (`CACHE_TIMER_PER_SEC = 20`) and cache keys per
  query string. One snapshot is held until it is cleared.
- Forms.CommentFormValid: Django's field stripping and `required` check
  are left out, so a comment of only whitespace is accepted here although
  Django strips it to empty text and rejects it.
- Forms.PostFormValid: the group choice field's existence check and text
  stripping are left out, so a post can be filed under a group id that no
  group has, and text is stored unstripped.
- Django form machinery otherwise (`empty_label`, the error message
  texts, which are reduced to the `FormError` cases).
- Image upload and file storage. An image is its stored path.
- Comment references are not kept consistent when a post is deleted. The
  foreign-key delete rule lives in `posts/models.py`, which is not part of
  this model.
- Database transactions and concurrent requests: each handler is one
  atomic step on the store.
- `Views.Blog.Valid` keeps "no self-edges" as a store invariant, beside
  the key facts the database guarantees (one id per username and per slug,
  unique post ids). All edges
  in the model are created by `ProfileFollow`, which never adds one. The
  database schema itself does not forbid them.
