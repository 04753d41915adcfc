/** The request handlers that change the store: follow and unfollow,
    post creation and editing, comments, and the cached index page. */
module Views {
  import opened Wrappers
  import opened Models
  import opened Forms
  import opened Listings
  import opened Follows

  /** Where a handler redirects to. */
  datatype Target = ToProfile(username: string) | ToPostDetail(postId: PostId)

  /** The outcome of a request: a redirect, the (re-)rendered post form,
      a not-found page, or a server error from an unhandled exception. */
  datatype Response = Redirect(to: Target) | RenderForm(isEdit: bool) | NotFound | ServerError

  /** `get_object_or_404(Post, id=id)`: the position of the first post
      with that id, or `None` when there is none. */
  function FindPost(posts: seq<Post>, id: PostId): (r: Option<nat>)
    ensures r.Some? ==> r.value < |posts| && posts[r.value].id == id
    ensures r.Some? ==> forall j :: 0 <= j < r.value ==> posts[j].id != id
    ensures r.None? <==> forall j :: 0 <= j < |posts| ==> posts[j].id != id
  {
    if posts == [] then None
    else if posts[0].id == id then Some(0)
    else match FindPost(posts[1..], id)
      case None => None
      case Some(k) => Some(k + 1)
  }

  /** No two keys of `m` share a value: a username or slug names one
      row, and a row has one primary key. */
  ghost predicate Injective<K, V>(m: map<K, V>)
  {
    forall a, b :: a in m && b in m && m[a] == m[b] ==> a == b
  }

  /** Post ids are primary keys. */
  ghost predicate UniqueIds(posts: seq<Post>)
  {
    forall i, j :: 0 <= i < j < |posts| ==> posts[i].id != posts[j].id
  }

  /** The store the handlers work on. */
  class Blog {
    /** Users by username (usernames are unique). */
    var users: map<string, UserId>
    /** Groups by slug (slugs are unique). */
    var groups: map<string, GroupId>
    var posts: seq<Post>
    var comments: seq<Comment>
    var follows: set<Edge>
    /** The id the next created post receives. */
    var nextPostId: PostId
    /** The index page held by the page cache, if any. */
    var indexSnapshot: Option<seq<Post>>

    ghost predicate Valid()
      reads this
    {
      && Injective(users)
      && Injective(groups)
      && UniqueIds(posts)
      && (forall i :: 0 <= i < |posts| ==> posts[i].id < nextPostId)
      && NoSelfEdges(follows)
    }

    /** A store with the given users and groups and nothing else. */
    constructor (users: map<string, UserId>, groups: map<string, GroupId>)
      requires Injective(users) && Injective(groups)
      ensures Valid()
      ensures this.users == users && this.groups == groups
      ensures posts == [] && comments == [] && follows == {} && indexSnapshot == None
    {
      this.users := users;
      this.groups := groups;
      posts := [];
      comments := [];
      follows := {};
      nextPostId := 1;
      indexSnapshot := None;
    }

    /** `profile_follow`: an unknown username is not found; otherwise the
        edge is created unless it exists or it would be a self-follow, and
        the viewer is sent back to the profile. */
    method ProfileFollow(viewer: User, username: string) returns (resp: Response)
      requires Valid()
      modifies this`follows
      ensures Valid()
      ensures username !in users ==> resp == NotFound && follows == old(follows)
      ensures username in users ==>
        resp == Redirect(ToProfile(username)) && follows == Followed(old(follows), viewer.id, users[username])
    {
      if username !in users {
        return NotFound;
      }
      var author := users[username];
      if author != viewer.id {
        follows := follows + {(viewer.id, author)};
      }
      resp := Redirect(ToProfile(username));
    }

    /** `profile_unfollow`: an unknown username is not found; a missing
        edge makes `.get` raise, which surfaces as a server error; otherwise
        exactly that edge is deleted. */
    method ProfileUnfollow(viewer: User, username: string) returns (resp: Response)
      requires Valid()
      modifies this`follows
      ensures Valid()
      ensures username !in users ==> resp == NotFound && follows == old(follows)
      ensures username in users ==>
        match Unfollowed(old(follows), viewer.id, users[username])
        case Success(rest) => resp == Redirect(ToProfile(username)) && follows == rest
        case Failure(_) => resp == ServerError && follows == old(follows)
    {
      if username !in users {
        return NotFound;
      }
      var author := users[username];
      if (viewer.id, author) !in follows {
        return ServerError;
      }
      follows := follows - {(viewer.id, author)};
      resp := Redirect(ToProfile(username));
    }

    /** `post_create`: a valid submission adds one post authored by the
        requester and redirects to the requester's profile; an unbound or
        invalid form is rendered again and nothing changes. */
    method PostCreate(viewer: User, data: Option<PostFormData>) returns (resp: Response)
      requires Valid()
      modifies this`posts, this`nextPostId
      ensures Valid()
      ensures data.Some? && PostFormValid(data.value) ==>
        && resp == Redirect(ToProfile(viewer.username))
        && posts == old(posts) + [NewPost(old(nextPostId), viewer.id, data.value)]
      ensures !(data.Some? && PostFormValid(data.value)) ==>
        resp == RenderForm(false) && posts == old(posts) && nextPostId == old(nextPostId)
      ensures resp.Redirect? ==> |posts| == |old(posts)| + 1 && posts[|posts| - 1].author == viewer.id
    {
      if data.None? || !PostFormValid(data.value) {
        return RenderForm(false);
      }
      var post := NewPost(nextPostId, viewer.id, data.value);
      posts := posts + [post];
      nextPostId := nextPostId + 1;
      resp := Redirect(ToProfile(viewer.username));
    }

    /** `post_edit`: an unknown post is not found; a viewer who is not the
        author is redirected to the post and nothing changes; the author's
        valid submission overwrites the post in place, and any other form
        is rendered again. */
    method PostEdit(viewer: User, postId: PostId, data: Option<PostFormData>) returns (resp: Response)
      requires Valid()
      modifies this`posts
      ensures Valid()
      ensures |posts| == |old(posts)|
      ensures FindPost(old(posts), postId).None? ==> resp == NotFound && posts == old(posts)
      ensures FindPost(old(posts), postId).Some? ==>
        var i := FindPost(old(posts), postId).value;
        if viewer.id != old(posts)[i].author then
          resp == Redirect(ToPostDetail(postId)) && posts == old(posts)
        else if data.Some? && PostFormValid(data.value) then
          resp == Redirect(ToPostDetail(postId)) && posts == old(posts)[i := SaveInto(old(posts)[i], data.value)]
        else
          resp == RenderForm(true) && posts == old(posts)
    {
      var found := FindPost(posts, postId);
      if found.None? {
        return NotFound;
      }
      var i := found.value;
      if viewer.id != posts[i].author {
        return Redirect(ToPostDetail(postId));
      }
      if data.None? || !PostFormValid(data.value) {
        return RenderForm(true);
      }
      posts := posts[i := SaveInto(posts[i], data.value)];
      resp := Redirect(ToPostDetail(postId));
    }

    /** `add_comment`: an unknown post is not found; otherwise a valid
        submission appends one comment on that post by the requester, an
        invalid one adds nothing, and either way the viewer is sent to the
        post. */
    method AddComment(viewer: User, postId: PostId, data: Option<CommentFormData>) returns (resp: Response)
      modifies this`comments
      ensures FindPost(posts, postId).None? ==> resp == NotFound && comments == old(comments)
      ensures FindPost(posts, postId).Some? ==> resp == Redirect(ToPostDetail(postId))
      ensures FindPost(posts, postId).Some? && data.Some? && CommentFormValid(data.value) ==>
        comments == old(comments) + [Comment(postId, viewer.id, data.value.text)]
      ensures !(FindPost(posts, postId).Some? && data.Some? && CommentFormValid(data.value)) ==>
        comments == old(comments)
    {
      var found := FindPost(posts, postId);
      if found.None? {
        return NotFound;
      }
      if data.Some? && CommentFormValid(data.value) {
        comments := comments + [Comment(posts[found.value].id, viewer.id, data.value.text)];
      }
      resp := Redirect(ToPostDetail(postId));
    }

    /** `index` behind `cache_page`: the first request stores the listing
        of all posts, and later requests get that snapshot back however
        the posts have changed since. */
    method Index() returns (page: seq<Post>)
      modifies this`indexSnapshot
      ensures old(indexSnapshot).Some? ==> page == old(indexSnapshot).value && indexSnapshot == old(indexSnapshot)
      ensures old(indexSnapshot).None? ==> page == posts && indexSnapshot == Some(posts)
    {
      if indexSnapshot.Some? {
        return indexSnapshot.value;
      }
      page := posts;
      indexSnapshot := Some(page);
    }

    /** `cache.clear()`: the stored index page is dropped. */
    method ClearCache()
      modifies this`indexSnapshot
      ensures indexSnapshot == None
    {
      indexSnapshot := None;
    }

    /** `Post.objects.get(id=id).delete()`: the post with that id is removed,
        and a missing one raises (`found` is false, nothing changes). */
    method DeletePost(id: PostId) returns (found: bool)
      requires Valid()
      modifies this`posts
      ensures Valid()
      ensures found <==> FindPost(old(posts), id).Some?
      ensures !found ==> posts == old(posts)
      ensures found ==>
        var i := FindPost(old(posts), id).value;
        posts == old(posts)[..i] + old(posts)[i + 1..]
      ensures forall p :: p in posts ==> p.id != id
    {
      var at := FindPost(posts, id);
      if at.None? {
        return false;
      }
      var i := at.value;
      posts := posts[..i] + posts[i + 1..];
      found := true;
    }
  }
}
