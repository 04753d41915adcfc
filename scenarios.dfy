/** The request sequences the view tests walk through, stated for any
    store that satisfies their preconditions. */
module Scenarios {
  import opened Wrappers
  import opened Models
  import opened Forms
  import opened Listings
  import opened Follows
  import opened Views

  /** Create a post, load the index (which caches it), delete the post:
      the index still shows it; after a cache clear it no longer does. */
  method CachedIndexScenario(b: Blog, author: User, data: PostFormData)
    returns (first: seq<Post>, cached: seq<Post>, cleared: seq<Post>)
    requires b.Valid() && b.indexSnapshot == None && PostFormValid(data)
    modifies b
    ensures var p := NewPost(old(b.nextPostId), author.id, data);
      p in first && p in cached && p !in cleared
  {
    var p := NewPost(b.nextPostId, author.id, data);
    var resp := b.PostCreate(author, Some(data));
    assert p == b.posts[|b.posts| - 1];
    first := b.Index();
    var found := b.DeletePost(p.id);
    cached := b.Index();
    b.ClearCache();
    cleared := b.Index();
  }

  /** Follow an author twice, then unfollow: the second follow adds no
      edge, the author's posts are in the feed while the edge exists and
      gone after the unfollow, which restores the original edge set. */
  method FollowScenario(b: Blog, follower: User, username: string)
    returns (following: seq<Post>, afterUnfollow: seq<Post>)
    requires b.Valid() && username in b.users
    requires b.users[username] != follower.id && (follower.id, b.users[username]) !in b.follows
    modifies b
    ensures b.users == old(b.users) && b.posts == old(b.posts) && b.follows == old(b.follows)
    ensures forall p :: p in b.posts && p.author == b.users[username] ==> p in following && p !in afterUnfollow
  {
    var author := b.users[username];
    var r1 := b.ProfileFollow(follower, username);
    ghost var once := b.follows;
    var r2 := b.ProfileFollow(follower, username);
    assert b.follows == once;
    following := FollowIndex(b.posts, b.follows, follower.id);
    var r3 := b.ProfileUnfollow(follower, username);
    afterUnfollow := FollowIndex(b.posts, b.follows, follower.id);
  }
}
