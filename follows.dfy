/** The follow relation as a set of edges, and what following and
    unfollowing do to it and to the follow feed. */
module Follows {
  import opened Wrappers
  import opened Models
  import opened Listings

  /** Unfollowing a missing edge: `Follow.objects.get` raises. */
  datatype UnfollowError = DoesNotExist

  /** No user follows themselves. */
  ghost predicate NoSelfEdges(edges: set<Edge>)
  {
    forall e :: e in edges ==> e.0 != e.1
  }

  /** `profile_follow` on the edge set: a self-follow is ignored, and
      otherwise the edge is created if absent (`get_or_create`), so a
      set fits: no edge can be there twice. */
  function Followed(edges: set<Edge>, user: UserId, author: UserId): (r: set<Edge>)
    ensures author != user ==> (user, author) in r
    ensures author == user ==> r == edges
    ensures edges <= r && r - {(user, author)} <= edges
    ensures NoSelfEdges(edges) ==> NoSelfEdges(r)
  {
    if author != user then edges + {(user, author)} else edges
  }

  /** `profile_unfollow` on the edge set: it fails when the edge is
      missing, and otherwise removes exactly that edge. */
  function Unfollowed(edges: set<Edge>, user: UserId, author: UserId): (r: Result<set<Edge>, UnfollowError>)
    ensures r.Success? <==> (user, author) in edges
    ensures r.Success? ==> (user, author) !in r.value && r.value + {(user, author)} == edges
    ensures NoSelfEdges(edges) && r.Success? ==> NoSelfEdges(r.value)
  {
    if (user, author) in edges then Success(edges - {(user, author)}) else Failure(DoesNotExist)
  }

  /** Following twice is following once. */
  lemma FollowIdempotent(edges: set<Edge>, user: UserId, author: UserId)
    ensures Followed(Followed(edges, user, author), user, author) == Followed(edges, user, author)
  {
  }

  /** Unfollowing undoes a follow that created an edge. */
  lemma UnfollowUndoesFollow(edges: set<Edge>, user: UserId, author: UserId)
    requires user != author && (user, author) !in edges
    ensures Unfollowed(Followed(edges, user, author), user, author) == Success(edges)
  {
  }

  /** After a successful unfollow, a second one fails. */
  lemma UnfollowTwiceFails(edges: set<Edge>, user: UserId, author: UserId)
    requires (user, author) in edges
    ensures Unfollowed(Unfollowed(edges, user, author).value, user, author) == Failure(DoesNotExist)
  {
  }

  /** Following a new author adds exactly that author's posts to the
      follower's feed, each as often as the post table holds it. */
  lemma {:induction false} FollowAddsAuthorPosts(posts: seq<Post>, edges: set<Edge>, user: UserId, author: UserId)
    requires user != author && (user, author) !in edges
    ensures multiset(FollowIndex(posts, Followed(edges, user, author), user))
         == multiset(FollowIndex(posts, edges, user)) + multiset(AuthorPosts(posts, author))
  {
    if posts != [] {
      FollowAddsAuthorPosts(posts[1..], edges, user, author);
    }
  }

  /** Unfollowing removes exactly the author's posts from the feed. */
  lemma UnfollowRemovesAuthorPosts(posts: seq<Post>, edges: set<Edge>, user: UserId, author: UserId)
    requires user != author && (user, author) in edges
    ensures multiset(FollowIndex(posts, Unfollowed(edges, user, author).value, user))
         == multiset(FollowIndex(posts, edges, user)) - multiset(AuthorPosts(posts, author))
  {
    var rest := edges - {(user, author)};
    assert Followed(rest, user, author) == edges;
    FollowAddsAuthorPosts(posts, rest, user, author);
  }

  /** The profile's flag tracks the edge through follow and unfollow. */
  lemma FollowingFlagTracksEdge(edges: set<Edge>, user: UserId, author: UserId)
    ensures IsFollowing(Followed(edges, user, author), Some(user), author) <==> (user != author || (user, author) in edges)
    ensures (user, author) in edges ==> !IsFollowing(Unfollowed(edges, user, author).value, Some(user), author)
  {
  }
}
