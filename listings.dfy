/** The listings that the group, profile and follow pages show: filters
    over the post table, plus the profile's `following` flag. */
module Listings {
  import opened Wrappers
  import opened Models

  /** The elements of `s` that `keep` accepts, in their order in `s`: the
      queryset `filter` every listing is built from. */
  function Filter<T(!new)>(s: seq<T>, keep: T -> bool): (r: seq<T>)
    ensures |r| <= |s|
    ensures forall x :: x in r <==> x in s && keep(x)
  {
    if s == [] then []
    else if keep(s[0]) then [s[0]] + Filter(s[1..], keep)
    else Filter(s[1..], keep)
  }

  /** A filter keeps every accepted element as often as the input holds
      it, and no rejected element at all. */
  lemma {:induction false} FilterCount<T(!new)>(s: seq<T>, keep: T -> bool, x: T)
    ensures multiset(Filter(s, keep))[x] == if keep(x) then multiset(s)[x] else 0
  {
    if s != [] {
      FilterCount(s[1..], keep, x);
      assert s == [s[0]] + s[1..];
    }
  }

  /** Filtering a concatenation filters each part and keeps them in
      order, so a listing keeps the order of the post table. */
  lemma {:induction false} FilterAppend<T(!new)>(s: seq<T>, t: seq<T>, keep: T -> bool)
    ensures Filter(s + t, keep) == Filter(s, keep) + Filter(t, keep)
  {
    if s == [] {
      assert s + t == t;
    } else {
      assert (s + t)[1..] == s[1..] + t;
      FilterAppend(s[1..], t, keep);
    }
  }

  /** `author.posts.all()`: the posts written by `author`. */
  function AuthorPosts(posts: seq<Post>, author: UserId): (r: seq<Post>)
    ensures forall p :: p in r <==> p in posts && p.author == author
  {
    Filter(posts, (p: Post) => p.author == author)
  }

  /** `group.posts.all()`: the posts filed under group `g`. */
  function GroupFeed(posts: seq<Post>, g: GroupId): (r: seq<Post>)
    ensures forall p :: p in r <==> p in posts && p.group == Some(g)
  {
    Filter(posts, (p: Post) => p.group == Some(g))
  }

  /** `follow_index`: the posts whose author `viewer` follows
      (`author__following__user=request.user`). */
  function FollowIndex(posts: seq<Post>, edges: set<Edge>, viewer: UserId): (r: seq<Post>)
    ensures forall p :: p in r <==> p in posts && (viewer, p.author) in edges
  {
    Filter(posts, (p: Post) => (viewer, p.author) in edges)
  }

  /** `Follow.objects.filter(user=request.user.id, author=author.id).exists()`.
      An anonymous viewer has no id (`None`) and matches no edge. */
  function IsFollowing(edges: set<Edge>, viewer: Option<UserId>, author: UserId): (r: bool)
    ensures r <==> exists e :: e in edges && Some(e.0) == viewer && e.1 == author
    ensures viewer == None ==> !r
  {
    match viewer
    case None => false
    case Some(u) => (u, author) in edges
  }

  /** What the group page shows. */
  datatype GroupPage = GroupPage(group: GroupId, posts: seq<Post>)

  /** What the profile page shows. */
  datatype ProfilePage = ProfilePage(author: UserId, posts: seq<Post>, following: bool)

  /** `group_posts`: an unknown slug is not found (`None`); otherwise the
      page lists exactly the posts of the slug's group. */
  function GroupPosts(groups: map<string, GroupId>, posts: seq<Post>, slug: string): (r: Option<GroupPage>)
    ensures r.None? <==> slug !in groups
    ensures r.Some? ==> r.value.group == groups[slug]
    ensures r.Some? ==> forall p :: p in r.value.posts <==> p in posts && p.group == Some(groups[slug])
  {
    if slug !in groups then None
    else Some(GroupPage(groups[slug], GroupFeed(posts, groups[slug])))
  }

  /** `profile`: an unknown username is not found (`None`); otherwise the
      page lists exactly the author's posts and says whether the viewer
      follows the author. */
  function Profile(users: map<string, UserId>, posts: seq<Post>, edges: set<Edge>,
                   viewer: Option<UserId>, username: string): (r: Option<ProfilePage>)
    ensures r.None? <==> username !in users
    ensures r.Some? ==> r.value.author == users[username]
    ensures r.Some? ==> forall p :: p in r.value.posts <==> p in posts && p.author == users[username]
    ensures r.Some? ==> (r.value.following <==> viewer.Some? && (viewer.value, users[username]) in edges)
  {
    if username !in users then None
    else
      var author := users[username];
      Some(ProfilePage(author, AuthorPosts(posts, author), IsFollowing(edges, viewer, author)))
  }

  /** Two different groups' listings share no post. */
  lemma GroupFeedsDisjoint(posts: seq<Post>, g: GroupId, h: GroupId)
    requires g != h
    ensures forall p :: p in GroupFeed(posts, g) ==> p !in GroupFeed(posts, h)
  {
  }
}
