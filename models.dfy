/** The persistent entities of the blog, as plain values. */
module Models {
  import opened Wrappers

  type UserId = nat
  type GroupId = nat
  type PostId = nat

  /** The stored path of an uploaded image. */
  type Image = string

  /** An authenticated user as the request carries it. */
  datatype User = User(id: UserId, username: string)

  /** A post: its author is required, its group and image are optional. */
  datatype Post = Post(id: PostId, author: UserId, group: Option<GroupId>, text: string, image: Option<Image>)

  /** A comment on the post `post` written by `author`. */
  datatype Comment = Comment(post: PostId, author: UserId, text: string)

  /** A follow edge `(user, author)`: `user` follows `author`. */
  type Edge = (UserId, UserId)
}
