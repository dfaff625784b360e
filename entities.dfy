/** The records the client exchanges with the posts/comments/users REST API. */
module Entities {
  import opened Wrappers

  datatype Reactions = Reactions(likes: int, dislikes: int)

  /** The user summary (`/users?select=username,image`) joined onto a post as its author. */
  datatype Author = Author(id: int, username: string, image: string)

  datatype Post = Post(
    id: int,
    title: string,
    body: string,
    userId: int,
    tags: seq<string>,
    reactions: Option<Reactions>,
    author: Option<Author>)

  datatype CommentUser = CommentUser(id: int, username: string)

  datatype Comment = Comment(id: int, body: string, postId: int, userId: int, likes: int, user: CommentUser)

  /** A full user profile (`/users/{id}`); the extended profile fields are not modelled. */
  datatype User = User(id: int, username: string, image: string)

  /** The add-post form. */
  datatype PostForm = PostForm(title: string, body: string, userId: int)

  /** The empty add-post form, and what the form is reset to. */
  const InitialNewPost := PostForm("", "", 1)
}
