/** The relational store, abstracted as in-memory tables. Each repository operation is one
    sequential, atomic step against a `Db`. Surrogate keys come from per-table counters, as
    an auto-increment primary key would. */
module Store {
  import opened Types

  /** `users`: ids positive, below the counter and distinct; `email` is unique. */
  ghost predicate UsersValid(users: seq<UserRow>, nextId: int)
  {
    && 1 <= nextId
    && (forall i :: 0 <= i < |users| ==> 1 <= users[i].id < nextId)
    && (forall i, j :: 0 <= i < j < |users| ==> users[i].id != users[j].id)
    && (forall i, j :: 0 <= i < j < |users| ==> users[i].email != users[j].email)
  }

  /** `images`: every row sits under its own id, below the counter. */
  ghost predicate ImagesValid(images: map<int, ImageRow>, nextId: int)
  {
    && 1 <= nextId
    && forall id :: id in images ==> images[id].id == id && 1 <= id < nextId
  }

  /** `tags`: ids positive, below the counter and distinct; `name` is unique. */
  ghost predicate TagsValid(tags: seq<TagRow>, nextId: int)
  {
    && 1 <= nextId
    && (forall i :: 0 <= i < |tags| ==> 1 <= tags[i].id < nextId)
    && (forall i, j :: 0 <= i < j < |tags| ==> tags[i].id != tags[j].id)
    && (forall i, j :: 0 <= i < j < |tags| ==> tags[i].name != tags[j].name)
  }

  /** `comments`, in stored order: ids positive, below the counter and distinct. */
  ghost predicate CommentsValid(comments: seq<CommentRow>, nextId: int)
  {
    && 1 <= nextId
    && (forall i :: 0 <= i < |comments| ==> 1 <= comments[i].id < nextId)
    && (forall i, j :: 0 <= i < j < |comments| ==> comments[i].id != comments[j].id)
  }

  /** `transform`: every row sits under its own id, below the counter. */
  ghost predicate TransformsValid(transforms: map<int, TransformRow>, nextId: int)
  {
    && 1 <= nextId
    && forall id :: id in transforms ==> transforms[id].id == id && 1 <= id < nextId
  }

  /** The position of the first row satisfying `p`: the row a `scalar_one_or_none` query
      finds when at most one row matches. */
  function IndexWhere<T>(rows: seq<T>, p: T -> bool): (r: Option<nat>)
    ensures r.Some? ==> r.value < |rows| && p(rows[r.value])
    ensures r.Some? ==> forall j :: 0 <= j < r.value ==> !p(rows[j])
    ensures r.None? <==> forall j :: 0 <= j < |rows| ==> !p(rows[j])
  {
    if |rows| == 0 then None
    else if p(rows[0]) then Some(0)
    else match IndexWhere(rows[1..], p)
      case None => None
      case Some(k) => Some(k + 1)
  }

  class Db {
    var users: seq<UserRow>
    var images: map<int, ImageRow>
    var tags: seq<TagRow>
    var comments: seq<CommentRow>
    var transforms: map<int, TransformRow>
    var nextUserId: int
    var nextImageId: int
    var nextTagId: int
    var nextCommentId: int
    var nextTransformId: int

    ghost predicate Valid()
      reads this
    {
      && UsersValid(users, nextUserId)
      && ImagesValid(images, nextImageId)
      && TagsValid(tags, nextTagId)
      && CommentsValid(comments, nextCommentId)
      && TransformsValid(transforms, nextTransformId)
    }

    /** A freshly migrated, empty database. */
    constructor ()
      ensures Valid()
      ensures users == [] && images == map[] && tags == [] && comments == [] && transforms == map[]
    {
      users, images, tags, comments, transforms := [], map[], [], [], map[];
      nextUserId, nextImageId, nextTagId, nextCommentId, nextTransformId := 1, 1, 1, 1, 1;
    }
  }
}
