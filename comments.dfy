/** The comment registry: create, page through, owner-filtered update and unconditional delete. */
module CommentRepo {
  import opened Types
  import opened Store

  /** What inserting a comment ends with: the stored row, or the IntegrityError the store
      raises when a foreign key has no target. */
  datatype Insert = Inserted(comment: CommentRow) | IntegrityError

  /** Both foreign keys of `comments` point at existing rows. */
  predicate KeysExist(db: Db, imageId: int, userId: int)
    reads db
  {
    imageId in db.images && exists i :: 0 <= i < |db.users| && db.users[i].id == userId
  }

  /** `create_comment`: stores the text under the next id, owned by the caller. */
  method CreateComment(db: Db, text: string, imageId: int, user: UserRow) returns (r: Insert)
    requires db.Valid()
    modifies db`comments, db`nextCommentId
    ensures db.Valid()
    ensures r.IntegrityError? <==> !KeysExist(db, imageId, user.id)
    ensures r.IntegrityError? ==> db.comments == old(db.comments)
    ensures r.Inserted? ==>
      && r.comment == CommentRow(old(db.nextCommentId), text, user.id, imageId)
      && db.comments == old(db.comments) + [r.comment]
  {
    if !KeysExist(db, imageId, user.id) {
      return IntegrityError;
    }
    var comment := CommentRow(db.nextCommentId, text, user.id, imageId);
    db.comments := db.comments + [comment];
    db.nextCommentId := db.nextCommentId + 1;
    r := Inserted(comment);
  }

  /** The comments on one image, in stored order. */
  function CommentsOf(comments: seq<CommentRow>, imageId: int): (r: seq<CommentRow>)
    ensures |r| <= |comments|
    ensures forall c :: c in r <==> c in comments && c.imageId == imageId
  {
    if |comments| == 0 then []
    else
      var rest := CommentsOf(comments[1..], imageId);
      if comments[0].imageId == imageId then [comments[0]] + rest else rest
  }

  /** Selecting distributes over concatenation, so the selection keeps the stored order. */
  lemma {:induction false} CommentsOfAppend(a: seq<CommentRow>, b: seq<CommentRow>, imageId: int)
    ensures CommentsOf(a + b, imageId) == CommentsOf(a, imageId) + CommentsOf(b, imageId)
    decreases |a|
  {
    if |a| > 0 {
      assert (a + b)[1..] == a[1..] + b;
      CommentsOfAppend(a[1..], b, imageId);
    } else {
      assert a + b == b;
    }
  }

  /** `OFFSET offset LIMIT limit` over a result in order. */
  function Page<T>(xs: seq<T>, offset: nat, limit: nat): (r: seq<T>)
    ensures offset >= |xs| ==> r == []
    ensures offset < |xs| ==> |r| == if |xs| - offset < limit then |xs| - offset else limit
    ensures forall i :: 0 <= i < |r| ==> offset + i < |xs| && r[i] == xs[offset + i]
  {
    if offset >= |xs| then []
    else
      var rest := xs[offset..];
      if |rest| <= limit then rest else rest[..limit]
  }

  /** Two consecutive pages read together are the page that spans both. */
  lemma ConsecutivePages<T>(xs: seq<T>, offset: nat, first: nat, second: nat)
    ensures Page(xs, offset, first) + Page(xs, offset + first, second) == Page(xs, offset, first + second)
  {
    var whole := Page(xs, offset, first + second);
    var joined := Page(xs, offset, first) + Page(xs, offset + first, second);
    assert |joined| == |whole|;
    forall i | 0 <= i < |whole|
      ensures joined[i] == whole[i]
    {
      if i >= |Page(xs, offset, first)| {
        assert joined[i] == Page(xs, offset + first, second)[i - first];
      }
    }
  }

  /** `get_comments`: None when the image does not exist, otherwise the window of that image's
      comments starting at `offset` and at most `limit` long. */
  function GetComments(images: map<int, ImageRow>, comments: seq<CommentRow>, imageId: int, offset: nat, limit: nat)
    : (r: Option<seq<CommentRow>>)
    ensures r.None? <==> imageId !in images
    ensures r.Some? ==> |r.value| <= limit
    ensures r.Some? ==> var n := |CommentsOf(comments, imageId)|;
      |r.value| == if offset >= n then 0 else if n - offset < limit then n - offset else limit
    ensures r.Some? ==> forall c :: c in r.value ==> c in comments && c.imageId == imageId
    ensures r.Some? ==> forall i :: 0 <= i < |r.value| ==>
      offset + i < |CommentsOf(comments, imageId)| && r.value[i] == CommentsOf(comments, imageId)[offset + i]
  {
    if imageId !in images then None
    else Some(Page(CommentsOf(comments, imageId), offset, limit))
  }

  /** Where the caller's own comment with that id sits, if anywhere. */
  function OwnCommentIndex(comments: seq<CommentRow>, commentId: int, userId: int): Option<nat>
  {
    IndexWhere(comments, (c: CommentRow) => c.id == commentId && c.userId == userId)
  }

  function CommentIndex(comments: seq<CommentRow>, commentId: int): Option<nat>
  {
    IndexWhere(comments, (c: CommentRow) => c.id == commentId)
  }

  /** `update_comment`: only a comment that has the id AND belongs to the caller is found;
      its text is replaced and nothing else changes. */
  method UpdateComment(db: Db, commentId: int, text: string, user: UserRow) returns (r: Option<CommentRow>)
    requires db.Valid()
    modifies db`comments
    ensures db.Valid()
    ensures r.None? <==>
      forall i :: 0 <= i < |old(db.comments)| ==> old(db.comments)[i].id != commentId || old(db.comments)[i].userId != user.id
    ensures r.None? ==> db.comments == old(db.comments)
    ensures r.Some? ==> exists i :: (
      && 0 <= i < |old(db.comments)|
      && old(db.comments)[i].id == commentId && old(db.comments)[i].userId == user.id
      && r.value == old(db.comments)[i].(text := text)
      && db.comments == old(db.comments)[i := r.value])
    ensures r.Some? ==> var k := OwnCommentIndex(old(db.comments), commentId, user.id).value;
      r.value == old(db.comments)[k].(text := text) && db.comments == old(db.comments)[k := r.value]
  {
    var found := OwnCommentIndex(db.comments, commentId, user.id);
    if found.None? {
      return None;
    }
    var i := found.value;
    var comment := db.comments[i].(text := text);
    db.comments := db.comments[i := comment];
    r := Some(comment);
  }

  /** `delete_comment`: the comment with that id is removed whoever owns it. */
  method DeleteComment(db: Db, commentId: int) returns (r: Option<CommentRow>)
    requires db.Valid()
    modifies db`comments
    ensures db.Valid()
    ensures r.None? <==> forall i :: 0 <= i < |old(db.comments)| ==> old(db.comments)[i].id != commentId
    ensures r.None? ==> db.comments == old(db.comments)
    ensures r.Some? ==> exists i :: (
      && 0 <= i < |old(db.comments)|
      && old(db.comments)[i] == r.value && r.value.id == commentId
      && db.comments == old(db.comments)[..i] + old(db.comments)[i + 1..])
    ensures r.Some? ==> var k := CommentIndex(old(db.comments), commentId).value;
      r.value == old(db.comments)[k] && db.comments == old(db.comments)[..k] + old(db.comments)[k + 1..]
  {
    var found := CommentIndex(db.comments, commentId);
    if found.None? {
      return None;
    }
    var i := found.value;
    r := Some(db.comments[i]);
    RemovePreservesValid(db.comments, db.nextCommentId, i);
    db.comments := db.comments[..i] + db.comments[i + 1..];
  }

  /** Removing one row keeps the table well formed. */
  lemma RemovePreservesValid(comments: seq<CommentRow>, nextId: int, k: nat)
    requires CommentsValid(comments, nextId) && k < |comments|
    ensures CommentsValid(comments[..k] + comments[k + 1..], nextId)
  {
    var rest := comments[..k] + comments[k + 1..];
    assert forall i :: 0 <= i < |rest| ==> rest[i] == comments[if i < k then i else i + 1];
  }

  /** After a delete, no comment with that id is left. */
  lemma {:induction false} DeleteLeavesNoCopy(comments: seq<CommentRow>, nextId: int, k: nat)
    requires CommentsValid(comments, nextId) && k < |comments|
    ensures forall c :: c in comments[..k] + comments[k + 1..] ==> c.id != comments[k].id
  {
    var rest := comments[..k] + comments[k + 1..];
    forall i | 0 <= i < |rest|
      ensures rest[i].id != comments[k].id
    {
      if i < k {
        assert rest[i] == comments[i];
      } else {
        assert rest[i] == comments[i + 1];
      }
    }
  }
}
