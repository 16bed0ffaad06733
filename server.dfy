/** The `/api/comments` handlers over the comments file. Every request that gets past
    validation reads the whole file, and the mutating ones write the whole file back; a POST
    that fails validation answers before reading anything. `Date.now()`, the `ru-RU`
    formatted date, `parseInt` of the path id and the outcome of the write are parameters. */
module Server {
  import opened Wrappers
  import opened Text
  import opened Comments

  /** What a handler sends back as JSON. */
  datatype Body =
    | CommentList(comments: seq<Comment>)
    | Created(comment: Comment)
    | Message(message: string)
    | Error(error: string)

  datatype Response = Response(status: int, body: Body)

  const MissingFieldsError: string := "Текст комментария и пользователь обязательны"
  const SaveCommentError: string := "Ошибка сохранения комментария"
  const CommentNotFoundError: string := "Комментарий не найден"
  const CommentDeletedMessage: string := "Комментарий удален"
  const DeleteCommentError: string := "Ошибка удаления комментария"
  const UserCommentsNotFoundError: string := "Комментарии не найдены"
  const DeleteUserCommentsError: string := "Ошибка удаления комментариев"

  /** The confirmation sent after all of `user`'s comments are deleted. */
  function UserCommentsDeletedMessage(user: string): string {
    "Все комментарии для " + user + " удалены"
  }

  /** The POST validation: both `text` and `user` must pass `!value`. The text is tested
      before it is trimmed: once the text has content after trimming, only the user
      decides the verdict. */
  predicate IsValidPost(text: Option<string>, user: Option<string>)
    ensures text.Some? && Trim(text.value) != "" ==>
      (IsValidPost(text, user) <==> user.Some? && user.value != "")
  {
    IsTruthy(text) && IsTruthy(user)
  }

  /** The record a valid POST appends: the server fills in id, date and author, and the
      text is the sent text with the white space at both ends cut off, which leaves it
      empty exactly when the sent text is all white space. */
  function NewComment(text: string, user: string, now: int, date: string): (c: Comment)
    ensures c.id == now && c.date == date && c.user == user && c.author == AnonymousAuthor
    ensures |c.text| <= |text|
    ensures c.text == [] || (!IsWhiteSpace(c.text[0]) && !IsWhiteSpace(c.text[|c.text| - 1]))
    ensures c.text == [] <==> forall k :: 0 <= k < |text| ==> IsWhiteSpace(text[k])
  {
    TrimEmptyIffWhiteSpace(text);
    Comment(now, Trim(text), date, user, AnonymousAuthor)
  }

  /** Text made only of white space passes the validation and is stored as the empty
      string: the server does not guarantee non-empty trimmed text. */
  lemma WhiteSpaceTextIsStoredEmpty(text: string, user: string, now: int, date: string)
    requires text != "" && forall k :: 0 <= k < |text| ==> IsWhiteSpace(text[k])
    requires user != ""
    ensures IsValidPost(Some(text), Some(user))
    ensures NewComment(text, user, now, date).text == ""
  {
  }

  /** The comments file. `file` is what `readComments` would parse from it: `None` when the
      file is missing or does not parse. */
  class CommentStore {
    var file: Option<seq<Comment>>

    constructor (file: Option<seq<Comment>>)
      ensures this.file == file
    {
      this.file := file;
    }

    /** `readComments` on the current file. */
    function ReadComments(): seq<Comment>
      reads this
    {
      Load(file)
    }

    /** `writeComments`: on success the file holds exactly `comments`, so the next read
        returns them; a failed write leaves the file as it was. */
    method WriteComments(comments: seq<Comment>, writeOk: bool) returns (ok: bool)
      modifies this
      ensures ok == writeOk
      ensures file == if writeOk then Some(comments) else old(file)
      ensures ok ==> ReadComments() == comments
    {
      if writeOk {
        file := Some(comments);
      }
      ok := writeOk;
    }

    /** GET /api/comments: every stored comment, or none when the file cannot be read. */
    function ListAll(): (r: Response)
      reads this
      ensures r.status == 200 && r.body.CommentList?
      ensures file.None? ==> r.body.comments == []
      ensures file.Some? ==> r.body.comments == file.value
    {
      Response(200, CommentList(ReadComments()))
    }

    /** GET /api/comments/:user: exactly the stored comments of `user`, in storage order. */
    function ListByUser(user: string): (r: Response)
      reads this
      ensures r.status == 200 && r.body.CommentList?
      ensures forall c :: c in r.body.comments <==> c in ReadComments() && c.user == user
      ensures r.body.comments == ByUser(ReadComments(), user)
    {
      Response(200, CommentList(ByUser(ReadComments(), user)))
    }

    /** POST /api/comments: 400 and no write for a missing or empty field; otherwise the
        file is re-read, the new record is appended and written back, and the answer is 201
        with the record when the write succeeds and 500 when it fails. */
    method Create(text: Option<string>, user: Option<string>, now: int, date: string, writeOk: bool)
      returns (r: Response)
      modifies this
      ensures r.status == 400 <==> text.None? || text == Some("") || user.None? || user == Some("")
      ensures r.status == 201 <==> IsValidPost(text, user) && writeOk
      ensures !IsValidPost(text, user) ==>
        r == Response(400, Error(MissingFieldsError)) && file == old(file)
      ensures IsValidPost(text, user) && writeOk ==>
        var c := NewComment(text.value, user.value, now, date);
        r == Response(201, Created(c)) && file == Some(Load(old(file)) + [c])
      ensures IsValidPost(text, user) && !writeOk ==>
        r == Response(500, Error(SaveCommentError)) && file == old(file)
    {
      if !IsTruthy(text) || !IsTruthy(user) {
        return Response(400, Error(MissingFieldsError));
      }
      var comments := ReadComments();
      var newComment := Comment(now, Trim(text.value), date, user.value, AnonymousAuthor);
      comments := comments + [newComment];
      var ok := WriteComments(comments, writeOk);
      if ok {
        r := Response(201, Created(newComment));
      } else {
        r := Response(500, Error(SaveCommentError));
      }
    }

    /** DELETE /api/comments/:id: 404 and no write when no stored comment has the id (a
        NaN id has none); otherwise every comment with the id is removed and the answer is
        200 or 500 according to the write. */
    method DeleteById(id: Option<int>, writeOk: bool) returns (r: Response)
      modifies this
      ensures (forall i :: 0 <= i < |Load(old(file))| ==> !HasId(Load(old(file))[i], id)) ==>
        r == Response(404, Error(CommentNotFoundError)) && file == old(file)
      ensures (exists i :: 0 <= i < |Load(old(file))| && HasId(Load(old(file))[i], id)) && writeOk ==>
        r == Response(200, Message(CommentDeletedMessage)) && file == Some(WithoutId(Load(old(file)), id))
      ensures (exists i :: 0 <= i < |Load(old(file))| && HasId(Load(old(file))[i], id)) && !writeOk ==>
        r == Response(500, Error(DeleteCommentError)) && file == old(file)
    {
      var comments := ReadComments();
      var initialLength := |comments|;
      var filteredComments := WithoutId(comments, id);
      WithoutIdSameLengthIffNone(comments, id);
      if |filteredComments| == initialLength {
        return Response(404, Error(CommentNotFoundError));
      }
      var ok := WriteComments(filteredComments, writeOk);
      if ok {
        r := Response(200, Message(CommentDeletedMessage));
      } else {
        r := Response(500, Error(DeleteCommentError));
      }
    }

    /** DELETE /api/comments/user/:user: 404 and no write when `user` has no stored comment;
        otherwise all of that user's comments are removed and the answer is 200 or 500
        according to the write. */
    method DeleteByUser(user: string, writeOk: bool) returns (r: Response)
      modifies this
      ensures (forall i :: 0 <= i < |Load(old(file))| ==> Load(old(file))[i].user != user) ==>
        r == Response(404, Error(UserCommentsNotFoundError)) && file == old(file)
      ensures (exists i :: 0 <= i < |Load(old(file))| && Load(old(file))[i].user == user) && writeOk ==>
        r == Response(200, Message(UserCommentsDeletedMessage(user))) &&
        file == Some(WithoutUser(Load(old(file)), user))
      ensures (exists i :: 0 <= i < |Load(old(file))| && Load(old(file))[i].user == user) && !writeOk ==>
        r == Response(500, Error(DeleteUserCommentsError)) && file == old(file)
    {
      var comments := ReadComments();
      var initialLength := |comments|;
      var filteredComments := WithoutUser(comments, user);
      WithoutUserSameLengthIffNone(comments, user);
      if |filteredComments| == initialLength {
        return Response(404, Error(UserCommentsNotFoundError));
      }
      var ok := WriteComments(filteredComments, writeOk);
      if ok {
        r := Response(200, Message(UserCommentsDeletedMessage(user)));
      } else {
        r := Response(500, Error(DeleteUserCommentsError));
      }
    }
  }

  /** A comment posted for Nikita shows up in Nikita's listing, and deleting an id nobody
      has is a 404 that leaves the file alone. */
  method ScenarioPostThenList() {
    var store := new CommentStore(None);
    var listed := store.ListAll();
    assert listed.body.comments == [];
    TrimOfTrimmed("hello");
    var r := store.Create(Some("hello"), Some("Nikita"), 1000, "01.01.2026, 12:00:00", true);
    var hello := Comment(1000, "hello", "01.01.2026, 12:00:00", "Nikita", AnonymousAuthor);
    assert r == Response(201, Created(hello));
    listed := store.ListByUser("Nikita");
    assert hello in listed.body.comments;
    var before := store.file;
    r := store.DeleteById(Some(999999), true);
    assert r.status == 404 && store.file == before;
  }

  /** After one post for each user, deleting all of Nikita's comments keeps Ivan's. */
  method ScenarioDeleteOneUser() {
    var hello := Comment(1000, "hello", "01.01.2026, 12:00:00", "Nikita", AnonymousAuthor);
    var hi := Comment(1001, "hi", "01.01.2026, 12:00:01", "Ivan", AnonymousAuthor);
    var store := new CommentStore(Some([hello]));
    TrimOfTrimmed("hi");
    var r := store.Create(Some("hi"), Some("Ivan"), 1001, "01.01.2026, 12:00:01", true);
    assert NewComment("hi", "Ivan", 1001, "01.01.2026, 12:00:01") == hi;
    assert [hello] + [hi] == [hello, hi];
    assert store.file == Some([hello, hi]);
    assert Load(store.file)[0].user == "Nikita";
    r := store.DeleteByUser("Nikita", true);
    assert r.status == 200;
    var listed := store.ListByUser("Ivan");
    assert hi in listed.body.comments;
    listed := store.ListByUser("Nikita");
    assert forall c :: c in listed.body.comments ==> c.user == "Nikita" && c in [hi];
    assert listed.body.comments == [];
  }

  /** A failed write answers 500 and changes nothing. */
  method ScenarioFailedWrite(file: Option<seq<Comment>>) {
    var store := new CommentStore(file);
    var r := store.Create(Some("lost"), Some("Ivan"), 1002, "01.01.2026, 12:00:02", false);
    assert r.status == 500 && store.file == file;
  }
}
