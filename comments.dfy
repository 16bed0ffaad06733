/** The comment record, the stored file as the handlers read it, and the three filters the
    handlers apply to it: by user (GET), without a user (DELETE by user) and without an id
    (DELETE by id). */
module Comments {
  import opened Wrappers
  import opened Filtering

  /** One stored comment. `id` is the creation timestamp in milliseconds, `date` the
      locale-formatted creation time, `user` the board owner it belongs to. */
  datatype Comment = Comment(id: int, text: string, date: string, user: string, author: string)

  /** The fixed author label every new comment receives ("anonymous user"). */
  const AnonymousAuthor: string := "Анонимный пользователь"

  /** `readComments`: the parsed contents of the comments file, or no comments at all when
      the file is missing, cannot be read or does not parse (`None`). */
  function Load(file: Option<seq<Comment>>): (r: seq<Comment>)
    ensures file.None? ==> r == []
    ensures file.Some? ==> r == file.value
  {
    file.GetOr([])
  }

  /** `comment.user === user` */
  function OfUser(user: string): Comment -> bool {
    (c: Comment) => c.user == user
  }

  /** `comment.user !== user` */
  function NotOfUser(user: string): Comment -> bool {
    (c: Comment) => c.user != user
  }

  /** The comment carries the id the request parsed to; a NaN id (`None`) matches none. */
  predicate HasId(c: Comment, id: Option<int>) {
    id.Some? && c.id == id.value
  }

  /** `comment.id !== parseInt(id)`: true of every comment when the id is NaN. */
  function NotWithId(id: Option<int>): Comment -> bool {
    (c: Comment) => !HasId(c, id)
  }

  /** The comments of `user`, in storage order. */
  function ByUser(s: seq<Comment>, user: string): (r: seq<Comment>)
    ensures forall c :: c in r <==> c in s && c.user == user
  {
    Filter(s, OfUser(user))
  }

  /** The comments of every other user, in storage order. */
  function WithoutUser(s: seq<Comment>, user: string): (r: seq<Comment>)
    ensures forall c :: c in r <==> c in s && c.user != user
  {
    Filter(s, NotOfUser(user))
  }

  /** The comments whose id differs from `id`, in storage order. */
  function WithoutId(s: seq<Comment>, id: Option<int>): (r: seq<Comment>)
    ensures forall c :: c in r <==> c in s && !HasId(c, id)
  {
    Filter(s, NotWithId(id))
  }

  /** The listing for a user and the store after deleting that user's comments split the
      store between them: every stored comment lands in exactly one of the two. */
  lemma ByUserWithoutUserPartition(s: seq<Comment>, user: string)
    ensures |ByUser(s, user)| + |WithoutUser(s, user)| == |s|
    ensures multiset(ByUser(s, user)) + multiset(WithoutUser(s, user)) == multiset(s)
  {
    FilterPartition(s, OfUser(user), NotOfUser(user));
  }

  /** Deleting by user drops every copy of that user's comments and keeps every copy of
      all others. */
  lemma WithoutUserMultiplicity(s: seq<Comment>, user: string, c: Comment)
    ensures multiset(WithoutUser(s, user))[c] == if c.user == user then 0 else multiset(s)[c]
  {
    FilterMultiplicity(s, NotOfUser(user), c);
  }

  /** Deleting by id drops every comment with that id, duplicates included, and keeps every
      copy of all others. */
  lemma WithoutIdMultiplicity(s: seq<Comment>, id: Option<int>, c: Comment)
    ensures multiset(WithoutId(s, id))[c] == if HasId(c, id) then 0 else multiset(s)[c]
  {
    FilterMultiplicity(s, NotWithId(id), c);
  }

  /** The "filtered length equals initial length" test of DELETE by user holds exactly when
      the user has no stored comment, and then the store is left as it was. */
  lemma WithoutUserSameLengthIffNone(s: seq<Comment>, user: string)
    ensures |WithoutUser(s, user)| == |s| <==> forall i :: 0 <= i < |s| ==> s[i].user != user
    ensures |WithoutUser(s, user)| == |s| ==> WithoutUser(s, user) == s
  {
    FilterLengthUnchanged(s, NotOfUser(user));
  }

  /** The same test in DELETE by id holds exactly when no stored comment has the id. */
  lemma WithoutIdSameLengthIffNone(s: seq<Comment>, id: Option<int>)
    ensures |WithoutId(s, id)| == |s| <==> forall i :: 0 <= i < |s| ==> !HasId(s[i], id)
    ensures |WithoutId(s, id)| == |s| ==> WithoutId(s, id) == s
  {
    FilterLengthUnchanged(s, NotWithId(id));
  }

  /** An id that parses to NaN matches nothing, so the filter keeps the whole store. */
  lemma WithoutNaNIdKeepsAll(s: seq<Comment>)
    ensures WithoutId(s, None) == s
  {
    FilterLengthUnchanged(s, NotWithId(None));
  }

  /** After a comment is appended, its user's listing is the old listing followed by it,
      and every other user's listing is unchanged. */
  lemma ByUserAfterAppend(s: seq<Comment>, c: Comment, user: string)
    ensures ByUser(s + [c], user) == if c.user == user then ByUser(s, user) + [c] else ByUser(s, user)
  {
    FilterAppend(s, [c], OfUser(user));
    assert Filter([c], OfUser(user)) == (if c.user == user then [c] else []) + Filter([], OfUser(user));
  }

  /** Deleting by id keeps the surviving comments unaltered and in their storage order: the
      result reads the store at increasing positions, exactly those without the id. */
  lemma WithoutIdKeepsOrder(s: seq<Comment>, id: Option<int>) returns (pos: seq<nat>)
    ensures ReadAt(s, pos, WithoutId(s, id)) && Increasing(pos)
    ensures forall i :: 0 <= i < |s| ==> (!HasId(s[i], id) <==> i in pos)
  {
    pos := FilterPositions(s, NotWithId(id));
  }

  /** Deleting by user keeps the other users' comments unaltered and in storage order. */
  lemma WithoutUserKeepsOrder(s: seq<Comment>, user: string) returns (pos: seq<nat>)
    ensures ReadAt(s, pos, WithoutUser(s, user)) && Increasing(pos)
    ensures forall i :: 0 <= i < |s| ==> (s[i].user != user <==> i in pos)
  {
    pos := FilterPositions(s, NotOfUser(user));
  }

  /** A user's listing is that user's comments in storage order, none left out. */
  lemma ByUserKeepsOrder(s: seq<Comment>, user: string) returns (pos: seq<nat>)
    ensures ReadAt(s, pos, ByUser(s, user)) && Increasing(pos)
    ensures forall i :: 0 <= i < |s| ==> (s[i].user == user <==> i in pos)
  {
    pos := FilterPositions(s, OfUser(user));
  }
}
