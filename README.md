# Comment board store

A Dafny model of the comment store behind the `/api/comments` HTTP handlers of a small
comment board. The server keeps every comment in one JSON file (`comments.json`). Every
request that gets past validation reads the whole file, and the mutating requests write
the whole file back. A POST that fails validation answers before reading anything. A
comment is a record `{id, text, date, user, author}`: `id` is the creation timestamp,
`date` a locale-formatted creation time, `user` the board owner the comment is filed under
and `author` the fixed label "Анонимный пользователь" (anonymous user).

Modules:

- `Wrappers`: the `Option` type used for absent request fields, an unreadable file and a
  NaN id.
- `Filtering`: `Array.prototype.filter` on sequences, with its laws: membership,
  multiplicity, concatenation, order of the survivors, complementary filters that split a
  sequence, and the "length unchanged" test used to detect that nothing matched.
- `Text`: JavaScript falsiness of a request field (`!value`) and `String.prototype.trim`,
  which strips ECMAScript WhiteSpace and LineTerminator code points from both ends.
- `Comments`: the `Comment` record, `Load` (`readComments`), and the three filters the
  handlers apply: by user, without a user and without an id.
- `Server`: the response type and status codes, and the class `CommentStore`. Its field
  `file` is what `readComments` parses from the file, with `None` for a missing or
  unparsable file. The GET handlers are functions reading that field. POST and the two
  DELETE handlers are methods that write it through `WriteComments`. Three scenario methods
  check request sequences against these contracts: post then list, delete by user, and a
  failed write.

The inputs the handlers take from the outside world are parameters:

- `now` is `Date.now()`.
- `date` is the `toLocaleString('ru-RU')` result, kept as an opaque string.
- `id: Option<int>` is `parseInt` of the path segment, with `None` for NaN.
- `writeOk` says whether `writeFileSync` succeeded.

A failed write leaves the file as it was.

Two things the server does not guarantee:

- **Non-empty trimmed text.** The server does not ensure that a stored text is non-empty
  after trimming. The POST handler tests the untrimmed text for falsiness (server.js:54)
  and only then trims it (server.js:62). So text made only of white space is accepted and
  stored as `""` (`Server.WhiteSpaceTextIsStoredEmpty`). Only the browser client trims
  before it posts.
- **Unique ids.** The server does not ensure that ids are unique. The POST handler never
  compares `now` with the stored ids, so `Create` appends its record whatever ids are
  already stored. When ids repeat, DELETE by id removes every comment with that id
  (`Comments.WithoutIdMultiplicity`).

## Model

| member | source | states |
|---|---|---|
| `Filtering.Filter` | server.js:47 | the result is no longer than the input, and a value is in it exactly when it is in the input and the predicate keeps it |
| `Filtering.FilterAppend` | server.js:47 | filtering a concatenation is the concatenation of the filtered parts, so survivors keep their relative order |
| `Filtering.FilterMultiplicity` | server.js:83 | every copy of a kept value survives and every copy of a dropped value is removed |
| `Filtering.FilterLengthUnchanged` | server.js:81-87 | the filtered length equals the input length exactly when every element is kept, and then the result is the input itself |
| `Filtering.FilterPartition` | server.js:102 | two complementary filters split a sequence: their lengths add up to its length and their multisets to its multiset |
| `Filtering.FilterPositions` | server.js:83 | the filtered sequence is the input read at strictly increasing positions, and those positions are exactly the kept ones |
| `Text.IsWhiteSpace` | server.js:62 | every character `trim` strips lies in the Basic Multilingual Plane and is neither an ASCII letter nor an ASCII digit |
| `Text.AsciiWhiteSpace` | server.js:62 | among ASCII characters, `trim` strips exactly space, TAB, LF, VT, FF and CR |
| `Text.TrimStart` | server.js:62 | the result is a suffix of the input, everything cut off is white space, and the result does not start with white space |
| `Text.TrimEnd` | server.js:62 | the result is a prefix of the input, everything cut off is white space, and the result does not end with white space |
| `Text.Trim` | server.js:62 | neither end of the trimmed text is white space |
| `Text.TrimIsSlice` | server.js:62 | the trimmed text is a contiguous slice of the input, and everything outside the slice is white space |
| `Text.TrimEmptyIffWhiteSpace` | server.js:62 | trimming gives the empty string exactly when the input is all white space |
| `Text.TrimOfTrimmed` | server.js:62 | text with no white space at either end is left unchanged by trimming |
| `Text.TrimIdempotent` | server.js:62 | trimming twice is the same as trimming once |
| `Comments.Load` | server.js:15-26 | a missing or unparsable file reads as no comments; otherwise the parsed sequence is returned |
| `Comments.ByUser` | server.js:47 | a comment is listed exactly when it is stored and its user equals the requested user |
| `Comments.WithoutUser` | server.js:102 | a comment survives deletion by user exactly when it is stored and belongs to another user |
| `Comments.WithoutId` | server.js:83 | a comment survives deletion by id exactly when it is stored and does not carry the parsed id |
| `Comments.ByUserWithoutUserPartition` | server.js:102 | the user's listing plus the store after deleting that user's comments account for every stored comment exactly once, by count and by multiset |
| `Comments.WithoutUserMultiplicity` | server.js:102 | deleting by user removes every copy of that user's comments and keeps every copy of the others |
| `Comments.WithoutIdMultiplicity` | server.js:83 | deleting by id removes every comment with the id, duplicates included, and keeps every copy of the others |
| `Comments.WithoutUserSameLengthIffNone` | server.js:100-106 | the "filtered length equals initial length" test holds exactly when no stored comment belongs to the user |
| `Comments.WithoutIdSameLengthIffNone` | server.js:81-87 | the same test holds exactly when no stored comment has the parsed id |
| `Comments.WithoutNaNIdKeepsAll` | server.js:83 | an id that parses to NaN matches nothing, so the filter returns the whole store |
| `Comments.ByUserAfterAppend` | server.js:68 | after a comment is appended, its user's listing is the old listing followed by it, and every other user's listing is unchanged |
| `Comments.WithoutIdKeepsOrder` | server.js:83 | the comments that survive deletion by id are unaltered and in storage order, and they sit at exactly the positions without the id |
| `Comments.WithoutUserKeepsOrder` | server.js:102 | the comments that survive deletion by user are unaltered and in storage order, and they sit at exactly the other users' positions |
| `Comments.ByUserKeepsOrder` | server.js:47 | a user's listing holds that user's comments in storage order, none dropped |
| `Server.IsValidPost` | server.js:54 | validation ignores trimming: once the text has content after trimming, the POST passes exactly when the user is sent and non-empty (with `Server.WhiteSpaceTextIsStoredEmpty`, white-space-only text passes too) |
| `Server.NewComment` | server.js:60-66 | the new record has id `now`, the given date and user, and the anonymous author label; its text is no longer than the sent text, has no white space at either end, and is empty exactly when the sent text is all white space |
| `Server.WhiteSpaceTextIsStoredEmpty` | server.js:54-62 | text made only of white space passes validation, and its record is stored with empty text |
| `Server.CommentStore.WriteComments` | server.js:29-37 | a successful write makes the file hold exactly the given comments, so the next read returns them; a failed write changes nothing and reports failure |
| `Server.CommentStore.ListAll` | server.js:39-42 | status 200 with every stored comment, or an empty list when the file is missing or unparsable |
| `Server.CommentStore.ListByUser` | server.js:44-49 | status 200 with exactly the stored comments of the user, in storage order |
| `Server.CommentStore.Create` | server.js:51-75 | 400 with no write exactly when a field is missing or the empty string; 201 exactly when validation passes and the write succeeds. On 400 the file is unchanged. Otherwise, if the write succeeds: 201 with a record whose id is `now`, whose text is the trimmed text and whose author is the anonymous label, and the file is the old comments plus that record at the end. If the write fails: 500 and the file is unchanged |
| `Server.CommentStore.DeleteById` | server.js:78-94 | 404 with no write when no stored comment has the id. Otherwise, if the write succeeds: 200 and the file holds the store without any comment of that id. If the write fails: 500 and the file is unchanged |
| `Server.CommentStore.DeleteByUser` | server.js:97-113 | 404 with no write when the user has no stored comment. Otherwise, if the write succeeds: 200 with the per-user message and the file holds the store without that user's comments. If the write fails: 500 and the file is unchanged |

## Left out

- Express setup, JSON body parsing, static files and the two HTML routes
  (server.js:1-9, server.js:119-125) are framework plumbing.
- `GET /health` (server.js:115-117) only reads the clock. `app.listen`
  (server.js:128-131) only binds a socket.
- The file system and JSON (de)serialisation are reduced to a parsed value and a write
  flag:
  - A missing, unreadable or unparsable file is one `None`.
  - A file whose JSON is not an array of comment records is not modelled; the file is
    typed as `seq<Comment>`. In the real server the outcome depends on the value:
    - `GET /api/comments` sends back any parsed JSON value with status 200.
    - A non-array value makes `filter` or `push` throw.
    - An array element that is `null` makes the `filter` callbacks throw.
    - Other non-record elements, such as `1` or `{}`, pass through `filter` without error,
      because their missing fields read as `undefined`.
  - A failed write is assumed to leave the old file intact. The real `writeFileSync` may
    leave a partial file.
- `console.error` logging is not modelled.
- `Date.now()`, `toLocaleString('ru-RU')` and `parseInt` are parameters, not modelled
  functions.
- Request bodies whose `text` or `user` is not a string are not modelled. Examples are a
  number, or an object that `.trim()` would throw on. Fields are `Option<string>`.
- Concurrent requests are not modelled; each request runs alone. Two racing
  read-modify-write cycles could lose a write.
- Strings are sequences of Unicode scalar values, not UTF-16 code units. Every character
  `trim` strips lies in the Basic Multilingual Plane, so trimming is unaffected. Lone
  surrogates cannot be represented.
- public/comments.js is not part of this model. It is browser DOM code, `fetch` calls,
  dialogs and a file download. Its only computations are a library sort by id and copying
  a length into the export envelope.
