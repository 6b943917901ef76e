# Playlist bot: a Dafny model of its interaction state machine

The bot lets a messenger user upload audio files, sort them into named
playlists and play them back. It works as a small state machine over two
things:

- a per-user **session**, with the fields `user`, `file_id`,
  `selectPlaylistId` and `pendingAction`;
- three database tables: `users`, `playlists` and `playlistItems`.

Commands (`/start`, `/myplaylists`, `/createplaylist`), free text, audio
uploads and inline-button presses each run one handler. A handler reads and
updates the session, calls the persistence gateway, and replies with text,
an inline keyboard or an audio file.

The buttons carry callback data in a tiny protocol, `"<verb>:<decimal>"`.
The verbs are `add_to_playlist`, `select_playlist` and `play_song`. The
dispatcher recognises the verb with `startsWith` and reads the number with
`parseInt(data.split(":")[1], 10)`.

The model has these modules:

- `Domain` (domain.dfy): the records, the sender of an event, message tags,
  buttons and replies.
- `CallbackData` (callback.dfy): decimal printing and parsing, the two
  `split(":")` fields, and `Encode`/`Decode` for callback data, with
  round-trip lemmas in both directions.
- `Gateway` (gateway.dfy): the five gateway functions. The queries are pure
  filters over a table. The inserts are methods of a `Store` class whose
  fields are the three tables and the playlist-id generator.
- `Presentation` (presentation.dfy): the playlist and song keyboards. Each is
  a specification function plus a method that builds it with a loop, as the
  source's `forEach` does.
- `Handlers` (handlers.dfy): a `Session` class and one method per handler.
  Each method states the replies and the whole new session and store.
- `Scenarios` (scenarios.dfy): five conversations checked only against the
  handlers' contracts.

Modelling assumptions:

- The SQL queries have no `ORDER BY`. The model assumes rows come back in
  insertion order, and the filter functions are defined that way. The
  keyboards and the 1-based song index depend on this assumption.
- The `Store.Valid()` invariant holds of every reachable store: user ids are
  unique, and playlist ids are positive and increase with insertion order
  (a serial column).
- A sender "has an id" when it is present and its id is not 0. This is
  JavaScript truthiness in the guard `!ctx.msg?.from?.id`.
- A stored file handle counts only when it is set and non-empty, again by
  truthiness.
- A malformed callback argument is one where `parseInt` would give NaN. For
  `add_to_playlist` and `select_playlist`, it makes the database call fail.
  The model then sends no reply and changes nothing.
- For `play_song`, a malformed index compares false with both bounds, so it
  gets the invalid-selection reply, as in the source.
- A `play_song` press with no `selectPlaylistId` makes the source query with
  the string `"undefined"`. That query fails and the error reaches only the
  top-level error logger, so the model sends no reply and changes nothing.

The model follows the code on four points that are easy to miss:

- The callback handler does not refresh `session.user` from the sender. It
  uses whatever user the session holds, and replies with the `/start` hint
  when there is none.
- `file_id` is not cleared after an item is added.
- Nothing checks that the playlist named in `add_to_playlist` or
  `select_playlist` exists or belongs to the user.
- The "User not found." replies in `/myplaylists` and `/createplaylist` are
  unreachable. The id guard before them already rejects a falsy id, so the
  model leaves them out.

## Model

| member | source | states |
|---|---|---|
| `CallbackData.VerbOf` | index.ts:252-283 | a callback matches the prefix of verb v exactly when it starts with `v:`; at most one of the three `startsWith` tests can succeed |
| `CallbackData.Decimal` | index.ts:153 | printing an id gives a canonical numeral: non-empty, all digits, no leading zero except for 0 |
| `CallbackData.ParseDecimal` | index.ts:254 | a number is read exactly when the argument is a non-empty string of digits; otherwise the result is NaN (None) |
| `CallbackData.FirstField` | index.ts:254 | the first `:`-separated field contains no colon, and a colon-free string is its own first field |
| `CallbackData.SecondField` | index.ts:254 | `split(":")[1]` contains no colon |
| `CallbackData.SecondFieldAfterFirstColon` | index.ts:254 | for `w:d` with colon-free w and d, `split(":")[1]` is exactly d |
| `CallbackData.ParseDecimalOfDecimal` | index.ts:272 | parsing a printed natural number gives that number back |
| `CallbackData.DecimalOfParseDecimal` | index.ts:284 | printing a parsed canonical numeral gives the same text back |
| `CallbackData.DecodeEncode` | index.ts:284-285 | decoding the callback data built for (verb, n) gives back that verb and n, for every verb and every natural n |
| `CallbackData.EncodeInjective` | index.ts:231 | two buttons with the same callback data have the same verb and the same number |
| `Gateway.FindUserPlaylistsExactly` | index.ts:37-48 | the listing of `findUserPlaylists` contains exactly the playlists whose owner is the user |
| `Gateway.FindUserPlaylistsAppend` | index.ts:37-48 | insertion order: a new playlist goes at the end of its owner's listing and leaves every other owner's listing unchanged |
| `Gateway.FindUserPlaylistsCount` | index.ts:41 | each of the owner's playlists appears in the listing exactly as often as in the table |
| `Gateway.OwnListingHasEachPlaylistOnce` | index.ts:143 | in a valid store, every playlist appears exactly once in its owner's listing |
| `Gateway.FindPlaylistItemsExactly` | index.ts:85-98 | the listing of `findPlaylistItems` contains exactly the items of that playlist |
| `Gateway.FindPlaylistItemsAppend` | index.ts:90-94 | insertion order: a new item goes at the end of its playlist's listing and leaves every other listing unchanged |
| `Gateway.FindUser` | index.ts:69-72 | the lookup returns a row of the table with that id, and returns none exactly when no row has that id |
| `Gateway.FindUserAppend` | index.ts:73-79 | after an append, the lookup finds the earlier row if there was one, else the new row if its id matches |
| `Gateway.FindOrCreate` | index.ts:63-83 | the returned user has the requested id; the table is unchanged exactly when the id existed, and then the stored row is returned; otherwise exactly one row with the given username is appended; unique ids are preserved |
| `Gateway.FindOrCreateThenFind` | index.ts:73-79 | after findOrCreateUser, looking up the id finds exactly the user it returned |
| `Gateway.FindOrCreateIdempotent` | index.ts:63-83 | a second call with the same id and any username returns the same user and leaves the table as the first call did |
| `Gateway.FindRow` | index.ts:69-72 | as written, the lookup matches the `userid` column: it returns a row holding that id there, and none exactly when no row does |
| `Gateway.FindOrCreateRow` | index.ts:63-83 | as written, the returned row holds the requested id under `userid`; the table is unchanged exactly when a row matched, and then that row is returned; otherwise one row whose `id` is the table's own default is appended |
| `Gateway.SessionUserIdAsWritten` | index.ts:222-237 | for sender 42 and an empty table, the row the upload stores has `id` undefined or the serial 1, never 42, while the model's user has id 42 |
| `Gateway.Store.constructor` | index.ts:29-35 | a fresh store has empty tables and satisfies the store invariant |
| `Gateway.Store.CreatePlaylist` | index.ts:50-61 | appends exactly one playlist with the given owner and name and a fresh id; the other tables are unchanged |
| `Gateway.Store.FindOrCreateUser` | index.ts:63-83 | the returned user and the new users table are those of `FindOrCreate`; the other tables are unchanged |
| `Gateway.Store.CreatePlaylistItem` | index.ts:100-115 | appends exactly the item (user, playlist, file) with no ownership check; the other tables are unchanged |
| `Presentation.PlaylistButtons` | index.ts:151-154 | one button per playlist, in listing order, captioned with its name; pressing it sends back the verb and that playlist's id |
| `Presentation.BuildPlaylistKeyboard` | index.ts:228-232 | the `forEach` loop pushes exactly the buttons of `PlaylistButtons` |
| `Presentation.SongButtons` | index.ts:270-273 | n buttons for n items, captioned `Song 1..n`; button i sends back `play_song` with i+1 |
| `Presentation.BuildSongKeyboard` | index.ts:271-273 | the `forEach` loop pushes exactly the buttons of `SongButtons` |
| `Handlers.Session.constructor` | index.ts:118 | a new session has no fields set |
| `Handlers.SongAt` | index.ts:289-291 | a song is chosen exactly when the index is a number from 1 to the item count, and it is the file of item k-1 |
| `Handlers.AddedItemIsPlayable` | index.ts:264-272 | an added item is played by the last song position of its playlist; earlier positions keep their songs; other playlists are unchanged |
| `Handlers.SongButtonPlaysItsItem` | index.ts:270-293 | pressing song button i of a playlist plays exactly item i |
| `Handlers.Start` | index.ts:120-129 | no sender id: replies "No id" and changes nothing; otherwise records the sender as the session user, greets, and leaves the other fields |
| `Handlers.MyPlaylists` | index.ts:131-159 | no sender id: "No id" and no change; otherwise refreshes the user and replies with the no-playlists message and the `/createplaylist` hint, or with one `select_playlist` button per owned playlist, in order; the store is never modified |
| `Handlers.CreatePlaylistCommand` | index.ts:161-174 | no sender id: "No id" and no change; otherwise sets `pendingAction` to CreatePlaylist and asks for a name; the store is not touched |
| `Handlers.OnText` | index.ts:186-210 | no sender id: "No id" and no change; no pending action: "invalid action" and the store unchanged; non-empty text: exactly one playlist (sender, text) with a fresh id is appended and `pendingAction` is cleared; empty text: asks again, nothing stored, still pending |
| `Handlers.OnAudio` | index.ts:212-240 | no sender id: nothing at all; otherwise the user is refreshed, and for a non-empty file handle the user row is found or created and becomes the session user with the sender's id, the file is remembered, and the reply offers one `add_to_playlist` button per owned playlist |
| `Handlers.OnCallback` | index.ts:242-298 | no session user or empty data: `/start` hint, no change; `add_to_playlist:id` appends exactly (user, id, file) or replies "Send audio" without a file, and never changes the session; `select_playlist:id` stores id and replies with the no-songs message or `Song 1..n`; `play_song:k` sends exactly item k-1 or the invalid-selection message |

## Left out

- The bot framework (`Bot`, `InlineKeyboard`, the session middleware,
  `reply`/`replyWithAudio`, `bot.start`, `bot.catch`) and console logging are
  not modelled. Replies are abstract values, and texts are tags of `Message`.
- Keyboard row layout is not modelled. `.row()` puts one button per row after
  `/myplaylists` and `select_playlist`, but the audio keyboard keeps all
  buttons on one row. The model keeps only each keyboard's ordered button
  list.
- The connection pool, acquiring and releasing connections, and the hard-coded
  connection settings are not modelled.
- SQL text, database errors and the `catch` that logs errors in
  `select_playlist` are not modelled. The gateway is total over the in-memory
  tables. The only failures modelled are calls with NaN or `undefined`
  arguments, which end the turn with no reply.
- `Handlers.OnCallback`: a malformed `select_playlist` argument leaves
  `selectPlaylistId` unchanged. The source first stores NaN there and then
  fails the query.
- JavaScript `parseInt` quirks are not modelled: leading whitespace, a sign,
  and trailing non-digits (for example `"12abc"` gives 12). Such arguments
  decode to None here.
- `Gateway.Store.FindOrCreateUser` returns a user whose `id` is the sender's
  id, and `Handlers.OnAudio` stores it as the session user. The source does
  not: the row it stores carries the sender's id under `userid`, so after an
  upload the next `add_to_playlist` press does not record the sender as the
  item's owner. The model records the intended owner; the code as written is
  the first row under "## Findings".
- Edited messages are not modelled. The text and audio handlers read
  `ctx.message`, which is absent for edits. Every event here is a new
  message.
- Concurrency is not modelled: two events of the same user interleaving at
  awaited calls, or any per-user locking. Each handler is one atomic
  transition.
- The `/help` command is not modelled. It sends a fixed list of lines.
- Only one user's session is modelled per handler call. The middleware keys
  sessions by chat, and that mapping is not part of this model.

## Findings

| source | as written | input that shows it | evidently intended | confidence | as-written member | corrected member |
|---|---|---|---|---|---|---|
| index.ts:70-79 | `findOrCreateUser` returns the raw `users` row. Its columns were named with unquoted `userId` and `username`, which PostgreSQL folds to lower case. The audio handler stores that row as `session.user` (index.ts:236), and `add_to_playlist` then passes `user.id` to `createPlaylistItem` (index.ts:255). | Sender 42 uploads an audio file to an empty table, then presses an `add_to_playlist` button. The row holds 42 under `userid`, and `user.id` is undefined (no `id` column) or the serial 1. The item is stored with a NULL owner, with owner 1, or the insert fails. | The session user after an upload has the sender's id, and the added item is owned by the sender. | medium, not executed; the exact outcome depends on the table definition | `Gateway.SessionUserIdAsWritten` | `Gateway.FindOrCreate` |
