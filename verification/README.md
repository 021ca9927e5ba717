# Chat message rules — a Dafny model

This project models the message rules of a real-time chat server (a
Node.js/Mongoose application). The rules live in `src/models/message.js`:

- `generateMessage(user, text)` trims the text a user sent. Blank text
  resolves to nothing and stores nothing. Otherwise it stores one message
  document tied to the user and the user's own chat room. It then reads the
  document back with the sender's username and email filled in, and returns
  it in wire shape.
- `dataCleanup(message)` projects a message onto its wire shape
  `{sender: {email, username}, text, createdAt}`.
- `generateAdminNotif(chatroom, text)` builds a server notification whose
  sender is `{username: 'Admin'}` and whose time is the current clock value.
- The schema's `text` field is trimmed by a setter and is `required`, so an
  empty text never reaches the store. `timestamps: true` stamps
  `createdAt`/`updatedAt` on insertion.

Files:

- `wrappers.dfy` (`Wrappers`): `Option` stands for a JavaScript value that
  may be `undefined`/`null`. `Result` stands for a promise that resolves or
  rejects.
- `text.dfy` (`Text`): `String.prototype.trim` over the ECMAScript
  WhiteSpace and LineTerminator code points. It has an index-walking
  version (`TrimBounds`) and a characterisation lemma (`TrimOfPadded`).
- `messages.dfy` (`Messages`): the documents, the store insert (`Create`),
  populate (`Populate`), `DataCleanup`, `GenerateMessage` and
  `GenerateAdminNotif`, with their lemmas.

The document store, the populate lookup and the clock are plain parameters.
The store is a `Store` value: the message documents in insertion order,
plus the next id. Populate is a lookup in a `map<ObjectId, User>`. The clock
is a `now: Timestamp` argument.

## Model

| member | source | states |
|---|---|---|
| Text.Trim | src/models/message.js:41 | the trimmed text has no white space at either end, is no longer than the input, and is empty exactly when the input is all white space |
| Text.TrimOfPadded | src/models/message.js:41 | trim is determined by its result: a trimmed string wrapped in white space on both sides trims back to itself |
| Text.TrimIdempotent | src/models/message.js:41 | trimming an already trimmed text changes nothing, so the schema's trim setter is a no-op on the text `generateMessage` passes it |
| Text.TrimFixedPoint | src/models/message.js:15-19 | a text is left alone by the schema's trim setter exactly when it has no white space at either end |
| Text.TrimIsInnerSlice | src/models/message.js:41 | the trimmed text of a non-blank string is exactly the slice between its leading and its trailing white space, both of which are all white space |
| Text.TrimBounds | src/models/message.js:41 | walking in from both ends over white space yields bounds whose outer parts are white space and whose slice is exactly the trimmed text |
| Messages.Create | src/models/message.js:15-23 | inserting a message fails with a validation error on `text` exactly when the text is blank; on success the stored text is the trimmed text, the document gets the next id, both timestamps equal the clock, and the store gains exactly that document at its end |
| Messages.CreatePreservesValid | src/models/message.js:15-19 | every message the store holds has present, trimmed text and ids stay increasing |
| Messages.CreateTrimmedSucceeds | src/models/message.js:41-46 | inserting text that is already trimmed and non-empty never fails validation and stores that text unchanged |
| Messages.Populate | src/models/message.js:48 | the sender id is replaced by that user's id, email and username when such a user exists, and by `null` otherwise; every other field is kept |
| Messages.DataCleanup | src/models/message.js:32-38 | cleanup throws exactly when the sender is `null`; otherwise it keeps the sender's email and username, the text and `createdAt` unchanged |
| Messages.DataCleanupDropsOtherFields | src/models/message.js:32-38 | two messages that agree on sender email, sender username, text and `createdAt` clean to the same result, whatever their ids, room, `updatedAt` or sender id |
| Messages.DataCleanupRoundTrip | src/models/message.js:32-38 | a message already in wire shape cleans back to itself |
| Messages.DataCleanupIdempotent | src/models/message.js:32-38 | cleaning the result of a cleanup again gives the same result |
| Messages.GenerateMessage | src/models/message.js:40-49 | blank text resolves to nothing and leaves the store unchanged; other text appends exactly one document whose sender is the user's id, whose room is the user's own room and whose text is the trimmed text; the reply is the cleaned message with the sender's stored email and username, or a rejection exactly when no user document has the sender's id, never a validation error; the next id moves on by one |
| Messages.GenerateMessagePreservesValid | src/models/message.js:15-19 | sending any text keeps every stored message's text present and trimmed |
| Messages.GenerateMessageSeesOnlyTrimmed | src/models/message.js:41-48 | sending a text and sending its trimmed form give the same reply and the same store |
| Messages.GenerateMessageIgnoresPadding | src/models/message.js:41-48 | padding a trimmed text with white space on either side does not change what is stored or returned |
| Messages.GeneratedReplyIsWireShaped | src/models/message.js:48 | a successful send returns a message already in wire shape, with a sender email, so it is never the Admin sender |
| Messages.GenerateAdminNotif | src/models/message.js:51-59 | a notification's sender is the Admin sender (username "Admin", no email); room and text are passed through as given and `createdAt` is the clock value |
| Messages.AdminNotifWireShape | src/models/message.js:51-59 | a notification cleans to the same wire shape as a message: Admin sender, the text unchanged, the clock's time, room dropped |
| Messages.AdminNotifKeepsPadding | src/models/message.js:41-59 | for every trimmed non-empty text with white space on both sides, a notification keeps the padded text as given, while the same text sent by a user is stored with the padding stripped |
| Messages.AdminNotifTextMatchesStoredIffTrimmed | src/models/message.js:41-59 | for every non-blank text, the notification's text equals the text a user's send stores exactly when the text is already trimmed |
| Messages.AdminNotifAllowsBlank | src/models/message.js:41-59 | for every blank text, a notification is still made with that text, while a user's send returns nothing and leaves the store unchanged |

## Left out

- Room registry, sessions, active-room ordering and the socket handlers: their source is not part of this model. Only tests refer to them, so they are not modelled from test assertions.
- Profanity filtering: it happens in code that is not part of this model, not in `generateMessage`. The integration test (src/tests/integration/app.socket.db.test.js:288-303) expects `'damn'` not to be saved, but `message.js` itself stores any non-blank text, and the model follows `message.js`.
- Mongoose itself: schema and model registration, the `sender`/`chatroom` `required` validators (the model's ids are always present), ObjectId generation (a counter in `Store`), and the database round trip of `create`/`execPopulate`.
- The clock: `new Date().getTime()` and the schema's timestamps are the `now` parameter. Stored dates and notification numbers are both milliseconds here.
- Asynchrony: `await`s run in order. No other write can happen between the insert and the populate.
- Text holding lone UTF-16 surrogates: JavaScript strings may contain them, but a Dafny `string` holds only Unicode scalar values, so such text is not modelled (trimming would leave the surrogates untouched).
- Non-string `text`: calling `trim` on something that is not a string throws in JavaScript. The model's `text` is always a string.
- The user document: its schema is not part of this model. `User` carries only what the message rules read: the id, email, username and room. The model assumes every user document has an email: `GeneratedReplyIsWireShaped` tells a user's reply from an Admin notification only by that email, so a user named "Admin" without an email is not covered.
- `src/router/room.js`, `public/js/chat/chat-utils.js`, `public/js/common/common-fetch.js`, the browser tests and `jest.config.js`: HTTP plumbing, DOM handling, network wrappers and test configuration.
