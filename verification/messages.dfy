/** The message rules of the chat server: how a chat message is validated,
    stored and turned into the shape sent to clients, and how the server's
    own "Admin" notifications are built. The document store, the populate
    step and the clock are passed in as plain values. */
module Messages {
  import opened Wrappers
  import opened Text

  /** Document ids (MongoDB ObjectIds) and times in milliseconds. */
  type ObjectId = nat
  type Timestamp = int

  /** A user document, as the message rules see it. */
  datatype User = User(id: ObjectId, email: string, username: string, chatroom: ObjectId)

  /** A stored message document: its id, the sender's and room's ids, the
      text, and the two timestamps the schema adds. */
  datatype StoredMessage = StoredMessage(
    id: ObjectId,
    sender: ObjectId,
    chatroom: ObjectId,
    text: string,
    createdAt: Timestamp,
    updatedAt: Timestamp)

  /** The message collection: its documents in insertion order, and the id
      the next inserted document receives. */
  datatype Store = Store(messages: seq<StoredMessage>, nextId: ObjectId)

  /** A successful insertion: the new document and the store holding it. */
  datatype Inserted = Inserted(message: StoredMessage, store: Store)

  /** Why an operation fails: the schema's validator refused a field, or a
      property was read from a `null` sender. */
  datatype Error = ValidationError(path: string) | NullSender

  /** The sender sub-document of a message once it has been read back:
      each field may be absent (`undefined`). */
  datatype SenderView = SenderView(id: Option<ObjectId>, email: Option<string>, username: Option<string>)

  /** Any message-shaped object handed to the cleanup: a populated stored
      message, or an already cleaned one. `sender` is `None` when populate
      found no user (`null`). */
  datatype MessageView = MessageView(
    id: Option<ObjectId>,
    sender: Option<SenderView>,
    chatroom: Option<ObjectId>,
    text: string,
    createdAt: Timestamp,
    updatedAt: Option<Timestamp>)

  /** The wire shape of a message: `{sender: {email, username}, text, createdAt}`. */
  datatype CleanSender = CleanSender(email: Option<string>, username: Option<string>)
  datatype CleanMessage = CleanMessage(sender: CleanSender, text: string, createdAt: Timestamp)

  /** A server notification, never stored. The room reference is whatever
      the caller passes. */
  datatype AdminNotif<R> = AdminNotif(sender: CleanSender, chatroom: R, text: string, createdAt: Timestamp)

  /** The outcome of `GenerateMessage`: what the call resolves to (nothing
      for blank text, the cleaned message, or a rejection) and the store
      after the call. */
  datatype Generated = Generated(reply: Result<Option<CleanMessage>, Error>, store: Store)

  const AdminName: string := "Admin"

  // ---------------------------------------------------------------------
  // Schema

  /** What the schema demands of a stored message's text: present (non-empty)
      and trimmed. */
  predicate WellFormed(m: StoredMessage)
  {
    m.text != [] && Trimmed(m.text)
  }

  /** The store holds only well-formed messages, with increasing ids all
      below `nextId`. */
  predicate ValidStore(st: Store)
  {
    && (forall i :: 0 <= i < |st.messages| ==> WellFormed(st.messages[i]) && st.messages[i].id < st.nextId)
    && (forall i, j :: 0 <= i < j < |st.messages| ==> st.messages[i].id < st.messages[j].id)
  }

  /** Inserting a message document: the schema's setter trims `text`, the
      `required` validator refuses the empty result, and on success the
      document gets a fresh id and `createdAt == updatedAt == now`. */
  function Create(st: Store, sender: ObjectId, chatroom: ObjectId, text: string, now: Timestamp)
    : (r: Result<Inserted, Error>)
    ensures r.Success? <==> !AllWhitespace(text)
    ensures r.Failure? ==> r.error == ValidationError("text")
    ensures r.Success? ==>
      && r.value.message == StoredMessage(st.nextId, sender, chatroom, Trim(text), now, now)
      && WellFormed(r.value.message)
      && r.value.store == Store(st.messages + [r.value.message], st.nextId + 1)
  {
    var stored := Trim(text);
    if stored == [] then
      Failure(ValidationError("text"))
    else
      var m := StoredMessage(st.nextId, sender, chatroom, stored, now, now);
      Success(Inserted(m, Store(st.messages + [m], st.nextId + 1)))
  }

  /** Every successful insertion keeps the store valid: the schema's text
      constraint holds of every message ever stored. */
  lemma CreatePreservesValid(st: Store, sender: ObjectId, chatroom: ObjectId, text: string, now: Timestamp)
    requires ValidStore(st)
    ensures Create(st, sender, chatroom, text, now).Success? ==>
      ValidStore(Create(st, sender, chatroom, text, now).value.store)
  {
  }

  /** Inserting text that is already trimmed and not empty always passes the
      schema's validation and stores that text as it is. */
  lemma CreateTrimmedSucceeds(st: Store, sender: ObjectId, chatroom: ObjectId, t: string, now: Timestamp)
    requires Trimmed(t) && t != []
    ensures Create(st, sender, chatroom, t, now).Success?
    ensures Create(st, sender, chatroom, t, now).value.message == StoredMessage(st.nextId, sender, chatroom, t, now, now)
  {
    TrimFixedPoint(t);
    assert !AllWhitespace(t) by { assert !IsWhitespace(t[0]); }
  }

  // ---------------------------------------------------------------------
  // Reading back

  /** `execPopulate('sender', 'username email')`: the sender id is replaced
      by the user's id, username and email, or by `null` when no user has
      that id. */
  function Populate(m: StoredMessage, users: map<ObjectId, User>): (v: MessageView)
    ensures v.sender.Some? <==> m.sender in users
    ensures m.sender in users ==>
      v.sender.value == SenderView(Some(m.sender), Some(users[m.sender].email), Some(users[m.sender].username))
    ensures v.id == Some(m.id) && v.chatroom == Some(m.chatroom) && v.updatedAt == Some(m.updatedAt)
    ensures v.text == m.text && v.createdAt == m.createdAt
  {
    var sender :=
      if m.sender in users then
        var u := users[m.sender];
        Some(SenderView(Some(m.sender), Some(u.email), Some(u.username)))
      else None;
    MessageView(Some(m.id), sender, Some(m.chatroom), m.text, m.createdAt, Some(m.updatedAt))
  }

  /** The part of a message that reaches the wire. */
  predicate SameWireFields(a: MessageView, b: MessageView)
  {
    && a.sender.Some? == b.sender.Some?
    && (a.sender.Some? ==>
          a.sender.value.email == b.sender.value.email && a.sender.value.username == b.sender.value.username)
    && a.text == b.text
    && a.createdAt == b.createdAt
  }

  /** A cleaned message, seen again as a message-shaped object: every field
      outside the wire shape is absent. */
  function AsView(c: CleanMessage): (v: MessageView)
    ensures v.id.None? && v.chatroom.None? && v.updatedAt.None?
    ensures v.sender.Some? && v.sender.value.id.None?
  {
    MessageView(None, Some(SenderView(None, c.sender.email, c.sender.username)), None, c.text, c.createdAt, None)
  }

  /** `dataCleanup`: projects a message onto its wire shape, copying the
      sender's email and username, the text and `createdAt` unchanged.
      Reading the fields of a `null` sender throws. */
  function DataCleanup(m: MessageView): (r: Result<CleanMessage, Error>)
    ensures r.Failure? <==> m.sender.None?
    ensures r.Failure? ==> r.error == NullSender
    ensures r.Success? ==>
      && r.value.sender.email == m.sender.value.email
      && r.value.sender.username == m.sender.value.username
      && r.value.text == m.text
      && r.value.createdAt == m.createdAt
  {
    match m.sender
    case None => Failure(NullSender)
    case Some(s) => Success(CleanMessage(CleanSender(s.email, s.username), m.text, m.createdAt))
  }

  /** Nothing but the wire fields matters to `DataCleanup`: ids, the room,
      `updatedAt` and the sender's id are dropped. */
  lemma DataCleanupDropsOtherFields(a: MessageView, b: MessageView)
    requires SameWireFields(a, b)
    ensures DataCleanup(a) == DataCleanup(b)
  {
  }

  /** A cleaned message is a fixed point: cleaning it again gives it back. */
  lemma DataCleanupRoundTrip(c: CleanMessage)
    ensures DataCleanup(AsView(c)) == Success(c)
  {
  }

  /** `DataCleanup` is idempotent. */
  lemma DataCleanupIdempotent(m: MessageView)
    requires m.sender.Some?
    ensures DataCleanup(AsView(DataCleanup(m).value)) == DataCleanup(m)
  {
    DataCleanupRoundTrip(DataCleanup(m).value);
  }

  // ---------------------------------------------------------------------
  // Sending

  /** `generateMessage`: trims the text; blank text resolves to nothing and
      stores nothing; otherwise one message tied to the user and the user's
      own room is stored and its cleaned, populated form is returned. */
  function GenerateMessage(user: User, text: string, st: Store, users: map<ObjectId, User>, now: Timestamp)
    : (g: Generated)
    ensures g.reply == Success(None) <==> AllWhitespace(text)
    ensures AllWhitespace(text) ==> g.store == st
    ensures !AllWhitespace(text) ==>
      g.store.messages == st.messages + [StoredMessage(st.nextId, user.id, user.chatroom, Trim(text), now, now)]
    ensures !AllWhitespace(text) ==> g.store.nextId == st.nextId + 1
    ensures g.reply.Failure? <==> !AllWhitespace(text) && user.id !in users
    ensures g.reply.Failure? ==> g.reply.error == NullSender
    ensures !AllWhitespace(text) && user.id in users ==>
      g.reply == Success(Some(CleanMessage(
        CleanSender(Some(users[user.id].email), Some(users[user.id].username)), Trim(text), now)))
  {
    var t := Trim(text);
    if t == [] then
      Generated(Success(None), st)
    else
      CreateTrimmedSucceeds(st, user.id, user.chatroom, t, now);
      var created := Create(st, user.id, user.chatroom, t, now);
      var m := created.value.message;
      var reply :=
        match DataCleanup(Populate(m, users))
        case Failure(e) => Failure(e)
        case Success(c) => Success(Some(c));
      Generated(reply, created.value.store)
  }

  /** Sending keeps the store valid, whatever the text: blank text stores
      nothing, and anything stored is trimmed and non-empty. */
  lemma GenerateMessagePreservesValid(user: User, text: string, st: Store, users: map<ObjectId, User>, now: Timestamp)
    requires ValidStore(st)
    ensures ValidStore(GenerateMessage(user, text, st, users, now).store)
  {
    if !AllWhitespace(text) {
      CreatePreservesValid(st, user.id, user.chatroom, Trim(text), now);
    }
  }

  /** Only the trimmed text matters: sending `text` and sending `Trim(text)`
      have the same reply and leave the same store. */
  lemma GenerateMessageSeesOnlyTrimmed(user: User, text: string, st: Store, users: map<ObjectId, User>, now: Timestamp)
    ensures GenerateMessage(user, text, st, users, now) == GenerateMessage(user, Trim(text), st, users, now)
  {
    TrimIdempotent(text);
  }

  /** White space around a message is never stored or echoed: padding a
      trimmed text on either side changes nothing. */
  lemma GenerateMessageIgnoresPadding(user: User, a: string, t: string, b: string, st: Store,
                                      users: map<ObjectId, User>, now: Timestamp)
    requires AllWhitespace(a) && AllWhitespace(b) && Trimmed(t)
    ensures GenerateMessage(user, a + t + b, st, users, now) == GenerateMessage(user, t, st, users, now)
  {
    TrimOfPadded(a, t, b);
    TrimFixedPoint(t);
    GenerateMessageSeesOnlyTrimmed(user, a + t + b, st, users, now);
  }

  /** What a successful send returns is already in wire shape (cleaning it
      again changes nothing), names a real sender email, and so can never
      be mistaken for an Admin notification's sender. */
  lemma GeneratedReplyIsWireShaped(user: User, text: string, st: Store, users: map<ObjectId, User>, now: Timestamp)
    requires GenerateMessage(user, text, st, users, now).reply.Success?
    requires GenerateMessage(user, text, st, users, now).reply.value.Some?
    ensures
      var c := GenerateMessage(user, text, st, users, now).reply.value.value;
      && DataCleanup(AsView(c)) == Success(c)
      && c.sender.email.Some?
      && c.sender != AdminSender()
  {
    DataCleanupRoundTrip(GenerateMessage(user, text, st, users, now).reply.value.value);
  }

  // ---------------------------------------------------------------------
  // Admin notifications

  /** The sender of every server notification: username "Admin", no email. */
  function AdminSender(): (s: CleanSender)
    ensures s.email.None? && s.username == Some(AdminName)
  {
    CleanSender(None, Some(AdminName))
  }

  /** `generateAdminNotif`: the sender is the Admin, the room and the text
      are passed through as given, and `createdAt` is the clock's value. */
  function GenerateAdminNotif<R>(chatroom: R, text: string, now: Timestamp): (n: AdminNotif<R>)
    ensures n.sender == AdminSender()
    ensures n.chatroom == chatroom && n.text == text && n.createdAt == now
  {
    AdminNotif(AdminSender(), chatroom, text, now)
  }

  /** A notification seen as a message-shaped object; it has no id. */
  function AdminView<R>(n: AdminNotif<R>): (v: MessageView)
    ensures v.id.None? && v.sender.Some?
  {
    MessageView(None, Some(SenderView(None, n.sender.email, n.sender.username)), None, n.text, n.createdAt, None)
  }

  /** A notification carries the same wire fields as a cleaned message:
      cleaning it would keep the Admin sender, the text and the time, and
      drop only the room. This compares shapes only: the server never passes
      a notification through `DataCleanup`, and sends it with its room and a
      numeric time, where a stored message's `createdAt` is a date. */
  lemma AdminNotifWireShape<R>(chatroom: R, text: string, now: Timestamp)
    ensures DataCleanup(AdminView(GenerateAdminNotif(chatroom, text, now)))
         == Success(CleanMessage(AdminSender(), text, now))
  {
  }

  /** Unlike a user's message, a notification keeps padded text as given,
      while the same text sent by a user is stored with the padding
      stripped. */
  lemma AdminNotifKeepsPadding<R>(user: User, a: string, t: string, b: string, st: Store,
                                  users: map<ObjectId, User>, room: R, now: Timestamp)
    requires AllWhitespace(a) && AllWhitespace(b) && Trimmed(t) && t != []
    ensures GenerateAdminNotif(room, a + t + b, now).text == a + t + b
    ensures GenerateMessage(user, a + t + b, st, users, now).store.messages
         == st.messages + [StoredMessage(st.nextId, user.id, user.chatroom, t, now, now)]
  {
    TrimOfPadded(a, t, b);
    assert (a + t + b)[|a|] == t[0];
  }

  /** Unlike a user's message, a notification is made even for blank text,
      which a user's send neither stores nor answers. */
  lemma AdminNotifAllowsBlank<R>(user: User, s: string, st: Store, users: map<ObjectId, User>, room: R, now: Timestamp)
    requires AllWhitespace(s)
    ensures GenerateAdminNotif(room, s, now).text == s
    ensures GenerateMessage(user, s, st, users, now) == Generated(Success(None), st)
  {
  }

  /** A notification and a user's send of the same non-blank text carry the
      same text exactly when that text is already trimmed: any surrounding
      white space survives in the notification and is stripped from the
      stored message. */
  lemma AdminNotifTextMatchesStoredIffTrimmed<R>(user: User, s: string, st: Store, users: map<ObjectId, User>,
                                                room: R, now: Timestamp)
    requires !AllWhitespace(s)
    ensures |GenerateMessage(user, s, st, users, now).store.messages| == |st.messages| + 1
    ensures GenerateAdminNotif(room, s, now).text
         == GenerateMessage(user, s, st, users, now).store.messages[|st.messages|].text
        <==> Trimmed(s)
  {
    TrimFixedPoint(s);
  }
}
