/** The shared record types, their column defaults, and the request
    validators the server applies (`loginSchema`, `insertEmailSchema`,
    `insertVoiceCommandSchema`). Timestamps are milliseconds since the epoch;
    a nullable text column is an `Option<string>`. */
module Schema {
  import opened Wrappers

  /** One member of a JSON request body as the server receives it:
      missing, `null`, a boolean, a number, a string, or an array/object. */
  datatype Value = Absent | Null | Bool(b: bool) | Num(n: real) | Str(s: string) | Composite

  /** JavaScript truthiness of a member (`!v` is its negation). */
  predicate Truthy(v: Value) {
    match v
    case Absent => false
    case Null => false
    case Bool(b) => b
    case Num(n) => n != 0.0
    case Str(s) => s != ""
    case Composite => true
  }

  datatype User = User(
    id: string, username: string, email: string,
    pin: Option<string>, voicePrintData: Option<string>,
    preferredVoice: string, voiceSpeed: int, preferredLanguage: string,
    createdAt: int)

  datatype Email = Email(
    id: string, userId: string,
    sender: string, senderEmail: string, recipient: string, recipientEmail: string,
    subject: string, body: string,
    isRead: bool, isPriority: bool, isDraft: bool, isInbox: bool, isSent: bool,
    timestamp: int)

  datatype VoiceCommand = VoiceCommand(
    id: string, userId: string, command: string, action: string,
    isCustom: bool, createdAt: int)

  // Column defaults of the `users`, `emails` and `voice_commands` tables.
  const PreferredVoiceDefault: string := "default"
  const VoiceSpeedDefault: int := 1
  const PreferredLanguageDefault: string := "en-US"
  const IsReadDefault := false
  const IsPriorityDefault := false
  const IsDraftDefault := false
  const IsInboxDefault := true
  const IsSentDefault := false
  const IsCustomDefault := false

  /** A new user as the storage layer receives it; `None` is `null` or omitted. */
  datatype InsertUser = InsertUser(
    username: string, email: string,
    pin: Option<string>, voicePrintData: Option<string>,
    preferredVoice: Option<string>, voiceSpeed: Option<int>, preferredLanguage: Option<string>)

  /** A validated new email: the caller cannot supply `id` or `timestamp`. */
  datatype InsertEmail = InsertEmail(
    userId: string,
    sender: string, senderEmail: string, recipient: string, recipientEmail: string,
    subject: string, body: string,
    isRead: Option<bool>, isPriority: Option<bool>, isDraft: Option<bool>,
    isInbox: Option<bool>, isSent: Option<bool>)

  datatype InsertVoiceCommand = InsertVoiceCommand(
    userId: string, command: string, action: string, isCustom: Option<bool>)

  datatype LoginCredentials = LoginCredentials(
    username: string, pin: Option<string>, voicePrintData: Option<string>)

  /** Request bodies, one `Value` per member the schema looks at. */
  datatype LoginBody = LoginBody(username: Value, pin: Value, voicePrintData: Value)

  datatype EmailBody = EmailBody(
    id: Value, userId: Value,
    sender: Value, senderEmail: Value, recipient: Value, recipientEmail: Value,
    subject: Value, body: Value,
    isRead: Value, isPriority: Value, isDraft: Value, isInbox: Value, isSent: Value,
    timestamp: Value)

  datatype VoiceCommandBody = VoiceCommandBody(
    id: Value, userId: Value, command: Value, action: Value, isCustom: Value, createdAt: Value)

  /** The members that failed validation, in declaration order. */
  type Issues = seq<string>

  function Check(ok: bool, member: string): Issues {
    if ok then [] else [member]
  }

  /** A required string of at least `min` characters. */
  predicate StringOk(v: Value, min: nat) {
    v.Str? && |v.s| >= min
  }

  /** An optional string of at least `min` characters: omitted, or a long
      enough string (not `null`). */
  predicate OptionalStringOk(v: Value, min: nat) {
    v.Absent? || StringOk(v, min)
  }

  /** A nullable, defaulted boolean column of an insert schema. */
  predicate NullableBoolOk(v: Value) {
    v.Absent? || v.Null? || v.Bool?
  }

  function OptionalString(v: Value): Option<string> {
    if v.Str? then Some(v.s) else None
  }

  function NullableBool(v: Value): Option<bool> {
    if v.Bool? then Some(v.b) else None
  }

  /** A parsed flag is supplied exactly when the member was a boolean, and then carries it. */
  predicate FlagFrom(o: Option<bool>, v: Value) {
    (o.Some? <==> v.Bool?) && (v.Bool? ==> o.value == v.b)
  }

  /** `loginSchema.parse`: the username is a non-empty string, the PIN is
      omitted or at least four characters, the voice print is omitted or a
      string. */
  function ParseLogin(b: LoginBody): (r: Result<LoginCredentials, Issues>)
    ensures r.Success? <==>
      && b.username.Str? && |b.username.s| >= 1
      && (b.pin.Absent? || (b.pin.Str? && |b.pin.s| >= 4))
      && (b.voicePrintData.Absent? || b.voicePrintData.Str?)
    ensures r.Success? ==>
      && r.value.username == b.username.s && r.value.username != ""
      && (r.value.pin.None? <==> b.pin.Absent?)
      && (r.value.pin.Some? ==> r.value.pin.value == b.pin.s && |r.value.pin.value| >= 4)
      && (r.value.voicePrintData.Some? <==> b.voicePrintData.Str?)
    ensures r.Failure? ==> r.error != []
  {
    var issues :=
      Check(StringOk(b.username, 1), "username") +
      Check(OptionalStringOk(b.pin, 4), "pin") +
      Check(OptionalStringOk(b.voicePrintData, 0), "voicePrintData");
    if issues == [] then
      Success(LoginCredentials(b.username.s, OptionalString(b.pin), OptionalString(b.voicePrintData)))
    else
      Failure(issues)
  }

  predicate EmailBodyOk(b: EmailBody) {
    && StringOk(b.userId, 0) && StringOk(b.sender, 0) && StringOk(b.senderEmail, 0)
    && StringOk(b.recipient, 0) && StringOk(b.recipientEmail, 0)
    && StringOk(b.subject, 0) && StringOk(b.body, 0)
    && NullableBoolOk(b.isRead) && NullableBoolOk(b.isPriority) && NullableBoolOk(b.isDraft)
    && NullableBoolOk(b.isInbox) && NullableBoolOk(b.isSent)
  }

  /** `insertEmailSchema.parse`: the seven text members are required strings,
      the five flags may be omitted or `null`, and `id`/`timestamp` are
      stripped rather than accepted. */
  function ParseInsertEmail(b: EmailBody): (r: Result<InsertEmail, Issues>)
    ensures r.Success? <==> EmailBodyOk(b)
    ensures r.Success? ==>
      && r.value.userId == b.userId.s && r.value.sender == b.sender.s
      && r.value.senderEmail == b.senderEmail.s && r.value.recipient == b.recipient.s
      && r.value.recipientEmail == b.recipientEmail.s
      && r.value.subject == b.subject.s && r.value.body == b.body.s
    ensures r.Success? ==>
      && FlagFrom(r.value.isRead, b.isRead) && FlagFrom(r.value.isPriority, b.isPriority)
      && FlagFrom(r.value.isDraft, b.isDraft) && FlagFrom(r.value.isInbox, b.isInbox)
      && FlagFrom(r.value.isSent, b.isSent)
    ensures r.Failure? ==> r.error != []
  {
    var issues :=
      Check(StringOk(b.userId, 0), "userId") +
      Check(StringOk(b.sender, 0), "sender") +
      Check(StringOk(b.senderEmail, 0), "senderEmail") +
      Check(StringOk(b.recipient, 0), "recipient") +
      Check(StringOk(b.recipientEmail, 0), "recipientEmail") +
      Check(StringOk(b.subject, 0), "subject") +
      Check(StringOk(b.body, 0), "body") +
      Check(NullableBoolOk(b.isRead), "isRead") +
      Check(NullableBoolOk(b.isPriority), "isPriority") +
      Check(NullableBoolOk(b.isDraft), "isDraft") +
      Check(NullableBoolOk(b.isInbox), "isInbox") +
      Check(NullableBoolOk(b.isSent), "isSent");
    if issues == [] then
      Success(InsertEmail(
        b.userId.s, b.sender.s, b.senderEmail.s, b.recipient.s, b.recipientEmail.s,
        b.subject.s, b.body.s,
        NullableBool(b.isRead), NullableBool(b.isPriority), NullableBool(b.isDraft),
        NullableBool(b.isInbox), NullableBool(b.isSent)))
    else
      Failure(issues)
  }

  /** Whatever the caller puts in `id` and `timestamp` has no effect. */
  lemma ParseInsertEmailIgnoresIdAndTimestamp(b: EmailBody, id: Value, timestamp: Value)
    ensures ParseInsertEmail(b.(id := id, timestamp := timestamp)) == ParseInsertEmail(b)
  {
  }

  /** A body without a string `subject` is rejected, and the issue names it. */
  lemma {:induction false} MissingSubjectRejected(b: EmailBody)
    requires !b.subject.Str?
    ensures ParseInsertEmail(b).Failure?
    ensures "subject" in ParseInsertEmail(b).error
  {
    var prefix :=
      Check(StringOk(b.userId, 0), "userId") +
      Check(StringOk(b.sender, 0), "sender") +
      Check(StringOk(b.senderEmail, 0), "senderEmail") +
      Check(StringOk(b.recipient, 0), "recipient") +
      Check(StringOk(b.recipientEmail, 0), "recipientEmail");
    assert ParseInsertEmail(b).error[|prefix|] == "subject";
  }

  /** `insertVoiceCommandSchema.parse`. */
  function ParseInsertVoiceCommand(b: VoiceCommandBody): (r: Result<InsertVoiceCommand, Issues>)
    ensures r.Success? <==>
      StringOk(b.userId, 0) && StringOk(b.command, 0) && StringOk(b.action, 0) && NullableBoolOk(b.isCustom)
    ensures r.Success? ==>
      && r.value.userId == b.userId.s && r.value.command == b.command.s && r.value.action == b.action.s
      && FlagFrom(r.value.isCustom, b.isCustom)
    ensures r.Failure? ==> r.error != []
  {
    var issues :=
      Check(StringOk(b.userId, 0), "userId") +
      Check(StringOk(b.command, 0), "command") +
      Check(StringOk(b.action, 0), "action") +
      Check(NullableBoolOk(b.isCustom), "isCustom");
    if issues == [] then
      Success(InsertVoiceCommand(b.userId.s, b.command.s, b.action.s, NullableBool(b.isCustom)))
    else
      Failure(issues)
  }
}
