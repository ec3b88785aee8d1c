/** The server's in-memory store (`MemStorage`): three maps keyed by id, for
    users, emails and voice commands. Ids (`randomUUID()`) and clock readings
    (`new Date()`, `Date.now()`) are parameters; a fresh id is one the map
    does not hold. */
module Storage {
  import opened Wrappers
  import opened Schema
  import opened Ordering

  const DemoUserId := "demo-user"

  /** `Partial<User>`: each member is either left alone (`None`) or replaced. */
  datatype UserPatch = UserPatch(
    id: Option<string>, username: Option<string>, email: Option<string>,
    pin: Option<Option<string>>, voicePrintData: Option<Option<string>>,
    preferredVoice: Option<string>, voiceSpeed: Option<int>, preferredLanguage: Option<string>,
    createdAt: Option<int>)

  /** `Partial<Email>`. */
  datatype EmailPatch = EmailPatch(
    id: Option<string>, userId: Option<string>,
    sender: Option<string>, senderEmail: Option<string>,
    recipient: Option<string>, recipientEmail: Option<string>,
    subject: Option<string>, body: Option<string>,
    isRead: Option<bool>, isPriority: Option<bool>, isDraft: Option<bool>,
    isInbox: Option<bool>, isSent: Option<bool>,
    timestamp: Option<int>)

  const NoEmailChanges := EmailPatch(None, None, None, None, None, None, None, None,
                                     None, None, None, None, None, None)

  /** The `{ isRead: true }` update the single-email route applies. */
  const MarkRead := NoEmailChanges.(isRead := Some(true))

  function Pick<T>(o: Option<T>, current: T): T {
    if o.Some? then o.value else current
  }

  /** `after` is what a spread of an update leaves in one member: the
      supplied value, or `before` when the update omits the member. */
  predicate Updated<T(==)>(supplied: Option<T>, before: T, after: T) {
    match supplied
    case Some(v) => after == v
    case None => after == before
  }

  /** A shallow merge: each member the update supplies replaces the user's. */
  function MergeUser(u: User, p: UserPatch): (r: User)
    ensures Updated(p.id, u.id, r.id) && Updated(p.username, u.username, r.username)
    ensures Updated(p.email, u.email, r.email) && Updated(p.pin, u.pin, r.pin)
    ensures Updated(p.voicePrintData, u.voicePrintData, r.voicePrintData)
    ensures Updated(p.preferredVoice, u.preferredVoice, r.preferredVoice)
    ensures Updated(p.voiceSpeed, u.voiceSpeed, r.voiceSpeed)
    ensures Updated(p.preferredLanguage, u.preferredLanguage, r.preferredLanguage)
    ensures Updated(p.createdAt, u.createdAt, r.createdAt)
  {
    User(Pick(p.id, u.id), Pick(p.username, u.username), Pick(p.email, u.email),
         Pick(p.pin, u.pin), Pick(p.voicePrintData, u.voicePrintData),
         Pick(p.preferredVoice, u.preferredVoice), Pick(p.voiceSpeed, u.voiceSpeed),
         Pick(p.preferredLanguage, u.preferredLanguage), Pick(p.createdAt, u.createdAt))
  }

  /** A shallow merge: each member the update supplies replaces the email's. */
  function MergeEmail(e: Email, p: EmailPatch): (r: Email)
    ensures Updated(p.id, e.id, r.id) && Updated(p.userId, e.userId, r.userId)
    ensures Updated(p.sender, e.sender, r.sender) && Updated(p.senderEmail, e.senderEmail, r.senderEmail)
    ensures Updated(p.recipient, e.recipient, r.recipient)
    ensures Updated(p.recipientEmail, e.recipientEmail, r.recipientEmail)
    ensures Updated(p.subject, e.subject, r.subject) && Updated(p.body, e.body, r.body)
    ensures Updated(p.isRead, e.isRead, r.isRead) && Updated(p.isPriority, e.isPriority, r.isPriority)
    ensures Updated(p.isDraft, e.isDraft, r.isDraft) && Updated(p.isInbox, e.isInbox, r.isInbox)
    ensures Updated(p.isSent, e.isSent, r.isSent) && Updated(p.timestamp, e.timestamp, r.timestamp)
  {
    Email(Pick(p.id, e.id), Pick(p.userId, e.userId),
          Pick(p.sender, e.sender), Pick(p.senderEmail, e.senderEmail),
          Pick(p.recipient, e.recipient), Pick(p.recipientEmail, e.recipientEmail),
          Pick(p.subject, e.subject), Pick(p.body, e.body),
          Pick(p.isRead, e.isRead), Pick(p.isPriority, e.isPriority), Pick(p.isDraft, e.isDraft),
          Pick(p.isInbox, e.isInbox), Pick(p.isSent, e.isSent),
          Pick(p.timestamp, e.timestamp))
  }

  /** Applying `q` after `p`: a member `q` supplies wins, otherwise `p`'s. */
  function ThenEmailPatch(p: EmailPatch, q: EmailPatch): EmailPatch {
    EmailPatch(
      if q.id.Some? then q.id else p.id, if q.userId.Some? then q.userId else p.userId,
      if q.sender.Some? then q.sender else p.sender,
      if q.senderEmail.Some? then q.senderEmail else p.senderEmail,
      if q.recipient.Some? then q.recipient else p.recipient,
      if q.recipientEmail.Some? then q.recipientEmail else p.recipientEmail,
      if q.subject.Some? then q.subject else p.subject, if q.body.Some? then q.body else p.body,
      if q.isRead.Some? then q.isRead else p.isRead,
      if q.isPriority.Some? then q.isPriority else p.isPriority,
      if q.isDraft.Some? then q.isDraft else p.isDraft,
      if q.isInbox.Some? then q.isInbox else p.isInbox,
      if q.isSent.Some? then q.isSent else p.isSent,
      if q.timestamp.Some? then q.timestamp else p.timestamp)
  }

  /** An empty update changes nothing. */
  lemma MergeNothingIsIdentity(e: Email)
    ensures MergeEmail(e, NoEmailChanges) == e
  {
  }

  /** Two successive shallow merges are one merge of the combined update. */
  lemma MergeEmailThen(e: Email, p: EmailPatch, q: EmailPatch)
    ensures MergeEmail(MergeEmail(e, p), q) == MergeEmail(e, ThenEmailPatch(p, q))
  {
  }

  /** Re-applying an update changes nothing more. */
  lemma MergeEmailIdempotent(e: Email, p: EmailPatch)
    ensures MergeEmail(MergeEmail(e, p), p) == MergeEmail(e, p)
  {
    MergeEmailThen(e, p, p);
    assert ThenEmailPatch(p, p) == p;
  }

  /** The mark-read update changes only `isRead`. */
  lemma MarkReadOnlySetsRead(e: Email)
    ensures MergeEmail(e, MarkRead) == e.(isRead := true)
  {
  }

  /** Defaulting with `||` for an optional string: `null`, omitted and `""` fall back. */
  function NonEmptyOr(o: Option<string>, fallback: string): (r: string)
    ensures o.Some? && o.value != "" ==> r == o.value
    ensures o.None? || o.value == "" ==> r == fallback
  {
    if o.Some? && o.value != "" then o.value else fallback
  }

  /** The user `createUser` stores: falsy `pin`/`voicePrintData` become
      `null`, falsy preferences take the demo defaults (so `""` and `0` are
      replaced too). */
  function NewUser(id: string, now: int, ins: InsertUser): (u: User)
    ensures u.id == id && u.createdAt == now
    ensures u.username == ins.username && u.email == ins.email
    ensures u.pin.Some? <==> ins.pin.Some? && ins.pin.value != ""
    ensures u.pin.Some? ==> u.pin == ins.pin
    ensures u.voicePrintData.Some? <==> ins.voicePrintData.Some? && ins.voicePrintData.value != ""
    ensures u.voicePrintData.Some? ==> u.voicePrintData == ins.voicePrintData
    ensures u.preferredVoice == NonEmptyOr(ins.preferredVoice, "default")
    ensures ins.voiceSpeed.None? || ins.voiceSpeed.value == 0 ==> u.voiceSpeed == 1
    ensures ins.voiceSpeed.Some? && ins.voiceSpeed.value != 0 ==> u.voiceSpeed == ins.voiceSpeed.value
    ensures u.preferredLanguage == NonEmptyOr(ins.preferredLanguage, "en-US")
  {
    User(id, ins.username, ins.email,
         if ins.pin.Some? && ins.pin.value != "" then ins.pin else None,
         if ins.voicePrintData.Some? && ins.voicePrintData.value != "" then ins.voicePrintData else None,
         NonEmptyOr(ins.preferredVoice, "default"),
         if ins.voiceSpeed.Some? && ins.voiceSpeed.value != 0 then ins.voiceSpeed.value else 1,
         NonEmptyOr(ins.preferredLanguage, "en-US"),
         now)
  }

  /** The storage layer's substitutes for omitted preferences are the
      `users` table's column defaults. */
  lemma UserDefaultsAgreeWithColumns(id: string, now: int, ins: InsertUser)
    requires ins.preferredVoice.None? && ins.voiceSpeed.None? && ins.preferredLanguage.None?
    ensures NewUser(id, now, ins).preferredVoice == PreferredVoiceDefault
    ensures NewUser(id, now, ins).voiceSpeed == VoiceSpeedDefault
    ensures NewUser(id, now, ins).preferredLanguage == PreferredLanguageDefault
  {
  }

  /** The email `createEmail` stores: an omitted (or `null`) flag takes its
      default, a supplied one is kept. */
  function NewEmail(id: string, now: int, ins: InsertEmail): (e: Email)
    ensures e.id == id && e.timestamp == now
    ensures e.userId == ins.userId && e.sender == ins.sender && e.senderEmail == ins.senderEmail
    ensures e.recipient == ins.recipient && e.recipientEmail == ins.recipientEmail
    ensures e.subject == ins.subject && e.body == ins.body
    ensures ins.isRead.None? ==> !e.isRead
    ensures ins.isPriority.None? ==> !e.isPriority
    ensures ins.isDraft.None? ==> !e.isDraft
    ensures ins.isInbox.None? ==> e.isInbox
    ensures ins.isSent.None? ==> !e.isSent
    ensures ins.isRead.Some? ==> e.isRead == ins.isRead.value
    ensures ins.isPriority.Some? ==> e.isPriority == ins.isPriority.value
    ensures ins.isDraft.Some? ==> e.isDraft == ins.isDraft.value
    ensures ins.isInbox.Some? ==> e.isInbox == ins.isInbox.value
    ensures ins.isSent.Some? ==> e.isSent == ins.isSent.value
  {
    Email(id, ins.userId, ins.sender, ins.senderEmail, ins.recipient, ins.recipientEmail,
          ins.subject, ins.body,
          ins.isRead.GetOr(false), ins.isPriority.GetOr(false), ins.isDraft.GetOr(false),
          ins.isInbox.GetOr(true), ins.isSent.GetOr(false),
          now)
  }

  /** The storage layer's flag defaults are the `emails` table's column defaults. */
  lemma EmailDefaultsAgreeWithColumns(id: string, now: int, ins: InsertEmail)
    requires ins.isRead.None? && ins.isPriority.None? && ins.isDraft.None?
    requires ins.isInbox.None? && ins.isSent.None?
    ensures NewEmail(id, now, ins).isRead == IsReadDefault
    ensures NewEmail(id, now, ins).isPriority == IsPriorityDefault
    ensures NewEmail(id, now, ins).isDraft == IsDraftDefault
    ensures NewEmail(id, now, ins).isInbox == IsInboxDefault
    ensures NewEmail(id, now, ins).isSent == IsSentDefault
  {
  }

  /** The command `createVoiceCommand` stores: an omitted `isCustom` means a
      user-defined command. */
  function NewVoiceCommand(id: string, now: int, ins: InsertVoiceCommand): (c: VoiceCommand)
    ensures c.id == id && c.createdAt == now
    ensures c.userId == ins.userId && c.command == ins.command && c.action == ins.action
    ensures ins.isCustom.None? ==> c.isCustom
    ensures ins.isCustom.Some? ==> c.isCustom == ins.isCustom.value
  {
    VoiceCommand(id, ins.userId, ins.command, ins.action, ins.isCustom.GetOr(true), now)
  }

  /** Unlike the email flags, the storage default for `isCustom` is not the
      `voice_commands` column default. */
  lemma CommandDefaultDiffersFromColumn(id: string, now: int, ins: InsertVoiceCommand)
    requires ins.isCustom.None?
    ensures NewVoiceCommand(id, now, ins).isCustom != IsCustomDefault
  {
  }

  predicate UserKeysAreIds(m: map<string, User>) {
    forall k :: k in m ==> m[k].id == k
  }

  predicate EmailKeysAreIds(m: map<string, Email>) {
    forall k :: k in m ==> m[k].id == k
  }

  predicate CommandKeysAreIds(m: map<string, VoiceCommand>) {
    forall k :: k in m ==> m[k].id == k
  }

  /** The email map after `updateEmail(id, p)`. */
  function EmailsAfterUpdate(m: map<string, Email>, id: string, p: EmailPatch): (r: map<string, Email>)
    ensures r.Keys == m.Keys
    ensures forall k :: k in m && k != id ==> r[k] == m[k]
    ensures id in m ==> r[id] == MergeEmail(m[id], p)
  {
    if id in m then m[id := MergeEmail(m[id], p)] else m
  }

  /** An update that does not touch `id` keeps every record under its own id. */
  lemma UpdateKeepsKeysAreIds(m: map<string, Email>, id: string, p: EmailPatch)
    requires EmailKeysAreIds(m)
    requires p.id.None? || p.id == Some(id)
    ensures EmailKeysAreIds(EmailsAfterUpdate(m, id, p))
  {
  }

  /** Whether `e` belongs in `userId`'s inbox listing. */
  predicate InInbox(e: Email, userId: string) {
    e.userId == userId && e.isInbox
  }

  function Stamp(e: Email): int { e.timestamp }

  /** The keys among `ks` under which `m` holds exactly `x`. */
  ghost function KeysHolding<T>(m: map<string, T>, ks: set<string>, x: T): set<string> {
    set k | k in ks && k in m && m[k] == x
  }

  lemma KeysHoldingStep<T>(m: map<string, T>, done: set<string>, k: string, x: T)
    requires k in m && k !in done
    ensures |KeysHolding(m, done + {k}, x)| == |KeysHolding(m, done, x)| + (if m[k] == x then 1 else 0)
  {
    if m[k] == x {
      assert KeysHolding(m, done + {k}, x) == KeysHolding(m, done, x) + {k};
    } else {
      assert KeysHolding(m, done + {k}, x) == KeysHolding(m, done, x);
    }
  }

  /** `r` holds each inbox email of `userId` stored under the keys `ks` as
      often as it is stored there, and nothing else. */
  ghost predicate HoldsInbox(m: map<string, Email>, ks: set<string>, userId: string, r: seq<Email>) {
    forall e :: multiset(r)[e] == (if InInbox(e, userId) then |KeysHolding(m, ks, e)| else 0)
  }

  /** `r` lists the stored emails of `userId`'s inbox, newest first. */
  ghost predicate InboxListing(m: map<string, Email>, userId: string, r: seq<Email>) {
    NewestFirst(r, Stamp) && HoldsInbox(m, m.Keys, userId, r)
  }

  /** `r` holds each command of `userId` stored under the keys `ks` as often
      as it is stored there, and nothing else. */
  ghost predicate HoldsCommands(m: map<string, VoiceCommand>, ks: set<string>, userId: string, r: seq<VoiceCommand>) {
    forall c :: multiset(r)[c] == (if c.userId == userId then |KeysHolding(m, ks, c)| else 0)
  }

  /** With every record under its own id, an inbox listing holds each inbox
      email once and nothing else. */
  lemma InboxListingMembers(m: map<string, Email>, userId: string, r: seq<Email>, e: Email)
    requires EmailKeysAreIds(m) && InboxListing(m, userId, r)
    ensures e in r <==> e.id in m && m[e.id] == e && InInbox(e, userId)
    ensures e in r ==> multiset(r)[e] == 1
  {
    if e.id in m && m[e.id] == e {
      assert KeysHolding(m, m.Keys, e) == {e.id};
    } else {
      assert KeysHolding(m, m.Keys, e) == {};
    }
  }

  /** A list of records written into a map one by one, later ones winning. */
  function Keyed<T>(rs: seq<T>, key: T -> string): map<string, T> {
    if rs == [] then map[] else Keyed(rs[..|rs| - 1], key)[key(rs[|rs| - 1]) := rs[|rs| - 1]]
  }

  function EmailId(e: Email): string { e.id }

  function CommandId(c: VoiceCommand): string { c.id }

  const DemoAddress := "demo@vocaleyes.com"

  function DemoUser(now: int): User {
    User(DemoUserId, "demo", DemoAddress, Some("1234"), None, "default", 1, "en-US", now)
  }

  const WelcomeBody := "Hello! Welcome to Vocal Eyes, your voice-powered email system. This application is designed to be fully accessible through voice commands and audio feedback. Try saying 'compose new email' to get started, or 'help' to hear all available commands. Enjoy your accessible email experience!"

  const TipsBody := "Here are some helpful tips: 1. Speak clearly and at a moderate pace. 2. Wait for the microphone to activate before speaking. 3. Use punctuation commands like 'period', 'comma', and 'question mark' when composing emails. 4. Say 'repeat that' if you missed something. 5. You can customize voice speed and language in Settings. Happy emailing!"

  const MeetingBody := "Hi! Just a reminder that we have a meeting scheduled for tomorrow at 2 PM. Please let me know if you need to reschedule. Looking forward to discussing the project updates. Best regards, John"

  /** The three sample emails, one hour, two hours and one day old. */
  function DemoEmails(ids: seq<string>, now: int): (r: seq<Email>)
    requires |ids| == 3
    ensures |r| == 3
    ensures forall i :: 0 <= i < 3 ==> r[i].id == ids[i] && InInbox(r[i], DemoUserId)
  {
    [ Email(ids[0], DemoUserId, "Sarah Johnson", "sarah@example.com", "Demo User", DemoAddress,
            "Welcome to Vocal Eyes!",
            WelcomeBody,
            false, true, false, true, false, now - 3600000),
      Email(ids[1], DemoUserId, "Tech Support", "support@vocaleyes.com", "Demo User", DemoAddress,
            "Tips for Using Voice Commands",
            TipsBody,
            false, false, false, true, false, now - 7200000),
      Email(ids[2], DemoUserId, "John Smith", "john@example.com", "Demo User", DemoAddress,
            "Meeting Tomorrow",
            MeetingBody,
            true, false, false, true, false, now - 86400000) ]
  }

  /** The four built-in (non-custom) voice commands. */
  function DemoCommands(ids: seq<string>, now: int): (r: seq<VoiceCommand>)
    requires |ids| == 4
    ensures |r| == 4
    ensures forall i :: 0 <= i < 4 ==> r[i].id == ids[i] && !r[i].isCustom
  {
    [ VoiceCommand(ids[0], DemoUserId, "check inbox", "navigate:inbox", false, now),
      VoiceCommand(ids[1], DemoUserId, "compose email", "navigate:compose", false, now),
      VoiceCommand(ids[2], DemoUserId, "settings", "navigate:settings", false, now),
      VoiceCommand(ids[3], DemoUserId, "help", "navigate:help", false, now) ]
  }

  lemma {:induction false} KeyedHoldsAll<T>(rs: seq<T>, key: T -> string)
    requires forall i, j :: 0 <= i < j < |rs| ==> key(rs[i]) != key(rs[j])
    ensures Keyed(rs, key).Keys == set i | 0 <= i < |rs| :: key(rs[i])
    ensures forall i :: 0 <= i < |rs| ==> Keyed(rs, key)[key(rs[i])] == rs[i]
  {
    if rs != [] {
      KeyedHoldsAll(rs[..|rs| - 1], key);
    }
  }

  /** Each record written is found under its own key. */
  lemma {:induction false} KeyedUnderOwnKeys<T>(rs: seq<T>, key: T -> string)
    ensures forall k :: k in Keyed(rs, key) ==> key(Keyed(rs, key)[k]) == k
  {
    if rs != [] {
      KeyedUnderOwnKeys(rs[..|rs| - 1], key);
    }
  }

  class MemStorage {
    var users: map<string, User>
    var emails: map<string, Email>
    var voiceCommands: map<string, VoiceCommand>

    /** Every record is stored under its own id. */
    ghost predicate Valid()
      reads this
    {
      UserKeysAreIds(users) && EmailKeysAreIds(emails) && CommandKeysAreIds(voiceCommands)
    }

    /** The store seeded with the demo user, the sample emails and the
        default voice commands. */
    constructor (now: int, emailIds: seq<string>, commandIds: seq<string>)
      requires |emailIds| == 3 && |commandIds| == 4
      ensures Valid()
      ensures users == map[DemoUserId := DemoUser(now)]
      ensures emails == Keyed(DemoEmails(emailIds, now), EmailId)
      ensures voiceCommands == Keyed(DemoCommands(commandIds, now), CommandId)
    {
      users := map[];
      emails := map[];
      voiceCommands := map[];
      new;
      users := users[DemoUserId := DemoUser(now)];
      var sampleEmails := DemoEmails(emailIds, now);
      var defaultCommands := DemoCommands(commandIds, now);
      SeedEmails(sampleEmails);
      SeedCommands(defaultCommands);
      KeyedUnderOwnKeys(sampleEmails, EmailId);
      KeyedUnderOwnKeys(defaultCommands, CommandId);
    }

    /** Writes the sample emails into the empty email map, one by one. */
    method SeedEmails(records: seq<Email>)
      requires emails == map[]
      modifies this
      ensures emails == Keyed(records, EmailId)
      ensures users == old(users) && voiceCommands == old(voiceCommands)
    {
      for i := 0 to |records|
        invariant emails == Keyed(records[..i], EmailId)
        invariant users == old(users) && voiceCommands == old(voiceCommands)
      {
        assert records[..i + 1][..i] == records[..i];
        emails := emails[records[i].id := records[i]];
      }
      assert records[..|records|] == records;
    }

    /** Writes the default commands into the empty command map, one by one. */
    method SeedCommands(records: seq<VoiceCommand>)
      requires voiceCommands == map[]
      modifies this
      ensures voiceCommands == Keyed(records, CommandId)
      ensures users == old(users) && emails == old(emails)
    {
      for i := 0 to |records|
        invariant voiceCommands == Keyed(records[..i], CommandId)
        invariant users == old(users) && emails == old(emails)
      {
        assert records[..i + 1][..i] == records[..i];
        voiceCommands := voiceCommands[records[i].id := records[i]];
      }
      assert records[..|records|] == records;
    }

    method GetUser(id: string) returns (r: Option<User>)
      ensures r.Some? <==> id in users
      ensures r.Some? ==> r.value == users[id]
    {
      r := if id in users then Some(users[id]) else None;
    }

    /** Finds a stored user with that username, if there is one. */
    method GetUserByUsername(username: string) returns (r: Option<User>)
      ensures r.Some? ==> r.value in users.Values && r.value.username == username
      ensures r.None? ==> forall k :: k in users ==> users[k].username != username
    {
      var todo := users.Keys;
      while todo != {}
        invariant todo <= users.Keys
        invariant forall k :: k in users && k !in todo ==> users[k].username != username
      {
        var k :| k in todo;
        if users[k].username == username {
          return Some(users[k]);
        }
        todo := todo - {k};
      }
      return None;
    }

    method CreateUser(ins: InsertUser, id: string, now: int) returns (u: User)
      requires id !in users
      modifies this
      ensures u == NewUser(id, now, ins)
      ensures users == old(users)[id := u]
      ensures emails == old(emails) && voiceCommands == old(voiceCommands)
      ensures old(Valid()) ==> Valid()
    {
      u := NewUser(id, now, ins);
      users := users[id := u];
    }

    method UpdateUser(id: string, p: UserPatch) returns (r: Option<User>)
      modifies this
      ensures id !in old(users) ==> r.None? && users == old(users)
      ensures id in old(users) ==> r == Some(MergeUser(old(users)[id], p)) && users == old(users)[id := r.value]
      ensures emails == old(emails) && voiceCommands == old(voiceCommands)
      ensures old(Valid()) && (p.id.None? || p.id == Some(id)) ==> Valid()
    {
      if id !in users {
        return None;
      }
      var updated := MergeUser(users[id], p);
      users := users[id := updated];
      r := Some(updated);
    }

    method GetEmail(id: string) returns (r: Option<Email>)
      ensures r.Some? <==> id in emails
      ensures r.Some? ==> r.value == emails[id]
    {
      r := if id in emails then Some(emails[id]) else None;
    }

    /** The emails of `userId`'s inbox, newest first. */
    method GetEmailsByUser(userId: string) returns (r: seq<Email>)
      ensures InboxListing(emails, userId, r)
    {
      var todo := emails.Keys;
      r := [];
      while todo != {}
        invariant todo <= emails.Keys
        invariant NewestFirst(r, Stamp)
        invariant HoldsInbox(emails, emails.Keys - todo, userId, r)
      {
        var k :| k in todo;
        ghost var done := emails.Keys - todo;
        if InInbox(emails[k], userId) {
          r := InsertNewestFirst(r, emails[k], Stamp);
        }
        todo := todo - {k};
        assert emails.Keys - todo == done + {k};
        forall e ensures |KeysHolding(emails, done + {k}, e)| ==
                         |KeysHolding(emails, done, e)| + (if emails[k] == e then 1 else 0) {
          KeysHoldingStep(emails, done, k, e);
        }
      }
      assert emails.Keys - todo == emails.Keys;
    }

    method CreateEmail(ins: InsertEmail, id: string, now: int) returns (e: Email)
      requires id !in emails
      modifies this
      ensures e == NewEmail(id, now, ins)
      ensures emails == old(emails)[id := e]
      ensures users == old(users) && voiceCommands == old(voiceCommands)
      ensures old(Valid()) ==> Valid()
    {
      e := NewEmail(id, now, ins);
      emails := emails[id := e];
    }

    method UpdateEmail(id: string, p: EmailPatch) returns (r: Option<Email>)
      modifies this
      ensures r.Some? <==> id in old(emails)
      ensures r.Some? ==> r.value == MergeEmail(old(emails)[id], p)
      ensures emails == EmailsAfterUpdate(old(emails), id, p)
      ensures users == old(users) && voiceCommands == old(voiceCommands)
      ensures old(Valid()) && (p.id.None? || p.id == Some(id)) ==> Valid()
    {
      if id !in emails {
        return None;
      }
      var updated := MergeEmail(emails[id], p);
      emails := emails[id := updated];
      r := Some(updated);
    }

    method DeleteEmail(id: string) returns (existed: bool)
      modifies this
      ensures existed <==> id in old(emails)
      ensures emails == old(emails) - {id}
      ensures users == old(users) && voiceCommands == old(voiceCommands)
      ensures old(Valid()) ==> Valid()
    {
      existed := id in emails;
      emails := emails - {id};
    }

    /** The voice commands of `userId`, each as often as it is stored. */
    method GetVoiceCommandsByUser(userId: string) returns (r: seq<VoiceCommand>)
      ensures HoldsCommands(voiceCommands, voiceCommands.Keys, userId, r)
    {
      var todo := voiceCommands.Keys;
      r := [];
      while todo != {}
        invariant todo <= voiceCommands.Keys
        invariant HoldsCommands(voiceCommands, voiceCommands.Keys - todo, userId, r)
      {
        var k :| k in todo;
        ghost var done := voiceCommands.Keys - todo;
        if voiceCommands[k].userId == userId {
          r := r + [voiceCommands[k]];
        }
        todo := todo - {k};
        assert voiceCommands.Keys - todo == done + {k};
        forall c ensures |KeysHolding(voiceCommands, done + {k}, c)| ==
                         |KeysHolding(voiceCommands, done, c)| + (if voiceCommands[k] == c then 1 else 0) {
          KeysHoldingStep(voiceCommands, done, k, c);
        }
      }
      assert voiceCommands.Keys - todo == voiceCommands.Keys;
    }

    method CreateVoiceCommand(ins: InsertVoiceCommand, id: string, now: int) returns (c: VoiceCommand)
      requires id !in voiceCommands
      modifies this
      ensures c == NewVoiceCommand(id, now, ins)
      ensures voiceCommands == old(voiceCommands)[id := c]
      ensures users == old(users) && emails == old(emails)
      ensures old(Valid()) ==> Valid()
    {
      c := NewVoiceCommand(id, now, ins);
      voiceCommands := voiceCommands[id := c];
    }
  }
}
