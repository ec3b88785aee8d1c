/** The REST handlers: each turns a request and the store into a status code
    and a JSON body, mutating the store where the route does. The
    language-model collaborator is an input: `hasKey` says whether an API key
    is configured, and an `Option` result is `None` when the call threw. */
module Routes {
  import opened Wrappers
  import opened Schema
  import opened Storage

  datatype Intent = Intent(intent: string, action: string, confidence: real)

  datatype Body =
    | ErrorBody(error: string)
    | InvalidBody(error: string, details: Issues)
    | LoggedIn(user: User)
    | UserJson(user: User)
    | EmailJson(email: Email)
    | EmailsJson(emails: seq<Email>)
    | Deleted
    | IntentJson(intent: Intent)
    | SuggestionJson(suggestion: string)
    | CommandJson(command: VoiceCommand)
    | CommandsJson(commands: seq<VoiceCommand>)

  datatype Response = Response(status: int, body: Body)

  /** Whether a stored user admits credentials: the username matches and
      either no PIN was sent or it equals the stored one. */
  predicate Admits(u: User, c: LoginCredentials) {
    u.username == c.username && (c.pin.None? || u.pin == c.pin)
  }

  predicate UsernamesUnique(users: map<string, User>) {
    forall k, k' :: k in users && k' in users && users[k].username == users[k'].username ==> k == k'
  }

  /** POST /api/auth/login. */
  method Login(s: MemStorage, body: LoginBody) returns (res: Response)
    ensures ParseLogin(body).Failure? ==> res == Response(400, ErrorBody("Invalid request"))
    ensures res.status == 400 <==> ParseLogin(body).Failure?
    ensures (ParseLogin(body).Success? && forall k :: k in s.users ==> s.users[k].username != ParseLogin(body).value.username) ==>
              res == Response(401, ErrorBody("Invalid credentials"))
    ensures res.status == 200 <==> res.body.LoggedIn?
    ensures res.status == 200 ==>
              ParseLogin(body).Success? && res.body.user in s.users.Values && Admits(res.body.user, ParseLogin(body).value)
    ensures res.status in {200, 400, 401}
    ensures UsernamesUnique(s.users) && ParseLogin(body).Success? ==>
              (res.status == 200 <==> exists k :: k in s.users && Admits(s.users[k], ParseLogin(body).value))
  {
    var parsed := ParseLogin(body);
    if parsed.Failure? {
      return Response(400, ErrorBody("Invalid request"));
    }
    var credentials := parsed.value;
    var user := s.GetUserByUsername(credentials.username);
    if user.None? {
      return Response(401, ErrorBody("Invalid credentials"));
    }
    if credentials.pin.Some? && credentials.pin.value != "" && user.value.pin != credentials.pin {
      return Response(401, ErrorBody("Invalid PIN"));
    }
    res := Response(200, LoggedIn(user.value));
  }

  /** Against the seeded users, "demo" logs in with PIN "1234" or with no
      PIN, any other PIN of four or more characters is refused with 401, and
      a shorter one fails validation with 400. */
  method SeededLogin(s: MemStorage, now: int, pin: Option<string>) returns (status: int)
    requires s.users == map[DemoUserId := DemoUser(now)]
    ensures pin == Some("1234") || pin.None? ==> status == 200
    ensures pin.Some? && |pin.value| >= 4 && pin.value != "1234" ==> status == 401
    ensures pin.Some? && |pin.value| < 4 ==> status == 400
  {
    var pinValue := if pin.Some? then Str(pin.value) else Absent;
    var res := Login(s, LoginBody(Str("demo"), pinValue, Absent));
    assert s.users[DemoUserId].username == "demo";
    assert forall k :: k in s.users ==> k == DemoUserId;
    status := res.status;
  }

  /** GET /api/emails: the demo user's inbox, newest first. */
  method ListEmails(s: MemStorage) returns (res: Response)
    ensures res.status == 200 && res.body.EmailsJson?
    ensures InboxListing(s.emails, DemoUserId, res.body.emails)
  {
    var emails := s.GetEmailsByUser(DemoUserId);
    res := Response(200, EmailsJson(emails));
  }

  /** The email map after GET /api/emails/:id found `id`: the record is
      marked read through the id it carries. */
  function AfterFetch(m: map<string, Email>, id: string): (r: map<string, Email>)
    requires id in m
    ensures r.Keys == m.Keys
    ensures m[id].id in m ==> r[m[id].id] == m[m[id].id].(isRead := true)
    ensures forall k :: k in m && k != m[id].id ==> r[k] == m[k]
  {
    MarkReadOnlySetsRead(if m[id].id in m then m[m[id].id] else m[id]);
    EmailsAfterUpdate(m, m[id].id, MarkRead)
  }

  /** When every record sits under its own id, fetching marks exactly the
      requested email read; a second fetch finds it read and changes nothing. */
  lemma FetchMarksRequested(m: map<string, Email>, id: string)
    requires EmailKeysAreIds(m) && id in m
    ensures AfterFetch(m, id) == m[id := m[id].(isRead := true)]
    ensures EmailKeysAreIds(AfterFetch(m, id))
    ensures AfterFetch(m, id)[id].isRead
    ensures AfterFetch(AfterFetch(m, id), id) == AfterFetch(m, id)
  {
    MarkReadOnlySetsRead(m[id]);
  }

  /** GET /api/emails/:id: the response carries the record as it was before
      it was marked read. */
  method FetchEmail(s: MemStorage, id: string) returns (res: Response)
    modifies s
    ensures id !in old(s.emails) ==> res == Response(404, ErrorBody("Email not found")) && s.emails == old(s.emails)
    ensures id in old(s.emails) ==> res == Response(200, EmailJson(old(s.emails)[id])) && s.emails == AfterFetch(old(s.emails), id)
    ensures s.users == old(s.users) && s.voiceCommands == old(s.voiceCommands)
  {
    var email := s.GetEmail(id);
    if email.None? {
      return Response(404, ErrorBody("Email not found"));
    }
    var _ := s.UpdateEmail(email.value.id, MarkRead);
    res := Response(200, EmailJson(email.value));
  }

  /** `analyzeEmailPriority`'s verdict: the model's `isPriority || false`,
      and `false` whenever the call or the parse of its reply throws.
      `raw` is the parsed reply, `None` when anything threw. */
  function PriorityVerdict(raw: Option<bool>): (p: bool)
    ensures p <==> raw == Some(true)
  {
    raw.GetOr(false)
  }

  /** The `isPriority` stored by POST /api/emails: with a key the verdict
      of the priority analysis alone (a failed analysis gives `false`, since
      the client catches its own errors), else the request's
      `isPriority || false`. */
  function ChosenPriority(ins: InsertEmail, hasKey: bool, raw: Option<bool>): (p: bool)
    ensures hasKey ==> (p <==> raw == Some(true))
    ensures hasKey && raw.None? ==> !p
    ensures !hasKey ==> (p <==> ins.isPriority == Some(true))
  {
    var requested := ins.isPriority == Some(true);
    if hasKey then PriorityVerdict(raw) else requested
  }

  /** POST /api/emails. */
  method PostEmail(s: MemStorage, body: EmailBody, hasKey: bool, raw: Option<bool>, id: string, now: int)
    returns (res: Response)
    requires id !in s.emails
    modifies s
    ensures ParseInsertEmail(body).Failure? ==>
              res == Response(400, InvalidBody("Invalid email data", ParseInsertEmail(body).error))
              && s.emails == old(s.emails)
    ensures ParseInsertEmail(body).Success? ==>
              var ins := ParseInsertEmail(body).value;
              var e := NewEmail(id, now, ins.(isPriority := Some(ChosenPriority(ins, hasKey, raw))));
              res == Response(200, EmailJson(e)) && s.emails == old(s.emails)[id := e]
    ensures s.users == old(s.users) && s.voiceCommands == old(s.voiceCommands)
    ensures old(s.Valid()) ==> s.Valid()
  {
    var parsed := ParseInsertEmail(body);
    if parsed.Failure? {
      return Response(400, InvalidBody("Invalid email data", parsed.error));
    }
    var emailData := parsed.value;
    var isPriority := emailData.isPriority == Some(true);
    if hasKey {
      isPriority := PriorityVerdict(raw);
    }
    var email := s.CreateEmail(emailData.(isPriority := Some(isPriority)), id, now);
    res := Response(200, EmailJson(email));
  }

  /** Without a key, an email posted without `isPriority` is stored as not
      priority, whatever else it says. */
  lemma PriorityDefaultsOffWithoutKey(ins: InsertEmail, raw: Option<bool>, id: string, now: int)
    requires ins.isPriority.None?
    ensures !NewEmail(id, now, ins.(isPriority := Some(ChosenPriority(ins, false, raw)))).isPriority
  {
  }

  /** PATCH /api/emails/:id as written: the raw body is merged, `id` included. */
  method PatchEmailAsWritten(s: MemStorage, id: string, updates: EmailPatch) returns (res: Response)
    modifies s
    ensures id !in old(s.emails) ==> res == Response(404, ErrorBody("Email not found"))
    ensures id in old(s.emails) ==> res == Response(200, EmailJson(MergeEmail(old(s.emails)[id], updates)))
    ensures s.emails == EmailsAfterUpdate(old(s.emails), id, updates)
    ensures s.users == old(s.users) && s.voiceCommands == old(s.voiceCommands)
  {
    var email := s.UpdateEmail(id, updates);
    if email.None? {
      return Response(404, ErrorBody("Email not found"));
    }
    res := Response(200, EmailJson(email.value));
  }

  /** A patch that renames one email to another's id, followed by a fetch of
      the renamed one, marks the other email read and leaves the fetched one
      unread. */
  lemma {:induction false} RenamingPatchMisdirectsMarkRead(a: Email, b: Email)
    requires a.id != b.id && !a.isRead && !b.isRead
    ensures var m := map[a.id := a, b.id := b];
            var m1 := EmailsAfterUpdate(m, a.id, NoEmailChanges.(id := Some(b.id)));
            var m2 := AfterFetch(m1, a.id);
            EmailKeysAreIds(m) && !EmailKeysAreIds(m1) && !m2[a.id].isRead && m2[b.id].isRead
  {
    var m := map[a.id := a, b.id := b];
    var m1 := EmailsAfterUpdate(m, a.id, NoEmailChanges.(id := Some(b.id)));
    assert m1[a.id].id == b.id;
    var m2 := AfterFetch(m1, a.id);
    assert m2 == m1[b.id := m1[b.id].(isRead := true)];
  }

  /** PATCH /api/emails/:id: the body is merged into the stored record,
      except that the record keeps its id. */
  method PatchEmail(s: MemStorage, id: string, updates: EmailPatch) returns (res: Response)
    modifies s
    ensures id !in old(s.emails) ==> res == Response(404, ErrorBody("Email not found"))
    ensures id in old(s.emails) ==> res == Response(200, EmailJson(MergeEmail(old(s.emails)[id], updates.(id := None))))
    ensures s.emails == EmailsAfterUpdate(old(s.emails), id, updates.(id := None))
    ensures s.users == old(s.users) && s.voiceCommands == old(s.voiceCommands)
    ensures old(s.Valid()) ==> s.Valid()
  {
    var email := s.UpdateEmail(id, updates.(id := None));
    if email.None? {
      return Response(404, ErrorBody("Email not found"));
    }
    res := Response(200, EmailJson(email.value));
  }

  /** After any patch, fetching an email marks that very email read. */
  lemma PatchThenFetchMarksRequested(m: map<string, Email>, id: string, updates: EmailPatch)
    requires EmailKeysAreIds(m) && id in m
    ensures var m1 := EmailsAfterUpdate(m, id, updates.(id := None));
            EmailKeysAreIds(m1) && AfterFetch(m1, id) == m1[id := m1[id].(isRead := true)]
  {
    var m1 := EmailsAfterUpdate(m, id, updates.(id := None));
    UpdateKeepsKeysAreIds(m, id, updates.(id := None));
    FetchMarksRequested(m1, id);
  }

  /** DELETE /api/emails/:id. */
  method DeleteEmailById(s: MemStorage, id: string) returns (res: Response)
    modifies s
    ensures id !in old(s.emails) ==> res == Response(404, ErrorBody("Email not found"))
    ensures id in old(s.emails) ==> res == Response(200, Deleted)
    ensures s.emails == old(s.emails) - {id}
    ensures s.users == old(s.users) && s.voiceCommands == old(s.voiceCommands)
    ensures old(s.Valid()) ==> s.Valid()
  {
    var deleted := s.DeleteEmail(id);
    if !deleted {
      return Response(404, ErrorBody("Email not found"));
    }
    res := Response(200, Deleted);
  }

  const NoKeyIntent := Intent("Voice processing available without AI", "unknown", 0.5)
  /** What `processVoiceCommand` returns when the call or the parse throws. */
  const ErrorIntent := Intent("error", "unknown", 0.0)

  predicate ConfidenceInRange(i: Intent) {
    0.0 <= i.confidence <= 1.0
  }

  /** `Math.max(0, Math.min(1, c))`. */
  function Clamp(c: real): (r: real)
    ensures 0.0 <= r <= 1.0
    ensures 0.0 <= c <= 1.0 ==> r == c
    ensures c < 0.0 ==> r == 0.0
    ensures c > 1.0 ==> r == 1.0
  {
    if c < 0.0 then 0.0 else if c > 1.0 then 1.0 else c
  }

  /** `processVoiceCommand`'s result: `raw` is the parsed reply of the model,
      `None` when the call or the parse threw. Empty fields become
      "unknown" and the confidence is clamped into [0, 1]. */
  function AnalyzeIntent(raw: Option<Intent>): (i: Intent)
    ensures ConfidenceInRange(i)
    ensures i.intent != "" && i.action != ""
    ensures raw.None? ==> i == ErrorIntent
    ensures raw.Some? && raw.value.intent != "" ==> i.intent == raw.value.intent
    ensures raw.Some? && raw.value.action != "" ==> i.action == raw.value.action
    ensures raw.Some? && ConfidenceInRange(raw.value) ==> i.confidence == raw.value.confidence
  {
    match raw
    case None => ErrorIntent
    case Some(r) =>
      Intent(if r.intent != "" then r.intent else "unknown",
             if r.action != "" then r.action else "unknown",
             Clamp(r.confidence))
  }

  /** POST /api/voice/process: a missing or falsy transcript is refused;
      without a key the fixed stub answers; with one, whatever the client
      returns, its own fallback included. Every confidence sent is in
      [0, 1]. */
  function ProcessVoice(transcript: Value, hasKey: bool, raw: Option<Intent>): (res: Response)
    ensures res.status == 400 <==> !Truthy(transcript)
    ensures res.status != 400 ==> res.status == 200 && res.body.IntentJson?
    ensures Truthy(transcript) && !hasKey ==> res.body == IntentJson(NoKeyIntent)
    ensures Truthy(transcript) && hasKey ==> res.body == IntentJson(AnalyzeIntent(raw))
    ensures Truthy(transcript) && hasKey && raw.None? ==> res.body == IntentJson(ErrorIntent)
    ensures res.body.IntentJson? ==> ConfidenceInRange(res.body.intent)
  {
    if !Truthy(transcript) then Response(400, ErrorBody("Transcript is required"))
    else if !hasKey then Response(200, IntentJson(NoKeyIntent))
    else Response(200, IntentJson(AnalyzeIntent(raw)))
  }

  const NoKeySuggestion := "AI email suggestions are not available. OpenAI API key not configured."
  /** What `generateEmailSuggestion` returns when the call throws. */
  const Apology := "I apologize, but I encountered an error generating the email suggestion. Please try again."

  /** POST /api/email/suggest: `raw` is the model's reply text, `None` when
      the call threw, in which case the client's apology is sent. */
  function Suggest(prompt: Value, hasKey: bool, raw: Option<string>): (res: Response)
    ensures res.status == 400 <==> !Truthy(prompt)
    ensures res.status != 400 ==> res.status == 200 && res.body.SuggestionJson?
    ensures Truthy(prompt) && !hasKey ==> res.body == SuggestionJson(NoKeySuggestion)
    ensures Truthy(prompt) && hasKey && raw.None? ==> res.body == SuggestionJson(Apology)
    ensures Truthy(prompt) && hasKey && raw.Some? ==> res.body == SuggestionJson(raw.value)
  {
    if !Truthy(prompt) then Response(400, ErrorBody("Prompt is required"))
    else if !hasKey then Response(200, SuggestionJson(NoKeySuggestion))
    else Response(200, SuggestionJson(raw.GetOr(Apology)))
  }

  /** GET /api/voice-commands: the demo user's commands. */
  method ListVoiceCommands(s: MemStorage) returns (res: Response)
    ensures res.status == 200 && res.body.CommandsJson?
    ensures HoldsCommands(s.voiceCommands, s.voiceCommands.Keys, DemoUserId, res.body.commands)
  {
    var commands := s.GetVoiceCommandsByUser(DemoUserId);
    res := Response(200, CommandsJson(commands));
  }

  /** POST /api/voice-commands. */
  method PostVoiceCommand(s: MemStorage, body: VoiceCommandBody, id: string, now: int) returns (res: Response)
    requires id !in s.voiceCommands
    modifies s
    ensures ParseInsertVoiceCommand(body).Failure? ==>
              res == Response(400, InvalidBody("Invalid command data", ParseInsertVoiceCommand(body).error))
              && s.voiceCommands == old(s.voiceCommands)
    ensures ParseInsertVoiceCommand(body).Success? ==>
              var c := NewVoiceCommand(id, now, ParseInsertVoiceCommand(body).value);
              res == Response(200, CommandJson(c)) && s.voiceCommands == old(s.voiceCommands)[id := c]
    ensures s.users == old(s.users) && s.emails == old(s.emails)
    ensures old(s.Valid()) ==> s.Valid()
  {
    var parsed := ParseInsertVoiceCommand(body);
    if parsed.Failure? {
      return Response(400, InvalidBody("Invalid command data", parsed.error));
    }
    var command := s.CreateVoiceCommand(parsed.value, id, now);
    res := Response(200, CommandJson(command));
  }

  /** PATCH /api/user/settings as written: the raw body is merged into the
      demo user, `id` included. */
  method UpdateSettingsAsWritten(s: MemStorage, updates: UserPatch) returns (res: Response)
    modifies s
    ensures DemoUserId !in old(s.users) ==> res == Response(404, ErrorBody("User not found")) && s.users == old(s.users)
    ensures DemoUserId in old(s.users) ==>
              var u := MergeUser(old(s.users)[DemoUserId], updates);
              res == Response(200, UserJson(u)) && s.users == old(s.users)[DemoUserId := u]
    ensures s.emails == old(s.emails) && s.voiceCommands == old(s.voiceCommands)
  {
    var user := s.UpdateUser(DemoUserId, updates);
    if user.None? {
      return Response(404, ErrorBody("User not found"));
    }
    res := Response(200, UserJson(user.value));
  }

  /** A settings body carrying another `id` leaves the demo user stored under
      a key that is not its id. */
  lemma RenamingSettingsBreaksKey(u: User, other: string)
    requires u.id == DemoUserId && other != DemoUserId
    ensures var p := UserPatch(Some(other), None, None, None, None, None, None, None, None);
            var users := map[DemoUserId := u];
            UserKeysAreIds(users) && !UserKeysAreIds(users[DemoUserId := MergeUser(u, p)])
  {
    var p := UserPatch(Some(other), None, None, None, None, None, None, None, None);
    var users := map[DemoUserId := u][DemoUserId := MergeUser(u, p)];
    assert users[DemoUserId].id == other;
  }

  /** PATCH /api/user/settings: the body is merged into the demo user, which
      keeps its id. */
  method UpdateSettings(s: MemStorage, updates: UserPatch) returns (res: Response)
    modifies s
    ensures DemoUserId !in old(s.users) ==> res == Response(404, ErrorBody("User not found")) && s.users == old(s.users)
    ensures DemoUserId in old(s.users) ==>
              var u := MergeUser(old(s.users)[DemoUserId], updates.(id := None));
              res == Response(200, UserJson(u)) && s.users == old(s.users)[DemoUserId := u]
    ensures s.emails == old(s.emails) && s.voiceCommands == old(s.voiceCommands)
    ensures old(s.Valid()) ==> s.Valid()
  {
    var user := s.UpdateUser(DemoUserId, updates.(id := None));
    if user.None? {
      return Response(404, ErrorBody("User not found"));
    }
    res := Response(200, UserJson(user.value));
  }
}
