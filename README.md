# Vocal Eyes: a verified model of the webmail core

Vocal Eyes is a voice-driven webmail demo. A blind or low-vision user speaks
commands, and the pages answer with speech and navigation. This project
models the parts of it that decide things:

- **The server's in-memory store** (`Storage.MemStorage`). It is a class with
  three map fields: users, emails and voice commands. It is seeded with a demo
  user, three sample emails and four built-in commands. It supports lookups,
  creation with defaults, shallow-merge updates, deletion, the newest-first
  inbox query and the per-user command query.
- **The REST handlers** (`Routes`). Each takes a request and the store and
  gives back a status code and a JSON body, and may change the store. They
  cover login, the email routes, voice processing, suggestion, the voice
  command routes and the settings route.
- **The shared schema** (`Schema`). This is the record types, the column
  defaults and the validators for login, new emails and new voice commands.
  Request bodies are modelled member by member as JSON values, so that
  missing, `null` and wrongly typed members are represented.
- **The voice-command interpreters** of the Compose, Inbox, Email view and
  Login pages (`ComposePage`, `InboxPage`, `EmailViewPage`, `LoginPage`).
  Each is a priority-ordered list of substring, prefix and equality tests on
  the lowercased transcript (`Rules`). Each page's state is a class whose
  handler updates it. What a handler does outside its own state is returned
  as a list of events (`Effects`): speech, navigation, requests and draft
  saves. `Effects.Queued` models the speech synthesiser. Each `speak` first
  cancels whatever is queued, so only the last utterance survives.
- **The client-side draft list** (`Drafts.DraftStore`). It supports append,
  delete-by-id, clear and the newest-first sort, along with the copy kept in
  local storage.

Ids, clock readings, whether an AI key is configured and what the language
model replies (or that the call threw) are all parameters. A fresh id is one the map does not already hold.
Timestamps are milliseconds since the epoch.

## Model

| member | source | states |
|---|---|---|
| Schema.ParseLogin | shared/schema.ts:66-70 | accepts exactly a non-empty string username, an omitted or at-least-4-character string PIN, and an omitted or string voice print; a rejection lists at least one issue |
| Schema.ParseInsertEmail | shared/schema.ts:18-33 | accepts exactly when the seven not-null text columns are strings and the five defaulted flags are omitted, `null` or booleans; the parsed record carries the texts, and each flag is present exactly when a boolean was sent |
| Schema.ParseInsertEmailIgnoresIdAndTimestamp | shared/schema.ts:49-52 | whatever the caller sends as `id` or `timestamp` has no effect on parsing |
| Schema.MissingSubjectRejected | shared/schema.ts:25 | a body without a string subject is rejected, and the issues name `subject` |
| Schema.ParseInsertVoiceCommand | shared/schema.ts:35-42 | accepts exactly when userId, command and action are strings and isCustom is omitted, `null` or a boolean |
| Storage.NonEmptyOr | server/storage.ts:140-142 | logical-or defaulting: a non-empty string is kept; omitted, `null` or `""` gives the fallback |
| Storage.MergeUser | server/storage.ts:152 | each member the update supplies takes the supplied value, and each member it omits keeps the user's value |
| Storage.MergeEmail | server/storage.ts:188 | each member the update supplies takes the supplied value, and each member it omits keeps the email's value |
| Storage.NewUser | server/storage.ts:132-146 | the stored user has the given id and clock reading; a falsy pin or voice print becomes `null`; a falsy preferred voice, speed (0 included) or language becomes "default", 1 or "en-US"; anything else is kept |
| Storage.UserDefaultsAgreeWithColumns | server/storage.ts:140-142 | the storage substitutes for omitted preferences equal the `users` column defaults |
| Storage.NewEmail | server/storage.ts:168-182 | omitted isRead, isPriority, isDraft and isSent become false and omitted isInbox becomes true; supplied flags are kept as given; the texts are copied; id and timestamp are the fresh ones |
| Storage.EmailDefaultsAgreeWithColumns | shared/schema.ts:27-31 | the storage defaults for the five email flags equal the `emails` column defaults |
| Storage.NewVoiceCommand | server/storage.ts:203-213 | an omitted isCustom becomes true, and a supplied one is kept |
| Storage.CommandDefaultDiffersFromColumn | server/storage.ts:209 | the storage default for isCustom (true) differs from the column default (false) |
| Storage.MergeNothingIsIdentity | server/storage.ts:188 | merging an empty update leaves the email as it was |
| Storage.MergeEmailThen | server/storage.ts:188 | two successive shallow merges equal one merge of the combined update |
| Storage.MergeEmailIdempotent | server/storage.ts:188 | re-applying the same update changes nothing more |
| Storage.MarkReadOnlySetsRead | server/routes.ts:52 | the mark-read update changes `isRead` to true and nothing else |
| Storage.EmailsAfterUpdate | server/storage.ts:184-191 | an update keeps the key set, changes no other entry, and replaces the entry under the id with the merge when the id is present |
| Storage.UpdateKeepsKeysAreIds | server/storage.ts:184-191 | an update that does not supply a different id keeps every email stored under its own id |
| Storage.InboxListingMembers | server/storage.ts:162-166 | when every email is under its own id, an inbox listing holds an email exactly when it is stored and is an inbox email of that user, and holds it once |
| Storage.DemoEmails | server/storage.ts:53-102 | the three sample emails carry the given ids and all belong to the demo user's inbox |
| Storage.DemoCommands | server/storage.ts:109-114 | the four built-in commands carry the given ids and are not custom |
| Storage.KeyedHoldsAll | server/storage.ts:104-106 | writing records with distinct keys one by one stores each record under its key, and nothing else |
| Storage.KeyedUnderOwnKeys | server/storage.ts:104-106 | every record written one by one is found under its own key |
| Storage.MemStorage.constructor | server/storage.ts:28-119 | the store holds exactly the demo user, the sample emails and the default commands, each under its own id |
| Storage.MemStorage.SeedEmails | server/storage.ts:104-106 | writing the sample emails into the empty map yields the keyed list, and leaves the other maps alone |
| Storage.MemStorage.SeedCommands | server/storage.ts:116-118 | writing the default commands into the empty map yields the keyed list, and leaves the other maps alone |
| Storage.MemStorage.GetUser | server/storage.ts:122-124 | finds the user under the id exactly when one is stored |
| Storage.MemStorage.GetUserByUsername | server/storage.ts:126-130 | returns a stored user with that username, and none only when no stored user has it |
| Storage.MemStorage.CreateUser | server/storage.ts:132-146 | stores exactly one new user under the fresh id and returns it; other entries and maps are untouched; keys stay ids |
| Storage.MemStorage.UpdateUser | server/storage.ts:148-155 | an absent id gives nothing and no change; a present one stores and returns the shallow merge under the same key |
| Storage.MemStorage.GetEmail | server/storage.ts:158-160 | finds the email under the id exactly when one is stored |
| Storage.MemStorage.GetEmailsByUser | server/storage.ts:162-166 | returns exactly the user's inbox emails, each as often as it is stored, in non-increasing timestamp order |
| Storage.MemStorage.CreateEmail | server/storage.ts:168-182 | stores exactly one new email under the fresh id and returns that record; existing entries are untouched |
| Storage.MemStorage.UpdateEmail | server/storage.ts:184-191 | returns something exactly when the id was present; then the stored record is the shallow merge, and the key and all other emails are unchanged; otherwise the map is unchanged |
| Storage.MemStorage.DeleteEmail | server/storage.ts:193-195 | returns true exactly when the id was present; afterwards the id is absent and every other entry is unchanged |
| Storage.MemStorage.GetVoiceCommandsByUser | server/storage.ts:198-201 | returns exactly the commands with that userId, each as often as it is stored |
| Storage.MemStorage.CreateVoiceCommand | server/storage.ts:203-213 | stores exactly one new command under the fresh id and returns it |
| Ordering.InsertNewestFirst | server/storage.ts:165 | inserting into a newest-first list keeps it newest-first, adds exactly the new element, and keeps any upper bound on timestamps |
| Ordering.SortNewestFirst | server/storage.ts:165 | the result is newest-first and a permutation of the input |
| Ordering.InsertOldestAtEnd | server/storage.ts:165 | an element no newer than any already placed goes after all of them |
| Ordering.SortKeepsSorted | client/src/hooks/useOfflineStorage.ts:45 | sorting a newest-first list leaves it exactly as it was, ties included (the sort is stable) |
| Ordering.SortIdempotent | client/src/hooks/useOfflineStorage.ts:45 | sorting twice is sorting once |
| Ordering.NewestFirstUnique | server/storage.ts:165 | with distinct timestamps there is only one newest-first order of a set of records |
| Text.Lower | client/src/pages/Compose.tsx:48 | lowercasing keeps the length and maps each character on its own |
| Text.LowerHasNoUpper | client/src/pages/Compose.tsx:48 | a lowercased transcript holds no ASCII capital |
| Text.LowerIdempotent | client/src/pages/Compose.tsx:48 | lowercasing twice is lowercasing once |
| Text.ContainsIffOccurs | client/src/pages/Compose.tsx:50 | the recursive substring test holds exactly when the pattern occurs at some position |
| Text.ContainsWord | client/src/pages/Compose.tsx:50 | a transcript that spells out a word contains it |
| Text.BeforeFirst | client/src/pages/Compose.tsx:129 | the result is a prefix without the separator, ending at the first separator or at the end |
| Text.DigitPrefix | client/src/pages/Inbox.tsx:43 | the result is the longest all-digit prefix |
| Text.FirstDigitRun | client/src/pages/Inbox.tsx:43 | the match is a non-empty digit run, and there is none exactly when the text has no digit |
| Text.FirstDigitRunIsFirst | client/src/pages/Inbox.tsx:43 | the match is maximal and no digit comes before it |
| Text.FirstDigitRunSkips | client/src/pages/Inbox.tsx:43 | text without digits in front of a string does not change its first digit run |
| Text.FirstDigitRunOfRun | client/src/pages/Inbox.tsx:43 | a digit run followed by a non-digit is the first digit run of the text it starts |
| Text.NatToString | client/src/hooks/useOfflineStorage.ts:30 | the decimal rendering is a non-empty run of digits with no leading zero |
| Text.DigitsValueOfNatToString | client/src/hooks/useOfflineStorage.ts:30 | reading back a rendered number gives the number |
| Text.NatToStringInjective | client/src/hooks/useOfflineStorage.ts:30 | distinct numbers render as distinct strings |
| Rules.FirstFiring | client/src/pages/Compose.tsx:50-101 | the chosen branch's test holds and no earlier branch's test does; none is chosen only when no test holds |
| Rules.FirstMatchWins | client/src/pages/Compose.tsx:50-101 | a branch whose test holds, with no earlier test holding, decides the command |
| Rules.OtherwiseWhenNothingFires | client/src/pages/Compose.tsx:92-101 | the final `else` is taken when no test holds |
| Effects.Queued | client/src/hooks/useSpeech.ts:11-33 | at most one utterance is left queued; the last speak leaves its own text, and a final cancel leaves nothing |
| Effects.QueuedAfterSpeak | client/src/hooks/useSpeech.ts:17-27 | an utterance survives when nothing after it speaks or cancels |
| Routes.Login | server/routes.ts:10-29 | a body failing the schema gives 400 and only then; an unknown username gives 401 "Invalid credentials"; a 200 carries a stored user whose name matches and whose PIN matches when one was sent; with unique usernames it is 200 exactly when some stored user admits the credentials; the store is not changed |
| Routes.SeededLogin | server/routes.ts:14-25 | against the seeded store, "demo" with PIN "1234" or with no PIN gives 200, any other PIN of four or more characters gives 401, and a shorter one gives 400 |
| Routes.ListEmails | server/routes.ts:32-41 | 200 with the demo user's inbox, newest first |
| Routes.AfterFetch | server/routes.ts:45-52 | the fetch keeps the key set, marks read (and changes nothing else in) the entry under the id the fetched record carries, and leaves every other entry as it was |
| Routes.FetchMarksRequested | server/routes.ts:51-52 | when keys are ids, a fetch marks exactly the requested email read, keeps keys as ids, and a second fetch changes nothing more |
| Routes.FetchEmail | server/routes.ts:43-58 | an absent id gives 404 and no change; a present one gives 200 with the record as it was before marking, while the store marks it read |
| Routes.PriorityVerdict | server/lib/openai.ts:104-116 | the analysis says priority exactly when the model's reply says `isPriority` true; a call or parse that throws gives false |
| Routes.ChosenPriority | server/routes.ts:64-74 | with a key, the analysis verdict alone decides, so a failed analysis stores false even when the request asked for priority; without a key, the request's isPriority when true, else false |
| Routes.PostEmail | server/routes.ts:60-88 | a schema violation gives 400 "Invalid email data" with the issues and stores nothing; otherwise exactly the new email with the chosen priority is stored and returned |
| Routes.PriorityDefaultsOffWithoutKey | server/routes.ts:65 | without a key, an email posted without isPriority is stored as not priority |
| Routes.PatchEmailAsWritten | server/routes.ts:90-103 | an absent id gives 404 and no change; a present one merges the whole body, `id` included |
| Routes.RenamingPatchMisdirectsMarkRead | server/routes.ts:90-103 | a patch that gives one email another's id, followed by a fetch of the first, marks the other read and leaves the fetched one unread |
| Routes.PatchEmail | server/routes.ts:90-103 | an absent id gives 404 and no change; a present one merges the body except its id, and keeps keys as ids |
| Routes.PatchThenFetchMarksRequested | server/routes.ts:90-103 | after any corrected patch, fetching an email marks that very email read |
| Routes.DeleteEmailById | server/routes.ts:105-117 | an absent id gives 404 and no change; a present one gives `{success:true}` and removes exactly that entry |
| Routes.Clamp | server/lib/openai.ts:43 | the result lies in [0,1], equals the input when that is in range, and is the nearer bound otherwise |
| Routes.AnalyzeIntent | server/lib/openai.ts:38-52 | a call or parse that throws gives the "error"/"unknown"/0 intent; otherwise empty intent or action texts become "unknown", non-empty ones are kept, and the confidence is clamped; the intent and action are never empty and the confidence is always in [0,1] |
| Routes.ProcessVoice | server/routes.ts:120-151 | 400 exactly when the transcript is missing or falsy; without a key the fixed "unknown"/0.5 stub; with one, the client's intent, so a failed call sends the client's "error" intent; every confidence sent is in [0,1] |
| Routes.Suggest | server/routes.ts:154-180 | 400 exactly when the prompt is missing or falsy; without a key the fixed "not available" text; with one, the model's text, or the client's apology (server/lib/openai.ts:74-77) when the call threw |
| Routes.ListVoiceCommands | server/routes.ts:183-192 | 200 with exactly the demo user's commands |
| Routes.PostVoiceCommand | server/routes.ts:194-205 | a schema violation gives 400 "Invalid command data" and stores nothing; otherwise exactly the new command is stored and returned |
| Routes.UpdateSettingsAsWritten | server/routes.ts:208-224 | a missing demo user gives 404; otherwise the whole body is merged into the demo user, `id` included |
| Routes.RenamingSettingsBreaksKey | server/routes.ts:208-224 | a settings body carrying another id leaves the demo user stored under a key that is not its id |
| Routes.UpdateSettings | server/routes.ts:208-224 | a missing demo user gives 404; otherwise the body except its id is merged, and keys stay ids |
| ComposePage.CommandOf | client/src/pages/Compose.tsx:48-101 | the transcript is a send exactly when "send email" occurs in it or it is exactly "send" |
| ComposePage.DictationWhenNothingFires | client/src/pages/Compose.tsx:92-101 | the transcript is dictated text exactly when none of the chain's ten conditions holds |
| ComposePage.SendComesFirst | client/src/pages/Compose.tsx:50-51 | "send email" anywhere, or exactly "send", is a send whatever else the transcript holds |
| ComposePage.PunctuationOnlyAfterFieldNames | client/src/pages/Compose.tsx:67-91 | a punctuation command is only taken when none of the send, draft, cancel and field-select tests holds |
| ComposePage.RecipientName | client/src/pages/Compose.tsx:129 | the part of the address before the first "@", or "Recipient" when that part is empty; never empty and never holds "@" |
| ComposePage.SendPayload | client/src/pages/Compose.tsx:125-136 | the payload always passes the server's email schema; it carries the typed address, subject and body, the recipient name derived from the address, the demo sender, and the flags not-draft, inbox and sent; id, timestamp, isRead and isPriority are left to the server |
| ComposePage.SendPayloadAccepted | client/src/pages/Compose.tsx:125-136 | the payload of a permitted send passes the server's schema, and the stored email keeps the fields, is not a draft, is sent, is unread and is in the demo inbox |
| ComposePage.SendEvents | client/src/pages/Compose.tsx:107-160 | a request is made exactly when all three fields are non-empty, and then it carries the send payload; otherwise only the prompt is spoken; it navigates exactly when the send succeeds |
| ComposePage.SaveDraftEvents | client/src/pages/Compose.tsx:52-63 | a draft of the three fields is saved exactly when some field is non-empty, and the page returns to the inbox either way |
| ComposePage.Dictated | client/src/pages/Compose.tsx:99-100 | body dictation appends the transcript, after one space when the body was not empty |
| ComposePage.Compose.constructor | client/src/pages/Compose.tsx:21-24 | fields empty, dictation goes to the recipient |
| ComposePage.Compose.HandleVoiceResult | client/src/pages/Compose.tsx:47-103 | per command: send and save draft and cancel change no field; a field select changes only the active field; punctuation appends its mark to the body only when the body is active; dictation replaces the active recipient or subject with the original-case transcript, or appends to the body |
| ComposePage.Compose.HandleSend | client/src/pages/Compose.tsx:107-116 | a request is made exactly when all three fields are filled, and then it posts the send payload |
| InboxPage.CommandOf | client/src/pages/Inbox.tsx:28-54 | the transcript opens the composer exactly when "compose", "new email" or "write" occurs in it, and opens an email only when "read" or "open" occurs |
| InboxPage.UnrecognizedWhenNothingFires | client/src/pages/Inbox.tsx:52-54 | the transcript is unrecognised exactly when none of the chain's conditions holds |
| InboxPage.ComposeComesFirst | client/src/pages/Inbox.tsx:30-32 | a compose, "new email" or write command opens the composer whatever else the transcript holds |
| InboxPage.OpenEmailComesLast | client/src/pages/Inbox.tsx:30-42 | read/open is only taken when none of the compose, settings, help and logout tests holds |
| InboxPage.OpenTarget | client/src/pages/Inbox.tsx:42-51 | nothing is opened exactly when the list is empty; a first number N with 1 <= N <= count opens email N-1; otherwise the first email |
| InboxPage.OutOfRangeOpensFirst | client/src/pages/Inbox.tsx:44-50 | a number of zero, or past the end of the list, opens the first email |
| InboxPage.OpenEmailNine | client/src/pages/Inbox.tsx:43-50 | "open email 9" with three emails opens the first |
| InboxPage.Reaction | client/src/pages/Inbox.tsx:28-54 | each command's announcement and destination; a read/open goes to the chosen email's page; it navigates exactly when recognised and not a read/open on an empty list; an unmatched transcript only gets the "not recognized" message |
| InboxPage.UnreadCount | client/src/pages/Inbox.tsx:22 | the count is zero exactly when every email is read, and the list length exactly when none is |
| InboxPage.LoadedAnnouncement | client/src/pages/Inbox.tsx:21-23 | the first number in the announcement is the number of listed emails, and the announcement ends with the unread count followed by " unread." |
| InboxPage.UnreadCountAppend | client/src/pages/Inbox.tsx:22 | the count of a concatenation is the sum of the counts |
| InboxPage.Inbox.constructor | client/src/pages/Inbox.tsx:15 | no current command |
| InboxPage.Inbox.HandleVoiceResult | client/src/pages/Inbox.tsx:26-55 | records the transcript as the current command and reacts to it |
| EmailViewPage.CommandOf | client/src/pages/EmailView.tsx:29-64 | the transcript goes back exactly when "back" or "inbox" occurs in it |
| EmailViewPage.UnrecognizedWhenNothingFires | client/src/pages/EmailView.tsx:62-64 | the transcript is unrecognised exactly when none of the chain's conditions holds |
| EmailViewPage.BackComesFirst | client/src/pages/EmailView.tsx:32-35 | back or inbox returns to the inbox whatever else the transcript holds |
| EmailViewPage.PauseBeatsResume | client/src/pages/EmailView.tsx:53-57 | a transcript holding "pause" never resumes and is always recognised |
| EmailViewPage.ComposeLink | client/src/pages/EmailView.tsx:36-43 | the link is the compose path with the parameter, followed by the id (or "undefined") |
| EmailViewPage.LeaveAsWritten | client/src/pages/EmailView.tsx:32-47 | the page's leave sequence: the announcement, then a cancel, then the navigation last |
| EmailViewPage.Leave | client/src/pages/EmailView.tsx:32-47 | the same three events as the page's sequence with the cancel moved first; the navigation stays last |
| EmailViewPage.LeaveAsWrittenIsSilent | client/src/pages/EmailView.tsx:32-35 | speaking and then cancelling leaves nothing queued; the sequence navigates and issues no request |
| EmailViewPage.LeaveIsAnnounced | client/src/pages/EmailView.tsx:32-35 | cancelling and then speaking leaves the announcement queued |
| EmailViewPage.EmailView.constructor | client/src/pages/EmailView.tsx:15 | not paused |
| EmailViewPage.Reaction | client/src/pages/EmailView.tsx:31-64 | back, reply, forward and delete give the page's speak-then-cancel sequence, so nothing stays queued, and they navigate (to the inbox, the compose links, or the inbox after a delay) without any request; repeat reads the email when loaded; pause cancels and leaves "Paused." queued; resume restarts the body only when paused with an email loaded; anything else is echoed as not recognised |
| EmailViewPage.EmailView.HandleVoiceResult | client/src/pages/EmailView.tsx:29-65 | returns the page's reaction for the paused flag as it was; pause sets the flag, a resume that restarts the reading clears it, and every other command leaves it unchanged |
| LoginPage.CommandOf | client/src/pages/Login.tsx:28-33 | "pin" or "password" selects PIN mode, ahead of "voice"; "voice" without them selects voice mode |
| LoginPage.VoiceLoginBody | client/src/pages/Login.tsx:51-57 | once accepted, the body's credentials name the user, have no PIN, and carry a voice print |
| LoginPage.VoiceLoginNeedsOnlyUsername | client/src/pages/Login.tsx:51-57 | the voice login body passes the schema exactly for a non-empty name, and is then admitted by whoever holds that name |
| LoginPage.PinLoginBody | client/src/pages/Login.tsx:90-96 | the server rejects the body exactly when the username is empty or the PIN is shorter than four characters, and otherwise parses it into those credentials |
| LoginPage.PinLoginBodyAccepted | client/src/pages/Login.tsx:90-96 | a PIN login body passes the schema exactly when the PIN has four or more characters |
| LoginPage.VoiceLoginEvents | client/src/pages/Login.tsx:47-74 | the voice login posts the name with the placeholder voice print, and navigates exactly when it succeeds |
| LoginPage.Login.constructor | client/src/pages/Login.tsx:16-19 | voice mode, empty fields, not listening |
| LoginPage.Login.TypeUsername | client/src/pages/Login.tsx:188 | the username field takes the typed value and nothing else changes |
| LoginPage.Login.TypePin | client/src/pages/Login.tsx:201 | the PIN field takes the typed value and nothing else changes |
| LoginPage.Login.HandleVoiceResult | client/src/pages/Login.tsx:25-40 | PIN and voice commands set the mode; any other transcript sets the username to the original-case transcript and starts voice login with it; not listening afterwards in every case |
| LoginPage.Login.HandlePinLogin | client/src/pages/Login.tsx:76-113 | a request is made exactly when username and PIN are both non-empty, and then it carries both |
| LoginPage.Login.HandleVoiceButtonClick | client/src/pages/Login.tsx:115-124 | the listening flag becomes the negation of the recogniser's, and recognition starts exactly when it was not listening |
| Drafts.Loaded | client/src/hooks/useOfflineStorage.ts:16-26 | a stored list that parses is loaded; a missing, empty or unparseable value leaves the list empty |
| Drafts.WithoutId | client/src/hooks/useOfflineStorage.ts:49 | no remaining draft has the id, and the list does not grow |
| Drafts.WithoutIdCounts | client/src/hooks/useOfflineStorage.ts:49 | drafts with other ids are kept as often as they occurred, and drafts with the id are all removed |
| Drafts.WithoutIdAppend | client/src/hooks/useOfflineStorage.ts:49 | filtering works piece by piece, so the kept drafts stay in their original order |
| Drafts.WithoutAbsentId | client/src/hooks/useOfflineStorage.ts:49 | deleting an id no draft carries changes nothing |
| Drafts.DraftStore.constructor | client/src/hooks/useOfflineStorage.ts:14-26 | the list is the loaded one |
| Drafts.DraftStore.SaveDraft | client/src/hooks/useOfflineStorage.ts:28-42 | exactly one draft with the given fields is appended after the unchanged earlier ones, the stored copy equals the new list, and the id is the decimal rendering of its timestamp when the two clock readings agree |
| Drafts.DraftStore.GetDrafts | client/src/hooks/useOfflineStorage.ts:44-46 | the list is replaced by its newest-first permutation and returned; the stored copy is not rewritten |
| Drafts.DraftStore.DeleteDraft | client/src/hooks/useOfflineStorage.ts:48-52 | the list loses exactly the drafts with that id, and the stored copy equals the new list |
| Drafts.DraftStore.ClearDrafts | client/src/hooks/useOfflineStorage.ts:54-57 | the list is empty and nothing is stored |

## Left out

- Storage.MemStorage.GetUserByUsername: when several users share a username, which one is returned (the first in map insertion order) is not stated, because map insertion order is not modelled. `Routes.Login` states its outcome exactly only when usernames are unique.
- Storage.MemStorage.GetEmailsByUser: the relative order of emails with equal timestamps (insertion order, by the stable sort) is not stated, because map insertion order is not modelled.
- Storage.MemStorage.GetVoiceCommandsByUser: the order of the result (map insertion order) is not stated; only which commands it holds, and how often.
- Storage.MemStorage.constructor: the seed takes one clock reading for every date it creates. The source reads the clock separately for each, so the seeded dates may differ by a few milliseconds.
- Text.Lower: lowercasing covers ASCII letters only. Unicode case mapping is not modelled.
- InboxPage.OpenTarget: the email number is read as an exact natural number. `parseInt` loses precision beyond 2^53; that case is not modelled.
- Drafts.DraftStore.GetDrafts: the source sorts the state array in place and returns the same array object. The model replaces the list field with the sorted list; aliasing between the returned array and the page state is not captured.
- Drafts.DraftStore.SaveDraft: the id and the timestamp come from two separate clock readings. The id is the timestamp's decimal text only when the readings agree.
- Routes.AnalyzeIntent: the model's reply is taken as already parsed into two texts and a real confidence. A missing, `NaN` or non-numeric confidence (which `|| 0` turns into 0) and non-string intent or action members are not modelled.
- Routes.PriorityVerdict: a non-boolean `isPriority` in the model's reply is not modelled.
- The inner `catch` blocks of the priority, voice and suggestion routes (server/routes.ts:70-73, 140-147 and 171-176) are not modelled because they cannot run: the client functions at server/lib/openai.ts:45-52, 74-77 and 110-116 catch every error and return their own fallback. So the routes' "AI processing failed" intent and "Unable to generate AI suggestion at this time." text are never sent.
- Schema.ParseLogin: string lengths count characters, while zod's `.min` counts UTF-16 code units. A PIN with characters outside the Basic Multilingual Plane is measured differently. The same holds for `Schema.StringOk`.
- Routes.PatchEmail: the request body is modelled as a typed partial email. Unknown keys and wrongly typed or `null` members, which the source would merge as given, are not modelled. The same applies to Routes.PatchEmailAsWritten, Routes.UpdateSettings and Routes.UpdateSettingsAsWritten.
- The 500 responses of every route are not modelled: the in-memory store never throws.
- Asynchrony is not modelled: `await`, `fetch`, the one-second navigation delays (`NavigateLater`), toasts and react-query cache invalidation. A request's outcome is a boolean parameter.
- The language-model call itself (prompts, model choice, token limits) is not modelled. Its reply is an input, or `None` when the call or the parse of the reply throws; the client's normalisation and fallbacks are modelled (`Routes.AnalyzeIntent`, `Routes.PriorityVerdict`, `Routes.Suggest`).
- Speech synthesis and recognition are platform I/O. Speech is a list of events, and the queue is modelled by `Effects.Queued`. The branch where the browser lacks speech synthesis and `speak` does nothing is not modelled.
- JSON (de)serialisation of the draft list is not modelled. Local storage's content is one of: missing, unparseable, or a parsed list.
- The announcements made when a page mounts or its data loads are not modelled as handlers. The exception is the inbox's count announcement (`InboxPage.LoadedAnnouncement`, whose counts are the list length and `InboxPage.UnreadCount`). Also left out: the online/offline listeners, focus announcements, click handlers on buttons and cards, and the recogniser's error callback.
- The following files are not part of this model: the settings, help and routing pages, and the email card and voice button components (`Settings.tsx`, `Help.tsx`, `App.tsx`, `EmailCard.tsx`, `VoiceButton.tsx`). They hold markup, static text and floating-point sliders.
- Dates are whole milliseconds. `Date` objects, time zones and the string form of dates are not modelled.

## Findings

| source | as written | input that shows it | evidently intended | confidence | as-written member | corrected member |
|---|---|---|---|---|---|---|
| server/routes.ts:92-93 | PATCH /api/emails/:id merges the raw body into the stored email, including an `id` member | PATCH email A with body `{"id": "<id of B>"}`, then GET email A: the record under A's key now carries B's id, and the mark-read step updates the entry under B's key; A stays unread and B becomes read | the stored email keeps its own id; a later fetch marks the fetched email read | not executed | Routes.RenamingPatchMisdirectsMarkRead | Routes.PatchThenFetchMarksRequested |
| server/routes.ts:212-214 | PATCH /api/user/settings merges the raw body into the demo user, including an `id` member | PATCH settings with `{"id": "other"}`: the user stored under "demo-user" has id "other" | the demo user keeps its id | not executed | Routes.RenamingSettingsBreaksKey | Routes.UpdateSettings |
| client/src/pages/EmailView.tsx:32-47 | back, reply, forward and delete call `speak(...)` and then `cancel()`; `EmailViewPage.Reaction` returns this sequence (`EmailViewPage.LeaveAsWritten`) | say "back" on an email: `speak` queues "Returning to inbox.", and the next `cancel()` empties the queue, so the announcement is never heard | stop the reading first, then announce (`EmailViewPage.Leave`) | not executed | EmailViewPage.LeaveAsWrittenIsSilent | EmailViewPage.LeaveIsAnnounced |
