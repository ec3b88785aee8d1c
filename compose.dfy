/** The compose page: four pieces of state (the three fields and the field
    that dictation goes to) and the voice-command handler that edits them. */
module ComposePage {
  import opened Text
  import opened Schema
  import opened Storage
  import opened Rules
  import opened Effects

  datatype Field = To | Subject | Body

  datatype Command = Send | SaveDraftCommand | Cancel | Select(field: Field) | Punctuate(mark: string) | Dictate

  /** The branches of the handler, in the order they are tried. */
  const ComposeRules: seq<Rule<Command>> := [
    Rule(l => Contains(l, "send email") || l == "send", Send),
    Rule(l => Contains(l, "save draft"), SaveDraftCommand),
    Rule(l => Contains(l, "cancel") || Contains(l, "back"), Cancel),
    Rule(l => StartsWith(l, "to ") || l == "to" || Contains(l, "recipient"), Select(To)),
    Rule(l => StartsWith(l, "subject") || l == "subject", Select(Subject)),
    Rule(l => StartsWith(l, "body") || l == "body" || Contains(l, "message"), Select(Body)),
    Rule(l => Contains(l, "period"), Punctuate(". ")),
    Rule(l => Contains(l, "comma"), Punctuate(", ")),
    Rule(l => Contains(l, "question mark"), Punctuate("? ")),
    Rule(l => Contains(l, "new paragraph"), Punctuate("\n\n"))
  ]

  /** The command a transcript selects: sending exactly when "send email"
      occurs or the whole transcript is "send". */
  function CommandOf(transcript: string): (c: Command)
    ensures c == Send <==> Contains(Lower(transcript), "send email") || Lower(transcript) == "send"
  {
    var lower := Lower(transcript);
    assert forall j :: 1 <= j < |ComposeRules| ==> ComposeRules[j].action != Send;
    Decide(ComposeRules, lower, Dictate)
  }

  /** The transcript is dictated text exactly when no branch's condition holds. */
  lemma DictationWhenNothingFires(transcript: string)
    ensures CommandOf(transcript) == Dictate <==>
              forall j :: 0 <= j < |ComposeRules| ==> !Fires(ComposeRules[j], Lower(transcript))
  {
  }

  /** A send command wins over every other reading of the transcript. */
  lemma SendComesFirst(transcript: string)
    requires Contains(Lower(transcript), "send email") || Lower(transcript) == "send"
    ensures CommandOf(transcript) == Send
  {
    FirstMatchWins(ComposeRules, Lower(transcript), Dictate, 0);
  }

  /** Punctuation words are only looked for once no field name matched:
      "period" inside a field-select command selects the field. */
  lemma PunctuationOnlyAfterFieldNames(transcript: string)
    ensures CommandOf(transcript).Punctuate? ==>
              forall j :: 0 <= j < 6 ==> !Fires(ComposeRules[j], Lower(transcript))
  {
    match FirstFiring(ComposeRules, Lower(transcript))
    case None =>
    case Some(k) =>
      assert ComposeRules[k].action.Punctuate? ==> k >= 6;
  }

  predicate Filled(to: string, subject: string, body: string) {
    to != "" && subject != "" && body != ""
  }

  /** The recipient name sent with an email: the address up to its first
      '@', or "Recipient" when that part is empty. */
  function RecipientName(to: string): (r: string)
    ensures r != "" && '@' !in r
    ensures BeforeFirst(to, '@') != "" ==> r == BeforeFirst(to, '@') && StartsWith(to, r)
    ensures BeforeFirst(to, '@') == "" ==> r == "Recipient"
  {
    var local := BeforeFirst(to, '@');
    if local != "" then local else "Recipient"
  }

  /** The body of the POST a send issues. */
  function SendPayload(to: string, subject: string, body: string): (r: EmailBody)
    ensures EmailBodyOk(r)
    ensures r.recipientEmail == Str(to) && r.subject == Str(subject) && r.body == Str(body)
    ensures r.recipient == Str(RecipientName(to))
    ensures r.userId == Str(DemoUserId) && r.senderEmail == Str(DemoAddress)
    ensures r.isDraft == Bool(false) && r.isInbox == Bool(true) && r.isSent == Bool(true)
    ensures r.id.Absent? && r.timestamp.Absent? && r.isRead.Absent? && r.isPriority.Absent?
  {
    EmailBody(
      id := Absent, userId := Str(DemoUserId), sender := Str("Demo User"), senderEmail := Str(DemoAddress),
      recipient := Str(RecipientName(to)), recipientEmail := Str(to),
      subject := Str(subject), body := Str(body),
      isRead := Absent, isPriority := Absent, isDraft := Bool(false), isInbox := Bool(true), isSent := Bool(true),
      timestamp := Absent)
  }

  /** A send the page lets through passes the server's schema, and the
      stored email lands in the sender's own inbox, unread. */
  lemma SendPayloadAccepted(to: string, subject: string, body: string, id: string, now: int)
    requires Filled(to, subject, body)
    ensures ParseInsertEmail(SendPayload(to, subject, body)).Success?
    ensures var ins := ParseInsertEmail(SendPayload(to, subject, body)).value;
            var e := NewEmail(id, now, ins);
            e.recipientEmail == to && e.subject == subject && e.body == body
            && e.recipient == RecipientName(to)
            && !e.isDraft && e.isSent && !e.isRead && !e.isPriority
            && InInbox(e, DemoUserId)
  {
  }

  /** The events of `handleSend`; `sendOk` is whether the POST succeeded. */
  function SendEvents(to: string, subject: string, body: string, sendOk: bool): (events: seq<Event>)
    ensures Requests(events) <==> Filled(to, subject, body)
    ensures !Filled(to, subject, body) ==> events == [Speak("Please fill in recipient, subject, and message before sending.")]
    ensures Filled(to, subject, body) ==>
              |events| >= 2 && events[1] == PostEmail(SendPayload(to, subject, body))
              && (Navigates(events) <==> sendOk)
  {
    if !Filled(to, subject, body) then
      [Speak("Please fill in recipient, subject, and message before sending.")]
    else
      var sent := [Speak("Sending email."), PostEmail(SendPayload(to, subject, body))];
      var outcome := if sendOk then [Speak("Email sent successfully."), NavigateLater("/inbox")]
                     else [Speak("Error sending email. Please try again.")];
      assert (sent + outcome)[1].PostEmail?;
      assert sendOk ==> (sent + outcome)[3].NavigateLater?;
      sent + outcome
  }

  /** The events of the save-draft command: a draft is saved only when some
      field holds text, and the page returns to the inbox either way. */
  function SaveDraftEvents(to: string, subject: string, body: string): (events: seq<Event>)
    ensures |events| > 0 && events[|events| - 1] == NavigateLater("/inbox")
    ensures (exists k :: 0 <= k < |events| && events[k].SaveDraft?) <==> (to != "" || subject != "" || body != "")
    ensures forall k :: 0 <= k < |events| && events[k].SaveDraft? ==> events[k] == SaveDraft(to, subject, body)
  {
    if to != "" || subject != "" || body != "" then
      var events := [SaveDraft(to, subject, body), Speak("Email saved as draft."), NavigateLater("/inbox")];
      assert events[0].SaveDraft?;
      events
    else
      [Speak("Nothing to save."), NavigateLater("/inbox")]
  }

  function SelectPrompt(f: Field): string {
    match f
    case To => "Recipient field selected. Say the email address."
    case Subject => "Subject field selected. Say the subject."
    case Body => "Message field selected. Say your message."
  }

  /** The body after dictating `transcript` into it: separated from earlier
      text by one space. */
  function Dictated(prev: string, transcript: string): (r: string)
    ensures |r| == |prev| + |transcript| + (if prev == "" then 0 else 1)
    ensures r[..|prev|] == prev && r[|r| - |transcript|..] == transcript
    ensures prev != "" ==> r[|prev|] == ' '
  {
    if prev != "" then prev + " " + transcript else transcript
  }

  class Compose {
    var to: string
    var subject: string
    var body: string
    var currentField: Field

    constructor ()
      ensures to == "" && subject == "" && body == "" && currentField == To
    {
      to, subject, body, currentField := "", "", "", To;
    }

    /** `handleVoiceResult`: the branch taken is the first rule of
        `ComposeRules` whose condition holds. */
    method HandleVoiceResult(transcript: string, sendOk: bool) returns (events: seq<Event>)
      modifies this
      ensures CommandOf(transcript) == Send ==>
                to == old(to) && subject == old(subject) && body == old(body) && currentField == old(currentField)
                && events == SendEvents(to, subject, body, sendOk)
      ensures CommandOf(transcript) == SaveDraftCommand ==>
                to == old(to) && subject == old(subject) && body == old(body) && currentField == old(currentField)
                && events == SaveDraftEvents(to, subject, body)
      ensures CommandOf(transcript) == Cancel ==>
                to == old(to) && subject == old(subject) && body == old(body) && currentField == old(currentField)
                && events == [Speak("Canceling. Returning to inbox."), Navigate("/inbox")]
      ensures CommandOf(transcript).Select? ==>
                to == old(to) && subject == old(subject) && body == old(body)
                && currentField == CommandOf(transcript).field
                && events == [Speak(SelectPrompt(currentField))]
      ensures CommandOf(transcript).Punctuate? ==>
                to == old(to) && subject == old(subject) && currentField == old(currentField) && events == []
                && body == old(body) + (if old(currentField) == Body then CommandOf(transcript).mark else "")
      ensures CommandOf(transcript) == Dictate && old(currentField) == To ==>
                to == transcript && subject == old(subject) && body == old(body) && currentField == To
                && events == [Speak("Recipient set to " + transcript + ". Say 'subject' to continue.")]
      ensures CommandOf(transcript) == Dictate && old(currentField) == Subject ==>
                to == old(to) && subject == transcript && body == old(body) && currentField == Subject
                && events == [Speak("Subject set to " + transcript + ". Say 'body' to write your message.")]
      ensures CommandOf(transcript) == Dictate && old(currentField) == Body ==>
                to == old(to) && subject == old(subject) && body == Dictated(old(body), transcript)
                && currentField == Body && events == []
    {
      match CommandOf(transcript)
      case Send =>
        events := HandleSend(sendOk);
      case SaveDraftCommand =>
        events := SaveDraftEvents(to, subject, body);
      case Cancel =>
        events := [Speak("Canceling. Returning to inbox."), Navigate("/inbox")];
      case Select(field) =>
        currentField := field;
        events := [Speak(SelectPrompt(field))];
      case Punctuate(mark) =>
        if currentField == Body {
          body := body + mark;
        }
        events := [];
      case Dictate =>
        if currentField == To {
          to := transcript;
          events := [Speak("Recipient set to " + transcript + ". Say 'subject' to continue.")];
        } else if currentField == Subject {
          subject := transcript;
          events := [Speak("Subject set to " + transcript + ". Say 'body' to write your message.")];
        } else {
          body := Dictated(body, transcript);
          events := [];
        }
    }

    /** `handleSend`: reads the fields and changes none of them. */
    function HandleSend(sendOk: bool): (events: seq<Event>)
      reads this
      ensures Requests(events) <==> Filled(to, subject, body)
      ensures Requests(events) ==> PostEmail(SendPayload(to, subject, body)) in events
    {
      SendEvents(to, subject, body, sendOk)
    }
  }
}
