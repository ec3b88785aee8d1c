/** The inbox page: the voice-command handler over the listed emails, the
    email-number extraction with its fallback, and the unread count. */
module InboxPage {
  import opened Wrappers
  import opened Text
  import opened Schema
  import opened Rules
  import opened Effects

  datatype Command = OpenCompose | OpenSettings | OpenHelp | LogOut | OpenEmail | Unrecognized

  /** The branches of the handler, in the order they are tried. */
  const InboxRules: seq<Rule<Command>> := [
    Rule(l => Contains(l, "compose") || Contains(l, "new email") || Contains(l, "write"), OpenCompose),
    Rule(l => Contains(l, "settings"), OpenSettings),
    Rule(l => Contains(l, "help"), OpenHelp),
    Rule(l => Contains(l, "logout") || Contains(l, "log out"), LogOut),
    Rule(l => Contains(l, "read") || Contains(l, "open"), OpenEmail)
  ]

  /** The command a transcript selects: composing exactly when one of the
      compose words occurs, opening an email only when "read" or "open"
      occurs. */
  function CommandOf(transcript: string): (c: Command)
    ensures c == OpenCompose <==>
              Contains(Lower(transcript), "compose") || Contains(Lower(transcript), "new email") || Contains(Lower(transcript), "write")
    ensures c == OpenEmail ==> Contains(Lower(transcript), "read") || Contains(Lower(transcript), "open")
  {
    var lower := Lower(transcript);
    assert forall j :: 1 <= j < |InboxRules| ==> InboxRules[j].action != OpenCompose;
    assert forall j :: 0 <= j < 4 ==> InboxRules[j].action != OpenEmail;
    Decide(InboxRules, lower, Unrecognized)
  }

  /** The transcript is unrecognised exactly when no branch's condition holds. */
  lemma UnrecognizedWhenNothingFires(transcript: string)
    ensures CommandOf(transcript) == Unrecognized <==>
              forall j :: 0 <= j < |InboxRules| ==> !Fires(InboxRules[j], Lower(transcript))
  {
  }

  /** Composing is recognised before anything else. */
  lemma ComposeComesFirst(transcript: string)
    requires Fires(InboxRules[0], Lower(transcript))
    ensures CommandOf(transcript) == OpenCompose
  {
    FirstMatchWins(InboxRules, Lower(transcript), Unrecognized, 0);
  }

  /** An email is opened only when no navigation keyword came first:
      "open settings" opens the settings. */
  lemma OpenEmailComesLast(transcript: string)
    ensures CommandOf(transcript) == OpenEmail ==>
              forall j :: 0 <= j < 4 ==> !Fires(InboxRules[j], Lower(transcript))
  {
    match FirstFiring(InboxRules, Lower(transcript))
    case None =>
    case Some(k) =>
      assert InboxRules[k].action == OpenEmail ==> k == 4;
  }

  /** The number spoken in a read/open command (the first run of digits),
      when it names an email of the list. */
  predicate NamesEmail(lower: string, count: nat) {
    FirstDigitRun(lower).Some? && 1 <= DigitsValue(FirstDigitRun(lower).value) <= count
  }

  /** The index of the email a read/open command opens: the one numbered
      in the transcript, else the first, else none. */
  function OpenTarget(lower: string, emails: seq<Email>): (r: Option<nat>)
    ensures r.None? <==> |emails| == 0
    ensures r.Some? ==> r.value < |emails|
    ensures NamesEmail(lower, |emails|) ==> r == Some(DigitsValue(FirstDigitRun(lower).value) - 1)
    ensures !NamesEmail(lower, |emails|) && |emails| > 0 ==> r == Some(0)
  {
    match FirstDigitRun(lower)
    case Some(digits) =>
      var n := DigitsValue(digits);
      if 1 <= n <= |emails| then Some(n - 1)
      else if |emails| > 0 then Some(0)
      else None
    case None =>
      if |emails| > 0 then Some(0) else None
  }

  /** A number past the end of the list, or zero, falls back to the first
      email. */
  lemma OutOfRangeOpensFirst(lower: string, emails: seq<Email>)
    requires |emails| > 0 && FirstDigitRun(lower).Some?
    requires var n := DigitsValue(FirstDigitRun(lower).value); n == 0 || n > |emails|
    ensures OpenTarget(lower, emails) == Some(0)
  {
  }

  /** "open email 9" with three emails opens the first. */
  lemma OpenEmailNine(emails: seq<Email>)
    requires |emails| == 3
    ensures OpenTarget("open email 9", emails) == Some(0)
  {
  }

  /** What the page does for a transcript, given the listed emails. */
  function Reaction(transcript: string, emails: seq<Email>): (events: seq<Event>)
    ensures CommandOf(transcript) == OpenCompose ==> events == [Speak("Opening email composition."), Navigate("/compose")]
    ensures CommandOf(transcript) == OpenSettings ==> events == [Speak("Opening settings."), Navigate("/settings")]
    ensures CommandOf(transcript) == OpenHelp ==> events == [Speak("Opening help."), Navigate("/help")]
    ensures CommandOf(transcript) == LogOut ==> events == [Speak("Logging out. Goodbye."), NavigateLater("/")]
    ensures CommandOf(transcript) == OpenEmail && |emails| > 0 ==>
              var i := OpenTarget(Lower(transcript), emails).value;
              |events| == 2 && events[1] == Navigate("/email/" + emails[i].id)
    ensures Navigates(events) <==> CommandOf(transcript) != Unrecognized && !(CommandOf(transcript) == OpenEmail && |emails| == 0)
    ensures CommandOf(transcript) == Unrecognized ==>
              events == [Speak("Command not recognized: " + transcript + ". Say help for available commands.")]
  {
    var lower := Lower(transcript);
    var command := CommandOf(transcript);
    var events := match command
      case OpenCompose => [Speak("Opening email composition."), Navigate("/compose")]
      case OpenSettings => [Speak("Opening settings."), Navigate("/settings")]
      case OpenHelp => [Speak("Opening help."), Navigate("/help")]
      case LogOut => [Speak("Logging out. Goodbye."), NavigateLater("/")]
      case OpenEmail =>
        if NamesEmail(lower, |emails|) then
          var i := DigitsValue(FirstDigitRun(lower).value) - 1;
          [Speak("Opening email " + FirstDigitRun(lower).value + " from " + emails[i].sender), Navigate("/email/" + emails[i].id)]
        else if |emails| > 0 then
          [Speak("Opening first email from " + emails[0].sender), Navigate("/email/" + emails[0].id)]
        else []
      case Unrecognized => [Speak("Command not recognized: " + transcript + ". Say help for available commands.")];
    assert |events| == 2 ==> events[1].Navigate? || events[1].NavigateLater?;
    events
  }

  /** The number of unread emails in the list. */
  function UnreadCount(emails: seq<Email>): (n: nat)
    ensures n <= |emails|
    ensures n == 0 <==> forall i :: 0 <= i < |emails| ==> emails[i].isRead
    ensures n == |emails| <==> forall i :: 0 <= i < |emails| ==> !emails[i].isRead
  {
    if |emails| == 0 then 0
    else (if emails[0].isRead then 0 else 1) + UnreadCount(emails[1..])
  }

  /** Counting unread emails distributes over concatenation. */
  lemma {:induction false} UnreadCountAppend(a: seq<Email>, b: seq<Email>)
    ensures UnreadCount(a + b) == UnreadCount(a) + UnreadCount(b)
  {
    if |a| > 0 {
      assert (a + b)[1..] == a[1..] + b;
      UnreadCountAppend(a[1..], b);
    } else {
      assert a + b == b;
    }
  }

  /** The announcement made once the list has loaded: the first number in
      it is the number of emails, and it closes on the unread count. */
  function LoadedAnnouncement(emails: seq<Email>): (r: string)
    ensures FirstDigitRun(r) == Some(NatToString(|emails|))
    ensures DigitsValue(FirstDigitRun(r).value) == |emails|
    ensures var tail := NatToString(UnreadCount(emails)) + " unread.";
            |tail| <= |r| && r[|r| - |tail|..] == tail
  {
    var total := NatToString(|emails|);
    var tail := NatToString(UnreadCount(emails)) + " unread.";
    AnnouncementShape(total, tail);
    DigitsValueOfNatToString(|emails|);
    "Inbox loaded. You have " + total + " emails, " + tail
  }

  lemma AnnouncementShape(total: string, tail: string)
    requires total != [] && AllDigits(total)
    ensures var r := "Inbox loaded. You have " + total + " emails, " + tail;
            FirstDigitRun(r) == Some(total) && r[|r| - |tail|..] == tail
  {
    var intro := "Inbox loaded. You have ";
    var rest := " emails, " + tail;
    var r := intro + total + rest;
    assert r == intro + total + " emails, " + tail;
    FirstDigitRunBetween(intro, total, rest);
    assert r == (intro + total + " emails, ") + tail;
  }

  class Inbox {
    var currentCommand: string

    constructor ()
      ensures currentCommand == ""
    {
      currentCommand := "";
    }

    /** `handleVoiceResult`: records the transcript as the current command
        and reacts to it. */
    method HandleVoiceResult(transcript: string, emails: seq<Email>) returns (events: seq<Event>)
      modifies this
      ensures currentCommand == transcript
      ensures events == Reaction(transcript, emails)
    {
      currentCommand := transcript;
      events := Reaction(transcript, emails);
    }
  }
}
