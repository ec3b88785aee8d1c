/** The email view page: the voice-command handler over the paused flag
    and the displayed email. */
module EmailViewPage {
  import opened Wrappers
  import opened Text
  import opened Schema
  import opened Rules
  import opened Effects

  datatype Command = Back | Reply | Forward | Delete | Repeat | Pause | Resume | Unrecognized

  /** The branches of the handler, in the order they are tried. */
  const ViewRules: seq<Rule<Command>> := [
    Rule(l => Contains(l, "back") || Contains(l, "inbox"), Back),
    Rule(l => Contains(l, "reply"), Reply),
    Rule(l => Contains(l, "forward"), Forward),
    Rule(l => Contains(l, "delete"), Delete),
    Rule(l => Contains(l, "repeat") || Contains(l, "read again"), Repeat),
    Rule(l => Contains(l, "pause"), Pause),
    Rule(l => Contains(l, "resume") || Contains(l, "continue"), Resume)
  ]

  /** The command a transcript selects: going back exactly when "back" or
      "inbox" occurs. */
  function CommandOf(transcript: string): (c: Command)
    ensures c == Back <==> Contains(Lower(transcript), "back") || Contains(Lower(transcript), "inbox")
  {
    var lower := Lower(transcript);
    assert Fires(ViewRules[0], lower) <==> Contains(lower, "back") || Contains(lower, "inbox");
    assert forall j :: 1 <= j < |ViewRules| ==> ViewRules[j].action != Back;
    Decide(ViewRules, lower, Unrecognized)
  }

  /** The transcript is unrecognised exactly when no branch's condition holds. */
  lemma UnrecognizedWhenNothingFires(transcript: string)
    ensures CommandOf(transcript) == Unrecognized <==>
              forall j :: 0 <= j < |ViewRules| ==> !Fires(ViewRules[j], Lower(transcript))
  {
  }

  /** Going back is recognised before anything else. */
  lemma BackComesFirst(transcript: string)
    requires Fires(ViewRules[0], Lower(transcript))
    ensures CommandOf(transcript) == Back
  {
    FirstMatchWins(ViewRules, Lower(transcript), Unrecognized, 0);
  }

  /** "pause" is checked before "resume", so a transcript holding both
      pauses or is taken by an earlier branch; it never resumes. */
  lemma PauseBeatsResume(transcript: string)
    requires Contains(Lower(transcript), "pause")
    ensures CommandOf(transcript) != Resume && CommandOf(transcript) != Unrecognized
  {
    assert Fires(ViewRules[5], Lower(transcript));
    var k := FirstFiring(ViewRules, Lower(transcript)).value;
    assert ViewRules[k].action != Resume;
  }

  /** The text read out for an email. */
  function Reading(e: Email): string {
    "Email from " + e.sender + ". Subject: " + e.subject + ". " + e.body
  }

  /** The id as interpolated into a link: the id, or "undefined" while no
      email is loaded. */
  function IdText(email: Option<Email>): string {
    if email.Some? then email.value.id else "undefined"
  }

  /** The compose link for a reply (`param` "replyTo") or a forward
      ("forward"). */
  function ComposeLink(param: string, email: Option<Email>): (path: string)
    ensures StartsWith(path, "/compose?" + param + "=")
    ensures path[|"/compose?" + param + "="|..] == IdText(email)
  {
    var prefix := "/compose?" + param + "=";
    var path := prefix + IdText(email);
    assert path[..|prefix|] == prefix && path[|prefix|..] == IdText(email);
    path
  }

  /** Leaving the page as written: announce, cancel speech, navigate. */
  function LeaveAsWritten(announcement: string, navigation: Event): (r: seq<Event>)
    ensures |r| == 3 && r[2] == navigation
    ensures r[0] == Speak(announcement) && r[1] == CancelSpeech
  {
    [Speak(announcement), CancelSpeech, navigation]
  }

  /** The cancel issued after the announcement empties the speech queue: the
      announcement is never heard. */
  lemma LeaveAsWrittenIsSilent(announcement: string, navigation: Event)
    requires navigation.Navigate? || navigation.NavigateLater?
    ensures Queued(LeaveAsWritten(announcement, navigation)) == []
    ensures Navigates(LeaveAsWritten(announcement, navigation))
    ensures !Requests(LeaveAsWritten(announcement, navigation))
  {
    var events := LeaveAsWritten(announcement, navigation);
    assert events[..|events| - 1] == [Speak(announcement), CancelSpeech];
    assert events[2] == navigation;
  }

  /** Leaving the page: cancel the reading, announce, navigate. The same
      events as the page issues, with the cancel moved first. */
  function Leave(announcement: string, navigation: Event): (r: seq<Event>)
    ensures multiset(r) == multiset(LeaveAsWritten(announcement, navigation))
    ensures |r| == 3 && r[0] == CancelSpeech && r[2] == navigation
  {
    [CancelSpeech, Speak(announcement), navigation]
  }

  /** Cancelling before announcing leaves the announcement queued. */
  lemma LeaveIsAnnounced(announcement: string, navigation: Event)
    requires navigation.Navigate? || navigation.NavigateLater?
    ensures Queued(Leave(announcement, navigation)) == [announcement]
  {
    assert Leave(announcement, navigation) == [CancelSpeech] + [Speak(announcement)] + [navigation];
    QueuedAfterSpeak([CancelSpeech], announcement, [navigation]);
  }

  /** What the page does for a transcript, given the loaded email and
      whether reading is paused. The four commands that leave the page
      announce and then cancel speech, so the announcement does not survive;
      they navigate and issue no request (delete included). */
  function Reaction(transcript: string, email: Option<Email>, paused: bool): (events: seq<Event>)
    ensures CommandOf(transcript).Back? || CommandOf(transcript).Reply? || CommandOf(transcript).Forward? || CommandOf(transcript).Delete? ==>
              Queued(events) == [] && Navigates(events) && !Requests(events)
    ensures CommandOf(transcript) == Back ==> events == LeaveAsWritten("Returning to inbox.", Navigate("/inbox"))
    ensures CommandOf(transcript) == Reply ==> events == LeaveAsWritten("Opening reply.", Navigate(ComposeLink("replyTo", email)))
    ensures CommandOf(transcript) == Forward ==> events == LeaveAsWritten("Opening forward.", Navigate(ComposeLink("forward", email)))
    ensures CommandOf(transcript) == Delete ==> events == LeaveAsWritten("Email deleted.", NavigateLater("/inbox"))
    ensures CommandOf(transcript) == Repeat ==> events == (if email.Some? then [Speak(Reading(email.value))] else [])
    ensures CommandOf(transcript) == Pause ==> events == [CancelSpeech, Speak("Paused.")] && Queued(events) == ["Paused."]
    ensures CommandOf(transcript) == Resume ==> events == (if paused && email.Some? then [Speak(email.value.body)] else [])
    ensures CommandOf(transcript) == Unrecognized ==> events == [Speak("Command not recognized: " + transcript)]
  {
    match CommandOf(transcript)
    case Back =>
      LeaveAsWrittenIsSilent("Returning to inbox.", Navigate("/inbox"));
      LeaveAsWritten("Returning to inbox.", Navigate("/inbox"))
    case Reply =>
      LeaveAsWrittenIsSilent("Opening reply.", Navigate(ComposeLink("replyTo", email)));
      LeaveAsWritten("Opening reply.", Navigate(ComposeLink("replyTo", email)))
    case Forward =>
      LeaveAsWrittenIsSilent("Opening forward.", Navigate(ComposeLink("forward", email)));
      LeaveAsWritten("Opening forward.", Navigate(ComposeLink("forward", email)))
    case Delete =>
      LeaveAsWrittenIsSilent("Email deleted.", NavigateLater("/inbox"));
      LeaveAsWritten("Email deleted.", NavigateLater("/inbox"))
    case Repeat => if email.Some? then [Speak(Reading(email.value))] else []
    case Pause => [CancelSpeech, Speak("Paused.")]
    case Resume => if paused && email.Some? then [Speak(email.value.body)] else []
    case Unrecognized => [Speak("Command not recognized: " + transcript)]
  }

  class EmailView {
    var isPaused: bool

    constructor ()
      ensures !isPaused
    {
      isPaused := false;
    }

    /** `handleVoiceResult`; `email` is the loaded email, if any. Pause sets
        the paused flag, a resume that restarts the reading clears it, and
        every other command leaves it alone. */
    method HandleVoiceResult(transcript: string, email: Option<Email>) returns (events: seq<Event>)
      modifies this
      ensures events == Reaction(transcript, email, old(isPaused))
      ensures CommandOf(transcript) == Pause ==> isPaused
      ensures CommandOf(transcript) == Resume && old(isPaused) && email.Some? ==> !isPaused
      ensures CommandOf(transcript) != Pause && !(CommandOf(transcript) == Resume && old(isPaused) && email.Some?) ==>
                isPaused == old(isPaused)
    {
      events := Reaction(transcript, email, isPaused);
      match CommandOf(transcript)
      case Pause =>
        isPaused := true;
      case Resume =>
        if email.Some? && isPaused {
          isPaused := false;
        }
      case _ =>
    }
  }
}
