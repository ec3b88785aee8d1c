/** The login page: the auth mode, the username and PIN fields, the
    listening flag, and the three handlers that drive them. */
module LoginPage {
  import opened Wrappers
  import opened Text
  import opened Schema
  import opened Rules
  import opened Effects
  import opened Routes

  datatype AuthMode = VoiceMode | PinMode

  datatype Command = ChoosePin | ChooseVoice | GiveUsername

  /** The branches of the handler, in the order they are tried. */
  const LoginRules: seq<Rule<Command>> := [
    Rule(l => Contains(l, "pin") || Contains(l, "password"), ChoosePin),
    Rule(l => Contains(l, "voice"), ChooseVoice)
  ]

  function CommandOf(transcript: string): (c: Command)
    ensures c == ChoosePin <==> Contains(Lower(transcript), "pin") || Contains(Lower(transcript), "password")
    ensures c == ChooseVoice <==>
              Contains(Lower(transcript), "voice")
              && !Contains(Lower(transcript), "pin") && !Contains(Lower(transcript), "password")
  {
    var lower := Lower(transcript);
    assert Fires(LoginRules[0], lower) <==> Contains(lower, "pin") || Contains(lower, "password");
    assert Fires(LoginRules[1], lower) <==> Contains(lower, "voice");
    Decide(LoginRules, lower, GiveUsername)
  }

  /** The request body of `handleVoiceLogin`: no PIN, a placeholder voice
      print. */
  function VoiceLoginBody(user: string): (r: LoginBody)
    ensures ParseLogin(r).Success? ==>
              ParseLogin(r).value.username == user && ParseLogin(r).value.pin.None?
              && ParseLogin(r).value.voicePrintData.Some?
  {
    LoginBody(Str(user), Absent, Str("voice-auth-demo"))
  }

  /** Voice login names a user and nothing more: the server accepts it for
      any non-empty name and then admits whoever holds that name. */
  lemma VoiceLoginNeedsOnlyUsername(user: string, u: User)
    ensures ParseLogin(VoiceLoginBody(user)).Success? <==> user != ""
    ensures user != "" ==> (Admits(u, ParseLogin(VoiceLoginBody(user)).value) <==> u.username == user)
  {
  }

  /** The request body of `handlePinLogin`. */
  function PinLoginBody(username: string, pin: string): (r: LoginBody)
    ensures ParseLogin(r).Failure? <==> username == "" || |pin| < 4
    ensures ParseLogin(r).Success? ==>
              ParseLogin(r).value == LoginCredentials(username, Some(pin), None)
  {
    LoginBody(Str(username), Str(pin), Absent)
  }

  /** The page sends any non-empty PIN, but the server refuses PINs shorter
      than four characters with status 400. */
  lemma PinLoginBodyAccepted(username: string, pin: string)
    requires username != "" && pin != ""
    ensures ParseLogin(PinLoginBody(username, pin)).Success? <==> |pin| >= 4
    ensures |pin| >= 4 ==> ParseLogin(PinLoginBody(username, pin)).value == LoginCredentials(username, Some(pin), None)
  {
  }

  /** The events after a login request; `ok` is whether it succeeded. */
  function LoginOutcome(ok: bool, failure: string): seq<Event> {
    if ok then [Speak("Authentication successful. Welcome to your inbox."), NavigateLater("/inbox")]
    else [Speak(failure)]
  }

  /** `handleVoiceLogin(user)`. */
  function VoiceLoginEvents(user: string, ok: bool): (events: seq<Event>)
    ensures |events| >= 2 && events[1] == PostLogin(VoiceLoginBody(user))
    ensures Navigates(events) <==> ok
  {
    var events := [Speak("Voice authentication in progress."), PostLogin(VoiceLoginBody(user))]
                  + LoginOutcome(ok, "Authentication failed. Please try again or use PIN.");
    assert ok ==> events[3].NavigateLater?;
    events
  }

  class Login {
    var authMode: AuthMode
    var username: string
    var pin: string
    var voiceListening: bool

    constructor ()
      ensures authMode == VoiceMode && username == "" && pin == "" && !voiceListening
    {
      authMode, username, pin, voiceListening := VoiceMode, "", "", false;
    }

    /** Typing into the username field. */
    method TypeUsername(value: string)
      modifies this
      ensures username == value
      ensures authMode == old(authMode) && pin == old(pin) && voiceListening == old(voiceListening)
    {
      username := value;
    }

    /** Typing into the PIN field. */
    method TypePin(value: string)
      modifies this
      ensures pin == value
      ensures authMode == old(authMode) && username == old(username) && voiceListening == old(voiceListening)
    {
      pin := value;
    }

    /** `handleVoiceResult`; `loginOk` is whether the voice login it may
        start succeeds. */
    method HandleVoiceResult(transcript: string, loginOk: bool) returns (events: seq<Event>)
      modifies this
      ensures !voiceListening && pin == old(pin)
      ensures CommandOf(transcript) == ChoosePin ==>
                authMode == PinMode && username == old(username)
                && events == [Speak("PIN authentication selected. Please enter your username and PIN.")]
      ensures CommandOf(transcript) == ChooseVoice ==>
                authMode == VoiceMode && username == old(username)
                && events == [Speak("Voice authentication selected. Please say your username.")]
      ensures CommandOf(transcript) == GiveUsername ==>
                authMode == old(authMode) && username == transcript
                && events == [Speak("Username set to " + transcript + ". Now authenticating with voice.")]
                             + VoiceLoginEvents(transcript, loginOk)
    {
      match CommandOf(transcript) {
        case ChoosePin =>
          authMode := PinMode;
          events := [Speak("PIN authentication selected. Please enter your username and PIN.")];
        case ChooseVoice =>
          authMode := VoiceMode;
          events := [Speak("Voice authentication selected. Please say your username.")];
        case GiveUsername =>
          username := transcript;
          events := [Speak("Username set to " + transcript + ". Now authenticating with voice.")]
                    + VoiceLoginEvents(transcript, loginOk);
      }
      voiceListening := false;
    }

    /** `handlePinLogin`: reads the fields and changes none of them;
        `loginOk` is whether the request succeeds. */
    function HandlePinLogin(loginOk: bool): (events: seq<Event>)
      reads this
      ensures Requests(events) <==> username != "" && pin != ""
      ensures username != "" && pin != "" ==> |events| >= 2 && events[1] == PostLogin(PinLoginBody(username, pin))
      ensures username == "" || pin == "" ==> events == [Speak("Please enter both username and PIN.")]
    {
      if username == "" || pin == "" then
        [Speak("Please enter both username and PIN.")]
      else
        var events := [Speak("Logging in " + username + " with PIN."), PostLogin(PinLoginBody(username, pin))]
                      + LoginOutcome(loginOk, "Login failed. Please check your username and PIN.");
        assert events[1].PostLogin?;
        events
    }

    /** `handleVoiceButtonClick`; `listening` is the recogniser's own flag. */
    method HandleVoiceButtonClick(listening: bool) returns (events: seq<Event>)
      modifies this
      ensures voiceListening == !listening
      ensures authMode == old(authMode) && username == old(username) && pin == old(pin)
      ensures (StartListening in events) <==> !listening
      ensures listening ==> events == [Speak("Voice input stopped.")]
    {
      if listening {
        events := [Speak("Voice input stopped.")];
        voiceListening := false;
      } else {
        events := [Speak("Listening for voice command."), StartListening];
        voiceListening := true;
      }
    }
  }
}
