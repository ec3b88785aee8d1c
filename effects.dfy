/** What a page handler does besides updating its own state: speech,
    navigation, requests and draft saves, recorded in the order the handler
    issues them. */
module Effects {
  import opened Schema

  datatype Event =
    | Speak(text: string)
    | CancelSpeech
    | Navigate(path: string)
    | NavigateLater(path: string)
    | SaveDraft(to: string, subject: string, body: string)
    | PostEmail(email: EmailBody)
    | PostLogin(credentials: LoginBody)
    | StartListening

  /** The utterance left in the synthesiser's queue once the handler
      returns: speaking first cancels whatever is queued, and cancelling
      empties the queue. */
  function Queued(events: seq<Event>): (q: seq<string>)
    ensures |q| <= 1
    ensures |events| > 0 && events[|events| - 1].Speak? ==> q == [events[|events| - 1].text]
    ensures |events| > 0 && events[|events| - 1].CancelSpeech? ==> q == []
  {
    if |events| == 0 then []
    else
      match events[|events| - 1]
      case Speak(text) => [text]
      case CancelSpeech => []
      case _ => Queued(events[..|events| - 1])
  }

  /** An announcement survives exactly when nothing cancels or replaces it
      before the handler returns. */
  lemma {:induction false} QueuedAfterSpeak(before: seq<Event>, text: string, after: seq<Event>)
    requires forall k :: 0 <= k < |after| ==> !after[k].Speak? && !after[k].CancelSpeech?
    ensures Queued(before + [Speak(text)] + after) == [text]
  {
    if |after| > 0 {
      var all := before + [Speak(text)] + after;
      assert all[..|all| - 1] == before + [Speak(text)] + after[..|after| - 1];
      QueuedAfterSpeak(before, text, after[..|after| - 1]);
    } else {
      assert before + [Speak(text)] + after == before + [Speak(text)];
    }
  }

  predicate Navigates(events: seq<Event>) {
    exists k :: 0 <= k < |events| && (events[k].Navigate? || events[k].NavigateLater?)
  }

  predicate Requests(events: seq<Event>) {
    exists k :: 0 <= k < |events| && (events[k].PostEmail? || events[k].PostLogin?)
  }
}
