/** The completion client (`get_ai_response`): building the request payload,
    the bounded retry loop around the hosted completion call, and the
    post-processing of its reply. The call itself is not modelled; an `Api`
    value stands for what the service does on each attempt. */
module Completion {
  import opened Wrappers
  import opened Text
  import opened Messages

  const SystemPrompt: string := "You are a helpful assistant. Keep responses short and clear for mobile users. Limit responses to 2-3 sentences maximum."
  const NotAvailable: string := "Sorry, the AI service is not available."
  const NoContent: string := "Sorry, I couldn't generate a response."
  const TimeoutNotice: string := "Network timeout. Please try again with a shorter message."
  const ConnectNotice: string := "Sorry, I'm having trouble connecting. Please try again."
  const InternalError: string := "Sorry, something went wrong. Please try again."

  /** How many of the latest history entries are looked at (the last of them is dropped). */
  const RecentLimit: nat := 8
  const HistoryChars: nat := 200
  const InputChars: nat := 500
  const ReplyChars: nat := 300
  /** The `max_retries` default. */
  const DefaultRetries: nat := 2

  /** What one call to the completion service does: it answers with optional
      content, or raises an error whose text is given. */
  datatype Attempt = Answered(content: Option<string>) | Raised(error: string)

  /** The completion service: its outcome for a payload on the attempt with the given index. */
  type Api = (seq<Message>, nat) -> Attempt

  /** What `get_ai_response` returns (`None` when the retry range is empty)
      and how many calls to the service it made. */
  datatype Reply = Reply(text: Option<string>, attempts: nat)

  function SystemMessage(): Message {
    Message("system", SystemPrompt)
  }

  /** `conversation_history[-8:][:-1]` when the history is truthy: the at most 7
      entries immediately before the history's last entry, in order. */
  function HistoryWindow(history: Option<seq<Entry>>): (w: seq<Entry>)
    ensures |w| <= RecentLimit - 1
    ensures history.None? || history.value == [] ==> w == []
    ensures history.Some? && history.value != [] ==>
      var h := history.value;
      && |w| == (if |h| <= RecentLimit then |h| - 1 else RecentLimit - 1)
      && w == h[|h| - 1 - |w|..|h| - 1]
  {
    match history
    case None => []
    case Some(h) =>
      if h == [] then []
      else
        var recent := if |h| > RecentLimit then h[|h| - RecentLimit..] else h;
        recent[..|recent| - 1]
  }

  /** A history entry as it is sent: its role, and its content cut to 200 code points. */
  function Shortened(e: Entry): Message {
    Message(e.role.GetOr(""), Prefix(e.content.GetOr(""), HistoryChars))
  }

  /** The window's entries as they are sent, in order. */
  function ShortenedAll(w: seq<Entry>): seq<Message> {
    if w == [] then [] else ShortenedAll(w[..|w| - 1]) + [Shortened(w[|w| - 1])]
  }

  /** Sending the window is a 1:1 map that keeps each entry's position. */
  lemma {:induction false} ShortenedAllAt(w: seq<Entry>)
    ensures |ShortenedAll(w)| == |w|
    ensures forall k :: 0 <= k < |w| ==> ShortenedAll(w)[k] == Shortened(w[k])
  {
    if w != [] {
      ShortenedAllAt(w[..|w| - 1]);
    }
  }

  /** The request payload: the system instruction, the history window with each
      content cut to 200 code points, then the user message cut to 500. `None`
      when an entry of the window lacks a key, where Python raises KeyError. */
  function Payload(userMessage: string, history: Option<seq<Entry>>): Option<seq<Message>> {
    var w := HistoryWindow(history);
    if AllWellFormed(w) then
      Some([SystemMessage()] + ShortenedAll(w) + [Message("user", Prefix(userMessage, InputChars))])
    else
      None
  }

  /** The payload exists exactly when every entry of the window has both keys;
      it then holds the system entry, one entry per window entry with the same
      role and content cut to 200 code points, and the user message cut to 500:
      at most 9 entries. */
  lemma PayloadShape(userMessage: string, history: Option<seq<Entry>>)
    ensures Payload(userMessage, history).Some? <==> AllWellFormed(HistoryWindow(history))
    ensures Payload(userMessage, history).Some? ==>
      var w := HistoryWindow(history);
      var q := Payload(userMessage, history).value;
      && |q| == |w| + 2
      && |q| <= RecentLimit + 1
      && q[0] == Message("system", SystemPrompt)
      && q[|q| - 1] == Message("user", Prefix(userMessage, InputChars))
      && forall k :: 0 <= k < |w| ==>
           && w[k].role == Some(q[k + 1].role)
           && w[k].content.Some?
           && q[k + 1].content == Prefix(w[k].content.value, HistoryChars)
  {
    var w := HistoryWindow(history);
    ShortenedAllAt(w);
    if AllWellFormed(w) {
      var q := Payload(userMessage, history).value;
      forall k | 0 <= k < |w|
        ensures w[k].role == Some(q[k + 1].role) && w[k].content.Some?
        ensures q[k + 1].content == Prefix(w[k].content.value, HistoryChars)
      {
        assert q[k + 1] == ShortenedAll(w)[k];
      }
    }
  }

  /** Builds the payload by successive appends, as `get_ai_response` does
      (Downloads/PocketChat/chat.py:26-47). */
  method BuildPayload(userMessage: string, history: Option<seq<Entry>>) returns (p: Option<seq<Message>>)
    ensures p == Payload(userMessage, history)
  {
    var messages := [SystemMessage()];
    if history.Some? && history.value != [] {
      var h := history.value;
      var recent := if |h| > RecentLimit then h[|h| - RecentLimit..] else h;
      assert recent[..|recent| - 1] == HistoryWindow(history);
      var i := 0;
      while i < |recent| - 1
        invariant 0 <= i <= |recent| - 1
        invariant AllWellFormed(recent[..i])
        invariant messages == [SystemMessage()] + ShortenedAll(recent[..i])
      {
        var msg := recent[i];
        if msg.role.None? || msg.content.None? {
          // KeyError, caught by the outer handler
          assert HistoryWindow(history)[i] == msg;
          return None;
        }
        messages := messages + [Message(msg.role.value, Prefix(msg.content.value, HistoryChars))];
        assert recent[..i + 1][..i] == recent[..i];
        i := i + 1;
      }
      assert recent[..i] == HistoryWindow(history);
    }
    assert AllWellFormed(HistoryWindow(history));
    assert messages == [SystemMessage()] + ShortenedAll(HistoryWindow(history));
    messages := messages + [Message("user", Prefix(userMessage, InputChars))];
    return Some(messages);
  }

  /** The reply text made from a successful call's content: missing or empty
      content gives the fixed apology; otherwise the content is stripped and, if
      still over 300 code points, cut to 297 followed by "...". */
  function ProcessReply(content: Option<string>): (r: string)
    ensures |r| <= ReplyChars
    ensures content.None? || content.value == [] ==> r == NoContent
    ensures content.Some? && content.value != [] ==>
      var s := Strip(content.value);
      && (|s| <= ReplyChars ==> r == s)
      && (|s| > ReplyChars ==> |r| == 300 && r[..297] == s[..297] && r[297..] == "...")
    ensures content.Some? && content.value != [] && (forall k :: 0 <= k < |content.value| ==> IsSpace(content.value[k]))
      ==> r == []
  {
    if content.None? || content.value == [] then
      Ellipsize(NoContent, ReplyChars)
    else
      StripSpec(content.value);
      Ellipsize(Strip(content.value), ReplyChars)
  }

  /** The fallback after the last attempt failed: the timeout notice exactly when
      the lower-cased error text contains "timeout", the connection notice otherwise. */
  function ExhaustedFallback(error: string): (r: string)
    ensures r == TimeoutNotice <==> Contains(Lower(error), "timeout")
    ensures r == ConnectNotice <==> !Contains(Lower(error), "timeout")
  {
    if Contains(Lower(error), "timeout") then TimeoutNotice else ConnectNotice
  }

  /** The retry loop from attempt number `attempt` on: return on the first
      answer, retry after an error while attempts remain, and give the fallback
      for the last error once `maxRetries + 1` attempts have failed. */
  function RetryFrom(payload: seq<Message>, api: Api, attempt: nat, maxRetries: int): (r: Reply)
    requires attempt <= maxRetries
    ensures attempt < r.attempts <= maxRetries + 1
    ensures r.text.Some?
    decreases maxRetries - attempt
  {
    match api(payload, attempt)
    case Answered(content) => Reply(Some(ProcessReply(content)), attempt + 1)
    case Raised(error) =>
      if attempt < maxRetries then RetryFrom(payload, api, attempt + 1, maxRetries)
      else Reply(Some(ExhaustedFallback(error)), attempt + 1)
  }

  /** The whole of `get_ai_response`. */
  function AiResponse(clientReady: bool, userMessage: string, history: Option<seq<Entry>>,
                      maxRetries: int, api: Api): Reply
  {
    if !clientReady then Reply(Some(NotAvailable), 0)
    else match Payload(userMessage, history)
      case None => Reply(Some(InternalError), 0)
      case Some(payload) =>
        if maxRetries < 0 then Reply(None, 0) else RetryFrom(payload, api, 0, maxRetries)
  }

  /** The text returned when the loop stops at attempt outcome `a`: the processed
      answer, or the fallback chosen from the error. */
  function Settled(a: Attempt): string {
    match a
    case Answered(content) => ProcessReply(content)
    case Raised(error) => ExhaustedFallback(error)
  }

  /** The retry loop stops at the first attempt that is answered and returns
      that answer processed; every attempt before it raised; when the last
      attempt made raised too, it was attempt `maxRetries` and the fallback is
      chosen from its error. */
  lemma {:induction false} RetryOutcome(payload: seq<Message>, api: Api, attempt: nat, maxRetries: int)
    requires attempt <= maxRetries
    ensures var r := RetryFrom(payload, api, attempt, maxRetries);
      var last := r.attempts - 1;
      && attempt <= last <= maxRetries
      && (forall k :: attempt <= k < last ==> api(payload, k).Raised?)
      && (api(payload, last).Raised? ==> last == maxRetries)
      && r.text == Some(Settled(api(payload, last)))
    decreases maxRetries - attempt
  {
    var r := RetryFrom(payload, api, attempt, maxRetries);
    match api(payload, attempt)
    case Answered(content) =>
      assert r == Reply(Some(Settled(api(payload, attempt))), attempt + 1);
    case Raised(error) =>
      if attempt < maxRetries {
        RetryOutcome(payload, api, attempt + 1, maxRetries);
        assert r == RetryFrom(payload, api, attempt + 1, maxRetries);
      } else {
        assert r == Reply(Some(Settled(api(payload, attempt))), attempt + 1);
      }
  }

  /** When every allowed attempt raises, all `maxRetries + 1` are made and the
      fallback is chosen from the last error. */
  lemma AllAttemptsRaise(payload: seq<Message>, api: Api, maxRetries: nat)
    requires forall k :: 0 <= k <= maxRetries ==> api(payload, k).Raised?
    ensures RetryFrom(payload, api, 0, maxRetries)
         == Reply(Some(ExhaustedFallback(api(payload, maxRetries).error)), maxRetries + 1)
  {
    RetryOutcome(payload, api, 0, maxRetries);
  }

  /** What `get_ai_response` returns, case by case: without a client, the
      unavailable notice and no call; with a history entry lacking a key, the
      generic error and no call; with an empty retry range, `None` and no call;
      otherwise between 1 and `maxRetries + 1` calls with the payload built from
      the inputs, the first answer processed, or the fallback for the last error. */
  lemma ResponseCases(clientReady: bool, userMessage: string, history: Option<seq<Entry>>,
                      maxRetries: int, api: Api)
    ensures var r := AiResponse(clientReady, userMessage, history, maxRetries, api);
      && r.attempts <= (if maxRetries < 0 then 0 else maxRetries + 1)
      && (!clientReady ==> r == Reply(Some(NotAvailable), 0))
      && (clientReady && Payload(userMessage, history).None? ==> r == Reply(Some(InternalError), 0))
      && (clientReady && Payload(userMessage, history).Some? && maxRetries < 0 ==> r == Reply(None, 0))
      && (clientReady && Payload(userMessage, history).Some? && maxRetries >= 0 ==>
            var payload := Payload(userMessage, history).value;
            var last := r.attempts - 1;
            && 0 <= last <= maxRetries
            && (forall k :: 0 <= k < last ==> api(payload, k).Raised?)
            && (api(payload, last).Raised? ==> last == maxRetries)
            && r.text == Some(Settled(api(payload, last))))
  {
    var r := AiResponse(clientReady, userMessage, history, maxRetries, api);
    if clientReady {
      var payload := Payload(userMessage, history);
      if payload.Some? && maxRetries >= 0 {
        RetryOutcome(payload.value, api, 0, maxRetries);
        assert r == RetryFrom(payload.value, api, 0, maxRetries);
      }
    }
  }

  /** `get_ai_response` with its `for attempt` loop and early returns. */
  method GetAiResponse(userMessage: string, history: Option<seq<Entry>>, maxRetries: int,
                       clientReady: bool, api: Api) returns (r: Reply)
    ensures r == AiResponse(clientReady, userMessage, history, maxRetries, api)
  {
    if !clientReady {
      return Reply(Some(NotAvailable), 0);
    }
    var payload := BuildPayload(userMessage, history);
    if payload.None? {
      return Reply(Some(InternalError), 0);
    }
    var messages := payload.value;
    var attempt: nat := 0;
    while attempt < maxRetries + 1
      invariant attempt == 0 || attempt <= maxRetries
      invariant attempt <= maxRetries ==>
        RetryFrom(messages, api, attempt, maxRetries) == RetryFrom(messages, api, 0, maxRetries)
      decreases maxRetries + 1 - attempt
    {
      match api(messages, attempt)
      case Answered(content) =>
        return Reply(Some(ProcessReply(content)), attempt + 1);
      case Raised(error) =>
        if attempt < maxRetries {
          attempt := attempt + 1;
        } else {
          return Reply(Some(ExhaustedFallback(error)), attempt + 1);
        }
    }
    // range(max_retries + 1) was empty: the function falls off its end
    r := Reply(None, 0);
  }
}
