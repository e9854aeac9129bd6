/** The per-session conversation state behind the `/chat` and `/clear` routes. */
module Controller {
  import opened Wrappers
  import opened Text
  import opened Messages
  import opened Formatter
  import opened Completion

  /** The stored conversation is trimmed once it is longer than this... */
  const MaxStored: nat := 20
  /** ...to this many of its latest entries. */
  const KeptOnTrim: nat := 16
  const NoResponseNotice: string := "Sorry, I could not get a response. Please try again."

  /** The cap applied after every POST: over 20 entries, keep the latest 16 in
      their order; otherwise leave the conversation as it is. */
  function Trim(c: seq<Entry>): (r: seq<Entry>)
    ensures |r| <= MaxStored
    ensures |r| <= |c| && r == c[|c| - |r|..]
    ensures |c| <= MaxStored ==> r == c
    ensures |c| > MaxStored ==> |r| == KeptOnTrim
  {
    if |c| > MaxStored then c[|c| - KeptOnTrim..] else c
  }

  /** A reply that Python treats as true: present and not empty. */
  predicate Usable(reply: Option<string>) {
    reply.Some? && reply.value != []
  }

  /** The reply to a non-blank message: `get_ai_response` is given the
      conversation that already ends with the new user entry. */
  function ReplyFor(conv: seq<Entry>, message: string, clientReady: bool, api: Api): Option<string> {
    AiResponse(clientReady, message, Some(conv + [UserTurn(message)]), DefaultRetries, api).text
  }

  /** The conversation before the cap: a blank message adds nothing; otherwise the
      user entry, then the assistant entry when the reply is usable. */
  function Grown(conv: seq<Entry>, message: string, reply: Option<string>): seq<Entry> {
    if message == [] then conv
    else conv + [UserTurn(message)] + (if Usable(reply) then [AssistantTurn(reply.value)] else [])
  }

  /** The conversation stored after a POST with the stripped `message`. */
  function AfterPost(conv: seq<Entry>, message: string, reply: Option<string>): (r: seq<Entry>)
    ensures |r| <= MaxStored
    ensures message == [] && |conv| <= MaxStored ==> r == conv
    ensures message != [] ==>
      && |r| >= 1
      && r[|r| - 1] == (if Usable(reply) then AssistantTurn(reply.value) else UserTurn(message))
      && (Usable(reply) ==> |r| >= 2 && r[|r| - 2] == UserTurn(message))
  {
    var g := Grown(conv, message, reply);
    GrownEnds(conv, message, reply);
    var r := Trim(g);
    assert message != [] ==> r[|r| - 1] == g[|g| - 1];
    assert message != [] && Usable(reply) ==> |r| >= 2 && r[|r| - 2] == g[|g| - 2];
    r
  }

  /** The tail of the grown conversation after a non-blank message. */
  lemma GrownEnds(conv: seq<Entry>, message: string, reply: Option<string>)
    ensures var g := Grown(conv, message, reply);
      message != [] ==>
        && |g| >= 1
        && g[|g| - 1] == (if Usable(reply) then AssistantTurn(reply.value) else UserTurn(message))
        && (Usable(reply) ==> |g| >= 2 && g[|g| - 2] == UserTurn(message))
  {
  }

  /** After a POST the conversation is the latest part of the grown one, in its
      order: all of it when it has at most 20 entries, its last 16 otherwise. */
  lemma PostKeepsLatest(conv: seq<Entry>, message: string, reply: Option<string>)
    ensures var g := Grown(conv, message, reply);
      var r := AfterPost(conv, message, reply);
      && |g| == |conv| + (if message == [] then 0 else if Usable(reply) then 2 else 1)
      && g[..|conv|] == conv
      && (|g| <= MaxStored ==> r == g)
      && (|g| > MaxStored ==> r == g[|g| - KeptOnTrim..])
  {
  }

  /** The history sent with a new message is the (at most 7) entries that came
      before it, so the new user entry is never sent twice. */
  lemma {:induction false} SentHistory(conv: seq<Entry>, message: string)
    ensures var w := HistoryWindow(Some(conv + [UserTurn(message)]));
      |w| == (if |conv| < RecentLimit then |conv| else RecentLimit - 1) && w == conv[|conv| - |w|..]
  {
    var h := conv + [UserTurn(message)];
    var w := HistoryWindow(Some(h));
    assert h[..|h| - 1] == conv;
    assert w == h[|h| - 1 - |w|..|h| - 1];
    assert h[|h| - 1 - |w|..|h| - 1] == conv[|conv| - |w|..];
  }

  /** A conversation whose entries all have both keys never makes the payload
      builder fail, so the request is always made. */
  lemma {:induction false} WellFormedPayload(conv: seq<Entry>, message: string)
    requires AllWellFormed(conv)
    ensures Payload(message, Some(conv + [UserTurn(message)])).Some?
  {
    var w := HistoryWindow(Some(conv + [UserTurn(message)]));
    PayloadShape(message, Some(conv + [UserTurn(message)]));
    SentHistory(conv, message);
    forall k | 0 <= k < |w| ensures WellFormed(w[k]) {
      assert w[k] == conv[|conv| - |w| + k];
    }
  }

  /** What the session may hold: no conversation, or one of at most 20
      entries, each with both keys. */
  ghost predicate StoredWell(conversation: Option<seq<Entry>>) {
    conversation.Some? ==> |conversation.value| <= MaxStored && AllWellFormed(conversation.value)
  }

  /** The payload for `message` after the stored conversation can be built. */
  ghost predicate RequestBuilds(stored: Option<seq<Entry>>, message: string) {
    Payload(message, Some(stored.GetOr([]) + [UserTurn(message)])).Some?
  }

  /** From a session that holds only well-formed entries, the request for a
      new message is always made. */
  lemma StoredRequestBuilds(stored: Option<seq<Entry>>, message: string)
    requires StoredWell(stored)
    ensures RequestBuilds(stored, message)
  {
    WellFormedPayload(stored.GetOr([]), message);
  }

  /** A POST keeps what the session holds well formed. */
  lemma PostKeepsStoredWell(stored: Option<seq<Entry>>, message: string, reply: Option<string>)
    requires StoredWell(stored)
    ensures StoredWell(Some(AfterPost(stored.GetOr([]), message, reply)))
  {
    PostKeepsWellFormed(stored.GetOr([]), message, reply);
  }

  /** A POST keeps every entry well formed. */
  lemma {:induction false} PostKeepsWellFormed(conv: seq<Entry>, message: string, reply: Option<string>)
    requires AllWellFormed(conv)
    ensures AllWellFormed(AfterPost(conv, message, reply))
  {
    var g := Grown(conv, message, reply);
    forall k | 0 <= k < |g| ensures WellFormed(g[k]) {
      if k >= |conv| {
        assert g[k] == UserTurn(message) || g[k] == AssistantTurn(reply.value);
      }
    }
    var r := AfterPost(conv, message, reply);
    forall k | 0 <= k < |r| ensures WellFormed(r[k]) {
      assert r[k] == g[|g| - |r| + k];
    }
  }

  /** The exchange for a non-blank message: append the user entry, request a
      reply for the conversation that now ends with it, and append the reply as
      the assistant's entry when it is usable, raising the notice otherwise. */
  method Converse(conv: seq<Entry>, message: string, clientReady: bool, api: Api)
    returns (grown: seq<Entry>, notice: Option<string>)
    requires message != []
    ensures grown == Grown(conv, message, ReplyFor(conv, message, clientReady, api))
    ensures notice == (if Usable(ReplyFor(conv, message, clientReady, api)) then None else Some(NoResponseNotice))
  {
    grown := conv + [UserTurn(message)];
    var reply := GetAiResponse(message, Some(grown), DefaultRetries, clientReady, api);
    if reply.text.Some? && reply.text.value != [] {
      grown := grown + [AssistantTurn(reply.text.value)];
      notice := None;
    } else {
      notice := Some(NoResponseNotice);
    }
  }

  /** One browser session: `conversation` is the session's 'conversation' key,
      `None` when the key is absent. */
  class ChatSession {
    var conversation: Option<seq<Entry>>

    /** What every route keeps: at most 20 entries, each with both keys. */
    ghost predicate Valid()
      reads this
    {
      StoredWell(conversation)
    }

    /** A new session has no conversation. */
    constructor ()
      ensures conversation == None && Valid()
    {
      conversation := None;
    }

    /** GET /chat: create an empty conversation on the first visit, change
        nothing else, and show the formatted conversation. */
    method Get() returns (view: seq<Display>)
      modifies this
      ensures conversation == Some(old(conversation).GetOr([]))
      ensures |view| == |conversation.value|
      ensures forall k :: 0 <= k < |view| ==> view[k] == DisplayOf(conversation.value[k])
      ensures old(Valid()) ==> Valid()
    {
      if conversation.None? {
        conversation := Some([]);
      }
      view := FormatConversation(conversation);
    }

    /** POST /chat with the form field `message` (absent reads as ""). A message
        that is blank after stripping makes no request; otherwise the stripped
        message is appended, a reply is requested for the conversation that now
        ends with it, and a usable reply is appended as the assistant's turn (an
        unusable one raises the notice instead). Then the cap is applied. */
    method Post(form: Option<string>, clientReady: bool, api: Api) returns (requested: bool, notice: Option<string>)
      modifies this
      ensures requested == (Strip(form.GetOr("")) != [])
      ensures var c0 := old(conversation).GetOr([]);
        var m := Strip(form.GetOr(""));
        conversation == Some(AfterPost(c0, m, if m == [] then None else ReplyFor(c0, m, clientReady, api)))
      ensures var c0 := old(conversation).GetOr([]);
        var m := Strip(form.GetOr(""));
        notice == (if m != [] && !Usable(ReplyFor(c0, m, clientReady, api)) then Some(NoResponseNotice) else None)
      ensures old(Valid()) ==> Valid()
      ensures old(Valid()) && requested ==> RequestBuilds(old(conversation), Strip(form.GetOr("")))
    {
      var message := Strip(form.GetOr(""));
      if Valid() && message != [] {
        StoredRequestBuilds(conversation, message);
      }
      if conversation.None? {
        conversation := Some([]);
      }
      var conv := conversation.value;
      ghost var c0 := conv;
      ghost var answer: Option<string> := None;
      requested, notice := false, None;
      if message != [] {
        conv, notice := Converse(conv, message, clientReady, api);
        answer := ReplyFor(c0, message, clientReady, api);
        requested := true;
      }
      if |conv| > MaxStored {
        conv := conv[|conv| - KeptOnTrim..];
      }
      assert conv == AfterPost(c0, message, answer);
      conversation := Some(conv);
      if old(Valid()) {
        PostKeepsStoredWell(old(conversation), message, answer);
      }
    }

    /** GET /clear: remove the conversation from the session. */
    method Clear()
      modifies this
      ensures conversation == None && Valid()
    {
      conversation := None;
    }
  }

  /** Clearing and then opening the chat shows an empty conversation. */
  method ClearThenView(session: ChatSession) returns (view: seq<Display>)
    modifies session
    ensures view == [] && session.conversation == Some([])
  {
    session.Clear();
    view := session.Get();
  }
}
