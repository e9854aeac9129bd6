/** Display formatting of a conversation (`format_conversation`). */
module Formatter {
  import opened Wrappers
  import opened Text
  import opened Messages

  /** Longest content shown for one entry. */
  const DisplayChars: nat := 500

  /** One entry as the chat page shows it. */
  datatype Display = Display(role: string, content: string, isUser: bool)

  /** How one entry is shown: a missing role reads as "user" and missing content
      as "", the entry is the user's exactly when its role is "user", and content
      over 500 code points is cut to its first 497 followed by "...". */
  function DisplayOf(e: Entry): (d: Display)
    ensures d.role == e.role.GetOr("user")
    ensures d.isUser <==> (e.role == None || e.role == Some("user"))
    ensures var c := e.content.GetOr("");
      && |d.content| <= DisplayChars
      && (|c| <= DisplayChars ==> d.content == c)
      && (|c| > DisplayChars ==> |d.content| == 500 && d.content[..497] == c[..497] && d.content[497..] == "...")
  {
    var role := e.role.GetOr("user");
    Display(role, Ellipsize(e.content.GetOr(""), DisplayChars), role == "user")
  }

  /** A 1:1 map over the conversation, in order; an absent or empty
      conversation gives the empty list. */
  method FormatConversation(conversation: Option<seq<Entry>>) returns (formatted: seq<Display>)
    ensures conversation.None? ==> formatted == []
    ensures conversation.Some? ==> |formatted| == |conversation.value|
    ensures conversation.Some? ==>
      forall k :: 0 <= k < |formatted| ==> formatted[k] == DisplayOf(conversation.value[k])
  {
    if conversation.None? || conversation.value == [] {
      return [];
    }
    var entries := conversation.value;
    formatted := [];
    for i := 0 to |entries|
      invariant |formatted| == i
      invariant forall k :: 0 <= k < i ==> formatted[k] == DisplayOf(entries[k])
    {
      var role := entries[i].role.GetOr("user");
      var content := entries[i].content.GetOr("");
      if |content| > 500 {
        content := content[..497] + "...";
      }
      formatted := formatted + [Display(role, content, role == "user")];
    }
  }
}
