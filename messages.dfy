/** The records that the chat front end keeps in the session and sends to the
    completion service. */
module Messages {
  import opened Wrappers

  /** A conversation entry as the session stores it: a dictionary whose 'role'
      and 'content' keys may each be absent. */
  datatype Entry = Entry(role: Option<string>, content: Option<string>)

  /** One entry of the request sent to the completion service. */
  datatype Message = Message(role: string, content: string)

  /** Both keys are present, so `msg["role"]` and `msg["content"]` succeed. */
  predicate WellFormed(e: Entry) {
    e.role.Some? && e.content.Some?
  }

  predicate AllWellFormed(c: seq<Entry>) {
    forall k :: 0 <= k < |c| ==> WellFormed(c[k])
  }

  function UserTurn(text: string): Entry {
    Entry(Some("user"), Some(text))
  }

  function AssistantTurn(text: string): Entry {
    Entry(Some("assistant"), Some(text))
  }
}
