/**
 * Assembly of the message list in the `/api/chat` handler: the system prompt,
 * then the caller's context, then the new message. Only the Gemini and OpenAI
 * branches send the list on, and the `API_TYPE` constant selects neither, so
 * what a caller can observe of this step is whether it throws.
 */
module ChatMessages {
  import opened Wrappers

  /** One entry of the outgoing list; `content` is None where the context item had none. */
  datatype Message = Message(role: string, content: Option<string>)

  /**
   * One element of the request's `context` array that is not `null`; either
   * field may be missing (as it is on a string or number element).
   */
  datatype ContextItem = ContextItem(role: Option<string>, content: Option<string>)

  /** The error `item.role` throws when the context element is `null`. */
  const NullItemError := "Cannot read properties of null (reading 'role')"

  /** `item.role || 'user'`: a missing or empty role becomes "user". */
  function RoleOf(item: ContextItem): (role: string)
    ensures role != ""
    ensures item.role.Some? && item.role.value != "" ==> role == item.role.value
    ensures item.role.None? || item.role == Some("") ==> role == "user"
  {
    match item.role
    case Some(r) => if r != "" then r else "user"
    case None => "user"
  }

  /**
   * Builds the list by pushing onto it, as the handler does. `context` is None
   * when the request's `context` is not an array, and is then skipped; a None
   * element stands for a `null` element, on which the handler throws.
   */
  method AssembleMessages(systemPrompt: string, context: Option<seq<Option<ContextItem>>>, message: string)
    returns (result: Result<seq<Message>, string>)
    ensures var items := if context.Some? then context.value else [];
      result.Failure? <==> exists i :: 0 <= i < |items| && items[i].None?
    ensures result.Failure? ==> result.error == NullItemError
    ensures result.Success? ==>
      var items := if context.Some? then context.value else [];
      var messages := result.value;
      && |messages| == |items| + 2
      && messages[0] == Message("system", Some(systemPrompt))
      && (forall i :: 0 <= i < |items| ==>
            items[i].Some? &&
            messages[i + 1] == Message(RoleOf(items[i].value), items[i].value.content))
      && messages[|messages| - 1] == Message("user", Some(message))
      && (forall i :: 0 <= i < |messages| ==> messages[i].role != "")
  {
    var messages := [Message("system", Some(systemPrompt))];
    if context.Some? {
      var items := context.value;
      var k := 0;
      while k < |items|
        invariant 0 <= k <= |items|
        invariant |messages| == k + 1
        invariant messages[0] == Message("system", Some(systemPrompt))
        invariant forall i :: 0 <= i < k ==>
          items[i].Some? && messages[i + 1] == Message(RoleOf(items[i].value), items[i].value.content)
        invariant forall i :: 0 <= i < |messages| ==> messages[i].role != ""
      {
        match items[k]
        case None =>
          return Failure(NullItemError);
        case Some(item) =>
          messages := messages + [Message(RoleOf(item), item.content)];
        k := k + 1;
      }
    }
    messages := messages + [Message("user", Some(message))];
    return Success(messages);
  }
}
