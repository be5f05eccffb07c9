/** Building a user message and reading the text of a reply (crates/ai-laoshi-core/src/ais/message.rs). */
module Message {
  import opened Wrappers
  import opened Api

  /** create_user_message: a request from the user role carrying exactly `content`. */
  function CreateUserMessage(content: string): (r: CreateMessageRequest)
    ensures r.role == "user"
    ensures r.content == content
  {
    CreateMessageRequest("user", content)
  }

  /**
   * get_text_content: the text of the message's first content item. Only that
   * item is looked at: an empty content list and an image there are errors,
   * whatever follows.
   */
  function GetTextContent(m: MessageObject): (r: Result<string, Error>)
    ensures m.content == [] <==> r == Err(NoMessageInMessageObjectContent)
    ensures m.content != [] && m.content[0].ImageFile? <==> r == Err(MessageImageNotSupported)
    ensures r.Ok? <==> m.content != [] && m.content[0].Text?
    ensures r.Ok? ==> r.value == m.content[0].value
  {
    if m.content == [] then Err(NoMessageInMessageObjectContent)
    else match m.content[0]
      case Text(value) => Ok(value)
      case ImageFile(_) => Err(MessageImageNotSupported)
  }

  /** Items after the first never change the outcome. */
  lemma OnlyFirstItemCounts(m: MessageObject, first: MessageContent, rest1: seq<MessageContent>, rest2: seq<MessageContent>)
    ensures GetTextContent(m.(content := [first] + rest1)) == GetTextContent(m.(content := [first] + rest2))
  {
  }

  /** A message built from a user's text reads back as that text. */
  lemma UserMessageReadsBack(id: string, text: string)
    ensures var req := CreateUserMessage(text);
            GetTextContent(MessageObject(id, req.role, [Text(req.content)])) == Ok(text)
  {
  }
}
