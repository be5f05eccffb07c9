/**
 * The provider's resource shapes, reduced to the fields the core reads or
 * writes, and the crate's error type (its variants as the core raises them).
 */
module Api {
  import opened Wrappers
  import opened Types

  /** Tools an assistant may be created with; the core only asks for retrieval. */
  datatype AssistantTool = Retrieval | CodeInterpreter

  datatype AssistantObject = AssistantObject(
    id: string,
    name: Option<string>,
    model: string,
    tools: seq<AssistantTool>,
    instructions: Option<string>)

  /** The status a run reports when it is retrieved. */
  datatype RunStatus =
    | Queued
    | InProgress
    | RequiresAction
    | Cancelling
    | Cancelled
    | Failed
    | Completed
    | Expired

  /** One content item of a message: text, or an image file. */
  datatype MessageContent = Text(value: string) | ImageFile(fileId: FileId)

  datatype MessageObject = MessageObject(id: string, role: string, content: seq<MessageContent>)

  /** The body of a "create message" request. */
  datatype CreateMessageRequest = CreateMessageRequest(role: string, content: string)

  datatype ThreadObject = ThreadObject(id: ThreadId)

  datatype RunObject = RunObject(id: string, threadId: ThreadId, assistantId: AssistantId)

  /** What the provider answers when a request fails. */
  datatype ApiError =
    | NotFound(resource: string, id: string)  // a resource id it does not know
    | Unavailable                             // the request was rejected or lost in transit

  /** The crate's error type, as far as the core produces it. */
  datatype Error =
    | OpenAI(api: ApiError)
    | Io(path: string)
    | RunError(status: RunStatus)
    | NoMessageFoundInMessages
    | NoMessageInMessageObjectContent
    | MessageImageNotSupported
    | CannotFindThreadIdForConv(conv: string)
}
