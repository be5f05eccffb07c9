# ai-laoshi core, modelled in Dafny

ai-laoshi ("AI teacher") binds a hosted assistant to a local directory. The
directory holds a `laoshi.toml` configuration, an instructions file and a
hidden `.laoshi/` data directory, which persists the current conversation in
`conv.json`. The core crate does the following:

- reconciles the configured assistant with the provider's listing: it loads the
  assistant of that name, or creates it, or deletes and recreates it;
- uploads the instructions;
- loads or creates the conversation thread;
- runs one chat turn: it posts the user's message, starts a run, polls the run
  until it leaves Queued/InProgress and reads the newest message's text;
- concatenates source files into a bundle file with one header and trailer per
  file.

The model states these rules over two stores:

- `Client.OpenAiClient` stands in for the provider behind the HTTP client. It
  holds the assistants in listing order (newest first), the threads and their
  messages (newest first), the statuses the next run will report, the reply
  the assistant posts on completion, and a log of the requests that change
  remote state or poll a run. The set `failing` names the logged requests the
  provider rejects. Ids are issued from a counter as `asst_N`, `thread_N`,
  `msg_N` and `run_N`. The invariant `Valid()` keeps assistant ids distinct and
  keeps unissued ids unused.
- `LocalFs.Disk` stands in for the local filesystem: a map from path to file
  data (readable text, bytes that stop being valid text after some prefix, or
  unreadable) and a set of directories. Its invariant `Valid()` says no path
  is both a file and a directory. Paths join as Unix `Path::join` does.

Modules follow the crate:

- `Types`: the id newtypes of `ais/types.rs`.
- `Message`: `ais/message.rs`.
- `Assistant`: `ais/assistant.rs`.
- `LaoshiConfig`: `laoshi/config.rs`.
- `Laoshi`: `laoshi/mod.rs`.
- `Files`: `utils/files.rs`.
- `Json`: the string-literal format serde writes for `ThreadId` and
  `Conversation`.
- `Api`: the provider's data types.
- `Wrappers` and `Seqs`: small helpers.

Parts of the source are state-changing. The mutating provider calls are
methods of the `Client.OpenAiClient` class, and the file operations are
methods of `LocalFs.Disk`. `load_or_create_assistant`, the polling loop and
`run_thread_msg` are methods of the `Assistant` module that take the client as
a parameter, as the source's free functions do. `upload_instructions`,
`load_or_create_conversation` and `chat` are methods of the `Laoshi.Laoshi`
class, which holds the client and the disk, and the bundle writer is a method
of `Files` that takes the disk. Each method's `ensures` gives the new state
in terms of the old.
Where the provider rejects a request part way through `run_thread_msg` or
`load_or_create_assistant`, the contract gives the error and the fields that
stay unchanged rather than the whole state.
Parts of the source are pure. The name search, the reply extraction, the
config projection, the JSON form and the bundle format are functions with
lemmas about them.

## Model

| member | source | states |
|---|---|---|
| Types.IdRoundTrips | crates/ai-laoshi-core/src/ais/types.rs:11-18 | For each of the three id kinds, wrapping a string and then dereferencing or displaying it gives back exactly that string |
| Types.ThreadIdToJson | crates/ai-laoshi-core/src/ais/types.rs:14-15 | A thread id serializes as a JSON string literal: its text begins and ends with a quote |
| Types.ThreadIdFromJson | crates/ai-laoshi-core/src/ais/types.rs:14-15 | Deserializing reads one string literal and consumes at least one character of the input |
| Types.ThreadIdJsonRoundTrip | crates/ai-laoshi-core/src/ais/types.rs:14-15 | Any thread id reads back from its JSON form, whatever follows it and whatever its raw string holds |
| Json.QuoteRoundTrip | crates/ai-laoshi-core/src/ais/types.rs:14-15 | Any string survives a trip through its escaped JSON literal, and reading stops exactly after the closing quote |
| Json.Escape | crates/ai-laoshi-core/src/ais/types.rs:14-15 | Every quote in an escaped body is preceded by a backslash, and no raw control character is left in it. That the literal closes exactly at its final quote is `Json.QuoteRoundTrip` |
| Json.EscapeChar | crates/ai-laoshi-core/src/ais/types.rs:14-15 | A character is written as itself exactly when it is not a quote, a backslash or a control character. Otherwise its escape holds no quote first and no raw control character |
| Json.SkipSpace | crates/ai-laoshi-core/src/laoshi/mod.rs:162-164 | Skipping JSON whitespace leaves a suffix of the input that is empty or starts with a non-space |
| Message.CreateUserMessage | crates/ai-laoshi-core/src/ais/message.rs:7-13 | The request has role "user" and content exactly equal to the input text |
| Message.GetTextContent | crates/ai-laoshi-core/src/ais/message.rs:21-41 | An empty content list is NoMessageInMessageObjectContent. An image first item is MessageImageNotSupported. The result is Ok exactly when the first item is text, and then it is that item's text. Each of these holds in both directions |
| Message.OnlyFirstItemCounts | crates/ai-laoshi-core/src/ais/message.rs:24-38 | Items after the first never change the result, so an image first item fails even when text follows |
| Message.UserMessageReadsBack | crates/ai-laoshi-core/src/ais/message.rs:7-41 | A message built from a user's text reads back as that text |
| LaoshiConfig.ToCreateConfig | crates/ai-laoshi-core/src/laoshi/config.rs:35-42 | The creation settings copy the config's name and model exactly |
| LaoshiConfig.SameAssistantSettings | crates/ai-laoshi-core/src/laoshi/config.rs:35-41 | Two configs give equal creation settings exactly when their names and models agree, so the instructions file and the bundles are not carried over |
| Client.OpenAiClient.ListAssistants | crates/ai-laoshi-core/src/ais/assistant.rs:131 | The listing call returns the first `limit` assistants in listing order |
| Client.OpenAiClient.CreateAssistant | crates/ai-laoshi-core/src/ais/assistant.rs:74-81 | The create call logs one request. It fails exactly when the provider rejects the request. Otherwise it lists, first, a new assistant with a never-used id and the request's name, model and tools |
| Client.OpenAiClient.DeleteAssistant | crates/ai-laoshi-core/src/ais/assistant.rs:177 | The delete call succeeds exactly when the provider does not reject it and the id is listed. It removes only the assistants with that id and nothing else of the store |
| Client.WithoutAssistantAt | crates/ai-laoshi-core/src/ais/assistant.rs:177 | When ids are distinct, deleting the id found at position i removes exactly that entry and keeps the order of the rest |
| Client.OpenAiClient.UpdateInstructions | crates/ai-laoshi-core/src/ais/assistant.rs:161-163 | The update call succeeds exactly when the request is accepted and the id is listed. It replaces the instructions of that assistant only and keeps the listing's length and order |
| Client.OpenAiClient.CreateThread | crates/ai-laoshi-core/src/ais/assistant.rs:187-191 | The thread-create call either fails on rejection with nothing changed, or adds one new, empty thread whose id was not in use |
| Client.OpenAiClient.RetrieveThread | crates/ai-laoshi-core/src/ais/assistant.rs:201 | Retrieving a thread succeeds exactly when the provider knows it |
| Client.OpenAiClient.CreateMessage | crates/ai-laoshi-core/src/ais/assistant.rs:221-225 | Posting succeeds exactly when the request is accepted and the thread exists. The message becomes the thread's newest, with the request's role and content |
| Client.OpenAiClient.ListMessages | crates/ai-laoshi-core/src/ais/assistant.rs:277 | Listing a known thread gives its newest `limit` messages, newest first |
| Client.OpenAiClient.CreateRun | crates/ai-laoshi-core/src/ais/assistant.rs:229-234 | Starting a run fails on rejection, then on an unknown thread, then on an unknown assistant, in that order. It changes no assistant or thread |
| Client.OpenAiClient.RetrieveRun | crates/ai-laoshi-core/src/ais/assistant.rs:243 | A poll consumes the next scripted status unless rejected. On Completed, the assistant's reply becomes the thread's newest message. The store invariant is kept |
| Assistant.FindFirst | crates/ai-laoshi-core/src/ais/assistant.rs:140-141 | The result is the position of an assistant whose name is present and equal to the query, with no match before it. It is None exactly when nothing matches |
| Assistant.FirstByNameIn | crates/ai-laoshi-core/src/ais/assistant.rs:133-143 | `find` over a page gives its first exact-name match, and None exactly when no entry matches. Unnamed assistants never match |
| Assistant.FirstByName | crates/ai-laoshi-core/src/ais/assistant.rs:124-144 | The result is the first exact-name match among the first 100 listed assistants, and None exactly when none of those 100 matches |
| Assistant.LaterPagesAreNotSearched | crates/ai-laoshi-core/src/ais/assistant.rs:34 | For any listing with no match among its first 100 entries and a same-named assistant after them, reconciling without recreate puts a new assistant of that name in front and keeps the other, so two of that name exist |
| Assistant.CreateRequest | crates/ai-laoshi-core/src/ais/assistant.rs:74-80 | The create request carries the config's model, the config's name and the retrieval tool only |
| Assistant.Create | crates/ai-laoshi-core/src/ais/assistant.rs:68-84 | One create request is sent. On success, exactly one assistant with the config's name, model and retrieval is listed first, and its fresh id is returned. On rejection, the listing is unchanged |
| Assistant.Delete | crates/ai-laoshi-core/src/ais/assistant.rs:168-180 | One delete request is sent. Only the assistant object goes away, and threads and everything else stay. Unknown ids are NotFound |
| Assistant.LoadOrCreateAssistant | crates/ai-laoshi-core/src/ais/assistant.rs:91-122 | With a match and no recreate, the match's id is returned and no request is sent. With recreate, a delete is sent and then a create. With no match, one create is sent. Ok comes exactly when none of those requests is rejected, and the new listing, counter and id are then `Reconcile`'s. A rejection stops the call with Unavailable, leaving the deletion already made and the id counter unchanged |
| Assistant.Replace | crates/ai-laoshi-core/src/ais/assistant.rs:99-121 | The recreate path deletes the match and then creates one. A rejected delete stops before the create and changes nothing. A rejected create leaves the match deleted and the id counter unchanged |
| Assistant.ReconcileIdempotent | crates/ai-laoshi-core/src/ais/assistant.rs:96-121 | After a successful reconcile, reconciling again without recreate returns the same id, sends no request and leaves the listing and counter as they were |
| Assistant.LoadTwice | crates/ai-laoshi-core/src/ais/assistant.rs:91-122 | Two successive calls, the second without recreate: when the first succeeds, the second returns the same id, and the store is exactly as the first call left it. Both calls keep the store invariant and leave threads, the run script, the reply and the rejected requests as they were |
| Assistant.ReconcileKeepsNameUnique | crates/ai-laoshi-core/src/ais/assistant.rs:96-121 | When the whole listing fits on one page and at most one assistant carries the name, at most one still does after reconciling, with or without recreate |
| Assistant.UploadInstructions | crates/ai-laoshi-core/src/ais/assistant.rs:147-166 | One update request is sent. On success, the instructions of exactly the assistant with that id become the content. On error, the listing is unchanged |
| Assistant.CreateThread | crates/ai-laoshi-core/src/ais/assistant.rs:185-194 | On success, the result is a new, empty thread whose id was not in use. On rejection, the threads are unchanged |
| Assistant.GetThread | crates/ai-laoshi-core/src/ais/assistant.rs:196-204 | The result is Ok exactly when the provider knows the thread, and then carries its id. Otherwise it is NotFound |
| Assistant.GetFirstThreadMessageContent | crates/ai-laoshi-core/src/ais/assistant.rs:267-287 | An unknown thread is a provider error. An empty thread is NoMessageFoundInMessages. Otherwise the result is the text extraction of the newest message |
| Assistant.FirstTerminal | crates/ai-laoshi-core/src/ais/assistant.rs:246-259 | The result is the position of the first status other than Queued/InProgress, with only polling statuses before it, and None exactly when every status keeps polling |
| Assistant.PollLoop | crates/ai-laoshi-core/src/ais/assistant.rs:240-262 | The loop logs only status fetches. A rejected fetch ends it with its error. Otherwise the script loses exactly the statuses fetched, every status before the last one fetched is Queued/InProgress and the last one is not. Completed answers with the newest message's text, and any other status is RunError(status) |
| Assistant.FirstTerminalAt | crates/ai-laoshi-core/src/ais/assistant.rs:246-259 | A terminal status preceded only by Queued/InProgress is the first terminal status |
| Assistant.PollRun | crates/ai-laoshi-core/src/ais/assistant.rs:240-262 | When no fetch is rejected, the number of status fetches is the position of the first terminal status plus one. Completed answers with the newest message's text, including the reply the run posted, and any other status is RunError(status). The script keeps the statuses after the last one fetched, and the id counter moves only for a posted reply |
| Assistant.StartTurn | crates/ai-laoshi-core/src/ais/assistant.rs:217-234 | The user message is posted, then the run started. The run starts exactly when no request is rejected and both thread and assistant exist. A posted message is the thread's newest, with the next message id, and the run takes the id after it. An unknown thread changes nothing |
| Assistant.TurnPosts | crates/ai-laoshi-core/src/ais/assistant.rs:217-262 | A turn adds the user's message, and in front of it the assistant's reply message, with the id two past the user message's, exactly when the run's first terminal status is Completed and a reply is posted |
| Assistant.UserMessage | crates/ai-laoshi-core/src/ais/assistant.rs:217-225 | The stored user message has role user and its text reads back as the message sent |
| Assistant.RunThreadMsg | crates/ai-laoshi-core/src/ais/assistant.rs:211-263 | The user message is posted and the run started before any poll, and an unknown thread or assistant fails there: an unknown thread changes no thread, counter or script, and an unknown assistant leaves the user message posted as the thread's newest, with the counter moved by one. Thread keys never change. When nothing is rejected, the thread ends up with the turn's posts in front of its old messages, the id counter advances by one per resource issued, and the script keeps the statuses after the ones polled. When the run completes, the answer is the assistant's reply text, or the user's own text when no reply was posted. A non-completed terminal status is RunError |
| Assistant.FourPollsForExampleScript | crates/ai-laoshi-core/src/ais/assistant.rs:240-262 | One concrete script: Queued, InProgress, InProgress, Completed ends polling at the fourth status |
| LocalFs.Join | crates/ai-laoshi-core/src/laoshi/mod.rs:207 | Joining a relative name to a directory without a trailing slash inserts exactly one slash |
| LocalFs.Lines | crates/ai-laoshi-core/src/utils/files.rs:16-17 | The lines of a text contain no line feed |
| LocalFs.LinesJoinLines | crates/ai-laoshi-core/src/utils/files.rs:16-19 | Lines without line feeds or trailing carriage returns, written one per line, read back as the same lines |
| LocalFs.JoinLinesOfLines | crates/ai-laoshi-core/src/utils/files.rs:16-19 | Copying a text without carriage returns line by line reproduces it, plus one final line feed when it did not end in one |
| LocalFs.JoinLines | crates/ai-laoshi-core/src/utils/files.rs:18 | The text written for some lines is empty exactly when there are none, and otherwise ends in a line feed |
| LocalFs.WholeLines | crates/ai-laoshi-core/src/utils/files.rs:16-17 | The complete lines of a text that breaks off are its longest prefix ending in a line feed, and no line feed follows that prefix |
| LocalFs.WholeLinesDropsPartial | crates/ai-laoshi-core/src/utils/files.rs:16-17 | The complete lines of some whole lines followed by a partial one are exactly the whole lines |
| LocalFs.JoinLinesAppend | crates/ai-laoshi-core/src/utils/files.rs:18 | Writing one more line appends that line and one line feed |
| LocalFs.CarriageReturnDropped | crates/ai-laoshi-core/src/utils/files.rs:16-17 | A CRLF-terminated line is read without its terminator |
| LocalFs.Disk.ReadToString | crates/ai-laoshi-core/src/laoshi/mod.rs:115 | Reading succeeds exactly for a readable text file and gives its whole content. Otherwise it is an I/O error for that path |
| LocalFs.Disk.EnsureDir | crates/ai-laoshi-core/src/laoshi/mod.rs:208 | Ensuring a directory fails exactly when a file sits at that path. Otherwise the path becomes a directory, and files are untouched. No path becomes both a file and a directory |
| LocalFs.Disk.RemoveFile | crates/ai-laoshi-core/src/laoshi/mod.rs:151 | Removing succeeds exactly when the file exists. Only that path leaves the files, and the invariant is kept |
| LocalFs.Disk.WriteFile | crates/ai-laoshi-core/src/laoshi/mod.rs:182 | Writing fails exactly on a directory path. Otherwise the file's content is replaced by the new text, and the invariant is kept |
| Files.BundleOutput | crates/ai-laoshi-core/src/utils/files.rs:8-25 | No paths give an empty file and no error. Any error is an I/O error naming one of the input paths |
| Files.BundleFailsExactlyOnBadSource | crates/ai-laoshi-core/src/utils/files.rs:12-17 | The bundle fails exactly when some source is missing or not readable text |
| Files.BundleErrorIsFirstBadSource | crates/ai-laoshi-core/src/utils/files.rs:12-17 | A failing bundle's error names the first source that is not readable text, and every source before it is readable text |
| Files.BundleConcat | crates/ai-laoshi-core/src/utils/files.rs:11-21 | Bundling readable files a and then b gives a's sections followed by b's output, in input order, with b's error |
| Files.OneFile | crates/ai-laoshi-core/src/utils/files.rs:12-20 | A single readable file gives the header, its lines and the trailer, with no error |
| Files.SectionIsVerbatim | crates/ai-laoshi-core/src/utils/files.rs:14-20 | For a text without carriage returns that ends in a line feed, the section is `"\n// ==== file path: <path>\n\n"`, then the text unchanged, then `"\n\n\n"` |
| Files.BrokenSourceKeepsWholeLines | crates/ai-laoshi-core/src/utils/files.rs:14-19 | A source whose bytes stop being text inside a line contributes its header and exactly the lines before that one, and no trailer |
| Files.WriteLines | crates/ai-laoshi-core/src/utils/files.rs:16-19 | The inner loop appends every line, in order, each followed by one line feed |
| Files.WriteSource | crates/ai-laoshi-core/src/utils/files.rs:12-20 | One loop iteration appends the file's section. For a file whose bytes stop being text, it appends the header and the complete lines before the failure |
| Files.WriteBundle | crates/ai-laoshi-core/src/utils/files.rs:11-21 | The outer loop writes exactly `BundleOutput`: the sections in input order, stopping at the first file that cannot be opened or read, with its error |
| Files.BundleToFile | crates/ai-laoshi-core/src/utils/files.rs:8-25 | A directory destination is an error that changes nothing. Otherwise the destination is truncated and then holds the bundle, or the part written before the error, so an empty input list leaves it empty |
| Laoshi.DataLayout | crates/ai-laoshi-core/src/laoshi/mod.rs:206-219 | For a plain directory, the data lives at dir/.laoshi, the conversation at dir/.laoshi/conv.json and the bundles at dir/.laoshi/files, and these paths differ |
| Laoshi.ConvFileIsNotDataDir | crates/ai-laoshi-core/src/laoshi/mod.rs:147 | conv.json is never the data directory itself |
| Laoshi.ConversationToJson | crates/ai-laoshi-core/src/laoshi/mod.rs:58-61 | What `save_json` writes for a conversation (line 182): a compact object, with no whitespace, whose one member is the quoted key `thread_id` holding the thread id as a JSON string literal. `ConversationJsonRoundTrip` reads it back |
| Laoshi.KeyNeedsNoEscape | crates/ai-laoshi-core/src/laoshi/mod.rs:58-61 | The key is written as `"thread_id"`, unchanged by escaping, so the saved text is `{"thread_id":` then the id's literal then `}` |
| Laoshi.ConversationFromJson | crates/ai-laoshi-core/src/laoshi/mod.rs:162-164 | A conversation is read only from text that opens an object |
| Laoshi.ConversationJsonRoundTrip | crates/ai-laoshi-core/src/laoshi/mod.rs:58-61 | A saved conversation reads back as the same conversation, for any thread id |
| Laoshi.LoadConversation | crates/ai-laoshi-core/src/laoshi/mod.rs:162-164 | Loading gives a conversation only from an existing, readable file that parses as one |
| Laoshi.SavedConversationLoads | crates/ai-laoshi-core/src/laoshi/mod.rs:162-183 | After saving a conversation to a path, loading that path gives it back |
| Laoshi.Laoshi.constructor | crates/ai-laoshi-core/src/laoshi/mod.rs:89-94 | The laoshi holds the directory, client, assistant id and config it was built from |
| Laoshi.Laoshi.Name | crates/ai-laoshi-core/src/laoshi/mod.rs:107-109 | The name is the config's name, the same name the assistant is created with |
| Laoshi.Laoshi.DataDir | crates/ai-laoshi-core/src/laoshi/mod.rs:206-210 | The result is dir/.laoshi, which becomes a directory. It fails exactly when a file sits there, and no file changes |
| Laoshi.Laoshi.DataFilesDir | crates/ai-laoshi-core/src/laoshi/mod.rs:213-219 | The result is dir/.laoshi/files, which becomes a directory along with its parent. The error names the first of the two blocked by a file, and the data directory stays made when only the files directory is blocked |
| Laoshi.Laoshi.UploadInstructions | crates/ai-laoshi-core/src/laoshi/mod.rs:111-138 | A missing instructions file gives Ok(false) with no request. An unreadable one is an I/O error with no request. Otherwise one update request carries the full content, and on success the answer is true and the listing keeps its length, with exactly the assistant of that id now holding that content as instructions. On an update error the listing is unchanged. Threads, the run script, the id counter, the reply and the rejected requests never change |
| Laoshi.Laoshi.LoadOrCreateConversation | crates/ai-laoshi-core/src/laoshi/mod.rs:143-187 | With recreate, conv.json is removed first. A loaded conversation whose thread exists is returned with no request and no write. One whose thread is gone is CannotFindThreadIdForConv, with no new thread. With nothing to load, exactly one thread is created and saved to conv.json. The id counter moves by one unless the create request is rejected |
| Laoshi.Laoshi.LoadOrStart | crates/ai-laoshi-core/src/laoshi/mod.rs:162-186 | This is the load-or-create step on the files as left after the optional removal, with the same cases and the same id counter |
| Laoshi.ConversationPersists | crates/ai-laoshi-core/src/laoshi/mod.rs:143-187 | After a successful load or create, a following call without recreate returns the same conversation |
| Laoshi.Laoshi.Chat | crates/ai-laoshi-core/src/laoshi/mod.rs:189-202 | A chat turn is `Assistant.RunThreadMsg` on the conversation's thread with the laoshi's assistant, with the same request order, errors, thread contents, id counter, script and answer |

## Left out

- Transport: the HTTP client and the async runtime are not modelled. `Client.OpenAiClient` stands in for the provider. Only the effect of each call on the remote store is stated, and a rejection is a single `Unavailable` error.
- Listing, retrieving threads and listing messages never fail with `Unavailable` in the model. Only the requests that change remote state, and the polls, can be rejected.
- Terminal output and timing: the `>`/`< ` progress marks and the 500 ms sleep between polls are not modelled. `POLLING_DURATION_MS` is kept as a constant. An I/O error while writing to the terminal is not modelled either.
- Assistant.PollLoop: the source polls forever while the run stays Queued/InProgress. The model polls a finite script and returns `StillPolling` once the script is used up, so it does not claim termination.
- The order in which the provider lists assistants is taken as newest first, the provider's default.
- Assistant.LoadOrCreateAssistant: the delete that `load_or_create_assistant` sends always targets an assistant the listing just showed, so its NotFound error is out of reach, and the model states only the `Unavailable` error.
- The credential check and client construction in `ais/mod.rs` (an environment-variable read) are not modelled.
- The command-line crate (prompting, terminal styling, startup glue) is not modelled.
- `Laoshi::init_from_dir` ends in `todo!()` and never returns normally. It is not modelled. `Laoshi.Laoshi.constructor` builds the laoshi as its struct literal does.
- Loading `laoshi.toml` is not modelled. The configuration is a value.
- Bundle upload, bundle naming, stale-bundle cleanup and deleting an assistant's files are not implemented in the source and are not modelled.
- The commented-out half of `utils/files.rs` (glob listing, TOML/JSON helpers, `XFile`) is not live code and is not modelled.
- JSON: the writer escapes as serde_json does: `\"`, `\\`, `\b`, `\f`, `\n`, `\r`, `\t`, and `\u00XX` with lower-case hex for the other characters below U+0020. The reader refuses raw control characters in a string, and accepts the two-character escapes and `\uXXXX` outside the surrogate range. It does not combine a `\uD8XX\uDCXX` surrogate pair into one character, which serde does; such a literal is refused, so a conversation file holding one would be treated as unreadable and replaced. The reader accepts one object with the single member `thread_id`, with whitespace between tokens. serde's derived deserializer would also skip unknown members and accept the array form `["thread_…"]`; the model refuses both, so for such a file the model starts a new thread where the source would reuse the saved one. `save_json` lives in the simple_fs crate, which is not part of this model, and its layout is taken as compact; a pretty-printed layout differs only by whitespace between tokens, which the reader skips.
- Paths and directories:
  - Directories are a flat set of paths, and `create_dir_all` is modelled as making the one directory asked for. A missing parent is not an error.
  - A source file that is a directory is modelled as unreadable.
  - The destination file's buffering is not modelled: what was written before an error is in the file.
  - Once the destination is created, writing to it and the final flush never fail in the model. In the source, a failed `writeln!` or `flush` on the destination is returned as an error (the `?` on `utils/files.rs` lines 14, 18, 20 and 22).
  - A source path equal to the destination reads the truncated destination.
  - Symbolic links and permissions are not modelled.
- The three id kinds being distinct types with no conversion between them holds by Dafny typing, so no lemma states it.
- `ThreadId` appears twice in the source, in `ais/types.rs` and in `ais/assistant.rs`. The model has one set of id types, with the serde form of `ais/types.rs`.
- The conversion from `&Config` takes the config by reference. In the model the config is an immutable value, so it cannot change.
- A conversation whose thread can no longer be retrieved is a hard error, `CannotFindThreadIdForConv`, as the code does. The model does not fall back to creating a new thread.
