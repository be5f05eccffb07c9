/**
 * The laoshi: an assistant bound to a local directory, with its configuration,
 * its persisted conversation and its instructions
 * (crates/ai-laoshi-core/src/laoshi/mod.rs).
 */
module Laoshi {
  import opened Wrappers
  import opened Types
  import opened Api
  import opened Client
  import opened LocalFs
  import opened LaoshiConfig
  import Json
  import Assistant
  import Message

  /** The hidden directory, under the laoshi's directory, that holds its data. */
  const DATA_DIR_NAME: string := ".laoshi"
  /** The file, in the data directory, that persists the conversation. */
  const CONV_FILE_NAME: string := "conv.json"
  /** The directory, in the data directory, for file bundles. */
  const FILES_DIR_NAME: string := "files"

  function DataDirOf(dir: Path): Path
  {
    Join(dir, DATA_DIR_NAME)
  }

  function ConvFileOf(dir: Path): Path
  {
    Join(DataDirOf(dir), CONV_FILE_NAME)
  }

  function FilesDirOf(dir: Path): Path
  {
    Join(DataDirOf(dir), FILES_DIR_NAME)
  }

  /** For a plain directory path the data lives at dir/.laoshi, dir/.laoshi/conv.json and dir/.laoshi/files. */
  lemma DataLayout(dir: Path)
    requires |dir| > 0 && dir[|dir| - 1] != '/'
    ensures DataDirOf(dir) == dir + "/.laoshi"
    ensures ConvFileOf(dir) == dir + "/.laoshi/conv.json"
    ensures FilesDirOf(dir) == dir + "/.laoshi/files"
    ensures ConvFileOf(dir) != FilesDirOf(dir)
  {
    assert DataDirOf(dir) == dir + "/" + ".laoshi";
    var d := DataDirOf(dir);
    assert d[|d| - 1] == 'i';
    assert ConvFileOf(dir) == d + "/" + "conv.json";
    assert FilesDirOf(dir) == d + "/" + "files";
    assert ConvFileOf(dir)[|d| + 1] == 'c' && FilesDirOf(dir)[|d| + 1] == 'f';
  }

  /** conv.json is a different path from the data directory that holds it. */
  lemma ConvFileIsNotDataDir(dir: Path)
    ensures ConvFileOf(dir) != DataDirOf(dir)
  {
    var d := DataDirOf(dir);
    if d != [] {
      assert |ConvFileOf(dir)| > |d|;
    }
  }

  /** A conversation is a thread, persisted by its id. */
  datatype Conversation = Conversation(threadId: ThreadId)

  /** The member name thread_id is written as it is, between quotes. */
  lemma KeyNeedsNoEscape()
    ensures Json.Quote("thread_id") == "\"thread_id\""
  {
    Json.EscapePlain("thread_id");
  }

  /**
   * The JSON that save_json writes for a conversation: a compact object whose
   * one member is thread_id, holding the id as a string literal.
   */
  function ConversationToJson(c: Conversation): (r: string)
    ensures r == "{" + Json.Quote("thread_id") + ":" + Json.Quote(c.threadId.raw) + "}"
  {
    "{" + Json.Quote("thread_id") + ":" + ThreadIdToJson(c.threadId) + "}"
  }

  /** True when `t` starts with `c` once leading white space is skipped. */
  predicate StartsWith(t: string, c: char)
  {
    var s := Json.SkipSpace(t);
    s != [] && s[0] == c
  }

  /** After the character that StartsWith found. */
  function After(t: string): string
  {
    var s := Json.SkipSpace(t);
    if s == [] then [] else s[1..]
  }

  /** What follows the "thread_id" key: a colon, the id, the closing brace and nothing more. */
  function ReadThreadIdMember(t: string): Option<ThreadId>
  {
    if !StartsWith(t, ':') then None
    else match ThreadIdFromJson(Json.SkipSpace(After(t)))
      case None => None
      case Some((id, rest)) =>
        if StartsWith(rest, '}') && Json.SkipSpace(After(rest)) == [] then Some(id) else None
  }

  /** Reads a conversation back: one object with the single member "thread_id", white space allowed between tokens. */
  function ConversationFromJson(text: string): (r: Option<Conversation>)
    ensures r.Some? ==> StartsWith(text, '{')
  {
    if !StartsWith(text, '{') then None
    else match Json.ReadString(Json.SkipSpace(After(text)))
      case None => None
      case Some((key, rest)) =>
        if key != "thread_id" then None
        else match ReadThreadIdMember(rest)
          case None => None
          case Some(id) => Some(Conversation(id))
  }

  lemma SkipNothing(t: string)
    requires t != [] && !Json.IsSpace(t[0])
    ensures Json.SkipSpace(t) == t
  {
  }

  lemma Regroup(key: string, id: string)
    ensures ("{" + key + ":" + id + "}")[1..] == key + (":" + (id + "}"))
    ensures (":" + (id + "}"))[1..] == id + "}"
  {
  }

  /** The opening brace, then the key and everything after it. */
  lemma OpenBrace(c: Conversation)
    ensures StartsWith(ConversationToJson(c), '{')
    ensures Json.SkipSpace(After(ConversationToJson(c)))
            == Json.Quote("thread_id") + (":" + (ThreadIdToJson(c.threadId) + "}"))
  {
    OpenBraceOf(Json.Quote("thread_id"), ThreadIdToJson(c.threadId));
  }

  /** The same, for any key literal and value text. */
  lemma OpenBraceOf(key: string, id: string)
    requires key != [] && key[0] == '"'
    ensures StartsWith("{" + key + ":" + id + "}", '{')
    ensures Json.SkipSpace(After("{" + key + ":" + id + "}")) == key + (":" + (id + "}"))
  {
    var text := "{" + key + ":" + id + "}";
    Regroup(key, id);
    SkipNothing(text);
    SkipNothing(key + (":" + (id + "}")));
  }


  /** The colon, then the value and the closing brace. */
  lemma Colon(id: string)
    requires id != [] && id[0] == '"'
    ensures StartsWith(":" + (id + "}"), ':')
    ensures Json.SkipSpace(After(":" + (id + "}"))) == id + "}"
  {
    Regroup("", id);
    SkipNothing(":" + (id + "}"));
    SkipNothing(id + "}");
  }

  /** The closing brace ends the text. */
  lemma CloseBrace()
    ensures StartsWith("}", '}') && Json.SkipSpace(After("}")) == []
  {
    SkipNothing("}");
  }

  /** The member's value is read back as the thread id it was written from. */
  lemma MemberRoundTrip(t: ThreadId)
    ensures ReadThreadIdMember(":" + (ThreadIdToJson(t) + "}")) == Some(t)
  {
    Colon(ThreadIdToJson(t));
    ThreadIdJsonRoundTrip(t, "}");
    CloseBrace();
  }

  /** What is written is read back as the same conversation. */
  lemma ConversationJsonRoundTrip(c: Conversation)
    ensures ConversationFromJson(ConversationToJson(c)) == Some(c)
  {
    OpenBrace(c);
    Json.QuoteRoundTrip("thread_id", ":" + (ThreadIdToJson(c.threadId) + "}"));
    MemberRoundTrip(c.threadId);
  }

  /** load_json of the conversation file: a conversation only from a readable file that holds one. */
  function LoadConversation(files: map<Path, FileData>, p: Path): (r: Option<Conversation>)
    ensures r.Some? ==> p in files && files[p].Text? && ConversationFromJson(files[p].content) == r
  {
    if p in files && files[p].Text? then ConversationFromJson(files[p].content) else None
  }

  /** save_json then load_json gives back the saved conversation. */
  lemma SavedConversationLoads(files: map<Path, FileData>, p: Path, c: Conversation)
    ensures LoadConversation(files[p := FileData.Text(ConversationToJson(c))], p) == Some(c)
  {
    ConversationJsonRoundTrip(c);
  }

  /** The files once load_or_create_conversation has removed the old conversation, if asked to. */
  function AfterRemoval(files: map<Path, FileData>, p: Path, recreate: bool): map<Path, FileData>
  {
    if recreate then files - {p} else files
  }

  class Laoshi {
    const dir: Path
    const oac: OpenAiClient
    /** The local filesystem the laoshi's directory lives on. */
    const disk: Disk
    const assistantId: AssistantId
    const config: Config

    /** The laoshi as init_from_dir assembles it, once its assistant is known. */
    constructor (dir: Path, oac: OpenAiClient, disk: Disk, assistantId: AssistantId, config: Config)
      ensures this.dir == dir && this.oac == oac && this.disk == disk
      ensures this.assistantId == assistantId && this.config == config
    {
      this.dir := dir;
      this.oac := oac;
      this.disk := disk;
      this.assistantId := assistantId;
      this.config := config;
    }

    /** name: the name the configuration gives the assistant. */
    function Name(): (r: string)
      ensures r == ToCreateConfig(config).name
    {
      config.name
    }

    /** data_dir: dir/.laoshi, created when missing. */
    method DataDir() returns (r: Result<Path, Error>)
      requires disk.Valid()
      modifies disk
      ensures disk.Valid()
      ensures r.Ok? <==> DataDirOf(dir) !in old(disk.files)
      ensures r.Ok? ==> r.value == DataDirOf(dir) && disk.dirs == old(disk.dirs) + {DataDirOf(dir)}
      ensures r.Err? ==> r.error == Io(DataDirOf(dir)) && disk.dirs == old(disk.dirs)
      ensures disk.files == old(disk.files)
    {
      var path := DataDirOf(dir);
      var made := disk.EnsureDir(path);
      match made
      case Err(e) => return Err(e);
      case Ok(_) => return Ok(path);
    }

    /** data_files_dir: dir/.laoshi/files, created with its parent when missing. */
    method DataFilesDir() returns (r: Result<Path, Error>)
      requires disk.Valid()
      modifies disk
      ensures disk.Valid()
      ensures r.Ok? <==> DataDirOf(dir) !in old(disk.files) && FilesDirOf(dir) !in old(disk.files)
      ensures r.Ok? ==> r.value == FilesDirOf(dir) && disk.dirs == old(disk.dirs) + {DataDirOf(dir), FilesDirOf(dir)}
      ensures r.Err? ==> r.error == Io(if DataDirOf(dir) in old(disk.files) then DataDirOf(dir) else FilesDirOf(dir))
      ensures r.Err? ==> disk.dirs == old(disk.dirs) + (if DataDirOf(dir) in old(disk.files) then {} else {DataDirOf(dir)})
      ensures disk.files == old(disk.files)
    {
      var data := DataDir();
      match data
      case Err(e) => return Err(e);
      case Ok(d) =>
        var path := Join(d, FILES_DIR_NAME);
        var made := disk.EnsureDir(path);
        match made
        case Err(e) => return Err(e);
        case Ok(_) => return Ok(path);
    }

    /**
     * upload_instructions: when the instructions file exists, its text becomes
     * the assistant's instructions and the answer is true; when it does not,
     * nothing is sent and the answer is false.
     */
    method UploadInstructions() returns (r: Result<bool, Error>)
      requires oac.Valid()
      modifies oac
      ensures oac.Valid()
      ensures var file := Join(dir, config.instructionsFile);
        && (!disk.Exists(file) ==> r == Ok(false) && unchanged(oac))
        && (disk.Exists(file) && disk.ReadToString(file).Err? ==> r == Err(Io(file)) && unchanged(oac))
        && (disk.ReadToString(file).Ok? ==>
              var content := disk.ReadToString(file).value;
              && oac.calls == old(oac.calls) + [UpdateAssistantCall(assistantId, content)]
              && (r.Ok? <==> !old(oac.Rejects()) && HasAssistant(old(oac.assistants), assistantId.raw))
              && (r.Ok? ==> r.value)
              && |oac.assistants| == |old(oac.assistants)|
              && (r.Ok? ==> forall i :: 0 <= i < |oac.assistants| ==>
                              oac.assistants[i] == if old(oac.assistants)[i].id == assistantId.raw
                                                   then old(oac.assistants)[i].(instructions := Some(content))
                                                   else old(oac.assistants)[i])
              && (r.Err? ==> r.error.OpenAI? && oac.assistants == old(oac.assistants)))
      ensures oac.threads == old(oac.threads) && oac.script == old(oac.script) && oac.nextId == old(oac.nextId)
      ensures oac.reply == old(oac.reply) && oac.failing == old(oac.failing)
    {
      var file := Join(dir, config.instructionsFile);
      if !disk.Exists(file) {
        return Ok(false);
      }
      var read := disk.ReadToString(file);
      match read
      case Err(e) => return Err(e);
      case Ok(content) =>
        var uploaded := Assistant.UploadInstructions(oac, assistantId, content);
        match uploaded
        case Err(e) => return Err(e);
        case Ok(_) => return Ok(true);
    }

    /**
     * load_or_create_conversation: with `recreate`, an existing conv.json is
     * removed first; a conversation that loads must name a thread the provider
     * knows; otherwise a new thread is created and saved as the conversation.
     */
    method LoadOrCreateConversation(recreate: bool) returns (r: Result<Conversation, Error>)
      requires oac.Valid() && disk.Valid()
      modifies oac, disk
      ensures oac.Valid() && disk.Valid()
      ensures oac.assistants == old(oac.assistants) && oac.script == old(oac.script)
      ensures oac.reply == old(oac.reply) && oac.failing == old(oac.failing)
      ensures disk.dirs == if DataDirOf(dir) in old(disk.files) then old(disk.dirs) else old(disk.dirs) + {DataDirOf(dir)}
      // -- A file where the data directory should be
      ensures DataDirOf(dir) in old(disk.files) ==>
        r == Err(Io(DataDirOf(dir))) && disk.files == old(disk.files) && unchanged(oac)
      // -- A directory where conv.json should be cannot be removed
      ensures DataDirOf(dir) !in old(disk.files) && recreate && ConvFileOf(dir) in old(disk.dirs) && ConvFileOf(dir) !in old(disk.files) ==>
        r == Err(Io(ConvFileOf(dir))) && disk.files == old(disk.files) && unchanged(oac)
      ensures DataDirOf(dir) !in old(disk.files) && !(recreate && ConvFileOf(dir) in old(disk.dirs) && ConvFileOf(dir) !in old(disk.files)) ==>
        var conv := ConvFileOf(dir);
        var files := AfterRemoval(old(disk.files), conv, recreate);
        match LoadConversation(files, conv)
        // -- A saved conversation: kept when its thread exists, an error when it does not
        case Some(c) =>
          && r == (if c.threadId in old(oac.threads) then Ok(c) else Err(CannotFindThreadIdForConv(c.threadId.raw)))
          && disk.files == files && unchanged(oac)
        // -- Nothing to load: a new thread, saved as the conversation
        case None =>
          && oac.calls == old(oac.calls) + [CreateThreadCall]
          && oac.nextId == old(oac.nextId) + (if old(oac.Rejects()) then 0 else 1)
          && (old(oac.Rejects()) ==>
                r == Err(OpenAI(Unavailable)) && disk.files == files && oac.threads == old(oac.threads))
          && (!old(oac.Rejects()) ==>
                var t := ThreadId(Issued("thread_", old(oac.nextId)));
                && t !in old(oac.threads)
                && oac.threads == old(oac.threads)[t := []]
                && (conv in old(disk.dirs) ==> r == Err(Io(conv)) && disk.files == files)
                && (conv !in old(disk.dirs) ==>
                      r == Ok(Conversation(t)) && disk.files == files[conv := FileData.Text(ConversationToJson(Conversation(t)))]))
    {
      var data := DataDir();
      match data {
        case Err(e) => return Err(e);
        case Ok(_) =>
      }
      var conv := Join(data.value, CONV_FILE_NAME);
      ghost var files := AfterRemoval(old(disk.files), conv, recreate);
      if recreate && disk.Exists(conv) {
        var removed := disk.RemoveFile(conv);
        match removed {
          case Err(e) => return Err(e);
          case Ok(_) =>
        }
      } else if recreate {
        assert disk.files - {conv} == disk.files;
      }
      assert disk.files == files;
      r := LoadOrStart(conv);
    }

    /** The rest of load_or_create_conversation, once conv.json has been removed or kept. */
    method LoadOrStart(conv: Path) returns (r: Result<Conversation, Error>)
      requires oac.Valid() && disk.Valid()
      modifies oac, disk
      ensures oac.Valid() && disk.Valid()
      ensures oac.assistants == old(oac.assistants) && oac.script == old(oac.script)
      ensures oac.reply == old(oac.reply) && oac.failing == old(oac.failing)
      ensures disk.dirs == old(disk.dirs)
      ensures match LoadConversation(old(disk.files), conv)
        case Some(c) =>
          && r == (if c.threadId in old(oac.threads) then Ok(c) else Err(CannotFindThreadIdForConv(c.threadId.raw)))
          && disk.files == old(disk.files) && unchanged(oac)
        case None =>
          && oac.calls == old(oac.calls) + [CreateThreadCall]
          && oac.nextId == old(oac.nextId) + (if old(oac.Rejects()) then 0 else 1)
          && (old(oac.Rejects()) ==>
                r == Err(OpenAI(Unavailable)) && disk.files == old(disk.files) && oac.threads == old(oac.threads))
          && (!old(oac.Rejects()) ==>
                var t := ThreadId(Issued("thread_", old(oac.nextId)));
                && t !in old(oac.threads)
                && oac.threads == old(oac.threads)[t := []]
                && (conv in old(disk.dirs) ==> r == Err(Io(conv)) && disk.files == old(disk.files))
                && (conv !in old(disk.dirs) ==>
                      r == Ok(Conversation(t)) && disk.files == old(disk.files)[conv := FileData.Text(ConversationToJson(Conversation(t)))]))
    {
      var loaded := LoadConversation(disk.files, conv);
      match loaded {
        case Some(c) =>
          // -- A saved conversation must still have its thread
          var thread := Assistant.GetThread(oac, c.threadId);
          match thread {
            case Err(_) => return Err(CannotFindThreadIdForConv(c.threadId.raw));
            case Ok(_) => return Ok(c);
          }
        case None =>
          // -- Start a new thread and save it as the conversation
          var created := Assistant.CreateThread(oac);
          match created {
            case Err(e) => return Err(e);
            case Ok(t) =>
              var c := Conversation(t);
              var saved := disk.WriteFile(conv, ConversationToJson(c));
              match saved {
                case Err(e) => return Err(e);
                case Ok(_) => return Ok(c);
              }
          }
      }
    }

    /** chat: one turn of the conversation's thread with the laoshi's assistant. */
    method Chat(conv: Conversation, msg: string) returns (r: Assistant.Reply)
      requires oac.Valid()
      modifies oac
      ensures oac.Valid()
      ensures oac.assistants == old(oac.assistants) && oac.reply == old(oac.reply) && oac.failing == old(oac.failing)
      ensures oac.threads.Keys == old(oac.threads).Keys
      // -- The message is posted and the run created before any poll
      ensures var n := |old(oac.calls)|;
              && n < |oac.calls| && oac.calls[..n] == old(oac.calls)
              && oac.calls[n] == CreateMessageCall(conv.threadId, msg)
              && (n + 1 < |oac.calls| ==> oac.calls[n + 1] == CreateRunCall(conv.threadId, assistantId))
              && (forall p :: n + 2 <= p < |oac.calls| ==> oac.calls[p].RetrieveRunCall?)
      // -- A rejected request ends the turn with its error
      ensures !Assistant.NoneRejectedIn(oac.failing, |old(oac.calls)|, |oac.calls|) ==>
                && r == Assistant.Answered(Err(OpenAI(Unavailable)))
                && Assistant.NoneRejectedIn(oac.failing, |old(oac.calls)|, |oac.calls| - 1)
      // -- An unknown thread or assistant fails before any poll
      ensures Assistant.NoneRejectedIn(oac.failing, |old(oac.calls)|, |oac.calls|) && conv.threadId !in old(oac.threads) ==>
                r == Assistant.Answered(Err(OpenAI(NotFound("thread", conv.threadId.raw)))) && |oac.calls| == |old(oac.calls)| + 1
                && oac.threads == old(oac.threads) && oac.nextId == old(oac.nextId) && oac.script == old(oac.script)
      ensures Assistant.NoneRejectedIn(oac.failing, |old(oac.calls)|, |oac.calls|) && conv.threadId in old(oac.threads)
              && !HasAssistant(old(oac.assistants), assistantId.raw) ==>
                r == Assistant.Answered(Err(OpenAI(NotFound("assistant", assistantId.raw)))) && |oac.calls| == |old(oac.calls)| + 2
                && oac.threads == old(oac.threads)[conv.threadId := [Assistant.UserMessage(old(oac.nextId), msg)] + old(oac.threads)[conv.threadId]]
                && oac.nextId == old(oac.nextId) + 1 && oac.script == old(oac.script)
      // -- Otherwise the polls decide
      ensures Assistant.NoneRejectedIn(oac.failing, |old(oac.calls)|, |oac.calls|) && conv.threadId in old(oac.threads)
              && HasAssistant(old(oac.assistants), assistantId.raw) ==>
                var polls := |oac.calls| - |old(oac.calls)| - 2;
                var script := old(oac.script);
                var posts := Assistant.TurnPosts(script, old(oac.reply), old(oac.nextId), msg);
                && oac.threads == old(oac.threads)[conv.threadId := posts + old(oac.threads)[conv.threadId]]
                && oac.nextId == old(oac.nextId) + 1 + |posts|
                && match Assistant.FirstTerminal(script)
                case None =>
                  r == Assistant.StillPolling && polls == |script| && oac.script == []
                case Some(k) =>
                  && polls == k + 1
                  && oac.script == script[k + 1..]
                  && r == Assistant.Answered(
                       if script[k] != Completed then Err(RunError(script[k]))
                       else if old(oac.reply).Some? then
                         Message.GetTextContent(Assistant.ReplyMessage(old(oac.nextId) + 2, old(oac.reply).value))
                       else Ok(msg))
    {
      r := Assistant.RunThreadMsg(oac, assistantId, conv.threadId, msg);
    }
  }

  /**
   * A conversation that was loaded or created is the one the next load
   * returns: its thread stays known and its file stays in place.
   */
  method ConversationPersists(laoshi: Laoshi, recreate: bool) returns (first: Result<Conversation, Error>, second: Result<Conversation, Error>)
    requires laoshi.oac.Valid() && laoshi.disk.Valid()
    modifies laoshi.oac, laoshi.disk
    ensures first.Ok? ==> second == first
  {
    ghost var files0 := laoshi.disk.files;
    first := laoshi.LoadOrCreateConversation(recreate);
    if first.Ok? {
      var conv := ConvFileOf(laoshi.dir);
      ConvFileIsNotDataDir(laoshi.dir);
      var files1 := AfterRemoval(files0, conv, recreate);
      match LoadConversation(files1, conv) {
        case Some(c) =>
          assert c == first.value;
        case None =>
          SavedConversationLoads(files1, conv, first.value);
      }
      assert LoadConversation(laoshi.disk.files, conv) == Some(first.value);
      assert first.value.threadId in laoshi.oac.threads;
      assert DataDirOf(laoshi.dir) !in laoshi.disk.files;
    }
    second := laoshi.LoadOrCreateConversation(false);
  }
}
