/**
 * Assistant, thread and run services over the provider client
 * (crates/ai-laoshi-core/src/ais/assistant.rs).
 */
module Assistant {
  import opened Wrappers
  import opened Types
  import opened Api
  import opened Client
  import Message

  /** DEFAULT_QUERY: assistants are listed one page of at most 100. */
  const LIST_LIMIT: nat := 100
  /** The pause between two polls of a run; waiting itself is not modelled. */
  const POLLING_DURATION_MS: nat := 500
  /** The reply is read from a listing of the thread limited to its newest message. */
  const LATEST_LIMIT: nat := 1

  /** What an assistant is created from: its name and its model. */
  datatype CreateConfig = CreateConfig(name: string, model: string)

  /** An assistant matches only when it has a name and that name is exactly `name`. */
  predicate NameMatches(a: AssistantObject, name: string)
  {
    a.name == Some(name)
  }

  /** The position of the first assistant in `list` that matches `name`. */
  function FindFirst(list: seq<AssistantObject>, name: string): (r: Option<nat>)
    ensures r.Some? ==> r.value < |list| && NameMatches(list[r.value], name)
    ensures r.Some? ==> forall j :: 0 <= j < r.value ==> !NameMatches(list[j], name)
    ensures r.None? <==> forall j :: 0 <= j < |list| ==> !NameMatches(list[j], name)
  {
    if list == [] then None
    else if NameMatches(list[0], name) then Some(0)
    else match FindFirst(list[1..], name)
      case None => None
      case Some(i) => Some(i + 1)
  }

  /** The assistant first_by_name finds in a listed page. */
  function FirstByNameIn(page: seq<AssistantObject>, name: string): (r: Option<AssistantObject>)
    ensures r.Some? ==> exists i :: 0 <= i < |page| && page[i] == r.value && NameMatches(page[i], name)
                                    && forall j :: 0 <= j < i ==> !NameMatches(page[j], name)
    ensures r.None? <==> forall j :: 0 <= j < |page| ==> !NameMatches(page[j], name)
  {
    match FindFirst(page, name)
    case None => None
    case Some(i) => Some(page[i])
  }

  /**
   * first_by_name: the first assistant, in listing order, among the first
   * LIST_LIMIT listed, whose name is exactly `name`. Assistants further down
   * the listing are never seen.
   */
  function FirstByName(oac: OpenAiClient, name: string): (r: Option<AssistantObject>)
    reads oac
    ensures r.Some? ==> exists i :: 0 <= i < |oac.assistants| && i < LIST_LIMIT && oac.assistants[i] == r.value
                                    && NameMatches(r.value, name)
                                    && forall j :: 0 <= j < i ==> !NameMatches(oac.assistants[j], name)
    ensures r.None? <==> forall j :: 0 <= j < |oac.assistants| && j < LIST_LIMIT ==> !NameMatches(oac.assistants[j], name)
  {
    var page := oac.ListAssistants(LIST_LIMIT);
    assert forall j :: 0 <= j < |page| ==> page[j] == oac.assistants[j];
    FirstByNameIn(page, name)
  }

  /** The request create sends: the config's model and name, with the retrieval tool. */
  function CreateRequest(config: CreateConfig): (r: CreateAssistantRequest)
    ensures r.name == Some(config.name) && r.model == config.model && r.tools == [Retrieval]
  {
    CreateAssistantRequest(config.model, Some(config.name), [Retrieval])
  }

  /** The assistant the provider creates for `config` as its `k`-th new resource. */
  function NewAssistant(config: CreateConfig, k: nat): AssistantObject
  {
    AssistantObject(Issued("asst_", k), Some(config.name), config.model, [Retrieval], None)
  }

  /** create: one new assistant, listed first, with the config's name and model and retrieval. */
  method Create(oac: OpenAiClient, config: CreateConfig) returns (r: Result<AssistantId, Error>)
    requires oac.Valid()
    modifies oac
    ensures oac.Valid()
    ensures oac.calls == old(oac.calls) + [CreateAssistantCall(config.name, config.model)]
    ensures r.Err? <==> old(oac.Rejects())
    ensures r.Err? ==> r.error == OpenAI(Unavailable) && oac.assistants == old(oac.assistants) && oac.nextId == old(oac.nextId)
    ensures r.Ok? ==> && r.value == AssistantId(Issued("asst_", old(oac.nextId)))
                      && oac.assistants == [NewAssistant(config, old(oac.nextId))] + old(oac.assistants)
                      && oac.nextId == old(oac.nextId) + 1
    ensures oac.threads == old(oac.threads) && oac.script == old(oac.script)
    ensures oac.reply == old(oac.reply) && oac.failing == old(oac.failing)
  {
    var created := oac.CreateAssistant(CreateRequest(config));
    match created
    case Err(e) => return Err(OpenAI(e));
    case Ok(obj) => return Ok(AssistantId(obj.id));
  }

  /** delete: removes the assistant object only; files attached to it stay. */
  method Delete(oac: OpenAiClient, id: AssistantId) returns (r: Result<(), Error>)
    requires oac.Valid()
    modifies oac
    ensures oac.Valid()
    ensures oac.calls == old(oac.calls) + [DeleteAssistantCall(id)]
    ensures r.Ok? <==> !old(oac.Rejects()) && HasAssistant(old(oac.assistants), id.raw)
    ensures r.Err? ==> r.error == OpenAI(if old(oac.Rejects()) then Unavailable else NotFound("assistant", id.raw))
    ensures oac.assistants == if r.Ok? then WithoutAssistant(old(oac.assistants), id.raw) else old(oac.assistants)
    ensures oac.threads == old(oac.threads) && oac.script == old(oac.script) && oac.nextId == old(oac.nextId)
    ensures oac.reply == old(oac.reply) && oac.failing == old(oac.failing)
  {
    var deleted := oac.DeleteAssistant(id);
    match deleted
    case Err(e) => return Err(OpenAI(e));
    case Ok(_) => return Ok(());
  }

  /** The assistant first_by_name finds in a whole listing. */
  function Matched(list: seq<AssistantObject>, name: string): Option<AssistantObject>
  {
    FirstByNameIn(Page(list, LIST_LIMIT), name)
  }

  /** The requests load_or_create_assistant sends for a listing, in order. */
  function Requests(list: seq<AssistantObject>, config: CreateConfig, recreate: bool): seq<Call>
  {
    match Matched(list, config.name)
    case Some(a) =>
      if recreate then [DeleteAssistantCall(AssistantId(a.id)), CreateAssistantCall(config.name, config.model)]
      else []
    case None => [CreateAssistantCall(config.name, config.model)]
  }

  /**
   * The listing, the provider's id counter and the returned id after
   * load_or_create_assistant, when the provider rejects none of its requests.
   */
  function Reconcile(list: seq<AssistantObject>, next: nat, config: CreateConfig, recreate: bool)
    : (seq<AssistantObject>, nat, AssistantId)
  {
    match Matched(list, config.name)
    case Some(a) =>
      if recreate then ([NewAssistant(config, next)] + WithoutAssistant(list, a.id), next + 1, AssistantId(Issued("asst_", next)))
      else (list, next, AssistantId(a.id))
    case None => ([NewAssistant(config, next)] + list, next + 1, AssistantId(Issued("asst_", next)))
  }

  /** No request at positions from..to of the log is rejected. */
  predicate NoneRejectedIn(failing: set<nat>, from: nat, to: nat)
  {
    forall p :: from <= p < to ==> p !in failing
  }

  /** NoneRejectedIn over at most two positions, spelled out. */
  lemma NoneRejectedInShort(failing: set<nat>, n: nat)
    ensures NoneRejectedIn(failing, n, n)
    ensures NoneRejectedIn(failing, n, n + 1) <==> n !in failing
    ensures NoneRejectedIn(failing, n, n + 2) <==> n !in failing && n + 1 !in failing
  {
  }

  /**
   * load_or_create_assistant: with a match and no recreate, the match's id and
   * no request at all; with recreate, a delete of the match and then a create;
   * with no match, one create. A rejected request ends the call with its error,
   * leaving whatever the requests before it did.
   */
  method LoadOrCreateAssistant(oac: OpenAiClient, config: CreateConfig, recreate: bool) returns (r: Result<AssistantId, Error>)
    requires oac.Valid()
    modifies oac
    ensures oac.Valid()
    ensures |old(oac.calls)| <= |oac.calls| <= |old(oac.calls)| + |Requests(old(oac.assistants), config, recreate)|
    ensures oac.calls == old(oac.calls) + Requests(old(oac.assistants), config, recreate)[..|oac.calls| - |old(oac.calls)|]
    ensures r.Ok? <==> NoneRejectedIn(oac.failing, |old(oac.calls)|, |old(oac.calls)| + |Requests(old(oac.assistants), config, recreate)|)
    ensures r.Ok? ==> oac.calls == old(oac.calls) + Requests(old(oac.assistants), config, recreate)
    ensures r.Ok? ==> (oac.assistants, oac.nextId, r.value)
                      == Reconcile(old(oac.assistants), old(oac.nextId), config, recreate)
    ensures r.Err? ==> && r.error == OpenAI(Unavailable)
                       && |oac.calls| - 1 in oac.failing
                       && NoneRejectedIn(oac.failing, |old(oac.calls)|, |oac.calls| - 1)
                       && oac.nextId == old(oac.nextId)
    ensures r.Err? ==> oac.assistants == if |oac.calls| == |old(oac.calls)| + 2
                                         then WithoutAssistant(old(oac.assistants), Matched(old(oac.assistants), config.name).value.id)
                                         else old(oac.assistants)
    ensures oac.threads == old(oac.threads) && oac.script == old(oac.script)
    ensures oac.reply == old(oac.reply) && oac.failing == old(oac.failing)
  {
    var found := FirstByName(oac, config.name);
    ghost var list := oac.assistants;
    assert found == Matched(list, config.name);
    ghost var plan := Requests(list, config, recreate);
    ghost var n := |oac.calls|;
    NoneRejectedInShort(oac.failing, n);

    match found {
      case Some(a) =>
        if recreate {
          // -- Delete the match, then create a fresh one
          assert HasAssistant(list, a.id);
          r := Replace(oac, config, AssistantId(a.id));
          assert plan == [DeleteAssistantCall(AssistantId(a.id)), CreateAssistantCall(config.name, config.model)];
          if |oac.calls| == n + 1 {
            assert plan[..1] == [DeleteAssistantCall(AssistantId(a.id))];
          } else {
            assert plan[..2] == plan;
          }
        } else {
          // -- Load the match
          assert plan == [] && plan[..0] == [];
          r := Ok(AssistantId(a.id));
        }
      case None =>
        // -- Create the first one
        r := Create(oac, config);
        assert plan == [CreateAssistantCall(config.name, config.model)] && plan[..1] == plan;
    }
  }

  /**
   * The recreate path: deletes the assistant `id`, drops its id (the source's
   * `take()`), then creates one for `config`; a rejected delete stops it.
   */
  method Replace(oac: OpenAiClient, config: CreateConfig, id: AssistantId) returns (r: Result<AssistantId, Error>)
    requires oac.Valid() && HasAssistant(oac.assistants, id.raw)
    modifies oac
    ensures oac.Valid()
    ensures var n := |old(oac.calls)|;
            if old(oac.Rejects()) then
              && oac.calls == old(oac.calls) + [DeleteAssistantCall(id)]
              && r == Err(OpenAI(Unavailable)) && oac.assistants == old(oac.assistants)
              && oac.nextId == old(oac.nextId)
            else
              && oac.calls == old(oac.calls) + [DeleteAssistantCall(id), CreateAssistantCall(config.name, config.model)]
              && (r.Ok? <==> n + 1 !in oac.failing)
              && (r.Err? ==> && r.error == OpenAI(Unavailable)
                             && oac.assistants == WithoutAssistant(old(oac.assistants), id.raw)
                             && oac.nextId == old(oac.nextId))
              && (r.Ok? ==> && oac.assistants == [NewAssistant(config, old(oac.nextId))] + WithoutAssistant(old(oac.assistants), id.raw)
                            && oac.nextId == old(oac.nextId) + 1
                            && r.value == AssistantId(Issued("asst_", old(oac.nextId))))
    ensures oac.threads == old(oac.threads) && oac.script == old(oac.script)
    ensures oac.reply == old(oac.reply) && oac.failing == old(oac.failing)
  {
    ghost var n := |oac.calls|;
    var deleted := Delete(oac, id);
    match deleted {
      case Err(e) => return Err(e);
      case Ok(_) =>
    }
    assert |oac.calls| == n + 1 && oac.nextId == old(oac.nextId);
    assert oac.assistants == WithoutAssistant(old(oac.assistants), id.raw);
    r := Create(oac, config);
  }

  /** Repeating the call without recreate returns the same id and changes nothing more. */
  lemma ReconcileIdempotent(list: seq<AssistantObject>, next: nat, config: CreateConfig, recreate: bool)
    ensures var (list1, next1, id1) := Reconcile(list, next, config, recreate);
            && Reconcile(list1, next1, config, false) == (list1, next1, id1)
            && Requests(list1, config, false) == []
  {
    var (list1, next1, id1) := Reconcile(list, next, config, recreate);
    var found := Matched(list, config.name);
    if found.None? || recreate {
      assert list1[0] == NewAssistant(config, next);
      assert FindFirst(Page(list1, LIST_LIMIT), config.name) == Some(0);
    }
  }

  /**
   * Two successive calls, the second without recreate: the second returns the
   * same id, sends no request and leaves the provider as the first left it.
   */
  method LoadTwice(oac: OpenAiClient, config: CreateConfig, recreate: bool)
    returns (first: Result<AssistantId, Error>, second: Result<AssistantId, Error>)
    requires oac.Valid()
    modifies oac
    ensures oac.Valid()
    ensures first.Ok? ==> second == first
    ensures first.Ok? ==> && oac.calls == old(oac.calls) + Requests(old(oac.assistants), config, recreate)
                          && (oac.assistants, oac.nextId, first.value)
                             == Reconcile(old(oac.assistants), old(oac.nextId), config, recreate)
    ensures oac.threads == old(oac.threads) && oac.script == old(oac.script)
    ensures oac.reply == old(oac.reply) && oac.failing == old(oac.failing)
  {
    ghost var list, next := oac.assistants, oac.nextId;
    first := LoadOrCreateAssistant(oac, config, recreate);
    if first.Ok? {
      ReconcileIdempotent(list, next, config, recreate);
    }
    second := LoadOrCreateAssistant(oac, config, false);
  }

  /** At most one assistant of the listing carries the name. */
  predicate UniquelyNamed(list: seq<AssistantObject>, name: string)
  {
    forall i, j :: 0 <= i < j < |list| && NameMatches(list[i], name) ==> !NameMatches(list[j], name)
  }

  /** When the whole listing fits on the first page, reconciling never duplicates the name. */
  lemma ReconcileKeepsNameUnique(list: seq<AssistantObject>, next: nat, config: CreateConfig, recreate: bool)
    requires |list| <= LIST_LIMIT
    requires DistinctIds(list) && UniquelyNamed(list, config.name)
    ensures UniquelyNamed(Reconcile(list, next, config, recreate).0, config.name)
  {
    var name := config.name;
    assert Page(list, LIST_LIMIT) == list;
    match FindFirst(list, name)
    case None =>
      UniqueAfterPrepend(NewAssistant(config, next), list, name);
    case Some(k) =>
      if recreate {
        WithoutAssistantAt(list, k);
        NoneLeftAfterRemoval(list, k, name, list[..k] + list[k + 1..]);
        UniqueAfterPrepend(NewAssistant(config, next), list[..k] + list[k + 1..], name);
      }
  }

  /** A listing with no assistant of the name stays uniquely named with one put in front. */
  lemma UniqueAfterPrepend(a: AssistantObject, rest: seq<AssistantObject>, name: string)
    requires forall j :: 0 <= j < |rest| ==> !NameMatches(rest[j], name)
    ensures UniquelyNamed([a] + rest, name)
  {
    var list1 := [a] + rest;
    forall j | 1 <= j < |list1| ensures !NameMatches(list1[j], name) {
      assert list1[j] == rest[j - 1];
    }
  }

  /** In a uniquely named listing, removing the entry of that name leaves none of it. */
  lemma NoneLeftAfterRemoval(list: seq<AssistantObject>, k: nat, name: string, rest: seq<AssistantObject>)
    requires k < |list| && NameMatches(list[k], name) && UniquelyNamed(list, name)
    requires rest == list[..k] + list[k + 1..]
    ensures forall j :: 0 <= j < |rest| ==> !NameMatches(rest[j], name)
  {
    forall j | 0 <= j < |rest| ensures !NameMatches(rest[j], name) {
      if j < k {
        assert rest[j] == list[j];
      } else {
        assert rest[j] == list[j + 1];
      }
    }
  }

  /**
   * An assistant of the same name below the first page is not seen: without
   * recreate, a second one is created in front of the listing, and the one
   * further down stays.
   */
  lemma LaterPagesAreNotSearched(list: seq<AssistantObject>, j: nat, next: nat, config: CreateConfig)
    requires LIST_LIMIT <= j < |list| && NameMatches(list[j], config.name)
    requires forall i :: 0 <= i < LIST_LIMIT ==> !NameMatches(list[i], config.name)
    ensures var list1 := Reconcile(list, next, config, false).0;
            && list1 == [NewAssistant(config, next)] + list
            && NameMatches(list1[0], config.name)
            && NameMatches(list1[j + 1], config.name)
  {
    var page := Page(list, LIST_LIMIT);
    assert forall i :: 0 <= i < |page| ==> page[i] == list[i];
    assert FirstByNameIn(page, config.name) == None;
  }

  /** upload_instructions: replaces the assistant's instructions with `content`. */
  method UploadInstructions(oac: OpenAiClient, id: AssistantId, content: string) returns (r: Result<(), Error>)
    requires oac.Valid()
    modifies oac
    ensures oac.Valid()
    ensures oac.calls == old(oac.calls) + [UpdateAssistantCall(id, content)]
    ensures r.Ok? <==> !old(oac.Rejects()) && HasAssistant(old(oac.assistants), id.raw)
    ensures r.Err? ==> r.error.OpenAI? && oac.assistants == old(oac.assistants)
    ensures |oac.assistants| == |old(oac.assistants)|
    ensures r.Ok? ==> forall i :: 0 <= i < |oac.assistants| ==>
      oac.assistants[i] == if old(oac.assistants)[i].id == id.raw
                           then old(oac.assistants)[i].(instructions := Some(content))
                           else old(oac.assistants)[i]
    ensures oac.threads == old(oac.threads) && oac.script == old(oac.script) && oac.nextId == old(oac.nextId)
    ensures oac.reply == old(oac.reply) && oac.failing == old(oac.failing)
  {
    var updated := oac.UpdateInstructions(id, content);
    match updated
    case Err(e) => return Err(OpenAI(e));
    case Ok(_) => return Ok(());
  }

  /** create_thread: one new, empty thread. */
  method CreateThread(oac: OpenAiClient) returns (r: Result<ThreadId, Error>)
    requires oac.Valid()
    modifies oac
    ensures oac.Valid()
    ensures oac.calls == old(oac.calls) + [CreateThreadCall]
    ensures r.Err? <==> old(oac.Rejects())
    ensures r.Err? ==> r.error == OpenAI(Unavailable) && oac.threads == old(oac.threads) && oac.nextId == old(oac.nextId)
    ensures r.Ok? ==> && r.value == ThreadId(Issued("thread_", old(oac.nextId)))
                      && r.value !in old(oac.threads)
                      && oac.threads == old(oac.threads)[r.value := []]
                      && oac.nextId == old(oac.nextId) + 1
    ensures oac.assistants == old(oac.assistants) && oac.script == old(oac.script)
    ensures oac.reply == old(oac.reply) && oac.failing == old(oac.failing)
  {
    var created := oac.CreateThread();
    match created
    case Err(e) => return Err(OpenAI(e));
    case Ok(t) => return Ok(t);
  }

  /** get_thread: succeeds exactly when the provider knows the thread. */
  function GetThread(oac: OpenAiClient, t: ThreadId): (r: Result<ThreadObject, Error>)
    reads oac
    ensures r.Ok? <==> t in oac.threads
    ensures r.Ok? ==> r.value.id == t
    ensures r.Err? ==> r.error == OpenAI(NotFound("thread", t.raw))
  {
    match oac.RetrieveThread(t)
    case Err(e) => Err(OpenAI(e))
    case Ok(obj) => Ok(obj)
  }

  /**
   * get_first_thread_message_content: the text of the thread's newest message;
   * an empty thread is NoMessageFoundInMessages.
   */
  function GetFirstThreadMessageContent(oac: OpenAiClient, t: ThreadId): (r: Result<string, Error>)
    reads oac
    ensures t !in oac.threads ==> r == Err(OpenAI(NotFound("thread", t.raw)))
    ensures t in oac.threads && oac.threads[t] == [] ==> r == Err(NoMessageFoundInMessages)
    ensures t in oac.threads && oac.threads[t] != [] ==> r == Message.GetTextContent(oac.threads[t][0])
  {
    match oac.ListMessages(t, LATEST_LIMIT)
    case Err(e) => Err(OpenAI(e))
    case Ok(messages) =>
      if messages == [] then Err(NoMessageFoundInMessages)
      else Message.GetTextContent(messages[0])
  }

  /** The end of one chat turn: an answer or an error, or still polling once the scripted statuses ran out. */
  datatype Reply = Answered(result: Result<string, Error>) | StillPolling

  /** Queued and InProgress keep the loop polling; every other status ends it. */
  predicate KeepsPolling(s: RunStatus)
  {
    s == Queued || s == InProgress
  }

  /** The position of the first status that ends polling. */
  function FirstTerminal(script: seq<RunStatus>): (r: Option<nat>)
    ensures r.Some? ==> r.value < |script| && !KeepsPolling(script[r.value])
    ensures r.Some? ==> forall j :: 0 <= j < r.value ==> KeepsPolling(script[j])
    ensures r.None? <==> forall j :: 0 <= j < |script| ==> KeepsPolling(script[j])
  {
    if script == [] then None
    else if !KeepsPolling(script[0]) then Some(0)
    else match FirstTerminal(script[1..])
      case None => None
      case Some(i) => Some(i + 1)
  }

  /** A status that ends polling, after only statuses that keep it going, is the first terminal one. */
  lemma {:induction false} FirstTerminalAt(script: seq<RunStatus>, k: nat)
    requires k < |script| && !KeepsPolling(script[k])
    requires forall j :: 0 <= j < k ==> KeepsPolling(script[j])
    ensures FirstTerminal(script) == Some(k)
    decreases k
  {
    if k > 0 {
      var tail := script[1..];
      forall j | 0 <= j < k - 1 ensures KeepsPolling(tail[j]) {
        assert tail[j] == script[j + 1];
      }
      assert KeepsPolling(script[0]);
      FirstTerminalAt(tail, k - 1);
    }
  }

  /** The message the assistant posts when a run completes, as the provider's `k`-th new resource. */
  function ReplyMessage(k: nat, content: seq<MessageContent>): MessageObject
  {
    MessageObject(Issued("msg_", k), "assistant", content)
  }

  /** The user's message as the provider stores it, as its `k`-th new resource. */
  function UserMessage(k: nat, msg: string): (m: MessageObject)
    ensures m.role == "user" && Message.GetTextContent(m) == Ok(msg)
  {
    MessageObject(Issued("msg_", k), "user", [Text(msg)])
  }

  /**
   * The messages a turn that nothing rejects puts in front of the thread,
   * newest first: the assistant's reply when the run completes and one was
   * posted, then the user's message. The message takes id `k`, the run `k + 1`
   * and the reply `k + 2`.
   */
  function TurnPosts(script: seq<RunStatus>, reply: Option<seq<MessageContent>>, k: nat, msg: string): (r: seq<MessageObject>)
    ensures 1 <= |r| <= 2 && r[|r| - 1] == UserMessage(k, msg)
    ensures |r| == 2 <==> reply.Some? && FirstTerminal(script).Some? && script[FirstTerminal(script).value] == Completed
    ensures |r| == 2 ==> reply.Some? && r[0] == ReplyMessage(k + 2, reply.value)
  {
    match FirstTerminal(script)
    case Some(j) =>
      if script[j] == Completed && reply.Some? then [ReplyMessage(k + 2, reply.value), UserMessage(k, msg)]
      else [UserMessage(k, msg)]
    case None => [UserMessage(k, msg)]
  }

  /**
   * The polling loop of run_thread_msg: polls the run until it reports a status
   * other than Queued or InProgress. When the provider rejects no poll, every
   * status before the last one polled keeps the loop going; the last one ends
   * it, and Completed answers with the thread's newest message while any other
   * status is RunError with that status.
   */
  method PollLoop(oac: OpenAiClient, t: ThreadId, run: RunObject) returns (r: Reply)
    requires oac.Valid()
    modifies oac
    ensures oac.Valid()
    ensures oac.assistants == old(oac.assistants) && oac.reply == old(oac.reply) && oac.failing == old(oac.failing)
    ensures |old(oac.calls)| <= |oac.calls| <= |old(oac.calls)| + |old(oac.script)|
    ensures oac.calls[..|old(oac.calls)|] == old(oac.calls)
    ensures forall p :: |old(oac.calls)| <= p < |oac.calls| ==> oac.calls[p] == RetrieveRunCall(t, run.id)
    ensures !NoneRejectedIn(oac.failing, |old(oac.calls)|, |oac.calls|) ==>
              && r == Answered(Err(OpenAI(Unavailable)))
              && NoneRejectedIn(oac.failing, |old(oac.calls)|, |oac.calls| - 1)
              && oac.threads == old(oac.threads) && oac.nextId == old(oac.nextId)
    ensures NoneRejectedIn(oac.failing, |old(oac.calls)|, |oac.calls|) ==>
              var polls := |oac.calls| - |old(oac.calls)|;
              var script := old(oac.script);
              && oac.script == script[polls..]
              && (r == StillPolling <==> polls == |script| && (polls == 0 || KeepsPolling(script[polls - 1])))
              && (forall j :: 0 <= j < polls - 1 ==> KeepsPolling(script[j]))
              && (r != StillPolling ==> 0 < polls && !KeepsPolling(script[polls - 1]))
              && (r != StillPolling && script[polls - 1] != Completed ==>
                    r == Answered(Err(RunError(script[polls - 1]))))
              && (r == StillPolling || script[polls - 1] != Completed ==>
                    oac.threads == old(oac.threads) && oac.nextId == old(oac.nextId))
              && (r != StillPolling && script[polls - 1] == Completed ==>
                    && oac.threads == (if old(oac.reply).Some? && t in old(oac.threads)
                                       then old(oac.threads)[t := [ReplyMessage(old(oac.nextId), old(oac.reply).value)] + old(oac.threads)[t]]
                                       else old(oac.threads))
                    && oac.nextId == old(oac.nextId) + (if old(oac.reply).Some? && t in old(oac.threads) then 1 else 0)
                    && r == Answered(GetFirstThreadMessageContent(oac, t)))
  {
    ghost var base := |oac.calls|;
    ghost var script := oac.script;
    while true
      invariant oac.assistants == old(oac.assistants) && oac.reply == old(oac.reply) && oac.failing == old(oac.failing)
      invariant oac.threads == old(oac.threads) && oac.nextId == old(oac.nextId)
      invariant base <= |oac.calls| <= base + |script|
      invariant oac.calls[..base] == old(oac.calls)
      invariant forall p :: base <= p < |oac.calls| ==> oac.calls[p] == RetrieveRunCall(t, run.id)
      invariant NoneRejectedIn(oac.failing, base, |oac.calls|)
      invariant oac.script == script[|oac.calls| - base..]
      invariant forall j :: 0 <= j < |oac.calls| - base ==> KeepsPolling(script[j])
      decreases |oac.script|
    {
      ghost var n := |oac.calls| - base;
      var status := oac.RetrieveRun(t, run.id);
      match status
      case None =>
        return StillPolling;
      case Some(Err(e)) =>
        return Answered(Err(OpenAI(e)));
      case Some(Ok(s)) =>
        assert s == script[n] && oac.script == script[n + 1..];
        if s == Queued || s == InProgress {
          // keep polling
        } else if s == Completed {
          return Answered(GetFirstThreadMessageContent(oac, t));
        } else {
          return Answered(Err(RunError(s)));
        }
    }
  }

  /**
   * The polling of run_thread_msg, stated over the whole script: when the
   * provider rejects no poll, the number of polls is the position of the first
   * status other than Queued or InProgress plus one; Completed answers with the
   * thread's newest message; any other status is RunError with that status.
   */
  method PollRun(oac: OpenAiClient, t: ThreadId, run: RunObject) returns (r: Reply)
    requires oac.Valid()
    modifies oac
    ensures oac.Valid()
    ensures oac.assistants == old(oac.assistants) && oac.reply == old(oac.reply) && oac.failing == old(oac.failing)
    ensures |old(oac.calls)| <= |oac.calls| && oac.calls[..|old(oac.calls)|] == old(oac.calls)
    ensures forall p :: |old(oac.calls)| <= p < |oac.calls| ==> oac.calls[p] == RetrieveRunCall(t, run.id)
    ensures !NoneRejectedIn(oac.failing, |old(oac.calls)|, |oac.calls|) ==>
              && r == Answered(Err(OpenAI(Unavailable)))
              && NoneRejectedIn(oac.failing, |old(oac.calls)|, |oac.calls| - 1)
              && oac.threads == old(oac.threads) && oac.nextId == old(oac.nextId)
    ensures NoneRejectedIn(oac.failing, |old(oac.calls)|, |oac.calls|) ==>
              var polls := |oac.calls| - |old(oac.calls)|;
              match FirstTerminal(old(oac.script))
              case None =>
                && r == StillPolling && polls == |old(oac.script)| && oac.script == []
                && oac.threads == old(oac.threads) && oac.nextId == old(oac.nextId)
              case Some(k) =>
                && polls == k + 1
                && oac.script == old(oac.script)[k + 1..]
                && (old(oac.script)[k] != Completed ==>
                      && r == Answered(Err(RunError(old(oac.script)[k])))
                      && oac.threads == old(oac.threads) && oac.nextId == old(oac.nextId))
                && (old(oac.script)[k] == Completed ==>
                      && oac.threads == (if old(oac.reply).Some? && t in old(oac.threads)
                                         then old(oac.threads)[t := [ReplyMessage(old(oac.nextId), old(oac.reply).value)] + old(oac.threads)[t]]
                                         else old(oac.threads))
                      && oac.nextId == old(oac.nextId) + (if old(oac.reply).Some? && t in old(oac.threads) then 1 else 0)
                      && r == Answered(GetFirstThreadMessageContent(oac, t)))
  {
    ghost var script := oac.script;
    ghost var before := |oac.calls|;
    r := PollLoop(oac, t, run);
    ghost var polls := |oac.calls| - before;
    if NoneRejectedIn(oac.failing, before, |oac.calls|) && r != StillPolling {
      FirstTerminalAt(script, polls - 1);
    }
  }

  /**
   * The first half of run_thread_msg: posts the user's message to the thread,
   * then starts a run of the assistant on it. The run starts exactly when
   * neither request is rejected and the thread and the assistant are known.
   */
  method StartTurn(oac: OpenAiClient, a: AssistantId, t: ThreadId, msg: string) returns (r: Result<RunObject, Error>)
    requires oac.Valid()
    modifies oac
    ensures oac.Valid()
    ensures oac.assistants == old(oac.assistants) && oac.reply == old(oac.reply) && oac.failing == old(oac.failing)
    ensures oac.script == old(oac.script) && oac.threads.Keys == old(oac.threads).Keys
    ensures var n := |old(oac.calls)|;
            && n < |oac.calls| <= n + 2 && oac.calls[..n] == old(oac.calls)
            && oac.calls[n] == CreateMessageCall(t, msg)
            && (n + 1 < |oac.calls| ==> oac.calls[n + 1] == CreateRunCall(t, a))
    ensures r.Ok? <==> NoneRejectedIn(oac.failing, |old(oac.calls)|, |oac.calls|) && t in old(oac.threads)
                       && HasAssistant(old(oac.assistants), a.raw)
    ensures !NoneRejectedIn(oac.failing, |old(oac.calls)|, |oac.calls|) ==>
              && r == Err(OpenAI(Unavailable))
              && NoneRejectedIn(oac.failing, |old(oac.calls)|, |oac.calls| - 1)
    ensures NoneRejectedIn(oac.failing, |old(oac.calls)|, |oac.calls|) && t !in old(oac.threads) ==>
              && r == Err(OpenAI(NotFound("thread", t.raw))) && |oac.calls| == |old(oac.calls)| + 1
              && oac.threads == old(oac.threads) && oac.nextId == old(oac.nextId)
    ensures NoneRejectedIn(oac.failing, |old(oac.calls)|, |oac.calls|) && t in old(oac.threads) ==>
              && |oac.calls| == |old(oac.calls)| + 2
              && oac.threads == old(oac.threads)[t := [UserMessage(old(oac.nextId), msg)] + old(oac.threads)[t]]
              && (HasAssistant(old(oac.assistants), a.raw) ==>
                    r == Ok(RunObject(Issued("run_", old(oac.nextId) + 1), t, a)) && oac.nextId == old(oac.nextId) + 2)
              && (!HasAssistant(old(oac.assistants), a.raw) ==>
                    r == Err(OpenAI(NotFound("assistant", a.raw))) && oac.nextId == old(oac.nextId) + 1)
  {
    // -- Post the user's message to the thread
    var request := Message.CreateUserMessage(msg);
    var posted := oac.CreateMessage(t, request);
    match posted
    case Err(e) => return Err(OpenAI(e));
    case Ok(m) =>

    // -- Start a run of the assistant on the thread
    var started := oac.CreateRun(t, a);
    match started
    case Err(e) => return Err(OpenAI(e));
    case Ok(run) => return Ok(run);
  }

  /**
   * run_thread_msg: posts the user's message, starts a run, then polls it.
   * When the provider rejects none of the requests and the run completes, the
   * answer is the text of the assistant's reply, or the user's own message when
   * the assistant posted none, since that is then the newest message.
   */
  method RunThreadMsg(oac: OpenAiClient, a: AssistantId, t: ThreadId, msg: string) returns (r: Reply)
    requires oac.Valid()
    modifies oac
    ensures oac.Valid()
    ensures oac.assistants == old(oac.assistants) && oac.reply == old(oac.reply) && oac.failing == old(oac.failing)
    ensures oac.threads.Keys == old(oac.threads).Keys
    // -- The message is posted and the run created before any poll
    ensures var n := |old(oac.calls)|;
            && n < |oac.calls| && oac.calls[..n] == old(oac.calls)
            && oac.calls[n] == CreateMessageCall(t, msg)
            && (n + 1 < |oac.calls| ==> oac.calls[n + 1] == CreateRunCall(t, a))
            && (forall p :: n + 2 <= p < |oac.calls| ==> oac.calls[p].RetrieveRunCall?)
    // -- A rejected request ends the turn with its error
    ensures !NoneRejectedIn(oac.failing, |old(oac.calls)|, |oac.calls|) ==>
              && r == Answered(Err(OpenAI(Unavailable)))
              && NoneRejectedIn(oac.failing, |old(oac.calls)|, |oac.calls| - 1)
    // -- An unknown thread or assistant fails before any poll
    ensures NoneRejectedIn(oac.failing, |old(oac.calls)|, |oac.calls|) && t !in old(oac.threads) ==>
              r == Answered(Err(OpenAI(NotFound("thread", t.raw)))) && |oac.calls| == |old(oac.calls)| + 1
              && oac.threads == old(oac.threads) && oac.nextId == old(oac.nextId) && oac.script == old(oac.script)
    ensures NoneRejectedIn(oac.failing, |old(oac.calls)|, |oac.calls|) && t in old(oac.threads)
            && !HasAssistant(old(oac.assistants), a.raw) ==>
              r == Answered(Err(OpenAI(NotFound("assistant", a.raw)))) && |oac.calls| == |old(oac.calls)| + 2
              && oac.threads == old(oac.threads)[t := [UserMessage(old(oac.nextId), msg)] + old(oac.threads)[t]]
              && oac.nextId == old(oac.nextId) + 1 && oac.script == old(oac.script)
    // -- Otherwise the polls decide
    ensures NoneRejectedIn(oac.failing, |old(oac.calls)|, |oac.calls|) && t in old(oac.threads)
            && HasAssistant(old(oac.assistants), a.raw) ==>
              var polls := |oac.calls| - |old(oac.calls)| - 2;
              var script := old(oac.script);
              var posts := TurnPosts(script, old(oac.reply), old(oac.nextId), msg);
              && oac.threads == old(oac.threads)[t := posts + old(oac.threads)[t]]
              && oac.nextId == old(oac.nextId) + 1 + |posts|
              && match FirstTerminal(script)
              case None =>
                r == StillPolling && polls == |script| && oac.script == []
              case Some(k) =>
                && polls == k + 1
                && oac.script == script[k + 1..]
                && r == Answered(
                     if script[k] != Completed then Err(RunError(script[k]))
                     else if old(oac.reply).Some? then
                       Message.GetTextContent(ReplyMessage(old(oac.nextId) + 2, old(oac.reply).value))
                     else Ok(msg))
  {
    ghost var threads0, next0, script0 := oac.threads, oac.nextId, oac.script;
    var started := StartTurn(oac, a, t, msg);
    match started
    case Err(e) => return Answered(Err(e));
    case Ok(run) =>

    // -- Poll it
    ghost var posted := oac.threads;
    ghost var before := |oac.calls|;
    r := PollRun(oac, t, run);
    if NoneRejectedIn(oac.failing, before, |oac.calls|) {
      ghost var posts := TurnPosts(script0, oac.reply, next0, msg);
      if |posts| == 2 {
        assert oac.threads == posted[t := [posts[0]] + posted[t]];
        assert [posts[0]] + posted[t] == posts + threads0[t];
      } else {
        assert oac.threads == posted;
      }
    }
  }

  /** A turn whose run reports Queued, InProgress twice, then Completed takes four polls. */
  lemma FourPollsForExampleScript()
    ensures FirstTerminal([Queued, InProgress, InProgress, Completed]) == Some(3)
  {
  }
}
