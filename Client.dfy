/**
 * The provider, seen through the client the core holds: an abstract remote
 * store that stands in for the HTTP API. It keeps the assistants in listing
 * order (newest first, the provider's default order), the threads with their
 * messages (newest first), the scripted statuses the next run will report, the
 * reply the assistant posts when that run completes, and the log of the
 * requests that change remote state or poll a run.
 */
module Client {
  import Seqs
  import opened Wrappers
  import opened Types
  import opened Api

  /** A request that changes remote state, or one poll of a run. */
  datatype Call =
    | CreateAssistantCall(name: string, model: string)
    | UpdateAssistantCall(assistant: AssistantId, instructions: string)
    | DeleteAssistantCall(assistant: AssistantId)
    | CreateThreadCall
    | CreateMessageCall(thread: ThreadId, content: string)
    | CreateRunCall(thread: ThreadId, assistant: AssistantId)
    | RetrieveRunCall(thread: ThreadId, run: string)

  /** The body of a "create assistant" request. */
  datatype CreateAssistantRequest = CreateAssistantRequest(
    model: string,
    name: Option<string>,
    tools: seq<AssistantTool>)

  /** Decimal digits of `n`. */
  function NatToString(n: nat): (r: string)
    ensures |r| >= 1
    ensures n >= 10 ==> |r| >= 2
    decreases n
  {
    if n < 10 then [('0' as int + n) as char]
    else NatToString(n / 10) + [('0' as int + n % 10) as char]
  }

  lemma {:induction false} NatToStringInjective(a: nat, b: nat)
    requires NatToString(a) == NatToString(b)
    ensures a == b
    decreases a
  {
    var sa, sb := NatToString(a), NatToString(b);
    if a < 10 && b < 10 {
    } else if a >= 10 && b >= 10 {
      assert sa[..|sa| - 1] == NatToString(a / 10);
      assert sb[..|sb| - 1] == NatToString(b / 10);
      NatToStringInjective(a / 10, b / 10);
      assert sa[|sa| - 1] == sb[|sb| - 1];
    }
  }

  /** The id the provider hands out for its `k`-th new resource of a kind. */
  function Issued(prefix: string, k: nat): string
  {
    prefix + NatToString(k)
  }

  /** Different counters never yield the same id. */
  lemma IssuedInjective(prefix: string, a: nat, b: nat)
    requires Issued(prefix, a) == Issued(prefix, b)
    ensures a == b
  {
    assert Issued(prefix, a)[|prefix|..] == NatToString(a);
    assert Issued(prefix, b)[|prefix|..] == NatToString(b);
    NatToStringInjective(a, b);
  }

  /** The first `limit` entries of a listing. */
  function Page<T>(s: seq<T>, limit: nat): (r: seq<T>)
    ensures |r| == if |s| < limit then |s| else limit
    ensures r == s[..|r|]
  {
    if |s| <= limit then s else s[..limit]
  }

  /** True when some listed assistant carries this id. */
  predicate HasAssistant(list: seq<AssistantObject>, id: string)
  {
    exists i :: 0 <= i < |list| && list[i].id == id
  }

  /** The listing without the assistants that carry this id. */
  function WithoutAssistant(list: seq<AssistantObject>, id: string): (r: seq<AssistantObject>)
    ensures |r| <= |list|
    ensures forall a :: a in r <==> a in list && a.id != id
  {
    if list == [] then []
    else if list[0].id == id then WithoutAssistant(list[1..], id)
    else [list[0]] + WithoutAssistant(list[1..], id)
  }

  /** Assistant ids are unique in a listing. */
  predicate DistinctIds(list: seq<AssistantObject>)
  {
    forall i, j :: 0 <= i < j < |list| ==> list[i].id != list[j].id
  }

  /** With unique ids, removing by the id at `i` removes exactly the entry at `i`. */
  lemma {:induction false} WithoutAssistantAt(list: seq<AssistantObject>, i: nat)
    requires DistinctIds(list) && i < |list|
    ensures WithoutAssistant(list, list[i].id) == list[..i] + list[i + 1..]
  {
    var id := list[i].id;
    var tail := list[1..];
    if i == 0 {
      TailLacksHeadId(list);
      WithoutAbsent(tail, id);
    } else {
      TailDistinct(list);
      WithoutAssistantAt(tail, i - 1);
      assert tail[i - 1] == list[i];
      assert WithoutAssistant(list, id) == [list[0]] + (tail[..i - 1] + tail[i..]);
      assert list[..i] == [list[0]] + tail[..i - 1];
      assert list[i + 1..] == tail[i..];
      Seqs.Associative([list[0]], tail[..i - 1], tail[i..]);
    }
  }

  lemma TailDistinct(list: seq<AssistantObject>)
    requires DistinctIds(list) && list != []
    ensures DistinctIds(list[1..])
  {
    var tail := list[1..];
    forall j, k | 0 <= j < k < |tail| ensures tail[j].id != tail[k].id {
      assert tail[j] == list[j + 1] && tail[k] == list[k + 1];
    }
  }

  lemma TailLacksHeadId(list: seq<AssistantObject>)
    requires DistinctIds(list) && list != []
    ensures !HasAssistant(list[1..], list[0].id)
  {
    var tail := list[1..];
    forall j | 0 <= j < |tail| ensures tail[j].id != list[0].id {
      assert tail[j] == list[j + 1];
    }
  }

  /** Removing an id that is not listed changes nothing. */
  lemma {:induction false} WithoutAbsent(list: seq<AssistantObject>, id: string)
    requires !HasAssistant(list, id)
    ensures WithoutAssistant(list, id) == list
  {
    if list != [] {
      assert list[0].id != id;
      assert !HasAssistant(list[1..], id) by {
        forall j | 0 <= j < |list[1..]| ensures list[1..][j].id != id {
          assert list[1..][j] == list[j + 1];
        }
      }
      WithoutAbsent(list[1..], id);
    }
  }

  class OpenAiClient {
    var assistants: seq<AssistantObject>
    var threads: map<ThreadId, seq<MessageObject>>
    var script: seq<RunStatus>
    var reply: Option<seq<MessageContent>>
    var failing: set<nat>
    var calls: seq<Call>
    var nextId: nat

    /** Ids are unique, and no id the provider will hand out later is in use yet. */
    ghost predicate Valid()
      reads this
    {
      && DistinctIds(assistants)
      && (forall k: nat, i :: nextId <= k && 0 <= i < |assistants| ==> assistants[i].id != Issued("asst_", k))
      && (forall k: nat :: nextId <= k ==> ThreadId(Issued("thread_", k)) !in threads)
    }

    /** True when the provider rejects the next logged request. */
    predicate Rejects()
      reads this
    {
      |calls| in failing
    }

    /**
     * A provider account with no assistants and no threads, whose next run
     * reports `script` and posts `reply` on completion, and which rejects the
     * logged requests whose positions are in `failing`.
     */
    constructor (script: seq<RunStatus>, reply: Option<seq<MessageContent>>, failing: set<nat>)
      ensures Valid()
      ensures assistants == [] && threads == map[] && calls == []
      ensures this.script == script && this.reply == reply && this.failing == failing
    {
      assistants := [];
      threads := map[];
      this.script := script;
      this.reply := reply;
      this.failing := failing;
      calls := [];
      nextId := 0;
    }

    /** GET /assistants?limit=…: the first page of the listing. */
    function ListAssistants(limit: nat): (r: seq<AssistantObject>)
      reads this
      ensures |r| == if |assistants| < limit then |assistants| else limit
      ensures r == assistants[..|r|]
    {
      Page(assistants, limit)
    }

    /** POST /assistants: the new assistant is listed first. */
    method CreateAssistant(req: CreateAssistantRequest) returns (r: Result<AssistantObject, ApiError>)
      requires Valid()
      modifies this
      ensures Valid()
      ensures calls == old(calls) + [CreateAssistantCall(if req.name.Some? then req.name.value else "", req.model)]
      ensures r.Err? <==> old(Rejects())
      ensures r.Err? ==> r.error == Unavailable && assistants == old(assistants) && nextId == old(nextId)
      ensures r.Ok? ==>
        && r.value == AssistantObject(Issued("asst_", old(nextId)), req.name, req.model, req.tools, None)
        && !HasAssistant(old(assistants), r.value.id)
        && assistants == [r.value] + old(assistants)
        && nextId == old(nextId) + 1
      ensures threads == old(threads) && script == old(script) && reply == old(reply) && failing == old(failing)
    {
      var rejected := Rejects();
      calls := calls + [CreateAssistantCall(if req.name.Some? then req.name.value else "", req.model)];
      if rejected {
        return Err(Unavailable);
      }
      var obj := AssistantObject(Issued("asst_", nextId), req.name, req.model, req.tools, None);
      ghost var before := assistants;
      assistants := [obj] + assistants;
      nextId := nextId + 1;
      forall k: nat, i | nextId <= k && 0 <= i < |assistants|
        ensures assistants[i].id != Issued("asst_", k)
      {
        if i == 0 {
          if Issued("asst_", k) == obj.id { IssuedInjective("asst_", k, nextId - 1); }
        } else {
          assert assistants[i] == before[i - 1];
        }
      }
      forall i, j | 0 <= i < j < |assistants| ensures assistants[i].id != assistants[j].id {
        assert assistants[j] == before[j - 1];
      }
      r := Ok(obj);
    }

    /** DELETE /assistants/{id}: unknown ids fail; the assistant's files are not touched. */
    method DeleteAssistant(id: AssistantId) returns (r: Result<(), ApiError>)
      requires Valid()
      modifies this
      ensures Valid()
      ensures calls == old(calls) + [DeleteAssistantCall(id)]
      ensures r.Ok? <==> !old(Rejects()) && HasAssistant(old(assistants), id.raw)
      ensures r.Err? ==> r.error == (if old(Rejects()) then Unavailable else NotFound("assistant", id.raw))
      ensures assistants == if r.Ok? then WithoutAssistant(old(assistants), id.raw) else old(assistants)
      ensures threads == old(threads) && script == old(script) && reply == old(reply) && failing == old(failing)
      ensures nextId == old(nextId)
    {
      var rejected := Rejects();
      calls := calls + [DeleteAssistantCall(id)];
      if rejected {
        return Err(Unavailable);
      }
      if !HasAssistant(assistants, id.raw) {
        return Err(NotFound("assistant", id.raw));
      }
      RemovalKeepsValid(assistants, id.raw);
      assistants := WithoutAssistant(assistants, id.raw);
      r := Ok(());
    }

    /** POST /assistants/{id} with new instructions; everything else of the assistant is kept. */
    method UpdateInstructions(id: AssistantId, instructions: string) returns (r: Result<(), ApiError>)
      requires Valid()
      modifies this
      ensures Valid()
      ensures calls == old(calls) + [UpdateAssistantCall(id, instructions)]
      ensures r.Ok? <==> !old(Rejects()) && HasAssistant(old(assistants), id.raw)
      ensures r.Err? ==> r.error == (if old(Rejects()) then Unavailable else NotFound("assistant", id.raw))
      ensures r.Err? ==> assistants == old(assistants)
      ensures |assistants| == |old(assistants)|
      ensures r.Ok? ==> forall i :: 0 <= i < |assistants| ==>
        assistants[i] == if old(assistants)[i].id == id.raw
                         then old(assistants)[i].(instructions := Some(instructions))
                         else old(assistants)[i]
      ensures threads == old(threads) && script == old(script) && reply == old(reply) && failing == old(failing)
      ensures nextId == old(nextId)
    {
      var rejected := Rejects();
      calls := calls + [UpdateAssistantCall(id, instructions)];
      if rejected {
        return Err(Unavailable);
      }
      if !HasAssistant(assistants, id.raw) {
        return Err(NotFound("assistant", id.raw));
      }
      var before := assistants;
      assistants := seq(|before|, i requires 0 <= i < |before| =>
        if before[i].id == id.raw then before[i].(instructions := Some(instructions)) else before[i]);
      assert forall i :: 0 <= i < |assistants| ==> assistants[i].id == before[i].id;
      r := Ok(());
    }

    /** POST /threads: a new, empty thread. */
    method CreateThread() returns (r: Result<ThreadId, ApiError>)
      requires Valid()
      modifies this
      ensures Valid()
      ensures calls == old(calls) + [CreateThreadCall]
      ensures r.Err? <==> old(Rejects())
      ensures r.Err? ==> r.error == Unavailable && threads == old(threads) && nextId == old(nextId)
      ensures r.Ok? ==>
        && r.value == ThreadId(Issued("thread_", old(nextId)))
        && r.value !in old(threads)
        && threads == old(threads)[r.value := []]
        && nextId == old(nextId) + 1
      ensures assistants == old(assistants) && script == old(script) && reply == old(reply) && failing == old(failing)
    {
      var rejected := Rejects();
      calls := calls + [CreateThreadCall];
      if rejected {
        return Err(Unavailable);
      }
      var t := ThreadId(Issued("thread_", nextId));
      forall k: nat | nextId + 1 <= k ensures ThreadId(Issued("thread_", k)) != t {
        if Issued("thread_", k) == t.raw { IssuedInjective("thread_", k, nextId); }
      }
      threads := threads[t := []];
      nextId := nextId + 1;
      r := Ok(t);
    }

    /** GET /threads/{id}. */
    function RetrieveThread(t: ThreadId): (r: Result<ThreadObject, ApiError>)
      reads this
      ensures r.Ok? <==> t in threads
      ensures r.Ok? ==> r.value.id == t
    {
      if t in threads then Ok(ThreadObject(t)) else Err(NotFound("thread", t.raw))
    }

    /** POST /threads/{id}/messages: the message becomes the thread's newest. */
    method CreateMessage(t: ThreadId, req: CreateMessageRequest) returns (r: Result<MessageObject, ApiError>)
      requires Valid()
      modifies this
      ensures Valid()
      ensures calls == old(calls) + [CreateMessageCall(t, req.content)]
      ensures r.Ok? <==> !old(Rejects()) && t in old(threads)
      ensures r.Err? ==> r.error == (if old(Rejects()) then Unavailable else NotFound("thread", t.raw))
      ensures r.Ok? ==>
        && r.value == MessageObject(Issued("msg_", old(nextId)), req.role, [Text(req.content)])
        && threads == old(threads)[t := [r.value] + old(threads)[t]]
        && nextId == old(nextId) + 1
      ensures r.Err? ==> threads == old(threads) && nextId == old(nextId)
      ensures assistants == old(assistants) && script == old(script) && reply == old(reply) && failing == old(failing)
    {
      var rejected := Rejects();
      calls := calls + [CreateMessageCall(t, req.content)];
      if rejected {
        return Err(Unavailable);
      }
      if t !in threads {
        return Err(NotFound("thread", t.raw));
      }
      var m := MessageObject(Issued("msg_", nextId), req.role, [Text(req.content)]);
      threads := threads[t := [m] + threads[t]];
      nextId := nextId + 1;
      r := Ok(m);
    }

    /** GET /threads/{id}/messages?limit=…: newest first. */
    function ListMessages(t: ThreadId, limit: nat): (r: Result<seq<MessageObject>, ApiError>)
      reads this
      ensures r.Ok? <==> t in threads
      ensures r.Ok? ==> |r.value| == if |threads[t]| < limit then |threads[t]| else limit
      ensures r.Ok? ==> r.value == threads[t][..|r.value|]
    {
      if t in threads then Ok(Page(threads[t], limit)) else Err(NotFound("thread", t.raw))
    }

    /** POST /threads/{id}/runs: starts a run of the assistant on the thread. */
    method CreateRun(t: ThreadId, a: AssistantId) returns (r: Result<RunObject, ApiError>)
      requires Valid()
      modifies this
      ensures Valid()
      ensures calls == old(calls) + [CreateRunCall(t, a)]
      ensures r.Ok? <==> !old(Rejects()) && t in old(threads) && HasAssistant(old(assistants), a.raw)
      ensures r.Err? ==> r.error == (if old(Rejects()) then Unavailable
                                     else if t !in old(threads) then NotFound("thread", t.raw)
                                     else NotFound("assistant", a.raw))
      ensures r.Ok? ==> r.value == RunObject(Issued("run_", old(nextId)), t, a) && nextId == old(nextId) + 1
      ensures r.Err? ==> nextId == old(nextId)
      ensures assistants == old(assistants) && threads == old(threads)
      ensures script == old(script) && reply == old(reply) && failing == old(failing)
    {
      var rejected := Rejects();
      calls := calls + [CreateRunCall(t, a)];
      if rejected {
        return Err(Unavailable);
      }
      if t !in threads {
        return Err(NotFound("thread", t.raw));
      }
      if !HasAssistant(assistants, a.raw) {
        return Err(NotFound("assistant", a.raw));
      }
      r := Ok(RunObject(Issued("run_", nextId), t, a));
      nextId := nextId + 1;
    }

    /**
     * GET /threads/{id}/runs/{run}: the run's next scripted status. None once the
     * script is used up: from then on the provider would go on answering without
     * a status the model can name, and no request is logged. When the status is
     * Completed, the assistant's reply (if any) has been posted to the thread as
     * its newest message.
     */
    method RetrieveRun(t: ThreadId, run: string) returns (status: Option<Result<RunStatus, ApiError>>)
      modifies this
      ensures old(Valid()) ==> Valid()
      ensures old(script) == [] ==> status == None && script == [] && calls == old(calls)
      ensures old(script) != [] ==> calls == old(calls) + [RetrieveRunCall(t, run)]
      ensures old(script) != [] && old(Rejects()) ==> status == Some(Err(Unavailable)) && script == old(script)
      ensures old(script) != [] && !old(Rejects()) ==> status == Some(Ok(old(script)[0])) && script == old(script)[1..]
      ensures threads == (if status == Some(Ok(Completed)) && old(reply).Some? && t in old(threads)
                          then old(threads)[t := [MessageObject(Issued("msg_", old(nextId)), "assistant", old(reply).value)] + old(threads)[t]]
                          else old(threads))
      ensures nextId == old(nextId) + (if status == Some(Ok(Completed)) && old(reply).Some? && t in old(threads) then 1 else 0)
      ensures assistants == old(assistants) && reply == old(reply) && failing == old(failing)
    {
      if script == [] {
        return None;
      }
      var rejected := Rejects();
      calls := calls + [RetrieveRunCall(t, run)];
      if rejected {
        return Some(Err(Unavailable));
      }
      var st := script[0];
      status := Some(Ok(st));
      script := script[1..];
      if st == Completed && reply.Some? && t in threads {
        var m := MessageObject(Issued("msg_", nextId), "assistant", reply.value);
        threads := threads[t := [m] + threads[t]];
        nextId := nextId + 1;
      }
    }
  }

  /** Removing assistants keeps ids unique and fresh ones unused. */
  lemma RemovalKeepsValid(list: seq<AssistantObject>, id: string)
    requires DistinctIds(list)
    ensures DistinctIds(WithoutAssistant(list, id))
  {
    var r := WithoutAssistant(list, id);
    if list != [] {
      RemovalKeepsValid(list[1..], id);
    }
  }
}
