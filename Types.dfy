/**
 * Typed identifiers of the provider's resources (crates/ai-laoshi-core/src/ais/types.rs).
 * Each kind is its own datatype, so an id of one kind is never accepted where
 * another is expected; `raw` is the wrapped string that Deref and Display expose.
 */
module Types {
  import opened Wrappers
  import Json

  datatype AssistantId = AssistantId(raw: string)
  {
    /** Display: exactly the wrapped string. */
    function ToString(): string { raw }
  }

  datatype ThreadId = ThreadId(raw: string)
  {
    function ToString(): string { raw }
  }

  datatype FileId = FileId(raw: string)
  {
    function ToString(): string { raw }
  }

  /** Serialize for ThreadId: a newtype struct is written as its inner string. */
  function ThreadIdToJson(t: ThreadId): (r: string)
    ensures |r| >= 2 && r[0] == '"' && r[|r| - 1] == '"'
  {
    Json.Quote(t.raw)
  }

  /** Deserialize for ThreadId: one JSON string literal, and what follows it. */
  function ThreadIdFromJson(text: string): (r: Option<(ThreadId, string)>)
    ensures r.Some? ==> |r.value.1| < |text|
  {
    match Json.ReadString(text)
    case None => None
    case Some(p) => Some((ThreadId(p.0), p.1))
  }

  /** From then Deref, and Display, give back the raw string for every id kind. */
  lemma IdRoundTrips(s: string)
    ensures AssistantId(s).raw == s && AssistantId(s).ToString() == s
    ensures ThreadId(s).raw == s && ThreadId(s).ToString() == s
    ensures FileId(s).raw == s && FileId(s).ToString() == s
  {
  }

  /** A thread id reads back from its JSON form, whatever the raw string holds. */
  lemma {:induction false} ThreadIdJsonRoundTrip(t: ThreadId, rest: string)
    ensures ThreadIdFromJson(ThreadIdToJson(t) + rest) == Some((t, rest))
  {
    Json.QuoteRoundTrip(t.raw, rest);
  }
}
