/** The event and key-context records shared by the ingest handlers and the analytics worker. */
module Models {
  import opened Keys

  newtype int32 = x: int | -0x8000_0000 <= x < 0x8000_0000

  const SOURCE_MODE_DIRECT_INGEST := "direct_ingest"

  /** A usage event. `rest` stands for the fields that no modelled code reads or writes. */
  datatype UsageEvent = UsageEvent(
    eventId: string,
    orgId: string,
    customerId: string,
    endUserId: string,
    sourceMode: string,
    keyId: string,
    eventType: string,
    model: string,
    inputTokens: int32,
    outputTokens: int32,
    thinkingTokens: int32,
    totalTokens: real,
    timestampMs: int,
    rest: string)

  datatype KeyContext = KeyContext(keyId: string, orgId: string, customerId: string, sourceMode: string)

  /** `EnrichFromKeyContext`, with the random id and the clock as parameters. */
  function Enrich(e: UsageEvent, kc: KeyContext, freshId: string, now: int): (r: UsageEvent)
    ensures r.orgId == kc.orgId && r.sourceMode == kc.sourceMode && r.keyId == kc.keyId
    ensures kc.customerId != "" ==> r.customerId == kc.customerId
    ensures kc.customerId == "" ==> r.customerId == e.customerId
    ensures e.eventId != "" ==> r.eventId == e.eventId
    ensures e.eventId == "" ==> r.eventId == freshId
    ensures r.timestampMs == e.timestampMs != 0 || (e.timestampMs == 0 && r.timestampMs == now)
    ensures r == e.(orgId := r.orgId, customerId := r.customerId, sourceMode := r.sourceMode, keyId := r.keyId,
                    eventId := r.eventId, timestampMs := r.timestampMs)
  {
    e.(orgId := kc.orgId,
       customerId := if kc.customerId != "" then kc.customerId else e.customerId,
       sourceMode := kc.sourceMode,
       keyId := kc.keyId,
       eventId := if e.eventId == "" then freshId else e.eventId,
       timestampMs := if e.timestampMs == 0 then now else e.timestampMs)
  }

  /** Nothing the payload says about org, source mode or key survives, nor about the customer if the key has one. */
  lemma SpoofedFieldsAreIgnored(e: UsageEvent, kc: KeyContext, freshId: string, now: int,
                                org: string, customer: string, mode: string, key: string)
    ensures Enrich(e.(orgId := org, sourceMode := mode, keyId := key), kc, freshId, now) == Enrich(e, kc, freshId, now)
    ensures kc.customerId != "" ==> Enrich(e.(customerId := customer), kc, freshId, now) == Enrich(e, kc, freshId, now)
  {
  }

  /** Enriching what was enriched before changes nothing, if ids and times are made up nonempty. */
  lemma EnrichIsIdempotent(e: UsageEvent, kc: KeyContext, freshId: string, now: int, freshId': string, now': int)
    requires freshId != "" && now != 0
    ensures Enrich(Enrich(e, kc, freshId, now), kc, freshId', now') == Enrich(e, kc, freshId, now)
  {
  }

  /** The first field that is wrong, in the order event type, model, input, output, thinking, total. */
  method Validate(e: UsageEvent) returns (error: Option<string>)
    ensures error.None? <==>
      && e.eventType != "" && e.model != ""
      && e.inputTokens >= 0 && e.outputTokens >= 0 && e.thinkingTokens >= 0 && e.totalTokens >= 0.0
    ensures error == Some("event_type is required") <==> e.eventType == ""
    ensures error == Some("model is required") <==> e.eventType != "" && e.model == ""
    ensures error == Some("input_tokens must be >= 0") <==> e.eventType != "" && e.model != "" && e.inputTokens < 0
    ensures error == Some("output_tokens must be >= 0") <==>
      e.eventType != "" && e.model != "" && e.inputTokens >= 0 && e.outputTokens < 0
    ensures error == Some("thinking_tokens must be >= 0") <==>
      e.eventType != "" && e.model != "" && e.inputTokens >= 0 && e.outputTokens >= 0 && e.thinkingTokens < 0
    ensures error == Some("total_tokens must be >= 0") <==>
      && e.eventType != "" && e.model != "" && e.inputTokens >= 0 && e.outputTokens >= 0 && e.thinkingTokens >= 0
      && e.totalTokens < 0.0
  {
    if e.eventType == "" {
      return Some("event_type is required");
    }
    if e.model == "" {
      return Some("model is required");
    }
    if e.inputTokens < 0 {
      return Some("input_tokens must be >= 0");
    }
    if e.outputTokens < 0 {
      return Some("output_tokens must be >= 0");
    }
    if e.thinkingTokens < 0 {
      return Some("thinking_tokens must be >= 0");
    }
    if e.totalTokens < 0.0 {
      return Some("total_tokens must be >= 0");
    }
    return None;
  }
}
