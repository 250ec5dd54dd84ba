/** The usage record, its JSON queue entry, and the row parsed back from it (infra/billing/store.go). */
module UsageLogs {
  import opened Json
  import opened Wrappers

  /** Money and seconds are counted in millionths. */
  datatype UsageRecord = UsageRecord(
    userID: Int64, apiKeyID: Int64, modelName: string, providerName: string,
    promptTokens: Int64, completionTokens: Int64, totalTokens: Int64,
    cost: int, latency: int, status: string, httpStatus: Int64, isStream: bool)

  /** The object RecordUsage marshals. */
  function Entry(r: UsageRecord): JValue {
    JObj(map[
      "user_id" := JInt(r.userID),
      "api_key_id" := JInt(r.apiKeyID),
      "model_name" := JStr(r.modelName),
      "provider_name" := JStr(r.providerName),
      "prompt_tokens" := JInt(r.promptTokens),
      "completion_tokens" := JInt(r.completionTokens),
      "total_tokens" := JInt(r.totalTokens),
      "cost" := JNum(r.cost),
      "latency" := JNum(r.latency),
      "status" := JStr(r.status),
      "http_status" := JInt(r.httpStatus),
      "is_stream" := JBool(r.isStream)])
  }

  /** Unmarshalling an object into the log entry: every field must have its own type. */
  function ReadEntry(f: map<string, JValue>): Option<UsageRecord> {
    var userID, apiKeyID := IntField(Field(f, "user_id")), IntField(Field(f, "api_key_id"));
    var model, provider := StringField(Field(f, "model_name")), StringField(Field(f, "provider_name"));
    var prompt, completion := IntField(Field(f, "prompt_tokens")), IntField(Field(f, "completion_tokens"));
    var total, http := IntField(Field(f, "total_tokens")), IntField(Field(f, "http_status"));
    var cost, latency := FloatField(Field(f, "cost")), FloatField(Field(f, "latency"));
    var status, stream := StringField(Field(f, "status")), BoolField(Field(f, "is_stream"));
    if userID.Some? && apiKeyID.Some? && model.Some? && provider.Some? && prompt.Some? && completion.Some? &&
       total.Some? && http.Some? && cost.Some? && latency.Some? && status.Some? && stream.Some?
    then Some(UsageRecord(userID.value, apiKeyID.value, model.value, provider.value, prompt.value,
                          completion.value, total.value, cost.value, latency.value, status.value,
                          http.value, stream.value))
    else None
  }

  /** parseUsageLog: JSON null leaves the entry empty, other non-objects are errors. */
  function ParseUsageLog(codec: Codec, data: string): Option<UsageRecord> {
    match codec.decode(data)
    case Some(JObj(fields)) => ReadEntry(fields)
    case Some(JNull) => ReadEntry(map[])
    case _ => None
  }

  function Marshal(codec: Codec, r: UsageRecord): string {
    codec.encode(Entry(r))
  }

  /** What RecordUsage wrote is read back field by field, and never fails to parse. */
  lemma ParseUndoesMarshal(codec: Codec, r: UsageRecord)
    requires Lawful(codec)
    ensures ParseUsageLog(codec, Marshal(codec, r)) == Some(r)
  {
    assert codec.decode(codec.encode(Entry(r))) == Some(Entry(r));
    var f := Entry(r).fields;
    assert f["user_id"] == JInt(r.userID);
    assert f["api_key_id"] == JInt(r.apiKeyID);
    assert f["model_name"] == JStr(r.modelName);
    assert f["provider_name"] == JStr(r.providerName);
    assert f["prompt_tokens"] == JInt(r.promptTokens);
    assert f["completion_tokens"] == JInt(r.completionTokens);
    assert f["total_tokens"] == JInt(r.totalTokens);
    assert f["cost"] == JNum(r.cost);
    assert f["latency"] == JNum(r.latency);
    assert f["status"] == JStr(r.status);
    assert f["http_status"] == JInt(r.httpStatus);
    assert f["is_stream"] == JBool(r.isStream);
  }

  /** How records travel through the queue: what is pushed, and what is read back. */
  datatype Wire = Wire(marshal: UsageRecord -> string, parse: string -> Option<UsageRecord>)

  ghost predicate RoundTrips(wire: Wire) {
    forall r :: wire.parse(wire.marshal(r)) == Some(r)
  }

  /** The store's own wire. */
  function StoreWire(codec: Codec): Wire {
    Wire(r => Marshal(codec, r), d => ParseUsageLog(codec, d))
  }

  /** So everything proved of wires that round-trip holds of the store's. */
  lemma StoreWireRoundTrips(codec: Codec)
    requires Lawful(codec)
    ensures RoundTrips(StoreWire(codec))
  {
    forall r ensures StoreWire(codec).parse(StoreWire(codec).marshal(r)) == Some(r) {
      ParseUndoesMarshal(codec, r);
    }
  }
}
