/**
 * The dispatch step run by each task: build the provider request, send it,
 * and turn whatever happened (no endpoint configured, a provider response,
 * or a raised fault) into exactly one status write on the task's row and a
 * result record. The network call is replaced by its outcome, supplied as a
 * parameter.
 */
module Bridge {
  import opened Wrappers
  import opened JsonValues
  import Records

  /** Provider settings read from the environment; any of them may be unset. */
  datatype Config = Config(endpoint: Option<string>, apiKey: Option<string>,
                           senderId: Option<string>, clientId: Option<string>,
                           accessKey: Option<string>)

  /**
   * What the HTTP call produced: a response (its `ok` flag, status code and
   * body text) or a raised exception, rendered by `str(e)`.
   */
  datatype ProviderOutcome =
    | Response(ok: bool, statusCode: int, text: string)
    | Fault(description: string)

  datatype MessageParameter = MessageParameter(number: string, text: Json)

  /** The JSON body posted to the provider. */
  datatype Payload = Payload(
    apiKey: Option<string>,
    clientId: Option<string>,
    senderId: Option<string>,
    messageParameters: seq<MessageParameter>,
    number: string,
    text: Json,
    isUnicode: bool,
    isFlash: bool)

  datatype Headers = Headers(contentType: string, accessKey: Option<string>)

  /** One POST to the provider. */
  datatype HttpCall = HttpCall(endpoint: string, payload: Payload, headers: Headers)

  /** The dictionary `send_sms_bridge` returns; the no-endpoint one has no phone number. */
  datatype DispatchResult = DispatchResult(status: int, response: string, success: bool,
                                           phoneNumber: Option<string>)

  /** The arguments of the one `update_message_status` call. */
  datatype StatusWrite = StatusWrite(status: Records.Status, providerResponse: string,
                                     responseCode: int)

  /** Everything one dispatch does: the call it makes (if any), the row write and the result. */
  datatype Decision = Decision(call: Option<HttpCall>, write: StatusWrite, result: DispatchResult)

  const NoEndpointText: string := "No SMS provider endpoint configured"
  const NoEndpointResponse: string := "No SMS Provider enpoint provided"
  const FaultCode: int := 500

  /** The payload names the recipient and text twice, once at top level and once in its single parameter entry. */
  predicate SameRecipientTwice(p: Payload) {
    |p.messageParameters| == 1 &&
    p.messageParameters[0].number == p.number &&
    p.messageParameters[0].text == p.text
  }

  /** The provider payload for one message, with the configured credentials. */
  function BuildPayload(cfg: Config, phoneNumber: string, message: Json): (p: Payload)
    ensures SameRecipientTwice(p)
    ensures p.number == phoneNumber && p.text == message
    ensures p.isUnicode && p.isFlash
    ensures p.apiKey == cfg.apiKey && p.clientId == cfg.clientId && p.senderId == cfg.senderId
  {
    Payload(cfg.apiKey, cfg.clientId, cfg.senderId,
            [MessageParameter(phoneNumber, message)],
            phoneNumber, message, true, true)
  }

  /** The request headers: a JSON body, and the configured access key as `AccessKey`. */
  function BuildHeaders(cfg: Config): (h: Headers)
    ensures h.contentType == "application/json"
    ensures h.accessKey == cfg.accessKey
  {
    Headers("application/json", cfg.accessKey)
  }

  /**
   * The reference outcome of `send_sms_bridge`. Exactly one status write
   * happens on every path; the row ends 'sent' only when an endpoint is
   * configured and the provider answered with `ok`; and the result's
   * `success` and `status` always agree with the row's status and code.
   */
  function Dispatch(cfg: Config, phoneNumber: string, message: Json,
                    outcome: ProviderOutcome): (d: Decision)
    ensures d.call.None? <==> !Truthy(cfg.endpoint)
    ensures d.call.Some? ==>
      d.call.value == HttpCall(cfg.endpoint.value, BuildPayload(cfg, phoneNumber, message), BuildHeaders(cfg))
    ensures d.write.status == Records.Sent <==>
      Truthy(cfg.endpoint) && outcome.Response? && outcome.ok
    ensures d.write.status == Records.Sent || d.write.status == Records.Failed
    ensures d.result.success <==> d.write.status == Records.Sent
    ensures d.result.status == d.write.responseCode
    ensures !Truthy(cfg.endpoint) ==>
      d.write == StatusWrite(Records.Failed, NoEndpointText, FaultCode) &&
      d.result == DispatchResult(FaultCode, NoEndpointResponse, false, None)
    ensures Truthy(cfg.endpoint) ==> d.result.phoneNumber == Some(phoneNumber)
    ensures Truthy(cfg.endpoint) && outcome.Response? ==>
      d.write.providerResponse == outcome.text && d.write.responseCode == outcome.statusCode &&
      d.result.response == outcome.text
    ensures Truthy(cfg.endpoint) && outcome.Fault? ==>
      d.write == StatusWrite(Records.Failed, outcome.description, FaultCode) &&
      d.result.response == outcome.description
  {
    if !Truthy(cfg.endpoint) then
      Decision(None, StatusWrite(Records.Failed, NoEndpointText, FaultCode),
               DispatchResult(FaultCode, NoEndpointResponse, false, None))
    else
      var call := HttpCall(cfg.endpoint.value, BuildPayload(cfg, phoneNumber, message), BuildHeaders(cfg));
      match outcome
      case Response(ok, code, text) =>
        Decision(Some(call), StatusWrite(if ok then Records.Sent else Records.Failed, text, code),
                 DispatchResult(code, text, ok, Some(phoneNumber)))
      case Fault(description) =>
        Decision(Some(call), StatusWrite(Records.Failed, description, FaultCode),
                 DispatchResult(FaultCode, description, false, Some(phoneNumber)))
  }

  /**
   * `send_sms_bridge`: branches on the endpoint, posts the payload, and
   * writes the outcome onto the rows of `taskId`. A raised fault is caught
   * and recorded; it never leaves the method.
   */
  method SendSmsBridge(table: Records.MessageTable, cfg: Config, phoneNumber: string,
                       message: Json, taskId: Records.TaskId, outcome: ProviderOutcome, now: int)
    returns (result: DispatchResult, call: Option<HttpCall>)
    modifies table
    ensures var d := Dispatch(cfg, phoneNumber, message, outcome);
      && result == d.result && call == d.call
      && table.rows == Records.Updated(old(table.rows), taskId, d.write.status,
                                       Some(d.write.providerResponse), Some(d.write.responseCode), now)
  {
    if !Truthy(cfg.endpoint) {
      result := DispatchResult(FaultCode, NoEndpointResponse, false, None);
      table.UpdateStatus(taskId, Records.Failed, Some(NoEndpointText), Some(FaultCode), now);
      call := None;
      return;
    }
    var headers := BuildHeaders(cfg);
    var payload := BuildPayload(cfg, phoneNumber, message);
    call := Some(HttpCall(cfg.endpoint.value, payload, headers));
    match outcome {
      case Response(ok, code, text) =>
        result := DispatchResult(code, text, ok, Some(phoneNumber));
        var status := if ok then Records.Sent else Records.Failed;
        table.UpdateStatus(taskId, status, Some(text), Some(code), now);
      case Fault(description) =>
        table.UpdateStatus(taskId, Records.Failed, Some(description), Some(FaultCode), now);
        result := DispatchResult(FaultCode, description, false, Some(phoneNumber));
    }
  }

  /**
   * The task's own row, when it is the only one with that id, ends with the
   * decision's status, text and code; every other row is untouched.
   */
  lemma DispatchWritesOnlyItsRow(rows: seq<Records.Row>, j: nat, cfg: Config, phoneNumber: string,
                                 message: Json, outcome: ProviderOutcome, now: int)
    requires Records.DistinctTaskIds(rows) && j < |rows|
    ensures var d := Dispatch(cfg, phoneNumber, message, outcome);
      var after := Records.Updated(rows, rows[j].taskId, d.write.status,
                                   Some(d.write.providerResponse), Some(d.write.responseCode), now);
      && after[j].status == d.write.status
      && after[j].responseCode == Some(d.write.responseCode)
      && (forall k :: 0 <= k < |rows| && k != j ==> after[k] == rows[k])
  {
  }

  /**
   * With no endpoint, the result's text and the stored provider response are
   * two different messages, though both report the same failure.
   */
  lemma NoEndpointTextsDiffer(cfg: Config, phoneNumber: string, message: Json, outcome: ProviderOutcome)
    requires !Truthy(cfg.endpoint)
    ensures var d := Dispatch(cfg, phoneNumber, message, outcome);
      d.result.response != d.write.providerResponse && !d.result.success && d.write.responseCode == 500
  {
    var d := Dispatch(cfg, phoneNumber, message, outcome);
    assert d.result.response[7] != d.write.providerResponse[7];
  }
}
