/** The HTTP client for the Brevo API (brevo/api_client.py). The network
    call itself is an oracle: `HttpTransport` records each request and answers
    it with whatever its `reply` function says. */
module ApiClient {
  import opened Wrappers
  import opened JsonValue
  import opened Text
  import opened BrevoModels
  import opened Gateway

  datatype HttpRequest = HttpRequest(
    verb: string,
    url: string,
    headers: map<string, string>,
    body: Option<Json>,
    timeoutSeconds: nat)

  /** What `requests.request` does: raise a `RequestException`, or return a
      response whose body is valid JSON (`json` present) or not. */
  datatype HttpReply =
    | NetworkError(message: string)
    | Response(status: int, text: string, json: Option<Json>)

  /** The `requests` module, seen from the client. */
  class HttpTransport {
    var log: seq<HttpRequest>
    const reply: (nat, HttpRequest) -> HttpReply

    constructor (reply: (nat, HttpRequest) -> HttpReply)
      ensures log == [] && this.reply == reply
    {
      log := [];
      this.reply := reply;
    }

    method Send(request: HttpRequest) returns (answer: HttpReply)
      modifies this
      ensures log == old(log) + [request]
      ensures answer == reply(|old(log)|, request)
    {
      answer := reply(|log|, request);
      log := log + [request];
    }
  }

  /** `_build_url`: the base URL, then exactly one "/" joining it to the path. */
  function BuildUrl(baseUrl: string, path: string): (url: string)
    ensures |url| > |baseUrl| && url[..|baseUrl|] == baseUrl && url[|baseUrl|] == '/'
    ensures StartsWith(path, "/") ==> url[|baseUrl|..] == path
    ensures !StartsWith(path, "/") ==> url[|baseUrl| + 1..] == path
  {
    var p := if StartsWith(path, "/") then path else "/" + path;
    baseUrl + p
  }

  /** The answer `_request` gives in dry-run mode. */
  const DryRunResponse: Json := JObject(map["dry_run" := JBool(true)])

  const MissingKeyMessage: string := "Brevo API key is not configured"

  function Headers(apiKey: string): map<string, string> {
    map["api-key" := apiKey, "Content-Type" := "application/json", "Accept" := "application/json"]
  }

  /** The checks `_request` makes after the network call: a network failure
      propagates; a status of 400 or more raises a `RuntimeError` whose text
      holds the status code and the body; otherwise the JSON body, or `{}` when
      the body is not JSON. */
  function ReplyOutcome(answer: HttpReply): (r: Result<Json, Failure>)
    ensures answer.NetworkError? ==> r == Err(Failure(Other, answer.message))
    ensures answer.Response? && answer.status >= 400 ==>
      r.Err? && r.error.kind == Runtime &&
      IsInfix(IntToString(answer.status), r.error.message) && IsInfix(answer.text, r.error.message)
    ensures answer.Response? && answer.status < 400 && answer.json.None? ==> r == Ok(JObject(map[]))
    ensures answer.Response? && answer.status < 400 && answer.json.Some? ==> r == Ok(answer.json.value)
  {
    match answer
    case NetworkError(m) => Err(Failure(Other, m))
    case Response(status, text, json) =>
      if status >= 400 then
        var code := IntToString(status);
        var message := "Brevo API error " + code + ": " + text;
        InfixOfConcat("Brevo API error ", code, ": " + text);
        assert message == "Brevo API error " + code + (": " + text);
        assert message == "Brevo API error " + code + ": " + text + "";
        InfixOfConcat("Brevo API error " + code + ": ", text, "");
        Err(Failure(Runtime, message))
      else if json.None? then Ok(JObject(map[]))
      else Ok(json.value)
  }

  class BrevoApiClient {
    const apiKey: string
    const baseUrl: string
    const dryRun: bool
    const transport: HttpTransport

    /** `__init__`: the key is stripped of surrounding whitespace and the base
        URL of trailing slashes. */
    constructor (apiKey: string, baseUrl: string, dryRun: bool, transport: HttpTransport)
      ensures this.apiKey == Strip(apiKey)
      ensures this.baseUrl == RStrip(baseUrl, '/')
      ensures this.dryRun == dryRun && this.transport == transport
    {
      this.apiKey := Strip(apiKey);
      this.baseUrl := RStrip(baseUrl, '/');
      this.dryRun := dryRun;
      this.transport := transport;
    }

    /** `_request`: dry run answers without any request; a missing key raises
        before any request; otherwise exactly one request is sent and its reply
        is interpreted by `ReplyOutcome`. */
    method Request(verb: string, path: string, body: Option<Json>) returns (r: Result<Json, Failure>)
      modifies transport
      ensures dryRun ==> r == Ok(DryRunResponse) && transport.log == old(transport.log)
      ensures !dryRun && apiKey == [] ==>
        r == Err(Failure(Runtime, MissingKeyMessage)) && transport.log == old(transport.log)
      ensures !dryRun && apiKey != [] ==>
        var request := HttpRequest(verb, BuildUrl(baseUrl, path), Headers(apiKey), body, 10);
        transport.log == old(transport.log) + [request] &&
        r == ReplyOutcome(transport.reply(|old(transport.log)|, request))
    {
      var url := BuildUrl(baseUrl, path);
      if dryRun {
        return Ok(DryRunResponse);
      }
      if apiKey == [] {
        return Err(Failure(Runtime, MissingKeyMessage));
      }
      var answer := transport.Send(HttpRequest(verb, url, Headers(apiKey), body, 10));
      r := ReplyOutcome(answer);
    }

    /** `create_or_update_contact`: one POST to "/contacts" whose body is the
        contact's payload (none in dry run or without a key). */
    method CreateOrUpdateContact(contact: BrevoContact) returns (r: Result<Json, Failure>)
      modifies transport
      ensures dryRun ==> r == Ok(DryRunResponse) && transport.log == old(transport.log)
      ensures !dryRun && apiKey == [] ==>
        r == Err(Failure(Runtime, MissingKeyMessage)) && transport.log == old(transport.log)
      ensures !dryRun && apiKey != [] ==>
        var request := HttpRequest("POST", baseUrl + "/contacts", Headers(apiKey), Some(JObject(ToPayload(contact))), 10);
        transport.log == old(transport.log) + [request] &&
        r == ReplyOutcome(transport.reply(|old(transport.log)|, request))
    {
      assert StartsWith("/contacts", "/");
      r := Request("POST", "/contacts", Some(JObject(ToPayload(contact))));
    }
  }
}
