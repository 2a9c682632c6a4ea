/** The server-side relay: one request handler that sets permissive CORS
    headers, answers preflight requests, rejects other methods, and forwards
    a POSTed prompt and inline image to the model endpoint with the
    server-held key, passing the upstream answer back. The upstream `fetch`
    is foreign: its outcome is an input. */
module Relay {
  import opened Js

  // ----- constants -----

  /** The four CORS headers every response carries. The credentials header
      is set from the boolean `true`, which is sent as "true". */
  const Credentials: string := "Access-Control-Allow-Credentials"
  const Origin: string := "Access-Control-Allow-Origin"
  const Methods: string := "Access-Control-Allow-Methods"
  const AllowedHeaders: string := "Access-Control-Allow-Headers"

  const CorsHeaders: map<string, string> := map[
    Credentials := "true",
    Origin := "*",
    Methods := "GET,OPTIONS,PATCH,DELETE,POST,PUT",
    AllowedHeaders := "X-CSRF-Token, X-Requested-With, Accept, Accept-Version, Content-Length, Content-MD5, Content-Type, Date, X-Api-Version"
  ]

  /** The model endpoint; the key is appended as the `key` query parameter. */
  const UpstreamEndpoint: string := "https://generativelanguage.googleapis.com/v1beta/models/gemini-1.5-flash:generateContent?key="

  const MethodNotAllowed: string := "Method not allowed"
  const KeyNotConfigured: string := "Server API Key not configured"

  // ----- requests, upstream calls and replies -----

  /** The request body as destructuring sees it: either it cannot be
      destructured (absent or null, which throws a `TypeError`), or each of
      the three members is present or `undefined`. */
  datatype RequestBody =
    | Unreadable(typeError: JsError)
    | Fields(prompt: Option<Json>, mimeType: Option<Json>, base64Data: Option<Json>)

  datatype Request = Request(httpMethod: string, body: RequestBody)

  /** The one upstream call the relay may make. */
  datatype UpstreamRequest = UpstreamRequest(url: string, httpMethod: string, contentType: string, body: Json)

  /** What the upstream call does: it answers with a status and a body that
      `.json()` parses or fails to parse, or the fetch itself throws. */
  datatype UpstreamOutcome =
    | Replied(status: nat, body: Result<Json>)
    | FetchFailed(error: JsError)

  /** A response body: none (`end()`), or a JSON value (`json(...)`). */
  datatype Body = NoBody | JsonBody(value: Json)

  /** The status and body the relay sends. */
  datatype Reply = Reply(status: nat, body: Body)

  /** The `ok` flag of a fetch response. */
  predicate IsOkStatus(status: nat)
  {
    200 <= status <= 299
  }

  function ErrorBody(message: string): Body
  {
    JsonBody(JObject([("error", JString(message))]))
  }

  /** One member of an object literal as `JSON.stringify` writes it: a member
      whose value is `undefined` is left out. */
  function Member(key: string, v: Option<Json>): seq<(string, Json)>
  {
    if v.Some? then [(key, v.value)] else []
  }

  /** The upstream request body: one content of two parts, the prompt text
      first and the inline image second. */
  function UpstreamBody(prompt: Option<Json>, mimeType: Option<Json>, base64Data: Option<Json>): Json
  {
    JObject([("contents", JArray([
      JObject([("parts", JArray([
        JObject(Member("text", prompt)),
        JObject([("inline_data", JObject(Member("mime_type", mimeType) + Member("data", base64Data)))])
      ]))])
    ]))])
  }

  /** The upstream call the handler makes, if any. */
  function UpstreamCall(req: Request, apiKey: Option<string>): Option<UpstreamRequest>
  {
    if req.httpMethod == "OPTIONS" || req.httpMethod != "POST" then None
    else match req.body
      case Unreadable(_) => None
      case Fields(prompt, mimeType, base64Data) =>
        if !Truthy(apiKey) then None
        else Some(UpstreamRequest(UpstreamEndpoint + apiKey.value, "POST", "application/json",
                                  UpstreamBody(prompt, mimeType, base64Data)))
  }

  /** The handler's decision table: the status and body it sends. */
  function Dispatch(req: Request, apiKey: Option<string>, upstream: UpstreamOutcome): Reply
  {
    if req.httpMethod == "OPTIONS" then Reply(200, NoBody)
    else if req.httpMethod != "POST" then Reply(405, ErrorBody(MethodNotAllowed))
    else match req.body
      case Unreadable(e) => Reply(500, ErrorBody(e.message))
      case Fields(_, _, _) =>
        if !Truthy(apiKey) then Reply(500, ErrorBody(KeyNotConfigured))
        else match upstream
          case FetchFailed(e) => Reply(500, ErrorBody(e.message))
          case Replied(_, Err(e)) => Reply(500, ErrorBody(e.message))
          case Replied(status, Ok(data)) =>
            if !IsOkStatus(status) then Reply(status, JsonBody(data)) else Reply(200, JsonBody(data))
  }

  // ----- properties of the decision table -----

  /** A preflight request is answered 200 with no body, whatever its body,
      and makes no upstream call. */
  lemma PreflightIsAnswered(req: Request, apiKey: Option<string>, upstream: UpstreamOutcome)
    requires req.httpMethod == "OPTIONS"
    ensures Dispatch(req, apiKey, upstream) == Reply(200, NoBody)
    ensures UpstreamCall(req, apiKey) == None
  {
  }

  /** Any method but OPTIONS and POST is answered 405 without an upstream call. */
  lemma OtherMethodsRejected(req: Request, apiKey: Option<string>, upstream: UpstreamOutcome)
    requires req.httpMethod != "OPTIONS" && req.httpMethod != "POST"
    ensures Dispatch(req, apiKey, upstream) == Reply(405, ErrorBody(MethodNotAllowed))
    ensures UpstreamCall(req, apiKey) == None
  {
  }

  /** A POST whose body can be read, without a configured key, is answered
      500 with the fixed message and makes no upstream call. Reading the body
      comes first, so an unreadable body wins over a missing key. */
  lemma MissingKeyRejected(req: Request, apiKey: Option<string>, upstream: UpstreamOutcome)
    requires req.httpMethod == "POST" && !Truthy(apiKey)
    ensures req.body.Fields? ==> Dispatch(req, apiKey, upstream) == Reply(500, ErrorBody(KeyNotConfigured))
    ensures req.body.Unreadable? ==> Dispatch(req, apiKey, upstream) == Reply(500, ErrorBody(req.body.typeError.message))
    ensures UpstreamCall(req, apiKey) == None
  {
  }

  /** The upstream call is made exactly on the POST path with a readable body
      and a configured key, and then it carries the key in its URL. */
  lemma UpstreamCalledExactlyWhenForwarding(req: Request, apiKey: Option<string>)
    ensures UpstreamCall(req, apiKey).Some? <==> req.httpMethod == "POST" && req.body.Fields? && Truthy(apiKey)
    ensures UpstreamCall(req, apiKey).Some? ==>
      UpstreamCall(req, apiKey).value.url == UpstreamEndpoint + apiKey.value
  {
  }

  /** An upstream answer with a parsed body is passed back verbatim: its
      status when it is not ok, and 200 when it is. */
  lemma UpstreamAnswerMirrored(req: Request, apiKey: Option<string>, status: nat, data: Json)
    requires UpstreamCall(req, apiKey).Some?
    ensures Dispatch(req, apiKey, Replied(status, Ok(data)))
         == Reply(if IsOkStatus(status) then 200 else status, JsonBody(data))
  {
  }

  /** A thrown fetch, or an upstream body that does not parse, is answered
      500 with the error's message, whether or not the upstream status was ok. */
  lemma UpstreamFailureIsInternalError(req: Request, apiKey: Option<string>, upstream: UpstreamOutcome)
    requires UpstreamCall(req, apiKey).Some?
    requires upstream.FetchFailed? || upstream.body.Err?
    ensures Dispatch(req, apiKey, upstream)
         == Reply(500, ErrorBody(if upstream.FetchFailed? then upstream.error.message else upstream.body.error.message))
  {
  }

  /** The relay answers 200 exactly for a preflight, or for a forwarded call
      whose upstream answer was ok (any 2xx status) with a body that parsed. */
  lemma OkExactly(req: Request, apiKey: Option<string>, upstream: UpstreamOutcome)
    ensures Dispatch(req, apiKey, upstream).status == 200 <==>
      || req.httpMethod == "OPTIONS"
      || (UpstreamCall(req, apiKey).Some? && upstream.Replied? && upstream.body.Ok? && IsOkStatus(upstream.status))
  {
  }

  /** The upstream body holds one content of exactly two parts: first the
      prompt as text, then the inline data with the request's MIME type and
      data, each copied unchanged (and left out when it was undefined). Every
      object has no member beyond these, so nothing else is sent. */
  lemma UpstreamBodyCopiesRequest(prompt: Option<Json>, mimeType: Option<Json>, base64Data: Option<Json>)
    ensures var body := UpstreamBody(prompt, mimeType, base64Data);
      && body.JObject? && |body.members| == 1
      && var contents := At(body, "contents");
      && contents.Some? && contents.value.JArray? && |contents.value.items| == 1
      && contents.value.items[0].JObject? && |contents.value.items[0].members| == 1
      && var parts := At(contents.value.items[0], "parts");
      && parts.Some? && parts.value.JArray? && |parts.value.items| == 2
      && parts.value.items[0].JObject? && |parts.value.items[0].members| == (if prompt.Some? then 1 else 0)
      && At(parts.value.items[0], "text") == prompt
      && parts.value.items[1].JObject? && |parts.value.items[1].members| == 1
      && var inline := At(parts.value.items[1], "inline_data");
      && inline.Some? && inline.value.JObject?
      && |inline.value.members| == (if mimeType.Some? then 1 else 0) + (if base64Data.Some? then 1 else 0)
      && At(inline.value, "mime_type") == mimeType
      && At(inline.value, "data") == base64Data
  {
    var inline := JObject(Member("mime_type", mimeType) + Member("data", base64Data));
    assert base64Data.Some? ==> exists i :: 0 <= i < |inline.members| && inline.members[i].0 == "data" by {
      if base64Data.Some? {
        assert inline.members[|inline.members| - 1].0 == "data";
      }
    }
  }

  // ----- the response object, updated in place -----

  /** The server's response object: headers, status code, and the body once
      the response has been sent. */
  class ServerResponse {
    var headers: map<string, string>
    var statusCode: nat
    var sent: Option<Body>

    /** A response as the framework hands it to the handler. */
    constructor ()
      ensures headers == map[] && statusCode == 200 && sent == None
    {
      headers := map[];
      statusCode := 200;
      sent := None;
    }

    method SetHeader(name: string, value: string)
      requires sent == None
      modifies this
      ensures headers == old(headers)[name := value]
      ensures statusCode == old(statusCode) && sent == None
    {
      headers := headers[name := value];
    }

    method Status(code: nat)
      requires sent == None
      modifies this
      ensures statusCode == code
      ensures headers == old(headers) && sent == None
    {
      statusCode := code;
    }

    /** Sends `value` as the JSON body; the response is then finished. */
    method Json(value: Json)
      requires sent == None
      modifies this
      ensures sent == Some(JsonBody(value))
      ensures headers == old(headers) && statusCode == old(statusCode)
    {
      sent := Some(JsonBody(value));
    }

    /** Finishes the response with no body. */
    method End()
      requires sent == None
      modifies this
      ensures sent == Some(NoBody)
      ensures headers == old(headers) && statusCode == old(statusCode)
    {
      sent := Some(NoBody);
    }
  }

  /** The first step of the handler: the four CORS headers, before any branch. */
  method SetCorsHeaders(res: ServerResponse)
    requires res.sent == None
    modifies res
    ensures res.headers == old(res.headers) + CorsHeaders
    ensures res.statusCode == old(res.statusCode) && res.sent == None
  {
    ghost var h0 := res.headers;
    res.SetHeader(Credentials, CorsHeaders[Credentials]);
    res.SetHeader(Origin, CorsHeaders[Origin]);
    res.SetHeader(Methods, CorsHeaders[Methods]);
    res.SetHeader(AllowedHeaders, CorsHeaders[AllowedHeaders]);
    assert res.headers == h0[Credentials := CorsHeaders[Credentials]][Origin := CorsHeaders[Origin]]
                            [Methods := CorsHeaders[Methods]][AllowedHeaders := CorsHeaders[AllowedHeaders]];
    assert res.headers.Keys == h0.Keys + CorsHeaders.Keys;
    forall k | k in res.headers
      ensures res.headers[k] == (h0 + CorsHeaders)[k]
    {
    }
  }

  /** The request handler. `apiKey` is the `GEMINI_API_KEY` setting and
      `upstream` what the upstream call does if it is made. Returns the
      upstream call made, if any. */
  method Handler(req: Request, res: ServerResponse, apiKey: Option<string>, upstream: UpstreamOutcome)
    returns (call: Option<UpstreamRequest>)
    requires res.sent == None
    modifies res
    ensures res.headers == old(res.headers) + CorsHeaders
    ensures res.sent.Some?
    ensures Reply(res.statusCode, res.sent.value) == Dispatch(req, apiKey, upstream)
    ensures call == UpstreamCall(req, apiKey)
  {
    SetCorsHeaders(res);

    if req.httpMethod == "OPTIONS" {
      res.Status(200);
      res.End();
      return None;
    }

    if req.httpMethod != "POST" {
      res.Status(405);
      res.Json(ErrorBody(MethodNotAllowed).value);
      return None;
    }

    // the try block: a throw anywhere in it is answered 500 with its message
    match req.body {
      case Unreadable(e) =>
        res.Status(500);
        res.Json(ErrorBody(e.message).value);
        return None;
      case Fields(prompt, mimeType, base64Data) =>
        if !Truthy(apiKey) {
          res.Status(500);
          res.Json(ErrorBody(KeyNotConfigured).value);
          return None;
        }
        call := Some(UpstreamRequest(UpstreamEndpoint + apiKey.value, "POST", "application/json",
                                     UpstreamBody(prompt, mimeType, base64Data)));
        match upstream {
          case FetchFailed(e) =>
            res.Status(500);
            res.Json(ErrorBody(e.message).value);
          case Replied(status, Err(e)) =>
            res.Status(500);
            res.Json(ErrorBody(e.message).value);
          case Replied(status, Ok(data)) =>
            if !IsOkStatus(status) {
              res.Status(status);
              res.Json(data);
            } else {
              res.Status(200);
              res.Json(data);
            }
        }
    }
  }
}
