/**
 * Upstream request assembly (`app/api/common.ts`): the description of the
 * request handed to `fetch` (URL, headers, method, body). The `fetch` call and
 * the streaming of its response are left out.
 */
module ApiCommon {
  import opened Wrappers
  import opened Strings
  import opened Http

  /**
   * The inbound request as the route handler sees it: method, `Headers` entries and body.
   * It is a value, unlike `Http.NextRequest`: the middleware changes its request's
   * headers in place, but the forwarder only reads the request it is given. The
   * headers it receives are the entries the middleware forwarded (`Proxy` links the two).
   */
  datatype InboundRequest = InboundRequest(verb: string, headers: HeaderMap, body: Option<Body>)

  /** What would be handed to `fetch`: the headers are a plain object, so their names are case-sensitive. */
  datatype UpstreamRequest = UpstreamRequest(url: string, headers: map<string, string>, verb: string, body: Option<Body>)

  const DefaultOpenAiUrl := "https://api.openai.com"
  const DefaultHuggingFaceUrl := "https://api-inference.huggingface.co/"

  /**
   * `request(req, urlBase, headers)`: the URL is the base, a slash and the
   * `path` header; `Content-Type` and `Authorization` are defaults that the
   * extra headers, spread last, override; method and body pass through.
   */
  function Request(req: InboundRequest, urlBase: string, extra: map<string, string>): (r: UpstreamRequest)
    ensures r.url == urlBase + "/" + Interpolate(HeaderGet(req.headers, "path"))
    ensures r.headers.Keys == {"Content-Type", "Authorization"} + extra.Keys
    ensures forall k :: k in extra ==> r.headers[k] == extra[k]
    ensures "Content-Type" !in extra ==>
      r.headers["Content-Type"] == HeaderGet(req.headers, "Content-Type").GetOr("application/json")
    ensures "Authorization" !in extra ==>
      r.headers["Authorization"] == "Bearer " + Interpolate(HeaderGet(req.headers, "token"))
    ensures r.verb == req.verb && r.body == req.body
  {
    var apiKey := HeaderGet(req.headers, "token");
    var urlPath := HeaderGet(req.headers, "path");
    var defaults := map[
      "Content-Type" := HeaderGet(req.headers, "Content-Type").GetOr("application/json"),
      "Authorization" := "Bearer " + Interpolate(apiKey)
    ];
    UpstreamRequest(urlBase + "/" + Interpolate(urlPath), defaults + extra, req.verb, req.body)
  }

  /** `...(orgId && { "OpenAI-Organization": orgId })`: nothing unless the id is non-empty. */
  function OrganizationHeader(orgId: Option<string>): (h: map<string, string>)
    ensures h.Keys == if Truthy(orgId) then {"OpenAI-Organization"} else {}
    ensures Truthy(orgId) ==> h["OpenAI-Organization"] == orgId.value
  {
    if Truthy(orgId) then map["OpenAI-Organization" := orgId.value] else map[]
  }

  /**
   * `requestOpenai(req)`, given `OPENAI_ORG_ID` and `OPENAI_URL`: the OpenAI base
   * (or its default), with the organization header exactly when the id is non-empty.
   */
  function RequestOpenai(orgId: Option<string>, openAiUrl: Option<string>, req: InboundRequest): (r: UpstreamRequest)
    ensures r.url == openAiUrl.GetOr(DefaultOpenAiUrl) + "/" + Interpolate(HeaderGet(req.headers, "path"))
    ensures r.headers.Keys == {"Content-Type", "Authorization"} + (if Truthy(orgId) then {"OpenAI-Organization"} else {})
    ensures Truthy(orgId) ==> r.headers["OpenAI-Organization"] == orgId.value
    ensures r.headers["Authorization"] == "Bearer " + Interpolate(HeaderGet(req.headers, "token"))
    ensures r.headers["Content-Type"] == HeaderGet(req.headers, "Content-Type").GetOr("application/json")
    ensures r.verb == req.verb && r.body == req.body
  {
    Request(req, openAiUrl.GetOr(DefaultOpenAiUrl), OrganizationHeader(orgId))
  }

  /** `requestHuggingFace(req)`, given `HUGGING_FACE_URL`: no extra headers. */
  function RequestHuggingFace(huggingFaceUrl: Option<string>, req: InboundRequest): (r: UpstreamRequest)
    ensures r.url == huggingFaceUrl.GetOr(DefaultHuggingFaceUrl) + "/" + Interpolate(HeaderGet(req.headers, "path"))
    ensures r.headers.Keys == {"Content-Type", "Authorization"}
    ensures r.headers["Authorization"] == "Bearer " + Interpolate(HeaderGet(req.headers, "token"))
    ensures r.headers["Content-Type"] == HeaderGet(req.headers, "Content-Type").GetOr("application/json")
    ensures r.verb == req.verb && r.body == req.body
  {
    Request(req, huggingFaceUrl.GetOr(DefaultHuggingFaceUrl), map[])
  }

  /** The default Hugging Face base already ends in `/`, so the URL has `//` before the path. */
  lemma HuggingFaceDefaultDoubleSlash(req: InboundRequest)
    ensures var url := RequestHuggingFace(None, req).url;
      url[..|DefaultHuggingFaceUrl| + 1] == "https://api-inference.huggingface.co//"
  {
  }

  /** A missing `path` header is interpolated as the text "null". */
  lemma MissingPathIsNull(req: InboundRequest, urlBase: string)
    requires "path" !in req.headers
    ensures Request(req, urlBase, map[]).url == urlBase + "/null"
  {
    assert Lower("path") == "path";
  }

  /**
   * A POST whose `path` header is `v1/chat/completions`, with a `token` and no
   * `Content-Type`, reaches the default OpenAI URL with the bearer key, a JSON
   * content type and the body unchanged.
   */
  lemma ChatCompletionExample(key: string, body: Body, headers: HeaderMap)
    requires HeaderGet(headers, "path") == Some("v1/chat/completions")
    requires HeaderGet(headers, "token") == Some(key)
    requires HeaderGet(headers, "Content-Type") == None
    ensures var r := RequestOpenai(None, None, InboundRequest("POST", headers, Some(body)));
      && r.url == DefaultOpenAiUrl + "/" + "v1/chat/completions"
      && r.headers.Keys == {"Content-Type", "Authorization"}
      && r.headers["Authorization"] == "Bearer " + key
      && r.headers["Content-Type"] == "application/json"
      && r.verb == "POST" && r.body == Some(body)
  {
    var r := RequestOpenai(None, None, InboundRequest("POST", headers, Some(body)));
    assert !Truthy(None);
  }
}
