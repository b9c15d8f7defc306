/**
 * The middleware and the forwarder together: what reaches the provider is
 * the credential the middleware chose, whatever `token` header the client sent.
 */
module Proxy {
  import opened Wrappers
  import opened Http
  import opened ServerConfig
  import opened Middleware
  import opened ApiCommon

  /**
   * After a pass, the forwarded `Authorization` is `Bearer` and the server's
   * credential for the provider chosen by the path; a client-supplied `token`
   * header has been overwritten.
   */
  lemma ForwardedCredential(md5: string -> string, cfg: ServerConfig, accessCode: Option<string>, pathname: string,
                            inbound: HeaderMap, verb: string, body: Option<Body>,
                            orgId: Option<string>, openAiUrl: Option<string>, huggingFaceUrl: Option<string>)
    requires Decide(md5, cfg, accessCode, pathname).Pass?
    ensures var forwarded := InboundRequest(verb, SetHeader(inbound, "token", Decide(md5, cfg, accessCode, pathname).token), body);
      && (ProviderOf(pathname) == HuggingFace ==>
            Some(RequestHuggingFace(huggingFaceUrl, forwarded).headers["Authorization"]) == MapBearer(cfg.huggingFaceToken))
      && (ProviderOf(pathname) == OpenAi ==>
            Some(RequestOpenai(orgId, openAiUrl, forwarded).headers["Authorization"]) == MapBearer(cfg.openAiKey))
  {
    var token := Decide(md5, cfg, accessCode, pathname).token;
    assert HeaderGet(SetHeader(inbound, "token", token), "token") == Some(token);
  }

  /** `Bearer <credential>` for a configured credential. */
  function MapBearer(credential: Option<string>): Option<string> {
    match credential
    case Some(c) => Some("Bearer " + c)
    case None => None
  }
}
