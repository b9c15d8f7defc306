/**
 * The edge access middleware (`middleware.ts`): the access-code gate, the
 * choice of provider credential by path, the configuration-error branch and
 * the injection of the `token` header; plus the client-IP fallback chain.
 * Logging is left out; the server configuration is passed in.
 */
module Middleware {
  import opened Wrappers
  import opened Strings
  import opened Http
  import opened ServerConfig

  const HuggingFacePrefix := "/api/hugging-face"
  const AccessCodeMessage := "Please go settings page and fill your access code."
  const EmptyTokenPrefix := "Empty Token For: "

  /** The JSON body of a 401 response; `needAccessCode` is absent from the empty-token body. */
  datatype ErrorBody = ErrorBody(error: bool, needAccessCode: Option<bool>, msg: string)

  /** A 401 JSON response, or `NextResponse.next` forwarding the request with these headers. */
  datatype Response = Json(status: int, body: ErrorBody) | Next(headers: map<string, string>)

  /** The provider whose credential the middleware injects. */
  datatype Provider = OpenAi | HuggingFace

  function ProviderOf(pathname: string): Provider {
    if StartsWith(pathname, HuggingFacePrefix) then HuggingFace else OpenAi
  }

  /** `tokenName`, as it appears in the empty-token message. */
  function TokenName(p: Provider): string {
    match p
    case HuggingFace => "hugging-face"
    case OpenAi => "openai"
  }

  /** `tokenKey`: the configured credential of the provider. */
  function TokenFor(cfg: ServerConfig, p: Provider): Option<string> {
    match p
    case HuggingFace => cfg.huggingFaceToken
    case OpenAi => cfg.openAiKey
  }

  /** `md5.hash(accessCode ?? "").trim()`: the header is hashed as sent and the digest is trimmed. */
  function HashedCode(md5: string -> string, accessCode: Option<string>): string {
    Trim(md5(accessCode.GetOr("")))
  }

  /** The access-code gate refuses the request. */
  predicate CodeRejected(md5: string -> string, cfg: ServerConfig, accessCode: Option<string>) {
    cfg.needCode && HashedCode(md5, accessCode) !in cfg.codes
  }

  /** What the middleware decides: reject with a body, or pass with the credential to inject. */
  datatype Decision = Reject(body: ErrorBody) | Pass(token: string)

  /**
   * The middleware's decision. The access-code error is returned exactly when
   * a code is needed and the hashed header is not accepted, and it takes
   * precedence; otherwise the request passes exactly when the credential of the
   * provider chosen by the path is non-empty, and that credential is the token.
   */
  function Decide(md5: string -> string, cfg: ServerConfig, accessCode: Option<string>, pathname: string): (d: Decision)
    ensures (d.Reject? && d.body.needAccessCode == Some(true)) <==> CodeRejected(md5, cfg, accessCode)
    ensures CodeRejected(md5, cfg, accessCode) ==> d == Reject(ErrorBody(true, Some(true), AccessCodeMessage))
    ensures d.Pass? <==> !CodeRejected(md5, cfg, accessCode) && Truthy(TokenFor(cfg, ProviderOf(pathname)))
    ensures d.Pass? ==> Some(d.token) == TokenFor(cfg, ProviderOf(pathname)) && d.token != ""
    ensures d.Reject? && !CodeRejected(md5, cfg, accessCode) ==>
      d.body == ErrorBody(true, None, EmptyTokenPrefix + TokenName(ProviderOf(pathname)))
  {
    if CodeRejected(md5, cfg, accessCode) then
      Reject(ErrorBody(true, Some(true), AccessCodeMessage))
    else
      var provider := ProviderOf(pathname);
      var tokenKey := TokenFor(cfg, provider);
      if Truthy(tokenKey) then Pass(tokenKey.value)
      else Reject(ErrorBody(true, None, EmptyTokenPrefix + TokenName(provider)))
  }

  /** When no code is configured the gate lets every header value through, an absent one included. */
  lemma NoCodeNeededPassesGate(md5: string -> string, cfg: ServerConfig, accessCode: Option<string>, pathname: string)
    requires !cfg.needCode
    ensures Decide(md5, cfg, accessCode, pathname) == Decide(md5, cfg, None, pathname)
    ensures Decide(md5, cfg, accessCode, pathname).Reject? ==> Decide(md5, cfg, accessCode, pathname).body.needAccessCode.None?
  {
  }

  /** A path under `/api/hugging-face` gets the Hugging Face token, every other path the OpenAI key. */
  lemma TokenSelection(md5: string -> string, cfg: ServerConfig, accessCode: Option<string>, pathname: string)
    requires Decide(md5, cfg, accessCode, pathname).Pass?
    ensures StartsWith(pathname, HuggingFacePrefix) ==> Some(Decide(md5, cfg, accessCode, pathname).token) == cfg.huggingFaceToken
    ensures !StartsWith(pathname, HuggingFacePrefix) ==> Some(Decide(md5, cfg, accessCode, pathname).token) == cfg.openAiKey
  {
  }

  /** `middleware(req)`: on a pass, `token` is set in place and nothing else in the headers changes. */
  method Run(md5: string -> string, cfg: ServerConfig, req: NextRequest) returns (resp: Response)
    modifies req.headers
    ensures var d := Decide(md5, cfg, old(req.headers.Get("access-code")), req.pathname);
      && (d.Reject? ==> resp == Json(401, d.body) && req.headers.entries == old(req.headers.entries))
      && (d.Pass? ==> req.headers.entries == old(req.headers.entries)["token" := d.token] && resp == Next(req.headers.entries))
  {
    var accessCode := req.headers.Get("access-code");
    var hashedCode := Trim(md5(accessCode.GetOr("")));
    ghost var d := Decide(md5, cfg, accessCode, req.pathname);
    var _ := GetIP(req);

    if cfg.needCode && hashedCode !in cfg.codes {
      assert d.Reject? && d.body == ErrorBody(true, Some(true), AccessCodeMessage);
      return Json(401, ErrorBody(true, Some(true), AccessCodeMessage));
    }

    var tokenName := if StartsWith(req.pathname, HuggingFacePrefix) then "hugging-face" else "openai";
    var tokenKey := if StartsWith(req.pathname, HuggingFacePrefix) then cfg.huggingFaceToken else cfg.openAiKey;
    assert tokenName == TokenName(ProviderOf(req.pathname)) && tokenKey == TokenFor(cfg, ProviderOf(req.pathname));

    if Truthy(tokenKey) {
      assert d == Pass(tokenKey.value);
      assert Lower("token") == "token";
      req.headers.Set("token", tokenKey.value);
    } else {
      assert d.Reject? && d.body == ErrorBody(true, None, EmptyTokenPrefix + tokenName);
      return Json(401, ErrorBody(true, None, EmptyTokenPrefix + tokenName));
    }

    resp := Next(req.headers.entries);
  }

  /** `seg` is the first `,`-separated segment of `s`, untrimmed. */
  predicate IsFirstSegment(seg: string, s: string) {
    |seg| <= |s| && s[..|seg|] == seg && ',' !in seg && (|seg| == |s| || s[|seg|] == ',')
  }

  /**
   * `getIP(req)`: `req.ip`, else the `x-real-ip` header; when that is absent or
   * empty, the first segment of a non-empty `x-forwarded-for`; otherwise what it had.
   */
  method GetIP(req: NextRequest) returns (ip: Option<string>)
    ensures Truthy(req.ip) ==> ip == req.ip
    ensures req.ip.None? && Truthy(req.headers.Get("x-real-ip")) ==> ip == req.headers.Get("x-real-ip")
    ensures var first := if req.ip.Some? then req.ip else req.headers.Get("x-real-ip");
            var forwardedFor := req.headers.Get("x-forwarded-for");
            !Truthy(first) ==>
              if Truthy(forwardedFor) then ip.Some? && IsFirstSegment(ip.value, forwardedFor.value)
              else ip == first
  {
    ip := if req.ip.Some? then req.ip else req.headers.Get("x-real-ip");
    var forwardedFor := req.headers.Get("x-forwarded-for");

    if !Truthy(ip) && Truthy(forwardedFor) {
      SplitFirst(forwardedFor.value, ',');
      ip := Some(Split(forwardedFor.value, ',')[0]);
    }
  }

  /** MD5 digests are hex text: trimming one changes nothing. */
  ghost predicate DigestsHaveNoSpace(md5: string -> string) {
    forall s :: Trim(md5(s)) == md5(s)
  }

  /** Distinct codes have distinct digests (assumed of MD5 where a property needs it). */
  ghost predicate Injective(md5: string -> string) {
    forall a, b :: md5(a) == md5(b) ==> a == b
  }

  /** Presenting the trimmed text of any configured segment passes the gate. */
  lemma ConfiguredCodeAuthenticates(md5: string -> string, env: Env, cfg: ServerConfig, v: string)
    requires DigestsHaveNoSpace(md5)
    requires GetServerSideConfig(md5, true, env) == Success(cfg)
    requires v in Segments(env.code) && v != ""
    ensures !CodeRejected(md5, cfg, Some(Trim(v)))
  {
    assert md5(Trim(v)) in cfg.codes;
    assert HashedCode(md5, Some(Trim(v))) == md5(Trim(v));
  }

  /** With an injective hash, a code passes a needed gate only if it is the trimmed text of a configured segment. */
  lemma OnlyConfiguredCodesAuthenticate(md5: string -> string, env: Env, cfg: ServerConfig, accessCode: Option<string>)
    requires DigestsHaveNoSpace(md5) && Injective(md5)
    requires GetServerSideConfig(md5, true, env) == Success(cfg)
    requires cfg.needCode && !CodeRejected(md5, cfg, accessCode)
    ensures exists v :: v in Segments(env.code) && v != "" && accessCode.GetOr("") == Trim(v)
  {
    var h := HashedCode(md5, accessCode);
    assert h == md5(accessCode.GetOr(""));
    assert h in AccessCodes(md5, env.code);
    var v :| v in Segments(env.code) && v != "" && h == md5(Trim(v));
  }

  /** A code sent with white space around it is refused whenever a code is needed (injective hash). */
  lemma PaddedCodeRejected(md5: string -> string, env: Env, cfg: ServerConfig, code: string)
    requires DigestsHaveNoSpace(md5) && Injective(md5)
    requires GetServerSideConfig(md5, true, env) == Success(cfg)
    requires cfg.needCode && Trim(code) != code
    ensures CodeRejected(md5, cfg, Some(code))
  {
    if !CodeRejected(md5, cfg, Some(code)) {
      OnlyConfiguredCodesAuthenticate(md5, env, cfg, Some(code));
      var v :| v in Segments(env.code) && v != "" && code == Trim(v);
      TrimIdempotent(v);
      assert false;
    }
  }

  /**
   * Space, tab, CR or LF sent around a configured code never reach the gate:
   * `get` returns the normalised value, so the code is accepted.
   */
  lemma HttpPaddedCodeAccepted(md5: string -> string, env: Env, cfg: ServerConfig, v: string, pre: string, post: string)
    requires DigestsHaveNoSpace(md5)
    requires GetServerSideConfig(md5, true, env) == Success(cfg)
    requires v in Segments(env.code) && v != ""
    requires forall i :: 0 <= i < |pre| ==> IsHttpSpace(pre[i])
    requires forall i :: 0 <= i < |post| ==> IsHttpSpace(post[i])
    ensures !CodeRejected(md5, cfg, Some(NormalizeValue(pre + Trim(v) + post)))
  {
    NormalizePadding(pre, Trim(v), post);
    ConfiguredCodeAuthenticates(md5, env, cfg, v);
  }

  /**
   * A no-break space (U+00A0) in front of a code survives normalisation, and
   * `trim` would remove it, so the code is refused whenever a code is needed.
   */
  lemma NbspPaddedCodeRejected(md5: string -> string, env: Env, cfg: ServerConfig, code: string)
    requires DigestsHaveNoSpace(md5) && Injective(md5)
    requires GetServerSideConfig(md5, true, env) == Success(cfg)
    requires cfg.needCode
    ensures CodeRejected(md5, cfg, Some(NormalizeValue(['\U{00A0}'] + code)))
  {
    var r := NormalizeValue(['\U{00A0}'] + code);
    NormalizeKeepsFirst('\U{00A0}', code);
    NbspNotTrimmed(r);
    PaddedCodeRejected(md5, env, cfg, r);
  }

  /** A value that starts with a no-break space is changed by `trim`. */
  lemma NbspNotTrimmed(r: string)
    requires r != [] && r[0] == '\U{00A0}'
    ensures Trim(r) != r
  {
  }

  /** A white-space-only segment anywhere in `CODE` turns the gate on, yet a request with no access-code header passes it. */
  lemma SpaceCodeAdmitsMissingHeader(md5: string -> string, env: Env, cfg: ServerConfig, v: string)
    requires DigestsHaveNoSpace(md5)
    requires v in Segments(env.code) && v != ""
    requires forall i :: 0 <= i < |v| ==> IsJsSpace(v[i])
    requires GetServerSideConfig(md5, true, env) == Success(cfg)
    ensures cfg.needCode && !CodeRejected(md5, cfg, None)
  {
    SpaceSegmentAdmitsEmptyHash(md5, env.code, v);
    assert HashedCode(md5, None) == md5("");
  }
}
