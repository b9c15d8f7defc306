/**
 * The server-side configuration resolver (`app/config/server.ts`): the set of
 * accepted access-code hashes built from `CODE`, and the configuration object
 * with its defaults. Environment variables are passed in as an `Env` value and
 * MD5 as the function `md5`.
 */
module ServerConfig {
  import opened Wrappers
  import opened Strings

  /** The environment variables the resolver reads (absent ones are `None`). */
  datatype Env = Env(
    code: Option<string>,
    proxyUrl: Option<string>,
    vercel: Option<string>,
    openAiApiKey: Option<string>,
    openAiUrl: Option<string>,
    huggingFaceToken: Option<string>,
    huggingFaceUrl: Option<string>,
    stableDiffusionToken: Option<string>,
    stableDiffusionUrl: Option<string>
  )

  /** The object `getServerSideConfig` returns. */
  datatype ServerConfig = ServerConfig(
    codes: set<string>,
    needCode: bool,
    proxyUrl: Option<string>,
    isVercel: bool,
    openAiKey: Option<string>,
    openAiUrl: string,
    huggingFaceToken: Option<string>,
    huggingFaceUrl: string,
    stableDiffusionToken: Option<string>,
    stableDiffusionUrl: string
  )

  const DefaultOpenAiUrl := "https://api.openai.com"
  const DefaultHuggingFaceUrl := "https://api-inference.huggingface.co"
  const DefaultStableDiffusionUrl := "https://diffusion.luming.fun"
  const NotServerMessage := "[Server Config] you are importing a nodejs-only module outside of nodejs"

  /** `code?.split(",") ?? []`. */
  function Segments(code: Option<string>): seq<string> {
    if code.None? then [] else Split(code.value, ',')
  }

  /** `.filter((v) => !!v)`: keeps the non-empty segments, in order. */
  function NonEmpty(parts: seq<string>): (r: seq<string>)
    ensures |r| <= |parts|
    ensures forall v :: v in r <==> v in parts && v != ""
  {
    if parts == [] then []
    else if parts[0] == "" then NonEmpty(parts[1..])
    else [parts[0]] + NonEmpty(parts[1..])
  }

  /** `.map((v) => md5.hash(v.trim()))`. */
  function HashTrimmed(md5: string -> string, parts: seq<string>): (r: seq<string>)
    ensures |r| == |parts|
    ensures forall i :: 0 <= i < |parts| ==> r[i] == md5(Trim(parts[i]))
  {
    seq(|parts|, i requires 0 <= i < |parts| => md5(Trim(parts[i])))
  }

  /** `new Set(xs)`. */
  function ToSet(xs: seq<string>): set<string> {
    set x | x in xs
  }

  /** A set built from a sequence has at most as many elements as the sequence. */
  lemma {:induction false} ToSetSize(xs: seq<string>)
    ensures |ToSet(xs)| <= |xs|
  {
    if xs != [] {
      ToSetSize(xs[1..]);
      assert ToSet(xs) == ToSet(xs[1..]) + {xs[0]};
    }
  }

  /** Every hash in the set built from the kept segments hashes a non-empty segment. */
  lemma HashSetSound(md5: string -> string, parts: seq<string>, h: string)
    requires h in ToSet(HashTrimmed(md5, NonEmpty(parts)))
    ensures exists v :: v in parts && v != "" && h == md5(Trim(v))
  {
    var kept := NonEmpty(parts);
    var hashes := HashTrimmed(md5, kept);
    var i :| 0 <= i < |hashes| && hashes[i] == h;
    assert kept[i] in kept;
  }

  /** The hash of every non-empty segment is in the set built from the kept segments. */
  lemma HashSetComplete(md5: string -> string, parts: seq<string>, v: string)
    requires v in parts && v != ""
    ensures md5(Trim(v)) in ToSet(HashTrimmed(md5, NonEmpty(parts)))
  {
    var kept := NonEmpty(parts);
    var hashes := HashTrimmed(md5, kept);
    assert v in kept;
    var i :| 0 <= i < |kept| && kept[i] == v;
    assert hashes[i] == md5(Trim(v));
  }

  /**
   * `ACCESS_CODES`: a hash is accepted exactly when it is the hash of the
   * trimmed text of some non-empty comma-separated segment of `CODE`.
   * (The `catch` that yields an empty set has nothing to catch here: none
   * of split, filter, trim and the hash throws on a string.)
   */
  function AccessCodes(md5: string -> string, code: Option<string>): (r: set<string>)
    ensures forall h :: h in r <==> exists v :: v in Segments(code) && v != "" && h == md5(Trim(v))
    ensures code.None? ==> r == {}
  {
    var parts := Segments(code);
    var r := ToSet(HashTrimmed(md5, NonEmpty(parts)));
    assert forall h :: h in r <==> exists v :: v in parts && v != "" && h == md5(Trim(v)) by {
      forall h | h in r ensures exists v :: v in parts && v != "" && h == md5(Trim(v)) {
        HashSetSound(md5, parts, h);
      }
      forall v | v in parts && v != "" ensures md5(Trim(v)) in r {
        HashSetComplete(md5, parts, v);
      }
    }
    r
  }

  /** Duplicate codes collapse: there are at most as many hashes as non-empty segments. */
  lemma AccessCodesSize(md5: string -> string, code: Option<string>)
    ensures |AccessCodes(md5, code)| <= |NonEmpty(Segments(code))|
  {
    var hashes := HashTrimmed(md5, NonEmpty(Segments(code)));
    assert AccessCodes(md5, code) == ToSet(hashes);
    ToSetSize(hashes);
  }

  /** Empty segments, as in `",,"`, are dropped: such a `CODE` accepts nothing. */
  lemma OnlyCommasAcceptNothing(md5: string -> string)
    ensures AccessCodes(md5, Some(",,")) == {}
  {
    assert Split(",,", ',') == ["", "", ""];
  }

  /** A white-space-only segment passes the filter before it is trimmed, so it admits the hash of "". */
  lemma SpaceSegmentAdmitsEmptyHash(md5: string -> string, code: Option<string>, v: string)
    requires v in Segments(code) && v != ""
    requires forall i :: 0 <= i < |v| ==> IsJsSpace(v[i])
    ensures md5("") in AccessCodes(md5, code)
  {
    TrimAllSpace(v);
  }

  /** Every non-empty segment contributes the hash of its trimmed text. */
  lemma SegmentAdmitsItsHash(md5: string -> string, code: Option<string>, v: string)
    requires v in Segments(code) && v != ""
    ensures md5(Trim(v)) in AccessCodes(md5, code)
  {
  }

  /** "abc" has no white space to trim. */
  lemma TrimAbc()
    ensures Trim("abc") == "abc"
  {
    var abc := "abc";
    assert !IsJsSpace(abc[0]) && !IsJsSpace(abc[2]);
    TrimNoSpace(abc);
  }

  /** `"abc, ".split(",")` is `["abc", " "]`. */
  lemma SplitAbcSpace()
    ensures Segments(Some("abc, ")) == ["abc", " "]
  {
    assert "abc, " == "abc" + [','] + " ";
    SplitAfterSeparator("abc", " ", ',');
    SplitNoSeparator(" ", ',');
  }

  /** `CODE = "abc, "`: the blank segment after the comma admits the hash of "" beside that of "abc". */
  lemma SpaceAfterCommaAdmitsEmptyHash(md5: string -> string, code: Option<string>)
    requires code == Some("abc, ")
    ensures md5("") in AccessCodes(md5, code)
    ensures md5("abc") in AccessCodes(md5, code)
  {
    SplitAbcSpace();
    assert md5("") in AccessCodes(md5, code) by {
      SpaceSegmentAdmitsEmptyHash(md5, code, " ");
    }
    assert md5("abc") in AccessCodes(md5, code) by {
      SegmentAdmitsItsHash(md5, code, "abc");
      TrimAbc();
    }
  }

  /** Some hash is accepted exactly when `CODE` has a non-empty segment. */
  lemma AccessCodesNonEmpty(md5: string -> string, code: Option<string>)
    ensures |AccessCodes(md5, code)| > 0 <==> exists v :: v in Segments(code) && v != ""
  {
    var codes := AccessCodes(md5, code);
    if exists v :: v in Segments(code) && v != "" {
      var v :| v in Segments(code) && v != "";
      assert md5(Trim(v)) in codes;
    }
    if |codes| > 0 {
      var h :| h in codes;
    }
  }

  /** `getServerSideConfig()`: throws when `process` is undefined, otherwise builds the configuration. */
  function GetServerSideConfig(md5: string -> string, processDefined: bool, env: Env): (r: Result<ServerConfig, string>)
    ensures r.Failure? <==> !processDefined
    ensures r.Failure? ==> r.error == NotServerMessage
    ensures r.Success? ==> r.value.codes == AccessCodes(md5, env.code)
    ensures r.Success? ==> (r.value.needCode <==> exists v :: v in Segments(env.code) && v != "")
    ensures r.Success? ==> (r.value.isVercel <==> env.vercel.Some? && env.vercel.value != "")
    ensures r.Success? ==> r.value.openAiUrl == (if env.openAiUrl.Some? then env.openAiUrl.value else DefaultOpenAiUrl)
    ensures r.Success? ==> r.value.huggingFaceUrl == (if env.huggingFaceUrl.Some? then env.huggingFaceUrl.value else DefaultHuggingFaceUrl)
    ensures r.Success? ==> r.value.stableDiffusionUrl == (if env.stableDiffusionUrl.Some? then env.stableDiffusionUrl.value else DefaultStableDiffusionUrl)
    ensures r.Success? ==> r.value.openAiKey == env.openAiApiKey && r.value.huggingFaceToken == env.huggingFaceToken
    ensures r.Success? ==> r.value.stableDiffusionToken == env.stableDiffusionToken && r.value.proxyUrl == env.proxyUrl
  {
    if !processDefined then Failure(NotServerMessage)
    else
      var codes := AccessCodes(md5, env.code);
      AccessCodesNonEmpty(md5, env.code);
      Success(ServerConfig(
        codes := codes,
        needCode := |codes| > 0,
        proxyUrl := env.proxyUrl,
        isVercel := Truthy(env.vercel),
        openAiKey := env.openAiApiKey,
        openAiUrl := env.openAiUrl.GetOr(DefaultOpenAiUrl),
        huggingFaceToken := env.huggingFaceToken,
        huggingFaceUrl := env.huggingFaceUrl.GetOr(DefaultHuggingFaceUrl),
        stableDiffusionToken := env.stableDiffusionToken,
        stableDiffusionUrl := env.stableDiffusionUrl.GetOr(DefaultStableDiffusionUrl)
      ))
  }
}
