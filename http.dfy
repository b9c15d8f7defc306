/**
 * The parts of the Fetch `Headers` and Next.js `NextRequest` objects that the
 * middleware and the forwarder touch. Header names are case-insensitive: a
 * `Headers` object keeps them lower-cased.
 */
module Http {
  import opened Wrappers

  /** ASCII lower-casing of one character. */
  function LowerChar(c: char): char {
    if 'A' <= c <= 'Z' then (c - 'A' + 'a') as char else c
  }

  /** ASCII lower-casing of a header name. */
  function Lower(name: string): (r: string)
    ensures |r| == |name|
    ensures forall i :: 0 <= i < |name| ==> r[i] == LowerChar(name[i])
  {
    seq(|name|, i requires 0 <= i < |name| => LowerChar(name[i]))
  }

  /** Lower-casing twice is lower-casing once. */
  lemma LowerIdempotent(name: string)
    ensures Lower(Lower(name)) == Lower(name)
  {
  }

  /** The entries of a `Headers` object: every name is stored lower-cased. */
  type HeaderMap = m: map<string, string> | forall k :: k in m ==> Lower(k) == k
    witness map[]

  /** `headers.get(name)` over lower-cased entries: `null` when the header is absent. */
  function HeaderGet(entries: HeaderMap, name: string): Option<string> {
    if Lower(name) in entries then Some(entries[Lower(name)]) else None
  }

  /**
   * `headers.set(name, value)` on the entries: a later `get` of any spelling
   * of the name gives the value, and every other header reads as before.
   */
  function SetHeader(entries: HeaderMap, name: string, value: string): (r: HeaderMap)
    ensures r.Keys == entries.Keys + {Lower(name)}
    ensures forall other :: Lower(other) == Lower(name) ==> HeaderGet(r, other) == Some(value)
    ensures forall other :: Lower(other) != Lower(name) ==> HeaderGet(r, other) == HeaderGet(entries, other)
  {
    LowerIdempotent(name);
    entries[Lower(name) := value]
  }

  /** What Fetch strips from both ends of a header value: space, tab, CR and LF. */
  predicate IsHttpSpace(c: char) {
    c == ' ' || c == '\t' || c == '\n' || c == '\r'
  }

  /** Drops the leading HTTP white space of a header value. */
  function StripStart(v: string): (r: string)
    ensures |r| <= |v| && r == v[|v| - |r|..]
    ensures r == [] || !IsHttpSpace(r[0])
    ensures forall i :: 0 <= i < |v| - |r| ==> IsHttpSpace(v[i])
  {
    if v != [] && IsHttpSpace(v[0]) then StripStart(v[1..]) else v
  }

  /** Drops the trailing HTTP white space of a header value. */
  function StripEnd(v: string): (r: string)
    ensures |r| <= |v| && r == v[..|r|]
    ensures r == [] || !IsHttpSpace(r[|r| - 1])
    ensures forall i :: |r| <= i < |v| ==> IsHttpSpace(v[i])
  {
    if v != [] && IsHttpSpace(v[|v| - 1]) then StripEnd(v[..|v| - 1]) else v
  }

  /**
   * Header-value normalisation: the value `headers.get` returns for a header
   * sent as `v`. It has no HTTP white space at either end.
   */
  function NormalizeValue(v: string): (r: string)
    ensures |r| <= |v|
    ensures r == [] || (!IsHttpSpace(r[0]) && !IsHttpSpace(r[|r| - 1]))
  {
    StripEnd(StripStart(v))
  }

  /** HTTP white space in front of a value that does not start with it is dropped. */
  lemma {:induction false} StripStartPadding(pre: string, w: string)
    requires forall i :: 0 <= i < |pre| ==> IsHttpSpace(pre[i])
    requires w == [] || !IsHttpSpace(w[0])
    ensures StripStart(pre + w) == w
  {
    if pre != [] {
      assert (pre + w)[1..] == pre[1..] + w;
      StripStartPadding(pre[1..], w);
    }
  }

  /** HTTP white space after a value that does not end with it is dropped. */
  lemma {:induction false} StripEndPadding(w: string, post: string)
    requires forall i :: 0 <= i < |post| ==> IsHttpSpace(post[i])
    requires w == [] || !IsHttpSpace(w[|w| - 1])
    ensures StripEnd(w + post) == w
  {
    if post != [] {
      var last := |post| - 1;
      assert (w + post)[..|w + post| - 1] == w + post[..last];
      StripEndPadding(w, post[..last]);
    }
  }

  /**
   * Normalisation removes exactly the HTTP white space around a value: a value
   * with no HTTP white space at either end, padded on both sides with it,
   * normalises to itself. Every string has one such decomposition, so this
   * pins `NormalizeValue` down.
   */
  lemma NormalizePadding(pre: string, c: string, post: string)
    requires forall i :: 0 <= i < |pre| ==> IsHttpSpace(pre[i])
    requires forall i :: 0 <= i < |post| ==> IsHttpSpace(post[i])
    requires c == [] || (!IsHttpSpace(c[0]) && !IsHttpSpace(c[|c| - 1]))
    ensures NormalizeValue(pre + c + post) == c
  {
    if c == [] {
      assert pre + c + post == (pre + post) + [];
      StripStartPadding(pre + post, []);
    } else {
      assert pre + c + post == pre + (c + post);
      StripStartPadding(pre, c + post);
      StripEndPadding(c, post);
    }
  }

  /** A value that starts with a character other than HTTP white space keeps it in front. */
  lemma NormalizeKeepsFirst(c: char, rest: string)
    requires !IsHttpSpace(c)
    ensures NormalizeValue([c] + rest) != [] && NormalizeValue([c] + rest)[0] == c
  {
    var sent := [c] + rest;
    assert StripStart(sent) == sent;
    assert !IsHttpSpace(sent[0]);
  }

  /** A request body, passed through as opaque bytes. */
  type Body = seq<bv8>

  /** A mutable header collection (`req.headers`). */
  class Headers {
    var entries: HeaderMap

    constructor (init: HeaderMap)
      ensures entries == init
    {
      entries := init;
    }

    function Get(name: string): Option<string>
      reads this
    {
      HeaderGet(entries, name)
    }

    /** `headers.set(name, value)`: replaces that one header and keeps every other. */
    method Set(name: string, value: string)
      modifies this
      ensures entries == SetHeader(old(entries), name, value)
      ensures entries == old(entries)[Lower(name) := value]
      ensures Get(name) == Some(value)
    {
      entries := SetHeader(entries, name, value);
    }
  }

  /**
   * An inbound request as the edge runtime hands it to the middleware: the
   * parts the middleware reads (its method and body are not read there).
   */
  class NextRequest {
    const ip: Option<string>
    const pathname: string
    const headers: Headers

    constructor (ip: Option<string>, pathname: string, headers: Headers)
      ensures this.ip == ip && this.pathname == pathname && this.headers == headers
    {
      this.ip := ip;
      this.pathname := pathname;
      this.headers := headers;
    }
  }
}
