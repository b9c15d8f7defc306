/**
 * The JavaScript string operations the core relies on: `trim`, `split` on
 * a one-character separator, `startsWith`, truthiness of a nullable string
 * and the text a template literal gives a nullable value.
 */
module Strings {
  import opened Wrappers

  /** The characters `String.prototype.trim` removes: WhiteSpace and LineTerminator of ECMA-262. */
  predicate IsJsSpace(c: char) {
    || c == ' ' || c == '\t' || c == '\n' || c == '\r'
    || c == '\U{000B}' || c == '\U{000C}' || c == '\U{00A0}' || c == '\U{FEFF}'
    || c == '\U{1680}' || ('\U{2000}' <= c <= '\U{200A}')
    || c == '\U{2028}' || c == '\U{2029}' || c == '\U{202F}' || c == '\U{205F}' || c == '\U{3000}'
  }

  /** Drops the leading white space; what is dropped is white space and the rest is a suffix. */
  function TrimStart(s: string): (r: string)
    ensures |r| <= |s| && r == s[|s| - |r|..]
    ensures r == [] || !IsJsSpace(r[0])
    ensures forall i :: 0 <= i < |s| - |r| ==> IsJsSpace(s[i])
  {
    if s != [] && IsJsSpace(s[0]) then TrimStart(s[1..]) else s
  }

  /** Drops the trailing white space; what is dropped is white space and the rest is a prefix. */
  function TrimEnd(s: string): (r: string)
    ensures |r| <= |s| && r == s[..|r|]
    ensures r == [] || !IsJsSpace(r[|r| - 1])
    ensures forall i :: |r| <= i < |s| ==> IsJsSpace(s[i])
  {
    if s != [] && IsJsSpace(s[|s| - 1]) then TrimEnd(s[..|s| - 1]) else s
  }

  /**
   * `s.trim()`: the result is a slice of `s` with no white space at either end,
   * and everything cut off before and after it is white space.
   */
  function Trim(s: string): (r: string)
    ensures |r| <= |s|
    ensures r == [] || (!IsJsSpace(r[0]) && !IsJsSpace(r[|r| - 1]))
    ensures exists a :: CutAt(s, a, r)
  {
    var t := TrimStart(s);
    var r := TrimEnd(t);
    CutCompose(s, t, r);
    assert CutAt(s, |s| - |t|, r);
    r
  }

  /** A white-space prefix cut followed by a white-space suffix cut is one cut of `s`. */
  lemma CutCompose(s: string, t: string, r: string)
    requires |t| <= |s| && t == s[|s| - |t|..]
    requires forall i :: 0 <= i < |s| - |t| ==> IsJsSpace(s[i])
    requires |r| <= |t| && r == t[..|r|]
    requires forall i :: |r| <= i < |t| ==> IsJsSpace(t[i])
    ensures CutAt(s, |s| - |t|, r)
  {
    var a := |s| - |t|;
    assert r == s[a..a + |r|];
    forall i | a + |r| <= i < |s| ensures IsJsSpace(s[i]) {
      assert s[i] == t[i - a];
    }
  }

  /** `r` is the slice of `s` at offset `a`, and only white space lies outside it. */
  predicate CutAt(s: string, a: int, r: string) {
    && 0 <= a && a + |r| <= |s| && r == s[a..a + |r|]
    && (forall i :: 0 <= i < a ==> IsJsSpace(s[i]))
    && (forall i :: a + |r| <= i < |s| ==> IsJsSpace(s[i]))
  }

  /** A string made only of white space trims to the empty string. */
  lemma {:induction false} TrimAllSpace(s: string)
    requires forall i :: 0 <= i < |s| ==> IsJsSpace(s[i])
    ensures Trim(s) == ""
  {
    if s != [] {
      assert TrimStart(s) == TrimStart(s[1..]);
      TrimAllSpace(s[1..]);
    }
  }

  /** A string with no white space at either end is its own trim. */
  lemma TrimNoSpace(s: string)
    requires s == [] || (!IsJsSpace(s[0]) && !IsJsSpace(s[|s| - 1]))
    ensures Trim(s) == s
  {
  }

  /** Trimming twice is trimming once. */
  lemma TrimIdempotent(s: string)
    ensures Trim(Trim(s)) == Trim(s)
  {
    TrimNoSpace(Trim(s));
  }

  /** `s.split(sep)` for a one-character separator: `"".split(",")` is `[""]`. */
  function Split(s: string, sep: char): (parts: seq<string>)
    ensures |parts| >= 1
    ensures forall p :: p in parts ==> sep !in p
  {
    if s == [] then [""]
    else
      var rest := Split(s[1..], sep);
      if s[0] == sep then [""] + rest
      else [[s[0]] + rest[0]] + rest[1..]
  }

  /** The inverse of `Split`: the parts glued back with the separator. */
  function Join(parts: seq<string>, sep: char): string
  {
    if parts == [] then ""
    else if |parts| == 1 then parts[0]
    else parts[0] + [sep] + Join(parts[1..], sep)
  }

  /** Splitting loses nothing: joining the parts gives back the string. */
  lemma {:induction false} SplitJoin(s: string, sep: char)
    ensures Join(Split(s, sep), sep) == s
  {
    if s != [] {
      var rest := Split(s[1..], sep);
      SplitJoin(s[1..], sep);
      if s[0] == sep {
        assert Split(s, sep) == [""] + rest;
        assert ([""] + rest)[1..] == rest;
        assert Join([""] + rest, sep) == [sep] + Join(rest, sep);
      } else {
        assert Split(s, sep) == [[s[0]] + rest[0]] + rest[1..];
        JoinCons(s[0], rest[0], rest[1..], sep);
        assert [rest[0]] + rest[1..] == rest;
      }
      assert [s[0]] + s[1..] == s;
    }
  }

  /** Putting a character in front of the first part puts it in front of the join. */
  lemma JoinCons(c: char, first: string, tail: seq<string>, sep: char)
    ensures Join([[c] + first] + tail, sep) == [c] + Join([first] + tail, sep)
  {
    if tail != [] {
      assert ([[c] + first] + tail)[1..] == tail;
      assert ([first] + tail)[1..] == tail;
    }
  }

  /**
   * The first part of a split is the text before the first separator: a prefix
   * of `s` without the separator, followed in `s` by the separator or by nothing.
   */
  lemma SplitFirst(s: string, sep: char)
    ensures |Split(s, sep)[0]| <= |s| && Split(s, sep)[0] == s[..|Split(s, sep)[0]|]
    ensures sep !in Split(s, sep)[0]
    ensures |Split(s, sep)[0]| == |s| || s[|Split(s, sep)[0]|] == sep
  {
    var parts := Split(s, sep);
    SplitJoin(s, sep);
    assert parts[0] in parts;
    if |parts| > 1 {
      assert s == parts[0] + [sep] + Join(parts[1..], sep);
    }
  }

  /** Text without the separator, then the separator, splits into that text and the split of what follows. */
  lemma {:induction false} SplitAfterSeparator(a: string, b: string, sep: char)
    requires sep !in a
    ensures Split(a + [sep] + b, sep) == [a] + Split(b, sep)
  {
    if a == [] {
      assert a + [sep] + b == [sep] + b;
      assert ([sep] + b)[1..] == b;
    } else {
      SplitAfterSeparator(a[1..], b, sep);
      assert (a + [sep] + b)[1..] == a[1..] + [sep] + b;
      assert [a[0]] + a[1..] == a;
    }
  }

  /** A string without the separator splits into itself alone. */
  lemma {:induction false} SplitNoSeparator(s: string, sep: char)
    requires sep !in s
    ensures Split(s, sep) == [s]
  {
    if s != [] {
      SplitNoSeparator(s[1..], sep);
      assert [s[0]] + s[1..] == s;
    }
  }

  /** `s.startsWith(prefix)`. */
  predicate StartsWith(s: string, prefix: string) {
    |prefix| <= |s| && s[..|prefix|] == prefix
  }

  /** `!!v` for a nullable string: present and not empty. */
  predicate Truthy(v: Option<string>) {
    v.Some? && v.value != ""
  }

  /** What a template literal `${v}` prints for a nullable string (`null` prints as "null"). */
  function Interpolate(v: Option<string>): string {
    v.GetOr("null")
  }
}
