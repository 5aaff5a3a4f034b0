/**
 * String operations the Python backend and the JavaScript frontend rely on:
 * prefix and substring tests, ASCII case mapping, whitespace stripping with
 * each language's own whitespace set, joining, `str.title()` and the UTF-16
 * length JavaScript reports.
 */
module Text {

  /** The secure scheme, which the backend, the scanner and the page scripts all test for or add. */
  const HttpsScheme := "https://"

  /** `s.startswith(prefix)` in Python, `s.startsWith(prefix)` in JavaScript. */
  predicate StartsWith(s: string, prefix: string)
  {
    |prefix| <= |s| && s[..|prefix|] == prefix
  }

  /** `sub in s` in Python, `s.includes(sub)` in JavaScript (case-sensitive). */
  predicate Contains(s: string, sub: string)
    decreases |s|
  {
    StartsWith(s, sub) || (|s| > 0 && Contains(s[1..], sub))
  }

  function LowerChar(c: char): char
  {
    if 'A' <= c <= 'Z' then (c as int + 32) as char else c
  }

  function UpperChar(c: char): char
  {
    if 'a' <= c <= 'z' then (c as int - 32) as char else c
  }

  /** `s.lower()`, restricted to the ASCII letters. */
  function Lower(s: string): (r: string)
    ensures |r| == |s|
  {
    if s == [] then [] else [LowerChar(s[0])] + Lower(s[1..])
  }

  /** `s.upper()`, restricted to the ASCII letters. */
  function Upper(s: string): (r: string)
    ensures |r| == |s|
  {
    if s == [] then [] else [UpperChar(s[0])] + Upper(s[1..])
  }

  /** Lower-casing maps each character on its own, so it distributes over concatenation. */
  lemma {:induction false} LowerConcat(a: string, b: string)
    ensures Lower(a + b) == Lower(a) + Lower(b)
  {
    if a == [] {
      assert a + b == b;
    } else {
      assert (a + b)[1..] == a[1..] + b;
      LowerConcat(a[1..], b);
    }
  }

  /** Lower-casing keeps a prefix that is already lower case. */
  lemma {:induction false} LowerKeepsPrefix(s: string, prefix: string)
    requires StartsWith(s, prefix)
    requires Lower(prefix) == prefix
    ensures StartsWith(Lower(s), prefix)
  {
    if prefix != [] {
      assert Lower(prefix) == [LowerChar(prefix[0])] + Lower(prefix[1..]);
      assert Lower(prefix)[1..] == Lower(prefix[1..]);
      assert s[1..][..|prefix| - 1] == s[..|prefix|][1..];
      LowerKeepsPrefix(s[1..], prefix[1..]);
      assert Lower(s)[..|prefix|] == [LowerChar(s[0])] + Lower(s[1..])[..|prefix| - 1];
    }
  }

  /** Python's `str.isspace()` characters: what `str.strip()` removes. */
  predicate PySpace(c: char)
  {
    || c == ' ' || '\t' <= c <= '\r'
    || '\U{1C}' <= c <= '\U{1F}' || c == '\U{85}' || c == '\U{A0}'
    || c == '\U{1680}' || '\U{2000}' <= c <= '\U{200A}'
    || c == '\U{2028}' || c == '\U{2029}' || c == '\U{202F}'
    || c == '\U{205F}' || c == '\U{3000}'
  }

  /**
   * JavaScript's WhiteSpace and LineTerminator characters: what
   * `String.prototype.trim` removes and what the regex class `\s` matches.
   */
  predicate JsSpace(c: char)
  {
    || c == ' ' || '\t' <= c <= '\r'
    || c == '\U{A0}' || c == '\U{FEFF}'
    || c == '\U{1680}' || '\U{2000}' <= c <= '\U{200A}'
    || c == '\U{2028}' || c == '\U{2029}' || c == '\U{202F}'
    || c == '\U{205F}' || c == '\U{3000}'
  }

  /** Drops the leading characters satisfying `isSpace`. */
  function TrimStart(s: string, isSpace: char -> bool): (r: string)
    ensures |r| <= |s| && r == s[|s| - |r|..]
    ensures forall k :: 0 <= k < |s| - |r| ==> isSpace(s[k])
    ensures r != [] ==> !isSpace(r[0])
    decreases |s|
  {
    if s != [] && isSpace(s[0]) then TrimStart(s[1..], isSpace) else s
  }

  /** Drops the trailing characters satisfying `isSpace`. */
  function TrimEnd(s: string, isSpace: char -> bool): (r: string)
    ensures |r| <= |s| && r == s[..|r|]
    ensures forall k :: |r| <= k < |s| ==> isSpace(s[k])
    ensures r != [] ==> !isSpace(r[|r| - 1])
    decreases |s|
  {
    if s != [] && isSpace(s[|s| - 1]) then TrimEnd(s[..|s| - 1], isSpace) else s
  }

  /**
   * Both ends stripped: `str.strip()` with `PySpace`, `String.prototype.trim`
   * with `JsSpace`. The result is empty exactly when every character is a
   * space, and otherwise neither begins nor ends with one.
   */
  function Trim(s: string, isSpace: char -> bool): (r: string)
    ensures r == [] <==> forall k :: 0 <= k < |s| ==> isSpace(s[k])
    ensures r != [] ==> !isSpace(r[0]) && !isSpace(r[|r| - 1])
  {
    var t := TrimStart(s, isSpace);
    assert forall k :: |s| - |t| <= k < |s| ==> s[k] == t[k - (|s| - |t|)];
    TrimEnd(t, isSpace)
  }

  /** A string with no space at either end is its own trim. */
  lemma TrimFixed(s: string, isSpace: char -> bool)
    requires s != [] ==> !isSpace(s[0]) && !isSpace(s[|s| - 1])
    ensures Trim(s, isSpace) == s
  {
  }

  /** Stripping the start drops exactly a leading run of spaces. */
  lemma {:induction false} TrimStartRun(pre: string, rest: string, isSpace: char -> bool)
    requires forall k :: 0 <= k < |pre| ==> isSpace(pre[k])
    requires rest == [] || !isSpace(rest[0])
    ensures TrimStart(pre + rest, isSpace) == rest
  {
    if pre == [] {
      assert pre + rest == rest;
    } else {
      assert (pre + rest)[1..] == pre[1..] + rest;
      TrimStartRun(pre[1..], rest, isSpace);
    }
  }

  /** Stripping the end drops exactly a trailing run of spaces. */
  lemma {:induction false} TrimEndRun(rest: string, post: string, isSpace: char -> bool)
    requires forall k :: 0 <= k < |post| ==> isSpace(post[k])
    requires rest == [] || !isSpace(rest[|rest| - 1])
    ensures TrimEnd(rest + post, isSpace) == rest
  {
    if post == [] {
      assert rest + post == rest;
    } else {
      var shorter := post[..|post| - 1];
      assert (rest + post)[..|rest + post| - 1] == rest + shorter;
      TrimEndRun(rest, shorter, isSpace);
    }
  }

  /** Text padded on both sides with spaces strips back to itself. */
  lemma TrimPadded(pre: string, core: string, post: string, isSpace: char -> bool)
    requires forall k :: 0 <= k < |pre| ==> isSpace(pre[k])
    requires forall k :: 0 <= k < |post| ==> isSpace(post[k])
    requires core != [] && !isSpace(core[0]) && !isSpace(core[|core| - 1])
    ensures Trim(pre + core + post, isSpace) == core
  {
    assert pre + core + post == pre + (core + post);
    TrimStartRun(pre, core + post, isSpace);
    TrimEndRun(core, post, isSpace);
  }

  /** `sep.join(parts)` in Python. */
  function Join(parts: seq<string>, sep: string): string
    decreases |parts|
  {
    if |parts| == 0 then ""
    else if |parts| == 1 then parts[0]
    else parts[0] + sep + Join(parts[1..], sep)
  }

  /** Joining one part gives the part; joining two puts the separator between them. */
  lemma JoinShort(a: string, b: string, sep: string)
    ensures Join([a], sep) == a
    ensures Join([a, b], sep) == a + sep + b
  {
    assert [a, b][1..] == [b];
  }

  /** JavaScript's `s.length`: UTF-16 code units, two for a character beyond U+FFFF. */
  function Utf16Length(s: string): (n: nat)
    ensures |s| <= n <= 2 * |s|
  {
    if s == [] then 0
    else (if s[0] as int > 0xFFFF then 2 else 1) + Utf16Length(s[1..])
  }

  function IsAsciiLetter(c: char): bool
  {
    'A' <= c <= 'Z' || 'a' <= c <= 'z'
  }

  /**
   * Python's `str.title()` on ASCII text: a letter is upper-cased when the
   * character before it is not a letter, and lower-cased otherwise.
   */
  function Title(s: string): (r: string)
    ensures |r| == |s|
  {
    TitleAfter(s, false)
  }

  function TitleAfter(s: string, afterLetter: bool): (r: string)
    ensures |r| == |s|
    decreases |s|
  {
    if s == [] then ""
    else
      var c := if afterLetter then LowerChar(s[0]) else UpperChar(s[0]);
      [c] + TitleAfter(s[1..], IsAsciiLetter(s[0]))
  }

  /** A word of lower-case letters keeps its letters after a letter. */
  lemma {:induction false} TitleAfterLetter(s: string)
    requires forall k :: 0 <= k < |s| ==> 'a' <= s[k] <= 'z'
    ensures TitleAfter(s, true) == s
  {
    if s != [] {
      TitleAfterLetter(s[1..]);
    }
  }

  /** `str.title()` of a lower-case word capitalises its first letter only. */
  lemma TitleOfLowerWord(s: string)
    requires s != [] && forall k :: 0 <= k < |s| ==> 'a' <= s[k] <= 'z'
    ensures Title(s) == [UpperChar(s[0])] + s[1..]
  {
    TitleAfterLetter(s[1..]);
  }
}
