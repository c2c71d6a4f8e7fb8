/** The part of Python's `urllib.parse.urlparse` (its `urlsplit` step) that
    the request validators look at: the scheme and the network location.
    It follows the generic syntax of RFC 3986: the scheme of section 3.1 is
    the text before the first ':' when that text is a legal scheme, and the
    authority of section 3.2 (Python's netloc) is what follows "//" up to
    the next '/', '?' or '#'.  The preprocessing is that of CPython 3.12:
    leading C0 control characters and spaces are stripped and every tab,
    carriage return and line feed is removed. */
module UrlParse {
  import opened Common

  /** The characters `urlsplit` strips from the left of a URL. */
  predicate IsC0ControlOrSpace(c: char)
  {
    c <= ' '
  }

  /** The characters `urlsplit` deletes wherever they occur. */
  predicate IsUnsafeUrlChar(c: char)
  {
    c == '\t' || c == '\r' || c == '\n'
  }

  function LStripC0(s: string): (r: string)
    ensures |r| <= |s| && r == s[|s| - |r|..]
    ensures r != [] ==> !IsC0ControlOrSpace(r[0])
    ensures forall i :: 0 <= i < |s| - |r| ==> IsC0ControlOrSpace(s[i])
  {
    if s != [] && IsC0ControlOrSpace(s[0]) then
      var r := LStripC0(s[1..]);
      assert forall i :: 1 <= i < |s| ==> s[i] == s[1..][i - 1];
      r
    else s
  }

  function RemoveUnsafe(s: string): (r: string)
    ensures forall i :: 0 <= i < |r| ==> !IsUnsafeUrlChar(r[i])
    ensures |r| <= |s|
  {
    if s == [] then []
    else (if IsUnsafeUrlChar(s[0]) then [] else [s[0]]) + RemoveUnsafe(s[1..])
  }

  /** The URL text that `urlsplit` actually parses. */
  function Clean(url: string): string
  {
    RemoveUnsafe(LStripC0(url))
  }

  /** Python's `str.find` for one character: the first index, or -1. */
  function Find(s: string, c: char): (i: int)
    ensures -1 <= i < |s|
    ensures i >= 0 ==> s[i] == c && c !in s[..i]
    ensures i == -1 <==> c !in s
  {
    if s == [] then -1
    else if s[0] == c then 0
    else
      var j := Find(s[1..], c);
      if j < 0 then -1 else j + 1
  }

  predicate IsAsciiAlpha(c: char)
  {
    'a' <= c <= 'z' || 'A' <= c <= 'Z'
  }

  /** `scheme_chars`: ASCII letters, digits and "+-.". */
  predicate IsSchemeChar(c: char)
  {
    IsAsciiAlpha(c) || '0' <= c <= '9' || c == '+' || c == '-' || c == '.'
  }

  function LowerChar(c: char): (l: char)
    ensures !('A' <= l <= 'Z')
    ensures 'A' <= c <= 'Z' ==> l as int == c as int + 32
    ensures !('A' <= c <= 'Z') ==> l == c
  {
    if 'A' <= c <= 'Z' then (c as int + 32) as char else c
  }

  /** `str.lower()` restricted to ASCII, which is all a scheme can contain. */
  function Lower(s: string): (r: string)
    ensures |r| == |s|
    ensures forall i :: 0 <= i < |s| ==> r[i] == LowerChar(s[i])
  {
    seq(|s|, i requires 0 <= i < |s| => LowerChar(s[i]))
  }

  /** The delimiters that end the network location. */
  predicate IsNetlocDelim(c: char)
  {
    c == '/' || c == '?' || c == '#'
  }

  /** `_splitnetloc`: the earliest delimiter at or after `start`, or the end. */
  function NetlocEnd(s: string, start: nat): (e: nat)
    requires start <= |s|
    ensures start <= e <= |s|
    ensures forall k :: start <= k < e ==> !IsNetlocDelim(s[k])
    ensures e < |s| ==> IsNetlocDelim(s[e])
    decreases |s| - start
  {
    if start == |s| || IsNetlocDelim(s[start]) then start else NetlocEnd(s, start + 1)
  }

  /** The scheme prefix is recognised when the first ':' is preceded by a
      non-empty run of scheme characters starting with an ASCII letter. */
  predicate HasScheme(u: string, i: int)
  {
    0 < i < |u| && IsAsciiAlpha(u[0]) && forall k :: 0 <= k < i ==> IsSchemeChar(u[k])
  }

  /** The components of `urlsplit` this model keeps. `rest` is the path,
      query and fragment, not split further. */
  datatype SplitUrl = SplitUrl(scheme: string, netloc: string, rest: string)

  /** The scheme `urlsplit` reports for the cleaned text `u`, lower-cased,
      or "" when `u` has none. */
  function SchemeOf(u: string): string
  {
    var i := Find(u, ':');
    if HasScheme(u, i) then Lower(u[..i]) else ""
  }

  /** What remains of `u` once a recognised scheme and its ':' are cut off. */
  function AfterScheme(u: string): string
  {
    var i := Find(u, ':');
    if HasScheme(u, i) then u[i + 1..] else u
  }

  /** The netloc step of `urlsplit`, applied to the text after the scheme. */
  function SplitNetloc(scheme: string, rest: string): Result<SplitUrl, string>
  {
    if |rest| >= 2 && rest[0] == '/' && rest[1] == '/' then
      var e := NetlocEnd(rest, 2);
      var netloc := rest[2..e];
      if ('[' in netloc) != (']' in netloc) then Err("Invalid IPv6 URL")
      else Ok(SplitUrl(scheme, netloc, rest[e..]))
    else Ok(SplitUrl(scheme, "", rest))
  }

  /** `urlsplit(url)`: an error when the netloc's square brackets are
      unbalanced (Python raises ValueError("Invalid IPv6 URL")). */
  function UrlSplit(url: string): Result<SplitUrl, string>
  {
    var u := Clean(url);
    SplitNetloc(SchemeOf(u), AfterScheme(u))
  }

  /** The request validators' rule: scheme http or https and a non-empty netloc. */
  predicate IsAcceptedUrl(url: string)
  {
    var r := UrlSplit(url);
    r.Ok? && (r.value.scheme == "http" || r.value.scheme == "https") && r.value.netloc != ""
  }

  /** An http(s) scheme was recognised: it is the lower-cased text before
      the first ':', and the rest starts after that ':'. */
  lemma SchemeShape(u: string)
    requires SchemeOf(u) == "http" || SchemeOf(u) == "https"
    ensures var i := |SchemeOf(u)|;
      && i < |u| && u[i] == ':'
      && Lower(u[..i]) == SchemeOf(u)
      && AfterScheme(u) == u[i + 1..]
      && u[i..] == ":" + AfterScheme(u)
  {
    var i := Find(u, ':');
    assert HasScheme(u, i);
    assert |u[i..]| == 1 + |u[i + 1..]|;
    assert u[i..][0] == ':';
    assert u[i..][1..] == u[i + 1..];
    assert u[i..] == [u[i..][0]] + u[i..][1..];
  }

  /** A non-empty netloc is exactly the text between "//" and the next delimiter. */
  lemma NetlocShape(scheme: string, rest: string)
    requires SplitNetloc(scheme, rest).Ok?
    requires SplitNetloc(scheme, rest).value.netloc != ""
    ensures var p := SplitNetloc(scheme, rest).value;
      && p.scheme == scheme
      && rest == "//" + p.netloc + p.rest
      && (forall k :: 0 <= k < |p.netloc| ==> !IsNetlocDelim(p.netloc[k]))
      && (p.rest == "" || IsNetlocDelim(p.rest[0]))
  {
    var p := SplitNetloc(scheme, rest).value;
    assert |rest| >= 2 && rest[0] == '/' && rest[1] == '/';
    var e := NetlocEnd(rest, 2);
    assert p.netloc == rest[2..e] && p.rest == rest[e..];
    assert rest == rest[..2] + rest[2..e] + rest[e..];
    assert rest[..2] == "//";
  }

  /** Every accepted URL has the shape scheme "://" netloc rest in the text
      `urlsplit` parses: the scheme is the lower-cased prefix, the netloc is
      non-empty and free of delimiters, and the rest is empty or starts at a
      delimiter. */
  lemma AcceptedUrlShape(url: string)
    requires IsAcceptedUrl(url)
    ensures var u, p := Clean(url), UrlSplit(url).value;
      && |p.scheme| < |u|
      && Lower(u[..|p.scheme|]) == p.scheme
      && (p.scheme == "http" || p.scheme == "https")
      && u[|p.scheme|..] == "://" + p.netloc + p.rest
      && p.netloc != ""
      && (forall k :: 0 <= k < |p.netloc| ==> !IsNetlocDelim(p.netloc[k]))
      && (p.rest == "" || IsNetlocDelim(p.rest[0]))
  {
    ParsedShape(Clean(url));
  }

  lemma SeparatorConcat(a: string, b: string)
    ensures ":" + ("//" + a + b) == "://" + a + b
  {
    assert ":" + "//" == "://";
  }

  /** `AcceptedUrlShape` for the text `urlsplit` parses. */
  lemma ParsedShape(u: string)
    requires SchemeOf(u) == "http" || SchemeOf(u) == "https"
    requires SplitNetloc(SchemeOf(u), AfterScheme(u)).Ok?
    requires SplitNetloc(SchemeOf(u), AfterScheme(u)).value.netloc != ""
    ensures var p := SplitNetloc(SchemeOf(u), AfterScheme(u)).value;
      && |p.scheme| < |u|
      && Lower(u[..|p.scheme|]) == p.scheme
      && u[|p.scheme|..] == "://" + p.netloc + p.rest
      && (forall k :: 0 <= k < |p.netloc| ==> !IsNetlocDelim(p.netloc[k]))
      && (p.rest == "" || IsNetlocDelim(p.rest[0]))
  {
    var scheme, rest := SchemeOf(u), AfterScheme(u);
    var p := SplitNetloc(scheme, rest).value;
    NetlocShape(scheme, rest);
    assert p.scheme == scheme && rest == "//" + p.netloc + p.rest;
    SchemeShape(u);
    assert u[|scheme|..] == ":" + rest;
    SeparatorConcat(p.netloc, p.rest);
  }

  /** The scheme of `scheme + tail` is recognised when `scheme` is made of
      ASCII letters and `tail` starts with ':'. */
  lemma LetterSchemeRecognised(scheme: string, tail: string)
    requires scheme != [] && forall k :: 0 <= k < |scheme| ==> IsAsciiAlpha(scheme[k])
    requires tail != [] && tail[0] == ':'
    ensures SchemeOf(scheme + tail) == Lower(scheme)
    ensures AfterScheme(scheme + tail) == tail[1..]
  {
    var u := scheme + tail;
    var i := |scheme|;
    assert u[..i] == scheme;
    assert u[i] == ':';
    assert Find(u, ':') == i;
    assert HasScheme(u, i);
    assert u[i + 1..] == tail[1..];
  }

  /** A network location given to `HttpUrlSplits`: non-empty, without
      delimiters or characters preprocessing removes, brackets balanced. */
  predicate IsPlainNetloc(netloc: string)
  {
    && netloc != ""
    && (forall k :: 0 <= k < |netloc| ==> !IsNetlocDelim(netloc[k]) && !IsUnsafeUrlChar(netloc[k]))
    && ('[' in netloc) == (']' in netloc)
  }

  /** A path, query and fragment given to `HttpUrlSplits`: empty or starting
      at a delimiter, without characters preprocessing removes. */
  predicate IsPlainRest(rest: string)
  {
    && (rest == "" || IsNetlocDelim(rest[0]))
    && forall k :: 0 <= k < |rest| ==> !IsUnsafeUrlChar(rest[k])
  }

  /** "//" netloc rest splits into that netloc and rest. */
  lemma NetlocSplits(scheme: string, netloc: string, rest: string)
    requires IsPlainNetloc(netloc) && IsPlainRest(rest)
    ensures SplitNetloc(scheme, "//" + netloc + rest) == Ok(SplitUrl(scheme, netloc, rest))
  {
    var after := "//" + netloc + rest;
    var e := NetlocEnd(after, 2);
    assert forall k :: 2 <= k < 2 + |netloc| ==> after[k] == netloc[k - 2];
    assert rest != "" ==> after[2 + |netloc|] == rest[0];
    assert e == 2 + |netloc|;
    assert after[2..e] == netloc;
    assert after[e..] == rest;
  }

  /** Conversely, `scheme "://" netloc rest` with an http(s) scheme in any
      case, a plain netloc and a plain rest is split into exactly those
      parts, and so is accepted. */
  lemma HttpUrlSplits(scheme: string, netloc: string, rest: string)
    requires Lower(scheme) == "http" || Lower(scheme) == "https"
    requires IsPlainNetloc(netloc) && IsPlainRest(rest)
    ensures UrlSplit(scheme + "://" + netloc + rest) == Ok(SplitUrl(Lower(scheme), netloc, rest))
    ensures IsAcceptedUrl(scheme + "://" + netloc + rest)
  {
    var url := scheme + ("://" + netloc + rest);
    assert url == scheme + "://" + netloc + rest;
    HttpUrlClean(scheme, netloc, rest);
    HttpSchemeRecognised(scheme, netloc, rest);
    NetlocSplits(Lower(scheme), netloc, rest);
    UrlSplitOfParts(url, Lower(scheme), netloc, rest);
  }

  /** Such a URL is parsed as it is written. */
  lemma HttpUrlClean(scheme: string, netloc: string, rest: string)
    requires Lower(scheme) == "http" || Lower(scheme) == "https"
    requires IsPlainNetloc(netloc) && IsPlainRest(rest)
    ensures Clean(scheme + ("://" + netloc + rest)) == scheme + ("://" + netloc + rest)
  {
    var tail := "://" + netloc + rest;
    HttpSchemeLetters(scheme);
    NoUnsafeConcat("://", netloc);
    NoUnsafeConcat("://" + netloc, rest);
    NoUnsafeConcat(scheme, tail);
    CleanPlain(scheme + tail);
  }

  /** Its scheme is recognised and lower-cased. */
  lemma HttpSchemeRecognised(scheme: string, netloc: string, rest: string)
    requires Lower(scheme) == "http" || Lower(scheme) == "https"
    ensures var url := scheme + ("://" + netloc + rest);
      SchemeOf(url) == Lower(scheme) && AfterScheme(url) == "//" + netloc + rest
  {
    var tail := "://" + netloc + rest;
    HttpSchemeLetters(scheme);
    LetterSchemeRecognised(scheme, tail);
    assert tail[1..] == "//" + netloc + rest;
  }

  /** `UrlSplit` put together from its steps. */
  lemma UrlSplitOfParts(url: string, scheme: string, netloc: string, rest: string)
    requires Clean(url) == url
    requires SchemeOf(url) == scheme && AfterScheme(url) == "//" + netloc + rest
    requires SplitNetloc(scheme, "//" + netloc + rest) == Ok(SplitUrl(scheme, netloc, rest))
    ensures UrlSplit(url) == Ok(SplitUrl(scheme, netloc, rest))
  {
  }

  /** A scheme that lower-cases to http or https is made of ASCII letters. */
  lemma HttpSchemeLetters(scheme: string)
    requires Lower(scheme) == "http" || Lower(scheme) == "https"
    ensures scheme != [] && forall k :: 0 <= k < |scheme| ==> IsAsciiAlpha(scheme[k])
  {
    forall k | 0 <= k < |scheme| ensures IsAsciiAlpha(scheme[k]) {
      assert LowerChar(scheme[k]) == Lower(scheme)[k];
    }
  }

  lemma NoUnsafeConcat(a: string, b: string)
    requires forall k :: 0 <= k < |a| ==> !IsUnsafeUrlChar(a[k])
    requires forall k :: 0 <= k < |b| ==> !IsUnsafeUrlChar(b[k])
    ensures forall k :: 0 <= k < |a + b| ==> !IsUnsafeUrlChar((a + b)[k])
  {
  }

  lemma {:induction false} NoUnsafeUnchanged(s: string)
    requires forall k :: 0 <= k < |s| ==> !IsUnsafeUrlChar(s[k])
    ensures RemoveUnsafe(s) == s
  {
    if s != [] {
      NoUnsafeUnchanged(s[1..]);
      assert [s[0]] + s[1..] == s;
    }
  }

  /** A URL whose parsed text contains no ':' has no scheme, so it is refused. */
  lemma NoColonRejected(url: string)
    requires ':' !in Clean(url)
    ensures !IsAcceptedUrl(url)
  {
  }

  /** "https://example.com" is accepted. */
  lemma HttpsExampleAccepted(url: string)
    requires url == "https://example.com"
    ensures IsAcceptedUrl(url)
  {
    HttpsExampleParts(url);
    HttpUrlSplits(url[..5], url[8..], "");
  }

  lemma HttpsExampleParts(url: string)
    requires url == "https://example.com"
    ensures Lower(url[..5]) == "https"
    ensures IsPlainNetloc(url[8..]) && IsPlainRest("")
    ensures url[..5] + "://" + url[8..] + "" == url
  {
    assert url[..5] == "https";
    LowerUnchanged("https");
    assert url[5..8] == "://";
    assert url == url[..5] + url[5..8] + url[8..];
    ExampleHostPlain(url[8..]);
  }

  lemma ExampleHostPlain(host: string)
    requires host == "example.com"
    ensures IsPlainNetloc(host)
  {
  }

  /** Text without a scheme, such as "invalid_url" and "not-a-url", is refused. */
  lemma PlainWordsRejected(url: string)
    requires url == "invalid_url" || url == "not-a-url"
    ensures !IsAcceptedUrl(url)
  {
    PlainWordsChars(url);
    CleanPlain(url);
    NoColonRejected(url);
  }

  lemma PlainWordsChars(url: string)
    requires url == "invalid_url" || url == "not-a-url"
    ensures url != [] && !IsC0ControlOrSpace(url[0])
    ensures forall k :: 0 <= k < |url| ==> !IsUnsafeUrlChar(url[k])
    ensures ':' !in url
  {
  }

  /** A scheme other than http and https, as in "ftp://example.com", is refused. */
  lemma FtpExampleRejected(url: string)
    requires url == "ftp://example.com"
    ensures !IsAcceptedUrl(url)
  {
    FtpExampleChars(url);
    assert url == "ftp" + url[3..];
    LowerUnchanged("ftp");
    LetterSchemeRejected("ftp", url[3..]);
  }

  /** A scheme of ASCII letters other than http and https is refused. */
  lemma LetterSchemeRejected(scheme: string, tail: string)
    requires scheme != [] && forall k :: 0 <= k < |scheme| ==> IsAsciiAlpha(scheme[k])
    requires Lower(scheme) != "http" && Lower(scheme) != "https"
    requires tail != [] && tail[0] == ':'
    requires forall k :: 0 <= k < |scheme + tail| ==> !IsUnsafeUrlChar((scheme + tail)[k])
    ensures !IsAcceptedUrl(scheme + tail)
  {
    CleanPlain(scheme + tail);
    LetterSchemeRecognised(scheme, tail);
    OtherSchemeRejected(scheme + tail);
  }

  lemma FtpExampleChars(url: string)
    requires url == "ftp://example.com"
    ensures url != [] && !IsC0ControlOrSpace(url[0])
    ensures forall k :: 0 <= k < |url| ==> !IsUnsafeUrlChar(url[k])
    ensures url[..3] == "ftp" && url[3] == ':'
  {
  }

  /** Text without upper-case ASCII letters is its own lower case. */
  lemma LowerUnchanged(s: string)
    requires forall k :: 0 <= k < |s| ==> !('A' <= s[k] <= 'Z')
    ensures Lower(s) == s
  {
  }

  /** The scheme decides: a URL whose scheme is neither http nor https is refused. */
  lemma OtherSchemeRejected(url: string)
    requires SchemeOf(Clean(url)) != "http" && SchemeOf(Clean(url)) != "https"
    ensures !IsAcceptedUrl(url)
  {
  }

  /** Text that starts with a visible character and has no tab, CR or LF is
      parsed as it is. */
  lemma CleanPlain(s: string)
    requires s != [] && !IsC0ControlOrSpace(s[0])
    requires forall k :: 0 <= k < |s| ==> !IsUnsafeUrlChar(s[k])
    ensures Clean(s) == s
  {
    NoUnsafeUnchanged(s);
  }
}
