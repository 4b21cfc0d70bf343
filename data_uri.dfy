/**
 * The `data:` URL pattern the proxy matches image URLs against: a data URL
 * in the sense of section 3 of RFC 2397, restricted to the base64 form,
 * `data:<mime>;base64,<payload>`.
 *
 * The pattern is anchored at the start only. The media type is a non-empty
 * run of word characters, `/`, `-` and `.`, and the payload is everything up
 * to the first line feed (the pattern's `.` does not match a line feed).
 */
module DataUri {
  import opened Wrappers

  const SCHEME := "data:"
  const MARKER := ";base64,"

  /** One character of the media-type class: a word character, `/`, `-` or `.`. */
  predicate IsMimeChar(c: char) {
    ('a' <= c <= 'z') || ('A' <= c <= 'Z') || ('0' <= c <= '9') || c == '_' || c == '/' || c == '-' || c == '.'
  }

  predicate ValidMime(m: string) {
    |m| > 0 && forall i :: 0 <= i < |m| ==> IsMimeChar(m[i])
  }

  predicate StartsWith(s: string, prefix: string) {
    |prefix| <= |s| && s[..|prefix|] == prefix
  }

  /** The length of the longest prefix of `s` made of media-type characters. */
  function MimeRun(s: string): (n: nat)
    ensures n <= |s|
    ensures forall i :: 0 <= i < n ==> IsMimeChar(s[i])
    ensures n < |s| ==> !IsMimeChar(s[n])
  {
    if s == [] || !IsMimeChar(s[0]) then 0 else 1 + MimeRun(s[1..])
  }

  /** The prefix of `s` before its first line feed, all of `s` when there is none. */
  function Line(s: string): (r: string)
    ensures StartsWith(s, r)
    ensures '\n' !in r
    ensures |r| < |s| ==> s[|r|] == '\n'
  {
    if s == [] || s[0] == '\n' then [] else [s[0]] + Line(s[1..])
  }

  /**
   * The media type and the payload of `url`, or `None` when `url` does not
   * match the pattern. A match always has a valid media type and a payload
   * without line feeds, and `url` starts with the pieces put back together.
   */
  function ParseDataUri(url: string): (r: Option<(string, string)>)
    ensures r.Some? ==> ValidMime(r.value.0) && '\n' !in r.value.1
    ensures r.Some? ==> StartsWith(url, SCHEME + r.value.0 + MARKER + r.value.1)
  {
    if !StartsWith(url, SCHEME) then None
    else
      var tail := url[|SCHEME|..];
      var r := ParseAfterScheme(tail);
      if r.None? then None
      else
        PrefixExtends(url, SCHEME, r.value.0, MARKER, r.value.1);
        r
  }

  /** A text that starts with `front` and goes on with `a + b + c` starts with all four together. */
  lemma PrefixExtends(s: string, front: string, a: string, b: string, c: string)
    requires StartsWith(s, front) && StartsWith(s[|front|..], a + b + c)
    ensures StartsWith(s, front + a + b + c)
  {
    var n := |front + a + b + c|;
    assert s[..n] == front + s[|front|..][..|a + b + c|];
    assert front + (a + b + c) == front + a + b + c;
  }

  /** The match of the pattern's part after `data:`. */
  function ParseAfterScheme(rest: string): (r: Option<(string, string)>)
    ensures r.Some? ==> ValidMime(r.value.0) && '\n' !in r.value.1
    ensures r.Some? ==> StartsWith(rest, r.value.0 + MARKER + r.value.1)
  {
    var n := MimeRun(rest);
    if n == 0 || !StartsWith(rest[n..], MARKER) then None
    else
      var payload := Line(rest[n + |MARKER|..]);
      assert rest == rest[..n] + MARKER + rest[n + |MARKER|..];
      Some((rest[..n], payload))
  }

  lemma {:induction false} MimeRunOf(m: string, rest: string)
    requires forall i :: 0 <= i < |m| ==> IsMimeChar(m[i])
    requires rest != [] && !IsMimeChar(rest[0])
    ensures MimeRun(m + rest) == |m|
    decreases |m|
  {
    if m != [] {
      assert (m + rest)[1..] == m[1..] + rest;
      MimeRunOf(m[1..], rest);
    }
  }

  lemma {:induction false} LineOf(payload: string, rest: string)
    requires '\n' !in payload
    requires rest == [] || rest[0] == '\n'
    ensures Line(payload + rest) == payload
    decreases |payload|
  {
    if payload != [] {
      assert (payload + rest)[1..] == payload[1..] + rest;
      LineOf(payload[1..], rest);
    } else {
      assert payload + rest == rest;
    }
  }

  /**
   * Every URL built from a valid media type and a payload without line feeds
   * matches, and gives back exactly those two pieces, whatever follows a line feed.
   */
  lemma ParseComposed(mime: string, payload: string, rest: string)
    requires ValidMime(mime) && '\n' !in payload
    requires rest == [] || rest[0] == '\n'
    ensures ParseDataUri(SCHEME + mime + MARKER + payload + rest) == Some((mime, payload))
  {
    var url := SCHEME + mime + MARKER + payload + rest;
    assert StartsWith(url, SCHEME);
    assert url[|SCHEME|..] == mime + MARKER + payload + rest;
    AfterSchemeComposed(mime, payload, rest);
  }

  lemma AfterSchemeComposed(mime: string, payload: string, rest: string)
    requires ValidMime(mime) && '\n' !in payload
    requires rest == [] || rest[0] == '\n'
    ensures ParseAfterScheme(mime + MARKER + payload + rest) == Some((mime, payload))
  {
    var after := mime + MARKER + payload + rest;
    assert after == mime + (MARKER + payload + rest);
    MimeRunOf(mime, MARKER + payload + rest);
    assert after[..|mime|] == mime;
    assert after[|mime|..] == MARKER + payload + rest;
    assert StartsWith(after[|mime|..], MARKER);
    assert after[|mime| + |MARKER|..] == payload + rest;
    LineOf(payload, rest);
  }

  /** A URL whose media type is not followed by the `;base64,` marker does not match. */
  lemma MarkerRequired(mime: string, tail: string)
    requires ValidMime(mime)
    requires !StartsWith(tail, MARKER) && (tail == [] || !IsMimeChar(tail[0]))
    ensures ParseDataUri(SCHEME + mime + tail) == None
  {
    var url := SCHEME + mime + tail;
    var after := url[|SCHEME|..];
    assert after == mime + tail;
    if tail == [] {
      assert MimeRun(mime + tail) == |mime| by {
        assert mime + tail == mime;
        NoStopRun(mime);
      }
    } else {
      MimeRunOf(mime, tail);
    }
    assert after[|mime|..] == tail;
  }

  lemma {:induction false} NoStopRun(m: string)
    requires forall i :: 0 <= i < |m| ==> IsMimeChar(m[i])
    ensures MimeRun(m) == |m|
    decreases |m|
  {
    if m != [] {
      NoStopRun(m[1..]);
    }
  }
}
