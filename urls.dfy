/**
 * The part of Go's `net/url` that `Execute` relies on: which base URLs
 * `url.Parse` takes apart and gives back unchanged, and how `String()`
 * percent-encodes a path once it has been extended.
 */
module Urls {
  import opened Wire

  const UpperHex: string := "0123456789ABCDEF"

  predicate IsDigit(c: char) {
    '0' <= c <= '9'
  }

  predicate IsAlnum(c: char) {
    'a' <= c <= 'z' || 'A' <= c <= 'Z' || IsDigit(c)
  }

  /** Characters `net/url` leaves as they are in a path: unreserved ones and the reserved ones but `?`. */
  predicate PathChar(c: char) {
    || IsAlnum(c)
    || c == '-' || c == '_' || c == '.' || c == '~'
    || c == '$' || c == '&' || c == '+' || c == ',' || c == '/' || c == ':' || c == ';' || c == '=' || c == '@'
  }

  /** Characters of a host name that need neither brackets nor escaping. */
  predicate HostChar(c: char) {
    IsAlnum(c) || c == '.' || c == '-'
  }

  /** Characters of a scheme that `url.Parse` keeps as written (it lower-cases the scheme). */
  predicate SchemeChar(c: char) {
    'a' <= c <= 'z' || IsDigit(c) || c == '+' || c == '-' || c == '.'
  }

  /** `IndexOf` pinned down by its contract alone: the first occurrence, wherever it is. */
  lemma FirstOccurrence(s: string, c: char, k: nat)
    requires k <= |s|
    requires k < |s| ==> s[k] == c
    requires forall i :: 0 <= i < k ==> s[i] != c
    ensures IndexOf(s, c) == k
  {
  }

  predicate IsHex(c: char) {
    IsDigit(c) || 'A' <= c <= 'F' || 'a' <= c <= 'f'
  }

  function HexValue(c: char): nat
    requires IsHex(c)
  {
    if IsDigit(c) then c as int - '0' as int
    else if 'A' <= c <= 'F' then c as int - 'A' as int + 10
    else c as int - 'a' as int + 10
  }

  /** The index of the first `c` in `s`, or `|s|` when there is none. */
  function IndexOf(s: string, c: char): (k: nat)
    ensures k <= |s|
    ensures k < |s| ==> s[k] == c
    ensures forall i :: 0 <= i < k ==> s[i] != c
  {
    if |s| == 0 || s[0] == c then 0 else 1 + IndexOf(s[1..], c)
  }

  /** A host of letters, digits, dots and hyphens, then an optional `:` and a non-empty decimal port. */
  predicate PlainAuthority(a: string) {
    var p := IndexOf(a, ':');
    && 0 < p
    && (forall i :: 0 <= i < p ==> HostChar(a[i]))
    && (p < |a| ==> p + 1 < |a| && forall i :: p < i < |a| ==> IsDigit(a[i]))
  }

  /** A non-empty lower-case scheme starting with a letter. */
  predicate PlainScheme(s: string) {
    |s| > 0 && 'a' <= s[0] <= 'z' && forall i :: 0 <= i < |s| ==> SchemeChar(s[i])
  }

  /** A path made only of characters that are never escaped. */
  predicate PlainPath(p: string) {
    forall i :: 0 <= i < |p| ==> PathChar(p[i])
  }

  /** What follows `scheme://`: a plain authority up to the first `/`, then a plain path. */
  predicate PlainTail(t: string) {
    var j := IndexOf(t, '/');
    PlainAuthority(t[..j]) && PlainPath(t[j..])
  }

  /**
   * A base URL `scheme://authority/path` that `url.Parse` accepts and that
   * `String()` writes back character for character: a lower-case scheme, a
   * plain authority, and a path made only of characters that are never
   * escaped (so no query, fragment or escape; user info and IPv6 literals,
   * which Go keeps as written, are left out of the grammar for simplicity).
   */
  predicate PlainUrl(u: string) {
    var k := IndexOf(u, ':');
    && k + 3 <= |u|
    && PlainScheme(u[..k])
    && u[k..k + 3] == "://"
    && PlainTail(u[k + 3..])
  }

  /** A host followed by an optional `:port` is a plain authority, and it holds no `/`. */
  lemma {:induction false} AuthorityOfHostAndPort(host: string, port: string)
    requires |host| > 0 && forall i :: 0 <= i < |host| ==> HostChar(host[i])
    requires forall i :: 0 <= i < |port| ==> IsDigit(port[i])
    ensures var a := host + (if port == "" then "" else ":" + port);
      PlainAuthority(a) && forall i :: 0 <= i < |a| ==> a[i] != '/'
  {
    var a := host + (if port == "" then "" else ":" + port);
    FirstOccurrence(a, ':', |host|);
    if port != "" {
      assert forall i :: |host| < i < |a| ==> a[i] == port[i - |host| - 1];
    }
  }

  /** `scheme://authority/path` with plain parts is a plain URL. */
  lemma {:induction false} JoinedUrlIsPlain(scheme: string, authority: string, path: string)
    requires PlainScheme(scheme)
    requires PlainAuthority(authority) && forall i :: 0 <= i < |authority| ==> authority[i] != '/'
    requires path == [] || path[0] == '/'
    requires PlainPath(path)
    ensures PlainUrl(scheme + "://" + authority + path)
  {
    var tail := authority + path;
    FirstOccurrence(tail, '/', |authority|);
    assert tail[..|authority|] == authority;
    assert tail[|authority|..] == path;
    assert PlainTail(tail);
    var u := scheme + "://" + authority + path;
    assert u == scheme + ("://" + tail);
    FirstOccurrence(u, ':', |scheme|);
    assert u[..|scheme|] == scheme;
    assert u[|scheme|..|scheme| + 3] == "://";
    assert u[|scheme| + 3..] == tail;
  }

  /** A URL assembled from a plain scheme, host, optional port and path is plain. */
  lemma AssembledUrlIsPlain(scheme: string, host: string, port: string, path: string, u: string)
    requires PlainScheme(scheme)
    requires |host| > 0 && forall i :: 0 <= i < |host| ==> HostChar(host[i])
    requires forall i :: 0 <= i < |port| ==> IsDigit(port[i])
    requires path == [] || path[0] == '/'
    requires PlainPath(path)
    requires u == scheme + "://" + (host + (if port == "" then "" else ":" + port)) + path
    ensures PlainUrl(u)
  {
    AuthorityOfHostAndPort(host, port);
    JoinedUrlIsPlain(scheme, host + (if port == "" then "" else ":" + port), path);
  }

  /** Nothing in a plain URL is ever escaped: every character of it is a path character. */
  lemma {:induction false} PlainUrlHasOnlyPathChars(u: string)
    requires PlainUrl(u)
    ensures forall i :: 0 <= i < |u| ==> PathChar(u[i])
  {
    var k := IndexOf(u, ':');
    var t := u[k + 3..];
    var j := IndexOf(t, '/');
    var a := t[..j];
    var p := IndexOf(a, ':');
    assert forall i :: 0 <= i < |a| ==> PathChar(a[i]) by {
      forall i | 0 <= i < |a| ensures PathChar(a[i]) {
        if i < p { assert HostChar(a[i]); } else if i > p { assert IsDigit(a[i]); }
      }
    }
    assert forall i :: 0 <= i < |t| ==> PathChar(t[i]) by {
      forall i | 0 <= i < |t| ensures PathChar(t[i]) {
        if i < j { assert t[i] == a[i]; } else { assert t[i] == t[j..][i - j]; }
      }
    }
    forall i | 0 <= i < |u| ensures PathChar(u[i]) {
      if i < k { assert u[i] == u[..k][i]; }
      else if i >= k + 3 { assert u[i] == t[i - k - 3]; }
    }
  }

  /** `url.Parse` lower-cases the scheme, so a URL starting with an upper-case letter is not plain. */
  lemma UpperCaseSchemeIsNotPlain(u: string)
    requires |u| > 0 && 'A' <= u[0] <= 'Z'
    ensures !PlainUrl(u)
  {
    var k := IndexOf(u, ':');
    if k > 0 && k <= |u| {
      assert u[..k][0] == u[0];
    }
  }

  /** A port that is not all digits, which `url.Parse` rejects, makes the authority not plain. */
  lemma {:induction false} NonNumericPortIsNotPlain(host: string, port: string, i: nat)
    requires forall n :: 0 <= n < |host| ==> host[n] != ':'
    requires i < |port| && !IsDigit(port[i])
    ensures !PlainAuthority(host + ":" + port)
  {
    var a := host + ":" + port;
    FirstOccurrence(a, ':', |host|);
    assert a[|host| + 1 + i] == port[i];
  }

  /** The UTF-8 encoding of one character. */
  function Utf8(c: char): (bs: Bytes)
    ensures 1 <= |bs| <= 4
    ensures c as int < 0x80 <==> |bs| == 1
    ensures c as int < 0x80 ==> bs == [c as int as byte]
  {
    var n := c as int;
    if n < 0x80 then [n as byte]
    else if n < 0x800 then [(0xC0 + n / 0x40) as byte, (0x80 + n % 0x40) as byte]
    else if n < 0x1_0000 then
      [(0xE0 + n / 0x1000) as byte, (0x80 + n / 0x40 % 0x40) as byte, (0x80 + n % 0x40) as byte]
    else
      [(0xF0 + n / 0x4_0000 % 8) as byte, (0x80 + n / 0x1000 % 0x40) as byte,
       (0x80 + n / 0x40 % 0x40) as byte, (0x80 + n % 0x40) as byte]
  }

  /** Each byte as `%` and two upper-case hexadecimal digits. */
  function PercentEncode(bs: Bytes): (r: string)
    ensures |r| == 3 * |bs|
    ensures forall i :: 0 <= i < |r| ==> r[i] == '%' || IsHex(r[i])
  {
    if bs == [] then []
    else ['%', UpperHex[bs[0] as int / 16], UpperHex[bs[0] as int % 16]] + PercentEncode(bs[1..])
  }

  /** One character of a path as `String()` writes it. */
  function EscapeChar(c: char): (r: string)
    ensures PathChar(c) ==> r == [c]
    ensures !PathChar(c) ==> r == PercentEncode(Utf8(c))
  {
    if PathChar(c) then [c] else PercentEncode(Utf8(c))
  }

  /**
   * A path as `String()` writes it: every byte of a character outside
   * `PathChar` becomes a `%XX` escape, so the result holds only path
   * characters and escapes, never a `?` or `#` that would end the path.
   */
  function EscapePath(s: string): (r: string)
    ensures |r| >= |s|
    ensures forall i :: 0 <= i < |r| ==> PathChar(r[i]) || r[i] == '%'
  {
    if s == [] then [] else EscapeChar(s[0]) + EscapePath(s[1..])
  }

  /** Decodes `%XX` escapes of single bytes; any other character stands for itself. */
  function Unescape(s: string): string {
    if |s| == 0 then []
    else if |s| >= 3 && s[0] == '%' && IsHex(s[1]) && IsHex(s[2]) then
      [(HexValue(s[1]) * 16 + HexValue(s[2])) as char] + Unescape(s[3..])
    else [s[0]] + Unescape(s[1..])
  }

  /** Escaping works character by character: it distributes over concatenation. */
  lemma {:induction false} EscapeAppend(a: string, b: string)
    ensures EscapePath(a + b) == EscapePath(a) + EscapePath(b)
  {
    if a == [] {
      assert a + b == b;
    } else {
      assert (a + b)[0] == a[0];
      assert (a + b)[1..] == a[1..] + b;
      EscapeAppend(a[1..], b);
    }
  }

  /** A path made only of path characters is written back unchanged. */
  lemma {:induction false} EscapeKeepsPathChars(s: string)
    requires forall i :: 0 <= i < |s| ==> PathChar(s[i])
    ensures EscapePath(s) == s
  {
    if s != [] {
      EscapeKeepsPathChars(s[1..]);
    }
  }

  lemma HexDigitRoundTrip(k: nat)
    requires k < 16
    ensures IsHex(UpperHex[k]) && HexValue(UpperHex[k]) == k
  {
  }

  /** Decoding an escaped character, followed by anything, gives that character back first. */
  lemma {:induction false} UnescapeEscapedChar(c: char, t: string)
    requires c as int < 0x80
    ensures Unescape(EscapeChar(c) + t) == [c] + Unescape(t)
  {
    if PathChar(c) {
      assert ([c] + t)[1..] == t;
    } else {
      var n := c as int;
      HexDigitRoundTrip(n / 16);
      HexDigitRoundTrip(n % 16);
      var e := EscapeChar(c) + t;
      assert e == ['%', UpperHex[n / 16], UpperHex[n % 16]] + t;
      assert e[3..] == t;
    }
  }

  /** For ASCII text, decoding undoes `EscapePath`: a server reading the path sees the original. */
  lemma {:induction false} UnescapeInvertsEscape(s: string)
    requires forall i :: 0 <= i < |s| ==> s[i] as int < 0x80
    ensures Unescape(EscapePath(s)) == s
  {
    if s != [] {
      UnescapeEscapedChar(s[0], EscapePath(s[1..]));
      UnescapeInvertsEscape(s[1..]);
    }
  }
}
