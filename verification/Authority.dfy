/** Canonical Keystone authorities (internal/openstack/client/credential.go:71-89).

    `ParseURL` keeps the part of Go's `url.Parse` that `NormalizeAuthority` can accept: whatever
    it rejects is rejected there too, either by the parser or by the checks that follow it.
    URLs are ASCII (RFC 3986); a host has no percent-encoding and, unless it is a bracketed IP
    literal, no colon but the one before its port (section 3.2.2 of RFC 3986). */
module Authority {
  import opened Results
  import opened GoStrings

  // ---------- percent-encoding of paths ----------

  predicate IsAlnum(c: char) {
    'a' <= c <= 'z' || 'A' <= c <= 'Z' || '0' <= c <= '9'
  }

  /** Characters Go writes unescaped in a path. */
  predicate PlainInPath(c: char) {
    IsAlnum(c) || c in {'-', '_', '.', '~', '$', '&', '+', ',', '/', ':', ';', '=', '@'}
  }

  /** Characters Go keeps when it finds them in an already encoded path. */
  predicate KeptInPath(c: char) {
    PlainInPath(c) || c in {'!', '\'', '(', ')', '*', '[', ']', '%'}
  }

  function HexDigit(n: nat): char
    requires n < 16
  {
    "0123456789ABCDEF"[n]
  }

  function HexValue(c: char): (v: Option<nat>)
    ensures v.Some? ==> v.value < 16
  {
    if '0' <= c <= '9' then Some(c as int - '0' as int)
    else if 'A' <= c <= 'F' then Some(c as int - 'A' as int + 10)
    else if 'a' <= c <= 'f' then Some(c as int - 'a' as int + 10)
    else None
  }

  lemma HexRoundTrip(n: nat)
    requires n < 16
    ensures HexValue(HexDigit(n)) == Some(n) && IsAlnum(HexDigit(n))
  {
  }

  function Byte(hi: nat, lo: nat): (c: char)
    requires hi < 16 && lo < 16
    ensures IsByte(c)
  {
    (16 * hi + lo) as char
  }

  predicate IsByte(c: char) {
    c as int < 256
  }

  predicate Bytes(s: string) {
    forall c :: c in s ==> IsByte(c)
  }

  /** Percent-decoding; a broken escape has no value. */
  function Unescape(s: string): (r: Option<string>)
    ensures r.Some? && s != "" && s[0] == '/' ==> r.value != "" && r.value[0] == '/'
    ensures s == "" ==> r == Some("")
  {
    if s == "" then Some("")
    else if s[0] == '%' then
      if |s| < 3 then None
      else
        match (HexValue(s[1]), HexValue(s[2]), Unescape(s[3..]))
        case (Some(hi), Some(lo), Some(rest)) => Some([Byte(hi, lo)] + rest)
        case _ => None
    else
      match Unescape(s[1..])
      case Some(rest) => Some([s[0]] + rest)
      case None => None
  }

  lemma {:induction false} UnescapeBytes(s: string)
    requires Bytes(s) && Unescape(s).Some?
    ensures Bytes(Unescape(s).value)
    decreases |s|
  {
    if s != "" {
      var n := if s[0] == '%' then 3 else 1;
      UnescapeBytes(s[n..]);
    }
  }

  function EscapeChar(c: char): (e: string)
    requires IsByte(c)
    ensures forall x :: x in e ==> KeptInPath(x)
    ensures Bytes(e)
  {
    if PlainInPath(c) then [c]
    else
      HexRoundTrip(c as int / 16);
      HexRoundTrip(c as int % 16);
      ['%', HexDigit(c as int / 16), HexDigit(c as int % 16)]
  }

  function Escape(s: string): (e: string)
    requires Bytes(s)
    ensures Bytes(e) && forall c :: c in e ==> KeptInPath(c)
  {
    if s == "" then "" else EscapeChar(s[0]) + Escape(s[1..])
  }

  lemma UnescapeOneChar(c: char, rest: string)
    requires IsByte(c)
    ensures Unescape(EscapeChar(c) + rest) == match Unescape(rest)
      case Some(r) => Some([c] + r)
      case None => None
  {
    var e := EscapeChar(c) + rest;
    assert e[|EscapeChar(c)|..] == rest;
    if !PlainInPath(c) {
      HexRoundTrip(c as int / 16);
      HexRoundTrip(c as int % 16);
      assert Byte(c as int / 16, c as int % 16) == c;
    }
  }

  lemma {:induction false} UnescapeAfterEscape(s: string)
    requires Bytes(s)
    ensures Unescape(Escape(s)) == Some(s)
  {
    if s != "" {
      UnescapeAfterEscape(s[1..]);
      UnescapeOneChar(s[0], Escape(s[1..]));
      assert [s[0]] + s[1..] == s;
    }
  }

  /** Go's EscapedPath: the original spelling when it is a valid encoding of the path. */
  function EscapedPath(path: string, rawPath: string): string
    requires Bytes(path) && Bytes(rawPath)
  {
    if rawPath != "" && (forall c :: c in rawPath ==> KeptInPath(c)) && Unescape(rawPath) == Some(path)
    then rawPath
    else Escape(path)
  }

  // ---------- hosts ----------

  predicate HostChar(c: char) {
    || IsAlnum(c)
    || c in {'-', '_', '.', '~', '!', '$', '&', '\'', '(', ')', '*', '+', ',', ';', '=', ']', '<', '>', '"'}
  }

  predicate IPLiteralChar(c: char) {
    '0' <= c <= '9' || 'a' <= c <= 'f' || 'A' <= c <= 'F' || c == ':' || c == '.'
  }

  predicate IsPort(p: string) {
    forall k :: 0 <= k < |p| ==> '0' <= p[k] <= '9'
  }

  predicate IsRegName(h: string) {
    h != "" && forall k :: 0 <= k < |h| ==> HostChar(h[k])
  }

  predicate IsIPLiteral(h: string) {
    |h| >= 3 && h[0] == '[' && h[|h| - 1] == ']' && forall k :: 0 < k < |h| - 1 ==> IPLiteralChar(h[k])
  }

  /** A host without port: a colon-free reg-name, or a bracketed IP literal. */
  predicate IsHostname(h: string) {
    IsRegName(h) || IsIPLiteral(h)
  }

  datatype HostPort = HostPort(hostname: string, hasPort: bool, port: string) {
    predicate Valid() {
      IsHostname(hostname) && IsPort(port) && (!hasPort ==> port == "")
    }

    function Text(): string {
      if hasPort then hostname + ":" + port else hostname
    }
  }

  /** Where the port's colon is, if there is one: after the bracket, or the first colon. */
  function PortColon(text: string): (i: nat)
    ensures i <= |text|
    ensures i < |text| ==> text[i] == ':'
  {
    if text != "" && text[0] == '[' then
      var b := Index(text, ']');
      if b + 1 < |text| && text[b + 1] == ':' then b + 1 else |text|
    else Index(text, ':')
  }

  function ParseHost(text: string): (r: Option<HostPort>)
    ensures r.Some? ==> r.value.Valid() && r.value.Text() == text
  {
    var i := PortColon(text);
    var hp := if i < |text| then HostPort(text[..i], true, text[i + 1..]) else HostPort(text, false, "");
    assert i < |text| ==> text == text[..i] + ":" + text[i + 1..];
    if hp.Valid() then Some(hp) else None
  }

  /** Hosts written by `Text` are read back. */
  lemma ParseHostAfterText(hp: HostPort)
    requires hp.Valid()
    ensures ParseHost(hp.Text()) == Some(hp)
  {
    var h, text := hp.hostname, hp.Text();
    PortColonAfterText(hp);
    assert hp.hasPort ==> text[..|h|] == h && text[|h| + 1..] == hp.port;
  }

  lemma PortColonAfterText(hp: HostPort)
    requires hp.Valid()
    ensures PortColon(hp.Text()) == |hp.hostname|
  {
    var h, text := hp.hostname, hp.Text();
    assert forall k :: 0 <= k < |h| ==> text[k] == h[k];
    if IsIPLiteral(h) {
      IndexIs(text, ']', |h| - 1);
    } else {
      IndexIs(text, ':', |h|);
    }
  }

  function LowerHost(hp: HostPort): HostPort {
    hp.(hostname := ToLower(hp.hostname))
  }

  function DefaultPort(scheme: string): string {
    if scheme == "http" then "80" else "443"
  }

  /** Lower-case the host and drop the scheme's default port. */
  function CanonicalHost(scheme: string, hp: HostPort): HostPort {
    if hp.port == DefaultPort(scheme) then HostPort(ToLower(hp.hostname), false, "") else LowerHost(hp)
  }

  lemma LowerKeepsChars(c: char)
    ensures HostChar(c) ==> HostChar(LowerChar(c))
    ensures IPLiteralChar(c) ==> IPLiteralChar(LowerChar(c))
    ensures LowerChar(LowerChar(c)) == LowerChar(c)
    ensures c == '[' || c == ']' ==> LowerChar(c) == c
  {
  }

  lemma LowerKeepsHostname(h: string)
    requires IsHostname(h)
    ensures IsHostname(ToLower(h)) && ToLower(ToLower(h)) == ToLower(h)
  {
    hide HostChar, IPLiteralChar, LowerChar;
    var t := ToLower(h);
    forall k | 0 <= k < |h|
      ensures HostChar(h[k]) ==> HostChar(t[k])
      ensures IPLiteralChar(h[k]) ==> IPLiteralChar(t[k])
      ensures ToLower(t)[k] == t[k]
      ensures h[k] == '[' || h[k] == ']' ==> t[k] == h[k]
    {
      LowerKeepsChars(h[k]);
    }
    assert ToLower(t) == t;
  }

  // ---------- URLs ----------

  datatype URL = URL(scheme: string, host: HostPort, path: string, rawPath: string) {
    predicate Valid() {
      (scheme == "http" || scheme == "https") && host.Valid() && Bytes(path) && Bytes(rawPath)
    }
  }

  predicate PrintableASCII(s: string) {
    forall c :: c in s ==> ' ' <= c <= '~'
  }

  function SetPath(scheme: string, host: HostPort, text: string): (u: Option<URL>)
    ensures u.Some? ==> u.value.scheme == scheme && u.value.host == host
    ensures u.Some? ==> Bytes(u.value.path) && Bytes(u.value.rawPath)
  {
    if !PrintableASCII(text) then None
    else
      match Unescape(text)
      case None => None
      case Some(path) =>
        UnescapeBytes(text);
        Some(URL(scheme, host, path, if text == Escape(path) then "" else text))
  }

  /** Everything after `scheme:`: the authority up to the first slash, then the path. */
  function ParseRest(scheme: string, rest: string): (u: Option<URL>)
    ensures u.Some? ==> u.value.scheme == scheme && u.value.host.Valid() && Bytes(u.value.path) && Bytes(u.value.rawPath)
  {
    if !HasPrefix(rest, "//") then None
    else
      var text := rest[2..];
      var slash := Index(text, '/');
      match ParseHost(text[..slash])
      case None => None
      case Some(host) => SetPath(scheme, host, text[slash..])
  }

  predicate NoQuery(s: string) {
    forall k :: 0 <= k < |s| ==> s[k] != '#' && s[k] != '?'
  }

  /** Drops an empty fragment; a query, a fragment or another scheme is not accepted. */
  function ParseURL(s: string): (u: Option<URL>)
    ensures u.Some? ==> u.value.Valid()
  {
    var t := TrimSuffix(s, "#");
    var colon := Index(t, ':');
    if !NoQuery(t) || colon == |t| then None
    else
      var scheme := ToLower(t[..colon]);
      if scheme == "http" || scheme == "https" then ParseRest(scheme, t[colon + 1..]) else None
  }

  /** Go's URL.String for the URLs `ParseURL` returns. */
  function Render(u: URL): string
    requires u.Valid()
  {
    u.scheme + "://" + u.host.Text() + EscapedPath(u.path, u.rawPath)
  }

  function Canonical(u: URL): (v: URL)
    requires u.Valid()
    ensures v.Valid()
  {
    LowerKeepsHostname(u.host.hostname);
    URL(u.scheme, CanonicalHost(u.scheme, u.host), TrimRight(u.path, '/'), TrimRight(u.rawPath, '/'))
  }

  function NormalizeAuthority(value: string): Result<string, string> {
    if TrimSpace(value) == "" then Err("authentication URL is empty")
    else
      match ParseURL(value)
      case None => Err("authentication URL must be an absolute HTTP or HTTPS URL without user information, query or fragment")
      case Some(u) => Ok(Render(Canonical(u)))
  }

  /** A parsed URL, edited in place as NormalizeAuthority does. */
  class ParsedURL {
    const scheme: string
    var host: HostPort
    var path: string
    var rawPath: string

    constructor (u: URL)
      ensures Value() == u
    {
      scheme, host, path, rawPath := u.scheme, u.host, u.path, u.rawPath;
    }

    function Value(): URL
      reads this
    {
      URL(scheme, host, path, rawPath)
    }

    method Normalize()
      requires Value().Valid()
      modifies this
      ensures Value() == Canonical(old(Value()))
    {
      host := LowerHost(host);
      if host.port == DefaultPort(scheme) {
        host := HostPort(host.hostname, false, "");
      }
      path := TrimRight(path, '/');
      rawPath := TrimRight(rawPath, '/');
    }
  }

  method NormalizeInPlace(value: string) returns (r: Result<string, string>)
    ensures r == NormalizeAuthority(value)
  {
    if TrimSpace(value) == "" {
      return Err("authentication URL is empty");
    }
    var parsed := ParseURL(value);
    if parsed.None? {
      return Err("authentication URL must be an absolute HTTP or HTTPS URL without user information, query or fragment");
    }
    var url := new ParsedURL(parsed.value);
    url.Normalize();
    r := Ok(Render(url.Value()));
  }

  // ---------- normalisation ----------

  lemma HostTextChars(hp: HostPort)
    requires hp.Valid()
    ensures hp.Text() != "" && NoQuery(hp.Text())
    ensures forall k :: 0 <= k < |hp.Text()| ==> hp.Text()[k] != '/'
  {
    var h := hp.hostname;
    assert NoQuery(h) && forall k :: 0 <= k < |h| ==> h[k] != '/';
  }

  lemma PathTextChars(p: string)
    requires forall c :: c in p ==> KeptInPath(c)
    ensures NoQuery(p) && PrintableASCII(p)
  {
    assert forall k :: 0 <= k < |p| ==> p[k] in p;
  }

  /** A path text as it stands in a URL: empty or absolute, in characters Go keeps. */
  predicate IsPathText(p: string) {
    (p == "" || p[0] == '/') && forall c :: c in p ==> KeptInPath(c)
  }

  lemma TextJoins(h: string, p: string)
    ensures (h + p)[..|h|] == h && (h + p)[|h|..] == p && |h + p| == |h| + |p|
    ensures forall k :: 0 <= k < |h| ==> (h + p)[k] == h[k]
    ensures p != "" ==> (h + p)[|h|] == p[0]
  {
  }

  /** The authority ends at the first slash. */
  lemma AuthorityEnds(h: string, p: string)
    requires (forall k :: 0 <= k < |h| ==> h[k] != '/') && (p == "" || p[0] == '/')
    ensures ("//" + h + p)[2..] == h + p && HasPrefix("//" + h + p, "//")
    ensures Index(h + p, '/') == |h| && (h + p)[..|h|] == h && (h + p)[|h|..] == p
  {
    hide Index;
    TextJoins(h, p);
    TextJoins("//", h + p);
    assert "//" + h + p == "//" + (h + p);
    IndexIs(h + p, '/', |h|);
  }

  lemma ParseRestAfterText(scheme: string, host: HostPort, p: string)
    requires host.Valid() && IsPathText(p)
    ensures ParseRest(scheme, "//" + host.Text() + p) == SetPath(scheme, host, p)
  {
    hide Index, SetPath, ParseHost, KeptInPath, HasPrefix, IsHostname;
    HostTextChars(host);
    AuthorityEnds(host.Text(), p);
    ParseHostAfterText(host);
  }

  /** Reading a URL in its canonical layout recovers the scheme, the host and the path text. */
  lemma ParseAfterRender(scheme: string, host: HostPort, p: string)
    requires (scheme == "http" || scheme == "https") && host.Valid() && IsPathText(p)
    ensures ParseURL(scheme + "://" + host.Text() + p) == SetPath(scheme, host, p)
  {
    var rest := "//" + host.Text() + p;
    HostTextChars(host);
    PathTextChars(p);
    assert NoQuery(rest);
    assert scheme + "://" + host.Text() + p == scheme + ":" + rest;
    ParseScheme(scheme, rest);
    ParseRestAfterText(scheme, host, p);
  }

  lemma ParseScheme(scheme: string, rest: string)
    requires (scheme == "http" || scheme == "https") && rest != "" && NoQuery(rest)
    ensures ParseURL(scheme + ":" + rest) == ParseRest(scheme, rest)
  {
    hide HasSuffix, Index, ToLower, ParseRest;
    var s := scheme + [':'] + rest;
    assert scheme + ":" + rest == s;
    CutAt(scheme, ':', rest);
    assert NoQuery(s);
    NotSuffixed(s, '#');
    assert ['#'] == "#";
    IndexIs(s, ':', |scheme|);
    LowerKeepsScheme(scheme);
  }

  lemma LowerKeepsScheme(scheme: string)
    requires scheme == "http" || scheme == "https"
    ensures ToLower(scheme) == scheme
  {
  }

  lemma PathTextOf(path: string, rawPath: string)
    requires Bytes(path) && Bytes(rawPath)
    requires path == "" || path[0] == '/'
    requires rawPath == "" || rawPath[0] == '/'
    ensures IsPathText(EscapedPath(path, rawPath))
    ensures Unescape(EscapedPath(path, rawPath)) == Some(path)
  {
    UnescapeAfterEscape(path);
  }

  /** Writing a URL whose path has no trailing slash and reading it back keeps its canonical form. */
  lemma RenderRoundTrip(u: URL)
    requires u.Valid()
    requires u.path == "" || (u.path[0] == '/' && u.path[|u.path| - 1] != '/')
    requires u.rawPath == "" || (u.rawPath[0] == '/' && u.rawPath[|u.rawPath| - 1] != '/')
    ensures var p := EscapedPath(u.path, u.rawPath);
      ParseURL(Render(u)) == Some(URL(u.scheme, u.host, u.path, if p == Escape(u.path) then "" else p))
      && (p == Escape(u.path) || p == u.rawPath)
  {
    var p := EscapedPath(u.path, u.rawPath);
    PathTextOf(u.path, u.rawPath);
    ParseAfterRender(u.scheme, u.host, p);
    PathTextChars(p);
  }

  /** Parsed paths and their spellings are empty or absolute. */
  lemma ParsedPathsAreAbsolute(s: string)
    requires ParseURL(s).Some?
    ensures var u := ParseURL(s).value;
      (u.path == "" || u.path[0] == '/') && (u.rawPath == "" || u.rawPath[0] == '/')
  {
    var t := TrimSuffix(s, "#");
    var text := t[Index(t, ':') + 1..][2..];
    var p := text[Index(text, '/')..];
    assert p == "" || p[0] == '/';
  }

  lemma TrimRightFixed(s: string, c: char)
    requires s == "" || s[|s| - 1] != c
    ensures TrimRight(s, c) == s
  {
  }

  lemma NotBlank(s: string)
    requires s != "" && s[0] == 'h'
    ensures TrimSpace(s) != ""
  {
  }

  /** Normalising is idempotent: a canonical authority is its own normal form. */
  lemma NormalizeIsIdempotent(value: string)
    requires NormalizeAuthority(value).Ok?
    ensures NormalizeAuthority(NormalizeAuthority(value).value) == NormalizeAuthority(value)
  {
    var v := Canonical(ParseURL(value).value);
    ParsedPathsAreAbsolute(value);
    RenderRoundTrip(v);
    CanonicalTwice(ParseURL(value).value, ParseURL(Render(v)).value);
    NotBlank(Render(v));
  }

  lemma CanonicalTwice(u: URL, w: URL)
    requires u.Valid() && w.Valid()
    requires w.scheme == u.scheme && w.host == Canonical(u).host && w.path == Canonical(u).path
    requires w.rawPath == "" || w.rawPath == Canonical(u).rawPath
    ensures Canonical(w) == w
  {
    LowerKeepsHostname(u.host.hostname);
    TrimRightFixed(w.path, '/');
    TrimRightFixed(w.rawPath, '/');
  }

  // ---------- what normalising ignores ----------

  lemma EscapeSlash(p: string)
    requires Bytes(p) && Unescape(p).Some?
    ensures Bytes(Unescape(p).value)
    ensures Bytes(p + "/") && Unescape(p + "/") == Some(Unescape(p).value + "/")
    ensures p + "/" == Escape(Unescape(p).value + "/") <==> p == Escape(Unescape(p).value)
  {
    var path := Unescape(p).value;
    UnescapeHead("/", 1);
    var slash := "/";
    assert slash[1..] == "" && ['/'] + "" == slash;
    assert Unescape(slash) == Some(slash);
    assert EscapeChar('/') == slash && Escape(slash) == slash;
    UnescapeAppend(p, "/");
    EscapeAppend(path, "/");
    assert (p + "/")[..|p|] == p && (Escape(path) + "/")[..|Escape(path)|] == Escape(path);
  }

  lemma TrimRightSlash(s: string)
    ensures TrimRight(s + "/", '/') == TrimRight(s, '/')
  {
    assert (s + "/")[..|s|] == s;
  }

  lemma SetPathSlash(scheme: string, host: HostPort, p: string)
    requires host.Valid() && IsPathText(p) && SetPath(scheme, host, p).Some?
    ensures Bytes(p) && SetPath(scheme, host, p + "/").Some?
    ensures var u, v := SetPath(scheme, host, p).value, SetPath(scheme, host, p + "/").value;
      TrimRight(u.path, '/') == TrimRight(v.path, '/') && TrimRight(u.rawPath, '/') == TrimRight(v.rawPath, '/')
  {
    PathTextChars(p);
    PathTextChars(p + "/");
    EscapeSlash(p);
    TrimRightSlash(p);
    TrimRightSlash(Unescape(p).value);
  }

  lemma {:induction false} UnescapeAppend(p: string, q: string)
    requires Unescape(p).Some? && Unescape(q).Some?
    ensures Unescape(p + q) == Some(Unescape(p).value + Unescape(q).value)
    decreases |p|
  {
    if p == "" {
      assert p + q == q && "" + Unescape(q).value == Unescape(q).value;
    } else {
      var n := if p[0] == '%' then 3 else 1;
      UnescapeAppend(p[n..], q);
      UnescapeAppendHead(p, q, n);
    }
  }

  lemma UnescapeAppendHead(p: string, q: string, n: nat)
    requires p != "" && n == (if p[0] == '%' then 3 else 1) && n <= |p|
    requires n == 3 ==> HexValue(p[1]).Some? && HexValue(p[2]).Some?
    requires Unescape(p[n..]).Some? && Unescape(q).Some?
    requires Unescape(p[n..] + q) == Some(Unescape(p[n..]).value + Unescape(q).value)
    ensures Unescape(p + q) == Some(Unescape(p).value + Unescape(q).value)
  {
    hide Unescape, HexValue, Byte;
    var r := p + q;
    assert r[n..] == p[n..] + q;
    assert r[..n] == p[..n];
    assert r[0] == p[0];
    assert n == 3 ==> r[..n][1] == p[..n][1] && r[..n][2] == p[..n][2];
    UnescapeHead(p, n);
    UnescapeHead(r, n);
    var c := if n == 1 then p[0] else Byte(HexValue(p[1]).value, HexValue(p[2]).value);
    ConsAppend(c, Unescape(p[n..]).value, Unescape(q).value);
  }

  lemma ConsAppend(c: char, x: string, y: string)
    ensures ([c] + x) + y == [c] + (x + y)
  {
  }

  lemma UnescapeHead(p: string, n: nat)
    requires p != "" && n == (if p[0] == '%' then 3 else 1) && n <= |p|
    requires n == 3 ==> HexValue(p[1]).Some? && HexValue(p[2]).Some?
    requires Unescape(p[n..]).Some?
    ensures var c := if n == 1 then p[0] else Byte(HexValue(p[1]).value, HexValue(p[2]).value);
      Unescape(p) == Some([c] + Unescape(p[n..]).value)
  {
  }

  lemma EscapeJoins(a: string, b: string, c: string)
    ensures a + (b + c) == a + b + c
  {
  }

  lemma {:induction false} EscapeAppend(s: string, t: string)
    requires Bytes(s) && Bytes(t)
    ensures Bytes(s + t) && Escape(s + t) == Escape(s) + Escape(t)
    decreases |s|
  {
    hide EscapeChar;
    if s == "" {
      assert s + t == t;
    } else {
      EscapeAppend(s[1..], t);
      assert (s + t)[1..] == s[1..] + t && (s + t)[0] == s[0];
      EscapeJoins(EscapeChar(s[0]), Escape(s[1..]), Escape(t));
    }
  }

  /** Two spellings of one authority normalise alike: letter case of the host, the default port
      and a trailing slash do not matter (sections 6.2.2.1 and 6.2.3 of RFC 3986). */
  lemma NormalizeIgnoresSpelling(scheme: string, h1: string, h2: string, p: string)
    requires scheme == "http" || scheme == "https"
    requires IsHostname(h1) && IsHostname(h2) && ToLower(h1) == ToLower(h2)
    requires IsPathText(p) && Bytes(p) && Unescape(p).Some?
    ensures var plain := NormalizeAuthority(scheme + "://" + h1 + p);
      && plain.Ok?
      && NormalizeAuthority(scheme + "://" + h2 + ":" + (if scheme == "http" then "80" else "443") + p) == plain
      && NormalizeAuthority(scheme + "://" + h1 + p + "/") == plain
  {
    hide NormalizeAuthority, Unescape, IsPathText, ToLower;
    var plain, ported := HostPort(h1, false, ""), HostPort(h2, true, DefaultPort(scheme));
    NormalizeIgnoresHostSpelling(scheme, plain, ported, p);
    NormalizeIgnoresSlash(scheme, plain, p);
    assert scheme + "://" + ported.Text() + p == scheme + "://" + h2 + ":" + DefaultPort(scheme) + p;
  }

  lemma NormalizeIgnoresHostSpelling(scheme: string, plain: HostPort, ported: HostPort, p: string)
    requires scheme == "http" || scheme == "https"
    requires plain.Valid() && ported.Valid() && ToLower(plain.hostname) == ToLower(ported.hostname)
    requires !plain.hasPort && ported.port == DefaultPort(scheme)
    requires IsPathText(p) && Bytes(p) && Unescape(p).Some?
    ensures NormalizeAuthority(scheme + "://" + plain.Text() + p).Ok?
    ensures NormalizeAuthority(scheme + "://" + ported.Text() + p) == NormalizeAuthority(scheme + "://" + plain.Text() + p)
  {
    hide ParseURL, NormalizeAuthority, Render, Unescape, Escape;
    SetPathOk(scheme, plain, p);
    SetPathOk(scheme, ported, p);
    NormalizeText(scheme, plain, p);
    NormalizeText(scheme, ported, p);
  }

  lemma NormalizeIgnoresSlash(scheme: string, host: HostPort, p: string)
    requires (scheme == "http" || scheme == "https") && host.Valid()
    requires IsPathText(p) && Bytes(p) && Unescape(p).Some?
    ensures NormalizeAuthority(scheme + "://" + host.Text() + p + "/") == NormalizeAuthority(scheme + "://" + host.Text() + p)
  {
    hide ParseURL, NormalizeAuthority, Render, Unescape, Escape, SetPath, TrimRight;
    SetPathOk(scheme, host, p);
    SetPathSlash(scheme, host, p);
    NormalizeText(scheme, host, p);
    NormalizeText(scheme, host, p + "/");
    assert Canonical(SetPath(scheme, host, p).value) == Canonical(SetPath(scheme, host, p + "/").value);
    assert scheme + "://" + host.Text() + (p + "/") == scheme + "://" + host.Text() + p + "/";
  }

  lemma SetPathOk(scheme: string, host: HostPort, p: string)
    requires (scheme == "http" || scheme == "https") && host.Valid()
    requires IsPathText(p) && Bytes(p) && Unescape(p).Some?
    ensures SetPath(scheme, host, p).Some? && SetPath(scheme, host, p).value.Valid()
  {
    PathTextChars(p);
  }

  lemma NormalizeText(scheme: string, host: HostPort, p: string)
    requires (scheme == "http" || scheme == "https") && host.Valid() && IsPathText(p)
    requires SetPath(scheme, host, p).Some?
    ensures SetPath(scheme, host, p).value.Valid()
    ensures NormalizeAuthority(scheme + "://" + host.Text() + p) == Ok(Render(Canonical(SetPath(scheme, host, p).value)))
  {
    hide ParseURL, Render, Canonical, TrimSpace, SetPath;
    var s := scheme + "://" + host.Text() + p;
    ParseAfterRender(scheme, host, p);
    NotBlank(s);
  }

  // ---------- what normalising keeps and refuses ----------

  /** Written as it should be: a lower-case host, no default port, an escaped path that decodes and
      does not end in a slash. */
  ghost predicate IsCanonical(scheme: string, host: HostPort, p: string) {
    && (scheme == "http" || scheme == "https") && host.Valid()
    && (forall k :: 0 <= k < |host.hostname| ==> !('A' <= host.hostname[k] <= 'Z'))
    && (scheme == "http" ==> host.port != "80") && (scheme == "https" ==> host.port != "443")
    && IsPathText(p) && Bytes(p) && Unescape(p).Some?
    && (Unescape(p).value == "" || Unescape(p).value[|Unescape(p).value| - 1] != '/')
  }

  lemma NoUpperCaseStays(h: string)
    requires forall k :: 0 <= k < |h| ==> !('A' <= h[k] <= 'Z')
    ensures ToLower(h) == h
  {
  }

  lemma {:induction false} SlashEndsUnescaped(p: string)
    requires p != "" && p[|p| - 1] == '/' && Unescape(p).Some?
    ensures var u := Unescape(p).value; u != "" && u[|u| - 1] == '/'
    decreases |p|
  {
    var n := if p[0] == '%' then 3 else 1;
    if |p| > n {
      SlashEndsUnescaped(p[n..]);
    }
  }

  lemma CanonicalPartsStay(scheme: string, host: HostPort, p: string)
    requires IsCanonical(scheme, host, p)
    ensures SetPath(scheme, host, p).Some? && SetPath(scheme, host, p).value.Valid()
    ensures Canonical(SetPath(scheme, host, p).value) == SetPath(scheme, host, p).value
  {
    SetPathOk(scheme, host, p);
    NoUpperCaseStays(host.hostname);
    if p != "" && p[|p| - 1] == '/' {
      SlashEndsUnescaped(p);
    }
    hide Unescape, Escape, IsPathText, ToLower, IsHostname;
    var u := SetPath(scheme, host, p).value;
    TrimRightFixed(u.path, '/');
    TrimRightFixed(u.rawPath, '/');
  }

  lemma EscapedPathIsText(scheme: string, host: HostPort, p: string)
    requires IsPathText(p) && SetPath(scheme, host, p).Some?
    ensures var u := SetPath(scheme, host, p).value; Bytes(u.path) && Bytes(u.rawPath) && EscapedPath(u.path, u.rawPath) == p
  {
    assert Escape("") == "" && Unescape("") == Some("");
    hide Escape, Unescape;
  }

  lemma RenderText(scheme: string, host: HostPort, p: string)
    requires IsCanonical(scheme, host, p) && SetPath(scheme, host, p).Some? && SetPath(scheme, host, p).value.Valid()
    ensures Render(SetPath(scheme, host, p).value) == scheme + "://" + host.Text() + p
  {
    EscapedPathIsText(scheme, host, p);
    hide Escape, Unescape, IsHostname, EscapedPath, SetPath, IsPathText;
    SetPathIsOf(scheme, host, p);
  }

  lemma SetPathIsOf(scheme: string, host: HostPort, p: string)
    requires SetPath(scheme, host, p).Some?
    ensures SetPath(scheme, host, p).value.scheme == scheme && SetPath(scheme, host, p).value.host == host
  {
  }

  /** What is canonical is kept as it is, deployment path and port included. */
  lemma NormalizeKeeps(scheme: string, host: HostPort, p: string)
    requires IsCanonical(scheme, host, p)
    ensures NormalizeAuthority(scheme + "://" + host.Text() + p) == Ok(scheme + "://" + host.Text() + p)
  {
    CanonicalPartsStay(scheme, host, p);
    hide NormalizeAuthority, Canonical, Render, SetPath, Unescape, Escape, IsPathText;
    RenderText(scheme, host, p);
    NormalizeText(scheme, host, p);
  }

  /** So two deployments stay apart: canonical spellings that differ have different authorities. */
  lemma NormalizeTellsApart(scheme: string, host: HostPort, p: string, scheme': string, host': HostPort, p': string)
    requires IsCanonical(scheme, host, p) && IsCanonical(scheme', host', p')
    requires scheme + "://" + host.Text() + p != scheme' + "://" + host'.Text() + p'
    ensures NormalizeAuthority(scheme + "://" + host.Text() + p) != NormalizeAuthority(scheme' + "://" + host'.Text() + p')
  {
    hide NormalizeAuthority, IsCanonical;
    NormalizeKeeps(scheme, host, p);
    NormalizeKeeps(scheme', host', p');
  }

  /** A query, even an empty one, and a fragment are refused. */
  lemma NormalizeRefusesQuery(value: string, i: nat)
    requires i < |value| && (value[i] == '?' || (value[i] == '#' && i < |value| - 1))
    ensures NormalizeAuthority(value).Err?
  {
    var t := TrimSuffix(value, "#");
    assert i < |t| && t[i] == value[i];
    hide TrimSpace, TrimSuffix;
  }

  lemma HostsHaveNoAt(text: string, k: nat)
    requires k < |text| && text[k] == '@'
    ensures ParseHost(text) == None
  {
    hide PortColon;
    if ParseHost(text).Some? {
      var hp := ParseHost(text).value;
      NoAtInHost(hp, k);
    }
  }

  lemma NoAtInHost(hp: HostPort, k: nat)
    requires hp.Valid() && k < |hp.Text()|
    ensures hp.Text()[k] != '@'
  {
    assert !HostChar('@') && !IPLiteralChar('@');
    hide HostChar, IPLiteralChar;
  }

  /** User information is refused. */
  lemma NormalizeRefusesUser(scheme: string, authority: string, p: string, k: nat)
    requires (scheme == "http" || scheme == "https") && k < |authority| && authority[k] == '@'
    requires forall i :: 0 <= i < |authority| ==> authority[i] != '/'
    requires (p == "" || p[0] == '/') && NoQuery(authority) && NoQuery(p)
    ensures NormalizeAuthority(scheme + "://" + authority + p).Err?
  {
    var rest := "//" + authority + p;
    assert scheme + "://" + authority + p == scheme + ":" + rest;
    hide ParseURL, TrimSpace, ParseRest;
    assert NoQuery(rest);
    ParseScheme(scheme, rest);
    RestHasNoUser(scheme, authority, p, k);
  }

  lemma RestHasNoUser(scheme: string, authority: string, p: string, k: nat)
    requires k < |authority| && authority[k] == '@' && (p == "" || p[0] == '/')
    requires forall i :: 0 <= i < |authority| ==> authority[i] != '/'
    ensures ParseRest(scheme, "//" + authority + p) == None
  {
    hide ParseHost, SetPath, Index, HasPrefix;
    AuthorityEnds(authority, p);
    HostsHaveNoAt(authority, k);
  }

  /** So is every other scheme. */
  lemma NormalizeRefusesOtherSchemes(scheme: string, rest: string)
    requires forall i :: 0 <= i < |scheme| ==> scheme[i] != ':'
    requires ToLower(scheme) != "http" && ToLower(scheme) != "https"
    ensures NormalizeAuthority(scheme + ":" + rest).Err?
  {
    hide TrimSpace, ParseRest, ToLower, Index;
    var s := scheme + [':'] + rest;
    assert scheme + ":" + rest == s;
    CutAt(scheme, ':', rest);
    var t := TrimSuffix(s, "#");
    assert |scheme| < |t| && t[|scheme|] == ':' && t[..|scheme|] == scheme by {
      hide HasSuffix;
      TrimKeepsStart(s, |scheme|);
    }
    assert forall i :: 0 <= i < |scheme| ==> t[i] == scheme[i];
    IndexIs(t, ':', |scheme|);
  }

  lemma TrimKeepsStart(s: string, n: nat)
    requires n < |s| && s[n] == ':'
    ensures var t := TrimSuffix(s, "#"); n < |t| && t[n] == ':' && t[..n] == s[..n]
  {
    if HasSuffix(s, "#") {
      assert s[|s| - 1..][0] == '#';
      assert s[|s| - 1] == '#';
    }
  }
}
