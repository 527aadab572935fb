/** Cookies: the Set-Cookie printer and parser, and the Cookie header reader and writer. */
module Cookie {
  import opened Text
  import opened DomainName

  // SameSite values; any other number prints nothing.
  const SAME_SITE_DEFAULT := 1
  const SAME_SITE_LAX := 2
  const SAME_SITE_STRICT := 3
  const SAME_SITE_NONE := 4

  /** A Go int: the printer and strconv.Atoi agree on this range. */
  type GoInt = n: int | INT_MIN <= n <= INT_MAX

  /** `expires` is a time in seconds, None for Go's zero time. */
  datatype Cookie = Cookie(
    name: string, value: string, path: string, domain: string,
    expires: Option<int>, rawExpires: string, maxAge: GoInt,
    secure: bool, httpOnly: bool, sameSite: int,
    raw: string, unparsed: seq<string>)

  /** The parts of package time that cookies use. */
  datatype TimeLib = TimeLib(parse: string -> Option<int>, format: int -> string, year: int -> int)

  // ---- byte classes ------------------------------------------------------------

  predicate IsToken(c: char) {
    IsLetter(c) || IsDigit(c) || c in "!#$%&'*+-.^_`|~"
  }

  /** isCookieNameValid: a rune above 0x7e is never a token, so bytes suffice. */
  predicate ValidName(s: string) {
    s != "" && forall i :: 0 <= i < |s| ==> IsToken(s[i])
  }

  predicate ValidValueByte(c: char) {
    ' ' <= c < 0x7f as char && c != '"' && c != ';' && c != '\\'
  }

  predicate ValidPathByte(c: char) {
    ' ' <= c < 0x7f as char && c != ';'
  }

  ghost predicate ValidDomain(s: string) { IsDomainName(s) || IsIPv4(s) }

  predicate ValidExpires(lib: TimeLib, t: Option<int>) { t.Some? && lib.year(t.value) >= 1601 }

  // ---- printing ----------------------------------------------------------------

  /** Filtered, and quoted exactly when a space or a comma is left. */
  function SanitizeValue(v: string): string {
    var f := Filter(v, ValidValueByte);
    if ' ' in f || ',' in f then "\"" + f + "\"" else f
  }

  function KeyVal(key: string, val: string): string { key + "=" + val }

  ghost function PathAttr(c: Cookie): seq<string> {
    if c.path != "" then [KeyVal("Path", Filter(c.path, ValidPathByte))] else []
  }
  ghost function DomainAttr(c: Cookie): seq<string> {
    if c.domain != "" && ValidDomain(c.domain) then [KeyVal("Domain", WithoutLeadingDot(c.domain))] else []
  }
  ghost function ExpiresAttr(lib: TimeLib, c: Cookie): seq<string> {
    if ValidExpires(lib, c.expires) then [KeyVal("Expires", lib.format(c.expires.value))] else []
  }
  ghost function MaxAgeAttr(c: Cookie): seq<string> {
    if c.maxAge > 0 then [KeyVal("Max-Age", Digits(c.maxAge))]
    else if c.maxAge < 0 then [KeyVal("Max-Age", "0")] else []
  }
  ghost function HttpOnlyAttr(c: Cookie): seq<string> { if c.httpOnly then ["HttpOnly"] else [] }
  ghost function SecureAttr(c: Cookie): seq<string> { if c.secure then ["Secure"] else [] }
  ghost function SameSiteAttr(c: Cookie): seq<string> {
    if c.sameSite == SAME_SITE_NONE then [KeyVal("SameSite", "None")]
    else if c.sameSite == SAME_SITE_LAX then [KeyVal("SameSite", "Lax")]
    else if c.sameSite == SAME_SITE_STRICT then [KeyVal("SameSite", "Strict")] else []
  }

  /** The attributes after the path. */
  ghost function OtherAttrs(lib: TimeLib, c: Cookie): seq<string> {
    DomainAttr(c) + ExpiresAttr(lib, c) + MaxAgeAttr(c) + HttpOnlyAttr(c) + SecureAttr(c) + SameSiteAttr(c)
  }

  /** The attributes a cookie prints, in order. */
  ghost function Attributes(lib: TimeLib, c: Cookie): seq<string> { PathAttr(c) + OtherAttrs(lib, c) }

  /** Each attribute preceded by "; ". */
  function Listed(attrs: seq<string>): string {
    if attrs == [] then "" else "; " + attrs[0] + Listed(attrs[1..])
  }

  function NameValue(c: Cookie): string { c.name + "=" + SanitizeValue(c.value) }

  ghost function Print(lib: TimeLib, c: Cookie): string {
    if ValidName(c.name) then NameValue(c) + Listed(Attributes(lib, c)) else ""
  }

  lemma {:induction false} ListedConcat(a: seq<string>, b: seq<string>)
    ensures Listed(a + b) == Listed(a) + Listed(b)
  {
    if a == [] {
      assert a + b == b;
    } else {
      assert (a + b)[1..] == a[1..] + b;
      ListedConcat(a[1..], b);
    }
  }

  lemma {:induction false} ListedOne(a: string)
    ensures Listed([a]) == "; " + a && Listed([]) == ""
  {
    assert [a][1..] == [];
  }

  /** sanitizeOrWarn: one pass to see whether anything is invalid, a second to drop it. */
  method SanitizeOrWarn(valid: char -> bool, v: string) returns (r: string)
    ensures r == Filter(v, valid)
  {
    var ok := true;
    var i := 0;
    while i < |v|
      invariant 0 <= i <= |v|
      invariant ok && forall k :: 0 <= k < i ==> valid(v[k])
    {
      if !valid(v[i]) {
        ok := false;
        break;
      }
      i := i + 1;
    }
    FilterValid(v, valid);
    if ok { return v; }
    r := "";
    i := 0;
    while i < |v|
      invariant 0 <= i <= |v|
      invariant r == Filter(v[..i], valid)
    {
      FilterSnoc(v[..i], v[i], valid);
      assert v[..i + 1] == v[..i] + [v[i]];
      if valid(v[i]) { r := r + [v[i]]; }
      i := i + 1;
    }
    assert v[..i] == v;
  }

  method ValidCookieDomain(s: string) returns (ok: bool)
    ensures ok <==> ValidDomain(s)
  {
    ok := IsCookieDomainName(s);
    if !ok { ok := IsIPv4(s); }
  }

  method WriteAttr(b: string, a: string) returns (r: string)
    ensures r == b + Listed([a])
  {
    ListedOne(a);
    r := b + ("; " + a);
  }

  method WriteValue(c: Cookie) returns (r: string)
    ensures r == SanitizeValue(c.value)
  {
    r := SanitizeOrWarn(ValidValueByte, c.value);
    if ' ' in r || ',' in r { r := "\"" + r + "\""; }
  }

  method WritePath(b: string, c: Cookie) returns (r: string)
    ensures r == b + Listed(PathAttr(c))
  {
    r := b;
    if |c.path| > 0 {
      var p := SanitizeOrWarn(ValidPathByte, c.path);
      r := WriteAttr(r, KeyVal("Path", p));
    }
  }

  method WriteDomain(b: string, c: Cookie) returns (r: string)
    ensures r == b + Listed(DomainAttr(c))
  {
    r := b;
    if |c.domain| > 0 {
      var valid := ValidCookieDomain(c.domain);
      if valid {
        var d := c.domain;
        if d[0] == '.' { d := d[1..]; }
        r := WriteAttr(r, KeyVal("Domain", d));
      }
    }
  }

  method WriteExpires(lib: TimeLib, b: string, c: Cookie) returns (r: string)
    ensures r == b + Listed(ExpiresAttr(lib, c))
  {
    r := b;
    if ValidExpires(lib, c.expires) {
      r := WriteAttr(r, KeyVal("Expires", lib.format(c.expires.value)));
    }
  }

  method WriteMaxAge(b: string, c: Cookie) returns (r: string)
    ensures r == b + Listed(MaxAgeAttr(c))
  {
    r := b;
    if c.maxAge > 0 {
      r := WriteAttr(r, KeyVal("Max-Age", Digits(c.maxAge)));
    } else if c.maxAge < 0 {
      r := WriteAttr(r, KeyVal("Max-Age", "0"));
    }
  }

  method WriteFlags(b: string, c: Cookie) returns (r: string)
    ensures r == b + Listed(HttpOnlyAttr(c)) + Listed(SecureAttr(c))
  {
    r := b;
    if c.httpOnly { r := WriteAttr(r, "HttpOnly"); }
    if c.secure { r := WriteAttr(r, "Secure"); }
  }

  method WriteSameSite(b: string, c: Cookie) returns (r: string)
    ensures r == b + Listed(SameSiteAttr(c))
  {
    r := b;
    if c.sameSite == SAME_SITE_NONE {
      r := WriteAttr(r, KeyVal("SameSite", "None"));
    } else if c.sameSite == SAME_SITE_LAX {
      r := WriteAttr(r, KeyVal("SameSite", "Lax"));
    } else if c.sameSite == SAME_SITE_STRICT {
      r := WriteAttr(r, KeyVal("SameSite", "Strict"));
    }
  }

  /** Cookie.String: the text is built up attribute by attribute. */
  method String(lib: TimeLib, c: Cookie) returns (b: string)
    ensures b == Print(lib, c)
  {
    if !ValidName(c.name) { return ""; }
    b := WriteValue(c);
    b := c.name + "=" + b;
    b := WritePath(b, c);
    b := WriteDomain(b, c);
    b := WriteExpires(lib, b, c);
    b := WriteMaxAge(b, c);
    b := WriteFlags(b, c);
    b := WriteSameSite(b, c);
    PrintInOrder(lib, c);
  }

  lemma {:induction false} PrintInOrder(lib: TimeLib, c: Cookie)
    requires ValidName(c.name)
    ensures Print(lib, c) == NameValue(c) + Listed(PathAttr(c)) + Listed(DomainAttr(c)) + Listed(ExpiresAttr(lib, c))
                             + Listed(MaxAgeAttr(c)) + Listed(HttpOnlyAttr(c)) + Listed(SecureAttr(c))
                             + Listed(SameSiteAttr(c))
  {
    var b1 := NameValue(c) + Listed(PathAttr(c));
    var a2 := DomainAttr(c);
    var a3 := a2 + ExpiresAttr(lib, c);
    var a4 := a3 + MaxAgeAttr(c);
    var a5 := a4 + HttpOnlyAttr(c);
    var a6 := a5 + SecureAttr(c);
    ListedAfter(b1, a2, ExpiresAttr(lib, c));
    ListedAfter(b1, a3, MaxAgeAttr(c));
    ListedAfter(b1, a4, HttpOnlyAttr(c));
    ListedAfter(b1, a5, SecureAttr(c));
    ListedAfter(b1, a6, SameSiteAttr(c));
    ListedAfter(NameValue(c), PathAttr(c), OtherAttrs(lib, c));
  }

  lemma {:induction false} ListedAfter(b: string, a: seq<string>, more: seq<string>)
    ensures b + Listed(a) + Listed(more) == b + Listed(a + more)
  {
    ListedConcat(a, more);
    ConcatAssoc(b, Listed(a), Listed(more));
  }

  // ---- parsing Set-Cookie --------------------------------------------------------

  function Unquoted(raw: string, allowQuotes: bool): string {
    if allowQuotes && |raw| > 1 && raw[0] == '"' && raw[|raw| - 1] == '"' then raw[1..|raw| - 1] else raw
  }

  /** parseCookieValue, as a value. */
  function ParseValue(raw: string, allowQuotes: bool): Option<string> {
    var v := Unquoted(raw, allowQuotes);
    if forall i :: 0 <= i < |v| ==> ValidValueByte(v[i]) then Some(v) else None
  }

  method ParseCookieValue(raw: string, allowQuotes: bool) returns (r: Option<string>)
    ensures r == ParseValue(raw, allowQuotes)
  {
    var v := raw;
    if allowQuotes && |v| > 1 && v[0] == '"' && v[|v| - 1] == '"' { v := v[1..|v| - 1]; }
    var i := 0;
    while i < |v|
      invariant 0 <= i <= |v|
      invariant v == Unquoted(raw, allowQuotes)
      invariant forall k :: 0 <= k < i ==> ValidValueByte(v[k])
    {
      if !ValidValueByte(v[i]) {
        assert ParseValue(raw, allowQuotes).None?;
        return None;
      }
      i := i + 1;
    }
    return Some(v);
  }

  function SameSiteOf(val: string): int {
    if !IsPrint(val) then SAME_SITE_DEFAULT
    else
      var low := Lower(val);
      if low == "lax" then SAME_SITE_LAX
      else if low == "strict" then SAME_SITE_STRICT
      else if low == "none" then SAME_SITE_NONE
      else SAME_SITE_DEFAULT
  }

  function Unparsed(c: Cookie, part: string): Cookie { c.(unparsed := c.unparsed + [part]) }

  /** One attribute with its value already checked. */
  function SetAttr(lib: TimeLib, c: Cookie, low: string, val: string, part: string): Cookie {
    if low == "samesite" then c.(sameSite := SameSiteOf(val))
    else if low == "secure" then c.(secure := true)
    else if low == "httponly" then c.(httpOnly := true)
    else if low == "domain" then c.(domain := val)
    else if low == "max-age" then
      (match Atoi(val)
       case None => Unparsed(c, part)
       case Some(n) =>
         if n != 0 && val != "" && val[0] == '0' then Unparsed(c, part)
         else c.(maxAge := if n <= 0 then -1 else n))
    else if low == "expires" then
      (match lib.parse(val)
       case None => Unparsed(c.(rawExpires := val, expires := None), part)
       case Some(t) => c.(rawExpires := val, expires := Some(t)))
    else if low == "path" then c.(path := val)
    else Unparsed(c, part)
  }

  /** One trimmed part of a Set-Cookie line after the first. */
  function ApplyPart(lib: TimeLib, c: Cookie, part: string): Cookie {
    if part == "" then c
    else
      var j := Index(part, '=');
      var attr := if j >= 0 then part[..j] else part;
      var val := if j >= 0 then part[j + 1..] else "";
      if !IsPrint(attr) then c
      else match ParseValue(val, false)
        case None => Unparsed(c, part)
        case Some(v) => SetAttr(lib, c, Lower(attr), v, part)
  }

  function ApplyParts(lib: TimeLib, c: Cookie, parts: seq<string>): Cookie
    decreases |parts|
  {
    if parts == [] then c else ApplyParts(lib, ApplyPart(lib, c, parts[0]), parts[1..])
  }

  function Fresh(name: string, value: string, raw: string): Cookie {
    Cookie(name, value, "", "", None, "", 0, false, false, 0, raw, [])
  }

  /** name=value, the first trimmed part. */
  function ParseFirst(part: string, line: string): Option<Cookie> {
    var j := Index(part, '=');
    if j < 0 || !ValidName(part[..j]) then None
    else match ParseValue(part[j + 1..], true)
      case None => None
      case Some(v) => Some(Fresh(part[..j], v, line))
  }

  /** A Set-Cookie line, given as its trimmed parts. */
  function ParseParts(lib: TimeLib, parts: seq<string>, line: string): Option<Cookie>
    requires |parts| >= 1
  {
    match ParseFirst(parts[0], line)
    case None => None
    case Some(c) => Some(ApplyParts(lib, c, parts[1..]))
  }

  function ParseLine(lib: TimeLib, line: string): Option<Cookie> {
    ParseParts(lib, TrimAll(Split(Trim(line), ';')), line)
  }

  function ParseLines(lib: TimeLib, lines: seq<string>): seq<Cookie> {
    if lines == [] then []
    else
      (match ParseLine(lib, lines[0]) case None => [] case Some(c) => [c]) + ParseLines(lib, lines[1..])
  }

  lemma {:induction false} ParseLinesConcat(lib: TimeLib, a: seq<string>, b: seq<string>)
    ensures ParseLines(lib, a + b) == ParseLines(lib, a) + ParseLines(lib, b)
  {
    if a == [] {
      assert a + b == b;
    } else {
      assert (a + b)[0] == a[0] && (a + b)[1..] == a[1..] + b;
      ParseLinesConcat(lib, a[1..], b);
      var first := match ParseLine(lib, a[0]) case None => [] case Some(c) => [c];
      ConcatAssoc(first, ParseLines(lib, a[1..]), ParseLines(lib, b));
    }
  }

  lemma {:induction false} ParseLinesSnoc(lib: TimeLib, lines: seq<string>, i: nat)
    requires i < |lines|
    ensures ParseLines(lib, lines[..i + 1]) ==
            ParseLines(lib, lines[..i]) + (match ParseLine(lib, lines[i]) case None => [] case Some(c) => [c])
  {
    assert lines[..i + 1] == lines[..i] + [lines[i]];
    assert [lines[i]][1..] == [];
    ParseLinesConcat(lib, lines[..i], [lines[i]]);
  }

  lemma {:induction false} ApplyPartsConcat(lib: TimeLib, c: Cookie, a: seq<string>, b: seq<string>)
    ensures ApplyParts(lib, c, a + b) == ApplyParts(lib, ApplyParts(lib, c, a), b)
    decreases |a|
  {
    if a == [] {
      assert a + b == b;
    } else {
      assert (a + b)[0] == a[0] && (a + b)[1..] == a[1..] + b;
      ApplyPartsConcat(lib, ApplyPart(lib, c, a[0]), a[1..], b);
    }
  }

  /** The body of readSetCookies for one line: a loop over the parts that fills the cookie. */
  method ReadSetCookieLine(lib: TimeLib, line: string) returns (r: Option<Cookie>)
    ensures r == ParseLine(lib, line)
  {
    var parts := Split(Trim(line), ';');
    ghost var trimmed := TrimAll(parts);
    if |parts| == 1 && parts[0] == "" { return None; }
    var first := Trim(parts[0]);
    var j := Index(first, '=');
    if j < 0 { return None; }
    if !ValidName(first[..j]) { return None; }
    var value := ParseCookieValue(first[j + 1..], true);
    if value.None? { return None; }
    var c := Fresh(first[..j], value.value, line);
    var i := 1;
    while i < |parts|
      invariant 1 <= i <= |parts|
      invariant ApplyParts(lib, c, trimmed[i..]) ==
                ApplyParts(lib, Fresh(first[..j], value.value, line), trimmed[1..])
    {
      assert trimmed[i..][0] == trimmed[i] && trimmed[i..][1..] == trimmed[i + 1..];
      var part := Trim(parts[i]);
      i := i + 1;
      c := ReadAttribute(lib, c, part);
    }
    assert trimmed[i..] == [];
    return Some(c);
  }

  /** One round of the attribute loop. */
  method ReadAttribute(lib: TimeLib, c0: Cookie, part: string) returns (c: Cookie)
    ensures c == ApplyPart(lib, c0, part)
  {
    c := c0;
    if |part| == 0 { return; }
    var attr, val := part, "";
    var j := Index(part, '=');
    if j >= 0 { attr, val := part[..j], part[j + 1..]; }
    if !IsPrint(attr) { return; }
    var lowerAttr := Lower(attr);
    var v := ParseCookieValue(val, false);
    if v.None? { return Unparsed(c, part); }
    return SetAttr(lib, c, lowerAttr, v.value, part);
  }

  /** readSetCookies over the values of the Set-Cookie header. */
  method ReadSetCookies(lib: TimeLib, lines: seq<string>) returns (cookies: seq<Cookie>)
    ensures cookies == ParseLines(lib, lines)
  {
    cookies := [];
    var i := 0;
    while i < |lines|
      invariant 0 <= i <= |lines|
      invariant cookies == ParseLines(lib, lines[..i])
    {
      ParseLinesSnoc(lib, lines, i);
      var c := ReadSetCookieLine(lib, lines[i]);
      if c.Some? { cookies := cookies + [c.value]; }
      i := i + 1;
    }
    assert lines[..i] == lines;
  }

  // ---- the Cookie header ---------------------------------------------------------

  /** One ';'-separated part of a Cookie line, before the name filter. */
  function ParsePair(part: string): Option<Cookie> {
    var p := Trim(part);
    var j := Index(p, '=');
    var name := if j >= 0 then p[..j] else p;
    var val := if j >= 0 then p[j + 1..] else "";
    if !ValidName(name) then None
    else match ParseValue(val, true)
      case None => None
      case Some(v) => Some(Fresh(name, v, ""))
  }

  function Kept(c: Option<Cookie>, filter: string): seq<Cookie> {
    if c.Some? && (filter == "" || c.value.name == filter) then [c.value] else []
  }

  /** The inner loop of readCookies: a remainder that begins with ';' is one part. */
  function ReadRest(line: string, filter: string): seq<Cookie>
    decreases |line|
  {
    if line == "" then []
    else
      var i := Index(line, ';');
      if i > 0 then Kept(ParsePair(line[..i]), filter) + ReadRest(line[i + 1..], filter)
      else Kept(ParsePair(line), filter)
  }

  function ReadLines(lines: seq<string>, filter: string): seq<Cookie> {
    if lines == [] then [] else ReadRest(Trim(lines[0]), filter) + ReadLines(lines[1..], filter)
  }

  lemma {:induction false} ReadLinesConcat(a: seq<string>, b: seq<string>, filter: string)
    ensures ReadLines(a + b, filter) == ReadLines(a, filter) + ReadLines(b, filter)
  {
    if a == [] {
      assert a + b == b;
    } else {
      assert (a + b)[0] == a[0] && (a + b)[1..] == a[1..] + b;
      ReadLinesConcat(a[1..], b, filter);
    }
  }

  lemma {:induction false} ReadLinesSnoc(lines: seq<string>, i: nat, filter: string)
    requires i < |lines|
    ensures ReadLines(lines[..i + 1], filter) ==
            ReadLines(lines[..i], filter) + ReadRest(Trim(lines[i]), filter)
  {
    assert lines[..i + 1] == lines[..i] + [lines[i]];
    assert [lines[i]][1..] == [];
    ReadLinesConcat(lines[..i], [lines[i]], filter);
  }

  /** readCookies over the values of the Cookie header. */
  method ReadCookies(lines: seq<string>, filter: string) returns (cookies: seq<Cookie>)
    ensures cookies == ReadLines(lines, filter)
  {
    cookies := [];
    var k := 0;
    while k < |lines|
      invariant 0 <= k <= |lines|
      invariant cookies == ReadLines(lines[..k], filter)
    {
      ReadLinesSnoc(lines, k, filter);
      ghost var before := cookies;
      var line := Trim(lines[k]);
      ghost var whole := ReadRest(line, filter);
      while |line| > 0
        invariant cookies + ReadRest(line, filter) == before + whole
        decreases |line|
      {
        var part;
        var splitIndex := Index(line, ';');
        ghost var was := line;
        if splitIndex > 0 {
          part, line := line[..splitIndex], line[splitIndex + 1..];
        } else {
          part, line := line, "";
        }
        var c := ReadPair(part, filter);
        assert ReadRest(was, filter) == c + ReadRest(line, filter);
        assert cookies + (c + ReadRest(line, filter)) == cookies + c + ReadRest(line, filter);
        cookies := cookies + c;
      }
      k := k + 1;
    }
    assert lines[..k] == lines;
  }

  /** One round of the inner loop: no cookie or one. */
  method ReadPair(piece: string, filter: string) returns (r: seq<Cookie>)
    ensures r == Kept(ParsePair(piece), filter)
  {
    var part := Trim(piece);
    if |part| == 0 { return []; }
    var name, val := part, "";
    var j := Index(part, '=');
    if j >= 0 { name, val := part[..j], part[j + 1..]; }
    if !ValidName(name) { return []; }
    if filter != "" && filter != name { return []; }
    var v := ParseCookieValue(val, true);
    if v.None? { return []; }
    return [Fresh(name, v.value, "")];
  }

  function NewlineToDash(c: char): char { if c == '\n' || c == '\r' then '-' else c }

  /** sanitizeCookieName. */
  function SanitizeName(n: string): (r: string)
    ensures |r| == |n| && forall i :: 0 <= i < |n| ==> r[i] == NewlineToDash(n[i])
  {
    seq(|n|, i requires 0 <= i < |n| => NewlineToDash(n[i]))
  }

  function Pair(c: Cookie): string { SanitizeName(c.name) + "=" + SanitizeValue(c.value) }

  function Added(line: string, c: Cookie): string {
    if line != "" then line + "; " + Pair(c) else Pair(c)
  }

  /** A request, as far as its cookies go: its header map. */
  class Request {
    var header: map<string, seq<string>>

    constructor ()
      ensures header == map[]
    {
      header := map[];
    }

    /** Header.Get: the first value or "". */
    function Get(key: string): string
      reads this
    {
      if key in header && |header[key]| > 0 then header[key][0] else ""
    }

    /** AddCookie: everything goes into one Cookie line. */
    method AddCookie(c: Cookie)
      modifies this
      ensures header == old(header)["Cookie" := [Added(old(Get("Cookie")), c)]]
    {
      var v := WriteValue(c);
      var s := SanitizeName(c.name) + "=" + v;
      var line := Get("Cookie");
      if line != "" {
        header := header["Cookie" := [line + "; " + s]];
      } else {
        header := header["Cookie" := [s]];
      }
    }
  }
}
