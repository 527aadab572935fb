/** What survives a cookie's trip through the Set-Cookie printer and parser. */
module CookieRoundTrip {
  import opened Text
  import opened DomainName
  import opened Cookie

  /** What the round trip needs of package time for one instant: the formatted text is printable
      without quotes, semicolons or backslashes, does not end in a space, and parses back. */
  ghost predicate TimeLaw(lib: TimeLib, t: int) {
    var f := lib.format(t);
    && f != "" && Every(f, ValidValueByte) && f[|f| - 1] != ' '
    && lib.parse(f) == Some(t)
  }

  ghost predicate Printable(lib: TimeLib, c: Cookie) {
    ValidName(c.name) && (ValidExpires(lib, c.expires) ==> TimeLaw(lib, c.expires.value))
  }

  // ---- what comes back -----------------------------------------------------------

  function CleanPath(c: Cookie): string { Filter(c.path, ValidPathByte) }

  ghost predicate Readable(s: string) { Every(s, ValidValueByte) }

  /** A printed path comes back whole exactly when nothing in it is refused or trimmed. */
  ghost predicate PathSurvives(c: Cookie) {
    var p := CleanPath(c);
    '"' !in p && '\\' !in p && (p != "" ==> p[|p| - 1] != ' ')
  }

  ghost function NormalForm(lib: TimeLib, c: Cookie): Cookie {
    Cookie(
      c.name, Filter(c.value, ValidValueByte), CleanPath(c),
      if c.domain != "" && ValidDomain(c.domain) then WithoutLeadingDot(c.domain) else "",
      if ValidExpires(lib, c.expires) then c.expires else None,
      if ValidExpires(lib, c.expires) then lib.format(c.expires.value) else "",
      if c.maxAge > 0 then c.maxAge else if c.maxAge < 0 then -1 else 0,
      c.secure, c.httpOnly,
      if SAME_SITE_LAX <= c.sameSite <= SAME_SITE_NONE then c.sameSite else 0,
      Print(lib, c), [])
  }

  /** The cookie that is read back, for every printable cookie: a path that ends in blanks loses
      them, and one with a quote or a backslash ends up among the unparsed attributes. */
  ghost function Reparsed(lib: TimeLib, c: Cookie): Cookie {
    var t := TrimRight(CleanPath(c));
    if Readable(t) then NormalForm(lib, c).(path := t)
    else NormalForm(lib, c).(path := "", unparsed := [KeyVal("Path", t)])
  }

  // ---- the pieces of a printed line ------------------------------------------------

  ghost function Blanked(attrs: seq<string>): (r: seq<string>)
    ensures |r| == |attrs| && forall i :: 0 <= i < |attrs| ==> r[i] == " " + attrs[i]
  {
    seq(|attrs|, i requires 0 <= i < |attrs| => " " + attrs[i])
  }

  lemma {:induction false} ListedIsJoin(head: string, attrs: seq<string>)
    ensures head + Listed(attrs) == Join([head] + Blanked(attrs), ';')
    decreases |attrs|
  {
    var pieces := [head] + Blanked(attrs);
    if attrs == [] {
      assert pieces == [head];
    } else {
      ListedIsJoin(" " + attrs[0], attrs[1..]);
      assert pieces[1..] == [" " + attrs[0]] + Blanked(attrs[1..]);
      assert "; " + attrs[0] == [';'] + (" " + attrs[0]);
      ConcatAssoc([';'], " " + attrs[0], Listed(attrs[1..]));
      ConcatAssoc(head, [';'], " " + attrs[0] + Listed(attrs[1..]));
    }
  }

  /** An attribute text: starts with a letter, no semicolon. */
  ghost predicate AttrText(a: string) {
    a != "" && IsLetter(a[0]) && ';' !in a
  }

  /** A key the printer writes, with the form the parser compares. */
  ghost predicate Key(key: string, low: string) {
    && key != "" && IsLetter(key[0]) && !IsSpace(key[|key| - 1])
    && ';' !in key && '=' !in key && IsPrint(key) && Lower(key) == low
  }

  lemma KeyPath() ensures Key("Path", "path") {}
  lemma KeyDomain() ensures Key("Domain", "domain") {}
  lemma KeyExpires() ensures Key("Expires", "expires") {}
  lemma KeyMaxAge() ensures Key("Max-Age", "max-age") {}
  lemma KeyHttpOnly() ensures Key("HttpOnly", "httponly") {}
  lemma KeySecure() ensures Key("Secure", "secure") {}
  lemma KeySameSite() ensures Key("SameSite", "samesite") {}

  lemma {:induction false} AttrOf(key: string, low: string, val: string)
    requires Key(key, low) && ';' !in val
    ensures AttrText(KeyVal(key, val))
  {
    assert KeyVal(key, val)[0] == key[0];
  }

  lemma {:induction false} EveryFree(s: string, valid: char -> bool, c: char)
    requires Every(s, valid) && !valid(c)
    ensures c !in s
  {
  }

  lemma {:induction false} NameBytesText(d: string)
    requires d != "" && NameBytes(d)
    ensures Every(d, ValidValueByte) && !IsSpace(d[|d| - 1])
  {
  }

  lemma {:induction false} DomainText(c: Cookie)
    requires c.domain != "" && ValidDomain(c.domain)
    ensures var d := WithoutLeadingDot(c.domain);
            d != "" && d[0] != '.' && ValidDomain(d) && Every(d, ValidValueByte)
            && !IsSpace(d[|d| - 1])
  {
    if IsDomainName(c.domain) {
      WithoutDotIsName(c.domain);
    } else {
      IPv4Bytes(c.domain);
    }
    NameBytesText(WithoutLeadingDot(c.domain));
  }

  ghost predicate AllText(attrs: seq<string>) {
    forall i :: 0 <= i < |attrs| ==> AttrText(attrs[i])
  }

  lemma {:induction false} PathText(c: Cookie)
    ensures AllText(PathAttr(c))
  {
    FilterValid(c.path, ValidPathByte);
    EveryFree(CleanPath(c), ValidPathByte, ';');
    KeyPath();
    AttrOf("Path", "path", CleanPath(c));
  }

  lemma {:induction false} DomainAttrText(c: Cookie)
    ensures AllText(DomainAttr(c))
  {
    if c.domain != "" && ValidDomain(c.domain) {
      DomainText(c);
      EveryFree(WithoutLeadingDot(c.domain), ValidValueByte, ';');
      KeyDomain();
      AttrOf("Domain", "domain", WithoutLeadingDot(c.domain));
    }
  }

  lemma {:induction false} ExpiresText(lib: TimeLib, c: Cookie)
    requires Printable(lib, c)
    ensures AllText(ExpiresAttr(lib, c))
  {
    if ValidExpires(lib, c.expires) {
      EveryFree(lib.format(c.expires.value), ValidValueByte, ';');
      KeyExpires();
      AttrOf("Expires", "expires", lib.format(c.expires.value));
    }
  }

  lemma {:induction false} MaxAgeText(c: Cookie)
    ensures AllText(MaxAgeAttr(c))
  {
    KeyMaxAge();
    AttrOf("Max-Age", "max-age", "0");
    if c.maxAge > 0 {
      EveryFree(Digits(c.maxAge), IsDigit, ';');
      AttrOf("Max-Age", "max-age", Digits(c.maxAge));
    }
  }

  lemma {:induction false} SameSiteText(c: Cookie)
    ensures AllText(SameSiteAttr(c))
  {
    KeySameSite();
    AttrOf("SameSite", "samesite", "None");
    AttrOf("SameSite", "samesite", "Lax");
    AttrOf("SameSite", "samesite", "Strict");
  }

  lemma {:induction false} AllTextConcat(a: seq<string>, b: seq<string>)
    requires AllText(a) && AllText(b)
    ensures AllText(a + b)
  {
  }

  lemma {:induction false} AttributesAreText(lib: TimeLib, c: Cookie)
    requires Printable(lib, c)
    ensures AllText(Attributes(lib, c))
  {
    PathText(c);
    DomainAttrText(c);
    ExpiresText(lib, c);
    MaxAgeText(c);
    KeyHttpOnly();
    KeySecure();
    SameSiteText(c);
    var a3 := DomainAttr(c) + ExpiresAttr(lib, c);
    AllTextConcat(DomainAttr(c), ExpiresAttr(lib, c));
    AllTextConcat(a3, MaxAgeAttr(c));
    AllTextConcat(a3 + MaxAgeAttr(c), HttpOnlyAttr(c));
    AllTextConcat(a3 + MaxAgeAttr(c) + HttpOnlyAttr(c), SecureAttr(c));
    AllTextConcat(a3 + MaxAgeAttr(c) + HttpOnlyAttr(c) + SecureAttr(c), SameSiteAttr(c));
    AllTextConcat(PathAttr(c), OtherAttrs(lib, c));
  }

  /** The name=value part: no semicolon, no blank at either end. */
  lemma {:induction false} NameValueText(c: Cookie)
    requires ValidName(c.name)
    ensures var nv := NameValue(c);
            nv != "" && IsToken(nv[0]) && !IsSpace(nv[0]) && ';' !in nv && !IsSpace(nv[|nv| - 1])
  {
    EveryFree(c.name, IsToken, ';');
    SanitizedText(c.value);
    PairText(c.name, SanitizeValue(c.value));
  }

  lemma {:induction false} PairText(name: string, v: string)
    requires name != "" && IsToken(name[0]) && ';' !in name && ';' !in v
    requires v != "" ==> !IsSpace(v[|v| - 1])
    ensures var nv := name + "=" + v;
            nv != "" && IsToken(nv[0]) && !IsSpace(nv[0]) && ';' !in nv && !IsSpace(nv[|nv| - 1])
  {
    var nv := name + "=" + v;
    assert nv[0] == name[0];
    assert nv[|nv| - 1] == if v == "" then '=' else v[|v| - 1];
  }

  lemma {:induction false} SanitizedText(value: string)
    ensures var v := SanitizeValue(value);
            ';' !in v && (v != "" ==> !IsSpace(v[|v| - 1]))
  {
    FilterValid(value, ValidValueByte);
    var f, v := Filter(value, ValidValueByte), SanitizeValue(value);
    EveryFree(f, ValidValueByte, ';');
    if v == f && v != "" {
      assert f[|f| - 1] in f && ValidValueByte(f[|f| - 1]);
    }
  }

  lemma {:induction false} QuotesUndone(v: string)
    ensures ParseValue(SanitizeValue(v), true) == Some(Filter(v, ValidValueByte))
  {
    FilterValid(v, ValidValueByte);
    var f, q := Filter(v, ValidValueByte), SanitizeValue(v);
    EveryFree(f, ValidValueByte, '"');
    if ' ' in f || ',' in f {
      assert q[1..|q| - 1] == f;
    } else {
      assert Unquoted(q, true) == f;
    }
  }

  /** Cutting at the first '=' undoes key=val when the key has none. */
  lemma {:induction false} CutKeyVal(key: string, val: string)
    requires '=' !in key
    ensures var part := KeyVal(key, val);
            Index(part, '=') == |key| && part[..|key|] == key && part[|key| + 1..] == val
  {
    var part := KeyVal(key, val);
    assert part == key + ['='] + val;
    IndexAfterFree(key, '=', val);
  }

  lemma {:induction false} NameValueParses(c: Cookie, line: string)
    requires ValidName(c.name)
    ensures ParseFirst(NameValue(c), line) == Some(Fresh(c.name, Filter(c.value, ValidValueByte), line))
  {
    EveryFree(c.name, IsToken, '=');
    CutKeyVal(c.name, SanitizeValue(c.value));
    QuotesUndone(c.value);
  }

  ghost function TrimRightAll(attrs: seq<string>): (r: seq<string>)
    ensures |r| == |attrs| && forall i :: 0 <= i < |attrs| ==> r[i] == TrimRight(attrs[i])
  {
    seq(|attrs|, i requires 0 <= i < |attrs| => TrimRight(attrs[i]))
  }

  lemma {:induction false} TrimmedPieces(nv: string, attrs: seq<string>)
    requires nv != "" && !IsSpace(nv[0]) && !IsSpace(nv[|nv| - 1])
    requires AllText(attrs)
    ensures TrimAll([nv] + Blanked(attrs)) == [nv] + TrimRightAll(attrs)
  {
    var pieces := [nv] + Blanked(attrs);
    var l, r := TrimAll(pieces), [nv] + TrimRightAll(attrs);
    TrimRightKeepsHead(nv);
    TrimRightIsPrefix(nv);
    forall i | 0 <= i < |l| ensures l[i] == r[i] {
      if i > 0 {
        assert AttrText(attrs[i - 1]) && pieces[i] == " " + attrs[i - 1];
        TrimBlankThen(attrs[i - 1]);
      }
    }
  }

  /** Parsing a printed line is parsing its attributes, each trimmed on the right. */
  lemma {:induction false} LineParses(lib: TimeLib, c: Cookie)
    requires Printable(lib, c)
    ensures var line := Print(lib, c);
            ParseLine(lib, line) ==
            Some(ApplyParts(lib, Fresh(c.name, Filter(c.value, ValidValueByte), line),
                            TrimRightAll(Attributes(lib, c))))
  {
    var line, nv, attrs := Print(lib, c), NameValue(c), Attributes(lib, c);
    NameValueText(c);
    AttributesAreText(lib, c);
    var pieces := [nv] + Blanked(attrs);
    ListedIsJoin(nv, attrs);
    PiecesFree(nv, attrs);
    SplitOfJoin(pieces, ';');
    assert line[0] == nv[0];
    TrimRightKeepsHead(line);
    TrimRightThenSplit(line, ';');
    TrimmedPieces(nv, attrs);
    NameValueParses(c, line);
    var trimmed := [nv] + TrimRightAll(attrs);
    assert trimmed[1..] == TrimRightAll(attrs);
  }

  lemma {:induction false} PiecesFree(nv: string, attrs: seq<string>)
    requires ';' !in nv && AllText(attrs)
    ensures AllFree([nv] + Blanked(attrs), ';')
  {
    var pieces := [nv] + Blanked(attrs);
    forall i | 0 <= i < |pieces| ensures ';' !in pieces[i] {
      if i > 0 {
        assert pieces[i] == " " + attrs[i - 1];
        assert AttrText(attrs[i - 1]);
      }
    }
  }

  // ---- one attribute at a time -------------------------------------------------------

  /** key=val with a readable value is the attribute's own action; otherwise it stays unparsed. */
  lemma {:induction false} ApplyKeyVal(lib: TimeLib, k: Cookie, key: string, low: string, val: string)
    requires Key(key, low)
    ensures var part := KeyVal(key, val);
            ApplyPart(lib, k, part) ==
            if Readable(val) then SetAttr(lib, k, low, val, part) else Unparsed(k, part)
  {
    CutKeyVal(key, val);
    assert ParseValue(val, false) == if Readable(val) then Some(val) else None;
  }

  lemma {:induction false} ApplyOne(lib: TimeLib, k: Cookie, part: string)
    ensures ApplyParts(lib, k, TrimRightAll([part])) == ApplyPart(lib, k, TrimRight(part))
    ensures ApplyParts(lib, k, TrimRightAll([])) == k
  {
    assert TrimRightAll([part]) == [TrimRight(part)];
    assert [TrimRight(part)][1..] == [];
    assert TrimRightAll([]) == [];
  }

  lemma {:induction false} TrimKeyVal(key: string, low: string, val: string)
    requires Key(key, low)
    ensures TrimRight(KeyVal(key, val)) == KeyVal(key, TrimRight(val))
    ensures val == "" || !IsSpace(val[|val| - 1]) ==> TrimRight(val) == val
  {
    var h := key + "=";
    assert h[|h| - 1] == '=';
    TrimRightConcat(h, val);
    TrimRightIsPrefix(val);
  }

  /** The whole effect of one printed key=val. */
  lemma {:induction false} KeyValBack(lib: TimeLib, k: Cookie, key: string, low: string, val: string)
    requires Key(key, low)
    ensures var t := TrimRight(val);
            ApplyParts(lib, k, TrimRightAll([KeyVal(key, val)])) ==
            if Readable(t) then SetAttr(lib, k, low, t, KeyVal(key, t)) else Unparsed(k, KeyVal(key, t))
  {
    ApplyOne(lib, k, KeyVal(key, val));
    TrimKeyVal(key, low, val);
    ApplyKeyVal(lib, k, key, low, TrimRight(val));
  }

  lemma {:induction false} PathBack(lib: TimeLib, c: Cookie, k: Cookie)
    requires k.path == "" && k.unparsed == []
    ensures ApplyParts(lib, k, TrimRightAll(PathAttr(c))) ==
            var t := TrimRight(CleanPath(c));
            if Readable(t) then k.(path := t) else k.(unparsed := [KeyVal("Path", t)])
  {
    if c.path == "" {
      ApplyOne(lib, k, "");
    } else {
      KeyPath();
      KeyValBack(lib, k, "Path", "path", CleanPath(c));
    }
  }

  lemma {:induction false} DomainBack(lib: TimeLib, c: Cookie, k: Cookie)
    requires k.domain == ""
    ensures ApplyParts(lib, k, TrimRightAll(DomainAttr(c))) == k.(domain := NormalForm(lib, c).domain)
  {
    ApplyOne(lib, k, "");
    if c.domain != "" && ValidDomain(c.domain) {
      DomainText(c);
      PrintedDomain(lib, k, WithoutLeadingDot(c.domain));
    }
  }

  lemma {:induction false} PrintedDomain(lib: TimeLib, k: Cookie, d: string)
    requires d != "" && Readable(d) && !IsSpace(d[|d| - 1])
    ensures ApplyParts(lib, k, TrimRightAll([KeyVal("Domain", d)])) == k.(domain := d)
  {
    KeyDomain();
    KeyValBack(lib, k, "Domain", "domain", d);
    TrimKeyVal("Domain", "domain", d);
  }

  lemma {:induction false} SetExpires(lib: TimeLib, k: Cookie, val: string, part: string)
    requires lib.parse(val).Some?
    ensures SetAttr(lib, k, "expires", val, part) == k.(rawExpires := val, expires := lib.parse(val))
  {
  }

  lemma {:induction false} SetMaxAge(lib: TimeLib, k: Cookie, val: string, n: nat, part: string)
    requires n <= INT_MAX && Atoi(val) == Some(n) && (n > 0 ==> val != "" && val[0] != '0')
    ensures SetAttr(lib, k, "max-age", val, part) == k.(maxAge := if n == 0 then -1 else n)
  {
  }

  lemma {:induction false} ExpiresBack(lib: TimeLib, c: Cookie, k: Cookie)
    requires Printable(lib, c) && k.expires == None && k.rawExpires == ""
    ensures ApplyParts(lib, k, TrimRightAll(ExpiresAttr(lib, c))) ==
            k.(expires := NormalForm(lib, c).expires, rawExpires := NormalForm(lib, c).rawExpires)
  {
    ApplyOne(lib, k, "");
    if ValidExpires(lib, c.expires) {
      PrintedExpires(lib, k, c.expires.value);
    }
  }

  lemma {:induction false} PrintedExpires(lib: TimeLib, k: Cookie, t: int)
    requires TimeLaw(lib, t)
    ensures ApplyParts(lib, k, TrimRightAll([KeyVal("Expires", lib.format(t))])) ==
            k.(rawExpires := lib.format(t), expires := Some(t))
  {
    var f := lib.format(t);
    assert ValidValueByte(f[|f| - 1]);
    KeyExpires();
    KeyValBack(lib, k, "Expires", "expires", f);
    TrimKeyVal("Expires", "expires", f);
    SetExpires(lib, k, f, KeyVal("Expires", f));
  }

  lemma {:induction false} AtoiOfDigits(n: nat)
    requires n <= INT_MAX
    ensures Atoi(Digits(n)) == Some(n) && Readable(Digits(n))
    ensures var d := Digits(n); !IsSpace(d[|d| - 1]) && (n > 0 ==> d[0] != '0')
  {
    ValueOfDigits(n);
    var d := Digits(n);
    assert IsDigit(d[0]) && IsDigit(d[|d| - 1]);
  }

  lemma {:induction false} MaxAgeBack(lib: TimeLib, c: Cookie, k: Cookie)
    requires k.maxAge == 0
    ensures ApplyParts(lib, k, TrimRightAll(MaxAgeAttr(c))) == k.(maxAge := NormalForm(lib, c).maxAge)
  {
    ApplyOne(lib, k, "");
    if c.maxAge > 0 {
      PrintedMaxAge(lib, k, c.maxAge);
    } else if c.maxAge < 0 {
      assert Digits(0) == "0";
      PrintedMaxAge(lib, k, 0);
    }
  }

  lemma {:induction false} PrintedMaxAge(lib: TimeLib, k: Cookie, n: nat)
    requires n <= INT_MAX
    ensures ApplyParts(lib, k, TrimRightAll([KeyVal("Max-Age", Digits(n))])) ==
            k.(maxAge := if n == 0 then -1 else n)
  {
    var d := Digits(n);
    AtoiOfDigits(n);
    KeyMaxAge();
    KeyValBack(lib, k, "Max-Age", "max-age", d);
    TrimKeyVal("Max-Age", "max-age", d);
    SetMaxAge(lib, k, d, n, KeyVal("Max-Age", d));
  }

  lemma {:induction false} FlagBack(lib: TimeLib, k: Cookie, key: string, low: string)
    requires Key(key, low)
    ensures ApplyParts(lib, k, TrimRightAll([key])) == SetAttr(lib, k, low, "", key)
  {
    ApplyOne(lib, k, key);
    TrimRightIsPrefix(key);
  }

  lemma {:induction false} HttpOnlyBack(lib: TimeLib, c: Cookie, k: Cookie)
    requires !k.httpOnly
    ensures ApplyParts(lib, k, TrimRightAll(HttpOnlyAttr(c))) == k.(httpOnly := c.httpOnly)
  {
    ApplyOne(lib, k, "");
    KeyHttpOnly();
    FlagBack(lib, k, "HttpOnly", "httponly");
  }

  lemma {:induction false} SecureBack(lib: TimeLib, c: Cookie, k: Cookie)
    requires !k.secure
    ensures ApplyParts(lib, k, TrimRightAll(SecureAttr(c))) == k.(secure := c.secure)
  {
    ApplyOne(lib, k, "");
    KeySecure();
    FlagBack(lib, k, "Secure", "secure");
  }

  ghost predicate Site(val: string, low: string) {
    IsPrint(val) && Lower(val) == low && Readable(val) && val != "" && !IsSpace(val[|val| - 1])
  }

  lemma SiteNone() ensures Site("None", "none") {}
  lemma SiteLax() ensures Site("Lax", "lax") {}
  lemma SiteStrict() ensures Site("Strict", "strict") {}

  lemma {:induction false} SameSiteVal(lib: TimeLib, k: Cookie, val: string, low: string)
    requires Site(val, low) && low in {"none", "lax", "strict"}
    ensures ApplyParts(lib, k, TrimRightAll([KeyVal("SameSite", val)])) ==
            k.(sameSite := if low == "none" then SAME_SITE_NONE else if low == "lax" then SAME_SITE_LAX
                           else SAME_SITE_STRICT)
  {
    KeySameSite();
    KeyValBack(lib, k, "SameSite", "samesite", val);
    TrimKeyVal("SameSite", "samesite", val);
  }

  lemma {:induction false} SiteValues()
    ensures Site("None", "none") && Site("Lax", "lax") && Site("Strict", "strict")
  {
    SiteNone();
    SiteLax();
    SiteStrict();
  }

  lemma {:induction false} SameSiteBack(lib: TimeLib, c: Cookie, k: Cookie)
    requires k.sameSite == 0
    ensures ApplyParts(lib, k, TrimRightAll(SameSiteAttr(c))) == k.(sameSite := NormalForm(lib, c).sameSite)
  {
    SiteValues();
    if c.sameSite == SAME_SITE_NONE {
      SameSiteVal(lib, k, "None", "none");
    } else if c.sameSite == SAME_SITE_LAX {
      SameSiteVal(lib, k, "Lax", "lax");
    } else if c.sameSite == SAME_SITE_STRICT {
      SameSiteVal(lib, k, "Strict", "strict");
    } else {
      ApplyOne(lib, k, "");
    }
  }

  lemma {:induction false} TrimAllConcat(a: seq<string>, b: seq<string>)
    ensures TrimRightAll(a + b) == TrimRightAll(a) + TrimRightAll(b)
  {
  }

  lemma {:induction false} ApplyAppended(lib: TimeLib, k: Cookie, a: seq<string>, b: seq<string>)
    ensures ApplyParts(lib, k, TrimRightAll(a + b)) ==
            ApplyParts(lib, ApplyParts(lib, k, TrimRightAll(a)), TrimRightAll(b))
  {
    TrimAllConcat(a, b);
    ApplyPartsConcat(lib, k, TrimRightAll(a), TrimRightAll(b));
  }

  // ---- the round trip ------------------------------------------------------------------

  /** Printing and parsing any printable cookie, with no condition on its path. */
  lemma {:induction false} SetCookieReparsed(lib: TimeLib, c: Cookie)
    requires Printable(lib, c)
    ensures ParseLine(lib, Print(lib, c)) == Some(Reparsed(lib, c))
  {
    LineParses(lib, c);
    var n := NormalForm(lib, c);
    var k0 := Fresh(c.name, n.value, n.raw);
    var k1 := ApplyParts(lib, k0, TrimRightAll(PathAttr(c)));
    PathBack(lib, c, k0);
    ApplyAppended(lib, k0, PathAttr(c), OtherAttrs(lib, c));
    OthersBack(lib, c, k1);
  }

  lemma {:induction false} OthersBack(lib: TimeLib, c: Cookie, k: Cookie)
    requires Printable(lib, c)
    requires k.domain == "" && k.expires == None && k.rawExpires == "" && k.maxAge == 0
    requires !k.httpOnly && !k.secure && k.sameSite == 0
    ensures var n := NormalForm(lib, c);
            ApplyParts(lib, k, TrimRightAll(OtherAttrs(lib, c))) ==
            k.(domain := n.domain, expires := n.expires, rawExpires := n.rawExpires, maxAge := n.maxAge,
               httpOnly := n.httpOnly, secure := n.secure, sameSite := n.sameSite)
  {
    var n := NormalForm(lib, c);
    var a2 := DomainAttr(c);
    var a3 := a2 + ExpiresAttr(lib, c);
    var a4 := a3 + MaxAgeAttr(c);
    var a5 := a4 + HttpOnlyAttr(c);
    var a6 := a5 + SecureAttr(c);
    DomainBack(lib, c, k);
    var k2 := k.(domain := n.domain);
    ApplyAppended(lib, k, a2, ExpiresAttr(lib, c));
    ExpiresBack(lib, c, k2);
    var k3 := k2.(expires := n.expires, rawExpires := n.rawExpires);
    ApplyAppended(lib, k, a3, MaxAgeAttr(c));
    MaxAgeBack(lib, c, k3);
    var k4 := k3.(maxAge := n.maxAge);
    ApplyAppended(lib, k, a4, HttpOnlyAttr(c));
    HttpOnlyBack(lib, c, k4);
    var k5 := k4.(httpOnly := c.httpOnly);
    ApplyAppended(lib, k, a5, SecureAttr(c));
    SecureBack(lib, c, k5);
    var k6 := k5.(secure := c.secure);
    ApplyAppended(lib, k, a6, SameSiteAttr(c));
    SameSiteBack(lib, c, k6);
  }

  /** The round trip gives the normal form back exactly for the paths that survive it. */
  lemma {:induction false} SetCookieRoundTrip(lib: TimeLib, c: Cookie)
    requires Printable(lib, c)
    ensures ParseLine(lib, Print(lib, c)) == Some(NormalForm(lib, c)) <==> PathSurvives(c)
  {
    SetCookieReparsed(lib, c);
    PathVerdict(c);
    var p := CleanPath(c);
    assert NormalForm(lib, c).path == p && NormalForm(lib, c).unparsed == [];
  }

  lemma {:induction false} PathVerdict(c: Cookie)
    ensures var p := CleanPath(c);
            PathSurvives(c) <==> Readable(TrimRight(p)) && TrimRight(p) == p
  {
    var p := CleanPath(c);
    FilterValid(c.path, ValidPathByte);
    TrimRightIsPrefix(p);
    if p != "" {
      assert ValidPathByte(p[|p| - 1]);
    }
    if '"' in p {
      var i :| 0 <= i < |p| && p[i] == '"';
      assert !ValidValueByte(p[i]);
    }
    if '\\' in p {
      var i :| 0 <= i < |p| && p[i] == '\\';
      assert !ValidValueByte(p[i]);
    }
    if PathSurvives(c) {
      forall i | 0 <= i < |p| ensures ValidValueByte(p[i]) {
        assert p[i] in p && ValidPathByte(p[i]);
      }
    }
  }

  // ---- printing again ------------------------------------------------------------------

  lemma {:induction false} ValueStable(c: Cookie)
    ensures SanitizeValue(Filter(c.value, ValidValueByte)) == SanitizeValue(c.value)
  {
    FilterValid(c.value, ValidValueByte);
    FilterValid(Filter(c.value, ValidValueByte), ValidValueByte);
  }

  lemma {:induction false} DomainStable(lib: TimeLib, c: Cookie, r: Cookie)
    requires r.domain == NormalForm(lib, c).domain
    ensures DomainAttr(r) == DomainAttr(c)
  {
    if c.domain != "" && ValidDomain(c.domain) {
      DomainText(c);
    }
  }

  /** Everything but the path prints the same after a round trip. */
  lemma {:induction false} OthersStable(lib: TimeLib, c: Cookie, r: Cookie)
    requires Printable(lib, c)
    requires r == NormalForm(lib, c).(path := r.path, unparsed := r.unparsed)
    ensures NameValue(r) == NameValue(c) && OtherAttrs(lib, r) == OtherAttrs(lib, c) && Printable(lib, r)
  {
    ValueStable(c);
    DomainStable(lib, c, r);
    assert ExpiresAttr(lib, r) == ExpiresAttr(lib, c);
    assert MaxAgeAttr(r) == MaxAgeAttr(c);
    assert HttpOnlyAttr(r) == HttpOnlyAttr(c) && SecureAttr(r) == SecureAttr(c);
    assert SameSiteAttr(r) == SameSiteAttr(c);
  }

  /** Printed lines are equal only if they list the same attributes. */
  lemma {:induction false} PrintInjective(lib: TimeLib, c: Cookie, d: Cookie)
    requires Printable(lib, c) && Printable(lib, d) && Print(lib, c) == Print(lib, d)
    ensures Attributes(lib, c) == Attributes(lib, d)
  {
    var a, b := Attributes(lib, c), Attributes(lib, d);
    var p, q := [NameValue(c)] + Blanked(a), [NameValue(d)] + Blanked(b);
    NameValueText(c);
    NameValueText(d);
    AttributesAreText(lib, c);
    AttributesAreText(lib, d);
    ListedIsJoin(NameValue(c), a);
    ListedIsJoin(NameValue(d), b);
    PiecesFree(NameValue(c), a);
    PiecesFree(NameValue(d), b);
    SplitOfJoin(p, ';');
    SplitOfJoin(q, ';');
    forall i | 0 <= i < |a| ensures a[i] == b[i] {
      assert p[i + 1] == q[i + 1];
      assert (" " + a[i])[1..] == a[i] && (" " + b[i])[1..] == b[i];
    }
  }

  /** Printing what was read back gives the same line again, except when a path was given that
      does not come back (refused, shortened or filtered away entirely). */
  lemma {:induction false} PrintStable(lib: TimeLib, c: Cookie)
    requires Printable(lib, c)
    ensures Print(lib, Reparsed(lib, c)) == Print(lib, c) <==>
            c.path == "" || (PathSurvives(c) && CleanPath(c) != "")
  {
    var r := Reparsed(lib, c);
    OthersStable(lib, c, r);
    PathVerdict(c);
    TrimRightIsPrefix(CleanPath(c));
    if c.path == "" || (PathSurvives(c) && CleanPath(c) != "") {
      PathStable(c, r);
    } else if Print(lib, r) == Print(lib, c) {
      PrintInjective(lib, r, c);
      PathAttrsDiffer(c, r, OtherAttrs(lib, c));
      assert false;
    }
  }

  lemma {:induction false} PathStable(c: Cookie, r: Cookie)
    requires c.path == "" || CleanPath(c) != ""
    requires r.path == CleanPath(c)
    ensures PathAttr(r) == PathAttr(c)
  {
    FilterValid(c.path, ValidPathByte);
    FilterValid(r.path, ValidPathByte);
  }

  lemma {:induction false} PathAttrsDiffer(c: Cookie, r: Cookie, others: seq<string>)
    requires c.path != "" && r.path <= CleanPath(c) && (r.path == "" || r.path != CleanPath(c))
    ensures PathAttr(r) + others != PathAttr(c) + others
  {
    FilterValid(c.path, ValidPathByte);
    assert Every(r.path, ValidPathByte);
    FilterValid(r.path, ValidPathByte);
    if r.path == "" {
      assert |PathAttr(r) + others| == |others|;
    } else {
      assert (PathAttr(r) + others)[0] == KeyVal("Path", r.path);
      assert (PathAttr(c) + others)[0] == KeyVal("Path", CleanPath(c));
      assert |KeyVal("Path", r.path)| < |KeyVal("Path", CleanPath(c))|;
    }
  }

  // ---- a whole response's worth of cookies ---------------------------------------------

  /** SetCookie: an unprintable cookie adds no line. */
  ghost function LineOf(lib: TimeLib, c: Cookie): seq<string> {
    if Print(lib, c) != "" then [Print(lib, c)] else []
  }

  /** SetCookie for each cookie in turn. */
  ghost function SetLines(lib: TimeLib, cookies: seq<Cookie>): seq<string> {
    if cookies == [] then []
    else LineOf(lib, cookies[0]) + SetLines(lib, cookies[1..])
  }

  ghost function ReadBack(lib: TimeLib, cookies: seq<Cookie>): seq<Cookie> {
    if cookies == [] then []
    else (if ValidName(cookies[0].name) then [Reparsed(lib, cookies[0])] else []) + ReadBack(lib, cookies[1..])
  }

  /** Any list of cookies set on a response reads back in order, the invalidly named ones dropped. */
  lemma {:induction false} SetCookiesRoundTrip(lib: TimeLib, cookies: seq<Cookie>)
    requires forall i :: 0 <= i < |cookies| ==> ValidName(cookies[i].name) ==> Printable(lib, cookies[i])
    ensures ParseLines(lib, SetLines(lib, cookies)) == ReadBack(lib, cookies)
  {
    if cookies != [] {
      var c, rest := cookies[0], cookies[1..];
      SetCookiesRoundTrip(lib, rest);
      ParseLinesConcat(lib, LineOf(lib, c), SetLines(lib, rest));
      OneCookieBack(lib, c);
    }
  }

  lemma {:induction false} OneCookieBack(lib: TimeLib, c: Cookie)
    requires ValidName(c.name) ==> Printable(lib, c)
    ensures ParseLines(lib, LineOf(lib, c)) == if ValidName(c.name) then [Reparsed(lib, c)] else []
  {
    if ValidName(c.name) {
      PrintsSomething(lib, c);
      SetCookieReparsed(lib, c);
      ParseOneLine(lib, Print(lib, c));
    }
  }

  lemma {:induction false} PrintsSomething(lib: TimeLib, c: Cookie)
    requires ValidName(c.name)
    ensures Print(lib, c) != ""
  {
    NameValueText(c);
  }

  lemma {:induction false} ParseOneLine(lib: TimeLib, line: string)
    ensures ParseLines(lib, [line]) == match ParseLine(lib, line) case None => [] case Some(c) => [c]
  {
    assert [line][1..] == [];
  }

  lemma {:induction false} SetLinesConcat(lib: TimeLib, a: seq<Cookie>, b: seq<Cookie>)
    ensures SetLines(lib, a + b) == SetLines(lib, a) + SetLines(lib, b)
  {
    if a == [] {
      assert a + b == b;
    } else {
      assert (a + b)[0] == a[0] && (a + b)[1..] == a[1..] + b;
      SetLinesConcat(lib, a[1..], b);
      ConcatAssoc(LineOf(lib, a[0]), SetLines(lib, a[1..]), SetLines(lib, b));
    }
  }

  lemma {:induction false} SetLinesSnoc(lib: TimeLib, cookies: seq<Cookie>, i: nat)
    requires i < |cookies|
    ensures SetLines(lib, cookies[..i + 1]) == SetLines(lib, cookies[..i]) + LineOf(lib, cookies[i])
  {
    var one := [cookies[i]];
    assert cookies[..i + 1] == cookies[..i] + one && one[1..] == [];
    SetLinesConcat(lib, cookies[..i], one);
  }

  method SetCookie(lib: TimeLib, lines: seq<string>, c: Cookie) returns (more: seq<string>)
    ensures more == lines + LineOf(lib, c)
  {
    var v := String(lib, c);
    more := if v != "" then lines + [v] else lines;
  }

  /** SetCookie for each cookie. */
  method SetCookies(lib: TimeLib, cookies: seq<Cookie>) returns (lines: seq<string>)
    ensures lines == SetLines(lib, cookies)
  {
    lines := [];
    for i := 0 to |cookies|
      invariant lines == SetLines(lib, cookies[..i])
    {
      SetLinesSnoc(lib, cookies, i);
      lines := SetCookie(lib, lines, cookies[i]);
    }
    assert cookies[..|cookies|] == cookies;
  }

  /** A server that sets cookies, and a reader of its lines. */
  method SetAndRead(lib: TimeLib, cookies: seq<Cookie>) returns (back: seq<Cookie>)
    requires forall i :: 0 <= i < |cookies| ==> ValidName(cookies[i].name) ==> Printable(lib, cookies[i])
    ensures back == ReadBack(lib, cookies)
  {
    var lines := SetCookies(lib, cookies);
    SetCookiesRoundTrip(lib, cookies);
    back := ReadSetCookies(lib, lines);
  }
}
