/** What the texts of cookies are, for the printer and for the two readers by themselves. */
module CookieText {
  import opened Text
  import opened DomainName
  import opened Cookie
  import CookieRoundTrip

  // ---- bytes ----------------------------------------------------------------------------------

  /** A value byte is printable ASCII and none of three; a path byte is none of one; a token byte is a
      letter, a digit or one of fifteen marks. */
  lemma {:induction false} ByteClasses(c: char)
    ensures ValidValueByte(c) <==> 0x20 <= c as int <= 0x7e && c != '"' && c != ';' && c != '\\'
    ensures ValidPathByte(c) <==> 0x20 <= c as int <= 0x7e && c != ';'
    ensures IsToken(c) <==>
            || 'a' <= c <= 'z' || 'A' <= c <= 'Z' || '0' <= c <= '9'
            || c == '!' || c == '#' || c == '$' || c == '%' || c == '&' || c == '\'' || c == '*' || c == '+'
            || c == '-' || c == '.' || c == '^' || c == '_' || c == '`' || c == '|' || c == '~'
  {
  }

  // ---- the printer -------------------------------------------------------------------------------

  lemma {:induction false} PathAndDomainText(c: Cookie, a: string)
    ensures a in PathAttr(c) <==> c.path != "" && a == "Path=" + Filter(c.path, ValidPathByte)
    ensures a in DomainAttr(c) <==>
            c.domain != "" && ValidDomain(c.domain) && a == "Domain=" + WithoutLeadingDot(c.domain)
  {
    assert "Path" + "=" == "Path=" && "Domain" + "=" == "Domain=";
  }

  lemma {:induction false} ExpiresText(lib: TimeLib, c: Cookie, a: string)
    ensures a in ExpiresAttr(lib, c) <==>
            ValidExpires(lib, c.expires) && a == "Expires=" + lib.format(c.expires.value)
  {
    assert "Expires" + "=" == "Expires=";
  }

  lemma {:induction false} MaxAgeText(c: Cookie, a: string)
    ensures a in MaxAgeAttr(c) <==>
            (c.maxAge > 0 && a == "Max-Age=" + Digits(c.maxAge)) || (c.maxAge < 0 && a == "Max-Age=0")
  {
    assert "Max-Age" + "=" == "Max-Age=" && "Max-Age=" + "0" == "Max-Age=0";
  }

  lemma {:induction false} SameSiteText(c: Cookie, a: string)
    ensures a in SameSiteAttr(c) <==>
            || (c.sameSite == 2 && a == "SameSite=Lax")
            || (c.sameSite == 3 && a == "SameSite=Strict")
            || (c.sameSite == 4 && a == "SameSite=None")
  {
    assert "SameSite" + "=" == "SameSite=";
    assert "SameSite=" + "Lax" == "SameSite=Lax";
    assert "SameSite=" + "Strict" == "SameSite=Strict";
    assert "SameSite=" + "None" == "SameSite=None";
  }

  lemma {:induction false} FlagText(c: Cookie, a: string)
    ensures a in HttpOnlyAttr(c) <==> c.httpOnly && a == "HttpOnly"
    ensures a in SecureAttr(c) <==> c.secure && a == "Secure"
  {
  }

  lemma {:induction false} InAttributes(lib: TimeLib, c: Cookie, a: string)
    ensures a in Attributes(lib, c) <==>
            || a in PathAttr(c) || a in DomainAttr(c) || a in ExpiresAttr(lib, c) || a in MaxAgeAttr(c)
            || a in HttpOnlyAttr(c) || a in SecureAttr(c) || a in SameSiteAttr(c)
  {
  }

  /** The attributes of a printed cookie, each with its exact text. */
  lemma {:induction false} PrintedAttributes(lib: TimeLib, c: Cookie, a: string)
    ensures a in Attributes(lib, c) <==>
            || (c.path != "" && a == "Path=" + Filter(c.path, ValidPathByte))
            || (c.domain != "" && ValidDomain(c.domain) && a == "Domain=" + WithoutLeadingDot(c.domain))
            || (ValidExpires(lib, c.expires) && a == "Expires=" + lib.format(c.expires.value))
            || (c.maxAge > 0 && a == "Max-Age=" + Digits(c.maxAge))
            || (c.maxAge < 0 && a == "Max-Age=0")
            || (c.httpOnly && a == "HttpOnly")
            || (c.secure && a == "Secure")
            || (c.sameSite == 2 && a == "SameSite=Lax")
            || (c.sameSite == 3 && a == "SameSite=Strict")
            || (c.sameSite == 4 && a == "SameSite=None")
  {
    InAttributes(lib, c, a);
    PathAndDomainText(c, a);
    ExpiresText(lib, c, a);
    MaxAgeText(c, a);
    FlagText(c, a);
    SameSiteText(c, a);
  }

  lemma {:induction false} Differ(key: string, val: string, flag: string)
    requires '=' !in flag
    ensures key + "=" + val != flag
  {
    assert (key + "=" + val)[|key|] == '=';
  }

  /** So each flag is printed exactly when it is set. */
  lemma {:induction false} PrintedFlags(lib: TimeLib, c: Cookie)
    ensures "Secure" in Attributes(lib, c) <==> c.secure
    ensures "HttpOnly" in Attributes(lib, c) <==> c.httpOnly
  {
    FlagIsNoKeyVal(lib, c, "Secure");
    FlagIsNoKeyVal(lib, c, "HttpOnly");
    InAttributes(lib, c, "Secure");
    InAttributes(lib, c, "HttpOnly");
    FlagText(c, "Secure");
    FlagText(c, "HttpOnly");
    assert |"Secure"| != |"HttpOnly"|;
  }

  lemma {:induction false} FlagIsNoKeyVal(lib: TimeLib, c: Cookie, flag: string)
    requires '=' !in flag
    ensures flag !in PathAttr(c) && flag !in DomainAttr(c) && flag !in ExpiresAttr(lib, c)
    ensures flag !in MaxAgeAttr(c) && flag !in SameSiteAttr(c)
  {
    forall key, val ensures KeyVal(key, val) != flag {
      Differ(key, val, flag);
    }
  }

  /** Where an attribute belongs, by its first letters. */
  function Rank(a: string): int {
    if a == "" then -1
    else match a[0]
      case 'P' => 0
      case 'D' => 1
      case 'E' => 2
      case 'M' => 3
      case 'H' => 4
      case _ => if |a| > 1 && a[1] == 'e' then 5 else 6
  }

  /** All of one rank; in order, and no rank twice. */
  ghost predicate Ranked(attrs: seq<string>, lo: int, hi: int) {
    && (forall i :: 0 <= i < |attrs| ==> lo <= Rank(attrs[i]) <= hi)
    && (forall i, j :: 0 <= i < j < |attrs| ==> Rank(attrs[i]) < Rank(attrs[j]))
  }

  lemma {:induction false} RankedConcat(a: seq<string>, b: seq<string>, lo: int, mid: int, hi: int)
    requires Ranked(a, lo, mid) && Ranked(b, mid + 1, hi) && lo <= mid <= hi
    ensures Ranked(a + b, lo, hi)
  {
  }

  lemma {:induction false} KeyRanks(key: string, val: string)
    requires |key| > 1
    ensures Rank(KeyVal(key, val)) == Rank(key)
  {
    assert KeyVal(key, val)[0] == key[0] && KeyVal(key, val)[1] == key[1];
  }

  lemma {:induction false} PathRanked(c: Cookie)
    ensures Ranked(PathAttr(c), 0, 0) && Ranked(DomainAttr(c), 1, 1)
  {
    KeyRanks("Path", Filter(c.path, ValidPathByte));
    KeyRanks("Domain", WithoutLeadingDot(c.domain));
  }

  lemma {:induction false} ExpiresRanked(lib: TimeLib, c: Cookie)
    ensures Ranked(ExpiresAttr(lib, c), 2, 2)
  {
    if c.expires.Some? { KeyRanks("Expires", lib.format(c.expires.value)); }
  }

  lemma {:induction false} MaxAgeRanked(c: Cookie)
    ensures Ranked(MaxAgeAttr(c), 3, 3)
  {
    KeyRanks("Max-Age", if c.maxAge > 0 then Digits(c.maxAge) else "0");
  }

  lemma {:induction false} FlagsRanked(c: Cookie)
    ensures Ranked(HttpOnlyAttr(c), 4, 4) && Ranked(SecureAttr(c), 5, 5)
  {
    assert Rank("HttpOnly") == 4 && Rank("Secure") == 5;
  }

  lemma {:induction false} SameSiteRanked(c: Cookie)
    ensures Ranked(SameSiteAttr(c), 6, 6)
  {
    KeyRanks("SameSite", "None");
    KeyRanks("SameSite", "Lax");
    KeyRanks("SameSite", "Strict");
  }

  /** The attributes come in the order path, domain, expires, max-age, httponly, secure, samesite, none twice. */
  lemma {:induction false} PrintedOrder(lib: TimeLib, c: Cookie)
    ensures Ranked(Attributes(lib, c), 0, 6)
  {
    PathRanked(c);
    ExpiresRanked(lib, c);
    MaxAgeRanked(c);
    FlagsRanked(c);
    SameSiteRanked(c);
    var a1 := DomainAttr(c);
    var a2 := a1 + ExpiresAttr(lib, c);
    var a3 := a2 + MaxAgeAttr(c);
    var a4 := a3 + HttpOnlyAttr(c);
    var a5 := a4 + SecureAttr(c);
    var a6 := a5 + SameSiteAttr(c);
    RankedConcat(a1, ExpiresAttr(lib, c), 1, 1, 2);
    RankedConcat(a2, MaxAgeAttr(c), 1, 2, 3);
    RankedConcat(a3, HttpOnlyAttr(c), 1, 3, 4);
    RankedConcat(a4, SecureAttr(c), 1, 4, 5);
    RankedConcat(a5, SameSiteAttr(c), 1, 5, 6);
    RankedConcat(PathAttr(c), a6, 0, 0, 6);
  }

  /** The printed line, cut at its semicolons: the name, '=' and the filtered value, in quotes exactly when it
      has a space or a comma; then each attribute after a space. */
  lemma {:induction false} PrintedLine(lib: TimeLib, c: Cookie)
    requires CookieRoundTrip.Printable(lib, c)
    ensures var f := Filter(c.value, ValidValueByte);
            var value := if (exists i :: 0 <= i < |f| && (f[i] == ' ' || f[i] == ',')) then "\"" + f + "\"" else f;
            var attrs := Attributes(lib, c);
            var pieces := Split(Print(lib, c), ';');
            && |pieces| == 1 + |attrs| && pieces[0] == c.name + "=" + value
            && forall i :: 0 <= i < |attrs| ==> pieces[i + 1] == " " + attrs[i]
  {
    var attrs := Attributes(lib, c);
    CookieRoundTrip.NameValueText(c);
    CookieRoundTrip.AttributesAreText(lib, c);
    CookieRoundTrip.ListedIsJoin(NameValue(c), attrs);
    CookieRoundTrip.PiecesFree(NameValue(c), attrs);
    SplitOfJoin([NameValue(c)] + CookieRoundTrip.Blanked(attrs), ';');
    QuotedExactly(c.value);
  }

  lemma {:induction false} QuotedExactly(v: string)
    ensures var f := Filter(v, ValidValueByte);
            SanitizeValue(v) ==
            if (exists i :: 0 <= i < |f| && (f[i] == ' ' || f[i] == ',')) then "\"" + f + "\"" else f
  {
  }
}
