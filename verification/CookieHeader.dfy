/** What the Cookie header reader sees: exactly, for any line; and for lines built by AddCookie. */
module CookieHeader {
  import opened Text
  import opened Cookie
  import CookieRoundTrip

  // ---- any header whatever -------------------------------------------------------

  /** The pieces before the first empty one. */
  function BeforeEmpty(pieces: seq<string>): seq<string> {
    if pieces == [] || pieces[0] == "" then [] else [pieces[0]] + BeforeEmpty(pieces[1..])
  }

  function ParsePieces(pieces: seq<string>, filter: string): seq<Cookie> {
    if pieces == [] then [] else Kept(ParsePair(pieces[0]), filter) + ParsePieces(pieces[1..], filter)
  }

  /** A part that begins with ';' names no cookie. */
  lemma {:induction false} LeadingSemicolon(part: string)
    requires part != "" && part[0] == ';'
    ensures ParsePair(part).None?
  {
    TrimRightKeepsHead(part);
    var p := Trim(part);
    var j := Index(p, '=');
    var name := if j >= 0 then p[..j] else p;
    assert j != 0;
    assert name[0] == ';' && !IsToken(name[0]);
  }

  /** The reader yields the cookies of the ';'-separated pieces up to the first empty piece, and
      nothing of what follows it. */
  lemma {:induction false} ReadsUpToEmptyPiece(line: string, filter: string)
    ensures ReadRest(line, filter) == ParsePieces(BeforeEmpty(Split(line, ';')), filter)
    decreases |line|
  {
    var i := Index(line, ';');
    if line == "" {
      assert Split(line, ';') == [""];
    } else if i > 0 {
      ReadsUpToEmptyPiece(line[i + 1..], filter);
      PiecesCons(line[..i], Split(line[i + 1..], ';'), filter);
    } else if i == 0 {
      LeadingSemicolon(line);
      assert Split(line, ';')[0] == "";
    } else {
      PiecesCons(line, [], filter);
      assert Split(line, ';') == [line] + [];
    }
  }

  lemma {:induction false} PiecesCons(p: string, rest: seq<string>, filter: string)
    requires p != ""
    ensures ParsePieces(BeforeEmpty([p] + rest), filter) ==
            Kept(ParsePair(p), filter) + ParsePieces(BeforeEmpty(rest), filter)
    ensures ParsePieces([p] + rest, filter) == Kept(ParsePair(p), filter) + ParsePieces(rest, filter)
  {
    assert ([p] + rest)[1..] == rest;
    var b := BeforeEmpty([p] + rest);
    assert b == [p] + BeforeEmpty(rest) && b[1..] == BeforeEmpty(rest);
  }

  /** The first empty piece and what follows it. */
  function FromEmpty(pieces: seq<string>): seq<string> {
    if pieces == [] || pieces[0] == "" then pieces else FromEmpty(pieces[1..])
  }

  lemma {:induction false} ParseBothParts(pieces: seq<string>, filter: string)
    ensures ParsePieces(pieces, filter) ==
            ParsePieces(BeforeEmpty(pieces), filter) + ParsePieces(FromEmpty(pieces), filter)
  {
    if pieces != [] && pieces[0] != "" {
      var rest := pieces[1..];
      assert pieces == [pieces[0]] + rest;
      PiecesCons(pieces[0], rest, filter);
      ParseBothParts(rest, filter);
      ConcatAssoc(Kept(ParsePair(pieces[0]), filter), ParsePieces(BeforeEmpty(rest), filter),
                  ParsePieces(FromEmpty(rest), filter));
    }
  }

  /** All the pieces of a line are read if and only if nothing from its first empty piece on is a cookie. */
  lemma {:induction false} ReadsAllExactly(line: string, filter: string)
    ensures ReadRest(line, filter) == ParsePieces(Split(line, ';'), filter) <==>
            ParsePieces(FromEmpty(Split(line, ';')), filter) == []
  {
    ReadsUpToEmptyPiece(line, filter);
    ParseBothParts(Split(line, ';'), filter);
  }

  /** An empty piece hides the rest of its line. */
  lemma {:induction false} EmptyPieceHidesRest(rest: string, filter: string)
    ensures ReadRest(";" + rest, filter) == []
  {
    var line := ";" + rest;
    assert Index(line, ';') == 0;
    LeadingSemicolon(line);
  }

  function Named(cookies: seq<Cookie>, name: string): seq<Cookie> {
    if cookies == [] then []
    else (if cookies[0].name == name then [cookies[0]] else []) + Named(cookies[1..], name)
  }

  lemma {:induction false} NamedConcat(a: seq<Cookie>, b: seq<Cookie>, name: string)
    ensures Named(a + b, name) == Named(a, name) + Named(b, name)
  {
    if a == [] {
      assert a + b == b;
    } else {
      assert (a + b)[0] == a[0] && (a + b)[1..] == a[1..] + b;
      NamedConcat(a[1..], b, name);
    }
  }

  lemma {:induction false} KeptNamed(c: Option<Cookie>, name: string)
    requires name != ""
    ensures Kept(c, name) == Named(Kept(c, ""), name)
  {
    if c.Some? {
      assert [c.value][1..] == [];
    }
  }

  lemma {:induction false} FilterRest(line: string, name: string)
    requires name != ""
    ensures ReadRest(line, name) == Named(ReadRest(line, ""), name)
    decreases |line|
  {
    if line != "" {
      var i := Index(line, ';');
      if i > 0 {
        KeptNamed(ParsePair(line[..i]), name);
        FilterRest(line[i + 1..], name);
        NamedConcat(Kept(ParsePair(line[..i]), ""), ReadRest(line[i + 1..], ""), name);
      } else {
        KeptNamed(ParsePair(line), name);
      }
    }
  }

  /** Reading with a name filter is filtering the unfiltered read, for any header whatever. */
  lemma {:induction false} FilterLaw(lines: seq<string>, name: string)
    requires name != ""
    ensures ReadLines(lines, name) == Named(ReadLines(lines, ""), name)
  {
    if lines != [] {
      FilterRest(Trim(lines[0]), name);
      FilterLaw(lines[1..], name);
      NamedConcat(ReadRest(Trim(lines[0]), ""), ReadLines(lines[1..], ""), name);
    }
  }

  // ---- lines written by AddCookie --------------------------------------------------

  /** The Cookie line after AddCookie for each cookie in turn. */
  function AddedAll(line: string, cookies: seq<Cookie>): string
    decreases |cookies|
  {
    if cookies == [] then line else AddedAll(Added(line, cookies[0]), cookies[1..])
  }

  ghost predicate AllNamed(cookies: seq<Cookie>) {
    forall i :: 0 <= i < |cookies| ==> ValidName(cookies[i].name)
  }

  function Pairs(cookies: seq<Cookie>): (r: seq<string>)
    ensures |r| == |cookies| && forall i :: 0 <= i < |cookies| ==> r[i] == NameValue(cookies[i])
  {
    seq(|cookies|, i requires 0 <= i < |cookies| => NameValue(cookies[i]))
  }

  /** What the reader should give back: names in order, values filtered. */
  function Sent(cookies: seq<Cookie>): (r: seq<Cookie>)
    ensures |r| == |cookies|
    ensures forall i :: 0 <= i < |cookies| ==>
              r[i] == Fresh(cookies[i].name, Filter(cookies[i].value, ValidValueByte), "")
  {
    seq(|cookies|, i requires 0 <= i < |cookies| =>
          Fresh(cookies[i].name, Filter(cookies[i].value, ValidValueByte), ""))
  }

  lemma {:induction false} ValidNameKept(c: Cookie)
    requires ValidName(c.name)
    ensures Pair(c) == NameValue(c) && Pair(c) != ""
  {
    forall i | 0 <= i < |c.name| ensures SanitizeName(c.name)[i] == c.name[i] {
      assert IsToken(c.name[i]);
    }
    assert SanitizeName(c.name) == c.name;
  }

  lemma {:induction false} AddedIsListed(line: string, cookies: seq<Cookie>)
    requires line != "" && AllNamed(cookies)
    ensures AddedAll(line, cookies) == line + Listed(Pairs(cookies))
    decreases |cookies|
  {
    if cookies == [] {
      assert Pairs(cookies) == [];
    } else {
      var c, rest := cookies[0], cookies[1..];
      ValidNameKept(c);
      var next := line + "; " + Pair(c);
      AddedIsListed(next, rest);
      assert Pairs(cookies)[1..] == Pairs(rest);
      ConcatAssoc(line, "; ", Pair(c));
      ConcatAssoc(line, "; " + Pair(c), Listed(Pairs(rest)));
    }
  }

  lemma {:induction false} PairParses(c: Cookie, blank: bool)
    requires ValidName(c.name)
    ensures ParsePair(if blank then " " + NameValue(c) else NameValue(c)) ==
            Some(Fresh(c.name, Filter(c.value, ValidValueByte), ""))
  {
    var nv := NameValue(c);
    assert Trim(if blank then " " + nv else nv) == nv by {
      CookieRoundTrip.NameValueText(c);
      TrimRightKeepsHead(nv);
      TrimRightIsPrefix(nv);
      TrimBlankThen(nv);
    }
    CookieRoundTrip.EveryFree(c.name, IsToken, '=');
    CookieRoundTrip.CutKeyVal(c.name, SanitizeValue(c.value));
    CookieRoundTrip.QuotesUndone(c.value);
  }

  lemma {:induction false} NoEmptyPiece(pieces: seq<string>)
    requires forall i :: 0 <= i < |pieces| ==> pieces[i] != ""
    ensures BeforeEmpty(pieces) == pieces
  {
    if pieces != [] {
      NoEmptyPiece(pieces[1..]);
    }
  }

  lemma {:induction false} SentCons(cookies: seq<Cookie>)
    requires cookies != []
    ensures Sent(cookies) == Sent([cookies[0]]) + Sent(cookies[1..])
    ensures CookieRoundTrip.Blanked(Pairs(cookies)) ==
            [" " + NameValue(cookies[0])] + CookieRoundTrip.Blanked(Pairs(cookies[1..]))
  {
  }

  lemma {:induction false} PairRead(c: Cookie, blank: bool)
    requires ValidName(c.name)
    ensures Kept(ParsePair(if blank then " " + NameValue(c) else NameValue(c)), "") == Sent([c])
  {
    PairParses(c, blank);
  }

  lemma {:induction false} ParseBlanked(cookies: seq<Cookie>)
    requires AllNamed(cookies)
    ensures ParsePieces(CookieRoundTrip.Blanked(Pairs(cookies)), "") == Sent(cookies)
    decreases |cookies|
  {
    if cookies == [] {
      assert CookieRoundTrip.Blanked(Pairs(cookies)) == [];
    } else {
      ParseBlanked(cookies[1..]);
      SentCons(cookies);
      PairRead(cookies[0], true);
      PiecesCons(" " + NameValue(cookies[0]), CookieRoundTrip.Blanked(Pairs(cookies[1..])), "");
    }
  }

  /** A line of listed pairs ends in no blank. */
  lemma {:induction false} LineTrimmed(line: string, cookies: seq<Cookie>)
    requires line != "" && !IsSpace(line[0]) && !IsSpace(line[|line| - 1]) && AllNamed(cookies)
    ensures Trim(line + Listed(Pairs(cookies))) == line + Listed(Pairs(cookies))
    decreases |cookies|
  {
    if cookies == [] {
      assert Pairs(cookies) == [];
      assert line + "" == line;
      TrimRightKeepsHead(line);
      TrimRightIsPrefix(line);
    } else {
      var c, rest := cookies[0], cookies[1..];
      CookieRoundTrip.NameValueText(c);
      var next := line + ("; " + NameValue(c));
      assert next[0] == line[0] && next[|next| - 1] == NameValue(c)[|NameValue(c)| - 1];
      LineTrimmed(next, rest);
      assert Pairs(cookies)[1..] == Pairs(rest);
      ConcatAssoc(line, "; " + NameValue(c), Listed(Pairs(rest)));
    }
  }

  lemma {:induction false} PairsFree(cookies: seq<Cookie>)
    requires AllNamed(cookies) && cookies != []
    ensures var p := [NameValue(cookies[0])] + CookieRoundTrip.Blanked(Pairs(cookies[1..]));
            AllFree(p, ';') && forall i :: 0 <= i < |p| ==> p[i] != ""
  {
    var rest := cookies[1..];
    var p := [NameValue(cookies[0])] + CookieRoundTrip.Blanked(Pairs(rest));
    CookieRoundTrip.NameValueText(cookies[0]);
    forall i | 0 <= i < |p| ensures ';' !in p[i] && p[i] != "" {
      if i > 0 {
        CookieRoundTrip.NameValueText(rest[i - 1]);
        assert p[i] == " " + NameValue(rest[i - 1]);
      }
    }
  }

  /** Adding any validly named cookies to a request without a Cookie header and reading them back
      gives the same names in order with filtered values. */
  lemma {:induction false} AddThenRead(cookies: seq<Cookie>)
    requires AllNamed(cookies) && cookies != []
    ensures ReadLines([AddedAll("", cookies)], "") == Sent(cookies)
  {
    var c, rest := cookies[0], cookies[1..];
    var nv := NameValue(c);
    var line := nv + Listed(Pairs(rest));
    CookieRoundTrip.NameValueText(c);
    assert AddedAll("", cookies) == line by {
      ValidNameKept(c);
      AddedIsListed(nv, rest);
    }
    LineTrimmed(nv, rest);
    LineReads(cookies, line);
    assert [line][1..] == [] && ReadLines([], "") == [];
  }

  lemma {:induction false} LinePieces(cookies: seq<Cookie>, line: string, pieces: seq<string>)
    requires AllNamed(cookies) && cookies != []
    requires line == NameValue(cookies[0]) + Listed(Pairs(cookies[1..]))
    requires pieces == [NameValue(cookies[0])] + CookieRoundTrip.Blanked(Pairs(cookies[1..]))
    ensures Split(line, ';') == pieces && BeforeEmpty(pieces) == pieces
  {
    CookieRoundTrip.ListedIsJoin(NameValue(cookies[0]), Pairs(cookies[1..]));
    PairsFree(cookies);
    SplitOfJoin(pieces, ';');
    NoEmptyPiece(pieces);
  }

  lemma {:induction false} LineReads(cookies: seq<Cookie>, line: string)
    requires AllNamed(cookies) && cookies != []
    requires line == NameValue(cookies[0]) + Listed(Pairs(cookies[1..]))
    ensures ReadRest(line, "") == Sent(cookies)
  {
    var nv, rest := NameValue(cookies[0]), cookies[1..];
    var tail := CookieRoundTrip.Blanked(Pairs(rest));
    ReadsUpToEmptyPiece(line, "");
    LinePieces(cookies, line, [nv] + tail);
    CookieRoundTrip.NameValueText(cookies[0]);
    PiecesCons(nv, tail, "");
    ParseBlanked(rest);
    PairRead(cookies[0], false);
    SentCons(cookies);
  }

  lemma {:induction false} AddedAllSnoc(line: string, cookies: seq<Cookie>, i: nat)
    requires i < |cookies|
    ensures AddedAll(line, cookies[..i + 1]) == Added(AddedAll(line, cookies[..i]), cookies[i])
    decreases i
  {
    if i == 0 {
      assert cookies[..1][1..] == [];
    } else {
      AddedAllSnoc(Added(line, cookies[0]), cookies[1..], i - 1);
      assert cookies[..i + 1][1..] == cookies[1..][..i] && cookies[..i][1..] == cookies[1..][..i - 1];
    }
  }

  /** A client that adds cookies to a new request. */
  method AddAll(cookies: seq<Cookie>) returns (r: Request)
    ensures fresh(r)
    ensures r.header == if cookies == [] then map[] else map["Cookie" := [AddedAll("", cookies)]]
  {
    r := new Request();
    for i := 0 to |cookies|
      invariant fresh(r)
      invariant r.header == if i == 0 then map[] else map["Cookie" := [AddedAll("", cookies[..i])]]
    {
      AddedAllSnoc("", cookies, i);
      assert cookies[..0] == [];
      r.AddCookie(cookies[i]);
    }
    assert cookies[..|cookies|] == cookies;
  }

  /** And a server that reads them. */
  method AddAndRead(cookies: seq<Cookie>) returns (back: seq<Cookie>)
    requires AllNamed(cookies)
    ensures back == Sent(cookies)
  {
    var r := AddAll(cookies);
    if cookies != [] { AddThenRead(cookies); }
    back := ReadCookies(if "Cookie" in r.header then r.header["Cookie"] else [], "");
  }
}
