/** What the cookie readers make of any text at all. */
module CookieReading {
  import opened Text
  import opened Cookie

  // ---- parts ----------------------------------------------------------------------------------

  function PartName(part: string): string { if Index(part, '=') >= 0 then part[..Index(part, '=')] else part }

  function PartValue(part: string): string { if Index(part, '=') >= 0 then part[Index(part, '=') + 1..] else "" }

  /** Up to the first '=' and after it; without one all of it is the name. */
  lemma {:induction false} NameAndValue(part: string)
    ensures '=' !in PartName(part)
    ensures part == if '=' in part then PartName(part) + "=" + PartValue(part) else PartName(part)
    ensures '=' !in part ==> PartValue(part) == ""
  {
    if '=' in part { assert part[Index(part, '=')] == '='; }
  }

  ghost predicate Readable(s: string) { Every(s, ValidValueByte) }

  /** Without one enclosing pair of double quotes. */
  function Inner(v: string): string {
    if |v| >= 2 && v[0] == '"' && v[|v| - 1] == '"' then v[1..|v| - 1] else v
  }

  // ---- values -----------------------------------------------------------------------------------

  /** A value is read exactly when every byte of it is valid; a pair of quotes around it does not count
      where quotes are allowed, and is dropped. */
  lemma {:induction false} ValueRead(raw: string, allowQuotes: bool)
    ensures var v := if allowQuotes then Inner(raw) else raw;
            ParseValue(raw, allowQuotes) == if Readable(v) then Some(v) else None
  {
  }

  // ---- the Cookie header -------------------------------------------------------------------------

  /** A piece of a Cookie line is read exactly when its name is valid and its value readable. A piece
      without '=' is a name with an empty value. */
  lemma {:induction false} PieceRead(piece: string)
    ensures var p := Trim(piece);
            var name, v := PartName(p), Inner(PartValue(p));
            ParsePair(piece) == if ValidName(name) && Readable(v) then Some(Fresh(name, v, "")) else None
  {
    PairCut(Trim(piece));
    ValueRead(PartValue(Trim(piece)), true);
  }

  lemma {:induction false} PairCut(p: string)
    ensures PartName(p) == (var j := Index(p, '='); if j >= 0 then p[..j] else p)
    ensures PartValue(p) == (var j := Index(p, '='); if j >= 0 then p[j + 1..] else "")
  {
  }

  ghost predicate Sound(c: Cookie) { ValidName(c.name) && Readable(c.value) }

  lemma {:induction false} RestSound(line: string, filter: string)
    ensures forall c :: c in ReadRest(line, filter) ==> Sound(c) && (filter == "" || c.name == filter)
    decreases |line|
  {
    if line != "" {
      var i := Index(line, ';');
      if i > 0 {
        PieceRead(line[..i]);
        RestSound(line[i + 1..], filter);
      } else {
        PieceRead(line);
      }
    }
  }

  /** Whatever the header, every cookie that is read has a valid name, that of the filter if there is one,
      and a value of valid bytes. */
  lemma {:induction false} ReadCookiesSound(lines: seq<string>, filter: string)
    ensures forall c :: c in ReadLines(lines, filter) ==> Sound(c) && (filter == "" || c.name == filter)
  {
    if lines != [] {
      RestSound(Trim(lines[0]), filter);
      ReadCookiesSound(lines[1..], filter);
    }
  }

  // ---- attributes of a Set-Cookie line --------------------------------------------------------------

  /** A part that names an attribute, in upper or lower case, and has a readable value. */
  ghost predicate Says(part: string, low: string) {
    part != "" && IsPrint(PartName(part)) && Lower(PartName(part)) == low && Readable(PartValue(part))
  }

  lemma {:induction false} PartRead(lib: TimeLib, c: Cookie, part: string)
    ensures ApplyPart(lib, c, part) ==
            if part == "" || !IsPrint(PartName(part)) then c
            else if !Readable(PartValue(part)) then Unparsed(c, part)
            else SetAttr(lib, c, Lower(PartName(part)), PartValue(part), part)
  {
    ValueRead(PartValue(part), false);
  }

  /** The value of samesite. */
  function Site(v: string): int {
    if IsPrint(v) && Lower(v) == "lax" then 2
    else if IsPrint(v) && Lower(v) == "strict" then 3
    else if IsPrint(v) && Lower(v) == "none" then 4
    else 1
  }

  /** The value of max-age: a number without leading zeros, where none that is left to live is -1. */
  function Seconds(v: string): Option<int> {
    match Atoi(v)
    case None => None
    case Some(n) => if n != 0 && v[0] == '0' then None else if n <= 0 then Some(-1) else Some(n)
  }

  /** The attributes the reader knows, numbered. */
  function Kind(low: string): int {
    if low == "samesite" then 1
    else if low == "secure" then 2
    else if low == "httponly" then 3
    else if low == "domain" then 4
    else if low == "max-age" then 5
    else if low == "expires" then 6
    else if low == "path" then 7
    else 0
  }

  lemma {:induction false} KindOf(low: string)
    ensures Kind(low) == 1 <==> low == "samesite"
    ensures Kind(low) == 2 <==> low == "secure"
    ensures Kind(low) == 3 <==> low == "httponly"
    ensures Kind(low) == 4 <==> low == "domain"
    ensures Kind(low) == 5 <==> low == "max-age"
    ensures Kind(low) == 6 <==> low == "expires"
    ensures Kind(low) == 7 <==> low == "path"
  {
  }

  lemma {:induction false} SetByKind(lib: TimeLib, c: Cookie, low: string, v: string, part: string)
    ensures SetAttr(lib, c, low, v, part) ==
            match Kind(low)
            case 1 => c.(sameSite := Site(v))
            case 2 => c.(secure := true)
            case 3 => c.(httpOnly := true)
            case 4 => c.(domain := v)
            case 5 => if Seconds(v).Some? then c.(maxAge := Seconds(v).value) else Unparsed(c, part)
            case 6 =>
              var d := c.(rawExpires := v, expires := lib.parse(v));
              if lib.parse(v).Some? then d else Unparsed(d, part)
            case 7 => c.(path := v)
            case _ => Unparsed(c, part)
  {
    SiteOf(v);
    SecondsOf(v);
  }

  lemma {:induction false} SiteOf(v: string)
    ensures SameSiteOf(v) == Site(v)
  {
  }

  /** A number that does not begin with a sign of its own begins with its first digit. */
  lemma {:induction false} SecondsOf(v: string)
    ensures Atoi(v).Some? ==> v != ""
  {
  }

  /** What a known attribute changes. */
  lemma {:induction false} SetFields(lib: TimeLib, c: Cookie, low: string, v: string, part: string)
    ensures var d := SetAttr(lib, c, low, v, part);
            && (d.secure <==> c.secure || low == "secure")
            && (d.httpOnly <==> c.httpOnly || low == "httponly")
            && d.domain == (if low == "domain" then v else c.domain)
            && d.path == (if low == "path" then v else c.path)
            && d.sameSite == (if low == "samesite" then Site(v) else c.sameSite)
            && d.maxAge == (if low == "max-age" && Seconds(v).Some? then Seconds(v).value else c.maxAge)
            && d.rawExpires == (if low == "expires" then v else c.rawExpires)
            && d.expires == (if low == "expires" then lib.parse(v) else c.expires)
            && d.unparsed == c.unparsed + (if Refused(lib, low, v) then [part] else [])
            && d.name == c.name && d.value == c.value && d.raw == c.raw
  {
    SetByKind(lib, c, low, v, part);
    KindOf(low);
  }

  /** A readable attribute that is kept aside: an unknown one, or one whose value means nothing. */
  predicate Refused(lib: TimeLib, low: string, v: string) {
    || (low == "max-age" && Seconds(v).None?)
    || (low == "expires" && lib.parse(v).None?)
    || (low != "samesite" && low != "secure" && low != "httponly" && low != "domain" && low != "max-age"
        && low != "expires" && low != "path")
  }

  /** A part that is kept among the unparsed ones: its name is ASCII, and its value is unreadable or refused. */
  ghost predicate KeptAside(lib: TimeLib, p: string) {
    p != "" && IsPrint(PartName(p)) && (Readable(PartValue(p)) ==> Refused(lib, Lower(PartName(p)), PartValue(p)))
  }

  ghost predicate SaysAge(p: string) { Says(p, "max-age") && Seconds(PartValue(p)).Some? }

  lemma {:induction false} PartSet(lib: TimeLib, c: Cookie, p: string, low: string, v: string)
    requires low == Lower(PartName(p)) && v == PartValue(p)
    requires p != "" && IsPrint(PartName(p)) && Readable(v)
    ensures ApplyPart(lib, c, p) == SetAttr(lib, c, low, v, p)
  {
    PartRead(lib, c, p);
  }

  /** One part, whatever it is. */
  lemma {:induction false} PartFields(lib: TimeLib, c: Cookie, p: string)
    ensures var d := ApplyPart(lib, c, p);
            && (d.secure <==> c.secure || Says(p, "secure"))
            && (d.httpOnly <==> c.httpOnly || Says(p, "httponly"))
            && d.domain == (if Says(p, "domain") then PartValue(p) else c.domain)
            && d.path == (if Says(p, "path") then PartValue(p) else c.path)
            && d.sameSite == (if Says(p, "samesite") then Site(PartValue(p)) else c.sameSite)
            && d.maxAge == (if SaysAge(p) then Seconds(PartValue(p)).value else c.maxAge)
            && d.rawExpires == (if Says(p, "expires") then PartValue(p) else c.rawExpires)
            && d.expires == (if Says(p, "expires") then lib.parse(PartValue(p)) else c.expires)
            && d.unparsed == c.unparsed + (if KeptAside(lib, p) then [p] else [])
            && d.name == c.name && d.value == c.value && d.raw == c.raw
  {
    var low, v := Lower(PartName(p)), PartValue(p);
    PartRead(lib, c, p);
    if p != "" && IsPrint(PartName(p)) && Readable(v) {
      PartSet(lib, c, p, low, v);
      SetFields(lib, c, low, v, p);
    }
  }

  // ---- all the parts of a line --------------------------------------------------------------------

  /** What a step makes of one part after the other. */
  function Fold(step: (Cookie, string) -> Cookie, c: Cookie, parts: seq<string>): Cookie {
    if parts == [] then c else step(Fold(step, c, parts[..|parts| - 1]), parts[|parts| - 1])
  }

  /** What the last part that passes a test has, or d. */
  function LastOf<T>(parts: seq<string>, test: string -> bool, val: string -> T, d: T): T {
    if parts == [] then d
    else if test(parts[|parts| - 1]) then val(parts[|parts| - 1])
    else LastOf(parts[..|parts| - 1], test, val, d)
  }

  function Select(parts: seq<string>, test: string -> bool): seq<string> {
    if parts == [] then []
    else Select(parts[..|parts| - 1], test) + if test(parts[|parts| - 1]) then [parts[|parts| - 1]] else []
  }

  lemma {:induction false} FoldLast<T>(step: (Cookie, string) -> Cookie, get: Cookie -> T, test: string -> bool,
                                       val: string -> T, c: Cookie, parts: seq<string>)
    requires forall k, p :: get(step(k, p)) == if test(p) then val(p) else get(k)
    ensures get(Fold(step, c, parts)) == LastOf(parts, test, val, get(c))
  {
    if parts != [] { FoldLast(step, get, test, val, c, parts[..|parts| - 1]); }
  }

  lemma {:induction false} FoldFlag(step: (Cookie, string) -> Cookie, get: Cookie -> bool, test: string -> bool,
                                    c: Cookie, parts: seq<string>)
    requires forall k, p :: get(step(k, p)) <==> get(k) || test(p)
    ensures get(Fold(step, c, parts)) <==> get(c) || exists i :: 0 <= i < |parts| && test(parts[i])
  {
    if parts != [] {
      var init := parts[..|parts| - 1];
      FoldFlag(step, get, test, c, init);
      assert forall i :: 0 <= i < |init| ==> parts[i] == init[i];
    }
  }

  lemma {:induction false} FoldList(step: (Cookie, string) -> Cookie, get: Cookie -> seq<string>,
                                    test: string -> bool, c: Cookie, parts: seq<string>)
    requires forall k, p :: get(step(k, p)) == get(k) + if test(p) then [p] else []
    ensures get(Fold(step, c, parts)) == get(c) + Select(parts, test)
  {
    if parts != [] {
      var init, p := parts[..|parts| - 1], parts[|parts| - 1];
      FoldList(step, get, test, c, init);
      ConcatAssoc(get(c), Select(init, test), if test(p) then [p] else []);
    }
  }

  ghost function Stepper(lib: TimeLib): (Cookie, string) -> Cookie { (c, p) => ApplyPart(lib, c, p) }

  lemma {:induction false} PartsFold(lib: TimeLib, c: Cookie, parts: seq<string>)
    ensures ApplyParts(lib, c, parts) == Fold(Stepper(lib), c, parts)
    decreases |parts|
  {
    if parts != [] {
      var init, p := parts[..|parts| - 1], parts[|parts| - 1];
      PartsFold(lib, c, init);
      ApplyPartsConcat(lib, c, init, [p]);
      assert parts == init + [p] && [p][1..] == [];
    }
  }

  ghost function Saying(low: string): string -> bool { p => Says(p, low) }

  ghost function Ages(): string -> bool { p => SaysAge(p) }

  ghost function Aside(lib: TimeLib): string -> bool { p => KeptAside(lib, p) }

  function SiteOfPart(p: string): int { Site(PartValue(p)) }

  function AgeOf(p: string): int { if Seconds(PartValue(p)).Some? then Seconds(PartValue(p)).value else 0 }

  lemma {:induction false} FlagsOfParts(lib: TimeLib, c: Cookie, parts: seq<string>)
    ensures var d := ApplyParts(lib, c, parts);
            && (d.secure <==> c.secure || exists i :: 0 <= i < |parts| && Says(parts[i], "secure"))
            && (d.httpOnly <==> c.httpOnly || exists i :: 0 <= i < |parts| && Says(parts[i], "httponly"))
  {
    var step := Stepper(lib);
    forall k, p ensures step(k, p).secure <==> k.secure || Saying("secure")(p) { PartFields(lib, k, p); }
    forall k, p ensures step(k, p).httpOnly <==> k.httpOnly || Saying("httponly")(p) { PartFields(lib, k, p); }
    FoldFlag(step, (k: Cookie) => k.secure, Saying("secure"), c, parts);
    FoldFlag(step, (k: Cookie) => k.httpOnly, Saying("httponly"), c, parts);
    PartsFold(lib, c, parts);
    assert forall i :: 0 <= i < |parts| ==> (Saying("secure")(parts[i]) <==> Says(parts[i], "secure"));
    assert forall i :: 0 <= i < |parts| ==> (Saying("httponly")(parts[i]) <==> Says(parts[i], "httponly"));
  }

  lemma {:induction false} TextsOfParts(lib: TimeLib, c: Cookie, parts: seq<string>)
    ensures var d := ApplyParts(lib, c, parts);
            && d.domain == LastOf(parts, Saying("domain"), PartValue, c.domain)
            && d.path == LastOf(parts, Saying("path"), PartValue, c.path)
  {
    var step := Stepper(lib);
    forall k, p ensures step(k, p).domain == if Saying("domain")(p) then PartValue(p) else k.domain {
      PartFields(lib, k, p);
    }
    forall k, p ensures step(k, p).path == if Saying("path")(p) then PartValue(p) else k.path {
      PartFields(lib, k, p);
    }
    FoldLast(step, (k: Cookie) => k.domain, Saying("domain"), PartValue, c, parts);
    FoldLast(step, (k: Cookie) => k.path, Saying("path"), PartValue, c, parts);
    PartsFold(lib, c, parts);
  }

  lemma {:induction false} SiteOfParts(lib: TimeLib, c: Cookie, parts: seq<string>)
    ensures ApplyParts(lib, c, parts).sameSite == LastOf(parts, Saying("samesite"), SiteOfPart, c.sameSite)
  {
    var step := Stepper(lib);
    forall k, p ensures step(k, p).sameSite == if Saying("samesite")(p) then SiteOfPart(p) else k.sameSite {
      PartFields(lib, k, p);
    }
    FoldLast(step, (k: Cookie) => k.sameSite, Saying("samesite"), SiteOfPart, c, parts);
    PartsFold(lib, c, parts);
  }

  lemma {:induction false} AgeOfParts(lib: TimeLib, c: Cookie, parts: seq<string>)
    ensures ApplyParts(lib, c, parts).maxAge == LastOf(parts, Ages(), AgeOf, c.maxAge)
  {
    var step := Stepper(lib);
    forall k, p ensures step(k, p).maxAge == if Ages()(p) then AgeOf(p) else k.maxAge { PartFields(lib, k, p); }
    FoldLast(step, (k: Cookie) => k.maxAge as int, Ages(), AgeOf, c, parts);
    PartsFold(lib, c, parts);
  }

  lemma {:induction false} TimesOfParts(lib: TimeLib, c: Cookie, parts: seq<string>)
    ensures var d := ApplyParts(lib, c, parts);
            && d.rawExpires == LastOf(parts, Saying("expires"), PartValue, c.rawExpires)
            && d.expires == LastOf(parts, Saying("expires"), p => lib.parse(PartValue(p)), c.expires)
  {
    var step := Stepper(lib);
    var time := p => lib.parse(PartValue(p));
    forall k, p ensures step(k, p).rawExpires == if Saying("expires")(p) then PartValue(p) else k.rawExpires {
      PartFields(lib, k, p);
    }
    forall k, p ensures step(k, p).expires == if Saying("expires")(p) then time(p) else k.expires {
      PartFields(lib, k, p);
    }
    FoldLast(step, (k: Cookie) => k.rawExpires, Saying("expires"), PartValue, c, parts);
    FoldLast(step, (k: Cookie) => k.expires, Saying("expires"), time, c, parts);
    PartsFold(lib, c, parts);
  }

  lemma {:induction false} OthersOfParts(lib: TimeLib, c: Cookie, parts: seq<string>)
    ensures var d := ApplyParts(lib, c, parts);
            && d.unparsed == c.unparsed + Select(parts, Aside(lib))
            && d.name == c.name && d.value == c.value && d.raw == c.raw
    decreases |parts|
  {
    var step := Stepper(lib);
    forall k, p ensures step(k, p).unparsed == k.unparsed + if Aside(lib)(p) then [p] else [] {
      PartFields(lib, k, p);
    }
    FoldList(step, (k: Cookie) => k.unparsed, Aside(lib), c, parts);
    PartsFold(lib, c, parts);
    if parts != [] {
      PartFields(lib, c, parts[0]);
      OthersOfParts(lib, ApplyPart(lib, c, parts[0]), parts[1..]);
    }
  }

  /** The first part of a line. */
  lemma {:induction false} FirstRead(part: string, line: string)
    ensures var name, v := PartName(part), Inner(PartValue(part));
            ParseFirst(part, line) ==
            if '=' in part && ValidName(name) && Readable(v) then Some(Fresh(name, v, line)) else None
  {
    PairCut(part);
    ValueRead(PartValue(part), true);
  }

  /** What a line is, given its trimmed parts. */
  ghost predicate ReadAs(lib: TimeLib, parts: seq<string>, line: string, r: Option<Cookie>)
    requires |parts| >= 1
  {
    var first, rest := parts[0], parts[1..];
    && (r.Some? <==> '=' in first && ValidName(PartName(first)) && Readable(Inner(PartValue(first))))
    && (r.Some? ==>
          var c := r.value;
          && c.name == PartName(first) && c.value == Inner(PartValue(first)) && c.raw == line
          && (c.secure <==> exists i :: 0 <= i < |rest| && Says(rest[i], "secure"))
          && (c.httpOnly <==> exists i :: 0 <= i < |rest| && Says(rest[i], "httponly"))
          && c.domain == LastOf(rest, Saying("domain"), PartValue, "")
          && c.path == LastOf(rest, Saying("path"), PartValue, "")
          && c.sameSite == LastOf(rest, Saying("samesite"), SiteOfPart, 0)
          && c.maxAge == LastOf(rest, Ages(), AgeOf, 0)
          && c.rawExpires == LastOf(rest, Saying("expires"), PartValue, "")
          && c.expires == LastOf(rest, Saying("expires"), p => lib.parse(PartValue(p)), None)
          && c.unparsed == Select(rest, Aside(lib)))
  }

  lemma {:induction false} PartsRead(lib: TimeLib, parts: seq<string>, line: string)
    requires |parts| >= 1
    ensures ReadAs(lib, parts, line, ParseParts(lib, parts, line))
  {
    var first, rest := parts[0], parts[1..];
    FirstRead(first, line);
    var c := ParseFirst(first, line);
    if c.Some? {
      FlagsOfParts(lib, c.value, rest);
      TextsOfParts(lib, c.value, rest);
      SiteOfParts(lib, c.value, rest);
      AgeOfParts(lib, c.value, rest);
      TimesOfParts(lib, c.value, rest);
      OthersOfParts(lib, c.value, rest);
    }
  }

  /** Any line at all. It is a cookie exactly when its first part is a valid name, '=' and a readable value;
      and then each attribute is the last one of its name among the other parts that has a value of its kind,
      a flag is set when some part says so, and whatever is not understood is kept, in order. */
  lemma {:induction false} LineRead(lib: TimeLib, line: string)
    ensures ReadAs(lib, TrimAll(Split(Trim(line), ';')), line, ParseLine(lib, line))
  {
    PartsRead(lib, TrimAll(Split(Trim(line), ';')), line);
  }

  lemma {:induction false} LineSound(lib: TimeLib, line: string)
    ensures ParseLine(lib, line).Some? ==> Sound(ParseLine(lib, line).value)
  {
    LineRead(lib, line);
  }

  /** So every cookie of a Set-Cookie header has a valid name and a value of valid bytes. */
  lemma {:induction false} SetCookiesSound(lib: TimeLib, lines: seq<string>)
    ensures forall c :: c in ParseLines(lib, lines) ==> Sound(c)
  {
    if lines != [] {
      LineSound(lib, lines[0]);
      SetCookiesSound(lib, lines[1..]);
    }
  }

  // ---- numbers ---------------------------------------------------------------------------------------

  /** Atoi reads an optional sign and digits, as long as the number is in range. */
  lemma {:induction false} NumberRead(ds: string)
    requires ds != "" && AllDigits(ds)
    ensures Atoi(ds) == if Value(ds) <= INT_MAX then Some(Value(ds)) else None
    ensures Atoi("+" + ds) == if Value(ds) <= INT_MAX then Some(Value(ds)) else None
    ensures Atoi("-" + ds) == if Value(ds) <= -INT_MIN then Some(-(Value(ds) as int)) else None
  {
    assert ("+" + ds)[1..] == ds && ("-" + ds)[1..] == ds;
  }

  function Unsigned(s: string): string { if s != "" && (s[0] == '-' || s[0] == '+') then s[1..] else s }

  /** And nothing else. */
  lemma {:induction false} NotANumber(s: string)
    requires Unsigned(s) == "" || !AllDigits(Unsigned(s))
    ensures Atoi(s).None?
  {
  }
}
