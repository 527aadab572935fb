/** Cookie domain names: the one-pass scanner and the label grammar it decides. */
module DomainName {
  import opened Text

  const MAX_NAME := 255
  const MAX_LABEL := 63

  predicate IsLetter(c: char) { 'a' <= c <= 'z' || 'A' <= c <= 'Z' }

  predicate IsLabelByte(c: char) { IsLetter(c) || IsDigit(c) || c == '-' }

  ghost predicate NameBytes(s: string) {
    forall i :: 0 <= i < |s| ==> IsLabelByte(s[i]) || s[i] == '.'
  }

  // ---- the grammar, on dot-separated labels ----------------------------------

  /** What every label must satisfy, wherever it stands. */
  ghost predicate LabelShape(l: string) {
    && Every(l, IsLabelByte)
    && (l != "" ==> l[0] != '-')
  }

  /** A label that is finished: not too long and not ending in a hyphen. */
  ghost predicate LabelClosed(l: string) {
    |l| <= MAX_LABEL && (l != "" ==> l[|l| - 1] != '-')
  }

  /** Everything before the last label is finished and non-empty. */
  ghost predicate LabelsOpen(labels: seq<string>) {
    && (forall i :: 0 <= i < |labels| ==> LabelShape(labels[i]))
    && (forall i :: 0 <= i < |labels| - 1 ==> labels[i] != "" && LabelClosed(labels[i]))
  }

  ghost predicate HasLetter(s: string) { exists i :: 0 <= i < |s| && IsLetter(s[i]) }

  function WithoutLeadingDot(s: string): string {
    if s != "" && s[0] == '.' then s[1..] else s
  }

  /** The names a cookie may carry as its domain: 1..255 bytes; after one optional leading dot,
      labels of letters, digits and inner hyphens, 1..63 bytes each (only the last may be empty);
      and a letter somewhere. */
  ghost predicate IsDomainName(s: string) {
    var t := WithoutLeadingDot(s);
    var labels := Split(t, '.');
    && 1 <= |s| <= MAX_NAME
    && LabelsOpen(labels)
    && LabelClosed(labels[|labels| - 1])
    && HasLetter(t)
  }

  // ---- the scanner -------------------------------------------------------------

  /** Reading one more byte, in terms of the labels read so far. */
  lemma {:induction false} LabelsStep(s: string, i: nat)
    requires i < |s|
    ensures Split(s[..i + 1], '.') == NextLabels(Split(s[..i], '.'), s[i])
  {
    assert s[..i + 1] == s[..i] + [s[i]];
    SplitSnoc(s[..i], '.', s[i]);
  }

  /** A fault in the labels of a prefix stays a fault of the whole. */
  lemma {:induction false} FaultPersists(s: string, i: nat)
    requires i <= |s| && !LabelsOpen(Split(s[..i], '.'))
    ensures !LabelsOpen(Split(s, '.'))
    decreases |s| - i
  {
    if i == |s| {
      assert s[..i] == s;
    } else {
      LabelsStep(s, i);
      FaultStep(Split(s[..i], '.'), s[i]);
      FaultPersists(s, i + 1);
    }
  }

  lemma {:induction false} FaultStep(p: seq<string>, c: char)
    requires |p| >= 1 && !LabelsOpen(p)
    ensures !LabelsOpen(p + [""]) && !LabelsOpen(Extend(p, c))
  {
    var n := |p| - 1;
    var q, r := p + [""], Extend(p, c);
    assert forall k :: 0 <= k < n ==> q[k] == p[k] && r[k] == p[k];
    assert q[n] == p[n] && r[n] == p[n] + [c];
    if k :| 0 <= k < |p| && !LabelShape(p[k]) {
      assert !LabelShape(q[k]);
      if k == n {
        if p[n] != "" && p[n][0] == '-' {
          assert r[n][0] == '-';
        } else {
          var j :| 0 <= j < |p[n]| && !IsLabelByte(p[n][j]);
          assert r[n][j] == p[n][j];
        }
      }
      assert !LabelShape(r[k]);
    }
  }

  function Last(p: seq<string>): string
    requires |p| >= 1
  {
    p[|p| - 1]
  }

  /** What the scanner's locals say about the labels read so far. */
  ghost predicate Scanned(p: seq<string>, last: char, partlen: int) {
    && |p| >= 1
    && LabelsOpen(p)
    && partlen == |Last(p)|
    && (if Last(p) == "" then last == '.' else last != '.' && last == Last(p)[|Last(p)| - 1])
  }

  function NextLabels(p: seq<string>, c: char): seq<string>
    requires |p| >= 1
  {
    if c == '.' then p + [""] else Extend(p, c)
  }

  lemma {:induction false} StepLabelByte(p: seq<string>, last: char, partlen: int, c: char)
    requires Scanned(p, last, partlen)
    requires IsLabelByte(c) && !(c == '-' && last == '.')
    ensures Scanned(NextLabels(p, c), c, partlen + 1)
  {
    OpenExtend(p, c);
  }

  lemma {:induction false} StepDot(p: seq<string>, last: char, partlen: int)
    requires Scanned(p, last, partlen)
    requires last != '.' && last != '-' && 0 < partlen <= MAX_LABEL
    ensures Scanned(NextLabels(p, '.'), '.', 0)
  {
    var q := NextLabels(p, '.');
    assert forall k :: 0 <= k < |p| ==> q[k] == p[k];
  }

  /** Every early return of the scanner is a fault of the labels. */
  lemma {:induction false} FaultFound(p: seq<string>, last: char, partlen: int, c: char)
    requires Scanned(p, last, partlen)
    requires Refuses(last, partlen, c)
    ensures !LabelsOpen(NextLabels(p, c))
  {
    var q := NextLabels(p, c);
    var n := |p| - 1;
    if c == '.' {
      assert q[n] == p[n];
    } else {
      assert q[n] == p[n] + [c];
      assert q[n][|p[n]|] == c;
      assert !LabelShape(q[n]);
    }
  }

  predicate Refuses(last: char, partlen: int, c: char) {
    || !(IsLabelByte(c) || c == '.')
    || (c == '-' && last == '.')
    || (c == '.' && (last == '.' || last == '-' || partlen > MAX_LABEL || partlen == 0))
  }

  /** The first i bytes of s, as the scanner's locals see them. */
  ghost predicate Reading(s: string, i: nat, last: char, ok: bool, partlen: int) {
    i <= |s| && Scanned(Split(s[..i], '.'), last, partlen) && (ok <==> HasLetter(s[..i]))
  }

  function NextLen(partlen: int, c: char): int { if c == '.' then 0 else partlen + 1 }

  /** One loop round: a refusal is a fault of the whole name, anything else reads one more byte. */
  lemma {:induction false} Advance(s: string, i: nat, last: char, ok: bool, partlen: int)
    requires i < |s| && Reading(s, i, last, ok, partlen)
    ensures Refuses(last, partlen, s[i]) ==> !LabelsOpen(Split(s, '.'))
    ensures !Refuses(last, partlen, s[i]) ==>
              Reading(s, i + 1, s[i], ok || IsLetter(s[i]), NextLen(partlen, s[i]))
  {
    var p := Split(s[..i], '.');
    LabelsStep(s, i);
    LetterStep(s, i);
    if Refuses(last, partlen, s[i]) {
      FaultFound(p, last, partlen, s[i]);
      FaultPersists(s, i + 1);
    } else if s[i] == '.' {
      StepDot(p, last, partlen);
    } else {
      StepLabelByte(p, last, partlen, s[i]);
    }
  }

  lemma {:induction false} StartReading(s: string)
    ensures Reading(s, 0, '.', false, 0)
  {
    assert s[..0] == "";
    assert Split("", '.') == [""];
  }

  lemma {:induction false} LetterStep(s: string, i: nat)
    requires i < |s|
    ensures HasLetter(s[..i + 1]) <==> HasLetter(s[..i]) || IsLetter(s[i])
  {
    var t, u := s[..i], s[..i + 1];
    assert u == t + [s[i]];
    if HasLetter(t) {
      var k :| 0 <= k < |t| && IsLetter(t[k]);
      assert u[k] == t[k];
    }
    assert u[i] == s[i];
  }

  /** The verdict of the scan from position i on. */
  predicate Scan(s: string, i: nat, last: char, ok: bool, partlen: int)
    requires i <= |s|
    decreases |s| - i
  {
    if i == |s| then last != '-' && partlen <= MAX_LABEL && ok
    else !Refuses(last, partlen, s[i])
         && Scan(s, i + 1, s[i], ok || IsLetter(s[i]), NextLen(partlen, s[i]))
  }

  /** The scan decides the grammar, from whatever point it has reached. */
  lemma {:induction false} ScanDecides(name: string, s: string, i: nat, last: char, ok: bool, partlen: int)
    requires 1 <= |name| <= MAX_NAME && s == WithoutLeadingDot(name)
    requires Reading(s, i, last, ok, partlen)
    ensures Scan(s, i, last, ok, partlen) <==> IsDomainName(name)
    decreases |s| - i
  {
    if i == |s| {
      assert s[..i] == s;
    } else {
      Advance(s, i, last, ok, partlen);
      if !Refuses(last, partlen, s[i]) {
        ScanDecides(name, s, i + 1, s[i], ok || IsLetter(s[i]), NextLen(partlen, s[i]));
      }
    }
  }

  /** The loop of isCookieDomainName, after the optional leading dot. */
  method ScanLabels(s: string) returns (valid: bool)
    ensures valid <==> Scan(s, 0, '.', false, 0)
  {
    var last := '.';
    var ok := false;
    var partlen := 0;
    var i := 0;
    while i < |s|
      invariant 0 <= i <= |s|
      invariant Scan(s, i, last, ok, partlen) <==> Scan(s, 0, '.', false, 0)
    {
      var c := s[i];
      if IsLetter(c) {
        ok := true;
        partlen := partlen + 1;
      } else if IsDigit(c) {
        partlen := partlen + 1;
      } else if c == '-' {
        if last == '.' { return false; }
        partlen := partlen + 1;
      } else if c == '.' {
        if last == '.' || last == '-' { return false; }
        if partlen > MAX_LABEL || partlen == 0 { return false; }
        partlen := 0;
      } else {
        return false;
      }
      last := c;
      i := i + 1;
    }
    if last == '-' || partlen > MAX_LABEL { return false; }
    return ok;
  }

  /** isCookieDomainName. */
  method IsCookieDomainName(name: string) returns (valid: bool)
    ensures valid <==> IsDomainName(name)
  {
    if |name| == 0 { return false; }
    if |name| > MAX_NAME { return false; }
    var s := name;
    if s[0] == '.' { s := s[1..]; }
    StartReading(s);
    ScanDecides(name, s, 0, '.', false, 0);
    valid := ScanLabels(s);
  }

  lemma {:induction false} OpenExtend(p: seq<string>, c: char)
    requires |p| >= 1 && LabelsOpen(p) && IsLabelByte(c)
    requires c == '-' ==> p[|p| - 1] != ""
    ensures LabelsOpen(Extend(p, c))
  {
    var l := p[|p| - 1] + [c];
    assert forall j :: 0 <= j < |p[|p| - 1]| ==> l[j] == p[|p| - 1][j];
    assert LabelShape(p[|p| - 1]);
    assert LabelShape(l);
    var q := Extend(p, c);
    assert forall k :: 0 <= k < |p| - 1 ==> q[k] == p[k];
  }

  /** Dropping the optional leading dot keeps a domain name a domain name, and never exposes a
      second dot. */
  lemma {:induction false} WithoutDotIsName(s: string)
    requires IsDomainName(s)
    ensures var t := WithoutLeadingDot(s);
            t != "" && t[0] != '.' && IsDomainName(t) && NameBytes(t)
  {
    var t := WithoutLeadingDot(s);
    if t[0] == '.' {
      LeadingDotFails(t);
      assert false;
    }
    OpenNameBytes(t);
  }

  lemma {:induction false} OpenNameBytes(t: string)
    requires LabelsOpen(Split(t, '.'))
    ensures NameBytes(t)
  {
    var labels := Split(t, '.');
    forall i | 0 <= i < |labels| ensures Every(labels[i], IsLabelByte) {
      assert LabelShape(labels[i]);
    }
    SplitPiecesFree(t, '.');
    JoinBytes(labels);
  }

  lemma {:induction false} LeadingDotFails(t: string)
    requires t != "" && t[0] == '.'
    ensures !LabelsOpen(Split(t, '.'))
  {
    assert t == "" + ['.'] + t[1..];
    SplitCons("", '.', t[1..]);
    assert Split(t, '.')[0] == "";
  }

  lemma {:induction false} JoinBytes(labels: seq<string>)
    requires |labels| >= 1 && forall i :: 0 <= i < |labels| ==> Every(labels[i], IsLabelByte)
    ensures NameBytes(Join(labels, '.'))
  {
    assert Every(labels[0], IsLabelByte);
    if |labels| > 1 {
      JoinBytes(labels[1..]);
      NameBytesConcat(labels[0], Join(labels[1..], '.'));
    }
  }

  lemma {:induction false} NameBytesConcat(a: string, b: string)
    requires Every(a, IsLabelByte) && NameBytes(b)
    ensures NameBytes(a + ['.'] + b)
  {
    var t := a + ['.'] + b;
    forall i | 0 <= i < |t| ensures IsLabelByte(t[i]) || t[i] == '.' {
      if i < |a| {
        assert t[i] == a[i] && IsLabelByte(a[i]);
      } else if i > |a| {
        assert t[i] == b[i - |a| - 1];
      }
    }
  }

  // ---- dotted quads ------------------------------------------------------------

  /** One decimal octet without leading zeros. */
  predicate IsOctet(s: string) {
    && 1 <= |s| <= 3
    && (forall i :: 0 <= i < |s| ==> IsDigit(s[i]))
    && (|s| > 1 ==> s[0] != '0')
    && Value(s) <= 255
  }

  /** What net.ParseIP accepts among the texts without a colon. */
  predicate IsIPv4(s: string) {
    var f := Split(s, '.');
    |f| == 4 && forall i :: 0 <= i < |f| ==> IsOctet(f[i])
  }

  lemma {:induction false} IPv4Bytes(s: string)
    requires IsIPv4(s)
    ensures s != "" && s[0] != '.'
    ensures NameBytes(s)
  {
    var f := Split(s, '.');
    SplitPiecesFree(s, '.');
    assert forall i :: 0 <= i < |f| ==> Every(f[i], IsLabelByte) by {
      forall i | 0 <= i < |f| ensures Every(f[i], IsLabelByte) { assert IsOctet(f[i]); }
    }
    JoinBytes(f);
    assert IsOctet(f[0]);
    assert s == f[0] + ['.'] + Join(f[1..], '.');
    assert s[0] == f[0][0];
  }
}
