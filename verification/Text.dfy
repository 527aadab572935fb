/** Byte-string helpers that the cookie code and the header encodings are built from.
    A Go string is a sequence of bytes; here each `char` stands for one byte. */
module Text {

  datatype Option<+T> = None | Some(value: T)

  /** strings.Index for a one-byte separator: the first position, or -1. */
  function Index(s: string, c: char): (r: int)
    ensures -1 <= r < |s|
    ensures r >= 0 ==> s[r] == c && c !in s[..r]
    ensures r == -1 <==> c !in s
  {
    if s == "" then -1
    else if s[0] == c then 0
    else
      var r := Index(s[1..], c);
      assert s == [s[0]] + s[1..];
      if r < 0 then -1 else
        assert s[..r + 1] == [s[0]] + s[1..][..r];
        r + 1
  }

  /** strings.Split for a one-byte separator: always at least one piece. */
  function Split(s: string, c: char): (r: seq<string>)
    ensures |r| >= 1
    decreases |s|
  {
    var i := Index(s, c);
    if i < 0 then [s] else [s[..i]] + Split(s[i + 1..], c)
  }

  function Join(parts: seq<string>, c: char): string
    requires |parts| >= 1
  {
    if |parts| == 1 then parts[0] else parts[0] + [c] + Join(parts[1..], c)
  }

  ghost predicate AllFree(parts: seq<string>, c: char) {
    forall i :: 0 <= i < |parts| ==> c !in parts[i]
  }

  /** The first separator of `head + [c] + rest` is the one after a separator-free head. */
  lemma {:induction false} IndexAfterFree(head: string, c: char, rest: string)
    requires c !in head
    ensures Index(head + [c] + rest, c) == |head|
  {
    var s := head + [c] + rest;
    assert s[|head|] == c;
    assert forall k :: 0 <= k < |head| ==> s[k] == head[k];
  }

  lemma {:induction false} SplitOfJoin(parts: seq<string>, c: char)
    requires |parts| >= 1 && AllFree(parts, c)
    ensures Split(Join(parts, c), c) == parts
  {
    if |parts| == 1 {
      assert c !in parts[0];
    } else {
      SplitFirst(parts[0], c, Join(parts[1..], c));
      SplitOfJoin(parts[1..], c);
    }
  }

  lemma {:induction false} SplitFirst(head: string, c: char, rest: string)
    requires c !in head
    ensures Split(head + [c] + rest, c) == [head] + Split(rest, c)
  {
    IndexAfterFree(head, c, rest);
    var s := head + [c] + rest;
    assert s[..|head|] == head;
    assert s[|head| + 1..] == rest;
  }

  lemma {:induction false} JoinFirst(head: string, parts: seq<string>, c: char)
    requires |parts| >= 1
    ensures Join([head] + parts, c) == head + [c] + Join(parts, c)
    ensures c !in head && AllFree(parts, c) ==> AllFree([head] + parts, c)
  {
    assert ([head] + parts)[1..] == parts;
  }

  lemma {:induction false} SplitPiecesFree(s: string, c: char)
    ensures AllFree(Split(s, c), c)
    ensures Join(Split(s, c), c) == s
    decreases |s|
  {
    var i := Index(s, c);
    if i >= 0 {
      SplitPiecesFree(s[i + 1..], c);
      JoinFirst(s[..i], Split(s[i + 1..], c), c);
      assert s == s[..i] + [c] + s[i + 1..];
    }
  }

  lemma {:induction false} ConcatAssoc<T>(a: seq<T>, b: seq<T>, c: seq<T>)
    ensures a + b + c == a + (b + c)
  {
  }

  function Extend(p: seq<string>, x: char): seq<string>
    requires |p| >= 1
  {
    p[..|p| - 1] + [p[|p| - 1] + [x]]
  }

  /** What one more byte does to the pieces. */
  lemma {:induction false} SplitSnoc(s: string, c: char, x: char)
    ensures Split(s + [x], c) == if x == c then Split(s, c) + [""] else Extend(Split(s, c), x)
    decreases |s|
  {
    var i := Index(s, c);
    if i >= 0 {
      var head, tail := s[..i], s[i + 1..];
      assert s == head + [c] + tail;
      SplitSnoc(tail, c, x);
      SplitSnocStep(head, tail, c, x);
    } else {
      SplitSnocFree(s, c, x);
    }
  }

  lemma {:induction false} SplitSnocStep(head: string, tail: string, c: char, x: char)
    requires c !in head
    requires Split(tail + [x], c) == if x == c then Split(tail, c) + [""] else Extend(Split(tail, c), x)
    ensures var s := head + [c] + tail;
            Split(s + [x], c) == if x == c then Split(s, c) + [""] else Extend(Split(s, c), x)
  {
    var s := head + [c] + tail;
    var p, q := Split(s, c), Split(tail, c);
    assert p == [head] + q by { SplitCons(head, c, tail); }
    assert Split(s + [x], c) == [head] + Split(tail + [x], c) by {
      SplitCons(head, c, tail + [x]);
      ConcatAssoc(head + [c], tail, [x]);
    }
    ExtendCons(head, q, x);
  }

  lemma {:induction false} ExtendCons(head: string, q: seq<string>, x: char)
    requires |q| >= 1
    ensures [head] + (q + [""]) == ([head] + q) + [""]
    ensures [head] + Extend(q, x) == Extend([head] + q, x)
  {
    var p := [head] + q;
    assert p[..|p| - 1] == [head] + q[..|q| - 1];
  }

  lemma {:induction false} SplitSnocFree(s: string, c: char, x: char)
    requires c !in s
    ensures Split(s + [x], c) == if x == c then Split(s, c) + [""] else Extend(Split(s, c), x)
  {
    assert Split(s, c) == [s];
    if x == c {
      SplitCons(s, c, "");
      assert s + [x] == s + [c] + "";
    } else {
      assert c !in s + [x];
    }
  }

  lemma {:induction false} SplitCons(head: string, c: char, tail: string)
    requires c !in head
    ensures Split(head + [c] + tail, c) == [head] + Split(tail, c)
  {
    IndexAfterFree(head, c, tail);
    var t := head + [c] + tail;
    assert t[..|head|] == head && t[|head| + 1..] == tail;
  }

  // ---- textproto.TrimString -------------------------------------------------

  predicate IsSpace(c: char) { c == ' ' || c == '\t' || c == '\n' || c == '\r' }

  function TrimLeft(s: string): string {
    if s != "" && IsSpace(s[0]) then TrimLeft(s[1..]) else s
  }

  function TrimRight(s: string): string {
    if s != "" && IsSpace(s[|s| - 1]) then TrimRight(s[..|s| - 1]) else s
  }

  function Trim(s: string): string { TrimLeft(TrimRight(s)) }

  /** Trimming drops blanks on both sides, and all of them. */
  lemma {:induction false} TrimExactly(s: string) returns (left: string, right: string)
    ensures s == left + Trim(s) + right && Every(left, IsSpace) && Every(right, IsSpace)
    ensures Trim(s) != "" ==> !IsSpace(Trim(s)[0]) && !IsSpace(Trim(s)[|Trim(s)| - 1])
  {
    var t := TrimRight(s);
    right := TrimmedRight(s);
    left := TrimmedLeft(t);
    assert s == t + right && t == left + Trim(s);
    if Trim(s) != "" { assert t[|t| - 1] == Trim(s)[|Trim(s)| - 1]; }
  }

  lemma {:induction false} TrimmedRight(s: string) returns (right: string)
    ensures s == TrimRight(s) + right && Every(right, IsSpace)
    ensures TrimRight(s) != "" ==> !IsSpace(TrimRight(s)[|TrimRight(s)| - 1])
    decreases |s|
  {
    right := "";
    if s != "" && IsSpace(s[|s| - 1]) {
      var more := TrimmedRight(s[..|s| - 1]);
      right := more + [s[|s| - 1]];
      assert s == s[..|s| - 1] + [s[|s| - 1]];
      ConcatAssoc(TrimRight(s), more, [s[|s| - 1]]);
    }
  }

  lemma {:induction false} TrimmedLeft(s: string) returns (left: string)
    ensures s == left + TrimLeft(s) && Every(left, IsSpace)
    ensures TrimLeft(s) != "" ==> !IsSpace(TrimLeft(s)[0])
    decreases |s|
  {
    left := "";
    if s != "" && IsSpace(s[0]) {
      var more := TrimmedLeft(s[1..]);
      left := [s[0]] + more;
      assert s == [s[0]] + s[1..];
      ConcatAssoc([s[0]], more, TrimLeft(s));
    }
  }

  function TrimAll(parts: seq<string>): (r: seq<string>)
    ensures |r| == |parts|
    ensures forall i :: 0 <= i < |parts| ==> r[i] == Trim(parts[i])
  {
    seq(|parts|, i requires 0 <= i < |parts| => Trim(parts[i]))
  }

  /** Trimming a whole line on the right is absorbed by trimming its pieces. */
  lemma {:induction false} TrimRightThenSplit(s: string, c: char)
    requires !IsSpace(c)
    ensures TrimAll(Split(TrimRight(s), c)) == TrimAll(Split(s, c))
  {
    if s != "" && IsSpace(s[|s| - 1]) {
      var t, x := s[..|s| - 1], s[|s| - 1];
      assert s == t + [x];
      TrimRightThenSplit(t, c);
      BlankAfterSplit(t, c, x);
    }
  }

  lemma {:induction false} BlankAfterSplit(t: string, c: char, x: char)
    requires IsSpace(x) && x != c
    ensures TrimAll(Split(t + [x], c)) == TrimAll(Split(t, c))
  {
    var p := Split(t, c);
    SplitSnoc(t, c, x);
    TrimSnoc(p[|p| - 1], x);
    TrimExtend(p, x);
  }

  lemma {:induction false} TrimExtend(p: seq<string>, x: char)
    requires |p| >= 1 && Trim(p[|p| - 1] + [x]) == Trim(p[|p| - 1])
    ensures TrimAll(Extend(p, x)) == TrimAll(p)
  {
  }

  lemma {:induction false} TrimSnoc(s: string, x: char)
    requires IsSpace(x)
    ensures TrimRight(s + [x]) == TrimRight(s) && Trim(s + [x]) == Trim(s)
  {
    assert (s + [x])[..|s|] == s;
  }

  lemma {:induction false} TrimRightKeepsHead(s: string)
    requires s != "" && !IsSpace(s[0])
    ensures TrimRight(s) != "" && TrimRight(s)[0] == s[0]
    ensures Trim(s) == TrimRight(s)
  {
    if IsSpace(s[|s| - 1]) {
      assert |s| > 1;
      TrimRightKeepsHead(s[..|s| - 1]);
    }
  }

  lemma {:induction false} TrimRightIsPrefix(s: string)
    ensures TrimRight(s) <= s
    ensures TrimRight(s) == s <==> s == "" || !IsSpace(s[|s| - 1])
  {
    if s != "" && IsSpace(s[|s| - 1]) {
      TrimRightIsPrefix(s[..|s| - 1]);
    }
  }

  /** A text that starts with a non-space keeps it, so only the tail of `head + s` is trimmed. */
  lemma {:induction false} TrimRightConcat(head: string, s: string)
    requires head != "" && !IsSpace(head[|head| - 1])
    ensures TrimRight(head + s) == head + TrimRight(s)
  {
    var t := head + s;
    if s == "" {
      assert t == head;
    } else {
      assert t[|t| - 1] == s[|s| - 1];
      if IsSpace(s[|s| - 1]) {
        assert t[..|t| - 1] == head + s[..|s| - 1];
        TrimRightConcat(head, s[..|s| - 1]);
      }
    }
  }

  /** Trim of " x..." where x is not a space: the blank goes and the right end is trimmed. */
  lemma {:induction false} TrimBlankThen(s: string)
    requires s != "" && !IsSpace(s[0])
    ensures Trim(" " + s) == TrimRight(s)
  {
    TrimRightKeepsHead(s);
    TrimRightBlank(s);
    assert (" " + TrimRight(s))[1..] == TrimRight(s);
  }

  lemma {:induction false} TrimRightBlank(s: string)
    requires s != "" && !IsSpace(s[0])
    ensures TrimRight(" " + s) == " " + TrimRight(s)
  {
    var t := " " + s;
    assert t[|t| - 1] == s[|s| - 1];
    if IsSpace(s[|s| - 1]) {
      assert |s| > 1 && t[..|t| - 1] == " " + s[..|s| - 1];
      TrimRightBlank(s[..|s| - 1]);
    }
  }

  // ---- dropping bytes -------------------------------------------------------

  function Filter(s: string, valid: char -> bool): string {
    if s == "" then ""
    else (if valid(s[0]) then [s[0]] else "") + Filter(s[1..], valid)
  }

  ghost predicate Every(s: string, valid: char -> bool) {
    forall i :: 0 <= i < |s| ==> valid(s[i])
  }

  lemma {:induction false} FilterValid(s: string, valid: char -> bool)
    ensures Every(Filter(s, valid), valid)
    ensures Every(s, valid) ==> Filter(s, valid) == s
  {
    if s != "" {
      FilterValid(s[1..], valid);
      assert s == [s[0]] + s[1..];
    }
  }

  /** Filtering keeps a valid character, drops any other, and works piece by piece. */
  lemma {:induction false} FilterByPieces(a: string, b: string, c: char, valid: char -> bool)
    ensures Filter([c], valid) == if valid(c) then [c] else []
    ensures Filter(a + b, valid) == Filter(a, valid) + Filter(b, valid)
    decreases |a|
  {
    assert [c][1..] == "";
    if a == "" {
      assert a + b == b;
    } else {
      assert (a + b)[0] == a[0] && (a + b)[1..] == a[1..] + b;
      FilterByPieces(a[1..], b, c, valid);
    }
  }

  lemma {:induction false} FilterSnoc(s: string, x: char, valid: char -> bool)
    ensures Filter(s + [x], valid) == Filter(s, valid) + (if valid(x) then [x] else "")
  {
    var t := s + [x];
    var kept := if valid(x) then [x] else "";
    if s == "" {
      assert t[0] == x && t[1..] == "";
    } else {
      assert t[0] == s[0] && t[1..] == s[1..] + [x];
      FilterSnoc(s[1..], x, valid);
      ConcatAssoc(if valid(s[0]) then [s[0]] else "", Filter(s[1..], valid), kept);
    }
  }

  // ---- decimal numbers (strconv) --------------------------------------------

  predicate IsDigit(c: char) { '0' <= c <= '9' }

  /** strconv.AppendInt(_, n, 10) for non-negative n. */
  function Digits(n: nat): (r: string)
    ensures |r| >= 1 && (forall i :: 0 <= i < |r| ==> IsDigit(r[i]))
    ensures n > 0 ==> r[0] != '0'
  {
    var d := '0' + (n % 10) as char;
    if n < 10 then [d] else Digits(n / 10) + [d]
  }

  function Value(s: string): (n: nat)
    requires Every(s, IsDigit)
  {
    if s == "" then 0
    else 10 * Value(s[..|s| - 1]) + (s[|s| - 1] - '0') as int
  }

  lemma {:induction false} ValueOfDigits(n: nat)
    ensures Value(Digits(n)) == n
  {
    var r := Digits(n);
    if n < 10 {
      assert r[..0] == "";
    } else {
      ValueOfDigits(n / 10);
      assert r[..|r| - 1] == Digits(n / 10);
    }
  }

  predicate AllDigits(s: string) { forall i :: 0 <= i < |s| ==> IsDigit(s[i]) }

  const INT_MAX := 0x7fff_ffff_ffff_ffff
  const INT_MIN := -0x8000_0000_0000_0000

  /** strconv.Atoi on a 64-bit int: optional sign, one or more digits, in range. */
  function Atoi(s: string): Option<int> {
    var signed := s != "" && (s[0] == '-' || s[0] == '+');
    var ds := if signed then s[1..] else s;
    if ds == "" || !AllDigits(ds) then None
    else
      var v := if signed && s[0] == '-' then -(Value(ds) as int) else Value(ds);
      if INT_MIN <= v <= INT_MAX then Some(v) else None
  }

  // ---- ASCII case -----------------------------------------------------------

  /** isPrint: every byte is between ' ' and '~'. */
  predicate IsPrint(s: string) { forall i :: 0 <= i < |s| ==> ' ' <= s[i] <= '~' }

  function LowerChar(c: char): char {
    if 'A' <= c <= 'Z' then c - 'A' + 'a' else c
  }

  /** strings.ToLower on ASCII text. */
  function Lower(s: string): (r: string)
    ensures |r| == |s| && forall i :: 0 <= i < |s| ==> r[i] == LowerChar(s[i])
  {
    seq(|s|, i requires 0 <= i < |s| => LowerChar(s[i]))
  }
}
