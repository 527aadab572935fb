/** Multi-value hostcalls: NUL-terminated values in pages, read through a resizable buffer. */
module HostValues {
  import opened Text
  import opened CacheOptions

  const NUL: char := '\0'

  ghost predicate NulFree(values: seq<string>) { AllFree(values, NUL) }

  // ---- the encoding ------------------------------------------------------------------

  /** Every value followed by a NUL. */
  function Encode(values: seq<string>): string {
    if values == [] then "" else values[0] + [NUL] + Encode(values[1..])
  }

  /** The terminated pieces; an unterminated tail is no value. */
  function Decode(bytes: string): seq<string>
    decreases |bytes|
  {
    var i := Index(bytes, NUL);
    if i < 0 then [] else [bytes[..i]] + Decode(bytes[i + 1..])
  }

  lemma {:induction false} DecodePiecesNulFree(bytes: string)
    ensures NulFree(Decode(bytes))
    decreases |bytes|
  {
    var i := Index(bytes, NUL);
    if i >= 0 {
      var rest := Decode(bytes[i + 1..]);
      DecodePiecesNulFree(bytes[i + 1..]);
      var all := [bytes[..i]] + rest;
      forall k | 0 <= k < |all| ensures NUL !in all[k] {
        if k > 0 { assert all[k] == rest[k - 1]; }
      }
    }
  }

  lemma {:induction false} DecodeOfEncode(values: seq<string>)
    requires NulFree(values)
    ensures Decode(Encode(values)) == values
  {
    if values != [] {
      var v, rest := values[0], Encode(values[1..]);
      CutEncoded(v, rest);
      DecodeOfEncode(values[1..]);
    }
  }

  lemma {:induction false} CutEncoded(v: string, rest: string)
    requires NUL !in v
    ensures var b := v + [NUL] + rest;
            Index(b, NUL) == |v| && b[..|v|] == v && b[|v| + 1..] == rest
  {
    IndexAfterFree(v, NUL, rest);
  }

  /** The encoding of a list is read back as that list exactly when no value contains a NUL. */
  lemma {:induction false} EncodingInverts(values: seq<string>)
    ensures Decode(Encode(values)) == values <==> NulFree(values)
  {
    DecodePiecesNulFree(Encode(values));
    if NulFree(values) {
      DecodeOfEncode(values);
    }
  }

  lemma {:induction false} EncodeConcat(a: seq<string>, b: seq<string>)
    ensures Encode(a + b) == Encode(a) + Encode(b)
  {
    if a == [] {
      assert a + b == b;
    } else {
      assert (a + b)[0] == a[0] && (a + b)[1..] == a[1..] + b;
      EncodeConcat(a[1..], b);
      ConcatAssoc(a[0] + [NUL], Encode(a[1..]), Encode(b));
    }
  }

  /** SetHeaderValues: the buffer that is sent to the host. */
  method EncodeHeaderValues(values: seq<string>) returns (buf: string)
    ensures buf == Encode(values)
  {
    buf := "";
    var i := 0;
    while i < |values|
      invariant 0 <= i <= |values|
      invariant buf + Encode(values[i..]) == Encode(values)
    {
      ghost var rest := values[i..];
      assert rest[0] == values[i] && rest[1..] == values[i + 1..];
      ConcatAssoc(buf, values[i], [NUL]);
      ConcatAssoc(buf, values[i] + [NUL], Encode(rest[1..]));
      buf := buf + values[i];
      buf := buf + [NUL];
      i := i + 1;
    }
    assert values[i..] == [];
  }

  // ---- the host ------------------------------------------------------------------------

  datatype Reply = BufLen(needed: nat) | Page(n: nat, ending: int) | Failure

  /** How far the iteration has got after a page. */
  function UpTo(count: nat, ending: int): int { if ending < 0 then count else ending }

  /** A host with a fixed list of values. It writes only whole values, at least one while there are
      any left, and says either where it stopped or (negatively) that it has finished; it may do
      the latter with the last values or in a page of its own. */
  class Host {
    const items: seq<string>
    const reliable: bool   // never fails

    ghost predicate Valid() { NulFree(items) && |items| < U32_END }

    constructor (items: seq<string>, reliable: bool)
      requires NulFree(items) && |items| < U32_END
      ensures this.items == items && this.reliable == reliable && Valid()
    {
      this.items := items;
      this.reliable := reliable;
    }

    /** Any page size, and any required size from the needed one up. */
    method Call(buf: array<char>, cursor: u32) returns (r: Reply)
      requires Valid() && cursor <= |items|
      modifies buf
      ensures r.Failure? ==> !reliable
      ensures r.BufLen? ==>
                && cursor < |items| && buf.Length < |items[cursor]| + 1 <= r.needed
                && buf[..] == old(buf[..])
      ensures r.Page? ==>
                var upTo := UpTo(|items|, r.ending);
                && cursor <= upTo <= |items| && r.n <= buf.Length
                && buf[..r.n] == Encode(items[cursor..upTo])
                && (cursor < |items| ==> cursor < upTo) && (cursor == |items| ==> r.ending < 0)
    {
      var fails: bool := *;
      if fails && !reliable {
        return Failure;
      }
      if cursor == |items| {
        assert items[cursor..] == [];
        return Page(0, -1);
      }
      var page := items[cursor] + [NUL];
      assert items[cursor..cursor + 1] == [items[cursor]] && [items[cursor]][1..] == [];
      if buf.Length < |page| {
        var more: int := *;
        return BufLen(|page| + if more < 0 then 0 else more);
      }
      var upTo := cursor + 1;
      var go: bool := *;
      while go && upTo < |items| && |page| + |items[upTo]| + 1 <= buf.Length
        invariant cursor < upTo <= |items| && |page| <= buf.Length
        invariant page == Encode(items[cursor..upTo])
        decreases |items| - upTo
      {
        var one := [items[upTo]];
        assert items[cursor..upTo + 1] == items[cursor..upTo] + one && one[1..] == [];
        EncodeConcat(items[cursor..upTo], one);
        page := page + (items[upTo] + [NUL]);
        upTo := upTo + 1;
        go := *;
      }
      forall i | 0 <= i < |page| { buf[i] := page[i]; }
      assert buf[..|page|] == page;
      var last: bool := *;
      return Page(|page|, if upTo == |items| && last then -1 else upTo);
    }
  }

  /** These bytes are the encoding of the values in [seen, upTo). */
  ghost predicate Holds(bytes: string, items: seq<string>, seen: nat, upTo: int) {
    seen <= upTo <= |items| && bytes == Encode(items[seen..upTo])
  }

  /** bytes.Cut at the first NUL. */
  ghost predicate IsCut(bytes: string, value: string, rest: string, found: bool) {
    if found then NUL !in value && bytes == value + [NUL] + rest
    else NUL !in bytes && value == bytes && rest == ""
  }

  /** Cutting a page gives its first value and the rest of it, unless nothing is left. */
  lemma {:induction false} CutPage(items: seq<string>, seen: nat, upTo: int, page: string,
                                   value: string, rest: string, found: bool)
    requires NulFree(items) && Holds(page, items, seen, upTo) && IsCut(page, value, rest, found)
    ensures found <==> seen < upTo
    ensures if found then value == items[seen] && Holds(rest, items, seen + 1, upTo)
            else Holds(rest, items, seen, upTo)
  {
    if seen < upTo {
      var values := items[seen..upTo];
      assert values[0] == items[seen] && values[1..] == items[seen + 1..upTo];
      CutEncoded(values[0], Encode(values[1..]));
      assert page[|values[0]|] == NUL;
      assert found;
      CutEncoded(value, rest);
    }
  }

  lemma {:induction false} Windows(b: seq<char>, lo: nat, hi: nat, i: nat)
    requires lo <= hi <= |b| && i < hi - lo
    ensures b[lo..hi][..i] == b[lo..lo + i] && b[lo..hi][i + 1..] == b[lo + i + 1..hi]
  {
  }

  // ---- the iterator -----------------------------------------------------------------------

  /** Values. `pending` and `value` are windows over the buffer the host writes into. */
  class Values {
    const host: Host
    var buffer: array<char>
    var cursor: u32
    var pendingLo: nat
    var pendingHi: nat
    var valueLo: nat
    var valueHi: nat
    var finished: bool
    var failed: bool
    ghost var seen: nat      // how many values Next has yielded

    ghost predicate Valid()
      reads this, buffer
    {
      && host.Valid() && seen <= |host.items|
      && (!failed ==>
            && pendingLo <= pendingHi <= buffer.Length
            && Holds(buffer[pendingLo..pendingHi], host.items, seen, Limit()))
    }

    /** newValues, with a buffer of any capacity. */
    constructor (host: Host, capacity: nat)
      requires host.Valid()
      ensures Valid() && this.host == host && seen == 0 && !failed && fresh(buffer)
    {
      this.host := host;
      buffer := new char[capacity];
      cursor, pendingLo, pendingHi, valueLo, valueHi, finished, failed := 0, 0, 0, 0, 0, false, false;
      seen := 0;
      new;
      assert host.items[0..0] == [];
      assert buffer[0..0] == "";
    }

    /** Bytes: the current value. */
    function Bytes(): string
      requires valueLo <= valueHi <= buffer.Length
      reads this, buffer
    {
      buffer[valueLo..valueHi]
    }

    /** nextValue: one page, after at most one resize; each call is made with the same cursor. */
    method NextValue() returns (ghost calls: nat)
      requires Valid() && !failed && pendingLo == pendingHi && !finished && seen == cursor
      modifies this, buffer
      ensures Valid() && calls <= 2 && seen == old(seen)
      ensures buffer == old(buffer) || fresh(buffer)
      ensures failed || pendingLo < pendingHi || finished
      ensures failed ==> !host.reliable
    {
      calls := 0;
      ghost var needed := if cursor < |host.items| then |host.items[cursor]| + 1 else 0;
      while true
        invariant unchanged(this) || (calls == 1 && unchanged(this`cursor, this`finished, this`failed, this`seen))
        invariant calls <= 1 && (calls == 1 ==> fresh(buffer) && buffer.Length >= needed)
        invariant buffer == old(buffer) || fresh(buffer)
        decreases 1 - calls
      {
        var r := host.Call(buffer, cursor);
        calls := calls + 1;
        match r
        case BufLen(n) =>
          buffer := new char[n];
        case Failure =>
          failed := true;
          return;
        case Page(n, ending) =>
          ghost var upTo := UpTo(|host.items|, ending);
          cursor := Uint32(ending);
          finished := ending < 0;
          pendingLo, pendingHi := 0, n;
          assert buffer[0..n] == buffer[..n];
          if n == 0 { EncodeNonEmpty(host.items[seen..upTo]); }
          return;
      }
    }

    /** The part of Next that cuts the pending bytes, whatever they are, at the first terminator: with
        none, more bytes should have come unless the iteration is finished. */
    method CutPending() returns (more: bool)
      requires pendingLo <= pendingHi <= buffer.Length && !failed
      modifies `valueLo, `valueHi, `pendingLo, `failed
      ensures var was := old(buffer[pendingLo..pendingHi]);
              && valueLo <= valueHi <= buffer.Length && pendingLo <= pendingHi
              && IsCut(was, buffer[valueLo..valueHi], buffer[pendingLo..pendingHi], more)
              && (failed <==> !more && !finished)
    {
      var pending := buffer[pendingLo..pendingHi];
      var i := Index(pending, NUL);
      if i < 0 {
        valueLo, valueHi, pendingLo := pendingLo, pendingHi, pendingHi;
        if !finished { failed := true; }   // missing terminator
        return false;
      }
      Windows(buffer[..], pendingLo, pendingHi, i);
      valueLo, valueHi, pendingLo := pendingLo, pendingLo + i, pendingLo + i + 1;
      return true;
    }

    /** How many values the host has given up to here. */
    ghost function Limit(): int
      reads this
    {
      UpTo(|host.items|, if finished then -1 else cursor)
    }

    /** Pending bytes hold the next value; none are left only at the end of the list. */
    method TakeNext() returns (more: bool)
      requires Valid() && !failed && (pendingLo < pendingHi || finished)
      modifies `valueLo, `valueHi, `pendingLo, `failed, `seen
      ensures Valid() && !failed
      ensures more <==> old(seen) < |host.items|
      ensures Yields(old(seen), more)
    {
      ghost var upTo, was := Limit(), buffer[pendingLo..pendingHi];
      more := CutPending();
      CutPage(host.items, seen, upTo, was, buffer[valueLo..valueHi], buffer[pendingLo..pendingHi], more);
      if more { seen := seen + 1; }
    }

    /** A call that started after n values has yielded the one at n, if it yielded any. */
    ghost predicate Yields(n: nat, more: bool)
      reads this, buffer
    {
      && seen == (if more then n + 1 else n)
      && (more ==> n < |host.items| && valueLo <= valueHi <= buffer.Length && Bytes() == host.items[n])
    }

    /** Next: true with the next value of the host's list; false at its end, or after an error, which
        stays. */
    method Next() returns (more: bool)
      requires Valid()
      modifies this, buffer
      ensures Valid()
      ensures buffer == old(buffer) || fresh(buffer)
      ensures Yields(old(seen), more)
      ensures more ==> !failed
      ensures !more ==> failed || seen == |host.items|
      ensures old(failed) ==> failed
      ensures failed ==> old(failed) || !host.reliable
    {
      if failed { return false; }
      if pendingLo == pendingHi {
        NothingPending();
        if finished { return false; }
        var _ := NextValue();
        if failed { return false; }
      }
      more := TakeNext();
    }

    lemma {:induction false} NothingPending()
      requires Valid() && !failed && pendingLo == pendingHi
      ensures seen == Limit()
    {
      EncodeEmptyOnly(host.items[seen..Limit()]);
    }
  }

  lemma {:induction false} EncodeNonEmpty(values: seq<string>)
    ensures values != [] ==> Encode(values) != ""
  {
  }

  lemma {:induction false} EncodeEmptyOnly(values: seq<string>)
    ensures Encode(values) == "" ==> values == []
  {
  }

  /** The loops over header names and values: the list read is the host's list, for every buffer
      capacity and every way the host cuts it into pages, and it is shorter only with an error. */
  method ReadAll(host: Host, capacity: nat) returns (values: seq<string>, err: bool)
    requires host.Valid()
    ensures values <= host.items
    ensures !err ==> values == host.items
    ensures err ==> !host.reliable
  {
    var v := new Values(host, capacity);
    values := [];
    var more := true;
    while more
      invariant v.Valid() && v.host == host && fresh(v) && fresh(v.buffer)
      invariant values == host.items[..v.seen]
      invariant if more then !v.failed else v.failed || v.seen == |host.items|
      invariant v.failed ==> !host.reliable
      decreases |host.items| - v.seen, more
    {
      more := v.Next();
      if more {
        values := values + [v.Bytes()];
      }
    }
    err := v.failed;
  }

  /** Header values set on the host and read back, when the host keeps what it was sent. */
  method SetThenRead(values: seq<string>, capacity: nat) returns (back: seq<string>, err: bool)
    requires |Decode(Encode(values))| < U32_END
    ensures !err && (back == values <==> NulFree(values))
  {
    var sent := EncodeHeaderValues(values);
    DecodePiecesNulFree(sent);
    var host := new Host(Decode(sent), true);
    back, err := ReadAll(host, capacity);
    EncodingInverts(values);
  }
}
