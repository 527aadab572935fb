/** Copies into streaming bodies: no truncated stream is marked complete. */
module Streams {
  import opened Text
  import opened Body

  // ---- the end of a stream ---------------------------------------------------------------

  /** Where the first terminal call at or after `start` is, or the end of the log. */
  function FirstEnd(log: seq<Event>, start: nat): (i: nat)
    requires start <= |log|
    ensures start <= i <= |log|
    ensures i < |log| ==> Terminal(log[i])
    ensures forall j :: start <= j < i ==> !Terminal(log[j])
    decreases |log| - start
  {
    if start == |log| || Terminal(log[start]) then start else FirstEnd(log, start + 1)
  }

  /** From `start` on, the stream is first ended by a Close only if it then held `whole`. */
  ghost predicate NeverTruncated(log: seq<Event>, start: nat, whole: string) {
    start <= |log| && var i := FirstEnd(log, start);
    i < |log| && log[i].Closed? ==> Delivered(log[..i]) == whole
  }

  lemma {:induction false} FirstEndIs(log: seq<Event>, start: nat, k: nat)
    requires start <= k <= |log| && (forall j :: start <= j < k ==> !Terminal(log[j]))
    requires k < |log| ==> Terminal(log[k])
    ensures FirstEnd(log, start) == k
  {
  }

  /** Writes, then a tail that starts with a Close of the whole content or with an Abandon. */
  lemma {:induction false} EndsWell(before: seq<Event>, filled: seq<Event>, tail: seq<Event>, whole: string)
    requires WritesOnly(before, filled)
    requires tail != [] && (tail[0].Abandoned? || (tail[0].Closed? && Delivered(filled) == whole))
    ensures NeverTruncated(filled + tail, |before|, whole)
    ensures FirstEnd(filled + tail, |before|) == |filled|
  {
    var log := filled + tail;
    assert log[..|filled|] == filled;
    FirstEndIs(log, |before|, |filled|);
  }

  // ---- readers ----------------------------------------------------------------------------

  datatype ReadEnd = More | EOF | Broken(err: Err)

  /** A reader of a fixed content, in chunks of any size, that may break anywhere. Without an end it
      makes progress. */
  class Reader {
    const content: string
    const reliable: bool          // never breaks
    var pos: nat
    ghost var ends: seq<ReadEnd>  // what each read said

    ghost predicate Valid()
      reads this
    {
      pos <= |content|
    }

    function Rest(): string
      requires Valid()
      reads this
    {
      content[pos..]
    }

    constructor (content: string, reliable: bool)
      ensures Valid() && this.content == content && this.reliable == reliable && pos == 0 && ends == []
    {
      this.content, this.reliable, pos, ends := content, reliable, 0, [];
    }

    method Read() returns (chunk: string, end: ReadEnd)
      requires Valid()
      modifies `pos, `ends
      ensures Valid() && old(pos) <= pos && chunk == content[old(pos)..pos]
      ensures end.More? ==> chunk != ""
      ensures end.EOF? ==> pos == |content|
      ensures end.Broken? ==> !reliable
      ensures ends == old(ends) + [end]
    {
      var some: int := *;
      var broken: bool := *;
      var k := if 0 < some < |content| - pos then some else |content| - pos;
      chunk := content[pos..pos + k];
      pos := pos + k;
      end := if broken && !reliable then Broken(ReadFailed) else if pos == |content| then EOF else More;
      ends := ends + [end];
    }

    method Close() returns (err: Option<Err>)
      ensures reliable ==> err.None?
    {
      err := AnyError(reliable);
    }
  }

  /** `later` has the part [lo, hi) of a content more than `before`. */
  ghost predicate Gained(before: seq<Event>, later: seq<Event>, content: string, lo: int, hi: int) {
    && 0 <= lo <= hi <= |content| && WritesOnly(before, later)
    && Delivered(later) == Delivered(before) + content[lo..hi]
  }

  lemma {:induction false} GainMore(a: seq<Event>, b: seq<Event>, c: seq<Event>, content: string,
                                    lo: int, mid: int, hi: int)
    requires Gained(a, b, content, lo, mid) && Gained(b, c, content, mid, hi)
    ensures Gained(a, c, content, lo, hi)
  {
    assert content[lo..mid] + content[mid..hi] == content[lo..hi];
    ConcatAssoc(Delivered(a), content[lo..mid], content[mid..hi]);
  }

  /** Where the error of a copy comes from: the last write, or else the last read. Without one no write
      failed, and the source came to its end. */
  ghost predicate Caused(before: seq<Event>, later: seq<Event>, read: seq<ReadEnd>, err: Option<Err>) {
    if err.None? then ErrorIsLast(before, later, None) && read != [] && read[|read| - 1].EOF?
    else
      || ErrorIsLast(before, later, err)
      || (ErrorIsLast(before, later, None) && read != [] && read[|read| - 1] == Broken(err.value))
  }

  /** The same, up to the last read so far. */
  ghost predicate SoFar(before: seq<Event>, later: seq<Event>, end: ReadEnd, err: Option<Err>) {
    if err.None? then ErrorIsLast(before, later, None) && !end.Broken?
    else ErrorIsLast(before, later, err) || (ErrorIsLast(before, later, None) && end == Broken(err.value))
  }

  lemma {:induction false} GoesOn(a: seq<Event>, b: seq<Event>, c: seq<Event>, end: ReadEnd, err: Option<Err>)
    requires ErrorIsLast(a, b, None) && SoFar(b, c, end, err)
    ensures SoFar(a, c, end, err)
  {
  }

  lemma {:induction false} CauseFound(before: seq<Event>, later: seq<Event>, heard: seq<ReadEnd>, all: seq<ReadEnd>,
                                      end: ReadEnd, err: Option<Err>)
    requires SoFar(before, later, end, err) && (end.More? ==> err.Some?)
    requires heard <= all && |heard| < |all| && all[|all| - 1] == end
    ensures Caused(before, later, all[|heard|..], err)
  {
    var read := all[|heard|..];
    assert read != [] && read[|read| - 1] == end;
  }

  /** One round of the copy: n of the bytes that were read arrive. */
  method CopyChunk(dst: HTTPBody, src: Reader) returns (n: nat, end: ReadEnd, err: Option<Err>)
    requires src.Valid()
    modifies dst`log, src`pos, src`ends
    ensures src.Valid() && old(src.pos) + n <= src.pos
    ensures Gained(old(dst.log), dst.log, src.content, old(src.pos), old(src.pos) + n)
    ensures end.More? ==> old(src.pos) < src.pos
    ensures err.None? ==> old(src.pos) + n == src.pos && !end.Broken? && (end.EOF? ==> src.pos == |src.content|)
    ensures src.ends == old(src.ends) + [end]
    ensures SoFar(old(dst.log), dst.log, end, err)
    ensures dst.reliable && src.reliable ==> err.None?
  {
    ghost var at := src.pos;
    var chunk;
    chunk, end := src.Read();
    n, err := dst.Write(chunk);
    assert chunk[..n] == src.content[at..at + n];
    if err.None? && end.Broken? { err := Some(end.err); }
  }

  /** io.Copy: what arrives is a prefix of the rest of the source, and without an error all of it; an error
      is that of the last write, or else of the last read. */
  method Copy(dst: HTTPBody, src: Reader) returns (err: Option<Err>, ghost upTo: nat)
    requires src.Valid()
    modifies dst`log, src`pos, src`ends
    ensures src.Valid() && old(src.ends) <= src.ends
    ensures Gained(old(dst.log), dst.log, src.content, old(src.pos), upTo)
    ensures err.None? ==> upTo == |src.content|
    ensures Caused(old(dst.log), dst.log, src.ends[|old(src.ends)|..], err)
    ensures dst.reliable && src.reliable ==> err.None?
  {
    ghost var start, before, heard := src.pos, dst.log, src.ends;
    upTo := start;
    err := None;
    var end := More;
    assert src.content[start..start] == "";
    while end.More? && err.None?
      invariant src.Valid() && Gained(before, dst.log, src.content, start, upTo)
      invariant err.None? ==> upTo == src.pos && !end.Broken? && (end.EOF? ==> upTo == |src.content|)
      invariant heard <= src.ends && SoFar(before, dst.log, end, err)
      invariant !end.More? || err.Some? ==> |heard| < |src.ends| && src.ends[|src.ends| - 1] == end
      invariant dst.reliable && src.reliable ==> err.None?
      decreases |src.content| - src.pos, end.More? && err.None?
    {
      ghost var mid := dst.log;
      var n;
      n, end, err := CopyChunk(dst, src);
      GainMore(before, mid, dst.log, src.content, start, upTo, upTo + n);
      GoesOn(before, mid, dst.log, end, err);
      upTo := upTo + n;
    }
    CauseFound(before, dst.log, heard, src.ends, end, err);
  }

  // ---- the request body ---------------------------------------------------------------------

  /** Once filled, a streaming body is closed, or abandoned after an error, and no other call is made. */
  ghost predicate EndedBy(filled: seq<Event>, log: seq<Event>, closable: bool, copyErr: Option<Err>,
                          endErr: Option<Err>)
  {
    log == filled + if !closable then [] else if copyErr.Some? then [Abandoned] else [Closed(endErr)]
  }

  /** The copy of the user's body and the end of the stream. */
  method CopyAndEnd(body: HTTPBody, user: Reader)
    returns (copyErr: Option<Err>, closeErr: Option<Err>, endErr: Option<Err>, ghost filled: seq<Event>)
    requires user.Valid()
    modifies body`log, user`pos, user`ends
    ensures NeverTruncated(body.log, |old(body.log)|, Delivered(old(body.log)) + old(user.Rest()))
    ensures WritesOnly(old(body.log), filled) && EndedBy(filled, body.log, body.closable, copyErr, endErr)
    ensures old(user.ends) <= user.ends
    ensures Caused(old(body.log), filled, user.ends[|old(user.ends)|..], copyErr)
    ensures body.reliable && user.reliable ==> copyErr.None? && closeErr.None? && endErr.None?
  {
    ghost var before, whole := body.log, Delivered(body.log) + user.Rest();
    ghost var upTo;
    copyErr, upTo := Copy(body, user);
    filled := body.log;
    assert copyErr.None? ==> Delivered(filled) == whole;
    closeErr := user.Close();
    if copyErr.None? {
      endErr := body.Close();
    } else {
      endErr := body.Abandon();
    }
    EndOrNothing(before, filled, body.log, whole);
  }

  /** copyBody. The errors are sent in this order: copy, close of the user's body, end of the stream. */
  method CopyBody(body: HTTPBody, user: Reader?, userIsABI: bool)
    returns (errs: seq<Option<Err>>, ghost filled: seq<Event>)
    requires user != null ==> user.Valid()
    modifies body`log, (if user == null then {} else {user})`pos, (if user == null then {} else {user})`ends
    ensures user != null && !userIsABI ==>
              && |errs| == 3 && WritesOnly(old(body.log), filled)
              && NeverTruncated(body.log, |old(body.log)|, Delivered(old(body.log)) + old(user.Rest()))
              && EndedBy(filled, body.log, body.closable, errs[0], errs[2])
              && old(user.ends) <= user.ends
              && Caused(old(body.log), filled, user.ends[|old(user.ends)|..], errs[0])
              && (body.reliable && user.reliable ==> errs == [None, None, None])
    ensures user == null || userIsABI ==>
              |errs| == 1 && filled == old(body.log) && EndedBy(filled, body.log, body.closable, None, errs[0])
              && (body.reliable ==> errs == [None])
  {
    if user != null && !userIsABI {
      var copyErr, closeErr, endErr;
      copyErr, closeErr, endErr, filled := CopyAndEnd(body, user);
      errs := [copyErr, closeErr, endErr];
    } else {
      filled := body.log;
      var endErr := body.Close();
      errs := [endErr];
    }
  }

  /** A filled log with at most one terminal call after it. */
  lemma {:induction false} EndOrNothing(before: seq<Event>, filled: seq<Event>, log: seq<Event>, whole: string)
    requires WritesOnly(before, filled) && filled <= log && |log| <= |filled| + 1
    requires |log| > |filled| ==>
               log[|filled|].Abandoned? || (log[|filled|].Closed? && Delivered(filled) == whole)
    ensures NeverTruncated(log, |before|, whole)
    ensures |log| > |filled| ==> log[..|log| - 1] == filled
  {
    if |log| > |filled| {
      assert log == filled + [log[|filled|]];
      EndsWell(before, filled, [log[|filled|]], whole);
    } else {
      assert log == filled;
      FirstEndIs(log, |before|, |log|);
    }
  }

  // ---- the cached body ------------------------------------------------------------------------

  /** The insert branch of both apply functions. The body inserted is the backend's, appended, or a
      transformation of it, copied. On an error the stream is left open, neither closed nor abandoned. */
  method Fill(body: HTTPBody, transformed: Reader?, backend: string) returns (err: Option<Err>)
    requires body.closable && body.log == [] && (transformed != null ==> transformed.Valid() && transformed.pos == 0)
    modifies body`log, (if transformed == null then {} else {transformed})`pos,
             (if transformed == null then {} else {transformed})`ends
    ensures NeverTruncated(body.log, 0, if transformed != null then transformed.content else backend)
    ensures FirstEnd(body.log, 0) == (if err.None? then |body.log| - 1 else |body.log|)
    ensures err.None? ==> body.log[|body.log| - 1].Closed?
    ensures err.Some? ==>
              if transformed == null then body.log == [Appended("", err)]
              else old(transformed.ends) <= transformed.ends
                   && Caused([], body.log, transformed.ends[|old(transformed.ends)|..], err)
    ensures body.reliable && (transformed != null ==> transformed.reliable) ==> err.None?
  {
    ghost var whole := if transformed != null then transformed.content else backend;
    if transformed != null {
      var copyErr, _ := Copy(body, transformed);
      err := copyErr;
      assert transformed.content[0..] == transformed.content;
    } else {
      err := body.Append(backend);
    }
    ghost var filled := body.log;
    StillOpen(filled, whole);
    if err.Some? { return; }
    var _ := body.Close();
    ClosedWhole(filled, body.log, whole);
  }

  lemma {:induction false} StillOpen(filled: seq<Event>, whole: string)
    requires forall i :: 0 <= i < |filled| ==> !Terminal(filled[i])
    ensures NeverTruncated(filled, 0, whole) && FirstEnd(filled, 0) == |filled|
  {
    FirstEndIs(filled, 0, |filled|);
  }

  lemma {:induction false} ClosedWhole(filled: seq<Event>, log: seq<Event>, whole: string)
    requires forall i :: 0 <= i < |filled| ==> !Terminal(filled[i])
    requires Delivered(filled) == whole && |log| == |filled| + 1 && filled <= log && log[|filled|].Closed?
    ensures NeverTruncated(log, 0, whole) && FirstEnd(log, 0) == |filled|
  {
    assert log[..|filled|] == filled;
    FirstEndIs(log, 0, |filled|);
  }
}
