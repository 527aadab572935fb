/** GetOrSet of the simple cache, over a transaction of the core cache. */
module SimpleCache {
  import opened Text
  import opened Body
  import opened Streams

  /** What a transactional lookup gives: an error, or the two flags GetOrSet looks at. */
  datatype Lookup = Refused(err: Err) | Looked(found: bool, mustInsertOrUpdate: bool)

  /** Where the content that is returned comes from. */
  datatype Source = Cached | ReadBack

  /** A cache entry of the host; its handle is freed by the first close. */
  class Entry {
    ghost var closes: nat

    constructor ()
      ensures closes == 0
    {
      closes := 0;
    }

    method Close()
      modifies this
      ensures closes == old(closes) + 1
    {
      closes := closes + 1;
    }
  }

  /** Transaction: closing twice closes the host's entry once. */
  class Transaction {
    const entry: Entry
    const found: bool
    const must: bool
    const reliable: bool   // the host does not fail on it
    var ended: bool

    ghost predicate Valid()
      reads this, entry
    {
      entry.closes == if ended then 1 else 0
    }

    constructor (found: bool, must: bool, reliable: bool)
      ensures Valid() && !ended && this.found == found && this.must == must && this.reliable == reliable
      ensures fresh(entry)
    {
      entry := new Entry();
      this.found, this.must, this.reliable, ended := found, must, reliable, false;
    }

    method Close()
      requires Valid()
      modifies this, entry
      ensures Valid() && ended && entry.closes == 1
    {
      if ended { return; }
      ended := true;
      entry.Close();
    }

    /** InsertAndStreamBack: a writer that is still open, or none; a writer made on the way to an error
        is abandoned, and the entry made with it closed. */
    method InsertAndStreamBack() returns (w: HTTPBody?, err: Option<Err>, ghost made: HTTPBody?, ghost back: Entry?)
      ensures w == null <==> err.Some?
      ensures w != null ==> made == w && fresh(w) && w.closable && w.log == [] && w.reliable == reliable
      ensures reliable ==> err.None?
      ensures made == null <==> back == null
      ensures made != null ==> fresh(made) && fresh(back) && made.closable
      ensures made != null && err.Some? ==> made.log == [Abandoned] && back.closes == 1
      ensures made != null && err.None? ==> back.closes == 0
    {
      made, back, w := null, null, null;
      err := AnyError(reliable);
      if err.Some? { return; }
      var body := new HTTPBody(true, reliable);
      var entry := new Entry();
      made, back := body, entry;
      err := AnyError(reliable);   // State and newFound
      if err.Some? {
        var _ := body.Abandon();
        entry.Close();
        return;
      }
      w := body;
    }
  }

  /** An entry the caller's function makes, or its error. */
  datatype Made = Fresh(body: Reader) | Failure(err: Err)

  /** GetOrSet. The function is run at most once, and only by an elected caller; its error saves nothing;
      an inserted stream is first ended by a Close only if it is whole, and every writer that was made for a
      failed insertion has been abandoned, also one that InsertAndStreamBack gave up; the transaction is
      closed exactly once. The entry to read back is closed only when InsertAndStreamBack gives up. */
  method GetOrSet(lookup: Lookup, setFn: Made, reliable: bool)
    returns (r: Option<Source>, err: Option<Err>, ghost tx: Transaction?, ghost w: HTTPBody?,
             ghost back: Entry?, ghost runs: nat)
    requires setFn.Fresh? ==> setFn.body.Valid() && setFn.body.pos == 0
    modifies (if setFn.Fresh? then {setFn.body} else {})`pos, (if setFn.Fresh? then {setFn.body} else {})`ends
    ensures r.Some? <==> err.None?
    ensures tx != null ==> tx.entry.closes == 1
    ensures runs == if lookup.Looked? && lookup.mustInsertOrUpdate then 1 else 0
    ensures runs == 1 && setFn.Failure? ==> err == Some(setFn.err)
    ensures runs == 0 ==> w == null && (r.Some? ==> r == Some(Cached) && lookup.Looked? && lookup.found)
    ensures w != null ==> setFn.Fresh? && w.closable && NeverTruncated(w.log, 0, setFn.body.content)
    ensures r == Some(ReadBack) <==> r.Some? && w != null
    ensures w != null && r.Some? ==>
              var i := FirstEnd(w.log, 0);
              i < |w.log| && w.log[i] == Closed(None) && Delivered(w.log[..i]) == setFn.body.content
              && forall e :: e in w.log ==> !e.Abandoned?
    ensures w != null && r.None? ==> exists e :: e in w.log && e.Abandoned?
    ensures lookup.Looked? && !lookup.mustInsertOrUpdate && !lookup.found ==> err == Some(NotFound)
    ensures reliable && lookup.Looked? ==>
              if !lookup.mustInsertOrUpdate then r.Some? <==> lookup.found
              else r.Some? <== setFn.Fresh? && setFn.body.reliable
    ensures lookup.Refused? ==> err == Some(lookup.err) && tx == null
    ensures w == null <==> back == null
    ensures back != null ==> back.closes == if w.log == [Abandoned] then 1 else 0
  {
    tx, w, back, runs, r := null, null, null, 0, None;
    if lookup.Refused? { err := Some(lookup.err); return; }
    var t := new Transaction(lookup.found, lookup.mustInsertOrUpdate, reliable);
    tx := t;
    if t.must {
      runs := 1;
      if setFn.Failure? {
        err := Some(setFn.err);
        t.Close();
        return;
      }
      var writer;
      writer, err, w, back := t.InsertAndStreamBack();
      if writer == null {
        if w != null { GivenUp(w.log, setFn.body.content); }
        t.Close();
        return;
      }
      err := FillAndEnd(writer, setFn.body);
      r := if err.None? then Some(ReadBack) else None;
      t.Close();
      return;
    }
    if t.found {
      err := AnyError(reliable);   // newFound
      r := if err.None? then Some(Cached) else None;
    } else {
      err := Some(NotFound);
    }
    t.Close();
  }

  lemma {:induction false} GivenUp(log: seq<Event>, whole: string)
    requires log == [Abandoned]
    ensures NeverTruncated(log, 0, whole) && exists e :: e in log && e.Abandoned?
  {
    assert log[0] in log;
  }

  /** Without an error the first end is a close of the whole; with one, the body was abandoned. */
  ghost predicate EndedRight(log: seq<Event>, err: Option<Err>, whole: string) {
    && NeverTruncated(log, 0, whole) && log != [Abandoned]
    && (err.None? ==>
          var i := FirstEnd(log, 0);
          i < |log| && log[i] == Closed(None) && Delivered(log[..i]) == whole && forall e :: e in log ==> !e.Abandoned?)
    && (err.Some? ==> exists e :: e in log && e.Abandoned?)
  }

  lemma {:induction false} FailedEnd(filled: seq<Event>, tail: seq<Event>, err: Err, whole: string)
    requires WritesOnly([], filled) && |tail| >= 2
    requires tail[0].Abandoned? || (tail[0].Closed? && Delivered(filled) == whole && tail[1].Abandoned?)
    ensures EndedRight(filled + tail, Some(err), whole)
  {
    var log := filled + tail;
    EndsWell([], filled, tail, whole);
    assert log[|filled|] == tail[0] && log[|filled| + 1] == tail[1];
  }

  lemma {:induction false} GoodEnd(filled: seq<Event>, last: Option<Err>, whole: string)
    requires WritesOnly([], filled) && Delivered(filled) == whole
    ensures EndedRight(filled + [Closed(None), Closed(last)], None, whole)
  {
    var tail := [Closed(None), Closed(last)];
    EndsWell([], filled, tail, whole);
    assert (filled + tail)[..|filled|] == filled;
  }

  method GiveUp(w: HTTPBody) returns (ghost last: Option<Err>)
    requires w.closable
    modifies w`log
    ensures w.log == old(w.log) + [Abandoned, Closed(last)]
  {
    var _ := w.Abandon();
    var err := w.Close();
    last := err;
  }

  /** The copy into the inserted body, its end, and the deferred second close. */
  method FillAndEnd(w: HTTPBody, src: Reader) returns (err: Option<Err>)
    requires w.closable && w.log == [] && src.Valid() && src.pos == 0
    modifies w`log, src`pos, src`ends
    ensures w.reliable && src.reliable ==> err.None?
    ensures EndedRight(w.log, err, src.content)
  {
    assert src.content[0..] == src.content;
    var copyErr, _ := Copy(w, src);
    err := copyErr;
    ghost var filled := w.log;
    assert WritesOnly([], filled);
    if err.Some? {
      var last := GiveUp(w);
      FailedEnd(filled, [Abandoned, Closed(last)], err.value, src.content);
      return;
    }
    err := w.Close();
    if err.Some? {
      var last := GiveUp(w);
      FailedEnd(filled, [Closed(err)] + [Abandoned, Closed(last)], err.value, src.content);
      ConcatAssoc(filled, [Closed(err)], [Abandoned, Closed(last)]);
      return;
    }
    var last := w.Close();
    GoodEnd(filled, last, src.content);
    ConcatAssoc(filled, [Closed(None)], [Closed(last)]);
    assert [Closed(None)] + [Closed(last)] == [Closed(None), Closed(last)];
  }
}
