/** What holds of a response writer after any sequence of calls, and of serve, which runs a handler on one. */
module ResponseRuns {
  import opened Text
  import opened Body
  import opened ResponseWriter

  /** At most one response that is not early hints, and nothing is sent after it. */
  ghost predicate OneResponse(log: seq<Event>) {
    && (forall i :: 0 <= i < |log| && log[i].Sent? ==> IsHint(log[i]) || IsFinal(log[i]))
    && (forall i, j :: 0 <= i < j < |log| && IsFinal(log[i]) ==> !log[j].Sent?)
  }

  /** Body calls come after the attempt to send the response; the stream ends only if that succeeded. */
  ghost predicate ResponseFirst(log: seq<Event>) {
    forall j :: 0 <= j < |log| && !log[j].Sent? ==>
      exists i :: 0 <= i < j && IsFinal(log[i]) && (Terminal(log[j]) ==> log[i].err.None?)
  }

  /** Trailers stand together, each once, right before the end of the stream; it ends once, and is never abandoned. */
  ghost predicate TrailersThenEnd(log: seq<Event>) {
    && (forall i, j, k :: 0 <= i < j < k < |log| && log[i].Trailer? && (log[k].Trailer? || log[k].Closed?) ==>
          log[j].Trailer?)
    && (forall i, j :: 0 <= i < j < |log| && log[i].Closed? ==> !log[j].Closed? && !log[j].Trailer?)
    && (forall i, j :: 0 <= i < j < |log| && log[i].Trailer? && log[j].Trailer? ==> log[i].key != log[j].key)
    && (forall i :: 0 <= i < |log| ==> !log[i].Abandoned?)
  }

  ghost predicate Disciplined(log: seq<Event>) {
    OneResponse(log) && ResponseFirst(log) && TrailersThenEnd(log) && CleanSends(log)
  }

  /** Where the events of each kind are. */
  lemma {:induction false} Where(log: seq<Event>, closed: bool, closable: bool, at: int, tr: int, cl: int, i: int)
    requires Follows(log, true, closed, closable, at, tr, cl) && 0 <= i < |log|
    ensures log[i].Sent? <==> i <= at
    ensures log[i].Sent? ==> IsHint(log[i]) || IsFinal(log[i])
    ensures IsFinal(log[i]) <==> i == at
    ensures log[i].Trailer? <==> closed && tr <= i < cl
    ensures log[i].Closed? <==> closed && closable && i == cl
    ensures !log[i].Abandoned?
  {
  }

  lemma {:induction false} TrailersEnd(log: seq<Event>, closed: bool, closable: bool, at: int, tr: int, cl: int)
    requires Follows(log, true, closed, closable, at, tr, cl)
    ensures TrailersThenEnd(log)
  {
    forall i | 0 <= i < |log|
      ensures log[i].Trailer? <==> closed && tr <= i < cl
      ensures log[i].Closed? <==> closed && closable && i == cl
      ensures !log[i].Abandoned?
    {
      Where(log, closed, closable, at, tr, cl, i);
    }
  }

  lemma {:induction false} ResponseComesFirst(log: seq<Event>, closed: bool, closable: bool, at: int, tr: int, cl: int)
    requires Follows(log, true, closed, closable, at, tr, cl)
    ensures OneResponse(log) && ResponseFirst(log)
  {
    forall i | 0 <= i < |log|
      ensures log[i].Sent? <==> i <= at
      ensures log[i].Sent? ==> IsHint(log[i]) || IsFinal(log[i])
      ensures IsFinal(log[i]) <==> i == at
      ensures Terminal(log[i]) ==> log[at].err.None?
    {
      Where(log, closed, closable, at, tr, cl, i);
    }
    forall j | 0 <= j < |log| && !log[j].Sent?
      ensures exists i :: 0 <= i < j && IsFinal(log[i]) && (Terminal(log[j]) ==> log[i].err.None?)
    {
      assert at < j && IsFinal(log[at]);
    }
  }

  lemma {:induction false} FollowsIsDisciplined(log: seq<Event>, wrote: bool, closed: bool, closable: bool,
                                                at: int, tr: int, cl: int)
    requires Follows(log, wrote, closed, closable, at, tr, cl)
    ensures OneResponse(log) && ResponseFirst(log) && TrailersThenEnd(log)
  {
    if wrote {
      TrailersEnd(log, closed, closable, at, tr, cl);
      ResponseComesFirst(log, closed, closable, at, tr, cl);
    }
  }

  datatype Call = SetHeader(h: Headers) | WriteHeader(code: int) | Write(p: string)
                | Append(content: Option<string>) | Close

  /** The calls that report an error. */
  predicate Reports(c: Call) { c.Write? || c.Append? || c.Close? }

  method Perform(w: Writer, call: Call) returns (err: Option<Err>)
    requires w.Valid()
    modifies w, w.body
    ensures w.Valid()
    ensures old(w.wroteHeaders) ==> w.wroteHeaders && w.sendErr == old(w.sendErr)
    ensures Reports(call) && old(w.sendErr).Some? ==> err == old(w.sendErr) && w.body.log == old(w.body.log)
    ensures old(w.body.log) <= w.body.log
    ensures w.sends <= old(w.sends) + 1
  {
    err := None;
    match call
    case SetHeader(h) => w.SetHeader(h);
    case WriteHeader(code) => var _, _, _ := w.WriteHeader(code);
    case Write(p) => var _, e, _ := w.Write(p); err := e;
    case Append(content) => var e, _ := w.Append(content); err := e;
    case Close => var e, _, _, _ := w.Close(); err := e;
  }

  /** The error of the last response or hints that were sent, as the writer keeps it. */
  ghost predicate Leaves(log: seq<Event>, left: Option<Err>) {
    || (left.None? && forall i :: 0 <= i < |log| ==> !log[i].Sent?)
    || exists i :: 0 <= i < |log| && log[i].Sent? && (forall j :: i < j < |log| ==> !log[j].Sent?)
                   && left == SendError(log[i].err)
  }

  ghost predicate Responded(log: seq<Event>) { exists i :: 0 <= i < |log| && IsFinal(log[i]) }

  lemma {:induction false} StateOfLog(log: seq<Event>, wrote: bool, closed: bool, closable: bool,
                                      at: int, tr: int, cl: int)
    requires Follows(log, wrote, closed, closable, at, tr, cl)
    ensures Leaves(log, LastError(log, wrote, at)) && (wrote <==> Responded(log))
  {
    if wrote {
      assert log[at].Sent? && IsFinal(log[at]);
      ResponseComesFirst(log, closed, closable, at, tr, cl);
    } else if log != [] {
      assert log[|log| - 1].Sent?;
    }
  }

  /** Any handler: the log is disciplined, and from the call after the one that sent the response on, its
      error is the same, and every call that reports an error reports that one. */
  method Handle(calls: seq<Call>, answers: seq<Option<Err>>, reliable: bool)
    returns (w: Writer, errs: seq<Option<Err>>, ghost sentBy: nat)
    ensures fresh(w) && fresh(w.body) && w.Valid() && Disciplined(w.body.log)
    ensures |errs| == |calls| && sentBy <= |calls| && (w.wroteHeaders <==> sentBy < |calls|)
    ensures w.sendErr.Some? ==> forall j :: sentBy < j < |calls| && Reports(calls[j]) ==> errs[j] == w.sendErr
    ensures Leaves(w.body.log, w.sendErr) && (w.wroteHeaders <==> Responded(w.body.log))
    ensures w.answers == answers && w.sends <= |calls| && (calls == [] ==> w.body.log == [])
  {
    w := new Writer(answers, reliable);
    errs, sentBy := [], |calls|;
    for i := 0 to |calls|
      invariant fresh(w) && fresh(w.body) && w.Valid() && |errs| == i
      invariant w.answers == answers && w.sends <= i && (i == 0 ==> w.body.log == [])
      invariant if w.wroteHeaders then sentBy < i else sentBy == |calls|
      invariant w.sendErr.Some? ==> forall j :: sentBy < j < i && Reports(calls[j]) ==> errs[j] == w.sendErr
    {
      ghost var before := w.wroteHeaders;
      var err := Perform(w, calls[i]);
      errs := errs + [err];
      if w.wroteHeaders && !before { sentBy := i; }
    }
    FollowsIsDisciplined(w.body.log, w.wroteHeaders, w.closed, w.body.closable, w.at, w.tr, w.cl);
    StateOfLog(w.body.log, w.wroteHeaders, w.closed, w.body.closable, w.at, w.tr, w.cl);
  }

  /** The Close that serve makes when the handler left no error. Its own result is dropped. */
  method LastClose(w: Writer)
    requires w.Valid() && w.sendErr.None?
    modifies w, w.body
    ensures w.Valid() && w.closed && w.wroteHeaders && Disciplined(w.body.log) && old(w.body.log) <= w.body.log
    ensures w.sendErr == if old(w.wroteHeaders) then None else SendError(AnswerTo(w.answers, old(w.sends)))
  {
    var _, mid, _, _ := w.Close();
    FollowsIsDisciplined(w.body.log, w.wroteHeaders, w.closed, w.body.closable, w.at, w.tr, w.cl);
  }

  /** What a request came to: whether the request and the writer could be made, the error the handler left,
      the log when it returned, and the log in the end. */
  datatype Served = Served(requestMade: bool, writerMade: bool, left: Option<Err>, handled: seq<Event>,
                           log: seq<Event>)

  predicate Panics(r: Served) { !r.requestMade || !r.writerMade || r.left.Some? }

  ghost predicate ServedWell(r: Served) {
    && Disciplined(r.log) && r.handled <= r.log && Leaves(r.handled, r.left)
    && (r.requestMade && r.writerMade && !Panics(r) ==> Responded(r.log))
    && (Panics(r) ==> r.log == r.handled)
    && (!r.requestMade || !r.writerMade ==> r.log == [] && r.left.None?)
  }

  /** serve. It panics if and only if the request or the writer cannot be made or the handler left an error.
      Otherwise it closes the writer, and an error is left unreported if and only if the handler sent no
      response and the one that this Close sends fails. */
  method Serve(requestMade: bool, writerMade: bool, answers: seq<Option<Err>>, reliable: bool, calls: seq<Call>)
    returns (w: Writer?, panicked: bool, ghost r: Served, ghost sends: nat, ghost sentBy: nat)
    ensures w == null <==> !requestMade || !writerMade
    ensures r.requestMade == requestMade && r.writerMade == writerMade && ServedWell(r)
    ensures panicked <==> Panics(r)
    ensures w != null ==> w.Valid() && w.body.log == r.log
    ensures sentBy <= |calls| && sends <= |calls| && (calls == [] ==> r.handled == [])
    ensures w != null ==> (sentBy < |calls| <==> Responded(r.handled))
    ensures !panicked ==> w.closed
    ensures !panicked ==>
              (w.sendErr.Some? <==> !Responded(r.handled) && SendError(AnswerTo(answers, sends)).Some?)
    ensures !panicked && w.sendErr.Some? ==> w.sendErr == SendError(AnswerTo(answers, sends))
  {
    r, sends, sentBy := Served(requestMade, writerMade, None, [], []), 0, 0;
    if !requestMade { return null, true, r, 0, 0; }
    if !writerMade { return null, true, r, 0, 0; }
    var writer, errs;
    writer, errs, sentBy := Handle(calls, answers, reliable);
    w, sends := writer, writer.sends;
    r := Served(true, true, writer.sendErr, writer.body.log, writer.body.log);
    panicked := writer.sendErr.Some?;
    if panicked { return; }
    LastClose(writer);
    r := r.(log := writer.body.log);
    StateOfLog(r.log, writer.wroteHeaders, writer.closed, writer.body.closable, writer.at, writer.tr, writer.cl);
  }

  /** A handler that does nothing, and a host that refuses the response: serve returns, and the client has
      no response. */
  method UnreportedError(e: Err) returns (w: Writer?, panicked: bool, ghost r: Served)
    requires e != Invalid
    ensures !panicked && w != null && w.closed && w.sendErr == Some(e) && r.left.None?
  {
    ghost var sends, sentBy;
    w, panicked, r, sends, sentBy := Serve(true, true, [Some(e)], true, []);
    assert sends == 0 && r.handled == [];
  }

  /** A handler that announces trailers with its response, and gives them values before it returns: each
      announced name that has a value by then is written with the first one. */
  method AnnounceAndWrite(atFirst: Headers, atLast: Headers, reliable: bool) returns (w: Writer)
    ensures forall k :: k in TrailerNames(ValuesOf(atFirst, "Trailer")) && k in atLast && atLast[k] != [] ==>
              Trailer(k, atLast[k][0]) in w.body.log
    ensures w.closed && w.body.log != [] && w.body.log[|w.body.log| - 1].Closed?
  {
    w := new Writer([], reliable);
    w.SetHeader(atFirst);
    var _, _, sendErr := w.WriteHeader(OK);
    w.SetHeader(atLast);
    ghost var names := w.trailers;
    var err, mid, t, block := w.Close();
    forall k | k in names && k in atLast && atLast[k] != [] ensures Trailer(k, atLast[k][0]) in w.body.log {
      TrailerWritten(block, t, atLast, names, k);
    }
  }
}
