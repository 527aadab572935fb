/** responseWriter: early hints, one response, its body, and its trailers. */
module ResponseWriter {
  import opened Text
  import opened Body

  const EARLY_HINTS := 103
  const OK := 200
  const PREFIX := "Trailer:"

  // ---- headers ---------------------------------------------------------------------------

  predicate IsBreak(c: char) { c == '\n' || c == '\r' }

  ghost predicate NoBreaks(s: string) { forall c :: c in s ==> !IsBreak(c) }

  /** headerNewlineToSpace */
  function Spaced(s: string): (r: string)
    ensures |r| == |s| && NoBreaks(r)
    ensures forall i :: 0 <= i < |s| ==> r[i] == if IsBreak(s[i]) then ' ' else s[i]
  {
    if s == "" then "" else [if IsBreak(s[0]) then ' ' else s[0]] + Spaced(s[1..])
  }

  method Cleaned(values: seq<string>) returns (cleaned: seq<string>)
    ensures |cleaned| == |values| && forall i :: 0 <= i < |values| ==> cleaned[i] == Spaced(values[i])
  {
    cleaned := [];
    for i := 0 to |values|
      invariant |cleaned| == i && forall j :: 0 <= j < i ==> cleaned[j] == Spaced(values[j])
    {
      cleaned := cleaned + [Spaced(values[i])];
    }
  }

  /** The headers that describe a body; early hints have none. */
  predicate BodyHeader(key: string) {
    key == "Content-Length" || key == "Transfer-Encoding" || key == "Trailer"
  }

  ghost predicate CleanHeaders(h: Headers) {
    forall k, i :: k in h && 0 <= i < |h[k]| ==> NoBreaks(h[k][i])
  }

  ghost predicate NoBodyHeaders(h: Headers) { forall k :: k in h ==> !BodyHeader(k) }

  /** `after` is `before` with the cleaned values of the headers that were sent. */
  ghost predicate Updated(before: Headers, after: Headers, h: Headers, sent: set<string>) {
    forall k ::
      if k in sent then k in h && k in after && CleanOf(after[k], h[k])
      else (k in after <==> k in before) && (k in before ==> after[k] == before[k])
  }

  ghost predicate CleanOf(cleaned: seq<string>, values: seq<string>) {
    |cleaned| == |values| && forall i :: 0 <= i < |values| ==> cleaned[i] == Spaced(values[i])
  }

  /** Every header is sent or refused by the host, except that hints leave out what describes a body. */
  ghost predicate Offered(h: Headers, hints: bool, sent: set<string>, refused: set<string>) {
    && sent !! refused
    && forall k :: k in sent || k in refused <==> k in h && !(hints && BodyHeader(k))
  }

  lemma {:induction false} UpdatedKeepsClean(before: Headers, after: Headers, h: Headers, hints: bool,
                                             sent: set<string>, refused: set<string>)
    requires Updated(before, after, h, sent) && Offered(h, hints, sent, refused) && CleanHeaders(before)
    ensures CleanHeaders(after)
    ensures hints && NoBodyHeaders(before) ==> NoBodyHeaders(after)
  {
    forall k, i | k in after && 0 <= i < |after[k]| ensures NoBreaks(after[k][i]) {
      if k !in sent { assert k in before; }
    }
  }

  // ---- the trailer names ------------------------------------------------------------------

  /** The non-empty pieces, trimmed. */
  function Named(pieces: seq<string>): seq<string> {
    if pieces == [] then []
    else (if Trim(pieces[0]) != "" then [Trim(pieces[0])] else []) + Named(pieces[1..])
  }

  function TrailerNames(values: seq<string>): seq<string> {
    if values == [] then [] else Named(Split(values[0], ',')) + TrailerNames(values[1..])
  }

  lemma {:induction false} NamedExactly(pieces: seq<string>, k: string)
    ensures k in Named(pieces) <==> k != "" && exists j :: 0 <= j < |pieces| && Trim(pieces[j]) == k
  {
    if pieces != [] {
      var rest := pieces[1..];
      NamedExactly(rest, k);
      if k in Named(rest) {
        var j :| 0 <= j < |rest| && Trim(rest[j]) == k;
        assert Trim(pieces[j + 1]) == k;
      }
      if j :| 0 <= j < |pieces| && Trim(pieces[j]) == k {
        if j > 0 { assert Trim(rest[j - 1]) == k; }
      }
    }
  }

  /** Some comma-separated piece of the line, trimmed, is that name. */
  ghost predicate Lists(line: string, k: string) {
    exists j :: 0 <= j < |Split(line, ',')| && Trim(Split(line, ',')[j]) == k
  }

  /** The names in the list are exactly the non-empty ones that some line lists. */
  lemma {:induction false} TrailerNamesExactly(values: seq<string>, k: string)
    ensures k in TrailerNames(values) <==> k != "" && exists i :: 0 <= i < |values| && Lists(values[i], k)
  {
    if values != [] {
      var rest := values[1..];
      NamedExactly(Split(values[0], ','), k);
      TrailerNamesExactly(rest, k);
      if k in TrailerNames(rest) {
        var i :| 0 <= i < |rest| && Lists(rest[i], k);
        assert Lists(values[i + 1], k);
      }
      if i :| 0 <= i < |values| && Lists(values[i], k) {
        if i > 0 { assert Lists(rest[i - 1], k); }
      }
    }
  }

  /** parseTrailers */
  method ParseTrailers(values: seq<string>) returns (names: seq<string>)
    ensures names == TrailerNames(values)
  {
    names := [];
    for i := 0 to |values|
      invariant names + TrailerNames(values[i..]) == TrailerNames(values)
    {
      ghost var rest := values[i..];
      assert rest[0] == values[i] && rest[1..] == values[i + 1..];
      var pieces := ReadNames(values[i]);
      ConcatAssoc(names, pieces, TrailerNames(rest[1..]));
      names := names + pieces;
    }
    assert values[|values|..] == [];
  }

  method ReadNames(v: string) returns (names: seq<string>)
    ensures names == Named(Split(v, ','))
  {
    names := [];
    var pieces := Split(v, ',');
    for i := 0 to |pieces|
      invariant names + Named(pieces[i..]) == Named(pieces)
    {
      ghost var rest := pieces[i..];
      assert rest[0] == pieces[i] && rest[1..] == pieces[i + 1..];
      var name := Trim(pieces[i]);
      if name != "" {
        ConcatAssoc(names, [name], Named(rest[1..]));
        names := names + [name];
      }
    }
    assert pieces[|pieces|..] == [];
  }

  /** The values of trailer k: those of a header announced under that name, or else of its prefixed form. */
  function TrailerValues(h: Headers, saved: seq<string>, k: string): seq<string> {
    if k in saved && k in h && h[k] != [] then h[k]
    else if PREFIX + k in h then h[PREFIX + k]
    else []
  }

  /** The header the trailers are collected in. */
  ghost predicate Collected(t: Headers, h: Headers, saved: seq<string>) {
    forall k :: (k in t <==> TrailerValues(h, saved, k) != []) && (k in t ==> t[k] == TrailerValues(h, saved, k))
  }

  method PrefixedTrailers(h: Headers) returns (t: Headers)
    ensures Collected(t, h, [])
  {
    t := map[];
    var todo := h.Keys;
    while todo != {}
      invariant todo <= h.Keys
      invariant forall k :: k in t <==> PREFIX + k in h && PREFIX + k !in todo && h[PREFIX + k] != []
      invariant forall k :: k in t ==> t[k] == h[PREFIX + k]
      decreases |todo|
    {
      var key :| key in todo;
      todo := todo - {key};
      if PREFIX <= key {
        var k := key[|PREFIX|..];
        assert PREFIX + k == key;
        assert forall other :: PREFIX + other == key ==> other == (PREFIX + other)[|PREFIX|..] == k;
        if h[key] != [] { t := t[k := h[key]]; }
      }
    }
  }

  method CollectTrailers(h: Headers, saved: seq<string>) returns (t: Headers)
    ensures Collected(t, h, saved)
  {
    t := PrefixedTrailers(h);
    for i := 0 to |saved|
      invariant Collected(t, h, saved[..i])
    {
      assert saved[..i + 1] == saved[..i] + [saved[i]];
      if saved[i] in h && h[saved[i]] != [] { t := t[saved[i] := h[saved[i]]]; }
    }
    assert saved[..|saved|] == saved;
  }

  // ---- what the host sees ----------------------------------------------------------------

  predicate IsHint(e: Event) { e.Sent? && e.code == EARLY_HINTS && !e.streaming }
  predicate IsFinal(e: Event) { e.Sent? && e.code != EARLY_HINTS && e.streaming }
  predicate IsData(e: Event) { e.Wrote? || e.Appended? }

  /** One trailer for each of the keys, with the first of its values. */
  ghost predicate OneForEach(block: seq<Event>, t: Headers, keys: set<string>) {
    && (forall i :: 0 <= i < |block| ==>
          && block[i].Trailer? && block[i].key in keys * t.Keys && t[block[i].key] != []
          && block[i].value == t[block[i].key][0])
    && (forall i, j :: 0 <= i < j < |block| ==> block[i].key != block[j].key)
    && (forall k :: k in keys ==> exists i :: 0 <= i < |block| && block[i].key == k)
  }

  /** So a name is written exactly when it has a value, announced or prefixed, and the announced one wins. */
  lemma {:induction false} TrailerWritten(block: seq<Event>, t: Headers, h: Headers, saved: seq<string>, k: string)
    requires OneForEach(block, t, t.Keys) && Collected(t, h, saved)
    ensures k in saved && k in h && h[k] != [] ==> Trailer(k, h[k][0]) in block
    ensures !(k in saved && k in h && h[k] != []) && "Trailer:" + k in h && h["Trailer:" + k] != [] ==>
              Trailer(k, h["Trailer:" + k][0]) in block
    ensures forall v :: Trailer(k, v) in block ==>
              (k in saved && k in h && h[k] != []) || ("Trailer:" + k in h && h["Trailer:" + k] != [])
  {
    if k in t {
      var i :| 0 <= i < |block| && block[i].key == k;
      assert block[i] == Trailer(k, t[k][0]);
    }
  }

  lemma {:induction false} OneMore(block: seq<Event>, t: Headers, keys: set<string>, key: string)
    requires OneForEach(block, t, keys) && key !in keys && key in t && t[key] != []
    ensures OneForEach(block + [Trailer(key, t[key][0])], t, keys + {key})
  {
    var more := block + [Trailer(key, t[key][0])];
    assert more[|block|].key == key;
    forall k | k in keys + {key} ensures exists i :: 0 <= i < |more| && more[i].key == k {
      if k in keys {
        var i :| 0 <= i < |block| && block[i].key == k;
        assert more[i].key == k;
      }
    }
  }

  /** The log of a writer in a given state: hints, the response at `at`, data, the trailers in [tr, cl),
      the end of the stream if the response was sent, and data that came too late. */
  ghost predicate Follows(log: seq<Event>, wrote: bool, closed: bool, closable: bool, at: int, tr: int, cl: int) {
    if !wrote then !closed && !closable && forall i :: 0 <= i < |log| ==> IsHint(log[i])
    else
      && 0 <= at < |log| && IsFinal(log[at]) && (closable <==> log[at].err.None?)
      && (forall i :: 0 <= i < at ==> IsHint(log[i]))
      && if !closed then forall i :: at < i < |log| ==> IsData(log[i])
         else
           && at < tr <= cl <= |log|
           && (forall i :: at < i < tr ==> IsData(log[i]))
           && (forall i :: tr <= i < cl ==> log[i].Trailer?)
           && (forall i, j :: tr <= i < j < cl ==> log[i].key != log[j].key)
           && (closable ==> cl < |log| && log[cl].Closed?)
           && (forall i :: (if closable then cl + 1 else cl) <= i < |log| ==> IsData(log[i]))
  }

  lemma {:induction false} DataKeeps(log: seq<Event>, later: seq<Event>, closed: bool, closable: bool,
                                     at: int, tr: int, cl: int)
    requires Follows(log, true, closed, closable, at, tr, cl)
    requires log <= later && forall i :: |log| <= i < |later| ==> IsData(later[i])
    ensures Follows(later, true, closed, closable, at, tr, cl)
  {
  }

  // ---- the writer --------------------------------------------------------------------------

  function ValuesOf(h: Headers, k: string): seq<string> { if k in h then h[k] else [] }

  /** What WriteHeader keeps of the host's answer. */
  function SendError(err: Option<Err>): Option<Err> {
    if err == Some(Invalid) then Some(InvalidStatusCode) else err
  }

  function AnswerTo(answers: seq<Option<Err>>, k: nat): Option<Err> { if k < |answers| then answers[k] else None }

  function WriteError(err: Option<Err>): Option<Err> {
    if err == Some(BadHandle) then Some(ConnectionClosed) else err
  }

  class Writer {
    const body: HTTPBody
    var header: Headers        // the handler edits it freely
    var hostHeaders: Headers   // what has been set on the host's response
    var wroteHeaders: bool
    var closed: bool
    var sendErr: Option<Err>
    var trailers: seq<string>
    const answers: seq<Option<Err>>   // what the host answers to one send after the other; nothing means success
    var sends: nat
    ghost var at: int
    ghost var tr: int
    ghost var cl: int

    constructor (answers: seq<Option<Err>>, reliable: bool)
      ensures Valid() && fresh(body) && body.log == [] && !wroteHeaders && !closed && sendErr.None?
      ensures this.answers == answers && body.reliable == reliable && sends == 0
    {
      body := new HTTPBody(false, reliable);
      this.answers, sends := answers, 0;
      header, hostHeaders, trailers := map[], map[], [];
      wroteHeaders, closed, sendErr := false, false, None;
      at, tr, cl := 0, 0, 0;
    }

    ghost predicate Valid()
      reads this, body
    {
      Good(body.log, wroteHeaders, closed, body.closable, sendErr, hostHeaders, at, tr, cl)
    }

    /** The handler's edits of the header map. */
    method SetHeader(h: Headers)
      requires Valid()
      modifies `header
      ensures Valid() && header == h
    {
      header := h;
    }

    /** The loop over the header map; what the host refuses is only reported on the console. */
    method SendHeaders(hints: bool) returns (ghost sent: set<string>, ghost refused: set<string>)
      modifies `hostHeaders
      ensures Updated(old(hostHeaders), hostHeaders, header, sent) && Offered(header, hints, sent, refused)
    {
      sent, refused := {}, {};
      var todo := header.Keys;
      while todo != {}
        invariant todo <= header.Keys && sent !! refused
        invariant forall k :: k in sent || k in refused <==> k in header && k !in todo && !(hints && BodyHeader(k))
        invariant Updated(old(hostHeaders), hostHeaders, header, sent)
        decreases |todo|
      {
        var key :| key in todo;
        todo := todo - {key};
        if !(hints && BodyHeader(key)) {
          var accepted, _ := SendHeader(key);
          if accepted { sent := sent + {key}; } else { refused := refused + {key}; }
        }
      }
      assert Offered(header, hints, sent, refused);
    }

    method SendHeader(key: string) returns (accepted: bool, ghost cleaned: seq<string>)
      requires key in header
      modifies `hostHeaders
      ensures CleanOf(cleaned, header[key])
      ensures hostHeaders == if accepted then old(hostHeaders)[key := cleaned] else old(hostHeaders)
    {
      var values := Cleaned(header[key]);
      cleaned := values;
      accepted := *;
      if accepted { hostHeaders := hostHeaders[key := values]; }
    }

    /** SendDownstream: the body becomes closable when it is streamed. */
    method SendDownstream(code: int, stream: bool) returns (err: Option<Err>)
      modifies `sends, body
      ensures err == AnswerTo(answers, old(sends)) && sends == old(sends) + 1
      ensures body.log == old(body.log) + [Sent(code, hostHeaders, stream, err)]
      ensures body.closable == (old(body.closable) || (stream && err.None?))
    {
      err := AnswerTo(answers, sends);
      sends := sends + 1;
      body.log := body.log + [Sent(code, hostHeaders, stream, err)];
      if err.None? && stream { body.closable := true; }
    }

    ghost function State(): View
      reads this, body
    {
      View(wroteHeaders, closed, body.closable, sendErr, trailers, hostHeaders, sends, body.log)
    }

    /** The headers, then the response. */
    method Send(code: int) returns (ghost sent: set<string>, ghost refused: set<string>, err: Option<Err>)
      requires CleanHeaders(hostHeaders)
      modifies `hostHeaders, `sends, body
      ensures err == AnswerTo(answers, old(sends)) && sends == old(sends) + 1
      ensures Updated(old(hostHeaders), hostHeaders, header, sent)
      ensures Offered(header, code == EARLY_HINTS, sent, refused)
      ensures CleanHeaders(hostHeaders)
      ensures code == EARLY_HINTS && NoBodyHeaders(old(hostHeaders)) ==> NoBodyHeaders(hostHeaders)
      ensures body.log == old(body.log) + [Sent(code, hostHeaders, code != EARLY_HINTS, err)]
      ensures body.closable == (old(body.closable) || (code != EARLY_HINTS && err.None?))
    {
      sent, refused := SendHeaders(code == EARLY_HINTS);
      UpdatedKeepsClean(old(hostHeaders), hostHeaders, header, code == EARLY_HINTS, sent, refused);
      err := SendDownstream(code, code != EARLY_HINTS);
    }

    /** WriteHeader: nothing once the response has been sent. Before that the host gets the cleaned headers
        and the response, and its answer is kept; only hints leave room for another one. */
    method WriteHeader(code: int) returns (ghost sent: set<string>, ghost refused: set<string>, ghost err: Option<Err>)
      requires Valid()
      modifies `hostHeaders, `wroteHeaders, `sendErr, `trailers, `sends, `at, body
      ensures Valid()
      ensures old(wroteHeaders) ==> State() == old(State())
      ensures !old(wroteHeaders) ==>
                && Updated(old(hostHeaders), hostHeaders, header, sent)
                && Offered(header, code == EARLY_HINTS, sent, refused)
                && body.log == old(body.log) + [Sent(code, hostHeaders, code != EARLY_HINTS, err)]
                && sendErr == SendError(err) && sendErr != Some(Invalid) && wroteHeaders == (code != EARLY_HINTS)
                && trailers == TrailerNames(ValuesOf(header, "Trailer"))
                && err == AnswerTo(answers, old(sends)) && sends == old(sends) + 1
    {
      sent, refused, err := {}, {}, None;
      if wroteHeaders { return; }
      ghost var before, prior, was := body.log, hostHeaders, sendErr;
      var status;
      sent, refused, status := Send(code);
      err := status;
      SentKeeps(before, was, prior, at, tr, cl, code, hostHeaders, err);
      sendErr := SendError(status);
      trailers := ParseTrailers(ValuesOf(header, "Trailer"));
      if code != EARLY_HINTS {
        wroteHeaders := true;
        at := |before|;
      }
    }

    /** The implicit WriteHeader(200) of the other calls. Its failure is left for the calls after this one. */
    method EnsureResponse()
      requires Valid() && sendErr.None?
      modifies `hostHeaders, `wroteHeaders, `sendErr, `trailers, `sends, `at, body
      ensures Valid() && wroteHeaders && Implicit(old(State()), State(), answers)
    {
      if !wroteHeaders {
        var _, _, _ := WriteHeader(OK);
      }
    }

    /** Write: the error of the response, once there is one; else as much of p as the host takes. */
    method Write(p: string) returns (n: nat, err: Option<Err>, ghost mid: View)
      requires Valid()
      modifies `hostHeaders, `wroteHeaders, `sendErr, `trailers, `sends, `at, body
      ensures Valid()
      ensures old(sendErr).Some? ==> State() == old(State()) && n == 0 && err == old(sendErr)
      ensures old(sendErr).None? ==>
                && Implicit(old(State()), mid, answers) && State() == mid.(log := body.log)
                && WritesOnly(mid.log, body.log) && n <= |p| && (err.None? <==> n == |p|)
                && Delivered(body.log) == Delivered(mid.log) + p[..n]
                && (exists e :: ErrorIsLast(mid.log, body.log, e) && err == WriteError(e)) && err != Some(BadHandle)
                && (body.reliable ==> err.None?)
    {
      mid := State();
      if sendErr.Some? { return 0, sendErr, mid; }
      EnsureResponse();
      mid := State();
      n, err := body.Write(p);
      DataKeeps(mid.log, body.log, closed, body.closable, at, tr, cl);
      err := WriteError(err);
    }

    /** Append: content is that of another response's body, or nothing of the kind. */
    method Append(content: Option<string>) returns (err: Option<Err>, ghost mid: View)
      requires Valid()
      modifies `hostHeaders, `wroteHeaders, `sendErr, `trailers, `sends, `at, body
      ensures Valid()
      ensures old(sendErr).Some? ==> State() == old(State()) && err == old(sendErr)
      ensures old(sendErr).None? ==>
                && Implicit(old(State()), mid, answers)
                && State() == mid.(log := if content.None? then mid.log
                                          else mid.log + [Appended(if err.None? then content.value else "", err)])
                && (content.None? ==> err == Some(NotABody)) && (content.Some? && body.reliable ==> err.None?)
    {
      mid := State();
      if sendErr.Some? { return sendErr, mid; }
      EnsureResponse();
      mid := State();
      if content.None? { return Some(NotABody), mid; }
      err := body.Append(content.value);
      DataKeeps(mid.log, body.log, closed, body.closable, at, tr, cl);
    }

    /** Close: nothing the second time; else each trailer once, in any order, and then the end of the stream.
        When it is this call whose response failed, the body is not streaming and the end is left out. */
    method Close() returns (err: Option<Err>, ghost mid: View, ghost t: Headers, ghost block: seq<Event>)
      requires Valid()
      modifies `hostHeaders, `wroteHeaders, `sendErr, `trailers, `sends, `closed, `at, `tr, `cl, body
      ensures Valid()
      ensures old(sendErr).Some? ==> State() == old(State()) && err == old(sendErr)
      ensures old(sendErr).None? ==> Implicit(old(State()), mid, answers)
      ensures old(sendErr).None? && mid.closed ==> State() == mid && err.None?
      ensures old(sendErr).None? && !mid.closed ==> State() == Ended(mid, block, err) && OneForEach(block, t, t.Keys)
                                                    && Collected(t, header, mid.trailers)
                                                    && (!mid.closable ==> err.None?)
    {
      mid, t, block := State(), map[], [];
      if sendErr.Some? { err := sendErr; return; }
      EnsureResponse();
      mid := State();
      if closed { err := None; return; }
      err, t, block := End();
    }

    method End() returns (err: Option<Err>, ghost t: Headers, ghost block: seq<Event>)
      requires Valid() && wroteHeaders && !closed
      modifies `closed, `tr, `cl, body`log
      ensures Valid() && State() == Ended(old(State()), block, err)
      ensures OneForEach(block, t, t.Keys) && Collected(t, header, trailers)
      ensures !body.closable ==> err.None?
    {
      ghost var log := body.log;
      closed := true;
      t, block := WriteTrailers();
      err := body.Close();
      tr, cl := |log|, |log| + |block|;
      CloseKeeps(log, block, t, body.closable, err, at);
    }

    /** writeTrailers: the first value of each; the host's refusals are only reported on the console. */
    method WriteTrailers() returns (ghost t: Headers, ghost block: seq<Event>)
      modifies body`log
      ensures Collected(t, header, trailers) && OneForEach(block, t, t.Keys)
      ensures body.log == old(body.log) + block
    {
      var all := CollectTrailers(header, trailers);
      t := all;
      block := AppendTrailers(body, all);
    }
  }

  method AppendTrailers(body: HTTPBody, t: Headers) returns (ghost block: seq<Event>)
    requires forall k :: k in t ==> t[k] != []
    modifies body`log
    ensures OneForEach(block, t, t.Keys) && body.log == old(body.log) + block
  {
    block := [];
    var todo := t.Keys;
    ghost var done := {};
    while todo != {}
      invariant todo <= t.Keys && done == t.Keys - todo
      invariant body.log == old(body.log) + block && OneForEach(block, t, done)
      decreases |todo|
    {
      var key :| key in todo;
      var _ := body.TrailerAppend(key, t[key][0]);
      OneMore(block, t, done, key);
      todo := todo - {key};
      done := done + {key};
      block := block + [Trailer(key, t[key][0])];
    }
    assert done == t.Keys;
  }

  /** What calls see of a writer and change in it. */
  datatype View = View(wrote: bool, closed: bool, closable: bool, sendErr: Option<Err>, trailers: seq<string>,
                       hostHeaders: Headers, sends: nat, log: seq<Event>)

  /** The response has been sent in between, with status 200, if it had not been sent before. */
  ghost predicate Implicit(v: View, w: View, answers: seq<Option<Err>>) {
    if v.wrote then w == v
    else
      && w.wrote && w.closed == v.closed && |w.log| == |v.log| + 1 && w.log[..|v.log|] == v.log
      && var e := w.log[|v.log|];
      && IsFinal(e) && e.code == OK && e.headers == w.hostHeaders && w.sendErr == SendError(e.err)
      && w.closable == e.err.None? && e.err == AnswerTo(answers, v.sends) && w.sends == v.sends + 1
  }

  /** Closed, with the trailers and, if there is a stream, its end. */
  ghost function Ended(v: View, block: seq<Event>, err: Option<Err>): View {
    v.(closed := true, log := v.log + block + if v.closable then [Closed(err)] else [])
  }

  lemma {:induction false} CloseKeeps(log: seq<Event>, block: seq<Event>, t: Headers, closable: bool,
                                      err: Option<Err>, at: int)
    requires Follows(log, true, false, closable, at, 0, 0) && OneForEach(block, t, t.Keys) && CleanSends(log)
    ensures var later := log + block + if closable then [Closed(err)] else [];
            && Follows(later, true, true, closable, at, |log|, |log| + |block|) && CleanSends(later)
            && LastError(later, true, at) == LastError(log, true, at)
  {
    var later := log + block + if closable then [Closed(err)] else [];
    assert forall i :: 0 <= i < |log| ==> later[i] == log[i];
    assert forall i :: 0 <= i < |block| ==> later[|log| + i] == block[i];
  }

  ghost predicate Good(log: seq<Event>, wrote: bool, closed: bool, closable: bool, sendErr: Option<Err>,
                       hostHeaders: Headers, at: int, tr: int, cl: int)
  {
    && Follows(log, wrote, closed, closable, at, tr, cl)
    && sendErr == LastError(log, wrote, at)
    && CleanHeaders(hostHeaders) && (!wrote ==> NoBodyHeaders(hostHeaders))
    && CleanSends(log)
  }

  lemma {:induction false} SentKeeps(log: seq<Event>, sendErr: Option<Err>, prior: Headers, at: int, tr: int, cl: int,
                                     code: int, h: Headers, err: Option<Err>)
    requires Good(log, false, false, false, sendErr, prior, at, tr, cl)
    requires CleanHeaders(h) && (code == EARLY_HINTS ==> NoBodyHeaders(h))
    ensures var later, final := log + [Sent(code, h, code != EARLY_HINTS, err)], code != EARLY_HINTS;
            Good(later, final, false, final && err.None?, SendError(err), h, if final then |log| else at, tr, cl)
  {
    var later := log + [Sent(code, h, code != EARLY_HINTS, err)];
    assert forall i :: 0 <= i < |log| ==> later[i] == log[i];
  }

  ghost predicate CleanSends(log: seq<Event>) {
    forall i :: 0 <= i < |log| && log[i].Sent? ==>
      CleanHeaders(log[i].headers) && (log[i].code == EARLY_HINTS ==> NoBodyHeaders(log[i].headers))
  }

  /** The error of the response, or of the latest hints before it. */
  ghost function LastError(log: seq<Event>, wrote: bool, at: int): Option<Err> {
    if wrote then (if 0 <= at < |log| && log[at].Sent? then SendError(log[at].err) else None)
    else if log != [] && log[|log| - 1].Sent? then SendError(log[|log| - 1].err)
    else None
  }
}
