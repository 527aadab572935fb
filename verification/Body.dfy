/** HTTP bodies and what the host is told about them, in order. */
module Body {
  import opened Text

  datatype Err = BadHandle | Invalid | HostError(code: int) | ReadFailed
               | ConnectionClosed | InvalidStatusCode | NotABody | NotFound

  type Headers = map<string, seq<string>>

  /** One call to the host about a body. `Wrote` and `Appended` carry the bytes the host took and its answer. */
  datatype Event =
    | Sent(code: int, headers: Headers, streaming: bool, err: Option<Err>)
    | Wrote(bytes: string, err: Option<Err>)
    | Appended(bytes: string, err: Option<Err>)
    | Trailer(key: string, value: string)
    | Closed(err: Option<Err>)
    | Abandoned

  predicate Terminal(e: Event) { e.Closed? || e.Abandoned? }

  function Payload(e: Event): string {
    if e.Wrote? || e.Appended? then e.bytes else ""
  }

  /** The content of the body as the host has it. */
  function Delivered(log: seq<Event>): string {
    if log == [] then "" else Delivered(log[..|log| - 1]) + Payload(log[|log| - 1])
  }

  lemma {:induction false} DeliveredSnoc(log: seq<Event>, e: Event)
    ensures Delivered(log + [e]) == Delivered(log) + Payload(e)
  {
    assert (log + [e])[..|log|] == log;
  }

  /** `later` is `log` and then only writes. */
  ghost predicate WritesOnly(log: seq<Event>, later: seq<Event>) {
    log <= later && forall i :: |log| <= i < |later| ==> later[i].Wrote?
  }

  /** Every new write succeeded, except that the last one failed when there is an error, with that error. */
  ghost predicate ErrorIsLast(log: seq<Event>, later: seq<Event>, err: Option<Err>) {
    && WritesOnly(log, later)
    && (forall i :: |log| <= i < |later| - 1 ==> later[i].err.None?)
    && (if err.Some? then |log| < |later| && later[|later| - 1].err == err
        else |log| < |later| ==> later[|later| - 1].err.None?)
  }

  /** HTTPBody. `closable` mirrors the host's streaming bit. A reliable host never fails on it. */
  class HTTPBody {
    const reliable: bool
    var closable: bool
    ghost var log: seq<Event>

    constructor (closable: bool, reliable: bool)
      ensures this.closable == closable && this.reliable == reliable && log == []
    {
      this.closable, this.reliable, log := closable, reliable, [];
    }

    /** One host write. A host that reports success has taken at least one of the bytes. */
    method HostWrite(p: string) returns (n: nat, err: Option<Err>)
      requires p != ""
      modifies `log
      ensures n <= |p| && (err.None? ==> n > 0) && (err.Some? ==> n == 0 && !reliable)
      ensures log == old(log) + [Wrote(p[..n], err)]
      ensures Delivered(log) == Delivered(old(log)) + p[..n]
    {
      err := AnyError(reliable);
      var some: int := *;
      n := if err.Some? then 0 else if 0 < some < |p| then some else |p|;
      DeliveredSnoc(log, Wrote(p[..n], err));
      log := log + [Wrote(p[..n], err)];
    }

    /** Write: reports n with exactly the first n bytes delivered. The only error is that of a write that
        failed, after which no other is made; without one all of p is delivered. */
    method Write(p: string) returns (n: nat, err: Option<Err>)
      modifies `log
      ensures n <= |p| && (err.None? <==> n == |p|)
      ensures Delivered(log) == Delivered(old(log)) + p[..n]
      ensures ErrorIsLast(old(log), log, err)
      ensures err.Some? ==> !reliable
    {
      n, err := 0, None;
      while n < |p| && err.None?
        invariant n <= |p| && (err.Some? ==> n < |p| && !reliable)
        invariant Delivered(log) == Delivered(old(log)) + p[..n]
        invariant ErrorIsLast(old(log), log, err)
        decreases |p| - n, err.None?
      {
        ghost var sofar := Delivered(old(log));
        var written;
        written, err := HostWrite(p[n..]);
        assert p[..n] + p[n..][..written] == p[..n + written];
        ConcatAssoc(sofar, p[..n], p[n..][..written]);
        n := n + written;
      }
    }

    /** Append: the host moves the other body to the end of this one, or fails. */
    method Append(content: string) returns (err: Option<Err>)
      modifies `log
      ensures log == old(log) + [Appended(if err.None? then content else "", err)]
      ensures Delivered(log) == Delivered(old(log)) + if err.None? then content else ""
      ensures err.Some? ==> !reliable
    {
      err := AnyError(reliable);
      ghost var e := Appended(if err.None? then content else "", err);
      DeliveredSnoc(log, e);
      log := log + [e];
    }

    method TrailerAppend(key: string, value: string) returns (err: Option<Err>)
      modifies `log
      ensures log == old(log) + [Trailer(key, value)]
    {
      err := AnyError(reliable);
      log := log + [Trailer(key, value)];
    }

    /** Close: successful end of the stream; nothing unless the body is streaming. */
    method Close() returns (err: Option<Err>)
      modifies `log
      ensures log == if closable then old(log) + [Closed(err)] else old(log)
      ensures !closable || reliable ==> err.None?
    {
      if !closable { return None; }
      err := AnyError(reliable);
      log := log + [Closed(err)];
    }

    /** Abandon: unsuccessful end of the stream; nothing unless the body is streaming. */
    method Abandon() returns (err: Option<Err>)
      modifies `log
      ensures log == if closable then old(log) + [Abandoned] else old(log)
      ensures !closable || reliable ==> err.None?
    {
      if !closable { return None; }
      err := AnyError(reliable);
      log := log + [Abandoned];
    }
  }

  /** A host status that is not the caller's to choose. */
  method AnyError(reliable: bool) returns (err: Option<Err>)
    ensures reliable ==> err.None?
  {
    var kind: int := *;
    err := if reliable || kind == 0 then None
           else if kind == 1 then Some(BadHandle)
           else if kind == 2 then Some(Invalid)
           else Some(HostError(kind));
  }
}
