/** Hostcalls that write into a guest buffer, repeated with the sizes the host asks for. */
module Buffers {
  import opened Text
  import opened CacheOptions

  const SMALL_BUF_LEN: u32 := 128
  const MEDIUM_BUF_LEN: u32 := 1024

  datatype Status = Done | TooSmall | Failed

  /** WriteBuffer: memory a hostcall writes into, and the count it reports. */
  class WriteBuffer {
    const buf: array<char>
    var n: u32

    constructor (capacity: u32)
      ensures fresh(buf) && buf.Length == capacity && n == 0
    {
      buf, n := new char[capacity], 0;
    }

    function AsBytes(): string
      requires n <= buf.Length
      reads this, buf
    {
      buf[..n]
    }
  }

  // ---- one buffer --------------------------------------------------------------------

  /** A host that holds one string. A buffer that is too small is refused with a required size. An
      unreliable host may also fail, or refuse without naming a size. */
  class StringHost {
    const value: string
    const reliable: bool

    ghost predicate Valid() { |value| < U32_END }

    constructor (value: string, reliable: bool)
      requires |value| < U32_END
      ensures this.value == value && this.reliable == reliable && Valid()
    {
      this.value, this.reliable := value, reliable;
    }

    method Read(w: WriteBuffer) returns (status: Status)
      requires Valid() && w.n == 0
      modifies w`n, w.buf
      ensures status.Done? ==> w.n == |value| <= w.buf.Length && w.AsBytes() == value
      ensures status.TooSmall? ==>
                w.buf.Length < |value| && (|value| <= w.n || (w.n == 0 && !reliable))
      ensures status.Failed? ==> !reliable
    {
      var fails: bool := *;
      if fails && !reliable { return Failed; }
      if w.buf.Length < |value| {
        var more: int := *;
        w.n := if reliable || 0 < more < U32_END - |value| then |value| + Clamp(more, U32_END - |value|) else 0;
        return TooSmall;
      }
      forall i | 0 <= i < |value| { w.buf[i] := value[i]; }
      w.n := |value|;
      assert w.buf[..|value|] == value;
      return Done;
    }
  }

  function Clamp(n: int, end: int): int {
    if 0 <= n < end then n else 0
  }

  /** withAdaptiveBuffer: exactly the host's string after one call when it fits in the initial buffer
      and after two when it does not, whatever its length and the initial size. */
  method WithAdaptiveBuffer(initSize: u32, host: StringHost) returns (value: Option<string>, ghost calls: nat)
    requires host.Valid()
    ensures value.Some? ==> value.value == host.value
    ensures host.reliable ==> value.Some? && calls == if |host.value| <= initSize then 1 else 2
    ensures calls <= 2
  {
    var n := initSize;
    calls := 0;
    while true
      invariant calls == 0 ==> n == initSize
      invariant calls > 0 ==> calls == 1 && initSize < |host.value| <= n
      decreases 2 - calls
    {
      var buf := new WriteBuffer(n);
      var status := host.Read(buf);
      calls := calls + 1;
      if status.TooSmall? && buf.n > 0 {
        n := buf.n;
        continue;
      }
      if !status.Done? { return None, calls; }
      return Some(buf.AsBytes()), calls;
    }
  }

  // ---- two buffers -----------------------------------------------------------------------

  /** What the host writes besides the buffers: the outgoing mask, the two lengths, the numbers. */
  datatype Out = Out(mask: Mask, varyLen: u32, keysLen: u32, numbers: Abi)

  /** Of a suggestion, what was asked for; the maximum age is always there. A string that is not part
      of the suggestion is empty. */
  function Asked(s: Abi, asked: Mask): Abi {
    Abi(asked, s.maxAgeNs,
        if VaryRule in asked * s.mask then s.vary else "",
        if InitialAge in asked then s.initialAgeNs else 0,
        if StaleWhileRevalidate in asked then s.swrNs else 0,
        if SurrogateKeys in asked * s.mask then s.surrogate else "",
        if Length in asked then s.length else 0,
        if StaleIfError in asked then s.sieNs else 0)
  }

  function Strings(asked: Mask, s: Abi): Mask { asked * s.mask * {VaryRule, SurrogateKeys} }

  /** A host with a suggestion, whose mask says which of the two strings it has. */
  class SuggestingHost {
    const s: Abi
    const reliable: bool

    ghost predicate Valid() { |s.vary| < U32_END && |s.surrogate| < U32_END }

    constructor (s: Abi, reliable: bool)
      requires |s.vary| < U32_END && |s.surrogate| < U32_END
      ensures this.s == s && this.reliable == reliable && Valid()
    {
      this.s, this.reliable := s, reliable;
    }

    ghost predicate Fits(strings: Mask, varyCap: int, keysCap: int) {
      && (VaryRule in strings ==> |s.vary| <= varyCap)
      && (SurrogateKeys in strings ==> |s.surrogate| <= keysCap)
    }

    /** A length of a string the host does not have, or was not asked for, is left as it was. */
    ghost predicate Lengths(strings: Mask, prior: Out, out: Out, exact: bool) {
      && (if VaryRule in strings then |s.vary| <= out.varyLen && (exact ==> out.varyLen == |s.vary|)
          else out.varyLen == prior.varyLen)
      && (if SurrogateKeys in strings then |s.surrogate| <= out.keysLen && (exact ==> out.keysLen == |s.surrogate|)
          else out.keysLen == prior.keysLen)
    }

    /** Both strings are written, or neither, with the flags and required lengths of both. */
    method Suggest(asked: Mask, vary: array<char>, keys: array<char>, prior: Out)
      returns (status: Status, out: Out)
      requires Valid() && vary != keys
      modifies vary, keys
      ensures var strings := Strings(asked, s);
              && (status.Failed? ==> !reliable)
              && (status.TooSmall? ==>
                    && !Fits(strings, vary.Length, keys.Length)
                    && out.mask == strings && Lengths(strings, prior, out, false))
              && (status.Done? ==>
                    && Fits(strings, vary.Length, keys.Length) && Lengths(strings, prior, out, true)
                    && (VaryRule in strings ==> vary[..|s.vary|] == s.vary)
                    && (SurrogateKeys in strings ==> keys[..|s.surrogate|] == s.surrogate)
                    && out.numbers == Asked(s, asked))
    {
      out := prior;
      var fails: bool := *;
      if fails && !reliable { return Failed, out; }
      var strings := Strings(asked, s);
      var hasVary, hasKeys := VaryRule in strings, SurrogateKeys in strings;
      var varyLen := if hasVary then |s.vary| else prior.varyLen;
      var keysLen := if hasKeys then |s.surrogate| else prior.keysLen;
      if (hasVary && |s.vary| > vary.Length) || (hasKeys && |s.surrogate| > keys.Length) {
        return TooSmall, Out(strings, varyLen, keysLen, prior.numbers);
      }
      if hasVary { Write(vary, s.vary); }
      if hasKeys { Write(keys, s.surrogate); }
      return Done, Out(strings, varyLen, keysLen, Asked(s, asked));
    }
  }

  method Write(buf: array<char>, s: string)
    requires |s| <= buf.Length
    modifies buf
    ensures buf[..|s|] == s
  {
    forall i | 0 <= i < |s| { buf[i] := s[i]; }
    assert buf[..|s|] == s;
  }

  /** HTTPCacheGetSuggestedCacheOptions: at most two calls, and then exactly what was asked for of the
      host's suggestion, whatever the lengths of the two strings. */
  method SuggestedCacheOptions(host: SuggestingHost, asked: Mask) returns (r: Option<Abi>, ghost calls: nat)
    requires host.Valid()
    ensures r.Some? ==> r.value == Asked(host.s, asked)
    ensures host.reliable ==> r.Some?
    ensures host.reliable ==>
              calls == if host.Fits(Strings(asked, host.s), SMALL_BUF_LEN, MEDIUM_BUF_LEN) then 1 else 2
    ensures calls <= 2
  {
    ghost var strings := Strings(asked, host.s);
    var out := Out({}, 0, 0, ZERO_ABI);
    var vary := new char[SMALL_BUF_LEN];
    var keys := new char[MEDIUM_BUF_LEN];
    calls := 0;
    while true
      invariant fresh(vary) && fresh(keys) && vary != keys
      invariant VaryRule !in strings ==> out.varyLen == 0
      invariant SurrogateKeys !in strings ==> out.keysLen == 0
      invariant calls == 0 ==> vary.Length == SMALL_BUF_LEN && keys.Length == MEDIUM_BUF_LEN
      invariant calls > 0 ==> && calls == 1 && host.Fits(strings, vary.Length, keys.Length)
                              && !host.Fits(strings, SMALL_BUF_LEN, MEDIUM_BUF_LEN)
      decreases 2 - calls
    {
      var status;
      status, out := host.Suggest(asked, vary, keys, out);
      calls := calls + 1;
      if status.TooSmall? {
        if VaryRule in out.mask {
          var n := out.varyLen;
          if n == 0 { n := 1; }
          vary := new char[n];
        }
        if SurrogateKeys in out.mask {
          keys := new char[out.keysLen];
        }
        out := out.(mask := {});
        continue;
      }
      if !status.Done? { return None, calls; }
      var o := out.numbers;
      return Some(o.(mask := asked,
                     vary := if VaryRule in asked then vary[..out.varyLen] else "",
                     surrogate := if SurrogateKeys in asked then keys[..out.keysLen] else "")), calls;
    }
  }

  /** The returned mask is the one that was asked for, not the host's. So an SDK that asks for every
      option is told that each is there, and reads the data as sensitive whatever the host said. */
  lemma {:induction false} EveryOptionIsReported(s: Abi, prior: Opts)
    ensures var o := Loaded(prior, Asked(s, CONFIG_MASK));
            && o.sensitive && o.useVary && o.useLength
            && o.age == FromNs(s.initialAgeNs) && o.swr == FromNs(s.swrNs) && o.sie == FromNs(s.sieNs)
            && o.length == s.length
            && o.vary == (if VaryRule in s.mask then s.vary else "")
            && o.surrogate == (if SurrogateKeys in s.mask then s.surrogate else "")
  {
  }
}
