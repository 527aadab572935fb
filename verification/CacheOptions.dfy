/** Cache write options: the seconds the SDK works in, and the nanosecond record of the host ABI. */
module CacheOptions {
  const U32_END := 0x1_0000_0000
  const U64_END := 0x1_0000_0000_0000_0000
  const I63 := 0x8000_0000_0000_0000
  const SECOND := 1_000_000_000

  type u32 = n: int | 0 <= n < U32_END
  type u64 = n: int | 0 <= n < U64_END

  // ---- machine arithmetic ---------------------------------------------------------

  /** The value in [lo, hi) that n wraps around to. */
  function Wrap(n: int, lo: int, hi: int): (r: int)
    requires lo < hi
    ensures lo <= r < hi
    ensures lo <= n < hi ==> r == n
    decreases if n < lo then lo - n else if n >= hi then n - hi + 1 else 0
  {
    if n < lo then Wrap(n + (hi - lo), lo, hi)
    else if n >= hi then Wrap(n - (hi - lo), lo, hi)
    else n
  }

  function Int64(n: int): (r: int) { Wrap(n, -I63, I63) }
  function Uint64(n: int): (r: u64) { Wrap(n, 0, U64_END) }
  function Uint32(n: int): (r: u32) { Wrap(n, 0, U32_END) }

  /** Division that truncates toward zero, as Go's does. */
  function TruncDiv(a: int, b: int): int
    requires b > 0
  {
    if a >= 0 then a / b else -((-a) / b)
  }

  /** u32sTou64ns: an int64 multiplication. */
  function ToNs(s: u32): u64 { Uint64(Int64(Int64(s) * SECOND)) }

  /** u64nsTou32s: an int64 division, then a truncation to 32 bits. */
  function FromNs(ns: u64): u32 { Uint32(TruncDiv(Int64(ns), SECOND)) }

  /** Seconds to nanoseconds never overflows int64, and comes back. */
  lemma SecondsSurvive(s: u32)
    ensures ToNs(s) == s * SECOND && s * SECOND < I63
    ensures FromNs(ToNs(s)) == s
  {
  }

  /** Nanoseconds are read as whole seconds exactly when those fit in 32 bits. */
  lemma NanosecondsReadExactly(ns: u64)
    ensures FromNs(ns) == ns / SECOND <==> ns < U32_END * SECOND
  {
    if ns < U32_END * SECOND {
      assert ns < I63;
    } else {
      assert ns / SECOND >= U32_END;
    }
  }

  // ---- the ABI record -----------------------------------------------------------------

  /** The option flags; a mask, whose bits are distinct powers of two, is a set of them. */
  datatype Flag = Reserved | VaryRule | InitialAge | StaleWhileRevalidate | SurrogateKeys | Length
                | SensitiveData | StaleIfError

  type Mask = set<Flag>

  const CONFIG_MASK: Mask :=
    {Reserved, VaryRule, InitialAge, StaleWhileRevalidate, SurrogateKeys, Length, SensitiveData, StaleIfError}

  datatype Abi = Abi(mask: Mask, maxAgeNs: u64, vary: string, initialAgeNs: u64, swrNs: u64,
                     surrogate: string, length: u64, sieNs: u64)

  const ZERO_ABI := Abi({}, 0, "", 0, 0, "", 0, 0)

  datatype Opts = Opts(maxAge: u32, vary: string, useVary: bool, age: u32, swr: u32, surrogate: string,
                       length: u64, useLength: bool, sensitive: bool, sie: u32)

  const ZERO_OPTS := Opts(0, "", false, 0, 0, "", 0, false, false, 0)

  function WithSensitive(mask: Mask, b: bool): Mask {
    if b then mask + {SensitiveData} else mask - {SensitiveData}
  }

  /** The record after flushToABI. */
  function Flushed(o: Opts, a: Abi): Abi {
    a.(maxAgeNs := ToNs(o.maxAge), vary := o.vary, initialAgeNs := ToNs(o.age), swrNs := ToNs(o.swr),
       surrogate := o.surrogate, sieNs := ToNs(o.sie),
       mask := WithSensitive(a.mask + {VaryRule} + {InitialAge} + {StaleWhileRevalidate} + {SurrogateKeys},
                             o.sensitive) + {StaleIfError})
  }

  /** The options after loadFromABI; what the record does not carry keeps its prior value. */
  function Loaded(prior: Opts, a: Abi): Opts {
    Opts(FromNs(a.maxAgeNs),
         if VaryRule in a.mask then a.vary else "", VaryRule in a.mask,
         if InitialAge in a.mask then FromNs(a.initialAgeNs) else prior.age,
         if StaleWhileRevalidate in a.mask then FromNs(a.swrNs) else prior.swr,
         if SurrogateKeys in a.mask then a.surrogate else "",
         a.length, Length in a.mask, SensitiveData in a.mask,
         if StaleIfError in a.mask then FromNs(a.sieNs) else prior.sie)
  }

  /** The record tells the host each duration in nanoseconds under its own name, with its flag. */
  lemma {:induction false} FlushedFields(o: Opts, a: Abi)
    ensures var f := Flushed(o, a);
            && f.maxAgeNs == o.maxAge * 1_000_000_000 && f.initialAgeNs == o.age * 1_000_000_000
            && f.swrNs == o.swr * 1_000_000_000 && f.sieNs == o.sie * 1_000_000_000
            && f.vary == o.vary && f.surrogate == o.surrogate && f.length == a.length
            && {VaryRule, InitialAge, StaleWhileRevalidate, SurrogateKeys, StaleIfError} <= f.mask
            && (SensitiveData in f.mask <==> o.sensitive) && (Length in f.mask <==> Length in a.mask)
            && (Reserved in f.mask <==> Reserved in a.mask)
  {
    SecondsSurvive(o.maxAge);
    SecondsSurvive(o.age);
    SecondsSurvive(o.swr);
    SecondsSurvive(o.sie);
  }

  /** Flush then load restores everything except the length, which stays what the record had. */
  lemma FlushThenLoad(o: Opts, a: Abi, prior: Opts)
    ensures Loaded(prior, Flushed(o, a)) ==
            o.(useVary := true, length := a.length, useLength := Length in a.mask)
  {
    SecondsSurvive(o.maxAge);
    SecondsSurvive(o.age);
    SecondsSurvive(o.swr);
    SecondsSurvive(o.sie);
  }

  /** So options flushed into a fresh record, as finalizeOptions does, never tell the host a length. */
  lemma LengthNeverFlushed(o: Opts)
    ensures Length !in Flushed(o, ZERO_ABI).mask && Flushed(o, ZERO_ABI).length == 0
    ensures Loaded(ZERO_OPTS, Flushed(o, ZERO_ABI)) == o.(useVary := true) <==> o.length == 0 && !o.useLength
  {
    FlushThenLoad(o, ZERO_ABI, ZERO_OPTS);
  }

  /** HTTPCacheWriteOptions: setters update a field and its mask bit. */
  class HTTPCacheWriteOptions {
    var mask: Mask
    var maxAgeNs: u64
    var vary: string
    var initialAgeNs: u64
    var swrNs: u64
    var surrogate: string
    var length: u64
    var sieNs: u64

    constructor ()
      ensures Image() == ZERO_ABI
    {
      mask, maxAgeNs, vary, initialAgeNs := {}, 0, "", 0;
      swrNs, surrogate, length, sieNs := 0, "", 0, 0;
    }

    ghost function Image(): Abi
      reads this
    {
      Abi(mask, maxAgeNs, vary, initialAgeNs, swrNs, surrogate, length, sieNs)
    }

    method SetMaxAgeNs(v: u64)
      modifies this
      ensures Image() == old(Image()).(maxAgeNs := v)
    {
      maxAgeNs := v;
    }

    method SetVaryRule(rule: string)
      modifies this
      ensures Image() == old(Image()).(vary := rule, mask := old(mask) + {VaryRule})
    {
      vary, mask := rule, mask + {VaryRule};
    }

    method SetInitialAgeNs(v: u64)
      modifies this
      ensures Image() == old(Image()).(initialAgeNs := v, mask := old(mask) + {InitialAge})
    {
      initialAgeNs, mask := v, mask + {InitialAge};
    }

    method SetStaleWhileRevalidateNs(v: u64)
      modifies this
      ensures Image() == old(Image()).(swrNs := v, mask := old(mask) + {StaleWhileRevalidate})
    {
      swrNs, mask := v, mask + {StaleWhileRevalidate};
    }

    method SetSurrogateKeys(keys: string)
      modifies this
      ensures Image() == old(Image()).(surrogate := keys, mask := old(mask) + {SurrogateKeys})
    {
      surrogate, mask := keys, mask + {SurrogateKeys};
    }

    method SetSensitiveData(b: bool)
      modifies this
      ensures Image() == old(Image()).(mask := WithSensitive(old(mask), b))
    {
      if b {
        mask := mask + {SensitiveData};
      } else {
        mask := mask - {SensitiveData};
      }
    }

    method SetStaleIfErrorNs(v: u64)
      modifies this
      ensures Image() == old(Image()).(sieNs := v, mask := old(mask) + {StaleIfError})
    {
      sieNs, mask := v, mask + {StaleIfError};
    }
  }

  /** cacheWriteOptions: the SDK's seconds beside the ABI record they are flushed to. */
  class CacheWriteOptions {
    var o: Opts
    const abiOpts: HTTPCacheWriteOptions

    constructor (o: Opts, abiOpts: HTTPCacheWriteOptions)
      ensures this.o == o && this.abiOpts == abiOpts
    {
      this.o, this.abiOpts := o, abiOpts;
    }

    /** flushToABI: every field but the length. */
    method FlushToABI()
      modifies abiOpts
      ensures abiOpts.Image() == Flushed(o, old(abiOpts.Image()))
    {
      abiOpts.SetMaxAgeNs(ToNs(o.maxAge));
      abiOpts.SetVaryRule(o.vary);
      abiOpts.SetInitialAgeNs(ToNs(o.age));
      abiOpts.SetStaleWhileRevalidateNs(ToNs(o.swr));
      abiOpts.SetSurrogateKeys(o.surrogate);
      abiOpts.SetSensitiveData(o.sensitive);
      abiOpts.SetStaleIfErrorNs(ToNs(o.sie));
    }

    /** loadFromABI: a duration without its mask bit keeps the old value. */
    method LoadFromABI()
      modifies this
      ensures o == Loaded(old(o), abiOpts.Image())
    {
      var a := abiOpts;
      var age, swr, sie := o.age, o.swr, o.sie;
      if InitialAge in a.mask { age := FromNs(a.initialAgeNs); }
      if StaleWhileRevalidate in a.mask { swr := FromNs(a.swrNs); }
      if StaleIfError in a.mask { sie := FromNs(a.sieNs); }
      o := Opts(FromNs(a.maxAgeNs), if VaryRule in a.mask then a.vary else "", VaryRule in a.mask, age, swr,
                if SurrogateKeys in a.mask then a.surrogate else "", a.length, Length in a.mask,
                SensitiveData in a.mask, sie);
    }
  }

  // ---- freshness reported on a served response -------------------------------------------

  /** Response.TTL: an unguarded uint32 subtraction. */
  function ResponseTTL(maxAge: u32, age: u32): u32 { Uint32(maxAge - age) }

  /** It is the remaining freshness exactly while the response is not older than its lifetime;
      past that it wraps to at least the distance of the two from 2^32. */
  lemma ResponseTTLExactly(maxAge: u32, age: u32)
    ensures ResponseTTL(maxAge, age) == (if age < maxAge then maxAge - age else 0) <==> age <= maxAge
    ensures age > maxAge ==> ResponseTTL(maxAge, age) == U32_END - (age - maxAge)
  {
  }
}
