/** CandidateResponse: override flags, the memoised suggestion, and what is finally written. */
module Candidate {
  import opened Text
  import opened CacheOptions

  // Storage actions, as the host numbers them; the host may in principle send any uint32.
  type Action = u32
  const INSERT: Action := 0
  const UPDATE: Action := 1
  const DO_NOT_STORE: Action := 2
  const RECORD_UNCACHEABLE: Action := 3

  datatype Result<+T> = Ok(value: T) | Err(code: int)

  // ---- storage action overrides ------------------------------------------------------

  datatype ActionCall = SetCacheable | SetUncacheable | SetUncacheableDisableCollapsing

  datatype ActionState = ActionState(suggested: Action, override: Action, useOverride: bool) {
    function Final(): Action { if useOverride then override else suggested }

    function After(c: ActionCall): ActionState {
      match c
      case SetCacheable =>
        var o := if useOverride then override else suggested;
        this.(useOverride := true, override := if o != UPDATE then INSERT else o)
      case SetUncacheable => this.(useOverride := true, override := DO_NOT_STORE)
      case SetUncacheableDisableCollapsing => this.(useOverride := true, override := RECORD_UNCACHEABLE)
    }
  }

  function AfterCalls(a: ActionState, calls: seq<ActionCall>): ActionState
    decreases |calls|
  {
    if calls == [] then a else AfterCalls(a.After(calls[0]), calls[1..])
  }

  /** The finalised action, as a function of the suggestion and the calls alone: the last call
      decides, and SetCacheable keeps an update only when nothing refused it before. */
  function ActionOfHistory(suggested: Action, calls: seq<ActionCall>): Action {
    if calls == [] then suggested
    else match calls[|calls| - 1]
      case SetUncacheable => DO_NOT_STORE
      case SetUncacheableDisableCollapsing => RECORD_UNCACHEABLE
      case SetCacheable =>
        if suggested == UPDATE && forall i :: 0 <= i < |calls| ==> calls[i] == SetCacheable
        then UPDATE else INSERT
  }

  lemma {:induction false} AfterCallsSnoc(a: ActionState, calls: seq<ActionCall>, c: ActionCall)
    ensures AfterCalls(a, calls + [c]) == AfterCalls(a, calls).After(c)
    decreases |calls|
  {
    if calls == [] {
      assert ([c])[1..] == [];
      assert calls + [c] == [c];
    } else {
      assert (calls + [c])[0] == calls[0] && (calls + [c])[1..] == calls[1..] + [c];
      AfterCallsSnoc(a.After(calls[0]), calls[1..], c);
    }
  }

  lemma {:induction false} ActionFollowsHistory(suggested: Action, calls: seq<ActionCall>)
    ensures var a := AfterCalls(ActionState(suggested, 0, false), calls);
            a.Final() == ActionOfHistory(suggested, calls) && a.useOverride == (calls != [])
            && a.suggested == suggested
    decreases |calls|
  {
    if calls != [] {
      var n := |calls| - 1;
      var before, c := calls[..n], calls[n];
      assert calls == before + [c];
      ActionFollowsHistory(suggested, before);
      AfterCallsSnoc(ActionState(suggested, 0, false), before, c);
      if c == SetCacheable && suggested == UPDATE && before != [] {
        assert (forall i :: 0 <= i < |calls| ==> calls[i] == SetCacheable)
               <==> (forall i :: 0 <= i < |before| ==> before[i] == SetCacheable);
      }
    }
  }

  /** An update is issued only if the host itself suggested one. */
  lemma {:induction false} UpdateOnlyIfSuggested(suggested: Action, calls: seq<ActionCall>)
    ensures AfterCalls(ActionState(suggested, 0, false), calls).Final() == UPDATE ==> suggested == UPDATE
    ensures calls != [] || suggested <= 3 ==>
              AfterCalls(ActionState(suggested, 0, false), calls).Final() <= 3
  {
    ActionFollowsHistory(suggested, calls);
  }

  // ---- the candidate ---------------------------------------------------------------------

  /** CacheOptions as they stand after the BeforeSend hook. */
  datatype RequestOptions = RequestOptions(pci: bool, swr: u32, sie: u32, surrogateKey: string, ttl: u32)

  datatype Cand = Cand(
    action: ActionState,
    pci: bool, usePCI: bool, swr: u32, useSWR: bool, sie: u32, useSIE: bool,
    extraKeys: string, keys: string, useKeys: bool, ttl: u32, useTTL: bool, vary: string, useVary: bool,
    transforms: bool, memo: Option<Opts>)

  /** newCandidate: a response with cookies is not cached unless it is already not to be stored. */
  function NewCand(suggested: Action, setCookie: string, o: RequestOptions): Cand {
    var action := if setCookie != "" && suggested != DO_NOT_STORE then RECORD_UNCACHEABLE else suggested;
    Cand(ActionState(action, 0, false), o.pci, o.pci, o.swr, o.swr != 0, o.sie, o.sie != 0,
         o.surrogateKey, "", false, o.ttl, o.ttl != 0, "", false, false, None)
  }

  /** One answer of the host to a request for suggestions: the options record (whose mask the SDK
      overwrites with what it asked for) and the surrogate-key headers of the response. */
  datatype HostReply = Refused(code: int) | Suggests(abi: Abi, headers: Result<seq<string>>)

  function AppendKey(keys: string, k: string): string { if keys != "" then keys + " " + k else k }

  function AppendKeys(keys: string, more: seq<string>): string
    decreases |more|
  {
    if more == [] then keys else AppendKeys(AppendKey(keys, more[0]), more[1..])
  }

  function WithExtra(keys: string, extra: string): string {
    if extra != "" then AppendKey(keys, extra) else keys
  }

  /** buildFreshSuggestedCacheWriteOptions. */
  function Fresh(extra: string, r: HostReply): Result<Opts> {
    match r
    case Refused(code) => Err(code)
    case Suggests(abi, headers) =>
      var o := Loaded(ZERO_OPTS, abi.(mask := CONFIG_MASK));
      match headers
      case Err(code) => Err(code)
      case Ok(vals) => Ok(o.(surrogate := AppendKeys(WithExtra(o.surrogate, extra), vals)))
  }

  /** The surrogate keys are the space-separated list of the non-empty suggestion, the non-empty
      extra keys, and every header value. */
  lemma {:induction false} KeysAreJoined(suggestion: string, extra: string, vals: seq<string>)
    requires forall i :: 0 <= i < |vals| ==> vals[i] != ""
    ensures var parts := (if suggestion != "" then [suggestion] else [])
                         + (if extra != "" then [extra] else []) + vals;
            AppendKeys(WithExtra(suggestion, extra), vals) == if parts == [] then "" else Join(parts, ' ')
  {
    var s := if suggestion != "" then [suggestion] else [];
    var e := if extra != "" then [extra] else [];
    var parts := s + e + vals;
    if s + e == [] {
      assert parts == vals;
      if vals != [] {
        assert vals == [vals[0]] + vals[1..];
        KeysAppended([vals[0]], vals[1..]);
      }
    } else {
      if suggestion != "" && extra != "" {
        assert s + e == [suggestion, extra] && [suggestion, extra][1..] == [extra];
        assert suggestion + " " + extra == suggestion + [' '] + extra;
      } else {
        assert s + e == [if suggestion != "" then suggestion else extra];
      }
      assert WithExtra(suggestion, extra) == Join(s + e, ' ');
      KeysAppended(s + e, vals);
    }
  }

  lemma {:induction false} KeysAppended(done: seq<string>, vals: seq<string>)
    requires done != [] && Join(done, ' ') != "" && forall i :: 0 <= i < |vals| ==> vals[i] != ""
    ensures AppendKeys(Join(done, ' '), vals) == Join(done + vals, ' ')
    decreases |vals|
  {
    if vals == [] {
      assert done + vals == done;
    } else {
      JoinSnoc(done, vals[0]);
      KeysAppended(done + [vals[0]], vals[1..]);
      assert done + [vals[0]] + vals[1..] == done + vals;
    }
  }

  lemma {:induction false} JoinSnoc(done: seq<string>, k: string)
    requires done != []
    ensures Join(done + [k], ' ') == Join(done, ' ') + " " + k
  {
    var all := done + [k];
    if |done| == 1 {
      assert all[1..] == [k];
    } else {
      assert all[1..] == done[1..] + [k];
      JoinSnoc(done[1..], k);
      var tail := Join(done[1..], ' ');
      assert done[0] + [' '] + (tail + " " + k) == done[0] + [' '] + tail + " " + k;
    }
  }

  // ---- getters -----------------------------------------------------------------------------

  /** The getters that consult an override or the suggestion. */
  datatype Getter = Age | MaxAge | TTLRemaining | SWR | SIE | Sensitive | Vary | Keys

  datatype Datum = Num(n: u32) | Bool(b: bool) | Str(s: string)

  function Overridden(c: Cand, g: Getter): Option<Datum> {
    match g
    case Age => None
    case MaxAge => if c.useTTL then Some(Num(c.ttl)) else None
    case TTLRemaining => None
    case SWR => if c.useSWR then Some(Num(c.swr)) else None
    case SIE => if c.useSIE then Some(Num(c.sie)) else None
    case Sensitive => if c.usePCI then Some(Bool(c.pci)) else None
    case Vary => if c.useVary then Some(Str(c.vary)) else None
    case Keys => if c.useKeys then Some(Str(c.keys)) else None
  }

  function Suggested(c: Cand, g: Getter, o: Opts): Datum {
    match g
    case Age => Num(o.age)
    case MaxAge => Num(o.maxAge)
    case TTLRemaining =>
      var maxAge := if c.useTTL then c.ttl else o.maxAge;
      Num(if o.age >= maxAge then 0 else Uint32(maxAge - o.age))
    case SWR => Num(o.swr)
    case SIE => Num(o.sie)
    case Sensitive => Bool(o.sensitive)
    case Vary => Str(o.vary)
    case Keys => Str(o.surrogate)
  }

  /** getSuggestedCacheWriteOptions: asked once, then remembered; a refusal is not remembered. */
  function Consult(c: Cand, r: HostReply): (Cand, Result<Opts>) {
    match c.memo
    case Some(o) => (c, Ok(o))
    case None =>
      match Fresh(c.extraKeys, r)
      case Err(code) => (c, Err(code))
      case Ok(o) => (c.(memo := Some(o)), Ok(o))
  }

  function Get(c: Cand, g: Getter, r: HostReply): (Cand, Result<Datum>) {
    match Overridden(c, g)
    case Some(d) => (c, Ok(d))
    case None =>
      var (c', o) := Consult(c, r);
      (c', match o case Err(code) => Err(code) case Ok(v) => Ok(Suggested(c, g, v)))
  }

  /** The finalised options: overrides before suggestions; a TTL override counts only when it is at
      least the age; the length is recorded when the body's is known and nothing transforms it. */
  function FinalOpts(c: Cand, o: Opts, length: Option<u64>): Opts {
    Opts(
      if c.useTTL && c.ttl >= o.age then Uint32(c.ttl - o.age) else o.maxAge,
      if c.useVary then c.vary else o.vary, false, o.age,
      if c.useSWR then c.swr else o.swr,
      if c.useKeys then c.keys else o.surrogate,
      if !c.transforms && length.Some? then length.value else 0, !c.transforms && length.Some?,
      if c.usePCI then c.pci else o.sensitive,
      if c.useSIE then c.sie else o.sie)
  }

  /** finalizeOptions: uses the remembered suggestion, or asks without remembering. */
  function Finalize(c: Cand, r: HostReply, length: Option<u64>): Result<(Action, Opts)> {
    var o := match c.memo case Some(o) => Ok(o) case None => Fresh(c.extraKeys, r);
    match o
    case Err(code) => Err(code)
    case Ok(v) => Ok((c.action.Final(), FinalOpts(c, v, length)))
  }

  // ---- calls in any order ---------------------------------------------------------------------

  datatype Call =
    | Act(a: ActionCall)
    | SetTTL(n: u32) | SetSWR(n: u32) | SetSIE(n: u32)
    | SetSensitive(b: bool) | SetVary(s: string) | SetKeys(s: string)
    | SetTransform(b: bool)
    | Read(g: Getter, r: HostReply)

  function Step(c: Cand, call: Call): Cand {
    match call
    case Act(a) => c.(action := c.action.After(a))
    case SetTTL(n) => c.(ttl := n, useTTL := true)
    case SetSWR(n) => c.(swr := n, useSWR := true)
    case SetSIE(n) => c.(sie := n, useSIE := true)
    case SetSensitive(b) => c.(pci := b, usePCI := true)
    case SetVary(s) => c.(vary := s, useVary := true)
    case SetKeys(s) => c.(keys := s, useKeys := true)
    case SetTransform(b) => c.(transforms := b)
    case Read(g, r) => Get(c, g, r).0
  }

  function Run(c: Cand, calls: seq<Call>): Cand
    decreases |calls|
  {
    if calls == [] then c else Run(Step(c, calls[0]), calls[1..])
  }

  function ActionCalls(calls: seq<Call>): seq<ActionCall> {
    if calls == [] then []
    else (if calls[0].Act? then [calls[0].a] else []) + ActionCalls(calls[1..])
  }

  lemma {:induction false} RunAction(c: Cand, calls: seq<Call>)
    ensures Run(c, calls).action == AfterCalls(c.action, ActionCalls(calls))
    decreases |calls|
  {
    if calls != [] {
      RunAction(Step(c, calls[0]), calls[1..]);
      var a, rest := ActionCalls(calls), ActionCalls(calls[1..]);
      if calls[0].Act? {
        assert a[0] == calls[0].a && a[1..] == rest;
      } else {
        assert a == rest;
        StepKeepsAction(c, calls[0]);
      }
    }
  }

  lemma {:induction false} StepKeepsAction(c: Cand, call: Call)
    requires !call.Act?
    ensures Step(c, call).action == c.action
  {
    if call.Read? {
      GetFillsMemo(c, call.g, call.r);
    }
  }

  /** A getter changes nothing but an empty memo. */
  lemma {:induction false} GetFillsMemo(c: Cand, g: Getter, r: HostReply)
    ensures var c' := Get(c, g, r).0;
            c' == c.(memo := c'.memo) && (c.memo.Some? ==> c' == c)
  {
    ConsultFillsMemo(c, r);
  }

  lemma {:induction false} ConsultFillsMemo(c: Cand, r: HostReply)
    ensures var c' := Consult(c, r).0;
            c' == c.(memo := c'.memo) && (c.memo.Some? ==> c' == c)
  {
  }

  /** Over every sequence of setter and getter calls, the finalised storage action is the fixed
      function of the host's suggestion, whether a cookie is set, and the storage-action calls. */
  lemma {:induction false} FinalActionOfRun(
    suggested: Action, setCookie: string, o: RequestOptions, calls: seq<Call>, r: HostReply, length: Option<u64>)
    ensures var f := Finalize(Run(NewCand(suggested, setCookie, o), calls), r, length);
            var start := if setCookie == "" || suggested == DO_NOT_STORE then suggested else RECORD_UNCACHEABLE;
            f.Ok? ==> f.value.0 == ActionOfHistory(start, ActionCalls(calls))
  {
    var c0 := NewCand(suggested, setCookie, o);
    RunAction(c0, calls);
    ActionFollowsHistory(c0.action.suggested, ActionCalls(calls));
  }

  /** The getters whose answers finalizeOptions writes as they are. */
  predicate Written(g: Getter) { g == SWR || g == SIE || g == Sensitive || g == Vary || g == Keys }

  function FieldOf(o: Opts, g: Getter): Datum
    requires Written(g)
  {
    match g
    case SWR => Num(o.swr)
    case SIE => Num(o.sie)
    case Sensitive => Bool(o.sensitive)
    case Vary => Str(o.vary)
    case Keys => Str(o.surrogate)
  }

  /** A call that does not set the option a getter reports. */
  predicate Spares(call: Call, g: Getter) {
    match call
    case SetSWR(_) => g != SWR
    case SetSIE(_) => g != SIE
    case SetSensitive(_) => g != Sensitive
    case SetVary(_) => g != Vary
    case SetKeys(_) => g != Keys
    case SetTTL(_) => g != MaxAge && g != TTLRemaining
    case _ => true
  }

  predicate AllSpare(calls: seq<Call>, g: Getter) {
    forall i :: 0 <= i < |calls| ==> Spares(calls[i], g)
  }

  lemma {:induction false} StepSpares(c: Cand, call: Call, g: Getter)
    requires Spares(call, g)
    ensures Overridden(Step(c, call), g) == Overridden(c, g)
    ensures c.memo.Some? ==> Step(c, call).memo == c.memo
    ensures g == TTLRemaining ==> Step(c, call).useTTL == c.useTTL && Step(c, call).ttl == c.ttl
  {
    if call.Read? { ReadSpares(c, call, g); }
  }

  lemma {:induction false} ReadSpares(c: Cand, call: Call, g: Getter)
    requires call.Read?
    ensures var c' := Step(c, call);
            && (c.memo.Some? ==> c' == c) && Overridden(c', g) == Overridden(c, g)
            && c'.useTTL == c.useTTL && c'.ttl == c.ttl
  {
    GetFillsMemo(c, call.g, call.r);
  }

  /** Such calls leave the override alone, and a memo that is filled. */
  lemma {:induction false} RunSpares(c: Cand, calls: seq<Call>, g: Getter)
    requires AllSpare(calls, g)
    ensures Overridden(Run(c, calls), g) == Overridden(c, g)
    ensures c.memo.Some? ==> Run(c, calls).memo == c.memo
    ensures g == TTLRemaining ==> Run(c, calls).useTTL == c.useTTL && Run(c, calls).ttl == c.ttl
    decreases |calls|
  {
    if calls != [] {
      StepSpares(c, calls[0], g);
      RunSpares(Step(c, calls[0]), calls[1..], g);
    }
  }

  /** What a getter reports is what is written, whatever was called before, whatever else is called in
      between except the setter of the same option, and whatever the host would answer if asked again. */
  lemma {:induction false} ReportedIsWritten(
    c: Cand, g: Getter, r: HostReply, between: seq<Call>, again: HostReply, length: Option<u64>)
    requires Written(g) && AllSpare(between, g)
    ensures var (c1, reported) := Get(c, g, r);
            var f := Finalize(Run(c1, between), again, length);
            reported.Ok? && f.Ok? ==>
              && FieldOf(f.value.1, g) == reported.value
              && FieldOf(Loaded(ZERO_OPTS, Flushed(f.value.1, ZERO_ABI)), g) == reported.value
  {
    var (c1, reported) := Get(c, g, r);
    RunSpares(c1, between, g);
    var c2 := Run(c1, between);
    var f := Finalize(c2, again, length);
    if reported.Ok? && f.Ok? {
      GetFillsMemo(c, g, r);
      GetSource(c, g, r);
      SameOverride(c, c1, g);
      WrittenFromState(c2, g, reported.value, again, length);
      SurvivesFlush(f.value.1, g);
    }
  }

  lemma {:induction false} SurvivesFlush(o: Opts, g: Getter)
    requires Written(g)
    ensures FieldOf(Loaded(ZERO_OPTS, Flushed(o, ZERO_ABI)), g) == FieldOf(o, g)
  {
    FlushThenLoad(o, ZERO_ABI, ZERO_OPTS);
  }

  /** With the answer's source still in place, the finalised field is the answer. */
  lemma {:induction false} WrittenFromState(d: Cand, g: Getter, v: Datum, again: HostReply, length: Option<u64>)
    requires Written(g) && Finalize(d, again, length).Ok?
    requires match Overridden(d, g)
             case Some(x) => v == x
             case None => d.memo.Some? && v == Suggested(d, g, d.memo.value)
    ensures FieldOf(Finalize(d, again, length).value.1, g) == v
  {
    var o := if d.memo.Some? then d.memo.value else Fresh(d.extraKeys, again).value;
    FinalField(d, o, length, g);
  }

  /** An answer comes from the override, or from a suggestion that is then remembered. */
  lemma {:induction false} GetSource(c: Cand, g: Getter, r: HostReply)
    requires Get(c, g, r).1.Ok?
    ensures var (c', v) := Get(c, g, r);
            match Overridden(c, g)
            case Some(d) => v.value == d
            case None => c'.memo.Some? && v.value == Suggested(c, g, c'.memo.value)
  {
  }

  lemma {:induction false} SameOverride(c: Cand, d: Cand, g: Getter)
    requires d == c.(memo := d.memo)
    ensures Overridden(c, g) == Overridden(d, g)
    ensures forall o :: Suggested(c, g, o) == Suggested(d, g, o)
  {
  }

  lemma {:induction false} FinalField(c: Cand, o: Opts, length: Option<u64>, g: Getter)
    requires Written(g)
    ensures FieldOf(FinalOpts(c, o, length), g) ==
            match Overridden(c, g) case Some(d) => d case None => Suggested(c, g, o)
  {
  }

  // ---- freshness -----------------------------------------------------------------------------

  /** The remaining freshness is max(0, lifetime - age): the guarded subtraction never wraps. */
  lemma {:induction false} RemainingFreshness(c: Cand, o: Opts)
    ensures var life := if c.useTTL then c.ttl else o.maxAge;
            Suggested(c, TTLRemaining, o) == Num(if life > o.age then life - o.age else 0)
  {
  }

  /** The lifetime that is written is the remaining freshness exactly when the TTL override covers the
      age, or when there is nothing to subtract from a suggested lifetime, or none is suggested. */
  lemma {:induction false} WrittenLifetime(c: Cand, o: Opts, length: Option<u64>)
    ensures var m := FinalOpts(c, o, length).maxAge;
            && (c.useTTL && c.ttl >= o.age ==> m == c.ttl - o.age)
            && (!(c.useTTL && c.ttl >= o.age) ==> m == o.maxAge)
            && (Num(m) == Suggested(c, TTLRemaining, o) <==>
                (c.useTTL && c.ttl >= o.age) || o.maxAge == 0 || (!c.useTTL && o.age == 0))
  {
  }

  /** From a reported remaining freshness to the lifetime that is written, over any calls in between that do
      not set the TTL: they are equal if and only if the override covers the age, or the suggestion has no
      lifetime, or nothing is overridden and there is no age. The suggestion is the remembered one. */
  lemma {:induction false} ReportedFreshness(
    c: Cand, r: HostReply, between: seq<Call>, again: HostReply, length: Option<u64>)
    requires AllSpare(between, TTLRemaining)
    ensures var (c1, reported) := Get(c, TTLRemaining, r);
            var c2 := Run(c1, between);
            var f := Finalize(c2, again, length);
            reported.Ok? && f.Ok? ==>
              && c1.memo.Some? && c2.memo == c1.memo
              && var o := c1.memo.value;
                 (Num(f.value.1.maxAge) == reported.value <==>
                  (c.useTTL && c.ttl >= o.age) || o.maxAge == 0 || (!c.useTTL && o.age == 0))
  {
    var (c1, reported) := Get(c, TTLRemaining, r);
    RunSpares(c1, between, TTLRemaining);
    var c2 := Run(c1, between);
    if reported.Ok? {
      GetFillsMemo(c, TTLRemaining, r);
      GetSource(c, TTLRemaining, r);
      assert c2.memo == c1.memo && c1.memo.Some?;
      WrittenLifetime(c2, c1.memo.value, length);
      SameTTL(c, c2, c1.memo.value);
    }
  }

  lemma {:induction false} SameTTL(c: Cand, d: Cand, o: Opts)
    requires c.useTTL == d.useTTL && c.ttl == d.ttl
    ensures Suggested(c, TTLRemaining, o) == Suggested(d, TTLRemaining, o)
  {
  }

  /** A TTL override below the age is ignored: the response is written with the suggested lifetime,
      though it reports no remaining freshness. */
  lemma ShortTTLIgnored()
    ensures var c := NewCand(INSERT, "", RequestOptions(false, 0, 0, "", 5));
            var o := ZERO_OPTS.(maxAge := 100, age := 10);
            FinalOpts(c, o, None).maxAge == 100 && Suggested(c, TTLRemaining, o) == Num(0)
  {
  }

  lemma {:induction false} AppendKeysNext(keys: string, vals: seq<string>, i: nat)
    requires i < |vals|
    ensures AppendKeys(keys, vals[i..]) == AppendKeys(AppendKey(keys, vals[i]), vals[i + 1..])
  {
    assert vals[i..][0] == vals[i] && vals[i..][1..] == vals[i + 1..];
  }

  method GrowKey(keys: string, k: string) returns (more: string)
    ensures more == AppendKey(keys, k)
  {
    more := keys;
    if more != "" { more := more + " "; }
    more := more + k;
  }

  /** The loop over the surrogate-key headers that grows the key list. */
  method GrowKeys(start: string, vals: seq<string>) returns (keys: string)
    ensures keys == AppendKeys(start, vals)
  {
    keys := start;
    assert vals[0..] == vals;
    for i := 0 to |vals|
      invariant AppendKeys(keys, vals[i..]) == AppendKeys(start, vals)
    {
      AppendKeysNext(keys, vals, i);
      keys := GrowKey(keys, vals[i]);
    }
    assert vals[|vals|..] == [];
  }

  // ---- what is set is what is written --------------------------------------------------------

  /** The setter of the option a getter reports, with its argument. */
  predicate SetsTo(call: Call, g: Getter, v: Datum) {
    match g
    case MaxAge => v.Num? && call == SetTTL(v.n)
    case SWR => v.Num? && call == SetSWR(v.n)
    case SIE => v.Num? && call == SetSIE(v.n)
    case Sensitive => v.Bool? && call == SetSensitive(v.b)
    case Vary => v.Str? && call == SetVary(v.s)
    case Keys => v.Str? && call == SetKeys(v.s)
    case _ => false
  }

  lemma {:induction false} OverrideStays(c: Cand, call: Call, g: Getter, v: Datum, later: seq<Call>)
    requires SetsTo(call, g, v) && AllSpare(later, g)
    ensures Overridden(Run(Step(c, call), later), g) == Some(v)
  {
    RunSpares(Step(c, call), later, g);
  }

  /** After a setter, whatever was called before and whatever else is called later, the getter reports its
      argument without asking the host, and that is what is written, and what the flushed record says. */
  lemma {:induction false} SetIsWritten(
    c: Cand, call: Call, g: Getter, v: Datum, later: seq<Call>, r: HostReply, again: HostReply, length: Option<u64>)
    requires SetsTo(call, g, v) && Written(g) && AllSpare(later, g)
    ensures var c' := Run(Step(c, call), later);
            var f := Finalize(c', again, length);
            && Get(c', g, r) == (c', Ok(v))
            && (f.Ok? ==>
                  && f.value.1 == Written1(f.value.1, g, v)
                  && FieldOf(Loaded(ZERO_OPTS, Flushed(f.value.1, ZERO_ABI)), g) == v)
  {
    var c' := Run(Step(c, call), later);
    OverrideStays(c, call, g, v, later);
    var f := Finalize(c', again, length);
    if f.Ok? {
      WrittenFromState(c', g, v, again, length);
      SurvivesFlush(f.value.1, g);
      FieldIs(f.value.1, call, g, v);
    }
  }

  lemma {:induction false} FieldIs(o: Opts, call: Call, g: Getter, v: Datum)
    requires SetsTo(call, g, v) && Written(g) && FieldOf(o, g) == v
    ensures o == Written1(o, g, v)
  {
  }

  /** Options in which the field of a getter has a value, field by field. */
  function Written1(o: Opts, g: Getter, v: Datum): Opts {
    if g == SWR && v.Num? then o.(swr := v.n)
    else if g == SIE && v.Num? then o.(sie := v.n)
    else if g == Sensitive && v.Bool? then o.(sensitive := v.b)
    else if g == Vary && v.Str? then o.(vary := v.s)
    else if g == Keys && v.Str? then o.(surrogate := v.s)
    else o
  }

  /** After SetTTL the maximum age is reported as set; what is written is the TTL less the age exactly when
      the TTL covers the age, and the suggested lifetime otherwise. */
  lemma {:induction false} SetTTLIsWritten(
    c: Cand, ttl: u32, later: seq<Call>, r: HostReply, again: HostReply, length: Option<u64>)
    requires AllSpare(later, MaxAge)
    ensures var c' := Run(Step(c, SetTTL(ttl)), later);
            var f := Finalize(c', again, length);
            && Get(c', MaxAge, r) == (c', Ok(Num(ttl)))
            && (f.Ok? ==>
                  && (f.value.1.maxAge == ttl - f.value.1.age <==> ttl >= f.value.1.age)
                  && (ttl < f.value.1.age ==> Suggestion(c', again) == Ok(f.value.1.maxAge)))
  {
    OverrideStays(c, SetTTL(ttl), MaxAge, Num(ttl), later);
  }

  /** The suggested lifetime: of the remembered suggestion, or of one that is asked for. */
  function Suggestion(c: Cand, r: HostReply): Result<u32> {
    match c.memo
    case Some(o) => Ok(o.maxAge)
    case None =>
      match Fresh(c.extraKeys, r)
      case Err(code) => Err(code)
      case Ok(o) => Ok(o.maxAge)
  }

  predicate NoTransform(calls: seq<Call>) { forall i :: 0 <= i < |calls| ==> !calls[i].SetTransform? }

  lemma {:induction false} TransformStep(c: Cand, call: Call)
    requires !call.SetTransform?
    ensures Step(c, call).transforms == c.transforms
  {
    if call.Read? { GetFillsMemo(c, call.g, call.r); }
  }

  lemma {:induction false} TransformStays(c: Cand, later: seq<Call>)
    requires NoTransform(later)
    ensures Run(c, later).transforms == c.transforms
    decreases |later|
  {
    if later != [] {
      TransformStep(c, later[0]);
      TransformStays(Step(c, later[0]), later[1..]);
    }
  }

  /** The length of the body is given to the options exactly when it is known and nothing transforms the body. */
  lemma {:induction false} LengthIsWritten(c: Cand, b: bool, later: seq<Call>, again: HostReply, length: Option<u64>)
    requires NoTransform(later)
    ensures var f := Finalize(Run(Step(c, SetTransform(b)), later), again, length);
            f.Ok? ==>
              && (f.value.1.useLength <==> length.Some? && !b)
              && f.value.1.length == if length.Some? && !b then length.value else 0
  {
    TransformStays(Step(c, SetTransform(b)), later);
  }

  /** Without an override each getter reports what the host suggests, in seconds; the surrogate keys are the
      suggestion, the keys of the request's options and those of the response, joined by spaces. */
  lemma {:induction false} SuggestionIsReported(c: Cand, abi: Abi, vals: seq<string>)
    requires c.memo.None? && !c.useTTL && forall i :: 0 <= i < |vals| ==> vals[i] != ""
    ensures var r := Suggests(abi, Ok(vals));
            var parts := (if abi.surrogate != "" then [abi.surrogate] else [])
                         + (if c.extraKeys != "" then [c.extraKeys] else []) + vals;
            && Get(c, MaxAge, r).1 == Ok(Num(FromNs(abi.maxAgeNs)))
            && Get(c, Age, r).1 == Ok(Num(FromNs(abi.initialAgeNs)))
            && (!c.useSWR ==> Get(c, SWR, r).1 == Ok(Num(FromNs(abi.swrNs))))
            && (!c.useSIE ==> Get(c, SIE, r).1 == Ok(Num(FromNs(abi.sieNs))))
            && (!c.usePCI ==> Get(c, Sensitive, r).1 == Ok(Bool(true)))
            && (!c.useVary ==> Get(c, Vary, r).1 == Ok(Str(abi.vary)))
            && (!c.useKeys ==> Get(c, Keys, r).1 == Ok(Str(if parts == [] then "" else Join(parts, ' '))))
  {
    KeysAreJoined(abi.surrogate, c.extraKeys, vals);
  }

  /** A new candidate overrides what the options of the request set, and nothing else; what was not
      suggested to be left alone is not stored when the response sets a cookie. */
  lemma {:induction false} NewCandidate(suggested: Action, setCookie: string, o: RequestOptions)
    ensures var c := NewCand(suggested, setCookie, o);
            && c.action.Final() == (if setCookie == "" || suggested == DO_NOT_STORE then suggested
                                    else RECORD_UNCACHEABLE)
            && Overridden(c, MaxAge) == (if o.ttl == 0 then None else Some(Num(o.ttl)))
            && Overridden(c, SWR) == (if o.swr == 0 then None else Some(Num(o.swr)))
            && Overridden(c, SIE) == (if o.sie == 0 then None else Some(Num(o.sie)))
            && Overridden(c, Sensitive) == (if o.pci then Some(Bool(true)) else None)
            && Overridden(c, Vary) == None && Overridden(c, Keys) == None
            && c.extraKeys == o.surrogateKey && c.memo.None? && !c.transforms
  {
  }

  // ---- the object itself ------------------------------------------------------------------------

  /** CandidateResponse. Every host answer a method may need is passed to it. */
  class CandidateResponse {
    var suggestedStorageAction: Action
    var overrideStorageAction: Action
    var useStorageAction: bool
    var overridePCI: bool
    var usePCI: bool
    var overrideStaleWhileRevalidate: u32
    var useSWR: bool
    var overrideStaleIfError: u32
    var useSIE: bool
    var extraSurrogateKeys: string
    var overrideSurrogateKeys: string
    var useSurrogate: bool
    var overrideTTL: u32
    var useTTL: bool
    var overrideVary: string
    var useVary: bool
    var transforms: bool
    var suggestedCacheWriteOptions: Option<Opts>

    ghost function State(): Cand
      reads this
    {
      Cand(ActionState(suggestedStorageAction, overrideStorageAction, useStorageAction),
           overridePCI, usePCI, overrideStaleWhileRevalidate, useSWR, overrideStaleIfError, useSIE,
           extraSurrogateKeys, overrideSurrogateKeys, useSurrogate, overrideTTL, useTTL,
           overrideVary, useVary, transforms, suggestedCacheWriteOptions)
    }

    /** newCandidate, after the host prepared the response for storage. */
    constructor (suggested: Action, setCookie: string, o: RequestOptions)
      ensures State() == NewCand(suggested, setCookie, o)
    {
      suggestedStorageAction :=
        if setCookie != "" && suggested != DO_NOT_STORE then RECORD_UNCACHEABLE else suggested;
      overrideStorageAction, useStorageAction := 0, false;
      overridePCI, usePCI := o.pci, o.pci;
      overrideStaleWhileRevalidate, useSWR := o.swr, o.swr != 0;
      overrideStaleIfError, useSIE := o.sie, o.sie != 0;
      extraSurrogateKeys, overrideSurrogateKeys, useSurrogate := o.surrogateKey, "", false;
      overrideTTL, useTTL := o.ttl, o.ttl != 0;
      overrideVary, useVary, transforms, suggestedCacheWriteOptions := "", false, false, None;
    }

    method SetCacheable()
      modifies this
      ensures State() == Step(old(State()), Act(ActionCall.SetCacheable))
    {
      if !useStorageAction {
        useStorageAction := true;
        overrideStorageAction := suggestedStorageAction;
      }
      if overrideStorageAction != UPDATE { overrideStorageAction := INSERT; }
    }

    method SetUncacheable()
      modifies this
      ensures State() == Step(old(State()), Act(ActionCall.SetUncacheable))
    {
      useStorageAction := true;
      overrideStorageAction := DO_NOT_STORE;
    }

    method SetUncacheableDisableCollapsing()
      modifies this
      ensures State() == Step(old(State()), Act(ActionCall.SetUncacheableDisableCollapsing))
    {
      useStorageAction := true;
      overrideStorageAction := RECORD_UNCACHEABLE;
    }

    method SetTTL(ttl: u32)
      modifies this
      ensures State() == Step(old(State()), Call.SetTTL(ttl))
      ensures overrideTTL == ttl && useTTL
    {
      overrideTTL, useTTL := ttl, true;
    }

    method SetStaleWhileRevalidate(swr: u32)
      modifies this
      ensures State() == Step(old(State()), Call.SetSWR(swr))
      ensures overrideStaleWhileRevalidate == swr && useSWR
    {
      overrideStaleWhileRevalidate, useSWR := swr, true;
    }

    method SetStaleIfError(sie: u32)
      modifies this
      ensures State() == Step(old(State()), Call.SetSIE(sie))
      ensures overrideStaleIfError == sie && useSIE
    {
      overrideStaleIfError, useSIE := sie, true;
    }

    method SetSensitive(sensitive: bool)
      modifies this
      ensures State() == Step(old(State()), Call.SetSensitive(sensitive))
      ensures overridePCI == sensitive && usePCI
    {
      overridePCI, usePCI := sensitive, true;
    }

    method SetVary(vary: string)
      modifies this
      ensures State() == Step(old(State()), Call.SetVary(vary))
      ensures overrideVary == vary && useVary
    {
      overrideVary, useVary := vary, true;
    }

    method SetSurrogateKeys(keys: string)
      modifies this
      ensures State() == Step(old(State()), Call.SetKeys(keys))
      ensures overrideSurrogateKeys == keys && useSurrogate
    {
      overrideSurrogateKeys, useSurrogate := keys, true;
    }

    /** buildFreshSuggestedCacheWriteOptions. */
    method BuildFresh(r: HostReply) returns (opts: Result<Opts>)
      ensures opts == Fresh(extraSurrogateKeys, r)
    {
      if r.Refused? { return Err(r.code); }
      var o := Loaded(ZERO_OPTS, r.abi.(mask := CONFIG_MASK));
      var keys := o.surrogate;
      if extraSurrogateKeys != "" {
        keys := GrowKey(keys, extraSurrogateKeys);
      }
      assert keys == WithExtra(o.surrogate, extraSurrogateKeys);
      if r.headers.Err? { return Err(r.headers.code); }
      keys := GrowKeys(keys, r.headers.value);
      return Ok(o.(surrogate := keys));
    }

    method GetSuggested(r: HostReply) returns (opts: Result<Opts>)
      modifies this`suggestedCacheWriteOptions
      ensures (State(), opts) == Consult(old(State()), r)
    {
      if suggestedCacheWriteOptions.None? {
        opts := BuildFresh(r);
        if opts.Err? { return; }
        suggestedCacheWriteOptions := Some(opts.value);
      }
      return Ok(suggestedCacheWriteOptions.value);
    }

    method Age(r: HostReply) returns (v: Result<Datum>)
      modifies this`suggestedCacheWriteOptions
      ensures (State(), v) == Get(old(State()), Getter.Age, r)
    {
      var opts := GetSuggested(r);
      if opts.Err? { return Err(opts.code); }
      return Ok(Num(opts.value.age));
    }

    method MaxAge(r: HostReply) returns (v: Result<Datum>)
      modifies this`suggestedCacheWriteOptions
      ensures (State(), v) == Get(old(State()), Getter.MaxAge, r)
    {
      if useTTL { return Ok(Num(overrideTTL)); }
      var opts := GetSuggested(r);
      if opts.Err? { return Err(opts.code); }
      return Ok(Num(opts.value.maxAge));
    }

    method TTLRemaining(r: HostReply) returns (v: Result<Datum>)
      modifies this`suggestedCacheWriteOptions
      ensures (State(), v) == Get(old(State()), Getter.TTLRemaining, r)
    {
      var opts := GetSuggested(r);
      if opts.Err? { return Err(opts.code); }
      var maxAge, age := opts.value.maxAge, opts.value.age;
      if useTTL { maxAge := overrideTTL; }
      if age >= maxAge { return Ok(Num(0)); }
      return Ok(Num(Uint32(maxAge - age)));
    }

    method StaleWhileRevalidate(r: HostReply) returns (v: Result<Datum>)
      modifies this`suggestedCacheWriteOptions
      ensures (State(), v) == Get(old(State()), Getter.SWR, r)
    {
      if useSWR { return Ok(Num(overrideStaleWhileRevalidate)); }
      var opts := GetSuggested(r);
      if opts.Err? { return Err(opts.code); }
      return Ok(Num(opts.value.swr));
    }

    method StaleIfError(r: HostReply) returns (v: Result<Datum>)
      modifies this`suggestedCacheWriteOptions
      ensures (State(), v) == Get(old(State()), Getter.SIE, r)
    {
      if useSIE { return Ok(Num(overrideStaleIfError)); }
      var opts := GetSuggested(r);
      if opts.Err? { return Err(opts.code); }
      return Ok(Num(opts.value.sie));
    }

    method Sensitive(r: HostReply) returns (v: Result<Datum>)
      modifies this`suggestedCacheWriteOptions
      ensures (State(), v) == Get(old(State()), Getter.Sensitive, r)
    {
      if usePCI { return Ok(Bool(overridePCI)); }
      var opts := GetSuggested(r);
      if opts.Err? { return Err(opts.code); }
      return Ok(Bool(opts.value.sensitive));
    }

    method Vary(r: HostReply) returns (v: Result<Datum>)
      modifies this`suggestedCacheWriteOptions
      ensures (State(), v) == Get(old(State()), Getter.Vary, r)
    {
      if useVary { return Ok(Str(overrideVary)); }
      var opts := GetSuggested(r);
      if opts.Err? { return Err(opts.code); }
      return Ok(Str(opts.value.vary));
    }

    method SurrogateKeys(r: HostReply) returns (v: Result<Datum>)
      modifies this`suggestedCacheWriteOptions
      ensures (State(), v) == Get(old(State()), Getter.Keys, r)
    {
      if useSurrogate { return Ok(Str(overrideSurrogateKeys)); }
      var opts := GetSuggested(r);
      if opts.Err? { return Err(opts.code); }
      return Ok(Str(opts.value.surrogate));
    }

    /** finalizeOptions: does not touch the candidate. */
    method FinalizeOptions(r: HostReply, length: Option<u64>) returns (f: Result<(Action, Opts)>)
      ensures f == Finalize(State(), r, length)
    {
      var storageAction := if useStorageAction then overrideStorageAction else suggestedStorageAction;
      var sugg;
      if suggestedCacheWriteOptions.Some? {
        sugg := suggestedCacheWriteOptions.value;
      } else {
        var built := BuildFresh(r);
        if built.Err? { return Err(built.code); }
        sugg := built.value;
      }
      var opts := Effective(sugg, length);
      return Ok((storageAction, opts));
    }

    /** The option by option part of finalizeOptions. */
    method Effective(sugg: Opts, length: Option<u64>) returns (opts: Opts)
      ensures opts == FinalOpts(State(), sugg, length)
    {
      var maxAge := if useTTL && overrideTTL >= sugg.age then Uint32(overrideTTL - sugg.age) else sugg.maxAge;
      var swr := if useSWR then overrideStaleWhileRevalidate else sugg.swr;
      var sie := if useSIE then overrideStaleIfError else sugg.sie;
      var vary := if useVary then overrideVary else sugg.vary;
      var keys := if useSurrogate then overrideSurrogateKeys else sugg.surrogate;
      var pci := if usePCI then overridePCI else sugg.sensitive;
      var known := !transforms && length.Some?;
      opts := Opts(maxAge, vary, false, sugg.age, swr, keys, if known then length.value else 0, known, pci, sie);
    }
  }
}
