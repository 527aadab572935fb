/** Serve and ServeMany: how many requests an instance serves, their numbers, and what is over when it returns. */
module ServeMany {
  import opened Text
  import opened Body
  import opened ResponseRuns
  import G = GuestCache
  import P = GuestCacheProof
  import R = GuestCacheRuns
  import L = GuestCacheLiveness

  // ---- the background revalidations ------------------------------------------------------------

  /** One move of a send, for one cache key. */
  datatype Step = Step(key: nat, m: G.Move)

  /** The sends of an instance, one system for each cache key, that share one wait group. */
  type Worlds = seq<G.System>

  ghost predicate AllOK(ws: Worlds) { forall k {:trigger R.SystemOK(ws[k])} :: 0 <= k < |ws| ==> R.SystemOK(ws[k]) }

  function After(ws: Worlds, st: Step): Worlds {
    if st.key < |ws| then ws[st.key := G.Next(ws[st.key], st.m)] else ws
  }

  function Advance(ws: Worlds, steps: seq<Step>): Worlds
    decreases |steps|
  {
    if steps == [] then ws else Advance(After(ws, steps[0]), steps[1..])
  }

  /** All live revalidations. */
  function Pending(ws: Worlds): int {
    if ws == [] then 0 else R.LiveCount(ws[0].clients) + Pending(ws[1..])
  }

  lemma {:induction false} PendingUpdate(ws: Worlds, k: nat, s: G.System)
    requires k < |ws|
    ensures Pending(ws[k := s]) == Pending(ws) - R.LiveCount(ws[k].clients) + R.LiveCount(s.clients)
  {
    var vs := ws[k := s];
    if k == 0 {
      assert vs[1..] == ws[1..];
    } else {
      PendingUpdate(ws[1..], k - 1, s);
      assert vs[1..] == ws[1..][k - 1 := s];
    }
  }

  /** None is live exactly when every background task of every key has ended, or not begun. */
  lemma {:induction false} PendingZero(ws: Worlds)
    ensures Pending(ws) >= 0
    ensures Pending(ws) == 0 <==> Quiet(ws)
  {
    if ws != [] {
      PendingZero(ws[1..]);
      R.LiveCountZero(ws[0].clients);
      assert Quiet(ws) <==> NoneLive(ws[0]) && Quiet(ws[1..]);
    }
  }

  ghost predicate Quiet(ws: Worlds) { forall k :: 0 <= k < |ws| ==> NoneLive(ws[k]) }

  ghost predicate NoneLive(s: G.System) { forall i :: 0 <= i < |s.clients| ==> P.Live(s.clients[i]) == 0 }

  /** A move starts or ends at most one. */
  lemma {:induction false} MoveCounts(s: G.System, m: G.Move)
    requires R.SystemOK(s)
    ensures R.SystemOK(G.Next(s, m)) && -1 <= G.Next(s, m).w.wg - s.w.wg <= 1
  {
    R.NextOK(s, m);
    if R.Moves(s, m) {
      var v := R.MoveIsGood(s, m);
      R.WaitGroupStays(s.clients[m.i], m.t, v, s.w);
    }
  }

  /** What a step does to its key's share of the wait group. */
  function Change(ws: Worlds, st: Step): int {
    if st.key < |ws| then G.Next(ws[st.key], st.m).w.wg - ws[st.key].w.wg else 0
  }

  /** That is what it does to the number of live revalidations. */
  lemma {:induction false} StepCounts(ws: Worlds, st: Step)
    requires AllOK(ws)
    ensures AllOK(After(ws, st)) && -1 <= Change(ws, st) <= 1
    ensures 0 <= Pending(After(ws, st)) == Pending(ws) + Change(ws, st)
  {
    if st.key < |ws| {
      MoveCounts(ws[st.key], st.m);
      PendingUpdate(ws, st.key, G.Next(ws[st.key], st.m));
    }
    PendingZero(After(ws, st));
  }

  /** guestCacheSWRPending; a counter below zero would panic. */
  class WaitGroup {
    var count: nat

    constructor ()
      ensures count == 0
    {
      count := 0;
    }

    method Add()
      modifies this
      ensures count == old(count) + 1
    {
      count := count + 1;
    }

    method Done()
      requires count > 0
      modifies this
      ensures count == old(count) - 1
    {
      count := count - 1;
    }
  }

  /** Whatever the sends have done, the counter is the number of live revalidations of all keys. */
  ghost predicate Counted(ws: Worlds, count: int) { AllOK(ws) && count == Pending(ws) }

  /** One move. A revalidation that it starts is added to the wait group, and one that it ends is done. */
  method Take(ws: Worlds, st: Step, pending: WaitGroup) returns (vs: Worlds)
    requires Counted(ws, pending.count)
    modifies pending
    ensures vs == After(ws, st) && Counted(vs, pending.count)
  {
    StepCounts(ws, st);
    var change := Change(ws, st);
    vs := After(ws, st);
    if change > 0 {
      pending.Add();
    } else if change < 0 {
      pending.Done();
    }
  }

  /** What happens to the sends while something else goes on. */
  method Meanwhile(ws: Worlds, steps: seq<Step>, pending: WaitGroup) returns (vs: Worlds)
    requires Counted(ws, pending.count)
    modifies pending
    ensures vs == Advance(ws, steps) && Counted(vs, pending.count)
  {
    vs := ws;
    for i := 0 to |steps|
      invariant Counted(vs, pending.count) && Advance(vs, steps[i..]) == Advance(ws, steps)
    {
      assert steps[i..][0] == steps[i] && steps[i..][1..] == steps[i + 1..];
      vs := Take(vs, steps[i], pending);
    }
    assert steps[|steps|..] == [];
  }

  /** Step by step, up to the first moment at which nothing is live. */
  function UntilQuiet(ws: Worlds, steps: seq<Step>): Worlds
    decreases |steps|
  {
    if Pending(ws) == 0 || steps == [] then ws else UntilQuiet(After(ws, steps[0]), steps[1..])
  }

  lemma {:induction false} NotYet(ws: Worlds, steps: seq<Step>, i: nat)
    requires i < |steps| && Pending(ws) != 0
    ensures UntilQuiet(ws, steps[i..]) == UntilQuiet(After(ws, steps[i]), steps[i + 1..])
  {
    assert steps[i..][0] == steps[i] && steps[i..][1..] == steps[i + 1..];
  }

  /** Wait: returns at the first moment the counter is zero, if the steps that are taken get there. */
  method Wait(ws: Worlds, steps: seq<Step>, pending: WaitGroup) returns (vs: Worlds, returned: bool)
    requires Counted(ws, pending.count)
    modifies pending
    ensures Counted(vs, pending.count) && vs == UntilQuiet(ws, steps) && (returned <==> pending.count == 0)
  {
    vs := ws;
    var i := 0;
    while i < |steps| && pending.count != 0
      invariant 0 <= i <= |steps| && Counted(vs, pending.count)
      invariant UntilQuiet(vs, steps[i..]) == UntilQuiet(ws, steps)
    {
      NotYet(vs, steps, i);
      vs := Take(vs, steps[i], pending);
      i := i + 1;
    }
    returned := pending.count == 0;
  }

  // ---- Wait can return ------------------------------------------------------------------------

  ghost predicate InBackground(steps: seq<Step>) { forall k :: 0 <= k < |steps| ==> steps[k].m.t.Bg? }

  lemma {:induction false} AdvanceConcat(ws: Worlds, a: seq<Step>, b: seq<Step>)
    ensures Advance(ws, a + b) == Advance(Advance(ws, a), b)
    decreases |a|
  {
    if a == [] {
      assert a + b == b;
    } else {
      assert (a + b)[0] == a[0] && (a + b)[1..] == a[1..] + b;
      AdvanceConcat(After(ws, a[0]), a[1..], b);
    }
  }

  /** The moves of one key. */
  lemma {:induction false} AdvanceOne(ws: Worlds, key: nat, moves: seq<G.Move>) returns (steps: seq<Step>)
    requires key < |ws|
    ensures Advance(ws, steps) == ws[key := G.Run(ws[key], moves)]
    ensures L.InBackground(moves) ==> InBackground(steps)
    decreases |moves|
  {
    if moves == [] {
      steps := [];
    } else {
      var st := Step(key, moves[0]);
      var rest := AdvanceOne(After(ws, st), key, moves[1..]);
      steps := [st] + rest;
      assert steps[1..] == rest;
    }
  }

  /** Whatever has happened, the live revalidations can go on until Wait returns, key by key. */
  lemma {:induction false} WaitCanReturn(ws: Worlds, done: nat) returns (steps: seq<Step>)
    requires AllOK(ws) && done <= |ws| && forall k :: 0 <= k < done ==> NoneLive(ws[k])
    ensures InBackground(steps) && AllOK(Advance(ws, steps)) && Pending(Advance(ws, steps)) == 0
    decreases |ws| - done
  {
    if done == |ws| {
      PendingZero(ws);
      return [];
    }
    var moves := L.WaitCanReturn(ws[done]);
    R.LiveCountZero(G.Run(ws[done], moves).clients);
    var first := AdvanceOne(ws, done, moves);
    var rest := WaitCanReturn(Advance(ws, first), done + 1);
    steps := first + rest;
    AdvanceConcat(ws, first, rest);
  }

  // ---- serving --------------------------------------------------------------------------------

  datatype Options = Options(maxRequests: int, hasLifetime: bool, hasContinue: bool)

  datatype Arrival = Request | NoMore | WaitFails

  /** What the environment does with one pass of the loop: whether the lifetime is over, what Continue says,
      the promise, the arrival, whether the request and the writer can be made, the host's answers to what
      is sent, the handler's calls on its writer, and the moves of sends until the handler returns. */
  datatype Turn = Turn(over: bool, goOn: bool, promised: bool, arrival: Arrival,
                       requestMade: bool, writerMade: bool, answers: seq<Option<Err>>, reliable: bool, calls: seq<Call>,
                       steps: seq<Step>)

  /** How it ends: it returns, it panics, or it is still waiting when the environment's moves are over. */
  datatype End = Normal | Panic | Waiting

  /** The pass that would serve request number `count` gets as far as waiting for it. */
  predicate Allowed(o: Options, count: int, t: Turn) {
    (o.maxRequests == 0 || count <= o.maxRequests) && !(o.hasLifetime && t.over) && !(o.hasContinue && !t.goOn)
  }

  predicate Serves(o: Options, count: int, t: Turn) { Allowed(o, count, t) && t.promised && t.arrival.Request? }

  /** The pass panics before it serves anything. */
  predicate Breaks(o: Options, count: int, t: Turn) {
    Allowed(o, count, t) && (!t.promised || t.arrival.WaitFails?)
  }

  /** What a turn's request came to is possible for it. */
  ghost predicate Of(r: Served, t: Turn) {
    ServedWell(r) && r.requestMade == t.requestMade && r.writerMade == t.writerMade
  }

  /** One serve. */
  method ServeOne(t: Turn, ws: Worlds, pending: WaitGroup) returns (vs: Worlds, panicked: bool, ghost r: Served)
    requires Counted(ws, pending.count)
    modifies pending
    ensures vs == Advance(ws, t.steps) && Counted(vs, pending.count)
    ensures Of(r, t) && (panicked <==> Panics(r))
  {
    vs := Meanwhile(ws, t.steps, pending);
    ghost var sends, sentBy;
    var w;
    w, panicked, r, sends, sentBy := ResponseRuns.Serve(t.requestMade, t.writerMade, t.answers, t.reliable, t.calls);
  }

  /** A pass of the loop: it is over, it fails, or it serves a request. */
  datatype Pass = Over | Broken | Serving(panicked: bool)

  method OnePass(o: Options, requestCount: int, t: Turn, ws: Worlds, pending: WaitGroup)
    returns (p: Pass, vs: Worlds, ghost r: Served)
    requires Counted(ws, pending.count)
    modifies pending
    ensures Counted(vs, pending.count)
    ensures p.Broken? <==> Breaks(o, requestCount, t)
    ensures p.Serving? <==> Serves(o, requestCount, t)
    ensures p.Serving? ==> Of(r, t) && p.panicked == Panics(r)
  {
    vs, r := ws, Served(true, true, None, [], []);
    if o.maxRequests != 0 && requestCount > o.maxRequests { return Over, vs, r; }
    if o.hasLifetime && t.over { return Over, vs, r; }
    if o.hasContinue && !t.goOn { return Over, vs, r; }
    if !t.promised { return Broken, vs, r; }
    if t.arrival.NoMore? { return Over, vs, r; }
    if t.arrival.WaitFails? { return Broken, vs, r; }
    var panicked;
    vs, panicked, r := ServeOne(t, vs, pending);
    p := Serving(panicked);
  }

  /** The request with number k + 1 belongs to its turn, which is served. */
  ghost predicate Belongs(o: Options, turns: seq<Turn>, r: Served, k: int) {
    1 <= k <= |turns| && Of(r, turns[k - 1]) && Serves(o, k + 1, turns[k - 1])
  }

  /** Each request that was served belongs to its turn, and none but the last panicked. */
  ghost predicate Account(o: Options, first: Turn, turns: seq<Turn>, rs: seq<Served>) {
    && 1 <= |rs| <= 1 + |turns| && Of(rs[0], first)
    && (forall k :: 1 <= k < |rs| ==> Belongs(o, turns, rs[k], k))
    && (forall k :: 0 <= k < |rs| - 1 ==> !Panics(rs[k]))
  }

  /** So far, and no panic. */
  ghost predicate Going(o: Options, first: Turn, turns: seq<Turn>, rs: seq<Served>) {
    Account(o, first, turns, rs) && !Panics(rs[|rs| - 1])
  }

  lemma {:induction false} OneMoreServed(o: Options, first: Turn, turns: seq<Turn>, rs: seq<Served>, r: Served)
    requires Going(o, first, turns, rs) && |rs| <= |turns|
    requires Of(r, turns[|rs| - 1]) && Serves(o, |rs| + 1, turns[|rs| - 1])
    ensures if Panics(r) then Account(o, first, turns, rs + [r]) && Stopped(o, turns, rs + [r], Serving(true))
            else Going(o, first, turns, rs + [r])
  {
    var more := rs + [r];
    forall k | 0 <= k < |rs| ensures more[k] == rs[k] && !Panics(more[k]) {
      assert k < |rs| - 1 || k == |rs| - 1;
    }
    forall k | 1 <= k < |more| ensures Belongs(o, turns, more[k], k) {
      assert more[k] == if k < |rs| then rs[k] else r;
    }
  }

  lemma {:induction false} NoneServed(o: Options, first: Turn, turns: seq<Turn>, rs: seq<Served>, stop: Pass)
    requires Going(o, first, turns, rs) && !stop.Serving?
    requires if |rs| <= |turns| then
               && (stop.Broken? <==> Breaks(o, |rs| + 1, turns[|rs| - 1])) && !Serves(o, |rs| + 1, turns[|rs| - 1])
             else stop.Over?
    ensures Stopped(o, turns, rs, stop)
  {
  }

  ghost predicate Numbered(counts: seq<int>) { forall k :: 0 <= k < |counts| ==> counts[k] == k + 1 }

  /** How the passes stopped, after the requests that were served. */
  ghost predicate Stopped(o: Options, turns: seq<Turn>, rs: seq<Served>, stop: Pass)
    requires 1 <= |rs|
  {
    var n := |rs|;
    && (stop.Serving? <==> Panics(rs[n - 1]))
    && (stop.Broken? ==> n <= |turns| && Breaks(o, n + 1, turns[n - 1]))
    && (stop.Over? ==> n > |turns| || (!Serves(o, n + 1, turns[n - 1]) && !Breaks(o, n + 1, turns[n - 1])))
  }

  /** The loop, after the first request. */
  method ServeRest(o: Options, first: Turn, turns: seq<Turn>, ws: Worlds, pending: WaitGroup, ghost r0: Served)
    returns (stop: Pass, counts: seq<int>, vs: Worlds, ghost rs: seq<Served>)
    requires Counted(ws, pending.count) && Of(r0, first) && !Panics(r0)
    modifies pending
    ensures Counted(vs, pending.count)
    ensures Account(o, first, turns, rs) && Numbered(counts) && |counts| == |rs| && Stopped(o, turns, rs, stop)
  {
    var requestCount := 1;
    counts, vs, rs := [requestCount], ws, [r0];
    var i := 0;
    while i < |turns|
      invariant 0 <= i <= |turns| && requestCount == i + 1 == |counts| == |rs|
      invariant Numbered(counts) && Going(o, first, turns, rs)
      invariant Counted(vs, pending.count)
    {
      requestCount := requestCount + 1;
      ghost var r;
      stop, vs, r := OnePass(o, requestCount, turns[i], vs, pending);
      if !stop.Serving? {
        NoneServed(o, first, turns, rs, stop);
        return;
      }
      OneMoreServed(o, first, turns, rs, r);
      counts, rs := counts + [requestCount], rs + [r];
      if stop.panicked { return Serving(true), counts, vs, rs; }
      i := i + 1;
    }
    stop := Over;
    NoneServed(o, first, turns, rs, stop);
  }

  /** The first request, and the rest unless it panics. */
  method ServeAll(o: Options, first: Turn, turns: seq<Turn>, ws: Worlds, pending: WaitGroup)
    returns (stop: Pass, counts: seq<int>, vs: Worlds, ghost rs: seq<Served>)
    requires Counted(ws, pending.count)
    modifies pending
    ensures Counted(vs, pending.count)
    ensures Account(o, first, turns, rs) && Numbered(counts) && |counts| == |rs| && Stopped(o, turns, rs, stop)
  {
    var panicked;
    ghost var r;
    vs, panicked, r := ServeOne(first, ws, pending);
    if panicked { return Serving(true), [1], vs, [r]; }
    stop, counts, vs, rs := ServeRest(o, first, turns, vs, pending, r);
  }

  /** The last request that was served panicked, or the pass after it fails. */
  ghost predicate Fatal(o: Options, turns: seq<Turn>, rs: seq<Served>)
    requires 1 <= |rs|
  {
    Panics(rs[|rs| - 1]) || (|rs| <= |turns| && Breaks(o, |rs| + 1, turns[|rs| - 1]))
  }

  lemma {:induction false} StoppedWell(o: Options, turns: seq<Turn>, rs: seq<Served>, stop: Pass)
    requires 1 <= |rs| <= 1 + |turns| && Stopped(o, turns, rs, stop)
    ensures stop.Over? <==> !Fatal(o, turns, rs)
    ensures stop.Over? ==> |rs| == 1 + |turns| || !Serves(o, |rs| + 1, turns[|rs| - 1])
  {
  }

  /** The wait at the end. */
  method Finish(ws: Worlds, waiting: seq<Step>, pending: WaitGroup) returns (end: End, vs: Worlds)
    requires Counted(ws, pending.count)
    modifies pending
    ensures Counted(vs, pending.count) && !end.Panic? && (end.Normal? <==> Quiet(vs))
  {
    var returned;
    vs, returned := Wait(ws, waiting, pending);
    PendingZero(vs);
    end := if returned then Normal else Waiting;
  }

  /** ServeMany, in an environment of finitely many turns after the first request and of any sends. The requests
      served are numbered from 1 without a gap; a positive limit bounds them (the first one is always served);
      it panics if and only if the first request, a promise or an arrival fails, or the last request that was
      served panics; and it returns only when no background revalidation of any key is live. */
  method ServeMany(o: Options, first: Turn, turns: seq<Turn>, ws: Worlds, waiting: seq<Step>)
    returns (end: End, counts: seq<int>, vs: Worlds, pending: WaitGroup, ghost rs: seq<Served>)
    requires forall k :: 0 <= k < |ws| ==> G.Initial(ws[k])
    ensures Numbered(counts) && |rs| == |counts| && (counts == [] <==> !first.arrival.Request?)
    ensures rs != [] ==> Account(o, first, turns, rs)
    ensures o.maxRequests > 0 ==> |counts| <= o.maxRequests
    ensures o.maxRequests < 0 ==> |counts| <= 1
    ensures end.Panic? <==> rs == [] || Fatal(o, turns, rs)
    ensures !end.Panic? ==> |rs| == 1 + |turns| || !Serves(o, |rs| + 1, turns[|rs| - 1])
    ensures !end.Panic? && (forall k :: 0 <= k < |turns| ==> Open(o, turns[k])) ==>
              |counts| == if o.maxRequests == 0 || 1 + |turns| <= o.maxRequests then 1 + |turns|
                          else if o.maxRequests < 1 then 1 else o.maxRequests
    ensures Counted(vs, pending.count)
    ensures !end.Panic? ==> (end.Normal? <==> Quiet(vs))
  {
    StartOK(ws);
    end, counts, vs, rs := Panic, [], ws, [];
    pending := new WaitGroup();
    if !first.arrival.Request? { return; }
    var stop;
    stop, counts, vs, rs := ServeAll(o, first, turns, vs, pending);
    Bounded(o, first, turns, rs);
    StoppedWell(o, turns, rs, stop);
    if !stop.Over? { return; }
    LimitIsExact(o, first, turns, rs);
    end, vs := Finish(vs, waiting, pending);
  }

  /** Nothing but the limit keeps this turn from being served. */
  predicate Open(o: Options, t: Turn) {
    !(o.hasLifetime && t.over) && !(o.hasContinue && !t.goOn) && t.promised && t.arrival.Request?
  }

  /** When nothing else stops the loop, it serves as many requests as there are, up to the limit. */
  lemma {:induction false} LimitIsExact(o: Options, first: Turn, turns: seq<Turn>, rs: seq<Served>)
    requires Account(o, first, turns, rs)
    requires |rs| == 1 + |turns| || !Serves(o, |rs| + 1, turns[|rs| - 1])
    ensures (forall k :: 0 <= k < |turns| ==> Open(o, turns[k])) ==>
            |rs| == if o.maxRequests == 0 || 1 + |turns| <= o.maxRequests then 1 + |turns|
                    else if o.maxRequests < 1 then 1 else o.maxRequests
  {
    Bounded(o, first, turns, rs);
    if |rs| <= |turns| && (forall k :: 0 <= k < |turns| ==> Open(o, turns[k])) {
      assert Open(o, turns[|rs| - 1]);
    }
  }

  lemma {:induction false} Bounded(o: Options, first: Turn, turns: seq<Turn>, rs: seq<Served>)
    requires Account(o, first, turns, rs)
    ensures o.maxRequests > 0 ==> |rs| <= o.maxRequests
    ensures o.maxRequests < 0 ==> |rs| <= 1
  {
    if |rs| > 1 {
      var k := |rs| - 1;
      assert Belongs(o, turns, rs[k], k);
    }
  }

  lemma {:induction false} StartOK(ws: Worlds)
    requires forall k :: 0 <= k < |ws| ==> G.Initial(ws[k])
    ensures Counted(ws, 0)
  {
    forall k | 0 <= k < |ws| ensures R.SystemOK(ws[k]) && NoneLive(ws[k]) {
      R.InitiallyOK(ws[k]);
      R.LiveCountZero(ws[k].clients);
    }
    PendingZero(ws);
  }
}
