/** Whole runs of the guest-cache send: any number of clients, any interleaving, any answers. */
module GuestCacheRuns {
  import opened Text
  import opened GuestCache
  import opened GuestCacheProof

  // ---- what every reachable state satisfies ----------------------------------------------

  function LiveCount(cs: seq<Client>): int {
    if cs == [] then 0 else Live(cs[0]) + LiveCount(cs[1..])
  }

  ghost predicate Holds(c: Client, h: Handle) {
    (c.fg.h == Ptr(h) && c.fg.held) || (c.bg.h == Ptr(h) && c.bg.held)
  }

  ghost predicate ClientsOK(s: System) {
    forall i :: 0 <= i < |s.clients| ==>
      ClientOK(s.clients[i]) && InWorld(s.clients[i], s.w) && Accounted(s.clients[i], s.w)
  }

  ghost predicate Apart(cs: seq<Client>) {
    forall i, j :: 0 <= i < j < |cs| ==> cs[i].handles !! cs[j].handles
  }

  ghost predicate SomeoneHolds(s: System) {
    s.w.holder.Some? ==>
      s.w.holder.value in s.w.stranded
      || exists i :: 0 <= i < |s.clients| && Holds(s.clients[i], s.w.holder.value)
  }

  ghost predicate StrandedBySomeone(s: System) {
    s.w.stranded != {} ==> exists i :: 0 <= i < |s.clients| && s.clients[i].bgFailure.Error?
  }

  ghost predicate SystemOK(s: System) {
    && ClientsOK(s) && Apart(s.clients) && WorldOK(s.w)
    && (forall h :: h in s.w.closed ==> h < s.w.next)
    && SomeoneHolds(s) && StrandedBySomeone(s)
    && s.w.wg == LiveCount(s.clients)
  }

  lemma {:induction false} LiveCountUpdate(cs: seq<Client>, i: nat, c: Client)
    requires i < |cs|
    ensures LiveCount(cs[i := c]) == LiveCount(cs) - Live(cs[i]) + Live(c)
  {
    var ds := cs[i := c];
    if i == 0 {
      assert ds[1..] == cs[1..];
    } else {
      LiveCountUpdate(cs[1..], i - 1, c);
      assert ds[1..] == cs[1..][i - 1 := c];
    }
  }

  lemma {:induction false} LiveCountFresh(cs: seq<Client>)
    requires forall i :: 0 <= i < |cs| ==> Fresh(cs[i])
    ensures LiveCount(cs) == 0
  {
    if cs != [] {
      LiveCountFresh(cs[1..]);
    }
  }

  lemma {:induction false} InitiallyOK(s: System)
    requires Initial(s)
    ensures SystemOK(s)
  {
    LiveCountFresh(s.clients);
    forall i | 0 <= i < |s.clients|
      ensures ClientOK(s.clients[i]) && InWorld(s.clients[i], s.w) && Accounted(s.clients[i], s.w)
    {
      assert Fresh(s.clients[i]);
    }
  }

  // ---- one move --------------------------------------------------------------------------------

  ghost predicate Moves(s: System, m: Move) {
    m.i < |s.clients| && Decide(s.clients[m.i], m.t, m.a, s.w.next, s.w.holder.Some?).To?
  }

  lemma {:induction false} MoveIsGood(s: System, m: Move) returns (v: Verdict)
    requires SystemOK(s) && Moves(s, m)
    ensures v == Decide(s.clients[m.i], m.t, m.a, s.w.next, s.w.holder.Some?)
    ensures GoodStep(s.clients[m.i], m.t, v, s.w)
    ensures Next(s, m) == System(s.clients[m.i := v.c], Perform(s.w, v.e))
  {
    var c := s.clients[m.i];
    v := Decide(c, m.t, m.a, s.w.next, s.w.holder.Some?);
    assert s.w.next !in c.handles;
    DecideGood(c, m.t, m.a, s.w.next, s.w.holder.Some?);
  }

  lemma {:induction false} ClientsStay(s: System, m: Move, v: Verdict)
    requires SystemOK(s) && m.i < |s.clients| && GoodStep(s.clients[m.i], m.t, v, s.w)
    ensures var s' := System(s.clients[m.i := v.c], Perform(s.w, v.e));
            ClientsOK(s') && Apart(s'.clients)
  {
    var c := s.clients[m.i];
    var cs' := s.clients[m.i := v.c];
    MoverStays(c, m.t, v, s.w);
    AccountedStays(c, m.t, v, s.w);
    forall j | 0 <= j < |cs'| && j != m.i
      ensures InWorld(cs'[j], Perform(s.w, v.e)) && Accounted(cs'[j], Perform(s.w, v.e))
      ensures cs'[j].handles !! v.c.handles
    {
      assert s.clients[j].handles !! c.handles;
      BystanderStays(s.clients[j], c, m.t, v, s.w);
    }
  }

  lemma {:induction false} BystanderStays(d: Client, c: Client, t: Task, v: Verdict, w: World)
    requires GoodStep(c, t, v, w) && ClientOK(d) && InWorld(d, w) && Accounted(d, w) && d.handles !! c.handles
    ensures InWorld(d, Perform(w, v.e)) && Accounted(d, Perform(w, v.e)) && d.handles !! v.c.handles
  {
    OtherStays(d, c, t, v, w);
    StrandedGrows(w, v.e);
    PerformLogs(w, v.e);
    OtherAccounted(d, c, t, v, w);
  }

  /** Whoever holds the obligation still does, unless it is the mover who gives it up. */
  lemma {:induction false} HoldingStays(c: Client, t: Task, v: Verdict, w: World)
    requires GoodStep(c, t, v, w) && Perform(w, v.e).holder.Some?
    ensures var w' := Perform(w, v.e);
            || (w'.holder == w.holder && (Holds(c, w.holder.value) ==>
                  Holds(v.c, w.holder.value) || (w.holder.value in w'.stranded && v.c.bgFailure.Error?)))
            || Holds(v.c, w'.holder.value)
    ensures Perform(w, v.e).stranded == w.stranded || v.c.bgFailure.Error?
    ensures w.stranded <= Perform(w, v.e).stranded
    ensures c.bgFailure.Error? ==> v.c.bgFailure.Error?
  {
  }

  lemma {:induction false} SomeoneStillHolds(s: System, m: Move, v: Verdict)
    requires SystemOK(s) && m.i < |s.clients| && GoodStep(s.clients[m.i], m.t, v, s.w)
    ensures var s' := System(s.clients[m.i := v.c], Perform(s.w, v.e));
            SomeoneHolds(s') && StrandedBySomeone(s')
  {
    var c, w' := s.clients[m.i], Perform(s.w, v.e);
    var cs' := s.clients[m.i := v.c];
    HolderStays(c, m.t, v, s.w);
    if w'.holder.Some? {
      HoldingStays(c, m.t, v, s.w);
      var h := w'.holder.value;
      if w'.holder == s.w.holder && h !in w'.stranded && !Holds(v.c, h) {
        var i :| 0 <= i < |s.clients| && Holds(s.clients[i], h);
        assert i != m.i;
        assert Holds(cs'[i], h);
      } else if Holds(v.c, h) {
        assert Holds(cs'[m.i], h);
      }
      if w'.stranded != {} {
        if v.c.bgFailure.Error? {
          assert cs'[m.i].bgFailure.Error?;
        } else {
          var i :| 0 <= i < |s.clients| && s.clients[i].bgFailure.Error?;
          assert cs'[i].bgFailure.Error?;
        }
      }
    }
  }

  lemma {:induction false} WaitGroupStays(c: Client, t: Task, v: Verdict, w: World)
    requires GoodStep(c, t, v, w)
    ensures Perform(w, v.e).wg - w.wg == Live(v.c) - Live(c)
  {
  }

  lemma {:induction false} NextOK(s: System, m: Move)
    requires SystemOK(s)
    ensures SystemOK(Next(s, m))
  {
    if Moves(s, m) {
      var v := MoveIsGood(s, m);
      ClientsStay(s, m, v);
      SomeoneStillHolds(s, m, v);
      WorldStays(s.clients[m.i], m.t, v, s.w);
      WaitGroupStays(s.clients[m.i], m.t, v, s.w);
      LiveCountUpdate(s.clients, m.i, v.c);
    }
  }

  lemma {:induction false} RunOK(s: System, moves: seq<Move>)
    requires SystemOK(s)
    ensures SystemOK(Run(s, moves))
    decreases |moves|
  {
    if moves != [] {
      NextOK(s, moves[0]);
      RunOK(Next(s, moves[0]), moves[1..]);
    }
  }

  ghost predicate Reachable(s: System, s0: System, moves: seq<Move>) {
    Initial(s0) && s == Run(s0, moves)
  }

  lemma {:induction false} ReachableOK(s: System, s0: System, moves: seq<Move>)
    requires Reachable(s, s0, moves)
    ensures SystemOK(s)
  {
    InitiallyOK(s0);
    RunOK(s0, moves);
  }

  // ---- obligations --------------------------------------------------------------------------------

  predicate Finished(c: Client) { c.fg.at == DONE && c.bg.at <= DONE }

  /** In every reachable state the obligation, if anyone has it, is held by a task that is still
      running and owns the handle it would be released through, or it was stranded. */
  lemma {:induction false} ObligationOwned(s: System, s0: System, moves: seq<Move>)
    requires Reachable(s, s0, moves) && s.w.holder.Some?
    ensures s.w.holder.value in s.w.stranded
            || exists i :: 0 <= i < |s.clients| && !Finished(s.clients[i]) && Holds(s.clients[i], s.w.holder.value)
  {
    ReachableOK(s, s0, moves);
    var h := s.w.holder.value;
    if h !in s.w.stranded {
      var i :| 0 <= i < |s.clients| && Holds(s.clients[i], h);
      assert ClientOK(s.clients[i]);
      assert !Finished(s.clients[i]);
    }
  }

  /** When every task has ended, the obligation is still held exactly when some background
      revalidation failed to produce a candidate: the early return is the only way to strand it. */
  lemma {:induction false} OnlyTheEarlyReturnStrands(s: System, s0: System, moves: seq<Move>)
    requires Reachable(s, s0, moves) && forall i :: 0 <= i < |s.clients| ==> Finished(s.clients[i])
    ensures s.w.holder.Some? <==> exists i :: 0 <= i < |s.clients| && s.clients[i].bgFailure.Error?
  {
    ReachableOK(s, s0, moves);
    forall i | 0 <= i < |s.clients| && s.clients[i].bgFailure.Error? ensures s.w.holder.Some? {
      assert InWorld(s.clients[i], s.w);
    }
    if s.w.holder.Some? {
      ObligationOwned(s, s0, moves);
    }
  }

  /** A stranded obligation is never released: no move changes the holder again, so no later lookup
      is ever given one. */
  lemma {:induction false} StrandedForever(s: System, s0: System, moves: seq<Move>, more: seq<Move>)
    requires Reachable(s, s0, moves) && s.w.stranded != {}
    ensures var s' := Run(s, more);
            s'.w.holder == s.w.holder && s'.w.stranded == s.w.stranded
  {
    ReachableOK(s, s0, moves);
    StrandedStays(s, more);
  }

  lemma {:induction false} StrandedStep(c: Client, t: Task, v: Verdict, w: World)
    requires GoodStep(c, t, v, w) && w.stranded != {}
    ensures var w' := Perform(w, v.e); w'.holder == w.holder && w'.stranded == w.stranded
  {
  }

  lemma {:induction false} StrandedStays(s: System, more: seq<Move>)
    requires SystemOK(s) && s.w.stranded != {}
    ensures var s' := Run(s, more);
            s'.w.holder == s.w.holder && s'.w.stranded == s.w.stranded
    decreases |more|
  {
    if more != [] {
      var m := more[0];
      if Moves(s, m) {
        var v := MoveIsGood(s, m);
        StrandedStep(s.clients[m.i], m.t, v, s.w);
      }
      NextOK(s, m);
      StrandedStays(Next(s, m), more[1..]);
    }
  }

  // ---- request collapsing ---------------------------------------------------------------------------

  ghost predicate Fetching(c: Client) { Obliged(c.fg.at) || Obliged(c.bg.at) }

  /** At most one task at a time is on its way from election to the storage call: concurrent sends
      for one key collapse into one backend fetch for the cache. */
  lemma {:induction false} OneFetchAtATime(s: System, s0: System, moves: seq<Move>, i: nat, j: nat)
    requires Reachable(s, s0, moves) && i < |s.clients| && j < |s.clients|
    requires Fetching(s.clients[i]) && Fetching(s.clients[j])
    ensures i == j
    ensures !(Obliged(s.clients[i].fg.at) && Obliged(s.clients[i].bg.at))
  {
    ReachableOK(s, s0, moves);
    var c, d := s.clients[i], s.clients[j];
    assert ClientOK(c) && InWorld(c, s.w) && ClientOK(d) && InWorld(d, s.w);
    assert s.w.holder.Some? && s.w.holder.value in c.handles && s.w.holder.value in d.handles;
    assert i < j ==> c.handles !! d.handles;
    assert j < i ==> d.handles !! c.handles;
  }

  // ---- handles -----------------------------------------------------------------------------------------

  function Vars(c: Client): seq<Var> { [c.fg.h, c.fg.back, c.bg.h] }

  /** A handle is owned by at most one variable of one task of one client, and is open. */
  lemma {:induction false} OneOwner(s: System, s0: System, moves: seq<Move>, i: nat, j: nat, x: nat, y: nat)
    requires Reachable(s, s0, moves) && i < |s.clients| && j < |s.clients| && x < 3 && y < 3
    requires Vars(s.clients[i])[x].Ptr? && Vars(s.clients[i])[x] == Vars(s.clients[j])[y]
    ensures i == j && x == y && Vars(s.clients[i])[x].h !in s.w.closed
  {
    ReachableOK(s, s0, moves);
    var c, d := s.clients[i], s.clients[j];
    assert ClientOK(c) && InWorld(c, s.w) && ClientOK(d) && InWorld(d, s.w);
    var h := Vars(c)[x].h;
    assert h in c.handles && h in d.handles;
    SameClient(s.clients, i, j, h);
  }

  lemma {:induction false} SameClient(cs: seq<Client>, i: nat, j: nat, h: Handle)
    requires Apart(cs) && i < |cs| && j < |cs| && h in cs[i].handles && h in cs[j].handles
    ensures i == j
  {
    if i != j {
      ApartBothWays(cs, i, j);
      assert false;
    }
  }

  lemma {:induction false} ApartBothWays(cs: seq<Client>, i: nat, j: nat)
    requires Apart(cs) && i < |cs| && j < |cs| && i != j
    ensures cs[i].handles !! cs[j].handles
  {
  }

  /** Over the whole log of host calls: no handle is used after it is closed, none is closed twice,
      and every storage, abandon or choose-stale call is made while holding the obligation. */
  lemma {:induction false} CallsAreDisciplined(s: System, s0: System, moves: seq<Move>)
    requires Reachable(s, s0, moves)
    ensures NoUseAfterClose(s.w.log) && HolderCommits(s.w.log)
  {
    ReachableOK(s, s0, moves);
  }

  /** When a client has ended, each handle it was ever given was closed, the fresh one included, unless it is
      the stranded one, or the lookup handle of a served insert, update or uncacheable response, which is set
      to nil instead; and only a stranded one holds an obligation. */
  lemma {:induction false} NothingElseLeftOpen(s: System, s0: System, moves: seq<Move>, i: nat, h: Handle)
    requires Reachable(s, s0, moves) && i < |s.clients| && Finished(s.clients[i]) && h in s.clients[i].handles
    ensures h in s.w.closed <==> h !in s.w.stranded && !Forgets(s.clients[i], h)
    ensures h !in s.w.stranded ==> s.w.holder != Some(h)
  {
    ReachableOK(s, s0, moves);
    assert ClientOK(s.clients[i]) && Accounted(s.clients[i], s.w);
    if s.w.holder == Some(h) && h !in s.w.stranded {
      ObligationOwned(s, s0, moves);
      var j :| 0 <= j < |s.clients| && !Finished(s.clients[j]) && Holds(s.clients[j], h);
      HolderIsMine(s, i, j, h);
    }
  }

  lemma {:induction false} HolderIsMine(s: System, i: nat, j: nat, h: Handle)
    requires SystemOK(s) && i < |s.clients| && j < |s.clients|
    requires h in s.clients[i].handles && Holds(s.clients[j], h)
    ensures i == j
  {
    assert ClientOK(s.clients[j]);
  }

  // ---- failures, hooks and outcomes ------------------------------------------------------------------

  /** If the backend wait, storage preparation or AfterSend failed, no insert, update, record or abandon
      call was or ever will be made on any of that client's handles. */
  lemma {:induction false} FailedCandidateStoresNothing(
    s: System, s0: System, moves: seq<Move>, i: nat, k: nat)
    requires Reachable(s, s0, moves) && i < |s.clients| && k < |s.w.log|
    requires s.clients[i].fgFailure.Error? || s.clients[i].bgFailure.Error?
    ensures s.w.log[k].h in s.clients[i].handles ==> !Commit(s.w.log[k].op)
  {
    ReachableOK(s, s0, moves);
    assert InWorld(s.clients[i], s.w);
  }

  /** Hooks run at most once each, and only for an elected client. */
  lemma {:induction false} HooksRunOnce(s: System, s0: System, moves: seq<Move>, i: nat)
    requires Reachable(s, s0, moves) && i < |s.clients|
    ensures var c := s.clients[i];
            && c.beforeRuns <= 1 && c.afterRuns <= 1
            && (c.beforeRuns + c.afterRuns > 0 ==> Elected(c))
            && (!c.hasBefore ==> c.beforeRuns == 0) && (!c.hasAfter ==> c.afterRuns == 0)
  {
    ReachableOK(s, s0, moves);
    assert ClientOK(s.clients[i]);
  }

  /** How a send can end. FromCache tells the truth about where the response came from; a stale-if-error
      substitution carries exactly the error it masks; a BeforeSend failure is never masked; and the
      only panic is the one left open by ignoring a failed choose_stale. */
  lemma {:induction false} HowASendEnds(s: System, s0: System, moves: seq<Move>, i: nat)
    requires Reachable(s, s0, moves) && i < |s.clients| && s.clients[i].fg.at == DONE
    ensures var c := s.clients[i];
            && OutcomeOK(c, c.fg.out)
            && (c.fg.out.Served? ==> (FromCache(c.fg.out.r) <==> c.fg.out.r.source == CacheEntry))
            && (c.beforeError.Error? ==> c.fg.out == Failed(c.beforeError))
            && (c.fgFailure.Error? && !Sie(c) ==> c.fg.out == Failed(c.fgFailure))
            && (c.fgFailure.Error? && Sie(c) && c.fg.out.Served? ==> c.fg.out.r.masked == Cause(c.fgFailure))
            && (c.fg.out.Panicked? ==> !c.chosen)
  {
    ReachableOK(s, s0, moves);
    assert ClientOK(s.clients[i]);
  }

  // ---- the wait group -----------------------------------------------------------------------------------

  /** The wait group counts the live background revalidations; when it is zero none is left. */
  lemma {:induction false} WaitGroupCounts(s: System, s0: System, moves: seq<Move>)
    requires Reachable(s, s0, moves)
    ensures s.w.wg == LiveCount(s.clients) && s.w.wg >= 0
    ensures s.w.wg == 0 <==> forall i :: 0 <= i < |s.clients| ==> Live(s.clients[i]) == 0
  {
    ReachableOK(s, s0, moves);
    LiveCountZero(s.clients);
  }

  lemma {:induction false} LiveCountZero(cs: seq<Client>)
    ensures LiveCount(cs) >= 0
    ensures LiveCount(cs) == 0 <==> forall i :: 0 <= i < |cs| ==> Live(cs[i]) == 0
  {
    if cs != [] {
      LiveCountZero(cs[1..]);
      assert cs == [cs[0]] + cs[1..];
      assert (forall i :: 0 <= i < |cs| ==> Live(cs[i]) == 0)
             <==> Live(cs[0]) == 0 && (forall i :: 0 <= i < |cs[1..]| ==> Live(cs[1..][i]) == 0);
    }
  }

  // ---- every send ends --------------------------------------------------------------------------------

  function TotalRank(cs: seq<Client>): nat {
    if cs == [] then 0 else ClientRank(cs[0]) + TotalRank(cs[1..])
  }

  lemma {:induction false} TotalRankUpdate(cs: seq<Client>, i: nat, c: Client)
    requires i < |cs|
    ensures TotalRank(cs[i := c]) == TotalRank(cs) - ClientRank(cs[i]) + ClientRank(c)
  {
    var ds := cs[i := c];
    if i == 0 {
      assert ds[1..] == cs[1..];
    } else {
      TotalRankUpdate(cs[1..], i - 1, c);
      assert ds[1..] == cs[1..][i - 1 := c];
    }
  }

  lemma {:induction false} TotalRankFresh(cs: seq<Client>)
    requires forall i :: 0 <= i < |cs| ==> Fresh(cs[i])
    ensures TotalRank(cs) == START * |cs|
  {
    if cs != [] {
      TotalRankFresh(cs[1..]);
    }
  }

  /** The moves of a run that actually move something. */
  ghost function Effective(s: System, moves: seq<Move>): nat
    decreases |moves|
  {
    if moves == [] then 0
    else (if Moves(s, moves[0]) then 1 else 0) + Effective(Next(s, moves[0]), moves[1..])
  }

  lemma {:induction false} EffectiveBounded(s: System, moves: seq<Move>)
    requires SystemOK(s)
    ensures Effective(s, moves) + TotalRank(Run(s, moves).clients) <= TotalRank(s.clients)
    decreases |moves|
  {
    if moves != [] {
      var m := moves[0];
      if Moves(s, m) {
        var v := MoveIsGood(s, m);
        TotalRankUpdate(s.clients, m.i, v.c);
      }
      NextOK(s, m);
      EffectiveBounded(Next(s, m), moves[1..]);
    }
  }

  /** No send can go on for ever: n clients take at most 22 n steps between them, whatever the host,
      the backend and the hooks answer. */
  lemma {:induction false} EverySendIsBounded(s0: System, moves: seq<Move>)
    requires Initial(s0)
    ensures Effective(s0, moves) <= START * |s0.clients|
  {
    InitiallyOK(s0);
    EffectiveBounded(s0, moves);
    TotalRankFresh(s0.clients);
  }
}
