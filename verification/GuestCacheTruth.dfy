/** What a guest-cache send did to the cache is what its response says, and it did it with both hooks' consent. */
module GuestCacheTruth {
  import opened GuestCache
  import opened GuestCacheProof
  import opened GuestCacheRuns

  /** The successful storage calls on some handles, in order. */
  function StoredIn(log: seq<Event>, hs: set<Handle>): seq<Op> {
    if log == [] then []
    else
      var e := log[|log| - 1];
      StoredIn(log[..|log| - 1], hs) + if Commit(e.op) && e.ok && e.h in hs then [e.op] else []
  }

  lemma {:induction false} StoredSnoc(log: seq<Event>, e: Event, hs: set<Handle>)
    ensures StoredIn(log + [e], hs) == StoredIn(log, hs) + if Commit(e.op) && e.ok && e.h in hs then [e.op] else []
  {
    assert (log + [e])[..|log|] == log;
  }

  /** A handle that is not in the log yet adds nothing. */
  lemma {:induction false} StoredFresh(log: seq<Event>, hs: set<Handle>, next: Handle)
    requires forall k :: 0 <= k < |log| ==> log[k].h < next
    ensures StoredIn(log, hs + {next}) == StoredIn(log, hs)
  {
    if log != [] {
      StoredFresh(log[..|log| - 1], hs, next);
    }
  }

  // ---- one client ------------------------------------------------------------------------------

  /** No storage call can follow: neither task holds the obligation, or will. */
  ghost predicate Spent(c: Client) {
    && !c.fg.held && (c.fg.at <= CLOSE_FRESH || RESPOND <= c.fg.at <= FILL)
    && !c.bg.held && c.bg.at <= FILL
  }

  /** The response that is served, or about to be, came from the origin and went through the storage call. */
  ghost predicate Telling(c: Client) {
    || RESPOND <= c.fg.at <= FILL
    || (c.fg.at <= CLOSE_FRESH && c.fg.out.Served? && c.fg.out.r.source.Origin? && Elected(c))
  }

  /** Past BeforeSend; past AfterSend. */
  ghost predicate Sent(th: Thread) {
    RESPOND <= th.at <= DISPATCH || th.at == CHOOSE_STALE || th.at == FIND_STALE || th.at == CLOSE_FRESH
  }
  ghost predicate Approved(th: Thread) { RESPOND <= th.at <= FINALIZE || th.at == CLOSE_FRESH }

  ghost predicate HooksDone(c: Client) {
    && (c.hasBefore && (Sent(c.fg) || c.bg.at > IDLE) ==> c.beforeRuns == 1)
    && (c.hasAfter && (Approved(c.fg) || FILL <= c.bg.at <= FINALIZE) ==> c.afterRuns == 1)
  }

  /** An update is only on its way for a response that was found. */
  ghost predicate UpdatesFound(th: Thread, st: Lookup) {
    STORE <= th.at <= AFTER && th.action == Cand.UPDATE ==> st.found
  }

  /** What the storage calls made so far have to do with the state of the client. */
  ghost predicate Tells(c: Client, stored: seq<Op>) {
    && HooksDone(c) && UpdatesFound(c.fg, c.st) && UpdatesFound(c.bg, c.st)
    && |stored| <= 1 && (!Spent(c) ==> stored == [])
    && (stored != [] ==>
          && Elected(c) && (c.hasBefore ==> c.beforeRuns == 1) && (c.hasAfter ==> c.afterRuns == 1)
          && (stored[0] == OpUpdate ==> c.st.found))
    && (Telling(c) ==> stored == [OpOf(c.fg.action)])
    && (c.fg.at <= CLOSE_FRESH && Telling(c) ==> c.fg.out.r.storageAction == c.fg.action)
  }

  /** The storage call of an effect that succeeded. */
  function StoredBy(e: Effect): seq<Op> { if e.Fulfil? then [e.op] else [] }

  ghost predicate StepTells(c: Client, v: Verdict, stored: seq<Op>) {
    v.To? ==>
      && Tells(v.c, stored + StoredBy(v.e))
      && (v.e.Call? && Commit(v.e.op) ==> !v.e.ok)
  }

  // ---- every program point --------------------------------------------------------------------

  lemma {:induction false} StartTells(c: Client, a: Answer, stored: seq<Op>)
    requires ClientOK(c) && Tells(c, stored) && c.fg.at == START
    ensures StepTells(c, DecideStart(c, a), stored)
  {
  }

  lemma {:induction false} PassTells(c: Client, a: Answer, stored: seq<Op>)
    requires ClientOK(c) && Tells(c, stored) && c.fg.at == PASS
    ensures StepTells(c, DecidePass(c, a), stored)
  {
  }

  lemma {:induction false} LookingTells(c: Client, a: Answer, next: Handle, stored: seq<Op>)
    requires ClientOK(c) && Tells(c, stored) && c.fg.at == LOOKING
    ensures StepTells(c, DecideLooking(c, a, next), stored)
  {
  }

  lemma {:induction false} AwaitTells(c: Client, h: Handle, a: Answer, busy: bool, stored: seq<Op>)
    requires ClientOK(c) && Tells(c, stored) && c.fg.at == AWAIT
    ensures StepTells(c, DecideAwait(c, h, a, busy), stored)
  {
  }

  lemma {:induction false} FindTells(c: Client, h: Handle, a: Answer, stored: seq<Op>)
    requires ClientOK(c) && Tells(c, stored) && c.fg.at == FIND
    ensures StepTells(c, DecideFind(c, h, a), stored)
  {
  }

  lemma {:induction false} SuggestTells(c: Client, h: Handle, a: Answer, stored: seq<Op>)
    requires ClientOK(c) && Tells(c, stored) && c.fg.at == SUGGEST
    ensures StepTells(c, DecideSuggest(c, h, a), stored)
  {
  }

  lemma {:induction false} HookTells(c: Client, a: Answer, stored: seq<Op>)
    requires ClientOK(c) && Tells(c, stored) && c.fg.at == HOOK
    ensures StepTells(c, DecideHook(c, a), stored)
  {
  }

  lemma {:induction false} DispatchTells(c: Client, a: Answer, stored: seq<Op>)
    requires ClientOK(c) && Tells(c, stored) && c.fg.at == DISPATCH
    ensures StepTells(c, DecideDispatch(c, a), stored)
  {
  }

  lemma {:induction false} BackendTells(c: Client, t: Task, h: Handle, a: Answer, stored: seq<Op>)
    requires ClientOK(c) && Tells(c, stored) && ThreadOf(c, t).at == BACKEND
    ensures StepTells(c, DecideBackend(c, t, h, a), stored)
  {
  }

  lemma {:induction false} PrepareTells(c: Client, t: Task, h: Handle, a: Answer, stored: seq<Op>)
    requires ClientOK(c) && Tells(c, stored) && ThreadOf(c, t).at == PREPARE
    ensures StepTells(c, DecidePrepare(c, t, h, a), stored)
  {
  }

  lemma {:induction false} AfterTells(c: Client, t: Task, h: Handle, a: Answer, stored: seq<Op>)
    requires ClientOK(c) && Tells(c, stored) && ThreadOf(c, t).at == AFTER
    ensures StepTells(c, DecideAfter(c, t, h, a), stored)
  {
  }

  lemma {:induction false} FinalizeTells(c: Client, t: Task, h: Handle, a: Answer, stored: seq<Op>)
    requires ClientOK(c) && Tells(c, stored) && ThreadOf(c, t).at == FINALIZE
    ensures StepTells(c, DecideFinalize(c, t, h, a), stored)
  {
  }

  lemma {:induction false} StoreTells(c: Client, h: Handle, a: Answer, next: Handle, stored: seq<Op>)
    requires ClientOK(c) && Tells(c, stored) && c.fg.at == STORE
    ensures StepTells(c, DecideStore(c, h, a, next), stored)
  {
  }

  lemma {:induction false} StoreBgTells(c: Client, h: Handle, a: Answer, stored: seq<Op>)
    requires ClientOK(c) && Tells(c, stored) && c.bg.at == STORE
    ensures StepTells(c, DecideStoreBg(c, h, a), stored)
  {
  }

  lemma {:induction false} FillTells(c: Client, a: Answer, stored: seq<Op>)
    requires ClientOK(c) && Tells(c, stored) && c.fg.at == FILL
    ensures StepTells(c, DecideFill(c, a), stored)
  {
  }

  lemma {:induction false} FillBgTells(c: Client, a: Answer, stored: seq<Op>)
    requires ClientOK(c) && Tells(c, stored) && c.bg.at == FILL
    ensures StepTells(c, DecideFillBg(c, a), stored)
  {
  }

  lemma {:induction false} ReadBackTells(c: Client, h: Handle, a: Answer, stored: seq<Op>)
    requires ClientOK(c) && Tells(c, stored) && c.fg.at == READ_BACK
    ensures StepTells(c, DecideReadBack(c, h, a), stored)
  {
  }

  lemma {:induction false} RespondTells(c: Client, a: Answer, stored: seq<Op>)
    requires ClientOK(c) && Tells(c, stored) && c.fg.at == RESPOND
    ensures StepTells(c, DecideRespond(c, a), stored)
  {
  }

  lemma {:induction false} ChooseTells(c: Client, h: Handle, a: Answer, stored: seq<Op>)
    requires ClientOK(c) && Tells(c, stored) && c.fg.at == CHOOSE_STALE
    ensures StepTells(c, DecideChoose(c, h, a), stored)
  {
  }

  lemma {:induction false} FindStaleTells(c: Client, h: Handle, a: Answer, stored: seq<Op>)
    requires ClientOK(c) && Tells(c, stored) && c.fg.at == FIND_STALE
    ensures StepTells(c, DecideFindStale(c, h, a), stored)
  {
  }

  lemma {:induction false} CloseFreshTells(c: Client, h: Handle, stored: seq<Op>)
    requires ClientOK(c) && Tells(c, stored) && c.fg.at == CLOSE_FRESH
    ensures StepTells(c, DecideCloseFresh(c, h), stored)
  {
  }

  lemma {:induction false} ClosingTells(c: Client, t: Task, h: Handle, stored: seq<Op>)
    requires ClientOK(c) && Tells(c, stored) && ThreadOf(c, t).at == CLOSING
    ensures StepTells(c, DecideClosing(c, t, h), stored)
  {
  }

  /** Every step of every client tells the truth. */
  lemma {:induction false} DecideTells(c: Client, t: Task, a: Answer, next: Handle, busy: bool, stored: seq<Op>)
    requires ClientOK(c) && Tells(c, stored)
    ensures StepTells(c, Decide(c, t, a, next, busy), stored)
  {
    var th := ThreadOf(c, t);
    var h := if th.h.Ptr? then th.h.h else 0;
    if t.Bg? {
      if th.h.Ptr? {
        if th.at == BACKEND { BackendTells(c, t, h, a, stored); }
        else if th.at == PREPARE { PrepareTells(c, t, h, a, stored); }
        else if th.at == AFTER { AfterTells(c, t, h, a, stored); }
        else if th.at == FINALIZE { FinalizeTells(c, t, h, a, stored); }
        else if th.at == STORE { StoreBgTells(c, h, a, stored); }
        else if th.at == FILL { FillBgTells(c, a, stored); }
        else if th.at == CLOSING { ClosingTells(c, t, h, stored); }
      }
    } else if th.at == START { StartTells(c, a, stored); }
    else if th.at == PASS { PassTells(c, a, stored); }
    else if th.at == LOOKING { LookingTells(c, a, next, stored); }
    else if th.at == CLOSE_FRESH { CloseFreshTells(c, th.back.h, stored); }
    else if th.at == READ_BACK { ReadBackTells(c, th.back.h, a, stored); }
    else if th.h.Ptr? { WithHandleTells(c, h, a, next, busy, stored); }
  }

  lemma {:induction false} WithHandleTells(c: Client, h: Handle, a: Answer, next: Handle, busy: bool, stored: seq<Op>)
    requires ClientOK(c) && Tells(c, stored) && c.fg.h == Ptr(h)
    ensures StepTells(c, DecideWithHandle(c, h, a, next, busy), stored)
  {
    var at, t := c.fg.at, Fg;
    if at == AWAIT { AwaitTells(c, h, a, busy, stored); }
    else if at == FIND { FindTells(c, h, a, stored); }
    else if at == SUGGEST { SuggestTells(c, h, a, stored); }
    else if at == HOOK { HookTells(c, a, stored); }
    else if at == DISPATCH { DispatchTells(c, a, stored); }
    else if at == BACKEND { BackendTells(c, t, h, a, stored); }
    else if at == PREPARE { PrepareTells(c, t, h, a, stored); }
    else if at == AFTER { AfterTells(c, t, h, a, stored); }
    else if at == FINALIZE { FinalizeTells(c, t, h, a, stored); }
    else if at == STORE { StoreTells(c, h, a, next, stored); }
    else if at == FILL { FillTells(c, a, stored); }
    else if at == RESPOND { RespondTells(c, a, stored); }
    else if at == CHOOSE_STALE { ChooseTells(c, h, a, stored); }
    else if at == FIND_STALE { FindStaleTells(c, h, a, stored); }
    else if at == CLOSING { ClosingTells(c, t, h, stored); }
  }

  // ---- all clients, over whole runs ------------------------------------------------------------

  ghost predicate AllTell(s: System) {
    forall i :: 0 <= i < |s.clients| ==> Tells(s.clients[i], StoredIn(s.w.log, s.clients[i].handles))
  }

  /** A step adds its storage call to those on the mover's handles, and to nobody else's. */
  lemma {:induction false} MoverStored(c: Client, t: Task, v: Verdict, w: World)
    requires GoodStep(c, t, v, w) && (v.e.Call? && Commit(v.e.op) ==> !v.e.ok)
    ensures StoredIn(Perform(w, v.e).log, v.c.handles) == StoredIn(w.log, c.handles) + StoredBy(v.e)
  {
    PerformLogs(w, v.e);
    TouchesOwn(c, t, v, w);
    StoredFresh(w.log, c.handles, w.next);
    assert v.c.handles == c.handles || v.c.handles == c.handles + {w.next};
    var ev := EventOf(w, v.e);
    if ev.Some? {
      StoredSnoc(w.log, ev.value, v.c.handles);
    }
  }

  lemma {:induction false} OtherStored(hs: set<Handle>, c: Client, t: Task, v: Verdict, w: World)
    requires GoodStep(c, t, v, w) && (v.e.Call? && Commit(v.e.op) ==> !v.e.ok) && hs !! c.handles
    ensures StoredIn(Perform(w, v.e).log, hs) == StoredIn(w.log, hs)
  {
    PerformLogs(w, v.e);
    TouchesOwn(c, t, v, w);
    var ev := EventOf(w, v.e);
    if ev.Some? {
      StoredSnoc(w.log, ev.value, hs);
    }
  }

  lemma {:induction false} MoverTells(s: System, m: Move, v: Verdict)
    requires SystemOK(s) && AllTell(s) && m.i < |s.clients| && GoodStep(s.clients[m.i], m.t, v, s.w)
    requires v == Decide(s.clients[m.i], m.t, m.a, s.w.next, s.w.holder.Some?)
    ensures Tells(v.c, StoredIn(Perform(s.w, v.e).log, v.c.handles))
    ensures v.e.Call? && Commit(v.e.op) ==> !v.e.ok
  {
    var c := s.clients[m.i];
    DecideTells(c, m.t, m.a, s.w.next, s.w.holder.Some?, StoredIn(s.w.log, c.handles));
    MoverStored(c, m.t, v, s.w);
  }

  lemma {:induction false} OtherTells(s: System, m: Move, v: Verdict, j: nat)
    requires SystemOK(s) && AllTell(s) && m.i < |s.clients| && GoodStep(s.clients[m.i], m.t, v, s.w)
    requires v.e.Call? && Commit(v.e.op) ==> !v.e.ok
    requires j < |s.clients| && j != m.i
    ensures Tells(s.clients[j], StoredIn(Perform(s.w, v.e).log, s.clients[j].handles))
  {
    assert s.clients[j].handles !! s.clients[m.i].handles;
    OtherStored(s.clients[j].handles, s.clients[m.i], m.t, v, s.w);
  }

  lemma {:induction false} NextTells(s: System, m: Move)
    requires SystemOK(s) && AllTell(s)
    ensures AllTell(Next(s, m))
  {
    if Moves(s, m) {
      var v := MoveIsGood(s, m);
      MoverTells(s, m, v);
      forall j | 0 <= j < |s.clients| && j != m.i
        ensures Tells(s.clients[j], StoredIn(Perform(s.w, v.e).log, s.clients[j].handles))
      {
        OtherTells(s, m, v, j);
      }
    }
  }

  lemma {:induction false} RunTells(s: System, moves: seq<Move>)
    requires SystemOK(s) && AllTell(s)
    ensures AllTell(Run(s, moves))
    decreases |moves|
  {
    if moves != [] {
      NextOK(s, moves[0]);
      NextTells(s, moves[0]);
      RunTells(Next(s, moves[0]), moves[1..]);
    }
  }

  /** In every run, a send makes at most one successful storage call; it makes one only when it was elected and
      each hook that is set has run once, and an update only of a response that was found; and a
      response from the origin says exactly which call was made, or was passed through without any. */
  lemma {:induction false} StoredAsSaid(s: System, s0: System, moves: seq<Move>, i: nat)
    requires Reachable(s, s0, moves) && i < |s.clients|
    ensures var c, stored := s.clients[i], StoredIn(s.w.log, s.clients[i].handles);
            && |stored| <= 1
            && (stored != [] ==>
                  && Elected(c) && (c.hasBefore ==> c.beforeRuns == 1) && (c.hasAfter ==> c.afterRuns == 1)
                  && (stored[0] == OpUpdate ==> c.st.found))
            && (c.fg.at == DONE && c.fg.out.Served? && c.fg.out.r.source.Origin? ==>
                  stored == if Elected(c) then [OpOf(c.fg.out.r.storageAction)] else [])
            && (c.fgFailure.Error? || c.bgFailure.Error? ==> stored == [])
  {
    ReachableOK(s, s0, moves);
    InitiallyOK(s0);
    forall j | 0 <= j < |s0.clients| ensures Tells(s0.clients[j], StoredIn(s0.w.log, s0.clients[j].handles)) {
      assert Fresh(s0.clients[j]);
    }
    RunTells(s0, moves);
    var c := s.clients[i];
    assert Tells(c, StoredIn(s.w.log, c.handles)) && InWorld(c, s.w);
    if NoCommits(s.w.log, c.handles) { NothingStored(s.w.log, c.handles); }
  }

  lemma {:induction false} NothingStored(log: seq<Event>, hs: set<Handle>)
    requires NoCommits(log, hs)
    ensures StoredIn(log, hs) == []
  {
    if log != [] {
      NothingStored(log[..|log| - 1], hs);
    }
  }
}
