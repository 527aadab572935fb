/** What a guest-cache send records, and what it stores, in terms of the answers it was given. */
module GuestCacheAnswers {
  import opened Text
  import opened GuestCache
  import opened GuestCacheProof
  import opened GuestCacheRuns
  import opened GuestCacheTruth
  import opened GuestCacheLiveness

  // ---- the answers of a run ---------------------------------------------------------------------

  /** The last answer on which a task moved on from each point. */
  type Told = map<Point, Answer>

  /** The answers that the tasks of client i got. */
  ghost function Heard(s: System, moves: seq<Move>, i: nat): Told {
    if moves == [] then map[]
    else
      var init, m := moves[..|moves| - 1], moves[|moves| - 1];
      var before, d := Run(s, init), Heard(s, init, i);
      if Moves(before, m) && m.i == i then d[ThreadOf(before.clients[i], m.t).at := m.a] else d
  }

  function Said(d: Told, at: Point): Option<Answer> { if at in d then Some(d[at]) else None }

  lemma {:induction false} RunSnoc(s: System, moves: seq<Move>)
    requires moves != []
    ensures Run(s, moves) == Next(Run(s, moves[..|moves| - 1]), moves[|moves| - 1])
  {
    var init, m := moves[..|moves| - 1], moves[|moves| - 1];
    assert moves == init + [m];
    RunConcat(s, init, [m]);
    RunFirst(Run(s, init), m, []);
    assert [m] + [] == [m];
  }

  // ---- what follows from them ------------------------------------------------------------------------

  /** The storage call that the preparation asks for: with a cookie nothing is stored, and the host is told
      so, unless it said itself not to store. */
  function PreparedOp(action: int, setCookie: bool): Op {
    if action == 2 then OpAbandon
    else if setCookie || action == 3 then OpRecord
    else if action == 0 then OpInsert
    else OpUpdate
  }

  /** And the one that is left after the calls AfterSend made: the last call decides, and it keeps an update
      only if every call was SetCacheable. */
  function DecidedOp(prepared: Op, calls: seq<Cand.ActionCall>): Op {
    if calls == [] then prepared
    else match calls[|calls| - 1]
      case SetUncacheable => OpAbandon
      case SetUncacheableDisableCollapsing => OpRecord
      case SetCacheable =>
        if prepared == OpUpdate && forall k :: 0 <= k < |calls| ==> calls[k].SetCacheable? then OpUpdate else OpInsert
  }

  lemma {:induction false} ActionDecides(action: Action, calls: seq<Cand.ActionCall>)
    requires action <= 3
    ensures OpOf(Cand.ActionOfHistory(action, calls)) == DecidedOp(OpOf(action), calls)
  {
  }

  predicate IsFailure(a: Option<Answer>) { a.Some? && a.value.Fails? }

  /** The first of the three failures that leave no candidate. */
  function NoCandidate(d: Told, hasAfter: bool): Fault {
    if IsFailure(Said(d, BACKEND)) then Error(BackendWait, Said(d, BACKEND).value.code)
    else if IsFailure(Said(d, PREPARE)) then Error(PrepareStorage, Said(d, PREPARE).value.code)
    else if hasAfter && IsFailure(Said(d, AFTER)) then Error(AfterSend, Said(d, AFTER).value.code)
    else NoError
  }

  function BeforeFails(d: Told, hasBefore: bool): Fault {
    if hasBefore && IsFailure(Said(d, HOOK)) then Error(BeforeSend, Said(d, HOOK).value.code) else NoError
  }

  predicate WasPrepared(d: Told) { Said(d, PREPARE).Some? && Said(d, PREPARE).value.Storage? }

  predicate WasApproved(d: Told, hasAfter: bool) {
    WasPrepared(d) && (hasAfter ==> Said(d, AFTER).Some? && Said(d, AFTER).value.Hooked?)
  }

  function OpPrepared(d: Told): Op
    requires WasPrepared(d)
  {
    PreparedOp(Said(d, PREPARE).value.action, Said(d, PREPARE).value.setCookie)
  }

  function OpDecided(d: Told, hasAfter: bool): Op
    requires WasApproved(d, hasAfter)
  {
    DecidedOp(OpPrepared(d), if hasAfter then Said(d, AFTER).value.calls else [])
  }

  // ---- one client ------------------------------------------------------------------------------------

  /** Where the candidate is made, the answers so far come in order. */
  ghost predicate InOrder(c: Client, th: Thread, d: Told) {
    && (th.at >= BACKEND ==> Said(d, BACKEND).None?)
    && (th.at >= PREPARE ==> Said(d, PREPARE).None? && !IsFailure(Said(d, BACKEND)))
    && (th.at >= AFTER ==> Said(d, AFTER).None? && !IsFailure(Said(d, BACKEND)))
    && (th.at == AFTER ==> WasPrepared(d) && OpOf(th.action) == OpPrepared(d))
    && (STORE <= th.at <= FINALIZE ==> WasApproved(d, c.hasAfter) && OpOf(th.action) == OpDecided(d, c.hasAfter))
  }

  ghost predicate Recorded(c: Client, d: Told) {
    && (c.looked <==> Said(d, AWAIT).Some? && Said(d, AWAIT).value.State?)
    && (c.looked ==> c.st == Said(d, AWAIT).value.st)
    && (c.hit <==> Elected(c) && Said(d, FIND) == Some(Fine))
    && c.beforeError == BeforeFails(d, c.hasBefore)
    && (c.chosen <==> Said(d, CHOOSE_STALE) == Some(Fine))
    && (if c.bg.at > IDLE then c.fgFailure == NoError && c.bgFailure == NoCandidate(d, c.hasAfter)
        else c.bgFailure == NoError && c.fgFailure == NoCandidate(d, c.hasAfter))
  }

  ghost predicate True(c: Client, d: Told, stored: seq<Op>) {
    && Recorded(c, d)
    && InOrder(c, if c.bg.at > IDLE then c.bg else c.fg, d)
    && (c.fg.at >= AWAIT ==> Said(d, AWAIT).None?) && (c.fg.at >= FIND ==> Said(d, FIND).None?)
    && (c.fg.at >= HOOK ==> Said(d, HOOK).None?) && (c.fg.at > FIND_STALE ==> Said(d, CHOOSE_STALE).None?)
    && (stored != [] <==> Said(d, STORE) == Some(Fine))
    && (stored != [] ==> WasApproved(d, c.hasAfter) && stored == [OpDecided(d, c.hasAfter)])
  }

  /** What a client is set up with never changes. */
  predicate SameSetup(c: Client, c': Client) {
    c'.keyLen == c.keyLen && c'.hasBefore == c.hasBefore && c'.hasAfter == c.hasAfter
  }

  ghost predicate StepTrue(c: Client, at: Point, a: Answer, v: Verdict, d: Told, stored: seq<Op>) {
    v.To? ==> SameSetup(c, v.c) && True(v.c, d[at := a], stored + StoredBy(v.e))
  }

  predicate Matters(at: Point) {
    || at == AWAIT || at == FIND || at == HOOK || at == BACKEND || at == PREPARE || at == AFTER || at == STORE
    || at == CHOOSE_STALE
  }

  /** The answers at the other points do not matter here. */
  lemma {:induction false} Unheard(c: Client, at: Point, a: Answer, d: Told, stored: seq<Op>)
    requires True(c, d, stored)
    requires !Matters(at)
    ensures True(c, d[at := a], stored)
  {
    var d' := d[at := a];
    assert Said(d', AWAIT) == Said(d, AWAIT) && Said(d', FIND) == Said(d, FIND) && Said(d', HOOK) == Said(d, HOOK);
    assert Said(d', BACKEND) == Said(d, BACKEND) && Said(d', PREPARE) == Said(d, PREPARE);
    assert Said(d', AFTER) == Said(d, AFTER) && Said(d', STORE) == Said(d, STORE);
    assert Said(d', CHOOSE_STALE) == Said(d, CHOOSE_STALE);
  }

  // ---- every program point ---------------------------------------------------------------------------

  lemma {:induction false} StartTrue(c: Client, a: Answer, d: Told, stored: seq<Op>)
    requires ClientOK(c) && Tells(c, stored) && True(c, d, stored) && c.fg.at == START
    ensures StepTrue(c, START, a, DecideStart(c, a), d, stored)
  {
    Unheard(c, START, a, d, stored);
  }

  lemma {:induction false} PassTrue(c: Client, a: Answer, d: Told, stored: seq<Op>)
    requires ClientOK(c) && Tells(c, stored) && True(c, d, stored) && c.fg.at == PASS
    ensures StepTrue(c, PASS, a, DecidePass(c, a), d, stored)
  {
    Unheard(c, PASS, a, d, stored);
  }

  lemma {:induction false} LookingTrue(c: Client, a: Answer, next: Handle, d: Told, stored: seq<Op>)
    requires ClientOK(c) && Tells(c, stored) && True(c, d, stored) && c.fg.at == LOOKING
    ensures StepTrue(c, LOOKING, a, DecideLooking(c, a, next), d, stored)
  {
    Unheard(c, LOOKING, a, d, stored);
  }

  lemma {:induction false} AwaitTrue(c: Client, h: Handle, a: Answer, busy: bool, d: Told, stored: seq<Op>)
    requires ClientOK(c) && Tells(c, stored) && True(c, d, stored) && c.fg.at == AWAIT
    ensures StepTrue(c, AWAIT, a, DecideAwait(c, h, a, busy), d, stored)
  {
  }

  lemma {:induction false} FindTrue(c: Client, h: Handle, a: Answer, d: Told, stored: seq<Op>)
    requires ClientOK(c) && Tells(c, stored) && True(c, d, stored) && c.fg.at == FIND
    ensures StepTrue(c, FIND, a, DecideFind(c, h, a), d, stored)
  {
  }

  lemma {:induction false} SuggestTrue(c: Client, h: Handle, a: Answer, d: Told, stored: seq<Op>)
    requires ClientOK(c) && Tells(c, stored) && True(c, d, stored) && c.fg.at == SUGGEST
    ensures StepTrue(c, SUGGEST, a, DecideSuggest(c, h, a), d, stored)
  {
    Unheard(c, SUGGEST, a, d, stored);
  }

  lemma {:induction false} HookTrue(c: Client, a: Answer, d: Told, stored: seq<Op>)
    requires ClientOK(c) && Tells(c, stored) && True(c, d, stored) && c.fg.at == HOOK
    ensures StepTrue(c, HOOK, a, DecideHook(c, a), d, stored)
  {
  }

  lemma {:induction false} DispatchTrue(c: Client, a: Answer, d: Told, stored: seq<Op>)
    requires ClientOK(c) && Tells(c, stored) && True(c, d, stored) && c.fg.at == DISPATCH
    ensures StepTrue(c, DISPATCH, a, DecideDispatch(c, a), d, stored)
  {
    Unheard(c, DISPATCH, a, d, stored);
  }

  lemma {:induction false} BackendTrue(c: Client, t: Task, h: Handle, a: Answer, d: Told, stored: seq<Op>)
    requires ClientOK(c) && Tells(c, stored) && True(c, d, stored) && ThreadOf(c, t).at == BACKEND
    ensures StepTrue(c, BACKEND, a, DecideBackend(c, t, h, a), d, stored)
  {
  }

  lemma {:induction false} PrepareTrue(c: Client, t: Task, h: Handle, a: Answer, d: Told, stored: seq<Op>)
    requires ClientOK(c) && Tells(c, stored) && True(c, d, stored) && ThreadOf(c, t).at == PREPARE
    ensures StepTrue(c, PREPARE, a, DecidePrepare(c, t, h, a), d, stored)
  {
  }

  lemma {:induction false} ApproveTrue(
    c: Client, t: Task, h: Handle, a: Answer, action: Action, d: Told, stored: seq<Op>)
    requires ClientOK(c) && Tells(c, stored) && True(c, d, stored) && ThreadOf(c, t).at == AFTER
    requires c.hasAfter && a.Hooked? && WasPrepared(d) && OpOf(action) == DecidedOp(OpPrepared(d), a.calls)
    ensures StepTrue(c, AFTER, a, Approve(c, t, h, action), d, stored)
  {
  }

  lemma {:induction false} HookedTrue(c: Client, t: Task, h: Handle, a: Answer, d: Told, stored: seq<Op>)
    requires ClientOK(c) && Tells(c, stored) && True(c, d, stored) && ThreadOf(c, t).at == AFTER
    requires c.hasAfter && a.Hooked?
    ensures StepTrue(c, AFTER, a, Approve(c, t, h, Cand.ActionOfHistory(ThreadOf(c, t).action, a.calls)), d, stored)
  {
    ActionDecides(ThreadOf(c, t).action, a.calls);
    ApproveTrue(c, t, h, a, Cand.ActionOfHistory(ThreadOf(c, t).action, a.calls), d, stored);
  }

  lemma {:induction false} UnaskedTrue(c: Client, t: Task, a: Answer, d: Told, stored: seq<Op>)
    requires ClientOK(c) && Tells(c, stored) && True(c, d, stored) && ThreadOf(c, t).at == AFTER && !c.hasAfter
    ensures StepTrue(c, AFTER, a, To(GoTo(c, t, FINALIZE), Keep), d, stored)
  {
  }

  lemma {:induction false} RefuseTrue(c: Client, t: Task, h: Handle, a: Answer, d: Told, stored: seq<Op>)
    requires ClientOK(c) && Tells(c, stored) && True(c, d, stored) && ThreadOf(c, t).at == AFTER
    requires c.hasAfter && a.Fails?
    ensures StepTrue(c, AFTER, a, Refuse(c, t, h, a.code), d, stored)
  {
  }

  lemma {:induction false} AfterTrue(c: Client, t: Task, h: Handle, a: Answer, d: Told, stored: seq<Op>)
    requires ClientOK(c) && Tells(c, stored) && True(c, d, stored) && ThreadOf(c, t).at == AFTER
    ensures StepTrue(c, AFTER, a, DecideAfter(c, t, h, a), d, stored)
  {
    if !c.hasAfter {
      UnaskedTrue(c, t, a, d, stored);
    } else if a.Fails? {
      RefuseTrue(c, t, h, a, d, stored);
    } else if a.Hooked? {
      HookedTrue(c, t, h, a, d, stored);
    }
  }

  lemma {:induction false} FinalizeTrue(c: Client, t: Task, h: Handle, a: Answer, d: Told, stored: seq<Op>)
    requires ClientOK(c) && Tells(c, stored) && True(c, d, stored) && ThreadOf(c, t).at == FINALIZE
    ensures StepTrue(c, FINALIZE, a, DecideFinalize(c, t, h, a), d, stored)
  {
    Unheard(c, FINALIZE, a, d, stored);
  }

  lemma {:induction false} StoreTrue(c: Client, h: Handle, a: Answer, next: Handle, d: Told, stored: seq<Op>)
    requires ClientOK(c) && Tells(c, stored) && True(c, d, stored) && c.fg.at == STORE
    ensures StepTrue(c, STORE, a, DecideStore(c, h, a, next), d, stored)
  {
  }

  lemma {:induction false} StoreBgTrue(c: Client, h: Handle, a: Answer, d: Told, stored: seq<Op>)
    requires ClientOK(c) && Tells(c, stored) && True(c, d, stored) && c.bg.at == STORE
    ensures StepTrue(c, STORE, a, DecideStoreBg(c, h, a), d, stored)
  {
  }

  lemma {:induction false} FillTrue(c: Client, a: Answer, d: Told, stored: seq<Op>)
    requires ClientOK(c) && Tells(c, stored) && True(c, d, stored) && c.fg.at == FILL
    ensures StepTrue(c, FILL, a, DecideFill(c, a), d, stored)
  {
    Unheard(c, FILL, a, d, stored);
  }

  lemma {:induction false} FillBgTrue(c: Client, a: Answer, d: Told, stored: seq<Op>)
    requires ClientOK(c) && Tells(c, stored) && True(c, d, stored) && c.bg.at == FILL
    ensures StepTrue(c, FILL, a, DecideFillBg(c, a), d, stored)
  {
    Unheard(c, FILL, a, d, stored);
  }

  lemma {:induction false} ReadBackTrue(c: Client, h: Handle, a: Answer, d: Told, stored: seq<Op>)
    requires ClientOK(c) && Tells(c, stored) && True(c, d, stored) && c.fg.at == READ_BACK
    ensures StepTrue(c, READ_BACK, a, DecideReadBack(c, h, a), d, stored)
  {
    Unheard(c, READ_BACK, a, d, stored);
  }

  lemma {:induction false} RespondTrue(c: Client, a: Answer, d: Told, stored: seq<Op>)
    requires ClientOK(c) && Tells(c, stored) && True(c, d, stored) && c.fg.at == RESPOND
    ensures StepTrue(c, RESPOND, a, DecideRespond(c, a), d, stored)
  {
    Unheard(c, RESPOND, a, d, stored);
  }

  lemma {:induction false} ChooseTrue(c: Client, h: Handle, a: Answer, d: Told, stored: seq<Op>)
    requires ClientOK(c) && Tells(c, stored) && True(c, d, stored) && c.fg.at == CHOOSE_STALE
    ensures StepTrue(c, CHOOSE_STALE, a, DecideChoose(c, h, a), d, stored)
  {
  }

  lemma {:induction false} FindStaleTrue(c: Client, h: Handle, a: Answer, d: Told, stored: seq<Op>)
    requires ClientOK(c) && Tells(c, stored) && True(c, d, stored) && c.fg.at == FIND_STALE
    ensures StepTrue(c, FIND_STALE, a, DecideFindStale(c, h, a), d, stored)
  {
    Unheard(c, FIND_STALE, a, d, stored);
  }

  lemma {:induction false} CloseFreshTrue(c: Client, h: Handle, a: Answer, d: Told, stored: seq<Op>)
    requires ClientOK(c) && Tells(c, stored) && True(c, d, stored) && c.fg.at == CLOSE_FRESH
    ensures StepTrue(c, CLOSE_FRESH, a, DecideCloseFresh(c, h), d, stored)
  {
    Unheard(c, CLOSE_FRESH, a, d, stored);
  }

  lemma {:induction false} ClosingTrue(c: Client, t: Task, h: Handle, a: Answer, d: Told, stored: seq<Op>)
    requires ClientOK(c) && Tells(c, stored) && True(c, d, stored) && ThreadOf(c, t).at == CLOSING
    ensures StepTrue(c, CLOSING, a, DecideClosing(c, t, h), d, stored)
  {
    Unheard(c, CLOSING, a, d, stored);
  }

  lemma {:induction false} DecideTrue(
    c: Client, t: Task, a: Answer, next: Handle, busy: bool, d: Told, stored: seq<Op>)
    requires ClientOK(c) && Tells(c, stored) && True(c, d, stored)
    ensures StepTrue(c, ThreadOf(c, t).at, a, Decide(c, t, a, next, busy), d, stored)
  {
    var th := ThreadOf(c, t);
    var h := if th.h.Ptr? then th.h.h else 0;
    if t.Bg? {
      if th.h.Ptr? {
        if th.at == BACKEND { BackendTrue(c, t, h, a, d, stored); }
        else if th.at == PREPARE { PrepareTrue(c, t, h, a, d, stored); }
        else if th.at == AFTER { AfterTrue(c, t, h, a, d, stored); }
        else if th.at == FINALIZE { FinalizeTrue(c, t, h, a, d, stored); }
        else if th.at == STORE { StoreBgTrue(c, h, a, d, stored); }
        else if th.at == FILL { FillBgTrue(c, a, d, stored); }
        else if th.at == CLOSING { ClosingTrue(c, t, h, a, d, stored); }
      }
    } else if th.at == START { StartTrue(c, a, d, stored); }
    else if th.at == PASS { PassTrue(c, a, d, stored); }
    else if th.at == LOOKING { LookingTrue(c, a, next, d, stored); }
    else if th.at == CLOSE_FRESH { CloseFreshTrue(c, th.back.h, a, d, stored); }
    else if th.at == READ_BACK { ReadBackTrue(c, th.back.h, a, d, stored); }
    else if th.h.Ptr? { WithHandleTrue(c, h, a, next, busy, d, stored); }
  }

  lemma {:induction false} WithHandleTrue(
    c: Client, h: Handle, a: Answer, next: Handle, busy: bool, d: Told, stored: seq<Op>)
    requires ClientOK(c) && Tells(c, stored) && True(c, d, stored) && c.fg.h == Ptr(h)
    ensures StepTrue(c, c.fg.at, a, DecideWithHandle(c, h, a, next, busy), d, stored)
  {
    var at, t := c.fg.at, Fg;
    if at == AWAIT { AwaitTrue(c, h, a, busy, d, stored); }
    else if at == FIND { FindTrue(c, h, a, d, stored); }
    else if at == SUGGEST { SuggestTrue(c, h, a, d, stored); }
    else if at == HOOK { HookTrue(c, a, d, stored); }
    else if at == DISPATCH { DispatchTrue(c, a, d, stored); }
    else if at == BACKEND { BackendTrue(c, t, h, a, d, stored); }
    else if at == PREPARE { PrepareTrue(c, t, h, a, d, stored); }
    else if at == AFTER { AfterTrue(c, t, h, a, d, stored); }
    else if at == FINALIZE { FinalizeTrue(c, t, h, a, d, stored); }
    else if at == STORE { StoreTrue(c, h, a, next, d, stored); }
    else if at == FILL { FillTrue(c, a, d, stored); }
    else if at == RESPOND { RespondTrue(c, a, d, stored); }
    else if at == CHOOSE_STALE { ChooseTrue(c, h, a, d, stored); }
    else if at == FIND_STALE { FindStaleTrue(c, h, a, d, stored); }
    else if at == CLOSING { ClosingTrue(c, t, h, a, d, stored); }
  }

  // ---- all clients, over whole runs ------------------------------------------------------------------

  ghost function StoredOf(s: System, i: nat): seq<Op>
    requires i < |s.clients|
  {
    StoredIn(s.w.log, s.clients[i].handles)
  }

  /** What holds of client i after some moves. */
  ghost predicate TrueAfter(s: System, s0: System, i: nat, d: Told) {
    && |s.clients| == |s0.clients| && SystemOK(s) && AllTell(s)
    && (i < |s.clients| ==> SameSetup(s0.clients[i], s.clients[i]) && True(s.clients[i], d, StoredOf(s, i)))
  }

  lemma {:induction false} InitiallyTrue(s0: System, i: nat)
    requires Initial(s0)
    ensures TrueAfter(s0, s0, i, map[])
  {
    InitiallyOK(s0);
    forall j | 0 <= j < |s0.clients| ensures Tells(s0.clients[j], StoredIn(s0.w.log, s0.clients[j].handles)) {
      assert Fresh(s0.clients[j]);
    }
    if i < |s0.clients| { assert Fresh(s0.clients[i]); }
  }

  lemma {:induction false} OwnMoveTrue(s: System, m: Move, d: Told)
    requires SystemOK(s) && AllTell(s) && Moves(s, m) && True(s.clients[m.i], d, StoredOf(s, m.i))
    ensures var s' := Next(s, m);
            && |s'.clients| == |s.clients| && SameSetup(s.clients[m.i], s'.clients[m.i])
            && True(s'.clients[m.i], d[ThreadOf(s.clients[m.i], m.t).at := m.a], StoredOf(s', m.i))
  {
    var c := s.clients[m.i];
    var v := MoveIsGood(s, m);
    MoverTells(s, m, v);
    DecideTrue(c, m.t, m.a, s.w.next, s.w.holder.Some?, d, StoredOf(s, m.i));
    MoverStored(c, m.t, v, s.w);
  }

  /** One move, by client i or by another one. */
  lemma {:induction false} MoveTrue(s: System, m: Move, i: nat, d: Told)
    requires SystemOK(s) && AllTell(s) && Moves(s, m) && i < |s.clients|
    requires True(s.clients[i], d, StoredOf(s, i))
    ensures var s' := Next(s, m);
            && |s'.clients| == |s.clients| && SameSetup(s.clients[i], s'.clients[i])
            && True(s'.clients[i], if m.i == i then d[ThreadOf(s.clients[i], m.t).at := m.a] else d, StoredOf(s', i))
  {
    if m.i == i {
      OwnMoveTrue(s, m, d);
    } else {
      var v := MoveIsGood(s, m);
      MoverTells(s, m, v);
      ApartBothWays(s.clients, i, m.i);
      OtherStored(s.clients[i].handles, s.clients[m.i], m.t, v, s.w);
    }
  }

  lemma {:induction false} NextTrue(s: System, s0: System, m: Move, i: nat, d: Told)
    requires TrueAfter(s, s0, i, d)
    ensures TrueAfter(Next(s, m), s0, i,
                      if Moves(s, m) && m.i == i then d[ThreadOf(s.clients[i], m.t).at := m.a] else d)
  {
    NextOK(s, m);
    NextTells(s, m);
    if Moves(s, m) {
      var v := MoveIsGood(s, m);
      if i < |s.clients| { MoveTrue(s, m, i, d); }
    }
  }

  lemma {:induction false} RunTrue(s0: System, moves: seq<Move>, i: nat)
    requires Initial(s0)
    ensures TrueAfter(Run(s0, moves), s0, i, Heard(s0, moves, i))
    decreases |moves|
  {
    if moves == [] {
      InitiallyTrue(s0, i);
    } else {
      var init, m := moves[..|moves| - 1], moves[|moves| - 1];
      RunTrue(s0, init, i);
      RunSnoc(s0, moves);
      NextTrue(Run(s0, init), s0, m, i, Heard(s0, init, i));
    }
  }

  /** In every run, a send makes a storage call exactly when the host accepts one, and then it is the one that
      the answers of the run ask for: what the preparation said, a cookie considered, unless AfterSend
      called for something else. The same in the background as in the foreground. */
  lemma {:induction false} StoredAsDecided(s: System, s0: System, moves: seq<Move>, i: nat)
    requires Reachable(s, s0, moves) && i < |s0.clients|
    ensures |s.clients| == |s0.clients|
    ensures var d, hasAfter, stored := Heard(s0, moves, i), s0.clients[i].hasAfter, StoredOf(s, i);
            && (stored != [] <==> Said(d, STORE) == Some(Fine))
            && (stored != [] ==> WasApproved(d, hasAfter) && stored == [OpDecided(d, hasAfter)])
  {
    RunTrue(s0, moves, i);
  }

  /** What a send remembers of its run is what it was told: the state of its lookup, whether it is to serve an
      entry while it revalidates, the failures of BeforeSend and of the candidate, and choose_stale. */
  lemma {:induction false} RecordsAreTrue(s: System, s0: System, moves: seq<Move>, i: nat)
    requires Reachable(s, s0, moves) && i < |s0.clients|
    ensures |s.clients| == |s0.clients|
    ensures Recorded(s.clients[i], Heard(s0, moves, i))
  {
    RunTrue(s0, moves, i);
  }
}
