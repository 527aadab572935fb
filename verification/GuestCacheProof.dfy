/** What every run of the guest-cache send keeps. */
module GuestCacheProof {
  import opened Text
  import opened GuestCache

  function ClientRank(c: Client): nat { c.fg.at + c.bg.at }

  function Live(c: Client): int { if c.bg.at <= DONE then 0 else 1 }

  ghost predicate Elected(c: Client) { c.looked && c.st.must }

  ghost predicate Sie(c: Client) { c.looked && c.st.usableIfError }

  /** From the election to the storage call a task holds the obligation. */
  ghost predicate Obliged(p: Point) { STORE <= p <= SUGGEST || p == CHOOSE_STALE }

  // ---- one client --------------------------------------------------------------------------

  /** The handle variables at each point. */
  ghost predicate ThreadOK(th: Thread) {
    && (FIND_STALE <= th.at <= AWAIT || th.at == CLOSING || th.at == CLOSE_FRESH ==> th.h.Ptr?)
    && (th.at <= DONE || th.at >= LOOKING ==> th.h.Nil?)
    && (Obliged(th.at) ==> th.held)
    && (th.at == AWAIT || RESPOND <= th.at <= FILL || CLOSE_FRESH <= th.at <= PASS ==> !th.held)
    && (th.held ==> th.h.Ptr?)
    && (th.at == READ_BACK || th.at == CLOSE_FRESH ==> th.back.Ptr?)
    && (th.back.Ptr? ==> (th.at == READ_BACK || th.at == CLOSE_FRESH || th.at == FILL) && th.back != th.h)
    && (th.out.Pending? <==> th.at >= PASS || th.at == IDLE)
    && (STORE <= th.at <= AFTER || RESPOND <= th.at <= FILL ==> th.action <= 3)
  }

  ghost predicate PastElection(p: Point) {
    Obliged(p) || p == FIND_STALE || RESPOND <= p <= FILL || p == CLOSE_FRESH
  }

  /** Where a client's two tasks can be, and what they remember. */
  ghost predicate Shape(c: Client) {
    && ThreadOK(c.fg) && ThreadOK(c.bg)
    && (c.fg.h.Ptr? ==> c.fg.h.h in c.handles) && (c.fg.back.Ptr? ==> c.fg.back.h in c.handles)
    && (c.bg.h.Ptr? ==> c.bg.h.h in c.handles) && c.bg.back.Nil?
    && (c.fg.h.Ptr? ==> c.fg.h == c.lookup) && (c.bg.h.Ptr? ==> c.bg.h == c.lookup)
    && (c.fg.back.Ptr? ==> c.fg.back != c.lookup) && (c.lookup.Ptr? ==> c.lookup.h in c.handles)
    && DONE <= c.fg.at <= START && c.fg.at != DISPATCH - 1 && (c.bg.at > IDLE ==> c.fg.at == DONE)
    && (c.bg.at <= CLOSING || FILL <= c.bg.at <= BACKEND) && c.bg.at != CLOSE_FRESH
    && (c.fg.at == FILL ==> c.fg.back.Ptr?)
    && (c.fg.at >= AWAIT ==> !c.looked)
    && (c.fg.at == FIND ==> c.looked && c.fg.held == c.st.must)
    && (PastElection(c.fg.at) || c.bg.at > IDLE ==> Elected(c)) && (c.fg.at == PASS ==> !Elected(c))
  }

  /** Hooks run at most once, in order, and only for an elected client. */
  ghost predicate HooksOK(c: Client) {
    && c.beforeRuns <= 1 && c.afterRuns <= 1
    && (c.fg.at >= HOOK ==> c.beforeRuns == 0)
    && (c.fg.at >= AFTER || c.bg.at >= AFTER ==> c.afterRuns == 0)
    && (c.beforeRuns > 0 || c.afterRuns > 0 ==> Elected(c))
    && (!c.hasBefore ==> c.beforeRuns == 0) && (!c.hasAfter ==> c.afterRuns == 0)
  }

  /** What a foreground outcome must be, given what happened on the way. */
  ghost predicate OutcomeOK(c: Client, out: Outcome) {
    && (c.beforeError.Error? ==> out == Failed(c.beforeError))
    && (match out
        case Served(r) =>
          && (FromCache(r) <==> r.source.CacheEntry?)
          && (if c.fgFailure.Error? then Sie(c) && r.source.CacheEntry? && r.masked == Cause(c.fgFailure)
              else r.masked == if r.source.CacheEntry? && Sie(c) then Collapse else NotMasked)
        case Failed(e) =>
          e.Error? && (c.fgFailure.Error? ==> if Sie(c) then e.Error? && e.site == FoundResponse else e == c.fgFailure)
        case Panicked => c.fgFailure.Error? && Sie(c) && !c.chosen
        case Quiet => false
        case Pending => false)
  }

  ghost predicate OutcomesOK(c: Client) {
    && (if !c.fg.out.Pending? then OutcomeOK(c, c.fg.out)
        else
          && c.beforeError.NoError?
          && (if c.fg.at == CHOOSE_STALE || c.fg.at == FIND_STALE then c.fgFailure.Error? && Sie(c)
              else c.fgFailure.NoError?))
    && (c.hit ==> c.looked)
    && (c.fg.at == CLOSE_FRESH && c.fg.out.Served? ==> c.fg.out.r.source.Origin?)
    && (c.fg.at == CLOSING && c.fg.out.Served? && c.fg.out.r.source.Origin? ==> !Elected(c))
    && (c.bgFailure.Error? ==> c.bg.at == DONE) && (c.bg.at > IDLE ==> c.fgFailure.NoError?)
    && (c.bg.at > IDLE ==> c.fg.out.Served? && c.fg.out.r.source.CacheEntry?)
  }

  // ---- the guest's part, by itself -----------------------------------------------------------

  /** No storage call may have been made yet: everything before one, and every failed candidate. */
  ghost predicate Uncommitted(c: Client) {
    c.fgFailure.Error? || c.bgFailure.Error? || c.bg.at >= STORE || c.fg.at >= STORE
  }

  /** What an effect does to the handles of the task that has it. */
  ghost predicate Legal(th: Thread, th': Thread, e: Effect, next: Handle, busy: bool) {
    match e
    case Keep => Drops(th, th') && th'.back == th.back
    case Call(op, h, ok) =>
      && th'.h == th.h && th'.held == th.held && th'.back == th.back && op != OpClose
      && (th.h == Ptr(h) || th.back == Ptr(h))
      && (Commit(op) || op == OpChooseStale ==> th.h == Ptr(h) && th.held)
    case Open => th.h.Nil? && th.back.Nil? && th'.h == Ptr(next) && !th'.held && th'.back.Nil?
    case Elect(h) => !busy && th.h == Ptr(h) && !th.held && th'.h == th.h && th'.held && th'.back == th.back
    case Fulfil(op, h, opens) =>
      && th.h == Ptr(h) && th.held && th.back.Nil? && th'.h == th.h && !th'.held && Commit(op)
      && th'.back == if opens then Ptr(next) else Nil
    case Choose(h) => th.h == Ptr(h) && th.held && th'.h == th.h && !th'.held && th'.back == th.back
    case Close(h) =>
      || (th.back == Ptr(h) && th'.back.Nil? && Drops(th, th'))
      || (th.back.Nil? && th'.back.Nil? && th.h == Ptr(h) && th'.h.Nil? && !th'.held)
    case Finish(h) => th.back.Nil? && th'.back.Nil? && th.h == Ptr(h) && th'.h.Nil? && !th'.held
    case Spawn => th.held && th'.h.Nil? && !th'.held && th.back.Nil? && th'.back.Nil?
    case Strand(h, call) =>
      && (call.Some? ==> !Commit(call.value) && call.value != OpChooseStale && call.value != OpClose)
      && th.h == Ptr(h) && th.held && th'.h.Nil? && !th'.held && th.back.Nil? && th'.back.Nil?
  }

  /** A handle variable may be set to nil without a close only when it holds nothing. */
  ghost predicate Drops(th: Thread, th': Thread) {
    (th'.h == th.h && th'.held == th.held) || (th'.h.Nil? && !th'.held && !th.held)
  }

  /** The lookup handle of a served insert, update or uncacheable response is set to nil unclosed. */
  ghost predicate Forgets(c: Client, h: Handle) {
    c.fg.at == DONE && c.fg.out.Served? && c.fg.out.r.source.Origin? && Elected(c) && c.lookup == Ptr(h)
  }

  /** The rest of what the world relies on. */
  ghost predicate Steps(c: Client, t: Task, c': Client, e: Effect, next: Handle) {
    && (Uncommitted(c') ==> Uncommitted(c))
    && (e.Fulfil? || (e.Call? && Commit(e.op)) ==> !Uncommitted(c'))
    && (c'.bgFailure.Error?) == (c.bgFailure.Error? || e.Strand?)
    && c'.handles == (if e.Open? || (e.Fulfil? && e.opens) then c.handles + {next} else c.handles)
    && Live(c') - Live(c) == (if e.Spawn? then 1 else if e.Strand? || e.Finish? then -1 else 0)
    && (e.Spawn? ==> t.Fg? && c.bg.h.Nil? && c'.bg.h == c.fg.h && c'.bg.held && c'.bg.back.Nil?)
    && (e.Strand? || e.Finish? ==> t.Bg?)
    && (!e.Spawn? ==> if t.Fg? then c'.bg == c.bg else c'.fg == c.fg)
    && (Elected(c) ==> Elected(c'))
    && (t.Fg? && c.fg.h.Ptr? && c'.fg.h.Nil? && (e.Keep? || (e.Close? && c.fg.back.Ptr?)) ==>
          Forgets(c', c.fg.h.h))
    && (e.Close? || e.Finish? || e.Strand? ==> !Forgets(c', e.h))
    && (Elected(c') ==> Elected(c) || e.Elect?) && (!e.Open? ==> c'.lookup == c.lookup)
  }

  ghost predicate GoodShape(c: Client, v: Verdict) {
    v.To? ==> Shape(v.c) && ClientRank(v.c) < ClientRank(c)
  }

  ghost predicate GoodHooks(v: Verdict) { v.To? ==> HooksOK(v.c) }

  ghost predicate GoodOutcomes(v: Verdict) { v.To? ==> OutcomesOK(v.c) }

  ghost predicate GoodEffect(c: Client, t: Task, v: Verdict, next: Handle, busy: bool) {
    v.To? ==> Legal(ThreadOf(c, t), ThreadOf(v.c, t), v.e, next, busy) && Steps(c, t, v.c, v.e, next)
  }

  ghost predicate ClientOK(c: Client) { Shape(c) && HooksOK(c) && OutcomesOK(c) }

  ghost predicate Good(c: Client, t: Task, v: Verdict, next: Handle, busy: bool) {
    GoodShape(c, v) && GoodHooks(v) && GoodOutcomes(v) && GoodEffect(c, t, v, next, busy)
  }

  // ---- every program point --------------------------------------------------------------------

  lemma {:induction false} StartGood(c: Client, a: Answer, next: Handle, busy: bool)
    requires ClientOK(c) && next !in c.handles && c.fg.at == START
    ensures Good(c, Fg, DecideStart(c, a), next, busy)
  {
  }

  lemma {:induction false} PassServedGood(c: Client, next: Handle, busy: bool)
    requires ClientOK(c) && c.fg.at == PASS
    ensures Good(c, Fg, To(Return(c, Fg, Served(OriginResponse(0))), Keep), next, busy)
  {
  }

  lemma {:induction false} PassGood(c: Client, a: Answer, next: Handle, busy: bool)
    requires ClientOK(c) && next !in c.handles && c.fg.at == PASS
    ensures Good(c, Fg, DecidePass(c, a), next, busy)
  {
    if a.Fine? { PassServedGood(c, next, busy); }
  }

  lemma {:induction false} OpenGood(c: Client, next: Handle, busy: bool)
    requires ClientOK(c) && next !in c.handles && c.fg.at == LOOKING
    ensures Good(c, Fg, Looked(c, next), next, busy)
  {
  }

  lemma {:induction false} LookupFailsGood(c: Client, site: Site, code: int, next: Handle, busy: bool)
    requires ClientOK(c) && next !in c.handles && c.fg.at == LOOKING
    ensures Good(c, Fg, To(Fail(c, Fg, site, code), Keep), next, busy)
  {
  }

  lemma {:induction false} LookingGood(c: Client, a: Answer, next: Handle, busy: bool)
    requires ClientOK(c) && next !in c.handles && c.fg.at == LOOKING
    ensures Good(c, Fg, DecideLooking(c, a, next), next, busy)
  {
    if c.keyLen != 0 && c.keyLen != 32 {
      LookupFailsGood(c, BadKey, c.keyLen, next, busy);
    } else if a.Fails? {
      LookupFailsGood(c, LookupFailed, a.code, next, busy);
    } else if a.Fine? {
      OpenGood(c, next, busy);
    }
  }

  lemma {:induction false} AwaitGood(c: Client, h: Handle, a: Answer, busy: bool, next: Handle)
    requires ClientOK(c) && next !in c.handles && c.fg.at == AWAIT && c.fg.h == Ptr(h)
    ensures Good(c, Fg, DecideAwait(c, h, a, busy), next, busy)
  {
  }

  lemma {:induction false} HitElectedGood(c: Client, h: Handle, next: Handle, busy: bool)
    requires ClientOK(c) && c.fg.at == FIND && c.fg.h == Ptr(h) && c.st.must
    ensures Good(c, Fg, HitElected(c, h), next, busy)
  {
  }

  lemma {:induction false} HitServedGood(c: Client, h: Handle, next: Handle, busy: bool)
    requires ClientOK(c) && c.fg.at == FIND && c.fg.h == Ptr(h) && !c.st.must
    ensures Good(c, Fg, HitServed(c, h), next, busy)
  {
  }

  lemma {:induction false} MissGood(c: Client, h: Handle, next: Handle, busy: bool)
    requires ClientOK(c) && c.fg.at == FIND && c.fg.h == Ptr(h)
    ensures Good(c, Fg, Miss(c, h), next, busy)
  {
  }

  lemma {:induction false} FindGood(c: Client, h: Handle, a: Answer, next: Handle, busy: bool)
    requires ClientOK(c) && next !in c.handles && c.fg.at == FIND && c.fg.h == Ptr(h)
    ensures Good(c, Fg, DecideFind(c, h, a), next, busy)
  {
    if a.Nothing? {
      MissGood(c, h, next, busy);
    } else if a.Fine? {
      if c.st.must { HitElectedGood(c, h, next, busy); } else { HitServedGood(c, h, next, busy); }
    }
  }

  lemma {:induction false} SuggestGood(c: Client, h: Handle, a: Answer, next: Handle, busy: bool)
    requires ClientOK(c) && next !in c.handles && c.fg.at == SUGGEST && c.fg.h == Ptr(h)
    ensures Good(c, Fg, DecideSuggest(c, h, a), next, busy)
  {
    var v := DecideSuggest(c, h, a);
    if a.Fails? {
      assert Good(c, Fg, v, next, busy);
    } else if a.Fine? {
      assert Good(c, Fg, v, next, busy);
    }
  }

  lemma {:induction false} HookGood(c: Client, a: Answer, next: Handle, busy: bool)
    requires ClientOK(c) && next !in c.handles && c.fg.at == HOOK
    ensures Good(c, Fg, DecideHook(c, a), next, busy)
  {
  }

  lemma {:induction false} DispatchGood(c: Client, a: Answer, next: Handle, busy: bool)
    requires ClientOK(c) && next !in c.handles && c.fg.at == DISPATCH
    ensures Good(c, Fg, DecideDispatch(c, a), next, busy)
  {
  }

  lemma {:induction false} BackendGood(c: Client, h: Handle, a: Answer, next: Handle, busy: bool)
    requires ClientOK(c) && next !in c.handles && c.fg.at == BACKEND && c.fg.h == Ptr(h)
    ensures Good(c, Fg, DecideBackend(c, Fg, h, a), next, busy)
  {
  }

  lemma {:induction false} BackendBgGood(c: Client, h: Handle, a: Answer, next: Handle, busy: bool)
    requires ClientOK(c) && next !in c.handles && c.bg.at == BACKEND && c.bg.h == Ptr(h)
    ensures Good(c, Bg, DecideBackend(c, Bg, h, a), next, busy)
  {
  }

  lemma {:induction false} UnpreparedGood(c: Client, t: Task, h: Handle, code: int, next: Handle, busy: bool)
    requires ClientOK(c) && ThreadOf(c, t).at == PREPARE && ThreadOf(c, t).h == Ptr(h)
    ensures Good(c, t, Unprepared(c, t, h, code), next, busy)
  {
  }

  lemma {:induction false} PreparedGood(c: Client, t: Task, h: Handle, action: Action, next: Handle, busy: bool)
    requires ClientOK(c) && ThreadOf(c, t).at == PREPARE && ThreadOf(c, t).h == Ptr(h) && action <= 3
    ensures Good(c, t, Prepared(c, t, h, action), next, busy)
  {
  }

  lemma {:induction false} PrepareGood(c: Client, t: Task, h: Handle, a: Answer, next: Handle, busy: bool)
    requires ClientOK(c) && next !in c.handles && ThreadOf(c, t).at == PREPARE && ThreadOf(c, t).h == Ptr(h)
    ensures Good(c, t, DecidePrepare(c, t, h, a), next, busy)
  {
    if a.Fails? {
      UnpreparedGood(c, t, h, a.code, next, busy);
    } else if a.Storage? && a.action <= 3 {
      PreparedGood(c, t, h, a.action, next, busy);
      PreparedGood(c, t, h, Cand.RECORD_UNCACHEABLE, next, busy);
    }
  }

  /** AfterSend returned without an error. */
  lemma {:induction false} ApprovedGood(c: Client, t: Task, h: Handle, action: Action, next: Handle, busy: bool)
    requires ClientOK(c) && c.hasAfter && ThreadOf(c, t).at == AFTER && ThreadOf(c, t).h == Ptr(h) && action <= 3
    ensures Good(c, t, Approve(c, t, h, action), next, busy)
  {
  }

  lemma {:induction false} UnaskedGood(c: Client, t: Task, next: Handle, busy: bool)
    requires ClientOK(c) && !c.hasAfter && ThreadOf(c, t).at == AFTER
    ensures Good(c, t, To(GoTo(c, t, FINALIZE), Keep), next, busy)
  {
  }

  lemma {:induction false} RefusedGood(c: Client, t: Task, h: Handle, code: int, next: Handle, busy: bool)
    requires ClientOK(c) && c.hasAfter && ThreadOf(c, t).at == AFTER && ThreadOf(c, t).h == Ptr(h)
    ensures Good(c, t, Refuse(c, t, h, code), next, busy)
  {
  }

  lemma {:induction false} AfterGood(c: Client, t: Task, h: Handle, a: Answer, next: Handle, busy: bool)
    requires ClientOK(c) && next !in c.handles && ThreadOf(c, t).at == AFTER && ThreadOf(c, t).h == Ptr(h)
    ensures Good(c, t, DecideAfter(c, t, h, a), next, busy)
  {
    if !c.hasAfter {
      UnaskedGood(c, t, next, busy);
    } else if a.Fails? {
      RefusedGood(c, t, h, a.code, next, busy);
    } else if a.Hooked? {
      ApprovedGood(c, t, h, Cand.ActionOfHistory(ThreadOf(c, t).action, a.calls), next, busy);
    }
  }

  lemma {:induction false} FinalizeGood(c: Client, h: Handle, a: Answer, next: Handle, busy: bool)
    requires ClientOK(c) && next !in c.handles && c.fg.at == FINALIZE && c.fg.h == Ptr(h)
    ensures Good(c, Fg, DecideFinalize(c, Fg, h, a), next, busy)
  {
  }

  lemma {:induction false} FinalizeBgGood(c: Client, h: Handle, a: Answer, next: Handle, busy: bool)
    requires ClientOK(c) && next !in c.handles && c.bg.at == FINALIZE && c.bg.h == Ptr(h)
    ensures Good(c, Bg, DecideFinalize(c, Bg, h, a), next, busy)
  {
  }

  lemma {:induction false} StoreGood(c: Client, h: Handle, a: Answer, next: Handle, busy: bool)
    requires ClientOK(c) && next !in c.handles && c.fg.at == STORE && c.fg.h == Ptr(h)
    ensures Good(c, Fg, DecideStore(c, h, a, next), next, busy)
  {
    var v := DecideStore(c, h, a, next);
    if a.Fine? && c.fg.action <= Cand.UPDATE {
      assert v.c.fg.h == c.fg.h && v.c.fg.back == Ptr(next) && !v.c.fg.held;
      assert Shape(v.c);
      assert Good(c, Fg, v, next, busy);
    } else if a.Fine? {
      assert Good(c, Fg, v, next, busy);
    }
  }

  lemma {:induction false} StoreBgGood(c: Client, h: Handle, a: Answer, next: Handle, busy: bool)
    requires ClientOK(c) && next !in c.handles && c.bg.at == STORE && c.bg.h == Ptr(h)
    ensures Good(c, Bg, DecideStoreBg(c, h, a), next, busy)
  {
  }

  lemma {:induction false} FillGood(c: Client, a: Answer, next: Handle, busy: bool)
    requires ClientOK(c) && next !in c.handles && c.fg.at == FILL
    ensures Good(c, Fg, DecideFill(c, a), next, busy)
  {
  }

  lemma {:induction false} FillBgGood(c: Client, a: Answer, next: Handle, busy: bool)
    requires ClientOK(c) && next !in c.handles && c.bg.at == FILL
    ensures Good(c, Bg, DecideFillBg(c, a), next, busy)
  {
  }

  lemma {:induction false} ReadBackGood(c: Client, b: Handle, a: Answer, next: Handle, busy: bool)
    requires ClientOK(c) && next !in c.handles && c.fg.at == READ_BACK && c.fg.back == Ptr(b)
    ensures Good(c, Fg, DecideReadBack(c, b, a), next, busy)
  {
  }

  lemma {:induction false} RespondGood(c: Client, a: Answer, next: Handle, busy: bool)
    requires ClientOK(c) && next !in c.handles && c.fg.at == RESPOND
    ensures Good(c, Fg, DecideRespond(c, a), next, busy)
  {
  }

  lemma {:induction false} ChooseGood(c: Client, h: Handle, a: Answer, next: Handle, busy: bool)
    requires ClientOK(c) && next !in c.handles && c.fg.at == CHOOSE_STALE && c.fg.h == Ptr(h)
    ensures Good(c, Fg, DecideChoose(c, h, a), next, busy)
  {
  }

  lemma {:induction false} SubstitutedGood(c: Client, h: Handle, next: Handle, busy: bool)
    requires ClientOK(c) && next !in c.handles && c.fg.at == FIND_STALE && c.fg.h == Ptr(h)
    ensures Good(c, Fg, DecideFindStale(c, h, Fine), next, busy)
  {
  }

  lemma {:induction false} NotSubstitutedGood(c: Client, h: Handle, a: Answer, next: Handle, busy: bool)
    requires ClientOK(c) && next !in c.handles && c.fg.at == FIND_STALE && c.fg.h == Ptr(h) && !a.Fine?
    ensures Good(c, Fg, DecideFindStale(c, h, a), next, busy)
  {
  }

  lemma {:induction false} FindStaleGood(c: Client, h: Handle, a: Answer, next: Handle, busy: bool)
    requires ClientOK(c) && next !in c.handles && c.fg.at == FIND_STALE && c.fg.h == Ptr(h)
    ensures Good(c, Fg, DecideFindStale(c, h, a), next, busy)
  {
    if a.Fine? {
      SubstitutedGood(c, h, next, busy);
    } else {
      NotSubstitutedGood(c, h, a, next, busy);
    }
  }

  lemma {:induction false} CloseFreshGood(c: Client, b: Handle, next: Handle, busy: bool)
    requires ClientOK(c) && next !in c.handles && c.fg.at == CLOSE_FRESH && c.fg.back == Ptr(b)
    ensures Good(c, Fg, DecideCloseFresh(c, b), next, busy)
  {
  }

  lemma {:induction false} ClosingGood(c: Client, h: Handle, next: Handle, busy: bool)
    requires ClientOK(c) && next !in c.handles && c.fg.at == CLOSING && c.fg.h == Ptr(h)
    ensures Good(c, Fg, DecideClosing(c, Fg, h), next, busy)
  {
  }

  lemma {:induction false} ClosingBgGood(c: Client, h: Handle, next: Handle, busy: bool)
    requires ClientOK(c) && next !in c.handles && c.bg.at == CLOSING && c.bg.h == Ptr(h)
    ensures Good(c, Bg, DecideClosing(c, Bg, h), next, busy)
  {
  }

  /** Every step of every client is good. */
  lemma {:induction false} DecideGood(c: Client, t: Task, a: Answer, next: Handle, busy: bool)
    requires ClientOK(c) && next !in c.handles
    ensures Good(c, t, Decide(c, t, a, next, busy), next, busy)
  {
    var th := ThreadOf(c, t);
    var h := if th.h.Ptr? then th.h.h else 0;
    if t.Bg? {
      if th.h.Ptr? {
        if th.at == BACKEND { BackendBgGood(c, h, a, next, busy); }
        else if th.at == PREPARE { PrepareGood(c, t, h, a, next, busy); }
        else if th.at == AFTER { AfterGood(c, t, h, a, next, busy); }
        else if th.at == FINALIZE { FinalizeBgGood(c, h, a, next, busy); }
        else if th.at == STORE { StoreBgGood(c, h, a, next, busy); }
        else if th.at == FILL { FillBgGood(c, a, next, busy); }
        else if th.at == CLOSING { ClosingBgGood(c, h, next, busy); }
      }
    } else if th.at == START { StartGood(c, a, next, busy); }
    else if th.at == PASS { PassGood(c, a, next, busy); }
    else if th.at == LOOKING { LookingGood(c, a, next, busy); }
    else if th.at == CLOSE_FRESH { CloseFreshGood(c, th.back.h, next, busy); }
    else if th.at == READ_BACK { ReadBackGood(c, th.back.h, a, next, busy); }
    else if th.h.Ptr? { WithHandleGood(c, h, a, next, busy); }
  }

  lemma {:induction false} WithHandleGood(c: Client, h: Handle, a: Answer, next: Handle, busy: bool)
    requires ClientOK(c) && next !in c.handles && c.fg.h == Ptr(h)
    ensures Good(c, Fg, DecideWithHandle(c, h, a, next, busy), next, busy)
  {
    var at := c.fg.at;
    if at == AWAIT { AwaitGood(c, h, a, busy, next); }
    else if at == FIND { FindGood(c, h, a, next, busy); }
    else if at == SUGGEST { SuggestGood(c, h, a, next, busy); }
    else if at == HOOK { HookGood(c, a, next, busy); }
    else if at == DISPATCH { DispatchGood(c, a, next, busy); }
    else if at == BACKEND { BackendGood(c, h, a, next, busy); }
    else if at == PREPARE { PrepareGood(c, Fg, h, a, next, busy); }
    else if at == AFTER { AfterGood(c, Fg, h, a, next, busy); }
    else if at == FINALIZE { FinalizeGood(c, h, a, next, busy); }
    else if at == STORE { StoreGood(c, h, a, next, busy); }
    else if at == FILL { FillGood(c, a, next, busy); }
    else if at == RESPOND { RespondGood(c, a, next, busy); }
    else if at == CHOOSE_STALE { ChooseGood(c, h, a, next, busy); }
    else if at == FIND_STALE { FindStaleGood(c, h, a, next, busy); }
    else if at == CLOSING { ClosingGood(c, h, next, busy); }
  }

  // ---- one client in its world ------------------------------------------------------------------

  ghost predicate NoCommits(log: seq<Event>, hs: set<Handle>) {
    forall k :: 0 <= k < |log| ==> log[k].h in hs ==> !Commit(log[k].op)
  }

  ghost predicate VarInWorld(v: Var, held: bool, w: World) {
    v.Ptr? ==> v.h !in w.closed && v.h !in w.stranded && (held <==> w.holder == Some(v.h))
  }

  /** A client's variables say the truth about the host: its handles are open, and one holds the
      obligation exactly when the task thinks so. */
  ghost predicate InWorld(c: Client, w: World) {
    && (forall h :: h in c.handles ==> h < w.next)
    && VarInWorld(c.fg.h, c.fg.held, w) && VarInWorld(c.fg.back, false, w) && VarInWorld(c.bg.h, c.bg.held, w)
    && (Uncommitted(c) ==> NoCommits(w.log, c.handles))
    && (c.bgFailure.Error? ==> w.holder.Some? && w.holder.value in c.handles && w.stranded == {w.holder.value})
  }

  ghost predicate ClosedInLog(log: seq<Event>, h: Handle) {
    exists k :: 0 <= k < |log| && log[k].op == OpClose && log[k].h == h
  }

  /** After a close nothing is called on the handle again, a second close included. */
  ghost predicate NoUseAfterClose(log: seq<Event>) {
    forall j, k :: 0 <= j < k < |log| && log[j].op == OpClose ==> log[k].h != log[j].h
  }

  /** A storage, abandon or choose-stale call is only ever made by the holder of the obligation. */
  ghost predicate HolderCommits(log: seq<Event>) {
    forall k :: 0 <= k < |log| && (Commit(log[k].op) || log[k].op == OpChooseStale) ==> log[k].held
  }

  ghost predicate WorldOK(w: World) {
    && (w.holder.Some? ==> w.holder.value < w.next)
    && (w.stranded != {} ==> w.holder.Some? && w.stranded == {w.holder.value})
    && NoUseAfterClose(w.log) && HolderCommits(w.log)
    && (forall k :: 0 <= k < |w.log| ==> w.log[k].h < w.next)
    && (forall h :: ClosedInLog(w.log, h) ==> h in w.closed)
    && w.stranded !! w.closed
  }

  /** The event an effect appends, if any. */
  function EventOf(w: World, e: Effect): Option<Event> {
    match e
    case Keep => None
    case Call(op, h, ok) => Some(Event(op, h, w.holder == Some(h), ok))
    case Open => Some(Event(OpLookup, w.next, w.holder == Some(w.next), true))
    case Elect(h) => Some(Event(OpState, h, w.holder == Some(h), true))
    case Fulfil(op, h, _) => Some(Event(op, h, w.holder == Some(h), true))
    case Choose(h) => Some(Event(OpChooseStale, h, w.holder == Some(h), true))
    case Close(h) => Some(Event(OpClose, h, w.holder == Some(h), true))
    case Finish(h) => Some(Event(OpClose, h, w.holder == Some(h), true))
    case Spawn => None
    case Strand(h, call) => if call.Some? then Some(Event(call.value, h, w.holder == Some(h), false)) else None
  }

  lemma {:induction false} PerformLogs(w: World, e: Effect)
    ensures Perform(w, e).log == match EventOf(w, e) case None => w.log case Some(ev) => w.log + [ev]
    ensures Perform(w, e).closed == if e.Close? || e.Finish? then w.closed + {e.h} else w.closed
    ensures w.next <= Perform(w, e).next
  {
  }

  /** Logging one more event on an open handle keeps the log disciplined. */
  lemma {:induction false} LogGrows(log: seq<Event>, ev: Event, closed: set<Handle>, next: nat)
    requires NoUseAfterClose(log) && HolderCommits(log)
    requires forall h :: ClosedInLog(log, h) ==> h in closed
    requires forall k :: 0 <= k < |log| ==> log[k].h < next
    requires ev.h !in closed && ((Commit(ev.op) || ev.op == OpChooseStale) ==> ev.held)
    ensures NoUseAfterClose(log + [ev]) && HolderCommits(log + [ev])
    ensures forall h :: ClosedInLog(log + [ev], h) ==> h in closed || (h == ev.h && ev.op == OpClose)
  {
    var log' := log + [ev];
    forall j, k | 0 <= j < k < |log'| && log'[j].op == OpClose ensures log'[k].h != log'[j].h {
      if k == |log| {
        assert ClosedInLog(log, log[j].h);
      }
    }
    forall h | ClosedInLog(log', h) ensures h in closed || (h == ev.h && ev.op == OpClose) {
      var k :| 0 <= k < |log'| && log'[k].op == OpClose && log'[k].h == h;
      if k < |log| {
        assert ClosedInLog(log, h);
      }
    }
  }

  // ---- one step in the shared world -----------------------------------------------------------------

  ghost predicate GoodStep(c: Client, t: Task, v: Verdict, w: World) {
    && v.To? && ClientOK(c) && InWorld(c, w) && WorldOK(w)
    && Good(c, t, v, w.next, w.holder.Some?)
  }

  /** The handle an effect touches is one of the mover's own variables, and open. */
  lemma {:induction false} TouchesOwn(c: Client, t: Task, v: Verdict, w: World)
    requires GoodStep(c, t, v, w)
    ensures var ev := EventOf(w, v.e);
            ev.Some? ==>
              && (v.e.Open? || ev.value.h in c.handles) && ev.value.h in v.c.handles
              && (v.e.Open? || ev.value.h !in w.closed)
              && (Commit(ev.value.op) || ev.value.op == OpChooseStale ==> ev.value.held)
              && (Commit(ev.value.op) ==> !Uncommitted(v.c))
              && (ev.value.op == OpClose <==> v.e.Close? || v.e.Finish?)
  {
  }

  lemma {:induction false} WorldStays(c: Client, t: Task, v: Verdict, w: World)
    requires GoodStep(c, t, v, w) && forall h :: h in w.closed ==> h < w.next
    ensures var w' := Perform(w, v.e); WorldOK(w') && forall h :: h in w'.closed ==> h < w'.next
  {
    HolderStays(c, t, v, w);
    LogStays(c, t, v, w);
    EndsOwn(c, t, v, w);
    PerformLogs(w, v.e);
  }

  lemma {:induction false} LogStays(c: Client, t: Task, v: Verdict, w: World)
    requires GoodStep(c, t, v, w) && forall h :: h in w.closed ==> h < w.next
    ensures var w' := Perform(w, v.e);
            && NoUseAfterClose(w'.log) && HolderCommits(w'.log)
            && (forall k :: 0 <= k < |w'.log| ==> w'.log[k].h < w'.next)
            && (forall h :: ClosedInLog(w'.log, h) ==> h in w'.closed)
  {
    PerformLogs(w, v.e);
    TouchesOwn(c, t, v, w);
    var ev := EventOf(w, v.e);
    if ev.Some? {
      LogGrows(w.log, ev.value, w.closed, w.next);
    }
  }

  lemma {:induction false} HolderStays(c: Client, t: Task, v: Verdict, w: World)
    requires GoodStep(c, t, v, w)
    ensures var w' := Perform(w, v.e);
            && (w'.holder.Some? ==> w'.holder.value < w'.next)
            && (w'.stranded != {} ==> w'.holder.Some? && w'.stranded == {w'.holder.value})
            && w'.stranded !! w'.closed
  {
  }

  lemma {:induction false} MoverVars(c: Client, t: Task, v: Verdict, w: World)
    requires GoodStep(c, t, v, w) && forall h :: h in w.closed ==> h < w.next
    ensures var w' := Perform(w, v.e);
            && (forall h :: h in v.c.handles ==> h < w'.next)
            && VarInWorld(ThreadOf(v.c, t).h, ThreadOf(v.c, t).held, w')
            && VarInWorld(ThreadOf(v.c, t).back, false, w')
  {
    PerformLogs(w, v.e);
  }

  lemma {:induction false} MoverStays(c: Client, t: Task, v: Verdict, w: World)
    requires GoodStep(c, t, v, w) && forall h :: h in w.closed ==> h < w.next
    ensures InWorld(v.c, Perform(w, v.e))
  {
    MoverVars(c, t, v, w);
    MoverOther(c, t, v, w);
    MoverLog(c, t, v, w);
    MoverFailure(c, t, v, w);
  }

  /** The mover's other task has no handle, or has just been given the mover's. */
  lemma {:induction false} MoverOther(c: Client, t: Task, v: Verdict, w: World)
    requires GoodStep(c, t, v, w)
    ensures var w' := Perform(w, v.e);
            if t.Fg? then VarInWorld(v.c.bg.h, v.c.bg.held, w')
            else v.c.fg.h.Nil? && v.c.fg.back.Nil?
  {
  }

  lemma {:induction false} MoverLog(c: Client, t: Task, v: Verdict, w: World)
    requires GoodStep(c, t, v, w)
    ensures Uncommitted(v.c) ==> NoCommits(Perform(w, v.e).log, v.c.handles)
  {
    PerformLogs(w, v.e);
    TouchesOwn(c, t, v, w);
  }

  lemma {:induction false} MoverFailure(c: Client, t: Task, v: Verdict, w: World)
    requires GoodStep(c, t, v, w)
    ensures var w' := Perform(w, v.e);
            v.c.bgFailure.Error? ==> w'.holder.Some? && w'.holder.value in v.c.handles
                                     && w'.stranded == {w'.holder.value}
  {
  }

  /** A step of one client leaves every other client's picture of the host true. */
  lemma {:induction false} OtherStays(d: Client, c: Client, t: Task, v: Verdict, w: World)
    requires GoodStep(c, t, v, w) && ClientOK(d) && InWorld(d, w) && d.handles !! c.handles
    ensures InWorld(d, Perform(w, v.e)) && d.handles !! v.c.handles
  {
    OtherVar(d.fg.h, d.fg.held, d.handles, c, t, v, w);
    OtherVar(d.fg.back, false, d.handles, c, t, v, w);
    OtherVar(d.bg.h, d.bg.held, d.handles, c, t, v, w);
    OtherFailure(d, c, t, v, w);
    OtherLog(d, c, t, v, w);
  }

  lemma {:induction false} OtherLog(d: Client, c: Client, t: Task, v: Verdict, w: World)
    requires GoodStep(c, t, v, w) && InWorld(d, w) && d.handles !! c.handles
    ensures d.handles !! v.c.handles
    ensures var w' := Perform(w, v.e);
            && (Uncommitted(d) ==> NoCommits(w'.log, d.handles))
            && (forall h :: h in d.handles ==> h < w'.next)
  {
    PerformLogs(w, v.e);
    TouchesOwn(c, t, v, w);
    assert v.c.handles <= c.handles + {w.next};
  }

  lemma {:induction false} OtherVar(x: Var, held: bool, hs: set<Handle>, c: Client, t: Task, v: Verdict, w: World)
    requires GoodStep(c, t, v, w) && VarInWorld(x, held, w)
    requires (x.Ptr? ==> x.h in hs) && hs !! c.handles && forall h :: h in hs ==> h < w.next
    ensures VarInWorld(x, held, Perform(w, v.e))
  {
    PerformLogs(w, v.e);
  }

  lemma {:induction false} OtherFailure(d: Client, c: Client, t: Task, v: Verdict, w: World)
    requires GoodStep(c, t, v, w) && InWorld(d, w) && d.handles !! c.handles
    ensures var w' := Perform(w, v.e);
            d.bgFailure.Error? ==> w'.holder.Some? && w'.holder.value in d.handles && w'.stranded == {w'.holder.value}
  {
  }

  // ---- no handle is forgotten by accident ---------------------------------------------------------

  ghost predicate Owns(c: Client, h: Handle) { c.fg.h == Ptr(h) || c.fg.back == Ptr(h) || c.bg.h == Ptr(h) }

  /** Every handle a client was ever given is closed, still owned, stranded, or the one it forgot. */
  ghost predicate Accounted(c: Client, w: World) {
    && (forall h :: h in c.handles ==> h in w.closed || Owns(c, h) || h in w.stranded || Forgets(c, h))
    && (forall h :: Forgets(c, h) ==> h !in w.closed && h !in w.stranded)
  }

  lemma {:induction false} OwnsStays(c: Client, t: Task, v: Verdict, w: World, h: Handle)
    requires GoodStep(c, t, v, w) && Owns(c, h)
    ensures var w' := Perform(w, v.e); h in w'.closed || Owns(v.c, h) || h in w'.stranded || Forgets(v.c, h)
  {
    PerformLogs(w, v.e);
  }

  lemma {:induction false} AccountedStays(c: Client, t: Task, v: Verdict, w: World)
    requires GoodStep(c, t, v, w) && Accounted(c, w)
    ensures Accounted(v.c, Perform(w, v.e))
  {
    var w' := Perform(w, v.e);
    PerformLogs(w, v.e);
    StrandedGrows(w, v.e);
    forall h | h in v.c.handles ensures h in w'.closed || Owns(v.c, h) || h in w'.stranded || Forgets(v.c, h) {
      if h in c.handles {
        NothingForgottenBefore(c, t, v, w, h);
        if Owns(c, h) { OwnsStays(c, t, v, w, h); }
      }
    }
    forall h | Forgets(v.c, h) ensures h !in w'.closed && h !in w'.stranded {
      ForgottenOpen(c, t, v, w, h);
    }
  }

  lemma {:induction false} StrandedGrows(w: World, e: Effect)
    ensures w.stranded <= Perform(w, e).stranded
  {
  }

  /** A client that has forgotten its handle has ended, so it does not move. */
  lemma {:induction false} NothingForgottenBefore(c: Client, t: Task, v: Verdict, w: World, h: Handle)
    requires GoodStep(c, t, v, w)
    ensures !Forgets(c, h)
  {
    if Forgets(c, h) { assert false; }
  }

  lemma {:induction false} ForgottenOpen(c: Client, t: Task, v: Verdict, w: World, h: Handle)
    requires GoodStep(c, t, v, w) && Forgets(v.c, h)
    ensures h !in Perform(w, v.e).closed && h !in Perform(w, v.e).stranded
  {
    PerformLogs(w, v.e);
  }

  lemma {:induction false} OtherAccounted(d: Client, c: Client, t: Task, v: Verdict, w: World)
    requires GoodStep(c, t, v, w) && Shape(d) && Accounted(d, w) && d.handles !! c.handles
    ensures Accounted(d, Perform(w, v.e))
  {
    PerformLogs(w, v.e);
    StrandedGrows(w, v.e);
    EndsOwn(c, t, v, w);
  }

  /** A step closes or strands only a handle of its own client. */
  lemma {:induction false} EndsOwn(c: Client, t: Task, v: Verdict, w: World)
    requires GoodStep(c, t, v, w)
    ensures var w' := Perform(w, v.e); w'.closed <= w.closed + c.handles && w'.stranded <= w.stranded + c.handles
  {
    PerformLogs(w, v.e);
  }
}
