/** The guest-cache send, told in the order of the source: what it returns is a function of the answers it gets. */
module GuestCacheReplies {
  import opened Text
  import opened GuestCache
  import opened GuestCacheProof
  import opened GuestCacheRuns
  import opened GuestCacheTruth
  import opened GuestCacheAnswers

  // ---- the reply, without tasks, handles or program points ----------------------------------------

  function Stops(d: Told, at: Point, site: Site): Fault {
    if IsFailure(Said(d, at)) then Error(site, Said(d, at).value.code) else NoError
  }

  function Then(e: Fault, out: Outcome): Outcome { if e.Error? then Failed(e) else out }

  /** What sendWithGuestCache returns to a client with this key and these hooks. */
  function Reply(keyLen: nat, hasBefore: bool, hasAfter: bool, d: Told): Outcome {
    Then(Stops(d, START, IsCacheable),
         if Said(d, START) == Some(No) then PassReply(d)
         else if keyLen != 0 && keyLen != 32 then Failed(Error(BadKey, keyLen))
         else Then(Stops(d, LOOKING, LookupFailed), Then(Stops(d, AWAIT, GetState),
                   if Said(d, AWAIT).Some? && Said(d, AWAIT).value.State?
                   then LookupReply(hasBefore, hasAfter, Said(d, AWAIT).value.st, d)
                   else Pending)))
  }

  function PassReply(d: Told): Outcome {
    Then(Stops(d, PASS, UncachedSend), Served(Response(Origin, 0, NotMasked)))
  }

  /** With the state of its transaction, and perhaps an entry: whoever must revalidate does. */
  function LookupReply(hasBefore: bool, hasAfter: bool, st: Lookup, d: Told): Outcome {
    Then(Stops(d, FIND, FoundResponse),
         if st.must then SentReply(hasBefore, hasAfter, st, d)
         else if Said(d, FIND) == Some(Fine) then EntryReply(st)
         else PassReply(d))
  }

  function EntryReply(st: Lookup): Outcome {
    Served(Response(CacheEntry, 0xffff, if st.usableIfError then Collapse else NotMasked))
  }

  /** Once the request is on its way an entry is served; without one, the send waits for the candidate. */
  function SentReply(hasBefore: bool, hasAfter: bool, st: Lookup, d: Told): Outcome {
    Then(Stops(d, SUGGEST, SuggestRequest), Then(BeforeFails(d, hasBefore), Then(Stops(d, DISPATCH, SendAsync),
         if Said(d, FIND) == Some(Fine) then EntryReply(st)
         else if NoCandidate(d, hasAfter).NoError? then CandidateReply(hasAfter, d)
         else if st.usableIfError then StaleReply(NoCandidate(d, hasAfter), d)
         else Failed(NoCandidate(d, hasAfter)))))
  }

  /** The entry in place of the failure; the error of choose_stale is ignored, so there may be none. */
  function StaleReply(masked: Fault, d: Told): Outcome {
    Then(Stops(d, FIND_STALE, FoundResponse),
         if Said(d, FIND_STALE) == Some(Fine) then Served(Response(CacheEntry, 0xffff, Cause(masked))) else Panicked)
  }

  /** Storing what was decided, and reading it back. */
  function CandidateReply(hasAfter: bool, d: Told): Outcome {
    if WasApproved(d, hasAfter) then
      Then(Stops(d, FINALIZE, FinalizeOptions), Then(Stops(d, STORE, StoreCall),
           StoredReply(OpDecided(d, hasAfter), d)))
    else Pending
  }

  function StoredReply(op: Op, d: Told): Outcome {
    match op
    case OpInsert => Then(Stops(d, FILL, FillBody), Then(Stops(d, READ_BACK, FoundResponse),
                          Served(Response(Origin, 0, NotMasked))))
    case OpUpdate => Then(Stops(d, READ_BACK, FoundResponse), Served(Response(Origin, 1, NotMasked)))
    case OpAbandon => Then(Stops(d, RESPOND, NewResponse), Served(Response(Origin, 2, NotMasked)))
    case _ => Then(Stops(d, RESPOND, NewResponse), Served(Response(Origin, 3, NotMasked)))
  }

  function ReplyTo(c: Client, d: Told): Outcome { Reply(c.keyLen, c.hasBefore, c.hasAfter, d) }

  // ---- how far a send has come ----------------------------------------------------------------------

  ghost predicate Well(d: Told, at: Point) { Said(d, at) == Some(Fine) }

  ghost predicate LooksUp(d: Told) { Said(d, START) == Some(Yes) }

  ghost predicate HasLooked(c: Client, d: Told) {
    LooksUp(d) && (c.keyLen == 0 || c.keyLen == 32) && Well(d, LOOKING)
  }

  ghost predicate HasState(c: Client, d: Told) { HasLooked(c, d) && Said(d, AWAIT) == Some(State(c.st)) }

  ghost predicate HasFound(c: Client, d: Told) {
    HasState(c, d) && (Well(d, FIND) || Said(d, FIND) == Some(Nothing))
  }

  ghost predicate Suggested(c: Client, d: Told) { HasFound(c, d) && c.st.must && Well(d, SUGGEST) }

  ghost predicate Consented(c: Client, d: Told) { Suggested(c, d) && (c.hasBefore ==> Well(d, HOOK)) }

  ghost predicate Dispatched(c: Client, d: Told) { Consented(c, d) && Well(d, DISPATCH) }

  ghost predicate Waits(c: Client, d: Told) { Dispatched(c, d) && Said(d, FIND) == Some(Nothing) }

  ghost predicate Prepares(c: Client, d: Told) { Waits(c, d) && Well(d, BACKEND) }

  ghost predicate HasCandidate(c: Client, d: Told) {
    Prepares(c, d) && NoCandidate(d, c.hasAfter).NoError? && WasApproved(d, c.hasAfter)
  }

  ghost predicate Stores(c: Client, d: Told) { HasCandidate(c, d) && Well(d, FINALIZE) }

  ghost predicate HasStored(c: Client, d: Told, op: Op) {
    Stores(c, d) && Well(d, STORE) && OpDecided(d, c.hasAfter) == op
  }

  /** The answers so far, at the point where the foreground is. */
  ghost predicate OnPath(c: Client, d: Told) {
    var at := c.fg.at;
    && (at == PASS ==>
          Said(d, START) == Some(No) || (HasState(c, d) && !c.st.must && Said(d, FIND) == Some(Nothing)))
    && (at == LOOKING ==> LooksUp(d)) && (at == AWAIT ==> HasLooked(c, d)) && (at == FIND ==> HasState(c, d))
    && (at == SUGGEST ==> HasFound(c, d) && c.st.must) && (at == HOOK ==> Suggested(c, d))
    && (at == DISPATCH ==> Consented(c, d)) && (at == BACKEND ==> Waits(c, d))
    && (at == PREPARE ==> Prepares(c, d)) && (at == AFTER ==> Prepares(c, d) && WasPrepared(d))
    && (at == FINALIZE ==> HasCandidate(c, d)) && (at == STORE ==> Stores(c, d))
    && (at == FILL ==> HasStored(c, d, OpInsert))
    && (at == READ_BACK ==> (HasStored(c, d, OpInsert) && Well(d, FILL)) || HasStored(c, d, OpUpdate))
    && (at == RESPOND ==> HasStored(c, d, OpAbandon) || HasStored(c, d, OpRecord))
    && (at == CHOOSE_STALE || at == FIND_STALE ==>
          Waits(c, d) && c.st.usableIfError && NoCandidate(d, c.hasAfter) == c.fgFailure && c.fgFailure.Error?)
  }

  ghost predicate ActionIs(c: Client, d: Told) {
    && (c.fg.at == FILL ==> c.fg.action == 0)
    && (c.fg.at == READ_BACK || c.fg.at == RESPOND ==>
          HasStored(c, d, OpOf(c.fg.action)))
  }

  /** A decided outcome is the reply, and no background answer will change it. */
  ghost predicate Follows(c: Client, d: Told) {
    && (if c.fg.out.Pending? then OnPath(c, d) && ActionIs(c, d) else c.fg.out == ReplyTo(c, d))
    && (c.bg.at > IDLE ==> Dispatched(c, d) && Well(d, FIND))
    && (STORE <= c.bg.at <= PREPARE ==> Well(d, BACKEND)) && (c.bg.at == STORE ==> Well(d, FINALIZE))
  }

  ghost predicate StepFollows(c: Client, at: Point, a: Answer, v: Verdict, d: Told) {
    v.To? ==> Follows(v.c, d[at := a])
  }

  // ---- every program point ---------------------------------------------------------------------------

  lemma {:induction false} StartFollows(c: Client, a: Answer, d: Told, stored: seq<Op>)
    requires ClientOK(c) && True(c, d, stored) && Follows(c, d) && c.fg.at == START
    ensures StepFollows(c, START, a, DecideStart(c, a), d)
  {
  }

  lemma {:induction false} PassFollows(c: Client, a: Answer, d: Told, stored: seq<Op>)
    requires ClientOK(c) && True(c, d, stored) && Follows(c, d) && c.fg.at == PASS
    ensures StepFollows(c, PASS, a, DecidePass(c, a), d)
  {
  }

  lemma {:induction false} LookingFollows(c: Client, a: Answer, next: Handle, d: Told, stored: seq<Op>)
    requires ClientOK(c) && True(c, d, stored) && Follows(c, d) && c.fg.at == LOOKING
    ensures StepFollows(c, LOOKING, a, DecideLooking(c, a, next), d)
  {
  }

  lemma {:induction false} AwaitFollows(c: Client, h: Handle, a: Answer, busy: bool, d: Told, stored: seq<Op>)
    requires ClientOK(c) && True(c, d, stored) && Follows(c, d) && c.fg.at == AWAIT
    ensures StepFollows(c, AWAIT, a, DecideAwait(c, h, a, busy), d)
  {
  }

  lemma {:induction false} FindFollows(c: Client, h: Handle, a: Answer, d: Told, stored: seq<Op>)
    requires ClientOK(c) && True(c, d, stored) && Follows(c, d) && c.fg.at == FIND
    ensures StepFollows(c, FIND, a, DecideFind(c, h, a), d)
  {
  }

  lemma {:induction false} SuggestFollows(c: Client, h: Handle, a: Answer, d: Told, stored: seq<Op>)
    requires ClientOK(c) && True(c, d, stored) && Follows(c, d) && c.fg.at == SUGGEST
    ensures StepFollows(c, SUGGEST, a, DecideSuggest(c, h, a), d)
  {
  }

  lemma {:induction false} HookFollows(c: Client, a: Answer, d: Told, stored: seq<Op>)
    requires ClientOK(c) && True(c, d, stored) && Follows(c, d) && c.fg.at == HOOK
    ensures StepFollows(c, HOOK, a, DecideHook(c, a), d)
  {
  }

  lemma {:induction false} DispatchFollows(c: Client, a: Answer, d: Told, stored: seq<Op>)
    requires ClientOK(c) && True(c, d, stored) && Follows(c, d) && c.fg.at == DISPATCH
    ensures StepFollows(c, DISPATCH, a, DecideDispatch(c, a), d)
  {
  }

  lemma {:induction false} BackendFollows(c: Client, h: Handle, a: Answer, d: Told, stored: seq<Op>)
    requires ClientOK(c) && True(c, d, stored) && Follows(c, d) && c.fg.at == BACKEND
    ensures StepFollows(c, BACKEND, a, DecideBackend(c, Fg, h, a), d)
  {
  }

  lemma {:induction false} PrepareFollows(c: Client, h: Handle, a: Answer, d: Told, stored: seq<Op>)
    requires ClientOK(c) && True(c, d, stored) && Follows(c, d) && c.fg.at == PREPARE
    ensures StepFollows(c, PREPARE, a, DecidePrepare(c, Fg, h, a), d)
  {
  }

  lemma {:induction false} AfterFollows(c: Client, h: Handle, a: Answer, d: Told, stored: seq<Op>)
    requires ClientOK(c) && True(c, d, stored) && Follows(c, d) && c.fg.at == AFTER
    ensures StepFollows(c, AFTER, a, DecideAfter(c, Fg, h, a), d)
  {
  }

  lemma {:induction false} FinalizeFollows(c: Client, h: Handle, a: Answer, d: Told, stored: seq<Op>)
    requires ClientOK(c) && True(c, d, stored) && Follows(c, d) && c.fg.at == FINALIZE
    ensures StepFollows(c, FINALIZE, a, DecideFinalize(c, Fg, h, a), d)
  {
  }

  lemma {:induction false} StoreFailsFollows(c: Client, h: Handle, a: Answer, d: Told, stored: seq<Op>)
    requires ClientOK(c) && True(c, d, stored) && Follows(c, d) && c.fg.at == STORE && a.Fails?
    ensures StepFollows(c, STORE, a, To(Fail(c, Fg, StoreCall, a.code), Call(OpOf(c.fg.action), h, false)), d)
  {
  }

  lemma {:induction false} StoredFollows(c: Client, h: Handle, next: Handle, d: Told, stored: seq<Op>)
    requires ClientOK(c) && True(c, d, stored) && Follows(c, d) && c.fg.at == STORE
    ensures StepFollows(c, STORE, Fine, DecideStore(c, h, Fine, next), d)
  {
    StoredWell(c, d, OpOf(c.fg.action));
  }

  lemma {:induction false} StoredWell(c: Client, d: Told, op: Op)
    requires Stores(c, d) && OpDecided(d, c.hasAfter) == op
    ensures HasStored(c, d[STORE := Fine], op)
  {
  }

  lemma {:induction false} StoreFollows(c: Client, h: Handle, a: Answer, next: Handle, d: Told, stored: seq<Op>)
    requires ClientOK(c) && True(c, d, stored) && Follows(c, d) && c.fg.at == STORE
    ensures StepFollows(c, STORE, a, DecideStore(c, h, a, next), d)
  {
    if a.Fails? { StoreFailsFollows(c, h, a, d, stored); } else if a.Fine? { StoredFollows(c, h, next, d, stored); }
  }

  lemma {:induction false} FillFollows(c: Client, a: Answer, d: Told, stored: seq<Op>)
    requires ClientOK(c) && True(c, d, stored) && Follows(c, d) && c.fg.at == FILL
    ensures StepFollows(c, FILL, a, DecideFill(c, a), d)
  {
  }

  lemma {:induction false} ReadBackFollows(c: Client, h: Handle, a: Answer, d: Told, stored: seq<Op>)
    requires ClientOK(c) && True(c, d, stored) && Follows(c, d) && c.fg.at == READ_BACK
    ensures StepFollows(c, READ_BACK, a, DecideReadBack(c, h, a), d)
  {
  }

  lemma {:induction false} RespondFollows(c: Client, a: Answer, d: Told, stored: seq<Op>)
    requires ClientOK(c) && True(c, d, stored) && Follows(c, d) && c.fg.at == RESPOND
    ensures StepFollows(c, RESPOND, a, DecideRespond(c, a), d)
  {
  }

  lemma {:induction false} ChooseFollows(c: Client, h: Handle, a: Answer, d: Told, stored: seq<Op>)
    requires ClientOK(c) && True(c, d, stored) && Follows(c, d) && c.fg.at == CHOOSE_STALE
    ensures StepFollows(c, CHOOSE_STALE, a, DecideChoose(c, h, a), d)
  {
  }

  lemma {:induction false} FindStaleFollows(c: Client, h: Handle, a: Answer, d: Told, stored: seq<Op>)
    requires ClientOK(c) && True(c, d, stored) && Follows(c, d) && c.fg.at == FIND_STALE
    ensures StepFollows(c, FIND_STALE, a, DecideFindStale(c, h, a), d)
  {
  }

  /** The closes are not answered. */
  lemma {:induction false} ClosesDoNotMatter(c: Client, d: Told, at: Point, a: Answer)
    requires at == CLOSE_FRESH || at == CLOSING
    ensures ReplyTo(c, d[at := a]) == ReplyTo(c, d)
    ensures Dispatched(c, d) && Well(d, FIND) ==> Dispatched(c, d[at := a]) && Well(d[at := a], FIND)
  {
    SameReply(c, d, d[at := a]);
  }

  /** The answers of the foreground are all that counts. */
  lemma {:induction false} SameReply(c: Client, d: Told, d': Told)
    requires forall p :: p >= PASS ==> Said(d', p) == Said(d, p)
    ensures ReplyTo(c, d') == ReplyTo(c, d)
  {
    SameCandidateReply(c.hasAfter, d, d');
    assert forall p, site :: p >= PASS ==> Stops(d', p, site) == Stops(d, p, site);
  }

  lemma {:induction false} SameCandidateReply(hasAfter: bool, d: Told, d': Told)
    requires forall p :: p >= PASS ==> Said(d', p) == Said(d, p)
    ensures NoCandidate(d', hasAfter) == NoCandidate(d, hasAfter)
    ensures CandidateReply(hasAfter, d') == CandidateReply(hasAfter, d)
  {
    assert forall p, site :: p >= PASS ==> Stops(d', p, site) == Stops(d, p, site);
    assert Said(d', PREPARE) == Said(d, PREPARE) && Said(d', AFTER) == Said(d, AFTER);
    if WasApproved(d, hasAfter) { SameStoredReply(OpDecided(d, hasAfter), d, d'); }
  }

  lemma {:induction false} SameStoredReply(op: Op, d: Told, d': Told)
    requires forall p :: p >= PASS ==> Said(d', p) == Said(d, p)
    ensures StoredReply(op, d') == StoredReply(op, d)
  {
  }

  lemma {:induction false} CloseFreshFollows(c: Client, h: Handle, a: Answer, d: Told, stored: seq<Op>)
    requires ClientOK(c) && True(c, d, stored) && Follows(c, d) && c.fg.at == CLOSE_FRESH
    ensures StepFollows(c, CLOSE_FRESH, a, DecideCloseFresh(c, h), d)
  {
    ClosesDoNotMatter(c, d, CLOSE_FRESH, a);
  }

  lemma {:induction false} ClosingFollows(c: Client, h: Handle, a: Answer, d: Told, stored: seq<Op>)
    requires ClientOK(c) && True(c, d, stored) && Follows(c, d) && c.fg.at == CLOSING
    ensures StepFollows(c, CLOSING, a, DecideClosing(c, Fg, h), d)
  {
    ClosesDoNotMatter(c, d, CLOSING, a);
  }

  // ---- the background -----------------------------------------------------------------------------------

  /** The entry was served as soon as the request was on its way. */
  lemma {:induction false} EntryWasServed(c: Client, d: Told)
    requires Dispatched(c, d) && Well(d, FIND)
    ensures ReplyTo(c, d) == EntryReply(c.st)
  {
  }

  lemma {:induction false} StaysDispatched(c: Client, c': Client, at: Point, a: Answer, d: Told)
    requires Dispatched(c, d) && SameSetup(c, c') && c'.st == c.st && at < DISPATCH
    ensures Dispatched(c', d[at := a])
  {
    var d' := d[at := a];
    assert Said(d', START) == Said(d, START) && Said(d', LOOKING) == Said(d, LOOKING);
    assert Said(d', AWAIT) == Said(d, AWAIT) && Said(d', FIND) == Said(d, FIND);
    assert Said(d', SUGGEST) == Said(d, SUGGEST) && Said(d', HOOK) == Said(d, HOOK);
    assert Said(d', DISPATCH) == Said(d, DISPATCH);
  }

  lemma {:induction false} BackgroundBackend(c: Client, h: Handle, a: Answer, v: Verdict)
    requires c.bg.at == BACKEND && v == DecideBackend(c, Bg, h, a) && v.To? && v.c.bg.at >= STORE
    ensures a == Fine && v.c.bg.at == PREPARE
  {
  }

  lemma {:induction false} BackgroundFinalize(c: Client, h: Handle, a: Answer, v: Verdict)
    requires c.bg.at == FINALIZE && v == DecideFinalize(c, Bg, h, a) && v.To? && v.c.bg.at >= STORE
    ensures a == Fine && v.c.bg.at == STORE
  {
  }

  lemma {:induction false} BackgroundBetween(c: Client, h: Handle, a: Answer, v: Verdict)
    requires c.bg.at == PREPARE || c.bg.at == AFTER
    requires v == if c.bg.at == PREPARE then DecidePrepare(c, Bg, h, a) else DecideAfter(c, Bg, h, a)
    requires v.To?
    ensures v.c.bg.at != STORE
  {
  }

  lemma {:induction false} BackgroundPath(c: Client, a: Answer, next: Handle, busy: bool, d: Told)
    requires ClientOK(c) && Follows(c, d) && c.bg.at > IDLE
    ensures var v := Decide(c, Bg, a, next, busy);
            v.To? && GoodShape(c, v) && v.c.fg == c.fg ==>
              && (STORE <= v.c.bg.at <= PREPARE ==> Well(d[c.bg.at := a], BACKEND))
              && (v.c.bg.at == STORE ==> Well(d[c.bg.at := a], FINALIZE))
  {
    var v := Decide(c, Bg, a, next, busy);
    var h := if c.bg.h.Ptr? then c.bg.h.h else 0;
    if v.To? && GoodShape(c, v) && v.c.fg == c.fg && v.c.bg.at >= STORE {
      if c.bg.at == BACKEND { BackgroundBackend(c, h, a, v); }
      else if c.bg.at == FINALIZE { BackgroundFinalize(c, h, a, v); }
      else if c.bg.at == PREPARE || c.bg.at == AFTER { BackgroundBetween(c, h, a, v); }
    }
  }

  lemma {:induction false} BackgroundFollows(
    c: Client, a: Answer, next: Handle, busy: bool, d: Told, stored: seq<Op>)
    requires ClientOK(c) && Tells(c, stored) && True(c, d, stored) && Follows(c, d) && next !in c.handles
    ensures StepFollows(c, c.bg.at, a, Decide(c, Bg, a, next, busy), d)
  {
    var v := Decide(c, Bg, a, next, busy);
    DecideTrue(c, Bg, a, next, busy, d, stored);
    DecideGood(c, Bg, a, next, busy);
    if v.To? {
      BackgroundPath(c, a, next, busy, d);
      StaysDispatched(c, v.c, c.bg.at, a, d);
      EntryWasServed(c, d);
      EntryWasServed(v.c, d[c.bg.at := a]);
    }
  }

  // ---- all points, over whole runs -----------------------------------------------------------------------

  lemma {:induction false} DecideFollows(
    c: Client, t: Task, a: Answer, next: Handle, busy: bool, d: Told, stored: seq<Op>)
    requires ClientOK(c) && Tells(c, stored) && True(c, d, stored) && Follows(c, d) && next !in c.handles
    ensures StepFollows(c, ThreadOf(c, t).at, a, Decide(c, t, a, next, busy), d)
  {
    var th := c.fg;
    if t.Bg? {
      BackgroundFollows(c, a, next, busy, d, stored);
    } else if th.at == START { StartFollows(c, a, d, stored); }
    else if th.at == PASS { PassFollows(c, a, d, stored); }
    else if th.at == LOOKING { LookingFollows(c, a, next, d, stored); }
    else if th.at == CLOSE_FRESH { CloseFreshFollows(c, th.back.h, a, d, stored); }
    else if th.at == READ_BACK { ReadBackFollows(c, th.back.h, a, d, stored); }
    else if th.h.Ptr? { WithHandleFollows(c, th.h.h, a, next, busy, d, stored); }
  }

  lemma {:induction false} WithHandleFollows(
    c: Client, h: Handle, a: Answer, next: Handle, busy: bool, d: Told, stored: seq<Op>)
    requires ClientOK(c) && True(c, d, stored) && Follows(c, d) && c.fg.h == Ptr(h)
    ensures StepFollows(c, c.fg.at, a, DecideWithHandle(c, h, a, next, busy), d)
  {
    var at := c.fg.at;
    if at == AWAIT { AwaitFollows(c, h, a, busy, d, stored); }
    else if at == FIND { FindFollows(c, h, a, d, stored); }
    else if at == SUGGEST { SuggestFollows(c, h, a, d, stored); }
    else if at == HOOK { HookFollows(c, a, d, stored); }
    else if at == DISPATCH { DispatchFollows(c, a, d, stored); }
    else { CandidateFollows(c, h, a, next, busy, d, stored); }
  }

  lemma {:induction false} CandidateFollows(
    c: Client, h: Handle, a: Answer, next: Handle, busy: bool, d: Told, stored: seq<Op>)
    requires ClientOK(c) && True(c, d, stored) && Follows(c, d) && c.fg.h == Ptr(h) && c.fg.at < DISPATCH
    ensures StepFollows(c, c.fg.at, a, DecideWithHandle(c, h, a, next, busy), d)
  {
    var at := c.fg.at;
    if at == BACKEND { BackendFollows(c, h, a, d, stored); }
    else if at == PREPARE { PrepareFollows(c, h, a, d, stored); }
    else if at == AFTER { AfterFollows(c, h, a, d, stored); }
    else if at == FINALIZE { FinalizeFollows(c, h, a, d, stored); }
    else if at == STORE { StoreFollows(c, h, a, next, d, stored); }
    else if at == FILL { FillFollows(c, a, d, stored); }
    else if at == RESPOND { RespondFollows(c, a, d, stored); }
    else if at == CHOOSE_STALE { ChooseFollows(c, h, a, d, stored); }
    else if at == FIND_STALE { FindStaleFollows(c, h, a, d, stored); }
    else if at == CLOSING { ClosingFollows(c, h, a, d, stored); }
  }

  /** The point that comes next: every answer so far was given at a later one. */
  function Front(c: Client): Point { if c.bg.at > IDLE then c.bg.at else c.fg.at }

  ghost predicate Ordered(c: Client, d: Told) { forall p :: p in d ==> p > Front(c) }

  lemma {:induction false} FrontFalls(c: Client, t: Task, a: Answer, next: Handle, busy: bool, d: Told)
    requires ClientOK(c) && Ordered(c, d) && next !in c.handles
    ensures var v := Decide(c, t, a, next, busy);
            v.To? ==> ThreadOf(c, t).at == Front(c) && Ordered(v.c, d[Front(c) := a])
  {
    var v := Decide(c, t, a, next, busy);
    DecideGood(c, t, a, next, busy);
    if v.To? {
      BackgroundLives(c, a, next, busy);
      FrontMoves(c, t, v, next, busy);
    }
  }

  lemma {:induction false} BackgroundLives(c: Client, a: Answer, next: Handle, busy: bool)
    requires Shape(c)
    ensures Decide(c, Bg, a, next, busy).To? ==> c.bg.at > DONE
  {
  }

  lemma {:induction false} FrontMoves(c: Client, t: Task, v: Verdict, next: Handle, busy: bool)
    requires ClientOK(c) && v.To? && GoodShape(c, v) && GoodEffect(c, t, v, next, busy)
    requires t.Bg? ==> c.bg.at > DONE
    ensures Front(v.c) < ThreadOf(c, t).at == Front(c)
  {
  }

  /** Nothing is stored unless every answer before it was a good one. */
  ghost predicate Earned(c: Client, d: Told) {
    STORE in d ==> Dispatched(c, d) && Well(d, BACKEND) && Well(d, FINALIZE)
  }

  lemma {:induction false} StoringIsEarned(c: Client, d: Told)
    requires Follows(c, d) && ClientOK(c) && Front(c) == STORE
    ensures Dispatched(c, d) && Well(d, BACKEND) && Well(d, FINALIZE)
  {
  }

  lemma {:induction false} EarnedStays(c: Client, c': Client, a: Answer, d: Told)
    requires ClientOK(c) && Follows(c, d) && Ordered(c, d) && Earned(c, d)
    requires SameSetup(c, c') && Recorded(c', d[Front(c) := a])
    ensures Earned(c', d[Front(c) := a])
  {
    var d' := d[Front(c) := a];
    if STORE in d' {
      if Front(c) == STORE { StoringIsEarned(c, d); }
      assert Front(c) <= STORE;
      assert Said(d', AWAIT) == Said(d, AWAIT) && c'.st == c.st;
      StaysDispatched(c, c', Front(c), a, d);
    }
  }

  ghost predicate Knows(c: Client, d: Told) { Follows(c, d) && Ordered(c, d) && Earned(c, d) }

  lemma {:induction false} MoveKnows(s: System, m: Move, d: Told)
    requires SystemOK(s) && AllTell(s) && Moves(s, m) && True(s.clients[m.i], d, StoredOf(s, m.i))
    requires Knows(s.clients[m.i], d)
    ensures |Next(s, m).clients| == |s.clients|
    ensures Knows(Next(s, m).clients[m.i], d[ThreadOf(s.clients[m.i], m.t).at := m.a])
  {
    var c := s.clients[m.i];
    var v := MoveIsGood(s, m);
    assert s.w.next !in c.handles;
    OwnMoveTrue(s, m, d);
    DecideFollows(c, m.t, m.a, s.w.next, s.w.holder.Some?, d, StoredOf(s, m.i));
    FrontFalls(c, m.t, m.a, s.w.next, s.w.holder.Some?, d);
    EarnedStays(c, v.c, m.a, d);
  }

  lemma {:induction false} RunKnows(s0: System, moves: seq<Move>, i: nat)
    requires Initial(s0) && i < |s0.clients|
    ensures TrueAfter(Run(s0, moves), s0, i, Heard(s0, moves, i))
    ensures Knows(Run(s0, moves).clients[i], Heard(s0, moves, i))
    decreases |moves|
  {
    RunTrue(s0, moves, i);
    if moves == [] {
      assert Fresh(s0.clients[i]);
    } else {
      var init, m := moves[..|moves| - 1], moves[|moves| - 1];
      RunKnows(s0, init, i);
      RunSnoc(s0, moves);
      NextKnows(Run(s0, init), s0, m, i, Heard(s0, init, i));
    }
  }

  lemma {:induction false} NextKnows(s: System, s0: System, m: Move, i: nat, d: Told)
    requires TrueAfter(s, s0, i, d) && i < |s.clients| && Knows(s.clients[i], d)
    ensures |Next(s, m).clients| == |s.clients|
    ensures Knows(Next(s, m).clients[i],
                  if Moves(s, m) && m.i == i then d[ThreadOf(s.clients[i], m.t).at := m.a] else d)
  {
    if Moves(s, m) {
      if m.i == i { MoveKnows(s, m, d); }
      else { var v := MoveIsGood(s, m); }
    }
  }

  /** In every run, whatever the other clients do in between, a send that has ended returns what the source
      would, told in its own order, from the answers this send got. */
  lemma {:induction false} RepliesAsTold(s: System, s0: System, moves: seq<Move>, i: nat)
    requires Reachable(s, s0, moves) && i < |s0.clients|
    ensures |s.clients| == |s0.clients|
    ensures s.clients[i].fg.at == DONE ==>
              var c0 := s0.clients[i];
              s.clients[i].fg.out == Reply(c0.keyLen, c0.hasBefore, c0.hasAfter, Heard(s0, moves, i))
  {
    RunKnows(s0, moves, i);
    var c := s.clients[i];
    if c.fg.at == DONE { assert ClientOK(c); }
  }

  /** The storage call, in the foreground or in the background, comes only after a lookup that elected the
      client, and after every step from there to the final options has succeeded. */
  lemma {:induction false} StoredOnlyIfAllWell(s: System, s0: System, moves: seq<Move>, i: nat)
    requires Reachable(s, s0, moves) && i < |s0.clients|
    ensures |s.clients| == |s0.clients|
    ensures StoredOf(s, i) != [] ==>
              var d := Heard(s0, moves, i);
              && Said(d, START) == Some(Yes) && Well(d, LOOKING)
              && (exists st: Lookup :: st.must && Said(d, AWAIT) == Some(State(st)))
              && (Well(d, FIND) || Said(d, FIND) == Some(Nothing)) && Well(d, SUGGEST)
              && (s0.clients[i].hasBefore ==> Well(d, HOOK)) && Well(d, DISPATCH) && Well(d, BACKEND)
              && Well(d, FINALIZE) && Well(d, STORE)
  {
    RunKnows(s0, moves, i);
    StoredAsDecided(s, s0, moves, i);
    var c, d := s.clients[i], Heard(s0, moves, i);
    if StoredOf(s, i) != [] {
      assert c.st.must && Said(d, AWAIT) == Some(State(c.st));
    }
  }
}
