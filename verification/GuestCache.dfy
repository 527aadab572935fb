/** The guest-cache send as a state machine: any number of clients of one cache key, each with a
    foreground task and possibly a background revalidation, interleaved at every host call. */
module GuestCache {
  import opened Text
  import Cand = Candidate

  type Handle = nat
  type Action = Cand.Action

  /** Where an error came from; the code is the host's or the hook's own. */
  datatype Site = IsCacheable | UncachedSend | BadKey | LookupFailed | GetState | FoundResponse
                | SuggestRequest | BeforeSend | SendAsync | BackendWait | PrepareStorage | AfterSend
                | FinalizeOptions | StoreCall | FillBody | NewResponse
  datatype Fault = NoError | Error(site: Site, code: int)

  /** The flags of cache_lookup_state. */
  datatype Lookup = Lookup(found: bool, usable: bool, stale: bool, must: bool, usableIfError: bool)

  /** storageAction of a response that was read from the cache; any other response has a real one,
      the zero value Insert included. */
  const NO_ACTION: Action := 0xffff

  datatype Masked = NotMasked | Collapse | Cause(e: Fault)
  datatype Source = CacheEntry | Origin
  datatype Response = Response(source: Source, storageAction: Action, masked: Masked)

  function WasWrittenToCache(r: Response): bool {
    r.storageAction == Cand.INSERT || r.storageAction == Cand.UPDATE
  }

  /** Response.FromCache. */
  function FromCache(r: Response): bool {
    !WasWrittenToCache(r) && r.storageAction != Cand.DO_NOT_STORE
    && r.storageAction != Cand.RECORD_UNCACHEABLE
  }

  /** `Pending` until decided; `Quiet` is a background task's, which nobody sees. */
  datatype Outcome = Pending | Served(r: Response) | Failed(e: Fault) | Panicked | Quiet

  /** A handle variable of the guest. */
  datatype Var = Nil | Ptr(h: Handle)

  /** Program points of sendWithGuestCache and its callees, numbered so that every step goes down. */
  type Point = nat
  const START: Point := 22          // is the request cacheable?
  const LOOKING: Point := 21        // key check and transaction lookup
  const AWAIT: Point := 20          // state of the transaction
  const FIND: Point := 19           // found response
  const SUGGEST: Point := 18        // sendAsyncForCaching: suggested backend request
  const HOOK: Point := 17           // BeforeSend
  const DISPATCH: Point := 16       // request options and asynchronous send
  const BACKEND: Point := 14        // waiting for the backend
  const PREPARE: Point := 13        // prepare response for storage
  const AFTER: Point := 12          // AfterSend
  const FINALIZE: Point := 11       // finalizeOptions
  const STORE: Point := 10          // the storage call
  const FILL: Point := 9            // filling an inserted body
  const READ_BACK: Point := 8       // reading the stored entry back
  const RESPOND: Point := 7         // building a response that is not stored
  const CHOOSE_STALE: Point := 6
  const FIND_STALE: Point := 5
  const PASS: Point := 4            // send without caching
  const CLOSE_FRESH: Point := 3     // deferred close of the fresh handle
  const CLOSING: Point := 2         // deferred close of the cache handle
  const DONE: Point := 1
  const IDLE: Point := 0            // no background task yet

  /** A task: where it is, the cache handle it must close (the deferred closer's variable), the fresh
      handle it reads an entry back from, whether the cache handle holds the obligation, the storage
      action once there is one, and the outcome once it is decided. */
  datatype Thread = Thread(
    at: Point, h: Var, back: Var, held: bool, action: Action, out: Outcome)

  const NOT_STARTED := Thread(START, Nil, Nil, false, 0, Pending)
  const NO_TASK := Thread(IDLE, Nil, Nil, false, 0, Pending)

  datatype Task = Fg | Bg

  datatype Client = Client(
    keyLen: nat, hasBefore: bool, hasAfter: bool,
    fg: Thread, bg: Thread,
    handles: set<Handle>,            // every handle ever given to this client
    lookup: Var,                     // the one its lookup was given
    looked: bool, st: Lookup,        // what its lookup said, once it has
    hit: bool,                       // a cached response was found and will be served
    chosen: bool,                    // choose_stale succeeded
    beforeRuns: nat, afterRuns: nat,
    beforeError: Fault,
    fgFailure: Fault, bgFailure: Fault)  // candidate failures

  datatype Op = OpLookup | OpState | OpFound | OpSuggest | OpPrepare | OpOptions
              | OpHook                        // the calls AfterSend makes through the candidate, if any
              | OpInsert | OpUpdate | OpAbandon | OpRecord | OpChooseStale | OpClose

  /** A host call on a handle: whether the handle held the obligation, and whether the call succeeded. */
  datatype Event = Event(op: Op, h: Handle, held: bool, ok: bool)

  predicate Commit(op: Op) { op == OpInsert || op == OpUpdate || op == OpAbandon || op == OpRecord }

  /** The host's side of one key, the wait group, and (for the proofs) the handles that a task dropped
      while they held the obligation. */
  datatype World = World(
    next: Handle, holder: Option<Handle>, closed: set<Handle>, log: seq<Event>,
    wg: int, stranded: set<Handle>)

  /** What the environment (host, backend, hooks) says to the task that moves. */
  datatype Answer =
    | Yes | No | Fine | Nothing
    | Fails(code: int)
    | State(st: Lookup)
    | Storage(action: Action, setCookie: bool)
    | Hooked(calls: seq<Cand.ActionCall>)

  // ---- the host's part -------------------------------------------------------------------

  /** What a step does outside its own client. */
  datatype Effect =
    | Keep                                    // nothing
    | Call(op: Op, h: Handle, ok: bool)       // a host call that leaves the obligation where it is
    | Open                                    // a lookup: the next handle is allocated
    | Elect(h: Handle)                        // the lookup's state comes with the obligation
    | Fulfil(op: Op, h: Handle, opens: bool)  // obligation fulfilled or abandoned, perhaps with a fresh handle
    | Choose(h: Handle)                       // obligation fulfilled by the stale entry
    | Close(h: Handle)
    | Finish(h: Handle)                       // close, at the end of a background task
    | Spawn                                   // a background task starts
    | Strand(h: Handle, call: Option<Op>)     // a background task ends without closing h, after a failed call

  function Logged(w: World, op: Op, h: Handle, ok: bool): World {
    w.(log := w.log + [Event(op, h, w.holder == Some(h), ok)])
  }

  /** Closing a handle that holds the obligation cancels it. */
  function Closed(w: World, h: Handle): World {
    Logged(w, OpClose, h, true).(closed := w.closed + {h},
                                 holder := if w.holder == Some(h) then None else w.holder)
  }

  function Perform(w: World, e: Effect): World {
    match e
    case Keep => w
    case Call(op, h, ok) => Logged(w, op, h, ok)
    case Open => Logged(w, OpLookup, w.next, true).(next := w.next + 1)
    case Elect(h) => Logged(w, OpState, h, true).(holder := Some(h))
    case Fulfil(op, h, opens) =>
      Logged(w, op, h, true).(holder := None, next := if opens then w.next + 1 else w.next)
    case Choose(h) => Logged(w, OpChooseStale, h, true).(holder := None)
    case Close(h) => Closed(w, h)
    case Finish(h) => Closed(w, h).(wg := w.wg - 1)
    case Spawn => w.(wg := w.wg + 1)
    case Strand(h, call) =>
      (if call.Some? then Logged(w, call.value, h, false) else w).(wg := w.wg - 1, stranded := w.stranded + {h})
  }

  // ---- the guest's part ------------------------------------------------------------------

  /** A step of one client: its new state and the effect, or no step for this answer. */
  datatype Verdict = Stay | To(c: Client, e: Effect)

  function OpOf(action: Action): Op {
    if action == Cand.INSERT then OpInsert else if action == Cand.UPDATE then OpUpdate
    else if action == Cand.DO_NOT_STORE then OpAbandon else OpRecord
  }

  function ThreadOf(c: Client, t: Task): Thread { if t.Fg? then c.fg else c.bg }

  function With(c: Client, t: Task, th: Thread): Client {
    if t.Fg? then c.(fg := th) else c.(bg := th)
  }

  function GoTo(c: Client, t: Task, at: Point): Client { With(c, t, ThreadOf(c, t).(at := at)) }

  function HitResponse(st: Lookup): Response {
    Response(CacheEntry, NO_ACTION, if st.usableIfError then Collapse else NotMasked)
  }

  function OriginResponse(action: Action): Response { Response(Origin, action, NotMasked) }

  /** Returning from the send: the deferred closer still has to run unless the handle is nil. */
  function Returning(th: Thread, out: Outcome): Thread {
    th.(at := if th.h.Ptr? then CLOSING else DONE, out := out)
  }

  /** A task gives up with an error; in the background nobody sees it. */
  function Return(c: Client, t: Task, out: Outcome): Client {
    With(c, t, Returning(ThreadOf(c, t), if t.Fg? then out else Quiet))
  }

  function Fail(c: Client, t: Task, site: Site, code: int): Client { Return(c, t, Failed(Error(site, code))) }

  function DecideStart(c: Client, a: Answer): Verdict {
    match a
    case Fails(code) => To(Fail(c, Fg, IsCacheable, code), Keep)
    case No => To(GoTo(c, Fg, PASS), Keep)
    case Yes => To(GoTo(c, Fg, LOOKING), Keep)
    case _ => Stay
  }

  /** An uncached pass, of an uncacheable request or past a disabled request collapse. */
  function DecidePass(c: Client, a: Answer): Verdict {
    match a
    case Fails(code) => To(Fail(c, Fg, UncachedSend, code), Keep)
    case Fine => To(Return(c, Fg, Served(OriginResponse(0))), Keep)
    case _ => Stay
  }

  function Looked(c: Client, next: Handle): Verdict {
    To(c.(fg := c.fg.(at := AWAIT, h := Ptr(next)), handles := c.handles + {next}, lookup := Ptr(next)), Open)
  }

  function DecideLooking(c: Client, a: Answer, next: Handle): Verdict {
    if c.keyLen != 0 && c.keyLen != 32 then To(Fail(c, Fg, BadKey, c.keyLen), Keep)
    else match a
      case Fails(code) => To(Fail(c, Fg, LookupFailed, code), Keep)
      case Fine => Looked(c, next)
      case _ => Stay
  }

  /** The state of the transaction. The host gives the obligation to one client at a time, so while
      it is held no answer carries it. */
  function DecideAwait(c: Client, h: Handle, a: Answer, busy: bool): Verdict {
    match a
    case Fails(code) => To(Fail(c, Fg, GetState, code), Call(OpState, h, false))
    case State(st) =>
      if st.must && busy then Stay
      else To(c.(fg := c.fg.(at := FIND, held := st.must), looked := true, st := st),
              if st.must then Elect(h) else Call(OpState, h, true))
    case _ => Stay
  }

  /** A cached response was found: an elected client revalidates it, any other serves it. */
  function HitElected(c: Client, h: Handle): Verdict {
    To(c.(hit := true, fg := c.fg.(at := SUGGEST)), Call(OpFound, h, true))
  }

  function HitServed(c: Client, h: Handle): Verdict {
    To(Return(c, Fg, Served(HitResponse(c.st))), Call(OpFound, h, true))
  }

  function Miss(c: Client, h: Handle): Verdict {
    To(GoTo(c, Fg, if c.st.must then SUGGEST else PASS), Call(OpFound, h, false))
  }

  function DecideFind(c: Client, h: Handle, a: Answer): Verdict {
    match a
    case Fails(code) => To(Fail(c, Fg, FoundResponse, code), Call(OpFound, h, false))
    case Nothing => Miss(c, h)
    case Fine => if c.st.must then HitElected(c, h) else HitServed(c, h)
    case _ => Stay
  }

  function DecideSuggest(c: Client, h: Handle, a: Answer): Verdict {
    match a
    case Fails(code) => To(Fail(c, Fg, SuggestRequest, code), Call(OpSuggest, h, false))
    case Fine => To(GoTo(c, Fg, HOOK), Call(OpSuggest, h, true))
    case _ => Stay
  }

  function DecideHook(c: Client, a: Answer): Verdict {
    if !c.hasBefore then To(GoTo(c, Fg, DISPATCH), Keep)
    else match a
      case Fails(code) =>
        var c' := c.(beforeRuns := c.beforeRuns + 1, beforeError := Error(BeforeSend, code));
        To(Fail(c', Fg, BeforeSend, code), Keep)
      case Fine => To(c.(beforeRuns := c.beforeRuns + 1, fg := c.fg.(at := DISPATCH)), Keep)
      case _ => Stay
  }

  /** On success either call site continues: with a response to serve, the handle goes to the
      goroutine (cacheHandle = nil) and the send returns; without one, it waits itself. */
  function DecideDispatch(c: Client, a: Answer): Verdict {
    match a
    case Fails(code) => To(Fail(c, Fg, SendAsync, code), Keep)
    case Fine =>
      if c.hit then
        To(c.(bg := c.fg.(at := BACKEND),
              fg := c.fg.(at := DONE, h := Nil, held := false, out := Served(HitResponse(c.st)))), Spawn)
      else To(GoTo(c, Fg, BACKEND), Keep)
    case _ => Stay
  }

  /** newCandidateFromPendingBackendCaching failed. In the foreground a usable-if-error entry is
      substituted; the background task returns at once, without closing its handle. */
  function CandidateFails(c: Client, t: Task, e: Fault): Client {
    if t.Bg? then
      c.(bg := c.bg.(at := DONE, h := Nil, held := false, out := Quiet), bgFailure := e)
    else
      c.(fgFailure := e,
         fg := if c.st.usableIfError then c.fg.(at := CHOOSE_STALE) else Returning(c.fg, Failed(e)))
  }

  /** Waiting for the backend's response. */
  function DecideBackend(c: Client, t: Task, h: Handle, a: Answer): Verdict {
    match a
    case Fails(code) => To(CandidateFails(c, t, Error(BackendWait, code)), if t.Bg? then Strand(h, None) else Keep)
    case Fine => To(GoTo(c, t, PREPARE), Keep)
    case _ => Stay
  }

  function Unprepared(c: Client, t: Task, h: Handle, code: int): Verdict {
    To(CandidateFails(c, t, Error(PrepareStorage, code)),
       if t.Bg? then Strand(h, Some(OpPrepare)) else Call(OpPrepare, h, false))
  }

  function Prepared(c: Client, t: Task, h: Handle, action: Action): Verdict {
    To(With(c, t, ThreadOf(c, t).(at := AFTER, action := action)), Call(OpPrepare, h, true))
  }

  /** prepare_response_for_storage: the host's action, 0..3, and an update only of a found response;
      a response with cookies is then not cached. */
  function DecidePrepare(c: Client, t: Task, h: Handle, a: Answer): Verdict {
    match a
    case Fails(code) => Unprepared(c, t, h, code)
    case Storage(action, setCookie) =>
      if action > 3 || (action == Cand.UPDATE && !c.st.found) then Stay
      else Prepared(c, t, h, if setCookie && action != Cand.DO_NOT_STORE then Cand.RECORD_UNCACHEABLE else action)
    case _ => Stay
  }

  /** AfterSend fails, or returns, when it may have overridden the action. It may have consulted the host. */
  function Refuse(c: Client, t: Task, h: Handle, code: int): Verdict {
    To(CandidateFails(c.(afterRuns := c.afterRuns + 1), t, Error(AfterSend, code)),
       if t.Bg? then Strand(h, Some(OpHook)) else Call(OpHook, h, false))
  }

  function Approve(c: Client, t: Task, h: Handle, action: Action): Verdict {
    To(With(c.(afterRuns := c.afterRuns + 1), t, ThreadOf(c, t).(at := FINALIZE, action := action)),
       Call(OpHook, h, true))
  }

  function DecideAfter(c: Client, t: Task, h: Handle, a: Answer): Verdict {
    if !c.hasAfter then To(GoTo(c, t, FINALIZE), Keep)
    else match a
      case Fails(code) => Refuse(c, t, h, code)
      case Hooked(calls) => Approve(c, t, h, Cand.ActionOfHistory(ThreadOf(c, t).action, calls))
      case _ => Stay
  }

  function DecideFinalize(c: Client, t: Task, h: Handle, a: Answer): Verdict {
    match a
    case Fails(code) => To(Fail(c, t, FinalizeOptions, code), Call(OpOptions, h, false))
    case Fine => To(GoTo(c, t, STORE), Call(OpOptions, h, true))
    case _ => Stay
  }

  /** The storage call of applyAndStreamBack. */
  function DecideStore(c: Client, h: Handle, a: Answer, next: Handle): Verdict {
    var th := c.fg.(held := false);
    match a
    case Fails(code) => To(Fail(c, Fg, StoreCall, code), Call(OpOf(c.fg.action), h, false))
    case Fine =>
      if c.fg.action == Cand.INSERT || c.fg.action == Cand.UPDATE then
        To(c.(handles := c.handles + {next},
              fg := th.(at := if c.fg.action == Cand.INSERT then FILL else READ_BACK, back := Ptr(next))),
           Fulfil(OpOf(c.fg.action), h, true))
      else To(c.(fg := th.(at := RESPOND)), Fulfil(OpOf(c.fg.action), h, false))
    case _ => Stay
  }

  /** The storage call of applyInBackground. */
  function DecideStoreBg(c: Client, h: Handle, a: Answer): Verdict {
    match a
    case Fails(code) => To(Fail(c, Bg, StoreCall, code), Call(OpOf(c.bg.action), h, false))
    case Fine =>
      To(c.(bg := if c.bg.action == Cand.INSERT then c.bg.(at := FILL, held := false)
                  else c.bg.(at := CLOSING, held := false, out := Quiet)),
         Fulfil(OpOf(c.bg.action), h, false))
    case _ => Stay
  }

  /** Filling the inserted body; the body is not abandoned when that fails. */
  function DecideFill(c: Client, a: Answer): Verdict {
    match a
    case Fails(code) => To(c.(fg := c.fg.(at := CLOSE_FRESH, out := Failed(Error(FillBody, code)))), Keep)
    case Fine => To(GoTo(c, Fg, READ_BACK), Keep)
    case _ => Stay
  }

  function DecideFillBg(c: Client, a: Answer): Verdict {
    if a.Fails? || a.Fine? then To(Return(c, Bg, Quiet), Keep) else Stay
  }

  /** Reading the stored entry back through the fresh handle. */
  function DecideReadBack(c: Client, b: Handle, a: Answer): Verdict {
    match a
    case Fails(code) =>
      To(c.(fg := c.fg.(at := CLOSE_FRESH, out := Failed(Error(FoundResponse, code)))), Call(OpFound, b, false))
    case Fine =>
      To(c.(fg := c.fg.(at := CLOSE_FRESH, out := Served(OriginResponse(c.fg.action)))), Call(OpFound, b, true))
    case _ => Stay
  }

  /** newResponseFromCandidate, for what is not stored; on success cacheHandle = nil. */
  function DecideRespond(c: Client, a: Answer): Verdict {
    match a
    case Fails(code) => To(Fail(c, Fg, NewResponse, code), Keep)
    case Fine => To(c.(fg := c.fg.(at := DONE, h := Nil, out := Served(OriginResponse(c.fg.action)))), Keep)
    case _ => Stay
  }

  /** transaction_choose_stale, whose error is ignored. */
  function DecideChoose(c: Client, h: Handle, a: Answer): Verdict {
    match a
    case Fails(_) => To(GoTo(c, Fg, FIND_STALE), Call(OpChooseStale, h, false))
    case Fine => To(c.(chosen := true, fg := c.fg.(at := FIND_STALE, held := false)), Choose(h))
    case _ => Stay
  }

  /** The stale-if-error substitution: after a successful choose_stale the host provides the entry;
      otherwise it may have none, and the code dereferences nil. */
  function DecideFindStale(c: Client, h: Handle, a: Answer): Verdict {
    match a
    case Fails(code) => To(Fail(c, Fg, FoundResponse, code), Call(OpFound, h, false))
    case Fine =>
      To(Return(c, Fg, Served(Response(CacheEntry, NO_ACTION, Cause(c.fgFailure)))), Call(OpFound, h, true))
    case Nothing => if c.chosen then Stay else To(Return(c, Fg, Panicked), Call(OpFound, h, false))
    case _ => Stay
  }

  /** The deferred close of the fresh handle comes before the one of the cache handle; a served insert
      or update leaves the cache handle nil instead of closing it. */
  function DecideCloseFresh(c: Client, b: Handle): Verdict {
    To(c.(fg := if c.fg.out.Served? || c.fg.h.Nil? then c.fg.(at := DONE, back := Nil, h := Nil)
                else c.fg.(at := CLOSING, back := Nil)), Close(b))
  }

  function DecideClosing(c: Client, t: Task, h: Handle): Verdict {
    To(With(c, t, ThreadOf(c, t).(at := DONE, h := Nil, held := false)), if t.Bg? then Finish(h) else Close(h))
  }

  function Decide(c: Client, t: Task, a: Answer, next: Handle, busy: bool): Verdict {
    var th := ThreadOf(c, t);
    var h := if th.h.Ptr? then th.h.h else 0;
    if t.Bg? then
      if th.h.Nil? then Stay
      else if th.at == BACKEND then DecideBackend(c, t, h, a)
      else if th.at == PREPARE then DecidePrepare(c, t, h, a)
      else if th.at == AFTER then DecideAfter(c, t, h, a)
      else if th.at == FINALIZE then DecideFinalize(c, t, h, a)
      else if th.at == STORE then DecideStoreBg(c, h, a)
      else if th.at == FILL then DecideFillBg(c, a)
      else if th.at == CLOSING then DecideClosing(c, t, h)
      else Stay
    else if th.at == START then DecideStart(c, a)
    else if th.at == PASS then DecidePass(c, a)
    else if th.at == LOOKING then DecideLooking(c, a, next)
    else if th.at == CLOSE_FRESH && th.back.Ptr? then DecideCloseFresh(c, th.back.h)
    else if th.at == READ_BACK && th.back.Ptr? then DecideReadBack(c, th.back.h, a)
    else if th.h.Nil? then Stay
    else DecideWithHandle(c, h, a, next, busy)
  }

  /** The foreground points at which the task has its cache handle. */
  function DecideWithHandle(c: Client, h: Handle, a: Answer, next: Handle, busy: bool): Verdict {
    var at := c.fg.at;
    if at == AWAIT then DecideAwait(c, h, a, busy)
    else if at == FIND then DecideFind(c, h, a)
    else if at == SUGGEST then DecideSuggest(c, h, a)
    else if at == HOOK then DecideHook(c, a)
    else if at == DISPATCH then DecideDispatch(c, a)
    else if at == BACKEND then DecideBackend(c, Fg, h, a)
    else if at == PREPARE then DecidePrepare(c, Fg, h, a)
    else if at == AFTER then DecideAfter(c, Fg, h, a)
    else if at == FINALIZE then DecideFinalize(c, Fg, h, a)
    else if at == STORE then DecideStore(c, h, a, next)
    else if at == FILL then DecideFill(c, a)
    else if at == RESPOND then DecideRespond(c, a)
    else if at == CHOOSE_STALE then DecideChoose(c, h, a)
    else if at == FIND_STALE then DecideFindStale(c, h, a)
    else if at == CLOSING then DecideClosing(c, Fg, h)
    else Stay
  }

  // ---- runs --------------------------------------------------------------------------------

  datatype System = System(clients: seq<Client>, w: World)

  datatype Move = Move(i: nat, t: Task, a: Answer)

  /** One client's task moves on one answer; a move with nothing to answer changes nothing. */
  function Next(s: System, m: Move): System {
    if m.i < |s.clients| then
      match Decide(s.clients[m.i], m.t, m.a, s.w.next, s.w.holder.Some?)
      case Stay => s
      case To(c, e) => System(s.clients[m.i := c], Perform(s.w, e))
    else s
  }

  function Run(s: System, moves: seq<Move>): System
    decreases |moves|
  {
    if moves == [] then s else Run(Next(s, moves[0]), moves[1..])
  }

  /** Any clients, none of which has begun. */
  predicate Fresh(c: Client) {
    && c.fg == NOT_STARTED && c.bg == NO_TASK && c.handles == {} && c.lookup.Nil?
    && !c.looked && !c.hit && !c.chosen && c.beforeRuns == 0 && c.afterRuns == 0
    && c.beforeError.NoError? && c.fgFailure.NoError? && c.bgFailure.NoError?
  }

  const QUIET_WORLD := World(0, None, {}, [], 0, {})

  predicate Initial(s: System) {
    s.w == QUIET_WORLD && forall i :: 0 <= i < |s.clients| ==> Fresh(s.clients[i])
  }
}
