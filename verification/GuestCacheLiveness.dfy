/** What can still happen to a guest-cache send: who can move, who can be elected, and what cannot be undone. */
module GuestCacheLiveness {
  import opened Text
  import opened GuestCache
  import opened GuestCacheProof
  import opened GuestCacheRuns

  // ---- single steps ------------------------------------------------------------------------

  /** A task that has begun, has not ended, and does not wait for the state of its transaction. */
  ghost predicate Active(c: Client, t: Task) {
    if t.Fg? then c.fg.at != DONE && c.fg.at != AWAIT else c.bg.at > DONE
  }

  /** An answer that is not a failure. */
  function Proceed(c: Client, t: Task): Answer {
    var at := ThreadOf(c, t).at;
    if at == START then Yes
    else if at == PREPARE then Storage(Cand.INSERT, false)
    else if at == AFTER then Hooked([])
    else Fine
  }

  lemma {:induction false} CanProceed(c: Client, t: Task, next: Handle, busy: bool)
    requires Shape(c) && Active(c, t)
    ensures var v := Decide(c, t, Proceed(c, t), next, busy); v.To? && !v.e.Strand? && !v.e.Elect?
  {
  }

  lemma {:induction false} AtRest(c: Client, t: Task, a: Answer, next: Handle, busy: bool)
    requires Shape(c) && !Active(c, t) && !(t.Fg? && c.fg.at == AWAIT)
    ensures Decide(c, t, a, next, busy).Stay?
  {
  }

  /** Exactly the unfinished tasks can take a step on an answer that is not a failure; while a client waits
      for the state of its transaction, an answer that elects it is possible exactly when nobody holds the
      obligation, and any other state always. */
  lemma {:induction false} NoTaskStuck(s: System, s0: System, moves: seq<Move>, i: nat, t: Task)
    requires Reachable(s, s0, moves) && i < |s.clients|
    ensures var c := s.clients[i];
            if t.Fg? && c.fg.at == AWAIT then
              forall st :: Moves(s, Move(i, t, State(st))) <==> !st.must || s.w.holder.None?
            else if Active(c, t) then exists a: Answer :: !a.Fails? && Moves(s, Move(i, t, a))
            else forall a :: !Moves(s, Move(i, t, a))
  {
    ReachableOK(s, s0, moves);
    var c := s.clients[i];
    assert ClientOK(c);
    if Active(c, t) {
      CanProceed(c, t, s.w.next, s.w.holder.Some?);
      assert Moves(s, Move(i, t, Proceed(c, t)));
    } else if !(t.Fg? && c.fg.at == AWAIT) {
      forall a ensures !Moves(s, Move(i, t, a)) {
        AtRest(c, t, a, s.w.next, s.w.holder.Some?);
      }
    }
  }

  // ---- elections --------------------------------------------------------------------------

  lemma {:induction false} RunFirst(s: System, m: Move, more: seq<Move>)
    ensures Run(s, [m] + more) == Run(Next(s, m), more)
  {
    assert ([m] + more)[0] == m && ([m] + more)[1..] == more;
  }

  lemma {:induction false} RunConcat(s: System, a: seq<Move>, b: seq<Move>)
    ensures Run(s, a + b) == Run(Run(s, a), b)
    decreases |a|
  {
    if a == [] {
      assert a + b == b;
    } else {
      assert (a + b)[0] == a[0] && (a + b)[1..] == a[1..] + b;
      RunConcat(Next(s, a[0]), a[1..], b);
    }
  }

  /** While the obligation is held nobody is elected. */
  lemma {:induction false} ElectedStep(c: Client, t: Task, v: Verdict, w: World)
    requires GoodStep(c, t, v, w) && w.holder.Some? && Elected(v.c)
    ensures Elected(c)
  {
  }

  /** Once an obligation is stranded, no client is ever elected again. */
  lemma {:induction false} NeverElected(s: System, more: seq<Move>, i: nat)
    requires SystemOK(s) && s.w.stranded != {} && i < |s.clients|
    ensures |Run(s, more).clients| == |s.clients|
    ensures Elected(Run(s, more).clients[i]) ==> Elected(s.clients[i])
    decreases |more|
  {
    if more != [] {
      var m := more[0];
      if Moves(s, m) {
        var v := MoveIsGood(s, m);
        StrandedStep(s.clients[m.i], m.t, v, s.w);
        if m.i == i && Elected(v.c) { ElectedStep(s.clients[i], m.t, v, s.w); }
      }
      NextOK(s, m);
      NeverElected(Next(s, m), more[1..], i);
    }
  }

  lemma {:induction false} NobodyElectedAgain(s: System, s0: System, moves: seq<Move>, more: seq<Move>, i: nat)
    requires Reachable(s, s0, moves) && s.w.stranded != {} && i < |s.clients|
    ensures |Run(s, more).clients| == |s.clients|
    ensures Elected(Run(s, more).clients[i]) ==> Elected(s.clients[i])
  {
    ReachableOK(s, s0, moves);
    NeverElected(s, more, i);
  }

  /** The holder of the obligation takes one more step towards releasing it. */
  lemma {:induction false} ReleaseStep(s: System, j: nat) returns (m: Move)
    requires SystemOK(s) && s.w.stranded == {} && s.w.holder.Some?
    requires j < |s.clients| && Holds(s.clients[j], s.w.holder.value)
    ensures m.i == j && Moves(s, m)
    ensures var s' := Next(s, m);
            && SystemOK(s') && s'.w.stranded == {} && s'.clients == s.clients[j := s'.clients[j]]
            && ClientRank(s'.clients[j]) < ClientRank(s.clients[j])
            && (s'.w.holder.Some? ==> Holds(s'.clients[j], s'.w.holder.value))
  {
    var c, h := s.clients[j], s.w.holder.value;
    assert ClientOK(c);
    var t := if c.fg.h == Ptr(h) && c.fg.held then Fg else Bg;
    CanProceed(c, t, s.w.next, true);
    m := Move(j, t, Proceed(c, t));
    var v := MoveIsGood(s, m);
    NextOK(s, m);
    KeepsHolding(c, t, v, s.w);
  }

  lemma {:induction false} KeepsHolding(c: Client, t: Task, v: Verdict, w: World)
    requires GoodStep(c, t, v, w) && !v.e.Strand? && !v.e.Elect? && w.holder.Some? && Holds(c, w.holder.value)
    ensures var w' := Perform(w, v.e);
            w'.stranded == w.stranded && (w'.holder.Some? ==> w'.holder == w.holder && Holds(v.c, w.holder.value))
  {
    if Perform(w, v.e).holder.Some? { HoldingStays(c, t, v, w); }
  }

  /** While nothing is stranded the holder can go on until it has released the obligation. */
  lemma {:induction false} Release(s: System, j: nat) returns (more: seq<Move>)
    requires SystemOK(s) && s.w.stranded == {} && s.w.holder.Some?
    requires j < |s.clients| && Holds(s.clients[j], s.w.holder.value)
    ensures var s' := Run(s, more);
            && SystemOK(s') && s'.w.holder.None? && s'.w.stranded == {} && |s'.clients| == |s.clients|
            && forall i :: 0 <= i < |s.clients| && i != j ==> s'.clients[i] == s.clients[i]
    decreases ClientRank(s.clients[j])
  {
    var m := ReleaseStep(s, j);
    var s1 := Next(s, m);
    var rest := [];
    if s1.w.holder.Some? {
      rest := Release(s1, j);
    }
    more := [m] + rest;
    RunFirst(s, m, rest);
  }

  const ELECTED := Lookup(false, false, false, true, false)

  /** A client at its lookup is elected when nobody holds the obligation. */
  lemma {:induction false} ElectNow(s: System, i: nat)
    requires SystemOK(s) && s.w.holder.None? && i < |s.clients| && s.clients[i].fg.at == AWAIT
    ensures Obligated(Run(s, [Move(i, Fg, State(ELECTED))]), i)
  {
    var m := Move(i, Fg, State(ELECTED));
    assert ClientOK(s.clients[i]);
    RunFirst(s, m, []);
    assert [m] + [] == [m];
  }

  /** Client i has been elected and holds the obligation. */
  ghost predicate Obligated(s: System, i: nat) {
    i < |s.clients| && Elected(s.clients[i]) && s.w.holder.Some? && Holds(s.clients[i], s.w.holder.value)
  }

  /** Those moves bring client i the obligation. */
  ghost predicate Brings(s: System, more: seq<Move>, i: nat) { Obligated(Run(s, more), i) }

  /** Whoever holds the obligation now, a client that waits at its lookup can still be given it, in some
      continuation of the run, if and only if nothing is stranded. */
  lemma {:induction false} WaitersCanBeElected(s: System, s0: System, moves: seq<Move>, i: nat)
    requires Reachable(s, s0, moves) && i < |s.clients| && s.clients[i].fg.at == AWAIT
    ensures (exists more :: Brings(s, more, i)) <==> s.w.stranded == {}
  {
    ReachableOK(s, s0, moves);
    assert ClientOK(s.clients[i]);
    if s.w.stranded == {} {
      var more := ElectLater(s, i);
      assert Brings(s, more, i);
    }
    forall more ensures Brings(s, more, i) ==> s.w.stranded == {} {
      if s.w.stranded != {} { NeverElected(s, more, i); }
    }
  }

  lemma {:induction false} ElectLater(s: System, i: nat) returns (more: seq<Move>)
    requires SystemOK(s) && s.w.stranded == {} && i < |s.clients| && s.clients[i].fg.at == AWAIT
    ensures Obligated(Run(s, more), i)
  {
    var elect := [Move(i, Fg, State(ELECTED))];
    if s.w.holder.None? {
      ElectNow(s, i);
      return elect;
    }
    var j :| 0 <= j < |s.clients| && Holds(s.clients[j], s.w.holder.value);
    assert ClientOK(s.clients[i]) && i != j;
    var release := Release(s, j);
    ElectNow(Run(s, release), i);
    RunConcat(s, release, elect);
    more := release + elect;
  }

  // ---- the wait group ------------------------------------------------------------------------

  ghost predicate InBackground(moves: seq<Move>) { forall k :: 0 <= k < |moves| ==> moves[k].t.Bg? }

  /** A live revalidation moves. */
  lemma {:induction false} LiveStep(s: System) returns (m: Move)
    requires SystemOK(s) && s.w.wg != 0
    ensures m.t.Bg? && Moves(s, m) && SystemOK(Next(s, m))
    ensures TotalRank(Next(s, m).clients) < TotalRank(s.clients)
  {
    LiveCountZero(s.clients);
    var i :| 0 <= i < |s.clients| && Live(s.clients[i]) != 0;
    var c := s.clients[i];
    assert ClientOK(c);
    CanProceed(c, Bg, s.w.next, s.w.holder.Some?);
    m := Move(i, Bg, Proceed(c, Bg));
    var v := MoveIsGood(s, m);
    NextOK(s, m);
    TotalRankUpdate(s.clients, i, v.c);
  }

  /** Some background moves bring the wait group to zero. */
  lemma {:induction false} WaitCanReturn(s: System) returns (more: seq<Move>)
    requires SystemOK(s)
    ensures InBackground(more) && SystemOK(Run(s, more)) && Run(s, more).w.wg == 0
    decreases TotalRank(s.clients)
  {
    more := [];
    if s.w.wg != 0 {
      var m := LiveStep(s);
      var rest := WaitCanReturn(Next(s, m));
      more := [m] + rest;
      RunFirst(s, m, rest);
    }
  }

  /** And as long as it is not zero some background task can move, so by EverySendIsBounded only finitely
      many moves come before it is. */
  lemma {:induction false} WaitOnlyBlocksOnMoves(s: System)
    requires SystemOK(s)
    ensures s.w.wg == 0 <==> forall m: Move :: m.t.Bg? ==> !Moves(s, m)
  {
    if s.w.wg != 0 {
      var m := LiveStep(s);
    } else {
      forall m: Move | m.t.Bg? ensures !Moves(s, m) {
        if m.i < |s.clients| { NoneLive(s, m.i, m.a); }
      }
    }
  }

  lemma {:induction false} NoneLive(s: System, i: nat, a: Answer)
    requires SystemOK(s) && s.w.wg == 0 && i < |s.clients|
    ensures s.clients[i].bg.at <= DONE && !Moves(s, Move(i, Bg, a))
  {
    LiveCountZero(s.clients);
    assert ClientOK(s.clients[i]) && Live(s.clients[i]) == 0;
    AtRest(s.clients[i], Bg, a, s.w.next, s.w.holder.Some?);
  }

  // ---- what does go wrong ----------------------------------------------------------------------

  lemma {:induction false} FindStaleStep(s: System, i: nat, a: Answer)
    requires SystemOK(s) && i < |s.clients| && s.clients[i].fg.at == FIND_STALE
    ensures Next(s, Move(i, Fg, a)).clients[i].fg.out.Panicked? <==> a.Nothing? && !s.clients[i].chosen
  {
    var c := s.clients[i];
    assert Shape(c) && OutcomesOK(c);
    assert Decide(c, Fg, a, s.w.next, s.w.holder.Some?) == DecideFindStale(c, c.fg.h.h, a);
  }

  /** Reading the stale entry can end in the nil dereference exactly when choose_stale failed. */
  lemma {:induction false} PanicsExactly(s: System, s0: System, moves: seq<Move>, i: nat)
    requires Reachable(s, s0, moves) && i < |s.clients| && s.clients[i].fg.at == FIND_STALE
    ensures (exists a :: Next(s, Move(i, Fg, a)).clients[i].fg.out.Panicked?) <==> !s.clients[i].chosen
  {
    ReachableOK(s, s0, moves);
    forall a ensures Next(s, Move(i, Fg, a)).clients[i].fg.out.Panicked? <==> a.Nothing? && !s.clients[i].chosen {
      FindStaleStep(s, i, a);
    }
    if !s.clients[i].chosen {
      assert Next(s, Move(i, Fg, Nothing)).clients[i].fg.out.Panicked?;
    }
  }

  /** One client without hooks. */
  const ALONE := Client(0, false, false, NOT_STARTED, NO_TASK, {}, Nil, false, ELECTED, false, false, 0, 0,
                        NoError, NoError, NoError)

  /** A run of that client alone. */
  ghost predicate Reaches(moves: seq<Move>, c: Client, w: World) {
    Run(System([ALONE], QUIET_WORLD), moves) == System([c], w)
  }

  /** It goes on. */
  lemma {:induction false} Then(moves: seq<Move>, c: Client, w: World, t: Task, a: Answer)
    returns (more: seq<Move>, c': Client, w': World)
    requires Reaches(moves, c, w) && Decide(c, t, a, w.next, w.holder.Some?).To?
    ensures var v := Decide(c, t, a, w.next, w.holder.Some?);
            c' == v.c && w' == Perform(w, v.e) && Reaches(more, c', w')
  {
    var v := Decide(c, t, a, w.next, w.holder.Some?);
    var m := Move(0, t, a);
    more, c', w' := moves + [m], v.c, Perform(w, v.e);
    RunConcat(System([ALONE], QUIET_WORLD), moves, [m]);
    RunFirst(System([c], w), m, []);
    assert [m] + [] == [m] && [c][0 := v.c] == [v.c];
  }

  /** The client after its lookup. */
  function AtLookup(st: Lookup, at: Point, hit: bool): Client {
    ALONE.(fg := Thread(at, Ptr(0), Nil, true, 0, Pending), handles := {0}, lookup := Ptr(0),
           looked := true, st := st, hit := hit)
  }

  /** It is elected with some state. */
  lemma {:induction false} ToElection(st: Lookup) returns (moves: seq<Move>, c: Client, w: World)
    requires st.must
    ensures Reaches(moves, c, w) && w.holder == Some(0) && w.stranded == {} && c == AtLookup(st, FIND, false)
  {
    moves, c, w := [], ALONE, QUIET_WORLD;
    moves, c, w := Then(moves, c, w, Fg, Yes);
    moves, c, w := Then(moves, c, w, Fg, Fine);
    assert c.handles == {0};
    moves, c, w := Then(moves, c, w, Fg, State(st));
  }

  /** It then dispatches its request; a hit if something was found. */
  lemma {:induction false} ToSuggest(st: Lookup, hit: bool) returns (moves: seq<Move>, c: Client, w: World)
    requires st.must
    ensures Reaches(moves, c, w) && w.holder == Some(0) && w.stranded == {} && c == AtLookup(st, SUGGEST, hit)
  {
    moves, c, w := ToElection(st);
    if hit {
      moves, c, w := Then(moves, c, w, Fg, Fine);
    } else {
      moves, c, w := Then(moves, c, w, Fg, Nothing);
    }
  }

  lemma {:induction false} ToDispatch(st: Lookup, hit: bool) returns (moves: seq<Move>, c: Client, w: World)
    requires st.must
    ensures Reaches(moves, c, w) && w.holder == Some(0) && w.stranded == {} && c == AtLookup(st, DISPATCH, hit)
  {
    moves, c, w := ToSuggest(st, hit);
    moves, c, w := Then(moves, c, w, Fg, Fine);
    assert c == AtLookup(st, HOOK, hit);
    moves, c, w := Then(moves, c, w, Fg, Fine);
  }

  lemma {:induction false} ReachedFromStart(moves: seq<Move>, c: Client, w: World)
    requires Reaches(moves, c, w)
    ensures Reachable(System([c], w), System([ALONE], QUIET_WORLD), moves)
  {
    assert Fresh(ALONE);
  }

  /** A run that ends in the nil dereference: elected with a usable-if-error entry, the backend fails, and so
      does choose_stale. */
  lemma {:induction false} PanickingRun() returns (moves: seq<Move>, c: Client, w: World)
    ensures Reachable(System([c], w), System([ALONE], QUIET_WORLD), moves) && c.fg.out.Panicked?
  {
    moves, c, w := ToDispatch(Lookup(false, false, true, true, true), false);
    moves, c, w := Then(moves, c, w, Fg, Fine);
    moves, c, w := Then(moves, c, w, Fg, Fails(1));
    moves, c, w := Then(moves, c, w, Fg, Fails(2));
    moves, c, w := Then(moves, c, w, Fg, Nothing);
    ReachedFromStart(moves, c, w);
  }

  /** A run that strands the obligation: a stale entry is served, and its revalidation gets no response. */
  lemma {:induction false} StrandingRun() returns (moves: seq<Move>, c: Client, w: World)
    ensures Reachable(System([c], w), System([ALONE], QUIET_WORLD), moves) && Finished(c)
    ensures w.stranded == {0} && w.holder == Some(0) && c.bgFailure.Error?
    ensures c.fg.out.Served? && c.fg.out.r.source.CacheEntry?
  {
    moves, c, w := ToDispatch(Lookup(true, true, true, true, false), true);
    moves, c, w := Then(moves, c, w, Fg, Fine);
    moves, c, w := Then(moves, c, w, Bg, Fails(1));
    ReachedFromStart(moves, c, w);
  }
}
