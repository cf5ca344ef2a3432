/** What the handler's wait for the four goroutines of Relay guarantees, and what it does not. */
module RelayWait {
  import opened Relay

  // ---- what it guarantees ---------------------------------------------------

  /** Past the wait all four goroutines are in their exits, so every step uses up some of the budget. */
  lemma StepAfterTheWait(s: State, e: Step)
    requires Inv(s) && !s.handler.Waiting? && Enabled(s, e)
    ensures !Next(s, e).handler.Waiting? && Left(Next(s, e)) < Left(s)
  {
    EachCounts(s);
    if e.Act? {
      assert !Counted(s.pc.At(e.g));
      ExitGoesDown(s, e.g, e.c);
    }
  }

  lemma BudgetAfterTheWait(s: State)
    requires Inv(s) && !s.handler.Waiting?
    ensures Left(s) <= 31
  {
    EachCounts(s);
    assert forall g :: !Counted(s.pc.At(g)) ==> Rank(g, s.pc.At(g)) <= 7;
    assert s.pc.At(GrpcRead) == s.pc.grpcRead && s.pc.At(GrpcWrite) == s.pc.grpcWrite;
    assert s.pc.At(WsRead) == s.pc.wsRead && s.pc.At(WsWrite) == s.pc.wsWrite;
  }

  lemma {:induction false} RunsAfterTheWaitAreShort(s: State, steps: seq<Step>, t: State)
    requires Inv(s) && !s.handler.Waiting? && Path(s, steps, t)
    ensures Inv(t) && !t.handler.Waiting?
    ensures |steps| + Left(t) <= Left(s) <= 31
    decreases |steps|
  {
    BudgetAfterTheWait(s);
    if steps != [] {
      StepKeepsInv(s, steps[0]);
      StepAfterTheWait(s, steps[0]);
      RunsAfterTheWaitAreShort(Next(s, steps[0]), steps[1..], t);
    }
  }

  /**
   Once the wait is over no continuation is longer than 31 steps, and one that cannot go on
   has the handler returned, all four goroutines gone and each part of Close run exactly once.
   */
  lemma AfterTheWait(first: seq<Step>, s: State, steps: seq<Step>, t: State)
    requires Path(Start, first, s) && !s.handler.Waiting? && Path(s, steps, t)
    ensures |steps| <= 31
    ensures Stuck(t) ==> AllDone(t) && t.guard.cancels == t.guard.connCloses == t.guard.streamCloses == 1
  {
    StartInv();
    PathKeepsInv(Start, first, s);
    RunsAfterTheWaitAreShort(s, steps, t);
    if Stuck(t) {
      assert !Enabled(t, HandlerMoves);
      EachCounts(t);
      assert !Counted(t.pc.At(WsRead)) && !Counted(t.pc.At(GrpcRead));
      StuckIsDoneOrParked(t);
    }
  }

  // ---- exactly when it does not cover Close ---------------------------------

  function Consumer(g: Who): Who { if g.WsRead? then GrpcWrite else WsWrite }

  /** The consumer has left its loop, or is bound to: it holds a message that it can no longer send. */
  predicate Lost(s: State, w: Who) {
    !Working(s.pc.At(w)) || (w.GrpcWrite? && s.pc.grpcWrite.Hold? && s.flags.halfClosed)
  }

  /** A parked producer whose consumer is lost: it never comes to its wg.Done. */
  predicate Cut(s: State, g: Who) { Parked(s, g) && Lost(s, Consumer(g)) }

  predicate AnyCut(s: State) { Cut(s, WsRead) || Cut(s, GrpcRead) }

  /** The handler may come to return while nobody has begun to close. */
  ghost predicate CanReturnUnclosed(s: State) {
    exists steps, t :: Path(s, steps, t) && t.handler.Returned? && !t.guard.isClose
  }

  lemma StepStaysCut(s: State, e: Step, g: Who)
    requires Reader(g) && Cut(s, g) && Enabled(s, e)
    ensures Cut(Next(s, e), g)
  {
    if e.Act? && !Working(s.pc.At(e.g)) {
      OutwardIs(s.guard.isClose, s.pc.At(e.g));
    }
  }

  /** A cut stays, and so does the flag of Close. */
  lemma {:induction false} PathStays(s: State, steps: seq<Step>, t: State, g: Who)
    requires Path(s, steps, t) && Reader(g)
    ensures Cut(s, g) ==> Cut(t, g)
    ensures s.guard.isClose ==> t.guard.isClose
    decreases |steps|
  {
    if steps != [] {
      if Cut(s, g) {
        StepStaysCut(s, steps[0], g);
      }
      PathStays(Next(s, steps[0]), steps[1..], t, g);
    }
  }

  lemma CountedKeepsWaiting(s: State, g: Who)
    requires Inv(s) && Counted(s.pc.At(g))
    ensures s.handler.Waiting?
    ensures !s.guard.isClose ==> !s.flags.ctxDone && !s.flags.sockClosed
  {
    EachCounts(s);
  }

  lemma OnlyIfUncut(s: State)
    requires Inv(s) && CanReturnUnclosed(s)
    ensures !s.guard.isClose && !AnyCut(s)
  {
    var steps, t :| Path(s, steps, t) && t.handler.Returned? && !t.guard.isClose;
    PathKeepsInv(s, steps, t);
    EachCounts(t);
    assert !Counted(t.pc.At(WsRead)) && !Counted(t.pc.At(GrpcRead));
    PathStays(s, steps, t, WsRead);
    PathStays(s, steps, t, GrpcRead);
  }

  /** What is left for a reader to come to its wg.Done, the making of room for it included. */
  function Effort(s: State, g: Who): nat {
    Rank(g, s.pc.At(g)) + (if !Parked(s, g) then 0 else if s.pc.At(Consumer(g)).Top? then 1 else 2)
  }

  function ReadersEffort(s: State): nat { Effort(s, WsRead) + Effort(s, GrpcRead) }

  function WritersEffort(s: State): nat { Rank(WsWrite, s.pc.wsWrite) + Rank(GrpcWrite, s.pc.grpcWrite) }

  ghost predicate Open(s: State) { Inv(s) && !s.guard.isClose && !AnyCut(s) }

  /** A reader gets on, or its consumer makes room for it; grpcRead last, as its failure half-closes the stream. */
  lemma ReaderGetsOn(s: State, g: Who) returns (e: Step)
    requires Open(s) && Reader(g) && Counted(s.pc.At(g)) && (g.GrpcRead? ==> !Counted(s.pc.At(WsRead)))
    ensures Enabled(s, e) && !Next(s, e).guard.isClose && !AnyCut(Next(s, e))
    ensures ReadersEffort(Next(s, e)) < ReadersEffort(s)
  {
    CountedKeepsWaiting(s, g);
    hide LanesOk, LockOk, CloseOk, FlagsOk, GoneOk, WaitOk;
    var w := Consumer(g);
    if Parked(s, g) {
      assert Working(s.pc.At(w));
      e := Act(w, if s.pc.At(w).Top? then Took else Sent);
    } else {
      e := Act(g, WayOn(s, g));
    }
  }

  /** With the readers past their wg.Done, a writer gets on without closing anything. */
  lemma WriterGetsOn(s: State, g: Who) returns (e: Step)
    requires Open(s) && !Reader(g) && Counted(s.pc.At(g))
    requires !Counted(s.pc.wsRead) && !Counted(s.pc.grpcRead)
    ensures Enabled(s, e) && !Next(s, e).guard.isClose && !AnyCut(Next(s, e))
    ensures ReadersEffort(Next(s, e)) == ReadersEffort(s) && WritersEffort(Next(s, e)) < WritersEffort(s)
  {
    hide LanesOk, LockOk, CloseOk, FlagsOk, GoneOk, WaitOk;
    assert s.pc.At(WsRead) == s.pc.wsRead && s.pc.At(GrpcRead) == s.pc.grpcRead;
    assert Stop(s, WsRead) && Stop(s, GrpcRead);
    e := Act(g, if s.pc.At(g).Top? then Stopped else if Working(s.pc.At(g)) then Failed else Go);
  }

  lemma {:induction false} ReturnFollows(s: State) returns (steps: seq<Step>, t: State)
    requires Open(s)
    ensures Path(s, steps, t) && t.handler.Returned? && !t.guard.isClose
    decreases ReadersEffort(s), WritersEffort(s), HandlerRank(s.handler)
  {
    if s.handler.Returned? {
      return [], s;
    }
    EachCounts(s);
    var e;
    if Counted(s.pc.At(WsRead)) {
      e := ReaderGetsOn(s, WsRead);
    } else if Counted(s.pc.At(GrpcRead)) {
      e := ReaderGetsOn(s, GrpcRead);
    } else if g :| Counted(s.pc.At(g)) {
      e := WriterGetsOn(s, g);
    } else {
      e := HandlerMoves;
    }
    StepKeepsInv(s, e);
    steps, t := ReturnFollows(Next(s, e));
    steps := [e] + steps;
  }

  /**
   In whatever state the relay has come to, the handler may yet return with nothing closed by
   Close if and only if Close has not begun and no producer is parked on a full channel whose
   consumer has left its loop, or holds a message it can no longer send.
   */
  lemma ReturnsUnclosedExactlyWhen(first: seq<Step>, s: State)
    requires Path(Start, first, s)
    ensures CanReturnUnclosed(s) <==>
            && !s.guard.isClose
            && !(Parked(s, WsRead) && (!Working(s.pc.grpcWrite) || (s.pc.grpcWrite.Hold? && s.flags.halfClosed)))
            && !(Parked(s, GrpcRead) && !Working(s.pc.wsWrite))
  {
    StartInv();
    PathKeepsInv(Start, first, s);
    assert s.pc.At(GrpcWrite) == s.pc.grpcWrite && s.pc.At(WsWrite) == s.pc.wsWrite;
    if CanReturnUnclosed(s) {
      OnlyIfUncut(s);
    } else if Open(s) {
      var steps, t := ReturnFollows(s);
    }
  }

  // ---- such a run, from the start -------------------------------------------

  /** A reader leaves up to its Close: its call fails. */
  lemma ReaderSignals(s: State, a: seq<Step>, t: State, g: Who) returns (b: seq<Step>, u: State)
    requires Path(s, a, t) && Reader(g) && t.pc.At(g).Top? && !Stop(t, g)
    ensures Path(s, b, u) && u.pc == t.pc.Put(g, Checking) && Stop(u, g)
    ensures u.left == t.left - 1 && u.guard == t.guard && u.handler == t.handler
    ensures forall h :: Websocket(h) != Websocket(g) ==> Stop(u, h) == Stop(t, h)
  {
    b, u := PathSnoc(s, a, t, Act(g, Go));
    b, u := PathSnoc(s, b, u, Act(g, Failed));
    b, u := PathSnoc(s, b, u, Act(g, Go));
    b, u := PathSnoc(s, b, u, Act(g, Go));
  }

  /** A writer leaves up to its Close: it has been told to stop. */
  lemma WriterSignals(s: State, a: seq<Step>, t: State, g: Who) returns (b: seq<Step>, u: State)
    requires Path(s, a, t) && !Reader(g) && t.pc.At(g).Top? && Stop(t, g)
    ensures Path(s, b, u) && u.pc == t.pc.Put(g, Checking)
    ensures u.left == t.left - 1 && u.guard == t.guard && u.handler == t.handler
    ensures forall h :: Stop(u, h) == Stop(t, h)
  {
    b, u := PathSnoc(s, a, t, Act(g, Stopped));
    b, u := PathSnoc(s, b, u, Act(g, Go));
    b, u := PathSnoc(s, b, u, Act(g, Go));
  }

  /** The handler can have returned before any goroutine has begun to close. */
  lemma WaitCanEndBeforeClose() returns (steps: seq<Step>, t: State)
    ensures Path(Start, steps, t)
    ensures t.handler.Returned? && !t.guard.isClose && t.guard.streamCloses == 0
  {
    steps, t := ReaderSignals(Start, [], Start, WsRead);
    steps, t := ReaderSignals(Start, steps, t, GrpcRead);
    steps, t := WriterSignals(Start, steps, t, WsWrite);
    steps, t := WriterSignals(Start, steps, t, GrpcWrite);
    steps, t := PathSnoc(Start, steps, t, HandlerMoves);
    steps, t := PathSnoc(Start, steps, t, HandlerMoves);
    steps, t := PathSnoc(Start, steps, t, HandlerMoves);
  }
}
