/**
 The relay of gate/streamhandler.go: four goroutines between a websocket and a gRPC stream.

 Each step is one action of one goroutine, of the handler that waits for them, or of the
 stream ending by itself. What the socket and the stream do is chosen freely, except that
 calls on the socket fail once it is closed, and Send and Recv fail once the context of the
 relay is cancelled or the stream half-closed by a failed Recv. A call may also fail at any
 time before.
 */
module Relay {
  import opened Prelude

  datatype Who = WsRead | WsWrite | GrpcRead | GrpcWrite

  type Msg = string

  const Capacity: nat := 10

  /** Where a goroutine is: in its loop, then in its deferred exit, which ends with Close. */
  datatype Pc =
    | Top
    | Reading          // past the stop check, in ReadMessage or Recv
    | Hold(m: Msg)     // about to push the message (readers) or to write it (writers)
    | Pinging
    | Leaving          // about to cancel the stop context
    | Signalling       // about to call wg.Done
    | Checking         // Close: about to look at isClose without the lock
    | Locking
    | Rechecking       // with the lock
    | Cancelling       // with the lock and isClose set, about to cancel the context
    | ConnClosing
    | StreamClosing
    | Unlocking
    | Gone

  datatype Pcs = Pcs(wsRead: Pc, wsWrite: Pc, grpcRead: Pc, grpcWrite: Pc) {
    function At(g: Who): Pc {
      match g
      case WsRead => wsRead
      case WsWrite => wsWrite
      case GrpcRead => grpcRead
      case GrpcWrite => grpcWrite
    }

    function Put(g: Who, p: Pc): (r: Pcs)
      ensures forall h :: r.At(h) == if h == g then p else At(h)
    {
      match g
      case WsRead => this.(wsRead := p)
      case WsWrite => this.(wsWrite := p)
      case GrpcRead => this.(grpcRead := p)
      case GrpcWrite => this.(grpcWrite := p)
    }
  }

  /** One direction: everything its reader read, its writer sent or lost, and the channel between them. */
  datatype Lane = Lane(read: seq<Msg>, sent: seq<Msg>, lost: seq<Msg>, queue: seq<Msg>)

  datatype Lock = Free | HeldBy(g: Who)

  datatype Handler = Waiting | CancelNext | CloseNext | Returned

  /**
   Set once and for all: the two stop contexts, the relay's and the stream's context, the socket,
   and the half-close of the stream that a failed Recv makes.
   */
  datatype Flags =
    Flags(stopWs: bool, stopGrpc: bool, ctxDone: bool, streamDone: bool, sockClosed: bool, halfClosed: bool)

  /** The once-only Close: its flag, its lock, and how often it has called each of its three parts. */
  datatype Guard = Guard(isClose: bool, lock: Lock, cancels: nat, connCloses: nat, streamCloses: nat)

  datatype State = State(pc: Pcs, up: Lane, down: Lane, flags: Flags, guard: Guard, left: int, handler: Handler)

  const Start := State(Pcs(Top, Top, Top, Top), Lane([], [], [], []), Lane([], [], [], []),
                       Flags(false, false, false, false, false, false), Guard(false, Free, 0, 0, 0), 4, Waiting)

  predicate Reader(g: Who) { g.WsRead? || g.GrpcRead? }

  predicate Websocket(g: Who) { g.WsRead? || g.WsWrite? }

  predicate Stop(s: State, g: Who) { if Websocket(g) then s.flags.stopWs else s.flags.stopGrpc }

  /** The calls of `g` on its side can only fail. */
  predicate Broken(s: State, g: Who) { if Websocket(g) then s.flags.sockClosed else s.flags.ctxDone || s.flags.halfClosed }

  function LaneOf(s: State, g: Who): Lane { if g.WsRead? || g.GrpcWrite? then s.up else s.down }

  function SetLane(s: State, g: Who, l: Lane): State {
    if g.WsRead? || g.GrpcWrite? then s.(up := l) else s.(down := l)
  }

  function Goto(s: State, g: Who, p: Pc): State { s.(pc := s.pc.Put(g, p)) }

  datatype Choice = Go | Stopped | Got(m: Msg) | Failed | Sent | Took | Tick

  datatype Step = Act(g: Who, c: Choice) | HandlerMoves | StreamEnds

  predicate CanAtTop(s: State, g: Who, c: Choice) {
    if Reader(g) then (c.Stopped? && Stop(s, g)) || (c.Go? && !Stop(s, g))
    else if c.Stopped? then Stop(s, g) || (g.WsWrite? && (s.flags.ctxDone || s.flags.streamDone))
    else (c.Took? && LaneOf(s, g).queue != []) || (c.Tick? && g.WsWrite?)
  }

  predicate Can(s: State, g: Who, c: Choice) {
    match s.pc.At(g)
    case Top => CanAtTop(s, g, c)
    case Reading => c.Failed? || (c.Got? && !Broken(s, g))
    case Hold(_) =>
      if Reader(g) then c.Go? && |LaneOf(s, g).queue| < Capacity
      else c.Failed? || (c.Sent? && !Broken(s, g))
    case Pinging => c.Failed? || (c.Sent? && !Broken(s, g))
    case Locking => c.Go? && s.guard.lock.Free?
    case Gone => false
    case _ => c.Go?
  }

  predicate Enabled(s: State, e: Step) {
    match e
    case Act(g, c) => Can(s, g, c)
    case HandlerMoves => !s.handler.Returned? && (s.handler.Waiting? ==> s.left == 0)
    case StreamEnds => !s.flags.streamDone
  }

  /** Where a step of a loop leads from `p`. */
  function Onward(reader: bool, l: Lane, p: Pc, c: Choice): Pc {
    match p
    case Top =>
      (match c
       case Stopped => Leaving
       case Go => Reading
       case Took => if l.queue == [] then Top else Hold(l.queue[0])
       case _ => Pinging)
    case Reading => if c.Got? then Hold(c.m) else Leaving
    case Hold(_) => if reader || c.Sent? then Top else Leaving
    case Pinging => if c.Sent? then Top else Leaving
    case _ => p
  }

  /** What a step of a loop does to its lane. */
  function Relayed(reader: bool, l: Lane, p: Pc, c: Choice): Lane {
    match p
    case Top => if c.Took? && l.queue != [] then l.(queue := l.queue[1..]) else l
    case Reading => if c.Got? then l.(read := l.read + [c.m]) else l
    case Hold(m) =>
      if reader then l.(queue := l.queue + [m])
      else if c.Sent? then l.(sent := l.sent + [m])
      else l.(lost := l.lost + [m])
    case _ => l
  }

  /** A failed Recv half-closes the stream. */
  function Felt(f: Flags, g: Who, p: Pc, c: Choice): Flags {
    if g.GrpcRead? && p.Reading? && !c.Got? then f.(halfClosed := true) else f
  }

  function Work(s: State, g: Who, c: Choice): State {
    var l, p := LaneOf(s, g), s.pc.At(g);
    Goto(SetLane(s, g, Relayed(Reader(g), l, p, c)), g, Onward(Reader(g), l, p, c)).(flags := Felt(s.flags, g, p, c))
  }

  /** Where a step of a deferred exit leads from `p`. */
  function Outward(isClose: bool, p: Pc): Pc {
    match p
    case Leaving => Signalling
    case Signalling => Checking
    case Checking => if isClose then Gone else Locking
    case Locking => Rechecking
    case Rechecking => if isClose then Unlocking else Cancelling
    case Cancelling => ConnClosing
    case ConnClosing => StreamClosing
    case StreamClosing => Unlocking
    case Unlocking => Gone
    case _ => p
  }

  /** The flags a step of a deferred exit sets. */
  function Raised(f: Flags, g: Who, p: Pc): Flags {
    match p
    case Leaving => if Websocket(g) then f.(stopWs := true) else f.(stopGrpc := true)
    case Cancelling => f.(ctxDone := true)
    case ConnClosing => f.(sockClosed := true)
    case _ => f
  }

  /** What a step of a deferred exit does to the lock and the record of Close. */
  function Guarded(d: Guard, g: Who, p: Pc): Guard {
    match p
    case Locking => d.(lock := HeldBy(g))
    case Rechecking => d.(isClose := true)
    case Cancelling => d.(cancels := d.cancels + 1)
    case ConnClosing => d.(connCloses := d.connCloses + 1)
    case StreamClosing => d.(streamCloses := d.streamCloses + 1)
    case Unlocking => d.(lock := Free)
    case _ => d
  }

  function Exit(s: State, g: Who): State {
    var p := s.pc.At(g);
    State(s.pc.Put(g, Outward(s.guard.isClose, p)), s.up, s.down,
          Raised(s.flags, g, p), Guarded(s.guard, g, p), s.left - One(p.Signalling?), s.handler)
  }

  /** Once past its wait the handler runs its own deferred cancel and socket close. */
  function Handle(s: State): State {
    match s.handler
    case Waiting => s.(handler := CancelNext)
    case CancelNext => s.(handler := CloseNext, flags := s.flags.(ctxDone := true))
    case CloseNext => s.(handler := Returned, flags := s.flags.(sockClosed := true))
    case Returned => s
  }

  predicate Working(p: Pc) { p.Top? || p.Reading? || p.Hold? || p.Pinging? }

  function Next(s: State, e: Step): State {
    match e
    case Act(g, c) => if Working(s.pc.At(g)) then Work(s, g, c) else Exit(s, g)
    case HandlerMoves => Handle(s)
    case StreamEnds => s.(flags := s.flags.(streamDone := true))
  }

  // ---- the invariant --------------------------------------------------------

  predicate Locked(p: Pc) {
    p.Rechecking? || p.Cancelling? || p.ConnClosing? || p.StreamClosing? || p.Unlocking?
  }

  /** Before its wg.Done. */
  predicate Counted(p: Pc) { Working(p) || p.Leaving? || p.Signalling? }

  function Hand(p: Pc): seq<Msg> { if p.Hold? then [p.m] else [] }

  /** Nothing is reordered, duplicated or lost on a lane, but for one message of a failed write. */
  ghost predicate LaneOk(l: Lane, reader: Pc, writer: Pc) {
    && l.read == l.sent + l.lost + Hand(writer) + l.queue + Hand(reader)
    && |l.queue| <= Capacity
    && |l.lost| <= 1
    && (l.lost != [] ==> !Working(writer))
  }

  ghost predicate LanesOk(s: State) {
    LaneOk(s.up, s.pc.wsRead, s.pc.grpcWrite) && LaneOk(s.down, s.pc.grpcRead, s.pc.wsWrite)
  }

  ghost predicate LockOk(s: State) {
    forall g :: Locked(s.pc.At(g)) <==> s.guard.lock == HeldBy(g)
  }

  /** Where the goroutine with the lock is; anywhere else for none. */
  function HolderPc(s: State): Pc { if s.guard.lock.HeldBy? then s.pc.At(s.guard.lock.g) else Top }

  /** Close runs once: what it has called so far follows from where the lock's holder is. */
  ghost predicate CloseOk(s: State) {
    var p := HolderPc(s);
    && (p.Cancelling? || p.ConnClosing? || p.StreamClosing? || p.Unlocking? ==> s.guard.isClose)
    && s.guard.cancels == One(s.guard.isClose && !p.Cancelling?)
    && s.guard.connCloses == One(s.guard.isClose && !p.Cancelling? && !p.ConnClosing?)
    && s.guard.streamCloses == One(s.guard.isClose && !p.Cancelling? && !p.ConnClosing? && !p.StreamClosing?)
  }

  /** The context is cancelled, and the socket closed, by Close or by the handler's own exit, and by nothing else. */
  ghost predicate FlagsOk(s: State) {
    && (s.flags.ctxDone <==> s.guard.cancels > 0 || s.handler.CloseNext? || s.handler.Returned?)
    && (s.flags.sockClosed <==> s.guard.connCloses > 0 || s.handler.Returned?)
  }

  ghost predicate GoneOk(s: State) { forall g :: s.pc.At(g).Gone? ==> s.guard.isClose }

  function CountedIn(s: State): int {
    One(Counted(s.pc.wsRead)) + One(Counted(s.pc.wsWrite)) + One(Counted(s.pc.grpcRead)) + One(Counted(s.pc.grpcWrite))
  }

  ghost predicate WaitOk(s: State) {
    s.left == CountedIn(s) && (!s.handler.Waiting? ==> s.left == 0)
  }

  /** Past the cancelling of its stop context. */
  predicate Past(p: Pc) { !Working(p) && !p.Leaving? }

  /** The stop context of a side is cancelled when one of its two goroutines has left, and by nothing else. */
  ghost predicate StopOk(s: State) {
    && (s.flags.stopWs <==> Past(s.pc.wsRead) || Past(s.pc.wsWrite))
    && (s.flags.stopGrpc <==> Past(s.pc.grpcRead) || Past(s.pc.grpcWrite))
  }

  ghost predicate PlaceOk(s: State) {
    forall g :: (s.pc.At(g).Reading? ==> Reader(g)) && (s.pc.At(g).Pinging? ==> g.WsWrite?)
  }

  ghost predicate Inv(s: State) {
    LanesOk(s) && LockOk(s) && CloseOk(s) && FlagsOk(s) && GoneOk(s) && WaitOk(s) && StopOk(s) && PlaceOk(s)
  }

  lemma StartInv()
    ensures Inv(Start)
  {
  }

  lemma ReaderKeepsLane(l: Lane, reader: Pc, writer: Pc, c: Choice)
    requires LaneOk(l, reader, writer) && (reader.Hold? ==> |l.queue| < Capacity)
    requires reader.Top? ==> !c.Took?
    ensures LaneOk(Relayed(true, l, reader, c), Onward(true, l, reader, c), writer)
  {
  }

  lemma TakeMoves(l: Lane, h: seq<Msg>)
    requires l.queue != []
    ensures l.sent + l.lost + [] + l.queue + h == l.sent + l.lost + [l.queue[0]] + l.queue[1..] + h
  {
    assert l.queue == [l.queue[0]] + l.queue[1..];
  }

  lemma SendMoves(l: Lane, m: Msg, h: seq<Msg>)
    requires l.lost == []
    ensures l.sent + l.lost + [m] + l.queue + h == (l.sent + [m]) + l.lost + [] + l.queue + h
  {
  }

  lemma LossMoves(l: Lane, m: Msg, h: seq<Msg>)
    ensures l.sent + l.lost + [m] + l.queue + h == l.sent + (l.lost + [m]) + [] + l.queue + h
  {
  }

  lemma WriterKeepsLane(l: Lane, reader: Pc, writer: Pc, c: Choice)
    requires LaneOk(l, reader, writer) && !writer.Reading? && Working(writer)
    ensures LaneOk(Relayed(false, l, writer, c), reader, Onward(false, l, writer, c))
  {
    if writer.Hold? {
      SendMoves(l, writer.m, Hand(reader));
      LossMoves(l, writer.m, Hand(reader));
    } else if l.queue != [] {
      TakeMoves(l, Hand(reader));
    }
  }

  lemma WorkKeepsLanes(s: State, g: Who, c: Choice)
    requires LanesOk(s) && PlaceOk(s) && Can(s, g, c) && Working(s.pc.At(g))
    ensures LanesOk(Work(s, g, c))
  {
    match g
    case WsRead => ReaderKeepsLane(s.up, s.pc.wsRead, s.pc.grpcWrite, c);
    case GrpcRead => ReaderKeepsLane(s.down, s.pc.grpcRead, s.pc.wsWrite, c);
    case WsWrite => WriterKeepsLane(s.down, s.pc.grpcRead, s.pc.wsWrite, c);
    case GrpcWrite => WriterKeepsLane(s.up, s.pc.wsRead, s.pc.grpcWrite, c);
  }

  /** What the other parts of the invariant see of a step in a loop. */
  lemma WorkIsLocal(s: State, g: Who, c: Choice)
    requires Can(s, g, c) && Working(s.pc.At(g))
    ensures var p' := Onward(Reader(g), LaneOf(s, g), s.pc.At(g), c);
            && Work(s, g, c).(up := s.up, down := s.down, flags := s.flags) == Goto(s, g, p')
            && Work(s, g, c).flags == Felt(s.flags, g, s.pc.At(g), c)
            && (Working(p') || p'.Leaving?)
            && (p'.Reading? ==> Reader(g))
            && (p'.Pinging? ==> g.WsWrite?)
  {
  }

  /** Every part of the invariant but the lanes. */
  ghost predicate RestOk(s: State) {
    LockOk(s) && CloseOk(s) && FlagsOk(s) && GoneOk(s) && WaitOk(s) && StopOk(s) && PlaceOk(s)
  }

  lemma GotoKeepsRest(s: State, g: Who, p: Pc)
    requires RestOk(s) && Working(s.pc.At(g)) && (Working(p) || p.Leaving?)
    requires (p.Reading? ==> Reader(g)) && (p.Pinging? ==> g.WsWrite?)
    ensures RestOk(Goto(s, g, p))
  {
  }

  /** Half-closing the stream concerns no part of it. */
  lemma FeltKeepsRest(s: State, f: Flags)
    requires RestOk(s) && f == s.flags.(halfClosed := f.halfClosed)
    ensures RestOk(s.(flags := f))
  {
  }

  lemma WorkKeepsRest(s: State, g: Who, c: Choice)
    requires RestOk(s) && Can(s, g, c) && Working(s.pc.At(g))
    ensures RestOk(Work(s, g, c))
  {
    WorkIsLocal(s, g, c);
    FeltKeepsRest(s, Felt(s.flags, g, s.pc.At(g), c));
    GotoKeepsRest(s.(flags := Felt(s.flags, g, s.pc.At(g), c)), g, Onward(Reader(g), LaneOf(s, g), s.pc.At(g), c));
  }

  lemma OutwardIs(isClose: bool, p: Pc)
    requires !Working(p)
    ensures var p' := Outward(isClose, p);
            && !Working(p')
            && One(Counted(p')) == One(Counted(p)) - One(p.Signalling?)
            && (Locked(p') <==> p.Locking? || (Locked(p) && !p.Unlocking?))
  {
  }

  lemma GotoKeepsLanes(s: State, g: Who, p: Pc)
    requires LanesOk(s) && !Working(s.pc.At(g)) && !Working(p)
    ensures LanesOk(Goto(s, g, p))
  {
  }

  lemma ExitKeepsLanes(s: State, g: Who)
    requires LanesOk(s) && !Working(s.pc.At(g))
    ensures LanesOk(Exit(s, g))
  {
    OutwardIs(s.guard.isClose, s.pc.At(g));
    GotoKeepsLanes(s, g, Outward(s.guard.isClose, s.pc.At(g)));
  }

  lemma ExitKeepsLock(s: State, g: Who)
    requires LockOk(s) && !Working(s.pc.At(g)) && Can(s, g, Go)
    ensures LockOk(Exit(s, g))
  {
    OutwardIs(s.guard.isClose, s.pc.At(g));
  }

  lemma HolderMoves(s: State, g: Who)
    requires LockOk(s) && !Working(s.pc.At(g)) && Can(s, g, Go)
    ensures var p := s.pc.At(g);
            HolderPc(Exit(s, g)) == if p.Unlocking? then Top else if Locked(p) || p.Locking? then Outward(s.guard.isClose, p) else HolderPc(s)
  {
  }

  lemma ExitKeepsClose(s: State, g: Who)
    requires LockOk(s) && CloseOk(s) && !Working(s.pc.At(g)) && Can(s, g, Go)
    ensures CloseOk(Exit(s, g))
  {
    HolderMoves(s, g);
    assert Locked(s.pc.At(g)) ==> HolderPc(s) == s.pc.At(g);
    assert s.pc.At(g).Locking? ==> HolderPc(s) == Top;
  }

  lemma ExitKeepsFlags(s: State, g: Who)
    requires FlagsOk(s) && !Working(s.pc.At(g)) && Can(s, g, Go)
    ensures FlagsOk(Exit(s, g))
  {
  }

  lemma ExitKeepsGone(s: State, g: Who)
    requires LockOk(s) && CloseOk(s) && GoneOk(s) && !Working(s.pc.At(g)) && Can(s, g, Go)
    ensures GoneOk(Exit(s, g))
  {
  }

  lemma GotoCounts(s: State, g: Who, p: Pc)
    ensures CountedIn(Goto(s, g, p)) == CountedIn(s) - One(Counted(s.pc.At(g))) + One(Counted(p))
  {
  }

  lemma ExitKeepsWait(s: State, g: Who)
    requires WaitOk(s) && !Working(s.pc.At(g)) && Can(s, g, Go)
    ensures WaitOk(Exit(s, g))
  {
    OutwardIs(s.guard.isClose, s.pc.At(g));
    GotoCounts(s, g, Outward(s.guard.isClose, s.pc.At(g)));
  }

  lemma ExitKeepsStop(s: State, g: Who)
    requires StopOk(s) && PlaceOk(s) && !Working(s.pc.At(g)) && Can(s, g, Go)
    ensures StopOk(Exit(s, g)) && PlaceOk(Exit(s, g))
  {
  }

  lemma StepKeepsInv(s: State, e: Step)
    requires Inv(s) && Enabled(s, e)
    ensures Inv(Next(s, e))
  {
    if e.Act? {
      var g := e.g;
      if Working(s.pc.At(g)) {
        WorkKeepsLanes(s, g, e.c);
        WorkKeepsRest(s, g, e.c);
      } else {
        ExitKeepsLanes(s, g);
        ExitKeepsLock(s, g);
        ExitKeepsClose(s, g);
        ExitKeepsFlags(s, g);
        ExitKeepsGone(s, g);
        ExitKeepsWait(s, g);
        ExitKeepsStop(s, g);
      }
    }
  }

  // ---- over whole runs ------------------------------------------------------

  ghost predicate Path(s: State, steps: seq<Step>, t: State)
    decreases |steps|
  {
    if steps == [] then s == t else Enabled(s, steps[0]) && Path(Next(s, steps[0]), steps[1..], t)
  }

  lemma {:induction false} PathKeepsInv(s: State, steps: seq<Step>, t: State)
    requires Inv(s) && Path(s, steps, t)
    ensures Inv(t)
    decreases |steps|
  {
    if steps != [] {
      StepKeepsInv(s, steps[0]);
      PathKeepsInv(Next(s, steps[0]), steps[1..], t);
    }
  }

  lemma {:induction false} PathConcat(s: State, a: seq<Step>, t: State, b: seq<Step>, u: State)
    requires Path(s, a, t) && Path(t, b, u)
    ensures Path(s, a + b, u)
    decreases |a|
  {
    if a == [] {
      assert a + b == b;
    } else {
      PathConcat(Next(s, a[0]), a[1..], t, b, u);
      assert (a + b)[0] == a[0] && (a + b)[1..] == a[1..] + b;
    }
  }

  /**
   In every interleaving, what was sent on is a prefix of what was read, in order, and what
   is missing is in a hand, in the channel, or the one message of a failed write.
   */
  lemma RelayOrder(steps: seq<Step>, t: State)
    requires Path(Start, steps, t)
    ensures t.up.sent <= t.up.read && t.down.sent <= t.down.read
    ensures t.up.read == t.up.sent + t.up.lost + Hand(t.pc.grpcWrite) + t.up.queue + Hand(t.pc.wsRead)
    ensures t.down.read == t.down.sent + t.down.lost + Hand(t.pc.wsWrite) + t.down.queue + Hand(t.pc.grpcRead)
    ensures |t.up.queue| <= 10 && |t.down.queue| <= 10 && |t.up.lost| <= 1 && |t.down.lost| <= 1
  {
    StartInv();
    PathKeepsInv(Start, steps, t);
  }

  /**
   The three parts of Close run at most once each, and exactly once when the goroutines are
   gone; the wait is over only when all four have signalled.
   */
  lemma CloseOnce(steps: seq<Step>, t: State)
    requires Path(Start, steps, t)
    ensures t.guard.cancels <= 1 && t.guard.connCloses <= 1 && t.guard.streamCloses <= 1
    ensures (forall g :: t.pc.At(g).Gone?) ==> t.guard.cancels == t.guard.connCloses == t.guard.streamCloses == 1
    ensures !t.handler.Waiting? ==> forall g :: !Counted(t.pc.At(g))
    ensures t.guard.streamCloses == 1 ==> Closed(t)
  {
    StartInv();
    PathKeepsInv(Start, steps, t);
    if forall g :: t.pc.At(g).Gone? {
      assert t.pc.At(WsRead).Gone?;
    }
  }

  // ---- what is sent no more -------------------------------------------------

  lemma StepSendsNothing(s: State, e: Step, w: Who)
    requires Enabled(s, e) && !Reader(w) && Broken(s, w)
    ensures Broken(Next(s, e), w) && LaneOf(Next(s, e), w).sent == LaneOf(s, w).sent
  {
  }

  lemma {:induction false} NothingIsSent(s: State, steps: seq<Step>, t: State, w: Who)
    requires Path(s, steps, t) && !Reader(w) && Broken(s, w)
    ensures LaneOf(t, w).sent == LaneOf(s, w).sent
    decreases |steps|
  {
    if steps != [] {
      StepSendsNothing(s, steps[0], w);
      NothingIsSent(Next(s, steps[0]), steps[1..], t, w);
    }
  }

  /** After a failed Recv nothing more is sent to the stream. */
  lemma NothingIsSentAfterFailedRecv(first: seq<Step>, s: State, steps: seq<Step>, t: State)
    requires Path(Start, first, s) && s.pc.grpcRead.Reading?
    requires Path(Next(s, Act(GrpcRead, Failed)), steps, t)
    ensures t.up.sent == s.up.sent
  {
    NothingIsSent(Next(s, Act(GrpcRead, Failed)), steps, t, GrpcWrite);
  }

  /** Once Close has cancelled the context and closed the socket nothing more is sent either way. */
  lemma NothingIsSentAfterClose(first: seq<Step>, s: State, steps: seq<Step>, t: State)
    requires Path(Start, first, s) && Path(s, steps, t)
    ensures s.guard.cancels == 1 ==> t.up.sent == s.up.sent
    ensures s.guard.connCloses == 1 ==> t.down.sent == s.down.sent
  {
    StartInv();
    PathKeepsInv(Start, first, s);
    if s.guard.cancels == 1 {
      NothingIsSent(s, steps, t, GrpcWrite);
    }
    if s.guard.connCloses == 1 {
      NothingIsSent(s, steps, t, WsWrite);
    }
  }

  // ---- shutting down --------------------------------------------------------

  /** The context is cancelled and the socket closed, as Close leaves them. */
  predicate Closed(s: State) { s.flags.ctxDone && s.flags.sockClosed }

  function Rank(g: Who, p: Pc): nat {
    match p
    case Hold(_) => if Reader(g) then 12 else 10
    case Top => 11
    case Reading => 10
    case Pinging => 10
    case Leaving => 9
    case Signalling => 8
    case Checking => 7
    case Locking => 6
    case Rechecking => 5
    case Cancelling => 4
    case ConnClosing => 3
    case StreamClosing => 2
    case Unlocking => 1
    case Gone => 0
  }

  function HandlerRank(h: Handler): nat {
    match h
    case Waiting => 3
    case CancelNext => 2
    case CloseNext => 1
    case Returned => 0
  }

  function Left(s: State): nat {
    Rank(WsRead, s.pc.wsRead) + Rank(WsWrite, s.pc.wsWrite) + Rank(GrpcRead, s.pc.grpcRead) + Rank(GrpcWrite, s.pc.grpcWrite)
    + HandlerRank(s.handler) + One(!s.flags.streamDone)
  }

  lemma WorkGoesDown(s: State, g: Who, c: Choice)
    requires Closed(s) && PlaceOk(s) && Can(s, g, c) && Working(s.pc.At(g))
    ensures Rank(g, Onward(Reader(g), LaneOf(s, g), s.pc.At(g), c)) < Rank(g, s.pc.At(g))
  {
  }

  lemma ExitGoesDown(s: State, g: Who, c: Choice)
    requires Can(s, g, c) && !Working(s.pc.At(g))
    ensures Rank(g, Outward(s.guard.isClose, s.pc.At(g))) < Rank(g, s.pc.At(g))
  {
  }

  /** Once Close has run, every step uses up some of a bounded budget. */
  lemma StepGoesDown(s: State, e: Step)
    requires Inv(s) && Closed(s) && Enabled(s, e)
    ensures Closed(Next(s, e)) && Left(Next(s, e)) < Left(s)
  {
    if e.Act? {
      if Working(s.pc.At(e.g)) {
        WorkGoesDown(s, e.g, e.c);
      } else {
        ExitGoesDown(s, e.g, e.c);
      }
    }
  }

  /** So no more than 50 steps of any kind follow. */
  lemma {:induction false} ClosedRunsAreShort(s: State, steps: seq<Step>, t: State)
    requires Inv(s) && Closed(s) && Path(s, steps, t)
    ensures Inv(t) && Closed(t)
    ensures |steps| + Left(t) <= Left(s) <= 50
    decreases |steps|
  {
    if steps != [] {
      StepKeepsInv(s, steps[0]);
      StepGoesDown(s, steps[0]);
      ClosedRunsAreShort(Next(s, steps[0]), steps[1..], t);
    }
  }

  // ---- where it can get stuck -----------------------------------------------

  /** A producer about to push into a full channel. */
  predicate Parked(s: State, g: Who) {
    Reader(g) && s.pc.At(g).Hold? && |LaneOf(s, g).queue| >= Capacity
  }

  /** grpcWrite waiting for a message or for grpcRead to stop it; it does not watch the context. */
  predicate Starved(s: State, g: Who) {
    g.GrpcWrite? && s.pc.At(g).Top? && s.up.queue == [] && !s.flags.stopGrpc
  }

  predicate AllDone(s: State) { (forall g :: s.pc.At(g).Gone?) && s.handler.Returned? }

  /** Nothing can move any more. */
  ghost predicate Stuck(s: State) { forall e :: Enabled(s, e) ==> e.StreamEnds? }

  predicate Leaky(s: State) { Parked(s, WsRead) || Parked(s, GrpcRead) }

  predicate CannotMove(s: State, g: Who) {
    s.pc.At(g).Gone? || Parked(s, g) || Starved(s, g) || (s.pc.At(g).Locking? && s.guard.lock.HeldBy?)
  }

  /** A choice open to a goroutine that can move. */
  function WayOn(s: State, g: Who): Choice {
    match s.pc.At(g)
    case Top => if Reader(g) then (if Stop(s, g) then Stopped else Go)
                else if Stop(s, g) || (g.WsWrite? && (s.flags.ctxDone || s.flags.streamDone)) then Stopped
                else if g.WsWrite? then Tick else Took
    case Reading => Failed
    case Hold(_) => if Reader(g) then Go else Failed
    case Pinging => Failed
    case _ => Go
  }

  lemma WhoCanMove(s: State, g: Who)
    requires Inv(s)
    ensures CannotMove(s, g) ==> forall c :: !Can(s, g, c)
    ensures !CannotMove(s, g) ==> Can(s, g, WayOn(s, g))
  {
  }

  lemma EachCounts(s: State)
    ensures CountedIn(s) == 0 <==> forall g :: !Counted(s.pc.At(g))
  {
    assert s.pc.At(GrpcRead) == s.pc.grpcRead && s.pc.At(GrpcWrite) == s.pc.grpcWrite && s.pc.At(WsWrite) == s.pc.wsWrite && s.pc.At(WsRead) == s.pc.wsRead;
  }

  /** A starved grpcWrite means that grpcRead has not left its loop. */
  lemma StarvedWaitsForRead(s: State, g: Who)
    requires Inv(s) && Starved(s, g)
    ensures Working(s.pc.grpcRead) || s.pc.grpcRead.Leaving?
  {
    assert !Stop(s, GrpcRead);
    assert s.pc.At(GrpcRead) == s.pc.grpcRead;
  }

  ghost predicate Settled(s: State) { forall g :: s.pc.At(g).Gone? || Parked(s, g) || Starved(s, g) }

  lemma SettledWithoutParkedIsGone(s: State)
    requires Inv(s) && Settled(s) && !Leaky(s)
    ensures (forall g :: s.pc.At(g).Gone?) && s.left == 0
  {
    assert s.pc.At(GrpcRead).Gone? && s.pc.At(GrpcRead) == s.pc.grpcRead;
    if Starved(s, GrpcWrite) {
      StarvedWaitsForRead(s, GrpcWrite);
    }
    EachCounts(s);
  }

  lemma StuckSettles(s: State)
    requires Inv(s) && Stuck(s)
    ensures Settled(s) && (Leaky(s) || s.handler.Returned?)
  {
    forall g ensures CannotMove(s, g) {
      WhoCanMove(s, g);
      assert !CannotMove(s, g) ==> Enabled(s, Act(g, WayOn(s, g)));
    }
    assert forall g :: s.guard.lock == HeldBy(g) ==> !CannotMove(s, g);
    assert s.guard.lock.Free?;
    assert Settled(s) by {
      forall g ensures s.pc.At(g).Gone? || Parked(s, g) || Starved(s, g) {
        assert CannotMove(s, g);
      }
    }
    if !Leaky(s) {
      SettledWithoutParkedIsGone(s);
      assert !Enabled(s, HandlerMoves);
    }
  }

  /**
   The stuck states, exactly: each goroutine is gone, or parked on a full
   channel, or is a grpcWrite waiting for a parked grpcRead.
   */
  lemma StuckExactly(s: State)
    requires Inv(s)
    ensures Stuck(s) <==> Settled(s) && (Leaky(s) || s.handler.Returned?)
  {
    if Stuck(s) {
      StuckSettles(s);
    }
    if Settled(s) {
      forall g, c ensures !Enabled(s, Act(g, c)) {
        WhoCanMove(s, g);
      }
      EachCounts(s);
      assert Parked(s, WsRead) ==> Counted(s.pc.At(WsRead));
      assert Parked(s, GrpcRead) ==> Counted(s.pc.At(GrpcRead));
    }
  }

  /**
   The relay is never stuck before Close has run, each part of it once. Being stuck is being
   done, or having a parked producer whose consumer is gone.
   */
  lemma StuckIsDoneOrParked(s: State)
    requires Inv(s) && Stuck(s)
    ensures Closed(s) && s.guard.cancels == s.guard.connCloses == s.guard.streamCloses == 1
    ensures AllDone(s) <==> !Leaky(s)
    ensures Parked(s, WsRead) ==> s.pc.grpcWrite.Gone?
    ensures Parked(s, GrpcRead) ==> s.pc.wsWrite.Gone?
  {
    StuckSettles(s);
    if !Leaky(s) {
      SettledWithoutParkedIsGone(s);
    }
    assert s.pc.At(GrpcWrite) == s.pc.grpcWrite && s.pc.At(WsWrite) == s.pc.wsWrite;
    assert s.pc.At(WsWrite).Gone?;
    assert forall g :: !Locked(s.pc.At(g));
  }

  // ---- exactly when it leaks ------------------------------------------------

  /** Goroutines may be left behind for ever. */
  ghost predicate CanLeak(s: State) {
    exists steps, t :: Path(s, steps, t) && Stuck(t) && !AllDone(t)
  }

  predicate Full(s: State, g: Who) { |LaneOf(s, g).queue| >= Capacity }

  /**
   A producer that is parked, or can still read and either goes on reading till its channel is
   full or has a last message coming and the channel is full already.
   */
  predicate MayPark(s: State, g: Who) {
    Parked(s, g)
    || (!Broken(s, g) && Working(s.pc.At(g)) && (!Stop(s, g) || (s.pc.At(g).Reading? && Full(s, g))))
  }

  lemma WorkNeverParks(s: State, g: Who, c: Choice, r: Who)
    requires PlaceOk(s) && Reader(r) && !MayPark(s, r) && Can(s, g, c) && Working(s.pc.At(g))
    ensures !MayPark(Work(s, g, c), r)
  {
  }

  lemma ExitNeverParks(s: State, g: Who, r: Who)
    requires Reader(r) && !MayPark(s, r) && !Working(s.pc.At(g))
    ensures !MayPark(Exit(s, g), r)
  {
    OutwardIs(s.guard.isClose, s.pc.At(g));
  }

  lemma StepNeverParks(s: State, e: Step, r: Who)
    requires Inv(s) && Reader(r) && !MayPark(s, r) && Enabled(s, e)
    ensures !MayPark(Next(s, e), r)
  {
    if e.Act? {
      if Working(s.pc.At(e.g)) {
        WorkNeverParks(s, e.g, e.c, r);
      } else {
        ExitNeverParks(s, e.g, r);
      }
    }
  }

  /** A producer that may not get parked never does. */
  lemma {:induction false} NeverParks(s: State, steps: seq<Step>, t: State, r: Who)
    requires Inv(s) && Reader(r) && !MayPark(s, r) && Path(s, steps, t)
    ensures !MayPark(t, r)
    decreases |steps|
  {
    if steps != [] {
      StepKeepsInv(s, steps[0]);
      StepNeverParks(s, steps[0], r);
      NeverParks(Next(s, steps[0]), steps[1..], t, r);
    }
  }

  /** How far a reader is from its next push. */
  function ToPush(p: Pc): nat { if p.Top? then 2 else if p.Reading? then 1 else 0 }

  /** One that may, does if it reads on while the others rest. */
  lemma {:induction false} ParkFollows(s: State, r: Who) returns (steps: seq<Step>, t: State)
    requires Inv(s) && Reader(r) && MayPark(s, r)
    ensures Inv(t) && Path(s, steps, t) && Parked(t, r)
    decreases Capacity - |LaneOf(s, r).queue|, ToPush(s.pc.At(r))
  {
    steps, t := [], s;
    if !Parked(s, r) {
      var e := Act(r, if s.pc.At(r).Reading? then Got("") else Go);
      StepKeepsInv(s, e);
      steps, t := ParkFollows(Next(s, e), r);
      steps := [e] + steps;
    }
  }

  /** The way on of a goroutine uses up some of the budget even before Close. */
  lemma WayOnGoesDown(s: State, g: Who)
    requires Inv(s) && !CannotMove(s, g)
    ensures Enabled(s, Act(g, WayOn(s, g))) && Left(Next(s, Act(g, WayOn(s, g)))) < Left(s)
  {
    WhoCanMove(s, g);
    if !Working(s.pc.At(g)) {
      ExitGoesDown(s, g, Go);
    }
  }

  /** Who can go on so that some producer stays parked, whenever anyone can move. */
  lemma WhoLeavesParked(s: State, h: Who) returns (g: Who)
    requires Inv(s) && Leaky(s) && !CannotMove(s, h)
    ensures !CannotMove(s, g) && Leaky(Next(s, Act(g, WayOn(s, g))))
  {
    g := h;
    if h.GrpcWrite? && WayOn(s, h).Took? && !Parked(s, GrpcRead) {
      assert !Stop(s, GrpcRead);
      assert Working(s.pc.At(GrpcRead)) || s.pc.At(GrpcRead).Leaving?;
      g := GrpcRead;
    }
  }

  lemma LeakyWaits(s: State)
    requires Inv(s) && Leaky(s)
    ensures !Enabled(s, HandlerMoves)
  {
    EachCounts(s);
    assert Parked(s, WsRead) ==> Counted(s.pc.At(WsRead));
    assert Parked(s, GrpcRead) ==> Counted(s.pc.At(GrpcRead));
  }

  lemma {:induction false} LeakFollows(s: State) returns (steps: seq<Step>, t: State)
    requires Inv(s) && Leaky(s)
    ensures Inv(t) && Path(s, steps, t) && Stuck(t) && Leaky(t)
    decreases Left(s)
  {
    steps, t := [], s;
    LeakyWaits(s);
    if h :| !CannotMove(s, h) {
      var g := WhoLeavesParked(s, h);
      WayOnGoesDown(s, g);
      StepKeepsInv(s, Act(g, WayOn(s, g)));
      steps, t := LeakFollows(Next(s, Act(g, WayOn(s, g))));
      steps := [Act(g, WayOn(s, g))] + steps;
    } else {
      forall g, c ensures !Enabled(s, Act(g, c)) {
        WhoCanMove(s, g);
      }
    }
  }

  lemma LeaksIf(s: State, r: Who)
    requires Inv(s) && Reader(r) && MayPark(s, r)
    ensures CanLeak(s)
  {
    var first, u := ParkFollows(s, r);
    assert Leaky(u);
    var more, t := LeakFollows(u);
    StuckIsDoneOrParked(t);
    PathConcat(s, first, u, more, t);
  }

  lemma LeaksOnlyIf(s: State)
    requires Inv(s) && CanLeak(s)
    ensures MayPark(s, WsRead) || MayPark(s, GrpcRead)
  {
    var steps, t :| Path(s, steps, t) && Stuck(t) && !AllDone(t);
    PathKeepsInv(s, steps, t);
    StuckIsDoneOrParked(t);
    if !MayPark(s, WsRead) && !MayPark(s, GrpcRead) {
      NeverParks(s, steps, t, WsRead);
      NeverParks(s, steps, t, GrpcRead);
    }
  }

  /**
   In whatever state the relay has come to, goroutines may yet be left behind for ever exactly
   when a producer may get parked.
   */
  lemma LeaksExactlyWhen(first: seq<Step>, s: State)
    requires Path(Start, first, s)
    ensures CanLeak(s) <==> MayPark(s, WsRead) || MayPark(s, GrpcRead)
  {
    StartInv();
    PathKeepsInv(Start, first, s);
    if CanLeak(s) {
      LeaksOnlyIf(s);
    }
    forall r | Reader(r) && MayPark(s, r) ensures CanLeak(s) {
      LeaksIf(s, r);
    }
  }

  /** Once Close has run, that is exactly when a producer is parked already. */
  lemma LeaksExactlyWhenParked(s: State)
    requires Inv(s) && Closed(s)
    ensures CanLeak(s) <==> Leaky(s)
  {
    if CanLeak(s) {
      LeaksOnlyIf(s);
    }
    forall r | Reader(r) && MayPark(s, r) ensures CanLeak(s) {
      LeaksIf(s, r);
    }
  }

  // ---- runs of one goroutine ------------------------------------------------

  lemma {:induction false} PathSnoc(s: State, a: seq<Step>, t: State, e: Step) returns (b: seq<Step>, u: State)
    requires Path(s, a, t) && Enabled(t, e)
    ensures Path(s, b, u) && u == Next(t, e)
  {
    b, u := a + [e], Next(t, e);
    assert [e][1..] == [] && Path(t, [e], u);
    PathConcat(s, a, t, [e], u);
  }

  /** A reader can read and push ten messages while the other goroutines rest. */
  lemma {:induction false} Fill(r: Who, k: nat) returns (steps: seq<Step>, t: State)
    requires Reader(r) && k <= 10
    ensures Path(Start, steps, t)
    ensures t == SetLane(Start, r, LaneOf(t, r)) && |LaneOf(t, r).queue| == k
  {
    steps, t := [], Start;
    if k > 0 {
      steps, t := Fill(r, k - 1);
      steps, t := PathSnoc(Start, steps, t, Act(r, Go));
      steps, t := PathSnoc(Start, steps, t, Act(r, Got("")));
      steps, t := PathSnoc(Start, steps, t, Act(r, Go));
    }
  }

  /** The eleventh it reads stays in its hand. */
  lemma Overfill(r: Who) returns (steps: seq<Step>, t: State)
    requires Reader(r)
    ensures Path(Start, steps, t) && |LaneOf(t, r).queue| == 10
    ensures t == SetLane(Start, r, LaneOf(t, r)).(pc := Start.pc.Put(r, Hold("")))
    ensures forall c :: !Can(t, r, c)
  {
    steps, t := Fill(r, 10);
    steps, t := PathSnoc(Start, steps, t, Act(r, Go));
    steps, t := PathSnoc(Start, steps, t, Act(r, Got("")));
  }

  ghost predicate OnlyBy(steps: seq<Step>, g: Who) { forall e | e in steps :: e == Act(g, Go) }

  /** A goroutine on its way out can leave while the others rest. */
  lemma {:induction false} LeaveAlone(t: State, g: Who) returns (own: seq<Step>, u: State)
    requires !Working(t.pc.At(g)) && (Locked(t.pc.At(g)) || t.guard.lock.Free?)
    ensures Path(t, own, u) && OnlyBy(own, g)
    ensures u.pc == t.pc.Put(g, Gone) && u.up == t.up && u.guard.lock.Free?
    decreases Rank(g, t.pc.At(g))
  {
    own, u := [], t;
    if !t.pc.At(g).Gone? {
      own, u := LeaveAlone(Next(t, Act(g, Go)), g);
      own := [Act(g, Go)] + own;
    }
  }

  /** Once Close has begun, one that has yet to call it leaves without the lock, whoever holds it. */
  lemma {:induction false} LateCloserDoesNotWait(t: State, g: Who) returns (own: seq<Step>, u: State)
    requires t.guard.isClose && (t.pc.At(g).Leaving? || t.pc.At(g).Signalling? || t.pc.At(g).Checking?)
    ensures Path(t, own, u) && OnlyBy(own, g)
    ensures u.pc == t.pc.Put(g, Gone) && u.guard == t.guard
    decreases Rank(g, t.pc.At(g))
  {
    var next := Next(t, Act(g, Go));
    if t.pc.At(g).Checking? {
      own, u := [], next;
    } else {
      own, u := LateCloserDoesNotWait(next, g);
    }
    own := [Act(g, Go)] + own;
  }

  /**
   When the stream ends or the context is cancelled, wsWrite alone can close everything: it
   leaves its loop without any call on the socket or the stream.
   */
  lemma EndOfStreamCloses(first: seq<Step>, s: State) returns (own: seq<Step>, u: State)
    requires Path(Start, first, s) && s.pc.wsWrite.Top? && (s.flags.streamDone || s.flags.ctxDone) && s.guard.lock.Free?
    ensures Path(s, [Act(WsWrite, Stopped)] + own, u) && OnlyBy(own, WsWrite)
    ensures u.guard.cancels == u.guard.connCloses == u.guard.streamCloses == 1
  {
    var t := Next(s, Act(WsWrite, Stopped));
    own, u := LeaveAlone(t, WsWrite);
    PathConcat(s, [Act(WsWrite, Stopped)], t, own, u);
    PathConcat(Start, first, s, [Act(WsWrite, Stopped)] + own, u);
    StartInv();
    PathKeepsInv(Start, first + ([Act(WsWrite, Stopped)] + own), u);
    assert u.pc.At(WsWrite).Gone?;
  }

  // ---- leaving for cause ----------------------------------------------------

  function Sibling(g: Who): Who {
    match g
    case WsRead => WsWrite
    case WsWrite => WsRead
    case GrpcRead => GrpcWrite
    case GrpcWrite => GrpcRead
  }

  /** What may end a loop besides a failed call: the other goroutine of its side, and for wsWrite the two contexts. */
  predicate Cause(s: State, g: Who) {
    Past(s.pc.At(Sibling(g))) || (g.WsWrite? && (s.flags.ctxDone || s.flags.streamDone))
  }

  lemma StepLeavesForCause(s: State, e: Step, g: Who)
    requires Inv(s) && Enabled(s, e)
    ensures Cause(s, g) ==> Cause(Next(s, e), g)
    ensures Working(s.pc.At(g)) && !Working(Next(s, e).pc.At(g)) ==> Cause(s, g) || e == Act(g, Failed)
  {
    if e.Act? && !Working(s.pc.At(e.g)) {
      OutwardIs(s.guard.isClose, s.pc.At(e.g));
    }
  }

  lemma {:induction false} PathLeavesForCause(s: State, steps: seq<Step>, t: State, g: Who)
    requires Inv(s) && Path(s, steps, t)
    ensures Cause(s, g) ==> Cause(t, g)
    ensures Working(s.pc.At(g)) && !Working(t.pc.At(g)) ==> Cause(t, g) || Act(g, Failed) in steps
    decreases |steps|
  {
    if steps != [] {
      StepKeepsInv(s, steps[0]);
      StepLeavesForCause(s, steps[0], g);
      PathLeavesForCause(Next(s, steps[0]), steps[1..], t, g);
    }
  }

  /**
   No goroutine leaves its loop without cause: a call of its own has failed, or the other one of
   its side has left, or it is wsWrite and the stream has ended or the context is cancelled.
   */
  lemma LeavesForCause(steps: seq<Step>, t: State, g: Who)
    requires Path(Start, steps, t) && !Working(t.pc.At(g))
    ensures Act(g, Failed) in steps || Cause(t, g)
  {
    StartInv();
    PathLeavesForCause(Start, steps, t, g);
  }

  // ---- a leak, from the start -----------------------------------------------

  /** Then grpcRead fails, and closes everything. */
  lemma CloseBehindParked() returns (steps: seq<Step>, t: State)
    ensures Path(Start, steps, t) && Parked(t, WsRead) && t.pc.At(GrpcRead).Gone? && t.guard.lock.Free?
  {
    steps, t := Overfill(WsRead);
    steps, t := PathSnoc(Start, steps, t, Act(GrpcRead, Go));
    steps, t := PathSnoc(Start, steps, t, Act(GrpcRead, Failed));
    var own, u := LeaveAlone(t, GrpcRead);
    PathConcat(Start, steps, t, own, u);
    steps, t := steps + own, u;
    assert t.pc.At(WsRead).Hold?;
  }

  /** From the start the relay can reach a state where Close has run but goroutines are stuck for ever. */
  lemma CloseCanLeaveGoroutinesBehind() returns (steps: seq<Step>, t: State)
    ensures Path(Start, steps, t) && Stuck(t) && !AllDone(t)
    ensures t.guard.streamCloses == 1
  {
    var first, s := CloseBehindParked();
    StartInv();
    PathKeepsInv(Start, first, s);
    var more, u := LeakFollows(s);
    StuckIsDoneOrParked(u);
    PathConcat(Start, first, s, more, u);
    steps, t := first + more, u;
  }
}
