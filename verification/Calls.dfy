/**
 The callers of the pool: unary calls (Invoke) and streams (NewStream and the grpcStream it
 returns), any number at once, on the pool address of one client.

 A call moves through its phases; the pool machine moves with it. Nothing here assumes that
 a release is covered by a lease: that is what is proved.
 */
module Calls {
  import opened Prelude
  import opened PoolSpec
  import opened PoolMachine
  import opened PoolTheorems
  import GrpcStream

  type Id = nat

  datatype Phase =
    | Start
    | Dialing
    | Inserting(c: Id)
    | Using(c: Id)                      // waiting for the reply, or for the stream to open
    | Open(c: Id)                       // the stream is with its user
    | Returning(c: Id, failed: bool)    // about to call release
    | Closing(c: Id)                    // release said to close the connection
    | Done

  /**
   `handle` is set once a grpcStream exists for the call, with its `fields` and the connection
   its close function captured. `acquired` and `released` count the successful getConn and the
   release calls made for this call.
   */
  datatype Call = Call(stream: bool, phase: Phase, handle: bool, conn: Id, fields: GrpcStream.Fields,
                       acquired: nat, released: nat)

  datatype System = System(pool: State<Id>, calls: map<nat, Call>)

  datatype Action =
    | Begin(stream: bool)
    | NoCodec
    | Get(st: Id -> Connectivity, now: int)
    | DialFailed
    | DialWorked(c: Id, created: int)
    | PutIn
    | Reply(failed: bool)               // a result, an error, or the timeout
    | OpenOk
    | OpenFailed
    | InStream(section: GrpcStream.Section)   // a locked section of Send, Recv or Close
    | Return(now: int)
    | CloseConn

  /** The action is possible for the call; only its own phase decides, never the pool's leases. */
  ghost predicate Possible(s: System, k: nat, a: Action) {
    if a.Begin? then k !in s.calls
    else
      k in s.calls &&
      var call := s.calls[k];
      match a
      case NoCodec => call.phase.Start?
      case Get(_, _) => call.phase.Start?
      case DialFailed => call.phase.Dialing?
      case DialWorked(c, _) => call.phase.Dialing? && c !in s.pool.sp.conns
      case PutIn => call.phase.Inserting?
      case Reply(_) => call.phase.Using? && !call.stream
      case OpenOk => call.phase.Using? && call.stream
      case OpenFailed => call.phase.Using? && call.stream
      case InStream(_) => call.handle
      case Return(_) => call.phase.Returning?
      case CloseConn => call.phase.Closing?
      case Begin(_) => false
  }

  /** The step of the pool that an action makes, if any. */
  ghost function PoolEvent(call: Call, a: Action): seq<Event<Id>> {
    match a
    case Get(st, now) => [GetScan(st, now)]
    case DialFailed => [DialFail]
    case DialWorked(c, created) => [DialOk(c, created)]
    case PutIn => if call.phase.Inserting? then [DoInsert(call.phase.c)] else []
    case Return(now) => if call.phase.Returning? then [DoRelease(call.phase.c, call.phase.failed, now)] else []
    case CloseConn => if call.phase.Closing? then [DoClose(call.phase.c)] else []
    case _ => []
  }

  ghost function PoolAfter(cfg: Config, pool: State<Id>, call: Call, a: Action): State<Id> {
    var e := PoolEvent(call, a);
    if e == [] then pool else Next(cfg, pool, e[0])
  }

  ghost function MustClose(cfg: Config, pool: State<Id>, p: Phase, now: int): bool
    requires p.Returning?
  {
    p.c in pool.sp.conns && Release(cfg, pool.sp, p.c, p.failed, now).close
  }

  /** The stream's close function, when its fields say that it is called, is a release. */
  ghost function InStreamAfter(call: Call, section: GrpcStream.Section): Call {
    var f := GrpcStream.After(call.fields, section);
    if |f.released| == |call.fields.released| then call.(fields := f)
    else call.(fields := f, phase := Returning(call.conn, f.released[|f.released| - 1] != GrpcStream.Nil))
  }

  ghost function CallAfter(cfg: Config, pool: State<Id>, call: Call, a: Action): Call {
    match a
    case NoCodec => call.(phase := Done)
    case Get(st, now) =>
      var taken := Scan(cfg, pool.sp, st, now).taken;
      if taken == [] then call.(phase := Dialing)
      else call.(phase := Using(taken[0]), acquired := call.acquired + 1)
    case DialFailed => call.(phase := Done)
    case DialWorked(c, _) => call.(phase := Inserting(c))
    case PutIn =>
      if call.phase.Inserting? then call.(phase := Using(call.phase.c), acquired := call.acquired + 1) else call
    case Reply(failed) => if call.phase.Using? then call.(phase := Returning(call.phase.c, failed)) else call
    case OpenOk =>
      if call.phase.Using? then call.(phase := Open(call.phase.c), handle := true, conn := call.phase.c) else call
    case OpenFailed => if call.phase.Using? then call.(phase := Returning(call.phase.c, true)) else call
    case InStream(section) => InStreamAfter(call, section)
    case Return(now) =>
      if !call.phase.Returning? then call
      else call.(phase := if MustClose(cfg, pool, call.phase, now) then Closing(call.phase.c) else Done,
                 released := call.released + 1)
    case CloseConn => call.(phase := Done)
    case Begin(_) => call
  }

  ghost function SystemAfter(cfg: Config, s: System, k: nat, a: Action): System
    requires Possible(s, k, a)
  {
    if a.Begin? then s.(calls := s.calls[k := Call(a.stream, Start, false, 0, GrpcStream.Fresh, 0, 0)])
    else System(PoolAfter(cfg, s.pool, s.calls[k], a),
                s.calls[k := CallAfter(cfg, s.pool, s.calls[k], a)])
  }

  // ---- counting the holders -------------------------------------------------

  datatype Role = Holder | Inserter | Closer | Dialler

  predicate Plays(call: Call, role: Role, c: Id) {
    match role
    case Holder => (call.phase.Using? || call.phase.Open? || call.phase.Returning?) && call.phase.c == c
    case Inserter => call.phase.Inserting? && call.phase.c == c
    case Closer => call.phase.Closing? && call.phase.c == c
    case Dialler => call.phase.Dialing?
  }

  ghost function Who(calls: map<nat, Call>, role: Role, c: Id): set<nat> {
    set k | k in calls && Plays(calls[k], role, c)
  }

  ghost function Count(calls: map<nat, Call>, role: Role, c: Id): nat {
    |Who(calls, role, c)|
  }

  lemma CountChange(calls: map<nat, Call>, k: nat, call: Call, role: Role, c: Id)
    ensures Count(calls[k := call], role, c) ==
            Count(calls, role, c) - One(k in calls && Plays(calls[k], role, c)) + One(Plays(call, role, c))
  {
    var before, after := Who(calls, role, c), Who(calls[k := call], role, c);
    assert after - {k} == before - {k};
    assert |after - {k}| == |after| - One(k in after);
    assert |before - {k}| == |before| - One(k in before);
  }

  /** How many of `role` the pool has booked for `c`. */
  ghost function Booked(pool: State<Id>, role: Role, c: Id): nat {
    match role
    case Holder => pool.leases[c]
    case Inserter => pool.inserting[c]
    case Closer => pool.closing[c]
    case Dialler => pool.dialing
  }

  ghost predicate Balanced(s: System) {
    forall role, c :: Booked(s.pool, role, c) == Count(s.calls, role, c)
  }

  /** The bookkeeping of one call. */
  ghost predicate CallOk(call: Call) {
    && call.released <= call.acquired <= 1
    && (call.phase.Start? || call.phase.Dialing? || call.phase.Inserting? ==> call.acquired == 0 && !call.handle)
    && (call.phase.Using? || call.phase.Open? || call.phase.Returning? ==> call.acquired == 1 && call.released == 0)
    && (call.phase.Closing? || call.phase.Done? ==> call.acquired == call.released)
    && (call.phase.Open? <==> call.handle && !call.fields.closed)
    && (call.phase.Open? ==> call.phase.c == call.conn)
    && (call.phase.Using? ==> !call.handle)
    && StreamOk(call)
  }

  /** What a stream released with is what the pool is told. */
  ghost predicate StreamOk(call: Call) {
    && (!call.handle ==> call.fields == GrpcStream.Fresh)
    && |call.fields.released| == One(call.fields.closed)
    && (call.handle && call.phase.Returning? ==>
          call.fields.closed && (call.phase.failed <==> call.fields.released[0] != GrpcStream.Nil))
  }

  ghost predicate SystemInv(cfg: Config, s: System) {
    && Inv(cfg, s.pool)
    && Balanced(s)
    && forall k | k in s.calls :: CallOk(s.calls[k])
  }

  lemma CallStaysOk(cfg: Config, s: System, k: nat, a: Action)
    requires SystemInv(cfg, s) && Possible(s, k, a) && !a.Begin?
    ensures CallOk(CallAfter(cfg, s.pool, s.calls[k], a))
  {
    assert CallOk(s.calls[k]);
  }

  /** The books of the pool move as the call's roles do. */
  ghost predicate Follows(pool: State<Id>, pool': State<Id>, call: Call, call': Call, role: Role, c: Id) {
    Booked(pool', role, c) == Booked(pool, role, c) - One(Plays(call, role, c)) + One(Plays(call', role, c))
  }

  lemma FollowsTaken(pool: State<Id>, pool': State<Id>, call: Call, taken: seq<Id>, role: Role, c: Id)
    requires call.phase.Start? && |taken| <= 1
    requires pool'.leases == pool.leases + multiset(taken) && pool'.inserting == pool.inserting
    requires pool'.closing == pool.closing && pool'.dialing == pool.dialing + (if taken == [] then 1 else 0)
    ensures Follows(pool, pool', call,
                    if taken == [] then call.(phase := Dialing)
                    else call.(phase := Using(taken[0]), acquired := call.acquired + 1), role, c)
  {
    assert multiset(taken)[c] == if taken != [] && taken[0] == c then 1 else 0;
  }

  lemma FollowsGet(cfg: Config, pool: State<Id>, call: Call, st: Id -> Connectivity, now: int, role: Role, c: Id)
    requires call.phase.Start?
    ensures Follows(pool, PoolAfter(cfg, pool, call, Get(st, now)), call, CallAfter(cfg, pool, call, Get(st, now)), role, c)
  {
    FollowsTaken(pool, Next(cfg, pool, GetScan(st, now)), call, Scan(cfg, pool.sp, st, now).taken, role, c);
  }

  /** What a release does to the books, whatever it does to the lists. */
  lemma ReturnBooks(cfg: Config, pool: State<Id>, c: Id, failed: bool, now: int, close: bool)
    requires c in pool.sp.conns && close == Release(cfg, pool.sp, c, failed, now).close
    ensures var pool' := Next(cfg, pool, DoRelease(c, failed, now));
            && pool'.leases == pool.leases - multiset{c}
            && pool'.closing == (if close then pool.closing + multiset{c} else pool.closing)
            && pool'.inserting == pool.inserting && pool'.dialing == pool.dialing
  {
  }

  lemma FollowsBooks(pool: State<Id>, pool': State<Id>, call: Call, role: Role, c: Id, close: bool)
    requires call.phase.Returning? && pool.leases[call.phase.c] > 0
    requires pool'.leases == pool.leases - multiset{call.phase.c}
    requires pool'.closing == if close then pool.closing + multiset{call.phase.c} else pool.closing
    requires pool'.inserting == pool.inserting && pool'.dialing == pool.dialing
    ensures Follows(pool, pool', call,
                    call.(phase := if close then Closing(call.phase.c) else Done, released := call.released + 1), role, c)
  {
  }

  lemma FollowsReturn(cfg: Config, pool: State<Id>, call: Call, now: int, role: Role, c: Id, close: bool)
    requires call.phase.Returning? && call.phase.c in pool.sp.conns && pool.leases[call.phase.c] > 0
    requires close == MustClose(cfg, pool, call.phase, now)
    ensures Follows(pool, Next(cfg, pool, DoRelease(call.phase.c, call.phase.failed, now)), call,
                    call.(phase := if close then Closing(call.phase.c) else Done, released := call.released + 1), role, c)
  {
    var p := call.phase;
    ReturnBooks(cfg, pool, p.c, p.failed, now, close);
    FollowsBooks(pool, Next(cfg, pool, DoRelease(p.c, p.failed, now)), call, role, c, close);
  }

  /** The steps of a call that leave the pool alone. */
  lemma FollowsNothing(cfg: Config, pool: State<Id>, call: Call, a: Action, role: Role, c: Id)
    requires CallOk(call) && (a.NoCodec? || a.Reply? || a.OpenOk? || a.OpenFailed? || a.InStream?)
    requires a.NoCodec? ==> call.phase.Start?
    requires a.InStream? ==> call.handle
    requires a.OpenOk? || a.OpenFailed? || a.Reply? ==> call.phase.Using?
    ensures PoolAfter(cfg, pool, call, a) == pool
    ensures Follows(pool, pool, call, CallAfter(cfg, pool, call, a), role, c)
  {
  }

  lemma FollowsDial(cfg: Config, pool: State<Id>, call: Call, a: Action, role: Role, c: Id)
    requires a.DialFailed? || a.DialWorked?
    requires call.phase.Dialing? && pool.dialing > 0
    ensures Follows(pool, PoolAfter(cfg, pool, call, a), call, CallAfter(cfg, pool, call, a), role, c)
  {
  }

  lemma FollowsPutIn(cfg: Config, pool: State<Id>, call: Call, role: Role, c: Id)
    requires call.phase.Inserting? && call.phase.c in pool.sp.conns && pool.inserting[call.phase.c] > 0
    ensures Follows(pool, PoolAfter(cfg, pool, call, PutIn), call, CallAfter(cfg, pool, call, PutIn), role, c)
  {
  }

  lemma FollowsClosed(pool: State<Id>, pool': State<Id>, call: Call, role: Role, c: Id)
    requires call.phase.Closing? && pool.closing[call.phase.c] > 0
    requires pool'.closing == pool.closing - multiset{call.phase.c} && pool'.leases == pool.leases
    requires pool'.inserting == pool.inserting && pool'.dialing == pool.dialing
    ensures Follows(pool, pool', call, call.(phase := Done), role, c)
  {
  }

  lemma CloseBooks(cfg: Config, pool: State<Id>, c: Id)
    ensures var pool' := Next(cfg, pool, DoClose(c));
            && pool'.closing == pool.closing - multiset{c} && pool'.leases == pool.leases
            && pool'.inserting == pool.inserting && pool'.dialing == pool.dialing
  {
  }

  lemma FollowsClose(cfg: Config, pool: State<Id>, call: Call, role: Role, c: Id)
    requires call.phase.Closing? && pool.closing[call.phase.c] > 0
    ensures Follows(pool, Next(cfg, pool, DoClose(call.phase.c)), call, call.(phase := Done), role, c)
  {
    CloseBooks(cfg, pool, call.phase.c);
    FollowsClosed(pool, Next(cfg, pool, DoClose(call.phase.c)), call, role, c);
  }

  /** The pool books exactly what the call does. */
  lemma Rebooked(cfg: Config, s: System, k: nat, a: Action, role: Role, c: Id)
    requires SystemInv(cfg, s) && Possible(s, k, a) && !a.Begin?
    ensures Follows(s.pool, PoolAfter(cfg, s.pool, s.calls[k], a), s.calls[k],
                    CallAfter(cfg, s.pool, s.calls[k], a), role, c)
  {
    var call := s.calls[k];
    assert CallOk(call);
    WhatACallHolds(s, k);
    match a
    case Get(st, now) => FollowsGet(cfg, s.pool, call, st, now, role, c);
    case Return(now) =>
      FollowsReturn(cfg, s.pool, call, now, role, c, MustClose(cfg, s.pool, call.phase, now));
    case DialFailed => FollowsDial(cfg, s.pool, call, a, role, c);
    case DialWorked(_, _) => FollowsDial(cfg, s.pool, call, a, role, c);
    case PutIn => FollowsPutIn(cfg, s.pool, call, role, c);
    case CloseConn => FollowsClose(cfg, s.pool, call, role, c);
    case _ => FollowsNothing(cfg, s.pool, call, a, role, c);
  }

  /** A call that plays a role is counted, so the pool has booked it. */
  lemma Played(s: System, k: nat, role: Role, c: Id)
    requires Balanced(s) && k in s.calls && Plays(s.calls[k], role, c)
    ensures Booked(s.pool, role, c) > 0
  {
    assert k in Who(s.calls, role, c);
    assert Booked(s.pool, role, c) == Count(s.calls, role, c);
  }

  /** The pool has booked what the call holds. */
  lemma WhatACallHolds(s: System, k: nat)
    requires Balanced(s) && k in s.calls
    ensures var p := s.calls[k].phase;
            && (p.Dialing? ==> s.pool.dialing > 0)
            && (p.Inserting? ==> s.pool.inserting[p.c] > 0 && p.c in s.pool.inserting)
            && (p.Using? || p.Open? || p.Returning? ==> s.pool.leases[p.c] > 0 && p.c in s.pool.leases)
            && (p.Closing? ==> s.pool.closing[p.c] > 0 && p.c in s.pool.closing)
  {
    match s.calls[k].phase
    case Dialing => Played(s, k, Dialler, 0);
    case Inserting(c) => Played(s, k, Inserter, c);
    case Using(c) => Played(s, k, Holder, c);
    case Open(c) => Played(s, k, Holder, c);
    case Returning(c, _) => Played(s, k, Holder, c);
    case Closing(c) => Played(s, k, Closer, c);
    case _ =>
  }

  // ---- the theorems ---------------------------------------------------------

  /** Every step a call makes on the pool is one the pool allows: every release is covered by a lease. */
  lemma PoolMoveIsAllowed(cfg: Config, s: System, k: nat, a: Action)
    requires SystemInv(cfg, s) && Possible(s, k, a) && !a.Begin?
    ensures forall e | e in PoolEvent(s.calls[k], a) :: Enabled(s.pool, e)
  {
    WhatACallHolds(s, k);
  }

  lemma PoolStaysOk(cfg: Config, s: System, k: nat, a: Action)
    requires SystemInv(cfg, s) && Possible(s, k, a)
    ensures Inv(cfg, SystemAfter(cfg, s, k, a).pool)
  {
    if !a.Begin? && PoolEvent(s.calls[k], a) != [] {
      PoolMoveIsAllowed(cfg, s, k, a);
      StepKeepsInv(cfg, s.pool, PoolEvent(s.calls[k], a)[0]);
    }
  }

  lemma StaysBalanced(cfg: Config, s: System, k: nat, a: Action)
    requires SystemInv(cfg, s) && Possible(s, k, a)
    ensures Balanced(SystemAfter(cfg, s, k, a))
  {
    var s' := SystemAfter(cfg, s, k, a);
    forall role, c ensures Booked(s'.pool, role, c) == Count(s'.calls, role, c) {
      assert Booked(s.pool, role, c) == Count(s.calls, role, c);
      CountChange(s.calls, k, s'.calls[k], role, c);
      if !a.Begin? {
        Rebooked(cfg, s, k, a, role, c);
      }
    }
  }

  lemma SystemStepKeepsInv(cfg: Config, s: System, k: nat, a: Action)
    requires SystemInv(cfg, s) && Possible(s, k, a)
    ensures SystemInv(cfg, SystemAfter(cfg, s, k, a))
  {
    PoolStaysOk(cfg, s, k, a);
    StaysBalanced(cfg, s, k, a);
    var s' := SystemAfter(cfg, s, k, a);
    forall j | j in s'.calls ensures CallOk(s'.calls[j]) {
      if j == k && !a.Begin? {
        CallStaysOk(cfg, s, k, a);
      }
    }
  }

  datatype Move = Move(k: nat, a: Action)

  function Empty(): System { System(Init(), map[]) }

  ghost predicate Runs(cfg: Config, states: seq<System>, moves: seq<Move>) {
    && |states| == |moves| + 1
    && states[0] == Empty()
    && forall i | 0 <= i < |moves| :: Moves(cfg, states, moves, i)
  }

  ghost predicate Moves(cfg: Config, states: seq<System>, moves: seq<Move>, i: nat)
    requires |states| == |moves| + 1 && i < |moves|
  {
    Possible(states[i], moves[i].k, moves[i].a) && states[i + 1] == SystemAfter(cfg, states[i], moves[i].k, moves[i].a)
  }

  lemma {:induction false} SystemRunKeepsInv(cfg: Config, states: seq<System>, moves: seq<Move>, i: nat)
    requires cfg.Valid() && Runs(cfg, states, moves) && i < |states|
    ensures SystemInv(cfg, states[i])
  {
    if i == 0 {
      forall role, c ensures Booked(Empty().pool, role, c) == Count(Empty().calls, role, c) {
        assert Who(Empty().calls, role, c) == {};
      }
    } else {
      SystemRunKeepsInv(cfg, states, moves, i - 1);
      assert Moves(cfg, states, moves, i - 1);
      SystemStepKeepsInv(cfg, states[i - 1], moves[i - 1].k, moves[i - 1].a);
    }
  }

  /** The connection a call is using, returning or about to insert. */
  predicate Holds(p: Phase) { p.Using? || p.Open? || p.Returning? || p.Inserting? }

  lemma WhatACallHoldsIsOpen(cfg: Config, s: System, k: nat)
    requires SystemInv(cfg, s) && k in s.calls && Holds(s.calls[k].phase)
    ensures Gone(s.pool, s.calls[k].phase.c) == 0
  {
    WhatACallHolds(s, k);
    assert ConnOk(cfg, s.pool, s.calls[k].phase.c);
  }

  /**
   Whatever calls and streams run, and however they interleave: what a call does to the pool
   is allowed there, it returns at most what it acquired, and exactly that once it is done.
   From its dial or its getConn to its release nobody has closed or dropped its connection.
   */
  lemma LeaseDiscipline(cfg: Config, states: seq<System>, moves: seq<Move>, i: nat, k: nat)
    requires cfg.Valid() && Runs(cfg, states, moves) && i < |states| && k in states[i].calls
    ensures var s, call := states[i], states[i].calls[k];
            && call.released <= call.acquired <= 1
            && (call.phase.Done? ==> call.released == call.acquired)
            && (Holds(call.phase) ==> Gone(s.pool, call.phase.c) == 0)
            && (call.handle && !call.fields.closed ==> call.phase == Open(call.conn) && call.released == 0)
    ensures i < |moves| && moves[i].k == k && !moves[i].a.Begin? ==>
              forall e | e in PoolEvent(states[i].calls[k], moves[i].a) :: Enabled(states[i].pool, e)
  {
    SystemRunKeepsInv(cfg, states, moves, i);
    var s, call := states[i], states[i].calls[k];
    assert CallOk(call);
    if Holds(call.phase) {
      WhatACallHoldsIsOpen(cfg, s, k);
    }
    if i < |moves| && moves[i].k == k && !moves[i].a.Begin? {
      assert Moves(cfg, states, moves, i);
      PoolMoveIsAllowed(cfg, s, k, moves[i].a);
    }
  }

  /** The locked sections of Send, Recv and Close that call `k` ran on its stream, in order. */
  ghost function Sections(moves: seq<Move>, k: nat): seq<GrpcStream.Section> {
    if moves == [] then []
    else
      var last := moves[|moves| - 1];
      Sections(moves[..|moves| - 1], k) + (if last.k == k && last.a.InStream? then [last.a.section] else [])
  }

  /** What the fields of a call are, given the sections it ran. */
  ghost predicate FieldsAre(s: System, k: nat, run: seq<GrpcStream.Section>) {
    if k in s.calls then s.calls[k].fields == GrpcStream.AfterAll(GrpcStream.Fresh, run) else run == []
  }

  lemma MoveKeepsFields(cfg: Config, s: System, m: Move, k: nat, run: seq<GrpcStream.Section>)
    requires Possible(s, m.k, m.a) && FieldsAre(s, k, run)
    ensures FieldsAre(SystemAfter(cfg, s, m.k, m.a), k, run + (if m.k == k && m.a.InStream? then [m.a.section] else []))
  {
    if m.k == k && m.a.InStream? {
      assert (run + [m.a.section])[..|run|] == run;
    } else {
      assert run + [] == run;
    }
  }

  /** The fields of every stream are what its own sections make of them. */
  lemma {:induction false} SectionsMakeFields(cfg: Config, states: seq<System>, moves: seq<Move>, i: nat, k: nat)
    requires Runs(cfg, states, moves) && i < |states|
    ensures FieldsAre(states[i], k, Sections(moves[..i], k))
  {
    if i > 0 {
      SectionsMakeFields(cfg, states, moves, i - 1, k);
      assert Moves(cfg, states, moves, i - 1);
      assert moves[..i][..i - 1] == moves[..i - 1];
      MoveKeepsFields(cfg, states[i - 1], moves[i - 1], k, Sections(moves[..i - 1], k));
    }
  }

  /**
   The lease of a stream is returned as failed exactly when a Send of that stream had failed and
   nothing was stored after that before its first Close.
   */
  lemma StreamReturnsItsError(cfg: Config, states: seq<System>, moves: seq<Move>, i: nat, k: nat)
    requires cfg.Valid() && Runs(cfg, states, moves) && i < |states| && k in states[i].calls
    requires states[i].calls[k].handle && states[i].calls[k].phase.Returning?
    ensures states[i].calls[k].phase.failed <==>
              exists n, e :: e != GrpcStream.Nil && GrpcStream.ClosedOn(Sections(moves[..i], k), n, e)
  {
    SystemRunKeepsInv(cfg, states, moves, i);
    SectionsMakeFields(cfg, states, moves, i, k);
    var call, run := states[i].calls[k], Sections(moves[..i], k);
    assert CallOk(call);
    var told := call.fields.released[0];
    assert call.fields.released == [told];
    if told != GrpcStream.Nil {
      GrpcStream.ReleasedWithError(run, told);
    }
    forall n: nat, e | e != GrpcStream.Nil && GrpcStream.ClosedOn(run, n, e) ensures told == e {
      GrpcStream.ReleasedWithError(run, e);
    }
  }

  // ---- how a unary call returns -----------------------------------------------

  /** How call `k`'s request came out, as often as it did: a reply or an error, or no stream. */
  ghost function Outcomes(moves: seq<Move>, k: nat): seq<bool> {
    if moves == [] then []
    else
      var last := moves[|moves| - 1];
      Outcomes(moves[..|moves| - 1], k) + (if last.k == k then OutcomeOf(last.a) else [])
  }

  ghost function OutcomeOf(a: Action): seq<bool> {
    if a.Reply? then [a.failed] else if a.OpenFailed? then [true] else []
  }

  /** What has come out so far, by the phase of the call. */
  ghost predicate OutcomesAre(s: System, k: nat, run: seq<bool>) {
    k in s.calls && !s.calls[k].handle ==>
      match s.calls[k].phase
      case Returning(_, failed) => run == [failed]
      case Closing(_) => true
      case Done => true
      case _ => run == []
  }

  lemma MoveKeepsOutcomes(cfg: Config, s: System, m: Move, k: nat, run: seq<bool>)
    requires SystemInv(cfg, s) && Possible(s, m.k, m.a)
    requires OutcomesAre(s, k, run) && (k !in s.calls ==> run == [])
    ensures OutcomesAre(SystemAfter(cfg, s, m.k, m.a), k, run + (if m.k == k then OutcomeOf(m.a) else []))
  {
    assert run + [] == run;
    if m.k == k && k in s.calls {
      assert CallOk(s.calls[k]);
    }
  }

  /** A move is of a call that is there afterwards, and leaves the others alone. */
  lemma MoveIsOfOneCall(cfg: Config, s: System, m: Move, k: nat)
    requires Possible(s, m.k, m.a)
    ensures var s' := SystemAfter(cfg, s, m.k, m.a);
            && m.k in s'.calls
            && (k != m.k ==> (k in s'.calls <==> k in s.calls) && (k in s.calls ==> s'.calls[k] == s.calls[k]))
            && (m.a.Begin? ==> m.k !in s.calls && s'.calls[m.k].released == 0 && s'.calls[m.k].acquired == 0)
            && (!m.a.Begin? ==> m.k in s.calls)
  {
  }

  /** A call that has not begun has done nothing. */
  lemma {:induction false} NothingBeforeBegin(cfg: Config, states: seq<System>, moves: seq<Move>, i: nat, k: nat)
    requires Runs(cfg, states, moves) && i < |states| && k !in states[i].calls
    ensures forall j | 0 <= j < i :: moves[j].k != k
    ensures Outcomes(moves[..i], k) == []
  {
    hide SystemAfter, Possible;
    if i > 0 {
      assert Moves(cfg, states, moves, i - 1);
      MoveIsOfOneCall(cfg, states[i - 1], moves[i - 1], k);
      NothingBeforeBegin(cfg, states, moves, i - 1, k);
      assert moves[..i][..i - 1] == moves[..i - 1];
    }
  }

  lemma {:induction false} OutcomesByPhase(cfg: Config, states: seq<System>, moves: seq<Move>, i: nat, k: nat)
    requires cfg.Valid() && Runs(cfg, states, moves) && i < |states|
    ensures OutcomesAre(states[i], k, Outcomes(moves[..i], k))
  {
    if i > 0 {
      OutcomesByPhase(cfg, states, moves, i - 1, k);
      SystemRunKeepsInv(cfg, states, moves, i - 1);
      assert Moves(cfg, states, moves, i - 1);
      assert moves[..i][..i - 1] == moves[..i - 1];
      if k !in states[i - 1].calls {
        NothingBeforeBegin(cfg, states, moves, i - 1, k);
      }
      MoveKeepsOutcomes(cfg, states[i - 1], moves[i - 1], k, Outcomes(moves[..i - 1], k));
    }
  }

  /** One of the call's own moves was a failure of its request. */
  ghost predicate RequestFailed(moves: seq<Move>, k: nat) {
    exists j :: 0 <= j < |moves| && moves[j].k == k && (moves[j].a == Reply(true) || moves[j].a == OpenFailed)
  }

  lemma {:induction false} OutcomesTell(moves: seq<Move>, k: nat)
    ensures true in Outcomes(moves, k) <==> RequestFailed(moves, k)
  {
    if moves != [] {
      var n := |moves| - 1;
      OutcomesTell(moves[..n], k);
      if RequestFailed(moves[..n], k) {
        var j :| 0 <= j < n && moves[..n][j].k == k && (moves[..n][j].a == Reply(true) || moves[..n][j].a == OpenFailed);
        assert moves[j] == moves[..n][j];
      }
      if RequestFailed(moves, k) {
        var j :| 0 <= j <= n && moves[j].k == k && (moves[j].a == Reply(true) || moves[j].a == OpenFailed);
        assert j < n ==> moves[..n][j] == moves[j];
      }
    }
  }

  /** A call without a stream returns its lease as failed exactly when its own request had failed. */
  lemma RequestReturnsItsError(cfg: Config, states: seq<System>, moves: seq<Move>, i: nat, k: nat)
    requires cfg.Valid() && Runs(cfg, states, moves) && i < |states| && k in states[i].calls
    requires !states[i].calls[k].handle && states[i].calls[k].phase.Returning?
    ensures states[i].calls[k].phase.failed <==> RequestFailed(moves[..i], k)
  {
    OutcomesByPhase(cfg, states, moves, i, k);
    OutcomesTell(moves[..i], k);
  }

  /**
   The last holder of a connection, returning it after a request: the connection stays open
   exactly when the request had no error, the idle quota has room, it is not too old, and it is
   listed or there is room for it.
   */
  lemma StaysOpenAfterRequest(cfg: Config, states: seq<System>, moves: seq<Move>, i: nat, k: nat, c: Id, now: int)
    requires cfg.Valid() && Runs(cfg, states, moves) && i < |moves| && moves[i] == Move(k, Return(now))
    requires k in states[i].calls && !states[i].calls[k].handle
    requires states[i].calls[k].phase.Returning? && states[i].calls[k].phase.c == c
    requires Holders(states[i].pool, c) == 1
    ensures var pool := states[i].pool;
            c in pool.sp.conns &&
            (Gone(states[i + 1].pool, c) == 0 <==>
               && !RequestFailed(moves[..i], k)
               && pool.sp.idle < cfg.maxIdle && now - pool.sp.conns[c].created <= cfg.ttl
               && (Listed(pool.sp, c) || pool.sp.count < cfg.size))
  {
    var s, failed := states[i], states[i].calls[k].phase.failed;
    RequestReturnsItsError(cfg, states, moves, i, k);
    SystemRunKeepsInv(cfg, states, moves, i);
    SystemRunKeepsInv(cfg, states, moves, i + 1);
    WhatACallHolds(s, k);
    WhatACallHoldsIsOpen(cfg, s, k);
    assert Moves(cfg, states, moves, i);
    ReleaseClosesExactlyWhen(cfg, s.pool, c, failed, now);
    assert Gone(s.pool, c) == 0;
    ReleaseBooks(cfg, s.pool, c, failed, now);
  }

  lemma ReleaseBooks(cfg: Config, pool: State<Id>, c: Id, failed: bool, now: int)
    requires c in pool.sp.conns
    ensures var pool' := Next(cfg, pool, DoRelease(c, failed, now));
            pool'.closed == pool.closed && pool'.dropped == pool.dropped
  {
  }

  /** A call that is over and has no stream. */
  ghost predicate Over(s: System, k: nat) { k in s.calls && s.calls[k].phase.Done? && !s.calls[k].handle }

  lemma OverStays(cfg: Config, s: System, m: Move, k: nat)
    requires Possible(s, m.k, m.a) && Over(s, k)
    ensures m.k != k && Over(SystemAfter(cfg, s, m.k, m.a), k)
  {
    MoveIsOfOneCall(cfg, s, m, k);
  }

  lemma {:induction false} NothingAfterOver(cfg: Config, states: seq<System>, moves: seq<Move>, i: nat, j: nat, k: nat)
    requires Runs(cfg, states, moves) && i <= j < |states| && Over(states[i], k)
    ensures Over(states[j], k) && forall n | i <= n < j :: moves[n].k != k
  {
    hide SystemAfter, Possible;
    if i < j {
      NothingAfterOver(cfg, states, moves, i, j - 1, k);
      assert Moves(cfg, states, moves, j - 1);
      OverStays(cfg, states[j - 1], moves[j - 1], k);
    }
  }

  /** A call without a codec, or whose dial failed, ends there: it is handed nothing and does nothing more. */
  lemma FailedStartEnds(cfg: Config, states: seq<System>, moves: seq<Move>, i: nat, j: nat, k: nat)
    requires cfg.Valid() && Runs(cfg, states, moves) && i < j < |states|
    requires moves[i] == Move(k, NoCodec) || moves[i] == Move(k, DialFailed)
    ensures Over(states[j], k) && Taken(cfg, states, moves, k, j) == 0
    ensures forall n | i < n < j :: moves[n].k != k
  {
    SystemRunKeepsInv(cfg, states, moves, i);
    assert Moves(cfg, states, moves, i);
    var call := states[i].calls[k];
    assert CallOk(call) && !call.handle && call.acquired == 0;
    CountersAreCounts(cfg, states, moves, i + 1, k);
    NothingAfterOver(cfg, states, moves, i + 1, j, k);
    TakenStays(cfg, states, moves, k, i + 1, j);
  }

  lemma {:induction false} TakenStays(cfg: Config, states: seq<System>, moves: seq<Move>, k: nat, i: nat, j: nat)
    requires i <= j < |states| && |states| == |moves| + 1 && forall n | i <= n < j :: moves[n].k != k
    ensures Taken(cfg, states, moves, k, j) == Taken(cfg, states, moves, k, i)
  {
    if i < j {
      TakenStays(cfg, states, moves, k, i, j - 1);
    }
  }

  // ---- counted by the moves ---------------------------------------------------

  /** How often call `k` has called release. */
  ghost function Returns(moves: seq<Move>, k: nat): nat {
    if moves == [] then 0
    else
      var last := moves[|moves| - 1];
      Returns(moves[..|moves| - 1], k) + One(last.k == k && last.a.Return?)
  }

  /** Move `i` ends a getConn with a connection: the walk found one, or a dialled one is put in. */
  ghost predicate Takes(cfg: Config, states: seq<System>, moves: seq<Move>, i: nat)
    requires i < |states| && i < |moves|
  {
    moves[i].a.PutIn? || (moves[i].a.Get? && Scan(cfg, states[i].pool.sp, moves[i].a.st, moves[i].a.now).taken != [])
  }

  /** How often call `k` has been handed a connection by its first `i` moves. */
  ghost function Taken(cfg: Config, states: seq<System>, moves: seq<Move>, k: nat, i: nat): nat
    requires i <= |states| && i <= |moves|
  {
    if i == 0 then 0
    else Taken(cfg, states, moves, k, i - 1) + One(moves[i - 1].k == k && Takes(cfg, states, moves, i - 1))
  }

  lemma MoveCounts(cfg: Config, s: System, m: Move)
    requires SystemInv(cfg, s) && Possible(s, m.k, m.a) && !m.a.Begin?
    ensures var call, call' := s.calls[m.k], SystemAfter(cfg, s, m.k, m.a).calls[m.k];
            && call'.released == call.released + One(m.a.Return?)
            && call'.acquired == call.acquired +
                 One(m.a.PutIn? || (m.a.Get? && Scan(cfg, s.pool.sp, m.a.st, m.a.now).taken != []))
  {
    hide Scan, Release, Next;
  }

  lemma {:induction false} CountersAreCounts(cfg: Config, states: seq<System>, moves: seq<Move>, i: nat, k: nat)
    requires cfg.Valid() && Runs(cfg, states, moves) && i < |states|
    ensures Returns(moves[..i], k) == if k in states[i].calls then states[i].calls[k].released else 0
    ensures Taken(cfg, states, moves, k, i) == if k in states[i].calls then states[i].calls[k].acquired else 0
  {
    if i > 0 {
      hide SystemAfter, Possible, SystemInv;
      var m := moves[i - 1];
      CountersAreCounts(cfg, states, moves, i - 1, k);
      SystemRunKeepsInv(cfg, states, moves, i - 1);
      assert Moves(cfg, states, moves, i - 1);
      assert moves[..i][..i - 1] == moves[..i - 1];
      MoveIsOfOneCall(cfg, states[i - 1], m, k);
      if m.k == k && !m.a.Begin? {
        MoveCounts(cfg, states[i - 1], m);
      }
    }
  }

  /**
   Every getConn that succeeded is matched by exactly one release: counted by the moves of the
   run, a call is handed at most one connection, releases no more than it was handed, and as
   often once it is done.
   */
  lemma EveryGetIsMatched(cfg: Config, states: seq<System>, moves: seq<Move>, i: nat, k: nat)
    requires cfg.Valid() && Runs(cfg, states, moves) && i < |states|
    ensures Returns(moves[..i], k) <= Taken(cfg, states, moves, k, i) <= 1
    ensures k in states[i].calls && states[i].calls[k].phase.Done? ==>
              Returns(moves[..i], k) == Taken(cfg, states, moves, k, i)
  {
    CountersAreCounts(cfg, states, moves, i, k);
    SystemRunKeepsInv(cfg, states, moves, i);
    if k in states[i].calls {
      assert CallOk(states[i].calls[k]);
    }
  }

  // ---- the pool below ---------------------------------------------------------

  lemma PoolStepOfMove(cfg: Config, states: seq<System>, moves: seq<Move>, j: nat) returns (es: seq<Event<Id>>)
    requires cfg.Valid() && Runs(cfg, states, moves) && j < |moves|
    ensures |es| <= 1
    ensures if es == [] then states[j + 1].pool == states[j].pool
            else Enabled(states[j].pool, es[0]) && states[j + 1].pool == Next(cfg, states[j].pool, es[0])
  {
    assert Moves(cfg, states, moves, j);
    SystemRunKeepsInv(cfg, states, moves, j);
    var m := moves[j];
    es := if m.a.Begin? then [] else PoolEvent(states[j].calls[m.k], m.a);
    if !m.a.Begin? {
      PoolMoveIsAllowed(cfg, states[j], m.k, m.a);
    }
  }

  /**
   What the calls make the pool do is a run of the pool; `n` is where it has come to by time
   `i`. So every theorem about runs of the pool holds of the pool below any calls.
   */
  lemma {:induction false} PoolRun(cfg: Config, states: seq<System>, moves: seq<Move>, i: nat, j: nat)
    returns (pools: seq<State<Id>>, events: seq<Event<Id>>, n: nat)
    requires cfg.Valid() && Runs(cfg, states, moves) && i <= j < |states|
    ensures RunTo(cfg, pools, events, states[j].pool)
    ensures n < |pools| && pools[n] == states[i].pool
    decreases j
  {
    hide Next, Enabled, Moves, SystemAfter;
    if j == 0 {
      pools, events, n := [Init()], [], 0;
    } else {
      var k := j - 1;
      pools, events, n := PoolRun(cfg, states, moves, if i < j then i else k, k);
      var es := PoolStepOfMove(cfg, states, moves, k);
      if es != [] {
        var last;
        pools, events, last := Extend(cfg, pools, events, states[k].pool, es[0]);
      }
      n := if i < j then n else |events|;
    }
  }

  /** A connection the pool has let go of is from then on held by no call. */
  lemma NoCallHoldsWhatIsLetGo(cfg: Config, states: seq<System>, moves: seq<Move>, i: nat, j: nat, k: nat)
    requires cfg.Valid() && Runs(cfg, states, moves) && i <= j < |states|
    requires k in states[j].calls && Holds(states[j].calls[k].phase)
    ensures Gone(states[i].pool, states[j].calls[k].phase.c) == 0
  {
    var pools, events, n := PoolRun(cfg, states, moves, i, j);
    SystemRunKeepsInv(cfg, states, moves, j);
    WhatACallHoldsIsOpen(cfg, states[j], k);
    RunIsMonotone(cfg, pools, events, n, |events|, states[j].calls[k].phase.c);
  }

  /** When every call is done, the pool holds only idle connections, within its quotas. */
  lemma AllDoneIsQuiet(cfg: Config, states: seq<System>, moves: seq<Move>, i: nat)
    requires cfg.Valid() && Runs(cfg, states, moves) && i < |states|
    requires forall k | k in states[i].calls :: states[i].calls[k].phase.Done?
    ensures Quiet(cfg, states[i].pool) && states[i].pool.closing == multiset{}
  {
    SystemRunKeepsInv(cfg, states, moves, i);
    var s := states[i];
    forall role, c ensures Booked(s.pool, role, c) == 0 {
      assert Who(s.calls, role, c) == {};
      assert Booked(s.pool, role, c) == Count(s.calls, role, c);
    }
    assert forall c :: s.pool.leases[c] == Booked(s.pool, Holder, c);
    assert forall c :: s.pool.inserting[c] == Booked(s.pool, Inserter, c);
    assert forall c :: s.pool.closing[c] == Booked(s.pool, Closer, c);
    assert s.pool.leases == multiset{};
    assert s.pool.inserting == multiset{};
    assert s.pool.closing == multiset{};
    QuietWithoutHolders(cfg, s.pool);
  }
}
