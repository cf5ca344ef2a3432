/**
 The client side of one gRPC stream: what Send, Recv and Close do to its `closed` and `err`
 fields, and with which error its lease is released.

 The results of the transport calls are arguments. Each method is a sequence of at most two
 locked sections, and any number of threads may interleave those.
 */
module GrpcStream {

  datatype Err = Nil | EndOfStream | Failure(code: int)

  /** The fields of a stream; `released` logs the errors its close function was called with. */
  datatype Fields = Fields(closed: bool, err: Err, released: seq<Err>)

  datatype Section = Store(e: Err) | Shut

  function After(f: Fields, s: Section): Fields {
    match s
    case Store(e) => f.(err := e)
    case Shut => if f.closed then f else Fields(true, f.err, f.released + [f.err])
  }

  function AfterAll(f: Fields, run: seq<Section>): Fields {
    if run == [] then f else After(AfterAll(f, run[..|run| - 1]), run[|run| - 1])
  }

  const Fresh := Fields(false, Nil, [])

  // ---- the sections of each method ------------------------------------------

  datatype Call = SendCall(sent: Err) | RecvCall(got: Err) | CloseCall

  /** `defer g.setError(err)` evaluates `err` on entry, so what a Recv stores is always nil. */
  function SectionsOf(call: Call): seq<Section> {
    match call
    case SendCall(sent) => if sent != Nil then [Store(sent)] else []
    case RecvCall(got) => if got != Nil then [Shut, Store(Nil)] else [Store(Nil)]
    case CloseCall => [Shut]
  }

  class Stream {
    var closed: bool
    var err: Err
    var released: seq<Err>

    constructor ()
      ensures State() == Fresh
    {
      closed, err, released := false, Nil, [];
    }

    function State(): Fields
      reads this
    {
      Fields(closed, err, released)
    }

    method SetError(e: Err)
      modifies this
      ensures State() == After(old(State()), Store(e))
    {
      err := e;
    }

    method Send(sent: Err) returns (r: Err)
      modifies this
      ensures State() == AfterAll(old(State()), SectionsOf(SendCall(sent)))
      ensures r == sent
      ensures err == if sent != Nil then sent else old(err)
      ensures closed == old(closed) && released == old(released)
    {
      if sent != Nil {
        Alone(State(), Store(sent));
        SetError(sent);
      }
      return sent;
    }

    method Close(halfClose: Err) returns (r: Err)
      modifies this
      ensures State() == AfterAll(old(State()), SectionsOf(CloseCall))
      ensures closed && err == old(err)
      ensures released == if old(closed) then old(released) else old(released) + [old(err)]
      ensures r == if old(closed) then Nil else halfClose
    {
      Alone(State(), Shut);
      if closed {
        return Nil;
      }
      closed := true;
      released := released + [err];
      return halfClose;
    }

    method Recv(got: Err, halfClose: Err) returns (r: Err)
      modifies this
      ensures State() == AfterAll(old(State()), SectionsOf(RecvCall(got)))
      ensures released == if got != Nil && !old(closed) then old(released) + [old(err)] else old(released)
      ensures err == Nil && (got != Nil ==> closed) && (got == Nil ==> closed == old(closed))
      ensures r == if got == EndOfStream && !old(closed) && halfClose != Nil then halfClose else got
    {
      ghost var before := State();
      r := got;
      if got != Nil {
        var closeErr := Close(halfClose);
        if got == EndOfStream && closeErr != Nil {
          r := closeErr;
        }
        Alone(before, Shut);
        Pair(before, Shut, Store(Nil));
      } else {
        Alone(before, Store(Nil));
      }
      SetError(Nil);
    }
  }

  lemma Alone(f: Fields, s: Section)
    ensures AfterAll(f, [s]) == After(f, s)
  {
    assert [s][..0] == [];
  }

  lemma Pair(f: Fields, s: Section, t: Section)
    ensures AfterAll(f, [s, t]) == After(After(f, s), t)
  {
    assert [s, t][..1] == [s];
    Alone(f, s);
  }

  // ---- any interleaving -----------------------------------------------------

  /** The first Close in `run`, or its length. */
  function FirstClose(run: seq<Section>): (k: nat)
    ensures k <= |run| && (k < |run| ==> run[k].Shut?)
    ensures forall i | 0 <= i < k :: !run[i].Shut?
  {
    if run == [] || run[0].Shut? then 0 else 1 + FirstClose(run[1..])
  }

  /**
   However Send, Recv and Close interleave, the lease is released exactly when some Close has
   run, once, with the error that was in the field at the first Close.
   */
  lemma {:induction false} ReleasedOnce(run: seq<Section>)
    ensures var f, k := AfterAll(Fresh, run), FirstClose(run);
            && (f.closed <==> k < |run|)
            && f.released == if k < |run| then [AfterAll(Fresh, run[..k]).err] else []
  {
    if run != [] {
      var n := |run| - 1;
      ReleasedOnce(run[..n]);
      var k, k' := FirstClose(run), FirstClose(run[..n]);
      assert forall i | 0 <= i < n :: run[i] == run[..n][i];
      assert k' == if k < n then k else n;
      if k < n {
        assert run[..n][..k] == run[..k];
      }
    }
  }

  /** The first Close of `run` is at `k`, straight after a section that stored `e`. */
  ghost predicate ClosedOn(run: seq<Section>, k: nat, e: Err) {
    && 0 < k < |run| && run[k].Shut? && run[k - 1] == Store(e)
    && Shut !in run[..k]
  }

  /**
   The lease is released with an error exactly when a failed Send stored it and nothing, not
   even the end of a Recv, stored over it before the first Close.
   */
  lemma ReleasedWithError(run: seq<Section>, e: Err)
    requires e != Nil
    ensures AfterAll(Fresh, run).released == [e] <==> exists k :: ClosedOn(run, k, e)
  {
    var k := FirstClose(run);
    ReleasedOnce(run);
    if 0 < k < |run| {
      var last := run[k - 1];
      assert run[..k][..k - 1] == run[..k - 1];
      assert AfterAll(Fresh, run[..k]) == After(AfterAll(Fresh, run[..k - 1]), last);
      assert ClosedOn(run, k, e) <==> last == Store(e);
    }
    forall i: nat | ClosedOn(run, i, e) ensures i == k {
      assert forall j | 0 <= j < i :: run[..i][j] == run[j];
    }
  }

  /** With no failed Send the lease is released as if all went well, whatever the Recvs got. */
  lemma RecvFailuresAreNotReported(run: seq<Section>)
    requires forall s | s in run :: s == Shut || s == Store(Nil)
    ensures AfterAll(Fresh, run).released == if Shut in run then [Nil] else []
  {
    ReleasedOnce(run);
    forall e | e != Nil ensures AfterAll(Fresh, run).released != [e] {
      ReleasedWithError(run, e);
      forall i: nat | 0 < i < |run| ensures !ClosedOn(run, i, e) {
        assert run[i - 1] in run;
      }
    }
  }

  // ---- threads calling the methods ------------------------------------------

  /** A thread in a call, with so many of its sections done. */
  datatype Thread = Thread(call: Call, done: nat)

  datatype System = System(fields: Fields, threads: map<nat, Thread>)

  const Opened := System(Fresh, map[])

  datatype Step = Begin(k: nat, call: Call) | Go(k: nat)

  predicate Busy(s: System, k: nat) { k in s.threads && s.threads[k].done < |SectionsOf(s.threads[k].call)| }

  predicate Enabled(s: System, e: Step) { if e.Begin? then !Busy(s, e.k) else Busy(s, e.k) }

  function Next(s: System, e: Step): System
    requires Enabled(s, e)
  {
    match e
    case Begin(k, call) => s.(threads := s.threads[k := Thread(call, 0)])
    case Go(k) =>
      var t := s.threads[k];
      System(After(s.fields, SectionsOf(t.call)[t.done]), s.threads[k := t.(done := t.done + 1)])
  }

  ghost predicate IsRun(states: seq<System>, steps: seq<Step>) {
    && |states| == |steps| + 1 && states[0] == Opened
    && forall i | 0 <= i < |steps| :: StepAt(states, steps, i)
  }

  ghost predicate StepAt(states: seq<System>, steps: seq<Step>, i: nat)
    requires |states| == |steps| + 1 && i < |steps|
  {
    Enabled(states[i], steps[i]) && states[i + 1] == Next(states[i], steps[i])
  }

  /** At step `i` a thread goes on with `call`, of which it has done `done` sections. */
  ghost predicate Does(states: seq<System>, steps: seq<Step>, i: nat, call: Call, done: nat) {
    && i < |steps| && i < |states|
    && steps[i].Go? && steps[i].k in states[i].threads && states[i].threads[steps[i].k] == Thread(call, done)
  }

  /** A Send that failed with `e` stores its error. */
  ghost predicate SendStores(states: seq<System>, steps: seq<Step>, i: nat, e: Err) {
    e != Nil && Does(states, steps, i, SendCall(e), 0)
  }

  /** A Recv ends: at once if it got a message, else after its Close. */
  ghost predicate RecvEnds(states: seq<System>, steps: seq<Step>, i: nat) {
    Does(states, steps, i, RecvCall(Nil), 0) || exists e :: e != Nil && Does(states, steps, i, RecvCall(e), 1)
  }

  /** A Close, or the one that a failed Recv begins with. */
  ghost predicate Closes(states: seq<System>, steps: seq<Step>, i: nat) {
    Does(states, steps, i, CloseCall, 0) || exists e :: e != Nil && Does(states, steps, i, RecvCall(e), 0)
  }

  /** Something is stored over what was there. */
  ghost predicate Stores(states: seq<System>, steps: seq<Step>, i: nat) {
    RecvEnds(states, steps, i) || exists e :: SendStores(states, steps, i, e)
  }

  /** Every section is of one of these kinds, and does what its kind says. */
  lemma EachSection(states: seq<System>, steps: seq<Step>, i: nat)
    requires IsRun(states, steps) && i < |steps|
    ensures var f, f' := states[i].fields, states[i + 1].fields;
            && (Closes(states, steps, i) ==> f' == After(f, Shut) && !Stores(states, steps, i))
            && (RecvEnds(states, steps, i) ==> f' == f.(err := Nil) && forall e :: !SendStores(states, steps, i, e))
            && (forall e :: SendStores(states, steps, i, e) ==> f' == f.(err := e))
            && (!Closes(states, steps, i) && !Stores(states, steps, i) ==> f' == f)
  {
    assert StepAt(states, steps, i);
    if steps[i].Go? {
      var t := states[i].threads[steps[i].k];
      assert Does(states, steps, i, t.call, t.done);
      match t.call
      case SendCall(e) => assert SendStores(states, steps, i, e);
      case _ =>
    }
  }

  /** A Send stored `e` at step `i`, and nothing was stored from then to step `n`. */
  ghost predicate StoredFor(states: seq<System>, steps: seq<Step>, i: nat, n: nat, e: Err) {
    i < n && SendStores(states, steps, i, e) && forall j: nat | i < j < n :: !Stores(states, steps, j)
  }

  ghost predicate StoredLast(states: seq<System>, steps: seq<Step>, n: nat, e: Err) {
    exists i: nat :: StoredFor(states, steps, i, n, e)
  }

  lemma {:induction false} ErrIsStoredLast(states: seq<System>, steps: seq<Step>, n: nat, e: Err)
    requires IsRun(states, steps) && n <= |steps| && e != Nil
    ensures states[n].fields.err == e <==> StoredLast(states, steps, n, e)
  {
    if n > 0 {
      var m := n - 1;
      ErrIsStoredLast(states, steps, m, e);
      EachSection(states, steps, m);
      if SendStores(states, steps, m, e) {
        assert StoredFor(states, steps, m, n, e);
      } else {
        forall i: nat ensures StoredFor(states, steps, i, n, e) <==> StoredFor(states, steps, i, m, e) && !Stores(states, steps, m) {
        }
      }
    }
  }

  /** Step `k` is the first of the run, before step `n`, that closes. */
  ghost predicate FirstCloses(states: seq<System>, steps: seq<Step>, k: nat, n: nat) {
    k < n && Closes(states, steps, k) && forall j: nat | j < k :: !Closes(states, steps, j)
  }

  /** Released once, by the first step that closes, with what is stored then. */
  lemma {:induction false} ReleasedByFirst(states: seq<System>, steps: seq<Step>, n: nat)
    requires IsRun(states, steps) && n <= |steps|
    ensures var f := states[n].fields;
            && (!f.closed ==> f.released == [] && forall j: nat | j < n :: !Closes(states, steps, j))
            && (f.closed ==> exists k: nat ::
                  FirstCloses(states, steps, k, n) && f.released == [states[k].fields.err])
  {
    if n > 0 {
      var m := n - 1;
      ReleasedByFirst(states, steps, m);
      EachSection(states, steps, m);
      if states[m].fields.closed {
        var k: nat :| FirstCloses(states, steps, k, m) && states[m].fields.released == [states[k].fields.err];
        assert FirstCloses(states, steps, k, n);
      } else if Closes(states, steps, m) {
        assert FirstCloses(states, steps, m, n);
      }
    }
  }

  /**
   Threads calling Send, Recv and Close as they like: the lease is released with an error exactly
   when a Send failed with it and neither a failed Send nor a Recv stored over it before the
   first Close, by a Close or by a failed Recv.
   */
  lemma ReleasedWithTheErrorOfASend(states: seq<System>, steps: seq<Step>, n: nat, e: Err)
    requires IsRun(states, steps) && n <= |steps| && e != Nil
    ensures states[n].fields.released == [e] <==>
              exists k: nat :: FirstCloses(states, steps, k, n) && StoredLast(states, steps, k, e)
  {
    ReleasedByFirst(states, steps, n);
    forall k: nat | FirstCloses(states, steps, k, n)
      ensures states[n].fields.released == [e] <==> StoredLast(states, steps, k, e)
    {
      ErrIsStoredLast(states, steps, k, e);
    }
  }
}
