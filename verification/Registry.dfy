/**
 The registry of clients by address: GetConnClient, with its unlocked load, its lock and its
 second load, and DelConnClient, in any interleaving of any number of threads.

 Each step is one operation on the concurrent map or on the mutex. Which fresh client a
 creation yields is a choice of the step.
 */
module Registry {
  import opened SeqFacts

  type Addr = string
  type Client = nat

  datatype Phase =
    | Loading
    | Locking
    | Reloading                // with the lock
    | Creating
    | Storing(made: Client)
    | Unlocking(got: Client)
    | Done(got: Client)

  /**
   One GetConnClient. `began` and `ended` are the times of the call's first and last step,
   `epoch` and `until` how many deletions of its address had taken effect by then.
   */
  datatype Call = Call(addr: Addr, phase: Phase, began: nat, epoch: nat, ended: nat, until: nat)

  datatype Lock = Free | HeldBy(k: nat)

  /** `log` holds the clients stored for each address, oldest first; `deletions` counts those that removed one. */
  datatype State = State(time: nat, reg: map<Addr, Client>, lock: Lock, calls: map<nat, Call>,
                         made: set<Client>, log: map<Addr, seq<Client>>, deletions: multiset<Addr>)

  const Start := State(0, map[], Free, map[], {}, map[], multiset{})

  function Log(s: State, a: Addr): seq<Client> { if a in s.log then s.log[a] else [] }

  datatype Step = Get(k: nat, a: Addr) | Move(k: nat, c: Client) | Delete(a: Addr)

  predicate Enabled(s: State, e: Step) {
    match e
    case Get(k, _) => k !in s.calls
    case Delete(_) => true
    case Move(k, c) =>
      && k in s.calls && !s.calls[k].phase.Done?
      && (s.calls[k].phase.Locking? ==> s.lock.Free?)
      && (s.calls[k].phase.Creating? ==> c !in s.made)
  }

  function Finished(s: State, call: Call, c: Client): Call {
    call.(phase := Done(c), ended := s.time, until := s.deletions[call.addr])
  }

  function CallAfter(s: State, call: Call, c: Client): Call {
    match call.phase
    case Loading => if call.addr in s.reg then Finished(s, call, s.reg[call.addr]) else call.(phase := Locking)
    case Locking => call.(phase := Reloading)
    case Reloading => call.(phase := if call.addr in s.reg then Unlocking(s.reg[call.addr]) else Creating)
    case Creating => call.(phase := Storing(c))
    case Storing(made) => call.(phase := Unlocking(made))
    case Unlocking(got) => Finished(s, call, got)
    case Done(_) => call
  }

  function LockAfter(s: State, k: nat, p: Phase): Lock {
    match p
    case Locking => HeldBy(k)
    case Unlocking(_) => Free
    case _ => s.lock
  }

  function Next(s: State, e: Step): State {
    match e
    case Get(k, a) =>
      s.(time := s.time + 1, calls := s.calls[k := Call(a, Loading, s.time + 1, s.deletions[a], 0, 0)])
    case Delete(a) =>
      if a in s.reg then s.(time := s.time + 1, reg := s.reg - {a}, deletions := s.deletions + multiset{a})
      else s.(time := s.time + 1)
    case Move(k, c) =>
      if k !in s.calls then s else
      var call := s.calls[k];
      var a, p := call.addr, call.phase;
      State(s.time + 1,
            if p.Storing? then s.reg[a := p.made] else s.reg,
            LockAfter(s, k, p),
            s.calls[k := CallAfter(s, call, c)],
            if p.Creating? then s.made + {c} else s.made,
            if p.Storing? then s.log[a := Log(s, a) + [p.made]] else s.log,
            s.deletions)
  }

  // ---- the invariant --------------------------------------------------------

  predicate Locked(p: Phase) { p.Reloading? || p.Creating? || p.Storing? || p.Unlocking? }

  /** What holds of an address: stores are deletions plus what is there, and what is there was stored last. */
  ghost predicate AddrOk(s: State, a: Addr) {
    var log := Log(s, a);
    && |log| == s.deletions[a] + (if a in s.reg then 1 else 0)
    && (a in s.reg ==> log[|log| - 1] == s.reg[a])
    && NoDup(log) && forall c | c in log :: c in s.made
  }

  /** `c` was stored for `a` in an epoch from `lo` to `hi`. */
  ghost predicate StoredWithin(s: State, a: Addr, c: Client, lo: nat, hi: nat) {
    exists e :: lo <= e <= hi && e < |Log(s, a)| && Log(s, a)[e] == c
  }

  ghost predicate CallOk(s: State, k: nat)
    requires k in s.calls
  {
    var call := s.calls[k];
    && (Locked(call.phase) <==> s.lock == HeldBy(k))
    && (call.phase.Creating? || call.phase.Storing? ==> call.addr !in s.reg)
    && (call.phase.Storing? ==> call.phase.made in s.made && call.phase.made !in Log(s, call.addr))
    && call.epoch <= s.deletions[call.addr]
    && call.began <= s.time
    && (call.phase.Unlocking? ==> StoredWithin(s, call.addr, call.phase.got, call.epoch, s.deletions[call.addr]))
    && (call.phase.Done? ==> call.until <= s.deletions[call.addr])
    && (call.phase.Done? ==> StoredWithin(s, call.addr, call.phase.got, call.epoch, call.until))
  }

  ghost predicate Inv(s: State) {
    && (s.lock.HeldBy? ==> s.lock.k in s.calls)
    && (forall a :: AddrOk(s, a))
    && forall k | k in s.calls :: CallOk(s, k)
  }

  /** What was stored stays in the log, at its place. */
  lemma LogGrows(s: State, e: Step, a: Addr)
    requires Enabled(s, e)
    ensures Log(s, a) <= Log(Next(s, e), a) && s.deletions[a] <= Next(s, e).deletions[a]
    ensures Log(Next(s, e), a) == Log(s, a) ||
            (e.Move? && e.k in s.calls && s.calls[e.k].phase.Storing? && s.calls[e.k].addr == a
             && Log(Next(s, e), a) == Log(s, a) + [s.calls[e.k].phase.made])
  {
  }

  lemma StoredStays(s: State, e: Step, a: Addr, c: Client, lo: nat, hi: nat, hi': nat)
    requires Enabled(s, e) && StoredWithin(s, a, c, lo, hi) && hi <= hi'
    ensures StoredWithin(Next(s, e), a, c, lo, hi')
  {
    LogGrows(s, e, a);
    var i :| lo <= i <= hi && i < |Log(s, a)| && Log(s, a)[i] == c;
    assert Log(Next(s, e), a)[i] == c;
  }

  lemma AddrStaysOk(s: State, e: Step, a: Addr)
    requires Inv(s) && Enabled(s, e)
    ensures AddrOk(Next(s, e), a)
  {
    assert AddrOk(s, a);
    if e.Move? {
      assert CallOk(s, e.k);
      if s.calls[e.k].phase.Storing? && s.calls[e.k].addr == a {
        NoDupConcat(Log(s, a), [s.calls[e.k].phase.made]);
      }
    }
  }

  /** The client registered now was stored in the present epoch. */
  lemma RegisteredIsStored(s: State, a: Addr)
    requires AddrOk(s, a) && a in s.reg
    ensures forall lo: nat | lo <= s.deletions[a] :: StoredWithin(s, a, s.reg[a], lo, s.deletions[a])
  {
    assert Log(s, a)[s.deletions[a]] == s.reg[a];
  }

  /** A step of another thread, or a deletion, leaves a call in order. */
  lemma OtherStaysOk(s: State, e: Step, k: nat)
    requires Inv(s) && Enabled(s, e) && k in s.calls && (e.Move? ==> e.k != k)
    ensures CallOk(Next(s, e), k)
  {
    var call := s.calls[k];
    assert CallOk(s, k);
    LogGrows(s, e, call.addr);
    if e.Move? {
      assert CallOk(s, e.k);
    }
    if call.phase.Unlocking? {
      StoredStays(s, e, call.addr, call.phase.got, call.epoch, s.deletions[call.addr], Next(s, e).deletions[call.addr]);
    } else if call.phase.Done? {
      StoredStays(s, e, call.addr, call.phase.got, call.epoch, call.until, call.until);
    }
  }

  lemma MoverStaysOk(s: State, k: nat, c: Client)
    requires Inv(s) && Enabled(s, Move(k, c))
    ensures CallOk(Next(s, Move(k, c)), k)
  {
    var call, s' := s.calls[k], Next(s, Move(k, c));
    assert CallOk(s, k) && AddrOk(s, call.addr);
    AddrStaysOk(s, Move(k, c), call.addr);
    if call.addr in s'.reg {
      RegisteredIsStored(s', call.addr);
    }
    if call.phase.Unlocking? {
      StoredStays(s, Move(k, c), call.addr, call.phase.got, call.epoch, s.deletions[call.addr], s.deletions[call.addr]);
    }
    assert forall x | x in Log(s, call.addr) :: x in s.made;
  }

  lemma StepKeepsInv(s: State, e: Step)
    requires Inv(s) && Enabled(s, e)
    ensures Inv(Next(s, e))
  {
    var s' := Next(s, e);
    forall a ensures AddrOk(s', a) {
      AddrStaysOk(s, e, a);
    }
    forall k | k in s'.calls ensures CallOk(s', k) {
      if e.Move? && e.k == k {
        MoverStaysOk(s, k, e.c);
      } else if k in s.calls {
        OtherStaysOk(s, e, k);
      }
    }
  }

  // ---- over whole runs ------------------------------------------------------

  ghost predicate IsRun(states: seq<State>, steps: seq<Step>) {
    && |states| == |steps| + 1
    && states[0] == Start
    && forall i | 0 <= i < |steps| :: StepAt(states, steps, i)
  }

  ghost predicate StepAt(states: seq<State>, steps: seq<Step>, i: nat)
    requires |states| == |steps| + 1 && i < |steps|
  {
    Enabled(states[i], steps[i]) && states[i + 1] == Next(states[i], steps[i])
  }

  lemma {:induction false} RunKeepsInv(states: seq<State>, steps: seq<Step>, n: nat)
    requires IsRun(states, steps) && n < |states|
    ensures Inv(states[n]) && states[n].time == n
  {
    if n > 0 {
      RunKeepsInv(states, steps, n - 1);
      assert StepAt(states, steps, n - 1);
      StepKeepsInv(states[n - 1], steps[n - 1]);
    }
  }

  ghost predicate Registered(states: seq<State>, i: nat, a: Addr, c: Client) {
    i < |states| && a in states[i].reg && states[i].reg[a] == c
  }

  ghost predicate SeenWithin(states: seq<State>, a: Addr, c: Client, lo: nat, hi: nat) {
    exists i :: lo <= i <= hi && Registered(states, i, a, c)
  }

  /** What a call has taken was registered since it began, and before it ended if it has. */
  ghost predicate TookRegistered(states: seq<State>, n: nat, call: Call) {
    && (call.phase.Unlocking? ==> SeenWithin(states, call.addr, call.phase.got, call.began, n))
    && (call.phase.Done? ==> SeenWithin(states, call.addr, call.phase.got, call.began, call.ended))
  }

  lemma MoverTookRegistered(states: seq<State>, n: nat, k: nat, c: Client)
    requires n + 1 < |states| && Inv(states[n]) && Enabled(states[n], Move(k, c)) && states[n].time == n
    requires states[n + 1] == Next(states[n], Move(k, c))
    requires TookRegistered(states, n, states[n].calls[k])
    ensures TookRegistered(states, n + 1, states[n + 1].calls[k])
  {
    var call := states[n].calls[k];
    assert CallOk(states[n], k);
    if call.addr in states[n].reg {
      assert Registered(states, n, call.addr, states[n].reg[call.addr]);
    }
    if call.phase.Storing? {
      assert Registered(states, n + 1, call.addr, call.phase.made);
    }
  }

  lemma {:induction false} CallsTookRegistered(states: seq<State>, steps: seq<Step>, n: nat, k: nat)
    requires IsRun(states, steps) && n < |states| && k in states[n].calls
    ensures TookRegistered(states, n, states[n].calls[k])
  {
    if n > 0 {
      var m, e := n - 1, steps[n - 1];
      assert StepAt(states, steps, m);
      RunKeepsInv(states, steps, m);
      if k in states[m].calls {
        CallsTookRegistered(states, steps, m, k);
        if e.Move? && e.k == k {
          MoverTookRegistered(states, m, k, e.c);
        }
      }
    }
  }

  // ---- calls and deletions by their place in the run -------------------------

  /** Call `k`, for `a`, begins with step `b` and ends with step `d`, returning `c`. */
  ghost predicate Span(states: seq<State>, steps: seq<Step>, k: nat, a: Addr, b: nat, d: nat, c: Client) {
    && b < d < |steps| && d + 1 < |states|
    && steps[b] == Get(k, a)
    && steps[d].Move? && steps[d].k == k
    && k in states[d + 1].calls && states[d + 1].calls[k].phase == Done(c)
  }

  /** What a call has noted of its first and last step. */
  ghost predicate NotedRight(states: seq<State>, n: nat, call: Call, b: nat) {
    && b < n < |states| && call.began == b + 1
    && call.epoch == states[b].deletions[call.addr]
    && (call.phase.Done? ==> call.ended < n && call.until == states[call.ended].deletions[call.addr])
  }

  lemma StepNotes(states: seq<State>, steps: seq<Step>, n: nat, k: nat, b: nat)
    requires IsRun(states, steps) && n < |steps| && states[n].time == n
    requires k in states[n].calls ==> NotedRight(states, n, states[n].calls[k], b)
    requires k !in states[n].calls && steps[n].Get? && steps[n].k == k ==> b == n
    ensures k in states[n + 1].calls ==> NotedRight(states, n + 1, states[n + 1].calls[k], b)
  {
    assert StepAt(states, steps, n);
  }

  /** A call is there from its first step on, for one address; it begins only once. */
  lemma {:induction false} CallIsNoted(states: seq<State>, steps: seq<Step>, n: nat, k: nat, a: Addr, b: nat)
    requires IsRun(states, steps) && b < n < |states| && steps[b] == Get(k, a)
    ensures k in states[n].calls && states[n].calls[k].addr == a && NotedRight(states, n, states[n].calls[k], b)
  {
    assert StepAt(states, steps, n - 1);
    RunKeepsInv(states, steps, n - 1);
    if b < n - 1 {
      CallIsNoted(states, steps, n - 1, k, a, b);
    }
    StepNotes(states, steps, n - 1, k, b);
  }

  lemma SpanIsNoted(states: seq<State>, steps: seq<Step>, k: nat, a: Addr, b: nat, d: nat, c: Client)
    requires IsRun(states, steps) && Span(states, steps, k, a, b, d, c)
    ensures var call := states[d + 1].calls[k];
            && call == Call(a, Done(c), b + 1, states[b].deletions[a], d, states[d].deletions[a])
  {
    CallIsNoted(states, steps, d, k, a, b);
    CallIsNoted(states, steps, d + 1, k, a, b);
    RunKeepsInv(states, steps, d);
    assert StepAt(states, steps, d);
  }

  /** A call returns a client that was the registered one at some moment between its first and its last step. */
  lemma ReturnsRegistered(states: seq<State>, steps: seq<Step>, k: nat, a: Addr, b: nat, d: nat, c: Client)
    requires IsRun(states, steps) && Span(states, steps, k, a, b, d, c)
    ensures exists i :: b < i <= d && Registered(states, i, a, c)
  {
    SpanIsNoted(states, steps, k, a, b, d, c);
    CallsTookRegistered(states, steps, d + 1, k);
  }

  lemma {:induction false} StillLoading(states: seq<State>, steps: seq<Step>, k: nat, a: Addr, b: nat, n: nat)
    requires IsRun(states, steps) && b < n < |states| && steps[b] == Get(k, a)
    requires forall j | b < j < n :: !(steps[j].Move? && steps[j].k == k)
    ensures k in states[n].calls && states[n].calls[k].addr == a && states[n].calls[k].phase == Loading
  {
    assert StepAt(states, steps, n - 1);
    if b < n - 1 {
      StillLoading(states, steps, k, a, b, n - 1);
    }
  }

  /** A call that finds a client at its first look returns it there and then, whoever holds the mutex; else it does not end there. */
  lemma FirstLook(states: seq<State>, steps: seq<Step>, k: nat, a: Addr, b: nat, i: nat)
    requires IsRun(states, steps) && b < i < |steps| && steps[b] == Get(k, a)
    requires steps[i].Move? && steps[i].k == k && forall j | b < j < i :: !(steps[j].Move? && steps[j].k == k)
    ensures if a in states[i].reg then Span(states, steps, k, a, b, i, states[i].reg[a])
            else forall c :: !Span(states, steps, k, a, b, i, c)
    ensures states[i + 1].lock == states[i].lock
  {
    StillLoading(states, steps, k, a, b, i);
    assert StepAt(states, steps, i);
  }

  /** Step `i` is a deletion that takes a client of `a` out. */
  ghost predicate TakesOut(states: seq<State>, steps: seq<Step>, i: nat, a: Addr) {
    i < |steps| && i < |states| && steps[i] == Delete(a) && a in states[i].reg
  }

  /** How many such deletions there are from step `lo` to step `hi`. */
  ghost function TakenOut(states: seq<State>, steps: seq<Step>, a: Addr, lo: nat, hi: nat): nat {
    if hi <= lo then 0 else TakenOut(states, steps, a, lo, hi - 1) + (if TakesOut(states, steps, hi - 1, a) then 1 else 0)
  }

  /** After a deletion the address has no client, and no other address is touched. */
  lemma DeletionTakesEffect(states: seq<State>, steps: seq<Step>, i: nat, a: Addr)
    requires IsRun(states, steps) && i < |steps| && steps[i] == Delete(a)
    ensures a !in states[i + 1].reg
    ensures forall b | b != a :: (b in states[i + 1].reg <==> b in states[i].reg)
    ensures forall b | b != a && b in states[i].reg :: states[i + 1].reg[b] == states[i].reg[b]
  {
    assert StepAt(states, steps, i);
  }

  lemma DeletionsStep(states: seq<State>, steps: seq<Step>, i: nat, a: Addr)
    requires IsRun(states, steps) && i < |steps|
    ensures states[i + 1].deletions[a] == states[i].deletions[a] + (if TakesOut(states, steps, i, a) then 1 else 0)
  {
    assert StepAt(states, steps, i);
  }

  /** The deletions counted for an address are those of the run that took a client out. */
  lemma {:induction false} DeletionsAreCounted(states: seq<State>, steps: seq<Step>, a: Addr, lo: nat, hi: nat)
    requires IsRun(states, steps) && lo <= hi < |states|
    ensures states[hi].deletions[a] == states[lo].deletions[a] + TakenOut(states, steps, a, lo, hi)
  {
    if lo < hi {
      DeletionsAreCounted(states, steps, a, lo, hi - 1);
      DeletionsStep(states, steps, hi - 1, a);
    }
  }

  lemma {:induction false} TakenOutIsSome(states: seq<State>, steps: seq<Step>, a: Addr, lo: nat, hi: nat)
    ensures TakenOut(states, steps, a, lo, hi) == 0 <==> forall i: nat | lo <= i < hi :: !TakesOut(states, steps, i, a)
    decreases hi
  {
    if lo < hi {
      TakenOutIsSome(states, steps, a, lo, hi - 1);
    }
  }

  /** Step `i` stores a client for `a`. */
  ghost predicate StoresFor(states: seq<State>, steps: seq<Step>, i: nat, a: Addr) {
    && i < |steps| && i < |states|
    && steps[i].Move? && steps[i].k in states[i].calls
    && states[i].calls[steps[i].k].phase.Storing? && states[i].calls[steps[i].k].addr == a
  }

  /** The clients that the first `n` steps store for `a`, in order. */
  ghost function Stored(states: seq<State>, steps: seq<Step>, a: Addr, n: nat): seq<Client> {
    if n == 0 then []
    else
      var before := Stored(states, steps, a, n - 1);
      if StoresFor(states, steps, n - 1, a) then before + [states[n - 1].calls[steps[n - 1].k].phase.made] else before
  }

  lemma LogStep(states: seq<State>, steps: seq<Step>, i: nat, a: Addr)
    requires IsRun(states, steps) && i < |steps|
    ensures Log(states[i + 1], a) ==
            Log(states[i], a) + if StoresFor(states, steps, i, a) then [states[i].calls[steps[i].k].phase.made] else []
  {
    assert StepAt(states, steps, i);
  }

  lemma {:induction false} LogIsStored(states: seq<State>, steps: seq<Step>, a: Addr, n: nat)
    requires IsRun(states, steps) && n < |states|
    ensures Log(states[n], a) == Stored(states, steps, a, n)
  {
    if n > 0 {
      LogIsStored(states, steps, a, n - 1);
      LogStep(states, steps, n - 1, a);
    }
  }

  /** For each address, what was ever stored is what was deleted and what is there. */
  lemma StoresAreDeletionsPlusPresent(states: seq<State>, steps: seq<Step>, n: nat, a: Addr)
    requires IsRun(states, steps) && n < |states|
    ensures |Log(states[n], a)| == TakenOut(states, steps, a, 0, n) + (if a in states[n].reg then 1 else 0)
    ensures Log(states[n], a) == Stored(states, steps, a, n) && NoDup(Log(states[n], a))
  {
    RunKeepsInv(states, steps, n);
    assert AddrOk(states[n], a);
    DeletionsAreCounted(states, steps, a, 0, n);
    LogIsStored(states, steps, a, n);
  }

  lemma {:induction false} LogGrowsOverRun(states: seq<State>, steps: seq<Step>, i: nat, j: nat, a: Addr)
    requires IsRun(states, steps) && i <= j < |states|
    ensures Log(states[i], a) <= Log(states[j], a)
  {
    if i < j {
      LogGrowsOverRun(states, steps, i, j - 1, a);
      assert StepAt(states, steps, j - 1);
      LogGrows(states[j - 1], steps[j - 1], a);
    }
  }

  /** A finished call was given a client stored in an epoch of its time, as the later log still shows. */
  lemma SpanStored(states: seq<State>, steps: seq<Step>, k: nat, a: Addr, b: nat, d: nat, c: Client, n: nat)
    requires IsRun(states, steps) && Span(states, steps, k, a, b, d, c) && d < n < |states|
    ensures StoredWithin(states[n], a, c, states[b].deletions[a], states[d].deletions[a])
  {
    SpanIsNoted(states, steps, k, a, b, d, c);
    RunKeepsInv(states, steps, d + 1);
    assert CallOk(states[d + 1], k);
    LogGrowsOverRun(states, steps, d + 1, n, a);
    var e :| states[b].deletions[a] <= e <= states[d].deletions[a] && e < |Log(states[d + 1], a)| && Log(states[d + 1], a)[e] == c;
    assert Log(states[n], a)[e] == c;
  }

  /** All calls for an address that lie within a stretch of the run without a deletion of a client of it share one client. */
  lemma OneClientPerEpoch(states: seq<State>, steps: seq<Step>, a: Addr, lo: nat, hi: nat,
                            k: nat, b: nat, d: nat, c: Client, k': nat, b': nat, d': nat, c': Client)
    requires IsRun(states, steps)
    requires Span(states, steps, k, a, b, d, c) && Span(states, steps, k', a, b', d', c')
    requires lo <= b && lo <= b' && d <= hi && d' <= hi < |steps|
    requires forall i: nat | lo <= i < hi :: !TakesOut(states, steps, i, a)
    ensures c == c'
  {
    SpanStored(states, steps, k, a, b, d, c, hi + 1);
    SpanStored(states, steps, k', a, b', d', c', hi + 1);
    forall i: nat | lo <= i <= hi ensures states[i].deletions[a] == states[lo].deletions[a] {
      DeletionsAreCounted(states, steps, a, lo, i);
      TakenOutIsSome(states, steps, a, lo, i);
    }
  }

  /** A call that begins after such a deletion gets another client than any that ended before it. */
  lemma DeletionOtherClient(states: seq<State>, steps: seq<Step>, a: Addr, i: nat,
                            k: nat, b: nat, d: nat, c: Client, k': nat, b': nat, d': nat, c': Client)
    requires IsRun(states, steps)
    requires Span(states, steps, k, a, b, d, c) && Span(states, steps, k', a, b', d', c')
    requires d < i < b' && TakesOut(states, steps, i, a)
    ensures c != c'
  {
    SpanStored(states, steps, k, a, b, d, c, d' + 1);
    SpanStored(states, steps, k', a, b', d', c', d' + 1);
    DeletionsAreCounted(states, steps, a, d, b');
    TakenOutIsSome(states, steps, a, d, b');
    RunKeepsInv(states, steps, d' + 1);
    assert AddrOk(states[d' + 1], a);
  }

  // ---- the registry itself --------------------------------------------------

  class CustomClient {
    const addr: Addr

    constructor (addr: Addr)
      ensures this.addr == addr
    {
      this.addr := addr;
    }
  }

  /** The registry as one thread sees it when no other interferes. */
  class Clients {
    var addr2conn: map<Addr, CustomClient>

    constructor ()
      ensures addr2conn == map[]
    {
      addr2conn := map[];
    }

    /** The section under the mutex, which looks again before it makes a client. */
    method GetLocked(addr: Addr) returns (c: CustomClient)
      modifies this
      ensures addr in addr2conn && addr2conn[addr] == c
      ensures addr in old(addr2conn) ==> addr2conn == old(addr2conn)
      ensures addr !in old(addr2conn) ==> fresh(c) && c.addr == addr && addr2conn == old(addr2conn)[addr := c]
    {
      if addr in addr2conn {
        return addr2conn[addr];
      }
      c := new CustomClient(addr);
      addr2conn := addr2conn[addr := c];
    }

    method GetConnClient(addr: Addr) returns (c: CustomClient)
      modifies this
      ensures addr in addr2conn && addr2conn[addr] == c
      ensures addr in old(addr2conn) ==> addr2conn == old(addr2conn)
      ensures addr !in old(addr2conn) ==> fresh(c) && c.addr == addr && addr2conn == old(addr2conn)[addr := c]
    {
      if addr in addr2conn {
        return addr2conn[addr];
      }
      c := GetLocked(addr);
    }

    method DelConnClient(addr: Addr)
      modifies this
      ensures addr2conn == old(addr2conn) - {addr}
    {
      addr2conn := addr2conn - {addr};
    }
  }
}
