/**
 Two runs of one address that show what the pool does not do: close a connection on every
 error, and close every connection it lets go of.
 */
module PoolExamples {
  import opened SeqFacts
  import opened PoolSpec
  import opened PoolMachine
  import opened PoolTheorems

  type Id = nat

  /** The only connection of these runs, dialled at time 0. */
  const c: Id := 0

  ghost function Always(st: Connectivity): Id -> Connectivity { (x: Id) => st }

  lemma ScanOfNothing(cfg: Config, v: PoolView<Id>, st: Id -> Connectivity, now: int)
    requires v.head == []
    ensures Scan(cfg, v, st, now) == ScanResult(v, [], [], [])
  {
    assert Walked(v, Verdicts(cfg, v.conns, st, now), 0).conns == v.conns;
  }

  lemma ScanOfFront(cfg: Config, v: PoolView<Id>, st: Id -> Connectivity, now: int)
    requires v.head != [] && v.head[0] in v.conns && Usable(cfg, v, st, now, v.head[0])
    ensures Scan(cfg, v, st, now) == ScanResult(Borrow(v, v.head[0]), [v.head[0]], [], [])
  {
    var vm := Verdicts(cfg, v.conns, st, now);
    assert Walked(v, vm, 0).conns == v.conns && Walked(v, vm, 0) == v;
  }

  /** The address with only `c` listed, carrying `n` streams. */
  ghost function Alone(n: int): PoolView<Id> {
    PoolView([c], [], 1, if n == 0 then 1 else 0, map[c := Conn(n, 0, true)])
  }

  lemma AloneTaken(cfg: Config, n: nat)
    requires n < cfg.maxStreams && cfg.ttl >= 0
    ensures Scan(cfg, Alone(n), Always(Ready), 0) == ScanResult(Alone(n + 1), [c], [], [])
  {
    ScanOfFront(cfg, Alone(n), Always(Ready), 0);
  }

  lemma AloneReturned(cfg: Config, n: nat, failed: bool)
    requires n >= 1 && cfg.ttl >= 0 && (n == 1 ==> !failed && cfg.maxIdle >= 1)
    ensures Release(cfg, Alone(n), c, failed, 0) == ReleaseResult(Alone(n - 1), false)
  {
    assert [c][1..] == [] && Without([c], c) == [];
  }

  /** The first call of an address dials, and its connection is listed. */
  lemma FirstCall(cfg: Config) returns (states: seq<State<Id>>, events: seq<Event<Id>>, last: State<Id>)
    requires cfg.Valid() && cfg.size >= 1
    ensures RunTo(cfg, states, events, last)
    ensures last == Init<Id>().(sp := Alone(1), leases := multiset{c})
  {
    states, events, last := [Init()], [], Init();
    ScanOfNothing(cfg, last.sp, Always(Ready), 0);
    states, events, last := Extend(cfg, states, events, last, GetScan(Always(Ready), 0));
    states, events, last := Extend(cfg, states, events, last, DialOk(c, 0));
    states, events, last := Extend(cfg, states, events, last, DoInsert(c));
  }

  /**
   Two calls share a connection and one of them fails: the connection is not closed, and the
   next call gets it.
   */
  lemma ErrorCanLeaveItOpen(cfg: Config)
    returns (states: seq<State<Id>>, events: seq<Event<Id>>, last: State<Id>)
    requires cfg.Valid() && cfg.size >= 1 && cfg.maxStreams >= 2 && cfg.ttl >= 0
    ensures RunTo(cfg, states, events, last)
    ensures events != [] && events[|events| - 1] == DoRelease(c, true, 0)
    ensures Listed(last.sp, c) && c !in last.closing && c !in last.closed
    ensures Scan(cfg, last.sp, Always(Ready), 0).taken == [c]
  {
    states, events, last := FirstCall(cfg);
    AloneTaken(cfg, 1);
    states, events, last := Extend(cfg, states, events, last, GetScan(Always(Ready), 0));
    AloneReturned(cfg, 2, true);
    states, events, last := Extend(cfg, states, events, last, DoRelease(c, true, 0));
    AloneTaken(cfg, 1);
  }

  /** Then it is returned, and waits for the next call. */
  lemma FirstReturn(cfg: Config) returns (states: seq<State<Id>>, events: seq<Event<Id>>, last: State<Id>)
    requires cfg.Valid() && cfg.size >= 1 && cfg.maxIdle >= 1 && cfg.ttl >= 0
    ensures RunTo(cfg, states, events, last)
    ensures last == Init<Id>().(sp := Alone(0))
  {
    states, events, last := FirstCall(cfg);
    AloneReturned(cfg, 1, false);
    states, events, last := Extend(cfg, states, events, last, DoRelease(c, false, 0));
  }

  /** The address once `c` is dropped. */
  ghost function Emptied(): PoolView<Id> { PoolView([], [], 0, 0, map[c := Conn(0, 0, false)]) }

  lemma AloneDropped(cfg: Config)
    ensures Scan(cfg, Alone(0), Always(Shutdown), 0) == ScanResult(Emptied(), [], [], [c])
  {
    var vm := Verdicts(cfg, Alone(0).conns, Always(Shutdown), 0);
    assert vm[c] == Drop;
    assert [c][1..] == [] && [c][..1] == [c];
    assert FirstTake([c], vm) == 1;
  }

  /** A connection used, returned, and then found shut down is dropped without being closed. */
  lemma ShutdownIsDroppedUnclosed(cfg: Config)
    returns (states: seq<State<Id>>, events: seq<Event<Id>>, last: State<Id>)
    requires cfg.Valid() && cfg.size >= 1 && cfg.maxIdle >= 1 && cfg.ttl >= 0
    ensures RunTo(cfg, states, events, last)
    ensures c in last.dropped && c !in last.closing && c !in last.closed && !Listed(last.sp, c)
  {
    states, events, last := FirstReturn(cfg);
    AloneDropped(cfg);
    states, events, last := Extend(cfg, states, events, last, GetScan(Always(Shutdown), 0));
  }
}
