/** What holds in every reachable state of one pool address, and along every run of it. */
module PoolTheorems {
  import opened Prelude
  import opened SeqFacts
  import opened PoolSpec
  import opened PoolMachine

  // ---- runs -----------------------------------------------------------------

  ghost predicate IsRun<C>(cfg: Config, states: seq<State<C>>, events: seq<Event<C>>) {
    && |states| == |events| + 1
    && states[0] == Init()
    && forall i | 0 <= i < |events| :: StepAt(cfg, states, events, i)
  }

  ghost predicate StepAt<C>(cfg: Config, states: seq<State<C>>, events: seq<Event<C>>, i: nat)
    requires |states| == |events| + 1 && i < |events|
  {
    Enabled(states[i], events[i]) && states[i + 1] == Next(cfg, states[i], events[i])
  }

  ghost predicate RunTo<C>(cfg: Config, states: seq<State<C>>, events: seq<Event<C>>, last: State<C>) {
    IsRun(cfg, states, events) && states[|events|] == last
  }

  lemma StepKept<C>(cfg: Config, states: seq<State<C>>, events: seq<Event<C>>, more: State<C>, e: Event<C>, i: nat)
    requires |states| == |events| + 1 && i < |events| && StepAt(cfg, states, events, i)
    ensures StepAt(cfg, states + [more], events + [e], i)
  {
  }

  lemma StepAdded<C>(cfg: Config, states: seq<State<C>>, events: seq<Event<C>>, more: State<C>, e: Event<C>)
    requires |states| == |events| + 1 && Enabled(states[|events|], e) && more == Next(cfg, states[|events|], e)
    ensures StepAt(cfg, states + [more], events + [e], |events|)
  {
  }

  /** A run with one more step is a run. */
  lemma Extend<C>(cfg: Config, states: seq<State<C>>, events: seq<Event<C>>, last: State<C>, e: Event<C>)
    returns (states': seq<State<C>>, events': seq<Event<C>>, last': State<C>)
    requires RunTo(cfg, states, events, last) && Enabled(last, e)
    ensures last' == Next(cfg, last, e) && events' == events + [e] && states' == states + [last']
    ensures RunTo(cfg, states', events', last')
  {
    hide Next, Enabled;
    last' := Next(cfg, last, e);
    states', events' := states + [last'], events + [e];
    StepAdded(cfg, states, events, last', e);
    forall i: nat | i < |events'| ensures StepAt(cfg, states', events', i) {
      if i < |events| {
        StepKept(cfg, states, events, last', e, i);
      }
    }
  }

  lemma {:induction false} RunKeepsInv<C>(cfg: Config, states: seq<State<C>>, events: seq<Event<C>>, i: nat)
    requires cfg.Valid() && IsRun(cfg, states, events) && i < |states|
    ensures Inv(cfg, states[i])
  {
    if i > 0 {
      RunKeepsInv(cfg, states, events, i - 1);
      assert StepAt(cfg, states, events, i - 1);
      StepKeepsInv(cfg, states[i - 1], events[i - 1]);
    }
  }

  /** Connections are never forgotten, and what the pool let go of stays let go of. */
  ghost predicate Later<C>(s: State<C>, s': State<C>, c: C) {
    && (c in s.sp.conns ==> c in s'.sp.conns)
    && s.closed[c] <= s'.closed[c] && s.dropped[c] <= s'.dropped[c]
    && Gone(s, c) <= Gone(s', c)
  }

  lemma StepIsMonotone<C>(cfg: Config, s: State<C>, e: Event<C>, c: C)
    requires Enabled(s, e)
    ensures Later(s, Next(cfg, s, e), c)
  {
    NextKeys(cfg, s, e);
    assert s.closed[c] <= Next(cfg, s, e).closed[c] && Gone(s, c) <= Gone(Next(cfg, s, e), c);
  }

  lemma {:induction false} RunIsMonotone<C>(cfg: Config, states: seq<State<C>>, events: seq<Event<C>>, i: nat, j: nat, c: C)
    requires IsRun(cfg, states, events) && i <= j < |states|
    ensures Later(states[i], states[j], c)
  {
    if i < j {
      RunIsMonotone(cfg, states, events, i, j - 1, c);
      assert StepAt(cfg, states, events, j - 1);
      StepIsMonotone(cfg, states[j - 1], events[j - 1], c);
    }
  }

  // ---- ages -----------------------------------------------------------------

  ghost predicate CreatedAt<C>(s: State<C>, c: C, t: int) { c in s.sp.conns && s.sp.conns[c].created == t }

  lemma ScanKeepsCreated<C>(cfg: Config, s: State<C>, st: C -> Connectivity, now: int, c: C, t: int)
    requires ShapeOk(s.sp) && CreatedAt(s, c, t)
    ensures CreatedAt(Next(cfg, s, GetScan(st, now)), c, t)
  {
    var took, let := ScanEffect(cfg, s.sp, st, now, c);
  }

  lemma StepKeepsCreated<C>(cfg: Config, s: State<C>, e: Event<C>, c: C, t: int)
    requires Inv(cfg, s) && Enabled(s, e) && CreatedAt(s, c, t)
    ensures CreatedAt(Next(cfg, s, e), c, t)
  {
    hide Inv, ConnOk, Scan;
    if e.GetScan? {
      assert ShapeOk(s.sp) by {
        ShapeOfInv(cfg, s);
      }
      ScanKeepsCreated(cfg, s, e.st, e.now, c, t);
    }
  }

  lemma ShapeOfInv<C>(cfg: Config, s: State<C>)
    requires Inv(cfg, s)
    ensures ShapeOk(s.sp)
  {
  }

  lemma DialSetsCreated<C>(cfg: Config, s: State<C>, c: C, t: int)
    requires Enabled(s, DialOk(c, t))
    ensures CreatedAt(Next(cfg, s, DialOk(c, t)), c, t)
  {
  }

  /** At all times the age of a connection counts from its dial. */
  lemma {:induction false} AgeCountsFromDial<C>(cfg: Config, states: seq<State<C>>, events: seq<Event<C>>, i: nat, j: nat, c: C, t: int)
    requires cfg.Valid() && IsRun(cfg, states, events) && i < j < |states| && events[i] == DialOk(c, t)
    ensures c in states[j].sp.conns && states[j].sp.conns[c].created == t
  {
    hide Next, Enabled, Inv;
    assert StepAt(cfg, states, events, j - 1);
    if i == j - 1 {
      DialSetsCreated(cfg, states[i], c, t);
    } else {
      AgeCountsFromDial(cfg, states, events, i, j - 1, c, t);
      RunKeepsInv(cfg, states, events, j - 1);
      StepKeepsCreated(cfg, states[j - 1], events[j - 1], c, t);
    }
    assert CreatedAt(states[j], c, t);
  }

  // ---- safety ---------------------------------------------------------------

  /** Nobody holds a connection the pool has closed, and none is closed twice. */
  lemma NobodyHoldsAClosedConnection<C>(cfg: Config, states: seq<State<C>>, events: seq<Event<C>>, i: nat, c: C)
    requires cfg.Valid() && IsRun(cfg, states, events) && i < |states|
    ensures states[i].closed[c] + states[i].closing[c] <= 1
    ensures c in states[i].leases || c in states[i].inserting ==>
              c !in states[i].closed && c !in states[i].closing && c !in states[i].dropped
  {
    RunKeepsInv(cfg, states, events, i);
    if c in states[i].sp.conns {
      assert ConnOk(cfg, states[i], c);
    }
  }

  /** A connection once let go of is at no later time listed, leased or handed out. */
  lemma LetGoForever<C>(cfg: Config, states: seq<State<C>>, events: seq<Event<C>>, i: nat, j: nat, c: C)
    requires cfg.Valid() && IsRun(cfg, states, events) && i <= j < |states|
    requires c in states[i].closed || c in states[i].closing || c in states[i].dropped
    ensures !Listed(states[j].sp, c) && c !in states[j].leases && c !in states[j].inserting
    ensures c in states[i].closed ==> states[j].closed[c] == 1
    ensures j < |events| && events[j].GetScan? ==>
              c !in Scan(cfg, states[j].sp, events[j].st, events[j].now).taken
  {
    RunKeepsInv(cfg, states, events, i);
    RunKeepsInv(cfg, states, events, j);
    RunIsMonotone(cfg, states, events, i, j, c);
    assert ConnOk(cfg, states[j], c);
  }

  /** A connection dropped because it was found shut down is never closed by the pool. */
  lemma DroppedIsNeverClosed<C>(cfg: Config, states: seq<State<C>>, events: seq<Event<C>>, i: nat, j: nat, c: C)
    requires cfg.Valid() && IsRun(cfg, states, events) && i <= j < |states| && c in states[i].dropped
    ensures c in states[j].dropped && c !in states[j].closed && c !in states[j].closing
  {
    RunKeepsInv(cfg, states, events, i);
    RunKeepsInv(cfg, states, events, j);
    RunIsMonotone(cfg, states, events, i, j, c);
    assert ConnOk(cfg, states[j], c);
  }

  ghost predicate Listed<C>(sp: PoolView<C>, c: C) { c in sp.head || c in sp.busy }

  /** Every connection ever dialled is in exactly one place. */
  lemma Conservation<C>(cfg: Config, states: seq<State<C>>, events: seq<Event<C>>, i: nat, j: nat, c: C)
    requires cfg.Valid() && IsRun(cfg, states, events) && i <= j < |states|
    requires c in states[i].sp.conns
    ensures var s := states[j];
            One(c in s.sp.head) + One(c in s.sp.busy) +
            One(!Listed(s.sp, c) && s.leases[c] + s.inserting[c] == 1) +
            s.closing[c] + s.closed[c] + s.dropped[c] == 1
    ensures Gone(states[j], c) > 0 || Listed(states[j].sp, c) || states[j].leases[c] + states[j].inserting[c] == 1
  {
    RunIsMonotone(cfg, states, events, i, j, c);
    RunKeepsInv(cfg, states, events, j);
    assert ConnOk(cfg, states[j], c);
  }

  /** The hand-kept counters and flags mean what they should. */
  lemma Accounting<C>(cfg: Config, states: seq<State<C>>, events: seq<Event<C>>, i: nat)
    requires cfg.Valid() && IsRun(cfg, states, events) && i < |states|
    ensures var s := states[i];
            && (forall c | c in s.sp.conns && Gone(s, c) == 0 ::
                  s.sp.conns[c].streams == Holders(s, c) && 0 <= s.sp.conns[c].streams <= cfg.maxStreams)
            && (forall c | c in s.sp.conns :: s.sp.conns[c].listed <==> Listed(s.sp, c))
            && s.sp.count == |s.sp.head| + |s.sp.busy| <= cfg.Room()
            && (forall c | c in s.sp.busy :: c in s.sp.conns && s.sp.conns[c].streams == cfg.maxStreams)
            && 0 <= s.sp.idle <= cfg.maxIdle
            && s.sp.idle == |set c | c in s.sp.conns && Listed(s.sp, c) && s.sp.conns[c].streams == 0|
  {
    RunKeepsInv(cfg, states, events, i);
    var s := states[i];
    forall c | c in s.sp.conns
      ensures Gone(s, c) == 0 ==> s.sp.conns[c].streams == Holders(s, c) <= cfg.maxStreams
      ensures s.sp.conns[c].listed <==> Listed(s.sp, c)
      ensures c in s.sp.busy ==> s.sp.conns[c].streams == cfg.maxStreams
    {
      assert ConnOk(cfg, s, c);
    }
    IdlesIsCardinality(s.sp.head, s.sp.conns);
    assert (set c | c in s.sp.conns && Listed(s.sp, c) && s.sp.conns[c].streams == 0)
        == (set c | c in s.sp.head && c in s.sp.conns && s.sp.conns[c].streams == 0);
  }

  lemma {:induction false} IdlesIsCardinality<C>(s: seq<C>, conns: map<C, Conn>)
    requires NoDup(s)
    ensures Idles(s, conns) == |set c | c in s && c in conns && conns[c].streams == 0|
  {
    var all := set c | c in s && c in conns && conns[c].streams == 0;
    if s == [] {
      assert all == {};
    } else {
      IdlesIsCardinality(s[1..], conns);
      assert s[0] !in s[1..];
      var rest := set c | c in s[1..] && c in conns && conns[c].streams == 0;
      assert all == rest + (if s[0] in conns && conns[s[0]].streams == 0 then {s[0]} else {});
    }
  }

  // ---- quiescence and saturation --------------------------------------------

  /** With no call in flight, what is open is what is idle, and the quotas bound it. */
  ghost predicate Quiet<C>(cfg: Config, s: State<C>) {
    && s.sp.busy == []
    && |set c | c in s.sp.conns && Gone(s, c) == 0| == s.sp.count == s.sp.idle
    && s.sp.idle <= cfg.maxIdle && s.sp.idle <= cfg.Room()
  }

  lemma QuietWithoutHolders<C>(cfg: Config, s: State<C>)
    requires Inv(cfg, s) && s.leases == multiset{} && s.inserting == multiset{}
    ensures Quiet(cfg, s)
  {
    forall c | c in s.sp.conns
      ensures c !in s.sp.busy
      ensures Gone(s, c) == 0 <==> c in s.sp.head
      ensures c in s.sp.head ==> s.sp.conns[c].streams == 0
    {
      assert ConnOk(cfg, s, c);
    }
    NoDupCardinality(s.sp.busy, {});
    NoDupCardinality(s.sp.head, set c | c in s.sp.conns && Gone(s, c) == 0);
    IdlesIsCardinality(s.sp.head, s.sp.conns);
    assert (set c | c in s.sp.head && c in s.sp.conns && s.sp.conns[c].streams == 0)
        == set c | c in s.sp.conns && Gone(s, c) == 0;
  }

  lemma Quiescence<C>(cfg: Config, states: seq<State<C>>, events: seq<Event<C>>, i: nat)
    requires cfg.Valid() && IsRun(cfg, states, events) && i < |states|
    requires states[i].leases == multiset{} && states[i].inserting == multiset{}
    ensures Quiet(cfg, states[i])
  {
    RunKeepsInv(cfg, states, events, i);
    QuietWithoutHolders(cfg, states[i]);
  }

  ghost function LeasesOn<C>(s: seq<C>, leases: multiset<C>): nat {
    if s == [] then 0 else leases[s[0]] + LeasesOn(s[1..], leases)
  }

  lemma {:induction false} LeasesBounded<C>(s: seq<C>, leases: multiset<C>, m: nat)
    requires forall c | c in s :: leases[c] <= m
    ensures LeasesOn(s, leases) <= m * |s|
  {
    if s != [] {
      LeasesBounded(s[1..], leases, m);
      assert s[0] in s;
      assert m * |s| == m + m * |s[1..]|;
    }
  }

  /** Calls running over listed connections of an address never exceed its capacity. */
  lemma Saturation<C>(cfg: Config, states: seq<State<C>>, events: seq<Event<C>>, i: nat)
    requires cfg.Valid() && IsRun(cfg, states, events) && i < |states|
    ensures LeasesOn(states[i].sp.head + states[i].sp.busy, states[i].leases) <= cfg.maxStreams * cfg.Room()
  {
    RunKeepsInv(cfg, states, events, i);
    var s := states[i];
    var all := s.sp.head + s.sp.busy;
    forall c | c in all ensures s.leases[c] <= cfg.maxStreams {
      assert ConnOk(cfg, s, c);
    }
    LeasesBounded(all, s.leases, cfg.maxStreams);
    MulMonotone(cfg.maxStreams, |all|, cfg.Room());
  }

  lemma MulMonotone(m: nat, a: nat, b: nat)
    requires a <= b
    ensures m * a <= m * b
  {
    assert m * b == m * a + m * (b - a);
  }

  // ---- what one call does ---------------------------------------------------

  ghost predicate Usable<C>(cfg: Config, sp: PoolView<C>, st: C -> Connectivity, now: int, c: C)
    requires c in sp.conns
  {
    && (st(c).Ready? || st(c).Idle?)
    && now - sp.conns[c].created <= cfg.ttl
    && sp.conns[c].streams < cfg.maxStreams
  }

  /** getConn hands out the first usable connection of `head`, and dials only when there is none. */
  lemma ScanHandsOutFirstUsable<C>(cfg: Config, s: State<C>, st: C -> Connectivity, now: int)
    requires Inv(cfg, s)
    ensures var head, taken := s.sp.head, Scan(cfg, s.sp, st, now).taken;
            && (taken == [] <==> forall i | 0 <= i < |head| :: !Usable(cfg, s.sp, st, now, head[i]))
            && (taken != [] ==> exists i | 0 <= i < |head| ::
                  && taken == [head[i]]
                  && Usable(cfg, s.sp, st, now, head[i])
                  && forall j | 0 <= j < i :: !Usable(cfg, s.sp, st, now, head[j]))
  {
    var vm := Verdicts(cfg, s.sp.conns, st, now);
    var k := FirstTake(s.sp.head, vm);
    assert forall i | 0 <= i < |s.sp.head| :: s.sp.head[i] in vm;
    assert forall i | 0 <= i < |s.sp.head| :: Is(vm, s.sp.head[i], Take) <==> Usable(cfg, s.sp, st, now, s.sp.head[i]);
  }

  ghost predicate Live(st: Connectivity) { st.Ready? || st.Idle? }

  /** Unused, and failed or too old. */
  ghost predicate Spent(cfg: Config, k: Conn, st: Connectivity, now: int) {
    k.streams == 0 && (st.TransientFailure? || (Live(st) && now - k.created > cfg.ttl))
  }

  ghost predicate Saturated(cfg: Config, k: Conn, st: Connectivity, now: int) {
    Live(st) && now - k.created <= cfg.ttl && k.streams >= cfg.maxStreams
  }

  /** None of the first `i + 1` connections of `head` can be handed out. */
  ghost predicate Passed<C>(cfg: Config, sp: PoolView<C>, st: C -> Connectivity, now: int, i: nat)
    requires i < |sp.head| && forall c | c in sp.head :: c in sp.conns
  {
    forall j | 0 <= j <= i :: !Usable(cfg, sp, st, now, sp.head[j])
  }

  lemma WalkPasses<C>(cfg: Config, sp: PoolView<C>, st: C -> Connectivity, now: int, i: nat)
    requires i < |sp.head| && forall c | c in sp.head :: c in sp.conns
    ensures Passed(cfg, sp, st, now, i) <==> i < FirstTake(sp.head, Verdicts(cfg, sp.conns, st, now))
  {
    var vm := Verdicts(cfg, sp.conns, st, now);
    var n := FirstTake(sp.head, vm);
    assert forall j | 0 <= j < |sp.head| :: sp.head[j] in sp.head;
    assert forall j | 0 <= j < |sp.head| :: Is(vm, sp.head[j], Take) <==> Usable(cfg, sp, st, now, sp.head[j]);
  }

  lemma InPrefix<C>(s: seq<C>, n: nat, i: nat)
    requires NoDup(s) && n <= |s| && i < |s|
    ensures s[i] in s[..n] <==> i < n
    ensures s[i] in s[n..] <==> n <= i
  {
    assert n <= i ==> s[n..][i - n] == s[i];
  }

  lemma SortedBy<C>(v: PoolView<C>, vm: map<C, Verdict>, n: nat, i: nat)
    requires NoDup(v.head) && n <= |v.head| && i < |v.head| && v.head[i] in vm && v.head[i] !in v.busy
    ensures var w, c := Walked(v, vm, n), v.head[i];
            && (c in w.busy <==> i < n && vm[c].Park?)
            && (c in w.head <==> n <= i || vm[c].Skip?)
            && (c in Pick(v.head[..n], vm, Evict) <==> i < n && vm[c].Evict?)
            && (c in Pick(v.head[..n], vm, Drop) <==> i < n && vm[c].Drop?)
  {
    InPrefix(v.head, n, i);
  }

  lemma ScanLists<C>(cfg: Config, v: PoolView<C>, st: C -> Connectivity, now: int)
    ensures var vm := Verdicts(cfg, v.conns, st, now);
            var r, n := Scan(cfg, v, st, now), FirstTake(v.head, vm);
            && r.sp.head == Walked(v, vm, n).head && r.sp.busy == Walked(v, vm, n).busy
            && r.evicted == Pick(v.head[..n], vm, Evict) && r.dropped == Pick(v.head[..n], vm, Drop)
  {
  }

  /**
   Where the walk puts a connection of `head`: up to the one handed out each is closed if spent,
   dropped if unused and shut down, moved to `busy` if saturated, and left in `head` otherwise;
   from there on all stay.
   */
  lemma ScanSorts<C>(cfg: Config, s: State<C>, st: C -> Connectivity, now: int, i: nat)
    requires Inv(cfg, s) && i < |s.sp.head|
    ensures var r, c := Scan(cfg, s.sp, st, now), s.sp.head[i];
            var k, passed := s.sp.conns[c], Passed(cfg, s.sp, st, now, i);
            && (c in r.evicted <==> passed && Spent(cfg, k, st(c), now))
            && (c in r.dropped <==> passed && k.streams == 0 && st(c).Shutdown?)
            && (c in r.sp.busy <==> passed && Saturated(cfg, k, st(c), now))
            && (c in r.sp.head <==> c !in r.evicted && c !in r.dropped && c !in r.sp.busy)
  {
    var vm := Verdicts(cfg, s.sp.conns, st, now);
    var n := FirstTake(s.sp.head, vm);
    var c := s.sp.head[i];
    assert ConnOk(cfg, s, c);
    WalkPasses(cfg, s.sp, st, now, i);
    SortedBy(s.sp, vm, n, i);
    ScanLists(cfg, s.sp, st, now);
    assert i < n ==> !Is(vm, c, Take);
    VerdictIs(cfg, s.sp.conns[c], st(c), now);
  }

  lemma VerdictIs(cfg: Config, k: Conn, st: Connectivity, now: int)
    requires cfg.Valid()
    ensures var v := Judge(cfg, k, st, now);
            && (v.Evict? <==> Spent(cfg, k, st, now))
            && (v.Drop? <==> k.streams == 0 && st.Shutdown?)
            && (v.Park? <==> Saturated(cfg, k, st, now))
            && (v.Skip? <==> !v.Evict? && !v.Drop? && !v.Park? && !v.Take?)
  {
  }

  lemma WhoIsLetGo<C>(cfg: Config, v: PoolView<C>, st: C -> Connectivity, now: int, c: C)
    requires forall x | x in v.head :: x in v.conns
    ensures var r := Scan(cfg, v, st, now);
            && (c in r.evicted ==>
                  && c in v.head && v.conns[c].streams == 0 && !st(c).Shutdown?
                  && (st(c).TransientFailure? || now - v.conns[c].created > cfg.ttl))
            && (c in r.dropped ==> c in v.head && v.conns[c].streams == 0 && st(c).Shutdown?)
  {
  }

  /** The walk closes only unused connections that failed or are too old, and drops only unused ones found shut down. */
  lemma ScanLetsGoOnlyUnused<C>(cfg: Config, s: State<C>, st: C -> Connectivity, now: int, c: C)
    requires Inv(cfg, s)
    ensures var r := Scan(cfg, s.sp, st, now);
            && (c in r.evicted ==>
                  && Listed(s.sp, c) && Holders(s, c) == 0 && !st(c).Shutdown?
                  && (st(c).TransientFailure? || now - s.sp.conns[c].created > cfg.ttl))
            && (c in r.dropped ==> Listed(s.sp, c) && Holders(s, c) == 0 && st(c).Shutdown?)
  {
    WhoIsLetGo(cfg, s.sp, st, now, c);
    assert c in s.sp.conns ==> ConnOk(cfg, s, c);
  }

  /**
   release lets the connection go exactly when it is unlisted and there is no room, or it
   was the last holder and the call failed, the idle quota is full, or it is too old.
   Otherwise it stays listed, one stream lighter. So an error closes exactly the connection
   that nobody else holds.
   */
  lemma ReleaseClosesExactlyWhen<C>(cfg: Config, s: State<C>, c: C, failed: bool, now: int)
    requires Inv(cfg, s) && c in s.leases
    ensures var s' := Next(cfg, s, DoRelease(c, failed, now));
            && (s'.closing[c] == 1 <==>
                  if !Listed(s.sp, c) && s.sp.count >= cfg.size then true
                  else Holders(s, c) == 1 && (failed || s.sp.idle >= cfg.maxIdle || now - s.sp.conns[c].created > cfg.ttl))
            && (failed ==> (s'.closing[c] == 1 <==> Holders(s, c) == 1))
            && (s'.closing[c] == 0 ==> Listed(s'.sp, c) && s'.sp.conns[c].streams == Holders(s, c) - 1)
            && (s'.closing[c] == 1 ==> !Listed(s'.sp, c))
  {
    assert ConnOk(cfg, s, c);
    ReleaseKeepsInv(cfg, s, c, failed, now);
    assert ConnOk(cfg, Next(cfg, s, DoRelease(c, failed, now)), c);
  }

  /**
   In a run: a connection dialled at time `t` and returned at time `now` by its last holder is
   let go of exactly when the call failed, the idle quota is full, or more than the time to live
   has passed since `t`, or it is unlisted and there is no room.
   */
  lemma ReturnedByLastHolder<C>(cfg: Config, states: seq<State<C>>, events: seq<Event<C>>, i: nat, j: nat, c: C, t: int, failed: bool, now: int)
    requires cfg.Valid() && IsRun(cfg, states, events) && i < j < |events|
    requires events[i] == DialOk(c, t) && events[j] == DoRelease(c, failed, now) && Holders(states[j], c) == 1
    ensures states[j + 1].closing[c] == 1 <==>
              || failed || states[j].sp.idle >= cfg.maxIdle || now - t > cfg.ttl
              || (!Listed(states[j].sp, c) && states[j].sp.count >= cfg.size)
  {
    AgeCountsFromDial(cfg, states, events, i, j, c, t);
    RunKeepsInv(cfg, states, events, j);
    assert StepAt(cfg, states, events, j);
    ReleaseClosesExactlyWhen(cfg, states[j], c, failed, now);
  }

  /** After handing out an idle connection there is room in the idle quota to take it back. */
  lemma BorrowLeavesRoom<C>(cfg: Config, sp: PoolView<C>, st: C -> Connectivity, now: int, c: C) returns (r: ScanResult<C>)
    requires c in sp.conns && sp.conns[c].streams == 0 && sp.idle <= cfg.maxIdle
    requires Scan(cfg, sp, st, now).taken == [c]
    ensures r == Scan(cfg, sp, st, now)
    ensures c in r.sp.head && c in sp.head
    ensures c in r.sp.conns && r.sp.conns[c].streams == 1 && r.sp.conns[c].created == sp.conns[c].created
    ensures r.sp.idle == sp.idle - |r.evicted| - |r.dropped| - 1 < cfg.maxIdle
    ensures r.sp.count == sp.count - |r.evicted| - |r.dropped|
  {
    r := Scan(cfg, sp, st, now);
    var k := FirstTake(sp.head, Verdicts(cfg, sp.conns, st, now));
    assert k < |sp.head| && sp.head[k] == c by { assert [c][0] == c; }
    assert sp.head[k..][0] == c;
  }

  /** Returned in time and without error, the connection is in front, unused and open. */
  lemma ReturnKeeps<C>(cfg: Config, sp: PoolView<C>, c: C, later: int) returns (r: ReleaseResult<C>)
    requires cfg.Valid() && c in sp.conns && c in sp.head
    requires sp.conns[c].listed && sp.conns[c].streams == 1 && sp.idle < cfg.maxIdle
    requires later - sp.conns[c].created <= cfg.ttl
    ensures r == Release(cfg, sp, c, false, later)
    ensures !r.close && c in r.sp.head && (sp.head[0] == c ==> r.sp.head[0] == c)
    ensures c in r.sp.conns && r.sp.conns[c] == sp.conns[c].(streams := 0)
    ensures r.sp.idle == sp.idle + 1 && r.sp.count == sp.count
  {
    r := Release(cfg, sp, c, false, later);
  }

  /**
   Borrowing an idle connection and giving it straight back, in time and without error,
   undoes the borrowing: the connection is idle and listed again and is not closed.
   */
  lemma BorrowAndReturn<C>(cfg: Config, s: State<C>, st: C -> Connectivity, now: int, c: C, later: int)
    returns (got: ScanResult<C>, back: ReleaseResult<C>)
    requires Inv(cfg, s) && c in s.sp.conns && s.sp.conns[c].streams == 0
    requires Scan(cfg, s.sp, st, now).taken == [c]
    requires later - s.sp.conns[c].created <= cfg.ttl
    ensures got == Scan(cfg, s.sp, st, now) && c in got.sp.conns
    ensures back == Release(cfg, got.sp, c, false, later) && !back.close
    ensures c in back.sp.head && c in back.sp.conns && back.sp.conns[c] == s.sp.conns[c]
    ensures back.sp.idle == s.sp.idle - |got.evicted| - |got.dropped|
    ensures back.sp.count == s.sp.count - |got.evicted| - |got.dropped|
  {
    got := BorrowLeavesRoom(cfg, s.sp, st, now, c);
    assert got.sp.conns[c].listed by {
      assert ConnOk(cfg, s, c);
      ScanConn(cfg, s, st, now, c);
    }
    assert s.sp.conns[c].listed by {
      assert ConnOk(cfg, s, c);
    }
    back := ReturnKeeps(cfg, got.sp, c, later);
  }

  /**
   A freshly dialled connection for which there is room is put in front; returned in time and
   without error while the idle quota allows, it is the one the next getConn hands out.
   */
  lemma DialledIsReused<C>(cfg: Config, s: State<C>, c: C, later: int, st: C -> Connectivity, now: int)
    returns (sp: PoolView<C>, back: ReleaseResult<C>)
    requires Inv(cfg, s) && c in s.inserting && s.sp.count < cfg.size && s.sp.idle < cfg.maxIdle
    requires later - s.sp.conns[c].created <= cfg.ttl
    ensures sp == Insert(cfg, s.sp, c) && sp == Next(cfg, s, DoInsert(c)).sp && Listed(sp, c)
    ensures back == Release(cfg, sp, c, false, later) && !back.close && back.sp.idle == s.sp.idle + 1
    ensures Live(st(c)) && now - s.sp.conns[c].created <= cfg.ttl ==> Scan(cfg, back.sp, st, now).taken == [c]
  {
    assert ConnOk(cfg, s, c);
    sp := Insert(cfg, s.sp, c);
    back := ReturnKeeps(cfg, sp, c, later);
    FrontIsTaken(cfg, back.sp, c, st, now);
  }

  lemma FrontIsTaken<C>(cfg: Config, v: PoolView<C>, c: C, st: C -> Connectivity, now: int)
    requires v.head != [] && v.head[0] == c && c in v.conns
    ensures Usable(cfg, v, st, now, c) ==> Scan(cfg, v, st, now).taken == [c]
  {
  }
}
