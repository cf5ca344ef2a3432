/** The whole pool: one PoolMachine per address, made when the address is first asked for. */
module PoolAddresses {
  import opened Prelude
  import opened PoolSpec
  import opened PoolMachine
  import opened PoolTheorems

  type Pool<C> = map<string, State<C>>

  ghost function At<C>(p: Pool<C>, addr: string): State<C> {
    if addr in p then p[addr] else Init()
  }

  /** A step touches one address; a dial makes a connection no address has seen. */
  ghost predicate PoolStep<C>(cfg: Config, p: Pool<C>, addr: string, e: Event<C>, p': Pool<C>) {
    && Enabled(At(p, addr), e)
    && (e.DialOk? ==> forall a | a in p :: e.c !in p[a].sp.conns)
    && p' == p[addr := Next(cfg, At(p, addr), e)]
  }

  ghost predicate Apart<C>(s: State<C>, t: State<C>) {
    s.sp.conns.Keys !! t.sp.conns.Keys
  }

  /** No connection is known at two addresses. */
  ghost predicate AllApart<C>(p: Pool<C>) {
    forall a, b | a in p && b in p && a != b :: Apart(p[a], p[b])
  }

  ghost predicate AllGood<C>(cfg: Config, p: Pool<C>) {
    forall a | a in p :: Inv(cfg, p[a])
  }

  ghost predicate PoolInv<C>(cfg: Config, p: Pool<C>) {
    AllGood(cfg, p) && AllApart(p)
  }

  lemma InitIsGood<C>(cfg: Config)
    requires cfg.Valid()
    ensures Inv<C>(cfg, Init())
  {
  }

  /** An address may come to know connections that are new to every address. */
  lemma ReplaceKeepsApart<C>(p: Pool<C>, addr: string, s: State<C>, s': State<C>, made: set<C>)
    requires AllApart(p) && (if addr in p then s == p[addr] else s.sp.conns == map[])
    requires s'.sp.conns.Keys == s.sp.conns.Keys + made
    requires forall a | a in p :: p[a].sp.conns.Keys !! made
    ensures AllApart(p[addr := s'])
  {
    forall a | a in p && a != addr ensures Apart(p[a], s') && Apart(s', p[a]) {
      assert addr in p ==> Apart(p[a], p[addr]);
    }
  }

  lemma ReplaceKeepsGood<C>(cfg: Config, p: Pool<C>, addr: string, s': State<C>)
    requires AllGood(cfg, p) && Inv(cfg, s')
    ensures AllGood(cfg, p[addr := s'])
  {
  }

  /** What one step does to its address. */
  lemma StepAtAddress<C>(cfg: Config, p: Pool<C>, addr: string, e: Event<C>) returns (s': State<C>, made: set<C>)
    requires cfg.Valid() && Enabled(At(p, addr), e) && (addr in p ==> Inv(cfg, p[addr]))
    ensures s' == Next(cfg, At(p, addr), e) && Inv(cfg, s')
    ensures made == (if e.DialOk? then {e.c} else {}) && s'.sp.conns.Keys == At(p, addr).sp.conns.Keys + made
  {
    InitIsGood<C>(cfg);
    StepKeepsInv(cfg, At(p, addr), e);
    NextKeys(cfg, At(p, addr), e);
    s', made := Next(cfg, At(p, addr), e), if e.DialOk? then {e.c} else {};
  }

  lemma StepKeepsPool<C>(cfg: Config, p: Pool<C>, addr: string, e: Event<C>, p': Pool<C>)
    requires cfg.Valid() && PoolInv(cfg, p) && PoolStep(cfg, p, addr, e, p')
    ensures PoolInv(cfg, p')
  {
    hide Next, Enabled, Inv;
    var s', made := StepAtAddress(cfg, p, addr, e);
    ReplaceKeepsApart(p, addr, At(p, addr), s', made);
    ReplaceKeepsGood(cfg, p, addr, s');
  }

  datatype Call<!C> = Call(addr: string, e: Event<C>)

  ghost predicate IsPoolRun<C>(cfg: Config, pools: seq<Pool<C>>, calls: seq<Call<C>>) {
    && |pools| == |calls| + 1
    && pools[0] == map[]
    && forall i | 0 <= i < |calls| :: PoolStepAt(cfg, pools, calls, i)
  }

  ghost predicate PoolStepAt<C>(cfg: Config, pools: seq<Pool<C>>, calls: seq<Call<C>>, i: nat)
    requires |pools| == |calls| + 1 && i < |calls|
  {
    PoolStep(cfg, pools[i], calls[i].addr, calls[i].e, pools[i + 1])
  }

  /** In every run over any number of addresses each address is good and no connection belongs to two. */
  lemma {:induction false} PoolRunKeepsInv<C>(cfg: Config, pools: seq<Pool<C>>, calls: seq<Call<C>>, i: nat)
    requires cfg.Valid() && IsPoolRun(cfg, pools, calls) && i < |pools|
    ensures PoolInv(cfg, pools[i])
  {
    hide PoolStep;
    if i > 0 {
      PoolRunKeepsInv(cfg, pools, calls, i - 1);
      assert PoolStepAt(cfg, pools, calls, i - 1);
      StepKeepsPool(cfg, pools[i - 1], calls[i - 1].addr, calls[i - 1].e, pools[i]);
    }
  }

  // ---- what holds of one address holds of each --------------------------------

  lemma StepOfAddress<C>(cfg: Config, pools: seq<Pool<C>>, calls: seq<Call<C>>, a: string, j: nat)
    requires IsPoolRun(cfg, pools, calls) && j < |calls|
    ensures if calls[j].addr == a
            then Enabled(At(pools[j], a), calls[j].e) && At(pools[j + 1], a) == Next(cfg, At(pools[j], a), calls[j].e)
            else At(pools[j + 1], a) == At(pools[j], a)
  {
    assert PoolStepAt(cfg, pools, calls, j);
  }

  /**
   What a run over many addresses does at one of them is a run of that address; `m` is where
   the run has come to by time `i`. So every theorem about runs of one address holds of each.
   */
  lemma {:induction false} AddressRun<C>(cfg: Config, pools: seq<Pool<C>>, calls: seq<Call<C>>, a: string, i: nat, j: nat)
    returns (states: seq<State<C>>, events: seq<Event<C>>, m: nat)
    requires IsPoolRun(cfg, pools, calls) && i <= j < |pools|
    ensures RunTo(cfg, states, events, At(pools[j], a))
    ensures m < |states| && states[m] == At(pools[i], a)
    decreases j
  {
    hide Next, Enabled;
    if j == 0 {
      states, events, m := [Init()], [], 0;
    } else {
      var k := j - 1;
      states, events, m := AddressRun(cfg, pools, calls, a, if i < j then i else k, k);
      StepOfAddress(cfg, pools, calls, a, k);
      if calls[k].addr == a {
        var last;
        states, events, last := Extend(cfg, states, events, At(pools[k], a), calls[k].e);
      }
      m := if i < j then m else |events|;
    }
  }

  /** A connection let go of at one address is held and listed at none at any later time, and closed no second time. */
  lemma LetGoEverywhere<C>(cfg: Config, pools: seq<Pool<C>>, calls: seq<Call<C>>, i: nat, j: nat, a: string, b: string, c: C)
    requires cfg.Valid() && IsPoolRun(cfg, pools, calls) && i <= j < |pools|
    requires Gone(At(pools[i], a), c) > 0
    ensures var s := At(pools[j], b); !Listed(s.sp, c) && c !in s.leases && c !in s.inserting
    ensures Gone(At(pools[j], a), c) == 1
  {
    var states, events, m := AddressRun(cfg, pools, calls, a, i, j);
    RunKeepsInv(cfg, states, events, m);
    RunKeepsInv(cfg, states, events, |events|);
    RunIsMonotone(cfg, states, events, m, |events|, c);
    var s := At(pools[j], a);
    assert ConnOk(cfg, s, c);
    if b != a && b in pools[j] && a in pools[j] {
      PoolRunKeepsInv(cfg, pools, calls, j);
      assert Apart(pools[j][a], pools[j][b]) && Inv(cfg, pools[j][b]);
    }
  }

  /** A connection dialled at an address is at every later time in exactly one place there, and known nowhere else. */
  lemma ConservationEverywhere<C>(cfg: Config, pools: seq<Pool<C>>, calls: seq<Call<C>>, i: nat, j: nat, a: string, c: C)
    requires cfg.Valid() && IsPoolRun(cfg, pools, calls) && i <= j < |pools|
    requires c in At(pools[i], a).sp.conns
    ensures var s := At(pools[j], a);
            One(c in s.sp.head) + One(c in s.sp.busy) +
            One(!Listed(s.sp, c) && s.leases[c] + s.inserting[c] == 1) +
            s.closing[c] + s.closed[c] + s.dropped[c] == 1
    ensures forall b :: b != a ==> c !in At(pools[j], b).sp.conns
  {
    hide Next, Enabled, Inv, ConnOk;
    var states, events, m := AddressRun(cfg, pools, calls, a, i, j);
    Conservation(cfg, states, events, m, |events|, c);
    RunIsMonotone(cfg, states, events, m, |events|, c);
    PoolRunKeepsInv(cfg, pools, calls, j);
    forall b | b != a && b in pools[j] ensures c !in pools[j][b].sp.conns {
      assert a in pools[j] && Apart(pools[j][a], pools[j][b]);
    }
  }
}
