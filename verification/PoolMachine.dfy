/**
 Any number of threads sharing one address of the pool.

 Each step is one locked section, one dial, or one close made after unlocking. Threads
 are not named: `leases` counts the connections handed out and not yet returned,
 `inserting` the ones a dialler holds between its dial and its insert, `closing` the ones
 a thread has unlocked with and is about to close. The first dial of an address is a
 step from `Init`.
 */
module PoolMachine {
  import opened SeqFacts
  import opened PoolSpec

  datatype State<C> = State(
    sp: PoolView<C>,
    dialing: nat,
    inserting: multiset<C>,
    leases: multiset<C>,
    closing: multiset<C>,
    closed: multiset<C>,
    dropped: multiset<C>)

  function Init<C>(): State<C> {
    State(EmptyView(), 0, multiset{}, multiset{}, multiset{}, multiset{}, multiset{})
  }

  datatype Event<!C> =
    | GetScan(st: C -> Connectivity, now: int)
    | DialFail
    | DialOk(c: C, created: int)
    | DoInsert(c: C)
    | DoRelease(c: C, failed: bool, now: int)
    | DoClose(c: C)

  ghost predicate Enabled<C>(s: State<C>, e: Event<C>) {
    match e
    case GetScan(_, _) => true
    case DialFail => s.dialing > 0
    case DialOk(c, _) => s.dialing > 0 && c !in s.sp.conns
    case DoInsert(c) => c in s.inserting
    case DoRelease(c, _, _) => c in s.leases
    case DoClose(c) => c in s.closing
  }

  /** The effect of a step; it asks for nothing, `Enabled` is stated apart. */
  ghost function Next<C>(cfg: Config, s: State<C>, e: Event<C>): State<C> {
    match e
    case GetScan(st, now) =>
      var r := Scan(cfg, s.sp, st, now);
      s.(sp := r.sp,
         closed := s.closed + multiset(r.evicted),
         dropped := s.dropped + multiset(r.dropped),
         leases := s.leases + multiset(r.taken),
         dialing := s.dialing + (if r.taken == [] then 1 else 0))
    case DialFail => if s.dialing == 0 then s else s.(dialing := s.dialing - 1)
    case DialOk(c, created) =>
      if s.dialing == 0 then s else
      s.(sp := Dialled(s.sp, c, created), dialing := s.dialing - 1, inserting := s.inserting + multiset{c})
    case DoInsert(c) =>
      if c !in s.sp.conns then s else
      s.(sp := Insert(cfg, s.sp, c), inserting := s.inserting - multiset{c}, leases := s.leases + multiset{c})
    case DoRelease(c, failed, now) =>
      if c !in s.sp.conns then s else
      var r := Release(cfg, s.sp, c, failed, now);
      s.(sp := r.sp,
         leases := s.leases - multiset{c},
         closing := if r.close then s.closing + multiset{c} else s.closing)
    case DoClose(c) => s.(closing := s.closing - multiset{c}, closed := s.closed + multiset{c})
  }

  lemma ScanKeys<C>(cfg: Config, v: PoolView<C>, st: C -> Connectivity, now: int)
    ensures Scan(cfg, v, st, now).sp.conns.Keys == v.conns.Keys
  {
    var w := Walked(v, Verdicts(cfg, v.conns, st, now), FirstTake(v.head, Verdicts(cfg, v.conns, st, now)));
    assert w.conns.Keys == v.conns.Keys;
  }

  lemma ReleaseKeys<C>(cfg: Config, v: PoolView<C>, c: C, failed: bool, now: int)
    requires c in v.conns
    ensures Release(cfg, v, c, failed, now).sp.conns.Keys == v.conns.Keys
  {
  }

  lemma GetScanKeys<C>(cfg: Config, s: State<C>, st: C -> Connectivity, now: int)
    ensures Next(cfg, s, GetScan(st, now)).sp.conns.Keys == s.sp.conns.Keys
  {
    ScanKeys(cfg, s.sp, st, now);
  }

  lemma DoReleaseKeys<C>(cfg: Config, s: State<C>, c: C, failed: bool, now: int)
    ensures Next(cfg, s, DoRelease(c, failed, now)).sp.conns.Keys == s.sp.conns.Keys
  {
    if c in s.sp.conns {
      ReleaseKeys(cfg, s.sp, c, failed, now);
    }
  }

  lemma DialOkKeys<C>(cfg: Config, s: State<C>, c: C, created: int)
    requires s.dialing > 0
    ensures Next(cfg, s, DialOk(c, created)).sp.conns.Keys == s.sp.conns.Keys + {c}
  {
  }

  lemma DoInsertKeys<C>(cfg: Config, s: State<C>, c: C)
    ensures Next(cfg, s, DoInsert(c)).sp.conns.Keys == s.sp.conns.Keys
  {
  }

  /** Only a dial makes a connection known, and none is forgotten. */
  lemma NextKeys<C>(cfg: Config, s: State<C>, e: Event<C>)
    requires Enabled(s, e)
    ensures Next(cfg, s, e).sp.conns.Keys == s.sp.conns.Keys + (if e.DialOk? then {e.c} else {})
  {
    match e
    case GetScan(st, now) => GetScanKeys(cfg, s, st, now);
    case DoRelease(c, failed, now) => DoReleaseKeys(cfg, s, c, failed, now);
    case DialOk(c, created) => DialOkKeys(cfg, s, c, created);
    case DoInsert(c) => DoInsertKeys(cfg, s, c);
    case _ =>
  }

  // ---- the invariant --------------------------------------------------------

  /** The lists hold known connections, none twice. */
  ghost predicate ShapeOk<C>(sp: PoolView<C>) {
    && NoDup(sp.head) && NoDup(sp.busy)
    && (forall c | c in sp.head :: c in sp.conns)
    && (forall c | c in sp.busy :: c in sp.conns)
  }

  /** `c` is listed exactly when its flag says so, in one list, and saturated if in `busy`. */
  ghost predicate PlaceOk<C>(cfg: Config, sp: PoolView<C>, c: C)
    requires c in sp.conns
  {
    && (sp.conns[c].listed <==> c in sp.head || c in sp.busy)
    && !(c in sp.head && c in sp.busy)
    && (c in sp.busy ==> sp.conns[c].streams == cfg.maxStreams)
  }

  ghost predicate CountersOk<C>(cfg: Config, sp: PoolView<C>) {
    && sp.count == |sp.head| + |sp.busy| <= cfg.Room()
    && sp.idle == Idles(sp.head, sp.conns) <= cfg.maxIdle
  }

  /** How often the pool has let go of `c`: closed it, promised to, or dropped it as shut down. */
  ghost function Gone<C>(s: State<C>, c: C): nat { s.closed[c] + s.closing[c] + s.dropped[c] }

  /** How many holders `c` has: leases, and a dialler that has not inserted it yet. */
  ghost function Holders<C>(s: State<C>, c: C): nat { s.leases[c] + s.inserting[c] }

  ghost predicate ConnOk<C>(cfg: Config, s: State<C>, c: C)
    requires c in s.sp.conns
  {
    var k := s.sp.conns[c];
    && PlaceOk(cfg, s.sp, c)
    && Gone(s, c) <= 1
    && (Gone(s, c) == 1 ==> !k.listed && Holders(s, c) == 0)
    && (Gone(s, c) == 0 ==>
          && k.streams == Holders(s, c) <= cfg.maxStreams
          && (!k.listed ==> k.streams == 1))
    && (c in s.inserting ==> !k.listed)
  }

  ghost predicate Known<C>(s: State<C>, m: multiset<C>) { forall c | c in m :: c in s.sp.conns }

  ghost predicate AllKnown<C>(s: State<C>) {
    && Known(s, s.inserting) && Known(s, s.leases) && Known(s, s.closing) && Known(s, s.closed) && Known(s, s.dropped)
  }

  ghost predicate Inv<C>(cfg: Config, s: State<C>) {
    && cfg.Valid()
    && ShapeOk(s.sp)
    && CountersOk(cfg, s.sp)
    && AllKnown(s)
    && forall c | c in s.sp.conns :: ConnOk(cfg, s, c)
  }

  // ---- the walk keeps it ----------------------------------------------------

  lemma WalkedShape<C>(sp: PoolView<C>, vm: map<C, Verdict>, k: nat)
    requires ShapeOk(sp) && k <= |sp.head|
    requires forall c | c in sp.busy :: c !in sp.head
    ensures ShapeOk(Walked(sp, vm, k))
  {
    var seen, rest := sp.head[..k], sp.head[k..];
    PickKeepsNoDup(seen, vm, Skip);
    PickKeepsNoDup(seen, vm, Park);
    ReverseKeepsNoDup(Pick(seen, vm, Park));
    assert forall c | c in seen :: c in sp.head && c !in rest;
    NoDupConcat(Pick(seen, vm, Skip), rest);
    NoDupConcat(Reverse(Pick(seen, vm, Park)), sp.busy);
  }

  lemma WalkedPlace<C>(cfg: Config, sp: PoolView<C>, vm: map<C, Verdict>, k: nat, c: C)
    requires ShapeOk(sp) && k <= |sp.head|
    requires c in sp.conns && PlaceOk(cfg, sp, c)
    requires c in vm
    requires c in sp.head[..k] ==> !vm[c].Take? && (vm[c].Park? ==> sp.conns[c].streams == cfg.maxStreams)
    ensures PlaceOk(cfg, Walked(sp, vm, k), c)
  {
    var seen, rest := sp.head[..k], sp.head[k..];
    assert sp.head == seen + rest;
    assert !(c in seen && c in rest);
    var w := Walked(sp, vm, k);
    assert c in w.head <==> c in Pick(seen, vm, Skip) || c in rest;
    assert c in w.busy <==> c in Pick(seen, vm, Park) || c in sp.busy;
  }

  lemma WalkedCounters<C>(cfg: Config, sp: PoolView<C>, st: C -> Connectivity, now: int, k: nat)
    requires cfg.Valid() && ShapeOk(sp) && CountersOk(cfg, sp) && k <= |sp.head|
    requires var vm := Verdicts(cfg, sp.conns, st, now); forall c | c in sp.head[..k] :: !vm[c].Take?
    ensures CountersOk(cfg, Walked(sp, Verdicts(cfg, sp.conns, st, now), k))
  {
    var vm := Verdicts(cfg, sp.conns, st, now);
    var seen, rest := sp.head[..k], sp.head[k..];
    assert sp.head == seen + rest;
    var w := Walked(sp, vm, k);
    WalkPartitions(seen, vm);
    IdlesWalked(cfg, seen, sp.conns, st, now);
    IdlesConcat(seen, rest, sp.conns);
    IdlesConcat(Pick(seen, vm, Skip), rest, sp.conns);
    assert SameStreams(w.head, sp.conns, w.conns) by {
      assert forall c | c in w.head :: c in seen || c in rest;
    }
    IdlesFrame(w.head, sp.conns, w.conns);
  }

  /** `head` and `busy` of a good state have no member in common. */
  lemma ListsDisjoint<C>(cfg: Config, s: State<C>)
    requires Inv(cfg, s)
    ensures forall c | c in s.sp.busy :: c !in s.sp.head
  {
    forall c | c in s.sp.busy ensures c !in s.sp.head {
      assert ConnOk(cfg, s, c);
    }
  }

  lemma BorrowSp<C>(cfg: Config, sp: PoolView<C>, c: C)
    requires ShapeOk(sp) && CountersOk(cfg, sp) && c in sp.head && 0 <= sp.conns[c].streams
    ensures ShapeOk(Borrow(sp, c)) && CountersOk(cfg, Borrow(sp, c))
  {
    IdlesUpdate(sp.head, c, sp.conns[c].(streams := sp.conns[c].streams + 1), sp.conns);
  }

  /** The lists and counters where the walk stops, before anything is handed out. */
  lemma WalkedSp<C>(cfg: Config, s: State<C>, st: C -> Connectivity, now: int, k: nat)
    requires Inv(cfg, s) && k == FirstTake(s.sp.head, Verdicts(cfg, s.sp.conns, st, now))
    ensures var w := Walked(s.sp, Verdicts(cfg, s.sp.conns, st, now), k); ShapeOk(w) && CountersOk(cfg, w)
  {
    ListsDisjoint(cfg, s);
    WalkedShape(s.sp, Verdicts(cfg, s.sp.conns, st, now), k);
    assert forall c | c in s.sp.head[..k] :: c in s.sp.head;
    WalkedCounters(cfg, s.sp, st, now, k);
  }

  lemma ScanSp<C>(cfg: Config, s: State<C>, st: C -> Connectivity, now: int)
    requires Inv(cfg, s)
    ensures ShapeOk(Scan(cfg, s.sp, st, now).sp) && CountersOk(cfg, Scan(cfg, s.sp, st, now).sp)
  {
    var vm := Verdicts(cfg, s.sp.conns, st, now);
    var k := FirstTake(s.sp.head, vm);
    WalkedSp(cfg, s, st, now, k);
    if k < |s.sp.head| {
      var c := s.sp.head[k];
      assert ConnOk(cfg, s, c);
      var w := Walked(s.sp, vm, k);
      assert c in w.head by { assert c == s.sp.head[k..][0]; }
      BorrowSp(cfg, w, c);
    }
  }

  /** How the walk counts one connection: let go at most once, and only when unused. */
  lemma WalkLetsGo<C>(cfg: Config, sp: PoolView<C>, st: C -> Connectivity, now: int, k: nat, c: C) returns (let: nat)
    requires ShapeOk(sp) && k <= |sp.head| && c in sp.conns
    ensures var vm := Verdicts(cfg, sp.conns, st, now);
            && let == multiset(Pick(sp.head[..k], vm, Evict))[c] + multiset(Pick(sp.head[..k], vm, Drop))[c]
            && let <= 1
            && (let == 1 ==> c in sp.head && sp.conns[c].streams == 0)
            && Walked(sp, vm, k).conns[c] == sp.conns[c].(listed := sp.conns[c].listed && let == 0)
  {
    var vm := Verdicts(cfg, sp.conns, st, now);
    var seen := sp.head[..k];
    assert c in seen ==> c in sp.head;
    PickKeepsNoDup(seen, vm, Evict);
    PickKeepsNoDup(seen, vm, Drop);
    NoDupMultiset(Pick(seen, vm, Evict), c);
    NoDupMultiset(Pick(seen, vm, Drop), c);
    let := if c in seen && (vm[c].Drop? || vm[c].Evict?) then 1 else 0;
  }

  /** What one walk does to one connection: lets it go, hands it out, or neither. */
  lemma ScanEffect<C>(cfg: Config, sp: PoolView<C>, st: C -> Connectivity, now: int, c: C) returns (took: nat, let: nat)
    requires ShapeOk(sp) && c in sp.conns
    ensures var r := Scan(cfg, sp, st, now);
            && took == multiset(r.taken)[c]
            && let == multiset(r.evicted)[c] + multiset(r.dropped)[c]
            && took + let <= 1
            && (let == 1 ==> c in sp.head && sp.conns[c].streams == 0)
            && (took == 1 ==> c in sp.head && sp.conns[c].streams < cfg.maxStreams)
            && c in r.sp.conns
            && r.sp.conns[c] == Conn(sp.conns[c].streams + took, sp.conns[c].created, sp.conns[c].listed && let == 0)
  {
    var vm := Verdicts(cfg, sp.conns, st, now);
    var k := FirstTake(sp.head, vm);
    took := if k < |sp.head| && c == sp.head[k] then 1 else 0;
    let := WalkLetsGo(cfg, sp, st, now, k, c);
    hide Judge, Walked, Pick, FirstTake;
    if k < |sp.head| {
      assert sp.head[k] in sp.head && sp.head[k] in vm;
    }
    if took == 1 {
      assert c !in sp.head[..k];
      assert c !in Pick(sp.head[..k], vm, Evict) && c !in Pick(sp.head[..k], vm, Drop);
    }
  }

  lemma ScanPlace<C>(cfg: Config, sp: PoolView<C>, st: C -> Connectivity, now: int, c: C)
    requires ShapeOk(sp) && c in sp.conns && PlaceOk(cfg, sp, c)
    requires sp.conns[c].listed ==> sp.conns[c].streams <= cfg.maxStreams
    ensures c in Scan(cfg, sp, st, now).sp.conns && PlaceOk(cfg, Scan(cfg, sp, st, now).sp, c)
  {
    var vm := Verdicts(cfg, sp.conns, st, now);
    var k := FirstTake(sp.head, vm);
    WalkedPlace(cfg, sp, vm, k, c);
    assert c in sp.head[..k] ==> c in sp.head;
    if k < |sp.head| {
      assert sp.head[k] in sp.head;
    }
  }

  lemma ScanConn<C>(cfg: Config, s: State<C>, st: C -> Connectivity, now: int, c: C)
    requires cfg.Valid() && ShapeOk(s.sp) && c in s.sp.conns && ConnOk(cfg, s, c)
    ensures ConnOk(cfg, Next(cfg, s, GetScan(st, now)), c)
  {
    ScanPlace(cfg, s.sp, st, now, c);
    var took, let := ScanEffect(cfg, s.sp, st, now, c);
  }

  lemma ScanKeepsInv<C>(cfg: Config, s: State<C>, st: C -> Connectivity, now: int)
    requires Inv(cfg, s)
    ensures Inv(cfg, Next(cfg, s, GetScan(st, now)))
  {
    var s' := Next(cfg, s, GetScan(st, now));
    var r := Scan(cfg, s.sp, st, now);
    ScanSp(cfg, s, st, now);
    ScanKeys(cfg, s.sp, st, now);
    forall c | c in s'.sp.conns ensures ConnOk(cfg, s', c) {
      assert ConnOk(cfg, s, c);
      ScanConn(cfg, s, st, now, c);
    }
    assert AllKnown(s') by {
      assert forall c | c in r.taken :: c in s.sp.head;
      assert forall c | c in r.evicted :: c in s.sp.head;
      assert forall c | c in r.dropped :: c in s.sp.head;
    }
  }

  // ---- dial, insert, release and close keep it ------------------------------

  lemma DialOkConn<C>(cfg: Config, s: State<C>, c: C, created: int, x: C)
    requires cfg.Valid() && ShapeOk(s.sp) && AllKnown(s) && Enabled(s, DialOk(c, created))
    requires x == c || (x in s.sp.conns && ConnOk(cfg, s, x))
    ensures ConnOk(cfg, Next(cfg, s, DialOk(c, created)), x)
  {
  }

  lemma DialledSp<C>(cfg: Config, sp: PoolView<C>, c: C, created: int)
    requires ShapeOk(sp) && CountersOk(cfg, sp) && c !in sp.conns
    ensures ShapeOk(Dialled(sp, c, created)) && CountersOk(cfg, Dialled(sp, c, created))
  {
    IdlesFrame(sp.head, sp.conns, Dialled(sp, c, created).conns);
  }

  lemma DialOkKeepsInv<C>(cfg: Config, s: State<C>, c: C, created: int)
    requires Inv(cfg, s) && Enabled(s, DialOk(c, created))
    ensures Inv(cfg, Next(cfg, s, DialOk(c, created)))
  {
    var s' := Next(cfg, s, DialOk(c, created));
    DialledSp(cfg, s.sp, c, created);
    forall x | x in s'.sp.conns ensures ConnOk(cfg, s', x) {
      assert x != c ==> x in s.sp.conns && ConnOk(cfg, s, x);
      DialOkConn(cfg, s, c, created, x);
    }
  }

  lemma InsertConn<C>(cfg: Config, s: State<C>, c: C, x: C)
    requires c in s.sp.conns && ConnOk(cfg, s, c) && c in s.inserting
    requires x in s.sp.conns && ConnOk(cfg, s, x)
    ensures ConnOk(cfg, Next(cfg, s, DoInsert(c)), x)
  {
  }

  lemma InsertKeepsInv<C>(cfg: Config, s: State<C>, c: C)
    requires Inv(cfg, s) && Enabled(s, DoInsert(c))
    ensures Inv(cfg, Next(cfg, s, DoInsert(c)))
  {
    var s' := Next(cfg, s, DoInsert(c));
    assert ConnOk(cfg, s, c);
    forall x | x in s'.sp.conns ensures ConnOk(cfg, s', x) {
      assert ConnOk(cfg, s, x);
      InsertConn(cfg, s, c, x);
    }
    IdlesConcat([c], s.sp.head, s'.sp.conns);
    IdlesFrame(s.sp.head, s.sp.conns, s'.sp.conns);
    assert [c][1..] == [];
  }

  lemma ReleaseShape<C>(cfg: Config, sp: PoolView<C>, c: C, failed: bool, now: int)
    requires ShapeOk(sp) && c in sp.conns && PlaceOk(cfg, sp, c)
    ensures ShapeOk(Release(cfg, sp, c, failed, now).sp)
    ensures PlaceOk(cfg, Release(cfg, sp, c, failed, now).sp, c)
  {
    WithoutKeepsNoDup(sp.head, c);
    WithoutKeepsNoDup(sp.busy, c);
  }

  lemma ReleaseCounters<C>(cfg: Config, sp: PoolView<C>, c: C, failed: bool, now: int)
    requires cfg.Valid() && ShapeOk(sp) && CountersOk(cfg, sp)
    requires c in sp.conns && PlaceOk(cfg, sp, c) && 1 <= sp.conns[c].streams <= cfg.maxStreams
    ensures CountersOk(cfg, Release(cfg, sp, c, failed, now).sp)
  {
    var sp' := Release(cfg, sp, c, failed, now).sp;
    if sp.conns[c].listed || sp.count < cfg.size {
      WithoutKeepsNoDup(sp.head, c);
      WithoutKeepsNoDup(sp.busy, c);
      IdlesWithout(sp.head, c, sp.conns);
      var rest := Without(sp.head, c);
      IdlesFrame(rest, sp.conns, sp'.conns);
      IdlesConcat([c], rest, sp'.conns);
      assert [c][1..] == [];
      IdlesUpdate(sp.head, c, sp'.conns[c], sp.conns);
    }
  }

  lemma ReleaseOther<C>(cfg: Config, sp: PoolView<C>, c: C, failed: bool, now: int, x: C)
    requires c in sp.conns && x in sp.conns && x != c && PlaceOk(cfg, sp, x)
    ensures var sp' := Release(cfg, sp, c, failed, now).sp;
            x in sp'.conns && sp'.conns[x] == sp.conns[x] && PlaceOk(cfg, sp', x)
  {
    var sp' := Release(cfg, sp, c, failed, now).sp;
    assert x in Without(sp.head, c) <==> x in sp.head;
    assert x in Without(sp.busy, c) <==> x in sp.busy;
    assert x in sp'.head <==> x in sp.head;
    assert x in sp'.busy <==> x in sp.busy;
  }

  lemma ReleaseConn<C>(cfg: Config, s: State<C>, c: C, failed: bool, now: int, x: C)
    requires c in s.sp.conns && ConnOk(cfg, s, c) && c in s.leases
    requires x in s.sp.conns && ConnOk(cfg, s, x)
    ensures ConnOk(cfg, Next(cfg, s, DoRelease(c, failed, now)), x)
  {
    if x != c {
      ReleaseOther(cfg, s.sp, c, failed, now, x);
    }
  }

  /** The lists and counters that a release leaves. */
  lemma ReleaseSp<C>(cfg: Config, s: State<C>, c: C, failed: bool, now: int)
    requires Inv(cfg, s) && c in s.leases
    ensures c in s.sp.conns && ConnOk(cfg, s, c)
    ensures var sp := Release(cfg, s.sp, c, failed, now).sp;
            ShapeOk(sp) && CountersOk(cfg, sp) && sp.conns.Keys == s.sp.conns.Keys
  {
    assert ConnOk(cfg, s, c);
    ReleaseShape(cfg, s.sp, c, failed, now);
    ReleaseCounters(cfg, s.sp, c, failed, now);
    ReleaseKeys(cfg, s.sp, c, failed, now);
  }

  lemma ReleaseConns<C>(cfg: Config, s: State<C>, c: C, failed: bool, now: int)
    requires c in s.leases && c in s.sp.conns
    requires forall x | x in s.sp.conns :: ConnOk(cfg, s, x)
    ensures var s' := Next(cfg, s, DoRelease(c, failed, now));
            forall x | x in s.sp.conns :: x in s'.sp.conns && ConnOk(cfg, s', x)
  {
    forall x | x in s.sp.conns
      ensures var s' := Next(cfg, s, DoRelease(c, failed, now)); x in s'.sp.conns && ConnOk(cfg, s', x)
    {
      ReleaseKeys(cfg, s.sp, c, failed, now);
      ReleaseConn(cfg, s, c, failed, now, x);
    }
  }

  lemma ReleaseKnown<C>(cfg: Config, s: State<C>, c: C, failed: bool, now: int)
    requires AllKnown(s) && c in s.sp.conns
    requires Release(cfg, s.sp, c, failed, now).sp.conns.Keys == s.sp.conns.Keys
    ensures AllKnown(Next(cfg, s, DoRelease(c, failed, now)))
  {
  }

  lemma ReleaseKeepsInv<C>(cfg: Config, s: State<C>, c: C, failed: bool, now: int)
    requires Inv(cfg, s) && Enabled(s, DoRelease(c, failed, now))
    ensures Inv(cfg, Next(cfg, s, DoRelease(c, failed, now)))
  {
    ReleaseSp(cfg, s, c, failed, now);
    ReleaseConns(cfg, s, c, failed, now);
    ReleaseKnown(cfg, s, c, failed, now);
  }

  lemma CloseKeepsInv<C>(cfg: Config, s: State<C>, c: C)
    requires Inv(cfg, s) && Enabled(s, DoClose(c))
    ensures Inv(cfg, Next(cfg, s, DoClose(c)))
  {
    var s' := Next(cfg, s, DoClose(c));
    forall x | x in s'.sp.conns ensures ConnOk(cfg, s', x) {
      assert ConnOk(cfg, s, x);
    }
  }

  lemma DialFailKeepsInv<C>(cfg: Config, s: State<C>)
    requires Inv(cfg, s)
    ensures Inv(cfg, Next(cfg, s, DialFail))
  {
    forall x | x in s.sp.conns ensures ConnOk(cfg, Next(cfg, s, DialFail), x) {
      assert ConnOk(cfg, s, x);
    }
  }

  lemma StepKeepsInv<C>(cfg: Config, s: State<C>, e: Event<C>)
    requires Inv(cfg, s) && Enabled(s, e)
    ensures Inv(cfg, Next(cfg, s, e))
  {
    match e
    case GetScan(st, now) => ScanKeepsInv(cfg, s, st, now);
    case DialFail => DialFailKeepsInv(cfg, s);
    case DialOk(c, created) => DialOkKeepsInv(cfg, s, c, created);
    case DoInsert(c) => InsertKeepsInv(cfg, s, c);
    case DoRelease(c, failed, now) => ReleaseKeepsInv(cfg, s, c, failed, now);
    case DoClose(c) => CloseKeepsInv(cfg, s, c);
  }
}
