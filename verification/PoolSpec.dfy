/**
 The locked sections of grpcclient/pool.go as functions on values.

 A `PoolView` is one address (a streamsPool): its two lists, its two counters, and every
 connection ever dialled for it. `Scan`, `Insert` and `Release` say what each locked
 section does to it as a whole; PoolHeap proves that the pointer code does the same.
 Connection states and clock readings are arguments.
 */
module PoolSpec {
  import opened SeqFacts

  datatype Connectivity = Idle | Connecting | Ready | TransientFailure | Shutdown

  datatype Config = Config(size: int, ttl: int, maxStreams: int, maxIdle: int) {
    ghost predicate Valid() { maxStreams >= 1 && maxIdle >= 0 }

    /** The most connections that can be listed: a negative size lists none. */
    function Room(): nat { if size > 0 then size else 0 }
  }

  /** The pool's settings as the constructor clamps them; `ttl` is in seconds. */
  function NewConfig(size: int, ttl: int, idle: int, ms: int): (cfg: Config)
    ensures cfg.Valid()
    ensures cfg.size == size && cfg.ttl == ttl
    ensures cfg.maxStreams == ms || (ms < 1 && cfg.maxStreams == 1)
    ensures cfg.maxIdle == idle || (idle < 0 && cfg.maxIdle == 0)
  {
    Config(size, ttl, if ms <= 0 then 1 else ms, if idle < 0 then 0 else idle)
  }

  datatype Conn = Conn(streams: int, created: int, listed: bool)

  datatype PoolView<C> =
    PoolView(head: seq<C>, busy: seq<C>, count: int, idle: int, conns: map<C, Conn>)

  function EmptyView<C>(): PoolView<C> { PoolView([], [], 0, 0, map[]) }

  /** What the walk over `head` does with one connection. */
  datatype Verdict =
    | Skip   // left where it is
    | Drop   // found shut down and unused: unlinked
    | Evict  // failed or too old, and unused: unlinked and closed
    | Park   // saturated: moved to the front of `busy`
    | Take   // handed out

  function Judge(cfg: Config, c: Conn, st: Connectivity, now: int): (v: Verdict)
    ensures v.Take? <==>
            (st.Ready? || st.Idle?) && now - c.created <= cfg.ttl && c.streams < cfg.maxStreams
    ensures v.Drop? || v.Evict? ==> c.streams == 0
    ensures v.Park? ==> c.streams >= cfg.maxStreams
  {
    match st
    case Connecting => Skip
    case Shutdown => if c.streams == 0 then Drop else Skip
    case TransientFailure => if c.streams == 0 then Evict else Skip
    case _ =>
      if now - c.created > cfg.ttl then
        if c.streams == 0 then Evict else Skip
      else if c.streams >= cfg.maxStreams then Park
      else Take
  }

  ghost function Verdicts<C>(cfg: Config, conns: map<C, Conn>, st: C -> Connectivity, now: int): map<C, Verdict> {
    map c | c in conns :: Judge(cfg, conns[c], st(c), now)
  }

  ghost predicate Is<C>(vm: map<C, Verdict>, c: C, want: Verdict) {
    c in vm && vm[c] == want
  }

  /** Index of the first connection to hand out, or the length of the list. */
  ghost function FirstTake<C>(s: seq<C>, vm: map<C, Verdict>): (k: nat)
    ensures k <= |s|
    ensures k < |s| ==> Is(vm, s[k], Take)
    ensures forall j :: 0 <= j < k ==> !Is(vm, s[j], Take)
  {
    if s == [] || Is(vm, s[0], Take) then 0 else 1 + FirstTake(s[1..], vm)
  }

  /** The members of `s` with a given verdict, in order. */
  ghost function Pick<C>(s: seq<C>, vm: map<C, Verdict>, want: Verdict): (r: seq<C>)
    ensures |r| <= |s|
    ensures forall c {:trigger c in r} | c in r :: c in s && Is(vm, c, want)
    ensures forall c {:trigger c in r} | c in s :: Is(vm, c, want) ==> c in r
  {
    if s == [] then [] else (if Is(vm, s[0], want) then [s[0]] else []) + Pick(s[1..], vm, want)
  }

  /** The address after the walk has passed the first `k` connections without taking any. */
  ghost function Walked<C>(sp: PoolView<C>, vm: map<C, Verdict>, k: nat): PoolView<C>
    requires k <= |sp.head|
  {
    var seen := sp.head[..k];
    var gone := |Pick(seen, vm, Drop)| + |Pick(seen, vm, Evict)|;
    PoolView(
      Pick(seen, vm, Skip) + sp.head[k..],
      Reverse(Pick(seen, vm, Park)) + sp.busy,
      sp.count - gone,
      sp.idle - gone,
      map c | c in sp.conns ::
        if c in seen && (Is(vm, c, Drop) || Is(vm, c, Evict)) then sp.conns[c].(listed := false) else sp.conns[c])
  }

  /** `c` with `n` streams. */
  ghost function Streams<C>(v: PoolView<C>, c: C, n: int): PoolView<C>
    requires c in v.conns
  {
    v.(conns := v.conns[c := v.conns[c].(streams := n)])
  }

  /** One more stream on `c`, which stops being idle if it was. */
  ghost function Borrow<C>(sp: PoolView<C>, c: C): PoolView<C>
    requires c in sp.conns
  {
    var k := sp.conns[c];
    sp.(idle := sp.idle - (if k.streams == 0 then 1 else 0),
        conns := sp.conns[c := k.(streams := k.streams + 1)])
  }

  datatype ScanResult<C> =
    ScanResult(sp: PoolView<C>, taken: seq<C>, evicted: seq<C>, dropped: seq<C>)

  /** The locked walk of getConn: `taken` has one member, or none when a dial is needed. */
  ghost function Scan<C>(cfg: Config, sp: PoolView<C>, st: C -> Connectivity, now: int): ScanResult<C> {
    var vm := Verdicts(cfg, sp.conns, st, now);
    var k := FirstTake(sp.head, vm);
    var walked := Walked(sp, vm, k);
    var seen := sp.head[..k];
    if k == |sp.head|
    then ScanResult(walked, [], Pick(seen, vm, Evict), Pick(seen, vm, Drop))
    else ScanResult(Borrow(walked, sp.head[k]), [sp.head[k]], Pick(seen, vm, Evict), Pick(seen, vm, Drop))
  }

  /** A fresh connection, held by its dialler and not listed yet. */
  ghost function Dialled<C>(sp: PoolView<C>, c: C, created: int): PoolView<C> {
    sp.(conns := sp.conns[c := Conn(1, created, false)])
  }

  /** The locked insert of getConn. */
  ghost function Insert<C>(cfg: Config, sp: PoolView<C>, c: C): PoolView<C>
    requires c in sp.conns
  {
    if sp.count < cfg.size
    then sp.(head := [c] + sp.head, count := sp.count + 1, conns := sp.conns[c := sp.conns[c].(listed := true)])
    else sp
  }

  datatype ReleaseResult<C> = ReleaseResult(sp: PoolView<C>, close: bool)

  /** The locked section of release: the address afterwards, and whether the caller must close `c`. */
  ghost function Release<C>(cfg: Config, sp: PoolView<C>, c: C, failed: bool, now: int): ReleaseResult<C>
    requires c in sp.conns
  {
    var k := sp.conns[c];
    if !k.listed && sp.count >= cfg.size then
      ReleaseResult(sp, true)
    else
      var n := k.streams - 1;
      var gone := n == 0 && (failed || sp.idle >= cfg.maxIdle || now - k.created > cfg.ttl);
      var moved := !k.listed || k.streams >= cfg.maxStreams;
      ReleaseResult(
        PoolView(
          if gone then Without(sp.head, c) else if moved then [c] + Without(sp.head, c) else sp.head,
          if gone || moved then Without(sp.busy, c) else sp.busy,
          sp.count + (if k.listed then 0 else 1) - (if gone then 1 else 0),
          sp.idle + (if n == 0 && !gone then 1 else 0),
          sp.conns[c := Conn(n, k.created, !gone)]),
        gone)
  }

  // ---- the list operations --------------------------------------------------

  /** The address with `c` unlinked, as removeConn leaves it. */
  ghost function Unlinked<C>(v: PoolView<C>, c: C): PoolView<C>
    requires c in v.conns
  {
    PoolView(Without(v.head, c), Without(v.busy, c), v.count - 1, v.idle,
             v.conns[c := v.conns[c].(listed := false)])
  }

  /** The address with `c` in front of one of its lists, as addConnAfter leaves it. */
  ghost function Linked<C>(v: PoolView<C>, c: C, toHead: bool): PoolView<C>
    requires c in v.conns
  {
    PoolView(if toHead then [c] + v.head else v.head, if toHead then v.busy else [c] + v.busy, v.count + 1, v.idle,
             v.conns[c := v.conns[c].(listed := true)])
  }

  /** Listing `c` first if there is room, and bringing it to the front if it is saturated. */
  ghost function Fronted<C>(cfg: Config, v: PoolView<C>, c: C): (r: PoolView<C>)
    requires c in v.conns
    ensures c in r.conns
  {
    var v1 := if !v.conns[c].listed && v.count < cfg.size then Linked(v, c, true) else v;
    if v1.conns[c].listed && v1.conns[c].streams >= cfg.maxStreams then Linked(Unlinked(v1, c), c, true) else v1
  }

  /** Taking one stream off a listed connection, and keeping it or not. */
  ghost function GivenBack<C>(cfg: Config, v: PoolView<C>, c: C, failed: bool, now: int): ReleaseResult<C>
    requires c in v.conns
  {
    var n := v.conns[c].streams - 1;
    var v' := Streams(v, c, n);
    if n == 0 && (failed || v.idle >= cfg.maxIdle || now - v.conns[c].created > cfg.ttl)
    then ReleaseResult(Unlinked(v', c), true)
    else ReleaseResult(if n == 0 then v'.(idle := v.idle + 1) else v', false)
  }

  /** The steps of release in its own order. */
  ghost function ReleaseSteps<C>(cfg: Config, v: PoolView<C>, c: C, failed: bool, now: int): ReleaseResult<C>
    requires c in v.conns
  {
    var f := Fronted(cfg, v, c);
    if f.conns[c].listed then GivenBack(cfg, f, c, failed, now) else ReleaseResult(f, true)
  }

  /** What the first two steps of release leave. */
  lemma FrontedIs<C>(cfg: Config, v: PoolView<C>, c: C)
    requires c in v.conns && (v.conns[c].listed <==> c in v.head || c in v.busy)
    ensures var f, k := Fronted(cfg, v, c), v.conns[c];
            if !k.listed && v.count >= cfg.size then f == v
            else
              var moved := !k.listed || k.streams >= cfg.maxStreams;
              && f.head == (if moved then [c] + Without(v.head, c) else v.head)
              && f.busy == (if moved then Without(v.busy, c) else v.busy)
              && f.count == v.count + (if k.listed then 0 else 1)
              && f.idle == v.idle
              && f.conns == v.conns[c := k.(listed := true)]
  {
    var k := v.conns[c];
    if !k.listed && v.count < cfg.size {
      WithoutAbsent(v.head, c);
      WithoutAbsent(v.busy, c);
      assert ([c] + v.head)[1..] == v.head;
    }
  }

  /** The second half of release on a connection that is in front, or where it was. */
  lemma GivenBackIs<C>(cfg: Config, f: PoolView<C>, c: C, failed: bool, now: int, s: seq<C>, t: seq<C>)
    requires c in f.conns && f.conns[c].listed
    requires Without(f.head, c) == Without(s, c) && Without(f.busy, c) == Without(t, c)
    ensures var r, k := GivenBack(cfg, f, c, failed, now), f.conns[c];
            var n := k.streams - 1;
            && r.close == (n == 0 && (failed || f.idle >= cfg.maxIdle || now - k.created > cfg.ttl))
            && r.sp.head == (if r.close then Without(s, c) else f.head)
            && r.sp.busy == (if r.close then Without(t, c) else f.busy)
            && r.sp.count == f.count - (if r.close then 1 else 0)
            && r.sp.idle == f.idle + (if n == 0 && !r.close then 1 else 0)
            && r.sp.conns == f.conns[c := Conn(n, k.created, !r.close)]
  {
  }

  /** Taking a connection out again after bringing it to the front. */
  lemma WithoutFronted<C>(s: seq<C>, c: C)
    ensures Without([c] + Without(s, c), c) == Without(s, c) && Without(Without(s, c), c) == Without(s, c)
  {
    WithoutAbsent(Without(s, c), c);
    assert ([c] + Without(s, c))[1..] == Without(s, c);
  }

  /** The steps of release add up to `Release`. */
  lemma ReleaseInSteps<C>(cfg: Config, v: PoolView<C>, c: C, failed: bool, now: int)
    requires c in v.conns && (v.conns[c].listed <==> c in v.head || c in v.busy)
    ensures ReleaseSteps(cfg, v, c, failed, now) == Release(cfg, v, c, failed, now)
  {
    hide Fronted, GivenBack;
    FrontedIs(cfg, v, c);
    WithoutFronted(v.head, c);
    WithoutFronted(v.busy, c);
    var f := Fronted(cfg, v, c);
    if f.conns[c].listed {
      GivenBackIs(cfg, f, c, failed, now, v.head, v.busy);
    }
  }

  // ---- facts about the walk -------------------------------------------------

  lemma {:induction false} PickSnoc<C>(s: seq<C>, c: C, vm: map<C, Verdict>, want: Verdict)
    ensures Pick(s + [c], vm, want) == Pick(s, vm, want) + (if Is(vm, c, want) then [c] else [])
  {
    if s == [] {
      assert Pick([c], vm, want) == (if Is(vm, c, want) then [c] else []) + Pick([], vm, want);
    } else {
      var first := if Is(vm, s[0], want) then [s[0]] else [];
      var last := if Is(vm, c, want) then [c] else [];
      PickSnoc(s[1..], c, vm, want);
      calc {
        Pick(s + [c], vm, want);
        { assert (s + [c])[0] == s[0] && (s + [c])[1..] == s[1..] + [c]; }
        first + Pick(s[1..] + [c], vm, want);
        first + (Pick(s[1..], vm, want) + last);
        Pick(s, vm, want) + last;
      }
    }
  }

  lemma {:induction false} PickKeepsNoDup<C>(s: seq<C>, vm: map<C, Verdict>, want: Verdict)
    requires NoDup(s)
    ensures NoDup(Pick(s, vm, want))
  {
    if s != [] {
      assert s[0] !in s[1..] && s[0] !in Pick(s[1..], vm, want);
      PickKeepsNoDup(s[1..], vm, want);
    }
  }

  /** The walk handles every connection it passes in exactly one of four ways. */
  lemma {:induction false} WalkPartitions<C>(s: seq<C>, vm: map<C, Verdict>)
    requires forall c | c in s :: c in vm && !vm[c].Take?
    ensures |s| == |Pick(s, vm, Skip)| + |Pick(s, vm, Drop)| + |Pick(s, vm, Evict)| + |Pick(s, vm, Park)|
  {
    if s != [] {
      assert s[0] in s;
      WalkPartitions(s[1..], vm);
    }
  }

  /** The members of `s` without a stream. */
  ghost function Idles<C>(s: seq<C>, conns: map<C, Conn>): nat {
    if s == [] then 0 else (if s[0] in conns && conns[s[0]].streams == 0 then 1 else 0) + Idles(s[1..], conns)
  }

  lemma {:induction false} IdlesConcat<C>(s: seq<C>, t: seq<C>, conns: map<C, Conn>)
    ensures Idles(s + t, conns) == Idles(s, conns) + Idles(t, conns)
  {
    if s == [] {
      assert s + t == t;
    } else {
      assert (s + t)[0] == s[0] && (s + t)[1..] == s[1..] + t;
      IdlesConcat(s[1..], t, conns);
    }
  }

  ghost predicate SameStreams<C>(s: seq<C>, conns: map<C, Conn>, conns': map<C, Conn>) {
    forall c | c in s :: c in conns && c in conns' && conns[c].streams == conns'[c].streams
  }

  lemma {:induction false} IdlesFrame<C>(s: seq<C>, conns: map<C, Conn>, conns': map<C, Conn>)
    requires SameStreams(s, conns, conns')
    ensures Idles(s, conns) == Idles(s, conns')
  {
    if s != [] {
      assert s[0] in s;
      IdlesFrame(s[1..], conns, conns');
    }
  }

  lemma {:induction false} IdlesWithout<C>(s: seq<C>, c: C, conns: map<C, Conn>)
    requires NoDup(s) && c in conns
    ensures Idles(s, conns) ==
            Idles(Without(s, c), conns) + (if c in s && conns[c].streams == 0 then 1 else 0)
  {
    if s != [] {
      IdlesWithout(s[1..], c, conns);
      if s[0] == c {
        assert c !in s[1..];
      } else {
        IdlesConcat([s[0]], Without(s[1..], c), conns);
        assert [s[0]][1..] == [];
      }
    }
  }

  lemma {:induction false} IdlesUpdate<C>(s: seq<C>, c: C, k: Conn, conns: map<C, Conn>)
    requires NoDup(s) && c in conns && forall x | x in s :: x in conns
    ensures Idles(s, conns[c := k]) ==
            Idles(s, conns) + (if c in s then (if k.streams == 0 then 1 else 0) - (if conns[c].streams == 0 then 1 else 0) else 0)
  {
    if s != [] {
      assert s[0] in s;
      IdlesUpdate(s[1..], c, k, conns);
      assert s[0] !in s[1..];
    }
  }

  /** What the walk leaves in `head` lost exactly the idle connections it unlinked. */
  lemma {:induction false} IdlesWalked<C>(cfg: Config, s: seq<C>, conns: map<C, Conn>, st: C -> Connectivity, now: int)
    requires cfg.Valid()
    requires forall c | c in s :: c in conns
    requires var vm := Verdicts(cfg, conns, st, now); forall c | c in s :: !vm[c].Take?
    ensures var vm := Verdicts(cfg, conns, st, now);
            Idles(s, conns) == Idles(Pick(s, vm, Skip), conns) + |Pick(s, vm, Drop)| + |Pick(s, vm, Evict)|
  {
    if s != [] {
      var vm := Verdicts(cfg, conns, st, now);
      assert s[0] in s;
      IdlesWalked(cfg, s[1..], conns, st, now);
      IdlesConcat(if Is(vm, s[0], Skip) then [s[0]] else [], Pick(s[1..], vm, Skip), conns);
      assert [s[0]][1..] == [];
    }
  }

  // ---- one step of the walk -------------------------------------------------

  ghost predicate LetGo<C>(vm: map<C, Verdict>, c: C) { Is(vm, c, Drop) || Is(vm, c, Evict) }

  lemma WalkNextConns<C>(v: PoolView<C>, vm: map<C, Verdict>, i: nat)
    requires i < |v.head| && v.head[i] in v.conns
    ensures var w, w', c := Walked(v, vm, i), Walked(v, vm, i + 1), v.head[i];
            w'.conns == w.conns[c := if LetGo(vm, c) then v.conns[c].(listed := false) else w.conns[c]]
  {
    assert v.head[..i + 1] == v.head[..i] + [v.head[i]];
  }

  lemma WalkNextHead<C>(v: PoolView<C>, vm: map<C, Verdict>, i: nat)
    requires i < |v.head|
    ensures Walked(v, vm, i + 1).head ==
            if Is(vm, v.head[i], Skip) then Walked(v, vm, i).head else Pick(v.head[..i], vm, Skip) + v.head[i + 1..]
  {
    var kept, c, rest := Pick(v.head[..i], vm, Skip), v.head[i], v.head[i + 1..];
    assert v.head[..i + 1] == v.head[..i] + [c];
    PickSnoc(v.head[..i], c, vm, Skip);
    assert v.head[i..] == [c] + rest;
    assert (kept + [c]) + rest == kept + ([c] + rest);
    assert kept + [] == kept;
  }

  lemma WalkNextBusy<C>(v: PoolView<C>, vm: map<C, Verdict>, i: nat)
    requires i < |v.head|
    ensures Walked(v, vm, i + 1).busy ==
            if Is(vm, v.head[i], Park) then [v.head[i]] + Walked(v, vm, i).busy else Walked(v, vm, i).busy
  {
    var parked, c := Pick(v.head[..i], vm, Park), v.head[i];
    assert v.head[..i + 1] == v.head[..i] + [c];
    PickSnoc(v.head[..i], c, vm, Park);
    ReverseSnoc(parked, c);
    assert ([c] + Reverse(parked)) + v.busy == [c] + (Reverse(parked) + v.busy);
    assert parked + [] == parked;
  }

  /** What passing connection `i` of the old list changes, by its verdict. */
  lemma WalkNext<C>(v: PoolView<C>, vm: map<C, Verdict>, i: nat)
    requires i < |v.head| && v.head[i] in v.conns && v.head[i] in vm && !vm[v.head[i]].Take?
    ensures var w, w', c := Walked(v, vm, i), Walked(v, vm, i + 1), v.head[i];
            && w'.head == (if vm[c].Skip? then w.head else Pick(v.head[..i], vm, Skip) + v.head[i + 1..])
            && w'.busy == (if vm[c].Park? then [c] + w.busy else w.busy)
            && w'.count == w.count - (if LetGo(vm, c) then 1 else 0)
            && w'.idle == w.idle - (if LetGo(vm, c) then 1 else 0)
  {
    WalkNextHead(v, vm, i);
    WalkNextBusy(v, vm, i);
    assert v.head[..i + 1] == v.head[..i] + [v.head[i]];
    PickSnoc(v.head[..i], v.head[i], vm, Drop);
    PickSnoc(v.head[..i], v.head[i], vm, Evict);
  }

  /** The address after the walk has dealt with one connection by its verdict. */
  ghost function Judged<C>(w: PoolView<C>, c: C, verdict: Verdict): PoolView<C>
    requires c in w.conns
  {
    match verdict
    case Skip => w
    case Drop => Unlinked(w, c).(idle := w.idle - 1)
    case Evict => Unlinked(w, c).(idle := w.idle - 1)
    case Park => Linked(Unlinked(w, c), c, false)
    case Take => Borrow(w, c)
  }

  /** Where the walk stands: behind what it skipped, before what it has not seen. */
  lemma WalkPosition<C>(v: PoolView<C>, vm: map<C, Verdict>, i: nat)
    requires i < |v.head| && v.head[i] in v.conns && NoDup(v.head) && forall c | c in v.busy :: c !in v.head
    ensures var w, p := Walked(v, vm, i), |Pick(v.head[..i], vm, Skip)|;
            && p < |w.head| && w.head[p] == v.head[i]
            && Without(w.head, v.head[i]) == Pick(v.head[..i], vm, Skip) + v.head[i + 1..]
            && Without(w.busy, v.head[i]) == w.busy
            && v.head[i] in w.conns && w.conns[v.head[i]] == v.conns[v.head[i]]
            && (if p + 1 < |w.head| then i + 1 < |v.head| && w.head[p + 1] == v.head[i + 1] else i + 1 == |v.head|)
  {
    var w, p, c := Walked(v, vm, i), |Pick(v.head[..i], vm, Skip)|, v.head[i];
    assert c !in v.head[..i];
    assert c !in v.head[i + 1..];
    assert v.head[i..] == [c] + v.head[i + 1..];
    WithoutConcat(Pick(v.head[..i], vm, Skip), v.head[i..], c);
    WithoutAbsent(Pick(v.head[..i], vm, Skip), c);
    WithoutAbsent(v.head[i + 1..], c);
    WithoutAbsent(w.busy, c);
  }

  lemma WalkSkip<C>(v: PoolView<C>, vm: map<C, Verdict>, i: nat)
    requires i < |v.head| && Is(vm, v.head[i], Skip) && v.head[i] in v.conns
    ensures Walked(v, vm, i + 1) == Walked(v, vm, i)
  {
    WalkNext(v, vm, i);
    WalkNextConns(v, vm, i);
  }

  lemma WalkDiscard<C>(v: PoolView<C>, vm: map<C, Verdict>, i: nat)
    requires i < |v.head| && v.head[i] in v.conns && NoDup(v.head) && forall c | c in v.busy :: c !in v.head
    requires LetGo(vm, v.head[i])
    ensures var w := Walked(v, vm, i); Walked(v, vm, i + 1) == Unlinked(w, v.head[i]).(idle := w.idle - 1)
  {
    hide Walked, Without, Pick;
    WalkPosition(v, vm, i);
    WalkNext(v, vm, i);
    WalkNextConns(v, vm, i);
  }

  lemma WalkPark<C>(v: PoolView<C>, vm: map<C, Verdict>, i: nat)
    requires i < |v.head| && v.head[i] in v.conns && NoDup(v.head) && forall c | c in v.busy :: c !in v.head
    requires Is(vm, v.head[i], Park) && v.conns[v.head[i]].listed
    ensures Walked(v, vm, i + 1) == Linked(Unlinked(Walked(v, vm, i), v.head[i]), v.head[i], false)
  {
    hide Walked, Without, Pick;
    WalkPosition(v, vm, i);
    WalkNext(v, vm, i);
    WalkNextConns(v, vm, i);
  }

  /** Dealing with connection `i` of the old list moves the walk on by one. */
  lemma WalkStep<C>(v: PoolView<C>, vm: map<C, Verdict>, i: nat)
    requires i < |v.head| && v.head[i] in v.conns && v.conns[v.head[i]].listed
    requires NoDup(v.head) && forall c | c in v.busy :: c !in v.head
    requires v.head[i] in vm && !vm[v.head[i]].Take?
    ensures v.head[i] in Walked(v, vm, i).conns
    ensures Walked(v, vm, i + 1) == Judged(Walked(v, vm, i), v.head[i], vm[v.head[i]])
  {
    if vm[v.head[i]].Skip? {
      WalkSkip(v, vm, i);
    } else if vm[v.head[i]].Park? {
      WalkPark(v, vm, i);
    } else {
      WalkDiscard(v, vm, i);
    }
  }

  lemma ScanTakes<C>(cfg: Config, v: PoolView<C>, st: C -> Connectivity, now: int, i: nat)
    requires i < |v.head| && v.head[i] in v.conns
    requires var vm := Verdicts(cfg, v.conns, st, now);
             Is(vm, v.head[i], Take) && forall j | 0 <= j < i :: !Is(vm, v.head[j], Take)
    ensures var vm := Verdicts(cfg, v.conns, st, now);
            Scan(cfg, v, st, now) ==
            ScanResult(Borrow(Walked(v, vm, i), v.head[i]), [v.head[i]], Pick(v.head[..i], vm, Evict), Pick(v.head[..i], vm, Drop))
  {
    assert FirstTake(v.head, Verdicts(cfg, v.conns, st, now)) == i;
  }

  lemma ScanMisses<C>(cfg: Config, v: PoolView<C>, st: C -> Connectivity, now: int)
    requires var vm := Verdicts(cfg, v.conns, st, now); forall j | 0 <= j < |v.head| :: !Is(vm, v.head[j], Take)
    ensures var vm := Verdicts(cfg, v.conns, st, now);
            Scan(cfg, v, st, now) ==
            ScanResult(Walked(v, vm, |v.head|), [], Pick(v.head[..|v.head|], vm, Evict), Pick(v.head[..|v.head|], vm, Drop))
  {
    assert FirstTake(v.head, Verdicts(cfg, v.conns, st, now)) == |v.head|;
  }

  lemma {:induction false} WithoutConcat<C>(s: seq<C>, t: seq<C>, c: C)
    ensures Without(s + t, c) == Without(s, c) + Without(t, c)
  {
    if s == [] {
      assert s + t == t;
    } else {
      assert (s + t)[0] == s[0] && (s + t)[1..] == s[1..] + t;
      WithoutConcat(s[1..], t, c);
    }
  }
}
