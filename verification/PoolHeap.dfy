/**
 The pool on real pointers: the two sentinel-headed lists that grpcclient/pool.go edits in
 place. Every method says what it does to the address as a function of PoolSpec.
 */
module PoolHeap {
  import opened SeqFacts
  import opened PoolSpec

  class PoolConn {
    const addr: string
    const sp: StreamsPool?
    var streams: int
    const created: int
    var pre: PoolConn?
    var next: PoolConn?
    var listed: bool

    constructor Sentinel()
      ensures pre == null && next == null
    {
      addr, sp, created := "", null, 0;
      streams, pre, next, listed := 0, null, null, false;
    }

    /** A connection fresh from a dial, held by its dialler. */
    constructor (addr: string, sp: StreamsPool, created: int)
      ensures this.addr == addr && this.sp == sp && this.created == created
      ensures streams == 1 && pre == null && next == null && !listed
    {
      this.addr, this.sp, this.created := addr, sp, created;
      streams, pre, next, listed := 1, null, null, false;
    }
  }

  // ---- lists as values ------------------------------------------------------

  datatype Ptrs = Ptrs(next: PoolConn?, pre: PoolConn?)

  /** The nodes of `s`, in order, are linked both ways behind `first` and end the list. */
  ghost predicate IsList(k: map<PoolConn, Ptrs>, first: PoolConn, s: seq<PoolConn>)
    decreases |s|
  {
    && first in k
    && if s == [] then k[first].next == null
       else k[first].next == s[0] && s[0] in k && k[s[0]].pre == first && IsList(k, s[0], s[1..])
  }

  /** `conn` bridged over by its neighbours. */
  ghost function Bridged(k: map<PoolConn, Ptrs>, conn: PoolConn): map<PoolConn, Ptrs>
    requires conn in k
  {
    map c | c in k ::
      if c == conn then Ptrs(null, null)
      else Ptrs(if c == k[conn].pre then k[conn].next else k[c].next,
                if c == k[conn].next then k[conn].pre else k[c].pre)
  }

  /** `conn` right behind `after`. */
  ghost function Spliced(k: map<PoolConn, Ptrs>, conn: PoolConn, after: PoolConn): map<PoolConn, Ptrs>
    requires after in k
  {
    map c | c in k ::
      if c == conn then Ptrs(k[after].next, after)
      else Ptrs(if c == after then conn else k[c].next,
                if c == k[after].next then conn else k[c].pre)
  }

  /** The neighbours of a member are in the list too and are other nodes. */
  lemma {:induction false} Neighbours(k: map<PoolConn, Ptrs>, first: PoolConn, s: seq<PoolConn>, conn: PoolConn)
    requires IsList(k, first, s) && NoDup(s) && first !in s && conn in s
    ensures conn in k
    ensures k[conn].pre != null && (k[conn].pre == first || k[conn].pre in s) && k[conn].pre != conn
    ensures k[conn].next == null || (k[conn].next in s && k[conn].next != conn)
    decreases |s|
  {
    assert s[0] !in s[1..];
    if s[0] != conn {
      Neighbours(k, s[0], s[1..], conn);
    } else if |s| > 1 {
      assert s[1] in s[1..];
    }
  }

  ghost predicate AgreeOn(k: map<PoolConn, Ptrs>, k': map<PoolConn, Ptrs>, first: PoolConn, s: seq<PoolConn>) {
    && first in k && first in k' && k[first].next == k'[first].next
    && forall c | c in s :: c in k && c in k' && k[c] == k'[c]
  }

  /** A list whose nodes keep their pointers stays one. */
  lemma {:induction false} ListKept(k: map<PoolConn, Ptrs>, k': map<PoolConn, Ptrs>, first: PoolConn, s: seq<PoolConn>)
    requires IsList(k, first, s) && AgreeOn(k, k', first, s)
    ensures IsList(k', first, s)
    decreases |s|
  {
    if s != [] {
      assert s[0] in s;
      ListKept(k, k', s[0], s[1..]);
    }
  }

  lemma {:induction false} ListMembers(k: map<PoolConn, Ptrs>, first: PoolConn, s: seq<PoolConn>)
    requires IsList(k, first, s)
    ensures forall c | c in s :: c in k
    decreases |s|
  {
    if s != [] {
      ListMembers(k, s[0], s[1..]);
    }
  }

  /** Bridging a member over leaves the list without it. */
  lemma {:induction false} BridgedList(k: map<PoolConn, Ptrs>, first: PoolConn, s: seq<PoolConn>, conn: PoolConn)
    requires IsList(k, first, s) && NoDup(s) && first !in s && conn in s && conn in k
    ensures IsList(Bridged(k, conn), first, Without(s, conn))
    decreases |s|
  {
    var k' := Bridged(k, conn);
    assert s[0] !in s[1..];
    if s[0] == conn {
      WithoutAbsent(s[1..], conn);
      if |s| > 1 {
        ListMembers(k, s[1], s[2..]);
        assert s[1] in s[1..] && s[1..][1..] == s[2..];
        assert s[1] !in s[2..];
        ListKept(k, k', s[1], s[2..]);
      }
    } else {
      Neighbours(k, s[0], s[1..], conn);
      BridgedList(k, s[0], s[1..], conn);
    }
  }

  /** Bridging over a node of another list leaves this one alone. */
  lemma BridgedOther(k: map<PoolConn, Ptrs>, first: PoolConn, s: seq<PoolConn>, conn: PoolConn)
    requires IsList(k, first, s) && conn in k
    requires forall c | c in [first] + s :: c != conn && c != k[conn].next && c != k[conn].pre
    ensures IsList(Bridged(k, conn), first, s)
  {
    ListMembers(k, first, s);
    assert first in [first] + s;
    assert forall c | c in s :: c in [first] + s;
    ListKept(k, Bridged(k, conn), first, s);
  }

  lemma SplicedList(k: map<PoolConn, Ptrs>, first: PoolConn, s: seq<PoolConn>, conn: PoolConn)
    requires IsList(k, first, s) && NoDup(s) && first !in s && conn !in s && conn != first && conn in k
    ensures IsList(Spliced(k, conn, first), first, [conn] + s)
  {
    var k' := Spliced(k, conn, first);
    ListMembers(k, first, s);
    if s != [] {
      assert s[0] !in s[1..];
      ListKept(k, k', s[0], s[1..]);
    }
    assert IsList(k', conn, s);
    assert ([conn] + s)[1..] == s;
  }

  lemma SplicedOther(k: map<PoolConn, Ptrs>, first: PoolConn, s: seq<PoolConn>, conn: PoolConn, after: PoolConn)
    requires IsList(k, first, s) && after in k
    requires forall c | c in [first] + s :: c != conn && c != after && c != k[after].next
    ensures IsList(Spliced(k, conn, after), first, s)
  {
    ListMembers(k, first, s);
    assert first in [first] + s;
    assert forall c | c in s :: c in [first] + s;
    ListKept(k, Spliced(k, conn, after), first, s);
  }

  /** Two lists with no node in common. */
  ghost predicate TwoLists(k: map<PoolConn, Ptrs>, head: PoolConn, hs: seq<PoolConn>, busy: PoolConn, bs: seq<PoolConn>) {
    && head != busy && head !in hs && head !in bs && busy !in hs && busy !in bs
    && NoDup(hs) && NoDup(bs) && (forall c {:trigger c in bs} | c in hs :: c !in bs)
    && IsList(k, head, hs) && IsList(k, busy, bs)
  }

  lemma BridgedTwo(k: map<PoolConn, Ptrs>, head: PoolConn, hs: seq<PoolConn>, busy: PoolConn, bs: seq<PoolConn>, conn: PoolConn)
    requires TwoLists(k, head, hs, busy, bs) && (conn in hs || conn in bs)
    ensures conn in k
    ensures k[conn].pre != null && k[conn].pre != conn && k[conn].next != conn
    ensures k[conn].pre in [head, busy] + hs + bs && (k[conn].next != null ==> k[conn].next in hs + bs)
    ensures TwoLists(Bridged(k, conn), head, Without(hs, conn), busy, Without(bs, conn))
  {
    WithoutKeepsNoDup(hs, conn);
    WithoutKeepsNoDup(bs, conn);
    if conn in hs {
      Neighbours(k, head, hs, conn);
      BridgedList(k, head, hs, conn);
      BridgedOther(k, busy, bs, conn);
      WithoutAbsent(bs, conn);
    } else {
      Neighbours(k, busy, bs, conn);
      BridgedList(k, busy, bs, conn);
      BridgedOther(k, head, hs, conn);
      WithoutAbsent(hs, conn);
    }
  }

  lemma SplicedTwo(k: map<PoolConn, Ptrs>, head: PoolConn, hs: seq<PoolConn>, busy: PoolConn, bs: seq<PoolConn>,
                   conn: PoolConn, toHead: bool)
    requires TwoLists(k, head, hs, busy, bs)
    requires conn !in hs && conn !in bs && conn != head && conn != busy && conn in k
    ensures var after, rest := if toHead then head else busy, if toHead then hs else bs;
            && after in k
            && k[after].next == (if rest == [] then null else rest[0])
            && TwoLists(Spliced(k, conn, after), head, if toHead then [conn] + hs else hs, busy, if toHead then bs else [conn] + bs)
  {
    if toHead {
      SplicedList(k, head, hs, conn);
      assert hs != [] ==> hs[0] in hs;
      SplicedOther(k, busy, bs, conn, head);
    } else {
      SplicedList(k, busy, bs, conn);
      assert bs != [] ==> bs[0] in bs;
      SplicedOther(k, head, hs, conn, busy);
    }
  }

  // ---- one address ----------------------------------------------------------

  /** What an address looks like: its lists, every connection dialled for it, and all pointers. */
  datatype Layout = Layout(
    head: seq<PoolConn>, busy: seq<PoolConn>, conns: map<PoolConn, Conn>, links: map<PoolConn, Ptrs>)

  /** Two disjoint lists of known connections behind the two sentinels; `in` is true exactly for their members. */
  ghost predicate WellLaid(l: Layout, head: PoolConn, busy: PoolConn) {
    && head !in l.conns && busy !in l.conns
    && l.links.Keys == l.conns.Keys + {head, busy}
    && (forall c {:trigger c in l.head} | c in l.head :: c in l.conns)
    && (forall c {:trigger c in l.busy} | c in l.busy :: c in l.conns)
    && (forall c {:trigger l.conns[c]} | c in l.conns :: l.conns[c].listed <==> c in l.head || c in l.busy)
    && TwoLists(l.links, head, l.head, busy, l.busy)
  }

  class StreamsPool {
    const head: PoolConn
    const busy: PoolConn
    var count: int
    var idle: int
    ghost var layout: Layout

    constructor ()
      ensures Valid() && View() == EmptyView()
      ensures fresh(layout.links.Keys)
    {
      head := new PoolConn.Sentinel();
      busy := new PoolConn.Sentinel();
      count, idle := 0, 0;
      new;
      layout := Layout([], [], map[], map[head := Ptrs(null, null), busy := Ptrs(null, null)]);
    }

    ghost function View(): PoolView<PoolConn>
      reads this
    {
      PoolView(layout.head, layout.busy, count, idle, layout.conns)
    }

    ghost predicate Valid()
      reads this, layout.links.Keys
    {
      WellLaid(layout, head, busy) && Tracked(layout)
    }

    /** The heap is what `l` records. */
    ghost predicate Tracked(l: Layout)
      reads l.links.Keys
    {
      && l.conns.Keys <= l.links.Keys
      && Mirrored(l.links)
      && Recorded(l.conns)
      && forall c {:trigger c.sp} | c in l.conns :: c.sp == this
    }
  }

  /** The connections are what `conns` records. */
  ghost predicate Recorded(conns: map<PoolConn, Conn>)
    reads conns.Keys`streams, conns.Keys`listed
  {
    forall c {:trigger conns[c]} | c in conns :: conns[c] == Conn(c.streams, c.created, c.listed)
  }

  /** The pointers are what `k` records. */
  ghost predicate Mirrored(k: map<PoolConn, Ptrs>)
    reads k.Keys`next, k.Keys`pre
  {
    forall c {:trigger k[c]} | c in k :: k[c] == Ptrs(c.next, c.pre)
  }

  ghost function UnlinkedLayout(l: Layout, conn: PoolConn): Layout
    requires conn in l.conns && conn in l.links
    ensures UnlinkedLayout(l, conn).links.Keys == l.links.Keys
  {
    Layout(Without(l.head, conn), Without(l.busy, conn),
           l.conns[conn := l.conns[conn].(listed := false)], Bridged(l.links, conn))
  }

  lemma UnlinkedWellLaid(l: Layout, head: PoolConn, busy: PoolConn, conn: PoolConn)
    requires WellLaid(l, head, busy) && conn in l.conns && l.conns[conn].listed
    ensures conn in l.links && l.links[conn].pre != conn && l.links[conn].next != conn
    ensures l.links[conn].pre != null ==> l.links[conn].pre in l.links
    ensures l.links[conn].next != null ==> l.links[conn].next in l.links
    ensures WellLaid(UnlinkedLayout(l, conn), head, busy)
  {
    BridgedTwo(l.links, head, l.head, busy, l.busy, conn);
  }

  ghost function LinkedLayout(l: Layout, conn: PoolConn, after: PoolConn, toHead: bool): Layout
    requires conn in l.conns && after in l.links
    ensures LinkedLayout(l, conn, after, toHead).links.Keys == l.links.Keys
  {
    Layout(if toHead then [conn] + l.head else l.head, if toHead then l.busy else [conn] + l.busy,
           l.conns[conn := l.conns[conn].(listed := true)], Spliced(l.links, conn, after))
  }

  lemma LinkedWellLaid(l: Layout, head: PoolConn, busy: PoolConn, conn: PoolConn, toHead: bool)
    requires WellLaid(l, head, busy) && conn in l.conns && !l.conns[conn].listed
    ensures var after := if toHead then head else busy;
            && after in l.links && conn in l.links && after != conn
            && l.links[after].next != conn && l.links[after].next != after
            && (l.links[after].next != null ==> l.links[after].next in l.links)
            && WellLaid(LinkedLayout(l, conn, after, toHead), head, busy)
  {
    SplicedTwo(l.links, head, l.head, busy, l.busy, conn, toHead);
    var rest := if toHead then l.head else l.busy;
    assert rest != [] ==> rest[0] in rest;
  }

  // ---- removeConn and addConnAfter ------------------------------------------

  /** The pointer writes of removeConn. */
  method Bridge(conn: PoolConn, ghost k: map<PoolConn, Ptrs>)
    requires Mirrored(k) && conn in k && conn.pre != conn && conn.next != conn
    requires conn.pre != null ==> conn.pre in k
    requires conn.next != null ==> conn.next in k
    modifies k.Keys`pre, k.Keys`next
    ensures Mirrored(Bridged(k, conn))
  {
    if conn.pre != null {
      conn.pre.next := conn.next;
    }
    if conn.next != null {
      conn.next.pre := conn.pre;
    }
    conn.pre := null;
    conn.next := null;
  }

  /** The pointer writes of addConnAfter. */
  method Splice(conn: PoolConn, after: PoolConn, ghost k: map<PoolConn, Ptrs>)
    requires Mirrored(k) && conn in k && after in k && conn != after && after.next != conn && after.next != after
    requires after.next != null ==> after.next in k
    modifies k.Keys`pre, k.Keys`next
    ensures Mirrored(Spliced(k, conn, after))
  {
    conn.next := after.next;
    conn.pre := after;
    if after.next != null {
      after.next.pre := conn;
    }
    after.next := conn;
  }

  method SetListed(conn: PoolConn, listed: bool, ghost conns: map<PoolConn, Conn>)
    requires Recorded(conns) && conn in conns
    modifies conn`listed
    ensures Recorded(conns[conn := conns[conn].(listed := listed)])
  {
    conn.listed := listed;
  }

  /** Writes the counters and records the new layout. */
  method Record(sp: StreamsPool, ghost l: Layout, count: int, idle: int)
    requires WellLaid(l, sp.head, sp.busy) && sp.Tracked(l)
    modifies sp
    ensures sp.Valid() && sp.layout == l && sp.count == count && sp.idle == idle
  {
    sp.count, sp.idle, sp.layout := count, idle, l;
  }

  /** Everything removeConn writes; that the lists stay well laid is a matter of values. */
  method Unlink(conn: PoolConn, sp: StreamsPool)
    requires sp.Tracked(sp.layout) && conn in sp.layout.conns && conn in sp.layout.links
    requires conn.pre != conn && conn.next != conn
    requires conn.pre != null ==> conn.pre in sp.layout.links
    requires conn.next != null ==> conn.next in sp.layout.links
    modifies sp, sp.layout.links.Keys`pre, sp.layout.links.Keys`next, conn`listed
    ensures sp.layout == UnlinkedLayout(old(sp.layout), conn) && sp.Tracked(sp.layout)
    ensures sp.count == old(sp.count) - 1 && sp.idle == old(sp.idle)
  {
    ghost var l := UnlinkedLayout(sp.layout, conn);
    Bridge(conn, sp.layout.links);
    SetListed(conn, false, sp.layout.conns);
    sp.count := sp.count - 1;
    sp.layout := l;
  }

  /** Everything addConnAfter writes. */
  method LinkIn(conn: PoolConn, after: PoolConn, sp: StreamsPool, ghost toHead: bool)
    requires sp.Tracked(sp.layout) && conn in sp.layout.conns && conn in sp.layout.links && after in sp.layout.links
    requires conn != after && after.next != conn && after.next != after
    requires after.next != null ==> after.next in sp.layout.links
    modifies sp, sp.layout.links.Keys`pre, sp.layout.links.Keys`next, conn`listed
    ensures sp.layout == LinkedLayout(old(sp.layout), conn, after, toHead) && sp.Tracked(sp.layout)
    ensures sp.count == old(sp.count) + 1 && sp.idle == old(sp.idle)
  {
    ghost var l := LinkedLayout(sp.layout, conn, after, toHead);
    Splice(conn, after, sp.layout.links);
    SetListed(conn, true, sp.layout.conns);
    sp.count := sp.count + 1;
    sp.layout := l;
  }

  method RemoveConn(conn: PoolConn)
    requires conn.sp != null && conn.sp.Valid() && conn in conn.sp.layout.conns && conn.listed
    modifies conn.sp, conn.sp.layout.links.Keys
    ensures conn.sp.Valid() && conn.sp.layout == UnlinkedLayout(old(conn.sp.layout), conn)
    ensures conn.sp.count == old(conn.sp.count) - 1 && conn.sp.idle == old(conn.sp.idle)
  {
    UnlinkedWellLaid(conn.sp.layout, conn.sp.head, conn.sp.busy, conn);
    Unlink(conn, conn.sp);
  }

  method AddConnAfter(conn: PoolConn, after: PoolConn)
    requires conn.sp != null && conn.sp.Valid() && conn in conn.sp.layout.conns && !conn.listed
    requires after == conn.sp.head || after == conn.sp.busy
    modifies conn.sp, conn.sp.layout.links.Keys
    ensures conn.sp.Valid()
    ensures conn.sp.layout == LinkedLayout(old(conn.sp.layout), conn, after, after == conn.sp.head)
    ensures conn.sp.count == old(conn.sp.count) + 1 && conn.sp.idle == old(conn.sp.idle)
  {
    LinkedWellLaid(conn.sp.layout, conn.sp.head, conn.sp.busy, conn, after == conn.sp.head);
    LinkIn(conn, after, conn.sp, after == conn.sp.head);
  }

  // ---- the walk of getConn --------------------------------------------------

  /** Unlinking an idle connection: removeConn, then one idle connection less. */
  method Discard(sp: StreamsPool, conn: PoolConn)
    requires sp.Valid() && conn in sp.layout.conns && conn.listed
    modifies sp, sp.layout.links.Keys
    ensures sp.Valid() && sp.layout.links.Keys == old(sp.layout.links.Keys)
    ensures sp.View() == Unlinked(old(sp.View()), conn).(idle := old(sp.idle) - 1)
  {
    hide WellLaid;
    RemoveConn(conn);
    Record(sp, sp.layout, sp.count, sp.idle - 1);
  }

  /** Moving a connection to the front of the list behind `after`. */
  method Move(sp: StreamsPool, conn: PoolConn, after: PoolConn)
    requires sp.Valid() && conn in sp.layout.conns && conn.listed
    requires after == sp.head || after == sp.busy
    modifies sp, sp.layout.links.Keys
    ensures sp.Valid() && sp.layout.links.Keys == old(sp.layout.links.Keys)
    ensures sp.View() == Linked(Unlinked(old(sp.View()), conn), conn, after == sp.head)
  {
    RemoveConn(conn);
    AddConnAfter(conn, after);
  }

  /** `conn` with `n` streams. */
  ghost function WithStreams(l: Layout, conn: PoolConn, n: int): Layout
    requires conn in l.conns
  {
    l.(conns := l.conns[conn := l.conns[conn].(streams := n)])
  }

  method WriteStreams(conn: PoolConn, n: int, ghost conns: map<PoolConn, Conn>)
    requires Recorded(conns) && conn in conns
    modifies conn`streams
    ensures Recorded(conns[conn := conns[conn].(streams := n)])
  {
    conn.streams := n;
  }

  lemma StreamsWellLaid(l: Layout, head: PoolConn, busy: PoolConn, conn: PoolConn, n: int)
    requires WellLaid(l, head, busy) && conn in l.conns
    ensures WellLaid(WithStreams(l, conn, n), head, busy)
  {
  }

  lemma {:induction false} ListNext(k: map<PoolConn, Ptrs>, first: PoolConn, s: seq<PoolConn>, p: nat)
    requires IsList(k, first, s) && p < |s|
    ensures s[p] in k && k[s[p]].next == if p + 1 < |s| then s[p + 1] else null
    decreases |s|
  {
    if p > 0 {
      ListNext(k, s[0], s[1..], p - 1);
    }
  }

  /** The node the walk stands on when `i` connections of the old list are behind it. */
  ghost function WalkNode(v: PoolView<PoolConn>, i: nat): PoolConn? {
    if i < |v.head| then v.head[i] else null
  }

  /** What the walk reads from connection `i` is what it was at the start, and `next` leads on. */
  lemma WalkReads(sp: StreamsPool, v: PoolView<PoolConn>, vm: map<PoolConn, Verdict>, i: nat)
    requires sp.Valid() && i < |v.head| && sp.View() == Walked(v, vm, i)
    requires v.head[i] in v.conns && v.conns[v.head[i]].listed && NoDup(v.head) && forall c | c in v.busy :: c !in v.head
    ensures var c := v.head[i];
            && c in sp.layout.conns && c.sp == sp && c.listed
            && c.streams == v.conns[c].streams && c.created == v.conns[c].created
            && c.next == WalkNode(v, i + 1)
  {
    WalkPosition(v, vm, i);
    ListNext(sp.layout.links, sp.head, sp.layout.head, |Pick(v.head[..i], vm, Skip)|);
  }

  /** What holds of a well-laid address before the walk. */
  lemma WalkStarts(sp: StreamsPool)
    requires sp.Valid()
    ensures NoDup(sp.View().head) && forall c | c in sp.View().busy :: c !in sp.View().head
    ensures forall c | c in sp.View().head :: c in sp.View().conns && sp.View().conns[c].listed
    ensures sp.head.next == WalkNode(sp.View(), 0)
  {
  }

  lemma WalkedNone<C>(v: PoolView<C>, vm: map<C, Verdict>)
    ensures Walked(v, vm, 0) == v
  {
    assert v.head[..0] == [] && v.head[0..] == v.head;
    assert Reverse<C>([]) + v.busy == v.busy;
  }

  /** The verdicts of one walk, on an address fit to be walked. */
  ghost predicate Walkable(v: PoolView<PoolConn>, i: nat) {
    && i < |v.head| && v.head[i] in v.conns && v.conns[v.head[i]].listed
    && NoDup(v.head) && forall c | c in v.busy :: c !in v.head
  }

  /** Changes the streams of a connection and the idle counter with it. */
  method AddStreams(sp: StreamsPool, conn: PoolConn, n: int, idle: int)
    requires sp.Valid() && conn in sp.layout.conns
    modifies sp, conn`streams
    ensures sp.Valid() && sp.layout == WithStreams(old(sp.layout), conn, n)
    ensures sp.count == old(sp.count) && sp.idle == idle
  {
    ghost var l := WithStreams(sp.layout, conn, n);
    StreamsWellLaid(sp.layout, sp.head, sp.busy, conn, n);
    WriteStreams(conn, n, sp.layout.conns);
    Record(sp, l, sp.count, idle);
  }

  /** One more stream on a connection, which stops being idle if it was. */
  method HandOut(sp: StreamsPool, conn: PoolConn)
    requires sp.Valid() && conn in sp.layout.conns
    modifies sp, conn`streams
    ensures sp.Valid() && sp.layout.links == old(sp.layout.links)
    ensures sp.View() == Borrow(old(sp.View()), conn)
  {
    hide WellLaid;
    ghost var b, k := Borrow(sp.View(), conn), sp.layout.conns[conn];
    var idle := sp.idle - (if conn.streams == 0 then 1 else 0);
    assert b.idle == idle && b.conns == sp.layout.conns[conn := k.(streams := conn.streams + 1)];
    AddStreams(sp, conn, conn.streams + 1, idle);
  }

  /** The body of the walk: what happens to the connection it stands on. */
  method Visit(cfg: Config, sp: StreamsPool, conn: PoolConn, state: Connectivity, now: int)
    returns (ghost verdict: Verdict, take: bool, close: bool)
    requires sp.Valid() && conn in sp.layout.conns && conn.listed
    modifies sp, sp.layout.links.Keys
    ensures sp.Valid() && sp.layout.links.Keys == old(sp.layout.links.Keys)
    ensures verdict == Judge(cfg, old(sp.layout.conns)[conn], state, now)
    ensures take == verdict.Take? && close == verdict.Evict?
    ensures sp.View() == Judged(old(sp.View()), conn, verdict)
  {
    verdict := Judge(cfg, sp.layout.conns[conn], state, now);
    take, close := false, false;
    if state.Connecting? {
    } else if state.Shutdown? {
      if conn.streams == 0 {
        Discard(sp, conn);
      }
    } else if state.TransientFailure? || now - conn.created > cfg.ttl {
      if conn.streams == 0 {
        Discard(sp, conn);
        close := true;
      }
    } else if conn.streams >= cfg.maxStreams {
      Move(sp, conn, sp.busy);
    } else {
      HandOut(sp, conn);
      take := true;
    }
  }

  /** Where the walk is: `i` connections passed, none of them taken. */
  ghost predicate WalkedTo(sp: StreamsPool, v: PoolView<PoolConn>, vm: map<PoolConn, Verdict>, i: nat)
    reads sp
  {
    i <= |v.head| && sp.View() == Walked(v, vm, i) && forall j | 0 <= j < i :: !Is(vm, v.head[j], Take)
  }

  /** One iteration of the loop of getConn, from connection `i` to the next. */
  method Advance(cfg: Config, sp: StreamsPool, conn: PoolConn, state: Connectivity, now: int,
                 ghost v: PoolView<PoolConn>, ghost vm: map<PoolConn, Verdict>, ghost i: nat)
    returns (next: PoolConn?, take: bool, close: bool)
    requires sp.Valid() && Walkable(v, i) && conn == v.head[i] && WalkedTo(sp, v, vm, i)
    requires conn in vm && vm[conn] == Judge(cfg, v.conns[conn], state, now)
    modifies sp, sp.layout.links.Keys
    ensures sp.Valid() && sp.layout.links.Keys == old(sp.layout.links.Keys)
    ensures take == vm[conn].Take? && close == vm[conn].Evict?
    ensures take ==> conn in Walked(v, vm, i).conns && sp.View() == Borrow(Walked(v, vm, i), conn)
    ensures !take ==> WalkedTo(sp, v, vm, i + 1) && next == WalkNode(v, i + 1)
  {
    WalkReads(sp, v, vm, i);
    next := conn.next;
    ghost var verdict;
    verdict, take, close := Visit(cfg, sp, conn, state, now);
    if !take {
      WalkStep(v, vm, i);
    }
  }

  /** The loop of getConn; it stops at connection `i`, or past the end. */
  method Walk(cfg: Config, sp: StreamsPool, st: PoolConn -> Connectivity, now: int, ghost v: PoolView<PoolConn>)
    returns (got: PoolConn?, closed: seq<PoolConn>, ghost i: nat)
    requires sp.Valid() && v == sp.View()
    modifies sp, sp.layout.links.Keys
    ensures sp.Valid() && sp.layout.links.Keys == old(sp.layout.links.Keys)
    ensures i <= |v.head| && got == WalkNode(v, i)
    ensures var vm := Verdicts(cfg, v.conns, st, now);
            && (forall j | 0 <= j < i :: !Is(vm, v.head[j], Take))
            && (got != null ==> Is(vm, got, Take) && got in Walked(v, vm, i).conns)
            && closed == Pick(v.head[..i], vm, Evict)
            && sp.View() == if got != null then Borrow(Walked(v, vm, i), got) else Walked(v, vm, i)
  {
    ghost var vm := Verdicts(cfg, v.conns, st, now);
    i := 0;
    WalkStarts(sp);
    WalkedNone(v, vm);
    closed := [];
    var conn := sp.head.next;
    while conn != null
      invariant sp.Valid() && sp.layout.links.Keys == old(sp.layout.links.Keys)
      invariant WalkedTo(sp, v, vm, i) && conn == WalkNode(v, i)
      invariant closed == Pick(v.head[..i], vm, Evict)
      decreases |v.head| - i
    {
      var next, take, close := Advance(cfg, sp, conn, st(conn), now, v, vm, i);
      if take {
        return conn, closed, i;
      }
      PickNext(v.head, vm, i, Evict);
      if close {
        closed := closed + [conn];
      }
      conn := next;
      i := i + 1;
    }
    return null, closed, i;
  }

  /**
   The locked walk of getConn. `closed` lists the connections it closes, in order; `got` is
   null when the caller has to dial.
   */
  method ScanHead(cfg: Config, sp: StreamsPool, st: PoolConn -> Connectivity, now: int)
    returns (got: PoolConn?, closed: seq<PoolConn>)
    requires sp.Valid()
    modifies sp, sp.layout.links.Keys
    ensures sp.Valid() && sp.layout.links.Keys == old(sp.layout.links.Keys)
    ensures var r := Scan(cfg, old(sp.View()), st, now);
            && sp.View() == r.sp && closed == r.evicted
            && got == (if r.taken == [] then null else r.taken[0])
  {
    ghost var v := sp.View();
    ghost var i;
    WalkStarts(sp);
    got, closed, i := Walk(cfg, sp, st, now, v);
    if got != null {
      ScanTakes(cfg, v, st, now, i);
    } else {
      ScanMisses(cfg, v, st, now);
    }
  }

  lemma PickNext<C>(s: seq<C>, vm: map<C, Verdict>, i: nat, want: Verdict)
    requires i < |s|
    ensures Pick(s[..i + 1], vm, want) == if Is(vm, s[i], want) then Pick(s[..i], vm, want) + [s[i]] else Pick(s[..i], vm, want)
  {
    assert s[..i + 1] == s[..i] + [s[i]];
    PickSnoc(s[..i], s[i], vm, want);
  }

  // ---- dialling, inserting, releasing ---------------------------------------

  ghost function DialledLayout(l: Layout, conn: PoolConn, created: int): Layout {
    l.(conns := l.conns[conn := Conn(1, created, false)], links := l.links[conn := Ptrs(null, null)])
  }

  lemma DialledWellLaid(l: Layout, head: PoolConn, busy: PoolConn, conn: PoolConn, created: int)
    requires WellLaid(l, head, busy) && conn !in l.links
    ensures WellLaid(DialledLayout(l, conn, created), head, busy)
  {
    var k := l.links[conn := Ptrs(null, null)];
    ListMembers(l.links, head, l.head);
    ListMembers(l.links, busy, l.busy);
    ListKept(l.links, k, head, l.head);
    ListKept(l.links, k, busy, l.busy);
  }

  /** A successful dial: a connection with one stream, not listed. */
  method Dial(sp: StreamsPool, addr: string, created: int) returns (conn: PoolConn)
    requires sp.Valid()
    modifies sp`layout
    ensures sp.Valid() && fresh(conn) && conn.sp == sp && conn.addr == addr && !conn.listed && conn in sp.layout.conns
    ensures conn.created == created && conn.streams == 1
    ensures sp.layout.links.Keys == old(sp.layout.links.Keys) + {conn}
    ensures sp.View() == Dialled(old(sp.View()), conn, created)
  {
    hide WellLaid;
    conn := new PoolConn(addr, sp, created);
    ghost var l := DialledLayout(sp.layout, conn, created);
    assert conn !in sp.layout.links;
    DialledWellLaid(sp.layout, sp.head, sp.busy, conn, created);
    sp.layout := l;
  }

  /** Puts an unlisted connection in front of `head`. */
  method Enlist(sp: StreamsPool, conn: PoolConn)
    requires sp.Valid() && conn in sp.layout.conns && !conn.listed
    modifies sp, sp.layout.links.Keys
    ensures sp.Valid() && sp.layout.links.Keys == old(sp.layout.links.Keys)
    ensures sp.View() == Linked(old(sp.View()), conn, true)
  {
    AddConnAfter(conn, sp.head);
  }

  /** The locked insert of getConn. */
  method InsertConn(cfg: Config, sp: StreamsPool, conn: PoolConn)
    requires sp.Valid() && conn in sp.layout.conns && !conn.listed
    modifies sp, sp.layout.links.Keys
    ensures sp.Valid() && sp.layout.links.Keys == old(sp.layout.links.Keys)
    ensures sp.View() == Insert(cfg, old(sp.View()), conn)
  {
    if sp.count < cfg.size {
      Enlist(sp, conn);
    }
  }

  /** The first half of release: list the connection if it can be, and bring it to the front if it is saturated. */
  method Front(cfg: Config, sp: StreamsPool, conn: PoolConn)
    requires sp.Valid() && conn in sp.layout.conns
    modifies sp, sp.layout.links.Keys
    ensures sp.Valid() && sp.layout.links.Keys == old(sp.layout.links.Keys)
    ensures sp.View() == Fronted(cfg, old(sp.View()), conn)
  {
    if !conn.listed && sp.count < cfg.size {
      Enlist(sp, conn);
    }
    if conn.listed && conn.streams >= cfg.maxStreams {
      Move(sp, conn, sp.head);
    }
  }

  /** The second half of release, on a listed connection. */
  method GiveBack(cfg: Config, sp: StreamsPool, conn: PoolConn, failed: bool, now: int) returns (close: bool)
    requires sp.Valid() && conn in sp.layout.conns && conn.listed
    modifies sp, sp.layout.links.Keys
    ensures sp.Valid() && sp.layout.links.Keys == old(sp.layout.links.Keys)
    ensures conn in old(sp.layout.conns)
    ensures var v, n := old(sp.View()), old(conn.streams) - 1;
            && (close <==> n == 0 && (failed || v.idle >= cfg.maxIdle || now - conn.created > cfg.ttl))
            && sp.View() == if close then Unlinked(Streams(v, conn, n), conn)
                            else if n == 0 then Streams(v, conn, n).(idle := v.idle + 1)
                            else Streams(v, conn, n)
  {
    ghost var v := sp.View();
    AddStreams(sp, conn, conn.streams - 1, sp.idle);
    assert sp.View() == Streams(v, conn, conn.streams);
    close := false;
    if conn.streams == 0 {
      if failed || sp.idle >= cfg.maxIdle || now - conn.created > cfg.ttl {
        RemoveConn(conn);
        close := true;
      } else {
        Record(sp, sp.layout, sp.count, sp.idle + 1);
      }
    }
  }

  /** The second half of release as a function of the address. */
  method GiveBackOrClose(cfg: Config, sp: StreamsPool, conn: PoolConn, failed: bool, now: int) returns (close: bool)
    requires sp.Valid() && conn in sp.layout.conns && conn.listed
    modifies sp, sp.layout.links.Keys
    ensures sp.Valid() && sp.layout.links.Keys == old(sp.layout.links.Keys)
    ensures ReleaseResult(sp.View(), close) == GivenBack(cfg, old(sp.View()), conn, failed, now)
  {
    close := GiveBack(cfg, sp, conn, failed, now);
  }

  method ReleaseByHalves(cfg: Config, sp: StreamsPool, conn: PoolConn, failed: bool, now: int) returns (close: bool)
    requires sp.Valid() && conn in sp.layout.conns
    modifies sp, sp.layout.links.Keys
    ensures sp.Valid() && sp.layout.links.Keys == old(sp.layout.links.Keys)
    ensures ReleaseResult(sp.View(), close) == PoolSpec.ReleaseSteps(cfg, old(sp.View()), conn, failed, now)
  {
    Front(cfg, sp, conn);
    if conn.listed {
      close := GiveBackOrClose(cfg, sp, conn, failed, now);
    } else {
      close := true;
    }
  }

  /** The locked section of release; `close` tells the caller to close the connection after unlocking. */
  method ReleaseConn(cfg: Config, sp: StreamsPool, conn: PoolConn, failed: bool, now: int) returns (close: bool)
    requires sp.Valid() && conn in sp.layout.conns
    modifies sp, sp.layout.links.Keys
    ensures sp.Valid() && sp.layout.links.Keys == old(sp.layout.links.Keys)
    ensures ReleaseResult(sp.View(), close) == Release(cfg, old(sp.View()), conn, failed, now)
  {
    ReleaseInSteps(cfg, sp.View(), conn, failed, now);
    close := ReleaseByHalves(cfg, sp, conn, failed, now);
  }

  // ---- the lists of an address ----------------------------------------------

  lemma {:induction false} ListPre(k: map<PoolConn, Ptrs>, first: PoolConn, s: seq<PoolConn>, p: nat)
    requires IsList(k, first, s) && p < |s|
    ensures s[p] in k && k[s[p]].pre == if p == 0 then first else s[p - 1]
    decreases |s|
  {
    if p > 0 {
      ListPre(k, s[0], s[1..], p - 1);
    }
  }

  /**
   The shape every operation keeps: a connection has its `in` flag exactly when it is in one
   of the two lists, it is in no more than one place, and `pre` and `next` are each other's
   inverse along the lists.
   */
  lemma ListShape(sp: StreamsPool, c: PoolConn)
    requires sp.Valid() && c in sp.layout.conns
    ensures c.listed <==> c in sp.layout.head || c in sp.layout.busy
    ensures !(c in sp.layout.head && c in sp.layout.busy) && NoDup(sp.layout.head) && NoDup(sp.layout.busy)
    ensures c.listed ==> c.pre != null && c.pre.next == c && (c.next != null ==> c.next.pre == c)
    ensures c.listed ==> c.pre == sp.head || c.pre == sp.busy || c.pre in sp.layout.conns
  {
    if c in sp.layout.head {
      InList(sp.layout.links, sp.head, sp.layout.head, c);
    } else if c in sp.layout.busy {
      InList(sp.layout.links, sp.busy, sp.layout.busy, c);
    }
  }

  lemma InList(k: map<PoolConn, Ptrs>, first: PoolConn, s: seq<PoolConn>, c: PoolConn)
    requires IsList(k, first, s) && c in s
    ensures c in k && k[c].pre != null && (k[c].pre == first || k[c].pre in s) && k[c].pre in k && k[k[c].pre].next == c
    ensures k[c].next != null ==> k[c].next in s && k[c].next in k && k[k[c].next].pre == c
  {
    var p: nat :| p < |s| && s[p] == c;
    ListPre(k, first, s, p);
    ListNext(k, first, s, p);
    ListMembers(k, first, s);
    if p + 1 < |s| {
      ListPre(k, first, s, p + 1);
    }
    if p > 0 {
      ListNext(k, first, s, p - 1);
    }
  }

  // ---- the pool -------------------------------------------------------------

  class Pool {
    const cfg: Config
    var conns: map<string, StreamsPool>

    constructor (size: int, ttl: int, idle: int, ms: int)
      ensures Valid() && cfg == NewConfig(size, ttl, idle, ms) && conns == map[]
    {
      cfg := NewConfig(size, ttl, idle, ms);
      conns := map[];
    }

    ghost function Objects(): set<object>
      reads this, conns.Values
    {
      (set a | a in conns :: conns[a] as object) + (set a, c | a in conns && c in conns[a].layout.links :: c as object)
    }

    ghost predicate Valid()
      reads this, Objects()
    {
      && (forall a | a in conns :: conns[a].Valid())
      && (forall a, b | a in conns && b in conns && a != b ::
            conns[a] != conns[b] && conns[a].layout.links.Keys !! conns[b].layout.links.Keys)
    }

    /** The objects of one address. */
    ghost function Around(addr: string): set<object>
      reads this, conns.Values
    {
      if addr in conns then {conns[addr]} + (set c | c in conns[addr].layout.links :: c as object) else {}
    }

    ghost function ViewAt(addr: string): PoolView<PoolConn>
      reads this, conns.Values
    {
      if addr in conns then conns[addr].View() else EmptyView()
    }

    /** The streams pool of `addr`, made when there is none yet. */
    method Lookup(addr: string) returns (sp: StreamsPool)
      requires Valid()
      modifies this
      ensures Valid() && addr in conns && conns[addr] == sp
      ensures addr in old(conns) ==> conns == old(conns)
      ensures addr !in old(conns) ==> conns == old(conns)[addr := sp] && fresh(sp) && fresh(sp.layout.links.Keys)
      ensures sp.View() == if addr in old(conns) then old(conns[addr].View()) else EmptyView()
    {
      if addr in conns {
        sp := conns[addr];
      } else {
        sp := new StreamsPool();
        conns := conns[addr := sp];
      }
    }
  }

  // ---- the locked sections in the pool ---------------------------------------

  /** An address of a pool other than the one of `sp`. */
  ghost predicate Aside(p: Pool, sp: StreamsPool, a: string)
    reads p
  {
    a in p.conns && p.conns[a] != sp
  }

  /** The locked walk at one address of a pool. */
  method ScanAt(p: Pool, sp: StreamsPool, st: PoolConn -> Connectivity, now: int)
    returns (got: PoolConn?, closed: seq<PoolConn>)
    requires p.Valid() && sp in p.conns.Values
    modifies sp, sp.layout.links.Keys
    ensures p.Valid() && sp.layout.links.Keys == old(sp.layout.links.Keys)
    ensures var r := Scan(p.cfg, old(sp.View()), st, now);
            && sp.View() == r.sp && closed == r.evicted
            && got == (if r.taken == [] then null else r.taken[0])
  {
    hide Scan, WellLaid, StreamsPool.Tracked;
    got, closed := ScanHead(p.cfg, sp, st, now);
    forall a | Aside(p, sp, a) ensures p.conns[a].Valid() {
      assert p.conns[a].layout.links.Keys !! sp.layout.links.Keys;
    }
  }

  /** A successful dial at one address of a pool. */
  method DialAt(p: Pool, sp: StreamsPool, addr: string, created: int) returns (conn: PoolConn)
    requires p.Valid() && sp in p.conns.Values
    modifies sp`layout
    ensures p.Valid() && fresh(conn) && conn.sp == sp && conn.addr == addr && !conn.listed && conn in sp.layout.conns
    ensures conn.created == created
    ensures sp.layout.links.Keys == old(sp.layout.links.Keys) + {conn}
    ensures sp.View() == Dialled(old(sp.View()), conn, created)
  {
    hide WellLaid, StreamsPool.Tracked;
    conn := Dial(sp, addr, created);
    forall a | Aside(p, sp, a) ensures p.conns[a].Valid() && p.conns[a].layout.links.Keys !! sp.layout.links.Keys {
      assert conn !in p.conns[a].layout.links;
    }
  }

  /** The locked insert at one address of a pool. */
  method InsertAt(p: Pool, sp: StreamsPool, conn: PoolConn)
    requires p.Valid() && sp in p.conns.Values && conn in sp.layout.conns && !conn.listed
    modifies sp, sp.layout.links.Keys
    ensures p.Valid() && sp.layout.links.Keys == old(sp.layout.links.Keys)
    ensures sp.View() == Insert(p.cfg, old(sp.View()), conn)
  {
    hide Insert, WellLaid, StreamsPool.Tracked;
    InsertConn(p.cfg, sp, conn);
    forall a | Aside(p, sp, a) ensures p.conns[a].Valid() {
      assert p.conns[a].layout.links.Keys !! sp.layout.links.Keys;
    }
  }

  /** The locked section of release at one address of a pool. */
  method ReleaseAt(p: Pool, sp: StreamsPool, conn: PoolConn, failed: bool, now: int) returns (close: bool)
    requires p.Valid() && sp in p.conns.Values && conn in sp.layout.conns
    modifies sp, sp.layout.links.Keys
    ensures p.Valid() && sp.layout.links.Keys == old(sp.layout.links.Keys)
    ensures ReleaseResult(sp.View(), close) == Release(p.cfg, old(sp.View()), conn, failed, now)
  {
    hide Release, WellLaid, StreamsPool.Tracked;
    close := ReleaseConn(p.cfg, sp, conn, failed, now);
    forall a | Aside(p, sp, a) ensures p.conns[a].Valid() {
      assert p.conns[a].layout.links.Keys !! sp.layout.links.Keys;
    }
  }

  /** What getConn leaves when no other thread comes in between; `conn` is what it returns. */
  ghost predicate Got(cfg: Config, v: PoolView<PoolConn>, v': PoolView<PoolConn>, st: PoolConn -> Connectivity, now: int,
                      dialled: bool, created: int, conn: PoolConn?, closed: seq<PoolConn>)
  {
    var r := Scan(cfg, v, st, now);
    && closed == r.evicted
    && if r.taken != [] then conn == r.taken[0] && v' == r.sp
       else if !dialled then conn == null && v' == r.sp
       else conn != null && conn.created == created && v' == Insert(cfg, Dialled(r.sp, conn, created), conn)
  }

  /** The dial and the insert of getConn, at an address where the walk found nothing. */
  method DialAndInsert(p: Pool, sp: StreamsPool, addr: string, created: int) returns (conn: PoolConn)
    requires p.Valid() && sp in p.conns.Values
    modifies sp, sp.layout.links.Keys
    ensures p.Valid() && fresh(conn) && conn.created == created && sp.layout.links.Keys == old(sp.layout.links.Keys) + {conn}
    ensures sp.View() == Insert(p.cfg, Dialled(old(sp.View()), conn, created), conn)
  {
    hide Insert, WellLaid, StreamsPool.Tracked;
    conn := DialAt(p, sp, addr, created);
    InsertAt(p, sp, conn);
  }

  /**
   getConn for one thread that no other disturbs: `dialled` tells whether a dial succeeds, at
   time `created`. The other addresses are what they were.
   */
  method GetConn(p: Pool, addr: string, st: PoolConn -> Connectivity, now: int, dialled: bool, created: int)
    returns (conn: PoolConn?, closed: seq<PoolConn>)
    requires p.Valid()
    modifies p, p.Around(addr)
    ensures p.Valid() && addr in p.conns
    ensures forall a | a in old(p.conns) && a != addr :: a in p.conns && p.conns[a] == old(p.conns[a])
    ensures forall a | a != addr :: p.ViewAt(a) == old(p.ViewAt(a))
    ensures Got(p.cfg, old(p.ViewAt(addr)), p.ViewAt(addr), st, now, dialled, created, conn, closed)
  {
    hide Scan, Insert, Dialled, WellLaid, StreamsPool.Tracked;
    var sp := p.Lookup(addr);
    conn, closed := ScanAt(p, sp, st, now);
    if conn == null && dialled {
      conn := DialAndInsert(p, sp, addr, created);
    }
  }
}
