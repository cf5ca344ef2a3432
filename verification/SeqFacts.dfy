/** Facts about sequences without duplicates, shared by the pool modules. */
module SeqFacts {

  ghost predicate NoDup<C>(s: seq<C>) {
    forall i, j :: 0 <= i < j < |s| ==> s[i] != s[j]
  }

  /** `s` with every occurrence of `c` taken out. */
  function Without<C(==)>(s: seq<C>, c: C): (r: seq<C>)
    ensures c !in r
    ensures forall x {:trigger x in r} | x in r :: x in s
    ensures forall x {:trigger x in r} | x in s :: x != c ==> x in r
  {
    if s == [] then []
    else if s[0] == c then Without(s[1..], c)
    else [s[0]] + Without(s[1..], c)
  }

  function Reverse<C>(s: seq<C>): (r: seq<C>)
    ensures |r| == |s|
    ensures forall x {:trigger x in r} | x in r :: x in s
    ensures forall x {:trigger x in r} | x in s :: x in r
  {
    if s == [] then [] else Reverse(s[1..]) + [s[0]]
  }

  lemma {:induction false} WithoutAbsent<C>(s: seq<C>, c: C)
    requires c !in s
    ensures Without(s, c) == s
  {
    if s != [] {
      WithoutAbsent(s[1..], c);
    }
  }

  lemma {:induction false} WithoutKeepsNoDup<C>(s: seq<C>, c: C)
    requires NoDup(s)
    ensures NoDup(Without(s, c))
    ensures |Without(s, c)| == |s| - (if c in s then 1 else 0)
  {
    if s != [] {
      WithoutKeepsNoDup(s[1..], c);
      if s[0] == c {
        assert c !in s[1..];
      } else {
        assert s[0] !in Without(s[1..], c);
      }
    }
  }

  /** In a duplicate-free list, taking out the element at `i` is cutting the list at `i`. */
  lemma {:induction false} WithoutAt<C>(s: seq<C>, i: nat)
    requires NoDup(s) && i < |s|
    ensures Without(s, s[i]) == s[..i] + s[i + 1..]
  {
    if i == 0 {
      assert s[0] !in s[1..];
      WithoutAbsent(s[1..], s[0]);
    } else {
      WithoutAt(s[1..], i - 1);
      assert s[1..][..i - 1] + s[1..][i..] == s[1..i] + s[i + 1..];
    }
  }

  lemma {:induction false} ReverseSnoc<C>(s: seq<C>, c: C)
    ensures Reverse(s + [c]) == [c] + Reverse(s)
  {
    if s != [] {
      assert (s + [c])[1..] == s[1..] + [c];
      ReverseSnoc(s[1..], c);
    }
  }

  lemma {:induction false} ReverseKeepsNoDup<C>(s: seq<C>)
    requires NoDup(s)
    ensures NoDup(Reverse(s))
  {
    if s != [] {
      assert s[0] !in s[1..] && s[0] !in Reverse(s[1..]);
      ReverseKeepsNoDup(s[1..]);
    }
  }

  lemma NoDupConcat<C>(s: seq<C>, t: seq<C>)
    requires NoDup(s) && NoDup(t) && forall x | x in s :: x !in t
    ensures NoDup(s + t)
  {
    forall i, j | 0 <= i < j < |s + t| ensures (s + t)[i] != (s + t)[j] {
      if i < |s| <= j {
        assert s[i] in s && t[j - |s|] in t;
      }
    }
  }

  lemma {:induction false} NoDupMultiset<C>(s: seq<C>, c: C)
    requires NoDup(s)
    ensures multiset(s)[c] == if c in s then 1 else 0
  {
    if s != [] {
      assert s == [s[0]] + s[1..];
      assert s[0] !in s[1..];
      NoDupMultiset(s[1..], c);
    }
  }

  /** Every member of a duplicate-free list is in `t`, so the list is no longer than `t` is big. */
  lemma {:induction false} NoDupCardinality<C>(s: seq<C>, t: set<C>)
    requires NoDup(s)
    requires forall x | x in t :: x in s
    requires forall x | x in s :: x in t
    ensures |t| == |s|
  {
    if s == [] {
      assert t == {};
    } else {
      assert s[0] !in s[1..];
      NoDupCardinality(s[1..], t - {s[0]});
    }
  }
}
