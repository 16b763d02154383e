/** The hash table of tptfs as the code works on it, tptfs/tpt_subr.c:98-168 and 298-306:
    bucket lists searched by LIST_FOREACH and changed in place. Each method does to the lists
    what one section of the transition system does to the state. */
module NodeHash {
  import opened Options
  import opened Kernel
  import opened Destroy
  import opened Nodeget
  import Reclaim

  /** Bucket `b` is that of lower vnode `l`, of which thread `t` has the lock. */
  ghost predicate BucketOf(s: Sh, t: nat, l: nat, b: nat) {
    Wf(s) && t < |s.own| && l < |s.lower| && b == s.hidx[l] && ModeOf(s.lower[l].lk, t) != Unheld
  }

  class Table {
    var buckets: array<seq<nat>>

    constructor (size: nat)
      ensures fresh(buckets) && buckets.Length == size && forall b :: 0 <= b < size ==> buckets[b] == []
    {
      buckets := new seq<nat>[size](_ => []);
    }

    /** The lists are those of state `s`. */
    ghost predicate Is(s: Sh)
      reads this, buckets
    {
      buckets[..] == s.hash
    }

    /** LIST_FOREACH over bucket `b`, whose entries are nodes of `a`. */
    method Search(b: nat, a: seq<Alias>, mp: nat, l: nat) returns (r: Option<nat>)
      requires b < buckets.Length && forall i :: 0 <= i < |buckets[b]| ==> buckets[b][i] < |a|
      ensures r == Find(buckets[b], a, mp, l)
    {
      var list := buckets[b];
      var i := 0;
      while i < |list|
        invariant i <= |list| && Find(list, a, mp, l) == Find(list[i..], a, mp, l)
      {
        if Match(a[list[i]], mp, l) { return Some(list[i]); }
        assert list[i..][1..] == list[i + 1..];
        i := i + 1;
      }
      assert list[i..] == [];
      return None;
    }

    /** tpt_hashget: the test for an empty bucket and the search behind it find what the two
        sections of the transition system find. */
    method Hashget(ghost s: Sh, ghost t: nat, b: nat, a: seq<Alias>, mp: nat, l: nat) returns (r: Option<nat>)
      requires BucketOf(s, t, l, b) && Is(s) && a == s.alias
      ensures r == if HashTest(s, t, l, false, true).pc then HashScan(s, t, mp, l).1 else None
      ensures r == HashScan(s, t, mp, l).1
    {
      if buckets[b] == [] { return None; }
      r := Search(b, a, mp, l);
    }

    /** tpt_hashins of node `v`: the node that was first, or None after inserting at the head. The
        lists are those the write-locked section leaves. */
    method Hashins(ghost s: Sh, ghost t: nat, ghost c: Call, b: nat, a: seq<Alias>, v: nat) returns (r: Option<nat>)
      requires BucketOf(s, t, c.l, b) && Is(s) && a == s.alias && LRef(c.l) in s.own[t]
      requires v < |a| && Match(a[v], c.mp, c.l)
      modifies buckets
      ensures Is(DoHashins(s, t, c, v).sh)
      ensures DoHashins(s, t, c, v).pc == if r.Some? then NgLost(v, r.value) else NgDone(0, v)
    {
      r := Search(b, a, a[v].mount, a[v].lower);
      if r.None? { buckets[b] := [v] + buckets[b]; }
    }

    /** tpt_hashrem of node `v`: the first `v` of its list goes, whatever was before and behind it
        stays in order. The lists are those the write-locked section leaves. */
    method Hashrem(ghost s: Sh, b: nat, a: seq<Alias>, v: nat) returns (ghost k: nat)
      requires Wf(s) && Is(s) && a == s.alias && v < |a| && b == s.hidx[a[v].lower]
      requires a[v].data && a[v].vnlk == Borrowed && Hashed(s, v)
      modifies buckets
      ensures k < |s.hash[b]| && s.hash[b][k] == v && v !in s.hash[b][..k]
      ensures buckets[..] == s.hash[b := s.hash[b][..k] + s.hash[b][k + 1..]]
      ensures Is(Reclaim.DoHashrem(s, v).sh)
    {
      var list := buckets[b];
      var i := 0;
      while list[i] != v
        invariant i < |list| && v !in list[..i]
        decreases |list| - i
      {
        assert list[..i + 1] == list[..i] + [list[i]];
        assert v in list && i + 1 < |list|;
        i := i + 1;
      }
      buckets[b] := list[..i] + list[i + 1..];
      UnlinkedFirst(list, v, i);
      k := i;
    }
  }

  /** LIST_REMOVE takes out the first `v`. */
  lemma {:induction false} UnlinkedFirst(list: seq<nat>, v: nat, k: nat)
    requires k < |list| && list[k] == v && v !in list[..k]
    ensures Unlinked(list, v) == list[..k] + list[k + 1..]
  {
    if k > 0 {
      assert list[0] in list[..k];
      assert list[1..][..k - 1] == list[..k][1..];
      UnlinkedFirst(list[1..], v, k - 1);
      assert [list[0]] + (list[1..][..k - 1] + list[1..][k..]) == list[..k] + list[k + 1..];
    }
  }

  /** What was inserted is found, until it is removed. */
  lemma {:induction false} InsertThenRemove(list: seq<nat>, a: seq<Alias>, v: nat)
    requires v < |a| && forall i :: 0 <= i < |list| ==> list[i] < |a|
    requires Find(list, a, a[v].mount, a[v].lower) == None
    ensures Find([v] + list, a, a[v].mount, a[v].lower) == Some(v)
    ensures Unlinked([v] + list, v) == list
  {
    assert ([v] + list)[1..] == list;
  }

  /** Removing a node hides it and no node of another pair. */
  lemma {:induction false} FindAfterRemove(list: seq<nat>, a: seq<Alias>, v: nat, mp: nat, l: nat)
    requires v in list && forall i :: 0 <= i < |list| ==> list[i] < |a|
    requires forall i, j :: 0 <= i < j < |list| ==>
               !(a[list[i]].lower == a[list[j]].lower && a[list[i]].mount == a[list[j]].mount)
    ensures forall i :: 0 <= i < |Unlinked(list, v)| ==> Unlinked(list, v)[i] < |a|
    ensures Find(Unlinked(list, v), a, mp, l) == if Match(a[v], mp, l) then None else Find(list, a, mp, l)
  {
    if list[0] == v {
      if Match(a[v], mp, l) {
        forall i | 0 <= i < |list[1..]|
          ensures !Match(a[list[1..][i]], mp, l)
        {
          assert list[1..][i] == list[i + 1];
        }
      }
    } else {
      var rest := list[1..];
      forall i, j | 0 <= i < j < |rest|
        ensures !(a[rest[i]].lower == a[rest[j]].lower && a[rest[i]].mount == a[rest[j]].mount)
      {
        assert rest[i] == list[i + 1] && rest[j] == list[j + 1];
      }
      FindAfterRemove(rest, a, v, mp, l);
      assert Unlinked(list, v)[1..] == Unlinked(rest, v);
      var k :| 0 < k < |list| && list[k] == v;
      assert !(a[list[0]].lower == a[list[k]].lower && a[list[0]].mount == a[list[k]].mount);
    }
  }
}
