/** What holds of the shared state between any two sections of any threads: the shape of
    every alias, the exact reference, hold and write counts, and the hash. */
module Invariant {
  import opened Options
  import opened Kernel

  // ----- Sums -----

  function CountRef(a: seq<Alias>, l: nat): nat {
    if a == [] then 0
    else CountRef(a[..|a| - 1], l) + (if a[|a| - 1].lref && a[|a| - 1].lower == l then 1 else 0)
  }

  /** The writers that an alias still leases from `l`. */
  function Leased(x: Alias, l: nat): int {
    if x.data && x.lower == l then x.wc else 0
  }

  function SumWc(a: seq<Alias>, l: nat): int {
    if a == [] then 0 else SumWc(a[..|a| - 1], l) + Leased(a[|a| - 1], l)
  }

  function Total(own: seq<multiset<Res>>, r: Res): nat {
    if own == [] then 0 else Total(own[..|own| - 1], r) + own[|own| - 1][r]
  }

  lemma {:induction false} CountRefUpdate(a: seq<Alias>, v: nat, x: Alias, l: nat)
    requires v < |a|
    ensures CountRef(a[v := x], l) ==
            CountRef(a, l) - (if a[v].lref && a[v].lower == l then 1 else 0)
                           + (if x.lref && x.lower == l then 1 else 0)
  {
    var n := |a| - 1;
    if v == n {
      assert a[v := x][..n] == a[..n];
    } else {
      assert a[v := x][..n] == a[..n][v := x];
      CountRefUpdate(a[..n], v, x, l);
    }
  }

  lemma {:induction false} SumWcUpdate(a: seq<Alias>, v: nat, x: Alias, l: nat)
    requires v < |a|
    ensures SumWc(a[v := x], l) == SumWc(a, l) - Leased(a[v], l) + Leased(x, l)
  {
    var n := |a| - 1;
    if v == n {
      assert a[v := x][..n] == a[..n];
    } else {
      assert a[v := x][..n] == a[..n][v := x];
      SumWcUpdate(a[..n], v, x, l);
    }
  }

  lemma AppendAlias(a: seq<Alias>, x: Alias, l: nat)
    ensures CountRef(a + [x], l) == CountRef(a, l) + (if x.lref && x.lower == l then 1 else 0)
    ensures SumWc(a + [x], l) == SumWc(a, l) + Leased(x, l)
  {
    assert (a + [x])[..|a|] == a;
  }

  lemma {:induction false} CountRefPositive(a: seq<Alias>, v: nat, l: nat)
    requires v < |a| && a[v].lref && a[v].lower == l
    ensures CountRef(a, l) >= 1
  {
    if v < |a| - 1 {
      CountRefPositive(a[..|a| - 1], v, l);
    }
  }

  /** When no alias has a negative count, each one is at most the sum. */
  lemma {:induction false} SumWcBound(a: seq<Alias>, v: nat, l: nat)
    requires v < |a|
    requires forall w :: 0 <= w < |a| ==> a[w].wc >= 0
    ensures 0 <= Leased(a[v], l) <= SumWc(a, l)
  {
    var n := |a| - 1;
    if n > 0 {
      if v == n {
        SumWcBound(a[..n], 0, l);
      } else {
        SumWcBound(a[..n], v, l);
      }
    }
  }

  lemma {:induction false} TotalUpdate(own: seq<multiset<Res>>, t: nat, x: multiset<Res>, r: Res)
    requires t < |own|
    ensures Total(own[t := x], r) == Total(own, r) - own[t][r] + x[r]
  {
    var n := |own| - 1;
    if t == n {
      assert own[t := x][..n] == own[..n];
    } else {
      assert own[t := x][..n] == own[..n][t := x];
      TotalUpdate(own[..n], t, x, r);
    }
  }

  lemma {:induction false} TotalAtLeast(own: seq<multiset<Res>>, t: nat, r: Res)
    requires t < |own|
    ensures own[t][r] <= Total(own, r)
  {
    if t < |own| - 1 {
      TotalAtLeast(own[..|own| - 1], t, r);
    }
  }

  // ----- Locks as a thread sees them -----

  ghost function LMode(s: Sh, t: nat, l: nat): Mode
    requires l < |s.lower|
  {
    ModeOf(s.lower[l].lk, t)
  }

  ghost function PMode(s: Sh, t: nat, v: nat): Mode
    requires v < |s.alias|
  {
    ModeOf(s.alias[v].plk, t)
  }

  /** Thread `t` is the one making or taking down alias `v`. */
  ghost predicate Working(s: Sh, t: nat, v: nat)
    requires Wf(s) && v < |s.alias|
  {
    s.alias[v].agent == t && s.busy[t] == Some(v)
  }

  /** `v` is a complete, hashed alias that is not doomed. */
  ghost predicate Live(s: Sh, v: nat)
    requires Wf(s) && v < |s.alias|
  {
    s.alias[v].data && !s.alias[v].doomed && Hashed(s, v)
  }

  /** Whether the thread working on `v` must keep the shared lock exclusively: the alias is
      a mounted prototype, is being torn down, or carries NULLV_NOUNLOCK. */
  predicate NeedsLock(a: Alias) {
    a.data && (a.doomed || a.noUnlock || (a.onMount && !a.lref))
  }

  // ----- The invariant -----

  ghost predicate AliasInv(s: Sh, v: nat)
    requires Wf(s) && v < |s.alias|
  {
    var a := s.alias[v];
    // v_vnlock names the lower lock exactly while v_data is set.
    && (a.data <==> a.vnlk == Borrowed)
    && (a.dead ==> !a.data)
    && (!a.data && !a.doomed ==> a.dead && a.plk == ExclBy(a.agent))
    && (a.data ==> !a.freed)
    && (Hashed(s, v) ==> a.data && a.lref)
    && (a.lref ==> !a.freed && a.onMount && (Hashed(s, v) || a.doomed))
    && (a.data && !a.lref ==> !Hashed(s, v) && !a.doomed && a.wc == 0)
    && (a.data && a.doomed ==> a.lref)
    && (!a.data && a.lref ==> a.doomed)
    // Whatever is neither live nor completely gone has exactly one thread working on it,
    && (!Live(s, v) && !(a.doomed && !a.data && !a.lref && a.freed) ==> Working(s, a.agent, v))
    // with the shared lock while anyone else could see it change.
    && (NeedsLock(a) ==> Working(s, a.agent, v) && s.lower[a.lower].lk == ExclBy(a.agent))
    // The private lock is taken only to leave the shared one.
    && (a.data && a.plk != FREE_LOCK ==>
          a.plk == ExclBy(a.agent) && Working(s, a.agent, v) && (a.doomed || !a.lref))
    && a.wc >= 0
    // Nobody but its maker has a reference to an alias that never reached the mount.
    && (!a.onMount ==> forall u :: 0 <= u < |s.own| && URef(v) in s.own[u] ==> Working(s, u, v))
  }

  /** A prototype that is on the mount and so may be found and locked by others. */
  predicate Exposed(a: Alias) {
    a.data && a.onMount && !a.lref
  }

  /** Its lower vnode is kept in use by the spare reference its maker still has, or by the
      node that was first. */
  ghost predicate ExposedInUse(s: Sh, v: nat)
    requires Wf(s) && v < |s.alias|
  {
    var a := s.alias[v];
    Exposed(a) ==> LRef(a.lower) in s.own[a.agent] || CountRef(s.alias, a.lower) >= 1
  }

  /** The use count of an alias is the number of references threads have to it. */
  ghost predicate AliasCount(s: Sh, v: nat)
    requires v < |s.alias|
  {
    s.alias[v].use == Total(s.own, URef(v))
  }

  /** The use count of a lower vnode is what threads have plus one per node that owns its
      reference, its hold count is what threads have, and its write count is its direct
      writers plus what its aliases lease. */
  ghost predicate LowerInv(s: Sh, l: nat)
    requires l < |s.lower|
  {
    var x := s.lower[l];
    && x.use == Total(s.own, LRef(l)) + CountRef(s.alias, l)
    && x.hold == Total(s.own, Hold(l))
    && LowerRest(s, l)
  }

  ghost predicate LowerRest(s: Sh, l: nat)
    requires l < |s.lower|
  {
    var x := s.lower[l];
    && (x.freed ==> x.use == 0 && x.hold == 0 && x.lk == FREE_LOCK)
    && (x.lk.ExclBy? ==> x.lk.owner < |s.own|)
    && x.direct >= 0
    && (x.wc >= 0 ==> x.wc == x.direct + SumWc(s.alias, l))
    && (x.wc < 0 ==> x.direct == 0 && SumWc(s.alias, l) == 0)
  }

  /** Every node is on the list of its own lower vnode, and there is one per (mount, lower). */
  ghost predicate HashInv(s: Sh)
    requires Wf(s)
  {
    && (forall b, i :: 0 <= b < |s.hash| && 0 <= i < |s.hash[b]| ==>
          s.hidx[s.alias[s.hash[b][i]].lower] == b)
    && (forall b, i, j :: 0 <= b < |s.hash| && 0 <= i < j < |s.hash[b]| ==>
          !(s.alias[s.hash[b][i]].lower == s.alias[s.hash[b][j]].lower &&
            s.alias[s.hash[b][i]].mount == s.alias[s.hash[b][j]].mount))
  }

  ghost predicate CountInv(s: Sh) {
    && (forall v :: 0 <= v < |s.alias| ==> AliasCount(s, v))
    && (forall v: nat :: |s.alias| <= v ==> Total(s.own, URef(v)) == 0)
    && (forall l :: 0 <= l < |s.lower| ==> LowerInv(s, l))
  }

  ghost predicate Inv(s: Sh) {
    && Wf(s)
    && HashInv(s)
    && (forall v :: 0 <= v < |s.alias| ==> AliasInv(s, v))
    && (forall v :: 0 <= v < |s.alias| ==> ExposedInUse(s, v))
    && CountInv(s)
  }

  // ----- What follows for a thread -----

  /** A thread that owns a reference or hold, or has the lock, finds the vnode not recycled. */
  lemma OwnedInUse(s: Sh, t: nat, l: nat)
    requires Inv(s) && t < |s.own| && l < |s.lower|
    ensures LRef(l) in s.own[t] ==> s.lower[l].use >= 1
    ensures Hold(l) in s.own[t] ==> s.lower[l].hold >= 1
    ensures LMode(s, t, l) != Unheld || LRef(l) in s.own[t] || Hold(l) in s.own[t] ==> !s.lower[l].freed
    ensures s.lower[l].use >= 0 && s.lower[l].hold >= 0 && LowerRest(s, l)
  {
    assert LowerInv(s, l);
    TotalAtLeast(s.own, t, LRef(l));
    TotalAtLeast(s.own, t, Hold(l));
  }

  lemma OwnedAlias(s: Sh, t: nat, v: nat)
    requires Inv(s) && t < |s.own| && v < |s.alias|
    ensures s.own[t][URef(v)] <= s.alias[v].use
  {
    assert AliasCount(s, v);
    TotalAtLeast(s.own, t, URef(v));
  }

  /** A node that owns its reference keeps the lower vnode in use. */
  lemma NodeInUse(s: Sh, v: nat)
    requires Inv(s) && v < |s.alias| && s.alias[v].lref
    ensures s.lower[s.alias[v].lower].use >= 1 && !s.lower[s.alias[v].lower].freed
  {
    assert LowerInv(s, s.alias[v].lower);
    CountRefPositive(s.alias, v, s.alias[v].lower);
  }

  /** The lower vnode of a mounted alias with data is in use. */
  lemma LowerInUse(s: Sh, v: nat)
    requires Inv(s) && v < |s.alias| && s.alias[v].data && s.alias[v].onMount
    ensures s.lower[s.alias[v].lower].use >= 1 && !s.lower[s.alias[v].lower].freed
  {
    if s.alias[v].lref {
      NodeInUse(s, v);
    } else {
      assert ExposedInUse(s, v) && LowerInv(s, s.alias[v].lower);
      TotalAtLeast(s.own, s.alias[v].agent, LRef(s.alias[v].lower));
    }
  }

  /** With the shared lock held and no work of its own on `v`, a thread finds a mounted alias
      that has its data live. */
  lemma HeldIsLive(s: Sh, t: nat, v: nat)
    requires Inv(s) && t < |s.own| && v < |s.alias| && s.alias[v].data && s.alias[v].onMount
    requires LMode(s, t, s.alias[v].lower) != Unheld && s.busy[t] != Some(v)
    ensures Live(s, v) && s.alias[v].lref && !s.alias[v].dead && !s.alias[v].noUnlock
    ensures s.alias[v].plk == FREE_LOCK
  {
    assert AliasInv(s, v);
  }

  /** Whoever holds the lock v_vnlock names, and does no work of its own on `v`, finds a mounted
      alias live unless it is doomed. */
  lemma LockedIsLive(s: Sh, t: nat, v: nat)
    requires Inv(s) && t < |s.own| && v < |s.alias| && s.alias[v].onMount && !s.alias[v].doomed
    requires ModeOf(Named(s, v), t) != Unheld && s.busy[t] != Some(v)
    ensures Live(s, v) && s.alias[v].lref && !s.alias[v].dead && !s.alias[v].noUnlock
    ensures s.alias[v].plk == FREE_LOCK && s.alias[v].vnlk == Borrowed
  {
    assert AliasInv(s, v);
    if s.alias[v].data { HeldIsLive(s, t, v); }
  }

  /** A thread that is not working on `v` and owns a reference to it finds it mounted. */
  lemma OwnedIsMounted(s: Sh, t: nat, v: nat)
    requires Inv(s) && t < |s.own| && v < |s.alias| && URef(v) in s.own[t] && s.busy[t] != Some(v)
    ensures s.alias[v].onMount
  {
    assert AliasInv(s, v);
  }
}
