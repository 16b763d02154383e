/** vgone and tpt_reclaim, tptfs/tpt_vnops.c:817-861, one atomic section at a time, and what
    the thread holds before each of them. */
module Reclaim {
  import opened Options
  import opened Kernel
  import opened Invariant
  import opened Guarantee
  import opened Primitives

  /** vgone of alias `v` over lower vnode `l`: whether a lower-layer notification asked for
      it, whether it came with the last use reference, and what the thread owns. */
  datatype Goner = Goner(v: nat, l: nat, notify: bool, last: bool, own: multiset<Res>)

  datatype VgPc = VgDoom | RcHashrem | RcLock | RcSwitch | RcPut | RcFree | VgDone

  // ----- The sections -----

  function Doom(s: Sh, t: nat, v: nat): Sh
    requires t < |s.busy| && v < |s.alias|
  {
    SetBusy(PutA(s, v, s.alias[v].(doomed := true, agent := t)), t, Some(v))
  }

  function DoDoom(s: Sh, t: nat, v: nat): Out<VgPc>
    requires t < |s.busy| && v < |s.alias|
  {
    if s.alias[v].doomed then Ok(s, VgDone)
    else if s.alias[v].dead then Ok(Doom(s, t, v), VgDone)
    else Ok(Doom(s, t, v), RcHashrem)
  }

  /** The assertion at the head of tpt_reclaim, and LIST_REMOVE under the hash lock. */
  function DoHashrem(s: Sh, v: nat): Out<VgPc>
    requires Wf(s) && v < |s.alias|
  {
    var b := s.hidx[s.alias[v].lower];
    if !s.alias[v].data then Panic(NullData)
    else if s.alias[v].vnlk == Own then Panic(BadReclaim)
    else if v !in s.hash[b] then Panic(NotOnHash)
    else Ok(s.(hash := s.hash[b := Unlinked(s.hash[b], v)]), RcLock)
  }

  /** The interlock section: no data, the private lock, and the leased write count back. */
  function DoSwitch(s: Sh, v: nat): Out<VgPc>
    requires v < |s.alias| && s.alias[v].lower < |s.lower|
  {
    var a := s.alias[v];
    var s1 := if a.wc > 0 then PutL(s, a.lower, AddWc(s.lower[a.lower], -a.wc).0) else s;
    Ok(PutA(s1, v, a.(data := false, vnlk := Own, wc := if a.wc < 0 then 0 else a.wc)), RcPut)
  }

  /** vput of the lower vnode, or vunref for a notification that keeps the lock. The
      reference is the node's. */
  function DoPut(s: Sh, t: nat, v: nat): Out<VgPc>
    requires v < |s.alias| && s.alias[v].lower < |s.lower|
  {
    var l := s.alias[v].lower;
    var x := s.lower[l];
    if x.freed then Panic(FreedLower)
    else if !s.alias[v].noUnlock && ModeOf(x.lk, t) == Unheld then Panic(LockNotHeld)
    else if x.use <= 0 || !s.alias[v].lref then Panic(RefUnderflow)
    else
      var lk' := if s.alias[v].noUnlock then x.lk else Release(x.lk, t);
      Ok(PutA(PutL(s, l, x.(use := x.use - 1, lk := lk')), v, s.alias[v].(lref := false)), RcFree)
  }

  /** free of the node; then vgone installs the dead operations vector. */
  function DoFree(s: Sh, t: nat, v: nat): Out<VgPc>
    requires t < |s.busy| && v < |s.alias|
  {
    if s.alias[v].freed then Panic(DoubleFree)
    else Ok(SetBusy(PutA(s, v, s.alias[v].(freed := true, dead := true)), t, None), VgDone)
  }

  ghost predicate VgOk(s: Sh, g: Goner) {
    g.v < |s.alias| && g.l < |s.lower|
  }

  ghost predicate VgCan(s: Sh, t: nat, g: Goner, p: VgPc)
    requires VgOk(s, g)
  {
    p != VgDone && (p == RcLock ==> Grantable(s.alias[g.v].plk, t, Exclusive))
  }

  ghost function VgStep(s: Sh, t: nat, g: Goner, p: VgPc): Out<VgPc>
    requires Wf(s) && t < |s.own| && VgOk(s, g) && VgCan(s, t, g, p)
  {
    match p
    case VgDoom => DoDoom(s, t, g.v)
    case RcHashrem => DoHashrem(s, g.v)
    case RcLock => Ok(PrivateLock(s, t, g.v), RcSwitch)
    case RcSwitch => DoSwitch(s, g.v)
    case RcPut => DoPut(s, t, g.v)
    case RcFree => DoFree(s, t, g.v)
  }

  // ----- What the thread holds -----

  ghost predicate VgInv(s: Sh, t: nat, g: Goner, p: VgPc)
    requires Wf(s) && t < |s.own| && VgOk(s, g)
  {
    var a := s.alias[g.v];
    && s.own[t] == g.own && a.lower == g.l && a.onMount && (g.last ==> a.use == 0)
    && (if p == VgDone || (p == VgDoom && !g.notify) then s.busy[t] == None else Working(s, t, g.v))
    && (p != VgDoom ==> a.doomed)
    && (p == VgDoom ==> Live(s, g.v) && !g.last)
    && (p == RcHashrem ==> Hashed(s, g.v))
    && (p == RcLock || p == RcSwitch ==> !Hashed(s, g.v))
    && (a.data <==> p == VgDoom || p == RcHashrem || p == RcLock || p == RcSwitch)
    && (p == VgDone ==> a.freed)
    && (p != VgDone ==> !a.freed && (a.noUnlock <==> g.notify) && (a.lref <==> p != RcFree))
    // The shared lock is held until the reference is dropped, and beyond by a notification.
    && LMode(s, t, g.l) == (if (p == RcFree || p == VgDone) && !g.notify then Unheld else Exclusive)
    && (if p == VgDoom || p == RcHashrem || p == RcLock then PMode(s, t, g.v) == Unheld
        else PMode(s, t, g.v) == Exclusive)
  }

  /** Other threads leave a reclaim in progress alone. */
  lemma VgKept(s: Sh, s': Sh, u: nat, t: nat, g: Goner, p: VgPc)
    requires Inv(s) && u < |s.own| && Guar(s, s', u) && t < |s.own| && t != u
    requires VgOk(s, g) && VgInv(s, t, g, p)
    ensures VgOk(s', g) && VgInv(s', t, g, p)
  {
    assert AliasInv(s, g.v);
    assert SameCore(s, s', g.v) || Controls(s, u, g.v);
    assert Onward(s, s', g.v);
    assert LMode(s', t, g.l) == LMode(s, t, g.l);
    assert PMode(s', t, g.v) == PMode(s, t, g.v);
  }

  /** The private lock of an alias that is being reclaimed is granted at once: nobody takes it while
      v_vnlock names the shared one. */
  lemma VgoneNeverSleeps(s: Sh, t: nat, g: Goner, p: VgPc)
    requires Inv(s) && t < |s.own| && VgOk(s, g) && VgInv(s, t, g, p) && p != VgDone
    ensures VgCan(s, t, g, p)
  {
    assert AliasInv(s, g.v);
  }

  // ----- LIST_REMOVE -----

  /** LIST_REMOVE takes out one position. */
  lemma {:induction false} UnlinkedAt(b: seq<nat>, v: nat) returns (k: nat)
    requires v in b
    ensures k < |b| && b[k] == v && Unlinked(b, v) == b[..k] + b[k + 1..]
  {
    if b[0] == v {
      k := 0;
    } else {
      var j := UnlinkedAt(b[1..], v);
      k := j + 1;
      assert [b[0]] + (b[1..][..j] + b[1..][j + 1..]) == b[..k] + b[k + 1..];
    }
  }

  /** Position `i` of a list with position `k` taken out. */
  function Skip(i: nat, k: nat): nat {
    if i < k then i else i + 1
  }

  lemma WithoutAt(b: seq<nat>, k: nat)
    requires k < |b|
    ensures var b' := b[..k] + b[k + 1..];
            |b'| == |b| - 1 && (forall i {:trigger b'[i]} :: 0 <= i < |b'| ==> b'[i] == b[Skip(i, k)])
    ensures forall w :: w != b[k] && w in b ==> w in b[..k] + b[k + 1..]
  {
    var b' := b[..k] + b[k + 1..];
    forall w | w != b[k] && w in b
      ensures w in b'
    {
      var i :| 0 <= i < |b| && b[i] == w;
      assert b'[if i < k then i else i - 1] == w;
    }
  }

  lemma HashremHash(s: Sh, v: nat)
    requires Wf(s) && HashInv(s) && v < |s.alias| && Hashed(s, v) && s.alias[v].vnlk == Borrowed && s.alias[v].data
    ensures var s' := DoHashrem(s, v).sh;
            Wf(s') && HashInv(s') && !Hashed(s', v) &&
            forall w :: w != v ==> (w in s'.hash[s.hidx[s.alias[v].lower]] <==> w in s.hash[s.hidx[s.alias[v].lower]])
  {
    var s' := DoHashrem(s, v).sh;
    var n := s.hidx[s.alias[v].lower];
    var b := s.hash[n];
    var k := UnlinkedAt(b, v);
    var b' := s'.hash[n];
    WithoutAt(b, k);
    assert b' == b[..k] + b[k + 1..];
    forall i | 0 <= i < |b'|
      ensures b'[i] == b[Skip(i, k)] && b'[i] != v
    {
      var lo, hi := if i < k then i else k, if i < k then k else i + 1;
      assert !(s.alias[b[lo]].lower == s.alias[b[hi]].lower && s.alias[b[lo]].mount == s.alias[b[hi]].mount);
    }
    forall i, j | 0 <= i < j < |b'|
      ensures !(s.alias[b'[i]].lower == s.alias[b'[j]].lower && s.alias[b'[i]].mount == s.alias[b'[j]].mount)
    {
      assert b'[i] == b[Skip(i, k)] && b'[j] == b[Skip(j, k)];
    }
  }

  // ----- The sections keep the invariant -----

  ghost predicate VgGood(s: Sh, t: nat, g: Goner, o: Out<VgPc>)
    requires Wf(s) && t < |s.own|
  {
    o.Ok? && Inv(o.sh) && Guar(s, o.sh, t) && VgOk(o.sh, g) && VgInv(o.sh, t, g, o.pc)
  }

  ghost predicate Before(s: Sh, t: nat, g: Goner, p: VgPc) {
    Inv(s) && t < |s.own| && VgOk(s, g) && VgInv(s, t, g, p)
  }

  /** Dooming a live alias whose shared lock is held. */
  lemma DoomStep(s: Sh, t: nat, v: nat)
    requires Inv(s) && t < |s.own| && v < |s.alias| && Live(s, v) && s.alias[v].onMount
    requires LMode(s, t, s.alias[v].lower) == Exclusive
    requires s.busy[t] == None || Working(s, t, v)
    ensures Inv(Doom(s, t, v)) && Guar(s, Doom(s, t, v), t)
  {
    assert AliasInv(s, v);
    OneAlias(s, Doom(s, t, v), t, v);
  }

  lemma StepDoom(s: Sh, t: nat, g: Goner)
    requires Before(s, t, g, VgDoom)
    ensures VgGood(s, t, g, DoDoom(s, t, g.v))
  {
    assert AliasInv(s, g.v);
    DoomStep(s, t, g.v);
  }

  lemma StepHashrem(s: Sh, t: nat, g: Goner)
    requires Before(s, t, g, RcHashrem)
    ensures VgGood(s, t, g, DoHashrem(s, g.v))
  {
    assert AliasInv(s, g.v);
    HashremHash(s, g.v);
    var s' := DoHashrem(s, g.v).sh;
    forall l | 0 <= l < |s.lower|
      ensures LowerRest(s', l)
    {
      assert LowerInv(s, l);
    }
    Account(s, s', t);
    Both(s, s', t, g.v);
  }

  lemma StepLock(s: Sh, t: nat, g: Goner)
    requires Before(s, t, g, RcLock) && VgCan(s, t, g, RcLock)
    ensures VgGood(s, t, g, Ok(PrivateLock(s, t, g.v), RcSwitch))
  {
    PrivateLockStep(s, t, g.v);
  }

  /** The lease goes back to the lower vnode: a running writer keeps the file from being
      executed, so the lower count cannot refuse it. */
  lemma SwitchCounts(s: Sh, t: nat, g: Goner)
    requires Before(s, t, g, RcSwitch)
    ensures CountInv(DoSwitch(s, g.v).sh)
  {
    var s' := DoSwitch(s, g.v).sh;
    forall v | 0 <= v < |s.alias|
      ensures s.alias[v].wc >= 0
    {
      assert AliasInv(s, v);
    }
    forall l | 0 <= l < |s.lower|
      ensures CountRef(s'.alias, l) == CountRef(s.alias, l) && LowerRest(s', l)
    {
      assert LowerInv(s, l);
      CountRefUpdate(s.alias, g.v, s'.alias[g.v], l);
      SumWcUpdate(s.alias, g.v, s'.alias[g.v], l);
      SumWcBound(s.alias, g.v, l);
    }
    Account(s, s', t);
  }

  lemma StepSwitch(s: Sh, t: nat, g: Goner)
    requires Before(s, t, g, RcSwitch)
    ensures VgGood(s, t, g, DoSwitch(s, g.v))
  {
    SwitchCounts(s, t, g);
    SwitchShape(s, t, g);
    SwitchHolds(s, t, g);
    Both(s, DoSwitch(s, g.v).sh, t, g.v);
  }

  lemma SwitchShape(s: Sh, t: nat, g: Goner)
    requires Before(s, t, g, RcSwitch)
    ensures var s' := DoSwitch(s, g.v).sh;
            Wf(s') && HashInv(s') && AliasAndLower(s, s', t, g.v)
  {
  }

  lemma SwitchHolds(s: Sh, t: nat, g: Goner)
    requires Before(s, t, g, RcSwitch) && Wf(DoSwitch(s, g.v).sh)
    ensures var s' := DoSwitch(s, g.v).sh; AliasInv(s', g.v) && VgInv(s', t, g, RcPut)
  {
    assert AliasInv(s, g.v);
  }

  lemma PutCounts(s: Sh, t: nat, g: Goner)
    requires Before(s, t, g, RcPut)
    ensures DoPut(s, t, g.v).Ok? && CountInv(DoPut(s, t, g.v).sh)
  {
    NodeInUse(s, g.v);
    var s' := DoPut(s, t, g.v).sh;
    forall l | 0 <= l < |s.lower|
      ensures CountRef(s'.alias, l) == CountRef(s.alias, l) - (if l == g.l then 1 else 0) && LowerRest(s', l)
    {
      assert LowerInv(s, l);
      CountRefUpdate(s.alias, g.v, s'.alias[g.v], l);
      SumWcUpdate(s.alias, g.v, s'.alias[g.v], l);
    }
    Account(s, s', t);
  }

  lemma StepPut(s: Sh, t: nat, g: Goner)
    requires Before(s, t, g, RcPut)
    ensures VgGood(s, t, g, DoPut(s, t, g.v))
  {
    assert AliasInv(s, g.v);
    PutCounts(s, t, g);
    Both(s, DoPut(s, t, g.v).sh, t, g.v);
  }

  lemma StepFree(s: Sh, t: nat, g: Goner)
    requires Before(s, t, g, RcFree)
    ensures VgGood(s, t, g, DoFree(s, t, g.v))
  {
    assert AliasInv(s, g.v);
    OneAlias(s, DoFree(s, t, g.v).sh, t, g.v);
  }

  /** Every section of vgone and tpt_reclaim. */
  lemma VgStepGood(s: Sh, t: nat, g: Goner, p: VgPc)
    requires Before(s, t, g, p) && VgCan(s, t, g, p)
    ensures VgGood(s, t, g, VgStep(s, t, g, p))
  {
    match p
    case VgDoom => StepDoom(s, t, g);
    case RcHashrem => StepHashrem(s, t, g);
    case RcLock => StepLock(s, t, g);
    case RcSwitch => StepSwitch(s, t, g);
    case RcPut => StepPut(s, t, g);
    case RcFree => StepFree(s, t, g);
  }
}
