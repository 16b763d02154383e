/** tpt_destroy_proto, tptfs/tpt_subr.c:170-183, one atomic section at a time, and what the
    thread holds before each of them. */
module Destroy {
  import opened Options
  import opened Kernel
  import opened Invariant
  import opened Guarantee
  import opened Primitives

  /** A call on mount `mp` and lower vnode `l`: `excl` is the lock state at entry, `own` what
      the thread owned at entry besides the spare reference. */
  datatype Call = Call(mp: nat, l: nat, excl: bool, own: multiset<Res>)

  /** Why a prototype is destroyed: another alias was first, or insmntque1 failed. */
  datatype Cause = Lost(ov: nat) | Failed(err: int)

  datatype DpPc = DpLock | DpSwitch | DpVgone | DpPut | DpFree | DpDone

  // ----- The sections -----

  /** The interlock section: no data, the private lock, the dead operations vector. */
  function DoSwitch(s: Sh, v: nat): Out<DpPc>
    requires v < |s.alias|
  {
    Ok(PutA(s, v, s.alias[v].(data := false, vnlk := Own, dead := true)), DpVgone)
  }

  /** vgone on the prototype, whose operations vector no longer leads to tpt_reclaim. */
  function DoVgone(s: Sh, v: nat): Out<DpPc>
    requires v < |s.alias|
  {
    if !s.alias[v].dead then Panic(NullData)
    else Ok(PutA(s, v, s.alias[v].(doomed := true)), DpPut)
  }

  function DoFree(s: Sh, t: nat, v: nat): Out<DpPc>
    requires t < |s.busy| && v < |s.alias|
  {
    if s.alias[v].freed then Panic(DoubleFree)
    else Ok(SetBusy(PutA(s, v, s.alias[v].(freed := true)), t, None), DpDone)
  }

  ghost predicate DpCan(s: Sh, t: nat, v: nat, p: DpPc)
    requires v < |s.alias|
  {
    p != DpDone && (p == DpLock ==> Grantable(s.alias[v].plk, t, Exclusive))
  }

  ghost function DpStep(s: Sh, t: nat, v: nat, p: DpPc): Out<DpPc>
    requires Wf(s) && t < |s.own| && v < |s.alias| && DpCan(s, t, v, p)
  {
    match p
    case DpLock => Ok(PrivateLock(s, t, v), DpSwitch)
    case DpSwitch => DoSwitch(s, v)
    case DpVgone => DoVgone(s, v)
    case DpPut => VputA(s, t, v, DpFree)
    case DpFree => DoFree(s, t, v)
  }

  // ----- What the thread holds -----

  /** `v` is the live alias of the pair the call is about. */
  ghost predicate Alias4(s: Sh, c: Call, v: nat)
    requires Wf(s) && v < |s.alias|
  {
    Live(s, v) && Match(s.alias[v], c.mp, c.l) && s.alias[v].onMount
  }

  /** `v` is the prototype of thread `t`. */
  ghost predicate Proto(s: Sh, t: nat, c: Call, v: nat, mounted: bool)
    requires Wf(s) && v < |s.alias|
  {
    Working(s, t, v) && Match(s.alias[v], c.mp, c.l) && s.alias[v].data && !s.alias[v].lref &&
    !s.alias[v].noUnlock && s.alias[v].onMount == mounted && URef(v) !in c.own
  }

  /** Locks, references and the winner while prototype `v` is destroyed. */
  ghost predicate DpInv(s: Sh, t: nat, c: Call, v: nat, d: Cause, p: DpPc)
    requires Wf(s) && t < |s.own| && c.l < |s.lower| && v < |s.alias| && (d.Lost? ==> d.ov < |s.alias|)
  {
    var a := s.alias[v];
    && (if p == DpDone then s.busy[t] == None else Working(s, t, v) && !a.freed)
    && a.lower == c.l && !a.lref && a.onMount == d.Lost? && URef(v) !in c.own
    && s.own[t] == c.own + (if p == DpFree || p == DpDone then multiset{} else multiset{URef(v)}) +
                   (if d.Lost? then multiset{URef(d.ov)} else multiset{})
    && (if d.Lost? then LMode(s, t, c.l) == Exclusive && Alias4(s, c, d.ov) && !c.excl
        else LMode(s, t, c.l) == Unheld && d.err == EBUSY)
    && (a.data <==> p == DpLock || p == DpSwitch) && (a.data ==> !a.noUnlock)
    && (p == DpVgone ==> a.dead) && (p == DpPut || p == DpFree ==> a.doomed)
    && (p == DpLock ==> PMode(s, t, v) == Unheld)
    && (p == DpSwitch || p == DpVgone || p == DpPut ==> PMode(s, t, v) == Exclusive)
  }

  // ----- Other threads leave it alone -----

  lemma Alias4Kept(s: Sh, s': Sh, u: nat, t: nat, c: Call, v: nat)
    requires Wf(s) && u < |s.own| && Guar(s, s', u) && t != u && v < |s.alias| && c.l < |s.lower|
    requires Alias4(s, c, v) && LMode(s, t, c.l) != Unheld
    ensures Alias4(s', c, v)
  {
    LiveKept(s, s', u, t, v);
  }

  lemma DpKept(s: Sh, s': Sh, u: nat, t: nat, c: Call, v: nat, d: Cause, p: DpPc)
    requires Inv(s) && u < |s.own| && Guar(s, s', u) && t < |s.own| && t != u
    requires c.l < |s.lower| && v < |s.alias| && (d.Lost? ==> d.ov < |s.alias|)
    requires DpInv(s, t, c, v, d, p) && p != DpDone
    ensures DpInv(s', t, c, v, d, p)
  {
    assert AliasInv(s, v);
    WorkKept(s, s', u, t, v);
    assert LMode(s', t, c.l) == LMode(s, t, c.l);
    assert PMode(s', t, v) == PMode(s, t, v);
    if d.Lost? { Alias4Kept(s, s', u, t, c, d.ov); }
  }

  /** The private lock of a prototype is granted at once: nobody else ever has it. */
  lemma DestroyNeverSleeps(s: Sh, t: nat, c: Call, v: nat, d: Cause, p: DpPc)
    requires Inv(s) && t < |s.own| && c.l < |s.lower| && v < |s.alias| && (d.Lost? ==> d.ov < |s.alias|)
    requires DpInv(s, t, c, v, d, p) && p != DpDone
    ensures DpCan(s, t, v, p)
  {
    assert AliasInv(s, v);
  }

  // ----- Its own sections -----

  /** The locks and live aliases a call does not name stay as they are. */
  ghost predicate Foot(s: Sh, s': Sh, t: nat, l: nat)
    requires Wf(s) && Wf(s') && |s'.lower| == |s.lower| && |s.alias| <= |s'.alias|
  {
    && (forall m :: 0 <= m < |s.lower| && m != l ==> LMode(s', t, m) == LMode(s, t, m))
    && (forall v :: 0 <= v < |s.alias| && Live(s, v) && s.alias[v].lower != l ==>
          SameCore(s, s', v) && s'.alias[v].plk == s.alias[v].plk)
  }

  /** A section that changed no alias but `v` keeps the footprint of a call on its lower vnode. */
  lemma FootOfAlias(s: Sh, s': Sh, t: nat, v: nat, l: nat)
    requires Wf(s) && Wf(s') && OnlyAlias(s, s', t, v)
    requires s.alias[v].lower == l || (SameCore(s, s', v) && s'.alias[v].plk == s.alias[v].plk)
    ensures Foot(s, s', t, l)
  {
  }

  /** A section that changed alias `v` only left the other live aliases as they were. */
  lemma WinnerStays(s: Sh, s': Sh, t: nat, c: Call, v: nat, ov: nat)
    requires Wf(s) && Wf(s') && OnlyAlias(s, s', t, v) && ov < |s.alias| && ov != v && Alias4(s, c, ov)
    ensures Alias4(s', c, ov)
  {
  }

  ghost predicate DpGood(s: Sh, t: nat, c: Call, v: nat, d: Cause, o: Out<DpPc>)
    requires Wf(s) && t < |s.own| && c.l < |s.lower| && v < |s.alias| && (d.Lost? ==> d.ov < |s.alias|)
  {
    o.Ok? && Inv(o.sh) && Guar(s, o.sh, t) && DpInv(o.sh, t, c, v, d, o.pc) && Foot(s, o.sh, t, c.l)
  }

  /** Before a section. */
  ghost predicate DpBefore(s: Sh, t: nat, c: Call, v: nat, d: Cause, p: DpPc) {
    && Inv(s) && t < |s.own| && c.l < |s.lower| && v < |s.alias| && (d.Lost? ==> d.ov < |s.alias|)
    && DpInv(s, t, c, v, d, p) && DpCan(s, t, v, p)
  }

  /** A section that changed alias `v` only, and kept the invariant. */
  ghost predicate DpKeeps(s: Sh, t: nat, v: nat, o: Out<DpPc>)
    requires Wf(s) && t < |s.own|
  {
    o.Ok? && Inv(o.sh) && Guar(s, o.sh, t) && OnlyAlias(s, o.sh, t, v)
  }

  /** It leaves the winner and the footprint as they are. */
  lemma DpEnds(s: Sh, t: nat, c: Call, v: nat, d: Cause, p: DpPc)
    requires DpBefore(s, t, c, v, d, p) && DpKeeps(s, t, v, DpStep(s, t, v, p))
    ensures Foot(s, DpStep(s, t, v, p).sh, t, c.l)
    ensures d.Lost? ==> Alias4(DpStep(s, t, v, p).sh, c, d.ov)
  {
    assert AliasInv(s, v);
    var o := DpStep(s, t, v, p);
    FootOfAlias(s, o.sh, t, v, c.l);
    if d.Lost? { WinnerStays(s, o.sh, t, c, v, d.ov); }
  }

  lemma DpStepLock(s: Sh, t: nat, c: Call, v: nat, d: Cause)
    requires DpBefore(s, t, c, v, d, DpLock)
    ensures DpGood(s, t, c, v, d, DpStep(s, t, v, DpLock))
  {
    assert AliasInv(s, v);
    PrivateLockStep(s, t, v);
    DpEnds(s, t, c, v, d, DpLock);
  }

  lemma DpStepSwitch(s: Sh, t: nat, c: Call, v: nat, d: Cause)
    requires DpBefore(s, t, c, v, d, DpSwitch)
    ensures DpGood(s, t, c, v, d, DpStep(s, t, v, DpSwitch))
  {
    assert AliasInv(s, v);
    OneAlias(s, DoSwitch(s, v).sh, t, v);
    DpEnds(s, t, c, v, d, DpSwitch);
  }

  lemma DpStepVgone(s: Sh, t: nat, c: Call, v: nat, d: Cause)
    requires DpBefore(s, t, c, v, d, DpVgone)
    ensures DpGood(s, t, c, v, d, DpStep(s, t, v, DpVgone))
  {
    assert AliasInv(s, v);
    OneAlias(s, DoVgone(s, v).sh, t, v);
    DpEnds(s, t, c, v, d, DpVgone);
  }

  lemma DpStepPut(s: Sh, t: nat, c: Call, v: nat, d: Cause)
    requires DpBefore(s, t, c, v, d, DpPut)
    ensures DpGood(s, t, c, v, d, DpStep(s, t, v, DpPut))
  {
    assert AliasInv(s, v);
    VputOwnStep(s, t, v, DpFree);
    DpEnds(s, t, c, v, d, DpPut);
  }

  lemma DpStepFree(s: Sh, t: nat, c: Call, v: nat, d: Cause)
    requires DpBefore(s, t, c, v, d, DpFree)
    ensures DpGood(s, t, c, v, d, DpStep(s, t, v, DpFree))
  {
    assert AliasInv(s, v);
    OneAlias(s, DoFree(s, t, v).sh, t, v);
    DpEnds(s, t, c, v, d, DpFree);
  }

  /** Every section of tpt_destroy_proto. */
  lemma DpStepGood(s: Sh, t: nat, c: Call, v: nat, d: Cause, p: DpPc)
    requires DpBefore(s, t, c, v, d, p)
    ensures DpGood(s, t, c, v, d, DpStep(s, t, v, p))
  {
    match p
    case DpLock => DpStepLock(s, t, c, v, d);
    case DpSwitch => DpStepSwitch(s, t, c, v, d);
    case DpVgone => DpStepVgone(s, t, c, v, d);
    case DpPut => DpStepPut(s, t, c, v, d);
    case DpFree => DpStepFree(s, t, c, v, d);
  }
}
