/** What follows when the last use reference of an alias is released: the alias is locked
    without sleeping and, if tpt_inactive (tptfs/tpt_vnops.c:767-811) says so, recycled. */
module Inactive {
  import opened Options
  import opened Kernel
  import opened Invariant
  import opened Guarantee
  import opened Primitives
  import opened Reclaim
  import opened Locking
  import opened Notify

  /** The release of alias `v` over lower vnode `l`; `keep` when the thread had the lock of
      the alias already, `own` what it owns. */
  datatype InCall = InCall(v: nat, l: nat, keep: bool, own: multiset<Res>)

  datatype InPc =
    | InLock(lk: LkPc)
    | InCheck
    | InVgone(vg: VgPc)
    | InUnlock
    | InDone

  function InLockCall(c: InCall): LockCall {
    LockCall(c.v, ReqExclusive, c.own, true)
  }

  function InGoner(c: InCall): Goner {
    Goner(c.v, c.l, false, true, c.own)
  }

  function AfterTry(lk: LkPc): InPc {
    if !lk.LkDone? then InLock(lk) else if lk.err == 0 then InCheck else InDone
  }

  ghost predicate InOk(s: Sh, c: InCall, p: InPc) {
    && c.v < |s.alias| && c.l < |s.lower|
    && match p
       case InLock(lk) => LkOk(s, InLockCall(c), lk) && !lk.LkDone?
       case InVgone(vg) => vg != VgDone
       case _ => true
  }

  ghost predicate InCan(s: Sh, t: nat, c: InCall, p: InPc, fails: bool)
    requires Wf(s) && InOk(s, c, p)
  {
    match p
    case InLock(lk) => LkCan(s, t, InLockCall(c), lk, fails)
    case InVgone(vg) => !fails && VgCan(s, t, InGoner(c), vg)
    case InDone => false
    case _ => !fails
  }

  ghost function InStep(s: Sh, t: nat, c: InCall, p: InPc, fails: bool): Out<InPc>
    requires Wf(s) && t < |s.own| && InOk(s, c, p) && InCan(s, t, c, p, fails)
  {
    match p
    case InLock(lk) =>
      (match LkStep(s, t, InLockCall(c), lk, fails)
       case Panic(why) => Panic(why)
       case Ok(s1, lk1) =>
         Ok(s1, AfterTry(lk1)))
    case InCheck => DoInactive(s, t, c.v, if c.keep then InDone else InUnlock, InVgone(RcHashrem))
    case InVgone(vg) =>
      (match VgStep(s, t, InGoner(c), vg)
       case Panic(why) => Panic(why)
       case Ok(s1, vg1) =>
         Ok(s1, if vg1 != VgDone then InVgone(vg1) else if c.keep then InDone else InUnlock))
    case InUnlock => UnlockNamed(s, t, c.v, InDone)
  }

  ghost predicate InInv(s: Sh, t: nat, c: InCall, p: InPc)
    requires Wf(s) && t < |s.own| && InOk(s, c, p)
  {
    s.alias[c.v].onMount && s.alias[c.v].lower == c.l &&
    match p
    case InLock(lk) => !c.keep && LkInv(s, t, InLockCall(c), lk)
    case InCheck => s.busy[t] == None && s.own[t] == c.own && HasLock(s, t, c.v, Exclusive)
    case InVgone(vg) => VgInv(s, t, InGoner(c), vg)
    case InUnlock => !c.keep && s.busy[t] == None && s.own[t] == c.own && HasLock(s, t, c.v, Exclusive)
    case InDone =>
      s.busy[t] == None && s.own[t] == c.own &&
      (if c.keep then HasLock(s, t, c.v, Exclusive) else BothFree(s, t, c.v))
  }

  lemma InKept(s: Sh, s': Sh, u: nat, t: nat, c: InCall, p: InPc)
    requires Inv(s) && u < |s.own| && Guar(s, s', u) && t < |s.own| && t != u
    requires InOk(s, c, p) && InInv(s, t, c, p)
    ensures InOk(s', c, p) && InInv(s', t, c, p)
  {
    assert Onward(s, s', c.v);
    match p
    case InLock(lk) => LkKept(s, s', u, t, InLockCall(c), lk);
    case InCheck => HasLockKept(s, s', u, t, c.v, Exclusive);
    case InVgone(vg) => VgKept(s, s', u, t, InGoner(c), vg);
    case InUnlock => HasLockKept(s, s', u, t, c.v, Exclusive);
    case InDone =>
      assert LMode(s', t, c.l) == LMode(s, t, c.l) && PMode(s', t, c.v) == PMode(s, t, c.v);
      if c.keep { HasLockKept(s, s', u, t, c.v, Exclusive); }
  }

  ghost predicate InGood(s: Sh, t: nat, c: InCall, o: Out<InPc>)
    requires Wf(s) && t < |s.own|
  {
    o.Ok? && Inv(o.sh) && Guar(s, o.sh, t) && InOk(o.sh, c, o.pc) && InInv(o.sh, t, c, o.pc)
  }

  ghost predicate InBefore(s: Sh, t: nat, c: InCall, p: InPc, fails: bool) {
    Inv(s) && t < |s.own| && InOk(s, c, p) && InInv(s, t, c, p) && InCan(s, t, c, p, fails)
  }

  lemma InLockEnd(s: Sh, t: nat, c: InCall, lk: LkPc)
    requires Inv(s) && t < |s.own| && c.v < |s.alias| && c.l < |s.lower| && s.alias[c.v].lower == c.l && !c.keep
    requires LkOk(s, InLockCall(c), lk) && LkInv(s, t, InLockCall(c), lk)
    ensures InOk(s, c, AfterTry(lk)) && InInv(s, t, c, AfterTry(lk))
  {
  }

  lemma InLockStep(s: Sh, t: nat, c: InCall, lk: LkPc, fails: bool)
    requires InBefore(s, t, c, InLock(lk), fails)
    ensures InGood(s, t, c, InStep(s, t, c, InLock(lk), fails))
  {
    LkStepGood(s, t, InLockCall(c), lk, fails);
    var o := LkStep(s, t, InLockCall(c), lk, fails);
    assert Onward(s, o.sh, c.v);
    InLockEnd(o.sh, t, c, o.pc);
  }

  lemma InCheckStep(s: Sh, t: nat, c: InCall)
    requires InBefore(s, t, c, InCheck, false)
    ensures InGood(s, t, c, InStep(s, t, c, InCheck, false))
  {
    var a := s.alias[c.v];
    assert AliasInv(s, c.v);
    OwnedAlias(s, t, c.v);
    if !(a.use > 0 || a.doomed || a.dead) {
      HeldIsLive(s, t, c.v);
      if WantRecycle(s, c.v) { DoomStep(s, t, c.v); }
    }
  }

  lemma InVgoneStep(s: Sh, t: nat, c: InCall, vg: VgPc)
    requires InBefore(s, t, c, InVgone(vg), false)
    ensures InGood(s, t, c, InStep(s, t, c, InVgone(vg), false))
  {
    VgStepGood(s, t, InGoner(c), vg);
    var o := VgStep(s, t, InGoner(c), vg);
    if o.pc == VgDone { assert AliasInv(o.sh, c.v); }
  }

  lemma InUnlockStep(s: Sh, t: nat, c: InCall)
    requires InBefore(s, t, c, InUnlock, false)
    ensures InGood(s, t, c, InStep(s, t, c, InUnlock, false))
  {
    assert AliasInv(s, c.v);
    if s.alias[c.v].data { UnlockLStep(s, t, c.l, InDone); } else { UnlockOwnStep(s, t, c.v, InDone); }
  }

  /** Every section of a last release. */
  lemma InStepGood(s: Sh, t: nat, c: InCall, p: InPc, fails: bool)
    requires InBefore(s, t, c, p, fails)
    ensures InGood(s, t, c, InStep(s, t, c, p, fails))
  {
    match p
    case InLock(lk) => InLockStep(s, t, c, lk, fails);
    case InCheck => InCheckStep(s, t, c);
    case InVgone(vg) => InVgoneStep(s, t, c, vg);
    case InUnlock => InUnlockStep(s, t, c);
  }
}
