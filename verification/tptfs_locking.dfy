/** tpt_lock and tpt_unlock, tptfs/tpt_vnops.c:669-760, one atomic section at a time, and what
    the thread holds before each of them. */
module Locking {
  import opened Options
  import opened Kernel
  import opened Invariant
  import opened Guarantee
  import opened Primitives

  datatype Req = ReqShared | ReqExclusive | ReqUpgrade | ReqDowngrade | ReqTryUpgrade

  /** The mode a request ends in. */
  function Want(r: Req): Mode {
    if r == ReqShared || r == ReqDowngrade then Shared else Exclusive
  }

  /** The mode in which the caller has the lock. */
  function Had(r: Req): Mode {
    match r
    case ReqUpgrade => Shared
    case ReqTryUpgrade => Shared
    case ReqDowngrade => Exclusive
    case _ => Unheld
  }

  /** Requests that keep the lock all the time, granted or refused. tpt_lock could not repeat them on
      the private lock of an alias that was reclaimed. */
  predicate Keeps(r: Req) {
    r == ReqDowngrade || r == ReqTryUpgrade
  }

  /** A request on alias `v`: what the thread owned at the call, and whether the lower lock
      may be refused instead of slept for. */
  datatype LockCall = LockCall(v: nat, req: Req, own: multiset<Res>, nowait: bool)

  // ----- tpt_lock -----

  datatype LkPc =
    | LkEnter
    | LkUpgrade(l: nat)
    | LkKeep(l: nat)
    | LkWait(l: nat)
    | LkCheck(l: nat)
    | LkRedo(l: nat)
    | LkStd
    | LkStdWait(held: Option<nat>)
    | LkDrop(l: nat, err: int)
    | LkDone(err: int)

  function AfterHold(r: Req, l: nat): LkPc {
    if Keeps(r) then LkKeep(l) else if r == ReqUpgrade then LkUpgrade(l) else LkWait(l)
  }

  /** The interlock section at the head: is there still a lower vnode to lock? */
  function DoEnter(s: Sh, t: nat, c: LockCall): Out<LkPc>
    requires t < |s.own| && c.v < |s.alias| && s.alias[c.v].lower < |s.lower|
  {
    var l := s.alias[c.v].lower;
    if !s.alias[c.v].data then Ok(s, LkStd)
    else VholdL(s, t, l, AfterHold(c.req, l))
  }

  /** LK_UPGRADE on the lower lock: in place for the only sharer, otherwise the share goes. */
  function DoUpgrade(s: Sh, t: nat, l: nat): Out<LkPc>
    requires l < |s.lower|
  {
    if s.lower[l].freed then Panic(FreedLower)
    else if s.lower[l].lk == SharedBy({t}) then Ok(PutL(s, l, s.lower[l].(lk := ExclBy(t))), LkCheck(l))
    else UnlockL(s, t, l, LkWait(l))
  }

  /** LK_DOWNGRADE and LK_TRYUPGRADE on the lower lock. The latter is refused while there are other
      sharers. */
  function DoKeep(s: Sh, t: nat, c: LockCall, l: nat): Out<LkPc>
    requires l < |s.lower|
  {
    var x := s.lower[l];
    if x.freed then Panic(FreedLower)
    else if ModeOf(x.lk, t) != Had(c.req) then Panic(LockNotHeld)
    else if c.req == ReqDowngrade then Ok(PutL(s, l, x.(lk := SharedBy({t}))), LkCheck(l))
    else if x.lk == SharedBy({t}) then Ok(PutL(s, l, x.(lk := ExclBy(t))), LkCheck(l))
    else Ok(s, LkDrop(l, EBUSY))
  }

  /** The test for an alias that was reclaimed while the request slept, and the switch behind it. */
  function DoCheck(s: Sh, c: LockCall, l: nat): Out<LkPc>
    requires c.v < |s.alias|
  {
    if s.alias[c.v].data then Ok(s, LkDrop(l, 0))
    else if Keeps(c.req) then Panic(BadRequest)
    else Ok(s, LkRedo(l))
  }

  /** The same two on the private lock. */
  function DoKeepOwn(s: Sh, t: nat, c: LockCall): Out<LkPc>
    requires c.v < |s.alias|
  {
    var a := s.alias[c.v];
    if ModeOf(a.plk, t) != Had(c.req) then Panic(LockNotHeld)
    else if c.req == ReqDowngrade then Ok(PutA(s, c.v, a.(plk := SharedBy({t}))), LkDone(0))
    else if a.plk == SharedBy({t}) then Ok(PrivateLock(s, t, c.v), LkDone(0))
    else Ok(s, LkDone(EBUSY))
  }

  /** vop_stdlock without a lower vnode; an upgrade may give its share up first. */
  function DoStd(s: Sh, t: nat, c: LockCall): Out<LkPc>
    requires c.v < |s.alias| && s.alias[c.v].lower < |s.lower|
  {
    if Keeps(c.req) then DoKeepOwn(s, t, c)
    else if c.req != ReqUpgrade then Ok(s, LkStdWait(None))
    else if s.alias[c.v].vnlk == Own && s.alias[c.v].plk == SharedBy({t}) then
      Ok(PrivateLock(s, t, c.v), LkDone(0))
    else UnlockNamed(s, t, c.v, LkStdWait(None))
  }

  function AfterStd(held: Option<nat>, err: int): LkPc {
    if held.Some? then LkDrop(held.value, err) else LkDone(err)
  }

  ghost predicate LkOk(s: Sh, c: LockCall, p: LkPc) {
    && c.v < |s.alias|
    && match p
       case LkUpgrade(l) => l < |s.lower|
       case LkKeep(l) => l < |s.lower|
       case LkWait(l) => l < |s.lower|
       case LkCheck(l) => l < |s.lower|
       case LkRedo(l) => l < |s.lower|
       case LkStdWait(held) => held.Some? ==> held.value < |s.lower|
       case LkDrop(l, _) => l < |s.lower|
       case _ => true
  }

  ghost predicate LkCan(s: Sh, t: nat, c: LockCall, p: LkPc, fails: bool)
    requires Wf(s) && LkOk(s, c, p)
  {
    match p
    case LkWait(l) => if fails then c.nowait else Grantable(s.lower[l].lk, t, Want(c.req))
    case LkStdWait(_) => if fails then c.nowait else Grantable(Named(s, c.v), t, Want(c.req))
    case LkDone(_) => false
    case _ => !fails
  }

  ghost function LkStep(s: Sh, t: nat, c: LockCall, p: LkPc, fails: bool): Out<LkPc>
    requires Wf(s) && t < |s.own| && LkOk(s, c, p) && LkCan(s, t, c, p, fails)
  {
    match p
    case LkEnter => DoEnter(s, t, c)
    case LkUpgrade(l) => DoUpgrade(s, t, l)
    case LkKeep(l) => DoKeep(s, t, c, l)
    case LkWait(l) => if fails then Ok(s, LkDrop(l, EBUSY)) else LockL(s, t, l, Want(c.req), LkCheck(l))
    case LkCheck(l) => DoCheck(s, c, l)
    case LkRedo(l) => UnlockL(s, t, l, LkStdWait(Some(l)))
    case LkStd => DoStd(s, t, c)
    case LkStdWait(held) =>
      if fails then Ok(s, AfterStd(held, EBUSY)) else LockNamed(s, t, c.v, Want(c.req), AfterStd(held, 0))
    case LkDrop(l, err) => VdropL(s, t, l, LkDone(err))
  }

  // ----- What the thread holds -----

  /** The thread holds exactly the lock v_vnlock of `v` names, in mode `m`. */
  ghost predicate HasLock(s: Sh, t: nat, v: nat, m: Mode)
    requires Wf(s) && v < |s.alias|
  {
    if s.alias[v].vnlk == Own then PMode(s, t, v) == m && LMode(s, t, s.alias[v].lower) == Unheld
    else LMode(s, t, s.alias[v].lower) == m && PMode(s, t, v) == Unheld
  }

  ghost predicate BothFree(s: Sh, t: nat, v: nat)
    requires Wf(s) && v < |s.alias|
  {
    LMode(s, t, s.alias[v].lower) == Unheld && PMode(s, t, v) == Unheld
  }

  /** What tpt_lock leaves: on success exactly the lock v_vnlock names now, in the mode asked;
      an upgrade gives exclusive. On failure neither lock, but the share it had when an upgrade
      was only tried. */
  ghost predicate Outcome(s: Sh, t: nat, c: LockCall, err: int)
    requires Wf(s) && c.v < |s.alias|
  {
    if err == 0 then HasLock(s, t, c.v, Want(c.req))
    else if c.req == ReqTryUpgrade then HasLock(s, t, c.v, Shared)
    else BothFree(s, t, c.v) && c.nowait
  }

  ghost predicate LkInv(s: Sh, t: nat, c: LockCall, p: LkPc)
    requires Wf(s) && t < |s.own| && LkOk(s, c, p)
  {
    var a := s.alias[c.v];
    s.busy[t] == None && a.onMount &&
    match p
    case LkEnter => s.own[t] == c.own && HasLock(s, t, c.v, Had(c.req))
    case LkUpgrade(l) =>
      s.own[t] == c.own + multiset{Hold(l)} && l == a.lower && c.req == ReqUpgrade && a.data &&
      LMode(s, t, l) == Shared && PMode(s, t, c.v) == Unheld
    case LkKeep(l) =>
      s.own[t] == c.own + multiset{Hold(l)} && l == a.lower && Keeps(c.req) && a.data &&
      LMode(s, t, l) == Had(c.req) && PMode(s, t, c.v) == Unheld
    case LkWait(l) =>
      s.own[t] == c.own + multiset{Hold(l)} && l == a.lower && BothFree(s, t, c.v) && !Keeps(c.req)
    case LkCheck(l) =>
      s.own[t] == c.own + multiset{Hold(l)} && l == a.lower && LMode(s, t, l) == Want(c.req) &&
      PMode(s, t, c.v) == Unheld && (Keeps(c.req) ==> a.data)
    case LkRedo(l) =>
      s.own[t] == c.own + multiset{Hold(l)} && l == a.lower && LMode(s, t, l) == Want(c.req) &&
      PMode(s, t, c.v) == Unheld && !a.data && !Keeps(c.req)
    case LkStd => s.own[t] == c.own && !a.data && HasLock(s, t, c.v, Had(c.req))
    case LkStdWait(held) =>
      s.own[t] == c.own + (if held.Some? then multiset{Hold(held.value)} else multiset{}) && !a.data &&
      BothFree(s, t, c.v) && !Keeps(c.req)
    case LkDrop(l, err) => s.own[t] == c.own + multiset{Hold(l)} && Outcome(s, t, c, err)
    case LkDone(err) => s.own[t] == c.own && Outcome(s, t, c, err)
  }

  // ----- Other threads leave it alone -----

  lemma HasLockKept(s: Sh, s': Sh, u: nat, t: nat, v: nat, m: Mode)
    requires Inv(s) && u < |s.own| && Guar(s, s', u) && t < |s.own| && t != u && v < |s.alias|
    requires s.alias[v].onMount && HasLock(s, t, v, m)
    ensures HasLock(s', t, v, m)
  {
    assert AliasInv(s, v);
    assert Onward(s, s', v);
    assert LMode(s', t, s.alias[v].lower) == LMode(s, t, s.alias[v].lower);
    assert PMode(s', t, v) == PMode(s, t, v);
    if m != Unheld { NamedKept(s, s', u, t, v); }
  }

  lemma OutcomeKept(s: Sh, s': Sh, u: nat, t: nat, c: LockCall, err: int)
    requires Inv(s) && u < |s.own| && Guar(s, s', u) && t < |s.own| && t != u && c.v < |s.alias|
    requires s.alias[c.v].onMount && Outcome(s, t, c, err)
    ensures Outcome(s', t, c, err)
  {
    assert Onward(s, s', c.v);
    assert LMode(s', t, s.alias[c.v].lower) == LMode(s, t, s.alias[c.v].lower);
    assert PMode(s', t, c.v) == PMode(s, t, c.v);
    if err == 0 {
      HasLockKept(s, s', u, t, c.v, Want(c.req));
    } else if c.req == ReqTryUpgrade {
      HasLockKept(s, s', u, t, c.v, Shared);
    }
  }

  lemma LkKept(s: Sh, s': Sh, u: nat, t: nat, c: LockCall, p: LkPc)
    requires Inv(s) && u < |s.own| && Guar(s, s', u) && t < |s.own| && t != u
    requires LkOk(s, c, p) && LkInv(s, t, c, p)
    ensures LkOk(s', c, p) && LkInv(s', t, c, p)
  {
    assert Onward(s, s', c.v);
    assert LMode(s', t, s.alias[c.v].lower) == LMode(s, t, s.alias[c.v].lower);
    assert PMode(s', t, c.v) == PMode(s, t, c.v);
    match p
    case LkEnter => HasLockKept(s, s', u, t, c.v, Had(c.req));
    case LkUpgrade(l) =>
      assert AliasInv(s, c.v);
      NamedKept(s, s', u, t, c.v);
    case LkStd => HasLockKept(s, s', u, t, c.v, Had(c.req));
    case LkKeep(l) =>
      assert AliasInv(s, c.v);
      NamedKept(s, s', u, t, c.v);
    case LkCheck(l) =>
      assert AliasInv(s, c.v);
      if Keeps(c.req) { NamedKept(s, s', u, t, c.v); }
    case LkDrop(l, err) => OutcomeKept(s, s', u, t, c, err);
    case LkDone(err) => OutcomeKept(s, s', u, t, c, err);
    case _ =>
  }

  // ----- Its own sections -----

  ghost predicate LkGood(s: Sh, t: nat, c: LockCall, o: Out<LkPc>)
    requires Wf(s) && t < |s.own|
  {
    o.Ok? && Inv(o.sh) && Guar(s, o.sh, t) && LkOk(o.sh, c, o.pc) && LkInv(o.sh, t, c, o.pc)
  }

  ghost predicate LkBefore(s: Sh, t: nat, c: LockCall, p: LkPc, fails: bool) {
    Inv(s) && t < |s.own| && LkOk(s, c, p) && LkInv(s, t, c, p) && LkCan(s, t, c, p, fails)
  }

  lemma LkEnterStep(s: Sh, t: nat, c: LockCall)
    requires LkBefore(s, t, c, LkEnter, false)
    ensures LkGood(s, t, c, DoEnter(s, t, c))
  {
    var l := s.alias[c.v].lower;
    assert AliasInv(s, c.v);
    if s.alias[c.v].data {
      LowerInUse(s, c.v);
      VholdLStep(s, t, l, AfterHold(c.req, l));
    }
  }

  lemma LkUpgradeStep(s: Sh, t: nat, c: LockCall, l: nat)
    requires LkBefore(s, t, c, LkUpgrade(l), false)
    ensures LkGood(s, t, c, DoUpgrade(s, t, l))
  {
    OwnedInUse(s, t, l);
    assert AliasInv(s, c.v);
    if s.lower[l].lk == SharedBy({t}) { UpgradeStep(s, t, l); } else { UnlockLStep(s, t, l, LkWait(l)); }
  }

  lemma LkKeepStep(s: Sh, t: nat, c: LockCall, l: nat)
    requires LkBefore(s, t, c, LkKeep(l), false)
    ensures LkGood(s, t, c, DoKeep(s, t, c, l))
  {
    OwnedInUse(s, t, l);
    assert AliasInv(s, c.v);
    if c.req == ReqDowngrade {
      DowngradeStep(s, t, l);
    } else if s.lower[l].lk == SharedBy({t}) {
      UpgradeStep(s, t, l);
    }
  }

  lemma LkWaitStep(s: Sh, t: nat, c: LockCall, l: nat, fails: bool)
    requires LkBefore(s, t, c, LkWait(l), fails)
    ensures LkGood(s, t, c, LkStep(s, t, c, LkWait(l), fails))
  {
    if !fails { LockLStep(s, t, l, Want(c.req), LkCheck(l)); }
  }

  lemma LkCheckStep(s: Sh, t: nat, c: LockCall, l: nat)
    requires LkBefore(s, t, c, LkCheck(l), false)
    ensures LkGood(s, t, c, DoCheck(s, c, l))
  {
    assert AliasInv(s, c.v);
  }

  lemma LkRedoStep(s: Sh, t: nat, c: LockCall, l: nat)
    requires LkBefore(s, t, c, LkRedo(l), false)
    ensures LkGood(s, t, c, LkStep(s, t, c, LkRedo(l), false))
  {
    UnlockLStep(s, t, l, LkStdWait(Some(l)));
  }

  lemma LkStdStep(s: Sh, t: nat, c: LockCall)
    requires LkBefore(s, t, c, LkStd, false)
    ensures LkGood(s, t, c, DoStd(s, t, c))
  {
    assert AliasInv(s, c.v);
    if Keeps(c.req) {
      LkKeepOwnStep(s, t, c);
    } else if c.req == ReqUpgrade {
      if s.alias[c.v].plk == SharedBy({t}) {
        UpgradeOwnStep(s, t, c.v);
      } else {
        UnlockOwnStep(s, t, c.v, LkStdWait(None));
      }
    }
  }

  lemma LkKeepOwnStep(s: Sh, t: nat, c: LockCall)
    requires LkBefore(s, t, c, LkStd, false) && Keeps(c.req)
    ensures LkGood(s, t, c, DoKeepOwn(s, t, c))
  {
    assert AliasInv(s, c.v);
    if c.req == ReqDowngrade {
      DowngradeOwnStep(s, t, c.v);
    } else if s.alias[c.v].plk == SharedBy({t}) {
      UpgradeOwnStep(s, t, c.v);
    }
  }

  lemma LkStdWaitStep(s: Sh, t: nat, c: LockCall, held: Option<nat>, fails: bool)
    requires LkBefore(s, t, c, LkStdWait(held), fails)
    ensures LkGood(s, t, c, LkStep(s, t, c, LkStdWait(held), fails))
  {
    assert AliasInv(s, c.v);
    if !fails { LockOwnStep(s, t, c.v, Want(c.req), AfterStd(held, 0)); }
  }

  lemma LkDropStep(s: Sh, t: nat, c: LockCall, l: nat, err: int)
    requires LkBefore(s, t, c, LkDrop(l, err), false)
    ensures LkGood(s, t, c, LkStep(s, t, c, LkDrop(l, err), false))
  {
    VdropLStep(s, t, l, LkDone(err));
  }

  /** Every section of tpt_lock. */
  lemma LkStepGood(s: Sh, t: nat, c: LockCall, p: LkPc, fails: bool)
    requires LkBefore(s, t, c, p, fails)
    ensures LkGood(s, t, c, LkStep(s, t, c, p, fails))
  {
    match p
    case LkEnter => LkEnterStep(s, t, c);
    case LkUpgrade(l) => LkUpgradeStep(s, t, c, l);
    case LkKeep(l) => LkKeepStep(s, t, c, l);
    case LkWait(l) => LkWaitStep(s, t, c, l, fails);
    case LkCheck(l) => LkCheckStep(s, t, c, l);
    case LkRedo(l) => LkRedoStep(s, t, c, l);
    case LkStd => LkStdStep(s, t, c);
    case LkStdWait(held) => LkStdWaitStep(s, t, c, held, fails);
    case LkDrop(l, err) => LkDropStep(s, t, c, l, err);
  }

  // ----- tpt_unlock -----

  /** An unlock of alias `v`: the lock v_vnlock named at the call, and what the thread owned. */
  datatype UnlockCall = UnlockCall(v: nat, named: VnLock, own: multiset<Res>)

  datatype UnPc =
    | UnEnter
    | UnRelease(l: nat)
    | UnDrop(l: nat)
    | UnDone

  function DoUnEnter(s: Sh, t: nat, c: UnlockCall): Out<UnPc>
    requires t < |s.own| && c.v < |s.alias| && s.alias[c.v].lower < |s.lower|
  {
    var l := s.alias[c.v].lower;
    if s.alias[c.v].data then VholdL(s, t, l, UnRelease(l)) else UnlockNamed(s, t, c.v, UnDone)
  }

  ghost predicate UnOk(s: Sh, c: UnlockCall, p: UnPc) {
    && c.v < |s.alias|
    && match p
       case UnRelease(l) => l < |s.lower|
       case UnDrop(l) => l < |s.lower|
       case _ => true
  }

  ghost function UnStep(s: Sh, t: nat, c: UnlockCall, p: UnPc): Out<UnPc>
    requires Wf(s) && t < |s.own| && UnOk(s, c, p) && p != UnDone
  {
    match p
    case UnEnter => DoUnEnter(s, t, c)
    case UnRelease(l) => UnlockL(s, t, l, UnDrop(l))
    case UnDrop(l) => VdropL(s, t, l, UnDone)
  }

  /** Until the release the thread holds the lock that was named at the call, which is still
      the one v_vnlock names; after it neither. */
  ghost predicate UnInv(s: Sh, t: nat, c: UnlockCall, p: UnPc)
    requires Wf(s) && t < |s.own| && UnOk(s, c, p)
  {
    var a := s.alias[c.v];
    s.busy[t] == None && URef(c.v) in c.own && a.onMount &&
    match p
    case UnEnter =>
      s.own[t] == c.own && a.vnlk == c.named &&
      (HasLock(s, t, c.v, Shared) || HasLock(s, t, c.v, Exclusive))
    case UnRelease(l) =>
      s.own[t] == c.own + multiset{Hold(l)} && l == a.lower && c.named == Borrowed &&
      LMode(s, t, l) != Unheld && PMode(s, t, c.v) == Unheld
    case UnDrop(l) => s.own[t] == c.own + multiset{Hold(l)} && l == a.lower && BothFree(s, t, c.v)
    case UnDone => s.own[t] == c.own && BothFree(s, t, c.v)
  }

  lemma UnKept(s: Sh, s': Sh, u: nat, t: nat, c: UnlockCall, p: UnPc)
    requires Inv(s) && u < |s.own| && Guar(s, s', u) && t < |s.own| && t != u
    requires UnOk(s, c, p) && UnInv(s, t, c, p)
    ensures UnOk(s', c, p) && UnInv(s', t, c, p)
  {
    assert Onward(s, s', c.v);
    assert LMode(s', t, s.alias[c.v].lower) == LMode(s, t, s.alias[c.v].lower);
    assert PMode(s', t, c.v) == PMode(s, t, c.v);
    if p == UnEnter {
      NamedKept(s, s', u, t, c.v);
      HasLockKept(s, s', u, t, c.v, if HasLock(s, t, c.v, Shared) then Shared else Exclusive);
    }
  }

  ghost predicate UnGood(s: Sh, t: nat, c: UnlockCall, o: Out<UnPc>)
    requires Wf(s) && t < |s.own|
  {
    o.Ok? && Inv(o.sh) && Guar(s, o.sh, t) && UnOk(o.sh, c, o.pc) && UnInv(o.sh, t, c, o.pc)
  }

  lemma UnEnterStep(s: Sh, t: nat, c: UnlockCall)
    requires Inv(s) && t < |s.own| && UnOk(s, c, UnEnter) && UnInv(s, t, c, UnEnter)
    ensures UnGood(s, t, c, UnStep(s, t, c, UnEnter))
  {
    assert AliasInv(s, c.v);
    if s.alias[c.v].data {
      LowerInUse(s, c.v);
      VholdLStep(s, t, s.alias[c.v].lower, UnRelease(s.alias[c.v].lower));
    } else {
      UnlockOwnStep(s, t, c.v, UnDone);
    }
  }

  lemma UnReleaseStep(s: Sh, t: nat, c: UnlockCall, l: nat)
    requires Inv(s) && t < |s.own| && UnOk(s, c, UnRelease(l)) && UnInv(s, t, c, UnRelease(l))
    ensures UnGood(s, t, c, UnStep(s, t, c, UnRelease(l)))
  {
    UnlockLStep(s, t, l, UnDrop(l));
  }

  lemma UnDropStep(s: Sh, t: nat, c: UnlockCall, l: nat)
    requires Inv(s) && t < |s.own| && UnOk(s, c, UnDrop(l)) && UnInv(s, t, c, UnDrop(l))
    ensures UnGood(s, t, c, UnStep(s, t, c, UnDrop(l)))
  {
    VdropLStep(s, t, l, UnDone);
  }

  /** Every section of tpt_unlock. */
  lemma UnStepGood(s: Sh, t: nat, c: UnlockCall, p: UnPc)
    requires Inv(s) && t < |s.own| && UnOk(s, c, p) && UnInv(s, t, c, p) && p != UnDone
    ensures UnGood(s, t, c, UnStep(s, t, c, p))
  {
    match p
    case UnEnter => UnEnterStep(s, t, c);
    case UnRelease(l) => UnReleaseStep(s, t, c, l);
    case UnDrop(l) => UnDropStep(s, t, c, l);
  }
}
