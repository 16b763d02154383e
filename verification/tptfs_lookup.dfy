/** tpt_lookup, tptfs/tpt_vnops.c:372-448, one atomic section at a time, and what the thread
    holds before each of them. The lookup of the lower filesystem may unlock and relock the
    lower directory any number of times, which lets the directory alias be reclaimed. */
module Lookup {
  import opened Options
  import opened Destroy
  import opened Kernel
  import opened Invariant
  import opened Guarantee
  import opened Primitives
  import opened Nodeget
  import opened Locking

  /** What a component name is looked up for, and whether it is the last of its path. */
  datatype NameOp = OpLookup | OpCreate | OpDelete | OpRename
  datatype Name = Name(last: bool, op: NameOp)

  /** A lookup of `cn` in directory alias `dvp` over `ldvp`, locked in mode `m`: what the thread
      owned at the call, and whether the mount `mp` is read-only when the lower lookup is over. */
  datatype LuCall = LuCall(dvp: nat, ldvp: nat, m: Mode, own: multiset<Res>, mp: nat, cn: Name, ro: bool)

  /** How a lookup ends: with the directory lock kept, with it moved to the private lock of a
      reclaimed directory alias, or with an error of the lower lookup passed up. */
  datatype Exit = Plain | Moved | LowerFailed

  /** A finished lookup: what it returns, how it ended, what the lower lookup came to (its error and
      the vnode it found, once a doomed directory was dealt with), and a lower vnode that is left
      locked and referenced. */
  datatype Ended = Ended(err: int, vp: Option<nat>, x: Exit, low: int, found: Option<nat>, leak: Option<nat>)

  datatype LuPc =
    | LuLower(dropped: bool)
    | LuOut
    | LuCheck(err: int, res: Option<nat>)
    | LuPut(l: nat)
    | LuSwap
    | LuLock(lk: LkPc)
    | LuVdrop(err: int, res: Option<nat>, x: Exit)
    | LuResult(err: int, res: Option<nat>, x: Exit)
    | LuSelf(err: int)
    | LuSelfRele(err: int)
    | LuNode(l: nat, excl: bool, low: int, ng: NgPc)
    | LuDone(e: Ended)

  /** What the lower lookup does next: unlock the directory, lock it again, or return, with
      an extra reference to the directory itself or with another vnode locked in mode `m`. */
  datatype LowerMove = NoMove | LowerUnlocks | LowerReturns(err: int, res: Option<nat>, m: Mode)

  predicate Found(err: int) {
    err == 0 || err == EJUSTRETURN
  }

  function LuLockCall(c: LuCall): LockCall {
    LockCall(c.dvp, ReqExclusive, c.own + multiset{Hold(c.ldvp)}, false)
  }

  function LuNodeCall(c: LuCall, l: nat, excl: bool): Call {
    Call(c.mp, l, excl, c.own)
  }

  function DoReturn(s: Sh, t: nat, c: LuCall, mv: LowerMove): Out<LuPc>
    requires t < |s.own| && c.ldvp < |s.lower| && mv.LowerReturns?
    requires mv.res.Some? ==> mv.res.value < |s.lower|
    requires mv.res.Some? && mv.res.value != c.ldvp ==> Grantable(s.lower[mv.res.value].lk, t, mv.m)
  {
    if mv.res.None? then Ok(s, LuCheck(mv.err, None))
    else
      var l := mv.res.value;
      var x := s.lower[l].(use := s.lower[l].use + 1);
      Ok(Gain(PutL(s, l, if l == c.ldvp then x else x.(lk := Grant(x.lk, t, mv.m))), t, LRef(l)),
         LuCheck(mv.err, mv.res))
  }

  /** The check for a doomed directory alias after a successful lower lookup. */
  function DoLuCheck(s: Sh, c: LuCall, err: int, res: Option<nat>): Out<LuPc>
    requires c.dvp < |s.alias|
  {
    if Found(err) && s.alias[c.dvp].doomed then Ok(s, if res.Some? then LuPut(res.value) else LuSwap)
    else Ok(s, LuVdrop(err, res, if Found(err) then Plain else LowerFailed))
  }

  /** The test for a delete or rename on a read-only mount, before anything else. */
  predicate RefusedAtOnce(cn: Name, ro: bool) {
    cn.last && ro && (cn.op == OpDelete || cn.op == OpRename)
  }

  /** The test for a create or rename on a read-only mount. */
  predicate Refused(c: LuCall, err: int) {
    err == EJUSTRETURN && c.cn.last && c.ro && (c.cn.op == OpCreate || c.cn.op == OpRename)
  }

  function DoLuResult(s: Sh, t: nat, c: LuCall, err: int, res: Option<nat>, x: Exit): Out<LuPc>
    requires res.Some? ==> res.value < |s.lower|
  {
    var err' := if Refused(c, err) then EROFS else err;
    if !Found(err') || res.None? then Ok(s, LuDone(Ended(err', None, x, err, res, res)))
    else if res.value == c.ldvp then Ok(s, LuSelf(err'))
    else Ok(s, LuNode(res.value, ModeOf(s.lower[res.value].lk, t) == Exclusive, err, NgTest))
  }

  function AfterLock(lk: LkPc): LuPc {
    if lk.LkDone? then LuVdrop(ENOENT, None, Moved) else LuLock(lk)
  }

  /** The directory found itself. */
  function SelfEnded(c: LuCall, err: int): Ended {
    Ended(err, Some(c.dvp), Plain, err, Some(c.ldvp), None)
  }

  function AfterNode(l: nat, excl: bool, low: int, ng: NgPc): LuPc {
    if ng.NgDone? then LuDone(Ended(ng.err, if ng.err == 0 then Some(ng.v) else None, Plain, low, Some(l), None))
    else LuNode(l, excl, low, ng)
  }

  ghost predicate EndedOk(s: Sh, e: Ended) {
    && (e.vp.Some? ==> e.vp.value < |s.alias|) && (e.found.Some? ==> e.found.value < |s.lower|)
    && (e.leak.Some? ==> e.leak.value < |s.lower|)
  }

  ghost predicate LuOk(s: Sh, c: LuCall, p: LuPc) {
    && c.dvp < |s.alias| && c.ldvp < |s.lower|
    && match p
       case LuCheck(_, res) => res.Some? ==> res.value < |s.lower|
       case LuPut(l) => l < |s.lower|
       case LuLock(lk) => LkOk(s, LuLockCall(c), lk) && !lk.LkDone?
       case LuVdrop(_, res, _) => res.Some? ==> res.value < |s.lower|
       case LuResult(_, res, _) => res.Some? ==> res.value < |s.lower|
       case LuNode(l, excl, _, ng) => l < |s.lower| && NgOk(s, LuNodeCall(c, l, excl), ng) && !ng.NgDone?
       case LuDone(e) => EndedOk(s, e)
       case _ => true
  }

  ghost predicate LuCan(s: Sh, t: nat, c: LuCall, p: LuPc, fails: bool, mv: LowerMove)
    requires Wf(s) && LuOk(s, c, p)
  {
    match p
    case LuLower(dropped) =>
      !fails && mv != NoMove &&
      (mv.LowerReturns? ==>
         (!Found(mv.err) ==> mv.res.None?) &&
         (mv.res.Some? ==>
            mv.res.value < |s.lower| &&
            // A lookup of "." never drops the lock of the directory.
            if mv.res.value == c.ldvp then !dropped
            else Grantable(s.lower[mv.res.value].lk, t, mv.m) && !s.lower[mv.res.value].freed))
    case LuOut => !fails && Grantable(s.lower[c.ldvp].lk, t, c.m)
    case LuLock(lk) => LkCan(s, t, LuLockCall(c), lk, fails)
    case LuNode(l, excl, _, ng) => NgCan(s, t, LuNodeCall(c, l, excl), ng, fails)
    case LuDone(_) => false
    case _ => !fails
  }

  ghost function LuStep(s: Sh, t: nat, c: LuCall, p: LuPc, fails: bool, mv: LowerMove): Out<LuPc>
    requires Wf(s) && t < |s.own| && LuOk(s, c, p) && LuCan(s, t, c, p, fails, mv)
  {
    match p
    case LuLower(dropped) => if mv == LowerUnlocks then UnlockL(s, t, c.ldvp, LuOut) else DoReturn(s, t, c, mv)
    case LuOut => LockL(s, t, c.ldvp, c.m, LuLower(true))
    case LuCheck(err, res) => DoLuCheck(s, c, err, res)
    case LuPut(l) => VputL(s, t, l, LuSwap)
    case LuSwap => UnlockL(s, t, c.ldvp, LuLock(LkEnter))
    case LuLock(lk) =>
      (match LkStep(s, t, LuLockCall(c), lk, fails)
       case Panic(why) => Panic(why)
       case Ok(s1, lk1) => Ok(s1, AfterLock(lk1)))
    case LuVdrop(err, res, x) => VdropL(s, t, c.ldvp, LuResult(err, res, x))
    case LuResult(err, res, x) => DoLuResult(s, t, c, err, res, x)
    case LuSelf(err) => Ok(VrefA(s, t, c.dvp), LuSelfRele(err))
    case LuSelfRele(err) => VreleL(s, t, c.ldvp, LuDone(SelfEnded(c, err)))
    case LuNode(l, excl, low, ng) =>
      (match NgStep(s, t, LuNodeCall(c, l, excl), ng, fails)
       case Panic(why) => Panic(why)
       case Ok(s1, ng1) => Ok(s1, AfterNode(l, excl, low, ng1)))
  }

  /** The prototype the tpt_nodeget inside is about to insert or to destroy. */
  function LuBuilding(p: LuPc): Option<nat> {
    if p.LuNode? then Building(p.ng) else None
  }

  lemma LuBuildingStep(s: Sh, t: nat, c: LuCall, p: LuPc, fails: bool, mv: LowerMove, v: nat)
    requires Wf(s) && t < |s.own| && LuOk(s, c, p) && LuCan(s, t, c, p, fails, mv)
    requires LuStep(s, t, c, p, fails, mv).Ok? && LuBuilding(LuStep(s, t, c, p, fails, mv).pc) == Some(v)
    ensures LuBuilding(p) == Some(v) || v == |s.alias|
  {
    if p.LuNode? { BuildingStep(s, t, LuNodeCall(c, p.l, p.excl), p.ng, fails, v); }
  }

  // ----- What the thread holds -----

  /** The directory alias, whatever has happened to it. */
  ghost predicate Dir(s: Sh, c: LuCall)
    requires c.dvp < |s.alias|
  {
    var a := s.alias[c.dvp];
    a.onMount && Match(a, c.mp, c.ldvp) && (a.doomed || a.lref) && c.m != Unheld
  }

  /** The lock of the lower directory is held in the mode of the call. */
  ghost predicate DirLocked(s: Sh, t: nat, c: LuCall)
    requires Wf(s) && c.dvp < |s.alias| && c.ldvp < |s.lower|
  {
    LMode(s, t, c.ldvp) == c.m && PMode(s, t, c.dvp) == Unheld
  }

  ghost predicate ResultLocked(s: Sh, t: nat, c: LuCall, res: Option<nat>)
    requires c.ldvp < |s.lower| && (res.Some? ==> res.value < |s.lower|)
  {
    res.Some? && res.value != c.ldvp ==> LMode(s, t, res.value) != Unheld
  }

  function Spare(res: Option<nat>): multiset<Res> {
    if res.Some? then multiset{LRef(res.value)} else multiset{}
  }

  /** The directory lock at an exit. */
  ghost predicate AtExit(s: Sh, t: nat, c: LuCall, err: int, res: Option<nat>, x: Exit)
    requires Wf(s) && t < |s.own| && c.dvp < |s.alias| && c.ldvp < |s.lower|
    requires res.Some? ==> res.value < |s.lower|
  {
    match x
    case Plain => Live(s, c.dvp) && DirLocked(s, t, c) && ResultLocked(s, t, c, res) && Found(err)
    case Moved => HasLock(s, t, c.dvp, Exclusive) && s.alias[c.dvp].doomed && err == ENOENT && res == None
    case LowerFailed => DirLocked(s, t, c) && !Found(err) && res == None
  }

  ghost predicate LuInv(s: Sh, t: nat, c: LuCall, p: LuPc)
    requires Wf(s) && t < |s.own| && LuOk(s, c, p)
  {
    var h := multiset{Hold(c.ldvp)};
    Dir(s, c) &&
    match p
    case LuLower(dropped) =>
      s.busy[t] == None && s.own[t] == c.own + h && DirLocked(s, t, c) && (!dropped ==> Live(s, c.dvp))
    case LuOut =>
      s.busy[t] == None && s.own[t] == c.own + h && LMode(s, t, c.ldvp) == Unheld && PMode(s, t, c.dvp) == Unheld
    case LuCheck(err, res) =>
      s.busy[t] == None && s.own[t] == c.own + h + Spare(res) && DirLocked(s, t, c) &&
      ResultLocked(s, t, c, res) && (res == Some(c.ldvp) ==> Live(s, c.dvp)) && (!Found(err) ==> res == None)
    case LuPut(l) =>
      s.busy[t] == None && s.own[t] == c.own + h + multiset{LRef(l)} && DirLocked(s, t, c) && l != c.ldvp &&
      LMode(s, t, l) != Unheld && s.alias[c.dvp].doomed
    case LuSwap => s.busy[t] == None && s.own[t] == c.own + h && DirLocked(s, t, c) && s.alias[c.dvp].doomed
    case LuLock(lk) => LkInv(s, t, LuLockCall(c), lk) && s.alias[c.dvp].doomed
    case LuVdrop(err, res, x) =>
      s.busy[t] == None && s.own[t] == c.own + h + Spare(res) && AtExit(s, t, c, err, res, x)
    case LuResult(err, res, x) =>
      s.busy[t] == None && s.own[t] == c.own + Spare(res) && AtExit(s, t, c, err, res, x)
    case LuSelf(err) =>
      s.busy[t] == None && s.own[t] == c.own + multiset{LRef(c.ldvp)} && Live(s, c.dvp) && DirLocked(s, t, c) &&
      !Refused(c, err)
    case LuSelfRele(err) =>
      s.busy[t] == None && s.own[t] == c.own + multiset{LRef(c.ldvp), URef(c.dvp)} && Live(s, c.dvp) &&
      DirLocked(s, t, c) && !Refused(c, err)
    case LuNode(l, excl, low, ng) =>
      NgInv(s, t, LuNodeCall(c, l, excl), ng) && l != c.ldvp && Live(s, c.dvp) && DirLocked(s, t, c) && !Refused(c, low)
    case LuDone(e) => s.busy[t] == None && LuOutcome(s, t, c, e)
  }

  /** The directory lock when tpt_lookup returns. */
  ghost predicate DirAtReturn(s: Sh, t: nat, c: LuCall, err: int, x: Exit)
    requires Wf(s) && t < |s.own| && c.dvp < |s.alias| && c.ldvp < |s.lower|
  {
    match x
    case Plain => HasLock(s, t, c.dvp, c.m) && Live(s, c.dvp)
    case Moved => HasLock(s, t, c.dvp, Exclusive) && s.alias[c.dvp].doomed && err == ENOENT
    case LowerFailed => DirLocked(s, t, c) && !Found(err)
  }

  /** What tpt_lookup leaves behind: */
  ghost predicate LuOutcome(s: Sh, t: nat, c: LuCall, e: Ended)
    requires Wf(s) && t < |s.own| && c.dvp < |s.alias| && c.ldvp < |s.lower| && EndedOk(s, e)
  {
    // at most one new upper reference, and nothing else gained or lost;
    && s.own[t] == c.own + (if e.vp.Some? then multiset{URef(e.vp.value)} else multiset{}) + Spare(e.leak)
    && DirAtReturn(s, t, c, e.err, e.x)
    // the live alias on this mount of the vnode the lower lookup found, with its lock; the
    // directory itself when that is what was found;
    && (e.vp.Some? ==>
          && e.x == Plain && e.found.Some? && Live(s, e.vp.value) && Match(s.alias[e.vp.value], c.mp, e.found.value)
          && LMode(s, t, e.found.value) != Unheld && (e.found.value == c.ldvp <==> e.vp.value == c.dvp))
    // a lower vnode left referenced and locked exactly when the lower lookup of a create found one
    // and the mount is read-only.
    && (e.leak.Some? <==> Refused(c, e.low) && e.found.Some?)
    && (e.leak.Some? ==>
          e.x == Plain && e.err == EROFS && e.vp == None && e.found == e.leak && LMode(s, t, e.leak.value) != Unheld)
  }

  // ----- Other threads leave it alone -----

  lemma DirKept(s: Sh, s': Sh, u: nat, t: nat, c: LuCall)
    requires Inv(s) && u < |s.own| && Guar(s, s', u) && t < |s.own| && t != u
    requires c.dvp < |s.alias| && c.ldvp < |s.lower| && Dir(s, c)
    ensures Dir(s', c) && (s.alias[c.dvp].doomed ==> s'.alias[c.dvp].doomed)
    ensures LMode(s', t, c.ldvp) == LMode(s, t, c.ldvp) && PMode(s', t, c.dvp) == PMode(s, t, c.dvp)
    ensures Live(s, c.dvp) && LMode(s, t, c.ldvp) != Unheld ==> Live(s', c.dvp)
    ensures forall m :: HasLock(s, t, c.dvp, m) ==> HasLock(s', t, c.dvp, m)
  {
    assert Onward(s, s', c.dvp);
    if Live(s, c.dvp) && LMode(s, t, c.ldvp) != Unheld { LiveKept(s, s', u, t, c.dvp); }
    forall m | HasLock(s, t, c.dvp, m)
      ensures HasLock(s', t, c.dvp, m)
    {
      HasLockKept(s, s', u, t, c.dvp, m);
    }
  }

  /** A mounted alias that is not doomed and owns its reference is live. */
  lemma SoundDir(s: Sh, c: LuCall)
    requires Inv(s) && c.dvp < |s.alias| && Dir(s, c)
    ensures !s.alias[c.dvp].doomed ==> Live(s, c.dvp)
    ensures Live(s, c.dvp) ==> s.alias[c.dvp].vnlk == Borrowed
  {
    assert AliasInv(s, c.dvp);
  }

  lemma LuDoneKept(s: Sh, s': Sh, u: nat, t: nat, c: LuCall, e: Ended)
    requires Inv(s) && u < |s.own| && Guar(s, s', u) && t < |s.own| && t != u
    requires LuOk(s, c, LuDone(e)) && Dir(s, c) && LuOutcome(s, t, c, e)
    ensures LuOutcome(s', t, c, e)
  {
    SoundDir(s, c);
    DirKept(s, s', u, t, c);
    if e.vp.Some? { LiveKept(s, s', u, t, e.vp.value); }
    if e.leak.Some? { assert LMode(s', t, e.leak.value) == LMode(s, t, e.leak.value); }
  }

  lemma LuKept(s: Sh, s': Sh, u: nat, t: nat, c: LuCall, p: LuPc)
    requires Inv(s) && u < |s.own| && Guar(s, s', u) && t < |s.own| && t != u
    requires LuOk(s, c, p) && LuInv(s, t, c, p)
    ensures LuOk(s', c, p) && LuInv(s', t, c, p)
  {
    DirKept(s, s', u, t, c);
    match p
    case LuLock(lk) => LkKept(s, s', u, t, LuLockCall(c), lk);
    case LuNode(l, excl, _, ng) => NgKept(s, s', u, t, LuNodeCall(c, l, excl), ng);
    case LuDone(e) => LuDoneKept(s, s', u, t, c, e);
    case _ =>
  }

  // ----- Its own sections -----

  ghost predicate LuGood(s: Sh, t: nat, c: LuCall, o: Out<LuPc>)
    requires Wf(s) && t < |s.own|
  {
    o.Ok? && Inv(o.sh) && Guar(s, o.sh, t) && LuOk(o.sh, c, o.pc) && LuInv(o.sh, t, c, o.pc)
  }

  ghost predicate LuBefore(s: Sh, t: nat, c: LuCall, p: LuPc, fails: bool, mv: LowerMove) {
    Inv(s) && t < |s.own| && LuOk(s, c, p) && LuInv(s, t, c, p) && LuCan(s, t, c, p, fails, mv)
  }

  lemma ReturnStep(s: Sh, t: nat, c: LuCall, dropped: bool, mv: LowerMove)
    requires LuBefore(s, t, c, LuLower(dropped), false, mv) && mv.LowerReturns?
    ensures LuGood(s, t, c, DoReturn(s, t, c, mv))
  {
    if mv.res.Some? {
      ReturnLower(s, t, c, dropped, mv);
      ReturnHolds(s, t, c, dropped, mv);
    }
  }

  lemma ReturnLower(s: Sh, t: nat, c: LuCall, dropped: bool, mv: LowerMove)
    requires LuBefore(s, t, c, LuLower(dropped), false, mv) && mv.LowerReturns? && mv.res.Some?
    ensures LowerGood(s, t, mv.res.value, DoReturn(s, t, c, mv))
  {
    OwnedInUse(s, t, mv.res.value);
    OneLower(s, DoReturn(s, t, c, mv).sh, t, mv.res.value);
  }

  lemma ReturnHolds(s: Sh, t: nat, c: LuCall, dropped: bool, mv: LowerMove)
    requires LuBefore(s, t, c, LuLower(dropped), false, mv) && mv.LowerReturns? && mv.res.Some?
    requires Wf(DoReturn(s, t, c, mv).sh)
    ensures var o := DoReturn(s, t, c, mv); LuOk(o.sh, c, o.pc) && LuInv(o.sh, t, c, o.pc)
  {
    var s', l := DoReturn(s, t, c, mv).sh, mv.res.value;
    assert s'.lower[l].lk == if l == c.ldvp then s.lower[l].lk else Grant(s.lower[l].lk, t, mv.m);
    assert LMode(s', t, c.ldvp) == LMode(s, t, c.ldvp);
  }

  lemma LuLowerStep(s: Sh, t: nat, c: LuCall, dropped: bool, mv: LowerMove)
    requires LuBefore(s, t, c, LuLower(dropped), false, mv)
    ensures LuGood(s, t, c, LuStep(s, t, c, LuLower(dropped), false, mv))
  {
    if mv == LowerUnlocks { UnlockLStep(s, t, c.ldvp, LuOut); } else { ReturnStep(s, t, c, dropped, mv); }
  }

  lemma LuOutStep(s: Sh, t: nat, c: LuCall, mv: LowerMove)
    requires LuBefore(s, t, c, LuOut, false, mv)
    ensures LuGood(s, t, c, LuStep(s, t, c, LuOut, false, mv))
  {
    LockLStep(s, t, c.ldvp, c.m, LuLower(true));
  }

  lemma LuCheckStep(s: Sh, t: nat, c: LuCall, err: int, res: Option<nat>)
    requires LuBefore(s, t, c, LuCheck(err, res), false, NoMove)
    ensures LuGood(s, t, c, DoLuCheck(s, c, err, res))
  {
    SoundDir(s, c);
  }

  lemma LuPutStep(s: Sh, t: nat, c: LuCall, l: nat)
    requires LuBefore(s, t, c, LuPut(l), false, NoMove)
    ensures LuGood(s, t, c, LuStep(s, t, c, LuPut(l), false, NoMove))
  {
    VputLStep(s, t, l, LuSwap);
  }

  lemma LuSwapStep(s: Sh, t: nat, c: LuCall)
    requires LuBefore(s, t, c, LuSwap, false, NoMove)
    ensures LuGood(s, t, c, LuStep(s, t, c, LuSwap, false, NoMove))
  {
    UnlockLStep(s, t, c.ldvp, LuLock(LkEnter));
  }

  /** A request for the lock that sleeps ends with the lock v_vnlock names. */
  lemma LuLockEnd(s: Sh, t: nat, c: LuCall, lk: LkPc)
    requires Inv(s) && t < |s.own| && c.dvp < |s.alias| && c.ldvp < |s.lower|
    requires LkOk(s, LuLockCall(c), lk) && LkInv(s, t, LuLockCall(c), lk)
    requires Dir(s, c) && s.alias[c.dvp].doomed
    ensures LuOk(s, c, AfterLock(lk)) && LuInv(s, t, c, AfterLock(lk))
  {
  }

  lemma LuLockStep(s: Sh, t: nat, c: LuCall, lk: LkPc, fails: bool)
    requires LuBefore(s, t, c, LuLock(lk), fails, NoMove)
    ensures LuGood(s, t, c, LuStep(s, t, c, LuLock(lk), fails, NoMove))
  {
    LkStepGood(s, t, LuLockCall(c), lk, fails);
    var o := LkStep(s, t, LuLockCall(c), lk, fails);
    assert Onward(s, o.sh, c.dvp);
    LuLockEnd(o.sh, t, c, o.pc);
  }

  lemma LuVdropStep(s: Sh, t: nat, c: LuCall, err: int, res: Option<nat>, x: Exit)
    requires LuBefore(s, t, c, LuVdrop(err, res, x), false, NoMove)
    ensures LuGood(s, t, c, LuStep(s, t, c, LuVdrop(err, res, x), false, NoMove))
  {
    VdropLStep(s, t, c.ldvp, LuResult(err, res, x));
    VdropHolds(s, VdropL(s, t, c.ldvp, LuResult(err, res, x)).sh, t, c, err, res, x);
  }

  lemma VdropHolds(s: Sh, s': Sh, t: nat, c: LuCall, err: int, res: Option<nat>, x: Exit)
    requires LuBefore(s, t, c, LuVdrop(err, res, x), false, NoMove) && Wf(s') && OnlyLower(s, s', t, c.ldvp)
    requires s'.own[t] == s.own[t] - multiset{Hold(c.ldvp)} && LMode(s', t, c.ldvp) == LMode(s, t, c.ldvp)
    ensures LuOk(s', c, LuResult(err, res, x)) && LuInv(s', t, c, LuResult(err, res, x))
  {
  }

  lemma LuResultStep(s: Sh, t: nat, c: LuCall, err: int, res: Option<nat>, x: Exit)
    requires LuBefore(s, t, c, LuResult(err, res, x), false, NoMove)
    ensures LuGood(s, t, c, DoLuResult(s, t, c, err, res, x))
  {
    SoundDir(s, c);
    if DoLuResult(s, t, c, err, res, x).pc.LuDone? { ResultDone(s, t, c, err, res, x); }
  }

  lemma ResultDone(s: Sh, t: nat, c: LuCall, err: int, res: Option<nat>, x: Exit)
    requires LuBefore(s, t, c, LuResult(err, res, x), false, NoMove) && DoLuResult(s, t, c, err, res, x).pc.LuDone?
    ensures LuGood(s, t, c, DoLuResult(s, t, c, err, res, x))
  {
    SoundDir(s, c);
  }

  lemma LuSelfStep(s: Sh, t: nat, c: LuCall, err: int)
    requires LuBefore(s, t, c, LuSelf(err), false, NoMove)
    ensures LuGood(s, t, c, LuStep(s, t, c, LuSelf(err), false, NoMove))
  {
    VrefStep(s, t, c.dvp);
  }

  lemma LuSelfReleStep(s: Sh, t: nat, c: LuCall, err: int)
    requires LuBefore(s, t, c, LuSelfRele(err), false, NoMove)
    ensures LuGood(s, t, c, LuStep(s, t, c, LuSelfRele(err), false, NoMove))
  {
    SoundDir(s, c);
    VreleLStep(s, t, c.ldvp, LuDone(SelfEnded(c, err)));
  }

  lemma LuNodeEnd(s: Sh, t: nat, c: LuCall, l: nat, excl: bool, low: int, ng: NgPc)
    requires Inv(s) && t < |s.own| && c.dvp < |s.alias| && c.ldvp < |s.lower|
    requires NgOk(s, LuNodeCall(c, l, excl), ng) && NgInv(s, t, LuNodeCall(c, l, excl), ng) && l != c.ldvp
    requires Dir(s, c) && Live(s, c.dvp) && DirLocked(s, t, c) && !Refused(c, low)
    ensures LuOk(s, c, AfterNode(l, excl, low, ng)) && LuInv(s, t, c, AfterNode(l, excl, low, ng))
  {
    SoundDir(s, c);
  }

  /** tpt_nodeget on the result leaves the directory alone. */
  lemma LuNodeDir(s: Sh, s': Sh, t: nat, c: LuCall, l: nat)
    requires Inv(s) && Inv(s') && t < |s.own| && c.dvp < |s.alias| && c.ldvp < |s.lower|
    requires Guar(s, s', t) && Foot(s, s', t, l) && l != c.ldvp
    requires Dir(s, c) && Live(s, c.dvp) && DirLocked(s, t, c)
    ensures Dir(s', c) && Live(s', c.dvp) && DirLocked(s', t, c)
  {
    assert Onward(s, s', c.dvp) && SameCore(s, s', c.dvp);
  }

  lemma LuNodeStep(s: Sh, t: nat, c: LuCall, l: nat, excl: bool, low: int, ng: NgPc, fails: bool)
    requires LuBefore(s, t, c, LuNode(l, excl, low, ng), fails, NoMove)
    ensures LuGood(s, t, c, LuStep(s, t, c, LuNode(l, excl, low, ng), fails, NoMove))
  {
    NgStepGood(s, t, LuNodeCall(c, l, excl), ng, fails);
    var o := NgStep(s, t, LuNodeCall(c, l, excl), ng, fails);
    LuNodeDir(s, o.sh, t, c, l);
    LuNodeEnd(o.sh, t, c, l, excl, low, o.pc);
  }

  /** Until the state of the directory is looked at. */
  predicate LuCalls(p: LuPc) {
    p.LuLower? || p.LuOut? || p.LuCheck?
  }

  /** While the locks are swapped after the directory was reclaimed. */
  predicate LuSwaps(p: LuPc) {
    p.LuPut? || p.LuSwap? || p.LuLock?
  }

  lemma LuStepCall(s: Sh, t: nat, c: LuCall, p: LuPc, fails: bool, mv: LowerMove)
    requires LuBefore(s, t, c, p, fails, mv) && LuCalls(p) && (p.LuLower? || mv == NoMove)
    ensures LuGood(s, t, c, LuStep(s, t, c, p, fails, mv))
  {
    match p
    case LuLower(dropped) => LuLowerStep(s, t, c, dropped, mv);
    case LuOut => LuOutStep(s, t, c, mv);
    case LuCheck(err, res) => LuCheckStep(s, t, c, err, res);
  }

  lemma LuStepSwap(s: Sh, t: nat, c: LuCall, p: LuPc, fails: bool)
    requires LuBefore(s, t, c, p, fails, NoMove) && LuSwaps(p)
    ensures LuGood(s, t, c, LuStep(s, t, c, p, fails, NoMove))
  {
    match p
    case LuPut(l) => LuPutStep(s, t, c, l);
    case LuSwap => LuSwapStep(s, t, c);
    case LuLock(lk) => LuLockStep(s, t, c, lk, fails);
  }

  lemma LuStepDrop(s: Sh, t: nat, c: LuCall, p: LuPc)
    requires LuBefore(s, t, c, p, false, NoMove) && (p.LuVdrop? || p.LuResult?)
    ensures LuGood(s, t, c, LuStep(s, t, c, p, false, NoMove))
  {
    match p
    case LuVdrop(err, res, x) => LuVdropStep(s, t, c, err, res, x);
    case LuResult(err, res, x) => LuResultStep(s, t, c, err, res, x);
  }

  lemma LuStepResult(s: Sh, t: nat, c: LuCall, p: LuPc, fails: bool)
    requires LuBefore(s, t, c, p, fails, NoMove) && !LuCalls(p) && !LuSwaps(p)
    ensures LuGood(s, t, c, LuStep(s, t, c, p, fails, NoMove))
  {
    match p
    case LuVdrop(_, _, _) => LuStepDrop(s, t, c, p);
    case LuResult(_, _, _) => LuStepDrop(s, t, c, p);
    case LuSelf(err) => LuSelfStep(s, t, c, err);
    case LuSelfRele(err) => LuSelfReleStep(s, t, c, err);
    case LuNode(l, excl, low, ng) => LuNodeStep(s, t, c, l, excl, low, ng, fails);
  }

  /** Every section of tpt_lookup. */
  lemma LuStepGood(s: Sh, t: nat, c: LuCall, p: LuPc, fails: bool, mv: LowerMove)
    requires LuBefore(s, t, c, p, fails, mv) && (p.LuLower? || mv == NoMove)
    ensures LuGood(s, t, c, LuStep(s, t, c, p, fails, mv))
  {
    if LuCalls(p) {
      LuStepCall(s, t, c, p, fails, mv);
    } else if LuSwaps(p) {
      LuStepSwap(s, t, c, p, fails);
    } else {
      LuStepResult(s, t, c, p, fails);
    }
  }
}
