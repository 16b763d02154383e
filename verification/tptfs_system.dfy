/** Any number of threads running the operations of tptfs, interleaved section by section with
    each other and with the lower filesystem, and what holds in every run of them. */
module System {
  import opened Options
  import opened Kernel
  import opened Invariant
  import opened Guarantee
  import opened Primitives
  import opened Destroy
  import opened Nodeget
  import opened Reclaim
  import opened Notify
  import opened Locking
  import opened Inactive
  import opened Lookup
  import opened Environment

  /** Where a thread stands: the operation it runs and the section of it that comes next. */
  datatype Pc =
    | Idle
    | AtNodeget(nc: Call, ng: NgPc)
    | AtVgone(g: Goner, vg: VgPc)
    | AtReclaimLower(rn: Note, rl: RlPc)
    | AtUnlinkLower(un: Note, ul: UlPc)
    | AtLock(lc: LockCall, lk: LkPc)
    | AtUnlock(uc: UnlockCall, up: UnPc)
    | AtRelease(ic: InCall, ia: InPc)
    | AtLookup(cc: LuCall, lu: LuPc)

  /** After a panic nothing moves. */
  datatype St = St(sh: Sh, pcs: seq<Pc>, panic: Option<Why>)

  /** What a thread does next: the next section of its operation, in which `fails` makes a
      primitive fail and `mv` is the choice of the lower lookup; the return of a finished
      operation; or, when Idle, an action or a new operation. */
  datatype Cmd =
    | Step(fails: bool, mv: LowerMove)
    | Return
    | Perform(act: Act)
    | ReleAlias(v: nat)
    | CallNodeget(mp: nat, l: nat)
    | CallVgone(v: nat)
    | CallReclaimLower(mp: nat, l: nat)
    | CallUnlinkLower(mp: nat, l: nat)
    | CallLock(v: nat, req: Req, nowait: bool)
    | CallUnlock(v: nat)
    | CallLookup(dvp: nat, cn: Name, ro: bool, roThen: bool)

  // ----- Operations in progress -----

  predicate Finished(p: Pc) {
    match p
    case Idle => false
    case AtNodeget(_, ng) => ng.NgDone?
    case AtVgone(_, vg) => vg == VgDone
    case AtReclaimLower(_, rl) => rl == RlDone
    case AtUnlinkLower(_, ul) => ul == UlDone
    case AtLock(_, lk) => lk.LkDone?
    case AtUnlock(_, up) => up == UnDone
    case AtRelease(_, ia) => ia == InDone
    case AtLookup(_, lu) => lu.LuDone?
  }

  /** Every vnode a program counter names exists. */
  ghost predicate PcOk(s: Sh, p: Pc) {
    match p
    case Idle => true
    case AtNodeget(c, ng) => NgOk(s, c, ng)
    case AtVgone(g, vg) => VgOk(s, g)
    case AtReclaimLower(n, rl) => RlOk(s, n, rl)
    case AtUnlinkLower(n, ul) => UlOk(s, n, ul)
    case AtLock(c, lk) => LkOk(s, c, lk)
    case AtUnlock(c, up) => UnOk(s, c, up)
    case AtRelease(c, ia) => InOk(s, c, ia)
    case AtLookup(c, lu) => LuOk(s, c, lu)
  }

  /** Whether the next section can run now; false while the thread sleeps for a lock. */
  ghost predicate PcCan(s: Sh, t: nat, p: Pc, fails: bool, mv: LowerMove)
    requires Wf(s) && PcOk(s, p)
  {
    match p
    case Idle => false
    case AtNodeget(c, ng) => NgCan(s, t, c, ng, fails)
    case AtVgone(g, vg) => VgCan(s, t, g, vg)
    case AtReclaimLower(n, rl) => RlCan(s, t, n, rl)
    case AtUnlinkLower(n, ul) => UlCan(s, t, n, ul)
    case AtLock(c, lk) => LkCan(s, t, c, lk, fails)
    case AtUnlock(c, up) => up != UnDone
    case AtRelease(c, ia) => InCan(s, t, c, ia, fails)
    case AtLookup(c, lu) => LuCan(s, t, c, lu, fails, mv) && (lu.LuLower? || mv == NoMove)
  }

  function Wrap<P>(o: Out<P>, f: P -> Pc): Out<Pc> {
    match o
    case Panic(why) => Panic(why)
    case Ok(s1, p1) => Ok(s1, f(p1))
  }

  ghost function PcStep(s: Sh, t: nat, p: Pc, fails: bool, mv: LowerMove): Out<Pc>
    requires Wf(s) && t < |s.own| && PcOk(s, p) && PcCan(s, t, p, fails, mv)
  {
    match p
    case AtNodeget(c, ng) => Wrap(NgStep(s, t, c, ng, fails), p1 => AtNodeget(c, p1))
    case AtVgone(g, vg) => Wrap(VgStep(s, t, g, vg), p1 => AtVgone(g, p1))
    case AtReclaimLower(n, rl) => Wrap(RlStep(s, t, n, rl), p1 => AtReclaimLower(n, p1))
    case AtUnlinkLower(n, ul) => Wrap(UlStep(s, t, n, ul), p1 => AtUnlinkLower(n, p1))
    case AtLock(c, lk) => Wrap(LkStep(s, t, c, lk, fails), p1 => AtLock(c, p1))
    case AtUnlock(c, up) => Wrap(UnStep(s, t, c, up), p1 => AtUnlock(c, p1))
    case AtRelease(c, ia) => Wrap(InStep(s, t, c, ia, fails), p1 => AtRelease(c, p1))
    case AtLookup(c, lu) => Wrap(LuStep(s, t, c, lu, fails, mv), p1 => AtLookup(c, p1))
  }

  /** What the thread holds before its next section. */
  ghost predicate PcInv(s: Sh, t: nat, p: Pc)
    requires Wf(s) && t < |s.own| && PcOk(s, p)
  {
    match p
    case Idle => s.busy[t] == None
    case AtNodeget(c, ng) => NgInv(s, t, c, ng)
    case AtVgone(g, vg) => VgInv(s, t, g, vg) && !g.notify
    case AtReclaimLower(n, rl) => RlInv(s, t, n, rl)
    case AtUnlinkLower(n, ul) => UlInv(s, t, n, ul)
    case AtLock(c, lk) => LkInv(s, t, c, lk)
    case AtUnlock(c, up) => UnInv(s, t, c, up)
    case AtRelease(c, ia) => InInv(s, t, c, ia)
    case AtLookup(c, lu) => LuInv(s, t, c, lu)
  }

  lemma PcKept(s: Sh, s': Sh, u: nat, t: nat, p: Pc)
    requires Inv(s) && u < |s.own| && Guar(s, s', u) && t < |s.own| && t != u
    requires PcOk(s, p) && PcInv(s, t, p)
    ensures PcOk(s', p) && PcInv(s', t, p)
  {
    match p
    case Idle =>
    case AtNodeget(c, ng) => NgKept(s, s', u, t, c, ng);
    case AtVgone(g, vg) => VgKept(s, s', u, t, g, vg);
    case AtReclaimLower(n, rl) => RlKept(s, s', u, t, n, rl);
    case AtUnlinkLower(n, ul) => UlKept(s, s', u, t, n, ul);
    case AtLock(c, lk) => LkKept(s, s', u, t, c, lk);
    case AtUnlock(c, up) => UnKept(s, s', u, t, c, up);
    case AtRelease(c, ia) => InKept(s, s', u, t, c, ia);
    case AtLookup(c, lu) => LuKept(s, s', u, t, c, lu);
  }

  /** A section or action that went well. */
  ghost predicate Good(s: Sh, t: nat, o: Out<Pc>)
    requires Wf(s) && t < |s.own|
  {
    o.Ok? && Inv(o.sh) && Guar(s, o.sh, t) && PcOk(o.sh, o.pc) && PcInv(o.sh, t, o.pc)
  }

  /** The one assertion of the sources that a run can violate: after vunref in
      tptfs_unlink_lowervp another thread gives up the last reference, and the alias is found
      unreferenced but not doomed. */
  ghost predicate UnlinkRace(s: Sh, p: Pc)
    requires PcOk(s, p)
  {
    p.AtUnlinkLower? && p.ul.UlTest? && s.alias[p.ul.v].use == 0 && !s.alias[p.ul.v].doomed
  }

  lemma UnlinkStepGood(s: Sh, t: nat, n: Note, ul: UlPc)
    requires UlBefore(s, t, n, ul)
    ensures var o := Wrap(UlStep(s, t, n, ul), p1 => AtUnlinkLower(n, p1));
            if UnlinkRace(s, AtUnlinkLower(n, ul)) then o == Panic(UnlinkNotDoomed) else Good(s, t, o)
  {
    if ul.UlSearch? || ul.UlScan? || ul.UlFlag? || ul.UlUnref? {
      UlStepHead(s, t, n, ul);
    } else if ul.UlInactive? || ul.UlVgone? {
      UlStepMiddle(s, t, n, ul);
    } else if ul.UlTest? {
      UlStepTest(s, t, n, ul.v);
    } else {
      UlStepTail(s, t, n, ul);
    }
  }

  /** Every section of every operation. */
  lemma PcStepGood(s: Sh, t: nat, p: Pc, fails: bool, mv: LowerMove)
    requires Inv(s) && t < |s.own| && PcOk(s, p) && PcInv(s, t, p) && PcCan(s, t, p, fails, mv)
    ensures var o := PcStep(s, t, p, fails, mv);
            if UnlinkRace(s, p) then o == Panic(UnlinkNotDoomed) else Good(s, t, o)
  {
    match p
    case AtNodeget(_, _) => AliasStepGood(s, t, p, fails, mv);
    case AtVgone(_, _) => AliasStepGood(s, t, p, fails, mv);
    case AtReclaimLower(_, _) => AliasStepGood(s, t, p, fails, mv);
    case AtUnlinkLower(n, ul) => UnlinkStepGood(s, t, n, ul);
    case _ => CallerStepGood(s, t, p, fails, mv);
  }

  lemma AliasStepGood(s: Sh, t: nat, p: Pc, fails: bool, mv: LowerMove)
    requires Inv(s) && t < |s.own| && PcOk(s, p) && PcInv(s, t, p) && PcCan(s, t, p, fails, mv)
    requires p.AtNodeget? || p.AtVgone? || p.AtReclaimLower?
    ensures Good(s, t, PcStep(s, t, p, fails, mv))
  {
    match p
    case AtNodeget(c, ng) => NgStepGood(s, t, c, ng, fails);
    case AtVgone(g, vg) => VgStepGood(s, t, g, vg);
    case AtReclaimLower(n, rl) => RlStepGood(s, t, n, rl);
  }

  lemma CallerStepGood(s: Sh, t: nat, p: Pc, fails: bool, mv: LowerMove)
    requires Inv(s) && t < |s.own| && PcOk(s, p) && PcInv(s, t, p) && PcCan(s, t, p, fails, mv)
    requires p.AtLock? || p.AtUnlock? || p.AtRelease? || p.AtLookup?
    ensures Good(s, t, PcStep(s, t, p, fails, mv))
  {
    match p
    case AtLock(c, lk) => LkStepGood(s, t, c, lk, fails);
    case AtUnlock(c, up) => UnStepGood(s, t, c, up);
    case AtRelease(c, ia) => InStepGood(s, t, c, ia, fails);
    case AtLookup(c, lu) => LuStepGood(s, t, c, lu, fails, mv);
  }

  // ----- New operations -----

  /** The operations an Idle thread may start and what their callers must hold. */
  ghost predicate CanStart(s: Sh, t: nat, c: Cmd)
    requires Wf(s) && t < |s.own|
  {
    match c
    case ReleAlias(v) => v < |s.alias| && URef(v) in s.own[t]
    case CallNodeget(mp, l) => l < |s.lower| && LRef(l) in s.own[t] && LMode(s, t, l) != Unheld
    case CallVgone(v) => v < |s.alias| && URef(v) in s.own[t] && HasLock(s, t, v, Exclusive)
    case CallReclaimLower(mp, l) => l < |s.lower| && LMode(s, t, l) == Exclusive
    case CallUnlinkLower(mp, l) => l < |s.lower| && LMode(s, t, l) == Exclusive
    case CallLock(v, req, _) =>
      v < |s.alias| && URef(v) in s.own[t] && HasLock(s, t, v, Had(req))
    case CallUnlock(v) =>
      v < |s.alias| && URef(v) in s.own[t] && (HasLock(s, t, v, Shared) || HasLock(s, t, v, Exclusive))
    case CallLookup(dvp, _, _, _) =>
      dvp < |s.alias| && URef(dvp) in s.own[t] && !s.alias[dvp].doomed && ModeOf(Named(s, dvp), t) != Unheld
    case _ => false
  }

  /** vrele of alias `v`. When the last reference goes, tpt_need_inactive is asked, and the
      alias is locked without sleeping unless the thread has its lock exclusively. */
  ghost function StartRelease(s: Sh, t: nat, v: nat): Out<Pc>
    requires Wf(s) && t < |s.own| && v < |s.alias|
  {
    var a := s.alias[v];
    var keep := HasLock(s, t, v, Exclusive);
    var c := InCall(v, a.lower, keep, s.own[t] - multiset{URef(v)});
    if a.use != 1 || a.doomed || a.dead then UnrefA(s, t, v, Idle)
    else if !a.data then Panic(NullData)
    else if !WantRecycle(s, v) || !(keep || BothFree(s, t, v)) then UnrefA(s, t, v, Idle)
    else UnrefA(s, t, v, AtRelease(c, if keep then InCheck else InLock(LkEnter)))
  }

  /** tpt_lookup of `cn`; the mount is read-only now, and when the lower lookup is over, if `ro` and
      `roThen` say so. */
  ghost function StartLookup(s: Sh, t: nat, dvp: nat, cn: Name, ro: bool, roThen: bool): Out<Pc>
    requires Wf(s) && t < |s.own| && dvp < |s.alias|
  {
    var a := s.alias[dvp];
    var c := LuCall(dvp, a.lower, ModeOf(Named(s, dvp), t), s.own[t], a.mount, cn, roThen);
    if RefusedAtOnce(cn, ro) then Ok(s, AtLookup(c, LuDone(Ended(EROFS, None, Plain, EROFS, None, None))))
    else if !a.data then Panic(NullData)
    else VholdL(s, t, a.lower, AtLookup(c, LuLower(false)))
  }

  ghost function Start(s: Sh, t: nat, c: Cmd): Out<Pc>
    requires Wf(s) && t < |s.own| && CanStart(s, t, c)
  {
    match c
    case ReleAlias(v) => StartRelease(s, t, v)
    case CallNodeget(mp, l) =>
      if s.lower[l].use <= 0 then Panic(RefUnderflow)
      else Ok(s, AtNodeget(Call(mp, l, LMode(s, t, l) == Exclusive, s.own[t] - multiset{LRef(l)}), NgTest))
    case CallVgone(v) =>
      Ok(s, if s.alias[v].doomed then Idle
            else AtVgone(Goner(v, s.alias[v].lower, false, false, s.own[t]), VgDoom))
    case CallReclaimLower(mp, l) => Ok(s, AtReclaimLower(Note(mp, l, s.own[t]), RlTest))
    case CallUnlinkLower(mp, l) => Ok(s, AtUnlinkLower(Note(mp, l, s.own[t]), UlSearch))
    case CallLock(v, req, nowait) => Ok(s, AtLock(LockCall(v, req, s.own[t], nowait), LkEnter))
    case CallUnlock(v) => Ok(s, AtUnlock(UnlockCall(v, s.alias[v].vnlk, s.own[t]), UnEnter))
    case CallLookup(dvp, cn, ro, roThen) => StartLookup(s, t, dvp, cn, ro, roThen)
  }

  ghost predicate StartBefore(s: Sh, t: nat, c: Cmd) {
    Inv(s) && t < |s.own| && s.busy[t] == None && CanStart(s, t, c)
  }

  lemma ReleaseGood(s: Sh, t: nat, v: nat)
    requires StartBefore(s, t, ReleAlias(v))
    ensures Good(s, t, StartRelease(s, t, v))
  {
    OwnedIsMounted(s, t, v);
    OwnedAlias(s, t, v);
    UnrefStep(s, t, v, Idle);
    assert AliasInv(s, v);
  }

  lemma VgoneGood(s: Sh, t: nat, v: nat)
    requires StartBefore(s, t, CallVgone(v))
    ensures Good(s, t, Start(s, t, CallVgone(v)))
  {
    OwnedIsMounted(s, t, v);
    assert AliasInv(s, v);
    if !s.alias[v].doomed { LockedIsLive(s, t, v); }
  }

  lemma LockGood(s: Sh, t: nat, c: Cmd)
    requires StartBefore(s, t, c) && (c.CallLock? || c.CallUnlock?)
    ensures Good(s, t, Start(s, t, c))
  {
    OwnedIsMounted(s, t, c.v);
  }

  lemma LookupGood(s: Sh, t: nat, dvp: nat, cn: Name, ro: bool, roThen: bool)
    requires StartBefore(s, t, CallLookup(dvp, cn, ro, roThen))
    ensures Good(s, t, StartLookup(s, t, dvp, cn, ro, roThen))
  {
    OwnedIsMounted(s, t, dvp);
    LockedIsLive(s, t, dvp);
    LowerInUse(s, dvp);
    var a := s.alias[dvp];
    var c := LuCall(dvp, a.lower, ModeOf(Named(s, dvp), t), s.own[t], a.mount, cn, roThen);
    VholdLStep(s, t, a.lower, AtLookup(c, LuLower(false)));
  }

  lemma StartGood(s: Sh, t: nat, c: Cmd)
    requires StartBefore(s, t, c)
    ensures Good(s, t, Start(s, t, c))
  {
    match c
    case ReleAlias(v) => ReleaseGood(s, t, v);
    case CallNodeget(_, l) => OwnedInUse(s, t, l);
    case CallVgone(v) => VgoneGood(s, t, v);
    case CallLock(_, _, _) => LockGood(s, t, c);
    case CallUnlock(_) => LockGood(s, t, c);
    case CallLookup(dvp, cn, ro, roThen) => LookupGood(s, t, dvp, cn, ro, roThen);
    case _ =>
  }
}
