/** The lower-layer notifications, tptfs/tpt_vfsops.c:409-460, and the release of the last use
    reference of an alias, tptfs/tpt_vnops.c:767-811, one atomic section at a time. */
module Notify {
  import opened Options
  import opened Kernel
  import opened Invariant
  import opened Guarantee
  import opened Primitives
  import opened Destroy
  import opened Nodeget
  import opened Reclaim

  /** A notification for mount `mp` about lower vnode `l`, and what the thread owns. */
  datatype Note = Note(mp: nat, l: nat, own: multiset<Res>)

  /** NULLV_NOUNLOCK, with NULLV_DROP for an unlink; the thread takes charge of the alias. */
  function Flag(s: Sh, t: nat, v: nat, drop: bool): Sh
    requires t < |s.busy| && v < |s.alias|
  {
    SetBusy(PutA(s, v, s.alias[v].(noUnlock := true, drop := s.alias[v].drop || drop, agent := t)), t, Some(v))
  }

  // ----- tptfs_reclaim_lowervp -----

  datatype RlPc =
    | RlTest
    | RlScan
    | RlFlag(v: nat)
    | RlVgone(v: nat, vg: VgPc)
    | RlPut(v: nat)
    | RlDone

  function RlGoner(n: Note, v: nat): Goner {
    Goner(v, n.l, true, false, n.own + multiset{URef(v)})
  }

  ghost predicate RlOk(s: Sh, n: Note, p: RlPc) {
    && n.l < |s.lower|
    && match p
       case RlFlag(v) => v < |s.alias|
       case RlVgone(v, vg) => v < |s.alias| && vg != VgDone
       case RlPut(v) => v < |s.alias|
       case _ => true
  }

  ghost predicate RlCan(s: Sh, t: nat, n: Note, p: RlPc)
    requires RlOk(s, n, p)
  {
    match p
    case RlVgone(v, vg) => VgCan(s, t, RlGoner(n, v), vg)
    case RlDone => false
    case _ => true
  }

  ghost function RlStep(s: Sh, t: nat, n: Note, p: RlPc): Out<RlPc>
    requires Wf(s) && t < |s.own| && RlOk(s, n, p) && RlCan(s, t, n, p)
  {
    match p
    case RlTest => HashTest(s, t, n.l, RlDone, RlScan)
    case RlScan =>
      var (s1, r) := HashScan(s, t, n.mp, n.l);
      Ok(s1, if r.Some? then RlFlag(r.value) else RlDone)
    case RlFlag(v) =>
      if !s.alias[v].data then Panic(NullData) else Ok(Flag(s, t, v, false), RlVgone(v, VgDoom))
    case RlVgone(v, vg) =>
      (match VgStep(s, t, RlGoner(n, v), vg)
       case Panic(why) => Panic(why)
       case Ok(s1, vg1) => Ok(s1, if vg1 == VgDone then RlPut(v) else RlVgone(v, vg1)))
    case RlPut(v) => VputA(s, t, v, RlDone)
  }

  /** The live alias of the notification's pair, found with the lower lock held exclusively. */
  ghost predicate Target(s: Sh, t: nat, n: Note, v: nat)
    requires Wf(s) && v < |s.alias|
  {
    Live(s, v) && Match(s.alias[v], n.mp, n.l) && s.alias[v].onMount
  }

  /** No alias of the notification's pair is on the hash, but perhaps `v`. */
  ghost predicate NoOther(s: Sh, n: Note, v: nat)
    requires Wf(s)
  {
    forall w :: 0 <= w < |s.alias| && Hashed(s, w) && Match(s.alias[w], n.mp, n.l) ==> w == v
  }

  ghost predicate RlInv(s: Sh, t: nat, n: Note, p: RlPc)
    requires Wf(s) && t < |s.own| && RlOk(s, n, p)
  {
    // The lower lock is held from beginning to end.
    LMode(s, t, n.l) == Exclusive &&
    match p
    case RlTest => s.busy[t] == None && s.own[t] == n.own
    case RlScan => s.busy[t] == None && s.own[t] == n.own
    case RlFlag(v) =>
      s.busy[t] == None && s.own[t] == n.own + multiset{URef(v)} && Target(s, t, n, v) && !s.alias[v].noUnlock
    case RlVgone(v, vg) => VgInv(s, t, RlGoner(n, v), vg) && NoOther(s, n, v)
    case RlPut(v) =>
      s.busy[t] == None && s.own[t] == n.own + multiset{URef(v)} && !s.alias[v].data && s.alias[v].doomed &&
      PMode(s, t, v) == Exclusive && s.alias[v].onMount && NoNode(s, n.mp, n.l)
    case RlDone => s.busy[t] == None && s.own[t] == n.own && NoNode(s, n.mp, n.l)
  }

  /** Nobody else adds an alias while the lower lock is held. */
  lemma NoOtherKept(s: Sh, s': Sh, u: nat, t: nat, n: Note, v: nat)
    requires Wf(s) && u < |s.own| && Guar(s, s', u) && u != t && n.l < |s.lower|
    requires NoOther(s, n, v) && LMode(s, t, n.l) == Exclusive
    ensures NoOther(s', n, v)
  {
    forall w | 0 <= w < |s'.alias| && Hashed(s', w) && Match(s'.alias[w], n.mp, n.l)
      ensures w == v
    {
      assert w < |s.alias| && Onward(s, s', w);
    }
  }

  /** The alias that was found is the only one. */
  lemma FoundAlone(s: Sh, t: nat, n: Note, v: nat)
    requires Inv(s) && v < |s.alias| && Target(s, t, n, v)
    ensures NoOther(s, n, v)
  {
    forall w | 0 <= w < |s.alias| && Hashed(s, w) && Match(s.alias[w], n.mp, n.l)
      ensures w == v
    {
      var b := s.hash[s.hidx[n.l]];
      var i, j :| 0 <= i < |b| && b[i] == v && 0 <= j < |b| && b[j] == w;
      assert i == j;
    }
  }

  /** A step that adds nothing to the hash leaves it alone. */
  lemma NoOtherStep(s: Sh, s': Sh, n: Note, v: nat)
    requires Wf(s) && Wf(s') && NoOther(s, n, v) && |s'.alias| == |s.alias|
    requires forall w :: 0 <= w < |s.alias| ==>
               s'.alias[w].mount == s.alias[w].mount && s'.alias[w].lower == s.alias[w].lower &&
               (Hashed(s', w) ==> Hashed(s, w))
    ensures NoOther(s', n, v)
  {
  }

  /** No section of vgone adds anything. */
  lemma VgAddsNone(s: Sh, t: nat, g: Goner, p: VgPc)
    requires Reclaim.Before(s, t, g, p) && VgCan(s, t, g, p)
    ensures var o := VgStep(s, t, g, p);
            o.Ok? && Wf(o.sh) && |o.sh.alias| == |s.alias| &&
            forall w :: 0 <= w < |s.alias| ==>
              o.sh.alias[w].mount == s.alias[w].mount && o.sh.alias[w].lower == s.alias[w].lower &&
              (Hashed(o.sh, w) ==> Hashed(s, w))
  {
    VgStepGood(s, t, g, p);
    if p == RcHashrem {
      assert AliasInv(s, g.v);
      HashremHash(s, g.v);
    }
  }

  /** With the only alias off the hash there is none. */
  lemma NoneLeft(s: Sh, n: Note, v: nat)
    requires Inv(s) && v < |s.alias| && NoOther(s, n, v) && !s.alias[v].data
    ensures NoNode(s, n.mp, n.l)
  {
    assert AliasInv(s, v);
  }

  /** An empty bucket has none. */
  lemma EmptyBucket(s: Sh, mp: nat, l: nat)
    requires Wf(s) && l < |s.lower| && s.hash[s.hidx[l]] == []
    ensures NoNode(s, mp, l)
  {
  }

  lemma RlKept(s: Sh, s': Sh, u: nat, t: nat, n: Note, p: RlPc)
    requires Inv(s) && u < |s.own| && Guar(s, s', u) && t < |s.own| && t != u
    requires RlOk(s, n, p) && RlInv(s, t, n, p)
    ensures RlOk(s', n, p) && RlInv(s', t, n, p)
  {
    assert LMode(s', t, n.l) == LMode(s, t, n.l);
    match p
    case RlFlag(v) => LiveKept(s, s', u, t, v);
    case RlVgone(v, vg) =>
      VgKept(s, s', u, t, RlGoner(n, v), vg);
      NoOtherKept(s, s', u, t, n, v);
    case RlPut(v) =>
      assert Onward(s, s', v) && PMode(s', t, v) == PMode(s, t, v);
      NoNodeKept(s, s', u, t, n.mp, n.l);
    case RlDone => NoNodeKept(s, s', u, t, n.mp, n.l);
    case _ =>
  }

  ghost predicate RlGood(s: Sh, t: nat, n: Note, o: Out<RlPc>)
    requires Wf(s) && t < |s.own|
  {
    o.Ok? && Inv(o.sh) && Guar(s, o.sh, t) && RlOk(o.sh, n, o.pc) && RlInv(o.sh, t, n, o.pc)
  }

  /** Flagging a live alias whose shared lock is held. */
  lemma FlagStep(s: Sh, t: nat, v: nat, drop: bool)
    requires Inv(s) && t < |s.own| && v < |s.alias| && Live(s, v) && s.alias[v].onMount && s.busy[t] == None
    requires LMode(s, t, s.alias[v].lower) == Exclusive
    ensures Inv(Flag(s, t, v, drop)) && Guar(s, Flag(s, t, v, drop), t)
  {
    assert AliasInv(s, v);
    assert LowerInv(s, s.alias[v].lower);
    OneAlias(s, Flag(s, t, v, drop), t, v);
  }

  lemma RlStepPut(s: Sh, t: nat, n: Note, v: nat)
    requires Inv(s) && t < |s.own| && RlOk(s, n, RlPut(v)) && RlInv(s, t, n, RlPut(v))
    ensures RlGood(s, t, n, VputA(s, t, v, RlDone))
  {
    VputOwnStep(s, t, v, RlDone);
  }

  lemma RlStepScan(s: Sh, t: nat, n: Note)
    requires Inv(s) && t < |s.own| && RlOk(s, n, RlScan) && RlInv(s, t, n, RlScan)
    ensures RlGood(s, t, n, RlStep(s, t, n, RlScan))
  {
    ScanFinds(s, t, n.mp, n.l);
    var r := FindIn(s, n.mp, n.l);
    if r.Some? { VrefStep(s, t, r.value); }
  }

  lemma RlStepFlag(s: Sh, t: nat, n: Note, v: nat)
    requires Inv(s) && t < |s.own| && RlOk(s, n, RlFlag(v)) && RlInv(s, t, n, RlFlag(v))
    ensures RlGood(s, t, n, RlStep(s, t, n, RlFlag(v)))
  {
    assert AliasInv(s, v);
    FlagStep(s, t, v, false);
    FoundAlone(s, t, n, v);
    NoOtherStep(s, Flag(s, t, v, false), n, v);
  }

  lemma RlStepVgone(s: Sh, t: nat, n: Note, v: nat, vg: VgPc)
    requires Inv(s) && t < |s.own| && RlOk(s, n, RlVgone(v, vg)) && RlInv(s, t, n, RlVgone(v, vg))
    requires RlCan(s, t, n, RlVgone(v, vg))
    ensures RlGood(s, t, n, RlStep(s, t, n, RlVgone(v, vg)))
  {
    VgStepGood(s, t, RlGoner(n, v), vg);
    VgAddsNone(s, t, RlGoner(n, v), vg);
    var o := VgStep(s, t, RlGoner(n, v), vg);
    NoOtherStep(s, o.sh, n, v);
    if o.pc == VgDone { NoneLeft(o.sh, n, v); }
  }

  lemma RlStepGood(s: Sh, t: nat, n: Note, p: RlPc)
    requires Inv(s) && t < |s.own| && RlOk(s, n, p) && RlInv(s, t, n, p) && RlCan(s, t, n, p)
    ensures RlGood(s, t, n, RlStep(s, t, n, p))
  {
    match p
    case RlTest => if s.hash[s.hidx[n.l]] == [] { EmptyBucket(s, n.mp, n.l); }
    case RlScan => RlStepScan(s, t, n);
    case RlFlag(v) => RlStepFlag(s, t, n, v);
    case RlVgone(v, vg) => RlStepVgone(s, t, n, v, vg);
    case RlPut(v) => RlStepPut(s, t, n, v);
  }

  // ----- tptfs_unlink_lowervp -----

  datatype UlPc =
    | UlSearch
    | UlScan
    | UlFlag(v: nat)
    | UlUnref(v: nat)
    | UlInactive(v: nat)
    | UlVgone(v: nat, vg: VgPc)
    | UlTest(v: nat)
    | UlUnlock(v: nat)
    | UlClear(v: nat)
    | UlDone

  function UlGoner(n: Note, v: nat): Goner {
    Goner(v, n.l, true, true, n.own)
  }

  /** After the last reference is gone: under the interlock look at the count again, then
      tpt_need_inactive, tpt_inactive and vrecycle, which dooms the vnode. `skip` is where
      the program goes when there is nothing to recycle, `go` when tpt_reclaim is next. */
  function DoInactive<P>(s: Sh, t: nat, v: nat, skip: P, go: P): Out<P>
    requires t < |s.busy| && v < |s.alias| && s.alias[v].lower < |s.lower|
  {
    if s.alias[v].use > 0 || s.alias[v].doomed || s.alias[v].dead then Ok(s, skip)
    else if !s.alias[v].data then Panic(NullData)
    else if WantRecycle(s, v) then Ok(Doom(s, t, v), go)
    else Ok(s, skip)
  }

  /** vunref goes on to the release only when it took the count to zero. */
  function AfterUnref(s: Sh, v: nat): UlPc
    requires v < |s.alias|
  {
    if s.alias[v].use == 1 then UlInactive(v) else UlTest(v)
  }

  /** The test of v_usecount after vunref, with the assertions of both branches. */
  function DoUlTest(s: Sh, t: nat, v: nat): Out<UlPc>
    requires v < |s.alias| && s.alias[v].lower < |s.lower|
  {
    if s.alias[v].use == 0 then
      if !s.alias[v].doomed then Panic(UnlinkNotDoomed) else Ok(s, UlUnlock(v))
    else if ModeOf(Named(s, v), t) != Exclusive then Panic(UnlinkNotLocked)
    else if s.alias[v].doomed then Panic(UnlinkDoomed)
    else Ok(s, UlClear(v))
  }

  function DoUlClear(s: Sh, t: nat, v: nat): Out<UlPc>
    requires t < |s.busy| && v < |s.alias|
  {
    if s.alias[v].freed then Panic(NullData)
    else Ok(SetBusy(PutA(s, v, s.alias[v].(noUnlock := false)), t, None), UlDone)
  }

  ghost predicate UlOk(s: Sh, n: Note, p: UlPc) {
    && n.l < |s.lower|
    && match p
       case UlFlag(v) => v < |s.alias|
       case UlUnref(v) => v < |s.alias|
       case UlInactive(v) => v < |s.alias|
       case UlVgone(v, vg) => v < |s.alias| && vg != VgDone
       case UlTest(v) => v < |s.alias|
       case UlUnlock(v) => v < |s.alias|
       case UlClear(v) => v < |s.alias|
       case _ => true
  }

  ghost predicate UlCan(s: Sh, t: nat, n: Note, p: UlPc)
    requires UlOk(s, n, p)
  {
    match p
    case UlVgone(v, vg) => VgCan(s, t, UlGoner(n, v), vg)
    case UlDone => false
    case _ => true
  }

  ghost function UlStep(s: Sh, t: nat, n: Note, p: UlPc): Out<UlPc>
    requires Wf(s) && t < |s.own| && UlOk(s, n, p) && UlCan(s, t, n, p)
  {
    match p
    case UlSearch => HashTest(s, t, n.l, UlDone, UlScan)
    case UlScan =>
      var (s1, r) := HashScan(s, t, n.mp, n.l);
      Ok(s1, if r.Some? then UlFlag(r.value) else UlDone)
    case UlFlag(v) =>
      if !s.alias[v].data then Panic(NullData) else Ok(Flag(s, t, v, true), UlUnref(v))
    case UlUnref(v) => UnrefA(s, t, v, AfterUnref(s, v))
    case UlInactive(v) => DoInactive(s, t, v, UlTest(v), UlVgone(v, RcHashrem))
    case UlVgone(v, vg) =>
      (match VgStep(s, t, UlGoner(n, v), vg)
       case Panic(why) => Panic(why)
       case Ok(s1, vg1) => Ok(s1, if vg1 == VgDone then UlTest(v) else UlVgone(v, vg1)))
    case UlTest(v) => DoUlTest(s, t, v)
    case UlUnlock(v) => UnlockNamed(s, t, v, UlDone)
    case UlClear(v) => DoUlClear(s, t, v)
  }

  /** The alias is live, flagged, and in the charge of the notification. */
  ghost predicate Flagged(s: Sh, t: nat, n: Note, v: nat)
    requires Wf(s) && t < |s.own| && v < |s.alias|
  {
    Target(s, t, n, v) && Working(s, t, v) && s.alias[v].noUnlock && s.alias[v].drop
  }

  /** vunref released the last reference and the alias is gone, with its private lock held. */
  ghost predicate GoneNow(s: Sh, t: nat, v: nat)
    requires Wf(s) && t < |s.own| && v < |s.alias|
  {
    s.busy[t] == None && s.alias[v].doomed && !s.alias[v].data && s.alias[v].use == 0 &&
    s.alias[v].onMount && PMode(s, t, v) == Exclusive
  }

  ghost predicate UlInv(s: Sh, t: nat, n: Note, p: UlPc)
    requires Wf(s) && t < |s.own| && UlOk(s, n, p)
  {
    // The lower lock is held from beginning to end.
    LMode(s, t, n.l) == Exclusive &&
    match p
    case UlSearch => s.busy[t] == None && s.own[t] == n.own
    case UlScan => s.busy[t] == None && s.own[t] == n.own
    case UlFlag(v) =>
      s.busy[t] == None && s.own[t] == n.own + multiset{URef(v)} && Target(s, t, n, v) && !s.alias[v].noUnlock
    case UlUnref(v) => s.own[t] == n.own + multiset{URef(v)} && Flagged(s, t, n, v)
    case UlInactive(v) => s.own[t] == n.own && Flagged(s, t, n, v)
    case UlVgone(v, vg) => VgInv(s, t, UlGoner(n, v), vg) && NoOther(s, n, v)
    case UlTest(v) => s.own[t] == n.own && NoOther(s, n, v) && (Flagged(s, t, n, v) || GoneNow(s, t, v))
    case UlUnlock(v) => s.own[t] == n.own && GoneNow(s, t, v) && NoNode(s, n.mp, n.l)
    case UlClear(v) => s.own[t] == n.own && Flagged(s, t, n, v) && NoOther(s, n, v)
    case UlDone => s.busy[t] == None && s.own[t] == n.own && AllDropped(s, n)
  }

  /** Whatever alias of the pair is on the hash is marked to go with its last reference, and its next
      reclaim unlocks the lower vnode again. */
  ghost predicate AllDropped(s: Sh, n: Note)
    requires Wf(s)
  {
    forall w :: 0 <= w < |s.alias| && Hashed(s, w) && Match(s.alias[w], n.mp, n.l) ==>
      Live(s, w) && s.alias[w].drop && !s.alias[w].noUnlock
  }

  lemma AllDroppedKept(s: Sh, s': Sh, u: nat, t: nat, n: Note)
    requires Wf(s) && u < |s.own| && Guar(s, s', u) && u != t && n.l < |s.lower|
    requires AllDropped(s, n) && LMode(s, t, n.l) == Exclusive
    ensures AllDropped(s', n)
  {
    forall w | 0 <= w < |s'.alias| && Hashed(s', w) && Match(s'.alias[w], n.mp, n.l)
      ensures Live(s', w) && s'.alias[w].drop && !s'.alias[w].noUnlock
    {
      assert w < |s.alias| && Onward(s, s', w);
      LiveKept(s, s', u, t, w);
    }
  }

  lemma FlaggedKept(s: Sh, s': Sh, u: nat, t: nat, n: Note, v: nat)
    requires Inv(s) && u < |s.own| && Guar(s, s', u) && t < |s.own| && t != u && v < |s.alias|
    requires n.l < |s.lower| && LMode(s, t, n.l) == Exclusive && Flagged(s, t, n, v)
    ensures Flagged(s', t, n, v)
  {
    LiveKept(s, s', u, t, v);
  }

  lemma UlKept(s: Sh, s': Sh, u: nat, t: nat, n: Note, p: UlPc)
    requires Inv(s) && u < |s.own| && Guar(s, s', u) && t < |s.own| && t != u
    requires UlOk(s, n, p) && UlInv(s, t, n, p)
    ensures UlOk(s', n, p) && UlInv(s', t, n, p)
  {
    assert LMode(s', t, n.l) == LMode(s, t, n.l);
    match p
    case UlFlag(v) => LiveKept(s, s', u, t, v);
    case UlUnref(v) => FlaggedKept(s, s', u, t, n, v);
    case UlInactive(v) => FlaggedKept(s, s', u, t, n, v);
    case UlVgone(v, vg) =>
      VgKept(s, s', u, t, UlGoner(n, v), vg);
      NoOtherKept(s, s', u, t, n, v);
    case UlTest(v) =>
      assert Onward(s, s', v) && PMode(s', t, v) == PMode(s, t, v);
      NoOtherKept(s, s', u, t, n, v);
      if Flagged(s, t, n, v) { FlaggedKept(s, s', u, t, n, v); }
    case UlUnlock(v) =>
      assert Onward(s, s', v) && PMode(s', t, v) == PMode(s, t, v);
      NoNodeKept(s, s', u, t, n.mp, n.l);
    case UlClear(v) =>
      FlaggedKept(s, s', u, t, n, v);
      NoOtherKept(s, s', u, t, n, v);
    case UlDone => AllDroppedKept(s, s', u, t, n);
    case _ =>
  }

  ghost predicate UlGood(s: Sh, t: nat, n: Note, o: Out<UlPc>)
    requires Wf(s) && t < |s.own|
  {
    o.Ok? && Inv(o.sh) && Guar(s, o.sh, t) && UlOk(o.sh, n, o.pc) && UlInv(o.sh, t, n, o.pc)
  }

  ghost predicate UlBefore(s: Sh, t: nat, n: Note, p: UlPc) {
    Inv(s) && t < |s.own| && UlOk(s, n, p) && UlInv(s, t, n, p) && UlCan(s, t, n, p)
  }

  lemma UlStepScan(s: Sh, t: nat, n: Note)
    requires UlBefore(s, t, n, UlScan)
    ensures UlGood(s, t, n, UlStep(s, t, n, UlScan))
  {
    ScanFinds(s, t, n.mp, n.l);
    var r := FindIn(s, n.mp, n.l);
    if r.Some? { VrefStep(s, t, r.value); }
  }

  lemma UlStepFlag(s: Sh, t: nat, n: Note, v: nat)
    requires UlBefore(s, t, n, UlFlag(v))
    ensures UlGood(s, t, n, UlStep(s, t, n, UlFlag(v)))
  {
    assert AliasInv(s, v);
    FlagStep(s, t, v, true);
  }

  lemma UlStepUnref(s: Sh, t: nat, n: Note, v: nat)
    requires UlBefore(s, t, n, UlUnref(v))
    ensures UlGood(s, t, n, UlStep(s, t, n, UlUnref(v)))
  {
    UnrefStep(s, t, v, AfterUnref(s, v));
    FoundAlone(s, t, n, v);
    NoOtherStep(s, UnrefA(s, t, v, AfterUnref(s, v)).sh, n, v);
  }

  lemma UlStepHead(s: Sh, t: nat, n: Note, p: UlPc)
    requires UlBefore(s, t, n, p) && (p.UlSearch? || p.UlScan? || p.UlFlag? || p.UlUnref?)
    ensures UlGood(s, t, n, UlStep(s, t, n, p))
  {
    match p
    case UlSearch => if s.hash[s.hidx[n.l]] == [] { EmptyBucket(s, n.mp, n.l); }
    case UlScan => UlStepScan(s, t, n);
    case UlFlag(v) => UlStepFlag(s, t, n, v);
    case UlUnref(v) => UlStepUnref(s, t, n, v);
  }

  lemma UlStepInactive(s: Sh, t: nat, n: Note, v: nat)
    requires UlBefore(s, t, n, UlInactive(v))
    ensures UlGood(s, t, n, UlStep(s, t, n, UlInactive(v)))
  {
    assert AliasInv(s, v);
    OwnedAlias(s, t, v);
    FoundAlone(s, t, n, v);
    if s.alias[v].use == 0 {
      DoomStep(s, t, v);
      NoOtherStep(s, Doom(s, t, v), n, v);
    }
  }

  lemma UlStepVgone(s: Sh, t: nat, n: Note, v: nat, vg: VgPc)
    requires UlBefore(s, t, n, UlVgone(v, vg))
    ensures UlGood(s, t, n, UlStep(s, t, n, UlVgone(v, vg)))
  {
    VgStepGood(s, t, UlGoner(n, v), vg);
    VgAddsNone(s, t, UlGoner(n, v), vg);
    NoOtherStep(s, VgStep(s, t, UlGoner(n, v), vg).sh, n, v);
  }

  lemma UlStepMiddle(s: Sh, t: nat, n: Note, p: UlPc)
    requires UlBefore(s, t, n, p) && (p.UlInactive? || p.UlVgone?)
    ensures UlGood(s, t, n, UlStep(s, t, n, p))
  {
    match p
    case UlInactive(v) => UlStepInactive(s, t, n, v);
    case UlVgone(v, vg) => UlStepVgone(s, t, n, v, vg);
  }

  /** The assertions of the branches hold, except the first when somebody else has released
      the last reference after vunref. */
  lemma UlStepTest(s: Sh, t: nat, n: Note, v: nat)
    requires UlBefore(s, t, n, UlTest(v))
    ensures if s.alias[v].use == 0 && !s.alias[v].doomed
            then UlStep(s, t, n, UlTest(v)) == Panic(UnlinkNotDoomed)
            else UlGood(s, t, n, UlStep(s, t, n, UlTest(v)))
  {
    assert AliasInv(s, v);
    OwnedAlias(s, t, v);
    if !s.alias[v].data { NoneLeft(s, n, v); }
  }

  lemma UlStepTail(s: Sh, t: nat, n: Note, p: UlPc)
    requires UlBefore(s, t, n, p) && (p.UlUnlock? || p.UlClear?)
    ensures UlGood(s, t, n, UlStep(s, t, n, p))
  {
    match p
    case UlUnlock(v) =>
      assert AliasInv(s, v);
      UnlockOwnStep(s, t, v, UlDone);
    case UlClear(v) =>
      assert AliasInv(s, v);
      OneAlias(s, DoUlClear(s, t, v).sh, t, v);
  }
}
