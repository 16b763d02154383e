/** tpt_hashget and tpt_nodeget, tptfs/tpt_subr.c:98-293, one atomic section at a time, and
    what a thread holds before each of them. */
module Nodeget {
  import opened Options
  import opened Destroy
  import opened Kernel
  import opened Invariant
  import opened Guarantee
  import opened Primitives

  datatype NgPc =
    | NgTest
    | NgScan
    | NgHit(v: nat)
    | NgMode
    | NgUpgrade
    | NgDoomCheck
    | NgErrPut(err: int)
    | NgAlloc
    | NgInsmntque(v: nat)
    | NgDtrPut(v: nat, err: int)
    | NgHashins(v: nat)
    | NgLost(v: nat, ov: nat)
    | NgDestroy(v: nat, d: Cause, dp: DpPc)
    | NgDone(err: int, v: nat)

  // ----- The sections -----

  /** tpt_hashget up to the emptiness test outside the hash lock. */
  function HashTest<P>(s: Sh, t: nat, l: nat, empty: P, other: P): Out<P>
    requires Wf(s) && l < |s.lower|
  {
    if ModeOf(s.lower[l].lk, t) == Unheld then Panic(LockNotHeld)
    else Ok(s, if s.hash[s.hidx[l]] == [] then empty else other)
  }

  /** The read-locked search; a hit takes a reference. */
  function HashScan(s: Sh, t: nat, mp: nat, l: nat): (Sh, Option<nat>)
    requires Wf(s) && t < |s.own| && l < |s.lower|
  {
    var r := FindIn(s, mp, l);
    (if r.Some? then VrefA(s, t, r.value) else s, r)
  }

  /** LK_UPGRADE: in place for the only sharer, otherwise the share is given up first. */
  function DoMode(s: Sh, t: nat, c: Call): Out<NgPc>
    requires c.l < |s.lower|
  {
    var k := s.lower[c.l].lk;
    if ModeOf(k, t) == Exclusive then Ok(s, NgAlloc)
    else if ModeOf(k, t) == Unheld then Panic(LockNotHeld)
    else if k == SharedBy({t}) then Ok(PutL(s, c.l, s.lower[c.l].(lk := ExclBy(t))), NgDoomCheck)
    else UnlockL(s, t, c.l, NgUpgrade)
  }

  /** What getnewvnode and the assignments after it leave: one reference, no mount yet,
      v_data set and v_vnlock naming the lower lock. */
  function Prototype(t: nat, c: Call): Alias {
    Alias(c.mp, c.l, t, true, Borrowed, FREE_LOCK, 1, false, false, false, false, false, false, false, 0)
  }

  function DoAlloc(s: Sh, t: nat, c: Call): Out<NgPc>
    requires Wf(s) && t < |s.own|
  {
    var v := |s.alias|;
    Ok(SetBusy(Gain(s.(alias := s.alias + [Prototype(t, c)]), t, URef(v)), t, Some(v)), NgInsmntque(v))
  }

  /** tpt_hashins, write-locked. A new node takes over the spare reference. */
  function DoHashins(s: Sh, t: nat, c: Call, v: nat): Out<NgPc>
    requires Wf(s) && t < |s.own| && c.l < |s.lower| && v < |s.alias|
  {
    var b := s.hidx[c.l];
    match FindIn(s, c.mp, c.l)
    case Some(ov) => Ok(VrefA(s, t, ov), NgLost(v, ov))
    case None =>
      if LRef(c.l) !in s.own[t] then Panic(RefUnderflow)
      else
        var s1 := PutA(s.(hash := s.hash[b := [v] + s.hash[b]]), v, s.alias[v].(lref := true));
        Ok(SetBusy(Lose(s1, t, LRef(c.l)), t, None), NgDone(0, v))
  }

  function AfterDestroy(d: Cause): NgPc {
    match d
    case Lost(ov) => NgDone(0, ov)
    case Failed(err) => NgDone(err, 0)
  }

  function AfterSection(v: nat, d: Cause, dp: DpPc): NgPc {
    if dp == DpDone then AfterDestroy(d) else NgDestroy(v, d, dp)
  }

  /** Every vnode the program counter names exists. */
  ghost predicate NgOk(s: Sh, c: Call, p: NgPc) {
    && c.l < |s.lower|
    && match p
       case NgHit(v) => v < |s.alias|
       case NgInsmntque(v) => v < |s.alias|
       case NgDtrPut(v, _) => v < |s.alias|
       case NgHashins(v) => v < |s.alias|
       case NgLost(v, ov) => v < |s.alias| && ov < |s.alias|
       case NgDestroy(v, d, dp) => v < |s.alias| && (d.Lost? ==> d.ov < |s.alias|) && dp != DpDone
       case NgDone(err, v) => err == 0 ==> v < |s.alias|
       case _ => true
  }

  /** Whether the next section can run now; `fails` picks the failure of a primitive. */
  ghost predicate NgCan(s: Sh, t: nat, c: Call, p: NgPc, fails: bool)
    requires NgOk(s, c, p)
  {
    match p
    case NgUpgrade => !fails && Grantable(s.lower[c.l].lk, t, Exclusive)
    case NgDestroy(v, _, dp) => !fails && DpCan(s, t, v, dp)
    case NgAlloc => true
    case NgInsmntque(_) => true
    case NgDone(_, _) => false
    case _ => !fails
  }

  ghost function NgStep(s: Sh, t: nat, c: Call, p: NgPc, fails: bool): Out<NgPc>
    requires Wf(s) && t < |s.own| && NgOk(s, c, p) && NgCan(s, t, c, p, fails)
  {
    match p
    case NgTest => HashTest(s, t, c.l, NgMode, NgScan)
    case NgScan =>
      var (s1, r) := HashScan(s, t, c.mp, c.l);
      Ok(s1, if r.Some? then NgHit(r.value) else NgMode)
    case NgHit(v) => VreleL(s, t, c.l, NgDone(0, v))
    case NgMode => DoMode(s, t, c)
    case NgUpgrade => LockL(s, t, c.l, Exclusive, NgDoomCheck)
    case NgDoomCheck => Ok(s, if s.lower[c.l].doomed then NgErrPut(ENOENT) else NgAlloc)
    case NgErrPut(err) => VputL(s, t, c.l, NgDone(err, 0))
    case NgAlloc => if fails then Ok(s, NgErrPut(ENFILE)) else DoAlloc(s, t, c)
    case NgInsmntque(v) =>
      if fails then Ok(s, NgDtrPut(v, EBUSY))
      else Ok(PutA(s, v, s.alias[v].(onMount := true)), NgHashins(v))
    case NgDtrPut(v, err) => VputL(s, t, c.l, NgDestroy(v, Failed(err), DpLock))
    case NgHashins(v) => DoHashins(s, t, c, v)
    case NgLost(v, ov) => VreleL(s, t, c.l, NgDestroy(v, Lost(ov), DpLock))
    case NgDestroy(v, d, dp) =>
      match DpStep(s, t, v, dp)
      case Panic(why) => Panic(why)
      case Ok(s1, dp1) => Ok(s1, AfterSection(v, d, dp1))
  }

  /** The prototype a section is about to insert or to destroy. */
  function Building(p: NgPc): Option<nat> {
    match p
    case NgInsmntque(v) => Some(v)
    case NgDtrPut(v, _) => Some(v)
    case NgHashins(v) => Some(v)
    case NgLost(v, _) => Some(v)
    case NgDestroy(v, _, _) => Some(v)
    case _ => None
  }

  /** A prototype is the one the call had before, or brand-new. */
  lemma BuildingStep(s: Sh, t: nat, c: Call, p: NgPc, fails: bool, v: nat)
    requires Wf(s) && t < |s.own| && NgOk(s, c, p) && NgCan(s, t, c, p, fails)
    requires NgStep(s, t, c, p, fails).Ok? && Building(NgStep(s, t, c, p, fails).pc) == Some(v)
    ensures Building(p) == Some(v) || v == |s.alias|
  {
  }

  // ----- What the thread holds -----

  ghost predicate LockedAsAtEntry(s: Sh, t: nat, c: Call)
    requires c.l < |s.lower|
  {
    LMode(s, t, c.l) == (if c.excl then Exclusive else Shared)
  }

  /** What was looked at before a node is made: that there is none, for an exclusive caller, and that
      the lower vnode was not doomed while its lock was upgraded, for the other. */
  ghost predicate Checked(s: Sh, c: Call)
    requires Wf(s) && c.l < |s.lower|
  {
    if c.excl then NoNode(s, c.mp, c.l) else !s.lower[c.l].doomed
  }

  ghost predicate NgInv(s: Sh, t: nat, c: Call, p: NgPc)
    requires Wf(s) && t < |s.own| && NgOk(s, c, p)
  {
    match p
    case NgTest => s.busy[t] == None && s.own[t] == c.own + multiset{LRef(c.l)} && LockedAsAtEntry(s, t, c)
    case NgScan => s.busy[t] == None && s.own[t] == c.own + multiset{LRef(c.l)} && LockedAsAtEntry(s, t, c)
    case NgHit(v) =>
      s.busy[t] == None && s.own[t] == c.own + multiset{LRef(c.l), URef(v)} && LockedAsAtEntry(s, t, c) &&
      Alias4(s, c, v)
    case NgMode =>
      s.busy[t] == None && s.own[t] == c.own + multiset{LRef(c.l)} && LockedAsAtEntry(s, t, c) &&
      (c.excl ==> NoNode(s, c.mp, c.l))
    case NgUpgrade =>
      s.busy[t] == None && s.own[t] == c.own + multiset{LRef(c.l)} && LMode(s, t, c.l) == Unheld && !c.excl
    case NgDoomCheck =>
      s.busy[t] == None && s.own[t] == c.own + multiset{LRef(c.l)} && LMode(s, t, c.l) == Exclusive && !c.excl
    case NgErrPut(err) =>
      s.busy[t] == None && s.own[t] == c.own + multiset{LRef(c.l)} && LMode(s, t, c.l) == Exclusive &&
      (err == ENFILE || (err == ENOENT && !c.excl && s.lower[c.l].doomed))
    case NgAlloc =>
      s.busy[t] == None && s.own[t] == c.own + multiset{LRef(c.l)} && LMode(s, t, c.l) == Exclusive &&
      Checked(s, c)
    case NgInsmntque(v) =>
      s.own[t] == c.own + multiset{LRef(c.l), URef(v)} && LMode(s, t, c.l) == Exclusive &&
      Checked(s, c) && Proto(s, t, c, v, false) && PMode(s, t, v) == Unheld
    case NgDtrPut(v, err) =>
      s.own[t] == c.own + multiset{LRef(c.l), URef(v)} && LMode(s, t, c.l) == Exclusive && err == EBUSY &&
      Proto(s, t, c, v, false) && PMode(s, t, v) == Unheld
    case NgHashins(v) =>
      s.own[t] == c.own + multiset{LRef(c.l), URef(v)} && LMode(s, t, c.l) == Exclusive &&
      Checked(s, c) && Proto(s, t, c, v, true) && PMode(s, t, v) == Unheld
    case NgLost(v, ov) =>
      s.own[t] == c.own + multiset{LRef(c.l), URef(v), URef(ov)} && LMode(s, t, c.l) == Exclusive && !c.excl &&
      Proto(s, t, c, v, true) && PMode(s, t, v) == Unheld && Alias4(s, c, ov)
    case NgDestroy(v, d, dp) => DpInv(s, t, c, v, d, dp)
    case NgDone(err, v) =>
      s.busy[t] == None &&
      if err == 0 then
        s.own[t] == c.own + multiset{URef(v)} && Alias4(s, c, v) && LMode(s, t, c.l) != Unheld &&
        (c.excl ==> LMode(s, t, c.l) == Exclusive)
      else
        s.own[t] == c.own && LMode(s, t, c.l) == Unheld &&
        (err == EBUSY || err == ENFILE || (err == ENOENT && !c.excl && s.lower[c.l].doomed))
  }

  // ----- Other threads leave it alone -----

  lemma NgKept(s: Sh, s': Sh, u: nat, t: nat, c: Call, p: NgPc)
    requires Inv(s) && u < |s.own| && Guar(s, s', u) && t < |s.own| && t != u
    requires NgOk(s, c, p) && NgInv(s, t, c, p)
    ensures NgOk(s', c, p) && NgInv(s', t, c, p)
  {
    assert LMode(s', t, c.l) == LMode(s, t, c.l) && Marks(s, s', u, c.l);
    match p
    case NgHit(v) => Alias4Kept(s, s', u, t, c, v);
    case NgMode => if c.excl { NoNodeKept(s, s', u, t, c.mp, c.l); }
    case NgAlloc => if c.excl { NoNodeKept(s, s', u, t, c.mp, c.l); }
    case NgInsmntque(v) =>
      if c.excl { NoNodeKept(s, s', u, t, c.mp, c.l); }
      assert AliasInv(s, v);
      WorkKept(s, s', u, t, v);
    case NgDtrPut(v, err) =>
      assert AliasInv(s, v);
      WorkKept(s, s', u, t, v);
    case NgHashins(v) =>
      if c.excl { NoNodeKept(s, s', u, t, c.mp, c.l); }
      assert AliasInv(s, v);
      WorkKept(s, s', u, t, v);
    case NgLost(v, ov) =>
      assert AliasInv(s, v);
      WorkKept(s, s', u, t, v);
      Alias4Kept(s, s', u, t, c, ov);
    case NgDestroy(v, d, dp) => DpKept(s, s', u, t, c, v, d, dp);
    case NgDone(err, v) => if err == 0 { Alias4Kept(s, s', u, t, c, v); }
    case _ =>
  }

  // ----- Its own sections -----

  /** A section that went well. */
  ghost predicate NgGood(s: Sh, t: nat, c: Call, o: Out<NgPc>)
    requires Wf(s) && t < |s.own|
  {
    o.Ok? && Inv(o.sh) && Guar(s, o.sh, t) && NgOk(o.sh, c, o.pc) && NgInv(o.sh, t, c, o.pc) &&
    Foot(s, o.sh, t, c.l)
  }

  ghost predicate Before(s: Sh, t: nat, c: Call, p: NgPc) {
    Inv(s) && t < |s.own| && NgOk(s, c, p) && NgInv(s, t, c, p)
  }

  lemma StepScan(s: Sh, t: nat, c: Call)
    requires Before(s, t, c, NgScan) && NgCan(s, t, c, NgScan, false)
    ensures NgGood(s, t, c, NgStep(s, t, c, NgScan, false))
  {
    ScanFinds(s, t, c.mp, c.l);
    var (s1, r) := HashScan(s, t, c.mp, c.l);
    if r.Some? { VrefStep(s, t, r.value); }
  }

  lemma StepHit(s: Sh, t: nat, c: Call, v: nat)
    requires Before(s, t, c, NgHit(v)) && NgCan(s, t, c, NgHit(v), false)
    ensures NgGood(s, t, c, NgStep(s, t, c, NgHit(v), false))
  {
    VreleLStep(s, t, c.l, NgDone(0, v));
  }

  lemma StepMode(s: Sh, t: nat, c: Call)
    requires Before(s, t, c, NgMode) && NgCan(s, t, c, NgMode, false)
    ensures NgGood(s, t, c, NgStep(s, t, c, NgMode, false))
  {
    if s.lower[c.l].lk == SharedBy({t}) {
      UpgradeStep(s, t, c.l);
    } else if LMode(s, t, c.l) == Shared {
      StepShare(s, t, c);
    }
  }

  /** With other sharers the share is given up first. */
  lemma StepShare(s: Sh, t: nat, c: Call)
    requires Before(s, t, c, NgMode) && LMode(s, t, c.l) == Shared && s.lower[c.l].lk != SharedBy({t})
    ensures NgGood(s, t, c, UnlockL(s, t, c.l, NgUpgrade))
  {
    UnlockLStep(s, t, c.l, NgUpgrade);
  }

  lemma StepUpgrade(s: Sh, t: nat, c: Call)
    requires Before(s, t, c, NgUpgrade) && NgCan(s, t, c, NgUpgrade, false)
    ensures NgGood(s, t, c, NgStep(s, t, c, NgUpgrade, false))
  {
    LockLStep(s, t, c.l, Exclusive, NgDoomCheck);
  }

  lemma StepErrPut(s: Sh, t: nat, c: Call, err: int)
    requires Before(s, t, c, NgErrPut(err)) && NgCan(s, t, c, NgErrPut(err), false)
    ensures NgGood(s, t, c, NgStep(s, t, c, NgErrPut(err), false))
  {
    VputLStep(s, t, c.l, NgDone(err, 0));
  }

  lemma StepInsmntque(s: Sh, t: nat, c: Call, v: nat)
    requires Before(s, t, c, NgInsmntque(v)) && NgCan(s, t, c, NgInsmntque(v), false)
    ensures NgGood(s, t, c, NgStep(s, t, c, NgInsmntque(v), false))
  {
    assert AliasInv(s, v);
    OneAlias(s, NgStep(s, t, c, NgInsmntque(v), false).sh, t, v);
  }

  /** The lock and the spare reference go; the prototype was never on the mount. */
  lemma DtrRele(s: Sh, t: nat, c: Call, v: nat, err: int)
    requires Before(s, t, c, NgDtrPut(v, err))
    ensures LowerGood(s, t, c.l, NgStep(s, t, c, NgDtrPut(v, err), false))
  {
    assert AliasInv(s, v);
    VputLStep(s, t, c.l, NgDestroy(v, Failed(err), DpLock));
  }

  lemma DtrHolds(s: Sh, s': Sh, t: nat, c: Call, v: nat, err: int)
    requires Before(s, t, c, NgDtrPut(v, err)) && Wf(s') && OnlyLower(s, s', t, c.l)
    requires s'.own[t] == s.own[t] - multiset{LRef(c.l)} && LMode(s', t, c.l) == Unheld
    ensures DpInv(s', t, c, v, Failed(err), DpLock) && Foot(s, s', t, c.l)
  {
    assert AliasInv(s, v);
  }

  lemma StepDtrPut(s: Sh, t: nat, c: Call, v: nat, err: int)
    requires Before(s, t, c, NgDtrPut(v, err)) && NgCan(s, t, c, NgDtrPut(v, err), false)
    ensures NgGood(s, t, c, NgStep(s, t, c, NgDtrPut(v, err), false))
  {
    DtrRele(s, t, c, v, err);
    DtrHolds(s, NgStep(s, t, c, NgDtrPut(v, err), false).sh, t, c, v, err);
  }

  /** The winner keeps the lower vnode in use while the spare reference goes. */
  lemma LostRele(s: Sh, t: nat, c: Call, v: nat, ov: nat)
    requires Before(s, t, c, NgLost(v, ov))
    ensures LowerGood(s, t, c.l, NgStep(s, t, c, NgLost(v, ov), false))
  {
    assert AliasInv(s, ov);
    CountRefPositive(s.alias, ov, c.l);
    VreleLStep(s, t, c.l, NgDestroy(v, Lost(ov), DpLock));
  }

  /** What the thread holds after that. */
  lemma LostHolds(s: Sh, s': Sh, t: nat, c: Call, v: nat, ov: nat)
    requires Before(s, t, c, NgLost(v, ov)) && Wf(s') && OnlyLower(s, s', t, c.l)
    requires s'.own[t] == s.own[t] - multiset{LRef(c.l)} && LMode(s', t, c.l) == LMode(s, t, c.l)
    ensures DpInv(s', t, c, v, Lost(ov), DpLock) && Foot(s, s', t, c.l)
  {
    assert AliasInv(s, v);
  }

  lemma StepLost(s: Sh, t: nat, c: Call, v: nat, ov: nat)
    requires Before(s, t, c, NgLost(v, ov)) && NgCan(s, t, c, NgLost(v, ov), false)
    ensures NgGood(s, t, c, NgStep(s, t, c, NgLost(v, ov), false))
  {
    LostRele(s, t, c, v, ov);
    LostHolds(s, NgStep(s, t, c, NgLost(v, ov), false).sh, t, c, v, ov);
  }

  // ----- A new alias -----

  lemma AllocCounts(s: Sh, t: nat, c: Call)
    requires Inv(s) && t < |s.own| && c.l < |s.lower|
    ensures CountInv(DoAlloc(s, t, c).sh)
  {
    var s' := DoAlloc(s, t, c).sh;
    var n := |s.alias|;
    forall v: nat
      ensures v < |s'.alias| ==> AliasCount(s', v)
      ensures v >= |s'.alias| ==> Total(s'.own, URef(v)) == 0
    {
      TotalUpdate(s.own, t, s'.own[t], URef(v));
      if v < n { assert AliasCount(s, v); }
    }
    forall l | 0 <= l < |s.lower|
      ensures LowerInv(s', l)
    {
      assert LowerInv(s, l);
      AppendAlias(s.alias, Prototype(t, c), l);
      TotalUpdate(s.own, t, s'.own[t], LRef(l));
      TotalUpdate(s.own, t, s'.own[t], Hold(l));
    }
  }

  lemma AllocAliases(s: Sh, t: nat, c: Call)
    requires Before(s, t, c, NgAlloc)
    ensures var s' := DoAlloc(s, t, c).sh;
            Wf(s') && HashInv(s') && forall v :: 0 <= v < |s'.alias| ==> AliasInv(s', v) && ExposedInUse(s', v)
  {
    var s' := DoAlloc(s, t, c).sh;
    var n := |s.alias|;
    forall b, i | 0 <= b < |s.hash| && 0 <= i < |s.hash[b]|
      ensures s'.alias[s.hash[b][i]] == s.alias[s.hash[b][i]]
    {
    }
    forall v | 0 <= v < |s'.alias|
      ensures AliasInv(s', v) && ExposedInUse(s', v)
    {
      if v < n {
        assert AliasInv(s, v) && ExposedInUse(s, v);
        AppendAlias(s.alias, Prototype(t, c), s.alias[v].lower);
        assert s'.own[t][LRef(s.alias[v].lower)] == s.own[t][LRef(s.alias[v].lower)];
        assert s'.own[t][URef(v)] == s.own[t][URef(v)];
      } else {
        forall u | 0 <= u < |s.own| && u != t
          ensures URef(n) !in s'.own[u]
        {
          TotalAtLeast(s.own, u, URef(n));
        }
      }
    }
  }

  lemma StepAlloc(s: Sh, t: nat, c: Call)
    requires Before(s, t, c, NgAlloc)
    ensures NgGood(s, t, c, NgStep(s, t, c, NgAlloc, false))
  {
    AllocCounts(s, t, c);
    AllocAliases(s, t, c);
    AllocGuar(s, t, c);
    AllocHolds(s, t, c);
  }

  /** A new alias changes nothing of the others. */
  lemma AllocGuar(s: Sh, t: nat, c: Call)
    requires Before(s, t, c, NgAlloc) && Wf(DoAlloc(s, t, c).sh)
    ensures Guar(s, DoAlloc(s, t, c).sh, t) && Foot(s, DoAlloc(s, t, c).sh, t, c.l)
  {
    var s' := DoAlloc(s, t, c).sh;
    assert forall v :: 0 <= v < |s.alias| ==> s'.alias[v] == s.alias[v];
  }

  lemma AllocHolds(s: Sh, t: nat, c: Call)
    requires Before(s, t, c, NgAlloc) && Wf(DoAlloc(s, t, c).sh)
    ensures NgOk(DoAlloc(s, t, c).sh, c, DoAlloc(s, t, c).pc) && NgInv(DoAlloc(s, t, c).sh, t, c, DoAlloc(s, t, c).pc)
  {
    var s' := DoAlloc(s, t, c).sh;
    TotalAtLeast(s.own, t, URef(|s.alias|));
    assert forall v :: 0 <= v < |s.alias| ==> s'.alias[v] == s.alias[v];
    assert Checked(s', c);
  }

  // ----- Insertion into the hash -----

  lemma HashinsCounts(s: Sh, t: nat, c: Call, v: nat)
    requires Before(s, t, c, NgHashins(v)) && FindIn(s, c.mp, c.l).None?
    ensures CountInv(DoHashins(s, t, c, v).sh)
  {
    var s' := DoHashins(s, t, c, v).sh;
    assert AliasInv(s, v);
    forall l | 0 <= l < |s.lower|
      ensures CountRef(s'.alias, l) == CountRef(s.alias, l) + (if l == c.l then 1 else 0)
      ensures LowerRest(s', l)
    {
      assert LowerInv(s, l);
      CountRefUpdate(s.alias, v, s'.alias[v], l);
      SumWcUpdate(s.alias, v, s'.alias[v], l);
    }
    Account(s, s', t);
  }

  lemma HashinsHash(s: Sh, t: nat, c: Call, v: nat)
    requires Before(s, t, c, NgHashins(v)) && FindIn(s, c.mp, c.l).None?
    ensures var s' := DoHashins(s, t, c, v).sh; Wf(s') && HashInv(s')
  {
    var s' := DoHashins(s, t, c, v).sh;
    var k := s.hidx[c.l];
    forall w | 0 <= w < |s.alias|
      ensures s'.alias[w].mount == s.alias[w].mount && s'.alias[w].lower == s.alias[w].lower
    {
    }
    forall b, i | 0 <= b < |s'.hash| && 0 <= i < |s'.hash[b]|
      ensures s'.hash[b][i] < |s'.alias| && s'.hidx[s'.alias[s'.hash[b][i]].lower] == b
    {
      if b == k && i > 0 { assert s'.hash[b][i] == s.hash[b][i - 1]; }
    }
    forall b, i, j | 0 <= b < |s'.hash| && 0 <= i < j < |s'.hash[b]|
      ensures !(s'.alias[s'.hash[b][i]].lower == s'.alias[s'.hash[b][j]].lower &&
                s'.alias[s'.hash[b][i]].mount == s'.alias[s'.hash[b][j]].mount)
    {
      if b == k {
        assert s'.hash[b][j] == s.hash[b][j - 1];
        if i > 0 { assert s'.hash[b][i] == s.hash[b][i - 1]; }
      }
    }
  }

  /** Another alias is there already. */
  lemma StepBeaten(s: Sh, t: nat, c: Call, v: nat)
    requires Before(s, t, c, NgHashins(v)) && FindIn(s, c.mp, c.l).Some?
    ensures NgGood(s, t, c, NgStep(s, t, c, NgHashins(v), false))
  {
    assert AliasInv(s, v);
    ScanFinds(s, t, c.mp, c.l);
    VrefStep(s, t, FindIn(s, c.mp, c.l).value);
  }

  lemma InsertShape(s: Sh, t: nat, c: Call, v: nat)
    requires Before(s, t, c, NgHashins(v)) && FindIn(s, c.mp, c.l).None?
    ensures var s' := DoHashins(s, t, c, v).sh;
            Wf(s') && HashInv(s') && CountInv(s') && AliasAndLower(s, s', t, v) && AliasInv(s', v) &&
            Hashed(s', v) && Controls(s, t, v)
  {
    assert AliasInv(s, v);
    HashinsCounts(s, t, c, v);
    HashinsHash(s, t, c, v);
    assert v in DoHashins(s, t, c, v).sh.hash[s.hidx[c.l]];
  }

  /** Nobody was first: the prototype becomes the alias. */
  lemma StepInsert(s: Sh, t: nat, c: Call, v: nat)
    requires Before(s, t, c, NgHashins(v)) && FindIn(s, c.mp, c.l).None?
    ensures NgGood(s, t, c, NgStep(s, t, c, NgHashins(v), false))
  {
    InsertShape(s, t, c, v);
    Both(s, DoHashins(s, t, c, v).sh, t, v);
  }

  lemma StepHashins(s: Sh, t: nat, c: Call, v: nat)
    requires Before(s, t, c, NgHashins(v))
    ensures NgGood(s, t, c, NgStep(s, t, c, NgHashins(v), false))
  {
    if FindIn(s, c.mp, c.l).Some? {
      StepBeaten(s, t, c, v);
    } else {
      StepInsert(s, t, c, v);
    }
  }

  /** Destroying a prototype ends tpt_nodeget, with the winner or with the error. */
  lemma DestroyEnds(s: Sh, t: nat, c: Call, v: nat, d: Cause, dp: DpPc)
    requires Inv(s) && t < |s.own| && c.l < |s.lower| && v < |s.alias| && (d.Lost? ==> d.ov < |s.alias|)
    requires DpInv(s, t, c, v, d, dp)
    ensures NgOk(s, c, AfterSection(v, d, dp)) && NgInv(s, t, c, AfterSection(v, d, dp))
  {
  }

  lemma StepDestroy(s: Sh, t: nat, c: Call, v: nat, d: Cause, dp: DpPc)
    requires Before(s, t, c, NgDestroy(v, d, dp)) && NgCan(s, t, c, NgDestroy(v, d, dp), false)
    ensures NgGood(s, t, c, NgStep(s, t, c, NgDestroy(v, d, dp), false))
  {
    DpStepGood(s, t, c, v, d, dp);
    var o := DpStep(s, t, v, dp);
    DestroyEnds(o.sh, t, c, v, d, o.pc);
  }

  lemma StepSearch(s: Sh, t: nat, c: Call, p: NgPc, fails: bool)
    requires Before(s, t, c, p) && NgCan(s, t, c, p, fails)
    requires p.NgTest? || p.NgScan? || p.NgHit? || p.NgMode? || p.NgUpgrade? || p.NgDoomCheck? || p.NgErrPut?
    ensures NgGood(s, t, c, NgStep(s, t, c, p, fails))
  {
    match p
    case NgTest =>
    case NgScan => StepScan(s, t, c);
    case NgHit(v) => StepHit(s, t, c, v);
    case NgMode => StepMode(s, t, c);
    case NgUpgrade => StepUpgrade(s, t, c);
    case NgDoomCheck =>
    case NgErrPut(err) => StepErrPut(s, t, c, err);
  }

  lemma StepBuild(s: Sh, t: nat, c: Call, p: NgPc, fails: bool)
    requires Before(s, t, c, p) && NgCan(s, t, c, p, fails)
    requires p.NgAlloc? || p.NgInsmntque? || p.NgDtrPut? || p.NgHashins? || p.NgLost? || p.NgDestroy?
    ensures NgGood(s, t, c, NgStep(s, t, c, p, fails))
  {
    match p
    case NgAlloc => if !fails { StepAlloc(s, t, c); }
    case NgInsmntque(v) => if !fails { StepInsmntque(s, t, c, v); }
    case NgDtrPut(v, err) => StepDtrPut(s, t, c, v, err);
    case NgHashins(v) => StepHashins(s, t, c, v);
    case NgLost(v, ov) => StepLost(s, t, c, v, ov);
    case NgDestroy(v, d, dp) => StepDestroy(s, t, c, v, d, dp);
  }

  /** Every section of tpt_nodeget, whether its primitive succeeds or fails. */
  lemma NgStepGood(s: Sh, t: nat, c: Call, p: NgPc, fails: bool)
    requires Before(s, t, c, p) && NgCan(s, t, c, p, fails)
    ensures NgGood(s, t, c, NgStep(s, t, c, p, fails))
  {
    if p.NgAlloc? || p.NgInsmntque? || p.NgDtrPut? || p.NgHashins? || p.NgLost? || p.NgDestroy? {
      StepBuild(s, t, c, p, fails);
    } else {
      StepSearch(s, t, c, p, fails);
    }
  }
}
