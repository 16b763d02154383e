/** What the lower filesystem and other kernel code do to the objects tptfs shares with them,
    and the write counts, tptfs/tpt_vnops.c:347-365. */
module Environment {
  import opened Options
  import opened Kernel
  import opened Invariant
  import opened Guarantee
  import opened Primitives
  import opened Locking

  /** One atomic action of a thread that runs no tptfs operation. */
  datatype Act =
    | RefLower(l: nat) | ReleLower(l: nat) | LockLower(l: nat, m: Mode) | UnlockLower(l: nat)
    | DoomLower(l: nat) | NosyncLower(l: nat) | RecycleLower(l: nat)
    | WriteLower(l: nat, inc: int) | TextLower(l: nat, on: bool)
    | RefAlias(v: nat) | SetDrop(v: nat) | AddWrite(v: nat, inc: int)

  ghost predicate ActCan(s: Sh, t: nat, a: Act)
    requires Wf(s) && t < |s.own|
  {
    match a
    case RefLower(l) => l < |s.lower| && !s.lower[l].freed
    case ReleLower(l) => l < |s.lower| && LRef(l) in s.own[t]
    case LockLower(l, m) => l < |s.lower| && LRef(l) in s.own[t] && Grantable(s.lower[l].lk, t, m)
    case UnlockLower(l) => l < |s.lower| && LMode(s, t, l) != Unheld
    case DoomLower(l) => l < |s.lower| && LMode(s, t, l) == Exclusive
    case NosyncLower(l) => l < |s.lower| && LMode(s, t, l) == Exclusive
    case RecycleLower(l) => l < |s.lower| && s.lower[l].doomed && s.lower[l].use == 0 &&
                            s.lower[l].hold == 0 && s.lower[l].lk == FREE_LOCK
    case WriteLower(l, inc) => l < |s.lower| && s.lower[l].direct + inc >= 0
    case TextLower(l, on) => l < |s.lower| && (if on then s.lower[l].wc <= 0 else s.lower[l].wc < 0)
    case RefAlias(v) =>
      v < |s.alias| && ((s.alias[v].onMount && !s.alias[v].doomed) || URef(v) in s.own[t])
    case SetDrop(v) =>
      v < |s.alias| && URef(v) in s.own[t] && !s.alias[v].doomed && HasLock(s, t, v, Exclusive)
    case AddWrite(v, inc) =>
      v < |s.alias| && URef(v) in s.own[t] && !s.alias[v].doomed && ModeOf(Named(s, v), t) != Unheld &&
      s.alias[v].wc + inc >= 0
  }

  function DoSetDrop(s: Sh, v: nat): Out<()>
    requires v < |s.alias|
  {
    if !s.alias[v].data then Panic(NullData) else Ok(PutA(s, v, s.alias[v].(drop := true)), ())
  }

  /** tpt_add_writecount: the lower vnode is asked first, and refuses while it is executed. */
  function DoAddWrite(s: Sh, v: nat, inc: int): Out<()>
    requires v < |s.alias| && s.alias[v].lower < |s.lower|
  {
    if !s.alias[v].data then Panic(NullData)
    else
      var (x, ok) := AddWc(s.lower[s.alias[v].lower], inc);
      if ok then Ok(PutA(PutL(s, s.alias[v].lower, x), v, s.alias[v].(wc := s.alias[v].wc + inc)), ())
      else Ok(s, ())
  }

  function DoWriteLower(s: Sh, l: nat, inc: int): Sh
    requires l < |s.lower|
  {
    var (x, ok) := AddWc(s.lower[l], inc);
    if ok then PutL(s, l, x.(direct := x.direct + inc)) else s
  }

  ghost function ActStep(s: Sh, t: nat, a: Act): Out<()>
    requires Wf(s) && t < |s.own| && ActCan(s, t, a)
  {
    match a
    case RefLower(l) => Ok(Gain(PutL(s, l, s.lower[l].(use := s.lower[l].use + 1)), t, LRef(l)), ())
    case ReleLower(l) => VreleL(s, t, l, ())
    case LockLower(l, m) => LockL(s, t, l, m, ())
    case UnlockLower(l) => UnlockL(s, t, l, ())
    case DoomLower(l) => Ok(PutL(s, l, s.lower[l].(doomed := true)), ())
    case NosyncLower(l) => Ok(PutL(s, l, s.lower[l].(nosync := true)), ())
    case RecycleLower(l) => Ok(PutL(s, l, s.lower[l].(freed := true)), ())
    case WriteLower(l, inc) => Ok(DoWriteLower(s, l, inc), ())
    case TextLower(l, on) => Ok(PutL(s, l, s.lower[l].(wc := s.lower[l].wc + (if on then -1 else 1))), ())
    case RefAlias(v) => Ok(VrefA(s, t, v), ())
    case SetDrop(v) => DoSetDrop(s, v)
    case AddWrite(v, inc) => DoAddWrite(s, v, inc)
  }

  ghost predicate ActGood(s: Sh, t: nat, o: Out<()>)
    requires Wf(s) && t < |s.own|
  {
    o.Ok? && Inv(o.sh) && Guar(s, o.sh, t) && o.sh.busy[t] == None
  }

  ghost predicate ActBefore(s: Sh, t: nat, a: Act) {
    Inv(s) && t < |s.own| && s.busy[t] == None && ActCan(s, t, a)
  }

  // ----- Lower vnodes -----

  lemma StepLowerUse(s: Sh, t: nat, a: Act)
    requires ActBefore(s, t, a) && (a.RefLower? || a.ReleLower? || a.LockLower? || a.UnlockLower?)
    ensures ActGood(s, t, ActStep(s, t, a))
  {
    match a
    case RefLower(l) =>
      OwnedInUse(s, t, l);
      OneLower(s, ActStep(s, t, a).sh, t, l);
    case ReleLower(l) => VreleLStep(s, t, l, ());
    case LockLower(l, m) => LockLStep(s, t, l, m, ());
    case UnlockLower(l) => UnlockLStep(s, t, l, ());
  }

  lemma StepLowerLife(s: Sh, t: nat, a: Act)
    requires ActBefore(s, t, a) && (a.DoomLower? || a.NosyncLower? || a.RecycleLower?)
    ensures ActGood(s, t, ActStep(s, t, a))
  {
    OwnedInUse(s, t, a.l);
    OneLower(s, ActStep(s, t, a).sh, t, a.l);
  }

  // ----- Write counts -----

  lemma {:induction false} SumWcPositive(a: seq<Alias>, l: nat)
    requires forall v :: 0 <= v < |a| ==> a[v].wc >= 0
    ensures SumWc(a, l) >= 0
  {
    if a != [] { SumWcPositive(a[..|a| - 1], l); }
  }

  /** A change of the write count of one lower vnode. */
  lemma WriteStep(s: Sh, t: nat, l: nat, x: Lower)
    requires Inv(s) && t < |s.own| && l < |s.lower|
    requires x == s.lower[l].(wc := x.wc, direct := x.direct) && LowerRest(PutL(s, l, x), l)
    ensures Inv(PutL(s, l, x)) && Guar(s, PutL(s, l, x), t)
  {
    var s' := PutL(s, l, x);
    forall m | 0 <= m < |s.lower|
      ensures LowerRest(s', m)
    {
      assert LowerInv(s, m);
    }
    Account(s, s', t);
    forall v | 0 <= v < |s.alias|
      ensures AliasInv(s', v) && ExposedInUse(s', v)
    {
      assert AliasInv(s, v) && ExposedInUse(s, v);
    }
  }

  lemma StepLowerWrite(s: Sh, t: nat, a: Act)
    requires ActBefore(s, t, a) && (a.WriteLower? || a.TextLower?)
    ensures ActGood(s, t, ActStep(s, t, a))
  {
    OwnedInUse(s, t, a.l);
    forall v | 0 <= v < |s.alias|
      ensures s.alias[v].wc >= 0
    {
      assert AliasInv(s, v);
    }
    SumWcPositive(s.alias, a.l);
    WriteStep(s, t, a.l, ActStep(s, t, a).sh.lower[a.l]);
  }

  /** The counts after a write through an alias. */
  lemma AddWriteCounts(s: Sh, t: nat, v: nat, inc: int)
    requires ActBefore(s, t, AddWrite(v, inc)) && s.alias[v].data && s.lower[s.alias[v].lower].wc >= 0
    ensures CountInv(DoAddWrite(s, v, inc).sh)
  {
    var s' := DoAddWrite(s, v, inc).sh;
    forall w | 0 <= w < |s.alias|
      ensures s.alias[w].wc >= 0
    {
      assert AliasInv(s, w);
    }
    SumWcBound(s.alias, v, s.alias[v].lower);
    forall l | 0 <= l < |s.lower|
      ensures CountRef(s'.alias, l) == CountRef(s.alias, l) && LowerRest(s', l)
    {
      assert LowerInv(s, l);
      CountRefUpdate(s.alias, v, s'.alias[v], l);
      SumWcUpdate(s.alias, v, s'.alias[v], l);
    }
    Account(s, s', t);
  }

  lemma AddWriteHash(s: Sh, t: nat, v: nat, inc: int)
    requires ActBefore(s, t, AddWrite(v, inc)) && Live(s, v) && s.lower[s.alias[v].lower].wc >= 0
    ensures var s' := DoAddWrite(s, v, inc).sh; Wf(s') && HashInv(s')
  {
    var s' := DoAddWrite(s, v, inc).sh;
    forall w | 0 <= w < |s.alias|
      ensures s'.alias[w].lower == s.alias[w].lower && s'.alias[w].mount == s.alias[w].mount
      ensures s'.alias[w].agent == s.alias[w].agent
    {
    }
  }

  lemma AddWriteAlias(s: Sh, t: nat, v: nat, inc: int, w: nat)
    requires ActBefore(s, t, AddWrite(v, inc)) && Live(s, v) && s.lower[s.alias[v].lower].wc >= 0
    requires Wf(DoAddWrite(s, v, inc).sh) && w < |s.alias|
    ensures AliasInv(DoAddWrite(s, v, inc).sh, w) && ExposedInUse(DoAddWrite(s, v, inc).sh, w)
  {
    var s' := DoAddWrite(s, v, inc).sh;
    assert AliasInv(s, w) && ExposedInUse(s, w);
    CountRefUpdate(s.alias, v, s'.alias[v], s.alias[w].lower);
  }

  lemma AddWriteAliases(s: Sh, t: nat, v: nat, inc: int)
    requires ActBefore(s, t, AddWrite(v, inc)) && Live(s, v) && s.lower[s.alias[v].lower].wc >= 0
    ensures var s' := DoAddWrite(s, v, inc).sh; Wf(s') && HashInv(s')
    ensures forall w :: 0 <= w < |s.alias| ==>
              AliasInv(DoAddWrite(s, v, inc).sh, w) && ExposedInUse(DoAddWrite(s, v, inc).sh, w)
  {
    AddWriteHash(s, t, v, inc);
    forall w | 0 <= w < |s.alias|
      ensures AliasInv(DoAddWrite(s, v, inc).sh, w) && ExposedInUse(DoAddWrite(s, v, inc).sh, w)
    {
      AddWriteAlias(s, t, v, inc, w);
    }
  }

  /** tpt_add_writecount: both counts move together, or not at all when the lower vnode refuses, and
      nothing else moves. */
  lemma StepAddWrite(s: Sh, t: nat, v: nat, inc: int)
    requires ActBefore(s, t, AddWrite(v, inc))
    ensures ActGood(s, t, DoAddWrite(s, v, inc))
    ensures var s', l := DoAddWrite(s, v, inc).sh, s.alias[v].lower;
            && |s'.alias| == |s.alias| && |s'.lower| == |s.lower| && s'.own == s.own && s'.hash == s.hash
            && s'.lower[l].wc - s.lower[l].wc == s'.alias[v].wc - s.alias[v].wc
            && s'.alias[v].wc == s.alias[v].wc + (if s.lower[l].wc < 0 then 0 else inc)
            && s'.lower[l].direct == s.lower[l].direct
            && (forall w :: 0 <= w < |s.alias| && w != v ==> s'.alias[w] == s.alias[w])
            && (forall m :: 0 <= m < |s.lower| && m != l ==> s'.lower[m] == s.lower[m])
  {
    OwnedIsMounted(s, t, v);
    LockedIsLive(s, t, v);
    if s.lower[s.alias[v].lower].wc >= 0 {
      AddWriteCounts(s, t, v, inc);
      AddWriteAliases(s, t, v, inc);
    }
  }

  // ----- Aliases -----

  lemma StepAlias(s: Sh, t: nat, a: Act)
    requires ActBefore(s, t, a) && (a.RefAlias? || a.SetDrop?)
    ensures ActGood(s, t, ActStep(s, t, a))
  {
    assert AliasInv(s, a.v);
    match a
    case RefAlias(v) =>
      OwnedAlias(s, t, v);
      VrefStep(s, t, v);
    case SetDrop(v) =>
      LockedIsLive(s, t, v);
      OneAlias(s, DoSetDrop(s, v).sh, t, v);
  }

  /** tpt_remove, tpt_rename and tpt_rmdir mark their alias with NULLV_DROP, and nothing else moves. */
  lemma DropMarks(s: Sh, t: nat, v: nat)
    requires ActBefore(s, t, SetDrop(v))
    ensures var o := DoSetDrop(s, v);
            o.Ok? && |o.sh.alias| == |s.alias| && o.sh == s.(alias := o.sh.alias) && o.sh.alias[v].drop
            && o.sh.alias[v] == s.alias[v].(drop := o.sh.alias[v].drop)
            && (forall w :: 0 <= w < |s.alias| && w != v ==> o.sh.alias[w] == s.alias[w])
  {
    OwnedIsMounted(s, t, v);
    LockedIsLive(s, t, v);
  }

  /** Every action keeps the invariant and the guarantee. */
  lemma ActStepGood(s: Sh, t: nat, a: Act)
    requires ActBefore(s, t, a)
    ensures ActGood(s, t, ActStep(s, t, a))
  {
    match a
    case RefAlias(_) => StepAlias(s, t, a);
    case SetDrop(_) => StepAlias(s, t, a);
    case AddWrite(v, inc) => StepAddWrite(s, t, v, inc);
    case DoomLower(_) => StepLowerLife(s, t, a);
    case NosyncLower(_) => StepLowerLife(s, t, a);
    case RecycleLower(_) => StepLowerLife(s, t, a);
    case WriteLower(_, _) => StepLowerWrite(s, t, a);
    case TextLower(_, _) => StepLowerWrite(s, t, a);
    case _ => StepLowerUse(s, t, a);
  }
}
