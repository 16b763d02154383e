/** Each kernel primitive, used by a thread entitled to it, keeps the shared invariant and
    the guarantee. */
module Primitives {
  import opened Options
  import opened Kernel
  import opened Invariant
  import opened Guarantee

  /** A primitive on lower vnode `l` that went well. */
  ghost predicate LowerGood<P>(s: Sh, t: nat, l: nat, o: Out<P>)
    requires Wf(s) && t < |s.own|
  {
    o.Ok? && Inv(o.sh) && Guar(s, o.sh, t) && OnlyLower(s, o.sh, t, l)
  }

  /** The thread does no work on an alias of `l` that needs the lock of `l`. */
  ghost predicate MayUnlock(s: Sh, t: nat, l: nat)
    requires Wf(s) && t < |s.own|
  {
    s.busy[t].Some? && s.busy[t].value < |s.alias| && s.alias[s.busy[t].value].lower == l ==>
      s.alias[s.busy[t].value].agent == t ==> !NeedsLock(s.alias[s.busy[t].value])
  }

  /** The thread exposes no prototype on `l` that only its reference keeps in use. */
  ghost predicate MayRele(s: Sh, t: nat, l: nat)
    requires Wf(s) && t < |s.own|
  {
    s.busy[t].Some? && s.busy[t].value < |s.alias| && s.alias[s.busy[t].value].lower == l ==>
      Exposed(s.alias[s.busy[t].value]) ==> CountRef(s.alias, l) >= 1
  }

  lemma UnlockLStep<P>(s: Sh, t: nat, l: nat, p: P)
    requires Inv(s) && t < |s.own| && l < |s.lower| && LMode(s, t, l) != Unheld && MayUnlock(s, t, l)
    ensures LowerGood(s, t, l, UnlockL(s, t, l, p))
  {
    OwnedInUse(s, t, l);
    OneLower(s, UnlockL(s, t, l, p).sh, t, l);
  }

  lemma VreleLStep<P>(s: Sh, t: nat, l: nat, p: P)
    requires Inv(s) && t < |s.own| && l < |s.lower| && LRef(l) in s.own[t] && MayRele(s, t, l)
    ensures LowerGood(s, t, l, VreleL(s, t, l, p))
  {
    OwnedInUse(s, t, l);
    OneLower(s, VreleL(s, t, l, p).sh, t, l);
  }

  lemma VputLStep<P>(s: Sh, t: nat, l: nat, p: P)
    requires Inv(s) && t < |s.own| && l < |s.lower| && LMode(s, t, l) != Unheld && MayUnlock(s, t, l)
    requires LRef(l) in s.own[t] && MayRele(s, t, l)
    ensures LowerGood(s, t, l, VputL(s, t, l, p))
  {
    OwnedInUse(s, t, l);
    OneLower(s, VputL(s, t, l, p).sh, t, l);
  }

  lemma LockLStep<P>(s: Sh, t: nat, l: nat, m: Mode, p: P)
    requires Inv(s) && t < |s.own| && l < |s.lower| && Grantable(s.lower[l].lk, t, m)
    requires LRef(l) in s.own[t] || Hold(l) in s.own[t]
    ensures LowerGood(s, t, l, LockL(s, t, l, m, p))
  {
    OwnedInUse(s, t, l);
    OneLower(s, LockL(s, t, l, m, p).sh, t, l);
  }

  /** A sharer alone becomes the exclusive owner. */
  lemma UpgradeStep(s: Sh, t: nat, l: nat)
    requires Inv(s) && t < |s.own| && l < |s.lower| && s.lower[l].lk == SharedBy({t})
    ensures var s' := PutL(s, l, s.lower[l].(lk := ExclBy(t)));
            Inv(s') && Guar(s, s', t) && OnlyLower(s, s', t, l)
  {
    OwnedInUse(s, t, l);
    OneLower(s, PutL(s, l, s.lower[l].(lk := ExclBy(t))), t, l);
  }

  /** An exclusive owner that is not working on an alias of `l` becomes a sharer. */
  lemma DowngradeStep(s: Sh, t: nat, l: nat)
    requires Inv(s) && t < |s.own| && l < |s.lower| && s.lower[l].lk == ExclBy(t) && MayUnlock(s, t, l)
    ensures var s' := PutL(s, l, s.lower[l].(lk := SharedBy({t})));
            Inv(s') && Guar(s, s', t) && OnlyLower(s, s', t, l)
  {
    OwnedInUse(s, t, l);
    OneLower(s, PutL(s, l, s.lower[l].(lk := SharedBy({t}))), t, l);
  }

  lemma VholdLStep<P>(s: Sh, t: nat, l: nat, p: P)
    requires Inv(s) && t < |s.own| && l < |s.lower| && !s.lower[l].freed
    requires s.lower[l].use >= 1 || s.lower[l].hold >= 1
    ensures LowerGood(s, t, l, VholdL(s, t, l, p))
  {
    OwnedInUse(s, t, l);
    OneLower(s, VholdL(s, t, l, p).sh, t, l);
  }

  lemma VdropLStep<P>(s: Sh, t: nat, l: nat, p: P)
    requires Inv(s) && t < |s.own| && l < |s.lower| && Hold(l) in s.own[t]
    ensures LowerGood(s, t, l, VdropL(s, t, l, p))
  {
    OwnedInUse(s, t, l);
    OneLower(s, VdropL(s, t, l, p).sh, t, l);
  }

  /** A primitive on alias `v` that went well and left its core alone. */
  ghost predicate AliasGood<P>(s: Sh, t: nat, v: nat, o: Out<P>)
    requires Wf(s) && t < |s.own|
  {
    o.Ok? && Inv(o.sh) && Guar(s, o.sh, t) && OnlyAlias(s, o.sh, t, v) && SameCore(s, o.sh, v) &&
    o.sh.busy == s.busy
  }

  /** Taking a reference to a mounted alias. */
  lemma VrefStep(s: Sh, t: nat, v: nat)
    requires Inv(s) && t < |s.own| && v < |s.alias| && s.alias[v].onMount
    requires !(s.alias[v].doomed && s.alias[v].use == 0)
    ensures AliasGood(s, t, v, Ok(VrefA(s, t, v), ()))
  {
    assert AliasInv(s, v);
    OneAlias(s, VrefA(s, t, v), t, v);
  }

  lemma UnrefKeeps(s: Sh, s': Sh, t: nat, v: nat)
    requires Inv(s) && t < |s.own| && v < |s.alias| && URef(v) in s.own[t] && s.alias[v].use >= 1
    requires s' == Lose(PutA(s, v, s.alias[v].(use := s.alias[v].use - 1)), t, URef(v))
    ensures Inv(s') && Guar(s, s', t) && OnlyAlias(s, s', t, v) && SameCore(s, s', v) && s'.busy == s.busy
  {
    assert AliasInv(s, v);
    OneAlias(s, s', t, v);
  }

  lemma UnrefStep<P>(s: Sh, t: nat, v: nat, p: P)
    requires Inv(s) && t < |s.own| && v < |s.alias| && URef(v) in s.own[t]
    ensures AliasGood(s, t, v, UnrefA(s, t, v, p))
  {
    OwnedAlias(s, t, v);
    var s' := Lose(PutA(s, v, s.alias[v].(use := s.alias[v].use - 1)), t, URef(v));
    assert UnrefA(s, t, v, p) == Ok(s', p);
    UnrefKeeps(s, s', t, v);
  }

  /** Releasing the private lock of a doomed alias. */
  lemma UnlockOwnStep<P>(s: Sh, t: nat, v: nat, p: P)
    requires Inv(s) && t < |s.own| && v < |s.alias| && !s.alias[v].data && s.alias[v].doomed
    requires PMode(s, t, v) != Unheld
    ensures AliasGood(s, t, v, UnlockNamed(s, t, v, p))
  {
    assert AliasInv(s, v);
    OneAlias(s, UnlockNamed(s, t, v, p).sh, t, v);
  }

  lemma VputOwnStep<P>(s: Sh, t: nat, v: nat, p: P)
    requires Inv(s) && t < |s.own| && v < |s.alias| && !s.alias[v].data && s.alias[v].doomed
    requires PMode(s, t, v) != Unheld
    requires URef(v) in s.own[t]
    ensures AliasGood(s, t, v, VputA(s, t, v, p))
  {
    OwnedAlias(s, t, v);
    assert AliasInv(s, v);
    var a := s.alias[v].(plk := Release(s.alias[v].plk, t), use := s.alias[v].use - 1);
    var s' := Lose(PutA(s, v, a), t, URef(v));
    assert VputA(s, t, v, p) == Ok(s', p);
    OneAlias(s, s', t, v);
  }

  /** The private lock is granted to a thread that is leaving the shared one, or that locks
      an alias without data. */
  lemma PrivateLockStep(s: Sh, t: nat, v: nat)
    requires Inv(s) && t < |s.own| && v < |s.alias| && Grantable(s.alias[v].plk, t, Exclusive)
    requires Working(s, t, v) && s.alias[v].data && (s.alias[v].doomed || !s.alias[v].lref)
    ensures AliasGood(s, t, v, Ok(PrivateLock(s, t, v), ()))
  {
    assert AliasInv(s, v);
    OneAlias(s, PrivateLock(s, t, v), t, v);
  }

  /** A lock request on an alias without data is one on its private lock. */
  lemma LockOwnStep<P>(s: Sh, t: nat, v: nat, m: Mode, p: P)
    requires Inv(s) && t < |s.own| && v < |s.alias| && !s.alias[v].data && Grantable(Named(s, v), t, m)
    ensures AliasGood(s, t, v, LockNamed(s, t, v, m, p))
  {
    assert AliasInv(s, v);
    OneAlias(s, LockNamed(s, t, v, m, p).sh, t, v);
  }

  /** A sharer alone of the private lock becomes its exclusive owner. */
  lemma UpgradeOwnStep(s: Sh, t: nat, v: nat)
    requires Inv(s) && t < |s.own| && v < |s.alias| && !s.alias[v].data && s.alias[v].plk == SharedBy({t})
    ensures AliasGood(s, t, v, Ok(PrivateLock(s, t, v), ()))
  {
    assert AliasInv(s, v);
    OneAlias(s, PrivateLock(s, t, v), t, v);
  }

  /** The exclusive owner of the private lock of a doomed alias becomes a sharer. */
  lemma DowngradeOwnStep(s: Sh, t: nat, v: nat)
    requires Inv(s) && t < |s.own| && v < |s.alias| && !s.alias[v].data && s.alias[v].doomed
    requires s.alias[v].plk == ExclBy(t)
    ensures AliasGood(s, t, v, Ok(PutA(s, v, s.alias[v].(plk := SharedBy({t}))), ()))
  {
    assert AliasInv(s, v);
    OneAlias(s, PutA(s, v, s.alias[v].(plk := SharedBy({t}))), t, v);
  }

  /** What a search under the lower lock finds. */
  lemma ScanFinds(s: Sh, t: nat, mp: nat, l: nat)
    requires Inv(s) && t < |s.own| && l < |s.lower| && LMode(s, t, l) != Unheld
    requires s.busy[t].Some? ==> s.busy[t].value < |s.alias| && !s.alias[s.busy[t].value].lref
    ensures var r := FindIn(s, mp, l);
            if r.Some? then
              r.value < |s.alias| && Live(s, r.value) && Match(s.alias[r.value], mp, l) &&
              s.alias[r.value].onMount && s.busy[t] != Some(r.value) && !s.alias[r.value].noUnlock
            else NoNode(s, mp, l)
  {
    var r := FindIn(s, mp, l);
    if r.Some? {
      assert Hashed(s, r.value);
      assert AliasInv(s, r.value);
      HeldIsLive(s, t, r.value);
    }
  }
}
