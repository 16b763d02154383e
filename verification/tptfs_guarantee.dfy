/** Rely and guarantee: what a section of one thread leaves alone for all others, and the
    three shapes sections have. */
module Guarantee {
  import opened Options
  import opened Kernel
  import opened Invariant

  /** The fields of `v` that the thread in control of it relies on. */
  ghost predicate SameCore(s: Sh, s': Sh, v: nat)
    requires Wf(s) && Wf(s') && v < |s.alias| <= |s'.alias|
  {
    var a, a' := s.alias[v], s'.alias[v];
    a'.agent == a.agent && a'.data == a.data && a'.vnlk == a.vnlk && a'.doomed == a.doomed &&
    a'.dead == a.dead && a'.onMount == a.onMount && a'.freed == a.freed && a'.drop == a.drop &&
    a'.noUnlock == a.noUnlock && a'.lref == a.lref && (Hashed(s', v) <==> Hashed(s, v))
  }

  /** Who may change an alias: the exclusive holder of the shared lock of a live one, the
      thread working on any other. */
  ghost predicate Controls(s: Sh, t: nat, v: nat)
    requires Wf(s) && t < |s.own| && v < |s.alias|
  {
    if Live(s, v) then LMode(s, t, s.alias[v].lower) == Exclusive else Working(s, t, v)
  }

  /** Moves no alias ever makes backwards. */
  ghost predicate Onward(s: Sh, s': Sh, v: nat)
    requires v < |s.alias| <= |s'.alias|
  {
    var a, a' := s.alias[v], s'.alias[v];
    && a'.mount == a.mount && a'.lower == a.lower
    && (a.doomed ==> a'.doomed) && (a.onMount ==> a'.onMount) && (a.freed ==> a'.freed)
    && (!a.data ==> !a'.data) && (a.vnlk == Own ==> a'.vnlk == Own)
    && (a.doomed && a.use == 0 ==> a'.use == 0)
    && (a.lref && !a'.doomed ==> a'.lref)
  }

  /** A lower vnode is doomed or marked VV_NOSYNC by the thread that has it exclusively locked, and
      for ever. */
  ghost predicate Marks(s: Sh, s': Sh, t: nat, l: nat)
    requires l < |s.lower| == |s'.lower|
  {
    var x, x' := s.lower[l], s'.lower[l];
    && (x.doomed ==> x'.doomed) && (x.nosync ==> x'.nosync)
    && (LMode(s, t, l) != Exclusive ==> x'.doomed == x.doomed && x'.nosync == x.nosync)
  }

  ghost predicate Guar(s: Sh, s': Sh, t: nat)
    requires Wf(s) && t < |s.own|
  {
    && Wf(s')
    && |s'.own| == |s.own| && |s'.lower| == |s.lower| && |s.alias| <= |s'.alias|
    && s'.hidx == s.hidx && |s'.hash| == |s.hash| && s'.cached == s.cached
    && (forall u :: 0 <= u < |s.own| && u != t ==> s'.own[u] == s.own[u])
    && (forall u :: 0 <= u < |s.own| && u != t ==> s'.busy[u] == s.busy[u])
    && (forall l, u: nat :: 0 <= l < |s.lower| && u != t ==> LMode(s', u, l) == LMode(s, u, l))
    && (forall v, u: nat :: 0 <= v < |s.alias| && u != t ==> PMode(s', u, v) == PMode(s, u, v))
    && (forall l :: 0 <= l < |s.lower| ==> Marks(s, s', t, l))
    && (forall v :: 0 <= v < |s.alias| ==> Onward(s, s', v))
    && (forall v :: 0 <= v < |s.alias| ==> SameCore(s, s', v) || Controls(s, t, v))
    // A node enters the hash by the hand of the exclusive holder of its lower lock, once.
    && (forall v :: 0 <= v < |s'.alias| && Hashed(s', v) ==>
          v < |s.alias| && (Hashed(s, v) || (LMode(s, t, s.alias[v].lower) == Exclusive && !s.alias[v].doomed)))
  }

  // ----- What a thread may keep -----

  /** A live alias stays live while a thread holds the shared lock. */
  lemma LiveKept(s: Sh, s': Sh, t: nat, u: nat, v: nat)
    requires Wf(s) && t < |s.own| && Guar(s, s', t) && u != t && v < |s.alias|
    requires Live(s, v) && LMode(s, u, s.alias[v].lower) != Unheld
    ensures SameCore(s, s', v) && Onward(s, s', v) && Live(s', v)
  {
    assert SameCore(s, s', v) || Controls(s, t, v);
    assert Onward(s, s', v);
  }

  /** The work of a thread stays its own. */
  lemma WorkKept(s: Sh, s': Sh, t: nat, u: nat, v: nat)
    requires Inv(s) && t < |s.own| && Guar(s, s', t) && u < |s.own| && u != t && v < |s.alias|
    requires Working(s, u, v) && (Live(s, v) ==> LMode(s, u, s.alias[v].lower) != Unheld)
    ensures SameCore(s, s', v) && Onward(s, s', v) && Working(s', u, v)
  {
    assert SameCore(s, s', v) || Controls(s, t, v);
    assert Onward(s, s', v);
  }

  /** While a thread has the lock v_vnlock names, v_vnlock does not move. */
  lemma NamedKept(s: Sh, s': Sh, t: nat, u: nat, v: nat)
    requires Inv(s) && t < |s.own| && Guar(s, s', t) && u < |s.own| && u != t && v < |s.alias|
    requires s.alias[v].onMount && ModeOf(Named(s, v), u) != Unheld
    ensures s'.alias[v].vnlk == s.alias[v].vnlk && s'.alias[v].data == s.alias[v].data
    ensures ModeOf(Named(s', v), u) == ModeOf(Named(s, v), u)
    ensures s.alias[v].data ==> SameCore(s, s', v)
  {
    assert AliasInv(s, v);
    assert Onward(s, s', v);
    assert LMode(s', u, s.alias[v].lower) == LMode(s, u, s.alias[v].lower);
    assert PMode(s', u, v) == PMode(s, u, v);
    assert SameCore(s, s', v) || Controls(s, t, v);
  }

  ghost predicate NoNode(s: Sh, mp: nat, l: nat)
    requires Wf(s)
  {
    forall v :: 0 <= v < |s.alias| && Hashed(s, v) ==> !Match(s.alias[v], mp, l)
  }

  /** Nobody adds an alias of `l` while a thread has `l` exclusively locked. */
  lemma NoNodeKept(s: Sh, s': Sh, t: nat, u: nat, mp: nat, l: nat)
    requires Wf(s) && t < |s.own| && Guar(s, s', t) && u != t && l < |s.lower|
    requires NoNode(s, mp, l) && LMode(s, u, l) == Exclusive
    ensures NoNode(s', mp, l)
  {
    forall v | 0 <= v < |s'.alias| && Hashed(s', v)
      ensures !Match(s'.alias[v], mp, l)
    {
      assert v < |s.alias|;
      assert Onward(s, s', v);
    }
  }

  // ----- Accounting -----

  ghost function Delta(s: Sh, s': Sh, t: nat, r: Res): int
    requires t < |s.own| == |s'.own|
  {
    s'.own[t][r] as int - s.own[t][r] as int
  }

  /** What the sums see of an alias. */
  function Share(a: Alias): (nat, bool, int) {
    (a.lower, a.lref, if a.data then a.wc else 0)
  }

  lemma {:induction false} SumsSame(a: seq<Alias>, a': seq<Alias>, l: nat)
    requires |a| == |a'| && forall v :: 0 <= v < |a| ==> Share(a'[v]) == Share(a[v])
    ensures CountRef(a', l) == CountRef(a, l) && SumWc(a', l) == SumWc(a, l)
  {
    if a != [] {
      var n := |a| - 1;
      assert Share(a'[n]) == Share(a[n]);
      assert forall v :: 0 <= v < n ==> a[..n][v] == a[v] && a'[..n][v] == a'[v];
      SumsSame(a[..n], a'[..n], l);
    }
  }

  /** The general accounting step: a count changes by what the thread gained and the nodes
      gained. */
  lemma Account(s: Sh, s': Sh, t: nat)
    requires CountInv(s) && t < |s.own| && |s'.lower| == |s.lower| && |s'.alias| == |s.alias|
    requires |s'.own| == |s.own| && s'.own == s.own[t := s'.own[t]]
    requires forall v :: 0 <= v < |s.alias| ==>
               s'.alias[v].use - s.alias[v].use == Delta(s, s', t, URef(v))
    requires forall v: nat :: |s.alias| <= v ==> Delta(s, s', t, URef(v)) == 0
    requires forall l :: 0 <= l < |s.lower| ==>
               s'.lower[l].use - s.lower[l].use ==
               Delta(s, s', t, LRef(l)) + CountRef(s'.alias, l) - CountRef(s.alias, l)
    requires forall l :: 0 <= l < |s.lower| ==> s'.lower[l].hold - s.lower[l].hold == Delta(s, s', t, Hold(l))
    requires forall l :: 0 <= l < |s.lower| ==> LowerRest(s', l)
    ensures CountInv(s')
  {
    forall v | 0 <= v < |s.alias|
      ensures AliasCount(s', v)
    {
      assert AliasCount(s, v);
      TotalUpdate(s.own, t, s'.own[t], URef(v));
    }
    forall v: nat | |s.alias| <= v
      ensures Total(s'.own, URef(v)) == 0
    {
      TotalUpdate(s.own, t, s'.own[t], URef(v));
    }
    forall l | 0 <= l < |s.lower|
      ensures LowerInv(s', l)
    {
      assert LowerInv(s, l) && LowerRest(s', l);
      TotalUpdate(s.own, t, s'.own[t], LRef(l));
      TotalUpdate(s.own, t, s'.own[t], Hold(l));
    }
  }

  /** The lock of `l` has an existing owner and its vnode is not recycled while in use. */
  ghost predicate LockOk(s: Sh, l: nat)
    requires l < |s.lower|
  {
    (s.lower[l].lk.ExclBy? ==> s.lower[l].lk.owner < |s.own|) &&
    (s.lower[l].freed ==> s.lower[l].use == 0 && s.lower[l].hold == 0 && s.lower[l].lk == FREE_LOCK)
  }

  // ----- Shape 1: one lower vnode changes -----

  ghost predicate OnlyLower(s: Sh, s': Sh, t: nat, l: nat) {
    && t < |s.own| == |s'.own| && l < |s.lower| == |s'.lower|
    && s' == s.(lower := s.lower[l := s'.lower[l]], own := s.own[t := s'.own[t]])
    && (forall u: nat :: u != t ==> LMode(s', u, l) == LMode(s, u, l))
  }

  /** Thread `t` gained and lost references and holds of `l` only, and they are counted. */
  ghost predicate LowerDelta(s: Sh, s': Sh, t: nat, l: nat)
    requires t < |s.own| == |s'.own| && l < |s.lower| == |s'.lower|
  {
    && LockOk(s', l) && Marks(s, s', t, l)
    && s'.lower[l].wc == s.lower[l].wc && s'.lower[l].direct == s.lower[l].direct
    && s'.lower[l].use - s.lower[l].use == Delta(s, s', t, LRef(l))
    && s'.lower[l].hold - s.lower[l].hold == Delta(s, s', t, Hold(l))
    && (forall r :: r != LRef(l) && r != Hold(l) ==> s'.own[t][r] == s.own[t][r])
  }

  /** The thread does not give up the last reference to `l` while others may find its
      prototype. */
  ghost predicate SpareStays(s: Sh, s': Sh, t: nat, l: nat)
    requires Wf(s) && t < |s.own| == |s'.own| && l < |s.lower| == |s'.lower|
  {
    forall v :: 0 <= v < |s.alias| && Working(s, t, v) && Exposed(s.alias[v]) && s.alias[v].lower == l ==>
      LRef(l) !in s.own[t] || LRef(l) in s'.own[t] || CountRef(s.alias, l) >= 1
  }

  /** The thread does not give up a lock its work on an alias needs. */
  ghost predicate LockStays(s: Sh, s': Sh, t: nat, l: nat)
    requires Wf(s) && t < |s.own| && l < |s.lower| == |s'.lower|
  {
    forall v :: 0 <= v < |s.alias| && Working(s, t, v) && NeedsLock(s.alias[v]) && s.alias[v].lower == l ==>
      LMode(s, t, l) == Exclusive ==> LMode(s', t, l) == Exclusive
  }

  lemma CountLower(s: Sh, s': Sh, t: nat, l: nat)
    requires CountInv(s) && OnlyLower(s, s', t, l) && LowerDelta(s, s', t, l)
    ensures CountInv(s')
  {
    forall m | 0 <= m < |s.lower|
      ensures LowerRest(s', m)
    {
      assert LowerInv(s, m);
    }
    Account(s, s', t);
  }

  lemma LowerExposed(s: Sh, s': Sh, t: nat, l: nat)
    requires Inv(s) && OnlyLower(s, s', t, l) && LowerDelta(s, s', t, l) && SpareStays(s, s', t, l)
    ensures Wf(s') && forall v :: 0 <= v < |s.alias| ==> ExposedInUse(s', v)
  {
    forall v | 0 <= v < |s.alias|
      ensures ExposedInUse(s', v)
    {
      var m := s.alias[v].lower;
      assert ExposedInUse(s, v) && AliasInv(s, v);
      if m != l { assert s'.own[t][LRef(m)] == s.own[t][LRef(m)]; }
    }
  }

  lemma OneLower(s: Sh, s': Sh, t: nat, l: nat)
    requires Inv(s) && OnlyLower(s, s', t, l) && LowerDelta(s, s', t, l) && LockStays(s, s', t, l)
    requires SpareStays(s, s', t, l)
    ensures Inv(s') && Guar(s, s', t)
  {
    CountLower(s, s', t, l);
    LowerExposed(s, s', t, l);
    forall v | 0 <= v < |s.alias|
      ensures AliasInv(s', v)
    {
      assert AliasInv(s, v);
      assert s'.own[t][URef(v)] == s.own[t][URef(v)];
      if NeedsLock(s.alias[v]) && s.alias[v].lower == l && s.alias[v].agent != t {
        assert LMode(s', s.alias[v].agent, l) == LMode(s, s.alias[v].agent, l);
      }
    }
  }

  // ----- Shape 2: one alias changes -----

  /** `s'` differs from `s` in alias `v` and in what thread `t` owns and works on. */
  ghost predicate OnlyAlias(s: Sh, s': Sh, t: nat, v: nat) {
    && t < |s.own| == |s'.own| && t < |s.busy| == |s'.busy| && v < |s.alias| == |s'.alias|
    && s' == s.(alias := s.alias[v := s'.alias[v]], own := s.own[t := s'.own[t]],
                busy := s.busy[t := s'.busy[t]])
    && s'.alias[v].agent < |s.own| && Onward(s, s', v)
    && (forall u: nat :: u != t ==> PMode(s', u, v) == PMode(s, u, v))
  }

  ghost predicate AliasDelta(s: Sh, s': Sh, t: nat, v: nat)
    requires t < |s.own| == |s'.own| && v < |s.alias| == |s'.alias|
  {
    && Share(s'.alias[v]) == Share(s.alias[v])
    && s'.alias[v].use - s.alias[v].use == Delta(s, s', t, URef(v))
    && (forall r :: r != URef(v) ==> s'.own[t][r] == s.own[t][r])
  }

  /** A thread turns to another alias only when it is not working on a third one. */
  ghost predicate BusyOk(s: Sh, s': Sh, t: nat, v: nat)
    requires t < |s.busy| == |s'.busy|
  {
    s'.busy[t] == s.busy[t] || s.busy[t] == None || s.busy[t] == Some(v)
  }

  lemma CountAlias(s: Sh, s': Sh, t: nat, v: nat)
    requires CountInv(s) && OnlyAlias(s, s', t, v) && AliasDelta(s, s', t, v)
    ensures CountInv(s')
  {
    forall l | 0 <= l < |s.lower|
      ensures CountRef(s'.alias, l) == CountRef(s.alias, l) && LowerRest(s', l)
    {
      assert LowerInv(s, l);
      SumsSame(s.alias, s'.alias, l);
    }
    Account(s, s', t);
  }

  /** Aliases other than the one that changed keep their invariant. */
  lemma OtherAlias(s: Sh, s': Sh, t: nat, v: nat, w: nat)
    requires Wf(s) && Wf(s') && OnlyAlias(s, s', t, v) && BusyOk(s, s', t, v)
    requires w < |s.alias| && w != v && AliasInv(s, w) && s'.own[t][URef(w)] == s.own[t][URef(w)]
    ensures AliasInv(s', w)
  {
  }

  /** A thread exposes its prototype only while it has the spare reference. */
  ghost predicate SpareAtMount(s: Sh, s': Sh, t: nat, v: nat)
    requires v < |s.alias| == |s'.alias| && t < |s'.own|
  {
    var a, a' := s.alias[v], s'.alias[v];
    Exposed(a') ==> (Exposed(a) && a'.agent == a.agent) || (a'.agent == t && LRef(a.lower) in s'.own[t])
  }

  lemma AliasExposed(s: Sh, s': Sh, t: nat, v: nat)
    requires Inv(s) && OnlyAlias(s, s', t, v) && AliasDelta(s, s', t, v) && SpareAtMount(s, s', t, v) && Wf(s')
    ensures forall w :: 0 <= w < |s.alias| ==> ExposedInUse(s', w)
  {
    forall w | 0 <= w < |s.alias|
      ensures ExposedInUse(s', w)
    {
      var m := s.alias[w].lower;
      assert ExposedInUse(s, w);
      SumsSame(s.alias, s'.alias, m);
      assert s'.own[t][LRef(m)] == s.own[t][LRef(m)];
    }
  }

  lemma OneAlias(s: Sh, s': Sh, t: nat, v: nat)
    requires Inv(s) && OnlyAlias(s, s', t, v) && AliasDelta(s, s', t, v) && BusyOk(s, s', t, v)
    requires SpareAtMount(s, s', t, v)
    requires Wf(s') ==> (SameCore(s, s', v) || Controls(s, t, v)) && AliasInv(s', v)
    ensures Inv(s') && Guar(s, s', t)
  {
    CountAlias(s, s', t, v);
    assert forall u :: 0 <= u < |s.alias| ==>
        s'.alias[u].mount == s.alias[u].mount && s'.alias[u].lower == s.alias[u].lower;
    assert Wf(s') && HashInv(s');
    AliasExposed(s, s', t, v);
    forall w | 0 <= w < |s.alias|
      ensures AliasInv(s', w)
    {
      if w != v {
        assert s'.own[t][URef(w)] == s.own[t][URef(w)];
        OtherAlias(s, s', t, v, w);
      }
    }
    forall w | 0 <= w < |s.alias|
      ensures Onward(s, s', w) && (SameCore(s, s', w) || Controls(s, t, w))
    {
    }
  }

  // ----- Shape 3: an alias, its lower vnode and its hash list change together -----

  ghost predicate AliasAndLower(s: Sh, s': Sh, t: nat, v: nat)
    requires Wf(s)
  {
    && t < |s.own| == |s'.own| && t < |s.busy| == |s'.busy| && v < |s.alias| == |s'.alias|
    && |s'.lower| == |s.lower| && |s'.hash| == |s.hash|
    && var l := s.alias[v].lower;
    && s' == s.(alias := s.alias[v := s'.alias[v]], own := s.own[t := s'.own[t]],
                busy := s.busy[t := s'.busy[t]], lower := s.lower[l := s'.lower[l]],
                hash := s.hash[s.hidx[l] := s'.hash[s.hidx[l]]])
    && s'.alias[v].agent < |s.own| && Onward(s, s', v)
    && (forall u: nat :: u != t ==> PMode(s', u, v) == PMode(s, u, v))
    && (forall u: nat :: u != t ==> LMode(s', u, l) == LMode(s, u, l)) && Marks(s, s', t, l)
    // The list gains or loses nothing but `v`.
    && (forall w :: w != v ==> (w in s'.hash[s.hidx[l]] <==> w in s.hash[s.hidx[l]]))
  }

  lemma AliasAndLowerWf(s: Sh, s': Sh, t: nat, v: nat)
    requires Wf(s) && AliasAndLower(s, s', t, v)
    ensures Wf(s')
  {
    var h := s'.hash[s.hidx[s.alias[v].lower]];
    forall i | 0 <= i < |h|
      ensures h[i] < |s.alias|
    {
      assert h[i] in h;
    }
    forall w | 0 <= w < |s.alias|
      ensures s'.alias[w].lower == s.alias[w].lower && s'.alias[w].agent < |s.own|
    {
    }
  }

  lemma BothOther(s: Sh, s': Sh, t: nat, v: nat, w: nat)
    requires Wf(s) && Wf(s') && AliasAndLower(s, s', t, v)
    requires w < |s.alias| && w != v && AliasInv(s, w) && s'.own[t][URef(w)] == s.own[t][URef(w)]
    requires !Working(s, t, w)
    ensures AliasInv(s', w) && SameCore(s, s', w)
  {
    var l := s.alias[v].lower;
    if NeedsLock(s.alias[w]) && s.alias[w].lower == l && s.alias[w].agent != t {
      assert LMode(s', s.alias[w].agent, l) == LMode(s, s.alias[w].agent, l);
    }
  }

  lemma BothExposed(s: Sh, s': Sh, t: nat, v: nat)
    requires Inv(s) && AliasAndLower(s, s', t, v) && Wf(s')
    requires s.busy[t] == None || s.busy[t] == Some(v)
    requires LMode(s, t, s.alias[v].lower) == Exclusive && !Exposed(s'.alias[v])
    requires forall m :: m != s.alias[v].lower ==> s'.own[t][LRef(m)] == s.own[t][LRef(m)]
    ensures forall w :: 0 <= w < |s.alias| ==> ExposedInUse(s', w)
  {
    forall w | 0 <= w < |s.alias|
      ensures ExposedInUse(s', w)
    {
      var m := s.alias[w].lower;
      assert ExposedInUse(s, w) && AliasInv(s, w);
      CountRefUpdate(s.alias, v, s'.alias[v], m);
    }
  }

  lemma Both(s: Sh, s': Sh, t: nat, v: nat)
    requires Inv(s) && AliasAndLower(s, s', t, v)
    requires LMode(s, t, s.alias[v].lower) == Exclusive && !Exposed(s'.alias[v])
    requires forall m :: m != s.alias[v].lower ==> s'.own[t][LRef(m)] == s.own[t][LRef(m)]
    requires s.busy[t] == None || s.busy[t] == Some(v)
    requires CountInv(s') && (Wf(s') ==> HashInv(s'))
    requires forall r: nat :: r != v ==> s'.own[t][URef(r)] == s.own[t][URef(r)]
    requires Wf(s') ==> (SameCore(s, s', v) || Controls(s, t, v)) && AliasInv(s', v)
    requires Wf(s') && Hashed(s', v) ==> Hashed(s, v) || !s.alias[v].doomed
    ensures Inv(s') && Guar(s, s', t)
  {
    AliasAndLowerWf(s, s', t, v);
    BothExposed(s, s', t, v);
    forall w | 0 <= w < |s.alias|
      ensures AliasInv(s', w) && Onward(s, s', w) && (SameCore(s, s', w) || Controls(s, t, w))
    {
      if w != v {
        BothOther(s, s', t, v, w);
      }
    }
  }
}
