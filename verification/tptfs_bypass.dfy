/** tpt_bypass, tptfs/tpt_vnops.c:222-345: the generic operation that replaces the alias
    vnodes among its arguments by their lower vnodes, calls the lower layer and puts the
    arguments back. Seen from the one thread that runs it. */
module Bypass {
  import opened Options
  import opened Words
  import opened Kernel

  const VDESC_MAX_VPS: nat := 16

  /** A vnode argument: no vnode, an alias, a lower vnode, or one of another filesystem. */
  datatype Vp = Null | Up(v: nat) | Low(l: nat) | Foreign(n: nat)

  /** The description of an operation: bit `i` of `flags` says that argument `i` is released
      by the operation, `offsets` are the places of the vnode arguments up to the first None,
      and `vpp` says that it returns a vnode and the caller has a place for it. */
  datatype Desc = Desc(flags: nat, offsets: seq<Option<nat>>, vpp: bool)

  /** `flags >> i`. */
  function Shifted(flags: nat, i: nat): nat {
    if i == 0 then flags else Shifted(flags, i - 1) / 2
  }

  predicate WillRele(flags: nat, i: nat) {
    Shifted(flags, i) % 2 == 1
  }

  lemma HalfAgain(n: nat, d: nat)
    requires d > 0
    ensures n / d / 2 == n / (2 * d)
  {
    var q := n / d;
    var h, r := q / 2, q % 2;
    assert q * d == (2 * h + r) * d == h * (2 * d) + r * d;
    DivUnique(n, 2 * d, h, r * d + n % d);
  }

  lemma DivUnique(n: nat, d: nat, q: nat, r: nat)
    requires d > 0 && n == q * d + r && r < d
    ensures n / d == q
  {
    var k := n / d;
    if k < q { TimesGrows(k + 1, q, d); } else if q < k { TimesGrows(q + 1, k, d); }
  }

  lemma TimesGrows(a: nat, b: nat, d: nat)
    requires a <= b
    ensures a * d <= b * d
  {
    assert b * d == a * d + (b - a) * d;
  }

  /** Argument `i` is released exactly when bit `i` of the flags is set. */
  lemma {:induction false} FlagBit(flags: nat, i: nat)
    ensures Shifted(flags, i) == flags / Pow2(i)
    ensures WillRele(flags, i) <==> flags / Pow2(i) % 2 == 1
  {
    if i > 0 {
      FlagBit(flags, i - 1);
      HalfAgain(flags, Pow2(i - 1));
    }
  }

  /** The places of the vnode arguments, from entry `i` of the list on. */
  function Places(d: Desc, i: nat): (ps: seq<nat>)
    ensures i + |ps| <= |d.offsets| || ps == []
    ensures forall k :: 0 <= k < |ps| ==> d.offsets[i + k] == Some(ps[k])
    ensures i <= VDESC_MAX_VPS ==> i + |ps| <= VDESC_MAX_VPS
    ensures i + |ps| < VDESC_MAX_VPS && i + |ps| < |d.offsets| ==> d.offsets[i + |ps|] == None
    decreases VDESC_MAX_VPS - i
  {
    if i >= VDESC_MAX_VPS || i >= |d.offsets| || d.offsets[i] == None then []
    else [d.offsets[i].value] + Places(d, i + 1)
  }

  /** The list ends; its places, at least one, are distinct and lie in an argument structure of
      `size` places. */
  ghost predicate DescOk(d: Desc, size: nat) {
    var ps := Places(d, 0);
    && (|ps| < |d.offsets| || |ps| == VDESC_MAX_VPS)
    && |ps| >= 1
    && (forall i :: 0 <= i < |ps| ==> ps[i] < size)
    && (forall i, j :: 0 <= i < j < |ps| ==> ps[i] != ps[j])
  }

  /** The loop over the list stands at entry `i` and sees the same entries as Places. */
  ghost predicate AtEntry(d: Desc, reles: nat, i: nat) {
    var ps := Places(d, 0);
    && i <= |ps| && reles == Shifted(d.flags, i)
    && (i < VDESC_MAX_VPS ==> i < |d.offsets|)
    && (i < |ps| <==> i < VDESC_MAX_VPS && i < |d.offsets| && d.offsets[i] != None)
    && (i < |ps| ==> d.offsets[i].value == ps[i])
  }

  lemma EntryAt(d: Desc, size: nat, i: nat)
    requires DescOk(d, size) && i <= |Places(d, 0)|
    ensures AtEntry(d, Shifted(d.flags, i), i)
  {
    if i < |Places(d, 0)| { assert d.offsets[0 + i] == Some(Places(d, 0)[i]); }
  }

  /** The vnode arguments in the structure `a`. */
  function Slots(ps: seq<nat>, a: seq<Vp>): (xs: seq<Vp>)
    requires forall i :: 0 <= i < |ps| ==> ps[i] < |a|
    ensures |xs| == |ps| && forall i :: 0 <= i < |xs| ==> xs[i] == a[ps[i]]
  {
    seq(|ps|, i requires 0 <= i < |ps| => a[ps[i]])
  }

  // ----- What the thread has -----

  /** `lowerOf[v]` is the lower vnode of alias `v`, `mountOf[v]` the mount it was made for, `tpt[v]`
      says that v_op of `v` is the vector of tptfs; the balances count references taken less references given back; the
      modes are those in which the thread holds the lower and the private locks. */
  datatype View = View(
    lowerOf: seq<nat>, mountOf: seq<nat>, tpt: seq<bool>, vnlk: seq<VnLock>,
    balL: seq<int>, balU: seq<int>, modeL: seq<Mode>, modeOwn: seq<Mode>)

  ghost predicate ViewOk(w: View) {
    && |w.mountOf| == |w.tpt| == |w.vnlk| == |w.balU| == |w.modeOwn| == |w.lowerOf| && |w.modeL| == |w.balL|
    && forall v :: 0 <= v < |w.lowerOf| ==> w.lowerOf[v] < |w.balL|
  }

  /** The arguments name existing vnodes and the first is an alias. */
  ghost predicate SlotsOk(w: View, xs: seq<Vp>) {
    && (forall i :: 0 <= i < |xs| ==> (xs[i].Up? ==> xs[i].v < |w.lowerOf|) && (xs[i].Low? ==> xs[i].l < |w.balL|))
    && (|xs| > 0 ==> xs[0].Up?)
  }

  /** How often a release flag meets vnode `x` among the arguments `xs`. */
  function Releases(flags: nat, xs: seq<Vp>, x: Vp): nat {
    if xs == [] then 0
    else Releases(flags, xs[..|xs| - 1], x) +
         (if xs[|xs| - 1] == x && WillRele(flags, |xs| - 1) then 1 else 0)
  }

  /** One for the vnode that is returned with a reference. */
  function Given(ret: Option<nat>, n: nat): int {
    if ret == Some(n) then 1 else 0
  }

  /** An operation gave back exactly the references its release flags name, and took one on the
      lower vnode it returns. */
  ghost predicate Released(flags: nat, xs: seq<Vp>, ret: Option<nat>, w: View, w': View)
    requires |w'.balL| == |w.balL| && |w'.balU| == |w.balU|
  {
    && (forall l :: 0 <= l < |w.balL| ==> w'.balL[l] == w.balL[l] - Releases(flags, xs, Low(l)) + Given(ret, l))
    && (forall v :: 0 <= v < |w.balU| ==> w'.balU[v] == w.balU[v] - Releases(flags, xs, Up(v)))
  }

  /** What a layer returns: the new view, the arguments, an error and a vnode. */
  datatype Reply = Reply(w: View, a: seq<Vp>, err: int, res: Option<nat>)

  /** The vnode an operation returns when it has one to return and no error. */
  function Returned(d: Desc, y: Reply): Option<nat> {
    if d.vpp && y.err == 0 then y.res else None
  }

  /** Any lower layer that obeys the release flags. It may lock and unlock lower vnodes, let
      aliases be reclaimed and clear arguments that are lower vnodes. A vnode it returns comes
      with a reference. */
  ghost predicate Obeys(d: Desc, ps: seq<nat>, w: View, a: seq<Vp>, y: Reply)
    requires forall i :: 0 <= i < |ps| ==> ps[i] < |a|
  {
    && (d.vpp && y.err == 0 ==> y.res.Some? && y.res.value < |w.balL|)
    && y.w == w.(vnlk := y.w.vnlk, balL := y.w.balL, balU := y.w.balU, modeL := y.w.modeL)
    && |y.w.vnlk| == |w.vnlk| && |y.w.balL| == |w.balL| && |y.w.balU| == |w.balU| && |y.w.modeL| == |w.modeL|
    && (forall v :: 0 <= v < |w.vnlk| && w.vnlk[v] == Own ==> y.w.vnlk[v] == Own)
    && Released(d.flags, Slots(ps, a), Returned(d, y), w, y.w)
    && |y.a| == |a| && (forall k :: 0 <= k < |a| ==> y.a[k] == a[k] || (a[k].Low? && y.a[k] == Null))
  }

  // ----- Mapping the vnodes going in -----

  /** Whether argument `i`, holding `x`, is replaced by its lower vnode: the first always. */
  predicate Maps(w: View, x: Vp, i: nat) {
    x.Up? && x.v < |w.tpt| == |w.lowerOf| && (i == 0 || w.tpt[x.v])
  }

  function MapSlot(w: View, x: Vp, i: nat): Vp {
    if Maps(w, x, i) then Low(w.lowerOf[x.v]) else x
  }

  /** old_vps[i]. */
  function OldVp(w: View, x: Vp, i: nat): Option<nat> {
    if Maps(w, x, i) then Some(x.v) else None
  }

  /** The view after the reference that a released argument costs was taken. */
  function Taken(w: View, x: Vp, i: nat, rele: bool): View
    requires ViewOk(w)
  {
    if Maps(w, x, i) && rele then w.(balL := w.balL[w.lowerOf[x.v] := w.balL[w.lowerOf[x.v]] + 1]) else w
  }

  /** The arguments, the view and old_vps after the first `n` turns of the loop. */
  function MapArgs(w: View, ps: seq<nat>, a: seq<Vp>, n: nat): (b: seq<Vp>)
    requires n <= |ps| && forall i :: 0 <= i < |ps| ==> ps[i] < |a|
    ensures |b| == |a|
  {
    if n == 0 then a else MapArgs(w, ps, a, n - 1)[ps[n - 1] := MapSlot(w, a[ps[n - 1]], n - 1)]
  }

  function MapView(w: View, flags: nat, xs: seq<Vp>): (w': View)
    requires ViewOk(w)
    ensures w' == w.(balL := w'.balL) && ViewOk(w')
  {
    if xs == [] then w
    else Taken(MapView(w, flags, xs[..|xs| - 1]), xs[|xs| - 1], |xs| - 1, WillRele(flags, |xs| - 1))
  }

  function OldVps(w: View, xs: seq<Vp>): (ups: seq<Option<nat>>)
    ensures |ups| == |xs| && forall i :: 0 <= i < |xs| ==> ups[i] == OldVp(w, xs[i], i)
  {
    seq(|xs|, i requires 0 <= i < |xs| => OldVp(w, xs[i], i))
  }

  function MapSlots(w: View, xs: seq<Vp>): (ys: seq<Vp>)
    ensures |ys| == |xs| && forall i :: 0 <= i < |xs| ==> ys[i] == MapSlot(w, xs[i], i)
  {
    seq(|xs|, i requires 0 <= i < |xs| => MapSlot(w, xs[i], i))
  }

  /** Places that are no vnode argument keep what they hold, the others are mapped. */
  lemma {:induction false} MapArgsAt(w: View, ps: seq<nat>, a: seq<Vp>, n: nat, k: nat)
    requires n <= |ps| && k < |a| && forall i :: 0 <= i < |ps| ==> ps[i] < |a|
    requires forall i, j :: 0 <= i < j < |ps| ==> ps[i] != ps[j]
    ensures forall i :: 0 <= i < n && ps[i] == k ==> MapArgs(w, ps, a, n)[k] == MapSlot(w, a[k], i)
    ensures k !in ps[..n] ==> MapArgs(w, ps, a, n)[k] == a[k]
  {
    if n > 0 {
      MapArgsAt(w, ps, a, n - 1, k);
      assert ps[..n] == ps[..n - 1] + [ps[n - 1]];
    }
  }

  lemma MapArgsSlots(w: View, ps: seq<nat>, a: seq<Vp>)
    requires forall i :: 0 <= i < |ps| ==> ps[i] < |a|
    requires forall i, j :: 0 <= i < j < |ps| ==> ps[i] != ps[j]
    ensures Slots(ps, MapArgs(w, ps, a, |ps|)) == MapSlots(w, Slots(ps, a))
  {
    forall i | 0 <= i < |ps|
      ensures MapArgs(w, ps, a, |ps|)[ps[i]] == MapSlot(w, a[ps[i]], i)
    {
      MapArgsAt(w, ps, a, |ps|, ps[i]);
    }
  }

  /** The first `i` arguments are mapped. */
  ghost predicate MappedTo(w0: View, flags: nat, ps: seq<nat>, a0: seq<Vp>, w: View, a: seq<Vp>,
                           ups: seq<Option<nat>>, i: nat)
    requires ViewOk(w0) && forall j :: 0 <= j < |ps| ==> ps[j] < |a0|
  {
    i <= |ps| && a == MapArgs(w0, ps, a0, i) && w == MapView(w0, flags, Slots(ps, a0)[..i]) &&
    ups == OldVps(w0, Slots(ps, a0)[..i])
  }

  /** Argument `i`, holding `x`, is mapped but was reclaimed before the call: its v_data is null, as
      that of every alias that has its private lock as v_vnlock. */
  predicate NoData(w: View, x: Vp, i: nat) {
    Maps(w, x, i) && x.v < |w.vnlk| && w.vnlk[x.v] == Own
  }

  /** One of the arguments is. */
  ghost predicate Stale(w: View, xs: seq<Vp>) {
    exists i :: 0 <= i < |xs| && NoData(w, xs[i], i)
  }

  /** None of the first `n` is. */
  ghost predicate FreshTo(w: View, xs: seq<Vp>, n: nat) {
    n <= |xs| && forall i :: 0 <= i < n ==> !NoData(w, xs[i], i)
  }

  /** The loop stands at entry `i` and has mapped the arguments before it. */
  ghost predicate Mapping(d: Desc, w0: View, a0: seq<Vp>, reles: nat, i: nat, w: View, a: seq<Vp>,
                          ups: seq<Option<nat>>)
  {
    && ViewOk(w0) && DescOk(d, |a0|) && SlotsOk(w0, Slots(Places(d, 0), a0))
    && AtEntry(d, reles, i) && MappedTo(w0, d.flags, Places(d, 0), a0, w, a, ups, i)
    && FreshTo(w0, Slots(Places(d, 0), a0), i)
  }

  lemma MapTurn(w0: View, flags: nat, ps: seq<nat>, a0: seq<Vp>, w: View, a: seq<Vp>, ups: seq<Option<nat>>, i: nat)
    requires ViewOk(w0) && i < |ps| && forall j :: 0 <= j < |ps| ==> ps[j] < |a0|
    requires forall j, k :: 0 <= j < k < |ps| ==> ps[j] != ps[k]
    requires MappedTo(w0, flags, ps, a0, w, a, ups, i)
    ensures var x := a0[ps[i]];
            && a[ps[i]] == x
            && MappedTo(w0, flags, ps, a0, Taken(w, x, i, WillRele(flags, i)), a[ps[i] := MapSlot(w, x, i)],
                        ups + [OldVp(w, x, i)], i + 1)
  {
    var xs := Slots(ps, a0);
    assert ps[i] !in ps[..i];
    MapArgsAt(w0, ps, a0, i, ps[i]);
    MapViewNext(w0, flags, xs, i);
    OldVpsNext(w0, xs, i);
  }

  /** The place of the next argument, and what one more turn comes to. */
  lemma NextPlace(d: Desc, w0: View, a0: seq<Vp>, reles: nat, i: nat, w: View, a: seq<Vp>, ups: seq<Option<nat>>)
    returns (k: nat)
    requires Mapping(d, w0, a0, reles, i, w, a, ups) && i < |Places(d, 0)|
    ensures i < VDESC_MAX_VPS && i < |d.offsets| && d.offsets[i] == Some(k) && k < |a|
    ensures ViewOk(w) && (a[k].Up? ==> a[k].v < |w.lowerOf|) && (i == 0 ==> a[k].Up?)
    ensures if NoData(w, a[k], i) then Stale(w0, Slots(Places(d, 0), a0))
            else Mapping(d, w0, a0, reles / 2, i + 1, Taken(w, a[k], i, reles % 2 == 1), a[k := MapSlot(w, a[k], i)],
                         ups + [OldVp(w, a[k], i)])
  {
    var ps := Places(d, 0);
    k := ps[i];
    MapTurn(w0, d.flags, ps, a0, w, a, ups, i);
    assert a[k] == Slots(ps, a0)[i];
    assert NoData(w, a[k], i) == NoData(w0, Slots(ps, a0)[i], i);
    EntryAt(d, |a0|, i + 1);
  }

  lemma MapViewNext(w: View, flags: nat, xs: seq<Vp>, i: nat)
    requires ViewOk(w) && i < |xs|
    ensures MapView(w, flags, xs[..i + 1]) == Taken(MapView(w, flags, xs[..i]), xs[i], i, WillRele(flags, i))
  {
    assert xs[..i + 1][..i] == xs[..i];
  }

  lemma OldVpsNext(w: View, xs: seq<Vp>, i: nat)
    requires i < |xs|
    ensures OldVps(w, xs[..i + 1]) == OldVps(w, xs[..i]) + [OldVp(w, xs[i], i)]
  {
  }

  lemma MappedAll(w0: View, flags: nat, ps: seq<nat>, a0: seq<Vp>, w: View, a: seq<Vp>, ups: seq<Option<nat>>)
    requires ViewOk(w0) && forall j :: 0 <= j < |ps| ==> ps[j] < |a0|
    requires MappedTo(w0, flags, ps, a0, w, a, ups, |ps|)
    ensures a == MapArgs(w0, ps, a0, |ps|) && w == MapView(w0, flags, Slots(ps, a0)) && ups == OldVps(w0, Slots(ps, a0))
  {
    assert Slots(ps, a0)[..|ps|] == Slots(ps, a0);
  }

  /** How often a release flag meets a mapped argument: one whose alias is `v`, and one whose
      lower vnode is `l`. */
  function MappedUp(w: View, flags: nat, xs: seq<Vp>, v: nat): nat {
    if xs == [] then 0
    else MappedUp(w, flags, xs[..|xs| - 1], v) +
         (if OldVp(w, xs[|xs| - 1], |xs| - 1) == Some(v) && WillRele(flags, |xs| - 1) then 1 else 0)
  }

  function MappedLow(w: View, flags: nat, xs: seq<Vp>, l: nat): nat {
    if xs == [] then 0
    else MappedLow(w, flags, xs[..|xs| - 1], l) +
         (if Maps(w, xs[|xs| - 1], |xs| - 1) && w.lowerOf[xs[|xs| - 1].v] == l && WillRele(flags, |xs| - 1) then 1
          else 0)
  }

  /** What the lower layer releases through the mapped arguments is what the caller passed as
      lower vnodes and the references mapping took; of the aliases it releases those that were
      not mapped. */
  lemma {:induction false} MappedBalance(w: View, flags: nat, xs: seq<Vp>, l: nat, v: nat)
    ensures Releases(flags, MapSlots(w, xs), Low(l)) == Releases(flags, xs, Low(l)) + MappedLow(w, flags, xs, l)
    ensures Releases(flags, xs, Up(v)) == Releases(flags, MapSlots(w, xs), Up(v)) + MappedUp(w, flags, xs, v)
  {
    if xs != [] {
      var n := |xs| - 1;
      assert MapSlots(w, xs)[..n] == MapSlots(w, xs[..n]);
      MappedBalance(w, flags, xs[..n], l, v);
    }
  }

  lemma {:induction false} MapViewBalance(w: View, flags: nat, xs: seq<Vp>, l: nat)
    requires ViewOk(w) && l < |w.balL|
    ensures MapView(w, flags, xs).balL[l] == w.balL[l] + MappedLow(w, flags, xs, l)
  {
    if xs != [] { MapViewBalance(w, flags, xs[..|xs| - 1], l); }
  }

  // ----- Putting the vnodes back -----

  /** Argument `i` was mapped, still names lower vnode `l`, which the thread has exclusively
      locked, and its alias was reclaimed. */
  ghost predicate Strayed(w: View, ups: seq<Option<nat>>, ys: seq<Vp>, i: nat, l: nat)
    requires ViewOk(w) && |ys| == |ups|
  {
    i < |ups| && ups[i].Some? && ups[i].value < |w.vnlk| && ys[i] == Low(l) && l < |w.modeL| &&
    w.modeL[l] == Exclusive && w.vnlk[ups[i].value] == Own
  }

  /** `i` is the first argument that strayed from `l`. */
  ghost predicate FirstStrayed(w: View, ups: seq<Option<nat>>, ys: seq<Vp>, i: nat, l: nat)
    requires ViewOk(w) && |ys| == |ups|
  {
    Strayed(w, ups, ys, i, l) && forall j :: 0 <= j < i ==> !Strayed(w, ups, ys, j, l)
  }

  /** The view after the first `n` arguments were put back. */
  function BackView(w: View, flags: nat, ups: seq<Option<nat>>, ys: seq<Vp>, n: nat): (w': View)
    requires ViewOk(w) && n <= |ups| == |ys|
    ensures w' == w.(balU := w'.balU, modeL := w'.modeL, modeOwn := w'.modeOwn) && ViewOk(w') && |w'.balL| == |w.balL|
  {
    if n == 0 then w else BackOne(BackView(w, flags, ups, ys, n - 1), ups[n - 1], ys[n - 1], WillRele(flags, n - 1))
  }

  /** Whether the lock of the lower vnode `y` must move to the alias. */
  predicate Moves(w: View, up: Option<nat>, y: Vp)
    requires ViewOk(w)
  {
    up.Some? && up.value < |w.vnlk| && y.Low? && y.l < |w.modeL| && w.modeL[y.l] == Exclusive && w.vnlk[up.value] == Own
  }

  function BackOne(w: View, up: Option<nat>, y: Vp, rele: bool): (w': View)
    requires ViewOk(w)
    ensures ViewOk(w')
  {
    var w1 :=
      if Moves(w, up, y) then w.(modeL := w.modeL[y.l := Unheld], modeOwn := w.modeOwn[up.value := Exclusive])
      else w;
    if up.Some? && up.value < |w.balU| && rele then w1.(balU := w1.balU[up.value := w1.balU[up.value] - 1]) else w1
  }

  /** Which lock ends up where: a lower lock is given up exactly when a reclaimed alias of it
      was among the arguments looked at, and then the first such alias got it. */
  lemma {:induction false} BackLocks(w: View, flags: nat, ups: seq<Option<nat>>, ys: seq<Vp>, n: nat, l: nat)
    requires ViewOk(w) && n <= |ups| == |ys| && l < |w.modeL|
    ensures BackView(w, flags, ups, ys, n).modeL[l] ==
            if exists i :: 0 <= i < n && Strayed(w, ups, ys, i, l) then Unheld else w.modeL[l]
  {
    if n > 0 {
      BackLocks(w, flags, ups, ys, n - 1, l);
      var w1 := BackView(w, flags, ups, ys, n - 1);
      if Strayed(w, ups, ys, n - 1, l) {
      } else {
        assert w1.modeL[l] == Exclusive ==> !(Moves(w1, ups[n - 1], ys[n - 1]) && ys[n - 1].l == l);
      }
    }
  }

  /** Alias `v` comes first among the reclaimed ones of a lock that strayed before argument `n`. */
  ghost predicate Gets(w: View, ups: seq<Option<nat>>, ys: seq<Vp>, n: nat, v: nat)
    requires ViewOk(w) && |ys| == |ups|
  {
    exists i, l :: 0 <= i < n && FirstStrayed(w, ups, ys, i, l) && ups[i] == Some(v)
  }

  lemma GetsNext(w: View, ups: seq<Option<nat>>, ys: seq<Vp>, n: nat, v: nat)
    requires ViewOk(w) && n < |ys| == |ups|
    ensures Gets(w, ups, ys, n + 1, v) <==>
            Gets(w, ups, ys, n, v) ||
            (ups[n] == Some(v) && ys[n].Low? && FirstStrayed(w, ups, ys, n, ys[n].l))
  {
  }

  /** A lock moves at argument `n` exactly when it is the first that strayed. */
  lemma MovesFirst(w: View, flags: nat, ups: seq<Option<nat>>, ys: seq<Vp>, n: nat)
    requires ViewOk(w) && n < |ups| == |ys|
    ensures Moves(BackView(w, flags, ups, ys, n), ups[n], ys[n]) <==>
            ys[n].Low? && FirstStrayed(w, ups, ys, n, ys[n].l)
  {
    var y := ys[n];
    if y.Low? && y.l < |w.modeL| { BackLocks(w, flags, ups, ys, n, y.l); }
  }

  /** The private locks the thread gained are those of the aliases that come first among the
      reclaimed ones of a strayed lower lock. */
  lemma {:induction false} BackOwn(w: View, flags: nat, ups: seq<Option<nat>>, ys: seq<Vp>, n: nat, v: nat)
    requires ViewOk(w) && n <= |ups| == |ys| && v < |w.modeOwn|
    ensures BackView(w, flags, ups, ys, n).modeOwn[v] == if Gets(w, ups, ys, n, v) then Exclusive else w.modeOwn[v]
  {
    if n > 0 {
      BackOwn(w, flags, ups, ys, n - 1, v);
      GetsNext(w, ups, ys, n - 1, v);
      MovesFirst(w, flags, ups, ys, n - 1);
    }
  }

  lemma BackOneBalance(w: View, up: Option<nat>, y: Vp, rele: bool, v: nat)
    requires ViewOk(w) && v < |w.balU|
    ensures BackOne(w, up, y, rele).balU[v] == w.balU[v] - (if up == Some(v) && rele then 1 else 0)
  {
  }

  /** How often the second loop releases alias `v` in its first `n` turns. */
  function BackCount(flags: nat, ups: seq<Option<nat>>, n: nat, v: nat): nat
    requires n <= |ups|
  {
    if n == 0 then 0
    else BackCount(flags, ups, n - 1, v) + (if ups[n - 1] == Some(v) && WillRele(flags, n - 1) then 1 else 0)
  }

  lemma {:induction false} BackCounted(w: View, flags: nat, ups: seq<Option<nat>>, ys: seq<Vp>, n: nat, v: nat)
    requires ViewOk(w) && n <= |ups| == |ys| && v < |w.balU|
    ensures BackView(w, flags, ups, ys, n).balU[v] == w.balU[v] - BackCount(flags, ups, n, v)
  {
    if n > 0 {
      BackCounted(w, flags, ups, ys, n - 1, v);
      BackOneBalance(BackView(w, flags, ups, ys, n - 1), ups[n - 1], ys[n - 1], WillRele(flags, n - 1), v);
    }
  }

  /** The mapped arguments again. */
  lemma {:induction false} BackCountMapped(w: View, flags: nat, xs: seq<Vp>, n: nat, v: nat)
    requires n <= |xs|
    ensures BackCount(flags, OldVps(w, xs), n, v) == MappedUp(w, flags, xs[..n], v)
  {
    if n > 0 {
      BackCountMapped(w, flags, xs, n - 1, v);
      assert xs[..n][..n - 1] == xs[..n - 1] && xs[..n][n - 1] == xs[n - 1];
    }
  }

  /** What the lower layer left, in `w` and the arguments `ys`, of a call whose arguments `xs`
      were mapped in `w0`. */
  ghost predicate Left(w: View, w0: View, xs: seq<Vp>, ys: seq<Vp>) {
    && ViewOk(w) && ViewOk(w0) && |xs| == |ys| && w.lowerOf == w0.lowerOf && |w.balL| == |w0.balL|
    && (forall i :: 0 <= i < |xs| && Maps(w0, xs[i], i) ==>
          w.modeOwn[xs[i].v] == Unheld && (ys[i] == Low(w0.lowerOf[xs[i].v]) || ys[i] == Null))
  }

  /** The lock that moves is not one the thread has: an alias gets at most one strayed lock. */
  lemma NoSelfDeadlock(w: View, w0: View, flags: nat, xs: seq<Vp>, ys: seq<Vp>, n: nat)
    requires Left(w, w0, xs, ys) && n < |xs|
    requires Moves(BackView(w, flags, OldVps(w0, xs), ys, n), OldVps(w0, xs)[n], ys[n])
    ensures BackView(w, flags, OldVps(w0, xs), ys, n).modeOwn[OldVps(w0, xs)[n].value] == Unheld
  {
    var ups := OldVps(w0, xs);
    var v, l := ups[n].value, ys[n].l;
    BackOwn(w, flags, ups, ys, n, v);
    BackLocks(w, flags, ups, ys, n, l);
  }

  /** The mode in which the thread has the lock that v_vnlock of alias `v` names. */
  function NamedMode(w: View, v: nat): Mode
    requires ViewOk(w) && v < |w.lowerOf|
  {
    if w.vnlk[v] == Own then w.modeOwn[v] else w.modeL[w.lowerOf[v]]
  }

  /** Every lock that strayed from `l` went to alias `v`. */
  ghost predicate OnlyTo(w: View, ups: seq<Option<nat>>, ys: seq<Vp>, l: nat, v: nat)
    requires ViewOk(w) && |ys| == |ups|
  {
    forall j: nat :: FirstStrayed(w, ups, ys, j, l) ==> ups[j] == Some(v)
  }

  /** Something strayed from `l` exactly when there is a first one. */
  lemma {:induction false} StrayedHasFirst(w: View, ups: seq<Option<nat>>, ys: seq<Vp>, i: nat, l: nat)
    returns (j: nat)
    requires ViewOk(w) && |ys| == |ups| && Strayed(w, ups, ys, i, l)
    ensures j <= i && FirstStrayed(w, ups, ys, j, l)
  {
    if k: nat :| k < i && Strayed(w, ups, ys, k, l) {
      j := StrayedHasFirst(w, ups, ys, k, l);
    } else {
      j := i;
    }
  }

  /** Where the locks are after everything was put back. */
  lemma BackModes(w: View, w0: View, flags: nat, xs: seq<Vp>, ys: seq<Vp>, i: nat, l: nat)
    requires Left(w, w0, xs, ys) && i < |xs| && Maps(w0, xs[i], i)
    requires ys[i] == Low(l) && l < |w.modeL| && w.modeL[l] == Exclusive
    ensures var w', ups, v := BackView(w, flags, OldVps(w0, xs), ys, |xs|), OldVps(w0, xs), xs[i].v;
            && l == w.lowerOf[v] && w'.vnlk == w.vnlk && ups[i] == Some(v)
            && (w'.modeL[l] == Exclusive <==> forall j: nat :: !Strayed(w, ups, ys, j, l))
            && (w'.modeOwn[v] == Exclusive <==> exists j: nat :: FirstStrayed(w, ups, ys, j, l) && ups[j] == Some(v))
  {
    var ups, v := OldVps(w0, xs), xs[i].v;
    BackLocks(w, flags, ups, ys, |xs|, l);
    BackOwn(w, flags, ups, ys, |xs|, v);
    forall j: nat, m: nat | FirstStrayed(w, ups, ys, j, m) && ups[j] == Some(v)
      ensures m == l
    {
      assert ups[j] == OldVp(w0, xs[j], j);
    }
  }

  /** An exclusive lock the lower layer left on the lower vnode `l` of mapped argument `i` is
      where v_vnlock of its alias names it if and only if no other alias of `l` among the
      arguments was reclaimed and came before: the lock goes to the first reclaimed one alone,
      and stays on the lower vnode when there is none. */
  lemma LockFollows(w: View, w0: View, flags: nat, xs: seq<Vp>, ys: seq<Vp>, i: nat, l: nat)
    requires Left(w, w0, xs, ys) && i < |xs| && Maps(w0, xs[i], i)
    requires ys[i] == Low(l) && l < |w.modeL| && w.modeL[l] == Exclusive
    ensures var w', ups, v := BackView(w, flags, OldVps(w0, xs), ys, |xs|), OldVps(w0, xs), xs[i].v;
            && v < |w'.lowerOf| && l == w.lowerOf[v] && w'.vnlk == w.vnlk
            && (NamedMode(w', v) == Exclusive <==> OnlyTo(w, ups, ys, l, v))
            && (w'.modeL[l] == Exclusive <==> forall j: nat :: !Strayed(w, ups, ys, j, l))
            && (FirstStrayed(w, ups, ys, i, l) ==> w'.modeOwn[v] == Exclusive)
  {
    var ups, v := OldVps(w0, xs), xs[i].v;
    BackModes(w, w0, flags, xs, ys, i, l);
    if w.vnlk[v] == Own {
      assert Strayed(w, ups, ys, i, l);
      var j := StrayedHasFirst(w, ups, ys, i, l);
    } else if j: nat :| Strayed(w, ups, ys, j, l) {
      var k := StrayedHasFirst(w, ups, ys, j, l);
      assert ups[k] != Some(v);
    }
  }

  /** The arguments after the first `n` were put back. */
  function BackArgs(b: seq<Vp>, ps: seq<nat>, ups: seq<Option<nat>>, n: nat): (a: seq<Vp>)
    requires n <= |ps| == |ups| && forall i :: 0 <= i < |ps| ==> ps[i] < |b|
    ensures |a| == |b|
  {
    if n == 0 then b
    else
      var a := BackArgs(b, ps, ups, n - 1);
      if ups[n - 1].Some? then a[ps[n - 1] := Up(ups[n - 1].value)] else a
  }

  lemma {:induction false} BackArgsAt(b: seq<Vp>, ps: seq<nat>, ups: seq<Option<nat>>, n: nat, k: nat)
    requires n <= |ps| == |ups| && k < |b| && forall i :: 0 <= i < |ps| ==> ps[i] < |b|
    requires forall i, j :: 0 <= i < j < |ps| ==> ps[i] != ps[j]
    ensures forall i :: 0 <= i < n && ps[i] == k && ups[i].Some? ==> BackArgs(b, ps, ups, n)[k] == Up(ups[i].value)
    ensures (forall i :: 0 <= i < n && ps[i] == k ==> ups[i].None?) ==> BackArgs(b, ps, ups, n)[k] == b[k]
  {
    if n > 0 { BackArgsAt(b, ps, ups, n - 1, k); }
  }

  /** The first `i` arguments are put back. */
  ghost predicate PutTo(
    w1: View, flags: nat, ps: seq<nat>, ups: seq<Option<nat>>, ys: seq<Vp>, b: seq<Vp>, w: View, a: seq<Vp>, i: nat)
    requires ViewOk(w1) && |ps| == |ups| == |ys| && forall j :: 0 <= j < |ps| ==> ps[j] < |b|
  {
    i <= |ps| && a == BackArgs(b, ps, ups, i) && w == BackView(w1, flags, ups, ys, i)
  }

  /** An argument as the second loop finds it. */
  ghost predicate BackReady(w: View, up: Option<nat>, y: Vp) {
    && ViewOk(w) && (up.Some? ==> up.value < |w.lowerOf| && (y.Low? ==> y.l < |w.modeL|))
    && (Moves(w, up, y) ==> w.modeOwn[up.value] == Unheld)
  }

  lemma BackReadyAt(w1: View, w0: View, flags: nat, xs: seq<Vp>, ys: seq<Vp>, i: nat)
    requires Left(w1, w0, xs, ys) && i < |xs|
    ensures BackReady(BackView(w1, flags, OldVps(w0, xs), ys, i), OldVps(w0, xs)[i], ys[i])
  {
    if Moves(BackView(w1, flags, OldVps(w0, xs), ys, i), OldVps(w0, xs)[i], ys[i]) {
      NoSelfDeadlock(w1, w0, flags, xs, ys, i);
    }
  }

  lemma PutTurn(
    w1: View, flags: nat, ps: seq<nat>, ups: seq<Option<nat>>, ys: seq<Vp>, b: seq<Vp>, w: View, a: seq<Vp>, i: nat)
    requires ViewOk(w1) && i < |ps| == |ups| == |ys| && forall j :: 0 <= j < |ps| ==> ps[j] < |b|
    requires forall j, k :: 0 <= j < k < |ps| ==> ps[j] != ps[k]
    requires PutTo(w1, flags, ps, ups, ys, b, w, a, i) && ys[i] == b[ps[i]] && ViewOk(w)
    ensures ps[i] < |a| && a[ps[i]] == ys[i]
    ensures PutTo(w1, flags, ps, ups, ys, b, BackOne(w, ups[i], ys[i], WillRele(flags, i)),
                  if ups[i].Some? then a[ps[i] := Up(ups[i].value)] else a, i + 1)
  {
    BackArgsAt(b, ps, ups, i, ps[i]);
  }

  /** The loop stands at entry `i` and has put back the arguments before it. */
  ghost predicate Putting(d: Desc, w1: View, w0: View, xs: seq<Vp>, b: seq<Vp>, ups: seq<Option<nat>>, ys: seq<Vp>,
                          reles: nat, i: nat, w: View, a: seq<Vp>)
  {
    && DescOk(d, |b|) && ups == OldVps(w0, xs) && ys == Slots(Places(d, 0), b) && |xs| == |Places(d, 0)|
    && Left(w1, w0, xs, ys) && AtEntry(d, reles, i) && PutTo(w1, d.flags, Places(d, 0), ups, ys, b, w, a, i)
  }

  /** The place of the next argument, and that it is ready. */
  lemma BackPlace(d: Desc, w1: View, w0: View, xs: seq<Vp>, b: seq<Vp>, ups: seq<Option<nat>>, ys: seq<Vp>, reles: nat,
                  i: nat, w: View, a: seq<Vp>, k: nat)
    requires Putting(d, w1, w0, xs, b, ups, ys, reles, i, w, a) && i < |Places(d, 0)| && k == Places(d, 0)[i]
    ensures i < VDESC_MAX_VPS && i < |d.offsets| && d.offsets[i] == Some(k) && k < |a| && i < |ups|
    ensures BackReady(w, ups[i], a[k])
  {
    BackReadyAt(w1, w0, d.flags, xs, ys, i);
    PutTurn(w1, d.flags, Places(d, 0), ups, ys, b, w, a, i);
  }

  lemma TurnPut(d: Desc, w1: View, w0: View, xs: seq<Vp>, b: seq<Vp>, ups: seq<Option<nat>>, ys: seq<Vp>, reles: nat,
                i: nat, w: View, a: seq<Vp>, k: nat)
    requires Putting(d, w1, w0, xs, b, ups, ys, reles, i, w, a) && i < |Places(d, 0)| && k == Places(d, 0)[i]
    requires k < |a| && i < |ups| && ViewOk(w)
    ensures reles == Shifted(d.flags, i) && |a| == |b|
    ensures PutTo(w1, d.flags, Places(d, 0), ups, ys, b, BackOne(w, ups[i], a[k], WillRele(d.flags, i)),
                  if ups[i].Some? then a[k := Up(ups[i].value)] else a, i + 1)
  {
    PutTurn(w1, d.flags, Places(d, 0), ups, ys, b, w, a, i);
  }

  lemma NextEntry(d: Desc, size: nat, reles: nat, i: nat)
    requires DescOk(d, size) && AtEntry(d, reles, i) && i < |Places(d, 0)|
    ensures AtEntry(d, reles / 2, i + 1) && (reles % 2 == 1 <==> WillRele(d.flags, i))
  {
    EntryAt(d, size, i + 1);
  }

  lemma PuttingNext(d: Desc, w1: View, w0: View, xs: seq<Vp>, b: seq<Vp>, ups: seq<Option<nat>>, ys: seq<Vp>,
                    reles: nat, i: nat, w: View, a: seq<Vp>, k: nat, w': View, a': seq<Vp>)
    requires Putting(d, w1, w0, xs, b, ups, ys, reles, i, w, a) && i < |Places(d, 0)| && k == Places(d, 0)[i]
    requires k < |a| && i < |ups| && ViewOk(w) && w' == BackOne(w, ups[i], a[k], reles % 2 == 1)
    requires a' == if ups[i].Some? then a[k := Up(ups[i].value)] else a
    ensures Putting(d, w1, w0, xs, b, ups, ys, reles / 2, i + 1, w', a')
  {
    NextEntry(d, |b|, reles, i);
    TurnPut(d, w1, w0, xs, b, ups, ys, reles, i, w, a, k);
    PuttingBy(d, w1, w0, xs, b, ups, ys, reles / 2, i + 1, w', a');
  }

  lemma PuttingBy(d: Desc, w1: View, w0: View, xs: seq<Vp>, b: seq<Vp>, ups: seq<Option<nat>>, ys: seq<Vp>, reles: nat,
                  i: nat, w: View, a: seq<Vp>)
    requires DescOk(d, |b|) && ups == OldVps(w0, xs) && ys == Slots(Places(d, 0), b) && |xs| == |Places(d, 0)|
    requires Left(w1, w0, xs, ys) && AtEntry(d, reles, i)
    requires PutTo(w1, d.flags, Places(d, 0), ups, ys, b, w, a, i)
    ensures Putting(d, w1, w0, xs, b, ups, ys, reles, i, w, a)
  {
  }

  /** The place of the next argument, and what one more turn comes to. */
  lemma NextBack(d: Desc, w1: View, w0: View, xs: seq<Vp>, b: seq<Vp>, ups: seq<Option<nat>>, ys: seq<Vp>, reles: nat,
                 i: nat, w: View, a: seq<Vp>)
    returns (k: nat)
    requires Putting(d, w1, w0, xs, b, ups, ys, reles, i, w, a) && i < |Places(d, 0)|
    ensures i < VDESC_MAX_VPS && i < |d.offsets| && d.offsets[i] == Some(k) && k < |a| && i < |ups|
    ensures BackReady(w, ups[i], a[k])
    ensures Putting(d, w1, w0, xs, b, ups, ys, reles / 2, i + 1, BackOne(w, ups[i], a[k], reles % 2 == 1),
                    if ups[i].Some? then a[k := Up(ups[i].value)] else a)
  {
    k := Places(d, 0)[i];
    BackPlace(d, w1, w0, xs, b, ups, ys, reles, i, w, a, k);
    PuttingNext(d, w1, w0, xs, b, ups, ys, reles, i, w, a, k, BackOne(w, ups[i], a[k], reles % 2 == 1),
                if ups[i].Some? then a[k := Up(ups[i].value)] else a);
  }

  /** Place `k` is the `i`-th vnode argument and was mapped. */
  ghost predicate MappedAt(w: View, ps: seq<nat>, xs: seq<Vp>, i: nat, k: nat) {
    i < |ps| == |xs| && ps[i] == k && Maps(w, xs[i], i)
  }

  /** Every mapped argument is as it was before the call, the others are as the lower layer
      left them. */
  lemma ArgsBack(w: View, ps: seq<nat>, a: seq<Vp>, b: seq<Vp>, k: nat)
    requires |b| == |a| && k < |a| && forall i :: 0 <= i < |ps| ==> ps[i] < |a|
    requires forall i, j :: 0 <= i < j < |ps| ==> ps[i] != ps[j]
    requires forall m :: 0 <= m < |a| ==>
               b[m] == MapArgs(w, ps, a, |ps|)[m] || (MapArgs(w, ps, a, |ps|)[m].Low? && b[m] == Null)
    ensures var a' := BackArgs(b, ps, OldVps(w, Slots(ps, a)), |ps|);
            if exists i: nat :: MappedAt(w, ps, Slots(ps, a), i, k) then a'[k] == a[k]
            else a'[k] == b[k] && (b[k] == a[k] || (a[k].Low? && b[k] == Null))
  {
    BackArgsAt(b, ps, OldVps(w, Slots(ps, a)), |ps|, k);
    MapArgsAt(w, ps, a, |ps|, k);
    if i: nat :| MappedAt(w, ps, Slots(ps, a), i, k) {
      assert OldVps(w, Slots(ps, a))[i] == Some(a[k].v);
    } else {
      forall i | 0 <= i < |ps| && ps[i] == k
        ensures OldVps(w, Slots(ps, a))[i].None? && MapSlot(w, a[k], i) == a[k]
      {
        assert !MappedAt(w, ps, Slots(ps, a), i, k);
      }
      if k in ps {
        var i :| 0 <= i < |ps| && ps[i] == k;
        assert MapSlot(w, a[k], i) == a[k];
      } else {
        assert k !in ps[..|ps|];
      }
    }
  }

  // ----- The operation -----

  /** The lower layer as the thread calls it. */
  type LowerOp = (View, seq<Vp>) -> Reply

  /** What the lower layer is given and what it replies. */
  function LowerReply(w: View, d: Desc, a: seq<Vp>, op: LowerOp): Reply
    requires ViewOk(w) && DescOk(d, |a|)
  {
    op(MapView(w, d.flags, Slots(Places(d, 0), a)), MapArgs(w, Places(d, 0), a, |Places(d, 0)|))
  }

  /** That is: every alias that is the first argument or has the operations of tptfs is replaced by its
      lower vnode, every other argument is passed as it is, */
  lemma GivenToLower(w: View, d: Desc, a: seq<Vp>, i: nat)
    requires ViewOk(w) && DescOk(d, |a|) && SlotsOk(w, Slots(Places(d, 0), a)) && i < |Places(d, 0)|
    ensures var x, k := a[Places(d, 0)[i]], Places(d, 0)[i];
            && (x.Up? ==> x.v < |w.tpt| && x.v < |w.lowerOf|)
            && MapArgs(w, Places(d, 0), a, |Places(d, 0)|)[k] ==
               if x.Up? && (i == 0 || w.tpt[x.v]) then Low(w.lowerOf[x.v]) else x
  {
    var k := Places(d, 0)[i];
    assert Slots(Places(d, 0), a)[i] == a[k];
    MapArgsAt(w, Places(d, 0), a, |Places(d, 0)|, k);
  }

  /** and so is what is no vnode argument. */
  lemma OthersToLower(w: View, d: Desc, a: seq<Vp>, k: nat)
    requires ViewOk(w) && DescOk(d, |a|) && k < |a| && k !in Places(d, 0)
    ensures MapArgs(w, Places(d, 0), a, |Places(d, 0)|)[k] == a[k]
  {
    assert Places(d, 0)[..|Places(d, 0)|] == Places(d, 0);
    MapArgsAt(w, Places(d, 0), a, |Places(d, 0)|, k);
  }

  /** The view when tpt_bypass returns. */
  function FinalView(w: View, d: Desc, a: seq<Vp>, y: Reply): View
    requires DescOk(d, |a|) && ViewOk(y.w) && |y.a| == |a|
  {
    var xs := Slots(Places(d, 0), a);
    BackView(y.w, d.flags, OldVps(w, xs), Slots(Places(d, 0), y.a), |xs|)
  }

  /** The call is legal: the aliases it maps are complete and not locked by their private locks, and
      the lower layer obeys the release flags whatever it is given. */
  ghost predicate CallOk(w: View, d: Desc, a: seq<Vp>, op: LowerOp)
    requires DescOk(d, |a|)
  {
    var xs := Slots(Places(d, 0), a);
    && ViewOk(w) && SlotsOk(w, xs)
    && !Stale(w, xs) && (forall i :: 0 <= i < |xs| && Maps(w, xs[i], i) ==> w.modeOwn[xs[i].v] == Unheld)
    && Answered(w, d, a, LowerReply(w, d, a, op))
  }

  /** The lower layer answered `y`. */
  ghost predicate Answered(w: View, d: Desc, a: seq<Vp>, y: Reply)
    requires DescOk(d, |a|)
  {
    ViewOk(w) &&
    Obeys(d, Places(d, 0), MapView(w, d.flags, Slots(Places(d, 0), a)), MapArgs(w, Places(d, 0), a, |Places(d, 0)|), y)
  }

  lemma LowerBalance(w: View, d: Desc, a: seq<Vp>, y: Reply, l: nat)
    requires DescOk(d, |a|) && Answered(w, d, a, y) && l < |w.balL|
    ensures |y.w.balL| == |w.balL|
    ensures y.w.balL[l] == w.balL[l] - Releases(d.flags, Slots(Places(d, 0), a), Low(l)) + Given(Returned(d, y), l)
  {
    var ps, xs := Places(d, 0), Slots(Places(d, 0), a);
    MapArgsSlots(w, ps, a);
    MapViewBalance(w, d.flags, xs, l);
    MappedBalance(w, d.flags, xs, l, 0);
  }

  lemma UpperBalance(w: View, d: Desc, a: seq<Vp>, y: Reply, v: nat)
    requires DescOk(d, |a|) && Answered(w, d, a, y) && v < |w.balU|
    ensures ViewOk(y.w) && |y.a| == |a| && v < |FinalView(w, d, a, y).balU|
    ensures FinalView(w, d, a, y).balU[v] == w.balU[v] - Releases(d.flags, Slots(Places(d, 0), a), Up(v))
  {
    var ps, xs := Places(d, 0), Slots(Places(d, 0), a);
    MapArgsSlots(w, ps, a);
    BackSum(w, y.w, d.flags, xs, Slots(ps, y.a), v);
  }

  /** What the lower layer gave back of alias `v` and what the second loop gives back. */
  lemma BackSum(w: View, w1: View, flags: nat, xs: seq<Vp>, ys: seq<Vp>, v: nat)
    requires ViewOk(w) && ViewOk(w1) && |xs| == |ys| && v < |w.balU| == |w1.balU|
    requires w1.balU[v] == w.balU[v] - Releases(flags, MapSlots(w, xs), Up(v))
    ensures BackView(w1, flags, OldVps(w, xs), ys, |xs|).balU[v] == w.balU[v] - Releases(flags, xs, Up(v))
  {
    MappedBalance(w, flags, xs, 0, v);
    BackCounted(w1, flags, OldVps(w, xs), ys, |xs|, v);
    BackCountMapped(w, flags, xs, |xs|, v);
    assert xs[..|xs|] == xs;
  }

  /** Mapping adds no net reference to any lower vnode, and every released argument, mapped or
      not, costs exactly one reference of the vnode the caller passed: tpt_bypass obeys the
      release flags if the lower layer does. */
  lemma BypassBalance(w: View, d: Desc, a: seq<Vp>, op: LowerOp)
    requires DescOk(d, |a|) && CallOk(w, d, a, op)
    ensures var y := LowerReply(w, d, a, op);
            var w' := FinalView(w, d, a, y);
            |w'.balL| == |w.balL| && |w'.balU| == |w.balU| &&
            Released(d.flags, Slots(Places(d, 0), a), Returned(d, y), w, w')
  {
    var xs, y := Slots(Places(d, 0), a), LowerReply(w, d, a, op);
    var w' := FinalView(w, d, a, y);
    forall l | 0 <= l < |w.balL|
      ensures w'.balL[l] == w.balL[l] - Releases(d.flags, xs, Low(l)) + Given(Returned(d, y), l)
    {
      LowerBalance(w, d, a, y, l);
    }
    forall v | 0 <= v < |w.balU|
      ensures w'.balU[v] == w.balU[v] - Releases(d.flags, xs, Up(v))
    {
      UpperBalance(w, d, a, y, v);
    }
  }

  lemma ReplyLeft(w: View, d: Desc, a: seq<Vp>, op: LowerOp)
    requires DescOk(d, |a|) && CallOk(w, d, a, op)
    ensures var y := LowerReply(w, d, a, op);
            Left(y.w, w, Slots(Places(d, 0), a), Slots(Places(d, 0), y.a))
  {
    AnswerLeft(w, d, a, LowerReply(w, d, a, op));
  }

  lemma AnswerLeft(w: View, d: Desc, a: seq<Vp>, y: Reply)
    requires DescOk(d, |a|) && Answered(w, d, a, y)
    requires forall i :: 0 <= i < |Places(d, 0)| && Maps(w, a[Places(d, 0)[i]], i) ==>
               w.modeOwn[a[Places(d, 0)[i]].v] == Unheld
    ensures Left(y.w, w, Slots(Places(d, 0), a), Slots(Places(d, 0), y.a))
  {
    var ps := Places(d, 0);
    var xs, ys := Slots(ps, a), Slots(ps, y.a);
    forall i | 0 <= i < |xs| && Maps(w, xs[i], i)
      ensures y.w.modeOwn[xs[i].v] == Unheld && (ys[i] == Low(w.lowerOf[xs[i].v]) || ys[i] == Null)
    {
      MapArgsAt(w, ps, a, |ps|, ps[i]);
    }
  }

  /** LockFollows for the locks tpt_bypass returns with. */
  lemma BypassLocks(w: View, d: Desc, a: seq<Vp>, op: LowerOp, i: nat, l: nat)
    requires DescOk(d, |a|) && CallOk(w, d, a, op) && i < |Places(d, 0)| && Maps(w, a[Places(d, 0)[i]], i)
    requires var y := LowerReply(w, d, a, op);
             y.a[Places(d, 0)[i]] == Low(l) && l < |y.w.modeL| && y.w.modeL[l] == Exclusive
    ensures var y, v := LowerReply(w, d, a, op), a[Places(d, 0)[i]].v;
            var w', ups, ys := FinalView(w, d, a, y), OldVps(w, Slots(Places(d, 0), a)), Slots(Places(d, 0), y.a);
            && v < |w'.lowerOf| && l == w.lowerOf[v] && w'.vnlk == y.w.vnlk
            && (NamedMode(w', v) == Exclusive <==> OnlyTo(y.w, ups, ys, l, v))
            && (w'.modeL[l] == Exclusive <==> forall j: nat :: !Strayed(y.w, ups, ys, j, l))
            && (FirstStrayed(y.w, ups, ys, i, l) ==> w'.modeOwn[v] == Exclusive)
  {
    ReplyLeft(w, d, a, op);
    var y := LowerReply(w, d, a, op);
    LockFollows(y.w, w, d.flags, Slots(Places(d, 0), a), Slots(Places(d, 0), y.a), i, l);
  }

  // ----- A call with an alias that is gone -----

  /** The second of two aliases was reclaimed, but v_op still is the vector of tptfs. */
  const HALF_GONE :=
    View([0, 1], [0, 0], [true, true], [Borrowed, Own], [0, 0], [0, 0], [Exclusive, Unheld], [Unheld, Unheld])

  lemma GoneArgument()
    ensures DescOk(BOTH, 2) && ViewOk(HALF_GONE) && SlotsOk(HALF_GONE, Slots(Places(BOTH, 0), ARGS))
    ensures Stale(HALF_GONE, Slots(Places(BOTH, 0), ARGS))
  {
    TwinsPlaces();
    assert NoData(HALF_GONE, Slots([0, 1], ARGS)[1], 1);
  }

  // ----- A call that loses a lock -----

  /** Two aliases of lower vnode 0, which is locked, and an operation on both. */
  const TWINS := View([0, 0], [0, 0], [true, true], [Borrowed, Borrowed], [0], [0, 0], [Exclusive], [Unheld, Unheld])
  const BOTH := Desc(0, [Some(0), Some(1), None], false)
  const ARGS := [Up(0), Up(1)]

  /** A lower layer during which the first of them is reclaimed. */
  function Reclaims(w: View, b: seq<Vp>): Reply {
    Reply(w.(vnlk := [Own, Borrowed]), b, 0, None)
  }

  lemma TwinsPlaces()
    ensures Places(BOTH, 0) == [0, 1] && DescOk(BOTH, 2)
  {
    assert Places(BOTH, 2) == [] && Places(BOTH, 1) == [1];
  }

  lemma {:induction false} NoFlags(i: nat)
    ensures Shifted(0, i) == 0 && !WillRele(0, i)
  {
    if i > 0 { NoFlags(i - 1); }
  }

  lemma {:induction false} NoReleases(xs: seq<Vp>, x: Vp)
    ensures Releases(0, xs, x) == 0
  {
    if xs != [] {
      NoFlags(|xs| - 1);
      NoReleases(xs[..|xs| - 1], x);
    }
  }

  lemma {:induction false} NothingTaken(w: View, xs: seq<Vp>)
    requires ViewOk(w)
    ensures MapView(w, 0, xs) == w
  {
    if xs != [] {
      NoFlags(|xs| - 1);
      NothingTaken(w, xs[..|xs| - 1]);
    }
  }

  lemma TwinsReply()
    ensures DescOk(BOTH, 2) && LowerReply(TWINS, BOTH, ARGS, Reclaims) == Reclaims(TWINS, [Low(0), Low(0)])
  {
    TwinsPlaces();
    NothingTaken(TWINS, Slots([0, 1], ARGS));
    assert MapArgs(TWINS, [0, 1], ARGS, 1) == [Low(0), Up(1)];
    assert MapArgs(TWINS, [0, 1], ARGS, 2) == [Low(0), Low(0)];
  }

  lemma TwinsAnswer()
    ensures DescOk(BOTH, 2) && Answered(TWINS, BOTH, ARGS, Reclaims(TWINS, [Low(0), Low(0)]))
  {
    TwinsPlaces();
    NothingTaken(TWINS, Slots([0, 1], ARGS));
    forall x
      ensures Releases(0, Slots([0, 1], [Low(0), Low(0)]), x) == 0
    {
      NoReleases(Slots([0, 1], [Low(0), Low(0)]), x);
    }
    assert MapArgs(TWINS, [0, 1], ARGS, 1) == [Low(0), Up(1)];
    assert MapArgs(TWINS, [0, 1], ARGS, 2) == [Low(0), Low(0)];
  }

  lemma TwinsCall()
    ensures DescOk(BOTH, 2) && CallOk(TWINS, BOTH, ARGS, Reclaims)
  {
    TwinsPlaces();
    TwinsReply();
    TwinsAnswer();
  }

  /** The alias that is not reclaimed goes on naming the lock of the lower vnode, but the lock the
      caller had went to the private lock of the other one. */
  lemma LockMayBeLost()
    ensures DescOk(BOTH, 2) && CallOk(TWINS, BOTH, ARGS, Reclaims)
    ensures var w' := FinalView(TWINS, BOTH, ARGS, LowerReply(TWINS, BOTH, ARGS, Reclaims));
            ViewOk(w') && |w'.lowerOf| == 2 && NamedMode(TWINS, 1) == Exclusive && NamedMode(w', 1) != Exclusive
  {
    TwinsPlaces();
    TwinsReply();
    TwinsCall();
    var y := LowerReply(TWINS, BOTH, ARGS, Reclaims);
    var ups, ys := OldVps(TWINS, Slots([0, 1], ARGS)), Slots([0, 1], y.a);
    assert FirstStrayed(y.w, ups, ys, 0, 0) && ups[0] == Some(0);
    BypassLocks(TWINS, BOTH, ARGS, Reclaims, 1, 0);
  }

  // ----- The vnode going out -----

  /** tpt_nodeget as tpt_bypass calls it: for a mount, and a lower vnode the thread has a reference to.
      Some(vp) is the alias. */
  datatype NodeReply = NodeReply(w: View, err: int, vp: Option<nat>)

  type NodeOp = (View, nat, nat) -> NodeReply

  /** It consumes the reference; success gives one to an alias of the vnode on the mount, perhaps a new
      one, whose lock the thread has. */
  ghost predicate NodeObeys(w: View, mp: nat, l: nat, z: NodeReply)
    requires ViewOk(w)
  {
    && ViewOk(z.w) && |z.w.balL| == |w.balL| && |w.lowerOf| <= |z.w.lowerOf|
    && (z.err == 0 <==> z.vp.Some?)
    && (z.vp.Some? ==>
          z.vp.value < |z.w.lowerOf| && z.w.lowerOf[z.vp.value] == l && z.w.mountOf[z.vp.value] == mp &&
          NamedMode(z.w, z.vp.value) != Unheld)
    && (forall m :: 0 <= m < |w.balL| ==> z.w.balL[m] == w.balL[m] - Given(Some(l), m))
    && (forall v :: 0 <= v < |z.w.balU| ==>
          z.w.balU[v] == (if v < |w.balU| then w.balU[v] else 0) + Given(z.vp, v))
  }

  /** The mount the new alias is for, that of old_vps[0]. */
  function FirstMount(w: View, d: Desc, a: seq<Vp>): nat
    requires DescOk(d, |a|) && a[Places(d, 0)[0]].Up? && a[Places(d, 0)[0]].v < |w.mountOf|
  {
    w.mountOf[a[Places(d, 0)[0]].v]
  }

  /** tpt_nodeget is legal when a vnode is returned. */
  ghost predicate NodeOk(w: View, d: Desc, a: seq<Vp>, op: LowerOp, ng: NodeOp)
    requires DescOk(d, |a|) && CallOk(w, d, a, op) && FirstOk(w, d, a)
  {
    var y, mp := LowerReply(w, d, a, op), FirstMount(w, d, a);
    var w1 := FinalView(w, d, a, y);
    ViewOk(w1) && (Returned(d, y).Some? ==> NodeObeys(w1, mp, y.res.value, ng(w1, mp, y.res.value)))
  }

  /** The first argument is an alias. */
  ghost predicate FirstOk(w: View, d: Desc, a: seq<Vp>)
    requires DescOk(d, |a|)
  {
    a[Places(d, 0)[0]].Up? && a[Places(d, 0)[0]].v < |w.mountOf|
  }

  /** The references of the whole operation: what the release flags name, no lower vnode more, and
      one of the alias that is returned. */
  ghost predicate Settled(flags: nat, xs: seq<Vp>, w: View, w': View, vpp: Option<nat>) {
    && |w'.balL| == |w.balL| && |w.balU| <= |w'.balU|
    && (forall l :: 0 <= l < |w.balL| ==> w'.balL[l] == w.balL[l] - Releases(flags, xs, Low(l)))
    && (forall v :: 0 <= v < |w'.balU| ==>
          w'.balU[v] == (if v < |w.balU| then w.balU[v] - Releases(flags, xs, Up(v)) else 0) + Given(vpp, v))
  }

  /** What tpt_bypass ends in: an error and a vnode, or the dereference of a null v_data. */
  datatype Outcome = Done(err: int, vpp: Option<nat>) | NullDereference

  /** BypassBalance together with tpt_nodeget. */
  lemma BypassSettles(w: View, d: Desc, a: seq<Vp>, op: LowerOp, ng: NodeOp)
    requires DescOk(d, |a|) && CallOk(w, d, a, op) && FirstOk(w, d, a) && NodeOk(w, d, a, op, ng)
    ensures var xs, y := Slots(Places(d, 0), a), LowerReply(w, d, a, op);
            var w1 := FinalView(w, d, a, y);
            if Returned(d, y).None? then Settled(d.flags, xs, w, w1, None)
            else var z := ng(w1, FirstMount(w, d, a), y.res.value); Settled(d.flags, xs, w, z.w, z.vp)
  {
    BypassBalance(w, d, a, op);
    var xs, y := Slots(Places(d, 0), a), LowerReply(w, d, a, op);
    var w1 := FinalView(w, d, a, y);
    if Returned(d, y).Some? {
      var mp := FirstMount(w, d, a);
      NodeSettles(d.flags, xs, w, w1, mp, y.res.value, ng(w1, mp, y.res.value));
    } else {
      NothingSettles(d.flags, xs, w, w1);
    }
  }

  lemma NothingSettles(flags: nat, xs: seq<Vp>, w: View, w1: View)
    requires |w1.balL| == |w.balL| && |w1.balU| == |w.balU| && Released(flags, xs, None, w, w1)
    ensures Settled(flags, xs, w, w1, None)
  {
  }

  lemma NodeSettles(flags: nat, xs: seq<Vp>, w: View, w1: View, mp: nat, l: nat, z: NodeReply)
    requires |w1.balL| == |w.balL| && |w1.balU| == |w.balU| && Released(flags, xs, Some(l), w, w1)
    requires ViewOk(w1) && NodeObeys(w1, mp, l, z)
    ensures Settled(flags, xs, w, z.w, z.vp)
  {
  }

  lemma FirstMapped(w: View, d: Desc, a: seq<Vp>)
    requires DescOk(d, |a|) && ViewOk(w) && SlotsOk(w, Slots(Places(d, 0), a))
    ensures MapArgs(w, Places(d, 0), a, |Places(d, 0)|)[Places(d, 0)[0]].Low?
  {
    assert Slots(Places(d, 0), a)[0].Up?;
    FirstLow(w, Places(d, 0), a);
  }

  lemma FirstLow(w: View, ps: seq<nat>, a: seq<Vp>)
    requires ViewOk(w) && |ps| > 0 && forall i :: 0 <= i < |ps| ==> ps[i] < |a|
    requires forall i, j :: 0 <= i < j < |ps| ==> ps[i] != ps[j]
    requires a[ps[0]].Up? && a[ps[0]].v < |w.lowerOf|
    ensures MapArgs(w, ps, a, |ps|)[ps[0]].Low?
  {
    MapArgsAt(w, ps, a, |ps|, ps[0]);
  }

  /** The arguments when tpt_bypass returns. */
  function ArgsAfter(w: View, d: Desc, a: seq<Vp>, op: LowerOp): (b: seq<Vp>)
    requires DescOk(d, |a|) && ViewOk(w) && |LowerReply(w, d, a, op).a| == |a|
    ensures |b| == |a|
  {
    BackArgs(LowerReply(w, d, a, op).a, Places(d, 0), OldVps(w, Slots(Places(d, 0), a)), |Places(d, 0)|)
  }

  /** `x` is what place `k` must hold: what it held if it was mapped, otherwise what the lower layer
      left there. */
  ghost predicate ArgBack(w: View, d: Desc, a: seq<Vp>, op: LowerOp, k: nat, x: Vp)
    requires DescOk(d, |a|) && ViewOk(w) && k < |a| && |LowerReply(w, d, a, op).a| == |a|
  {
    if exists i: nat :: MappedAt(w, Places(d, 0), Slots(Places(d, 0), a), i, k) then x == a[k]
    else x == LowerReply(w, d, a, op).a[k]
  }

  lemma ArgsAfterBack(w: View, d: Desc, a: seq<Vp>, op: LowerOp)
    requires DescOk(d, |a|) && CallOk(w, d, a, op)
    ensures forall k :: 0 <= k < |a| ==> ArgBack(w, d, a, op, k, ArgsAfter(w, d, a, op)[k])
  {
    forall k | 0 <= k < |a|
      ensures ArgBack(w, d, a, op, k, ArgsAfter(w, d, a, op)[k])
    {
      ArgsBack(w, Places(d, 0), a, LowerReply(w, d, a, op).a, k);
    }
  }

  /** The state of the kernel as the thread sees it. */
  class Caller {
    var w: View

    constructor (w0: View)
      ensures w == w0
    {
      w := w0;
    }

    /** One turn of the first loop: maps argument `i` at place `k`; not when its v_data is null. */
    method MapOne(a: array<Vp>, k: nat, i: nat, rele: bool) returns (ok: bool, up: Option<nat>)
      requires ViewOk(w) && k < a.Length && (a[k].Up? ==> a[k].v < |w.lowerOf|) && (i == 0 ==> a[k].Up?)
      modifies this, a
      ensures ok == !NoData(old(w), old(a[k]), i)
      ensures ok ==>
                && a[..] == old(a[..])[k := MapSlot(old(w), old(a[k]), i)]
                && w == Taken(old(w), old(a[k]), i, rele) && up == OldVp(old(w), old(a[k]), i)
    {
      var x := a[k];
      ok := true;
      if i > 0 && (!x.Up? || !w.tpt[x.v]) {
        up := None;
      } else {
        up := Some(x.v);
        if w.vnlk[x.v] == Own { return false, up; }
        var lvp := w.lowerOf[x.v];
        a[k] := Low(lvp);
        // The argument is the lower vnode by now, so the reference is one on it.
        if rele { w := w.(balL := w.balL[lvp := w.balL[lvp] + 1]); }
      }
    }

    /** One turn of the second loop: puts back what was at place `k`. */
    method PutBackOne(a: array<Vp>, k: nat, up: Option<nat>, rele: bool)
      requires k < a.Length && BackReady(w, up, a[k])
      modifies this, a
      ensures a[..] == if up.Some? then old(a[..])[k := Up(up.value)] else old(a[..])
      ensures w == BackOne(old(w), up, old(a[k]), rele)
    {
      if up.Some? {
        var lvp := a[k];
        if lvp.Low? && w.modeL[lvp.l] == Exclusive && w.vnlk[up.value] != Borrowed {
          w := w.(modeL := w.modeL[lvp.l := Unheld]);
          w := w.(modeOwn := w.modeOwn[up.value := Exclusive]);
        }
        a[k] := Up(up.value);
        if rele { w := w.(balU := w.balU[up.value := w.balU[up.value] - 1]); }
      }
    }

    /** Maps the vnodes going in. */
    method MapIn(d: Desc, a: array<Vp>) returns (ok: bool, ups: seq<Option<nat>>)
      requires ViewOk(w) && DescOk(d, a.Length) && SlotsOk(w, Slots(Places(d, 0), a[..]))
      modifies this, a
      ensures ok == !Stale(old(w), Slots(Places(d, 0), old(a[..])))
      ensures ok ==>
                && a[..] == MapArgs(old(w), Places(d, 0), old(a[..]), |Places(d, 0)|)
                && w == MapView(old(w), d.flags, Slots(Places(d, 0), old(a[..])))
                && ups == OldVps(old(w), Slots(Places(d, 0), old(a[..])))
    {
      ghost var w0, a0 := w, a[..];
      ok, ups := MapLoop(d, a, w0, a0);
      if ok { MappedAll(w0, d.flags, Places(d, 0), a0, w, a[..], ups); }
    }

    /** The loop of MapIn. */
    method MapLoop(d: Desc, a: array<Vp>, ghost w0: View, ghost a0: seq<Vp>) returns (ok: bool, ups: seq<Option<nat>>)
      requires w == w0 && a[..] == a0
      requires ViewOk(w0) && DescOk(d, |a0|) && SlotsOk(w0, Slots(Places(d, 0), a0))
      modifies this, a
      ensures ok == !Stale(w0, Slots(Places(d, 0), a0))
      ensures ok ==> MappedTo(w0, d.flags, Places(d, 0), a0, w, a[..], ups, |Places(d, 0)|)
    {
      var i, reles := 0, d.flags;
      ok, ups := true, [];
      EntryAt(d, a.Length, 0);
      while i < VDESC_MAX_VPS && d.offsets[i] != None
        invariant Mapping(d, w0, a0, reles, i, w, a[..], ups)
      {
        ok, ups := MapNext(d, a, i, reles, ups, w0, a0);
        if !ok { return; }
        i, reles := i + 1, reles / 2;
      }
      ok := true;
    }

    /** The body of that loop. */
    method MapNext(
      d: Desc, a: array<Vp>, i: nat, reles: nat, ups: seq<Option<nat>>, ghost w0: View, ghost a0: seq<Vp>)
      returns (ok: bool, ups': seq<Option<nat>>)
      requires Mapping(d, w0, a0, reles, i, w, a[..], ups) && i < |Places(d, 0)|
      modifies this, a
      ensures if ok then Mapping(d, w0, a0, reles / 2, i + 1, w, a[..], ups') else Stale(w0, Slots(Places(d, 0), a0))
    {
      ghost var k := NextPlace(d, w0, a0, reles, i, w, a[..], ups);
      assert a[k] == a[..][k];
      var up;
      ok, up := MapOne(a, d.offsets[i].value, i, reles % 2 == 1);
      ups' := ups + [up];
    }

    /** Puts the vnodes back that MapIn replaced. */
    method PutBack(d: Desc, a: array<Vp>, ups: seq<Option<nat>>, ghost w0: View, ghost xs: seq<Vp>)
      requires DescOk(d, a.Length) && ups == OldVps(w0, xs) && |xs| == |Places(d, 0)|
      requires Left(w, w0, xs, Slots(Places(d, 0), a[..]))
      modifies this, a
      ensures a[..] == BackArgs(old(a[..]), Places(d, 0), ups, |ups|)
      ensures w == BackView(old(w), d.flags, ups, Slots(Places(d, 0), old(a[..])), |ups|)
    {
      ghost var w1, b, ys := w, a[..], Slots(Places(d, 0), a[..]);
      var i, reles := 0, d.flags;
      EntryAt(d, a.Length, 0);
      while i < VDESC_MAX_VPS && d.offsets[i] != None
        invariant Putting(d, w1, w0, xs, b, ups, ys, reles, i, w, a[..])
      {
        PutNext(d, a, i, reles, ups, w0, xs, w1, b, ys);
        i, reles := i + 1, reles / 2;
      }
    }

    /** The body of that loop. */
    method PutNext(d: Desc, a: array<Vp>, i: nat, reles: nat, ups: seq<Option<nat>>, ghost w0: View, ghost xs: seq<Vp>,
                   ghost w1: View, ghost b: seq<Vp>, ghost ys: seq<Vp>)
      requires Putting(d, w1, w0, xs, b, ups, ys, reles, i, w, a[..]) && i < |Places(d, 0)|
      modifies this, a
      ensures Putting(d, w1, w0, xs, b, ups, ys, reles / 2, i + 1, w, a[..])
    {
      ghost var k := NextBack(d, w1, w0, xs, b, ups, ys, reles, i, w, a[..]);
      assert a[k] == a[..][k];
      PutBackOne(a, d.offsets[i].value, ups[i], reles % 2 == 1);
    }

    /** The call of the lower layer. The first argument is always mapped, so there is always a
        vector to call through and EINVAL is never returned here. */
    method CallLower(d: Desc, a: array<Vp>, op: LowerOp, ghost w0: View, ghost a0: seq<Vp>) returns (y: Reply)
      requires DescOk(d, a.Length) && |a0| == a.Length && CallOk(w0, d, a0, op)
      requires a[..] == MapArgs(w0, Places(d, 0), a0, |Places(d, 0)|)
      requires w == MapView(w0, d.flags, Slots(Places(d, 0), a0))
      modifies this, a
      ensures y == LowerReply(w0, d, a0, op) && w == y.w && a[..] == y.a
    {
      EntryAt(d, a.Length, 0);
      FirstMapped(w0, d, a0);
      assert a[Places(d, 0)[0]] == a[..][Places(d, 0)[0]];
      assert a[d.offsets[0].value].Low?;
      y := op(w, a[..]);
      w := y.w;
      forall k | 0 <= k < a.Length { a[k] := y.a[k]; }
      assert a[..] == y.a;
    }

    /** tpt_bypass up to the vnode going out. */
    method Forward(d: Desc, a: array<Vp>, op: LowerOp) returns (ok: bool, err: int, ret: Option<nat>)
      requires DescOk(d, a.Length) && ViewOk(w) && SlotsOk(w, Slots(Places(d, 0), a[..]))
      requires !Stale(w, Slots(Places(d, 0), a[..])) ==> CallOk(w, d, a[..], op)
      modifies this, a
      ensures ok == !Stale(old(w), Slots(Places(d, 0), old(a[..])))
      ensures ok ==>
                var y := LowerReply(old(w), d, old(a[..]), op);
                && a[..] == ArgsAfter(old(w), d, old(a[..]), op) && w == FinalView(old(w), d, old(a[..]), y)
                && err == y.err && ret == Returned(d, y)
    {
      ghost var w0, a0 := w, a[..];
      var ups;
      ok, ups := MapIn(d, a);
      err, ret := 0, None;
      if ok {
        var y := CallLower(d, a, op, w0, a0);
        ReplyLeft(w0, d, a0, op);
        PutBack(d, a, ups, w0, Slots(Places(d, 0), a0));
        err, ret := y.err, if d.vpp && y.err == 0 then y.res else None;
      }
    }

    /** tpt_bypass. It dereferences null if and only if one of the aliases it maps was reclaimed before
        the call; the lower layer is not called then. */
    method Bypass(d: Desc, a: array<Vp>, op: LowerOp, ng: NodeOp) returns (out: Outcome)
      requires DescOk(d, a.Length) && ViewOk(w) && SlotsOk(w, Slots(Places(d, 0), a[..]))
      requires FirstOk(w, d, a[..])
      requires !Stale(w, Slots(Places(d, 0), a[..])) ==> CallOk(w, d, a[..], op) && NodeOk(w, d, a[..], op, ng)
      modifies this, a
      ensures out == NullDereference <==> Stale(old(w), Slots(Places(d, 0), old(a[..])))
      // Every mapped argument is as it was, the others as the lower layer left them.
      ensures out.Done? ==> forall k :: 0 <= k < a.Length ==> ArgBack(old(w), d, old(a[..]), op, k, a[k])
      // References: what the release flags name, and one for the alias that is returned.
      ensures out.Done? ==> Settled(d.flags, old(Slots(Places(d, 0), a[..])), old(w), w, out.vpp)
      // Locks: see LockFollows; then what tpt_nodeget does.
      ensures out.Done? ==>
                var y := LowerReply(old(w), d, old(a[..]), op);
                var w1 := FinalView(old(w), d, old(a[..]), y);
                if Returned(d, y).None? then w == w1 && out == Done(y.err, None)
                else var z := ng(w1, FirstMount(old(w), d, old(a[..])), y.res.value);
                     w == z.w && out == Done(z.err, z.vp)
      // The vnode: an alias of the one the lower layer returned, on the mount of the first argument.
      ensures out.Done? ==>
                var y := LowerReply(old(w), d, old(a[..]), op);
                if d.vpp && y.err == 0 then
                  && y.res.Some? && (out.err == 0 <==> out.vpp.Some?)
                  && (out.vpp.Some? ==>
                        ViewOk(w) && out.vpp.value < |w.lowerOf| && w.lowerOf[out.vpp.value] == y.res.value &&
                        w.mountOf[out.vpp.value] == old(w.mountOf[a[Places(d, 0)[0]].v]))
                else out == Done(y.err, None)
    {
      ghost var w0, a0 := w, a[..];
      EntryAt(d, a.Length, 0);
      var first := w.mountOf[a[d.offsets[0].value].v];
      var ok, err, ret := Forward(d, a, op);
      if !ok { return NullDereference; }
      out := Done(err, None);
      if ret.Some? {
        var z := ng(w, first, ret.value);
        w := z.w;
        out := Done(z.err, z.vp);
      }
      BypassSettles(w0, d, a0, op, ng);
      ArgsAfterBack(w0, d, a0, op);
      assert forall k :: 0 <= k < a.Length ==> a[k] == a[..][k];
    }
  }
}
